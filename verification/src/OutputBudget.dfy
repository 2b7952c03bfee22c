/**
 Two readers drain a child's pipes and share one byte budget through compare-and-swap.
 A step is one read, one load of the counter or one swap attempt, which may also fail for no reason.
 */
module OutputBudget {
  import opened Bytes
  import opened Utf8

  const READ_BUFFER: nat := 8192

  datatype Phase =
    | Reading
    | Reserving(chunk: Bytes, wanted: nat)
    | Loaded(chunk: Bytes, wanted: nat, seen: nat)
    | Done

  /** `stream` is everything the child writes; `consumed` counts what was read of it (the original size reported). */
  datatype Reader = Reader(stream: Bytes, limit: nat, consumed: nat, kept: Bytes, phase: Phase)

  datatype Pipes = Pipes(counter: nat, combinedLimit: nat, out: Reader, err: Reader)

  datatype Step = Read(isOut: bool, size: nat) | Load(isOut: bool) | Swap(isOut: bool, spurious: bool)

  function Min(a: int, b: int): int {
    if a <= b then a else b
  }

  function Fresh(stream: Bytes, limit: nat): Reader {
    Reader(stream, limit, 0, [], Reading)
  }

  /** A read returns between one byte and a full buffer, or nothing at the end of the stream. */
  function AfterRead(r: Reader, size: nat): Reader {
    if r.consumed >= |r.stream| then r.(phase := Done)
    else if size == 0 || size > READ_BUFFER || size > |r.stream| - r.consumed then r
    else
      var chunk := r.stream[r.consumed..r.consumed + size];
      var remaining := if r.limit <= |r.kept| then 0 else r.limit - |r.kept|;
      var next := r.(consumed := r.consumed + size);
      if remaining == 0 then next else next.(phase := Reserving(chunk, Min(size, remaining)))
  }

  function StepReader(counter: nat, limit: nat, r: Reader, s: Step): (Reader, nat) {
    match (s, r.phase)
    case (Read(_, size), Reading) => (AfterRead(r, size), counter)
    case (Load(_), Reserving(chunk, wanted)) =>
      (r.(phase := if counter >= limit then Reading else Loaded(chunk, wanted, counter)), counter)
    case (Swap(_, spurious), Loaded(chunk, wanted, seen)) =>
      if counter != seen || spurious then (r.(phase := Reserving(chunk, wanted)), counter)
      else
        var room := if limit <= seen then 0 else limit - seen;
        var allowed: nat := if wanted <= room then wanted else room;
        (r.(kept := r.kept + (if allowed <= |chunk| then chunk[..allowed] else chunk), phase := Reading),
            seen + allowed)
    case _ => (r, counter)
  }

  function Next(p: Pipes, s: Step): Pipes {
    if s.isOut then
      var (r, c) := StepReader(p.counter, p.combinedLimit, p.out, s);
      p.(counter := c, out := r)
    else
      var (r, c) := StepReader(p.counter, p.combinedLimit, p.err, s);
      p.(counter := c, err := r)
  }

  function Execute(p: Pipes, schedule: seq<Step>): Pipes {
    if schedule == [] then p else Next(Execute(p, schedule[..|schedule| - 1]), schedule[|schedule| - 1])
  }

  function Start(out: Bytes, outLimit: nat, err: Bytes, errLimit: nat, combinedLimit: nat): Pipes {
    Pipes(0, combinedLimit, Fresh(out, outLimit), Fresh(err, errLimit))
  }

  // ------------------------------------------------------------------ invariant

  /** Bytes read and already decided about. */
  function Settled(r: Reader): int {
    match r.phase
    case Reserving(chunk, _) => r.consumed - |chunk|
    case Loaded(chunk, _, _) => r.consumed - |chunk|
    case _ => r.consumed
  }

  predicate ChunkFits(r: Reader, chunk: Bytes, wanted: nat) {
    && |chunk| <= r.consumed <= |r.stream| && chunk == r.stream[r.consumed - |chunk|..r.consumed]
    && |r.kept| < r.limit && wanted == Min(|chunk|, r.limit - |r.kept|) && wanted > 0
  }

  /** Nothing was lost while the shared budget had room. */
  predicate ReaderInvariant(r: Reader, counter: nat, combinedLimit: nat) {
    && r.consumed <= |r.stream|
    && |r.kept| <= r.limit
    && r.kept <= r.stream
    && (r.phase.Reserving? ==> ChunkFits(r, r.phase.chunk, r.phase.wanted))
    && (r.phase.Loaded? ==> ChunkFits(r, r.phase.chunk, r.phase.wanted) && r.phase.seen < combinedLimit)
    && (r.phase.Done? ==> r.consumed == |r.stream|)
    && (|r.kept| == Min(Settled(r), r.limit) || (counter == combinedLimit && |r.kept| <= Settled(r)))
  }

  predicate Invariant(p: Pipes) {
    && p.counter == |p.out.kept| + |p.err.kept| <= p.combinedLimit
    && ReaderInvariant(p.out, p.counter, p.combinedLimit)
    && ReaderInvariant(p.err, p.counter, p.combinedLimit)
  }

  /** A successful swap appends exactly the next bytes of the stream. */
  lemma SwapExtendsPrefix(r: Reader, counter: nat, limit: nat)
    requires ReaderInvariant(r, counter, limit) && r.phase.Loaded? && r.phase.seen == counter
    ensures var allowed := Min(r.phase.wanted, limit - counter);
            && 0 < allowed <= |r.phase.chunk| && |r.kept| == r.consumed - |r.phase.chunk|
            && r.kept + r.phase.chunk[..allowed] == r.stream[..|r.kept| + allowed]
  {
    var chunk, allowed := r.phase.chunk, Min(r.phase.wanted, limit - counter);
    assert |r.kept| == r.consumed - |chunk|;
    assert r.kept == r.stream[..|r.kept|];
    assert chunk[..allowed] == r.stream[|r.kept|..|r.kept| + allowed];
  }

  lemma SwapKeepsReader(counter: nat, limit: nat, r: Reader, s: Step)
    requires counter <= limit && ReaderInvariant(r, counter, limit) && s.Swap? && r.phase.Loaded?
    ensures var (r', c) := StepReader(counter, limit, r, s);
            && ReaderInvariant(r', c, limit)
            && counter <= c <= limit && c - counter == |r'.kept| - |r.kept|
            && r'.stream == r.stream && r'.limit == r.limit
  {
    if counter == r.phase.seen && !s.spurious {
      SwapExtendsPrefix(r, counter, limit);
    }
  }

  lemma StepKeepsReader(counter: nat, limit: nat, r: Reader, s: Step)
    requires counter <= limit && ReaderInvariant(r, counter, limit)
    ensures var (r', c) := StepReader(counter, limit, r, s);
            && ReaderInvariant(r', c, limit)
            && counter <= c <= limit && c - counter == |r'.kept| - |r.kept|
            && r'.stream == r.stream && r'.limit == r.limit
  {
    match (s, r.phase) {
      case (Read(_, size), Reading) =>
      case (Load(_), Reserving(chunk, wanted)) =>
      case (Swap(_, spurious), Loaded(chunk, wanted, seen)) =>
        SwapKeepsReader(counter, limit, r, s);
      case _ =>
    }
  }

  /** The other reader is not disturbed by a counter that only grows. */
  lemma CounterGrowthKeepsReader(r: Reader, counter: nat, later: nat, limit: nat)
    requires ReaderInvariant(r, counter, limit) && counter <= later <= limit
    ensures ReaderInvariant(r, later, limit)
  {
  }

  lemma NextKeepsInvariant(p: Pipes, s: Step)
    requires Invariant(p)
    ensures Invariant(Next(p, s))
    ensures Next(p, s).combinedLimit == p.combinedLimit
    ensures Next(p, s).out.stream == p.out.stream && Next(p, s).out.limit == p.out.limit
    ensures Next(p, s).err.stream == p.err.stream && Next(p, s).err.limit == p.err.limit
  {
    var r, other := if s.isOut then p.out else p.err, if s.isOut then p.err else p.out;
    StepKeepsReader(p.counter, p.combinedLimit, r, s);
    CounterGrowthKeepsReader(other, p.counter, StepReader(p.counter, p.combinedLimit, r, s).1, p.combinedLimit);
  }

  lemma {:induction false} ExecuteKeepsInvariant(p: Pipes, schedule: seq<Step>)
    requires Invariant(p)
    ensures Invariant(Execute(p, schedule))
    ensures Execute(p, schedule).combinedLimit == p.combinedLimit
    ensures Execute(p, schedule).out.stream == p.out.stream && Execute(p, schedule).out.limit == p.out.limit
    ensures Execute(p, schedule).err.stream == p.err.stream && Execute(p, schedule).err.limit == p.err.limit
    decreases |schedule|
  {
    if schedule != [] {
      ExecuteKeepsInvariant(p, schedule[..|schedule| - 1]);
      NextKeepsInvariant(Execute(p, schedule[..|schedule| - 1]), schedule[|schedule| - 1]);
    }
  }

  /**
   Under every schedule: what is kept of a stream is a prefix of it within its own limit, and once both readers are
   done the total kept depends on no schedule: it is all that the three limits allow.
   */
  lemma TotalIsScheduleIndependent(out: Bytes, outLimit: nat, err: Bytes, errLimit: nat, combinedLimit: nat,
      schedule: seq<Step>)
    ensures var p := Execute(Start(out, outLimit, err, errLimit, combinedLimit), schedule);
            && p.out.kept <= out && |p.out.kept| <= outLimit
            && p.err.kept <= err && |p.err.kept| <= errLimit
            && |p.out.kept| + |p.err.kept| <= combinedLimit
            && (|p.out.kept| + |p.err.kept| < combinedLimit ==>
                  && (p.out.phase.Done? ==> |p.out.kept| == Min(|out|, outLimit))
                  && (p.err.phase.Done? ==> |p.err.kept| == Min(|err|, errLimit)))
            && (p.out.phase.Done? && p.err.phase.Done? ==>
                  |p.out.kept| + |p.err.kept| == Min(combinedLimit, Min(|out|, outLimit) + Min(|err|, errLimit)))
  {
    ExecuteKeepsInvariant(Start(out, outLimit, err, errLimit, combinedLimit), schedule);
  }

  // ------------------------------------------------------------------ the readers finish

  lemma {:induction false} ExecuteConcat(p: Pipes, a: seq<Step>, b: seq<Step>)
    ensures Execute(p, a + b) == Execute(Execute(p, a), b)
    decreases |b|
  {
    if b == [] {
      assert a + b == a;
    } else {
      var front, last := b[..|b| - 1], b[|b| - 1];
      assert a + b == a + front + [last] && (a + front + [last])[..|a + front|] == a + front;
      ExecuteConcat(p, a, front);
    }
  }

  function ReaderOf(p: Pipes, isOut: bool): Reader {
    if isOut then p.out else p.err
  }

  /** How far a reader is from its next read: a swap that is up to date, a load, or a swap that will fail. */
  function Distance(p: Pipes, isOut: bool): nat {
    match ReaderOf(p, isOut).phase
    case Loaded(_, _, seen) => if seen == p.counter then 1 else 3
    case Reserving(_, _) => 2
    case _ => 0
  }

  /** The step a reader takes next when nobody disturbs it. */
  function OwnStep(p: Pipes, isOut: bool): Step {
    match ReaderOf(p, isOut).phase
    case Reading => Read(isOut, 1)
    case Reserving(_, _) => Load(isOut)
    case Loaded(_, _, _) => Swap(isOut, false)
    case Done => Load(isOut)
  }

  lemma OwnStepProgresses(p: Pipes, isOut: bool)
    requires Invariant(p) && !ReaderOf(p, isOut).phase.Done?
    ensures var p' := Next(p, OwnStep(p, isOut));
            var r, r' := ReaderOf(p, isOut), ReaderOf(p', isOut);
            && ReaderOf(p', !isOut) == ReaderOf(p, !isOut)
            && r'.stream == r.stream && r.consumed <= |r.stream|
            && (r'.phase.Done? || r.consumed < r'.consumed <= |r.stream|
                || (r'.consumed == r.consumed && Distance(p', isOut) < Distance(p, isOut)))
  {
  }

  /** Whatever has happened so far, steps of its own bring a reader to the end of its stream. */
  lemma {:induction false} ReaderFinishes(p: Pipes, isOut: bool) returns (schedule: seq<Step>)
    requires Invariant(p)
    ensures ReaderOf(Execute(p, schedule), isOut).phase.Done?
    ensures ReaderOf(Execute(p, schedule), !isOut) == ReaderOf(p, !isOut)
    ensures Invariant(Execute(p, schedule))
    decreases |ReaderOf(p, isOut).stream| - ReaderOf(p, isOut).consumed, Distance(p, isOut)
  {
    if ReaderOf(p, isOut).phase.Done? {
      schedule := [];
    } else {
      var step := OwnStep(p, isOut);
      var p' := Next(p, step);
      OwnStepProgresses(p, isOut);
      NextKeepsInvariant(p, step);
      assert [step][..0] == [] && Execute(p, [step]) == p';
      if ReaderOf(p', isOut).phase.Done? {
        schedule := [step];
      } else {
        var rest := ReaderFinishes(p', isOut);
        schedule := [step] + rest;
        ExecuteConcat(p, [step], rest);
      }
    }
  }

  /** So from every point of every schedule both readers can still finish. */
  lemma BothFinish(p: Pipes) returns (schedule: seq<Step>)
    requires Invariant(p)
    ensures Execute(p, schedule).out.phase.Done? && Execute(p, schedule).err.phase.Done?
  {
    var first := ReaderFinishes(p, true);
    var second := ReaderFinishes(Execute(p, first), false);
    schedule := first + second;
    ExecuteConcat(p, first, second);
  }

  // ------------------------------------------------------------------ the text handed out

  datatype ProcessOutput = ProcessOutput(retained: nat, truncated: bool, originalBytes: nat)

  /** Drops a character cut off at the end; malformed output keeps its length and is decoded lossily. */
  function IntoProcessOutput(kept: Bytes, originalBytes: nat): ProcessOutput {
    var valid := match Check(kept)
                 case Valid => |kept|
                 case Incomplete(upTo) => upTo
                 case Invalid(_) => |kept|;
    ProcessOutput(valid, originalBytes > valid || valid < |kept|, originalBytes)
  }

  /** What is handed out of one reader that is done. */
  ghost predicate LongestText(stream: Bytes, r: Reader) {
    var given := IntoProcessOutput(r.kept, r.consumed);
    && LongestTextPrefix(stream, |r.kept|, given.retained) && given.retained <= |r.kept|
    && r.kept[..given.retained] == stream[..given.retained]
    && given.originalBytes == |stream| && (given.truncated <==> given.retained < |stream|)
  }

  lemma DoneReaderText(r: Reader, counter: nat, combinedLimit: nat)
    requires ReaderInvariant(r, counter, combinedLimit) && r.phase.Done? && IsText(r.stream)
    ensures LongestText(r.stream, r)
  {
    assert r.stream[..|r.kept|] == r.kept;
    CutText(r.stream, |r.kept|);
  }

  /**
   Text output ends on a character boundary, as late as the budget allows, and is marked truncated exactly when bytes
   are missing: for either stream, whatever the other one is and under every schedule.
   */
  lemma RetainedTextIsLongest(out: Bytes, outLimit: nat, err: Bytes, errLimit: nat, combinedLimit: nat,
      schedule: seq<Step>)
    ensures var p := Execute(Start(out, outLimit, err, errLimit, combinedLimit), schedule);
            && (IsText(out) && p.out.phase.Done? ==> LongestText(out, p.out))
            && (IsText(err) && p.err.phase.Done? ==> LongestText(err, p.err))
  {
    ExecuteKeepsInvariant(Start(out, outLimit, err, errLimit, combinedLimit), schedule);
    var p := Execute(Start(out, outLimit, err, errLimit, combinedLimit), schedule);
    if IsText(out) && p.out.phase.Done? { DoneReaderText(p.out, p.counter, p.combinedLimit); }
    if IsText(err) && p.err.phase.Done? { DoneReaderText(p.err, p.counter, p.combinedLimit); }
  }
}
