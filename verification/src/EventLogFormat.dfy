/**
 The JSON Lines event log as bytes: what a full read accepts, and how it behaves under appending, cutting and repair.
 */
module EventLogFormat {
  import opened Bytes
  import opened Options
  import opened TextLines
  import opened Utf8
  import opened State
  import opened Reducer

  const MAX_EVENT_LOG_BYTES: nat := 128 * 1024 * 1024
  const MAX_EVENT_COUNT: nat := 1_000_000

  /** The JSON codec of one event; undecodable covers both malformed JSON and another schema version. */
  datatype Codec = Codec(encode: Event -> Bytes, decode: Bytes -> Option<Event>)

  ghost predicate Sound(c: Codec) {
    forall e :: NEWLINE !in c.encode(e) && !IsBlank(c.encode(e)) && IsText(c.encode(e))
        && c.decode(c.encode(e)) == Some(e)
  }

  // ------------------------------------------------------------------ cutting and repair

  /** The longest newline-terminated prefix: what repair keeps. */
  function CompletePart(s: Bytes): (r: Bytes)
    ensures r <= s && Terminated(r)
    ensures forall i | |r| <= i < |s| :: s[i] != NEWLINE
  {
    if Terminated(s) then s else CompletePart(s[..|s| - 1])
  }

  lemma CompletePartUnique(s: Bytes, r: Bytes)
    requires r <= s && Terminated(r) && forall i | |r| <= i < |s| :: s[i] != NEWLINE
    ensures CompletePart(s) == r
  {
    assert |r| <= |CompletePart(s)| <= |r|;
  }

  /** Extending a text never changes its complete part, only lengthens it. */
  lemma CompletePartGrows(s: Bytes, t: Bytes)
    requires s <= t
    ensures CompletePart(s) <= CompletePart(t)
  {
    var c, d := CompletePart(s), CompletePart(t);
    assert c != [] ==> t[|c| - 1] == NEWLINE;
    assert |c| <= |d|;
  }

  /** Cutting the append of one line at any byte and repairing leaves the old log, or the old log and the whole line. */
  lemma CutThenRepair(log: Bytes, body: Bytes, k: nat)
    requires Terminated(log) && NEWLINE !in body && k <= |body| + 1
    ensures CompletePart(log + (body + [NEWLINE])[..k]) == if k == |body| + 1 then log + body + [NEWLINE] else log
  {
    var written := log + (body + [NEWLINE])[..k];
    if k == |body| + 1 {
      assert written == log + body + [NEWLINE];
    } else {
      forall i | |log| <= i < |written| ensures written[i] != NEWLINE {
        assert written[i] == body[i - |log|];
      }
      CompletePartUnique(written, log);
    }
  }

  lemma RepairIdempotent(s: Bytes)
    ensures CompletePart(CompletePart(s)) == CompletePart(s)
  {
    CompletePartUnique(CompletePart(s), CompletePart(s));
  }

  // ------------------------------------------------------------------ reading

  /** The checks a line passes to become the next event. */
  predicate AcceptableLine(c: Codec, events: seq<Event>, line: Bytes) {
    && !IsBlank(line)
    && c.decode(line).Some?
    && var e := c.decode(line).value;
       && e.seqNo == |events| + 1
       && (if events == [] then e.payload.SessionCreated? && e.turnId.None? else e.sessionId == events[0].sessionId)
  }

  /** Reads lines after `events`. */
  function ParseLines(c: Codec, events: seq<Event>, lines: seq<Bytes>): (r: Option<seq<Event>>)
    ensures r.Some? ==> events <= r.value && |r.value| == |events| + |lines|
    decreases |lines|
  {
    if lines == [] then Some(events)
    else if AcceptableLine(c, events, lines[0]) then ParseLines(c, events + [c.decode(lines[0]).value], lines[1..])
    else None
  }

  lemma {:induction false} ParseConcat(c: Codec, events: seq<Event>, a: seq<Bytes>, b: seq<Bytes>)
    ensures ParseLines(c, events, a + b) ==
            if ParseLines(c, events, a).None? then None else ParseLines(c, ParseLines(c, events, a).value, b)
    decreases |a|
  {
    if a == [] {
      assert a + b == b;
    } else if AcceptableLine(c, events, a[0]) {
      assert (a + b)[1..] == a[1..] + b;
      ParseConcat(c, events + [c.decode(a[0]).value], a[1..], b);
    }
  }

  /** The state after a log, started from the session its first event names. */
  function LogState(events: seq<Event>): Option<SessionState>
    requires events != []
  {
    Replay(NewSession(events[0].sessionId), events)
  }

  /** The events a file holds, however many. */
  function Contents(c: Codec, content: Bytes): (r: Option<seq<Event>>) {
    if |content| > MAX_EVENT_LOG_BYTES then None
    else if content == [] then Some([])
    else if !Terminated(content) || !IsText(content) then None
    else
      var parsed := ParseLines(c, [], Lines(content));
      if parsed.Some? && parsed.value != [] && LogState(parsed.value).Some? then parsed else None
  }

  /** A read of the whole file, which also limits the number of events: the reference for every other way of reading. */
  function ReadLog(c: Codec, content: Bytes): (r: Option<seq<Event>>) {
    var held := Contents(c, content);
    if held.Some? && |held.value| > MAX_EVENT_COUNT then None else held
  }

  /** A file that does not exist reads as an empty log. */
  function ReadFile(c: Codec, file: Option<Bytes>): Option<seq<Event>> {
    if file.None? then Some([]) else ReadLog(c, file.value)
  }

  function Held(c: Codec, file: Option<Bytes>): Option<seq<Event>> {
    if file.None? then Some([]) else Contents(c, file.value)
  }

  /** An otherwise readable file with more events than a full read takes. */
  predicate Overfull(c: Codec, file: Option<Bytes>) {
    Held(c, file).Some? && |Held(c, file).value| > MAX_EVENT_COUNT
  }

  lemma NonEmptyLog(c: Codec, content: Bytes)
    requires Contents(c, content).Some? && content != []
    ensures Contents(c, content).value != []
  {
  }

  /** The events of a log and what its file was grown by, from the events and the new bytes alone. */
  function Continued(c: Codec, events: seq<Event>, suffix: Bytes): Option<seq<Event>>
    requires events != []
  {
    if !Terminated(suffix) || !IsText(suffix) then None
    else
      var parsed := ParseLines(c, events, Lines(suffix));
      if parsed.Some? && LogState(parsed.value).Some? then parsed else None
  }

  /** Reading a longer file is reading its validated prefix and then only what was appended. */
  lemma SuffixRead(c: Codec, prefix: Bytes, suffix: Bytes)
    requires prefix != [] && suffix != [] && Contents(c, prefix).Some? && |prefix + suffix| <= MAX_EVENT_LOG_BYTES
    ensures var events := Contents(c, prefix).value;
            events != [] && Contents(c, prefix + suffix) == Continued(c, events, suffix)
  {
    NonEmptyLog(c, prefix);
    TailDecides(prefix, suffix);
    AppendText(prefix, suffix);
    if Terminated(suffix) && IsText(suffix) {
      ParseTail(c, prefix, suffix);
    }
  }

  lemma TailDecides(prefix: Bytes, suffix: Bytes)
    requires suffix != []
    ensures prefix + suffix != [] && Terminated(prefix + suffix) == Terminated(suffix)
  {
  }

  lemma ParseTail(c: Codec, prefix: Bytes, suffix: Bytes)
    requires Terminated(prefix) && ParseLines(c, [], Lines(prefix)).Some?
    ensures ParseLines(c, [], Lines(prefix + suffix)) ==
              ParseLines(c, ParseLines(c, [], Lines(prefix)).value, Lines(suffix))
  {
    LinesConcat(prefix, suffix);
    ParseConcat(c, [], Lines(prefix), Lines(suffix));
  }

  /** Appending an encoded event, numbered next, to a log: a log again exactly when the reducer accepts the event. */
  lemma AppendRead(c: Codec, content: Bytes, e: Event)
    requires Sound(c) && Contents(c, content).Some?
    requires e.seqNo == |Contents(c, content).value| + 1
    requires |content + c.encode(e) + [NEWLINE]| <= MAX_EVENT_LOG_BYTES
    requires var events := Contents(c, content).value; events != [] ==> events[0].sessionId == e.sessionId
    ensures var events := Contents(c, content).value;
            var before := if events == [] then NewSession(e.sessionId) else LogState(events).value;
            Contents(c, content + c.encode(e) + [NEWLINE]) == if Reduce(before, e).ok then Some(events + [e]) else None
  {
    var events, line := Contents(c, content).value, c.encode(e) + [NEWLINE];
    assert content + c.encode(e) + [NEWLINE] == content + line;
    if content == [] {
      assert content + line == line && events + [e] == [e];
      FirstLineRead(c, e);
    } else {
      SuffixRead(c, content, line);
      NextLineContinues(c, events, e);
    }
  }

  lemma FirstLineRead(c: Codec, e: Event)
    requires Sound(c) && e.seqNo == 1 && |c.encode(e) + [NEWLINE]| <= MAX_EVENT_LOG_BYTES
    ensures Contents(c, c.encode(e) + [NEWLINE]) == if Reduce(NewSession(e.sessionId), e).ok then Some([e]) else None
  {
    LinesOfOne(c.encode(e));
    EncodedLineIsText(c, e);
    OneLineParsed(c, [], e);
    assert [] + [e] == [e];
    FirstEvent(e);
  }

  lemma NextLineContinues(c: Codec, events: seq<Event>, e: Event)
    requires Sound(c) && events != [] && LogState(events).Some?
    requires e.seqNo == |events| + 1 && events[0].sessionId == e.sessionId
    ensures Continued(c, events, c.encode(e) + [NEWLINE]) ==
            if Reduce(LogState(events).value, e).ok then Some(events + [e]) else None
  {
    LinesOfOne(c.encode(e));
    EncodedLineIsText(c, e);
    OneLineParsed(c, events, e);
    ReplaySnoc(NewSession(events[0].sessionId), events, e);
  }

  lemma OneLineParsed(c: Codec, events: seq<Event>, e: Event)
    requires Sound(c)
    ensures ParseLines(c, events, [c.encode(e)]) == if AcceptableLine(c, events, c.encode(e)) then Some(events + [e])
              else None
  {
    assert ParseLines(c, events + [e], [c.encode(e)][1..]) == Some(events + [e]);
  }

  lemma EncodedLineIsText(c: Codec, e: Event)
    requires Sound(c)
    ensures IsText(c.encode(e) + [NEWLINE])
  {
    AppendText(c.encode(e), [NEWLINE]);
    assert IsText([NEWLINE]) by {
      assert ScanChar([NEWLINE]) == Complete(1) && [NEWLINE][1..] == [];
    }
  }

  lemma FirstEvent(e: Event)
    requires e.seqNo == 1
    ensures Reduce(NewSession(e.sessionId), e).ok <==> e.payload.SessionCreated? && e.turnId.None?
    ensures LogState([e]) == if Reduce(NewSession(e.sessionId), e).ok
              then Some(Reduce(NewSession(e.sessionId), e).state) else None
  {
    assert [e][..0] == [];
    assert Replay(NewSession(e.sessionId), [e][..0]) == Some(NewSession(e.sessionId));
  }

  // ------------------------------------------------------------------ the event limit

  /**
   Appending checks the byte limit but never the event limit that reading checks: a full log of exactly 1,000,000 events
   takes one more acceptable event, after which a full read fails although every line of the file is in order.
   */
  lemma FullLogTakesOneMore(c: Codec, content: Bytes, e: Event)
    requires Sound(c) && ReadLog(c, content).Some? && |ReadLog(c, content).value| == MAX_EVENT_COUNT
    requires var events := ReadLog(c, content).value;
             e.seqNo == |events| + 1 && e.sessionId == events[0].sessionId && Reduce(LogState(events).value, e).ok
    requires |content + c.encode(e) + [NEWLINE]| <= MAX_EVENT_LOG_BYTES
    ensures ReadLog(c, content + c.encode(e) + [NEWLINE]) == None
    ensures Contents(c, content + c.encode(e) + [NEWLINE]) == Some(ReadLog(c, content).value + [e])
  {
    AppendRead(c, content, e);
  }

  /**
   Fewer bytes than any encoded event has: keys, schema number and two hyphenated identifiers are always written out.
   */
  const MIN_EVENT_BYTES: nat := 134

  ghost predicate Roomy(c: Codec) {
    forall e :: |c.encode(e)| >= MIN_EVENT_BYTES
  }

  ghost predicate EncodedLine(c: Codec, line: Bytes) {
    exists e :: line == c.encode(e)
  }

  ghost predicate EncodedLines(c: Codec, lines: seq<Bytes>) {
    forall i | 0 <= i < |lines| :: EncodedLine(c, lines[i])
  }

  /** Every complete line of the file was written by the encoder. */
  ghost predicate Written(c: Codec, data: Bytes) {
    EncodedLines(c, Lines(CompletePart(data)))
  }

  /** An append, cut anywhere, keeps a file of encoded lines one. */
  lemma WrittenAppend(c: Codec, data: Bytes, e: Event, k: nat)
    requires Sound(c) && Terminated(data) && Written(c, data) && k <= |c.encode(e)| + 1
    ensures Written(c, data + (c.encode(e) + [NEWLINE])[..k])
  {
    var body := c.encode(e);
    CutThenRepair(data, body, k);
    assert CompletePart(data) == data;
    if k == |body| + 1 {
      WholeLineWritten(c, data, e);
    }
  }

  lemma WholeLineWritten(c: Codec, data: Bytes, e: Event)
    requires Sound(c) && Terminated(data) && EncodedLines(c, Lines(data))
    ensures EncodedLines(c, Lines(data + c.encode(e) + [NEWLINE]))
  {
    var body := c.encode(e);
    assert data + body + [NEWLINE] == data + (body + [NEWLINE]);
    LinesConcat(data, body + [NEWLINE]);
    LinesOfOne(body);
    assert EncodedLine(c, body);
  }

  lemma WrittenRepair(c: Codec, data: Bytes)
    requires Written(c, data)
    ensures Written(c, CompletePart(data))
  {
    RepairIdempotent(data);
  }

  predicate LongLines(lines: seq<Bytes>, room: nat) {
    lines != [] ==> |lines[0]| >= room && LongLines(lines[1..], room)
  }

  lemma {:induction false} EncodedLinesAreLong(c: Codec, lines: seq<Bytes>)
    requires Roomy(c) && EncodedLines(c, lines)
    ensures LongLines(lines, MIN_EVENT_BYTES)
  {
    if lines != [] {
      assert EncodedLine(c, lines[0]);
      assert forall i | 0 <= i < |lines[1..]| :: lines[1..][i] == lines[i + 1];
      EncodedLinesAreLong(c, lines[1..]);
    }
  }

  lemma {:induction false} LinesTakeRoom(content: Bytes, room: nat)
    requires Terminated(content) && LongLines(Lines(content), room)
    ensures |content| >= |Lines(content)| * (room + 1)
    decreases |content|
  {
    if content != [] {
      TerminatedLine(content);
      var first, rest := content[..NewlineAt(content)], content[NewlineAt(content) + 1..];
      assert Lines(content) == [first] + Lines(rest);
      assert Lines(content)[1..] == Lines(rest);
      LinesTakeRoom(rest, room);
      OneMoreLine(|Lines(rest)|, room);
    }
  }

  lemma OneMoreLine(n: nat, room: nat)
    ensures (n + 1) * (room + 1) == n * (room + 1) + room + 1
  {
  }

  lemma OneEventPerLine(c: Codec, content: Bytes)
    requires Contents(c, content).Some?
    ensures Terminated(content) && |content| <= MAX_EVENT_LOG_BYTES
    ensures |Contents(c, content).value| == |Lines(content)|
  {
  }

  lemma WrittenHasFewLines(c: Codec, content: Bytes)
    requires Roomy(c) && Terminated(content) && Written(c, content) && |content| <= MAX_EVENT_LOG_BYTES
    ensures |Lines(content)| < MAX_EVENT_COUNT
  {
    assert CompletePart(content) == content;
    EncodedLinesAreLong(c, Lines(content));
    LinesTakeRoom(content, MIN_EVENT_BYTES);
  }

  /** A file of encoded lines meets the byte limit before the event limit, so the missing check never shows. */
  lemma WrittenNeverOverfull(c: Codec, file: Option<Bytes>)
    requires Roomy(c) && (file.Some? ==> Written(c, file.value))
    ensures !Overfull(c, file)
  {
    if file.Some? && Contents(c, file.value).Some? {
      OneEventPerLine(c, file.value);
      WrittenHasFewLines(c, file.value);
    }
  }
}
