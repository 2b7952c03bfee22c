/** What a stream says however it is fragmented, and what its answer says of it. */
module StreamLaws {
  import opened Options
  import opened Sequences
  import opened Utf8
  import opened State
  import opened StreamAssembly

  // ------------------------------------------------------------------ what a stream says

  /** What one event contributes. */
  lemma OneEventSays(id: Option<Text>, content: Option<Text>, reasoning: Option<Text>, tools: seq<ToolDelta>)
    ensures DigestOf([StreamEvent(id, None)]) == Digest(id, [], [], [])
    ensures DigestOf([StreamEvent(id, Some(Delta(content, reasoning, tools)))]) == Digest(id,
              match content case None => [] case Some(text) => text,
              match reasoning case None => [] case Some(text) => text, tools)
  {
    DigestSingle(StreamEvent(id, None));
    DigestSingle(StreamEvent(id, Some(Delta(content, reasoning, tools))));
  }

  /** An event as a stream of its own. */
  function Single(e: StreamEvent): Digest {
    if e.delta.None? then Digest(e.id, [], [], [])
    else Digest(e.id, OrEmpty(e.delta.value.content), OrEmpty(e.delta.value.reasoning), e.delta.value.tools)
  }

  lemma DigestSingle(e: StreamEvent)
    ensures DigestOf([e]) == Single(e)
  {
    assert [e][..0] == [];
    assert DigestOf([]) == Digest(None, [], [], []);
  }

  lemma DigestSnoc(events: seq<StreamEvent>, e: StreamEvent)
    ensures var d, last := DigestOf(events), Single(e);
            DigestOf(events + [e]) == Digest(if d.responseId.Some? then d.responseId else last.responseId,
              d.text + last.text, d.reasoning + last.reasoning, d.tools + last.tools)
  {
    assert (events + [e])[..|events|] == events;
    var d := DigestOf(events);
    assert d.text + [] == d.text && d.reasoning + [] == d.reasoning && d.tools + [] == d.tools;
  }

  /** Texts, reasoning and tool deltas of streams add up, and the first id given stays. */
  lemma {:induction false} DigestConcat(a: seq<StreamEvent>, b: seq<StreamEvent>)
    ensures var x, y := DigestOf(a), DigestOf(b);
            DigestOf(a + b) == Digest(if x.responseId.Some? then x.responseId else y.responseId,
              x.text + y.text, x.reasoning + y.reasoning, x.tools + y.tools)
    decreases |b|
  {
    if b == [] {
      assert a + b == a;
    } else {
      var front, e := b[..|b| - 1], b[|b| - 1];
      assert b == front + [e] && a + b == a + front + [e];
      DigestConcat(a, front);
      DigestSnoc(a + front, e);
      DigestSnoc(front, e);
      var x, y, last := DigestOf(a), DigestOf(front), Single(e);
      Associative(x.text, y.text, last.text);
      Associative(x.reasoning, y.reasoning, last.reasoning);
      Associative(x.tools, y.tools, last.tools);
    }
  }

  /** Two streams say the same: same id, text and reasoning, and the same about every index. */
  ghost predicate SameStream(a: seq<StreamEvent>, b: seq<StreamEvent>) {
    && DigestOf(a).responseId == DigestOf(b).responseId
    && DigestOf(a).text == DigestOf(b).text
    && DigestOf(a).reasoning == DigestOf(b).reasoning
    && SameByIndex(DigestOf(a).tools, DigestOf(b).tools)
  }

  /** Replacing a stretch of a stream by one that says the same does not change the answer. */
  lemma SameStretch(parse: Text -> ArgumentsReading, pre: seq<StreamEvent>, x: seq<StreamEvent>, y: seq<StreamEvent>,
      post: seq<StreamEvent>)
    requires SameStream(x, y)
    ensures StreamAnswer(parse, pre + x + post) == StreamAnswer(parse, pre + y + post)
  {
    DigestConcat(pre + x, post);
    DigestConcat(pre, x);
    DigestConcat(pre + y, post);
    DigestConcat(pre, y);
    SameInContext(DigestOf(pre).tools, DigestOf(x).tools, DigestOf(y).tools, DigestOf(post).tools);
    AnswerByIndex(parse, DigestOf(pre + x + post), DigestOf(pre + y + post).tools);
  }

  function Fragment(id: Option<Text>, content: Text, reasoning: Text, tools: seq<ToolDelta>): StreamEvent {
    StreamEvent(id, Some(Delta(Some(content), Some(reasoning), tools)))
  }

  /** An event may be cut in two anywhere in its text, its reasoning and its tool deltas. */
  lemma CutEvent(parse: Text -> ArgumentsReading, pre: seq<StreamEvent>, post: seq<StreamEvent>, id: Option<Text>,
      text: Text, moreText: Text, reasoning: Text, moreReasoning: Text, tools: seq<ToolDelta>,
      moreTools: seq<ToolDelta>)
    ensures StreamAnswer(parse, pre + [Fragment(id, text + moreText, reasoning + moreReasoning, tools + moreTools)]
              + post)
            == StreamAnswer(parse, pre + [Fragment(id, text, reasoning, tools),
                 Fragment(None, moreText, moreReasoning, moreTools)] + post)
  {
    var whole := Fragment(id, text + moreText, reasoning + moreReasoning, tools + moreTools);
    var first, second := Fragment(id, text, reasoning, tools), Fragment(None, moreText, moreReasoning, moreTools);
    OneEventSays(id, Some(text + moreText), Some(reasoning + moreReasoning), tools + moreTools);
    OneEventSays(id, Some(text), Some(reasoning), tools);
    OneEventSays(None, Some(moreText), Some(moreReasoning), moreTools);
    DigestConcat([first], [second]);
    assert [first] + [second] == [first, second];
    SameStretch(parse, pre, [whole], [first, second], post);
  }

  lemma TwoDeltas(d: ToolDelta, e: ToolDelta)
    ensures DigestOf([Fragment(None, [], [], [d]), Fragment(None, [], [], [e])]) == Digest(None, [], [], [d, e])
  {
    var x, y := Fragment(None, [], [], [d]), Fragment(None, [], [], [e]);
    DigestSingle(x);
    DigestSnoc([x], y);
    assert [x] + [y] == [x, y] && [d] + [e] == [d, e];
  }

  /** Events that carry deltas of different indices only may change places. */
  lemma SwapEvents(parse: Text -> ArgumentsReading, pre: seq<StreamEvent>, post: seq<StreamEvent>, d: ToolDelta,
      e: ToolDelta)
    requires d.index != e.index
    ensures var x, y := Fragment(None, [], [], [d]), Fragment(None, [], [], [e]);
            StreamAnswer(parse, pre + [x, y] + post) == StreamAnswer(parse, pre + [y, x] + post)
  {
    var x, y := Fragment(None, [], [], [d]), Fragment(None, [], [], [e]);
    TwoDeltas(d, e);
    TwoDeltas(e, d);
    SwappedSame(d, e);
    SameStretch(parse, pre, [x, y], [y, x], post);
  }

  // ------------------------------------------------------------------ what an answer says

  /** Why the call of an index cannot be taken, if it is named at all. */
  function Trouble(parse: Text -> ArgumentsReading, tools: seq<ToolDelta>, i: nat): Option<Answer> {
    if NameAt(tools, i) == [] then None
    else if IdAt(tools, i) == None || IdAt(tools, i) == Some([]) then Some(MissingCallId)
    else
      match parse(ArgumentsAt(tools, i))
      case NotJson => Some(InvalidArguments)
      case NotObject => Some(ArgumentsNotObject)
      case JsonObject(_) => None
  }

  /** The call an index adds up to. */
  ghost predicate IsCallAt(parse: Text -> ArgumentsReading, tools: seq<ToolDelta>, i: nat, call: StreamedCall) {
    && NameAt(tools, i) != [] && call.name == NameAt(tools, i)
    && IdAt(tools, i) == Some(call.nativeId) && call.nativeId != []
    && parse(ArgumentsAt(tools, i)) == JsonObject(call.input)
  }

  /** The positions of the flags that are set, in order. */
  function Marked(flags: seq<bool>): (r: seq<nat>)
    ensures forall k | 0 <= k < |r| :: r[k] < |flags| && flags[r[k]]
    ensures forall k, l | 0 <= k < l < |r| :: r[k] < r[l]
    ensures forall i | 0 <= i < |flags| && flags[i] :: i in r
  {
    if flags == [] then []
    else
      var n := |flags| - 1;
      Marked(flags[..n]) + if flags[n] then [n] else []
  }

  lemma MarkedSnoc(flags: seq<bool>, flag: bool)
    ensures Marked(flags + [flag]) == Marked(flags) + if flag then [|flags|] else []
  {
    assert (flags + [flag])[..|flags|] == flags;
  }

  /** Which of the first `n` indices are given a name. */
  function NamedFlags(tools: seq<ToolDelta>, n: nat): (r: seq<bool>)
    ensures |r| == n && forall i | 0 <= i < n :: r[i] == (NameAt(tools, i) != [])
  {
    seq(n, i requires 0 <= i < n => NameAt(tools, i) != [])
  }

  /** The indices that are given a name, in order; all are below the number of slots. */
  function Named(tools: seq<ToolDelta>): seq<nat> {
    Marked(NamedFlags(tools, Slots(tools)))
  }

  /** The calls are those of the given indices, one for each. */
  ghost predicate CallsAt(parse: Text -> ArgumentsReading, tools: seq<ToolDelta>, indices: seq<nat>,
      calls: seq<StreamedCall>)
  {
    |calls| == |indices| && forall k | 0 <= k < |indices| :: IsCallAt(parse, tools, indices[k], calls[k])
  }

  lemma OwnCallSays(parse: Text -> ArgumentsReading, tools: seq<ToolDelta>, i: nat)
    ensures var own := OwnCall(parse, tools, i);
            if own.Refused? then Trouble(parse, tools, i) == Some(own.why)
            else
              && Trouble(parse, tools, i) == None
              && (if NameAt(tools, i) == [] then own.calls == []
                  else |own.calls| == 1 && IsCallAt(parse, tools, i, own.calls[0]))
  {
  }

  lemma CallsAtNext(parse: Text -> ArgumentsReading, tools: seq<ToolDelta>, indices: seq<nat>,
      calls: seq<StreamedCall>, n: nat, call: StreamedCall)
    requires CallsAt(parse, tools, indices, calls) && IsCallAt(parse, tools, n, call)
    ensures CallsAt(parse, tools, indices + [n], calls + [call])
  {
  }

  lemma {:induction false} CallsAreNamed(parse: Text -> ArgumentsReading, tools: seq<ToolDelta>, n: nat)
    requires CallsOf(parse, tools, n).Calls?
    ensures CallsAt(parse, tools, Marked(NamedFlags(tools, n)), CallsOf(parse, tools, n).calls)
    decreases n
  {
    if n > 0 {
      CallsStep(parse, tools, n - 1);
      CallsAreNamed(parse, tools, n - 1);
      OwnCallSays(parse, tools, n - 1);
      NamedNext(parse, tools, n - 1, CallsOf(parse, tools, n - 1).calls, OwnCall(parse, tools, n - 1).calls);
    }
  }

  lemma NamedNext(parse: Text -> ArgumentsReading, tools: seq<ToolDelta>, n: nat, before: seq<StreamedCall>,
      own: seq<StreamedCall>)
    requires CallsAt(parse, tools, Marked(NamedFlags(tools, n)), before)
    requires if NameAt(tools, n) == [] then own == [] else |own| == 1 && IsCallAt(parse, tools, n, own[0])
    ensures CallsAt(parse, tools, Marked(NamedFlags(tools, n + 1)), before + own)
  {
    var flags, flag := NamedFlags(tools, n), NameAt(tools, n) != [];
    assert NamedFlags(tools, n + 1) == flags + [flag];
    MarkedSnoc(flags, flag);
    if flag {
      assert own == [own[0]];
      CallsAtNext(parse, tools, Marked(flags), before, n, own[0]);
    } else {
      assert before + own == before && Marked(flags) + [] == Marked(flags);
    }
  }

  /** Lists that are put together have no trouble among them. */
  lemma {:induction false} NoneRefused(lists: seq<CallList>, i: nat)
    requires Collect(lists).Calls? && i < |lists|
    ensures lists[i].Calls?
    decreases |lists|
  {
    if i < |lists| - 1 { NoneRefused(lists[..|lists| - 1], i); }
  }

  lemma {:induction false} FirstRefused(lists: seq<CallList>) returns (i: nat)
    requires Collect(lists).Refused?
    ensures i < |lists| && lists[i] == Collect(lists)
    ensures forall j | 0 <= j < i :: lists[j].Calls?
    decreases |lists|
  {
    var front := lists[..|lists| - 1];
    if Collect(front).Refused? {
      i := FirstRefused(front);
    } else {
      i := |lists| - 1;
      forall j | 0 <= j < i ensures lists[j].Calls? {
        NoneRefused(front, j);
      }
    }
  }

  lemma NoTrouble(parse: Text -> ArgumentsReading, tools: seq<ToolDelta>, i: nat)
    requires CallsOf(parse, tools, Slots(tools)).Calls?
    ensures Trouble(parse, tools, i) == None
  {
    if i < Slots(tools) {
      NoneRefused(OwnCalls(parse, tools, Slots(tools)), i);
      OwnCallSays(parse, tools, i);
    } else {
      BeyondSlots(tools, i);
    }
  }

  /** The first index in trouble decides the refusal. */
  lemma FirstTrouble(parse: Text -> ArgumentsReading, tools: seq<ToolDelta>, n: nat) returns (i: nat)
    requires CallsOf(parse, tools, n).Refused?
    ensures i < n && Trouble(parse, tools, i) == Some(CallsOf(parse, tools, n).why)
    ensures forall j | 0 <= j < i :: Trouble(parse, tools, j) == None
  {
    var lists := OwnCalls(parse, tools, n);
    i := FirstRefused(lists);
    OwnCallSays(parse, tools, i);
    forall j | 0 <= j < i ensures Trouble(parse, tools, j) == None {
      assert lists[j].Calls?;
      OwnCallSays(parse, tools, j);
    }
  }

  /** A refusal is an error, never an answer. */
  lemma CallsTaken(parse: Text -> ArgumentsReading, tools: seq<ToolDelta>)
    ensures CallsOf(parse, tools, Slots(tools)).Refused? ==> !CallsOf(parse, tools, Slots(tools)).why.Parsed?
  {
    if CallsOf(parse, tools, Slots(tools)).Refused? {
      var i := FirstTrouble(parse, tools, Slots(tools));
      assert Trouble(parse, tools, i).Some? && !Trouble(parse, tools, i).value.Parsed?;
    }
  }

  /**
   An answer that is not refused has the whole text and reasoning of the stream, its first id, and one call for each
   named index, in order; something must have been said.
   */
  lemma AnswerSays(parse: Text -> ArgumentsReading, events: seq<StreamEvent>)
    requires StreamAnswer(parse, events).Parsed?
    ensures var said, answer := DigestOf(events), StreamAnswer(parse, events);
            && answer.text == said.text
            && answer.responseId == (match said.responseId case None => [] case Some(id) => id)
            && answer.reasoning == (if said.reasoning == [] then None else Some(said.reasoning))
            && CallsAt(parse, said.tools, Named(said.tools), answer.calls)
            && (forall i: nat :: Trouble(parse, said.tools, i) == None)
            && (IsBlank(answer.text) ==> answer.calls != [])
  {
    var tools := DigestOf(events).tools;
    CallsTaken(parse, tools);
    CallsAreNamed(parse, tools, Slots(tools));
    forall i: nat ensures Trouble(parse, tools, i) == None {
      NoTrouble(parse, tools, i);
    }
  }

  /** A refusal names the trouble of the first index that is in any, or says that nothing was said. */
  lemma RefusalSays(parse: Text -> ArgumentsReading, events: seq<StreamEvent>) returns (i: nat)
    requires !StreamAnswer(parse, events).Parsed?
    ensures var said, answer := DigestOf(events), StreamAnswer(parse, events);
            if answer == EmptyAnswer then IsBlank(said.text) && forall k: nat :: NameAt(said.tools, k) == []
            else
              && Trouble(parse, said.tools, i) == Some(answer)
              && forall j | 0 <= j < i :: Trouble(parse, said.tools, j) == None
  {
    var tools := DigestOf(events).tools;
    if CallsOf(parse, tools, Slots(tools)).Refused? {
      i := FirstTrouble(parse, tools, Slots(tools));
    } else {
      i := 0;
      CallsAreNamed(parse, tools, Slots(tools));
      forall k: nat ensures NameAt(tools, k) == [] {
        NoneNamed(tools, k);
      }
    }
  }

  lemma NoneNamed(tools: seq<ToolDelta>, k: nat)
    requires Named(tools) == []
    ensures NameAt(tools, k) == []
  {
    if k < Slots(tools) {
      assert !NamedFlags(tools, Slots(tools))[k];
    } else {
      BeyondSlots(tools, k);
    }
  }
}
