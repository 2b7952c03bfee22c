/** Assembly of a streamed chat completion from its deltas. */
module StreamAssembly {
  import opened Options
  import opened Sequences
  import opened Utf8
  import opened State

  datatype ToolDelta = ToolDelta(index: nat, id: Option<Text>, name: Option<Text>, arguments: Option<Text>)

  datatype Delta = Delta(content: Option<Text>, reasoning: Option<Text>, tools: seq<ToolDelta>)

  datatype StreamEvent = StreamEvent(id: Option<Text>, delta: Option<Delta>)

  /** How an argument text reads as JSON. */
  datatype ArgumentsReading = NotJson | NotObject | JsonObject(value: Json)

  datatype StreamedCall = StreamedCall(nativeId: Text, name: Text, input: Json)

  datatype Answer =
    | Parsed(responseId: Text, text: Text, calls: seq<StreamedCall>, reasoning: Option<Text>)
    | MissingCallId | InvalidArguments | ArgumentsNotObject | EmptyAnswer

  // ------------------------------------------------------------------ what a stream amounts to

  function OrEmpty(t: Option<Text>): Text {
    if t.Some? then t.value else []
  }

  /** The text, reasoning, first response id and tool deltas of a stream, in order. */
  datatype Digest = Digest(responseId: Option<Text>, text: Text, reasoning: Text, tools: seq<ToolDelta>)

  function DigestOf(events: seq<StreamEvent>): Digest {
    if events == [] then Digest(None, [], [], [])
    else
      var n := |events| - 1;
      var before, e := DigestOf(events[..n]), events[n];
      var id := if before.responseId.None? then e.id else before.responseId;
      if e.delta.None? then before.(responseId := id)
      else Digest(id, before.text + OrEmpty(e.delta.value.content),
          before.reasoning + OrEmpty(e.delta.value.reasoning), before.tools + e.delta.value.tools)
  }

  /** All name fragments of one index, joined. */
  function NameAt(tools: seq<ToolDelta>, i: nat): Text {
    if tools == [] then []
    else
      NameAt(tools[..|tools| - 1], i)
      + (if tools[|tools| - 1].index == i then OrEmpty(tools[|tools| - 1].name) else [])
  }

  function ArgumentsAt(tools: seq<ToolDelta>, i: nat): Text {
    if tools == [] then []
    else
      ArgumentsAt(tools[..|tools| - 1], i)
      + (if tools[|tools| - 1].index == i then OrEmpty(tools[|tools| - 1].arguments) else [])
  }

  /** The last id given for one index. */
  function IdAt(tools: seq<ToolDelta>, i: nat): Option<Text> {
    if tools == [] then None
    else if tools[|tools| - 1].index == i && tools[|tools| - 1].id.Some? then tools[|tools| - 1].id
    else IdAt(tools[..|tools| - 1], i)
  }

  /** One more than the highest index. */
  function Slots(tools: seq<ToolDelta>): nat {
    if tools == [] then 0
    else
      var before, last := Slots(tools[..|tools| - 1]), tools[|tools| - 1].index;
      if before <= last then last + 1 else before
  }

  datatype CallList = Calls(calls: seq<StreamedCall>) | Refused(why: Answer)

  function CallAt(parse: Text -> ArgumentsReading, name: Text, id: Option<Text>, arguments: Text): CallList {
    if name == [] then Calls([])
    else if OrEmpty(id) == [] then Refused(MissingCallId)
    else
      match parse(arguments)
      case NotJson => Refused(InvalidArguments)
      case NotObject => Refused(ArgumentsNotObject)
      case JsonObject(value) => Calls([StreamedCall(id.value, name, value)])
  }

  function OwnCall(parse: Text -> ArgumentsReading, tools: seq<ToolDelta>, i: nat): CallList {
    CallAt(parse, NameAt(tools, i), IdAt(tools, i), ArgumentsAt(tools, i))
  }

  /** Puts the calls of slots together; the first slot in trouble decides the error. */
  function Collect(lists: seq<CallList>): CallList {
    if lists == [] then Calls([])
    else
      var before, own := Collect(lists[..|lists| - 1]), lists[|lists| - 1];
      if before.Refused? then before else if own.Refused? then own else Calls(before.calls + own.calls)
  }

  /** What each of the first `n` slots adds up to. */
  function OwnCalls(parse: Text -> ArgumentsReading, tools: seq<ToolDelta>, n: nat): (r: seq<CallList>)
    ensures |r| == n && forall i | 0 <= i < n :: r[i] == OwnCall(parse, tools, i)
  {
    seq(n, i requires 0 <= i < n => OwnCall(parse, tools, i))
  }

  /** The calls of the first `n` slots. */
  function CallsOf(parse: Text -> ArgumentsReading, tools: seq<ToolDelta>, n: nat): CallList {
    Collect(OwnCalls(parse, tools, n))
  }

  function AnswerOf(parse: Text -> ArgumentsReading, d: Digest): Answer {
    var list := CallsOf(parse, d.tools, Slots(d.tools));
    if list.Refused? then list.why
    else if IsBlank(d.text) && list.calls == [] then EmptyAnswer
    else Parsed(OrEmpty(d.responseId), d.text, list.calls, if d.reasoning == [] then None else Some(d.reasoning))
  }

  // ------------------------------------------------------------------ the parser

  /** One growing entry per tool-call index. */
  datatype Table = Table(names: seq<Text>, arguments: seq<Text>, ids: seq<Option<Text>>)

  ghost predicate Holds(t: Table, tools: seq<ToolDelta>) {
    && |t.names| == |t.arguments| == |t.ids| == Slots(tools)
    && forall i | 0 <= i < Slots(tools) ::
        t.names[i] == NameAt(tools, i) && t.arguments[i] == ArgumentsAt(tools, i) && t.ids[i] == IdAt(tools, i)
  }

  /** The answer a stream stands for. */
  function StreamAnswer(parse: Text -> ArgumentsReading, events: seq<StreamEvent>): Answer {
    AnswerOf(parse, DigestOf(events))
  }

  method ParseStream(parse: Text -> ArgumentsReading, events: seq<StreamEvent>) returns (answer: Answer)
    ensures answer == StreamAnswer(parse, events)
  {
    var text, reasoning: Text, responseId: Option<Text> := [], [], None;
    var table := Table([], [], []);
    ghost var tools: seq<ToolDelta> := [];
    for k := 0 to |events|
      invariant DigestOf(events[..k]) == Digest(responseId, text, reasoning, tools)
      invariant Holds(table, tools)
    {
      assert events[..k + 1][..k] == events[..k];
      var event := events[k];
      if responseId.None? {
        responseId := event.id;
      }
      if event.delta.Some? {
        var delta := event.delta.value;
        text := text + OrEmpty(delta.content);
        reasoning := reasoning + OrEmpty(delta.reasoning);
        table := Absorb(table, tools, delta.tools);
        tools := tools + delta.tools;
      }
    }
    assert events[..|events|] == events;
    answer := Conclude(parse, responseId, text, reasoning, table, tools);
  }

  method Absorb(t: Table, ghost tools: seq<ToolDelta>, deltas: seq<ToolDelta>) returns (r: Table)
    requires Holds(t, tools)
    ensures Holds(r, tools + deltas)
  {
    r := t;
    assert tools + deltas[..0] == tools;
    for k := 0 to |deltas|
      invariant Holds(r, tools + deltas[..k])
    {
      assert tools + deltas[..k + 1] == tools + deltas[..k] + [deltas[k]];
      r := AbsorbOne(r, tools + deltas[..k], deltas[k]);
    }
    assert deltas[..|deltas|] == deltas;
  }

  method AbsorbOne(t: Table, ghost tools: seq<ToolDelta>, d: ToolDelta) returns (r: Table)
    requires Holds(t, tools)
    ensures Holds(r, tools + [d])
  {
    r := Resize(t, tools, d.index + 1);
    forall i: nat
      ensures NameAt(tools + [d], i) == NameAt(tools, i) + (if d.index == i then OrEmpty(d.name) else [])
      ensures ArgumentsAt(tools + [d], i) == ArgumentsAt(tools, i) + (if d.index == i then OrEmpty(d.arguments) else [])
      ensures IdAt(tools + [d], i) == if d.index == i && d.id.Some? then d.id else IdAt(tools, i)
    {
      AtSnoc(tools, d, i);
    }
    assert (tools + [d])[..|tools|] == tools;
    r := Table(
      r.names[d.index := r.names[d.index] + OrEmpty(d.name)],
      r.arguments[d.index := r.arguments[d.index] + OrEmpty(d.arguments)],
      r.ids[d.index := if d.id.Some? then d.id else r.ids[d.index]]);
  }

  /** Adds empty entries until index `n - 1` exists. */
  method Resize(t: Table, ghost tools: seq<ToolDelta>, n: nat) returns (r: Table)
    requires Holds(t, tools)
    ensures |r.names| == |r.arguments| == |r.ids| == if Slots(tools) <= n then n else Slots(tools)
    ensures forall i | 0 <= i < |r.names| ::
              r.names[i] == NameAt(tools, i) && r.arguments[i] == ArgumentsAt(tools, i) && r.ids[i] == IdAt(tools, i)
  {
    r := t;
    while |r.names| < n
      invariant |r.names| == |r.arguments| == |r.ids| >= Slots(tools)
      invariant |r.names| <= n || |r.names| == Slots(tools)
      invariant forall i | 0 <= i < |r.names| ::
                r.names[i] == NameAt(tools, i) && r.arguments[i] == ArgumentsAt(tools, i) && r.ids[i] == IdAt(tools, i)
    {
      BeyondSlots(tools, |r.names|);
      r := Table(r.names + [[]], r.arguments + [[]], r.ids + [None]);
    }
  }

  lemma AtSnoc(tools: seq<ToolDelta>, d: ToolDelta, i: nat)
    ensures NameAt(tools + [d], i) == NameAt(tools, i) + (if d.index == i then OrEmpty(d.name) else [])
    ensures ArgumentsAt(tools + [d], i) == ArgumentsAt(tools, i) + (if d.index == i then OrEmpty(d.arguments) else [])
    ensures IdAt(tools + [d], i) == if d.index == i && d.id.Some? then d.id else IdAt(tools, i)
  {
    assert (tools + [d])[..|tools + [d]| - 1] == tools;
  }

  method Conclude(parse: Text -> ArgumentsReading, responseId: Option<Text>, text: Text, reasoning: Text, t: Table,
      ghost tools: seq<ToolDelta>)
    returns (answer: Answer)
    requires Holds(t, tools)
    ensures answer == AnswerOf(parse, Digest(responseId, text, reasoning, tools))
  {
    ghost var read: nat;
    var list;
    list, read := ReadSlots(parse, t, tools);
    if list.Refused? {
      RefusalStays(parse, tools, read, |t.names|);
      return list.why;
    }
    if IsBlank(text) && list.calls == [] {
      return EmptyAnswer;
    }
    return Parsed(OrEmpty(responseId), text, list.calls, if reasoning == [] then None else Some(reasoning));
  }

  /** Reads slots until one is in trouble. */
  method ReadSlots(parse: Text -> ArgumentsReading, t: Table, ghost tools: seq<ToolDelta>)
      returns (r: CallList, ghost read: nat)
    requires Holds(t, tools)
    ensures read <= |t.names| && r == CallsOf(parse, tools, read)
    ensures r.Calls? ==> read == |t.names|
  {
    r, read := Calls([]), 0;
    for i := 0 to |t.names|
      invariant read == i && r.Calls? && r == CallsOf(parse, tools, i)
    {
      r := ExtendBySlot(parse, t, tools, i, r.calls);
      read := i + 1;
      if r.Refused? { return; }
    }
  }

  method ExtendBySlot(parse: Text -> ArgumentsReading, t: Table, ghost tools: seq<ToolDelta>, i: nat,
      calls: seq<StreamedCall>) returns (r: CallList)
    requires Holds(t, tools) && i < |t.names| && CallsOf(parse, tools, i) == Calls(calls)
    ensures r == CallsOf(parse, tools, i + 1)
  {
    var own := ReadSlot(parse, t, tools, i);
    CallsStep(parse, tools, i);
    return if own.Refused? then own else Calls(calls + own.calls);
  }

  lemma CollectSnoc(lists: seq<CallList>, own: CallList)
    ensures var before := Collect(lists);
            Collect(lists + [own]) ==
              if before.Refused? then before else if own.Refused? then own else Calls(before.calls + own.calls)
  {
    assert (lists + [own])[..|lists|] == lists;
  }

  lemma CallsStep(parse: Text -> ArgumentsReading, tools: seq<ToolDelta>, i: nat)
    ensures var before, own := CallsOf(parse, tools, i), OwnCall(parse, tools, i);
            CallsOf(parse, tools, i + 1) ==
              if before.Refused? then before else if own.Refused? then own else Calls(before.calls + own.calls)
  {
    assert OwnCalls(parse, tools, i + 1) == OwnCalls(parse, tools, i) + [OwnCall(parse, tools, i)];
    CollectSnoc(OwnCalls(parse, tools, i), OwnCall(parse, tools, i));
  }

  method ReadSlot(parse: Text -> ArgumentsReading, t: Table, ghost tools: seq<ToolDelta>, i: nat) returns (r: CallList)
    requires Holds(t, tools) && i < |t.names|
    ensures r == OwnCall(parse, tools, i)
  {
    var name, id, arguments := t.names[i], t.ids[i], t.arguments[i];
    if name == [] {
      return Calls([]);
    }
    if OrEmpty(id) == [] {
      return Refused(MissingCallId);
    }
    match parse(arguments) {
      case NotJson => r := Refused(InvalidArguments);
      case NotObject => r := Refused(ArgumentsNotObject);
      case JsonObject(value) => r := Calls([StreamedCall(id.value, name, value)]);
    }
  }

  lemma {:induction false} RefusalKept(lists: seq<CallList>, i: nat)
    requires i <= |lists| && Collect(lists[..i]).Refused?
    ensures Collect(lists) == Collect(lists[..i])
    decreases |lists|
  {
    if i < |lists| {
      var front := lists[..|lists| - 1];
      assert front[..i] == lists[..i];
      RefusalKept(front, i);
    } else {
      assert lists[..i] == lists;
    }
  }

  lemma RefusalStays(parse: Text -> ArgumentsReading, tools: seq<ToolDelta>, i: nat, n: nat)
    requires i <= n && CallsOf(parse, tools, i).Refused?
    ensures CallsOf(parse, tools, n) == CallsOf(parse, tools, i)
  {
    assert OwnCalls(parse, tools, n)[..i] == OwnCalls(parse, tools, i);
    RefusalKept(OwnCalls(parse, tools, n), i);
  }

  lemma {:induction false} BeyondSlots(tools: seq<ToolDelta>, i: nat)
    requires Slots(tools) <= i
    ensures NameAt(tools, i) == [] && ArgumentsAt(tools, i) == [] && IdAt(tools, i) == None
  {
    if tools != [] { BeyondSlots(tools[..|tools| - 1], i); }
  }

  // ------------------------------------------------------------------ fragmentation does not matter

  /** Two lists of deltas say the same about every index. */
  ghost predicate SameByIndex(a: seq<ToolDelta>, b: seq<ToolDelta>) {
    forall i: nat :: NameAt(a, i) == NameAt(b, i) && ArgumentsAt(a, i) == ArgumentsAt(b, i) && IdAt(a, i) == IdAt(b, i)
  }

  lemma {:induction false} NothingCollected(lists: seq<CallList>, m: nat)
    requires m <= |lists| && forall i | m <= i < |lists| :: lists[i] == Calls([])
    ensures Collect(lists) == Collect(lists[..m])
    decreases |lists|
  {
    if m < |lists| {
      var front := lists[..|lists| - 1];
      assert front[..m] == lists[..m];
      NothingCollected(front, m);
      var before := Collect(front);
      assert before.Calls? ==> before.calls + [] == before.calls;
    } else {
      assert lists[..m] == lists;
    }
  }

  lemma EmptySlot(parse: Text -> ArgumentsReading, tools: seq<ToolDelta>, i: nat)
    requires Slots(tools) <= i
    ensures OwnCall(parse, tools, i) == Calls([])
  {
    BeyondSlots(tools, i);
  }

  lemma EmptySlotsAddNothing(parse: Text -> ArgumentsReading, tools: seq<ToolDelta>, n: nat)
    requires Slots(tools) <= n
    ensures CallsOf(parse, tools, n) == CallsOf(parse, tools, Slots(tools))
  {
    var m, lists := Slots(tools), OwnCalls(parse, tools, n);
    forall i | m <= i < n ensures lists[i] == Calls([]) {
      EmptySlot(parse, tools, i);
    }
    assert lists[..m] == OwnCalls(parse, tools, m);
    NothingCollected(lists, m);
  }

  lemma SameCalls(parse: Text -> ArgumentsReading, a: seq<ToolDelta>, b: seq<ToolDelta>, n: nat)
    requires SameByIndex(a, b)
    ensures CallsOf(parse, a, n) == CallsOf(parse, b, n)
  {
    forall i | 0 <= i < n ensures OwnCall(parse, a, i) == OwnCall(parse, b, i) {
      assert NameAt(a, i) == NameAt(b, i);
    }
    assert OwnCalls(parse, a, n) == OwnCalls(parse, b, n);
  }

  /**
   The answer depends on the tool deltas only through what each index adds up to; not even the highest index matters.
   */
  lemma AnswerByIndex(parse: Text -> ArgumentsReading, d: Digest, tools: seq<ToolDelta>)
    requires SameByIndex(d.tools, tools)
    ensures AnswerOf(parse, d.(tools := tools)) == AnswerOf(parse, d)
  {
    var n := if Slots(d.tools) <= Slots(tools) then Slots(tools) else Slots(d.tools);
    EmptySlotsAddNothing(parse, d.tools, n);
    EmptySlotsAddNothing(parse, tools, n);
    SameCalls(parse, d.tools, tools, n);
  }

  lemma {:induction false} AtConcat(a: seq<ToolDelta>, b: seq<ToolDelta>, i: nat)
    ensures NameAt(a + b, i) == NameAt(a, i) + NameAt(b, i)
    ensures ArgumentsAt(a + b, i) == ArgumentsAt(a, i) + ArgumentsAt(b, i)
    ensures IdAt(a + b, i) == if IdAt(b, i).Some? then IdAt(b, i) else IdAt(a, i)
    decreases |b|
  {
    if b == [] {
      assert a + b == a;
    } else {
      var shorter, last := b[..|b| - 1], b[|b| - 1];
      AtConcat(a, shorter, i);
      AtSnoc(a + shorter, last, i);
      assert a + b == a + shorter + [last];
      Associative(NameAt(a, i), NameAt(shorter, i), if last.index == i then OrEmpty(last.name) else []);
      Associative(ArgumentsAt(a, i), ArgumentsAt(shorter, i), if last.index == i then OrEmpty(last.arguments) else []);
    }
  }

  lemma AtPair(d: ToolDelta, e: ToolDelta, i: nat)
    ensures NameAt([d, e], i) == (if d.index == i then OrEmpty(d.name) else [])
              + (if e.index == i then OrEmpty(e.name) else [])
    ensures ArgumentsAt([d, e], i) == (if d.index == i then OrEmpty(d.arguments) else [])
              + (if e.index == i then OrEmpty(e.arguments) else [])
    ensures IdAt([d, e], i) == if e.index == i && e.id.Some? then e.id else if d.index == i then d.id else None
  {
    AtOne(d, i);
    AtSnoc([d], e, i);
    assert [d] + [e] == [d, e];
  }

  lemma AtOne(d: ToolDelta, i: nat)
    ensures NameAt([d], i) == if d.index == i then OrEmpty(d.name) else []
    ensures ArgumentsAt([d], i) == if d.index == i then OrEmpty(d.arguments) else []
    ensures IdAt([d], i) == if d.index == i then d.id else None
  {
    assert [d][..0] == [];
  }

  /** Replacing a stretch of deltas by one that says the same leaves the whole saying the same. */
  lemma SameInContext(pre: seq<ToolDelta>, x: seq<ToolDelta>, y: seq<ToolDelta>, post: seq<ToolDelta>)
    requires SameByIndex(x, y)
    ensures SameByIndex(pre + x + post, pre + y + post)
  {
    forall i: nat
      ensures NameAt(pre + x + post, i) == NameAt(pre + y + post, i)
              && ArgumentsAt(pre + x + post, i) == ArgumentsAt(pre + y + post, i)
              && IdAt(pre + x + post, i) == IdAt(pre + y + post, i)
    {
      AtConcat(pre + x, post, i);
      AtConcat(pre, x, i);
      AtConcat(pre + y, post, i);
      AtConcat(pre, y, i);
      assert NameAt(x, i) == NameAt(y, i);
    }
  }

  lemma SwappedSame(d: ToolDelta, e: ToolDelta)
    requires d.index != e.index
    ensures SameByIndex([d, e], [e, d])
  {
    forall i: nat
      ensures NameAt([d, e], i) == NameAt([e, d], i) && ArgumentsAt([d, e], i) == ArgumentsAt([e, d], i)
                && IdAt([d, e], i) == IdAt([e, d], i)
    {
      AtPair(d, e, i);
      AtPair(e, d, i);
    }
  }

  /** Neighbouring deltas of different calls may arrive in either order. */
  lemma SwapDeltas(parse: Text -> ArgumentsReading, s: Digest, pre: seq<ToolDelta>, d: ToolDelta, e: ToolDelta,
      post: seq<ToolDelta>)
    requires s.tools == pre + [d, e] + post && d.index != e.index
    ensures AnswerOf(parse, s.(tools := pre + [e, d] + post)) == AnswerOf(parse, s)
  {
    SwappedSame(d, e);
    SameInContext(pre, [d, e], [e, d], post);
    AnswerByIndex(parse, s, pre + [e, d] + post);
  }

  /** A delta may be cut into two anywhere in its name and its arguments. */
  lemma SplitDelta(parse: Text -> ArgumentsReading, s: Digest, pre: seq<ToolDelta>, d: ToolDelta, first: ToolDelta,
      second: ToolDelta, post: seq<ToolDelta>)
    requires s.tools == pre + [d] + post && first.index == second.index == d.index
    requires OrEmpty(first.name) + OrEmpty(second.name) == OrEmpty(d.name)
    requires OrEmpty(first.arguments) + OrEmpty(second.arguments) == OrEmpty(d.arguments)
    requires d.id == if second.id.Some? then second.id else first.id
    ensures AnswerOf(parse, s.(tools := pre + [first, second] + post)) == AnswerOf(parse, s)
  {
    forall i: nat
      ensures NameAt([d], i) == NameAt([first, second], i) && ArgumentsAt([d], i) == ArgumentsAt([first, second], i)
                && IdAt([d], i) == IdAt([first, second], i)
    {
      AtOne(d, i);
      AtPair(first, second, i);
    }
    SameInContext(pre, [d], [first, second], post);
    AnswerByIndex(parse, s, pre + [first, second] + post);
  }
}
