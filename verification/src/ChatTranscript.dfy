/** Chat-completions messages rebuilt from the normalized history, and the reasoning attached to them. */
module ChatTranscript {
  import opened Bytes
  import opened Options
  import opened Sequences
  import opened State

  datatype CallMessage = CallMessage(id: Text, name: Text, arguments: Text)

  /** An assistant message without calls has no `tool_calls` key; one without content carries `null`. */
  datatype Message =
    | UserMessage(content: Text)
    | AssistantMessage(reply: Option<Text>, calls: seq<CallMessage>, reasoning: Option<Text>)
    | ToolMessage(callId: Text, output: Text)

  type NativeIds = map<CallId, Text>

  // ------------------------------------------------------------------ specification

  function NativeId(ids: NativeIds, id: CallId): Text {
    if id in ids then ids[id] else id
  }

  function Arguments(input: Json): Text {
    if input == JSON_NULL then Ascii("{}") else input
  }

  /** Number of tool results the history starts with. */
  function RunLength(h: seq<HistoryItem>): (n: nat)
    ensures n <= |h|
    ensures forall i | 0 <= i < n :: h[i].Tool?
    ensures n < |h| ==> !h[n].Tool?
  {
    if h == [] || !h[0].Tool? then 0 else 1 + RunLength(h[1..])
  }

  function CallsOf(run: seq<HistoryItem>, ids: NativeIds): (r: seq<CallMessage>)
    requires forall i | 0 <= i < |run| :: run[i].Tool?
    ensures |r| == |run|
    ensures forall i | 0 <= i < |run| ::
              r[i] == CallMessage(NativeId(ids, run[i].callId), run[i].name, Arguments(run[i].input))
  {
    seq(|run|, i requires 0 <= i < |run| =>
        CallMessage(NativeId(ids, run[i].callId), run[i].name, Arguments(run[i].input)))
  }

  function ResultsOf(run: seq<HistoryItem>, ids: NativeIds): (r: seq<Message>)
    requires forall i | 0 <= i < |run| :: run[i].Tool?
    ensures |r| == |run|
    ensures forall i | 0 <= i < |run| :: r[i] == ToolMessage(NativeId(ids, run[i].callId), run[i].result)
  {
    seq(|run|, i requires 0 <= i < |run| => ToolMessage(NativeId(ids, run[i].callId), run[i].result))
  }

  function Flush(pending: Option<Text>): seq<Message> {
    if pending.Some? then [AssistantMessage(pending, [], None)] else []
  }

  /** How much of a nonempty history the next messages stand for, and what they are. */
  function Consumed(h: seq<HistoryItem>): (n: nat)
    requires h != []
    ensures 1 <= n <= |h|
  {
    if h[0].Tool? then RunLength(h) else 1
  }

  function Emitted(h: seq<HistoryItem>, pending: Option<Text>, ids: NativeIds): seq<Message>
    requires h != []
  {
    match h[0]
    case User(text) => Flush(pending) + [UserMessage(text)]
    case Assistant(text) => Flush(pending)
    case Tool(_, _, _, _) =>
      var run := h[..RunLength(h)];
      [AssistantMessage(pending, CallsOf(run, ids), None)] + ResultsOf(run, ids)
  }

  function StillPending(item: HistoryItem): Option<Text> {
    if item.Assistant? then Some(item.text) else None
  }

  /** One assistant message per response: its text, and the contiguous run of tool results that follows it. */
  function Messages(h: seq<HistoryItem>, pending: Option<Text>, ids: NativeIds): seq<Message>
    decreases |h|
  {
    if h == [] then Flush(pending)
    else Emitted(h, pending, ids) + Messages(h[Consumed(h)..], StillPending(h[0]), ids)
  }

  function AssistantCount(ms: seq<Message>): nat {
    if ms == [] then 0 else (if ms[0].AssistantMessage? then 1 else 0) + AssistantCount(ms[1..])
  }

  /** The reasoning of the assistant message that is `rank`-th from the end. */
  function ReasoningAt(reasoning: seq<Option<Text>>, rank: nat): Option<Text> {
    if 0 < rank <= |reasoning| then reasoning[|reasoning| - rank] else None
  }

  function Attach(m: Message, rank: nat, reasoning: seq<Option<Text>>): Message {
    if m.AssistantMessage? && ReasoningAt(reasoning, rank).Some? then m.(reasoning := ReasoningAt(reasoning, rank))
        else m
  }

  function WithReasoning(ms: seq<Message>, reasoning: seq<Option<Text>>): (r: seq<Message>)
    ensures |r| == |ms|
    ensures forall i | 0 <= i < |ms| :: r[i] == Attach(ms[i], AssistantCount(ms[i..]), reasoning)
  {
    seq(|ms|, i requires 0 <= i < |ms| => Attach(ms[i], AssistantCount(ms[i..]), reasoning))
  }

  // ------------------------------------------------------------------ the builder

  method BuildMessages(history: seq<HistoryItem>, ids: NativeIds, reasoning: seq<Option<Text>>)
      returns (messages: seq<Message>)
    ensures messages == WithReasoning(Messages(history, None, ids), reasoning)
  {
    messages := [];
    var pending: Option<Text> := None;
    var index := 0;
    assert history[0..] == history;
    while index < |history|
      invariant index <= |history|
      invariant messages + Messages(history[index..], pending, ids) == Messages(history, None, ids)
    {
      ghost var rest, done, before := history[index..], index + Consumed(history[index..]), messages;
      ghost var emitted := Emitted(rest, pending, ids);
      Associative(messages, emitted, Messages(rest[Consumed(rest)..], StillPending(rest[0]), ids));
      match history[index] {
        case User(text) =>
          messages := messages + (Flush(pending) + [UserMessage(text)]);
          pending := None;
          index := index + 1;
        case Assistant(text) =>
          messages := messages + Flush(pending);
          pending := Some(text);
          index := index + 1;
        case Tool(_, _, _, _) =>
          var calls, results, next := GatherRun(history, index, ids);
          messages := messages + ([AssistantMessage(pending, calls, None)] + results);
          pending := None;
          index := next;
      }
      assert messages == before + emitted;
      assert index == done && history[done..] == rest[Consumed(rest)..];
    }
    assert history[|history|..] == [];
    messages := messages + Flush(pending);
    messages := AttachReasoning(messages, reasoning);
  }

  /** Collects the contiguous run of tool results that starts at `start`. */
  method GatherRun(history: seq<HistoryItem>, start: nat, ids: NativeIds)
    returns (calls: seq<CallMessage>, results: seq<Message>, next: nat)
    requires start < |history| && history[start].Tool?
    ensures var n := RunLength(history[start..]);
            && next == start + n
            && calls == CallsOf(history[start..][..n], ids) && results == ResultsOf(history[start..][..n], ids)
  {
    calls, results, next := [], [], start;
    while next < |history| && history[next].Tool?
      invariant start <= next <= |history|
      invariant forall i | start <= i < next :: history[i].Tool?
      invariant |calls| == |results| == next - start
      invariant forall i | 0 <= i < next - start ::
                  calls[i] == CallMessage(NativeId(ids, history[start + i].callId), history[start + i].name,
                      Arguments(history[start + i].input))
      invariant forall i | 0 <= i < next - start ::
                  results[i] == ToolMessage(NativeId(ids, history[start + i].callId), history[start + i].result)
    {
      var item := history[next];
      var native := NativeId(ids, item.callId);
      calls := calls + [CallMessage(native, item.name, Arguments(item.input))];
      results := results + [ToolMessage(native, item.result)];
      next := next + 1;
    }
    RunLengthIs(history[start..], next - start);
  }

  lemma RunLengthIs(h: seq<HistoryItem>, n: nat)
    requires n <= |h| && (forall i | 0 <= i < n :: h[i].Tool?) && (n < |h| ==> !h[n].Tool?)
    ensures RunLength(h) == n
  {
    assert RunLength(h) <= n <= RunLength(h);
  }

  /** The positions of the assistant messages, in order. */
  ghost predicate AssistantIndices(ms: seq<Message>, indices: seq<nat>) {
    && |indices| == AssistantCount(ms)
    && (forall k | 0 <= k < |indices| ::
        indices[k] < |ms| && ms[indices[k]].AssistantMessage? && AssistantCount(ms[indices[k]..]) == |indices| - k)
    && (forall k, l | 0 <= k < l < |indices| :: indices[k] < indices[l])
    && (forall j: nat | j < |ms| && ms[j].AssistantMessage? :: j in indices)
  }

  method FindAssistants(ms: seq<Message>) returns (indices: seq<nat>)
    ensures AssistantIndices(ms, indices)
  {
    indices := [];
    ghost var total := AssistantCount(ms);
    assert ms[0..] == ms;
    for i := 0 to |ms|
      invariant |indices| + AssistantCount(ms[i..]) == total
      invariant forall k | 0 <= k < |indices| ::
                indices[k] < i && ms[indices[k]].AssistantMessage? && AssistantCount(ms[indices[k]..]) == total - k
      invariant forall k, l | 0 <= k < l < |indices| :: indices[k] < indices[l]
      invariant forall j: nat | j < i && ms[j].AssistantMessage? :: j in indices
    {
      assert ms[i..][1..] == ms[i + 1..];
      if ms[i].AssistantMessage? {
        indices := indices + [i];
      }
    }
    assert ms[|ms|..] == [];
  }

  /** Pairs the saved reasoning with the assistant messages from the right. */
  method AttachReasoning(ms: seq<Message>, reasoning: seq<Option<Text>>) returns (out: seq<Message>)
    ensures out == WithReasoning(ms, reasoning)
  {
    var indices := FindAssistants(ms);
    var skipped := if |indices| > |reasoning| then |indices| - |reasoning| else 0;
    var unused := if |reasoning| > |indices| then |reasoning| - |indices| else 0;
    out := ms;
    NoneAttached(ms, indices, reasoning, skipped);
    var n := 0;
    while skipped + n < |indices| && unused + n < |reasoning|
      invariant 0 <= n && skipped + n <= |indices| && unused + n <= |reasoning|
      invariant |out| == |ms|
      invariant AttachedUpTo(ms, indices, reasoning, out, skipped + n)
    {
      assert reasoning[unused + n] == ReasoningAt(reasoning, |indices| - (skipped + n));
      out := AttachOne(ms, indices, reasoning, out, skipped + n, reasoning[unused + n]);
      n := n + 1;
    }
    assert skipped + n == |indices|;
    AllAttached(ms, indices, reasoning, out);
  }

  /** The first `m` assistant messages carry their reasoning; nothing else has changed. */
  ghost predicate AttachedUpTo(ms: seq<Message>, indices: seq<nat>, reasoning: seq<Option<Text>>, out: seq<Message>,
      m: nat)
    requires AssistantIndices(ms, indices) && |out| == |ms|
  {
    && (forall k | 0 <= k < m && k < |indices| :: out[indices[k]] == Attach(ms[indices[k]], |indices| - k, reasoning))
    && (forall k | m <= k < |indices| :: out[indices[k]] == ms[indices[k]])
    && (forall j: nat | j < |ms| && !ms[j].AssistantMessage? :: out[j] == ms[j])
  }

  lemma NoneAttached(ms: seq<Message>, indices: seq<nat>, reasoning: seq<Option<Text>>, m: nat)
    requires AssistantIndices(ms, indices) && (m == 0 || m + |reasoning| <= |indices|)
    ensures AttachedUpTo(ms, indices, reasoning, ms, m)
  {
    forall k | 0 <= k < m && k < |indices| ensures ms[indices[k]] == Attach(ms[indices[k]], |indices| - k, reasoning) {
      assert ReasoningAt(reasoning, |indices| - k) == None;
    }
  }

  method AttachOne(ms: seq<Message>, indices: seq<nat>, ghost reasoning: seq<Option<Text>>, before: seq<Message>,
      m: nat, value: Option<Text>)
    returns (out: seq<Message>)
    requires AssistantIndices(ms, indices) && |before| == |ms| && m < |indices|
    requires AttachedUpTo(ms, indices, reasoning, before, m)
    requires value == ReasoningAt(reasoning, |indices| - m)
    ensures |out| == |ms| && AttachedUpTo(ms, indices, reasoning, out, m + 1)
  {
    var at := indices[m];
    out := if value.Some? then before[at := before[at].(reasoning := value)] else before;
    AttachNext(ms, indices, reasoning, before, m);
    assert before[at := Attach(ms[at], |indices| - m, reasoning)] == out;
  }

  lemma AttachNext(ms: seq<Message>, indices: seq<nat>, reasoning: seq<Option<Text>>, out: seq<Message>, m: nat)
    requires AssistantIndices(ms, indices) && |out| == |ms| && m < |indices|
    requires AttachedUpTo(ms, indices, reasoning, out, m)
    ensures out[indices[m]] == ms[indices[m]]
    ensures AttachedUpTo(ms, indices, reasoning, out[indices[m] := Attach(ms[indices[m]], |indices| - m, reasoning)],
              m + 1)
  {
    assert forall k | m < k < |indices| :: indices[k] != indices[m];
    assert forall k | 0 <= k < m :: indices[k] != indices[m];
  }

  lemma AllAttached(ms: seq<Message>, indices: seq<nat>, reasoning: seq<Option<Text>>, out: seq<Message>)
    requires AssistantIndices(ms, indices) && |out| == |ms|
    requires AttachedUpTo(ms, indices, reasoning, out, |indices|)
    ensures out == WithReasoning(ms, reasoning)
  {
    forall j: nat | j < |ms| ensures out[j] == Attach(ms[j], AssistantCount(ms[j..]), reasoning) {
      if ms[j].AssistantMessage? {
        assert j in indices;
      }
    }
  }

  // ------------------------------------------------------------------ reading the transcript back

  datatype PlainItem = PlainUser(text: Text) | PlainAssistant(text: Text) | PlainTool(id: Text, name: Text,
      arguments: Text, result: Text)

  function Normal(item: HistoryItem, ids: NativeIds): PlainItem {
    match item
    case User(text) => PlainUser(text)
    case Assistant(text) => PlainAssistant(text)
    case Tool(callId, name, input, result) => PlainTool(NativeId(ids, callId), name, Arguments(input), result)
  }

  /** The history as a chat server can see it: calls by their native ids, absent arguments as `{}`. */
  function NormalHistory(h: seq<HistoryItem>, ids: NativeIds): (r: seq<PlainItem>)
    ensures |r| == |h| && forall i | 0 <= i < |h| :: r[i] == Normal(h[i], ids)
  {
    seq(|h|, i requires 0 <= i < |h| => Normal(h[i], ids))
  }

  /** Every call is answered by the tool message at its place. */
  predicate Answered(calls: seq<CallMessage>, answers: seq<Message>) {
    |calls| == |answers| && forall i | 0 <= i < |calls| :: answers[i].ToolMessage? && answers[i].callId == calls[i].id
  }

  function PairUp(calls: seq<CallMessage>, answers: seq<Message>): seq<PlainItem>
    requires Answered(calls, answers)
  {
    seq(|calls|, i requires 0 <= i < |calls| =>
        PlainTool(calls[i].id, calls[i].name, calls[i].arguments, answers[i].output))
  }

  /**
   Reads a transcript under the rule of the protocol: an assistant message with k calls is followed by
   exactly k tool messages answering them in order, and a tool message stands nowhere else.
   */
  function Decode(ms: seq<Message>): Option<seq<PlainItem>> {
    if ms == [] then Some([])
    else
      match ms[0]
      case UserMessage(content) => Prefixed([PlainUser(content)], Decode(ms[1..]))
      case ToolMessage(_, _) => None
      case AssistantMessage(reply, calls, _) =>
        var k := |calls|;
        if k + 1 > |ms| || !Answered(calls, ms[1..k + 1]) then None
        else Prefixed((if reply.Some? then [PlainAssistant(reply.value)] else []) + PairUp(calls, ms[1..k + 1]),
            Decode(ms[k + 1..]))
  }

  function Prefixed(items: seq<PlainItem>, rest: Option<seq<PlainItem>>): Option<seq<PlainItem>> {
    if rest.Some? then Some(items + rest.value) else None
  }

  function PendingItems(pending: Option<Text>): seq<PlainItem> {
    if pending.Some? then [PlainAssistant(pending.value)] else []
  }

  lemma DecodeFlush(pending: Option<Text>, rest: seq<Message>)
    ensures Decode(Flush(pending) + rest) == Prefixed(PendingItems(pending), Decode(rest))
  {
    var ms := Flush(pending) + rest;
    if pending.Some? {
      assert ms[1..1] == [] && ms[1..] == rest;
      assert [PlainAssistant(pending.value)] + PairUp([], ms[1..1]) == PendingItems(pending);
    } else {
      assert ms == rest;
      if Decode(rest).Some? { assert PendingItems(pending) + Decode(rest).value == Decode(rest).value; }
    }
  }

  lemma DecodeRun(pending: Option<Text>, run: seq<HistoryItem>, rest: seq<Message>, ids: NativeIds)
    requires run != [] && forall i | 0 <= i < |run| :: run[i].Tool?
    ensures Decode([AssistantMessage(pending, CallsOf(run, ids), None)] + ResultsOf(run, ids) + rest)
            == Prefixed(PendingItems(pending) + NormalHistory(run, ids), Decode(rest))
  {
    var calls, answers := CallsOf(run, ids), ResultsOf(run, ids);
    var ms := [AssistantMessage(pending, calls, None)] + answers + rest;
    assert ms[1..|calls| + 1] == answers && ms[|calls| + 1..] == rest;
    assert PairUp(calls, answers) == NormalHistory(run, ids);
  }

  lemma PrefixedTwice(a: seq<PlainItem>, b: seq<PlainItem>, rest: Option<seq<PlainItem>>)
    ensures Prefixed(a, Prefixed(b, rest)) == Prefixed(a + b, rest)
  {
    if rest.Some? { assert a + (b + rest.value) == a + b + rest.value; }
  }

  /** The items the next messages of a nonempty history are read as. */
  function OwnItems(h: seq<HistoryItem>, pending: Option<Text>, ids: NativeIds): seq<PlainItem>
    requires h != []
  {
    PendingItems(pending) + if h[0].Assistant? then [] else NormalHistory(h[..Consumed(h)], ids)
  }

  lemma DecodeEmitted(h: seq<HistoryItem>, pending: Option<Text>, ids: NativeIds, rest: seq<Message>)
    requires h != []
    ensures Decode(Emitted(h, pending, ids) + rest) == Prefixed(OwnItems(h, pending, ids), Decode(rest))
  {
    match h[0] {
      case User(text) =>
        DecodeFlush(pending, [UserMessage(text)] + rest);
        Associative(Flush(pending), [UserMessage(text)], rest);
        assert ([UserMessage(text)] + rest)[1..] == rest;
        PrefixedTwice(PendingItems(pending), [PlainUser(text)], Decode(rest));
        assert NormalHistory(h[..1], ids) == [PlainUser(text)];
      case Assistant(text) =>
        DecodeFlush(pending, rest);
        assert OwnItems(h, pending, ids) == PendingItems(pending);
      case Tool(_, _, _, _) =>
        DecodeRun(pending, h[..RunLength(h)], rest, ids);
    }
  }

  lemma NormalSplit(h: seq<HistoryItem>, n: nat, ids: NativeIds)
    requires n <= |h|
    ensures NormalHistory(h, ids) == NormalHistory(h[..n], ids) + NormalHistory(h[n..], ids)
  {
  }

  lemma OwnItemsSplit(h: seq<HistoryItem>, pending: Option<Text>, ids: NativeIds)
    requires h != []
    ensures OwnItems(h, pending, ids) + (PendingItems(StillPending(h[0])) + NormalHistory(h[Consumed(h)..], ids))
            == PendingItems(pending) + NormalHistory(h, ids)
  {
    var n := Consumed(h);
    var head := NormalHistory(h[..n], ids);
    var tail := NormalHistory(h[n..], ids);
    NormalSplit(h, n, ids);
    Associative(PendingItems(pending), head, tail);
    if h[0].Assistant? {
      assert head == [PlainAssistant(h[0].text)] == PendingItems(StillPending(h[0]));
      assert OwnItems(h, pending, ids) == PendingItems(pending);
    } else {
      assert PendingItems(StillPending(h[0])) + tail == tail;
    }
  }

  lemma {:induction false} DecodeMessages(h: seq<HistoryItem>, pending: Option<Text>, ids: NativeIds)
    ensures Decode(Messages(h, pending, ids)) == Some(PendingItems(pending) + NormalHistory(h, ids))
    decreases |h|
  {
    if h == [] {
      DecodeFlush(pending, []);
      assert Flush(pending) + [] == Flush(pending);
    } else {
      var tail := h[Consumed(h)..];
      DecodeMessages(tail, StillPending(h[0]), ids);
      DecodeEmitted(h, pending, ids, Messages(tail, StillPending(h[0]), ids));
      OwnItemsSplit(h, pending, ids);
    }
  }

  lemma AnswersUntouched(calls: seq<CallMessage>, a: seq<Message>, b: seq<Message>)
    requires |a| == |b| && forall i | 0 <= i < |a| :: a[i] == b[i] || (a[i].AssistantMessage? && b[i].AssistantMessage?)
    ensures Answered(calls, a) <==> Answered(calls, b)
    ensures Answered(calls, a) ==> a == b
  {
    if Answered(calls, a) || Answered(calls, b) {
      forall i | 0 <= i < |a| ensures a[i] == b[i] {
        assert a[i].ToolMessage? || b[i].ToolMessage?;
      }
    }
  }

  /** Reasoning is invisible to the decoder. */
  lemma {:induction false} DecodeIgnoresReasoning(ms: seq<Message>, reasoning: seq<Option<Text>>)
    ensures Decode(WithReasoning(ms, reasoning)) == Decode(ms)
    decreases |ms|
  {
    if ms != [] {
      var out := WithReasoning(ms, reasoning);
      assert ms[0..] == ms;
      var k := if ms[0].AssistantMessage? then |ms[0].calls| + 1 else 1;
      if k <= |ms| {
        WithReasoningTail(ms, k, reasoning);
        DecodeIgnoresReasoning(ms[k..], reasoning);
        if ms[0].AssistantMessage? {
          AnswersUntouched(ms[0].calls, ms[1..k], out[1..k]);
        }
      }
    }
  }

  /** How an item of the history must read on the other side: native ids where known, absent arguments as `{}`. */
  predicate ReadsAs(item: HistoryItem, ids: NativeIds, plain: PlainItem) {
    match item
    case User(text) => plain == PlainUser(text)
    case Assistant(text) => plain == PlainAssistant(text)
    case Tool(callId, name, input, result) =>
      && plain.PlainTool?
      && plain.id == (if callId in ids then ids[callId] else callId)
      && plain.name == name && plain.result == result
      && (if input == Ascii("null") then plain.arguments == Ascii("{}") else plain.arguments == input)
  }

  lemma NormalReads(item: HistoryItem, ids: NativeIds)
    ensures ReadsAs(item, ids, Normal(item, ids))
  {
  }

  /**
   Round trip: what a server reads from the transcript is the history, item by item, whatever reasoning is attached.
   */
  lemma TranscriptRoundTrip(h: seq<HistoryItem>, ids: NativeIds, reasoning: seq<Option<Text>>)
    ensures var read := Decode(WithReasoning(Messages(h, None, ids), reasoning));
            read.Some? && |read.value| == |h| && forall i | 0 <= i < |h| :: ReadsAs(h[i], ids, read.value[i])
  {
    DecodeIgnoresReasoning(Messages(h, None, ids), reasoning);
    DecodeMessages(h, None, ids);
    var normal := NormalHistory(h, ids);
    assert PendingItems(None) + normal == normal;
    forall i | 0 <= i < |h| ensures ReadsAs(h[i], ids, normal[i]) {
      NormalReads(h[i], ids);
    }
  }

  // ------------------------------------------------------------------ one message for each response

  /** Responses of a history: a text with the calls behind it, or calls alone; `open` tells whether one has begun. */
  function Responses(h: seq<HistoryItem>, open: bool): nat {
    if h == [] then 0
    else
      match h[0]
      case User(_) => Responses(h[1..], false)
      case Assistant(_) => 1 + Responses(h[1..], true)
      case Tool(_, _, _, _) => (if open then 0 else 1) + Responses(h[1..], true)
  }

  lemma {:induction false} RunIsOneResponse(h: seq<HistoryItem>, n: nat, open: bool)
    requires 0 < n <= |h| && forall i | 0 <= i < n :: h[i].Tool?
    ensures Responses(h, open) == (if open then 0 else 1) + Responses(h[n..], true)
    decreases n
  {
    if n > 1 {
      RunIsOneResponse(h[1..], n - 1, true);
      assert h[1..][n - 1..] == h[n..];
    }
  }

  lemma {:induction false} CountConcat(a: seq<Message>, b: seq<Message>)
    ensures AssistantCount(a + b) == AssistantCount(a) + AssistantCount(b)
  {
    if a == [] {
      assert a + b == b;
    } else {
      assert (a + b)[1..] == a[1..] + b;
      CountConcat(a[1..], b);
    }
  }

  lemma {:induction false} NoAssistants(ms: seq<Message>)
    requires forall i | 0 <= i < |ms| :: !ms[i].AssistantMessage?
    ensures AssistantCount(ms) == 0
  {
    if ms != [] { NoAssistants(ms[1..]); }
  }

  lemma EmittedCount(h: seq<HistoryItem>, pending: Option<Text>, ids: NativeIds)
    requires h != []
    ensures AssistantCount(Emitted(h, pending, ids)) ==
              if h[0].Tool? then 1 else if pending.Some? then 1 else 0
  {
    match h[0] {
      case User(text) => CountConcat(Flush(pending), [UserMessage(text)]);
      case Assistant(_) =>
      case Tool(_, _, _, _) =>
        var run := h[..RunLength(h)];
        NoAssistants(ResultsOf(run, ids));
        CountConcat([AssistantMessage(pending, CallsOf(run, ids), None)], ResultsOf(run, ids));
    }
  }

  /** There is exactly one assistant message for each response: a text and the calls behind it share one. */
  lemma {:induction false} OneMessagePerResponse(h: seq<HistoryItem>, pending: Option<Text>, ids: NativeIds)
    ensures AssistantCount(Messages(h, pending, ids)) == (if pending.Some? then 1 else 0) + Responses(h, pending.Some?)
    decreases |h|
  {
    if h != [] {
      var n := Consumed(h);
      OneMessagePerResponse(h[n..], StillPending(h[0]), ids);
      CountConcat(Emitted(h, pending, ids), Messages(h[n..], StillPending(h[0]), ids));
      EmittedCount(h, pending, ids);
      if h[0].Tool? {
        RunIsOneResponse(h, n, pending.Some?);
        assert Responses(h[n..], true) == Responses(h[n..], false);
      }
    }
  }

  // ------------------------------------------------------------------ reasoning under a window

  function Reply(m: Message): seq<Message> {
    if m.AssistantMessage? then [m] else []
  }

  /** The assistant messages of a transcript. */
  function Replies(ms: seq<Message>): (r: seq<Message>)
    ensures |r| == AssistantCount(ms)
  {
    if ms == [] then [] else Reply(ms[0]) + Replies(ms[1..])
  }

  lemma {:induction false} RepliesConcat(a: seq<Message>, b: seq<Message>)
    ensures Replies(a + b) == Replies(a) + Replies(b)
  {
    if a == [] {
      assert a + b == b;
    } else {
      assert (a + b)[1..] == a[1..] + b;
      RepliesConcat(a[1..], b);
      Associative(Reply(a[0]), Replies(a[1..]), Replies(b));
    }
  }

  lemma {:induction false} NoReplies(ms: seq<Message>)
    requires forall i | 0 <= i < |ms| :: !ms[i].AssistantMessage?
    ensures Replies(ms) == []
  {
    if ms != [] { NoReplies(ms[1..]); }
  }

  /** The reply a nonempty history starts to tell, if its first step closes one. */
  function FirstReply(h: seq<HistoryItem>, pending: Option<Text>, ids: NativeIds): seq<Message>
    requires h != []
  {
    if h[0].Tool? then [AssistantMessage(pending, CallsOf(h[..RunLength(h)], ids), None)] else Flush(pending)
  }

  lemma EmittedReplies(h: seq<HistoryItem>, pending: Option<Text>, ids: NativeIds)
    requires h != []
    ensures Replies(Emitted(h, pending, ids)) == FirstReply(h, pending, ids)
  {
    match h[0] {
      case User(text) => RepliesConcat(Flush(pending), [UserMessage(text)]);
      case Assistant(_) =>
      case Tool(_, _, _, _) =>
        var run := h[..RunLength(h)];
        RepliesConcat([AssistantMessage(pending, CallsOf(run, ids), None)], ResultsOf(run, ids));
        NoReplies(ResultsOf(run, ids));
    }
  }

  lemma RepliesStep(h: seq<HistoryItem>, pending: Option<Text>, ids: NativeIds)
    requires h != []
    ensures Replies(Messages(h, pending, ids)) ==
              FirstReply(h, pending, ids) + Replies(Messages(h[Consumed(h)..], StillPending(h[0]), ids))
  {
    EmittedReplies(h, pending, ids);
    RepliesConcat(Emitted(h, pending, ids), Messages(h[Consumed(h)..], StillPending(h[0]), ids));
  }

  /** A reply of which the window may have cut off the text and the first calls. */
  predicate TailOf(part: Message, whole: Message) {
    && part.AssistantMessage? && whole.AssistantMessage?
    && (part.reply.None? || part.reply == whole.reply)
    && |part.calls| <= |whole.calls| && whole.calls[|whole.calls| - |part.calls|..] == part.calls
    && part.reasoning == whole.reasoning
  }

  /** `part` is the end of `whole`, reply by reply from the right; only its first reply may be cut. */
  predicate EndsWith(whole: seq<Message>, part: seq<Message>) {
    && |part| <= |whole|
    && (part != [] ==>
          var d := |whole| - |part|;
          TailOf(part[0], whole[d]) && part[1..] == whole[d + 1..])
  }

  lemma EndsWithTransitive(a: seq<Message>, b: seq<Message>, c: seq<Message>)
    requires EndsWith(a, b) && EndsWith(b, c)
    ensures EndsWith(a, c)
  {
    if c != [] {
      var d, e := |a| - |b|, |b| - |c|;
      assert a[d + 1..] == b[1..];
      forall i | 1 <= i < |c| ensures c[i] == a[d + e + i] {
        assert c[i] == c[1..][i - 1] == b[e + 1..][i - 1] == b[e + i];
        assert b[e + i] == b[1..][e + i - 1] == a[d + 1..][e + i - 1];
      }
      assert c[1..] == a[d + e + 1..];
      if e == 0 {
        TailTransitive(a[d], b[0], c[0]);
      } else {
        assert b[e] == b[1..][e - 1] == a[d + 1..][e - 1] == a[d + e];
      }
    }
  }

  lemma TailTransitive(a: Message, b: Message, c: Message)
    requires TailOf(b, a) && TailOf(c, b)
    ensures TailOf(c, a)
  {
    assert a.calls[|a.calls| - |c.calls|..] == b.calls[|b.calls| - |c.calls|..];
  }

  /** Forgetting a pending text loses at most a text-only reply or the text of the next one. */
  lemma DropPending(h: seq<HistoryItem>, pending: Option<Text>, ids: NativeIds)
    ensures EndsWith(Replies(Messages(h, pending, ids)), Replies(Messages(h, None, ids)))
  {
    if h == [] {
    } else {
      RepliesStep(h, pending, ids);
      RepliesStep(h, None, ids);
      var rest := Replies(Messages(h[Consumed(h)..], StillPending(h[0]), ids));
      RepliesAreReplies(Messages(h[Consumed(h)..], StillPending(h[0]), ids));
      if h[0].Tool? {
        assert (FirstReply(h, pending, ids) + rest)[1..] == rest == (FirstReply(h, None, ids) + rest)[1..];
      } else {
        assert FirstReply(h, None, ids) + rest == rest;
        SuffixEndsWith(FirstReply(h, pending, ids), rest);
      }
    }
  }

  lemma {:induction false} RepliesAreReplies(ms: seq<Message>)
    ensures forall i | 0 <= i < |Replies(ms)| :: Replies(ms)[i].AssistantMessage?
  {
    if ms != [] { RepliesAreReplies(ms[1..]); }
  }

  lemma SuffixEndsWith(a: seq<Message>, b: seq<Message>)
    requires forall i | 0 <= i < |b| :: b[i].AssistantMessage?
    ensures EndsWith(a + b, b)
  {
    if b != [] { assert (a + b)[|a| + 1..] == b[1..]; }
  }

  lemma RepliesOfTail(h: seq<HistoryItem>, ids: NativeIds)
    requires h != []
    ensures EndsWith(Replies(Messages(h, None, ids)), Replies(Messages(h[1..], None, ids)))
  {
    RepliesStep(h, None, ids);
    if h[0].Tool? && Consumed(h) > 1 {
      RepliesOfCutRun(h, ids);
    } else {
      var pending := StillPending(h[0]);
      var rest := Replies(Messages(h[1..], pending, ids));
      RepliesAreReplies(Messages(h[1..], pending, ids));
      SuffixEndsWith(FirstReply(h, None, ids), rest);
      DropPending(h[1..], pending, ids);
      EndsWithTransitive(FirstReply(h, None, ids) + rest, rest, Replies(Messages(h[1..], None, ids)));
    }
  }

  lemma RepliesOfCutRun(h: seq<HistoryItem>, ids: NativeIds)
    requires h != [] && h[0].Tool? && Consumed(h) > 1
    ensures EndsWith(Replies(Messages(h, None, ids)), Replies(Messages(h[1..], None, ids)))
  {
    var n := Consumed(h);
    var rest := Replies(Messages(h[n..], None, ids));
    RepliesStep(h, None, ids);
    RepliesStep(h[1..], None, ids);
    assert Consumed(h[1..]) == n - 1 && h[1..][n - 1..] == h[n..];
    CutRun(h, ids);
    var whole, part := FirstReply(h, None, ids), FirstReply(h[1..], None, ids);
    assert whole == [whole[0]] && part == [part[0]];
    CutReplyEnds(whole[0], part[0], rest);
  }

  /** A window that starts inside a run of tool results keeps the end of its reply. */
  lemma CutRun(h: seq<HistoryItem>, ids: NativeIds)
    requires |h| > 1 && h[0].Tool? && h[1].Tool?
    ensures |FirstReply(h, None, ids)| == |FirstReply(h[1..], None, ids)| == 1
    ensures TailOf(FirstReply(h[1..], None, ids)[0], FirstReply(h, None, ids)[0])
  {
    var n := RunLength(h);
    assert h[1..][..n - 1] == h[..n][1..];
    assert CallsOf(h[..n], ids)[1..] == CallsOf(h[..n][1..], ids);
  }

  lemma CutReplyEnds(whole: Message, part: Message, rest: seq<Message>)
    requires TailOf(part, whole)
    ensures EndsWith([whole] + rest, [part] + rest)
  {
  }

  lemma {:induction false} RepliesOfSuffix(h: seq<HistoryItem>, k: nat, ids: NativeIds)
    requires k <= |h|
    ensures EndsWith(Replies(Messages(h, None, ids)), Replies(Messages(h[k..], None, ids)))
    decreases k
  {
    if k == 0 {
      assert h[0..] == h;
      RepliesAreReplies(Messages(h, None, ids));
      SuffixEndsWith([], Replies(Messages(h, None, ids)));
      assert [] + Replies(Messages(h, None, ids)) == Replies(Messages(h, None, ids));
    } else {
      RepliesOfTail(h, ids);
      RepliesOfSuffix(h[1..], k - 1, ids);
      assert h[1..][k - 1..] == h[k..];
      EndsWithTransitive(Replies(Messages(h, None, ids)), Replies(Messages(h[1..], None, ids)),
          Replies(Messages(h[k..], None, ids)));
    }
  }

  /** Replies with reasoning: the i-th of n replies has rank n - i. */
  function AttachAll(replies: seq<Message>, reasoning: seq<Option<Text>>): (r: seq<Message>)
    ensures |r| == |replies| && forall i | 0 <= i < |replies| :: r[i] == Attach(replies[i], |replies| - i, reasoning)
  {
    seq(|replies|, i requires 0 <= i < |replies| => Attach(replies[i], |replies| - i, reasoning))
  }

  lemma {:induction false} RepliesWithReasoning(ms: seq<Message>, reasoning: seq<Option<Text>>)
    ensures Replies(WithReasoning(ms, reasoning)) == AttachAll(Replies(ms), reasoning)
    decreases |ms|
  {
    if ms != [] {
      RepliesWithReasoning(ms[1..], reasoning);
      WithReasoningFirst(ms, reasoning);
      FirstIsReply(ms);
      AttachFirst(ms[0], Replies(ms[1..]), reasoning);
    }
  }

  lemma WithReasoningFirst(ms: seq<Message>, reasoning: seq<Option<Text>>)
    requires ms != []
    ensures var first := Attach(ms[0], |Reply(ms[0])| + AssistantCount(ms[1..]), reasoning);
            Replies(WithReasoning(ms, reasoning)) == Reply(first) + Replies(WithReasoning(ms[1..], reasoning))
  {
    WithReasoningTail(ms, 1, reasoning);
    FirstAttached(ms, reasoning);
    FirstIsReply(WithReasoning(ms, reasoning));
  }

  lemma FirstAttached(ms: seq<Message>, reasoning: seq<Option<Text>>)
    requires ms != []
    ensures WithReasoning(ms, reasoning)[0] == Attach(ms[0], |Reply(ms[0])| + AssistantCount(ms[1..]), reasoning)
  {
    assert ms[0..] == ms;
  }

  lemma FirstIsReply(ms: seq<Message>)
    requires ms != []
    ensures Replies(ms) == Reply(ms[0]) + Replies(ms[1..])
  {
  }

  lemma AttachFirst(m: Message, rest: seq<Message>, reasoning: seq<Option<Text>>)
    ensures var n := |rest| + |Reply(m)|;
            AttachAll(Reply(m) + rest, reasoning) == Reply(Attach(m, n, reasoning)) + AttachAll(rest, reasoning)
  {
  }

  /** Ranks count from the right, so a suffix gets the reasoning it has in the whole. */
  lemma WithReasoningTail(ms: seq<Message>, k: nat, reasoning: seq<Option<Text>>)
    requires k <= |ms|
    ensures WithReasoning(ms, reasoning)[k..] == WithReasoning(ms[k..], reasoning)
  {
    forall i | 0 <= i < |ms| - k ensures WithReasoning(ms, reasoning)[k..][i] == WithReasoning(ms[k..], reasoning)[i] {
      assert ms[k..][i..] == ms[k + i..];
    }
  }

  lemma AttachKeepsEnds(whole: seq<Message>, part: seq<Message>, reasoning: seq<Option<Text>>)
    requires EndsWith(whole, part)
    ensures EndsWith(AttachAll(whole, reasoning), AttachAll(part, reasoning))
  {
    if part != [] {
      var d := |whole| - |part|;
      forall i | 1 <= i < |part| ensures AttachAll(part, reasoning)[i] == AttachAll(whole, reasoning)[d + i] {
        assert part[i] == part[1..][i - 1] == whole[d + 1..][i - 1];
      }
    }
  }

  /**
   Whatever suffix of the history is sent, even one cut inside a run of tool results, its j-th reply from the end is
   the j-th reply from the end of the full transcript, with the same reasoning; only the earliest may have lost its text
   and first calls.
   */
  lemma ReasoningSurvivesWindow(h: seq<HistoryItem>, k: nat, ids: NativeIds, reasoning: seq<Option<Text>>)
    requires k <= |h|
    ensures EndsWith(Replies(WithReasoning(Messages(h, None, ids), reasoning)),
                     Replies(WithReasoning(Messages(h[k..], None, ids), reasoning)))
  {
    RepliesOfSuffix(h, k, ids);
    AttachKeepsEnds(Replies(Messages(h, None, ids)), Replies(Messages(h[k..], None, ids)), reasoning);
    RepliesWithReasoning(Messages(h, None, ids), reasoning);
    RepliesWithReasoning(Messages(h[k..], None, ids), reasoning);
  }

  // ------------------------------------------------------------------ where reasoning lands

  /** Messages as they are before reasoning is attached. */
  ghost predicate AllPlain(ms: seq<Message>) {
    forall i | 0 <= i < |ms| && ms[i].AssistantMessage? :: ms[i].reasoning == None
  }

  lemma PlainConcat(a: seq<Message>, b: seq<Message>)
    requires AllPlain(a) && AllPlain(b)
    ensures AllPlain(a + b)
  {
  }

  lemma EmittedPlain(h: seq<HistoryItem>, pending: Option<Text>, ids: NativeIds)
    requires h != []
    ensures AllPlain(Emitted(h, pending, ids))
  {
  }

  lemma {:induction false} BuiltPlain(h: seq<HistoryItem>, pending: Option<Text>, ids: NativeIds)
    ensures AllPlain(Messages(h, pending, ids))
    decreases |h|
  {
    if h != [] {
      EmittedPlain(h, pending, ids);
      BuiltPlain(h[Consumed(h)..], StillPending(h[0]), ids);
      PlainConcat(Emitted(h, pending, ids), Messages(h[Consumed(h)..], StillPending(h[0]), ids));
    }
  }

  lemma {:induction false} RepliesPlain(ms: seq<Message>)
    requires AllPlain(ms)
    ensures AllPlain(Replies(ms)) && forall j | 0 <= j < |Replies(ms)| :: Replies(ms)[j].AssistantMessage?
  {
    if ms != [] {
      assert forall i | 0 <= i < |ms[1..]| :: ms[1..][i] == ms[i + 1];
      RepliesPlain(ms[1..]);
    }
  }

  lemma BuiltReply(h: seq<HistoryItem>, ids: NativeIds, k: nat)
    requires k < Responses(h, false)
    ensures |Replies(Messages(h, None, ids))| == Responses(h, false)
    ensures Replies(Messages(h, None, ids))[k].AssistantMessage?
    ensures Replies(Messages(h, None, ids))[k].reasoning == None
  {
    OneMessagePerResponse(h, None, ids);
    BuiltPlain(h, None, ids);
    RepliesPlain(Messages(h, None, ids));
  }

  /** The reply that is `rank`-th from the end. */
  predicate HasReply(replies: seq<Message>, rank: nat, m: Message) {
    0 < rank <= |replies| && replies[|replies| - rank] == m
  }

  /**
   Saved reasoning meets the assistant messages from the right: the j-th from the end gets the j-th slot from the end,
   as it is, and messages with no slot left get none.
   */
  lemma ReasoningLands(h: seq<HistoryItem>, ids: NativeIds, reasoning: seq<Option<Text>>, rank: nat)
      returns (plain: Message, sent: Message)
    requires 0 < rank <= Responses(h, false)
    ensures HasReply(Replies(Messages(h, None, ids)), rank, plain)
    ensures HasReply(Replies(WithReasoning(Messages(h, None, ids), reasoning)), rank, sent)
    ensures plain.AssistantMessage? && sent.AssistantMessage? && sent.(reasoning := None) == plain
    ensures sent.reasoning == if rank <= |reasoning| then reasoning[|reasoning| - rank] else None
  {
    BuiltReply(h, ids, Responses(h, false) - rank);
    RepliesWithReasoning(Messages(h, None, ids), reasoning);
    plain, sent := Landed(Replies(Messages(h, None, ids)), Replies(WithReasoning(Messages(h, None, ids), reasoning)),
                          reasoning, rank);
  }

  lemma Landed(plains: seq<Message>, sents: seq<Message>, reasoning: seq<Option<Text>>, rank: nat)
      returns (plain: Message, sent: Message)
    requires sents == AttachAll(plains, reasoning) && 0 < rank <= |plains|
    requires plains[|plains| - rank].AssistantMessage? && plains[|plains| - rank].reasoning == None
    ensures HasReply(plains, rank, plain) && HasReply(sents, rank, sent)
    ensures plain.AssistantMessage? && sent.AssistantMessage? && sent.(reasoning := None) == plain
    ensures sent.reasoning == if rank <= |reasoning| then reasoning[|reasoning| - rank] else None
  {
    plain, sent := plains[|plains| - rank], sents[|plains| - rank];
    assert sent == Attach(plain, rank, reasoning);
  }
}
