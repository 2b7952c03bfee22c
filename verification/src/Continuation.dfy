/** The bookkeeping a chat-completions answer leaves behind, and when the reducer takes it. */
module Continuation {
  import opened Bytes
  import opened Options
  import opened State
  import opened Reducer
  import opened Context

  const MAX_REASONING_HISTORY: nat := 64

  datatype ParsedCall = ParsedCall(callId: CallId, name: Text, input: Json, nativeId: Text)

  /** The native id of every call of an answer; a repeated call keeps its last one. */
  function CurrentIds(calls: seq<ParsedCall>): (m: map<CallId, Text>)
    ensures forall id :: id in m <==> exists i | 0 <= i < |calls| :: calls[i].callId == id
  {
    if calls == [] then map[]
    else
      var n := |calls| - 1;
      CurrentIds(calls[..n])[calls[n].callId := calls[n].nativeId]
  }

  function PreviousIds(previous: Option<ProviderContinuation>): map<CallId, Text> {
    if previous.Some? then previous.value.nativeCallIds else map[]
  }

  /** Reasoning slots saved so far; an old state has only the latest value, outside the list. */
  function PreviousReasoning(previous: Option<ProviderContinuation>): seq<Option<Text>> {
    if previous.None? then []
    else if previous.value.reasoningHistory != [] then previous.value.reasoningHistory
    else if previous.value.reasoningContent.Some? then [previous.value.reasoningContent]
    else []
  }

  function LastOf<T>(s: seq<T>, n: nat): seq<T> {
    if |s| <= n then s else s[|s| - n..]
  }

  /** What is kept of the ids: all of the answer's own, and as many older ones as the limit leaves room for. */
  ghost predicate KeptIds(calls: seq<ParsedCall>, previous: Option<ProviderContinuation>, kept: map<CallId, Text>) {
    var current, union := CurrentIds(calls), PreviousIds(previous) + CurrentIds(calls);
    && (forall id | id in current :: id in kept && kept[id] == current[id])
    && (forall id | id in kept :: id in union && kept[id] == union[id])
    && (|union| <= MAX_NATIVE_CALL_IDS ==> kept == union)
    && (|union| > MAX_NATIVE_CALL_IDS ==>
        |kept| == if |current| <= MAX_NATIVE_CALL_IDS then MAX_NATIVE_CALL_IDS else |current|)
  }

  ghost predicate Continues(model: Text, endpoint: Text, requestLength: nat, calls: seq<ParsedCall>,
      previous: Option<ProviderContinuation>, reasoning: Option<Text>, c: ProviderContinuation) {
    && c.provider == Ascii("openai") && c.model == model && c.endpoint == endpoint
    && c.responseId == None
    && c.historyCursor == requestLength
    && c.reasoningContent == reasoning
    && c.reasoningHistory == LastOf(PreviousReasoning(previous) + [reasoning], MAX_REASONING_HISTORY)
    && KeptIds(calls, previous, c.nativeCallIds)
  }

  method MakeContinuation(model: Text, endpoint: Text, requestLength: nat, calls: seq<ParsedCall>,
      previous: Option<ProviderContinuation>, reasoning: Option<Text>)
    returns (c: ProviderContinuation)
    ensures Continues(model, endpoint, requestLength, calls, previous, reasoning, c)
  {
    var all, current := MergeIds(calls, previous);
    var ids := DropOldest(all, current);
    IdsKept(calls, previous, all, ids);
    var slots := PreviousReasoning(previous) + [reasoning];
    if |slots| > MAX_REASONING_HISTORY {
      slots := slots[|slots| - MAX_REASONING_HISTORY..];
    }
    return ProviderContinuation(Ascii("openai"), None, model, endpoint, ids, requestLength, reasoning, slots);
  }

  lemma IdsKept(calls: seq<ParsedCall>, previous: Option<ProviderContinuation>, all: map<CallId, Text>,
      ids: map<CallId, Text>)
    requires all == PreviousIds(previous) + CurrentIds(calls)
    requires CurrentIds(calls).Keys <= ids.Keys <= all.Keys && forall id | id in ids :: ids[id] == all[id]
    requires |all| <= MAX_NATIVE_CALL_IDS ==> ids == all
    requires |all| > MAX_NATIVE_CALL_IDS ==>
               |ids| == if |CurrentIds(calls)| <= MAX_NATIVE_CALL_IDS then MAX_NATIVE_CALL_IDS else |CurrentIds(calls)|
    ensures KeptIds(calls, previous, ids)
  {
  }

  method MergeIds(calls: seq<ParsedCall>, previous: Option<ProviderContinuation>)
      returns (ids: map<CallId, Text>, current: map<CallId, Text>)
    ensures current == CurrentIds(calls) && ids == PreviousIds(previous) + current
  {
    ids, current := PreviousIds(previous), map[];
    for i := 0 to |calls|
      invariant current == CurrentIds(calls[..i])
      invariant ids == PreviousIds(previous) + current
    {
      assert calls[..i + 1][..i] == calls[..i];
      OverlayPut(PreviousIds(previous), current, calls[i].callId, calls[i].nativeId);
      current := current[calls[i].callId := calls[i].nativeId];
      ids := ids[calls[i].callId := calls[i].nativeId];
    }
    assert calls[..|calls|] == calls;
  }

  lemma OverlayPut<K, V>(under: map<K, V>, over: map<K, V>, k: K, v: V)
    ensures under + over[k := v] == (under + over)[k := v]
  {
  }

  /**
   Drops ids the answer does not need, in whatever order the table yields them, until the limit is met or none is
   left.
   */
  method DropOldest(all: map<CallId, Text>, current: map<CallId, Text>) returns (ids: map<CallId, Text>)
    requires current.Keys <= all.Keys
    ensures current.Keys <= ids.Keys <= all.Keys
    ensures forall id | id in ids :: ids[id] == all[id]
    ensures |all| <= MAX_NATIVE_CALL_IDS ==> ids == all
    ensures |all| > MAX_NATIVE_CALL_IDS ==>
              |ids| == if |current| <= MAX_NATIVE_CALL_IDS then MAX_NATIVE_CALL_IDS else |current|
  {
    if |all| <= MAX_NATIVE_CALL_IDS {
      return all;
    }
    ids := all;
    while |ids| > MAX_NATIVE_CALL_IDS && ids.Keys != current.Keys
      invariant current.Keys <= ids.Keys <= all.Keys
      invariant forall id | id in ids :: ids[id] == all[id]
      invariant |ids| >= MAX_NATIVE_CALL_IDS
      decreases |ids|
    {
      ids := DropOne(ids, current.Keys);
    }
    SubsetSize(current.Keys, ids.Keys);
  }

  method DropOne(ids: map<CallId, Text>, needed: set<CallId>) returns (r: map<CallId, Text>)
    requires needed < ids.Keys
    ensures needed <= r.Keys <= ids.Keys && |r| == |ids| - 1
    ensures forall id | id in r :: r[id] == ids[id]
  {
    assert ids.Keys - needed != {};
    var oldId :| oldId in ids && oldId !in needed;
    r := ids - {oldId};
    assert r.Keys == ids.Keys - {oldId};
  }

  lemma SubsetSize<T>(a: set<T>, b: set<T>)
    requires a <= b
    ensures |a| <= |b|
    ensures a != b ==> |a| < |b|
  {
    assert b == a + (b - a);
  }

  /** Reports of provider attempts move nothing but the sequence number. */
  lemma {:induction false} AttemptsOnlyCount(s: SessionState, attempts: seq<Event>)
    requires Replay(s, attempts).Some? && forall i | 0 <= i < |attempts| :: attempts[i].payload.ProviderAttemptRecorded?
    ensures Replay(s, attempts).value == s.(lastSeq := s.lastSeq + |attempts|)
    decreases |attempts|
  {
    if attempts != [] {
      var n := |attempts| - 1;
      AttemptsOnlyCount(s, attempts[..n]);
    }
  }

  /**
   The continuation of a request built from a window of the session, offered in the turn that asked for it
   (attempt reports may lie between), is refused exactly when the answer has more than 32 different calls.
   */
  lemma ContinuationAcceptedIff(s: SessionState, start: nat, attempts: seq<Event>, e: Event,
      model: Text, endpoint: Text, calls: seq<ParsedCall>, reasoning: Option<Text>, c: ProviderContinuation)
    requires start <= |s.history|
    requires Continues(model, endpoint, |SnapshotFrom(s, start).history|, calls,
               SnapshotFrom(s, start).continuation, reasoning, c)
    requires Replay(s, attempts).Some? && forall i | 0 <= i < |attempts| :: attempts[i].payload.ProviderAttemptRecorded?
    requires e.payload == ProviderContinuationUpdated(Some(c)) && s.lastSeq > 0
    requires ExpectedNext(Replay(s, attempts).value, e) && OwnsActiveTurn(Replay(s, attempts).value, e)
    ensures Reduce(Replay(s, attempts).value, e).ok <==> |CurrentIds(calls)| <= MAX_NATIVE_CALL_IDS
  {
    AttemptsOnlyCount(s, attempts);
    var union := PreviousIds(SnapshotFrom(s, start).continuation) + CurrentIds(calls);
    SubsetSize(CurrentIds(calls).Keys, union.Keys);
    SubsetSize(CurrentIds(calls).Keys, c.nativeCallIds.Keys);
  }

  // ------------------------------------------------------------------ what a continuation carries on

  /** A call of the answer is known by the native id it was last given. */
  lemma {:induction false} CurrentIdIsLast(calls: seq<ParsedCall>, i: nat)
    requires i < |calls| && forall j | i < j < |calls| :: calls[j].callId != calls[i].callId
    ensures calls[i].callId in CurrentIds(calls) && CurrentIds(calls)[calls[i].callId] == calls[i].nativeId
  {
    var n := |calls| - 1;
    var front, last := calls[..n], calls[n];
    assert CurrentIds(calls) == CurrentIds(front)[last.callId := last.nativeId];
    if i < n {
      assert front[i] == calls[i] && last.callId != calls[i].callId;
      CurrentIdIsLast(front, i);
    }
  }

  /** An earlier call stays known by its id as long as all ids fit the limit. */
  lemma EarlierIdKept(calls: seq<ParsedCall>, p: ProviderContinuation, kept: map<CallId, Text>,
      earlier: map<CallId, Text>, id: CallId)
    requires KeptIds(calls, Some(p), kept) && earlier == p.nativeCallIds && |earlier + CurrentIds(calls)| <= 32
    requires id in earlier && id !in CurrentIds(calls)
    ensures id in kept && kept[id] == earlier[id]
  {
  }

  predicate Saved(previous: Option<ProviderContinuation>, saved: seq<Option<Text>>) {
    match previous
    case None => saved == []
    case Some(p) =>
      if p.reasoningHistory != [] then saved == p.reasoningHistory
      else if p.reasoningContent == None then saved == []
      else saved == [p.reasoningContent]
  }

  /** Distance from the end. */
  function FromEnd<T>(s: seq<T>, back: nat): T
    requires back < |s|
  {
    s[|s| - 1 - back]
  }

  /**
   The newest reasoning comes last; before it, slot by slot, what was saved before, of which the oldest make way
   beyond 64 slots. A state from before there were slots has its one value as the only slot.
   */
  lemma SlotsCarriedOn(calls: seq<ParsedCall>, previous: Option<ProviderContinuation>, c: ProviderContinuation,
      model: Text, endpoint: Text, requestLength: nat, reasoning: Option<Text>, saved: seq<Option<Text>>)
    requires Continues(model, endpoint, requestLength, calls, previous, reasoning, c)
    requires Saved(previous, saved)
    ensures |c.reasoningHistory| == if |saved| < 64 then |saved| + 1 else 64
    ensures FromEnd(c.reasoningHistory, 0) == reasoning
    ensures forall back | 0 < back < |c.reasoningHistory| ::
              FromEnd(c.reasoningHistory, back) == FromEnd(saved, back - 1)
  {
  }
}
