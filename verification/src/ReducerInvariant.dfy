/** What every session state reached by accepted events satisfies. */
module ReducerInvariant {
  import opened Options
  import opened Sequences
  import opened State
  import opened HistoryJson
  import opened Reducer

  ghost predicate NoDuplicates(ids: seq<CallId>) {
    forall i, j | 0 <= i < j < |ids| :: ids[i] != ids[j]
  }

  predicate Finalized(x: ExecutionState) {
    x.Completed? || x.Errored?
  }

  ghost predicate CallList(t: TurnState) {
    NoDuplicates(t.toolCalls) && forall id :: id in t.toolCalls <==> id in t.executions
  }

  predicate SharedKeys(t: TurnState) {
    && t.toolNames.Keys == t.executions.Keys
    && t.toolInputs.Keys == t.executions.Keys
    && t.approvals.Keys <= t.executions.Keys
    && t.rejected <= t.executions.Keys
  }

  predicate CallsDecided(t: TurnState)
    requires SharedKeys(t)
  {
    && (forall id | id in t.rejected :: t.executions[id].Errored?)
    && (forall id | id in t.approvals && Finalized(t.executions[id]) :: t.approvals[id] != AwaitingApproval)
  }

  ghost predicate TurnInvariant(t: TurnState) {
    t.status == InProgress && CallList(t) && SharedKeys(t) && CallsDecided(t)
  }

  predicate ContinuationInvariant(s: SessionState) {
    && AcceptableContinuation(s, s.continuation)
    && (s.status == Stopped && s.continuation.Some? ==> s.continuation.value.responseId.None?)
  }

  ghost predicate Invariant(s: SessionState) {
    && (s.activeTurn.Some? <==> s.status == Running)
    && (s.activeTurn.Some? ==> s.pendingInput.None? && s.lastSeq > 0 && TurnInvariant(s.activeTurn.value))
    && (s.status == Stopped ==> s.pendingInput.None?)
    && ContinuationInvariant(s)
    && s.historyBytes == |EncodeHistory(s.history)| <= MAX_HISTORY_BYTES
  }

  lemma PushKeepsSize(s: SessionState, item: HistoryItem)
    requires s.historyBytes == |EncodeHistory(s.history)| <= MAX_HISTORY_BYTES
    ensures PushHistory(s, item).ok <==> |EncodeHistory(s.history + [item])| <= MAX_HISTORY_BYTES
    ensures var out := PushHistory(s, item).state;
            out.historyBytes == |EncodeHistory(out.history)| <= MAX_HISTORY_BYTES
  {
    EncodeSnoc(s.history, item);
  }

  lemma RequestKeepsTurn(t: TurnState, id: CallId, name: Text, input: Json, requiresApproval: bool)
    requires TurnInvariant(t) && id !in t.executions
    ensures TurnInvariant(Requested(t, id, name, input, requiresApproval))
  {
    var u := Requested(t, id, name, input, requiresApproval);
    RequestKeepsList(t, u, id);
    RequestKeepsDecided(t, u, id);
  }

  lemma RequestKeepsDecided(t: TurnState, u: TurnState, id: CallId)
    requires SharedKeys(t) && CallsDecided(t) && id !in t.executions
    requires u.executions == t.executions[id := Pending] && u.rejected == t.rejected && SharedKeys(u)
    requires u.approvals == t.approvals || u.approvals == t.approvals[id := AwaitingApproval]
    ensures CallsDecided(u)
  {
  }

  lemma RequestKeepsList(t: TurnState, u: TurnState, id: CallId)
    requires CallList(t) && id !in t.executions
    requires u.toolCalls == t.toolCalls + [id] && u.executions == t.executions[id := Pending]
    ensures CallList(u)
  {
    assert id !in t.toolCalls;
    forall c ensures c in u.toolCalls <==> c in u.executions {
      assert c in u.toolCalls <==> c in t.toolCalls || c == id;
    }
  }

  lemma ConclusionKeepsTurn(t: TurnState, id: CallId, outcome: ToolOutcome)
    requires TurnInvariant(t) && IsPending(t, id) && !AwaitsApproval(t, id)
    ensures TurnInvariant(Concluded(t, id, outcome))
  {
    var u := Concluded(t, id, outcome);
    assert u.executions.Keys == t.executions.Keys;
    SameKeysKeepList(t, u);
    ConclusionKeepsDecided(t, id, outcome);
  }

  lemma SameKeysKeepList(t: TurnState, u: TurnState)
    requires CallList(t) && u.toolCalls == t.toolCalls && u.executions.Keys == t.executions.Keys
    ensures CallList(u)
  {
    forall c ensures c in u.toolCalls <==> c in u.executions {
      assert c in t.toolCalls <==> c in t.executions;
    }
  }

  lemma ConclusionKeepsDecided(t: TurnState, id: CallId, outcome: ToolOutcome)
    requires SharedKeys(t) && CallsDecided(t) && IsPending(t, id) && !AwaitsApproval(t, id)
    ensures SharedKeys(Concluded(t, id, outcome)) && CallsDecided(Concluded(t, id, outcome))
  {
    var u := Concluded(t, id, outcome);
    assert u.executions.Keys == t.executions.Keys;
    assert forall x | x in u.rejected :: x in t.rejected || (x == id && outcome.Rejected?);
  }

  lemma TurnStepKeepsInvariant(s: SessionState, t: TurnState, p: EventPayload)
    requires Invariant(s) && s.activeTurn == Some(t) && ReduceTurn(s, t, p).ok
    ensures Invariant(ReduceTurn(s, t, p).state)
  {
    match p {
      case ModelResponseRecorded(text) =>
        PushKeepsSize(s.(activeTurn := Some(t.(lastModelResponse := Some(text)))), Assistant(text));
      case ToolRequested(id, name, input, requiresApproval) =>
        RequestKeepsTurn(t, id, name, input, requiresApproval);
      case ToolApprovalResponded(id, approved) => AnswerKeepsTurn(t, id, if approved then Approved else Denied);
      case ToolCompleted(id, outcome, _) => CompletionKeepsInvariant(s, t, id, outcome);
      case ToolOutcomeUnknown(id, _) => LossKeepsTurn(t, id);
      case TurnCompleted(text) => FinishKeepsInvariant(s, t, text);
      case _ =>
    }
  }

  lemma AnswerKeepsTurn(t: TurnState, id: CallId, answer: ApprovalStatus)
    requires TurnInvariant(t) && AwaitsApproval(t, id) && answer != AwaitingApproval
    ensures TurnInvariant(t.(approvals := t.approvals[id := answer]))
  {
    SameKeysKeepList(t, t.(approvals := t.approvals[id := answer]));
  }

  lemma LossKeepsTurn(t: TurnState, id: CallId)
    requires TurnInvariant(t) && IsPending(t, id)
    ensures TurnInvariant(t.(executions := t.executions[id := OutcomeUnknown]))
  {
    var u := t.(executions := t.executions[id := OutcomeUnknown]);
    assert u.executions.Keys == t.executions.Keys;
    SameKeysKeepList(t, u);
  }

  lemma CompletedTurn(s: SessionState, t: TurnState, p: EventPayload)
    requires s.activeTurn == Some(t) && p.ToolCompleted? && ReduceTurn(s, t, p).ok
    ensures ReduceTurn(s, t, p).state.activeTurn == Some(Concluded(t, p.callId, p.outcome)) && IsPending(t, p.callId)
  {
  }

  lemma CompletionKeepsInvariant(s: SessionState, t: TurnState, id: CallId, outcome: ToolOutcome)
    requires Invariant(s) && s.activeTurn == Some(t) && IsPending(t, id) && !AwaitsApproval(t, id)
              && Complete(s, t, id, outcome).ok
    ensures Invariant(Complete(s, t, id, outcome).state)
  {
    ConclusionKeepsTurn(t, id, outcome);
    PushKeepsSize(s.(activeTurn := Some(Concluded(t, id, outcome))), ResultItem(t, id, outcome));
  }

  lemma FinishKeepsInvariant(s: SessionState, t: TurnState, text: Text)
    requires Invariant(s) && s.activeTurn == Some(t) && Finish(s, t, text).ok
    ensures Invariant(Finish(s, t, text).state)
  {
    PushKeepsSize(s.(activeTurn := Some(t.(status := Finished, finalText := Some(text)))), Assistant(text));
  }

  /** Every accepted event keeps the invariant. */
  lemma ReduceKeepsInvariant(s: SessionState, e: Event)
    requires Invariant(s) && Reduce(s, e).ok
    ensures Invariant(Reduce(s, e).state)
  {
    match e.payload {
      case SessionCreated =>
      case UserInputRecorded(input) => PushKeepsSize(s, User(input));
      case TurnStarted =>
      case _ => TurnStepKeepsInvariant(s, s.activeTurn.value, e.payload);
    }
  }

  /** ... so it holds after every log the reducer accepts. */
  lemma {:induction false} ReachableInvariant(id: SessionId, log: seq<Event>)
    requires Replay(NewSession(id), log).Some?
    ensures Invariant(Replay(NewSession(id), log).value)
    decreases |log|
  {
    if log == [] {
      assert Join([]) == [];
    } else {
      var n := |log| - 1;
      var before := ReplayAt(NewSession(id), log, n);
      ReachableInvariant(id, log[..n]);
      ReduceKeepsInvariant(before, log[n]);
      assert log[..n + 1] == log;
    }
  }

  /** An active turn can always be cancelled: the request and then the cancellation are accepted and end it. */
  lemma CancellationAccepted(s: SessionState, request: Event, cancelled: Event)
    requires Invariant(s) && s.activeTurn.Some?
    requires request.payload == TurnCancelRequested && cancelled.payload == TurnCancelled
    requires request.sessionId == cancelled.sessionId == s.sessionId
    requires request.turnId == cancelled.turnId == Some(s.activeTurn.value.turnId)
    requires request.seqNo == s.lastSeq + 1 && cancelled.seqNo == s.lastSeq + 2
    ensures Replay(s, [request, cancelled]).Some?
    ensures var out := Replay(s, [request, cancelled]).value;
            out.activeTurn.None? && out.status == Idle && out.history == s.history
            && (out.continuation.Some? ==> out.continuation.value.responseId.None?)
  {
    assert [request, cancelled][..1] == [request];
    assert [request][..0] == [];
    var mid := Reduce(s, request).state;
    assert Replay(s, [request]) == Some(mid);
    assert Reduce(mid, cancelled).ok;
  }

  /** What a transition of the active turn adds to the history. */
  function RecordedItem(t: TurnState, p: EventPayload): Option<HistoryItem> {
    match p
    case ModelResponseRecorded(text) => Some(Assistant(text))
    case ToolCompleted(id, outcome, _) => Some(ResultItem(t, id, outcome))
    case TurnCompleted(text) => if t.lastModelResponse == Some(text) then None else Some(Assistant(text))
    case _ => None
  }

  lemma StepExtendsHistory(s: SessionState, e: Event)
    requires Reduce(s, e).ok
    ensures s.history <= Reduce(s, e).state.history
    ensures |Reduce(s, e).state.history| <= |s.history| + 1
  {
  }

  /** The history of a session is append-only: what any prefix of the log recorded stays in front, unchanged. */
  lemma {:induction false} HistoryAppendOnly(id: SessionId, log: seq<Event>, n: nat)
    requires n <= |log| && Replay(NewSession(id), log).Some?
    ensures Replay(NewSession(id), log[..n]).Some?
    ensures Replay(NewSession(id), log[..n]).value.history <= Replay(NewSession(id), log).value.history
    decreases |log| - n
  {
    if n < |log| {
      var before := ReplayAt(NewSession(id), log, n);
      HistoryAppendOnly(id, log, n + 1);
      StepExtendsHistory(before, log[n]);
      PrefixTransitive(before.history, Reduce(before, log[n]).state.history, Replay(NewSession(id), log).value.history);
    } else {
      assert log[..n] == log;
    }
  }

  predicate Overflows(s: SessionState, item: HistoryItem) {
    |EncodeHistory(s.history + [item])| > MAX_HISTORY_BYTES
  }

  /**
   The transitions that change the turn and only then record an item: a new response, the end of a call that may end,
   the completion of a turn without open calls whose answer is not yet recorded.
   */
  predicate ChangesBeforeRecording(t: TurnState, p: EventPayload) {
    match p
    case ModelResponseRecorded(text) => t.lastModelResponse != Some(text)
    case ToolCompleted(id, _, _) => IsPending(t, id) && !AwaitsApproval(t, id)
    case TurnCompleted(text) => t.lastModelResponse != Some(text) && forall id | id in t.executions :: Settled(t, id)
    case _ => false
  }

  lemma RefusedPush(s: SessionState, item: HistoryItem)
    requires s.historyBytes == |EncodeHistory(s.history)| <= MAX_HISTORY_BYTES
    ensures PushHistory(s, item).ok <==> !Overflows(s, item)
    ensures !PushHistory(s, item).ok ==> PushHistory(s, item).state == s
  {
    PushKeepsSize(s, item);
  }

  lemma RefusedCompletion(s: SessionState, t: TurnState, p: EventPayload)
    requires Invariant(s) && s.activeTurn == Some(t) && p.ToolCompleted? && !ReduceTurn(s, t, p).ok
    ensures ReduceTurn(s, t, p).state == s.(activeTurn := ReduceTurn(s, t, p).state.activeTurn)
    ensures ReduceTurn(s, t, p).state != s <==> ChangesBeforeRecording(t, p) && Overflows(s, RecordedItem(t, p).value)
  {
    if IsPending(t, p.callId) && !AwaitsApproval(t, p.callId) {
      var u := Concluded(t, p.callId, p.outcome);
      assert u.executions[p.callId] != t.executions[p.callId];
      RefusedPush(s.(activeTurn := Some(u)), ResultItem(t, p.callId, p.outcome));
    }
  }

  lemma RefusedAnswer(s: SessionState, t: TurnState, p: EventPayload)
    requires Invariant(s) && s.activeTurn == Some(t) && (p.ModelResponseRecorded? || p.TurnCompleted?)
              && !ReduceTurn(s, t, p).ok
    ensures ReduceTurn(s, t, p).state == s.(activeTurn := ReduceTurn(s, t, p).state.activeTurn)
    ensures ReduceTurn(s, t, p).state != s <==> ChangesBeforeRecording(t, p) && Overflows(s, Assistant(p.text))
  {
    RefusedPush(s.(activeTurn := Some(t.(lastModelResponse := Some(p.text)))), Assistant(p.text));
    RefusedPush(s.(activeTurn := Some(t.(status := Finished, finalText := Some(p.text)))), Assistant(p.text));
  }

  lemma TurnRefusalFrame(s: SessionState, t: TurnState, p: EventPayload)
    requires Invariant(s) && s.activeTurn == Some(t) && !ReduceTurn(s, t, p).ok
    ensures ReduceTurn(s, t, p).state == s.(activeTurn := ReduceTurn(s, t, p).state.activeTurn)
    ensures ReduceTurn(s, t, p).state != s <==>
              ChangesBeforeRecording(t, p) && RecordedItem(t, p).Some? && Overflows(s, RecordedItem(t, p).value)
  {
    if p.ToolCompleted? {
      RefusedCompletion(s, t, p);
    } else if p.ModelResponseRecorded? || p.TurnCompleted? {
      RefusedAnswer(s, t, p);
    }
  }

  /** The half-done change of a refused event, which is why callers fold into a clone and drop it on refusal. */
  predicate LeavesHalfDone(s: SessionState, e: Event) {
    && ExpectedNext(s, e) && OwnsActiveTurn(s, e)
    && ChangesBeforeRecording(s.activeTurn.value, e.payload)
    && RecordedItem(s.activeTurn.value, e.payload).Some?
    && Overflows(s, RecordedItem(s.activeTurn.value, e.payload).value)
  }

  /**
   A refused event changes nothing but the active turn, and that exactly when it is the next event of the turn, passes
   the checks of its transition, and the item it records no longer fits the history.
   */
  lemma RefusalFrame(s: SessionState, e: Event)
    requires Invariant(s) && !Reduce(s, e).ok
    ensures Reduce(s, e).state == s.(activeTurn := Reduce(s, e).state.activeTurn)
    ensures Reduce(s, e).state != s <==> LeavesHalfDone(s, e)
  {
    if ExpectedNext(s, e) && OwnsActiveTurn(s, e) {
      if !ReduceTurn(s, s.activeTurn.value, e.payload).ok {
        TurnRefusalFrame(s, s.activeTurn.value, e.payload);
      }
    }
  }

  /** A session whose history is full to the last byte, and the response it refuses but half records. */
  lemma HalfDoneRefusal() returns (s: SessionState, e: Event)
    ensures Invariant(s) && !Reduce(s, e).ok && Reduce(s, e).state != s
  {
    var text: Text := seq(MAX_HISTORY_BYTES - 13, i => 97);
    PlainEscape(text);
    assert |EncodeItem(User(text))| == MAX_HISTORY_BYTES - 2;
    var history := [User(text)];
    assert |EncodeHistory(history)| == MAX_HISTORY_BYTES;
    s := NewSession([]).(status := Running, activeTurn := Some(NewTurn([])), history := history, lastSeq := 3,
        historyBytes := MAX_HISTORY_BYTES);
    e := Event([], 4, 0, [], Some([]), ModelResponseRecorded([]));
    EncodeSnoc(history, Assistant([]));
    assert LeavesHalfDone(s, e);
    RefusalFrame(s, e);
  }
}
