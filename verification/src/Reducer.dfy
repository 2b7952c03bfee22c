/** The deterministic reducer: one durable event folded into the session state. */
module Reducer {
  import opened Options
  import opened State
  import opened HistoryJson

  const MAX_HISTORY_BYTES: nat := 8 * 1024 * 1024
  const MAX_NATIVE_CALL_IDS: nat := 32

  /** A transition and whether it was accepted; a refused one may leave a half-changed state behind. */
  datatype Outcome = Outcome(state: SessionState, ok: bool)

  // ------------------------------------------------------------------ specification

  /** The cached size, rebuilt when a decoded state does not carry it. */
  function KnownBytes(s: SessionState): nat {
    if s.historyBytes == 0 && s.history != [] then |EncodeHistory(s.history)| else s.historyBytes
  }

  function SizeAfterPush(s: SessionState, item: HistoryItem): nat {
    KnownBytes(s) + |EncodeItem(item)| + (if s.history == [] then 0 else 1)
  }

  function PushHistory(s: SessionState, item: HistoryItem): Outcome {
    if SizeAfterPush(s, item) > MAX_HISTORY_BYTES
    then Outcome(s.(historyBytes := KnownBytes(s)), false)
    else Outcome(s.(history := s.history + [item], historyBytes := SizeAfterPush(s, item)), true)
  }

  predicate HasReplayMetadata(c: ProviderContinuation) {
    || c.nativeCallIds != map[]
    || c.reasoningContent.Some?
    || exists i | 0 <= i < |c.reasoningHistory| :: c.reasoningHistory[i].Some?
  }

  /** What survives of a continuation when its turn ends without an answer. */
  function ReplayOnly(c: Option<ProviderContinuation>): Option<ProviderContinuation> {
    if c.Some? && HasReplayMetadata(c.value) then Some(c.value.(responseId := None, historyCursor := 0)) else None
  }

  predicate OwnsActiveTurn(s: SessionState, e: Event) {
    s.activeTurn.Some? && e.turnId == Some(s.activeTurn.value.turnId)
  }

  predicate ExpectedNext(s: SessionState, e: Event) {
    && e.sessionId == s.sessionId
    && e.seqNo == s.lastSeq + 1
    && (s.lastSeq == 0 <==> e.payload.SessionCreated?)
  }

  predicate AcceptableContinuation(s: SessionState, c: Option<ProviderContinuation>) {
    c.Some? ==> c.value.historyCursor <= |s.history| && |c.value.nativeCallIds| <= MAX_NATIVE_CALL_IDS
  }

  function Requested(t: TurnState, id: CallId, name: Text, input: Json, requiresApproval: bool): TurnState {
    t.(toolCalls := t.toolCalls + [id],
       toolNames := t.toolNames[id := name],
       toolInputs := t.toolInputs[id := input],
       executions := t.executions[id := Pending],
       approvals := if requiresApproval then t.approvals[id := AwaitingApproval] else t.approvals)
  }

  function ExecutionOf(outcome: ToolOutcome): ExecutionState {
    match outcome
    case Succeeded(result) => Completed(result)
    case Rejected(error) => Errored(error)
    case Failed(error) => Errored(error)
  }

  predicate AwaitsApproval(t: TurnState, id: CallId) {
    id in t.approvals && t.approvals[id] == AwaitingApproval
  }

  predicate IsPending(t: TurnState, id: CallId) {
    id in t.executions && t.executions[id] == Pending
  }

  function InputOf(t: TurnState, id: CallId): Json {
    if id in t.toolInputs then t.toolInputs[id] else JSON_NULL
  }

  /** A call that does not stand in the way of completing its turn. */
  predicate Settled(t: TurnState, id: CallId)
    requires id in t.executions
  {
    t.executions[id].Completed? || (t.executions[id].Errored? && id in t.rejected)
  }

  function Marked(t: TurnState, id: CallId, outcome: ToolOutcome): TurnState {
    if outcome.Rejected? then t.(rejected := t.rejected + {id}) else t
  }

  function Concluded(t: TurnState, id: CallId, outcome: ToolOutcome): TurnState {
    Marked(t, id, outcome).(executions := t.executions[id := ExecutionOf(outcome)])
  }

  function ResultItem(t: TurnState, id: CallId, outcome: ToolOutcome): HistoryItem {
    Tool(id, if id in t.toolNames then t.toolNames[id] else [], InputOf(t, id), outcome.AsToolResult())
  }

  function Complete(s: SessionState, t: TurnState, id: CallId, outcome: ToolOutcome): Outcome {
    if id !in t.toolNames then Outcome(s.(activeTurn := Some(Marked(t, id, outcome))), false)
    else PushHistory(s.(activeTurn := Some(Concluded(t, id, outcome))), ResultItem(t, id, outcome))
  }

  function Finish(s: SessionState, t: TurnState, text: Text): Outcome {
    var closed := s.(activeTurn := Some(t.(status := Finished, finalText := Some(text))));
    var recorded := if t.lastModelResponse == Some(text) then Outcome(closed, true)
        else PushHistory(closed, Assistant(text));
    if recorded.ok then Outcome(recorded.state.(activeTurn := None, status := Idle), true) else recorded
  }

  /** The transitions of an active turn. */
  function ReduceTurn(s: SessionState, t: TurnState, p: EventPayload): Outcome {
    match p
    case ModelResponseRecorded(text) =>
      PushHistory(s.(activeTurn := Some(t.(lastModelResponse := Some(text)))), Assistant(text))
    case ProviderContinuationUpdated(c) =>
      if AcceptableContinuation(s, c) then Outcome(s.(continuation := c), true) else Outcome(s, false)
    case ProviderAttemptRecorded(_) => Outcome(s, true)
    case ToolRequested(id, name, input, requiresApproval) =>
      if id in t.executions then Outcome(s, false)
      else Outcome(s.(activeTurn := Some(Requested(t, id, name, input, requiresApproval))), true)
    case ToolApprovalResponded(id, approved) =>
      if !AwaitsApproval(t, id) then Outcome(s, false)
      else Outcome(s.(activeTurn := Some(t.(approvals := t.approvals[id := if approved then Approved else Denied]))),
          true)
    case ToolCompleted(id, outcome, _) =>
      if !IsPending(t, id) || AwaitsApproval(t, id) then Outcome(s, false) else Complete(s, t, id, outcome)
    case ToolOutcomeUnknown(id, _) =>
      if !IsPending(t, id) then Outcome(s, false)
      else Outcome(s.(activeTurn := Some(t.(executions := t.executions[id := OutcomeUnknown]))), true)
    case TurnCompleted(text) =>
      if exists id | id in t.executions :: !Settled(t, id) then Outcome(s, false) else Finish(s, t, text)
    case TurnFailed(_) =>
        Outcome(s.(activeTurn := None, status := Stopped, continuation := ReplayOnly(s.continuation)), true)
    case TurnCancelRequested => Outcome(s, true)
    case TurnCancelled =>
        Outcome(s.(activeTurn := None, status := Idle, continuation := ReplayOnly(s.continuation)), true)
    case TurnTimedOut =>
        Outcome(s.(activeTurn := None, status := Idle, continuation := ReplayOnly(s.continuation)), true)
    case SessionCreated => Outcome(s, false)
    case UserInputRecorded(_) => Outcome(s, false)
    case TurnStarted => Outcome(s, false)
  }

  function RecordInput(s: SessionState, input: Text): Outcome {
    var pushed := PushHistory(s, User(input));
    if pushed.ok then Outcome(pushed.state.(pendingInput := Some(input), status := Idle), true) else pushed
  }

  /** Dispatch after the envelope of the event was checked. */
  function Apply(s: SessionState, e: Event): Outcome {
    match e.payload
    case SessionCreated => Outcome(if e.turnId.None? then s.(status := Idle) else s, e.turnId.None?)
    case UserInputRecorded(input) =>
      if s.activeTurn.None? && s.pendingInput.None? && e.turnId.None? && s.status != Running
      then RecordInput(s, input)
      else Outcome(s, false)
    case TurnStarted =>
      if s.activeTurn.None? && e.turnId.Some? && s.pendingInput.Some?
      then Outcome(s.(pendingInput := None, activeTurn := Some(NewTurn(e.turnId.value)), status := Running), true)
      else Outcome(s, false)
    case _ =>
      if OwnsActiveTurn(s, e) then ReduceTurn(s, s.activeTurn.value, e.payload) else Outcome(s, false)
  }

  function Reduce(s: SessionState, e: Event): Outcome {
    if !ExpectedNext(s, e) then Outcome(s, false)
    else
      var applied := Apply(s, e);
      if applied.ok then Outcome(applied.state.(lastSeq := e.seqNo), true) else applied
  }

  /** Fold of an event list; nothing once an event is refused. */
  function Replay(s: SessionState, events: seq<Event>): Option<SessionState> {
    if events == [] then Some(s)
    else
      var before := Replay(s, events[..|events| - 1]);
      if before.None? then None
      else
        var out := Reduce(before.value, events[|events| - 1]);
        if out.ok then Some(out.state) else None
  }

  lemma ReplaySnoc(s: SessionState, events: seq<Event>, e: Event)
    ensures Replay(s, events + [e]) ==
            if Replay(s, events).None? || !Reduce(Replay(s, events).value, e).ok then None
            else Some(Reduce(Replay(s, events).value, e).state)
  {
    assert (events + [e])[..|events + [e]| - 1] == events;
  }

  /** Replaying in two parts is replaying at once. */
  lemma {:induction false} ReplayConcat(s: SessionState, a: seq<Event>, b: seq<Event>)
    ensures Replay(s, a + b) == if Replay(s, a).None? then None else Replay(Replay(s, a).value, b)
    decreases |b|
  {
    if b == [] {
      assert a + b == a;
    } else {
      var shorter, last := b[..|b| - 1], b[|b| - 1];
      ReplayConcat(s, a, shorter);
      ReplaySnoc(s, a + shorter, last);
      assert a + b == a + shorter + [last];
    }
  }

  /** An accepted log of n events leaves the session at number n. */
  lemma {:induction false} ReplayLength(s: SessionState, events: seq<Event>)
    requires Replay(s, events).Some?
    ensures Replay(s, events).value.sessionId == s.sessionId
    ensures Replay(s, events).value.lastSeq == s.lastSeq + |events|
  {
    if events != [] {
      var n := |events| - 1;
      ReplayLength(s, events[..n]);
      ReduceEnvelope(Replay(s, events[..n]).value, events[n]);
    }
  }

  lemma ReduceEnvelope(s: SessionState, e: Event)
    ensures Reduce(s, e).state.sessionId == s.sessionId
    ensures Reduce(s, e).state.lastSeq == if Reduce(s, e).ok then s.lastSeq + 1 else s.lastSeq
    ensures Reduce(s, e).ok ==> e.sessionId == s.sessionId && e.seqNo == s.lastSeq + 1
  {
  }

  /** A prefix of an accepted log is accepted. */
  lemma {:induction false} ReplayPrefix(s: SessionState, events: seq<Event>, n: nat)
    requires Replay(s, events).Some? && n <= |events|
    ensures Replay(s, events[..n]).Some?
    decreases |events| - n
  {
    if n < |events| {
      ReplayPrefix(s, events, n + 1);
      assert events[..n + 1][..n] == events[..n];
    } else {
      assert events[..n] == events;
    }
  }

  /** The state an accepted log has reached before its i-th event, which that state accepts. */
  lemma ReplayAt(s: SessionState, events: seq<Event>, i: nat) returns (before: SessionState)
    requires Replay(s, events).Some? && i < |events|
    ensures Replay(s, events[..i]) == Some(before)
    ensures Reduce(before, events[i]).ok
    ensures Replay(s, events[..i + 1]) == Some(Reduce(before, events[i]).state)
  {
    ReplayPrefix(s, events, i + 1);
    assert events[..i + 1][..i] == events[..i];
    before := Replay(s, events[..i]).value;
  }

  /** The events of an accepted log are numbered consecutively, all in its session. */
  lemma ReplayNumbers(s: SessionState, events: seq<Event>, i: nat)
    requires Replay(s, events).Some? && i < |events|
    ensures events[i].sessionId == s.sessionId && events[i].seqNo == s.lastSeq + i + 1
  {
    var before := ReplayAt(s, events, i);
    ReplayLength(s, events[..i]);
    ReduceEnvelope(before, events[i]);
  }

  lemma FoldOne(s: SessionState, events: seq<Event>, i: nat, before: SessionState)
    requires i < |events| && Replay(s, events[..i]) == Some(before)
    ensures var out := Reduce(before, events[i]);
            Replay(s, events[..i + 1]) == if out.ok then Some(out.state) else None
  {
    assert events[..i + 1] == events[..i] + [events[i]];
    ReplaySnoc(s, events[..i], events[i]);
  }

  lemma FoldRefused(s: SessionState, events: seq<Event>, n: nat)
    requires n <= |events| && Replay(s, events[..n]).None?
    ensures Replay(s, events).None?
  {
    if Replay(s, events).Some? { ReplayPrefix(s, events, n); }
  }

  /** The loop in which every reader of a log folds it. */
  method FoldAll(session: SessionId, events: seq<Event>) returns (r: Option<SessionState>)
    ensures r == Replay(NewSession(session), events)
  {
    var state := NewSession(session);
    for i := 0 to |events|
      invariant Replay(NewSession(session), events[..i]) == Some(state)
    {
      var out := Reduce(state, events[i]);
      FoldOne(NewSession(session), events, i, state);
      if !out.ok {
        FoldRefused(NewSession(session), events, i + 1);
        return None;
      }
      state := out.state;
    }
    assert events[..|events|] == events;
    r := Some(state);
  }

  // ------------------------------------------------------------------ the reducer in place

  /** The mutable session the runtime folds events into. */
  class Session {
    var sessionId: SessionId
    var status: SessionStatus
    var activeTurn: Option<TurnState>
    var history: seq<HistoryItem>
    var pendingInput: Option<Text>
    var continuation: Option<ProviderContinuation>
    var lastSeq: nat
    var historyBytes: nat

    ghost function View(): SessionState
      reads this
    {
      SessionState(sessionId, status, activeTurn, history, pendingInput, continuation, lastSeq, historyBytes)
    }

    constructor (id: SessionId)
      ensures View() == NewSession(id)
    {
      sessionId, status, activeTurn, history := id, Idle, None, [];
      pendingInput, continuation, lastSeq, historyBytes := None, None, 0, 2;
    }

    method Push(item: HistoryItem) returns (ok: bool)
      modifies this`history, this`historyBytes
      ensures Outcome(View(), ok) == PushHistory(old(View()), item)
    {
      if historyBytes == 0 && history != [] {
        historyBytes := |EncodeHistory(history)|;
      }
      var size := historyBytes + |EncodeItem(item)| + if history == [] then 0 else 1;
      if size > MAX_HISTORY_BYTES {
        return false;
      }
      history := history + [item];
      historyBytes := size;
      return true;
    }

    method ResetProviderCursor()
      modifies this`continuation
      ensures continuation == ReplayOnly(old(continuation))
    {
      if continuation.None? {
        return;
      }
      var taken := continuation.value;
      continuation := None;
      var hasReasoning := taken.reasoningContent.Some?;
      for i := 0 to |taken.reasoningHistory|
        invariant hasReasoning <==>
                  taken.reasoningContent.Some? || exists j | 0 <= j < i :: taken.reasoningHistory[j].Some?
      {
        if taken.reasoningHistory[i].Some? {
          hasReasoning := true;
        }
      }
      if taken.nativeCallIds == map[] && !hasReasoning {
        return;
      }
      continuation := Some(taken.(responseId := None, historyCursor := 0));
    }

    /** Folds one event; on refusal the half-done change of the failing transition stays. */
    method Fold(e: Event) returns (ok: bool)
      modifies this
      ensures Outcome(View(), ok) == Reduce(old(View()), e)
    {
      if e.sessionId != sessionId || e.seqNo != lastSeq + 1 {
        return false;
      }
      if lastSeq == 0 && !e.payload.SessionCreated? {
        return false;
      }
      if lastSeq > 0 && e.payload.SessionCreated? {
        return false;
      }
      match e.payload {
        case SessionCreated =>
          ok := e.turnId.None?;
          if ok { status := Idle; }
        case UserInputRecorded(input) =>
          ok := activeTurn.None? && pendingInput.None? && e.turnId.None? && status != Running;
          if ok {
            ok := Push(User(input));
            if ok {
              pendingInput := Some(input);
              status := Idle;
            }
          }
        case TurnStarted =>
          if activeTurn.Some? || e.turnId.None? || pendingInput.None? {
            return false;
          }
          pendingInput := None;
          activeTurn := Some(NewTurn(e.turnId.value));
          status := Running;
          ok := true;
        case _ =>
          if activeTurn.None? || e.turnId != Some(activeTurn.value.turnId) {
            return false;
          }
          ok := FoldIntoTurn(e.payload);
      }
      if ok { lastSeq := e.seqNo; }
    }

    method FoldIntoTurn(p: EventPayload) returns (ok: bool)
      requires activeTurn.Some?
      modifies this
      ensures Outcome(View(), ok) == ReduceTurn(old(View()), old(activeTurn.value), p)
    {
      var turn := activeTurn.value;
      ok := true;
      match p {
        case ModelResponseRecorded(text) =>
          activeTurn := Some(turn.(lastModelResponse := Some(text)));
          ok := Push(Assistant(text));
        case ProviderContinuationUpdated(c) =>
          if c.Some? && (c.value.historyCursor > |history| || |c.value.nativeCallIds| > 32) {
            return false;
          }
          continuation := c;
        case ProviderAttemptRecorded(_) =>
        case ToolRequested(id, name, input, requiresApproval) =>
          ok := FoldRequest(turn, id, name, input, requiresApproval);
        case ToolApprovalResponded(id, approved) =>
          ok := FoldAnswer(turn, id, approved);
        case ToolCompleted(id, outcome, _) =>
          ok := FoldCompletion(turn, id, outcome);
        case ToolOutcomeUnknown(id, _) =>
          if id !in turn.executions || turn.executions[id] != Pending {
            return false;
          }
          activeTurn := Some(turn.(executions := turn.executions[id := OutcomeUnknown]));
        case TurnCompleted(text) =>
          ok := FoldEnd(turn, text);
        case TurnFailed(_) =>
          activeTurn, status := None, Stopped;
          ResetProviderCursor();
        case TurnCancelRequested =>
        case TurnCancelled =>
          activeTurn, status := None, Idle;
          ResetProviderCursor();
        case TurnTimedOut =>
          activeTurn, status := None, Idle;
          ResetProviderCursor();
        case SessionCreated => ok := false;
        case UserInputRecorded(_) => ok := false;
        case TurnStarted => ok := false;
      }
    }

    method FoldRequest(requested: TurnState, id: CallId, name: Text, input: Json, requiresApproval: bool)
        returns (ok: bool)
      requires activeTurn == Some(requested)
      modifies this
      ensures Outcome(View(), ok) == ReduceTurn(old(View()), requested,
                ToolRequested(id, name, input, requiresApproval))
    {
      if id in requested.executions {
        return false;
      }
      var turn := requested.(toolCalls := requested.toolCalls + [id], toolNames := requested.toolNames[id := name]);
      turn := turn.(toolInputs := turn.toolInputs[id := input], executions := turn.executions[id := Pending]);
      if requiresApproval {
        turn := turn.(approvals := turn.approvals[id := AwaitingApproval]);
      }
      activeTurn := Some(turn);
      ok := true;
    }

    method FoldAnswer(turn: TurnState, id: CallId, approved: bool) returns (ok: bool)
      requires activeTurn == Some(turn)
      modifies this
      ensures Outcome(View(), ok) == ReduceTurn(old(View()), turn, ToolApprovalResponded(id, approved))
    {
      if id !in turn.approvals || turn.approvals[id] != AwaitingApproval {
        return false;
      }
      activeTurn := Some(turn.(approvals := turn.approvals[id := if approved then Approved else Denied]));
      ok := true;
    }

    method FoldEnd(turn: TurnState, text: Text) returns (ok: bool)
      requires activeTurn == Some(turn)
      modifies this
      ensures Outcome(View(), ok) == ReduceTurn(old(View()), turn, TurnCompleted(text))
    {
      if exists id | id in turn.executions ::
        !(turn.executions[id].Completed? || (turn.executions[id].Errored? && id in turn.rejected)) {
        return false;
      }
      activeTurn := Some(turn.(status := Finished, finalText := Some(text)));
      if turn.lastModelResponse != Some(text) {
        ok := Push(Assistant(text));
        if !ok { return; }
      }
      activeTurn, status := None, Idle;
      ok := true;
    }

    method FoldCompletion(turn: TurnState, id: CallId, outcome: ToolOutcome) returns (ok: bool)
      requires activeTurn == Some(turn)
      modifies this
      ensures Outcome(View(), ok) == ReduceTurn(old(View()), turn, ToolCompleted(id, outcome, 0))
    {
      if id !in turn.executions || turn.executions[id] != Pending {
        return false;
      }
      if id in turn.approvals && turn.approvals[id] == AwaitingApproval {
        return false;
      }
      var marked := turn;
      if outcome.Rejected? {
        marked := marked.(rejected := marked.rejected + {id});
        activeTurn := Some(marked);
      }
      if id !in marked.toolNames {
        return false;
      }
      var item := Tool(id, marked.toolNames[id], InputOf(marked, id), outcome.AsToolResult());
      activeTurn := Some(marked.(executions := marked.executions[id := ExecutionOf(outcome)]));
      ok := Push(item);
    }
  }
}
