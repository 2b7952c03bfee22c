/**
 The agent loop: every event is checked, folded into a clone, appended and only then adopted, while other
 processes may append between any two accesses to the store. Model answers, tool outcomes, clocks, cancellation and
 policy are parameters, foreign writes and store errors arbitrary choices: what is proved holds for every one of them.
 */
module AgentLoop {
  import opened Bytes
  import opened Options
  import opened State
  import opened Reducer
  import opened ReducerInvariant
  import opened DriverProtocol
  import opened AtMostOnce
  import opened MemoryStore
  import opened TurnProtocol
  import opened LogView
  import opened Dialogue
  import Context

  /** Why an append failed, in the order in which it is checked. */
  datatype AppendResult = Appended | Unavailable | OutOfSync | EventTooLarge | Refused | StoreError | LostRace

  // ------------------------------------------------------------------ what one event does to a turn

  /** The event a driver in this state makes of a payload. */
  function Stamped(s: SessionState, id: Bytes, timestamp: int, turn: Option<TurnId>, payload: EventPayload): Event {
    Event(id, s.lastSeq + 1, timestamp, s.sessionId, turn, payload)
  }

  function Draft(s: SessionState, turn: Option<TurnId>, payload: EventPayload): Event {
    Stamped(s, [], 0, turn, payload)
  }

  /** The state moved by exactly one accepted event. */
  predicate Took(s: SessionState, turn: Option<TurnId>, payload: EventPayload, s': SessionState) {
    Reduce(s, Draft(s, turn, payload)) == Outcome(s', true)
  }

  /** Identity and time of an event play no part in the fold. */
  lemma EnvelopeIrrelevant(s: SessionState, e: Event)
    requires e.seqNo == s.lastSeq + 1 && e.sessionId == s.sessionId
    ensures Reduce(s, e) == Reduce(s, Draft(s, e.turnId, e.payload))
  {
  }

  function WaitingCalls(t: TurnState): set<CallId> {
    set id | id in t.approvals && AwaitsApproval(t, id)
  }

  function OpenCalls(t: TurnState): set<CallId> {
    set id | id in t.executions && !Settled(t, id)
  }

  /** Calls waiting for the user's decision. */
  function Awaiting(s: SessionState): set<CallId> {
    if s.activeTurn.None? then {} else WaitingCalls(s.activeTurn.value)
  }

  /** Calls that stand in the way of completing the turn: not ended, failed, or of unknown outcome. */
  function Open(s: SessionState): set<CallId> {
    if s.activeTurn.None? then {} else OpenCalls(s.activeTurn.value)
  }

  function AwaitingAfter(waiting: set<CallId>, p: EventPayload): set<CallId> {
    match p
    case ToolRequested(id, _, _, requiresApproval) => if requiresApproval then waiting + {id} else waiting
    case ToolApprovalResponded(id, _) => waiting - {id}
    case _ => waiting
  }

  function OpenAfter(open: set<CallId>, p: EventPayload): set<CallId> {
    match p
    case ToolRequested(id, _, _, _) => open + {id}
    case ToolCompleted(id, outcome, _) => if outcome.Failed? then open else open - {id}
    case _ => open
  }

  predicate InTurn(p: EventPayload) {
    !p.SessionCreated? && !p.UserInputRecorded? && !p.TurnStarted?
  }

  /** Some call of the active turn may or may not have taken effect. */
  predicate Lost(s: SessionState) {
    && s.activeTurn.Some?
    && exists id | id in s.activeTurn.value.executions :: s.activeTurn.value.executions[id] == OutcomeUnknown
  }

  predicate RunsTurn(s: SessionState, turn: TurnId) {
    s.activeTurn.Some? && s.activeTurn.value.turnId == turn
  }

  /** What the loop relies on after an accepted event of a turn. */
  predicate Effect(s: SessionState, turn: TurnId, p: EventPayload, s': SessionState) {
    && RunsTurn(s, turn)
    && (EndsTurn(p) ==> s'.activeTurn.None?)
    && (!EndsTurn(p) ==>
        RunsTurn(s', turn) && Awaiting(s') == AwaitingAfter(Awaiting(s), p) && Open(s') == OpenAfter(Open(s), p))
    && (p.ToolRequested? ==> p.callId !in Awaiting(s) && p.callId !in Open(s))
    && (p.ToolOutcomeUnknown? ==> Lost(s'))
    && (!EndsTurn(p) ==> s'.continuation == if p.ProviderContinuationUpdated? then p.continuation else s.continuation)
    && (p.ProviderAttemptRecorded? || p.TurnCancelRequested? || p.ProviderContinuationUpdated? ==>
        s'.history == s.history)
    && (p.ModelResponseRecorded? ==>
        s'.history == s.history + [Assistant(p.text)] && s'.activeTurn.value.lastModelResponse == Some(p.text))
    && (p.TurnCompleted? ==>
        Open(s) == {} && (s.activeTurn.value.lastModelResponse == Some(p.text) ==> s'.history == s.history))
  }

  /** Nothing the loop looks at has changed. */
  predicate SameTurn(s: SessionState, s': SessionState, turn: TurnId) {
    && RunsTurn(s, turn) == RunsTurn(s', turn)
    && Awaiting(s) == Awaiting(s') && Open(s) == Open(s')
    && s.history == s'.history && s.continuation == s'.continuation
  }

  /** The turn goes on: no call has begun to wait or been left open, and the stored continuation is the same. */
  predicate GoesOn(s: SessionState, s': SessionState) {
    Awaiting(s) == Awaiting(s') && Open(s) == Open(s') && s.continuation == s'.continuation
  }

  lemma RequestWaits(t: TurnState, u: TurnState, p: EventPayload)
    requires TurnInvariant(t) && p.ToolRequested? && p.callId !in t.executions
    requires u == Requested(t, p.callId, p.name, p.arguments, p.requiresApproval)
    ensures p.callId !in WaitingCalls(t) && WaitingCalls(u) == AwaitingAfter(WaitingCalls(t), p)
  {
    assert p.callId !in t.approvals;
  }

  lemma RequestOpens(t: TurnState, u: TurnState, p: EventPayload)
    requires TurnInvariant(t) && p.ToolRequested? && p.callId !in t.executions
    requires u == Requested(t, p.callId, p.name, p.arguments, p.requiresApproval)
    ensures p.callId !in OpenCalls(t) && OpenCalls(u) == OpenAfter(OpenCalls(t), p)
  {
    assert p.callId !in t.rejected;
  }

  lemma RequestEffect(s: SessionState, t: TurnState, p: EventPayload)
    requires Invariant(s) && s.activeTurn == Some(t) && p.ToolRequested? && ReduceTurn(s, t, p).ok
    ensures Effect(s, t.turnId, p, ReduceTurn(s, t, p).state)
  {
    var u := ReduceTurn(s, t, p).state.activeTurn.value;
    RequestWaits(t, u, p);
    RequestOpens(t, u, p);
  }

  lemma AnswerEffect(s: SessionState, t: TurnState, p: EventPayload)
    requires Invariant(s) && s.activeTurn == Some(t) && p.ToolApprovalResponded? && ReduceTurn(s, t, p).ok
    ensures Effect(s, t.turnId, p, ReduceTurn(s, t, p).state)
  {
  }

  lemma ConclusionKeepsWaiting(t: TurnState, id: CallId, outcome: ToolOutcome)
    requires IsPending(t, id)
    ensures WaitingCalls(Concluded(t, id, outcome)) == WaitingCalls(t)
  {
  }

  lemma ConclusionSettles(t: TurnState, id: CallId, outcome: ToolOutcome, c: CallId)
    requires TurnInvariant(t) && IsPending(t, id) && c in t.executions
    ensures Settled(Concluded(t, id, outcome), c) <==> if c == id then !outcome.Failed? else Settled(t, c)
  {
    assert id !in t.rejected;
  }

  lemma ConclusionCloses(t: TurnState, id: CallId, outcome: ToolOutcome)
    requires TurnInvariant(t) && IsPending(t, id)
    ensures OpenCalls(Concluded(t, id, outcome)) == if outcome.Failed? then OpenCalls(t) else OpenCalls(t) - {id}
  {
    forall c | c in t.executions
      ensures Settled(Concluded(t, id, outcome), c) <==> if c == id then !outcome.Failed? else Settled(t, c)
    {
      ConclusionSettles(t, id, outcome, c);
    }
  }

  lemma ConcludedEffect(s: SessionState, t: TurnState, p: EventPayload, s': SessionState)
    requires s.activeTurn == Some(t) && TurnInvariant(t) && p.ToolCompleted? && IsPending(t, p.callId)
    requires s'.activeTurn == Some(Concluded(t, p.callId, p.outcome)) && s'.continuation == s.continuation
    ensures Effect(s, t.turnId, p, s')
  {
    ConclusionKeepsWaiting(t, p.callId, p.outcome);
    ConclusionCloses(t, p.callId, p.outcome);
    CallEffect(s, t, p, s', Concluded(t, p.callId, p.outcome));
  }

  lemma CallEffect(s: SessionState, t: TurnState, p: EventPayload, s': SessionState, u: TurnState)
    requires s'.continuation == s.continuation
    requires s.activeTurn == Some(t) && s'.activeTurn == Some(u) && u.turnId == t.turnId && p.ToolCompleted?
    requires WaitingCalls(u) == WaitingCalls(t) && OpenCalls(u) == OpenAfter(OpenCalls(t), p)
    ensures Effect(s, t.turnId, p, s')
  {
  }

  lemma CompletionEffect(s: SessionState, t: TurnState, p: EventPayload)
    requires Invariant(s) && s.activeTurn == Some(t) && p.ToolCompleted? && ReduceTurn(s, t, p).ok
    ensures Effect(s, t.turnId, p, ReduceTurn(s, t, p).state)
  {
    CompletedTurn(s, t, p);
    ConcludedEffect(s, t, p, ReduceTurn(s, t, p).state);
  }

  lemma LossEffect(s: SessionState, t: TurnState, p: EventPayload)
    requires Invariant(s) && s.activeTurn == Some(t) && p.ToolOutcomeUnknown? && ReduceTurn(s, t, p).ok
    ensures Effect(s, t.turnId, p, ReduceTurn(s, t, p).state)
  {
    assert ReduceTurn(s, t, p).state.activeTurn.value.executions[p.callId] == OutcomeUnknown;
  }

  lemma OtherEffect(s: SessionState, t: TurnState, p: EventPayload)
    requires Invariant(s) && s.activeTurn == Some(t) && InTurn(p) && ReduceTurn(s, t, p).ok
    requires !p.ToolRequested? && !p.ToolApprovalResponded? && !p.ToolCompleted? && !p.ToolOutcomeUnknown?
    ensures Effect(s, t.turnId, p, ReduceTurn(s, t, p).state)
  {
  }

  lemma TurnEffect(s: SessionState, t: TurnState, p: EventPayload)
    requires Invariant(s) && s.activeTurn == Some(t) && InTurn(p) && ReduceTurn(s, t, p).ok
    ensures Effect(s, t.turnId, p, ReduceTurn(s, t, p).state)
  {
    match p {
      case ToolRequested(_, _, _, _) => RequestEffect(s, t, p);
      case ToolApprovalResponded(_, _) => AnswerEffect(s, t, p);
      case ToolCompleted(_, _, _) => CompletionEffect(s, t, p);
      case ToolOutcomeUnknown(_, _) => LossEffect(s, t, p);
      case _ => OtherEffect(s, t, p);
    }
  }

  lemma TookEffect(s: SessionState, turn: TurnId, p: EventPayload, s': SessionState)
    requires Invariant(s) && InTurn(p) && Took(s, Some(turn), p, s')
    ensures Effect(s, turn, p, s')
  {
    TurnEffect(s, s.activeTurn.value, p);
    var applied := ReduceTurn(s, s.activeTurn.value, p).state;
    assert s' == applied.(lastSeq := s.lastSeq + 1);
    assert Awaiting(s') == Awaiting(applied);
  }

  lemma CreationEffect(s: SessionState, s': SessionState)
    requires Took(s, None, SessionCreated, s')
    ensures s'.history == s.history && s'.continuation == s.continuation
  {
  }

  lemma InputEffect(s: SessionState, input: Text, s': SessionState)
    requires Took(s, None, UserInputRecorded(input), s')
    ensures s'.activeTurn.None? && s'.history == s.history + [User(input)] && s'.continuation == s.continuation
  {
  }

  lemma StartEffect(s: SessionState, turn: TurnId, s': SessionState)
    requires Took(s, Some(turn), TurnStarted, s')
    ensures s'.activeTurn == Some(NewTurn(turn)) && s'.history == s.history && s'.continuation == s.continuation
  {
  }

  // ------------------------------------------------------------------ batches

  method CheckBatch(calls: seq<ToolCall>, limit: nat) returns (ok: bool)
    ensures ok <==> AcceptableBatch(calls, limit)
  {
    if calls == [] {
      return false;
    }
    var seen: set<CallId> := {};
    for i := 0 to |calls|
      invariant seen == set j | 0 <= j < i :: calls[j].callId
      invariant forall j, k | 0 <= j < k < i :: calls[j].callId != calls[k].callId
    {
      if calls[i].callId in seen {
        return false;
      }
      seen := seen + {calls[i].callId};
    }
    ok := |calls| <= limit;
  }

  // ------------------------------------------------------------------ exits

  /**
   How the loop may leave a turn, given the calls that were waiting or open when it was entered: with no active
   turn; or paused on exactly one more call, which waits for approval and is the only one left open;
   or with a call whose outcome is unknown. Nothing is promised after a failed append.
   */
  ghost predicate Exit(waiting: set<CallId>, open: set<CallId>, turn: TurnId, s: SessionState, r: TurnResult) {
    match r
    case Answered(text) =>
        open == {} && s.activeTurn.None? && s.history != [] && s.history[|s.history| - 1] == Assistant(text)
    case Error(AppendFailed) => true
    case Error(ApprovalPending) => RunsTurn(s, turn) && PausedOn(waiting, open, s)
    case Error(TurnCancelledError) => s.activeTurn.None? || (RunsTurn(s, turn) && Lost(s))
    case Error(TimeoutError) => s.activeTurn.None? || (RunsTurn(s, turn) && Lost(s))
    case Error(ProviderFailure) => s.activeTurn.None?
    case Error(ToolFailure) => s.activeTurn.None?
    case Error(_) => false
  }

  /** How a running tool may stop the turn. */
  predicate Stops(turn: TurnId, s: SessionState, e: TurnError) {
    || e == AppendFailed
    || ((e == TurnCancelledError || e == TimeoutError || e == ToolFailure) && s.activeTurn.None?)
    || ((e == TurnCancelledError || e == TimeoutError) && RunsTurn(s, turn) && Lost(s))
  }

  lemma StoppedIsExit(waiting: set<CallId>, open: set<CallId>, turn: TurnId, s: SessionState, e: TurnError)
    requires Stops(turn, s, e)
    ensures Exit(waiting, open, turn, s, Error(e))
  {
  }

  ghost predicate PausedOn(waiting: set<CallId>, open: set<CallId>, s: SessionState) {
    exists id :: id !in waiting && id !in open && Awaiting(s) == waiting + {id} && Open(s) == open + {id}
  }

  /** So the driver's refusals of a pending call without a name or an input are never taken. */
  lemma AwaitingIsRecorded(t: TurnState, id: CallId)
    requires TurnInvariant(t) && AwaitsApproval(t, id)
    ensures id in t.toolNames && id in t.toolInputs && id in OpenCalls(t)
  {
    assert id in t.executions && !Finalized(t.executions[id]);
  }

  predicate Opened(k: nat) {
    true
  }

  /**
   Memory is in step with the log: the fold of its prefix, with the invariant of every reached state, and every tool
   started on an authorization of its own. The guard keeps this one fact together wherever the loop only carries it
   along; `OpenStep` takes it apart.
   */
  ghost predicate InStep(log: seq<Event>, s: SessionState, started: seq<ToolStart>) {
    forall k: nat {:trigger Opened(k)} | Opened(k) ::
        FoldsPrefix(log, s) && Invariant(s) && RunsOnce(log, s.lastSeq, started)
  }

  lemma OpenStep(log: seq<Event>, s: SessionState, started: seq<ToolStart>)
    requires InStep(log, s, started)
    ensures FoldsPrefix(log, s) && Invariant(s) && RunsOnce(log, s.lastSeq, started)
  {
    assert Opened(0);
  }

  lemma InStepLater(log: seq<Event>, later: seq<Event>, s: SessionState, started: seq<ToolStart>)
    requires InStep(log, s, started) && log <= later
    ensures InStep(later, s, started) && s.lastSeq <= |later|
  {
    OpenStep(log, s, started);
    GrowthKeepsFold(log, later, s);
    RunsLater(log, later, s.lastSeq, s.lastSeq, started);
  }

  /** Adopting an accepted event that is next in the log. */
  lemma InStepCommit(log: seq<Event>, s: SessionState, e: Event, next: SessionState, started: seq<ToolStart>)
    requires InStep(log, s, started) && s.lastSeq == |log| && Reduce(s, e) == Outcome(next, true)
    ensures InStep(log + [e], next, started) && next.lastSeq == |log| + 1 && Took(s, e.turnId, e.payload, next)
  {
    OpenStep(log, s, started);
    CommitKeepsValid(log, s, e, next);
    RunsLater(log, log + [e], s.lastSeq, next.lastSeq, started);
  }

  /** Adopting the fold of a whole log that has grown. */
  lemma InStepRecovery(log: seq<Event>, s: SessionState, later: seq<Event>, recovered: SessionState,
      started: seq<ToolStart>)
    requires InStep(log, s, started) && log <= later && Replay(NewSession(s.sessionId), later) == Some(recovered)
    ensures InStep(later, recovered, started) && recovered.lastSeq == |later|
  {
    OpenStep(log, s, started);
    WholeFold(later, s.sessionId);
    ReachableInvariant(s.sessionId, later);
    RunsLater(log, later, s.lastSeq, recovered.lastSeq, started);
  }

  lemma InStepStart(log: seq<Event>, s: SessionState)
    requires FoldsPrefix(log, s)
    ensures InStep(log, s, [])
  {
    FoldedInvariant(log, s);
  }

  /** The authorization that is last in memory is fresh for a driver that has just adopted it. */
  lemma AuthorizationFresh(log: seq<Event>, s: SessionState, later: seq<Event>, started: seq<ToolStart>)
    requires InStep(log, s, started) && log <= later
    ensures RunsOnce(later, s.lastSeq, started)
  {
    OpenStep(log, s, started);
    RunsLater(log, later, s.lastSeq, s.lastSeq, started);
  }

  lemma InStepStarted(log: seq<Event>, s: SessionState, started: seq<ToolStart>, start: ToolStart)
    requires InStep(log, s, started) && 0 < s.lastSeq <= |log| && start.position == s.lastSeq - 1
    requires Authorizing(log[start.position].payload) && RunsOnce(log, start.position, started)
    requires RequestOf(log[..s.lastSeq], CallOf(log[start.position].payload)) == Some(Request(start.name, start.input))
    ensures InStep(log, s, started + [start])
  {
    OpenStep(log, s, started);
    LatestAccepted(log, s);
    RunStarted(log, start, started);
  }

  /** A call that was requested in the log is known by its name and its input to the turn it belongs to. */
  lemma RequestedIsKnown(log: seq<Event>, s: SessionState, started: seq<ToolStart>, callId: CallId)
    requires InStep(log, s, started) && LastAuthorizes(log, s.lastSeq, callId)
    requires RequestOf(log[..s.lastSeq], callId).Some?
    ensures s.activeTurn.Some? && callId in s.activeTurn.value.toolNames
    ensures s.activeTurn.value.toolNames[callId] == RequestOf(log[..s.lastSeq], callId).value.name
  {
    OpenStep(log, s, started);
    LatestAccepted(log, s);
    AuthorizingIsActive(log[..s.lastSeq], s);
    StateOfLog(s.sessionId, log[..s.lastSeq]);
    assert CallReads(log[..s.lastSeq], s.activeTurn.value, callId);
  }

  lemma AuthorizingIsActive(log: seq<Event>, s: SessionState)
    requires log != [] && Authorizing(log[|log| - 1].payload) && Replay(NewSession(s.sessionId), log) == Some(s)
    ensures s.activeTurn.Some?
  {
    var before, last := LastStep(s.sessionId, log);
    AuthorizingKeepsTurn(before, last);
  }

  /** Event number `n` lets the driver start the call. */
  predicate LastAuthorizes(log: seq<Event>, n: nat, callId: CallId) {
    0 < n <= |log| && Authorizing(log[n - 1].payload) && CallOf(log[n - 1].payload) == callId
  }

  lemma AuthorizingIsLast(log: seq<Event>, from: nat, n: nat, p: EventPayload)
    requires Logged(log, from, n, [p]) && (p.ToolRequested? || p.ToolApprovalResponded?)
    ensures n == from + 1 && (Authorizing(p) ==> LastAuthorizes(log, n, CallOf(p)))
  {
    LastLogged(log, from, n, p);
  }

  lemma RequestIsLast(log: seq<Event>, from: nat, n: nat, call: ToolCall, ask: bool)
    requires Logged(log, from, n, [ToolRequested(call.callId, call.name, call.input, ask)])
    ensures RequestOf(log[..n], call.callId) == Some(Request(call.name, call.input))
  {
    LastLogged(log, from, n, ToolRequested(call.callId, call.name, call.input, ask));
  }

  lemma ResponseKeepsRequest(log: seq<Event>, later: seq<Event>, n: nat, m: nat, callId: CallId, approved: bool)
    requires n <= |log| && log <= later && Logged(later, n, m, [ToolApprovalResponded(callId, approved)])
    ensures RequestOf(later[..m], callId) == RequestOf(log[..n], callId)
  {
    LastLogged(later, n, m, ToolApprovalResponded(callId, approved));
    assert Init(later[..m]) == log[..n];
  }

  lemma OneMoreStep(before: nat, after: nat, steps: nat, limit: nat)
    requires before <= steps * limit && after <= before + limit
    ensures after <= (steps + 1) * limit
  {
  }

  /** What the log says was recorded in between is what memory has gained. */
  lemma ConversationRecorded(log: seq<Event>, s: SessionState, later: seq<Event>, s': SessionState,
      started: seq<ToolStart>, startedLater: seq<ToolStart>, rounds: seq<Round>, p: Progress,
      reason: CancellationReason, config: Config)
    requires InStep(log, s, started) && InStep(later, s', startedLater) && log <= later
    requires Enough(rounds, p, config) && LoopCourse(rounds, p, reason, config).result.Answered?
    requires Logged(later, s.lastSeq, s'.lastSeq, LoopCourse(rounds, p, reason, config).trace)
    ensures s'.history == s.history + Conversation(rounds)
  {
    OpenStep(log, s, started);
    OpenStep(later, s', startedLater);
    GrowthKeepsFold(log, later, s);
    var before, more := RecordedBetween(later, s, s', LoopCourse(rounds, p, reason, config).trace);
    TurnGained(before, more, rounds, p, reason, config);
  }

  lemma ApprovalRecorded(log: seq<Event>, s: SessionState, later: seq<Event>, s': SessionState, started: seq<ToolStart>,
      startedLater: seq<ToolStart>, callId: CallId, run: ToolRun, rounds: seq<Round>, p: Progress, config: Config)
    requires InStep(log, s, started) && InStep(later, s', startedLater) && log <= later
    requires s.activeTurn.Some? && callId in s.activeTurn.value.toolNames && callId in s.activeTurn.value.toolInputs
    requires Enough(rounds, p, config) && ApprovedCourse(callId, run, rounds, p, config).result.Answered?
    requires Logged(later, s.lastSeq, s'.lastSeq, ApprovedCourse(callId, run, rounds, p, config).trace)
    ensures var active := s.activeTurn.value;
            s'.history == s.history + ([Tool(callId, active.toolNames[callId], active.toolInputs[callId],
              Shown(RunNow(run)))] + Conversation(rounds))
  {
    OpenStep(log, s, started);
    OpenStep(later, s', startedLater);
    GrowthKeepsFold(log, later, s);
    var before, more := RecordedBetween(later, s, s', ApprovedCourse(callId, run, rounds, p, config).trace);
    RequestRead(before, s, callId);
    ApprovedGained(before, more, callId, run, rounds, p, config);
  }

  lemma RequestRead(log: seq<Event>, s: SessionState, callId: CallId)
    requires Replay(NewSession(s.sessionId), log) == Some(s) && s.activeTurn.Some?
    requires callId in s.activeTurn.value.toolNames && callId in s.activeTurn.value.toolInputs
    ensures RequestOf(log, callId)
              == Some(Request(s.activeTurn.value.toolNames[callId], s.activeTurn.value.toolInputs[callId]))
  {
    StateOfLog(s.sessionId, log);
    assert CallReads(log, s.activeTurn.value, callId);
  }

  // ------------------------------------------------------------------ the loop

  lemma GrowthKeepsFold(log: seq<Event>, grown: seq<Event>, s: SessionState)
    requires FoldsPrefix(log, s) && log <= grown
    ensures FoldsPrefix(grown, s)
  {
    assert grown[..s.lastSeq] == log[..s.lastSeq];
  }

  lemma FoldedInvariant(log: seq<Event>, s: SessionState)
    requires FoldsPrefix(log, s)
    ensures Invariant(s)
  {
    ReachableInvariant(s.sessionId, log[..s.lastSeq]);
  }

  lemma CommitKeepsValid(log: seq<Event>, s: SessionState, e: Event, next: SessionState)
    requires FoldsPrefix(log, s) && s.lastSeq == |log| && Invariant(s) && Reduce(s, e) == Outcome(next, true)
    ensures FoldsPrefix(log + [e], next) && Invariant(next) && next.lastSeq == |log| + 1
    ensures Took(s, e.turnId, e.payload, next)
  {
    CommitFolds(log, s, e, next);
    ReduceEnvelope(s, e);
    EnvelopeIrrelevant(s, e);
    ReduceKeepsInvariant(s, e);
  }

  class AgentLoop {
    const store: InMemoryEventStore
    const config: Config
    /** How many bytes an event is encoded in. */
    const sizeOf: Event -> nat
    var state: SessionState
    var turnSteps: nat
    var toolTimeUsed: nat
    /** Model requests sent, and tool calls recorded, since the turn began or the session was restored. */
    ghost var samples: nat
    ghost var requests: nat
    /** Appends that did not succeed. */
    ghost var failures: nat
    /** The tools this loop started: on account of which event, under which name and with which input. */
    ghost var started: seq<ToolStart>

    ghost predicate Valid()
      reads this, store
    {
      && store.Valid()
      && state.lastSeq <= |store.events|
      && InStep(store.events, state, started)
    }

    ghost predicate WithinBudget()
      reads this
    {
      samples <= turnSteps <= config.maxSteps && requests <= turnSteps * config.maxBatchToolCalls
    }

    /** Since event number `from`, exactly these payloads were recorded and adopted, with nothing foreign between. */
    ghost predicate Recorded(from: nat, ps: seq<EventPayload>)
      reads this, store
    {
      Logged(store.events, from, state.lastSeq, ps)
    }

    ghost function Now(): Progress
      reads this
    {
      Progress(turnSteps, toolTimeUsed, state.continuation)
    }

    /** The loop has returned what a course of rounds returns, and recorded exactly its events. */
    ghost predicate Ran(course: Course, from: nat, r: TurnResult)
      reads this, store
    {
      r == course.result && Recorded(from, course.trace)
    }

    constructor (store: InMemoryEventStore, config: Config, sizeOf: Event -> nat, state: SessionState)
      requires store.Valid() && FoldsPrefix(store.events, state)
      ensures Valid() && WithinBudget() && this.state == state
      ensures this.store == store && this.config == config && this.sizeOf == sizeOf
    {
      this.store, this.config, this.sizeOf, this.state := store, config, sizeOf, state;
      turnSteps, toolTimeUsed, samples, requests, failures, started := 0, 0, 0, 0, 0, [];
      InStepStart(store.events, state);
    }

    /** Recovery after a crash: the whole log is folded, and must not have grown meanwhile. */
    static method Restore(store: InMemoryEventStore, session: SessionId, config: Config, sizeOf: Event -> nat)
        returns (r: Option<AgentLoop>)
      requires store.Valid()
      modifies store
      ensures store.Valid() && old(store.events) <= store.events
      ensures r.Some? ==>
                && fresh(r.value) && r.value.Valid() && r.value.WithinBudget() && r.value.store == store
                    && r.value.config == config
                && Replay(NewSession(session), store.events) == Some(r.value.state)
                && store.events != [] && store.events[0].sessionId == session
      ensures r.None? && store.events == old(store.events) ==>
                store.events == [] || store.events[0].sessionId != session
                    || Replay(NewSession(session), store.events).None?
    {
      store.Interfere();
      var events := store.ReadFrom(1);
      if events == [] || events[0].sessionId != session {
        return None;
      }
      var folded := FoldAll(session, events);
      if folded.None? {
        return None;
      }
      WholeFold(events, session);
      store.Interfere();
      var last := store.LastSeq();
      if folded.value.lastSeq != last {
        return None;
      }
      assert store.events == events;
      var resumed := new AgentLoop(store, config, sizeOf, folded.value);
      r := Some(resumed);
    }

    /**
     Check, fold into a clone, persist, adopt. On success memory has moved by exactly this event, which is durable and
     within the size limit; every other result has its cause. A loop that lags behind the store when it is called
     changes nothing, and one that loses the race moves to the fold of the log it re-reads, if it can.
     */
    method Append(turn: Option<TurnId>, payload: EventPayload) returns (r: AppendResult)
      requires Valid()
      modifies this`state, this`requests, this`failures, store
      ensures Valid() && old(store.events) <= store.events
      ensures failures == old(failures) + if r.Appended? then 0 else 1
      ensures r.Appended? ==> Took(old(state), turn, payload, state) && Recorded(old(state.lastSeq), [payload])
      ensures r.Appended? ==> sizeOf(store.events[state.lastSeq - 1]) <= config.maxEventBytes
      ensures r.Refused? ==> !Reduce(old(state), Draft(old(state), turn, payload)).ok
      ensures r.Appended? || r.StoreError? || r.LostRace? ==> Reduce(old(state), Draft(old(state), turn, payload)).ok
      ensures r.Unavailable? || r.StoreError? ==> old(store.faults) < store.faults
      ensures r.OutOfSync? ==> old(state).lastSeq < |store.events|
      ensures r.EventTooLarge? ==> MayExceed(old(state), turn, payload)
      ensures r.LostRace? ==> old(state).lastSeq + 1 < |store.events|
      ensures !r.Appended? && !r.LostRace? ==> state == old(state)
      ensures r.LostRace? ==> Reread(old(state), old(store.faults))
      ensures old(state.lastSeq < |store.events|) ==> r.OutOfSync? || r.Unavailable?
      ensures requests == old(requests) + if r.Appended? && payload.ToolRequested? then 1 else 0
    {
      store.Interfere();
      InStepLater(old(store.events), store.events, state, started);
      var fails := store.Fails();
      var last := store.LastSeq();
      if fails {
        r := Unavailable;
      } else if last != state.lastSeq {
        r := OutOfSync;
      } else {
        r := Offer(turn, payload);
      }
      if !r.Appended? { failures := failures + 1; }
    }

    /** Some event with this payload is beyond the limit. */
    ghost predicate MayExceed(s: SessionState, turn: Option<TurnId>, payload: EventPayload) {
      exists id, timestamp :: sizeOf(Stamped(s, id, timestamp, turn, payload)) > config.maxEventBytes
    }

    /** Memory after a lost race: the fold of the log, or what it was if the log is refused or cannot be read. */
    ghost predicate Reread(before: SessionState, faults: nat)
      reads this, store
    {
      var reread := Replay(NewSession(before.sessionId), store.events);
      if store.faults > faults then state == before || Some(state) == reread
      else state == if reread.Some? then reread.value else before
    }

    /** Folds an event into a copy of memory, and goes on only with one that is small enough and accepted. */
    method Offer(turn: Option<TurnId>, payload: EventPayload) returns (r: AppendResult)
      requires Valid() && state.lastSeq == |store.events|
      modifies this`state, this`requests, store
      ensures Valid() && old(store.events) <= store.events && !r.OutOfSync? && !r.Unavailable?
      ensures r.Appended? ==> Took(old(state), turn, payload, state) && Recorded(old(state.lastSeq), [payload])
      ensures r.Appended? ==> sizeOf(store.events[state.lastSeq - 1]) <= config.maxEventBytes
      ensures r.Refused? ==> !Reduce(old(state), Draft(old(state), turn, payload)).ok
      ensures r.Appended? || r.StoreError? || r.LostRace? ==> Reduce(old(state), Draft(old(state), turn, payload)).ok
      ensures r.StoreError? ==> old(store.faults) < store.faults
      ensures r.EventTooLarge? ==> MayExceed(old(state), turn, payload)
      ensures r.LostRace? ==> old(state).lastSeq + 1 < |store.events| && Reread(old(state), old(store.faults))
      ensures !r.Appended? && !r.LostRace? ==> state == old(state)
      ensures requests == old(requests) + if r.Appended? && payload.ToolRequested? then 1 else 0
    {
      var eventId: Bytes, timestamp: int := *, *;
      var event := Stamped(state, eventId, timestamp, turn, payload);
      if sizeOf(event) > config.maxEventBytes {
        return EventTooLarge;
      }
      EnvelopeIrrelevant(state, event);
      var next := Reduce(state, event);
      if !next.ok {
        return Refused;
      }
      r := Persist(event, next.state);
    }

    /** Hands a checked event to the store, and adopts what was speculated if nobody came between. */
    method Persist(event: Event, next: SessionState) returns (r: AppendResult)
      requires Valid() && state.lastSeq == |store.events| && event.seqNo == state.lastSeq + 1
      requires Reduce(state, event) == Outcome(next, true)
      modifies this`state, this`requests, store
      ensures Valid() && old(store.events) <= store.events && (r.Appended? || r.StoreError? || r.LostRace?)
      ensures r.Appended? ==> state == next && Took(old(state), event.turnId, event.payload, state)
      ensures r.Appended? ==> Recorded(old(state.lastSeq), [event.payload]) && store.events[state.lastSeq - 1] == event
      ensures r.StoreError? ==> state == old(state) && old(store.faults) < store.faults
      ensures r.LostRace? ==> old(state).lastSeq + 1 < |store.events| && Reread(old(state), old(store.faults))
      ensures requests == old(requests) + if r.Appended? && event.payload.ToolRequested? then 1 else 0
    {
      store.Interfere();
      ghost var before := store.events;
      InStepLater(old(store.events), before, state, started);
      var storeFails := store.Fails();
      if storeFails {
        LoseEvent(event);
        return StoreError;
      }
      var persisted := store.Append(event);
      InStepLater(before, store.events, state, started);
      if persisted.seqNo != event.seqNo {
        Recover();
        return LostRace;
      }
      assert before == old(store.events) && persisted == event;
      InStepCommit(before, state, event, next, started);
      Adopt(event.payload, next);
      r := Appended;
    }

    method Adopt(payload: EventPayload, next: SessionState)
      requires store.Valid() && InStep(store.events, next, started) && next.lastSeq <= |store.events|
      modifies this`state, this`requests
      ensures Valid() && state == next && requests == old(requests) + if payload.ToolRequested? then 1 else 0
    {
      state := next;
      if payload.ToolRequested? {
        requests := requests + 1;
      }
    }

    /** A store that reports an error may have persisted the event all the same. */
    method LoseEvent(event: Event)
      requires Valid()
      modifies store`events
      ensures Valid() && old(store.events) <= store.events
    {
      var durable: bool := *;
      if durable {
        var _ := store.Append(event);
        InStepLater(old(store.events), store.events, state, started);
      }
    }

    /** After a lost race: adopt the fold of the whole log if all of it is accepted. */
    method Recover()
      requires Valid()
      modifies this`state, store
      ensures Valid() && old(store.events) <= store.events
      ensures Reread(old(state), old(store.faults))
    {
      store.Interfere();
      InStepLater(old(store.events), store.events, state, started);
      var readFails := store.Fails();
      if readFails {
        return;
      }
      var events := store.ReadFrom(1);
      var recovered := FoldAll(state.sessionId, events);
      if recovered.Some? {
        InStepRecovery(store.events, state, events, recovered.value, started);
        state := recovered.value;
      }
    }

    /** An append to a turn, seen through what it does to the turn. */
    method Record(turn: TurnId, payload: EventPayload) returns (ok: bool)
      requires Valid() && InTurn(payload)
      modifies this`state, this`requests, this`failures, store
      ensures old(failures) <= failures && (ok <==> failures == old(failures))
      ensures Valid() && old(store.events) <= store.events
      ensures ok ==> Effect(old(state), turn, payload, state) && Recorded(old(state.lastSeq), [payload])
      ensures requests == old(requests) + if ok && payload.ToolRequested? then 1 else 0
    {
      ghost var before := state;
      OpenStep(store.events, state, started);
      var r := Append(Some(turn), payload);
      ok := r.Appended?;
      if ok {
        TookEffect(before, turn, payload, state);
      }
    }

    /** Records a payload that ends the turn without an answer. */
    method EndTurn(turn: TurnId, payload: EventPayload) returns (ok: bool)
      requires Valid() && (payload.TurnFailed? || payload.TurnCancelled? || payload.TurnTimedOut?)
      modifies this`state, this`requests, this`failures, store
      ensures old(failures) <= failures && (ok <==> failures == old(failures))
      ensures Valid() && old(store.events) <= store.events && requests == old(requests)
      ensures ok ==> old(RunsTurn(state, turn)) && state.activeTurn.None? && Recorded(old(state.lastSeq), [payload])
    {
      ok := Record(turn, payload);
    }

    /** Records a payload that changes nothing the loop looks at. */
    method Note(turn: TurnId, payload: EventPayload) returns (ok: bool)
      requires Valid() && (payload.TurnCancelRequested? || payload.ProviderAttemptRecorded?)
      modifies this`state, this`requests, this`failures, store
      ensures old(failures) <= failures && (ok <==> failures == old(failures))
      ensures Valid() && old(store.events) <= store.events && requests == old(requests)
      ensures ok ==> SameTurn(old(state), state, turn) && Recorded(old(state.lastSeq), [payload])
    {
      ok := Record(turn, payload);
    }

    method AppendCancellation(turn: TurnId, reason: CancellationReason) returns (ok: bool)
      requires Valid()
      modifies this`state, this`requests, this`failures, store
      ensures old(failures) <= failures && (ok <==> failures == old(failures))
      ensures Valid() && old(store.events) <= store.events && requests == old(requests)
      ensures ok ==>
                old(RunsTurn(state, turn)) && state.activeTurn.None?
                    && Recorded(old(state.lastSeq), Cancellation(reason))
    {
      ok := RequestCancellation(turn, reason);
      if !ok { return; }
      ghost var log, mid := store.events, state.lastSeq;
      ok := EndTurn(turn, ReasonEvent(reason));
      if ok {
        LoggedTwice(log, store.events, old(state.lastSeq), mid, state.lastSeq, CancelRequest(reason),
            [ReasonEvent(reason)]);
      }
    }

    method RequestCancellation(turn: TurnId, reason: CancellationReason) returns (ok: bool)
      requires Valid()
      modifies this`state, this`requests, this`failures, store
      ensures old(failures) <= failures && (ok <==> failures == old(failures))
      ensures Valid() && old(store.events) <= store.events && requests == old(requests)
      ensures ok ==> SameTurn(old(state), state, turn) && Recorded(old(state.lastSeq), CancelRequest(reason))
    {
      ok := true;
      if reason.ByUser? {
        ok := Note(turn, TurnCancelRequested);
      }
    }

    /** Records why the turn cannot go on; the error is reported only if that is durable. */
    method FailTurn(turn: TurnId, message: Text, error: TurnError) returns (r: TurnError)
      requires Valid()
      modifies this`state, this`requests, this`failures, store
      ensures old(failures) <= failures && r == (if failures == old(failures) then error else AppendFailed)
      ensures Valid() && old(store.events) <= store.events && requests == old(requests)
      ensures failures == old(failures) ==>
                && old(RunsTurn(state, turn)) && state.activeTurn.None?
                && Recorded(old(state.lastSeq), [TurnFailed(message)])
    {
      var ok := EndTurn(turn, TurnFailed(message));
      r := if ok then error else AppendFailed;
    }

    method OpenSession() returns (ok: bool)
      requires Valid()
      modifies this`state, this`requests, this`failures, store
      ensures old(failures) <= failures && (ok <==> failures == old(failures))
      ensures Valid() && old(store.events) <= store.events && requests == old(requests)
      ensures ok ==> state.history == old(state).history && state.continuation == old(state).continuation
      ensures ok ==> Recorded(old(state.lastSeq), CreationTrace(old(state.lastSeq) == 0))
    {
      ghost var before := state;
      ok := true;
      if state.lastSeq == 0 {
        var created := Append(None, SessionCreated);
        ok := created.Appended?;
        if ok { CreationEffect(before, state); }
      }
    }

    method TakeInput(input: Text) returns (ok: bool)
      requires Valid()
      modifies this`state, this`requests, this`failures, store
      ensures old(failures) <= failures && (ok <==> failures == old(failures))
      ensures Valid() && old(store.events) <= store.events && requests == old(requests)
      ensures ok ==> state.history == old(state).history + [User(input)]
      ensures ok ==> state.continuation == old(state).continuation
      ensures ok ==> Recorded(old(state.lastSeq), [UserInputRecorded(input)])
    {
      ghost var before := state;
      var r := Append(None, UserInputRecorded(input));
      ok := r.Appended?;
      if ok { InputEffect(before, input, state); }
    }

    method StartTurn(turn: TurnId) returns (ok: bool)
      requires Valid()
      modifies this`state, this`requests, this`failures, store
      ensures old(failures) <= failures && (ok <==> failures == old(failures))
      ensures Valid() && old(store.events) <= store.events && requests == old(requests)
      ensures ok ==> state.activeTurn == Some(NewTurn(turn)) && state.history == old(state).history
      ensures ok ==> state.continuation == old(state).continuation
      ensures ok ==> Recorded(old(state.lastSeq), [TurnStarted])
    {
      ghost var before := state;
      var r := Append(Some(turn), TurnStarted);
      ok := r.Appended?;
      if ok { StartEffect(before, turn, state); }
    }

    method OpenTurn(turn: TurnId, input: Text) returns (ok: bool)
      requires Valid()
      modifies this`state, this`requests, this`failures, store
      ensures old(failures) <= failures && (ok <==> failures == old(failures))
      ensures Valid() && old(store.events) <= store.events && requests == old(requests)
      ensures ok ==> state.activeTurn == Some(NewTurn(turn)) && state.history == old(state).history + [User(input)]
      ensures ok ==> state.continuation == old(state).continuation
      ensures ok ==> Recorded(old(state.lastSeq), [UserInputRecorded(input), TurnStarted])
    {
      ok := TakeInput(input);
      if !ok { return; }
      ghost var log, mid := store.events, state.lastSeq;
      ok := StartTurn(turn);
      if ok {
        LoggedPair(log, store.events, old(state.lastSeq), mid, state.lastSeq, UserInputRecorded(input), TurnStarted);
      }
    }

    method OpenSessionAndTurn(turn: TurnId, input: Text) returns (ok: bool)
      requires Valid()
      modifies this`state, this`requests, this`failures, store
      ensures old(failures) <= failures && (ok <==> failures == old(failures))
      ensures Valid() && old(store.events) <= store.events && requests == old(requests)
      ensures ok ==> state.activeTurn == Some(NewTurn(turn)) && state.history == old(state).history + [User(input)]
      ensures ok ==> state.continuation == old(state).continuation
      ensures ok ==> Recorded(old(state.lastSeq), OpeningTrace(old(state.lastSeq) == 0, input))
    {
      ok := OpenSession();
      if !ok { return; }
      ghost var log, mid := store.events, state.lastSeq;
      ok := OpenTurn(turn, input);
      if ok {
        LoggedTwice(log, store.events, old(state.lastSeq), mid, state.lastSeq,
                    CreationTrace(old(state.lastSeq) == 0), [UserInputRecorded(input), TurnStarted]);
      }
    }

    /** Records the input and starts the turn with fresh budgets. */
    method BeginTurn(turn: TurnId, input: Text) returns (r: Option<TurnError>)
      requires Valid()
      modifies this, store
      ensures old(failures) <= failures && (r == Some(AppendFailed) <==> failures > old(failures))
      ensures Valid() && old(store.events) <= store.events
      ensures r.None? ==>
                state.activeTurn == Some(NewTurn(turn)) && WithinBudget() && turnSteps == 0 && toolTimeUsed == 0
      ensures r.None? ==>
                old(state).history + [User(input)] == state.history && |input| <= Context.MAX_CONTEXT_ITEM_BYTES
      ensures r.None? ==> state.continuation == old(state).continuation
      ensures r.None? ==> Recorded(old(state.lastSeq), OpeningTrace(old(state.lastSeq) == 0, input))
      ensures r.None? || r == Some(TurnAlreadyActive) || r == Some(InputTooLong) || r == Some(AppendFailed)
      ensures r == Some(TurnAlreadyActive) <==> old(state).activeTurn.Some?
      ensures r == Some(InputTooLong) <==> old(state).activeTurn.None? && |input| > Context.MAX_CONTEXT_ITEM_BYTES
      ensures r == Some(TurnAlreadyActive) || r == Some(InputTooLong) ==>
                state == old(state) && store.events == old(store.events)
      ensures r.Some? ==> turnSteps == old(turnSteps) && samples == old(samples) && requests == old(requests)
    {
      if state.activeTurn.Some? {
        return Some(TurnAlreadyActive);
      }
      if |input| > Context.MAX_CONTEXT_ITEM_BYTES {
        return Some(InputTooLong);
      }
      var ok := OpenSessionAndTurn(turn, input);
      if !ok { return Some(AppendFailed); }
      turnSteps, toolTimeUsed, samples, requests := 0, 0, 0, 0;
      r := None;
    }

    method CancelTurn(turn: TurnId) returns (r: Option<TurnError>)
      requires Valid()
      modifies this`state, this`requests, this`failures, store
      ensures old(failures) <= failures && (r == Some(AppendFailed) <==> failures > old(failures))
      ensures Valid() && old(store.events) <= store.events && requests == old(requests)
      ensures r.None? ==> old(RunsTurn(state, turn)) && state.activeTurn.None?
      ensures r.None? ==> Recorded(old(state.lastSeq), [TurnCancelRequested, TurnCancelled])
      ensures r == Some(NotActive) <==> !old(RunsTurn(state, turn))
      ensures r == Some(NotActive) ==> state == old(state) && store.events == old(store.events)
    {
      if state.activeTurn.None? || state.activeTurn.value.turnId != turn {
        return Some(NotActive);
      }
      var ok := AppendCancellation(turn, ByUser);
      assert Cancellation(ByUser) == [TurnCancelRequested, TurnCancelled];
      r := if ok then None else Some(AppendFailed);
    }

    /** Attempts are recorded as the provider reports them. */
    method RecordAttempts(turn: TurnId, attempts: seq<Attempt>) returns (ok: bool)
      requires Valid()
      modifies this`state, this`requests, this`failures, store
      ensures old(failures) <= failures && (ok <==> failures == old(failures))
      ensures Valid() && old(store.events) <= store.events && requests == old(requests)
      ensures ok ==> SameTurn(old(state), state, turn) && Recorded(old(state.lastSeq), AttemptTrace(attempts))
    {
      for i := 0 to |attempts|
        invariant Valid() && old(store.events) <= store.events && requests == old(requests)
        invariant failures == old(failures)
        invariant SameTurn(old(state), state, turn) && Recorded(old(state.lastSeq), AttemptTrace(attempts[..i]))
      {
        ghost var log, mid := store.events, state.lastSeq;
        ok := Note(turn, ProviderAttemptRecorded(attempts[i]));
        if !ok { return; }
        LoggedTwice(log, store.events, old(state.lastSeq), mid, state.lastSeq, AttemptTrace(attempts[..i]),
            [ProviderAttemptRecorded(attempts[i])]);
        AttemptTraceSnoc(attempts, i);
      }
      assert attempts[..|attempts|] == attempts;
      ok := true;
    }

    /** Runs the provider once: some attempts are reported, then something ends the wait. */
    method SampleModel(turn: TurnId, reason: CancellationReason, attempts: seq<Attempt>, end: SamplingEnd)
        returns (r: Option<TurnError>)
      requires Valid()
      modifies this`state, this`requests, this`samples, this`failures, store
      ensures old(failures) <= failures && (r == Some(AppendFailed) <==> failures > old(failures))
      ensures Valid() && old(store.events) <= store.events
      ensures samples == old(samples) + 1 && requests == old(requests)
      ensures r == Some(AppendFailed) || r == SamplingError(end)
      ensures r != Some(AppendFailed) ==>
                Recorded(old(state.lastSeq), AttemptTrace(attempts) + SamplingTrace(end, reason))
      ensures r.None? ==> SameTurn(old(state), state, turn)
      ensures r.Some? && r != Some(AppendFailed) ==> old(RunsTurn(state, turn)) && state.activeTurn.None?
    {
      samples := samples + 1;
      var going := RecordAttempts(turn, attempts);
      if !going { return Some(AppendFailed); }
      ghost var log, mid := store.events, state.lastSeq;
      r := EndSampling(turn, reason, end);
      if r != Some(AppendFailed) {
        LoggedTwice(log, store.events, old(state.lastSeq), mid, state.lastSeq, AttemptTrace(attempts),
            SamplingTrace(end, reason));
      }
    }

    method EndSampling(turn: TurnId, reason: CancellationReason, end: SamplingEnd) returns (r: Option<TurnError>)
      requires Valid()
      modifies this`state, this`requests, this`failures, store
      ensures old(failures) <= failures && (r == Some(AppendFailed) <==> failures > old(failures))
      ensures Valid() && old(store.events) <= store.events && requests == old(requests)
      ensures r == Some(AppendFailed) || (r == SamplingError(end)
                && Recorded(old(state.lastSeq), SamplingTrace(end, reason)))
      ensures r.None? ==> state == old(state)
      ensures r.Some? && r != Some(AppendFailed) ==> old(RunsTurn(state, turn)) && state.activeTurn.None?
    {
      match end {
        case CancelledFirst =>
          var ok := AppendCancellation(turn, reason);
          r := Some(if ok then TurnCancelledError else AppendFailed);
        case DeadlineFirst =>
          var ok := EndTurn(turn, TurnTimedOut);
          r := Some(if ok then TimeoutError else AppendFailed);
        case Completed(_) =>
          r := None;
        case ProviderFailed(message) =>
          var error := FailTurn(turn, message, ProviderFailure);
          r := Some(error);
      }
    }

    /**
     The call is authorized by the very last event in memory, which is durable and was not used before, and was
     requested with this input.
     */
    ghost predicate MayRun(callId: CallId, input: Json)
      reads this, store
    {
      && LastAuthorizes(store.events, state.lastSeq, callId)
      && RunsOnce(store.events, state.lastSeq - 1, started)
      && var asked := RequestOf(store.events[..state.lastSeq], callId);
         asked.Some? && asked.value.input == input
    }

    ghost predicate WasAsked(callId: CallId, input: Json)
      reads this, store
    {
      && state.lastSeq <= |store.events|
      && var asked := RequestOf(store.events[..state.lastSeq], callId);
         asked.Some? && asked.value.input == input
    }

    /** The tool body starts; its authorization is used up. */
    ghost method UseAuthorization(callId: CallId, name: Text, input: Json)
      requires Valid() && MayRun(callId, input)
      requires RequestOf(store.events[..state.lastSeq], callId).value.name == name
      modifies this`started
      ensures Valid() && started == old(started) + [ToolStart(state.lastSeq - 1, name, input)]
    {
      InStepStarted(store.events, state, started, ToolStart(state.lastSeq - 1, name, input));
      started := started + [ToolStart(state.lastSeq - 1, name, input)];
    }

    /** No call of a turn is started twice. */
    lemma StartedOnce(i: nat, j: nat)
      requires Valid() && i < j < |started|
      ensures var p, q := started[i].position, started[j].position;
              && p < |store.events| && q < |store.events|
              && Authorizing(store.events[p].payload) && Authorizing(store.events[q].payload)
              && (CallOf(store.events[p].payload) != CallOf(store.events[q].payload)
                  || TurnAt(store.events, p) != TurnAt(store.events, q))
    {
      OpenStep(store.events, state, started);
      assert StartFits(store.events, started[i]) && StartFits(store.events, started[j]);
      RunsDiffer(store.events, state.lastSeq, started, i, j);
    }

    /** Every tool is started under the name and with the input its call was requested with, in the same turn. */
    lemma StartedAsRequested(i: nat) returns (asked: nat)
      requires Valid() && i < |started|
      ensures var start := started[i];
              && asked <= start.position < |store.events| && TurnAt(store.events, start.position) <= asked
              && Authorizing(store.events[start.position].payload)
              && var call := CallOf(store.events[start.position].payload);
                 exists asks :: store.events[asked].payload == ToolRequested(call, start.name, start.input, asks)
    {
      OpenStep(store.events, state, started);
      assert StartFits(store.events, started[i]);
      asked := StartedAsAsked(store.events, started[i]);
    }

    method CompleteTool(turn: TurnId, callId: CallId, outcome: ToolOutcome, duration: nat) returns (ok: bool)
      requires Valid()
      modifies this`state, this`requests, this`failures, store
      ensures old(failures) <= failures && (ok <==> failures == old(failures))
      ensures Valid() && old(store.events) <= store.events && requests == old(requests)
      ensures ok ==> old(RunsTurn(state, turn)) && RunsTurn(state, turn) && Awaiting(state) == old(Awaiting(state))
      ensures ok ==> Open(state) == if outcome.Failed? then old(Open(state)) else old(Open(state)) - {callId}
      ensures ok ==> state.continuation == old(state).continuation
      ensures ok ==> Recorded(old(state.lastSeq), [ToolCompleted(callId, outcome, duration)])
    {
      ok := Record(turn, ToolCompleted(callId, outcome, duration));
    }

    /** The tool may or may not have taken effect: the turn stays active with that fact on record. */
    method LoseTool(turn: TurnId, callId: CallId, why: Text) returns (ok: bool)
      requires Valid()
      modifies this`state, this`requests, this`failures, store
      ensures old(failures) <= failures && (ok <==> failures == old(failures))
      ensures Valid() && old(store.events) <= store.events && requests == old(requests)
      ensures ok ==>
                RunsTurn(state, turn) && Lost(state) && Recorded(old(state.lastSeq), [ToolOutcomeUnknown(callId, why)])
    {
      ok := Record(turn, ToolOutcomeUnknown(callId, why));
    }

    method RecordToolTime(elapsed: nat)
      modifies this`toolTimeUsed
      ensures toolTimeUsed == old(toolTimeUsed) + elapsed
    {
      toolTimeUsed := toolTimeUsed + elapsed;
    }

    /** Cancelled while the tool runs: it gets a moment to end, and what is known of it is recorded. */
    method StopTool(turn: TurnId, callId: CallId, run: ToolRun, reason: CancellationReason) returns (r: TurnError)
      requires Valid() && run.course.Interrupted?
      modifies this`state, this`requests, this`toolTimeUsed, this`failures, store
      ensures old(failures) <= failures && (r == AppendFailed <==> failures > old(failures))
      ensures Valid() && old(store.events) <= store.events && requests == old(requests)
      ensures r == AppendFailed || (r == TurnCancelledError && Stops(turn, state, r))
      ensures r != AppendFailed ==> toolTimeUsed == old(toolTimeUsed) + run.elapsed
      ensures r != AppendFailed ==>
                Recorded(old(state.lastSeq), RunTrace(callId, run, reason, config.maxToolResultBytes))
    {
      var requested := RequestCancellation(turn, reason);
      if !requested { return AppendFailed; }
      ghost var log, mid := store.events, state.lastSeq;
      var ok := CloseInterrupted(turn, callId, run, reason);
      if !ok { return AppendFailed; }
      LoggedTwice(log, store.events, old(state.lastSeq), mid, state.lastSeq, CancelRequest(reason),
                  InterruptedTail(callId, run, reason, config.maxToolResultBytes));
      r := TurnCancelledError;
    }

    /** A known end is recorded and ends the turn; an unknown one is recorded as such and leaves it active. */
    method CloseInterrupted(turn: TurnId, callId: CallId, run: ToolRun, reason: CancellationReason) returns (ok: bool)
      requires Valid() && run.course.Interrupted?
      modifies this`state, this`requests, this`toolTimeUsed, this`failures, store
      ensures old(failures) <= failures && (ok <==> failures == old(failures))
      ensures Valid() && old(store.events) <= store.events && requests == old(requests)
      ensures ok ==> Stops(turn, state, TurnCancelledError) && toolTimeUsed == old(toolTimeUsed) + run.elapsed
      ensures ok ==> Recorded(old(state.lastSeq), InterruptedTail(callId, run, reason, config.maxToolResultBytes))
    {
      var ending := run.course.ending;
      if ending.Some? && !ending.value.Panicked? {
        ok := RecordEnding(turn, callId, OutcomeOf(ending.value, config.maxToolResultBytes), run, reason);
      } else {
        ok := LoseTool(turn, callId, run.why);
        if ok { RecordToolTime(run.elapsed); }
      }
    }

    method RecordEnding(turn: TurnId, callId: CallId, outcome: ToolOutcome, run: ToolRun, reason: CancellationReason)
        returns (ok: bool)
      requires Valid()
      modifies this`state, this`requests, this`toolTimeUsed, this`failures, store
      ensures old(failures) <= failures && (ok <==> failures == old(failures))
      ensures Valid() && old(store.events) <= store.events && requests == old(requests)
      ensures ok ==> state.activeTurn.None? && toolTimeUsed == old(toolTimeUsed) + run.elapsed
      ensures ok ==> Recorded(old(state.lastSeq), [ToolCompleted(callId, outcome, run.duration), ReasonEvent(reason)])
    {
      ok := CompleteTool(turn, callId, outcome, run.duration);
      if !ok { return; }
      ghost var log, mid := store.events, state.lastSeq;
      RecordToolTime(run.elapsed);
      ok := EndTurn(turn, ReasonEvent(reason));
      if ok {
        LoggedPair(log, store.events, old(state.lastSeq), mid, state.lastSeq,
            ToolCompleted(callId, outcome, run.duration), ReasonEvent(reason));
      }
    }

    /**
     After a tool ended by itself; nothing is returned when the turn goes on. An output that cannot be recorded fails
     the turn, if that can be recorded.
     */
    method FinishTool(turn: TurnId, callId: CallId, run: ToolRun, reason: CancellationReason)
        returns (r: Option<TurnError>)
      requires Valid() && run.course.Ended?
      modifies this`state, this`requests, this`failures, store
      ensures old(failures) <= failures && (r == Some(AppendFailed) <==> failures > old(failures))
      ensures Valid() && old(store.events) <= store.events && requests == old(requests)
      ensures r == Some(AppendFailed) || r == RunError(run, config.maxToolResultBytes)
      ensures r.None? ==>
                RunsTurn(state, turn) && Awaiting(state) == old(Awaiting(state))
                    && Open(state) == old(Open(state)) - {callId} && state.continuation == old(state).continuation
      ensures r.Some? && r != Some(AppendFailed) ==> state.activeTurn.None?
      ensures r != Some(AppendFailed) ==>
                Recorded(old(state.lastSeq), RunTrace(callId, run, reason, config.maxToolResultBytes))
      ensures GoesWell(run) && failures == old(failures) + 1 ==> state.activeTurn.None?
    {
      var tool := run.course.tool;
      var outcome := OutcomeOf(tool, config.maxToolResultBytes);
      var recorded := CompleteTool(turn, callId, outcome, run.duration);
      if !recorded {
        if outcome.Succeeded? {
          var _ := FailTurn(turn, [], AppendFailed);
        }
        return Some(AppendFailed);
      }
      ghost var log, mid := store.events, state.lastSeq;
      r := FollowTool(turn, tool, run.course.cancelled, reason);
      if r != Some(AppendFailed) {
        LoggedTwice(log, store.events, old(state.lastSeq), mid, state.lastSeq,
            [ToolCompleted(callId, outcome, run.duration)],
                    AfterTool(tool, run.course.cancelled, reason, config.maxToolResultBytes));
      }
    }

    /** An output within the limit, and no cancellation meanwhile. */
    predicate GoesWell(run: ToolRun) {
      && run.course.Ended? && !run.course.cancelled
      && run.course.tool.Output? && !TooLarge(run.course.tool, config.maxToolResultBytes)
    }

    /** What the recorded end of a tool means for the turn. */
    method FollowTool(turn: TurnId, tool: ToolReturn, cancelled: bool, reason: CancellationReason)
        returns (r: Option<TurnError>)
      requires Valid()
      modifies this`state, this`requests, this`failures, store
      ensures old(failures) <= failures && (r == Some(AppendFailed) <==> failures > old(failures))
      ensures Valid() && old(store.events) <= store.events && requests == old(requests)
      ensures r == Some(AppendFailed)
              || r == RunError(ToolRun(Ended(tool, cancelled), 0, 0, []), config.maxToolResultBytes)
      ensures r.None? ==> state == old(state)
      ensures r.Some? && r != Some(AppendFailed) ==> state.activeTurn.None?
      ensures r != Some(AppendFailed) ==>
                Recorded(old(state.lastSeq), AfterTool(tool, cancelled, reason, config.maxToolResultBytes))
      ensures !cancelled && tool.Output? && !TooLarge(tool, config.maxToolResultBytes) ==> r.None?
    {
      var outcome := OutcomeOf(tool, config.maxToolResultBytes);
      if cancelled && !TooLarge(tool, config.maxToolResultBytes) {
        var ok := AppendCancellation(turn, reason);
        return Some(if ok then TurnCancelledError else AppendFailed);
      }
      if outcome.Failed? {
        var error := FailTurn(turn, outcome.error, ToolFailure);
        return Some(error);
      }
      r := None;
    }

    /** Runs one authorized tool and records how it ended. */
    method RunApprovedTool(turn: TurnId, callId: CallId, input: Json, run: ToolRun, reason: CancellationReason)
        returns (r: Option<TurnError>)
      requires Valid() && MayRun(callId, input)
      modifies this`state, this`requests, this`toolTimeUsed, this`started, this`failures, store
      ensures old(failures) <= failures && (r == Some(AppendFailed) <==> failures > old(failures))
      ensures if run.course.Unregistered? then started == old(started)
              else
                && |started| == |old(started)| + 1 && started[..|old(started)|] == old(started)
                && started[|old(started)|].position == old(state.lastSeq) - 1
                && started[|old(started)|].input == input
      ensures Valid() && old(store.events) <= store.events && requests == old(requests)
      ensures r == Some(AppendFailed) || r == RunError(run, config.maxToolResultBytes)
      ensures r.None? ==>
                RunsTurn(state, turn) && Awaiting(state) == old(Awaiting(state))
                    && Open(state) == old(Open(state)) - {callId} && state.continuation == old(state).continuation
      ensures r.Some? ==> Stops(turn, state, r.value)
      ensures r != Some(AppendFailed) ==>
                && Recorded(old(state.lastSeq), RunTrace(callId, run, reason, config.maxToolResultBytes))
                && toolTimeUsed == old(toolTimeUsed) + RunTime(run)
    {
      RequestedIsKnown(store.events, state, started, callId);
      var name := state.activeTurn.value.toolNames[callId];
      if !run.course.Unregistered? {
        UseAuthorization(callId, name, input);
      }
      match run.course {
        case Unregistered =>
          var recorded := CompleteTool(turn, callId, Rejected(run.why), 0);
          r := if recorded then None else Some(AppendFailed);
        case Interrupted(_) =>
          var error := StopTool(turn, callId, run, reason);
          r := Some(error);
        case Overdue =>
          RecordToolTime(run.elapsed);
          var recorded := LoseTool(turn, callId, run.why);
          r := Some(if recorded then TimeoutError else AppendFailed);
        case Ended(_, _) =>
          RecordToolTime(run.elapsed);
          r := FinishTool(turn, callId, run, reason);
      }
    }

    method RequestTool(turn: TurnId, call: ToolCall, ask: bool) returns (ok: bool)
      requires Valid()
      modifies this`state, this`requests, this`failures, store
      ensures old(failures) <= failures && (ok <==> failures == old(failures))
      ensures Valid() && old(store.events) <= store.events
      ensures requests == old(requests) + if ok then 1 else 0
      ensures ok ==> RunsTurn(state, turn) && call.callId !in old(Awaiting(state)) && call.callId !in old(Open(state))
      ensures ok ==> Awaiting(state) == if ask then old(Awaiting(state)) + {call.callId} else old(Awaiting(state))
      ensures ok ==> Open(state) == old(Open(state)) + {call.callId} && state.continuation == old(state).continuation
      ensures ok ==> Recorded(old(state.lastSeq), [ToolRequested(call.callId, call.name, call.input, ask)])
      ensures ok && !ask ==> MayRun(call.callId, call.input)
    {
      ok := Record(turn, ToolRequested(call.callId, call.name, call.input, ask));
      if ok {
        AuthorizingIsLast(store.events, old(state.lastSeq), state.lastSeq,
            ToolRequested(call.callId, call.name, call.input, ask));
        AuthorizationFresh(old(store.events), old(state), store.events, started);
        RequestIsLast(store.events, old(state.lastSeq), state.lastSeq, call, ask);
      }
    }

    /** Records one requested call and, unless it is unusable or has to wait for approval, runs it. */
    method ExecuteToolCall(turn: TurnId, call: ToolCall, plan: CallPlan, reason: CancellationReason)
        returns (r: Option<TurnError>)
      requires Valid()
      modifies this`state, this`requests, this`toolTimeUsed, this`started, this`failures, store
      ensures old(failures) <= failures && (r == Some(AppendFailed) <==> failures > old(failures))
      ensures Valid() && old(store.events) <= store.events && requests <= old(requests) + 1
      ensures r == Some(AppendFailed) || (r == CallError(plan, config.maxToolResultBytes)
                && requests == old(requests) + 1)
      ensures r.None? ==> RunsTurn(state, turn) && GoesOn(old(state), state)
      ensures r.Some? ==> Stops(turn, state, r.value) || (r == Some(ApprovalPending) && RunsTurn(state, turn))
      ensures r == Some(ApprovalPending) ==>
                && call.callId !in old(Awaiting(state)) && call.callId !in old(Open(state))
                && Awaiting(state) == old(Awaiting(state)) + {call.callId}
                    && Open(state) == old(Open(state)) + {call.callId}
      ensures r != Some(AppendFailed) ==>
                && Recorded(old(state.lastSeq), CallTrace(call, plan, reason, config.maxToolResultBytes))
                && toolTimeUsed == old(toolTimeUsed) + PlanTime(plan)
      ensures failures == old(failures) + 1 && plan.NeedsApproval? ==> state.activeTurn.None?
    {
      var requested := RequestTool(turn, call, plan.NeedsApproval?);
      if !requested {
        if !plan.Unusable? {
          var _ := FailTurn(turn, [], AppendFailed);
        }
        return Some(AppendFailed);
      }
      ghost var log, mid := store.events, state.lastSeq;
      ghost var head := ToolRequested(call.callId, call.name, call.input, plan.NeedsApproval?);
      if plan.NeedsApproval? {
        assert CallTrace(call, plan, reason, config.maxToolResultBytes) == [head];
        return Some(ApprovalPending);
      }
      r := FollowRequest(turn, call.callId, call.input, plan, reason);
      if r != Some(AppendFailed) {
        LoggedTwice(log, store.events, old(state.lastSeq), mid, state.lastSeq, [head],
            PlanTrace(call.callId, plan, reason, config.maxToolResultBytes));
      }
    }

    method FollowRequest(turn: TurnId, callId: CallId, input: Json, plan: CallPlan, reason: CancellationReason)
        returns (r: Option<TurnError>)
      requires Valid() && MayRun(callId, input) && !plan.NeedsApproval?
      modifies this`state, this`requests, this`toolTimeUsed, this`started, this`failures, store
      ensures old(failures) <= failures && (r == Some(AppendFailed) <==> failures > old(failures))
      ensures Valid() && old(store.events) <= store.events && requests == old(requests)
      ensures r == Some(AppendFailed) || r == CallError(plan, config.maxToolResultBytes)
      ensures r.None? ==>
                RunsTurn(state, turn) && Awaiting(state) == old(Awaiting(state))
                    && Open(state) == old(Open(state)) - {callId} && state.continuation == old(state).continuation
      ensures r.Some? ==> Stops(turn, state, r.value)
      ensures r != Some(AppendFailed) ==>
                && Recorded(old(state.lastSeq), PlanTrace(callId, plan, reason, config.maxToolResultBytes))
                && toolTimeUsed == old(toolTimeUsed) + PlanTime(plan)
    {
      if plan.Unusable? {
        var rejected := CompleteTool(turn, callId, Rejected(plan.why), 0);
        r := if rejected then None else Some(AppendFailed);
      } else {
        r := RunApprovedTool(turn, callId, input, plan.run, reason);
      }
    }

    /** Calls of a batch in order, up to the first that stops the turn; `marks` says where the events of each begin. */
    method RunCalls(turn: TurnId, calls: seq<ToolCall>, plans: seq<CallPlan>, reason: CancellationReason)
      returns (r: Option<TurnError>, ghost marks: seq<nat>)
      requires Valid() && |calls| == |plans|
      modifies this`state, this`requests, this`toolTimeUsed, this`started, this`failures, store
      ensures old(failures) <= failures && (r == Some(AppendFailed) <==> failures > old(failures))
      ensures Valid() && old(store.events) <= store.events && requests <= old(requests) + |calls|
      ensures r.None? ==> GoesOn(old(state), state)
      ensures r.Some? ==> Exit(old(Awaiting(state)), old(Open(state)), turn, state, Error(r.value))
      ensures r != Some(AppendFailed) ==>
                && r == BatchError(plans, config.maxToolResultBytes)
                    && |marks| == Handled(plans, config.maxToolResultBytes) + 1
                && requests == old(requests) + |marks| - 1 && marks[0] == old(state.lastSeq)
                    && marks[|marks| - 1] == state.lastSeq
                && CallsLogged(store.events, marks, calls, plans, reason, config.maxToolResultBytes)
                && toolTimeUsed == old(toolTimeUsed) + BatchTime(plans, config.maxToolResultBytes)
    {
      assert plans[0..] == plans;
      marks := [state.lastSeq];
      for i := 0 to |calls|
        invariant Valid() && old(store.events) <= store.events && requests == old(requests) + i
        invariant failures == old(failures)
        invariant GoesOn(old(state), state)
        invariant toolTimeUsed + BatchTime(plans[i..], config.maxToolResultBytes) ==
                    old(toolTimeUsed) + BatchTime(plans, config.maxToolResultBytes)
        invariant BatchError(plans, config.maxToolResultBytes) == BatchError(plans[i..], config.maxToolResultBytes)
        invariant Handled(plans, config.maxToolResultBytes) == i + Handled(plans[i..], config.maxToolResultBytes)
        invariant |marks| == i + 1 && marks[0] == old(state.lastSeq) && marks[i] == state.lastSeq
        invariant CallsLogged(store.events, marks, calls, plans, reason, config.maxToolResultBytes)
      {
        ghost var log := store.events;
        BatchStep(plans, i, config.maxToolResultBytes);
        BatchTimeStep(plans, i, config.maxToolResultBytes);
        r := ExecuteToolCall(turn, calls[i], plans[i], reason);
        if r == Some(AppendFailed) { return; }
        CallLogged(log, store.events, marks, state.lastSeq, calls, plans, reason, config.maxToolResultBytes);
        marks := marks + [state.lastSeq];
        if r.Some? { return; }
      }
      r := None;
    }

    /**
     Ends as the first call that stops the turn does; exactly the calls up to it are requested, and exactly their
     events recorded.
     */
    method RunBatch(turn: TurnId, calls: seq<ToolCall>, plans: seq<CallPlan>, reason: CancellationReason)
        returns (r: Option<TurnError>)
      requires Valid() && |calls| == |plans|
      modifies this`state, this`requests, this`toolTimeUsed, this`started, this`failures, store
      ensures old(failures) <= failures && (r == Some(AppendFailed) <==> failures > old(failures))
      ensures Valid() && old(store.events) <= store.events && requests <= old(requests) + |calls|
      ensures r.None? ==> GoesOn(old(state), state)
      ensures r.Some? ==> Exit(old(Awaiting(state)), old(Open(state)), turn, state, Error(r.value))
      ensures r != Some(AppendFailed) ==>
                && r == BatchError(plans, config.maxToolResultBytes)
                && requests == old(requests) + Handled(plans, config.maxToolResultBytes)
                && Recorded(old(state.lastSeq), BatchTrace(calls, plans, reason, config.maxToolResultBytes))
                && toolTimeUsed == old(toolTimeUsed) + BatchTime(plans, config.maxToolResultBytes)
    {
      ghost var marks: seq<nat>;
      r, marks := RunCalls(turn, calls, plans, reason);
      if r != Some(AppendFailed) {
        BatchLogged(store.events, marks, calls, plans, reason, config.maxToolResultBytes);
      }
    }

    method Speak(turn: TurnId, text: Text) returns (ok: bool)
      requires Valid()
      modifies this`state, this`requests, this`failures, store
      ensures old(failures) <= failures && (ok <==> failures == old(failures))
      ensures Valid() && old(store.events) <= store.events && requests == old(requests)
      ensures ok ==> RunsTurn(state, turn) && state.activeTurn.value.lastModelResponse == Some(text)
      ensures ok ==> state.history == old(state).history + [Assistant(text)]
      ensures ok ==> GoesOn(old(state), state)
      ensures ok ==> Recorded(old(state.lastSeq), [ModelResponseRecorded(text)])
    {
      ok := Record(turn, ModelResponseRecorded(text));
    }

    method CompleteTurn(turn: TurnId, text: Text) returns (ok: bool)
      requires Valid()
      modifies this`state, this`requests, this`failures, store
      ensures old(failures) <= failures && (ok <==> failures == old(failures))
      ensures Valid() && old(store.events) <= store.events && requests == old(requests)
      ensures ok ==> old(Open(state)) == {} && state.activeTurn.None?
      ensures ok && old(RunsTurn(state, turn) && state.activeTurn.value.lastModelResponse == Some(text)) ==>
                state.history == old(state).history
      ensures ok ==> Recorded(old(state.lastSeq), [TurnCompleted(text)])
    {
      ok := Record(turn, TurnCompleted(text));
    }

    /**
     Records the final text and completes the turn with it; the text enters the history once. If that fails, the turn
     is failed, which may fail in its turn.
     */
    method Answer(turn: TurnId, text: Text) returns (r: TurnResult)
      requires Valid()
      modifies this`state, this`requests, this`failures, store
      ensures old(failures) <= failures && (r == Error(AppendFailed) <==> failures > old(failures))
      ensures Valid() && old(store.events) <= store.events && requests == old(requests)
      ensures r == Error(AppendFailed) ||
              (r == Answered(text) && old(Open(state)) == {} && state.activeTurn.None?
                  && state.history == old(state).history + [Assistant(text)])
      ensures r.Answered? ==> Recorded(old(state.lastSeq), [ModelResponseRecorded(text), TurnCompleted(text)])
      ensures failures == old(failures) + 1 ==> state.activeTurn.None?
    {
      var recorded := Speak(turn, text);
      ghost var log, mid := store.events, state.lastSeq;
      if recorded {
        recorded := CompleteTurn(turn, text);
      }
      if !recorded {
        var _ := FailTurn(turn, [], AppendFailed);
        return Error(AppendFailed);
      }
      LoggedPair(log, store.events, old(state.lastSeq), mid, state.lastSeq, ModelResponseRecorded(text),
          TurnCompleted(text));
      r := Answered(text);
    }

    /** What the model asked for: answer, or record the batch and run it. */
    method Obey(turn: TurnId, response: ModelResponse, plans: seq<CallPlan>, reason: CancellationReason)
        returns (r: Option<TurnResult>)
      requires Valid() && |plans| == |CallsOf(response)|
      modifies this`state, this`requests, this`toolTimeUsed, this`started, this`failures, store
      ensures old(failures) <= failures && (r == Some(Error(AppendFailed)) <==> failures > old(failures))
      ensures Valid() && old(store.events) <= store.events
      ensures requests <= old(requests) + config.maxBatchToolCalls
      ensures r.None? ==> GoesOn(old(state), state)
      ensures r.Some? ==> Exit(old(Awaiting(state)), old(Open(state)), turn, state, r.value)
      ensures r == Some(Error(AppendFailed)) || r == ObeyResult(response, plans, config)
      ensures r != Some(Error(AppendFailed)) ==>
                && Recorded(old(state.lastSeq), ObeyTrace(response, plans, reason, config))
                && toolTimeUsed == old(toolTimeUsed) + ObeyTime(response, plans, config)
                && (response.TextResponse? ==> state.history == old(state).history + [Assistant(response.text)])
                && requests == old(requests) + if BadBatch(response) then 0
                                               else Handled(plans, config.maxToolResultBytes)
    {
      if response.TextResponse? {
        var answer := Answer(turn, response.text);
        return Some(answer);
      }
      var acceptable := CheckBatch(CallsOf(response), config.maxBatchToolCalls);
      if !acceptable {
        var error := FailTurn(turn, [], ProviderFailure);
        return Some(Error(error));
      }
      r := ObeyCalls(turn, response, plans, reason);
    }

    ghost predicate BadBatch(response: ModelResponse) {
      !response.TextResponse? && !AcceptableBatch(CallsOf(response), config.maxBatchToolCalls)
    }

    /** The spoken text goes ahead of the batch. */
    method ObeyCalls(turn: TurnId, response: ModelResponse, plans: seq<CallPlan>, reason: CancellationReason)
        returns (r: Option<TurnResult>)
      requires Valid() && |plans| == |CallsOf(response)|
      modifies this`state, this`requests, this`toolTimeUsed, this`started, this`failures, store
      ensures old(failures) <= failures && (r == Some(Error(AppendFailed)) <==> failures > old(failures))
      ensures Valid() && old(store.events) <= store.events && requests <= old(requests) + |plans|
      ensures r.None? ==> GoesOn(old(state), state)
      ensures r.Some? ==> Exit(old(Awaiting(state)), old(Open(state)), turn, state, r.value)
      ensures r == Some(Error(AppendFailed)) || r == BatchResult(plans, config.maxToolResultBytes)
      ensures r != Some(Error(AppendFailed)) ==>
                && requests == old(requests) + Handled(plans, config.maxToolResultBytes)
                && Recorded(old(state.lastSeq), ResponseTrace(response, plans, reason, config.maxToolResultBytes))
                && toolTimeUsed == old(toolTimeUsed) + BatchTime(plans, config.maxToolResultBytes)
    {
      var recorded := Speak(turn, SpokenText(response));
      if !recorded {
        var _ := FailTurn(turn, [], AppendFailed);
        return Some(Error(AppendFailed));
      }
      ghost var log, mid := store.events, state.lastSeq;
      var stop := RunBatch(turn, CallsOf(response), plans, reason);
      if stop != Some(AppendFailed) {
        LoggedTwice(log, store.events, old(state.lastSeq), mid, state.lastSeq,
            [ModelResponseRecorded(SpokenText(response))],
            BatchTrace(CallsOf(response), plans, reason, config.maxToolResultBytes));
      }
      r := if stop.Some? then Some(Error(stop.value)) else None;
    }

    /** Samples the model and records its continuation if it moved. */
    method Consult(turn: TurnId, round: Round, reason: CancellationReason) returns (stop: Option<TurnError>)
      requires Valid()
      modifies this`state, this`requests, this`samples, this`failures, store
      ensures old(failures) <= failures && (stop == Some(AppendFailed) <==> failures > old(failures))
      ensures Valid() && old(store.events) <= store.events
      ensures samples == old(samples) + 1 && requests == old(requests)
      ensures stop == Some(AppendFailed) || stop == SamplingError(round.end)
      ensures stop != Some(AppendFailed) ==>
                Recorded(old(state.lastSeq), ConsultTrace(round, old(state).continuation, reason))
      ensures stop.None? ==>
                && Awaiting(state) == old(Awaiting(state)) && Open(state) == old(Open(state))
                && state.history == old(state).history && state.continuation == round.end.completion.continuation
      ensures stop.Some? ==>
                Exit(old(Awaiting(state)), old(Open(state)), turn, state, Error(stop.value))
                    && stop.value != ApprovalPending
    {
      stop := SampleModel(turn, reason, round.attempts, round.end);
      if stop.Some? {
        return;
      }
      ghost var log, mid := store.events, state.lastSeq;
      ghost var asked := AttemptTrace(round.attempts) + SamplingTrace(round.end, reason);
      var continuation := round.end.completion.continuation;
      if continuation != state.continuation {
        var updated := Record(turn, ProviderContinuationUpdated(continuation));
        if !updated { return Some(AppendFailed); }
        LoggedTwice(log, store.events, old(state.lastSeq), mid, state.lastSeq, asked,
            [ProviderContinuationUpdated(continuation)]);
      } else {
        assert asked + [] == asked;
      }
    }

    /** One model request and what follows from it. */
    method Step(turn: TurnId, round: Round, reason: CancellationReason) returns (r: Option<TurnResult>)
      requires Valid() && Planned(round)
      modifies this`state, this`toolTimeUsed, this`started, this`samples, this`requests, this`failures, store
      ensures old(failures) <= failures && (r == Some(Error(AppendFailed)) <==> failures > old(failures))
      ensures Valid() && old(store.events) <= store.events
      ensures samples <= old(samples) + 1 && requests <= old(requests) + config.maxBatchToolCalls
      ensures r.None? ==>
                && Awaiting(state) == old(Awaiting(state)) && Open(state) == old(Open(state))
                && round.end.Completed? && state.continuation == round.end.completion.continuation
      ensures r.Some? ==> Exit(old(Awaiting(state)), old(Open(state)), turn, state, r.value)
      ensures r != Some(Error(AppendFailed)) ==>
                && r == StepResult(round, config)
                && Recorded(old(state.lastSeq), StepTrace(round, old(state).continuation, reason, config))
                && toolTimeUsed == old(toolTimeUsed) + StepTime(round, config)
    {
      if round.tooLarge {
        var error := FailTurn(turn, [], ProviderFailure);
        return Some(Error(error));
      }
      var stop := Consult(turn, round, reason);
      if stop.Some? {
        assert ConsultTrace(round, old(state).continuation, reason) + []
            == ConsultTrace(round, old(state).continuation, reason);
        return Some(Error(stop.value));
      }
      ghost var log, mid := store.events, state.lastSeq;
      var response := round.end.completion.response;
      r := Obey(turn, response, round.plans, reason);
      if r != Some(Error(AppendFailed)) {
        LoggedTwice(log, store.events, old(state.lastSeq), mid, state.lastSeq,
            ConsultTrace(round, old(state).continuation, reason), ObeyTrace(response, round.plans, reason, config));
      }
    }

    /** The step is counted before the model is asked. */
    method CountedStep(turn: TurnId, round: Round, reason: CancellationReason) returns (r: Option<TurnResult>)
      requires Valid() && WithinBudget() && turnSteps < config.maxSteps && Planned(round)
      modifies this`state, this`turnSteps, this`toolTimeUsed, this`started, this`samples, this`requests
      modifies this`failures, store
      ensures old(failures) <= failures && (r == Some(Error(AppendFailed)) <==> failures > old(failures))
      ensures Valid() && WithinBudget() && old(store.events) <= store.events && turnSteps == old(turnSteps) + 1
      ensures r.None? ==>
                && Awaiting(state) == old(Awaiting(state)) && Open(state) == old(Open(state))
                && round.end.Completed? && state.continuation == round.end.completion.continuation
      ensures r.Some? ==> Exit(old(Awaiting(state)), old(Open(state)), turn, state, r.value)
      ensures r != Some(Error(AppendFailed)) ==>
                && r == StepResult(round, config)
                && Recorded(old(state.lastSeq), StepTrace(round, old(state).continuation, reason, config))
                && toolTimeUsed == old(toolTimeUsed) + StepTime(round, config)
    {
      turnSteps := turnSteps + 1;
      r := Step(turn, round, reason);
      OneMoreStep(old(requests), requests, old(turnSteps), config.maxBatchToolCalls);
    }

    /** What a round finds at its head, and the round itself if nothing stops it there. */
    method RunRound(turn: TurnId, round: Round, reason: CancellationReason) returns (r: Option<TurnResult>)
      requires Valid() && WithinBudget() && Planned(round)
      modifies this`state, this`turnSteps, this`toolTimeUsed, this`started, this`samples, this`requests
      modifies this`failures, store
      ensures old(failures) <= failures && (r == Some(Error(AppendFailed)) <==> failures > old(failures))
      ensures Valid() && WithinBudget() && old(store.events) <= store.events && old(turnSteps) <= turnSteps
      ensures r.None? ==> Awaiting(state) == old(Awaiting(state)) && Open(state) == old(Open(state))
      ensures r.Some? ==> Exit(old(Awaiting(state)), old(Open(state)), turn, state, r.value)
      ensures r != Some(Error(AppendFailed)) ==>
                var verdict := RoundVerdict(round, old(Now()), reason, config);
                && Recorded(old(state.lastSeq), verdict.trace)
                && (if verdict.Returns? then r == Some(verdict.result) else r == None && Now() == verdict.next)
    {
      if round.cancelled {
        var ok := AppendCancellation(turn, reason);
        return Some(Error(if ok then TurnCancelledError else AppendFailed));
      }
      if turnSteps >= config.maxSteps {
        var error := FailTurn(turn, [], ProviderFailure);
        return Some(Error(error));
      }
      if (config.maxTurnDuration != 0 && round.expired)
          || (config.maxToolTime != 0 && toolTimeUsed >= config.maxToolTime) {
        var ok := EndTurn(turn, TurnTimedOut);
        return Some(Error(if ok then TimeoutError else AppendFailed));
      }
      r := CountedStep(turn, round, reason);
    }

    /** Samples and obeys until the turn ends or pauses; steps taken before a pause still count. */
    method ContinueTurn(turn: TurnId, rounds: seq<Round>, reason: CancellationReason) returns (r: TurnResult)
      requires Valid() && WithinBudget() && Enough(rounds, Now(), config)
      modifies this`state, this`turnSteps, this`toolTimeUsed, this`started, this`samples, this`requests
      modifies this`failures, store
      ensures old(failures) <= failures && (r == Error(AppendFailed) <==> failures > old(failures))
      ensures Valid() && WithinBudget() && old(store.events) <= store.events && old(turnSteps) <= turnSteps
      ensures Exit(old(Awaiting(state)), old(Open(state)), turn, state, r)
      ensures r != Error(AppendFailed) ==> Ran(LoopCourse(rounds, old(Now()), reason, config), old(state.lastSeq), r)
      ensures r.Answered? ==> state.history == old(state).history + Conversation(rounds)
    {
      r := Loop(turn, rounds, reason);
      if r.Answered? {
        ConversationRecorded(old(store.events), old(state), store.events, state, old(started), started, rounds,
            old(Now()), reason, config);
      }
    }

    method Loop(turn: TurnId, rounds: seq<Round>, reason: CancellationReason) returns (r: TurnResult)
      requires Valid() && WithinBudget() && Enough(rounds, Now(), config)
      modifies this`state, this`turnSteps, this`toolTimeUsed, this`started, this`samples, this`requests
      modifies this`failures, store
      ensures old(failures) <= failures && (r == Error(AppendFailed) <==> failures > old(failures))
      ensures Valid() && WithinBudget() && old(store.events) <= store.events && old(turnSteps) <= turnSteps
      ensures Exit(old(Awaiting(state)), old(Open(state)), turn, state, r)
      ensures r != Error(AppendFailed) ==> Ran(LoopCourse(rounds, old(Now()), reason, config), old(state.lastSeq), r)
    {
      ghost var whole := LoopCourse(rounds, Now(), reason, config);
      ghost var done: seq<EventPayload> := [];
      var k := 0;
      assert rounds[0..] == rounds && done + whole.trace == whole.trace;
      while true
        invariant Valid() && WithinBudget() && old(store.events) <= store.events && old(turnSteps) <= turnSteps
        invariant failures == old(failures)
        invariant Awaiting(state) == old(Awaiting(state)) && Open(state) == old(Open(state))
        invariant k <= |rounds| && Enough(rounds[k..], Now(), config)
        invariant Recorded(old(state.lastSeq), done)
        invariant whole == AfterRounds(done, LoopCourse(rounds[k..], Now(), reason, config))
        decreases config.maxSteps - turnSteps
      {
        ghost var log, mid, before := store.events, state.lastSeq, Now();
        NextDone(done, rounds[k..], before, reason, config);
        var ended := RunRound(turn, rounds[k], reason);
        if ended == Some(Error(AppendFailed)) {
          return Error(AppendFailed);
        }
        ghost var trace := RoundVerdict(rounds[k], before, reason, config).trace;
        LoggedTwice(log, store.events, old(state.lastSeq), mid, state.lastSeq, done, trace);
        done := done + trace;
        if ended.Some? {
          return ended.value;
        }
        assert rounds[k..][1..] == rounds[k + 1..];
        k := k + 1;
      }
    }

    /** A whole turn: it ends, is lost, or pauses on exactly one call, which waits for approval. */
    method RunTurn(turn: TurnId, input: Text, rounds: seq<Round>, reason: CancellationReason) returns (r: TurnResult)
      requires Valid() && WithinBudget() && Enough(rounds, Progress(0, 0, state.continuation), config)
      modifies this, store
      ensures old(failures) <= failures && (r == Error(AppendFailed) <==> failures > old(failures))
      ensures Valid() && WithinBudget() && old(store.events) <= store.events
      ensures r == Error(TurnAlreadyActive) <==> old(state).activeTurn.Some?
      ensures r == Error(InputTooLong) <==> old(state).activeTurn.None? && |input| > Context.MAX_CONTEXT_ITEM_BYTES
      ensures r == Error(TurnAlreadyActive) || r == Error(InputTooLong) || Exit({}, {}, turn, state, r)
      ensures r != Error(TurnAlreadyActive) && r != Error(InputTooLong) && r != Error(AppendFailed) ==>
                Ran(AfterRounds(OpeningTrace(old(state.lastSeq) == 0, input),
                  LoopCourse(rounds, Progress(0, 0, old(state).continuation), reason, config)), old(state.lastSeq), r)
      ensures r.Answered? ==> state.history == old(state).history + [User(input)] + Conversation(rounds)
    {
      var refused := BeginTurn(turn, input);
      if refused.Some? {
        return Error(refused.value);
      }
      ghost var log, mid := store.events, state.lastSeq;
      assert Awaiting(state) == {} && Open(state) == {};
      r := ContinueTurn(turn, rounds, reason);
      if r != Error(AppendFailed) {
        LoggedTwice(log, store.events, old(state.lastSeq), mid, state.lastSeq,
            OpeningTrace(old(state.lastSeq) == 0, input),
            LoopCourse(rounds, Progress(0, 0, old(state).continuation), reason, config).trace);
      }
    }

    method Respond(turn: TurnId, callId: CallId, approved: bool, ghost asked: Option<Request>) returns (ok: bool)
      requires Valid() && asked == RequestOf(store.events[..state.lastSeq], callId)
      modifies this`state, this`requests, this`failures, store
      ensures old(failures) <= failures && (ok <==> failures == old(failures))
      ensures Valid() && old(store.events) <= store.events && requests == old(requests)
      ensures ok ==> Awaiting(state) == old(Awaiting(state)) - {callId} && Open(state) == old(Open(state))
      ensures ok ==> state.continuation == old(state).continuation
      ensures ok ==> Recorded(old(state.lastSeq), [ToolApprovalResponded(callId, approved)])
      ensures ok && approved && asked.Some? ==> MayRun(callId, asked.value.input)
    {
      ok := Record(turn, ToolApprovalResponded(callId, approved));
      if ok {
        AuthorizingIsLast(store.events, old(state.lastSeq), state.lastSeq, ToolApprovalResponded(callId, approved));
        AuthorizationFresh(old(store.events), old(state), store.events, started);
        ResponseKeepsRequest(old(store.events), store.events, old(state.lastSeq), state.lastSeq, callId, approved);
      }
    }

    /**
     The user's decision on a pending approval, recorded before the tool may start. The step budget of the turn
     goes on where the pause left it.
     */
    method ApproveTool(turn: TurnId, callId: CallId, approved: bool, run: ToolRun, rounds: seq<Round>)
        returns (r: TurnResult)
      requires Valid() && WithinBudget() && Enough(rounds, Now(), config)
      modifies this`state, this`turnSteps, this`toolTimeUsed, this`started, this`samples, this`requests
      modifies this`failures, store
      ensures old(failures) <= failures && (r == Error(AppendFailed) <==> failures > old(failures))
      ensures Valid() && WithinBudget() && old(store.events) <= store.events && old(turnSteps) <= turnSteps
      ensures r == Error(NotActive) <==> !old(RunsTurn(state, turn))
      ensures r == Error(NoPendingApproval) <==> old(RunsTurn(state, turn)) && callId !in old(Awaiting(state))
      ensures r == Error(NotActive) || r == Error(NoPendingApproval) ==>
                state == old(state) && store.events == old(store.events)
      ensures r == Error(NotActive) || r == Error(NoPendingApproval) || r == Error(PolicyFailure)
              || Exit(old(Awaiting(state)) - {callId}, old(Open(state)) - {callId}, turn, state, r)
      ensures r == Error(PolicyFailure) ==>
                !approved && state.activeTurn.None?
                    && Recorded(old(state.lastSeq), [ToolApprovalResponded(callId, false), TurnCancelled])
      ensures old(RunsTurn(state, turn)) && callId in old(Awaiting(state)) && !approved ==>
                r == Error(PolicyFailure) || r == Error(AppendFailed)
      ensures !approved ==> r.Error? && turnSteps == old(turnSteps) && requests == old(requests)
      ensures old(RunsTurn(state, turn)) && callId in old(Awaiting(state)) && approved && r != Error(AppendFailed) ==>
                Ran(ApprovedCourse(callId, run, rounds, old(Now()), config), old(state.lastSeq), r)
      ensures r.Answered? ==>
                && old(state).activeTurn.Some?
                && callId in old(state).activeTurn.value.toolNames && callId in old(state).activeTurn.value.toolInputs
                && var active := old(state).activeTurn.value;
                   state.history == old(state).history + ([Tool(callId, active.toolNames[callId],
                     active.toolInputs[callId], Shown(RunNow(run)))] + Conversation(rounds))
    {
      if state.activeTurn.None? || state.activeTurn.value.turnId != turn {
        return Error(NotActive);
      }
      var active := state.activeTurn.value;
      if callId !in active.approvals || active.approvals[callId] != AwaitingApproval {
        return Error(NoPendingApproval);
      }
      OpenStep(store.events, state, started);
      AwaitingIsRecorded(active, callId);
      assert callId in active.toolNames && callId in active.toolInputs;
      if approved {
        RequestRead(store.events[..state.lastSeq], state, callId);
        r := RunAndContinue(turn, callId, active.toolInputs[callId], run, rounds);
        if r.Answered? {
          ApprovalRecorded(old(store.events), old(state), store.events, state, old(started), started, callId, run,
              rounds, old(Now()), config);
        }
      } else {
        var error := Deny(turn, callId);
        r := Error(error);
      }
    }

    method Deny(turn: TurnId, callId: CallId) returns (r: TurnError)
      requires Valid()
      modifies this`state, this`requests, this`failures, store
      ensures old(failures) <= failures && (r == AppendFailed <==> failures > old(failures))
      ensures Valid() && old(store.events) <= store.events && requests == old(requests)
      ensures r == AppendFailed ||
              (r == PolicyFailure && state.activeTurn.None?
                  && Recorded(old(state.lastSeq), [ToolApprovalResponded(callId, false), TurnCancelled]))
    {
      var recorded := Respond(turn, callId, false, RequestOf(store.events[..state.lastSeq], callId));
      if !recorded { return AppendFailed; }
      ghost var log, mid := store.events, state.lastSeq;
      var ended := EndTurn(turn, TurnCancelled);
      if !ended { return AppendFailed; }
      LoggedPair(log, store.events, old(state.lastSeq), mid, state.lastSeq, ToolApprovalResponded(callId, false),
          TurnCancelled);
      r := PolicyFailure;
    }

    /** An approved call is run, and unless it stops the turn, the loop goes on. */
    method RunAndContinue(turn: TurnId, callId: CallId, input: Json, run: ToolRun, rounds: seq<Round>)
        returns (r: TurnResult)
      requires WasAsked(callId, input)
      requires Valid() && WithinBudget() && Enough(rounds, Now(), config)
      modifies this`state, this`turnSteps, this`toolTimeUsed, this`started, this`samples, this`requests
      modifies this`failures, store
      ensures old(failures) <= failures && (r == Error(AppendFailed) <==> failures > old(failures))
      ensures Valid() && WithinBudget() && old(store.events) <= store.events && old(turnSteps) <= turnSteps
      ensures Exit(old(Awaiting(state)) - {callId}, old(Open(state)) - {callId}, turn, state, r)
      ensures r != Error(AppendFailed) ==>
                Ran(ApprovedCourse(callId, run, rounds, old(Now()), config), old(state.lastSeq), r)
    {
      var stop := Resume(turn, callId, input, run);
      if stop.Some? {
        if stop != Some(AppendFailed) { ApprovedStops(callId, run, rounds, old(Now()), config); }
        StoppedIsExit(old(Awaiting(state)) - {callId}, old(Open(state)) - {callId}, turn, state, stop.value);
        return Error(stop.value);
      }
      ghost var log, mid, p := store.events, state.lastSeq, Now();
      r := ContinueTurn(turn, rounds, ByUser);
      if r != Error(AppendFailed) {
        ApprovedLogged(log, store.events, old(state.lastSeq), mid, state.lastSeq, callId, run, rounds, old(Now()), p,
            config);
      }
    }

    /** The granted approval is recorded and the tool is run. */
    method Resume(turn: TurnId, callId: CallId, input: Json, run: ToolRun) returns (r: Option<TurnError>)
      requires Valid() && WasAsked(callId, input)
      modifies this`state, this`toolTimeUsed, this`started, this`requests, this`failures, store
      ensures old(failures) <= failures && (r == Some(AppendFailed) <==> failures > old(failures))
      ensures Valid() && old(store.events) <= store.events && requests == old(requests)
      ensures r == Some(AppendFailed) || r == RunError(run, config.maxToolResultBytes)
      ensures r.None? ==>
                && Now() == old(Now()).(toolTime := old(toolTimeUsed) + RunTime(run))
                && Awaiting(state) == old(Awaiting(state)) - {callId} && Open(state) == old(Open(state)) - {callId}
      ensures r.Some? ==> Stops(turn, state, r.value)
      ensures r != Some(AppendFailed) ==>
                Recorded(old(state.lastSeq), ApprovedTrace(callId, run, config.maxToolResultBytes))
    {
      var recorded := Respond(turn, callId, true, RequestOf(store.events[..state.lastSeq], callId));
      if !recorded { return Some(AppendFailed); }
      ghost var log, mid := store.events, state.lastSeq;
      r := RunApprovedTool(turn, callId, input, run, ByUser);
      if r != Some(AppendFailed) {
        LoggedTwice(log, store.events, old(state.lastSeq), mid, state.lastSeq, [ToolApprovalResponded(callId, true)],
            RunTrace(callId, run, ByUser, config.maxToolResultBytes));
      }
    }
  }
}
