/**
 What an accepted log says about one tool call: the events of the current turn that name the call,
 in order, always spell one of a few words, and the reducer's state for the call is that word.
 */
module TurnTrace {
  import opened Options
  import opened State
  import opened Reducer
  import opened ReducerInvariant

  datatype CallStep = Ask(needsApproval: bool) | Answer(approved: bool) | End(outcome: ToolOutcome) | Lost

  /** What an event does to call `id`. */
  function StepOf(p: EventPayload, id: CallId): Option<CallStep> {
    match p
    case ToolRequested(c, _, _, requiresApproval) => if c == id then Some(Ask(requiresApproval)) else None
    case ToolApprovalResponded(c, approved) => if c == id then Some(Answer(approved)) else None
    case ToolCompleted(c, outcome, _) => if c == id then Some(End(outcome)) else None
    case ToolOutcomeUnknown(c, _) => if c == id then Some(Lost) else None
    case _ => None
  }

  /** Length of the log up to and including its latest turn start. */
  function TurnBegin(log: seq<Event>): (n: nat)
    ensures n <= |log|
    ensures forall i | n <= i < |log| :: !log[i].payload.TurnStarted?
    ensures n > 0 ==> log[n - 1].payload.TurnStarted?
  {
    if log == [] then 0
    else if log[|log| - 1].payload.TurnStarted? then |log|
    else TurnBegin(log[..|log| - 1])
  }

  /** Positions, since the latest turn start, of the events about call `id`. */
  function Positions(log: seq<Event>, id: CallId): (ps: seq<nat>)
    ensures forall k | 0 <= k < |ps| :: TurnBegin(log) <= ps[k] < |log| && StepOf(log[ps[k]].payload, id).Some?
    ensures forall k, l | 0 <= k < l < |ps| :: ps[k] < ps[l]
    ensures forall i | TurnBegin(log) <= i < |log| && StepOf(log[i].payload, id).Some? :: i in ps
  {
    if log == [] then []
    else
      var n := |log| - 1;
      if log[n].payload.TurnStarted? then []
      else
        assert TurnBegin(log) == TurnBegin(log[..n]) && forall i | 0 <= i < n :: log[..n][i] == log[i];
        var before := Positions(log[..n], id);
        if StepOf(log[n].payload, id).Some? then before + [n] else before
  }

  /** The steps of call `id` in the current turn. */
  function Word(log: seq<Event>, id: CallId): (w: seq<CallStep>)
    ensures |w| == |Positions(log, id)|
    ensures forall k | 0 <= k < |w| :: StepOf(log[Positions(log, id)[k]].payload, id) == Some(w[k])
  {
    if log == [] then []
    else
      var n := |log| - 1;
      if log[n].payload.TurnStarted? then []
      else if StepOf(log[n].payload, id).Some? then Word(log[..n], id) + [StepOf(log[n].payload, id).value]
      else Word(log[..n], id)
  }

  function AnswerPart(t: TurnState, id: CallId): seq<CallStep> {
    if id !in t.approvals || t.approvals[id] == AwaitingApproval then []
    else [Answer(t.approvals[id] == Approved)]
  }

  function EndPart(t: TurnState, id: CallId): seq<CallStep>
    requires id in t.executions
  {
    match t.executions[id]
    case Pending => []
    case Completed(result) => [End(Succeeded(result))]
    case Errored(error) => [End(if id in t.rejected then Rejected(error) else Failed(error))]
    case OutcomeUnknown => [Lost]
  }

  /** The word the reducer's state for a call stands for; a lost call may still be answered afterwards. */
  predicate Spells(t: TurnState, id: CallId, w: seq<CallStep>) {
    if id !in t.executions then w == []
    else
      var ask := [Ask(id in t.approvals)];
      || w == ask + AnswerPart(t, id) + EndPart(t, id)
      || (t.executions[id] == OutcomeUnknown && w == ask + EndPart(t, id) + AnswerPart(t, id))
  }

  /** A call the transition is not about keeps its word. */
  lemma OtherCallSpells(t: TurnState, u: TurnState, id: CallId, w: seq<CallStep>)
    requires Spells(t, id, w)
    requires (id in u.executions <==> id in t.executions) && (id in u.approvals <==> id in t.approvals)
    requires id in t.executions ==> u.executions[id] == t.executions[id] && (id in u.rejected <==> id in t.rejected)
    requires id in t.approvals ==> u.approvals[id] == t.approvals[id]
    ensures Spells(u, id, w)
  {
  }

  lemma AskSpells(t: TurnState, id: CallId, name: Text, input: Json, requiresApproval: bool, w: seq<CallStep>)
    requires TurnInvariant(t) && Spells(t, id, w) && id !in t.executions
    ensures Spells(Requested(t, id, name, input, requiresApproval), id, w + [Ask(requiresApproval)])
  {
  }

  lemma AnswerSpells(t: TurnState, id: CallId, approved: bool, w: seq<CallStep>)
    requires TurnInvariant(t) && Spells(t, id, w) && AwaitsApproval(t, id)
    ensures Spells(t.(approvals := t.approvals[id := if approved then Approved else Denied]), id,
              w + [Answer(approved)])
  {
    var u := t.(approvals := t.approvals[id := if approved then Approved else Denied]);
    assert AnswerPart(t, id) == [] && AnswerPart(u, id) == [Answer(approved)] && EndPart(u, id) == EndPart(t, id);
    assert w == [Ask(true)] + EndPart(t, id);
  }

  lemma EndSpells(t: TurnState, id: CallId, outcome: ToolOutcome, w: seq<CallStep>)
    requires TurnInvariant(t) && Spells(t, id, w) && IsPending(t, id) && !AwaitsApproval(t, id)
    ensures Spells(Concluded(t, id, outcome), id, w + [End(outcome)])
  {
    var u := Concluded(t, id, outcome);
    assert id !in t.rejected;
    assert AnswerPart(u, id) == AnswerPart(t, id) && EndPart(t, id) == [] && EndPart(u, id) == [End(outcome)];
    assert w == [Ask(id in t.approvals)] + AnswerPart(t, id);
  }

  lemma LossSpells(t: TurnState, id: CallId, w: seq<CallStep>)
    requires TurnInvariant(t) && Spells(t, id, w) && IsPending(t, id)
    ensures Spells(t.(executions := t.executions[id := OutcomeUnknown]), id, w + [Lost])
  {
    var u := t.(executions := t.executions[id := OutcomeUnknown]);
    assert AnswerPart(u, id) == AnswerPart(t, id) && EndPart(t, id) == [] && EndPart(u, id) == [Lost];
    assert w == [Ask(id in t.approvals)] + AnswerPart(t, id);
  }

  lemma StepKeepsSpelling(s: SessionState, t: TurnState, p: EventPayload, id: CallId, w: seq<CallStep>)
    requires TurnInvariant(t) && s.activeTurn == Some(t) && Spells(t, id, w)
    requires ReduceTurn(s, t, p).ok && ReduceTurn(s, t, p).state.activeTurn.Some?
    ensures Spells(ReduceTurn(s, t, p).state.activeTurn.value, id, Extended(w, p, id))
  {
    TurnAfterStep(s, t, p);
    TurnAfterSpells(t, p, id, w);
  }

  /** What the state of the calls says when a transition of the turn is accepted. */
  predicate StepFits(t: TurnState, p: EventPayload) {
    && (p.ToolRequested? ==> p.callId !in t.executions)
    && (p.ToolApprovalResponded? ==> AwaitsApproval(t, p.callId))
    && (p.ToolCompleted? ==> IsPending(t, p.callId) && !AwaitsApproval(t, p.callId))
    && (p.ToolOutcomeUnknown? ==> IsPending(t, p.callId))
  }

  /** The word of a call once an event is accepted. */
  function Extended(w: seq<CallStep>, p: EventPayload, id: CallId): seq<CallStep> {
    if StepOf(p, id).Some? then w + [StepOf(p, id).value] else w
  }

  lemma TurnAfterSpells(t: TurnState, p: EventPayload, id: CallId, w: seq<CallStep>)
    requires TurnInvariant(t) && Spells(t, id, w) && StepFits(t, p)
    ensures Spells(TurnAfter(t, p), id, Extended(w, p, id))
  {
    if StepOf(p, id).None? {
      OtherStepSpells(t, p, id, w);
    } else {
      OwnStepSpells(t, p, id, w);
    }
  }

  lemma OtherStepSpells(t: TurnState, p: EventPayload, id: CallId, w: seq<CallStep>)
    requires Spells(t, id, w) && StepOf(p, id).None?
    ensures Spells(TurnAfter(t, p), id, w)
  {
    OtherCallSpells(t, TurnAfter(t, p), id, w);
  }

  lemma OwnStepSpells(t: TurnState, p: EventPayload, id: CallId, w: seq<CallStep>)
    requires TurnInvariant(t) && Spells(t, id, w) && StepFits(t, p) && StepOf(p, id).Some?
    ensures Spells(TurnAfter(t, p), id, w + [StepOf(p, id).value])
  {
    match p {
      case ToolRequested(_, name, input, requiresApproval) => AskSpells(t, id, name, input, requiresApproval, w);
      case ToolApprovalResponded(_, approved) => AnswerSpells(t, id, approved, w);
      case ToolCompleted(_, outcome, _) => EndSpells(t, id, outcome, w);
      case ToolOutcomeUnknown(_, _) => LossSpells(t, id, w);
    }
  }

  /** The part of a transition that concerns the turn and its calls. */
  function TurnAfter(t: TurnState, p: EventPayload): TurnState {
    match p
    case ModelResponseRecorded(text) => t.(lastModelResponse := Some(text))
    case ToolRequested(c, name, input, requiresApproval) => Requested(t, c, name, input, requiresApproval)
    case ToolApprovalResponded(c, approved) => t.(approvals := t.approvals[c := if approved then Approved else Denied])
    case ToolCompleted(c, outcome, _) => Concluded(t, c, outcome)
    case ToolOutcomeUnknown(c, _) => t.(executions := t.executions[c := OutcomeUnknown])
    case _ => t
  }

  lemma TurnAfterStep(s: SessionState, t: TurnState, p: EventPayload)
    requires s.activeTurn == Some(t) && ReduceTurn(s, t, p).ok && ReduceTurn(s, t, p).state.activeTurn.Some?
    ensures ReduceTurn(s, t, p).state.activeTurn.value == TurnAfter(t, p)
    ensures StepFits(t, p)
  {
  }

  /** In every accepted log with an active turn, each call's events spell what the state says of the call. */
  lemma {:induction false} WordMatchesState(sid: SessionId, log: seq<Event>, id: CallId)
    requires Replay(NewSession(sid), log).Some? && Replay(NewSession(sid), log).value.activeTurn.Some?
    ensures Spells(Replay(NewSession(sid), log).value.activeTurn.value, id, Word(log, id))
    decreases |log|
  {
    if log != [] {
      var n := |log| - 1;
      var before := ReplayAt(NewSession(sid), log, n);
      assert log[..n + 1] == log;
      ReachableInvariant(sid, log[..n]);
      if !log[n].payload.TurnStarted? {
        WordMatchesState(sid, log[..n], id);
        StepKeepsSpelling(before, before.activeTurn.value, log[n].payload, id, Word(log[..n], id));
      }
    }
  }

  /** A call that was asked for, answered if it had to be, and ended without a failure. */
  predicate Closed(w: seq<CallStep>) {
    || (|w| == 2 && w[0] == Ask(false) && w[1].End? && !w[1].outcome.Failed?)
    || (|w| == 3 && w[0] == Ask(true) && w[1].Answer? && w[2].End? && !w[2].outcome.Failed?)
  }

  /** No call of the current turn is left open. */
  ghost predicate AllClosed(log: seq<Event>) {
    forall id :: Word(log, id) == [] || Closed(Word(log, id))
  }

  ghost predicate AllSettled(t: TurnState) {
    forall id | id in t.executions :: Settled(t, id)
  }

  lemma SettledIsClosed(t: TurnState, id: CallId, w: seq<CallStep>)
    requires TurnInvariant(t) && Spells(t, id, w)
    ensures id !in t.executions ==> w == []
    ensures id in t.executions ==> (Settled(t, id) <==> Closed(w))
    ensures id in t.executions ==> w != []
  {
  }

  /** Room for the answer of a turn, which is not recorded again when it was the last response. */
  predicate AnswerFits(s: SessionState, text: Text)
    requires s.activeTurn.Some?
  {
    s.activeTurn.value.lastModelResponse == Some(text) || SizeAfterPush(s, Assistant(text)) <= MAX_HISTORY_BYTES
  }

  lemma CompletionNeedsSettled(s: SessionState, e: Event)
    requires e.payload.TurnCompleted?
    ensures Reduce(s, e).ok <==>
              && ExpectedNext(s, e) && OwnsActiveTurn(s, e) && AnswerFits(s, e.payload.text)
              && AllSettled(s.activeTurn.value)
  {
  }

  lemma ActiveWord(sid: SessionId, log: seq<Event>, t: TurnState, id: CallId)
    requires Replay(NewSession(sid), log).Some? && Replay(NewSession(sid), log).value.activeTurn == Some(t)
    ensures id in t.executions ==> Word(log, id) != [] && (Settled(t, id) <==> Closed(Word(log, id)))
    ensures id !in t.executions ==> Word(log, id) == []
  {
    ReachableInvariant(sid, log);
    WordMatchesState(sid, log, id);
    SettledIsClosed(t, id, Word(log, id));
  }

  lemma ActiveWords(sid: SessionId, log: seq<Event>, t: TurnState)
    requires Replay(NewSession(sid), log).Some? && Replay(NewSession(sid), log).value.activeTurn == Some(t)
    ensures AllSettled(t) <==> AllClosed(log)
  {
    if AllSettled(t) {
      forall id ensures Word(log, id) == [] || Closed(Word(log, id)) {
        ActiveWord(sid, log, t, id);
      }
    } else {
      var id :| id in t.executions && !Settled(t, id);
      ActiveWord(sid, log, t, id);
    }
  }

  /**
   Completing a turn is accepted exactly when the event is the next one of the session, names the active turn, has room
   for the answer, and every call of the turn is closed.
   */
  lemma CompletionAcceptedIff(sid: SessionId, log: seq<Event>, e: Event)
    requires Replay(NewSession(sid), log).Some? && e.payload.TurnCompleted?
    ensures var s := Replay(NewSession(sid), log).value;
            Replay(NewSession(sid), log + [e]).Some? <==>
              && ExpectedNext(s, e) && OwnsActiveTurn(s, e) && AnswerFits(s, e.payload.text) && AllClosed(log)
  {
    var s := Replay(NewSession(sid), log).value;
    CompletionNeedsSettled(s, e);
    ReplaySnoc(NewSession(sid), log, e);
    if s.activeTurn.Some? { ActiveWords(sid, log, s.activeTurn.value); }
  }

  lemma CompletedWord(sid: SessionId, log: seq<Event>, e: Event, id: CallId)
    requires Replay(NewSession(sid), log + [e]).Some? && e.payload.TurnCompleted?
    ensures Word(log, id) == [] || Closed(Word(log, id))
  {
    ReplaySnoc(NewSession(sid), log, e);
    CompletionAcceptedIff(sid, log, e);
  }

  lemma ClosedShape(log: seq<Event>, id: CallId, ps: seq<nat>, w: seq<CallStep>)
    requires |w| == |ps| && Closed(w)
    requires forall k | 0 <= k < |ps| :: ps[k] < |log| && StepOf(log[ps[k]].payload, id) == Some(w[k])
    ensures log[ps[0]].payload.ToolRequested? && log[ps[0]].payload.callId == id
    ensures log[ps[|ps| - 1]].payload.ToolCompleted? && log[ps[|ps| - 1]].payload.callId == id
    ensures !log[ps[|ps| - 1]].payload.outcome.Failed?
    ensures log[ps[0]].payload.requiresApproval <==> |ps| == 3
    ensures |ps| == 3 ==> log[ps[1]].payload.ToolApprovalResponded? && log[ps[1]].payload.callId == id
  {
    var last := |ps| - 1;
    assert StepOf(log[ps[0]].payload, id) == Some(w[0]);
    assert StepOf(log[ps[last]].payload, id) == Some(w[last]);
    assert StepOf(log[ps[1]].payload, id) == Some(w[1]);
  }

  /**
   For every event about a call in a turn that completes: the call was requested once, completed once after it,
   not failed and not lost, and answered once in between exactly when it required approval; nothing else names it.
   */
  lemma CompletedTurnCalls(sid: SessionId, log: seq<Event>, e: Event, id: CallId, k: nat)
    returns (requested: nat, answered: nat, completed: nat)
    requires Replay(NewSession(sid), log + [e]).Some? && e.payload.TurnCompleted?
    requires TurnBegin(log) <= k < |log| && StepOf(log[k].payload, id).Some?
    ensures TurnBegin(log) <= requested < completed < |log|
    ensures log[requested].payload.ToolRequested? && log[requested].payload.callId == id
    ensures log[completed].payload.ToolCompleted? && log[completed].payload.callId == id
              && !log[completed].payload.outcome.Failed?
    ensures log[requested].payload.requiresApproval ==>
              requested < answered < completed && log[answered].payload.ToolApprovalResponded?
                  && log[answered].payload.callId == id
    ensures forall i | TurnBegin(log) <= i < |log| && StepOf(log[i].payload, id).Some? ::
              i == requested || i == completed || (log[requested].payload.requiresApproval && i == answered)
  {
    CompletedWord(sid, log, e, id);
    var ps := Positions(log, id);
    assert k in ps;
    ClosedShape(log, id, ps, Word(log, id));
    requested, answered, completed := ps[0], ps[1], ps[|ps| - 1];
  }

  /** The step that lets the driver start the tool. */
  predicate Authorizes(step: CallStep) {
    step == Ask(false) || step == Answer(true)
  }

  /** No call of a turn is authorized twice. */
  lemma AuthorizedOnce(t: TurnState, id: CallId, w: seq<CallStep>, i: nat, j: nat)
    requires Spells(t, id, w) && i < |w| && j < |w| && Authorizes(w[i]) && Authorizes(w[j])
    ensures i == j
    ensures w[0].Ask? && (w[0].needsApproval ==> w[i] == Answer(true) && i > 0)
  {
  }
}
