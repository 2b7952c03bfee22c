/**
 What an accepted log says, read off its events alone: the state of the session it stands for, and which event it
 takes next. Nothing here is written in the words of the reducer.
 */
module LogView {
  import opened Options
  import opened State
  import opened HistoryJson
  import opened Reducer
  import opened ReducerInvariant
  import opened TurnTrace

  datatype Request = Request(name: Text, input: Json)

  // ------------------------------------------------------------------ reading the log from its end

  /** Name and input call `id` was requested with in the latest turn. */
  function RequestOf(log: seq<Event>, id: CallId): Option<Request> {
    if log == [] then None
    else
      match log[|log| - 1].payload
      case TurnStarted => None
      case ToolRequested(c, name, input, _) => if c == id then Some(Request(name, input)) else RequestOf(Init(log), id)
      case _ => RequestOf(Init(log), id)
  }

  function Init(log: seq<Event>): seq<Event>
    requires log != []
  {
    log[..|log| - 1]
  }

  /** The latest response of the model in the latest turn. */
  function LastResponse(log: seq<Event>): Option<Text> {
    if log == [] then None
    else
      match log[|log| - 1].payload
      case TurnStarted => None
      case ModelResponseRecorded(text) => Some(text)
      case _ => LastResponse(Init(log))
  }

  /** The turn that has started and not ended. */
  function TurnOf(log: seq<Event>): Option<TurnId> {
    if log == [] then None
    else
      match log[|log| - 1].payload
      case TurnStarted => log[|log| - 1].turnId
      case TurnCompleted(_) => None
      case TurnFailed(_) => None
      case TurnCancelled => None
      case TurnTimedOut => None
      case _ => TurnOf(Init(log))
  }

  /** The input no turn has started on. */
  function WaitingInput(log: seq<Event>): Option<Text> {
    if log == [] then None
    else
      match log[|log| - 1].payload
      case UserInputRecorded(input) => Some(input)
      case TurnStarted => None
      case _ => WaitingInput(Init(log))
  }

  /** The calls requested in the latest turn, in order. */
  function CallsAsked(log: seq<Event>): seq<CallId> {
    if log == [] then []
    else
      match log[|log| - 1].payload
      case TurnStarted => []
      case ToolRequested(id, _, _, _) => CallsAsked(Init(log)) + [id]
      case _ => CallsAsked(Init(log))
  }

  function StatusOf(log: seq<Event>): SessionStatus {
    if log == [] then Idle
    else
      match log[|log| - 1].payload
      case TurnStarted => Running
      case TurnFailed(_) => Stopped
      case UserInputRecorded(_) => Idle
      case TurnCompleted(_) => Idle
      case TurnCancelled => Idle
      case TurnTimedOut => Idle
      case _ => StatusOf(Init(log))
  }

  /** The items an event adds to the history of the log before it. */
  function ItemsOf(log: seq<Event>, p: EventPayload): seq<HistoryItem> {
    match p
    case UserInputRecorded(input) => [User(input)]
    case ModelResponseRecorded(text) => [Assistant(text)]
    case ToolCompleted(id, Succeeded(output), _) => CallItem(log, id, output)
    case ToolCompleted(id, Rejected(error), _) => CallItem(log, id, error)
    case ToolCompleted(id, Failed(error), _) => CallItem(log, id, error)
    case TurnCompleted(text) => if LastResponse(log) == Some(text) then [] else [Assistant(text)]
    case _ => []
  }

  function CallItem(log: seq<Event>, id: CallId, shown: Text): seq<HistoryItem> {
    var asked := RequestOf(log, id);
    if asked.Some? then [Tool(id, asked.value.name, asked.value.input, shown)] else []
  }

  function HistoryOf(log: seq<Event>): seq<HistoryItem> {
    if log == [] then [] else HistoryOf(Init(log)) + ItemsOf(Init(log), log[|log| - 1].payload)
  }

  /** Ids and reasoning needed to send the history again; the stored response itself is given up. */
  function GivenUp(c: Option<ProviderContinuation>): Option<ProviderContinuation> {
    match c
    case None => None
    case Some(ProviderContinuation(provider, _, model, endpoint, ids, _, latest, slots)) =>
      if ids.Keys == {} && latest == None && forall i | 0 <= i < |slots| :: slots[i] == None then None
      else Some(ProviderContinuation(provider, None, model, endpoint, ids, 0, latest, slots))
  }

  function ContinuationOf(log: seq<Event>): Option<ProviderContinuation> {
    if log == [] then None
    else
      match log[|log| - 1].payload
      case ProviderContinuationUpdated(c) => c
      case TurnFailed(_) => GivenUp(ContinuationOf(Init(log)))
      case TurnCancelled => GivenUp(ContinuationOf(Init(log)))
      case TurnTimedOut => GivenUp(ContinuationOf(Init(log)))
      case _ => ContinuationOf(Init(log))
  }

  // ------------------------------------------------------------------ the state of the log

  ghost predicate TurnReads(log: seq<Event>, t: TurnState) {
    && t.lastModelResponse == LastResponse(log)
    && t.toolCalls == CallsAsked(log)
    && forall id :: CallReads(log, t, id)
  }

  predicate CallReads(log: seq<Event>, t: TurnState, id: CallId) {
    if id in t.toolNames && id in t.toolInputs
    then RequestOf(log, id) == Some(Request(t.toolNames[id], t.toolInputs[id]))
    else RequestOf(log, id).None?
  }

  /** The state is what the log says. */
  ghost predicate Reads(log: seq<Event>, s: SessionState) {
    && s.lastSeq == |log|
    && s.history == HistoryOf(log)
    && s.continuation == ContinuationOf(log)
    && s.pendingInput == WaitingInput(log)
    && s.status == StatusOf(log)
    && TurnOf(log) == (if s.activeTurn.Some? then Some(s.activeTurn.value.turnId) else None)
    && (s.activeTurn.Some? ==> TurnReads(log, s.activeTurn.value))
  }

  lemma Snoc(log: seq<Event>, e: Event)
    ensures log + [e] != [] && Init(log + [e]) == log && (log + [e])[|log + [e]| - 1] == e
  {
  }

  lemma InitLast(log: seq<Event>)
    requires log != []
    ensures log == Init(log) + [log[|log| - 1]] && log[..|log| - 1 + 1] == log
  {
  }

  lemma CompletionItem(log: seq<Event>, t: TurnState, id: CallId, outcome: ToolOutcome, duration: nat)
    requires TurnReads(log, t) && id in t.toolNames && id in t.toolInputs
    ensures ItemsOf(log, ToolCompleted(id, outcome, duration)) == [ResultItem(t, id, outcome)]
  {
    assert CallReads(log, t, id);
  }

  /** What a transition of the turn adds to the history is what the event adds. */
  lemma HistoryStep(log: seq<Event>, s: SessionState, t: TurnState, p: EventPayload)
    requires s.activeTurn == Some(t) && TurnInvariant(t) && TurnReads(log, t) && ReduceTurn(s, t, p).ok
    ensures ReduceTurn(s, t, p).state.history == s.history + ItemsOf(log, p)
  {
    if p.ToolCompleted? {
      CompletionItem(log, t, p.callId, p.outcome, p.durationMs);
    }
  }

  lemma CallStepReads(log: seq<Event>, t: TurnState, e: Event, id: CallId)
    requires CallReads(log, t, id) && SharedKeys(t) && StepFits(t, e.payload) && !e.payload.TurnStarted?
    ensures CallReads(log + [e], TurnAfter(t, e.payload), id)
  {
    Snoc(log, e);
  }

  lemma OpenTurnReads(log: seq<Event>, t: TurnState, e: Event)
    requires TurnReads(log, t) && SharedKeys(t) && StepFits(t, e.payload) && !e.payload.TurnStarted?
    ensures TurnReads(log + [e], TurnAfter(t, e.payload))
  {
    Snoc(log, e);
    forall id ensures CallReads(log + [e], TurnAfter(t, e.payload), id) {
      CallStepReads(log, t, e, id);
    }
  }

  lemma CursorReset(c: Option<ProviderContinuation>)
    ensures ReplayOnly(c) == GivenUp(c)
  {
  }

  lemma ContinuationStep(log: seq<Event>, s: SessionState, t: TurnState, e: Event)
    requires s.activeTurn == Some(t) && ReduceTurn(s, t, e.payload).ok && s.continuation == ContinuationOf(log)
    ensures ReduceTurn(s, t, e.payload).state.continuation == ContinuationOf(log + [e])
  {
    Snoc(log, e);
    CursorReset(s.continuation);
  }

  lemma StatusStep(log: seq<Event>, s: SessionState, t: TurnState, e: Event)
    requires s.activeTurn == Some(t) && ReduceTurn(s, t, e.payload).ok
    requires s.pendingInput == WaitingInput(log) && s.status == StatusOf(log)
    ensures ReduceTurn(s, t, e.payload).state.pendingInput == WaitingInput(log + [e])
    ensures ReduceTurn(s, t, e.payload).state.status == StatusOf(log + [e])
  {
    Snoc(log, e);
  }

  lemma TurnIdStep(log: seq<Event>, s: SessionState, t: TurnState, e: Event)
    requires s.activeTurn == Some(t) && ReduceTurn(s, t, e.payload).ok && TurnOf(log) == Some(t.turnId)
    ensures var s' := ReduceTurn(s, t, e.payload).state;
            TurnOf(log + [e]) == (if s'.activeTurn.Some? then Some(s'.activeTurn.value.turnId) else None)
  {
    Snoc(log, e);
  }

  lemma TurnStepReads(log: seq<Event>, s: SessionState, t: TurnState, e: Event)
    requires Reads(log, s) && s.activeTurn == Some(t) && TurnInvariant(t) && ReduceTurn(s, t, e.payload).ok
    ensures Reads(log + [e], ReduceTurn(s, t, e.payload).state.(lastSeq := |log| + 1))
  {
    var s' := ReduceTurn(s, t, e.payload).state;
    Snoc(log, e);
    HistoryStep(log, s, t, e.payload);
    ContinuationStep(log, s, t, e);
    StatusStep(log, s, t, e);
    TurnIdStep(log, s, t, e);
    if s'.activeTurn.Some? {
      TurnAfterStep(s, t, e.payload);
      OpenTurnReads(log, t, e);
    }
  }

  lemma StepReads(log: seq<Event>, s: SessionState, e: Event)
    requires Reads(log, s) && Invariant(s) && Reduce(s, e).ok
    ensures Reads(log + [e], Reduce(s, e).state)
  {
    Snoc(log, e);
    match e.payload {
      case SessionCreated =>
      case UserInputRecorded(_) =>
      case TurnStarted =>
      case _ => TurnStepReads(log, s, s.activeTurn.value, e);
    }
  }

  lemma NothingReads(sid: SessionId)
    ensures Reads([], NewSession(sid))
  {
  }

  /** Every accepted log reads as its state. */
  lemma {:induction false} StateOfLog(sid: SessionId, log: seq<Event>)
    requires Replay(NewSession(sid), log).Some?
    ensures Reads(log, Replay(NewSession(sid), log).value)
    decreases |log|
  {
    if log == [] {
      NothingReads(sid);
    } else {
      var before, last := LastStep(sid, log);
      StateOfLog(sid, Init(log));
      StepReads(Init(log), before, last);
    }
  }

  /** An accepted log as one step from the log before its last event. */
  lemma LastStep(sid: SessionId, log: seq<Event>) returns (before: SessionState, last: Event)
    requires log != [] && Replay(NewSession(sid), log).Some?
    ensures log == Init(log) + [last] && Replay(NewSession(sid), Init(log)) == Some(before)
    ensures Invariant(before) && Reduce(before, last).ok
    ensures Replay(NewSession(sid), log) == Some(Reduce(before, last).state)
  {
    before := ReplayAt(NewSession(sid), log, |log| - 1);
    last := log[|log| - 1];
    InitLast(log);
    ReachableInvariant(sid, Init(log));
  }

  lemma {:induction false} RequestPosition(log: seq<Event>, id: CallId) returns (asked: nat)
    requires RequestOf(log, id).Some?
    ensures TurnBegin(log) <= asked < |log| && log[asked].payload.ToolRequested? && log[asked].payload.callId == id
    ensures RequestOf(log, id) == Some(Request(log[asked].payload.name, log[asked].payload.arguments))
    decreases |log|
  {
    var last := log[|log| - 1].payload;
    if last.ToolRequested? && last.callId == id {
      asked := |log| - 1;
    } else {
      asked := RequestPosition(Init(log), id);
      assert Init(log)[asked] == log[asked] && TurnBegin(Init(log)) == TurnBegin(log);
    }
  }

  /**
   The end of a tool adds exactly one item to the history: the call under its id, with the name and the input it was
   requested with in this turn, and the output or the error message.
   */
  lemma CompletionRecords(sid: SessionId, log: seq<Event>, i: nat) returns (asked: nat)
    requires Replay(NewSession(sid), log).Some? && i < |log| && log[i].payload.ToolCompleted?
    ensures TurnBegin(log[..i]) <= asked < i && log[asked].payload.ToolRequested?
    ensures log[asked].payload.callId == log[i].payload.callId
    ensures Replay(NewSession(sid), log[..i]).Some? && Replay(NewSession(sid), log[..i + 1]).Some?
    ensures var shown := match log[i].payload.outcome
                         case Succeeded(output) => output
                         case Rejected(error) => error
                         case Failed(error) => error;
            Replay(NewSession(sid), log[..i + 1]).value.history == Replay(NewSession(sid), log[..i]).value.history
              + [Tool(log[i].payload.callId, log[asked].payload.name, log[asked].payload.arguments, shown)]
  {
    var before := ReplayAt(NewSession(sid), log, i);
    asked := CompletionGrows(sid, log[..i], before, log[i]);
  }

  lemma CompletionStep(s: SessionState, e: Event) returns (t: TurnState)
    requires e.payload.ToolCompleted? && Reduce(s, e).ok
    ensures s.activeTurn == Some(t) && ReduceTurn(s, t, e.payload).ok
    ensures Reduce(s, e).state.history == ReduceTurn(s, t, e.payload).state.history
    ensures e.payload.callId in t.executions
  {
    t := s.activeTurn.value;
  }

  function MessageOf(outcome: ToolOutcome): Text {
    match outcome
    case Succeeded(output) => output
    case Rejected(error) => error
    case Failed(error) => error
  }

  lemma CompletionAsked(log: seq<Event>, s: SessionState, t: TurnState, p: EventPayload) returns (asked: nat)
    requires s.activeTurn == Some(t) && TurnInvariant(t) && TurnReads(log, t)
    requires p.ToolCompleted? && p.callId in t.executions && ReduceTurn(s, t, p).ok
    ensures TurnBegin(log) <= asked < |log| && log[asked].payload.ToolRequested?
    ensures log[asked].payload.callId == p.callId
    ensures ReduceTurn(s, t, p).state.history
              == s.history + [Tool(p.callId, log[asked].payload.name, log[asked].payload.arguments,
                     MessageOf(p.outcome))]
  {
    HistoryStep(log, s, t, p);
    assert CallReads(log, t, p.callId);
    asked := RequestPosition(log, p.callId);
  }

  lemma CompletionGrows(sid: SessionId, log: seq<Event>, s: SessionState, e: Event) returns (asked: nat)
    requires Replay(NewSession(sid), log) == Some(s) && e.payload.ToolCompleted? && Reduce(s, e).ok
    ensures TurnBegin(log) <= asked < |log| && log[asked].payload.ToolRequested?
    ensures log[asked].payload.callId == e.payload.callId
    ensures Reduce(s, e).state.history
              == s.history + [Tool(e.payload.callId, log[asked].payload.name, log[asked].payload.arguments,
                     MessageOf(e.payload.outcome))]
  {
    ReachableInvariant(sid, log);
    StateOfLog(sid, log);
    var t := CompletionStep(s, e);
    asked := CompletionAsked(log, s, t, e.payload);
  }

  // ------------------------------------------------------------------ the event a log takes next

  predicate Room(items: seq<HistoryItem>) {
    |EncodeHistory(items)| <= 8 * 1024 * 1024
  }

  /** What the events of the turn say of a call when the next event about it is in place. */
  predicate CallTakes(w: seq<CallStep>, step: CallStep) {
    match step
    case Ask(_) => w == []
    case Answer(_) => w == [Ask(true)] || w == [Ask(true), Lost]
    case End(_) => w == [Ask(false)] || (|w| == 2 && w[0] == Ask(true) && w[1].Answer?)
    case Lost => w == [Ask(false)] || w == [Ask(true)] || (|w| == 2 && w[0] == Ask(true) && w[1].Answer?)
  }

  /** The place of an event among the turns of a session. */
  predicate InPlace(log: seq<Event>, e: Event) {
    match e.payload
    case SessionCreated => log == [] && e.turnId == None
    case UserInputRecorded(_) =>
      log != [] && e.turnId == None && TurnOf(log) == None && WaitingInput(log) == None
    case TurnStarted =>
      log != [] && e.turnId.Some? && TurnOf(log) == None && WaitingInput(log).Some?
    case _ => TurnOf(log).Some? && e.turnId == TurnOf(log)
  }

  /** What an event of a turn must find, beside its turn. */
  ghost predicate TurnTakes(log: seq<Event>, p: EventPayload) {
    match p
    case ToolRequested(id, _, _, ask) => CallTakes(Word(log, id), Ask(ask))
    case ToolApprovalResponded(id, approved) => CallTakes(Word(log, id), Answer(approved))
    case ToolCompleted(id, outcome, _) => CallTakes(Word(log, id), End(outcome))
    case ToolOutcomeUnknown(id, _) => CallTakes(Word(log, id), Lost)
    case ProviderContinuationUpdated(c) =>
      c.Some? ==> c.value.historyCursor <= |HistoryOf(log)| && |c.value.nativeCallIds| <= 32
    case TurnCompleted(_) => AllClosed(log)
    case _ => true
  }

  /** The next event of a log. */
  ghost predicate Takes(sid: SessionId, log: seq<Event>, e: Event) {
    && e.sessionId == sid && e.seqNo == |log| + 1
    && InPlace(log, e)
    && TurnTakes(log, e.payload)
    && Room(HistoryOf(log) + ItemsOf(log, e.payload))
  }

  lemma AnswerTakesIff(t: TurnState, id: CallId, w: seq<CallStep>, approved: bool)
    requires TurnInvariant(t) && Spells(t, id, w)
    ensures AwaitsApproval(t, id) <==> CallTakes(w, Answer(approved))
  {
    if AwaitsApproval(t, id) {
      assert AnswerPart(t, id) == [] && (EndPart(t, id) == [] || EndPart(t, id) == [Lost]);
      assert w == [Ask(true)] + EndPart(t, id);
      assert [Ask(true)] + [] == [Ask(true)] && [Ask(true)] + [Lost] == [Ask(true), Lost];
    } else if id in t.approvals {
      var answer, end := AnswerPart(t, id), EndPart(t, id);
      assert |answer| == 1 && answer[0].Answer? && |w| == 2 + |end|;
      assert |end| == 0 ==> w == [Ask(true)] + answer + end && w[1] == answer[0];
    } else {
      assert w != [] ==> w[0] == Ask(false);
    }
  }

  lemma AskTakesIff(t: TurnState, id: CallId, w: seq<CallStep>, ask: bool)
    requires TurnInvariant(t) && Spells(t, id, w)
    ensures id !in t.executions <==> CallTakes(w, Ask(ask))
  {
  }

  lemma EndTakesIff(t: TurnState, id: CallId, w: seq<CallStep>, outcome: ToolOutcome)
    requires TurnInvariant(t) && Spells(t, id, w)
    ensures IsPending(t, id) && !AwaitsApproval(t, id) <==> CallTakes(w, End(outcome))
  {
    if id in t.executions {
      assert |w| == 1 + |AnswerPart(t, id)| + |EndPart(t, id)| && w[0] == Ask(id in t.approvals);
    }
  }

  lemma LossTakesIff(t: TurnState, id: CallId, w: seq<CallStep>)
    requires TurnInvariant(t) && Spells(t, id, w)
    ensures IsPending(t, id) <==> CallTakes(w, Lost)
  {
    if id in t.executions {
      assert |w| == 1 + |AnswerPart(t, id)| + |EndPart(t, id)| && w[0] == Ask(id in t.approvals);
    }
  }

  // ------------------------------------------------------------------ the verdict on each event of a turn

  /** An accepted log in the middle of a turn, with its state. */
  ghost predicate MidTurn(sid: SessionId, log: seq<Event>, s: SessionState, t: TurnState) {
    && Replay(NewSession(sid), log) == Some(s)
    && s.activeTurn == Some(t)
    && Invariant(s)
    && Reads(log, s)
  }

  ghost predicate TurnVerdict(log: seq<Event>, s: SessionState, t: TurnState, p: EventPayload) {
    ReduceTurn(s, t, p).ok <==> TurnTakes(log, p) && Room(HistoryOf(log) + ItemsOf(log, p))
  }

  lemma NothingAdded(log: seq<Event>, s: SessionState)
    requires Invariant(s) && s.history == HistoryOf(log)
    ensures Room(HistoryOf(log)) && HistoryOf(log) + [] == HistoryOf(log)
  {
  }

  lemma ResponseVerdict(sid: SessionId, log: seq<Event>, s: SessionState, t: TurnState, p: EventPayload)
    requires MidTurn(sid, log, s, t) && p.ModelResponseRecorded?
    ensures TurnVerdict(log, s, t, p)
  {
    PushKeepsSize(s.(activeTurn := Some(t.(lastModelResponse := Some(p.text)))), Assistant(p.text));
  }

  lemma EndVerdict(sid: SessionId, log: seq<Event>, s: SessionState, t: TurnState, p: EventPayload)
    requires MidTurn(sid, log, s, t) && p.ToolCompleted?
    ensures TurnVerdict(log, s, t, p)
  {
    WordMatchesState(sid, log, p.callId);
    EndTakesIff(t, p.callId, Word(log, p.callId), p.outcome);
    if IsPending(t, p.callId) && !AwaitsApproval(t, p.callId) {
      CompletionItem(log, t, p.callId, p.outcome, p.durationMs);
      PushKeepsSize(s.(activeTurn := Some(Concluded(t, p.callId, p.outcome))), ResultItem(t, p.callId, p.outcome));
    }
  }

  lemma FinishFits(log: seq<Event>, s: SessionState, t: TurnState, text: Text)
    requires Invariant(s) && s.activeTurn == Some(t) && s.history == HistoryOf(log)
    requires t.lastModelResponse == LastResponse(log)
    ensures Finish(s, t, text).ok <==> Room(HistoryOf(log) + ItemsOf(log, TurnCompleted(text)))
  {
    NothingAdded(log, s);
    PushKeepsSize(s.(activeTurn := Some(t.(status := Finished, finalText := Some(text)))), Assistant(text));
  }

  lemma FinishNeeds(s: SessionState, t: TurnState, text: Text)
    ensures ReduceTurn(s, t, TurnCompleted(text)).ok <==> AllSettled(t) && Finish(s, t, text).ok
  {
  }

  lemma FinishVerdict(sid: SessionId, log: seq<Event>, s: SessionState, t: TurnState, p: EventPayload)
    requires MidTurn(sid, log, s, t) && p.TurnCompleted?
    ensures TurnVerdict(log, s, t, p)
  {
    FinishFits(log, s, t, p.text);
    FinishNeeds(s, t, p.text);
    ActiveWords(sid, log, t);
  }

  lemma CallVerdict(sid: SessionId, log: seq<Event>, s: SessionState, t: TurnState, p: EventPayload)
    requires MidTurn(sid, log, s, t)
    requires p.ToolRequested? || p.ToolApprovalResponded? || p.ToolOutcomeUnknown?
    ensures TurnVerdict(log, s, t, p)
  {
    NothingAdded(log, s);
    WordMatchesState(sid, log, p.callId);
    match p {
      case ToolRequested(id, _, _, ask) => AskTakesIff(t, id, Word(log, id), ask);
      case ToolApprovalResponded(id, approved) => AnswerTakesIff(t, id, Word(log, id), approved);
      case ToolOutcomeUnknown(id, _) => LossTakesIff(t, id, Word(log, id));
    }
  }

  lemma ContinuationVerdict(sid: SessionId, log: seq<Event>, s: SessionState, t: TurnState, p: EventPayload)
    requires MidTurn(sid, log, s, t) && p.ProviderContinuationUpdated?
    ensures TurnVerdict(log, s, t, p)
  {
    NothingAdded(log, s);
  }

  predicate Unconditional(p: EventPayload) {
    p.ProviderAttemptRecorded? || p.TurnFailed? || p.TurnCancelRequested? || p.TurnCancelled? || p.TurnTimedOut?
  }

  lemma OtherAccepted(s: SessionState, t: TurnState, p: EventPayload)
    requires Unconditional(p)
    ensures ReduceTurn(s, t, p).ok
  {
  }

  lemma OtherVerdict(sid: SessionId, log: seq<Event>, s: SessionState, t: TurnState, p: EventPayload)
    requires MidTurn(sid, log, s, t) && Unconditional(p)
    ensures TurnVerdict(log, s, t, p)
  {
    NothingAdded(log, s);
    OtherAccepted(s, t, p);
    assert ItemsOf(log, p) == [] && TurnTakes(log, p);
  }

  lemma AnyTurnVerdict(sid: SessionId, log: seq<Event>, s: SessionState, t: TurnState, p: EventPayload)
    requires MidTurn(sid, log, s, t)
    requires !p.SessionCreated? && !p.UserInputRecorded? && !p.TurnStarted?
    ensures TurnVerdict(log, s, t, p)
  {
    if p.ModelResponseRecorded? {
      ResponseVerdict(sid, log, s, t, p);
    } else if p.ToolCompleted? {
      EndVerdict(sid, log, s, t, p);
    } else if p.TurnCompleted? {
      FinishVerdict(sid, log, s, t, p);
    } else if p.ToolRequested? || p.ToolApprovalResponded? || p.ToolOutcomeUnknown? {
      CallVerdict(sid, log, s, t, p);
    } else if p.ProviderContinuationUpdated? {
      ContinuationVerdict(sid, log, s, t, p);
    } else {
      OtherVerdict(sid, log, s, t, p);
    }
  }

  lemma OpeningTakesIff(sid: SessionId, log: seq<Event>, s: SessionState, e: Event)
    requires Invariant(s) && Reads(log, s) && s.sessionId == sid
    requires e.payload.SessionCreated? || e.payload.UserInputRecorded? || e.payload.TurnStarted?
    ensures Reduce(s, e).ok <==> Takes(sid, log, e)
  {
    NothingAdded(log, s);
    if e.payload.UserInputRecorded? { PushKeepsSize(s, User(e.payload.input)); }
  }

  /**
   The grammar of accepted logs: which event a log takes next, in terms of the events it holds. With the empty log,
   this says of every list of events whether it is accepted.
   */
  lemma AcceptedIff(sid: SessionId, log: seq<Event>, e: Event)
    requires Replay(NewSession(sid), log).Some?
    ensures Replay(NewSession(sid), log + [e]).Some? <==> Takes(sid, log, e)
  {
    var s := Replay(NewSession(sid), log).value;
    ReplaySnoc(NewSession(sid), log, e);
    ReplayLength(NewSession(sid), log);
    ReachableInvariant(sid, log);
    StateOfLog(sid, log);
    if e.payload.SessionCreated? || e.payload.UserInputRecorded? || e.payload.TurnStarted? {
      OpeningTakesIff(sid, log, s, e);
    } else if s.activeTurn.Some? {
      AnyTurnVerdict(sid, log, s, s.activeTurn.value, e.payload);
    }
  }
}
