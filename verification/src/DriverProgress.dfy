/**
 What a driver of the protocol achieves: which events it offers, what it holds after winning or losing a race, after a
 restore and after starting a tool; and a run in which a tool is started, so that the safety results are not about
 drivers that stand still.
 */
module DriverProgress {
  import opened Bytes
  import opened Options
  import opened State
  import opened HistoryJson
  import opened Reducer
  import opened DriverProtocol

  /** The driver holds the fold of the whole log. */
  predicate UpToDate(log: seq<Event>, driver: Driver) {
    && driver.Live?
    && driver.memory.lastSeq == |log|
    && Replay(NewSession(driver.memory.sessionId), log) == Some(driver.memory)
  }

  /** The events that let a driver start a tool. */
  predicate LetsRun(p: EventPayload) {
    match p
    case ToolRequested(_, _, _, asks) => !asks
    case ToolApprovalResponded(_, approved) => approved
    case _ => false
  }

  predicate LiveReady(w: World, d: nat) {
    d < |w.drivers| && w.drivers[d].Live? && w.drivers[d].phase.Ready?
  }

  predicate LiveSpeculating(w: World, d: nat) {
    d < |w.drivers| && w.drivers[d].Live? && w.drivers[d].phase.Speculating?
  }

  /** A driver whose memory reaches as far as the log holds the fold of all of it. */
  lemma WholeMemory(w: World, d: nat)
    requires WorldInvariant(w) && d < |w.drivers| && w.drivers[d].Live? && w.drivers[d].memory.lastSeq == |w.log|
    ensures UpToDate(w.log, w.drivers[d])
  {
    assert DriverInvariant(w.log, w.drivers[d]);
    assert w.log[..|w.log|] == w.log;
  }

  lemma OfferMade(log: seq<Event>, memory: SessionState, a: Action, e: Event)
    requires a.Check? && memory.lastSeq == |log| && Replay(NewSession(memory.sessionId), log) == Some(memory)
    requires e == Event(a.eventId, |log| + 1, a.timestamp, memory.sessionId, a.turn, a.payload)
    ensures var next := NextDriver(log, Live(memory, Ready), a);
            if Replay(NewSession(memory.sessionId), log + [e]).Some?
            then Offers(next, e, a.runsTool && LetsRun(a.payload)) && next.memory == memory
            else next == Live(memory, Ready)
  {
    ReplaySnoc(NewSession(memory.sessionId), log, e);
  }

  /** The driver is about to store the event, and may start a tool on its account. */
  predicate Offers(driver: Driver, e: Event, startsTool: bool) {
    driver.Live? && driver.phase.Speculating? && driver.phase.event == e && driver.phase.startsTool == startsTool
  }

  /** An event is offered exactly when the driver has seen the whole log and the log with the event is accepted. */
  lemma OfferedIff(w: World, d: nat, eventId: Bytes, timestamp: int, turn: Option<TurnId>, payload: EventPayload,
      runsTool: bool)
    requires WorldInvariant(w) && LiveReady(w, d)
    ensures var driver := w.drivers[d];
            var e := Event(eventId, |w.log| + 1, timestamp, driver.memory.sessionId, turn, payload);
            var w' := Next(w, Check(d, eventId, timestamp, turn, payload, runsTool));
            && w'.log == w.log && w'.runs == w.runs && |w'.drivers| == |w.drivers|
            && (if driver.memory.lastSeq == |w.log| && Replay(NewSession(driver.memory.sessionId), w.log + [e]).Some?
                then Offers(w'.drivers[d], e, runsTool && LetsRun(payload)) && w'.drivers[d].memory == driver.memory
                else w'.drivers[d] == driver)
  {
    var driver := w.drivers[d];
    if driver.memory.lastSeq == |w.log| {
      WholeMemory(w, d);
      OfferMade(w.log, driver.memory, Check(d, eventId, timestamp, turn, payload, runsTool),
                Event(eventId, |w.log| + 1, timestamp, driver.memory.sessionId, turn, payload));
    }
  }

  /** A driver that wins the race has its event at the end of the log, holds the fold of all of it, and may go on. */
  lemma WinnerAdopts(w: World, d: nat)
    requires WorldInvariant(w) && LiveSpeculating(w, d) && w.drivers[d].phase.event.seqNo == |w.log| + 1
    ensures var phase, w' := w.drivers[d].phase, Next(w, Store(d));
            && w'.log == w.log + [phase.event] && w'.runs == w.runs
            && UpToDate(w'.log, w'.drivers[d])
            && w'.drivers[d].phase == if phase.startsTool then Authorized(|w.log|) else Ready
  {
    var phase := w.drivers[d].phase;
    assert DriverInvariant(w.log, w.drivers[d]);
    assert phase.event.(seqNo := |w.log| + 1) == phase.event;
    StoreKeepsFold(w.log, w.drivers[d].memory, phase.event, phase.next);
    NextKeepsInvariant(w, Store(d));
    assert Next(w, Store(d)).drivers[d].memory == phase.next;
    ReduceEnvelope(w.drivers[d].memory, phase.event);
    WholeMemory(Next(w, Store(d)), d);
  }

  /** One accepted append from end to end, with nobody in between: the log holds the event and memory has it. */
  lemma Commits(w: World, d: nat, eventId: Bytes, timestamp: int, turn: Option<TurnId>, payload: EventPayload,
      runsTool: bool)
    requires WorldInvariant(w) && LiveReady(w, d) && w.drivers[d].memory.lastSeq == |w.log|
    requires var e := Event(eventId, |w.log| + 1, timestamp, w.drivers[d].memory.sessionId, turn, payload);
             Replay(NewSession(w.drivers[d].memory.sessionId), w.log + [e]).Some?
    ensures var e := Event(eventId, |w.log| + 1, timestamp, w.drivers[d].memory.sessionId, turn, payload);
            var w' := Next(Next(w, Check(d, eventId, timestamp, turn, payload, runsTool)), Store(d));
            && w'.log == w.log + [e] && w'.runs == w.runs && WorldInvariant(w')
            && |w'.drivers| == |w.drivers| && UpToDate(w'.log, w'.drivers[d])
            && w'.drivers[d].memory.sessionId == w.drivers[d].memory.sessionId
            && w'.drivers[d].phase == if runsTool && LetsRun(payload) then Authorized(|w.log|) else Ready
  {
    var check := Check(d, eventId, timestamp, turn, payload, runsTool);
    OfferedIff(w, d, eventId, timestamp, turn, payload, runsTool);
    NextKeepsInvariant(w, check);
    StoresOffered(Next(w, check), d,
        Event(eventId, |w.log| + 1, timestamp, w.drivers[d].memory.sessionId, turn, payload),
        runsTool && LetsRun(payload));
  }

  lemma StoresOffered(w: World, d: nat, e: Event, startsTool: bool)
    requires WorldInvariant(w) && d < |w.drivers| && Offers(w.drivers[d], e, startsTool) && e.seqNo == |w.log| + 1
    ensures var w' := Next(w, Store(d));
            && w'.log == w.log + [e] && w'.runs == w.runs && WorldInvariant(w')
            && |w'.drivers| == |w.drivers| && UpToDate(w'.log, w'.drivers[d])
            && w'.drivers[d].memory.sessionId == w.drivers[d].memory.sessionId
            && w'.drivers[d].phase == if startsTool then Authorized(|w.log|) else Ready
  {
    WinnerAdopts(w, d);
    NextKeepsInvariant(w, Store(d));
    SessionStays(w, d);
  }

  lemma SessionStays(w: World, d: nat)
    requires WorldInvariant(w) && LiveSpeculating(w, d)
    ensures w.drivers[d].phase.next.sessionId == w.drivers[d].memory.sessionId
  {
    assert DriverInvariant(w.log, w.drivers[d]);
    ReduceEnvelope(w.drivers[d].memory, w.drivers[d].phase.event);
  }

  /**
   A restore brings a dead driver back with the fold of the whole log, exactly when the log is one of the session, is
   accepted, and did not grow between the two looks at it.
   */
  lemma RestoredIff(w: World, d: nat, session: SessionId, others: seq<Action>)
    requires d < |w.drivers| && w.drivers[d].Dead? && forall i | 0 <= i < |others| :: others[i].d != d
    ensures var before := Execute(Next(w, RestoreRead(d, session)), others);
            var after := Next(before, RestoreCheck(d));
            && after.log == before.log && after.runs == before.runs && d < |after.drivers|
            && (if w.log != [] && w.log[0].sessionId == session && Replay(NewSession(session), w.log).Some?
                    && |before.log| == |w.log|
                then UpToDate(after.log, after.drivers[d]) && after.drivers[d].phase == Ready
                    && after.drivers[d].memory.sessionId == session
                else after.drivers[d].Dead?)
  {
    var read := Next(w, RestoreRead(d, session));
    UntouchedDriver(read, d, others);
    ExecutionGrowsLog(read, others);
    RestoredDriver(w.log, Execute(read, others).log, d, session);
  }

  lemma RestoredDriver(log: seq<Event>, later: seq<Event>, d: nat, session: SessionId)
    requires log <= later
    ensures var after := NextDriver(later, NextDriver(log, Dead, RestoreRead(d, session)), RestoreCheck(d));
            if log != [] && log[0].sessionId == session && Replay(NewSession(session), log).Some? && |later| == |log|
            then UpToDate(later, after) && after.phase == Ready && after.memory.sessionId == session
            else after.Dead?
  {
    if Replay(NewSession(session), log).Some? {
      WholeFold(log, session);
      ReplayLength(NewSession(session), log);
      assert |later| == |log| ==> later == log;
    }
  }

  /** A store error leaves memory alone, whether the event has become durable or not. */
  lemma StoreErrorKeepsMemory(w: World, d: nat)
    requires LiveSpeculating(w, d)
    ensures var driver := w.drivers[d];
            && Next(w, StoreFails(d)) == w.(drivers := w.drivers[d := Live(driver.memory, Ready)])
            && Next(w, StoreLost(d)) == w.(log := w.log + [driver.phase.event.(seqNo := |w.log| + 1)],
                 drivers := w.drivers[d := Live(driver.memory, Ready)])
  {
  }

  /** An authorized driver starts its tool once; nothing else starts one, and a crash starts none. */
  lemma StartsOnce(w: World, d: nat)
    requires d < |w.drivers| && IsAuthorized(w.drivers[d])
    ensures var w' := Next(w, StartTool(d));
            && w'.runs == w.runs + [Run(d, w.drivers[d].phase.position)] && w'.log == w.log
            && LiveReady(w', d) && w'.drivers[d].memory == w.drivers[d].memory
            && Next(w', StartTool(d)) == w'
    ensures Next(w, Crash(d)).runs == w.runs && Next(w, Crash(d)).drivers[d].Dead?
  {
    var w' := Next(w, StartTool(d));
    assert w'.drivers[d := w'.drivers[d]] == w'.drivers;
  }

  /** Failing to read the log again after a lost race leaves memory as it was. */
  lemma RecoveryFails(w: World, d: nat)
    requires d < |w.drivers| && w.drivers[d].Live? && w.drivers[d].phase.Recovering?
    ensures Next(w, RecoverFails(d)) == w.(drivers := w.drivers[d := Live(w.drivers[d].memory, Ready)])
  {
  }

  /** The drivers an action is for. */
  predicate Enabled(driver: Driver, a: Action) {
    match driver
    case Dead => a.Create? || a.RestoreRead?
    case Restoring(_) => a.RestoreCheck? || a.Crash?
    case Live(_, Ready) => a.Check? || a.Crash?
    case Live(_, Speculating(_, _, _)) => a.Store? || a.StoreFails? || a.StoreLost? || a.Crash?
    case Live(_, Recovering) => a.Recover? || a.RecoverFails? || a.Crash?
    case Live(_, Authorized(_)) => a.StartTool? || a.Crash?
  }

  /** Any other action does nothing. */
  lemma NotEnabled(w: World, a: Action)
    requires a.d < |w.drivers| ==> !Enabled(w.drivers[a.d], a)
    ensures Next(w, a) == w
  {
    if a.d < |w.drivers| { assert w.drivers[a.d := w.drivers[a.d]] == w.drivers; }
  }

  lemma RunsNeedStart(w: World, a: Action)
    requires !a.StartTool?
    ensures Next(w, a).runs == w.runs
  {
  }

  // ------------------------------------------------------------------ a run with a tool

  lemma ExecuteSnoc(w: World, actions: seq<Action>, a: Action)
    ensures Execute(w, actions + [a]) == Next(Execute(w, actions), a)
  {
    assert (actions + [a])[..|actions|] == actions;
  }

  function Offer(turn: Option<TurnId>, payload: EventPayload): Action {
    Check(0, [], 0, turn, payload, true)
  }

  /** The world of one driver that is done with its latest event. */
  predicate Rests(w: World, log: seq<Event>, memory: SessionState, phase: Phase) {
    w == World(log, [Live(memory, phase)], [])
  }

  lemma Extend(actions: seq<Action>, log: seq<Event>, s: SessionState, turn: Option<TurnId>, payload: EventPayload,
      next: SessionState) returns (more: seq<Action>)
    requires Rests(Execute(Start(1), actions), log, s, Ready) && s.lastSeq == |log|
    requires Reduce(s, Event([], |log| + 1, 0, s.sessionId, turn, payload)) == Outcome(next, true)
    ensures Rests(Execute(Start(1), more), log + [Event([], |log| + 1, 0, s.sessionId, turn, payload)], next,
              if LetsRun(payload) then Authorized(|log|) else Ready)
  {
    more := actions + [Offer(turn, payload)] + [Store(0)];
    ExecuteSnoc(Start(1), actions, Offer(turn, payload));
    ExecuteSnoc(Start(1), actions + [Offer(turn, payload)], Store(0));
  }

  /** The states of a session that is created, gets an empty input, and starts a turn on it. */
  function Created(): SessionState {
    NewSession([]).(lastSeq := 1)
  }

  function Given(): SessionState {
    Created().(history := [User([])], pendingInput := Some([]), lastSeq := 2,
               historyBytes := 2 + |EncodeItem(User([]))|)
  }

  function Turned(): SessionState {
    Given().(pendingInput := None, activeTurn := Some(NewTurn([])), status := Running, lastSeq := 3)
  }

  /** Nothing keeps a driver from getting a tool to run: this execution of the protocol starts one. */
  lemma SomeToolRuns() returns (actions: seq<Action>)
    ensures var w := Execute(Start(1), actions);
            w.runs == [Run(0, 3)] && |w.log| == 4 && w.log[3].payload == ToolRequested([], [], [], false)
  {
    actions := [Create(0, [])];
    assert [Create(0, [])][..0] == [];
    assert Rests(Execute(Start(1), actions), [], NewSession([]), Ready);
    actions := Extend(actions, [], NewSession([]), None, SessionCreated, Created());
    var log := Execute(Start(1), actions).log;
    actions := Extend(actions, log, Created(), None, UserInputRecorded([]), Given());
    log := Execute(Start(1), actions).log;
    actions := Extend(actions, log, Given(), Some([]), TurnStarted, Turned());
    log := Execute(Start(1), actions).log;
    var call := ToolRequested([], [], [], false);
    var asked := Reduce(Turned(), Event([], 4, 0, [], Some([]), call)).state;
    actions := Extend(actions, log, Turned(), Some([]), call, asked);
    ExecuteSnoc(Start(1), actions, StartTool(0));
    actions := actions + [StartTool(0)];
  }
}
