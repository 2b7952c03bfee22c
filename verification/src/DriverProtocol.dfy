/**
 Any number of agent drivers over one append-only event store, at the grain at which they interleave:
 the sequence check with the speculative fold, the store append, the recovery after a lost race, the start
 of a tool, crashes and restores. An action that is not enabled, or that the driver answers with an error
 before touching anything, leaves the world as it is.
 */
module DriverProtocol {
  import opened Bytes
  import opened Options
  import opened State
  import opened Reducer

  datatype Phase =
    | Ready
    | Speculating(event: Event, next: SessionState, startsTool: bool)
    | Recovering
    | Authorized(position: nat)

  datatype Driver = Dead | Restoring(read: SessionState) | Live(memory: SessionState, phase: Phase)

  /** A tool body started by a driver on account of the event at `position`. */
  datatype Run = Run(driver: nat, position: nat)

  datatype World = World(log: seq<Event>, drivers: seq<Driver>, runs: seq<Run>)

  datatype Action =
    | Create(d: nat, session: SessionId)
    | RestoreRead(d: nat, session: SessionId)
    | RestoreCheck(d: nat)
    | Check(d: nat, eventId: Bytes, timestamp: int, turn: Option<TurnId>, payload: EventPayload, runsTool: bool)
    | StoreFails(d: nat)
    | StoreLost(d: nat)
    | Store(d: nat)
    | Recover(d: nat)
    | RecoverFails(d: nat)
    | StartTool(d: nat)
    | Crash(d: nat)

  /** The events after which a driver may start a tool: a request that needs no approval, or a granted approval. */
  predicate Authorizing(p: EventPayload) {
    (p.ToolRequested? && !p.requiresApproval) || (p.ToolApprovalResponded? && p.approved)
  }

  function CallOf(p: EventPayload): CallId
    requires p.ToolRequested? || p.ToolApprovalResponded?
  {
    p.callId
  }

  function NextDriver(log: seq<Event>, driver: Driver, a: Action): Driver {
    match a
    case Create(_, session) => if driver.Dead? then Live(NewSession(session), Ready) else driver
    case RestoreRead(_, session) =>
      if driver.Dead? && log != [] && log[0].sessionId == session && Replay(NewSession(session), log).Some?
      then Restoring(Replay(NewSession(session), log).value)
      else driver
    case RestoreCheck(_) =>
      if driver.Restoring? then (if driver.read.lastSeq == |log| then Live(driver.read, Ready) else Dead) else driver
    case Check(_, eventId, timestamp, turn, payload, runsTool) =>
      if !driver.Live? || !driver.phase.Ready? || driver.memory.lastSeq != |log| then driver
      else
        var event := Event(eventId, driver.memory.lastSeq + 1, timestamp, driver.memory.sessionId, turn, payload);
        var out := Reduce(driver.memory, event);
        if out.ok then driver.(phase := Speculating(event, out.state, runsTool && Authorizing(payload))) else driver
    case StoreFails(_) => if driver.Live? && driver.phase.Speculating? then driver.(phase := Ready) else driver
    case StoreLost(_) => if driver.Live? && driver.phase.Speculating? then driver.(phase := Ready) else driver
    case Store(_) =>
      if !driver.Live? || !driver.phase.Speculating? then driver
      else if driver.phase.event.seqNo != |log| + 1 then driver.(phase := Recovering)
      else Live(driver.phase.next, if driver.phase.startsTool then Authorized(|log|) else Ready)
    case Recover(_) =>
      if !driver.Live? || !driver.phase.Recovering? then driver
      else
        var recovered := Replay(NewSession(driver.memory.sessionId), log);
        Live(if recovered.Some? then recovered.value else driver.memory, Ready)
    case RecoverFails(_) => if driver.Live? && driver.phase.Recovering? then driver.(phase := Ready) else driver
    case StartTool(_) => if driver.Live? && driver.phase.Authorized? then driver.(phase := Ready) else driver
    case Crash(_) => Dead
  }

  /**
   The store numbers the event itself, whatever the driver expected; `StoreLost` is an error reported for a durable
   event.
   */
  function NextLog(log: seq<Event>, driver: Driver, a: Action): seq<Event> {
    if (a.Store? || a.StoreLost?) && driver.Live? && driver.phase.Speculating?
    then log + [driver.phase.event.(seqNo := |log| + 1)]
    else log
  }

  function NextRuns(runs: seq<Run>, driver: Driver, a: Action): seq<Run> {
    if a.StartTool? && driver.Live? && driver.phase.Authorized? then runs + [Run(a.d, driver.phase.position)] else runs
  }

  function Next(w: World, a: Action): World {
    if a.d >= |w.drivers| then w
    else
      var driver := w.drivers[a.d];
      World(NextLog(w.log, driver, a), w.drivers[a.d := NextDriver(w.log, driver, a)], NextRuns(w.runs, driver, a))
  }

  function Execute(w: World, actions: seq<Action>): World {
    if actions == [] then w else Next(Execute(w, actions[..|actions| - 1]), actions[|actions| - 1])
  }

  /** An empty store and n drivers that are not running yet. */
  function Start(n: nat): World {
    World([], seq(n, i => Dead), [])
  }

  // ------------------------------------------------------------------ memory is a fold of the log

  predicate FoldsPrefix(log: seq<Event>, s: SessionState) {
    s.lastSeq <= |log| && Replay(NewSession(s.sessionId), log[..s.lastSeq]) == Some(s)
  }

  /** The event at `p` was accepted on top of everything before it, by a driver of its session. */
  predicate AcceptedAt(log: seq<Event>, p: nat) {
    p < |log| && Replay(NewSession(log[p].sessionId), log[..p + 1]).Some?
  }

  predicate DriverInvariant(log: seq<Event>, driver: Driver) {
    match driver
    case Dead => true
    case Restoring(read) => FoldsPrefix(log, read)
    case Live(memory, phase) =>
      && FoldsPrefix(log, memory)
      && (phase.Speculating? ==>
            && Reduce(memory, phase.event) == Outcome(phase.next, true)
            && (phase.startsTool ==> Authorizing(phase.event.payload)))
      && (phase.Authorized? ==> AcceptedAt(log, phase.position) && Authorizing(log[phase.position].payload))
  }

  predicate RunAccepted(log: seq<Event>, run: Run) {
    AcceptedAt(log, run.position) && Authorizing(log[run.position].payload)
  }

  ghost predicate DriversSound(log: seq<Event>, drivers: seq<Driver>) {
    forall d | 0 <= d < |drivers| :: DriverInvariant(log, drivers[d])
  }

  ghost predicate RunsSound(log: seq<Event>, runs: seq<Run>) {
    forall i | 0 <= i < |runs| :: RunAccepted(log, runs[i])
  }

  /** No authorization was used twice, and none that is still held was used before or is held twice. */
  ghost predicate PositionsDistinct(drivers: seq<Driver>, runs: seq<Run>) {
    && (forall i, j | 0 <= i < j < |runs| :: runs[i].position != runs[j].position)
    && (forall d, i | 0 <= d < |drivers| && 0 <= i < |runs| && IsAuthorized(drivers[d]) ::
          drivers[d].phase.position != runs[i].position)
    && (forall d, c | 0 <= d < c < |drivers| && IsAuthorized(drivers[d]) && IsAuthorized(drivers[c]) ::
          drivers[d].phase.position != drivers[c].phase.position)
  }

  ghost predicate WorldInvariant(w: World) {
    DriversSound(w.log, w.drivers) && RunsSound(w.log, w.runs) && PositionsDistinct(w.drivers, w.runs)
  }

  predicate IsAuthorized(driver: Driver) {
    driver.Live? && driver.phase.Authorized?
  }

  lemma ExtensionKeepsFold(log: seq<Event>, e: Event, s: SessionState)
    requires FoldsPrefix(log, s)
    ensures FoldsPrefix(log + [e], s)
  {
    assert (log + [e])[..s.lastSeq] == log[..s.lastSeq];
  }

  lemma ExtensionKeepsAccepted(log: seq<Event>, e: Event, p: nat)
    requires AcceptedAt(log, p)
    ensures AcceptedAt(log + [e], p)
  {
    assert (log + [e])[..p + 1] == log[..p + 1];
  }

  lemma ExtensionKeepsDriver(log: seq<Event>, e: Event, driver: Driver)
    requires DriverInvariant(log, driver)
    ensures DriverInvariant(log + [e], driver)
  {
    match driver {
      case Dead =>
      case Restoring(read) => ExtensionKeepsFold(log, e, read);
      case Live(memory, phase) =>
        ExtensionKeepsFold(log, e, memory);
        if phase.Authorized? { ExtensionKeepsAccepted(log, e, phase.position); }
    }
  }

  lemma WholeFold(log: seq<Event>, sid: SessionId)
    requires Replay(NewSession(sid), log).Some?
    ensures FoldsPrefix(log, Replay(NewSession(sid), log).value)
    ensures Replay(NewSession(sid), log).value.lastSeq == |log|
  {
    ReplayLength(NewSession(sid), log);
    assert log[..|log|] == log;
  }

  lemma CommitFolds(log: seq<Event>, memory: SessionState, event: Event, next: SessionState)
    requires FoldsPrefix(log, memory) && memory.lastSeq == |log| && Reduce(memory, event) == Outcome(next, true)
    ensures FoldsPrefix(log + [event], next) && AcceptedAt(log + [event], |log|)
    ensures event.seqNo == |log| + 1
  {
    assert log[..memory.lastSeq] == log;
    ReplaySnoc(NewSession(memory.sessionId), log, event);
    ReduceEnvelope(memory, event);
    WholeFold(log + [event], memory.sessionId);
    assert (log + [event])[..|log| + 1] == log + [event];
  }

  lemma StoreKeepsFold(log: seq<Event>, memory: SessionState, event: Event, next: SessionState)
    requires FoldsPrefix(log, memory) && Reduce(memory, event) == Outcome(next, true)
    ensures var stored := event.(seqNo := |log| + 1);
            if event.seqNo == |log| + 1
            then stored == event && FoldsPrefix(log + [stored], next) && AcceptedAt(log + [stored], |log|)
            else FoldsPrefix(log + [stored], memory)
  {
    ReduceEnvelope(memory, event);
    if event.seqNo == |log| + 1 {
      assert event.(seqNo := |log| + 1) == event;
      CommitFolds(log, memory, event, next);
    } else {
      ExtensionKeepsFold(log, event.(seqNo := |log| + 1), memory);
    }
  }

  /** What a driver reads of the store is a fold of all of it. */
  lemma ReadingKeepsDriver(log: seq<Event>, driver: Driver, a: Action)
    requires DriverInvariant(log, driver) && (a.Create? || a.RestoreRead? || a.RestoreCheck? || a.Recover?)
    ensures DriverInvariant(log, NextDriver(log, driver, a))
    ensures IsAuthorized(NextDriver(log, driver, a)) ==> NextDriver(log, driver, a) == driver
  {
    assert log[..0] == [];
    if a.RestoreRead? && Replay(NewSession(a.session), log).Some? { WholeFold(log, a.session); }
    if a.Recover? && driver.Live? && Replay(NewSession(driver.memory.sessionId), log).Some? {
      WholeFold(log, driver.memory.sessionId);
    }
  }

  lemma StoringKeepsDriver(log: seq<Event>, driver: Driver, a: Action)
    requires DriverInvariant(log, driver) && (a.Store? || a.StoreLost?)
    ensures DriverInvariant(NextLog(log, driver, a), NextDriver(log, driver, a))
    ensures IsAuthorized(NextDriver(log, driver, a)) ==>
              (a.Store? && NextDriver(log, driver, a).phase.position == |log|) || NextDriver(log, driver, a) == driver
  {
    if driver.Live? && driver.phase.Speculating? {
      StoreKeepsFold(log, driver.memory, driver.phase.event, driver.phase.next);
      ExtensionKeepsFold(log, driver.phase.event.(seqNo := |log| + 1), driver.memory);
    }
  }

  lemma NextDriverInvariant(log: seq<Event>, driver: Driver, a: Action)
    requires DriverInvariant(log, driver)
    ensures DriverInvariant(NextLog(log, driver, a), NextDriver(log, driver, a))
    ensures IsAuthorized(NextDriver(log, driver, a)) ==>
              (a.Store? && NextDriver(log, driver, a).phase.position == |log|) || NextDriver(log, driver, a) == driver
  {
    if a.Store? || a.StoreLost? {
      StoringKeepsDriver(log, driver, a);
    } else if a.Create? || a.RestoreRead? || a.RestoreCheck? || a.Recover? {
      ReadingKeepsDriver(log, driver, a);
    }
  }

  lemma NextKeepsDrivers(w: World, a: Action)
    requires DriversSound(w.log, w.drivers) && a.d < |w.drivers|
    ensures DriversSound(Next(w, a).log, Next(w, a).drivers)
  {
    var w' := Next(w, a);
    NextDriverInvariant(w.log, w.drivers[a.d], a);
    forall d | 0 <= d < |w.drivers| ensures DriverInvariant(w'.log, w'.drivers[d]) {
      if d != a.d && w'.log != w.log {
        ExtensionKeepsDriver(w.log, w'.log[|w.log|], w.drivers[d]);
      }
    }
  }

  lemma NextKeepsRuns(w: World, a: Action)
    requires DriversSound(w.log, w.drivers) && RunsSound(w.log, w.runs) && a.d < |w.drivers|
    ensures RunsSound(Next(w, a).log, Next(w, a).runs)
  {
    var w' := Next(w, a);
    assert DriverInvariant(w.log, w.drivers[a.d]);
    forall i | 0 <= i < |w.runs| ensures RunAccepted(w'.log, w.runs[i]) {
      assert RunAccepted(w.log, w.runs[i]);
      if w'.log != w.log {
        ExtensionKeepsAccepted(w.log, w'.log[|w.log|], w.runs[i].position);
      }
    }
  }

  lemma NextKeepsDistinct(w: World, a: Action)
    requires WorldInvariant(w) && a.d < |w.drivers|
    ensures PositionsDistinct(Next(w, a).drivers, Next(w, a).runs)
  {
    NextDriverInvariant(w.log, w.drivers[a.d], a);
    forall i | 0 <= i < |w.runs| ensures w.runs[i].position < |w.log| {
      assert RunAccepted(w.log, w.runs[i]);
    }
    forall d | 0 <= d < |w.drivers| && IsAuthorized(w.drivers[d]) ensures w.drivers[d].phase.position < |w.log| {
      assert DriverInvariant(w.log, w.drivers[d]);
    }
    DistinctAfter(w.drivers, w.runs, a.d, Next(w, a).drivers[a.d], |w.log|);
    if Next(w, a).runs != w.runs {
      assert a.StartTool? && IsAuthorized(w.drivers[a.d]) && !IsAuthorized(Next(w, a).drivers[a.d]);
      assert Next(w, a).runs == w.runs + [Run(a.d, w.drivers[a.d].phase.position)];
    }
  }

  /** One driver changes: it holds what it held, nothing, or an authorization newer than all others. */
  lemma DistinctAfter(drivers: seq<Driver>, runs: seq<Run>, d: nat, driver: Driver, top: nat)
    requires PositionsDistinct(drivers, runs) && d < |drivers|
    requires IsAuthorized(driver) ==> driver == drivers[d] || driver.phase.position == top
    requires forall i | 0 <= i < |runs| :: runs[i].position < top
    requires forall c | 0 <= c < |drivers| && IsAuthorized(drivers[c]) :: drivers[c].phase.position < top
    ensures PositionsDistinct(drivers[d := driver], runs)
  {
  }

  lemma NextKeepsInvariant(w: World, a: Action)
    requires WorldInvariant(w)
    ensures WorldInvariant(Next(w, a))
  {
    if a.d < |w.drivers| {
      NextKeepsDrivers(w, a);
      NextKeepsRuns(w, a);
      NextKeepsDistinct(w, a);
    }
  }

  /** In every interleaving of any drivers with crashes and restores, each memory is a fold of a prefix of the log. */
  lemma {:induction false} ExecutionInvariant(n: nat, actions: seq<Action>)
    ensures WorldInvariant(Execute(Start(n), actions))
    ensures |Execute(Start(n), actions).drivers| == n
    decreases |actions|
  {
    if actions != [] {
      var k := |actions| - 1;
      ExecutionInvariant(n, actions[..k]);
      NextKeepsInvariant(Execute(Start(n), actions[..k]), actions[k]);
    }
  }

  // ------------------------------------------------------------------ foreign writes

  lemma LogGrows(w: World, a: Action)
    ensures w.log <= Next(w, a).log
  {
  }

  lemma {:induction false} ExecutionGrowsLog(w: World, actions: seq<Action>)
    ensures w.log <= Execute(w, actions).log
    decreases |actions|
  {
    if actions != [] {
      var n := |actions| - 1;
      ExecutionGrowsLog(w, actions[..n]);
      LogGrows(Execute(w, actions[..n]), actions[n]);
    }
  }

  /**
   Once a foreign event is in the log, a driver that has not seen it can neither append nor run anything:
   through any actions but its own crash it stays exactly as it is.
   */
  lemma {:induction false} StaleDriverIsInert(w: World, d: nat, actions: seq<Action>)
    requires d < |w.drivers| && w.drivers[d].Live? && w.drivers[d].phase.Ready?
    requires w.drivers[d].memory.lastSeq < |w.log|
    requires forall i | 0 <= i < |actions| :: actions[i] != Crash(d)
    ensures |Execute(w, actions).drivers| == |w.drivers|
    ensures Execute(w, actions).drivers[d] == w.drivers[d]
    ensures w.log <= Execute(w, actions).log
    decreases |actions|
  {
    if actions != [] {
      var n := |actions| - 1;
      StaleDriverIsInert(w, d, actions[..n]);
      LogGrows(Execute(w, actions[..n]), actions[n]);
    }
  }

  lemma {:induction false} UntouchedDriver(w: World, d: nat, actions: seq<Action>)
    requires d < |w.drivers| && forall i | 0 <= i < |actions| :: actions[i].d != d
    ensures |Execute(w, actions).drivers| == |w.drivers| && Execute(w, actions).drivers[d] == w.drivers[d]
    decreases |actions|
  {
    if actions != [] {
      UntouchedDriver(w, d, actions[..|actions| - 1]);
    }
  }

  /**
   A driver that loses the race between its check and its append never adopts what it speculated:
   whatever others do meanwhile, it ends where it was or at the fold of the whole log it re-reads, with no tool to run.
   */
  lemma LoserDoesNotAdopt(w: World, d: nat, others: seq<Action>)
    requires d < |w.drivers| && w.drivers[d].Live? && w.drivers[d].phase.Speculating?
    requires w.drivers[d].phase.event.seqNo != |w.log| + 1
    requires forall i | 0 <= i < |others| :: others[i].d != d
    ensures var before := Execute(Next(w, Store(d)), others);
            var after := Next(before, Recover(d));
            && d < |after.drivers| && after.drivers[d].Live? && after.drivers[d].phase.Ready?
            && after.runs == before.runs && after.log == before.log
            && w.log + [w.drivers[d].phase.event.(seqNo := |w.log| + 1)] <= after.log
            && var reread := Replay(NewSession(w.drivers[d].memory.sessionId), after.log);
               after.drivers[d].memory == if reread.Some? then reread.value else w.drivers[d].memory
  {
    UntouchedDriver(Next(w, Store(d)), d, others);
    ExecutionGrowsLog(Next(w, Store(d)), others);
  }

  // ------------------------------------------------------------------ one writer

  ghost predicate SingleWriter(w: World) {
    && |w.drivers| == 1
    && (w.log != [] ==> Replay(NewSession(w.log[0].sessionId), w.log).Some?)
    && (w.drivers[0].Live? ==> !w.drivers[0].phase.Recovering?)
    && (w.drivers[0].Live? && w.drivers[0].phase.Speculating? ==> w.drivers[0].memory.lastSeq == |w.log|)
  }

  lemma CommitReplays(log: seq<Event>, memory: SessionState, event: Event, next: SessionState)
    requires FoldsPrefix(log, memory) && memory.lastSeq == |log| && Reduce(memory, event) == Outcome(next, true)
    ensures Replay(NewSession((log + [event])[0].sessionId), log + [event]).Some?
  {
    CommitFolds(log, memory, event, next);
    var whole := log + [event];
    ReplaySnoc(NewSession(memory.sessionId), log, event);
    assert log[..memory.lastSeq] == log;
    ReplayNumbers(NewSession(memory.sessionId), whole, 0);
  }

  lemma SingleWriterLogGrows(w: World, a: Action)
    requires WorldInvariant(w) && SingleWriter(w) && a.d == 0 && (a.Store? || a.StoreLost?)
    requires w.drivers[0].Live? && w.drivers[0].phase.Speculating?
    ensures Next(w, a).log == w.log + [w.drivers[0].phase.event] && w.drivers[0].phase.event.seqNo == |w.log| + 1
    ensures Replay(NewSession(Next(w, a).log[0].sessionId), Next(w, a).log).Some?
  {
    var driver := w.drivers[0];
    assert DriverInvariant(w.log, driver);
    ReduceEnvelope(driver.memory, driver.phase.event);
    assert driver.phase.event.(seqNo := |w.log| + 1) == driver.phase.event;
    CommitReplays(w.log, driver.memory, driver.phase.event, driver.phase.next);
  }

  lemma SingleWriterStep(w: World, a: Action)
    requires WorldInvariant(w) && SingleWriter(w)
    ensures SingleWriter(Next(w, a))
  {
    if a.d == 0 {
      if (a.Store? || a.StoreLost?) && w.drivers[0].Live? && w.drivers[0].phase.Speculating? {
        SingleWriterStores(w, a);
      } else {
        SingleWriterKeepsLog(w, a);
      }
    }
  }

  lemma SingleWriterStores(w: World, a: Action)
    requires WorldInvariant(w) && SingleWriter(w) && a.d == 0 && (a.Store? || a.StoreLost?)
    requires w.drivers[0].Live? && w.drivers[0].phase.Speculating?
    ensures SingleWriter(Next(w, a))
  {
    SingleWriterLogGrows(w, a);
    assert Next(w, a).drivers == [NextDriver(w.log, w.drivers[0], a)];
    WriterHasStored(w.log, w.drivers[0], a);
  }

  lemma WriterHasStored(log: seq<Event>, driver: Driver, a: Action)
    requires driver.Live? && driver.phase.Speculating? && driver.phase.event.seqNo == |log| + 1
    requires a.Store? || a.StoreLost?
    ensures var next := NextDriver(log, driver, a);
            next.Live? && !next.phase.Recovering? && !next.phase.Speculating?
  {
  }

  lemma SingleWriterKeepsLog(w: World, a: Action)
    requires SingleWriter(w) && a.d == 0
    requires !((a.Store? || a.StoreLost?) && w.drivers[0].Live? && w.drivers[0].phase.Speculating?)
    ensures SingleWriter(Next(w, a))
  {
    var driver := w.drivers[0];
    assert Next(w, a).log == w.log && Next(w, a).drivers == [NextDriver(w.log, driver, a)];
    WriterStaysInStep(w.log, driver, a);
  }

  lemma WriterStaysInStep(log: seq<Event>, driver: Driver, a: Action)
    requires driver.Live? ==> !driver.phase.Recovering?
    requires driver.Live? && driver.phase.Speculating? ==>
               driver.memory.lastSeq == |log| && !a.Store? && !a.StoreLost?
    ensures var next := NextDriver(log, driver, a);
            next.Live? ==> !next.phase.Recovering? && (next.phase.Speculating? ==> next.memory.lastSeq == |log|)
  {
  }

  /** With one writer, however often it crashes and restores, the whole log stays replayable. */
  lemma {:induction false} SingleWriterLogReplays(actions: seq<Action>)
    ensures SingleWriter(Execute(Start(1), actions))
    decreases |actions|
  {
    if actions != [] {
      var k := |actions| - 1;
      SingleWriterLogReplays(actions[..k]);
      ExecutionInvariant(1, actions[..k]);
      SingleWriterStep(Execute(Start(1), actions[..k]), actions[k]);
    }
  }
}
