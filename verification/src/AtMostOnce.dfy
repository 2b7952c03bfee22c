/** Safety of tool execution over every run of the driver protocol. */
module AtMostOnce {
  import opened Options
  import opened State
  import opened Reducer
  import opened TurnTrace
  import opened LogView
  import opened DriverProtocol

  /** The turn a position belongs to, named by how much of the log precedes its first event. */
  function TurnAt(log: seq<Event>, p: nat): nat
    requires p < |log|
  {
    TurnBegin(log[..p + 1])
  }

  /** The active turn, if any, carries the identifier of the latest turn start. */
  predicate NamedByStart(log: seq<Event>, s: SessionState) {
    s.activeTurn.Some? ==> TurnBegin(log) > 0 && log[TurnBegin(log) - 1].turnId == Some(s.activeTurn.value.turnId)
  }

  lemma {:induction false} ActiveTurnIdentity(sid: SessionId, log: seq<Event>)
    requires Replay(NewSession(sid), log).Some?
    ensures NamedByStart(log, Replay(NewSession(sid), log).value)
    decreases |log|
  {
    if log != [] {
      var n := |log| - 1;
      var before := ReplayAt(NewSession(sid), log, n);
      assert log[..n + 1] == log;
      ActiveTurnIdentity(sid, log[..n]);
      IdentityStep(log, before, log[n]);
    }
  }

  lemma IdentityStep(log: seq<Event>, s: SessionState, e: Event)
    requires log != [] && e == log[|log| - 1] && NamedByStart(log[..|log| - 1], s) && Reduce(s, e).ok
    ensures NamedByStart(log, Reduce(s, e).state)
  {
    if Reduce(s, e).state.activeTurn.Some? {
      if e.payload.TurnStarted? { TurnStartIdentity(s, e); } else { TurnStepIdentity(s, e); }
    }
  }

  lemma TurnStartIdentity(s: SessionState, e: Event)
    requires Reduce(s, e).ok && e.payload.TurnStarted?
    ensures Reduce(s, e).state.activeTurn.Some? && e.turnId == Some(Reduce(s, e).state.activeTurn.value.turnId)
  {
  }

  lemma TurnStepIdentity(s: SessionState, e: Event)
    requires Reduce(s, e).ok && Reduce(s, e).state.activeTurn.Some? && !e.payload.TurnStarted?
    ensures s.activeTurn.Some? && s.activeTurn.value.turnId == Reduce(s, e).state.activeTurn.value.turnId
  {
  }

  lemma AuthorizingKeepsTurn(s: SessionState, e: Event)
    requires Reduce(s, e).ok && Authorizing(e.payload)
    ensures Reduce(s, e).state.activeTurn.Some?
    ensures e.turnId == Some(Reduce(s, e).state.activeTurn.value.turnId)
  {
  }

  /** Right after an authorizing event its turn is active and the call's word ends in the authorization. */
  lemma AuthorizedState(log: seq<Event>, p: nat)
    requires AcceptedAt(log, p) && Authorizing(log[p].payload)
    ensures var after := Replay(NewSession(log[p].sessionId), log[..p + 1]);
            after.value.activeTurn.Some? && log[p].turnId == Some(after.value.activeTurn.value.turnId)
    ensures TurnAt(log, p) <= p
  {
    assert log[..p + 1][p] == log[p];
    var before := ReplayAt(NewSession(log[p].sessionId), log[..p + 1], p);
    assert log[..p + 1][..p + 1] == log[..p + 1];
    AuthorizingKeepsTurn(before, log[p]);
  }

  /** Two authorizations of one call in one turn are the same event. */
  lemma AuthorizationUnique(log: seq<Event>, p: nat, q: nat)
    requires p <= q && AcceptedAt(log, q)
    requires Authorizing(log[p].payload) && Authorizing(log[q].payload)
    requires CallOf(log[p].payload) == CallOf(log[q].payload)
    requires TurnAt(log, q) <= p
    ensures p == q
  {
    var prefix := log[..q + 1];
    var id := CallOf(log[q].payload);
    AuthorizedState(log, q);
    WordMatchesState(log[q].sessionId, prefix, id);
    var k := AuthorizedPosition(prefix, id, p);
    var l := AuthorizedPosition(prefix, id, q);
    AuthorizedOnce(Replay(NewSession(log[q].sessionId), prefix).value.activeTurn.value, id, Word(prefix, id), k, l);
  }

  lemma AuthorizedPosition(log: seq<Event>, id: CallId, p: nat) returns (k: nat)
    requires TurnBegin(log) <= p < |log| && Authorizing(log[p].payload) && CallOf(log[p].payload) == id
    ensures k < |Word(log, id)| && Positions(log, id)[k] == p && Authorizes(Word(log, id)[k])
    ensures StepOf(log[p].payload, id) == Some(Word(log, id)[k])
  {
    assert StepOf(log[p].payload, id).Some?;
    assert p in Positions(log, id);
    k :| k < |Positions(log, id)| && Positions(log, id)[k] == p;
    assert StepOf(log[Positions(log, id)[k]].payload, id) == Some(Word(log, id)[k]);
  }

  /** No tool body runs twice for one call of one turn, whatever the drivers, crashes and restores do. */
  lemma ToolRunsAtMostOnce(n: nat, actions: seq<Action>, i: nat, j: nat)
    requires i < j < |Execute(Start(n), actions).runs|
    ensures var w := Execute(Start(n), actions);
            var p, q := w.runs[i].position, w.runs[j].position;
            && p < |w.log| && q < |w.log| && Authorizing(w.log[p].payload) && Authorizing(w.log[q].payload)
            && (CallOf(w.log[p].payload) != CallOf(w.log[q].payload) || TurnAt(w.log, p) != TurnAt(w.log, q))
  {
    ExecutionInvariant(n, actions);
    var w := Execute(Start(n), actions);
    var p, q := w.runs[i].position, w.runs[j].position;
    if CallOf(w.log[p].payload) == CallOf(w.log[q].payload) && TurnAt(w.log, p) == TurnAt(w.log, q) {
      AuthorizedState(w.log, p);
      AuthorizedState(w.log, q);
      if p < q { AuthorizationUnique(w.log, p, q); } else { AuthorizationUnique(w.log, q, p); }
    }
  }

  /** Turn identifiers are fresh: no two turn starts of the log share one. */
  ghost predicate FreshTurnIds(log: seq<Event>) {
    forall i, j | 0 <= i < j < |log| && log[i].payload.TurnStarted? && log[j].payload.TurnStarted? ::
        log[i].turnId != log[j].turnId
  }

  lemma AuthorizedTurnId(log: seq<Event>, p: nat)
    requires AcceptedAt(log, p) && Authorizing(log[p].payload)
    ensures 0 < TurnAt(log, p) <= |log| && log[TurnAt(log, p) - 1].payload.TurnStarted?
    ensures log[TurnAt(log, p) - 1].turnId == log[p].turnId
  {
    AuthorizedState(log, p);
    ActiveTurnIdentity(log[p].sessionId, log[..p + 1]);
  }

  /** With fresh turn identifiers: at most one run per (turn, call) pair. */
  lemma ToolRunsAtMostOncePerTurnId(n: nat, actions: seq<Action>, i: nat, j: nat)
    requires i < j < |Execute(Start(n), actions).runs| && FreshTurnIds(Execute(Start(n), actions).log)
    ensures var w := Execute(Start(n), actions);
            var p, q := w.runs[i].position, w.runs[j].position;
            && p < |w.log| && q < |w.log| && Authorizing(w.log[p].payload) && Authorizing(w.log[q].payload)
            && (w.log[p].turnId, CallOf(w.log[p].payload)) != (w.log[q].turnId, CallOf(w.log[q].payload))
  {
    ExecutionInvariant(n, actions);
    var w := Execute(Start(n), actions);
    var p, q := w.runs[i].position, w.runs[j].position;
    AuthorizedTurnId(w.log, p);
    AuthorizedTurnId(w.log, q);
    ToolRunsAtMostOnce(n, actions, i, j);
    var b, c := TurnAt(w.log, p), TurnAt(w.log, q);
    if b < c {
      assert w.log[b - 1].turnId != w.log[c - 1].turnId;
    } else if c < b {
      assert w.log[c - 1].turnId != w.log[b - 1].turnId;
    }
  }

  /**
   Every run happens after its request is durable, and a call that required approval runs
   only on account of a later, durable, granted approval in the same turn.
   */
  lemma RunsAreAuthorized(n: nat, actions: seq<Action>, k: nat) returns (requested: nat)
    requires k < |Execute(Start(n), actions).runs|
    ensures var w := Execute(Start(n), actions);
            var p := w.runs[k].position;
            && requested <= p < |w.log| && TurnAt(w.log, p) <= requested
            && w.log[requested].payload.ToolRequested? && Authorizing(w.log[p].payload)
            && w.log[requested].payload.callId == CallOf(w.log[p].payload)
            && (w.log[requested].payload.requiresApproval ==>
                w.log[p].payload == ToolApprovalResponded(CallOf(w.log[p].payload), true))
            && (!w.log[requested].payload.requiresApproval ==> requested == p)
  {
    ExecutionInvariant(n, actions);
    var w := Execute(Start(n), actions);
    requested := RequestBehind(w.log, w.runs[k].position);
  }

  lemma RequestBehind(log: seq<Event>, p: nat) returns (requested: nat)
    requires AcceptedAt(log, p) && Authorizing(log[p].payload)
    ensures TurnAt(log, p) <= requested <= p
    ensures log[requested].payload.ToolRequested? && log[requested].payload.callId == CallOf(log[p].payload)
    ensures log[requested].payload.requiresApproval ==>
              log[p].payload == ToolApprovalResponded(CallOf(log[p].payload), true)
    ensures !log[requested].payload.requiresApproval ==> requested == p
  {
    var prefix, id := log[..p + 1], CallOf(log[p].payload);
    AuthorizedState(log, p);
    WordMatchesState(log[p].sessionId, prefix, id);
    requested := AskPosition(prefix, id, Replay(NewSession(log[p].sessionId), prefix).value.activeTurn.value, p);
  }

  lemma AskPosition(log: seq<Event>, id: CallId, t: TurnState, p: nat) returns (requested: nat)
    requires Spells(t, id, Word(log, id)) && TurnBegin(log) <= p < |log|
    requires Authorizing(log[p].payload) && CallOf(log[p].payload) == id
    ensures TurnBegin(log) <= requested <= p
    ensures log[requested].payload.ToolRequested? && log[requested].payload.callId == id
    ensures log[requested].payload.requiresApproval ==> log[p].payload == ToolApprovalResponded(id, true)
    ensures !log[requested].payload.requiresApproval ==> requested == p
  {
    var k := AuthorizedPosition(log, id, p);
    AskBehind(t, id, Word(log, id), k);
    FirstStep(log, id, Positions(log, id), Word(log, id), k);
    requested := Positions(log, id)[0];
  }

  /** Positions and steps that belong together, seen without how they were found. */
  lemma FirstStep(log: seq<Event>, id: CallId, ps: seq<nat>, w: seq<CallStep>, k: nat)
    requires |ps| == |w| && k < |w|
    requires forall i | 0 <= i < |ps| :: ps[i] < |log| && StepOf(log[ps[i]].payload, id) == Some(w[i])
    requires forall i, j | 0 <= i < j < |ps| :: ps[i] < ps[j]
    ensures ps[0] <= ps[k] && (k == 0 ==> ps[0] == ps[k])
    ensures w[0].Ask? ==>
              log[ps[0]].payload.ToolRequested? && log[ps[0]].payload.callId == id
                  && log[ps[0]].payload.requiresApproval == w[0].needsApproval
    ensures w[k] == Answer(true) ==> log[ps[k]].payload == ToolApprovalResponded(id, true)
  {
    assert StepOf(log[ps[0]].payload, id) == Some(w[0]);
    assert StepOf(log[ps[k]].payload, id) == Some(w[k]);
  }

  lemma AskBehind(t: TurnState, id: CallId, w: seq<CallStep>, k: nat)
    requires Spells(t, id, w) && k < |w| && Authorizes(w[k])
    ensures w[0].Ask? && (if w[0].needsApproval then w[k] == Answer(true) else k == 0)
  {
    AuthorizedOnce(t, id, w, k, k);
    if w[0] == Ask(false) { AuthorizedOnce(t, id, w, 0, k); }
  }

  // ------------------------------------------------------------------ the runs of one driver

  /** A tool body started on account of the event at `position`, under this name and with this input. */
  datatype ToolStart = ToolStart(position: nat, name: Text, input: Json)

  /** The event authorizes the call, and name and input are those the call was requested with. */
  predicate StartFits(log: seq<Event>, start: ToolStart) {
    && AcceptedAt(log, start.position)
    && Authorizing(log[start.position].payload)
    && RequestOf(log[..start.position + 1], CallOf(log[start.position].payload))
         == Some(Request(start.name, start.input))
  }

  /** The starts of one driver, in the order of the events that authorized them. */
  ghost predicate RunsOnce(log: seq<Event>, upTo: nat, started: seq<ToolStart>) {
    && (forall i | 0 <= i < |started| :: started[i].position < upTo && StartFits(log, started[i]))
    && (forall i, j | 0 <= i < j < |started| :: started[i].position < started[j].position)
  }

  lemma StartLater(log: seq<Event>, later: seq<Event>, start: ToolStart)
    requires StartFits(log, start) && log <= later
    ensures StartFits(later, start)
  {
    assert later[..start.position + 1] == log[..start.position + 1];
  }

  lemma RunsLater(log: seq<Event>, later: seq<Event>, upTo: nat, laterUpTo: nat, started: seq<ToolStart>)
    requires RunsOnce(log, upTo, started) && log <= later && upTo <= laterUpTo
    ensures RunsOnce(later, laterUpTo, started)
  {
    forall i | 0 <= i < |started| ensures StartFits(later, started[i]) {
      StartLater(log, later, started[i]);
    }
  }

  lemma RunStarted(log: seq<Event>, start: ToolStart, started: seq<ToolStart>)
    requires RunsOnce(log, start.position, started) && StartFits(log, start)
    ensures RunsOnce(log, start.position + 1, started + [start])
  {
  }

  /** No two of them are for one call of one turn. */
  lemma RunsDiffer(log: seq<Event>, upTo: nat, started: seq<ToolStart>, i: nat, j: nat)
    requires RunsOnce(log, upTo, started) && i < j < |started|
    ensures var p, q := started[i].position, started[j].position;
            CallOf(log[p].payload) != CallOf(log[q].payload) || TurnAt(log, p) != TurnAt(log, q)
  {
    var p, q := started[i].position, started[j].position;
    assert StartFits(log, started[i]) && StartFits(log, started[j]);
    if CallOf(log[p].payload) == CallOf(log[q].payload) && TurnAt(log, p) == TurnAt(log, q) {
      AuthorizedState(log, p);
      AuthorizationUnique(log, p, q);
    }
  }

  /** A tool is started under the name and with the input of the request of its call in its turn. */
  lemma StartedAsAsked(log: seq<Event>, start: ToolStart) returns (asked: nat)
    requires StartFits(log, start)
    ensures TurnAt(log, start.position) <= asked <= start.position
    ensures log[asked].payload.ToolRequested? && log[asked].payload.callId == CallOf(log[start.position].payload)
    ensures log[asked].payload.name == start.name && log[asked].payload.arguments == start.input
  {
    asked := RequestPosition(log[..start.position + 1], CallOf(log[start.position].payload));
  }

  lemma LatestAccepted(log: seq<Event>, s: SessionState)
    requires FoldsPrefix(log, s) && s.lastSeq > 0
    ensures AcceptedAt(log, s.lastSeq - 1)
  {
    var prefix := log[..s.lastSeq];
    ReplayNumbers(NewSession(s.sessionId), prefix, s.lastSeq - 1);
    assert prefix[s.lastSeq - 1] == log[s.lastSeq - 1];
  }
}
