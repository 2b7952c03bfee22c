/**
 What a turn adds to the history, from the model's responses and the tools' outputs alone: the events the loop leaves
 are read through what they add, so that nothing said or returned is lost, changed or put under another call.
 */
module Dialogue {
  import opened Options
  import opened Sequences
  import opened State
  import opened Reducer
  import opened DriverProtocol
  import opened LogView
  import opened TurnProtocol

  // ------------------------------------------------------------------ what further events add

  /** The items further events add to the history of a log. */
  function Gained(log: seq<Event>, more: seq<Event>): seq<HistoryItem>
    decreases |more|
  {
    if more == [] then [] else Gained(log, Init(more)) + ItemsOf(log + Init(more), more[|more| - 1].payload)
  }

  lemma GainedSnoc(log: seq<Event>, more: seq<Event>, e: Event)
    ensures Gained(log, more + [e]) == Gained(log, more) + ItemsOf(log + more, e.payload)
  {
    assert Init(more + [e]) == more;
  }

  lemma HistorySnoc(log: seq<Event>, e: Event)
    ensures HistoryOf(log + [e]) == HistoryOf(log) + ItemsOf(log, e.payload)
  {
    Snoc(log, e);
  }

  lemma LastOff<T>(log: seq<T>, more: seq<T>)
    requires more != []
    ensures more == more[..|more| - 1] + [more[|more| - 1]]
    ensures log + more == log + more[..|more| - 1] + [more[|more| - 1]]
  {
  }

  lemma {:induction false} HistoryGrows(log: seq<Event>, more: seq<Event>)
    ensures HistoryOf(log + more) == HistoryOf(log) + Gained(log, more)
    decreases |more|
  {
    if more == [] {
      assert log + more == log;
    } else {
      var front, e := more[..|more| - 1], more[|more| - 1];
      LastOff(log, more);
      HistoryGrows(log, front);
      HistorySnoc(log + front, e);
      GainedSnoc(log, front, e);
      Associative(HistoryOf(log), Gained(log, front), ItemsOf(log + front, e.payload));
    }
  }

  lemma {:induction false} GainedConcat(log: seq<Event>, a: seq<Event>, b: seq<Event>)
    ensures Gained(log, a + b) == Gained(log, a) + Gained(log + a, b)
    decreases |b|
  {
    if b == [] {
      assert a + b == a;
    } else {
      var front, e := b[..|b| - 1], b[|b| - 1];
      LastOff(a, b);
      GainedConcat(log, a, front);
      GainedSnoc(log, a + front, e);
      GainedSnoc(log + a, front, e);
      Associative(log, a, front);
      Associative(Gained(log, a), Gained(log + a, front), ItemsOf(log + a + front, e.payload));
    }
  }

  /** The events carry these payloads. */
  predicate Says(more: seq<Event>, ps: seq<EventPayload>) {
    |more| == |ps| && forall i | 0 <= i < |ps| :: more[i].payload == ps[i]
  }

  /** Cutting events in two where their payloads are. */
  lemma Cut(more: seq<Event>, ps: seq<EventPayload>, qs: seq<EventPayload>) returns (a: seq<Event>, b: seq<Event>)
    requires Says(more, ps + qs)
    ensures more == a + b && Says(a, ps) && Says(b, qs)
  {
    a, b := more[..|ps|], more[|ps|..];
    forall i | 0 <= i < |ps| ensures a[i].payload == ps[i] {
      assert (ps + qs)[i] == ps[i];
    }
    forall i | 0 <= i < |qs| ensures b[i].payload == qs[i] {
      assert (ps + qs)[|ps| + i] == qs[i];
    }
  }

  lemma GainedOne(log: seq<Event>, more: seq<Event>, p: EventPayload)
    requires Says(more, [p])
    ensures Gained(log, more) == ItemsOf(log, p)
  {
    assert Init(more) == [] && log + [] == log;
    assert more[0].payload == [p][0];
  }

  /** Events that record nothing. */
  lemma {:induction false} GainedNothing(log: seq<Event>, more: seq<Event>)
    requires forall i | 0 <= i < |more| ::
               more[i].payload.ProviderAttemptRecorded? || more[i].payload.ProviderContinuationUpdated?
    ensures Gained(log, more) == []
    decreases |more|
  {
    if more != [] {
      var front, e := more[..|more| - 1], more[|more| - 1];
      LastOff(log, more);
      GainedNothing(log, front);
      GainedSnoc(log, front, e);
      assert ItemsOf(log + front, e.payload) == [];
    }
  }

  // ------------------------------------------------------------------ one call, one batch, one answer

  /** What a call that lets the turn go on shows the model. */
  function Shown(plan: CallPlan): Text {
    match plan
    case Unusable(why) => why
    case RunNow(ToolRun(Unregistered, _, _, why)) => why
    case RunNow(ToolRun(Ended(Output(text), _), _, _, _)) => text
    case _ => []
  }

  function CallsShown(calls: seq<ToolCall>, plans: seq<CallPlan>, n: nat): (r: seq<HistoryItem>)
    requires n <= |calls| == |plans|
    ensures |r| == n
    ensures forall i | 0 <= i < n :: r[i] == Tool(calls[i].callId, calls[i].name, calls[i].input, Shown(plans[i]))
  {
    seq(n, i requires 0 <= i < n => Tool(calls[i].callId, calls[i].name, calls[i].input, Shown(plans[i])))
  }

  /** A call after which the turn goes on leaves its request and its result, under one id. */
  lemma SettledTrace(call: ToolCall, plan: CallPlan, reason: CancellationReason, limit: nat)
      returns (outcome: ToolOutcome, duration: nat)
    requires CallError(plan, limit).None?
    ensures outcome == Succeeded(Shown(plan)) || outcome == Rejected(Shown(plan))
    ensures CallTrace(call, plan, reason, limit) ==
            [ToolRequested(call.callId, call.name, call.input, false), ToolCompleted(call.callId, outcome, duration)]
  {
    outcome, duration := SettledCallTrace(call, plan, reason, limit);
    assert CallTrace(call, plan, reason, limit)[1] == ToolCompleted(call.callId, outcome, duration);
  }

  lemma CallGained(log: seq<Event>, more: seq<Event>, call: ToolCall, plan: CallPlan, reason: CancellationReason,
      limit: nat)
    requires CallError(plan, limit).None? && Says(more, CallTrace(call, plan, reason, limit))
    ensures Gained(log, more) == [Tool(call.callId, call.name, call.input, Shown(plan))]
  {
    var outcome, duration := SettledTrace(call, plan, reason, limit);
    var asked, ended := more[0], more[1];
    assert more == [asked] + [ended];
    assert asked.payload == ToolRequested(call.callId, call.name, call.input, false);
    assert ended.payload == ToolCompleted(call.callId, outcome, duration);
    GainedOne(log, [asked], asked.payload);
    GainedSnoc(log, [asked], ended);
    Snoc(log, asked);
    assert RequestOf(log + [asked], call.callId) == Some(Request(call.name, call.input));
  }

  lemma ShownSnoc(calls: seq<ToolCall>, plans: seq<CallPlan>, n: nat)
    requires 0 < n <= |calls| == |plans|
    ensures CallsShown(calls, plans, n) == CallsShown(calls, plans, n - 1)
              + [Tool(calls[n - 1].callId, calls[n - 1].name, calls[n - 1].input, Shown(plans[n - 1]))]
  {
  }

  lemma CutTraces(more: seq<Event>, calls: seq<ToolCall>, plans: seq<CallPlan>, n: nat, reason: CancellationReason,
      limit: nat) returns (a: seq<Event>, b: seq<Event>)
    requires 0 < n <= |calls| == |plans| && Says(more, TracesOf(calls, plans, n, reason, limit))
    ensures more == a + b && Says(a, TracesOf(calls, plans, n - 1, reason, limit))
    ensures Says(b, CallTrace(calls[n - 1], plans[n - 1], reason, limit))
  {
    a, b := Cut(more, TracesOf(calls, plans, n - 1, reason, limit),
                CallTrace(calls[n - 1], plans[n - 1], reason, limit));
  }

  lemma {:induction false} BatchGained(log: seq<Event>, more: seq<Event>, calls: seq<ToolCall>, plans: seq<CallPlan>,
      n: nat, reason: CancellationReason, limit: nat)
    requires n <= |calls| == |plans| && forall i | 0 <= i < n :: CallError(plans[i], limit).None?
    requires Says(more, TracesOf(calls, plans, n, reason, limit))
    ensures Gained(log, more) == CallsShown(calls, plans, n)
    decreases n
  {
    if n > 0 {
      var a, b := CutTraces(more, calls, plans, n, reason, limit);
      BatchGained(log, a, calls, plans, n - 1, reason, limit);
      CallGained(log + a, b, calls[n - 1], plans[n - 1], reason, limit);
      GainedConcat(log, a, b);
      ShownSnoc(calls, plans, n);
    }
  }

  /** The answer enters the history once. */
  lemma AnswerGained(log: seq<Event>, more: seq<Event>, text: Text)
    requires Says(more, [ModelResponseRecorded(text), TurnCompleted(text)])
    ensures Gained(log, more) == [Assistant(text)]
  {
    var said, ended := more[0], more[1];
    assert more == [said] + [ended];
    GainedOne(log, [said], ModelResponseRecorded(text));
    GainedSnoc(log, [said], ended);
    Snoc(log, said);
    assert LastResponse(log + [said]) == Some(text);
  }

  lemma ConsultGained(log: seq<Event>, more: seq<Event>, round: Round, stored: Option<ProviderContinuation>,
      reason: CancellationReason)
    requires round.end.Completed? && Says(more, ConsultTrace(round, stored, reason))
    ensures Gained(log, more) == []
  {
    var trace := ConsultTrace(round, stored, reason);
    forall i | 0 <= i < |more|
      ensures more[i].payload.ProviderAttemptRecorded? || more[i].payload.ProviderContinuationUpdated?
    {
      assert more[i].payload == trace[i];
    }
    GainedNothing(log, more);
  }

  // ------------------------------------------------------------------ a whole turn

  /** What one round adds when its model request completes and the loop goes on or answers. */
  function RoundGain(round: Round): seq<HistoryItem>
    requires Planned(round)
  {
    match round.end
    case Completed(Completion(TextResponse(text), _)) => [Assistant(text)]
    case Completed(Completion(response, _)) =>
      [Assistant(SpokenText(response))] + CallsShown(CallsOf(response), round.plans, |round.plans|)
    case _ => []
  }

  /** What is said and done until the model answers. */
  function Conversation(rounds: seq<Round>): seq<HistoryItem>
    requires AllPlanned(rounds)
    decreases |rounds|
  {
    if rounds == [] then []
    else RoundGain(rounds[0]) + if EndsWithText(rounds[0]) then [] else Conversation(rounds[1..])
  }

  predicate EndsWithText(round: Round) {
    round.end.Completed? && round.end.completion.response.TextResponse?
  }

  /** The response of a round that goes on, and its calls. */
  lemma ResponseGained(log: seq<Event>, more: seq<Event>, response: ModelResponse, plans: seq<CallPlan>,
      reason: CancellationReason, limit: nat)
    requires |plans| == |CallsOf(response)| && BatchError(plans, limit).None?
    requires Says(more, ResponseTrace(response, plans, reason, limit))
    ensures Gained(log, more) == [Assistant(SpokenText(response))] + CallsShown(CallsOf(response), plans, |plans|)
  {
    var a, b := Cut(more, [ModelResponseRecorded(SpokenText(response))],
                    BatchTrace(CallsOf(response), plans, reason, limit));
    GainedOne(log, a, ModelResponseRecorded(SpokenText(response)));
    BatchGained(log + a, b, CallsOf(response), plans, |plans|, reason, limit);
    GainedConcat(log, a, b);
  }

  lemma ObeyGained(log: seq<Event>, more: seq<Event>, round: Round, reason: CancellationReason, config: Config)
    requires Planned(round) && round.end.Completed?
    requires Says(more, ObeyTrace(round.end.completion.response, round.plans, reason, config))
    requires var r := ObeyResult(round.end.completion.response, round.plans, config); r.None? || r.value.Answered?
    ensures Gained(log, more) == RoundGain(round)
    ensures ObeyResult(round.end.completion.response, round.plans, config).Some? <==>
              round.end.completion.response.TextResponse?
  {
    var response := round.end.completion.response;
    if response.TextResponse? {
      AnswerGained(log, more, response.text);
    } else {
      ResponseGained(log, more, response, round.plans, reason, config.maxToolResultBytes);
    }
  }

  lemma RoundGained(log: seq<Event>, more: seq<Event>, round: Round, p: Progress, reason: CancellationReason,
      config: Config)
    requires Planned(round) && Says(more, RoundVerdict(round, p, reason, config).trace)
    requires var v := RoundVerdict(round, p, reason, config); v.Returns? ==> v.result.Answered?
    ensures Gained(log, more) == RoundGain(round) && round.end.Completed?
    ensures RoundVerdict(round, p, reason, config).Returns? <==> round.end.completion.response.TextResponse?
    ensures var v := RoundVerdict(round, p, reason, config);
            v.Returns? ==> v.result == Answered(round.end.completion.response.text)
  {
    var a, b := Cut(more, ConsultTrace(round, p.stored, reason),
                    ObeyTrace(round.end.completion.response, round.plans, reason, config));
    ConsultGained(log, a, round, p.stored, reason);
    ObeyGained(log + a, b, round, reason, config);
    GainedConcat(log, a, b);
  }

  lemma CutCourse(more: seq<Event>, rounds: seq<Round>, p: Progress, reason: CancellationReason, config: Config)
      returns (a: seq<Event>, b: seq<Event>)
    requires Enough(rounds, p, config) && Says(more, LoopCourse(rounds, p, reason, config).trace)
    requires RoundVerdict(rounds[0], p, reason, config).Continues?
    ensures more == a + b && Says(a, RoundVerdict(rounds[0], p, reason, config).trace)
    ensures var next := RoundVerdict(rounds[0], p, reason, config).next;
            && Enough(rounds[1..], next, config)
            && Says(b, LoopCourse(rounds[1..], next, reason, config).trace)
            && LoopCourse(rounds, p, reason, config).result == LoopCourse(rounds[1..], next, reason, config).result
  {
    var v := RoundVerdict(rounds[0], p, reason, config);
    a, b := Cut(more, v.trace, LoopCourse(rounds[1..], v.next, reason, config).trace);
  }

  /** A turn that is answered adds its conversation to the history, no more and no less. */
  lemma {:induction false} TurnGained(log: seq<Event>, more: seq<Event>, rounds: seq<Round>, p: Progress,
      reason: CancellationReason, config: Config)
    requires Enough(rounds, p, config) && LoopCourse(rounds, p, reason, config).result.Answered?
    requires Says(more, LoopCourse(rounds, p, reason, config).trace)
    ensures Gained(log, more) == Conversation(rounds)
    decreases |rounds|
  {
    var v := RoundVerdict(rounds[0], p, reason, config);
    if v.Returns? {
      RoundGained(log, more, rounds[0], p, reason, config);
      assert RoundGain(rounds[0]) + [] == RoundGain(rounds[0]);
    } else {
      var a, b := CutCourse(more, rounds, p, reason, config);
      RoundGained(log, a, rounds[0], p, reason, config);
      TurnGained(log + a, b, rounds[1..], v.next, reason, config);
      GainedConcat(log, a, b);
    }
  }

  /** An approved call whose tool ran, and the conversation after it. */
  lemma ApprovedGained(log: seq<Event>, more: seq<Event>, callId: CallId, run: ToolRun, rounds: seq<Round>, p: Progress,
      config: Config)
    requires Enough(rounds, p, config) && ApprovedCourse(callId, run, rounds, p, config).result.Answered?
    requires Says(more, ApprovedCourse(callId, run, rounds, p, config).trace) && RequestOf(log, callId).Some?
    ensures var asked := RequestOf(log, callId).value;
            Gained(log, more) == [Tool(callId, asked.name, asked.input, Shown(RunNow(run)))] + Conversation(rounds)
  {
    var next := p.(toolTime := p.toolTime + RunTime(run));
    if RunError(run, config.maxToolResultBytes).Some? {
      ApprovedStops(callId, run, rounds, p, config);
      assert false;
    }
    ApprovedGoesOn(callId, run, rounds, p, next, config);
    var a, b := Cut(more, ApprovedTrace(callId, run, config.maxToolResultBytes),
                    LoopCourse(rounds, next, ByUser, config).trace);
    ResumedGained(log, a, callId, run, config.maxToolResultBytes);
    TurnGained(log + a, b, rounds, next, ByUser, config);
    GainedConcat(log, a, b);
  }

  lemma ResumedGained(log: seq<Event>, more: seq<Event>, callId: CallId, run: ToolRun, limit: nat)
    requires RunError(run, limit).None? && Says(more, ApprovedTrace(callId, run, limit))
    requires RequestOf(log, callId).Some?
    ensures var asked := RequestOf(log, callId).value;
            Gained(log, more) == [Tool(callId, asked.name, asked.input, Shown(RunNow(run)))]
  {
    var a, b := Cut(more, [ToolApprovalResponded(callId, true)], RunTrace(callId, run, ByUser, limit));
    GainedOne(log, a, ToolApprovalResponded(callId, true));
    assert Init(log + a) == log && RequestOf(log + a, callId) == RequestOf(log, callId);
    var outcome, duration := SettledTrace(ToolCall(callId, [], []), RunNow(run), ByUser, limit);
    assert RunTrace(callId, run, ByUser, limit) == [ToolCompleted(callId, outcome, duration)] by {
      assert CallTrace(ToolCall(callId, [], []), RunNow(run), ByUser, limit)[1..]
          == RunTrace(callId, run, ByUser, limit);
    }
    GainedOne(log + a, b, ToolCompleted(callId, outcome, duration));
    GainedConcat(log, a, b);
  }

  // ------------------------------------------------------------------ in the log of a store

  /** Two folds of one log, and what is recorded between them. */
  lemma RecordedBetween(log: seq<Event>, s: SessionState, s': SessionState, ps: seq<EventPayload>)
      returns (before: seq<Event>, more: seq<Event>)
    requires FoldsPrefix(log, s) && FoldsPrefix(log, s') && Logged(log, s.lastSeq, s'.lastSeq, ps)
    ensures before == log[..s.lastSeq] && Says(more, ps) && s'.history == s.history + Gained(before, more)
  {
    before, more := log[..s.lastSeq], log[s.lastSeq..s'.lastSeq];
    FoldedHistory(log, s);
    FoldedHistory(log, s');
    Rejoined(log, s.lastSeq, s'.lastSeq);
    HistoryGrows(before, more);
  }

  lemma FoldedHistory(log: seq<Event>, s: SessionState)
    requires FoldsPrefix(log, s)
    ensures s.history == HistoryOf(log[..s.lastSeq])
  {
    StateOfLog(s.sessionId, log[..s.lastSeq]);
  }

  lemma Rejoined<T>(log: seq<T>, n: nat, m: nat)
    requires n <= m <= |log|
    ensures log[..m] == log[..n] + log[n..m]
  {
  }
}
