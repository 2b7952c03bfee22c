/** The events of one round told one by one: what is requested, what a tool's end leaves, and when time runs out. */
module RoundLaws {
  import opened Bytes
  import opened Options
  import opened Sequences
  import opened State
  import opened TurnProtocol

  // ------------------------------------------------------------------ what the model says

  /** A single call without a text is announced by its name. */
  lemma OneCallSpoken(call: ToolCall)
    ensures SpokenText(OneCall(call)) == Ascii("tool call: ") + call.name
    ensures SpokenText(ManyCalls([call])) == Ascii("tool call: ") + call.name
  {
  }

  /** Several are announced by their names, separated by commas. */
  lemma ManyCallsSpoken(calls: seq<ToolCall>, last: ToolCall)
    requires calls != []
    ensures SpokenText(ManyCalls(calls + [last])) == Ascii("tool calls: ") + JoinNames(calls) + Ascii(", ") + last.name
    ensures |calls| == 1 ==> JoinNames(calls) == calls[0].name
  {
    JoinSnoc(calls, last);
    Associative(Ascii("tool calls: "), JoinNames(calls), Ascii(", "));
    Associative(Ascii("tool calls: "), JoinNames(calls) + Ascii(", "), last.name);
  }

  lemma {:induction false} JoinSnoc(calls: seq<ToolCall>, last: ToolCall)
    requires calls != []
    ensures JoinNames(calls + [last]) == JoinNames(calls) + Ascii(", ") + last.name
  {
    var joined := calls + [last];
    assert joined[0] == calls[0];
    if |calls| == 1 {
      assert joined[1..] == [last];
    } else {
      JoinSnoc(calls[1..], last);
      assert joined[1..] == calls[1..] + [last];
      var head, rest := calls[0].name + Ascii(", "), JoinNames(calls[1..]);
      Associative(head, rest, Ascii(", "));
      Associative(head, rest + Ascii(", "), last.name);
    }
  }

  /** The model's own text is what is recorded ahead of its calls. */
  lemma TextSpoken(text: Text, calls: seq<ToolCall>)
    ensures SpokenText(TextWithCalls(text, calls)) == text
  {
  }

  /** Attempts, then the continuation if it is another than the stored one. */
  ghost predicate OpensStep(trace: seq<EventPayload>, attempts: seq<Attempt>, stored: Option<ProviderContinuation>,
      c: Option<ProviderContinuation>)
  {
    && |trace| == |attempts| + (if c == stored then 0 else 1)
    && (forall i | 0 <= i < |attempts| :: trace[i] == ProviderAttemptRecorded(attempts[i]))
    && (c != stored ==> trace[|attempts|] == ProviderContinuationUpdated(c))
  }

  lemma ConsultOpens(round: Round, stored: Option<ProviderContinuation>, reason: CancellationReason)
    requires round.end.Completed?
    ensures OpensStep(ConsultTrace(round, stored, reason), round.attempts, stored, round.end.completion.continuation)
  {
    assert SamplingTrace(round.end, reason) == [];
  }

  /** A text completes the turn with that very text. */
  lemma TextIsAnswered(round: Round, stored: Option<ProviderContinuation>, text: Text,
      c: Option<ProviderContinuation>, reason: CancellationReason, config: Config)
    requires !round.tooLarge && Planned(round) && round.end == SamplingEnd.Completed(Completion(TextResponse(text), c))
    ensures StepResult(round, config) == Some(Answered(text))
    ensures var trace := StepTrace(round, stored, reason, config);
            && 2 <= |trace|
            && OpensStep(trace[..|trace| - 2], round.attempts, stored, c)
            && trace[|trace| - 2..] == [ModelResponseRecorded(text), TurnCompleted(text)]
  {
    ConsultOpens(round, stored, reason);
    var opening := ConsultTrace(round, stored, reason);
    assert StepTrace(round, stored, reason, config) == opening + [ModelResponseRecorded(text), TurnCompleted(text)];
  }

  /** Calls are announced and then carried out as a batch. */
  lemma CallsAreAnnounced(round: Round, stored: Option<ProviderContinuation>, reason: CancellationReason,
      config: Config) returns (opening: seq<EventPayload>)
    requires !round.tooLarge && Planned(round) && round.end.Completed?
    requires var calls := CallsOf(round.end.completion.response);
             && 0 < |calls| <= config.maxBatchToolCalls
             && forall i, j | 0 <= i < j < |calls| :: calls[i].callId != calls[j].callId
    ensures OpensStep(opening, round.attempts, stored, round.end.completion.continuation)
    ensures var response := round.end.completion.response;
            StepTrace(round, stored, reason, config) == opening + ([ModelResponseRecorded(SpokenText(response))]
              + BatchTrace(CallsOf(response), round.plans, reason, config.maxToolResultBytes))
  {
    opening := ConsultTrace(round, stored, reason);
    ConsultOpens(round, stored, reason);
  }

  /**
   The calls of a batch are requested in order, each under its id with its name and input, up to the first that stops
   the turn.
   */
  lemma CallsAreRequested(calls: seq<ToolCall>, plans: seq<CallPlan>, i: nat, reason: CancellationReason, limit: nat)
    requires i < |calls| == |plans| && forall k | 0 <= k < i :: CallError(plans[k], limit).None?
    ensures var batch := BatchTrace(calls, plans, reason, limit);
            2 * i < |batch| && batch[2 * i]
              == ToolRequested(calls[i].callId, calls[i].name, calls[i].input, plans[i].NeedsApproval?)
    ensures CallError(plans[i], limit).Some? ==>
              BatchTrace(calls, plans, reason, limit) == TracesOf(calls, plans, i + 1, reason, limit)
  {
    RequestAt(calls, plans, i, reason, limit);
    HandledBeyond(plans, i, limit);
    TracesGrow(calls, plans, i + 1, Handled(plans, limit), reason, limit);
    assert BatchTrace(calls, plans, reason, limit)[2 * i] == TracesOf(calls, plans, i + 1, reason, limit)[2 * i];
  }

  lemma HandledBeyond(plans: seq<CallPlan>, i: nat, limit: nat)
    requires i < |plans| && forall k | 0 <= k < i :: CallError(plans[k], limit).None?
    ensures i < Handled(plans, limit)
    ensures CallError(plans[i], limit).Some? ==> Handled(plans, limit) == i + 1
  {
  }

  /** Calls that let the turn go on leave two events each. */
  lemma {:induction false} SettledLength(calls: seq<ToolCall>, plans: seq<CallPlan>, n: nat,
      reason: CancellationReason, limit: nat)
    requires n <= |calls| == |plans| && forall k | 0 <= k < n :: CallError(plans[k], limit).None?
    ensures |TracesOf(calls, plans, n, reason, limit)| == 2 * n
    decreases n
  {
    if n > 0 {
      SettledLength(calls, plans, n - 1, reason, limit);
      var _, _ := SettledCallTrace(calls[n - 1], plans[n - 1], reason, limit);
    }
  }

  lemma RequestAt(calls: seq<ToolCall>, plans: seq<CallPlan>, i: nat, reason: CancellationReason, limit: nat)
    requires i < |calls| == |plans| && forall k | 0 <= k < i :: CallError(plans[k], limit).None?
    ensures var trace := TracesOf(calls, plans, i + 1, reason, limit);
            2 * i < |trace| && trace[2 * i]
              == ToolRequested(calls[i].callId, calls[i].name, calls[i].input, plans[i].NeedsApproval?)
  {
    SettledLength(calls, plans, i, reason, limit);
  }

  lemma {:induction false} TracesGrow(calls: seq<ToolCall>, plans: seq<CallPlan>, n: nat, m: nat,
      reason: CancellationReason, limit: nat)
    requires n <= m <= |calls| == |plans|
    ensures TracesOf(calls, plans, n, reason, limit) <= TracesOf(calls, plans, m, reason, limit)
    decreases m
  {
    if n < m {
      var before := TracesOf(calls, plans, m - 1, reason, limit);
      var last := CallTrace(calls[m - 1], plans[m - 1], reason, limit);
      TracesGrow(calls, plans, n, m - 1, reason, limit);
      PrefixGrows(TracesOf(calls, plans, n, reason, limit), before, last);
    }
  }

  /** A batch that is empty, too long or repeats an id fails the turn before anything of it is recorded. */
  lemma BadBatchFails(round: Round, stored: Option<ProviderContinuation>, reason: CancellationReason, config: Config)
    requires !round.tooLarge && Planned(round) && round.end.Completed? && !round.end.completion.response.TextResponse?
    requires var calls := CallsOf(round.end.completion.response);
             || |calls| == 0 || |calls| > config.maxBatchToolCalls
             || exists i, j :: 0 <= i < j < |calls| && calls[i].callId == calls[j].callId
    ensures StepResult(round, config) == Some(Error(ProviderFailure))
    ensures var trace := StepTrace(round, stored, reason, config);
            && 1 <= |trace| && trace[|trace| - 1] == TurnFailed([])
            && OpensStep(trace[..|trace| - 1], round.attempts, stored, round.end.completion.continuation)
  {
    ConsultOpens(round, stored, reason);
    assert StepTrace(round, stored, reason, config) == ConsultTrace(round, stored, reason) + [TurnFailed([])];
  }

  /** A wait without an answer ends the turn: it is cancelled, times out, or fails with the provider's error. */
  lemma SamplingStops(round: Round, stored: Option<ProviderContinuation>, config: Config)
    requires !round.tooLarge && Planned(round) && !round.end.Completed?
    ensures var asked := AttemptTrace(round.attempts);
            match round.end
            case CancelledFirst =>
              && StepTrace(round, stored, ByUser, config) == asked + [TurnCancelRequested, TurnCancelled]
              && StepTrace(round, stored, ByTimeout, config) == asked + [TurnTimedOut]
              && StepResult(round, config) == Some(Error(TurnCancelledError))
            case DeadlineFirst =>
              && StepTrace(round, stored, ByUser, config) == asked + [TurnTimedOut]
              && StepResult(round, config) == Some(Error(TimeoutError))
            case ProviderFailed(error) =>
              && StepTrace(round, stored, ByUser, config) == asked + [TurnFailed(error)]
              && StepResult(round, config) == Some(Error(ProviderFailure))
            case _ => true
  {
    assert Cancellation(ByUser) == [TurnCancelRequested, TurnCancelled] && Cancellation(ByTimeout) == [TurnTimedOut];
    assert forall reason ::
        StepTrace(round, stored, reason, config) == AttemptTrace(round.attempts) + SamplingTrace(round.end, reason);
  }

  /** A request that would be too large is not sent: the turn fails, and nothing else is recorded. */
  lemma TooLargeIsNotSent(round: Round, stored: Option<ProviderContinuation>, reason: CancellationReason,
      config: Config)
    requires round.tooLarge && Planned(round)
    ensures StepTrace(round, stored, reason, config) == [TurnFailed([])]
    ensures StepResult(round, config) == Some(Error(ProviderFailure)) && StepTime(round, config) == 0
  {
  }

  /** A round after which the loop goes on is counted, with the time of its tools, and its continuation is kept. */
  lemma RoundCounts(round: Round, p: Progress, reason: CancellationReason, config: Config)
    requires Planned(round) && RoundVerdict(round, p, reason, config).Continues?
    ensures var v := RoundVerdict(round, p, reason, config);
            && !round.cancelled && !round.tooLarge
            && round.end.Completed? && !round.end.completion.response.TextResponse?
            && v.trace == StepTrace(round, p.stored, reason, config)
            && v.next == Progress(p.steps + 1, p.toolTime + BatchTime(round.plans, config.maxToolResultBytes),
                 round.end.completion.continuation)
            && forall i | 0 <= i < |round.plans| :: CallError(round.plans[i], config.maxToolResultBytes).None?
  {
    assert Handled(round.plans, config.maxToolResultBytes) == |round.plans|;
  }

  // ------------------------------------------------------------------ what a tool returns

  /** A call that cannot be used or whose tool is gone is rejected, takes no time, and the turn goes on. */
  lemma RejectedIsRecorded(call: ToolCall, why: Text, duration: nat, elapsed: nat, reason: CancellationReason,
      limit: nat)
    ensures var gone := RunNow(ToolRun(Unregistered, duration, elapsed, why));
            var trace := [ToolRequested(call.callId, call.name, call.input, false),
                ToolCompleted(call.callId, Rejected(why), 0)];
            && CallTrace(call, Unusable(why), reason, limit) == trace && CallTrace(call, gone, reason, limit) == trace
            && CallError(Unusable(why), limit) == None && CallError(gone, limit) == None
            && PlanTime(Unusable(why)) == 0 && PlanTime(gone) == 0
  {
  }

  /** A call that needs approval leaves its request and waits. */
  lemma ApprovalIsAwaited(call: ToolCall, reason: CancellationReason, limit: nat)
    ensures CallTrace(call, NeedsApproval, reason, limit)
              == [ToolRequested(call.callId, call.name, call.input, true)]
    ensures CallError(NeedsApproval, limit) == Some(ApprovalPending)
  {
  }

  /** An output within the limit is recorded as it is, and the turn goes on unless it was cancelled meanwhile. */
  lemma OutputIsRecorded(id: CallId, output: Text, duration: nat, elapsed: nat, why: Text, reason: CancellationReason,
      limit: nat)
    requires |output| <= limit
    ensures var run := ToolRun(Ended(Output(output), false), duration, elapsed, why);
            RunTrace(id, run, reason, limit) == [ToolCompleted(id, Succeeded(output), duration)]
            && RunError(run, limit) == None
    ensures var run := ToolRun(Ended(Output(output), true), duration, elapsed, why);
            RunTrace(id, run, ByUser, limit)
              == [ToolCompleted(id, Succeeded(output), duration), TurnCancelRequested, TurnCancelled]
            && RunTrace(id, run, ByTimeout, limit) == [ToolCompleted(id, Succeeded(output), duration), TurnTimedOut]
            && RunError(run, limit) == Some(TurnCancelledError)
    ensures var run := ToolRun(Interrupted(Some(Output(output))), duration, elapsed, why);
            RunTrace(id, run, ByUser, limit)
              == [TurnCancelRequested, ToolCompleted(id, Succeeded(output), duration), TurnCancelled]
            && RunTrace(id, run, ByTimeout, limit) == [ToolCompleted(id, Succeeded(output), duration), TurnTimedOut]
            && RunError(run, limit) == Some(TurnCancelledError)
  {
  }

  /** An error is recorded under its message, which also fails the turn. */
  lemma ErrorIsRecorded(id: CallId, error: Text, duration: nat, elapsed: nat, why: Text, reason: CancellationReason,
      limit: nat)
    ensures var run := ToolRun(Ended(ToolError(error), false), duration, elapsed, why);
            RunTrace(id, run, reason, limit) == [ToolCompleted(id, Failed(error), duration), TurnFailed(error)]
            && RunError(run, limit) == Some(ToolFailure)
    ensures var run := ToolRun(Interrupted(Some(ToolError(error))), duration, elapsed, why);
            RunTrace(id, run, ByTimeout, limit) == [ToolCompleted(id, Failed(error), duration), TurnTimedOut]
            && RunError(run, limit) == Some(TurnCancelledError)
    ensures var run := ToolRun(Ended(ToolError(error), true), duration, elapsed, why);
            RunTrace(id, run, ByTimeout, limit) == [ToolCompleted(id, Failed(error), duration), TurnTimedOut]
            && RunError(run, limit) == Some(TurnCancelledError)
  {
  }

  /** So is a panic, unless the tool was interrupted: then its outcome is unknown. */
  lemma PanicIsRecorded(id: CallId, duration: nat, elapsed: nat, why: Text, limit: nat)
    ensures var run := ToolRun(Ended(Panicked, false), duration, elapsed, why);
            var message := Ascii("tool task panicked");
            RunTrace(id, run, ByUser, limit) == [ToolCompleted(id, Failed(message), duration), TurnFailed(message)]
            && RunError(run, limit) == Some(ToolFailure)
    ensures var run := ToolRun(Interrupted(Some(Panicked)), duration, elapsed, why);
            RunTrace(id, run, ByUser, limit) == [TurnCancelRequested, ToolOutcomeUnknown(id, why)]
            && RunError(run, limit) == Some(TurnCancelledError)
  {
  }

  /** An output beyond the limit is a failure, cancelled or not, and none of it is recorded. */
  lemma OversizedIsFailure(id: CallId, output: Text, cancelled: bool, duration: nat, elapsed: nat, why: Text,
      reason: CancellationReason, limit: nat) returns (message: Text)
    requires |output| > limit
    ensures var run := ToolRun(Ended(Output(output), cancelled), duration, elapsed, why);
            RunTrace(id, run, reason, limit) == [ToolCompleted(id, Failed(message), duration), TurnFailed(message)]
            && RunError(run, limit) == Some(ToolFailure)
    ensures var run := ToolRun(Interrupted(Some(Output(output))), duration, elapsed, why);
            RunTrace(id, run, ByTimeout, limit) == [ToolCompleted(id, Failed(message), duration), TurnTimedOut]
            && RunError(run, limit) == Some(TurnCancelledError)
    ensures message == Ascii("tool result exceeds the byte limit")
  {
    message := OutcomeOf(Output(output), limit).error;
  }

  /** What is not known of an interrupted tool is recorded as unknown, and ends nothing. */
  lemma UnknownIsRecorded(id: CallId, duration: nat, elapsed: nat, why: Text, limit: nat)
    ensures var run := ToolRun(Interrupted(None), duration, elapsed, why);
            RunTrace(id, run, ByUser, limit) == [TurnCancelRequested, ToolOutcomeUnknown(id, why)]
            && RunTrace(id, run, ByTimeout, limit) == [ToolOutcomeUnknown(id, why)]
            && RunError(run, limit) == Some(TurnCancelledError)
    ensures var run := ToolRun(Overdue, duration, elapsed, why);
            RunTrace(id, run, ByUser, limit) == [ToolOutcomeUnknown(id, why)]
            && RunError(run, limit) == Some(TimeoutError)
  {
  }

  // ------------------------------------------------------------------ when time runs out

  /** Nothing in a round takes until a deadline. */
  predicate InTime(round: Round) {
    && !round.end.DeadlineFirst?
    && forall i | 0 <= i < |round.plans| :: round.plans[i].RunNow? ==> !round.plans[i].run.course.Overdue?
  }

  lemma {:induction false} BatchInTime(plans: seq<CallPlan>, limit: nat)
    requires forall i | 0 <= i < |plans| :: plans[i].RunNow? ==> !plans[i].run.course.Overdue?
    ensures BatchError(plans, limit) != Some(TimeoutError)
  {
    if plans != [] { BatchInTime(plans[1..], limit); }
  }

  /** With both limits disabled, and no deadline of a request or a tool met, a turn never times out. */
  lemma {:induction false} DisabledLimitsNeverExpire(rounds: seq<Round>, p: Progress, reason: CancellationReason,
      config: Config)
    requires Enough(rounds, p, config) && config.maxTurnDuration == 0 && config.maxToolTime == 0
    requires forall k | 0 <= k < |rounds| :: InTime(rounds[k])
    ensures LoopCourse(rounds, p, reason, config).result != Error(TimeoutError)
    decreases |rounds|
  {
    var v := RoundVerdict(rounds[0], p, reason, config);
    BatchInTime(rounds[0].plans, config.maxToolResultBytes);
    if v.Continues? {
      DisabledLimitsNeverExpire(rounds[1..], v.next, reason, config);
    }
  }

  /** A limit that is set stops the loop at the head of the next round once it is used up. */
  lemma SetLimitsExpire(rounds: seq<Round>, p: Progress, reason: CancellationReason, config: Config)
    requires Enough(rounds, p, config) && !rounds[0].cancelled && p.steps < config.maxSteps
    requires || (config.maxTurnDuration > 0 && rounds[0].expired)
             || (config.maxToolTime > 0 && p.toolTime >= config.maxToolTime)
    ensures LoopCourse(rounds, p, reason, config) == Course([TurnTimedOut], Error(TimeoutError))
  {
  }

  /** A cancellation is seen before anything else; after the last step nothing more is asked. */
  lemma HeadStops(rounds: seq<Round>, p: Progress, config: Config)
    requires Enough(rounds, p, config)
    ensures rounds[0].cancelled ==>
              && LoopCourse(rounds, p, ByUser, config)
                   == Course([TurnCancelRequested, TurnCancelled], Error(TurnCancelledError))
              && LoopCourse(rounds, p, ByTimeout, config) == Course([TurnTimedOut], Error(TurnCancelledError))
    ensures !rounds[0].cancelled && p.steps == config.maxSteps ==>
              LoopCourse(rounds, p, ByUser, config) == Course([TurnFailed([])], Error(ProviderFailure))
  {
  }

  /** Time spent in tools adds up over the calls that were run. */
  lemma ToolTimeAddsUp(calls: seq<ToolCall>, plans: seq<CallPlan>, i: nat, run: ToolRun, limit: nat)
    requires i < |plans| == |calls| && plans[i] == RunNow(run) && !run.course.Unregistered?
    requires RunError(run, limit).None?
    ensures BatchTime(plans[i..], limit) == run.elapsed + BatchTime(plans[i + 1..], limit)
    ensures BatchTime([], limit) == 0
  {
    BatchTimeStep(plans, i, limit);
  }
}
