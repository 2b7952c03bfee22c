/** Which events each operation of the agent loop leaves in the log, in which order, and how it ends. */
module TurnProtocol {
  import opened Bytes
  import opened Options
  import opened Sequences
  import opened State

  /** Durations of zero are disabled limits; counts of zero are not. */
  datatype Config = Config(maxSteps: nat, maxTurnDuration: nat, maxToolTime: nat, maxBatchToolCalls: nat,
      maxToolResultBytes: nat, maxEventBytes: nat)

  datatype CancellationReason = ByUser | ByTimeout

  function ReasonEvent(reason: CancellationReason): EventPayload {
    if reason.ByUser? then TurnCancelled else TurnTimedOut
  }

  /** A cancellation by the user is requested before it takes effect; a timeout is not. */
  function CancelRequest(reason: CancellationReason): seq<EventPayload> {
    if reason.ByUser? then [TurnCancelRequested] else []
  }

  function Cancellation(reason: CancellationReason): seq<EventPayload> {
    CancelRequest(reason) + [ReasonEvent(reason)]
  }

  function CreationTrace(isNew: bool): seq<EventPayload> {
    if isNew then [SessionCreated] else []
  }

  function OpeningTrace(isNew: bool, input: Text): seq<EventPayload> {
    CreationTrace(isNew) + [UserInputRecorded(input), TurnStarted]
  }

  datatype ToolCall = ToolCall(callId: CallId, name: Text, input: Json)

  datatype ModelResponse =
    | TextResponse(text: Text)
    | OneCall(call: ToolCall)
    | ManyCalls(calls: seq<ToolCall>)
    | TextWithCalls(text: Text, calls: seq<ToolCall>)

  function CallsOf(response: ModelResponse): seq<ToolCall> {
    match response
    case TextResponse(_) => []
    case OneCall(call) => [call]
    case ManyCalls(calls) => calls
    case TextWithCalls(_, calls) => calls
  }

  function JoinNames(calls: seq<ToolCall>): Text {
    if calls == [] then []
    else if |calls| == 1 then calls[0].name
    else calls[0].name + Ascii(", ") + JoinNames(calls[1..])
  }

  /** The assistant text recorded ahead of a batch; made up when the model gave none. */
  function SpokenText(response: ModelResponse): Text {
    if response.TextWithCalls? then response.text
    else Ascii(if |CallsOf(response)| == 1 then "tool call: " else "tool calls: ") + JoinNames(CallsOf(response))
  }

  /** How a call of the loop ends other than with an answer. */
  datatype TurnError =
    | AppendFailed
    | TurnAlreadyActive
    | InputTooLong
    | NotActive
    | NoPendingApproval
    | ApprovalPending
    | TurnCancelledError
    | TimeoutError
    | ProviderFailure
    | ToolFailure
    | PolicyFailure

  datatype TurnResult = Answered(text: Text) | Error(error: TurnError)

  // ------------------------------------------------------------------ sampling

  datatype Completion = Completion(response: ModelResponse, continuation: Option<ProviderContinuation>)

  /** What stops the wait for the provider first. */
  datatype SamplingEnd =
    | CancelledFirst
    | DeadlineFirst
    | Completed(completion: Completion)
    | ProviderFailed(error: Text)

  function AttemptTrace(attempts: seq<Attempt>): (r: seq<EventPayload>)
    ensures |r| == |attempts| && forall i | 0 <= i < |attempts| :: r[i] == ProviderAttemptRecorded(attempts[i])
  {
    seq(|attempts|, i requires 0 <= i < |attempts| => ProviderAttemptRecorded(attempts[i]))
  }

  lemma AttemptTraceSnoc(attempts: seq<Attempt>, i: nat)
    requires i < |attempts|
    ensures AttemptTrace(attempts[..i + 1]) == AttemptTrace(attempts[..i]) + [ProviderAttemptRecorded(attempts[i])]
  {
  }

  function SamplingTrace(end: SamplingEnd, reason: CancellationReason): seq<EventPayload> {
    match end
    case CancelledFirst => Cancellation(reason)
    case DeadlineFirst => [TurnTimedOut]
    case Completed(_) => []
    case ProviderFailed(error) => [TurnFailed(error)]
  }

  function SamplingError(end: SamplingEnd): Option<TurnError> {
    match end
    case CancelledFirst => Some(TurnCancelledError)
    case DeadlineFirst => Some(TimeoutError)
    case Completed(_) => None
    case ProviderFailed(_) => Some(ProviderFailure)
  }

  // ------------------------------------------------------------------ one tool

  /** How a tool task ends: with output, with an error, or by panicking or being aborted. */
  datatype ToolReturn = Output(text: Text) | ToolError(error: Text) | Panicked

  predicate TooLarge(tool: ToolReturn, limit: nat) {
    tool.Output? && |tool.text| > limit
  }

  function OutcomeOf(tool: ToolReturn, limit: nat): ToolOutcome {
    match tool
    case Output(text) => if |text| > limit then Failed(Ascii("tool result exceeds the byte limit")) else Succeeded(text)
    case ToolError(error) => Failed(error)
    case Panicked => Failed(Ascii("tool task panicked"))
  }

  /**
   What happens while a tool runs: it is no longer registered; it is cancelled, and then ends in the grace period or
   not; its deadline passes; or it ends, by which time the turn may have been cancelled.
   */
  datatype ToolCourse =
    | Unregistered
    | Interrupted(ending: Option<ToolReturn>)
    | Overdue
    | Ended(tool: ToolReturn, cancelled: bool)

  datatype ToolRun = ToolRun(course: ToolCourse, duration: nat, elapsed: nat, why: Text)

  predicate Known(ending: Option<ToolReturn>) {
    ending.Some? && !ending.value.Panicked?
  }

  function InterruptedTail(id: CallId, run: ToolRun, reason: CancellationReason, limit: nat): seq<EventPayload>
    requires run.course.Interrupted?
  {
    if Known(run.course.ending)
    then [ToolCompleted(id, OutcomeOf(run.course.ending.value, limit), run.duration), ReasonEvent(reason)]
    else [ToolOutcomeUnknown(id, run.why)]
  }

  function RunTrace(id: CallId, run: ToolRun, reason: CancellationReason, limit: nat): seq<EventPayload> {
    match run.course
    case Unregistered => [ToolCompleted(id, Rejected(run.why), 0)]
    case Interrupted(_) => CancelRequest(reason) + InterruptedTail(id, run, reason, limit)
    case Overdue => [ToolOutcomeUnknown(id, run.why)]
    case Ended(tool, cancelled) =>
        [ToolCompleted(id, OutcomeOf(tool, limit), run.duration)] + AfterTool(tool, cancelled, reason, limit)
  }

  function AfterTool(tool: ToolReturn, cancelled: bool, reason: CancellationReason, limit: nat): seq<EventPayload> {
    if TooLarge(tool, limit) then [TurnFailed(OutcomeOf(tool, limit).error)]
    else if cancelled then Cancellation(reason)
    else if tool.Output? then []
    else [TurnFailed(OutcomeOf(tool, limit).error)]
  }

  function RunError(run: ToolRun, limit: nat): Option<TurnError> {
    match run.course
    case Unregistered => None
    case Interrupted(_) => Some(TurnCancelledError)
    case Overdue => Some(TimeoutError)
    case Ended(tool, cancelled) =>
      if TooLarge(tool, limit) then Some(ToolFailure)
      else if cancelled then Some(TurnCancelledError)
      else if tool.Output? then None
      else Some(ToolFailure)
  }

  // ------------------------------------------------------------------ one call

  /** What policy and registry say of a requested call. */
  datatype CallPlan = Unusable(why: Text) | NeedsApproval | RunNow(run: ToolRun)

  function PlanTrace(id: CallId, plan: CallPlan, reason: CancellationReason, limit: nat): seq<EventPayload> {
    match plan
    case Unusable(why) => [ToolCompleted(id, Rejected(why), 0)]
    case NeedsApproval => []
    case RunNow(run) => RunTrace(id, run, reason, limit)
  }

  function CallTrace(call: ToolCall, plan: CallPlan, reason: CancellationReason, limit: nat): seq<EventPayload> {
    [ToolRequested(call.callId, call.name, call.input, plan.NeedsApproval?)]
        + PlanTrace(call.callId, plan, reason, limit)
  }

  function CallError(plan: CallPlan, limit: nat): Option<TurnError> {
    match plan
    case Unusable(_) => None
    case NeedsApproval => Some(ApprovalPending)
    case RunNow(run) => RunError(run, limit)
  }

  predicate EndsTurn(p: EventPayload) {
    p.TurnCompleted? || p.TurnFailed? || p.TurnCancelled? || p.TurnTimedOut?
  }

  /** A call after which the turn goes on leaves exactly two events: its request and its unfailed completion. */
  lemma SettledCallTrace(call: ToolCall, plan: CallPlan, reason: CancellationReason, limit: nat)
      returns (outcome: ToolOutcome, duration: nat)
    requires CallError(plan, limit).None?
    ensures !outcome.Failed?
    ensures CallTrace(call, plan, reason, limit) ==
            [ToolRequested(call.callId, call.name, call.input, false), ToolCompleted(call.callId, outcome, duration)]
  {
    match plan {
      case Unusable(why) => outcome, duration := Rejected(why), 0;
      case RunNow(run) =>
        match run.course {
          case Unregistered => outcome, duration := Rejected(run.why), 0;
          case Ended(tool, _) =>
            outcome, duration := OutcomeOf(tool, limit), run.duration;
            assert AfterTool(tool, false, reason, limit) == [];
        }
    }
  }

  /**
   A run that stops the turn ends its trace by ending the turn or by putting the lost outcome on record, in no other
   way.
   */
  lemma StoppedRunTrace(id: CallId, run: ToolRun, reason: CancellationReason, limit: nat)
    requires RunError(run, limit).Some?
    ensures var trace := RunTrace(id, run, reason, limit);
            && trace != []
            && (EndsTurn(trace[|trace| - 1]) || trace[|trace| - 1] == ToolOutcomeUnknown(id, run.why))
            && (forall i | 0 <= i < |trace| - 1 :: !EndsTurn(trace[i]) && !trace[i].ToolOutcomeUnknown?)
  {
    match run.course {
      case Interrupted(ending) =>
      case Overdue =>
      case Ended(tool, cancelled) => assert |AfterTool(tool, cancelled, reason, limit)| > 0;
    }
  }

  // ------------------------------------------------------------------ one batch

  /** Calls are handled in order up to the first that stops the turn; the rest of the batch leaves no trace. */
  function BatchError(plans: seq<CallPlan>, limit: nat): Option<TurnError> {
    if plans == [] then None
    else if CallError(plans[0], limit).Some? then CallError(plans[0], limit)
    else BatchError(plans[1..], limit)
  }

  function Handled(plans: seq<CallPlan>, limit: nat): (n: nat)
    ensures n <= |plans|
    ensures BatchError(plans, limit).None? ==> n == |plans| && forall j | 0 <= j < n :: CallError(plans[j], limit).None?
    ensures BatchError(plans, limit).Some? ==>
              n > 0 && CallError(plans[n - 1], limit) == BatchError(plans, limit) && forall j | 0 <= j < n - 1 ::
                  CallError(plans[j], limit).None?
  {
    if plans == [] then 0
    else if CallError(plans[0], limit).Some? then 1
    else 1 + Handled(plans[1..], limit)
  }

  /** The events of the first `n` calls of a batch. */
  function TracesOf(calls: seq<ToolCall>, plans: seq<CallPlan>, n: nat, reason: CancellationReason,
      limit: nat): seq<EventPayload>
    requires n <= |calls| == |plans|
  {
    if n == 0 then []
    else TracesOf(calls, plans, n - 1, reason, limit) + CallTrace(calls[n - 1], plans[n - 1], reason, limit)
  }

  function BatchTrace(calls: seq<ToolCall>, plans: seq<CallPlan>, reason: CancellationReason,
      limit: nat): seq<EventPayload>
    requires |calls| == |plans|
  {
    TracesOf(calls, plans, Handled(plans, limit), reason, limit)
  }

  function BatchResult(plans: seq<CallPlan>, limit: nat): Option<TurnResult> {
    var stop := BatchError(plans, limit);
    if stop.Some? then Some(Error(stop.value)) else None
  }

  /** What a batch leaves behind: the text spoken ahead of it, then the events of its handled calls. */
  function ResponseTrace(response: ModelResponse, plans: seq<CallPlan>, reason: CancellationReason,
      limit: nat): seq<EventPayload>
    requires |plans| == |CallsOf(response)|
  {
    [ModelResponseRecorded(SpokenText(response))] + BatchTrace(CallsOf(response), plans, reason, limit)
  }

  lemma BatchStep(plans: seq<CallPlan>, i: nat, limit: nat)
    requires i < |plans|
    ensures var error := CallError(plans[i], limit);
            && BatchError(plans[i..], limit) == (if error.Some? then error else BatchError(plans[i + 1..], limit))
            && Handled(plans[i..], limit) == (if error.Some? then 1 else 1 + Handled(plans[i + 1..], limit))
  {
    assert plans[i..][1..] == plans[i + 1..];
  }

  // ------------------------------------------------------------------ time spent in tools

  function RunTime(run: ToolRun): nat {
    if run.course.Unregistered? then 0 else run.elapsed
  }

  function PlanTime(plan: CallPlan): nat {
    if plan.RunNow? then RunTime(plan.run) else 0
  }

  function BatchTime(plans: seq<CallPlan>, limit: nat): nat {
    if plans == [] then 0
    else PlanTime(plans[0]) + if CallError(plans[0], limit).Some? then 0 else BatchTime(plans[1..], limit)
  }

  lemma BatchTimeStep(plans: seq<CallPlan>, i: nat, limit: nat)
    requires i < |plans|
    ensures BatchTime(plans[i..], limit) ==
              PlanTime(plans[i]) + if CallError(plans[i], limit).Some? then 0 else BatchTime(plans[i + 1..], limit)
  {
    assert plans[i..][1..] == plans[i + 1..];
  }

  // ------------------------------------------------------------------ the rounds of a turn

  /** What happens to the loop in one round: at its head, while the model is asked, and to each call it asks for. */
  datatype Round = Round(cancelled: bool, expired: bool, tooLarge: bool, attempts: seq<Attempt>, end: SamplingEnd,
      plans: seq<CallPlan>)

  /** There is one plan for each call. */
  predicate Planned(round: Round) {
    round.end.Completed? ==> |round.plans| == |CallsOf(round.end.completion.response)|
  }

  predicate AllPlanned(rounds: seq<Round>) {
    forall k | 0 <= k < |rounds| :: Planned(rounds[k])
  }

  /** What a batch of calls must satisfy before any of them is recorded. */
  predicate AcceptableBatch(calls: seq<ToolCall>, limit: nat) {
    && calls != []
    && (forall i, j | 0 <= i < j < |calls| :: calls[i].callId != calls[j].callId)
    && |calls| <= limit
  }

  /** What obeying a response leaves behind: an answer, a refused batch, or a batch. */
  function ObeyTrace(response: ModelResponse, plans: seq<CallPlan>, reason: CancellationReason,
      config: Config): seq<EventPayload>
    requires |plans| == |CallsOf(response)|
  {
    if response.TextResponse? then [ModelResponseRecorded(response.text), TurnCompleted(response.text)]
    else if !AcceptableBatch(CallsOf(response), config.maxBatchToolCalls) then [TurnFailed([])]
    else ResponseTrace(response, plans, reason, config.maxToolResultBytes)
  }

  function ObeyResult(response: ModelResponse, plans: seq<CallPlan>, config: Config): Option<TurnResult> {
    if response.TextResponse? then Some(Answered(response.text))
    else if !AcceptableBatch(CallsOf(response), config.maxBatchToolCalls) then Some(Error(ProviderFailure))
    else BatchResult(plans, config.maxToolResultBytes)
  }

  function ObeyTime(response: ModelResponse, plans: seq<CallPlan>, config: Config): nat {
    if response.TextResponse? || !AcceptableBatch(CallsOf(response), config.maxBatchToolCalls) then 0
    else BatchTime(plans, config.maxToolResultBytes)
  }

  function ContinuationTrace(stored: Option<ProviderContinuation>, c: Option<ProviderContinuation>): seq<EventPayload> {
    if c == stored then [] else [ProviderContinuationUpdated(c)]
  }

  /** The events of asking the model: its attempts, how the wait ended, and the continuation if it moved. */
  function ConsultTrace(round: Round, stored: Option<ProviderContinuation>,
      reason: CancellationReason): seq<EventPayload>
  {
    AttemptTrace(round.attempts) + SamplingTrace(round.end, reason)
      + if round.end.Completed? then ContinuationTrace(stored, round.end.completion.continuation) else []
  }

  function StepTrace(round: Round, stored: Option<ProviderContinuation>, reason: CancellationReason,
      config: Config): seq<EventPayload>
    requires Planned(round)
  {
    if round.tooLarge then [TurnFailed([])]
    else
      ConsultTrace(round, stored, reason)
      + if round.end.Completed? then ObeyTrace(round.end.completion.response, round.plans, reason, config) else []
  }

  function StepResult(round: Round, config: Config): Option<TurnResult> {
    if round.tooLarge then Some(Error(ProviderFailure))
    else
      match round.end
      case Completed(completion) => ObeyResult(completion.response, round.plans, config)
      case _ => Some(Error(SamplingError(round.end).value))
  }

  function StepTime(round: Round, config: Config): nat {
    if round.tooLarge || !round.end.Completed? then 0
    else ObeyTime(round.end.completion.response, round.plans, config)
  }

  /** A limit that is set and used up. */
  predicate OutOfTime(round: Round, toolTime: nat, config: Config) {
    (config.maxTurnDuration != 0 && round.expired) || (config.maxToolTime != 0 && toolTime >= config.maxToolTime)
  }

  /** What the loop carries from round to round. */
  datatype Progress = Progress(steps: nat, toolTime: nat, stored: Option<ProviderContinuation>)

  /** The events of a round, and how it ends: the loop returns, or goes on. */
  datatype Verdict = Returns(trace: seq<EventPayload>, result: TurnResult) | Continues(trace: seq<EventPayload>,
      next: Progress)

  function RoundVerdict(round: Round, p: Progress, reason: CancellationReason, config: Config): (v: Verdict)
    requires Planned(round)
    ensures v.Continues? ==> p.steps < config.maxSteps && v.next.steps == p.steps + 1
  {
    if round.cancelled then Returns(Cancellation(reason), Error(TurnCancelledError))
    else if p.steps >= config.maxSteps then Returns([TurnFailed([])], Error(ProviderFailure))
    else if OutOfTime(round, p.toolTime, config) then Returns([TurnTimedOut], Error(TimeoutError))
    else
      var trace, r := StepTrace(round, p.stored, reason, config), StepResult(round, config);
      if r.Some? then Returns(trace, r.value)
      else
        Continues(trace, Progress(p.steps + 1, p.toolTime + StepTime(round, config),
            round.end.completion.continuation))
  }

  datatype Course = Course(trace: seq<EventPayload>, result: TurnResult)

  /** There are enough rounds for the steps that are left. */
  predicate Enough(rounds: seq<Round>, p: Progress, config: Config) {
    AllPlanned(rounds) && p.steps <= config.maxSteps < p.steps + |rounds|
  }

  /** Rounds until one ends the turn or pauses it: the events they leave, one after the other, and what is returned. */
  function LoopCourse(rounds: seq<Round>, p: Progress, reason: CancellationReason, config: Config): Course
    requires Enough(rounds, p, config)
    decreases |rounds|
  {
    match RoundVerdict(rounds[0], p, reason, config)
    case Returns(trace, result) => Course(trace, result)
    case Continues(trace, next) => AfterRounds(trace, LoopCourse(rounds[1..], next, reason, config))
  }

  function AfterRounds(trace: seq<EventPayload>, rest: Course): Course {
    Course(trace + rest.trace, rest.result)
  }

  lemma AfterTwice(a: seq<EventPayload>, b: seq<EventPayload>, rest: Course)
    ensures AfterRounds(a, AfterRounds(b, rest)) == AfterRounds(a + b, rest)
  {
    Associative(a, b, rest.trace);
  }

  /** The course of a loop, seen after one more round. */
  lemma NextDone(done: seq<EventPayload>, rounds: seq<Round>, p: Progress, reason: CancellationReason, config: Config)
    requires Enough(rounds, p, config)
    ensures var course := AfterRounds(done, LoopCourse(rounds, p, reason, config));
            match RoundVerdict(rounds[0], p, reason, config)
            case Returns(trace, result) => course == Course(done + trace, result)
            case Continues(trace, next) =>
              && Enough(rounds[1..], next, config)
              && course == AfterRounds(done + trace, LoopCourse(rounds[1..], next, reason, config))
  {
    match RoundVerdict(rounds[0], p, reason, config) {
      case Returns(_, _) =>
      case Continues(trace, next) => AfterTwice(done, trace, LoopCourse(rounds[1..], next, reason, config));
    }
  }

  /** What an approved call leaves behind before the loop goes on. */
  function ApprovedTrace(callId: CallId, run: ToolRun, limit: nat): seq<EventPayload> {
    [ToolApprovalResponded(callId, true)] + RunTrace(callId, run, ByUser, limit)
  }

  /** The rest of a turn from a granted approval on. */
  function ApprovedCourse(callId: CallId, run: ToolRun, rounds: seq<Round>, p: Progress, config: Config): Course
    requires Enough(rounds, p, config)
  {
    var trace, stop := ApprovedTrace(callId, run, config.maxToolResultBytes), RunError(run, config.maxToolResultBytes);
    if stop.Some? then Course(trace, Error(stop.value))
    else AfterRounds(trace, LoopCourse(rounds, p.(toolTime := p.toolTime + RunTime(run)), ByUser, config))
  }

  // ------------------------------------------------------------------ traces in a log

  /** Between two event numbers the log holds exactly these payloads. */
  predicate Logged(log: seq<Event>, from: nat, upTo: nat, ps: seq<EventPayload>) {
    && upTo == from + |ps| <= |log|
    && forall i | 0 <= i < |ps| :: log[from + i].payload == ps[i]
  }

  /** The events of each handled call lie between two marks. */
  predicate CallsLogged(log: seq<Event>, marks: seq<nat>, calls: seq<ToolCall>, plans: seq<CallPlan>,
      reason: CancellationReason, limit: nat) {
    && 0 < |marks| <= |calls| + 1 == |plans| + 1
    && forall i | 0 <= i < |marks| - 1 ::
        Logged(log, marks[i], marks[i + 1], CallTrace(calls[i], plans[i], reason, limit))
  }

  lemma CallLogged(log: seq<Event>, later: seq<Event>, marks: seq<nat>, upTo: nat, calls: seq<ToolCall>,
      plans: seq<CallPlan>, reason: CancellationReason, limit: nat)
    requires CallsLogged(log, marks, calls, plans, reason, limit) && |marks| <= |calls| && log <= later
    requires Logged(later, marks[|marks| - 1], upTo, CallTrace(calls[|marks| - 1], plans[|marks| - 1], reason, limit))
    ensures CallsLogged(later, marks + [upTo], calls, plans, reason, limit)
  {
    var more := marks + [upTo];
    forall i | 0 <= i < |more| - 1 ensures Logged(later, more[i], more[i + 1],
        CallTrace(calls[i], plans[i], reason, limit)) {
      if i < |marks| - 1 {
        LoggedLater(log, later, marks[i], marks[i + 1], CallTrace(calls[i], plans[i], reason, limit));
      }
    }
  }

  lemma LoggedLater(log: seq<Event>, later: seq<Event>, from: nat, upTo: nat, ps: seq<EventPayload>)
    requires Logged(log, from, upTo, ps) && log <= later
    ensures Logged(later, from, upTo, ps)
  {
    forall i | 0 <= i < |ps| ensures later[from + i].payload == ps[i] {
      assert later[from + i] == log[from + i];
    }
  }

  lemma {:induction false} CallsLoggedTogether(log: seq<Event>, marks: seq<nat>, calls: seq<ToolCall>,
      plans: seq<CallPlan>, n: nat, reason: CancellationReason, limit: nat)
    requires CallsLogged(log, marks, calls, plans, reason, limit) && n < |marks| && marks[0] <= |log|
    ensures Logged(log, marks[0], marks[n], TracesOf(calls, plans, n, reason, limit))
  {
    if n > 0 {
      CallsLoggedTogether(log, marks, calls, plans, n - 1, reason, limit);
      LoggedTwice(log, log, marks[0], marks[n - 1], marks[n], TracesOf(calls, plans, n - 1, reason, limit),
                  CallTrace(calls[n - 1], plans[n - 1], reason, limit));
    }
  }

  lemma BatchLogged(log: seq<Event>, marks: seq<nat>, calls: seq<ToolCall>, plans: seq<CallPlan>,
      reason: CancellationReason, limit: nat)
    requires CallsLogged(log, marks, calls, plans, reason, limit) && marks[0] <= |log|
              && |marks| == Handled(plans, limit) + 1
    ensures Logged(log, marks[0], marks[|marks| - 1], BatchTrace(calls, plans, reason, limit))
  {
    CallsLoggedTogether(log, marks, calls, plans, |marks| - 1, reason, limit);
  }

  lemma LoggedTwice(log: seq<Event>, later: seq<Event>, from: nat, mid: nat, upTo: nat, ps: seq<EventPayload>,
      qs: seq<EventPayload>)
    requires Logged(log, from, mid, ps) && log <= later && Logged(later, mid, upTo, qs)
    ensures Logged(later, from, upTo, ps + qs)
  {
    forall i | 0 <= i < |ps + qs| ensures later[from + i].payload == (ps + qs)[i] {
      if i < |ps| {
        assert later[from + i] == log[from + i];
      } else {
        assert later[mid + (i - |ps|)].payload == qs[i - |ps|];
      }
    }
  }

  lemma LoggedPair(log: seq<Event>, later: seq<Event>, from: nat, mid: nat, upTo: nat, p: EventPayload, q: EventPayload)
    requires Logged(log, from, mid, [p]) && log <= later && Logged(later, mid, upTo, [q])
    ensures Logged(later, from, upTo, [p, q])
  {
    LoggedTwice(log, later, from, mid, upTo, [p], [q]);
    assert [p] + [q] == [p, q];
  }

  lemma LastLogged(log: seq<Event>, from: nat, upTo: nat, p: EventPayload)
    requires Logged(log, from, upTo, [p])
    ensures upTo == from + 1 && log[upTo - 1].payload == p
  {
    assert log[from + 0].payload == [p][0];
  }

  /** A tool that stops the turn it was approved in ends the course of the turn. */
  lemma ApprovedStops(callId: CallId, run: ToolRun, rounds: seq<Round>, p: Progress, config: Config)
    requires Enough(rounds, p, config) && RunError(run, config.maxToolResultBytes).Some?
    ensures ApprovedCourse(callId, run, rounds, p, config)
              == Course(ApprovedTrace(callId, run, config.maxToolResultBytes),
                   Error(RunError(run, config.maxToolResultBytes).value))
  {
  }

  /** A tool that lets it go on is followed by the rounds of the turn. */
  lemma ApprovedGoesOn(callId: CallId, run: ToolRun, rounds: seq<Round>, p: Progress, next: Progress, config: Config)
    requires Enough(rounds, p, config) && RunError(run, config.maxToolResultBytes).None?
    requires next == p.(toolTime := p.toolTime + RunTime(run))
    ensures Enough(rounds, next, config)
    ensures ApprovedCourse(callId, run, rounds, p, config)
              == AfterRounds(ApprovedTrace(callId, run, config.maxToolResultBytes),
                   LoopCourse(rounds, next, ByUser, config))
  {
  }

  lemma ApprovedLogged(log: seq<Event>, later: seq<Event>, from: nat, mid: nat, upTo: nat, callId: CallId, run: ToolRun,
      rounds: seq<Round>, p: Progress, next: Progress, config: Config)
    requires Enough(rounds, p, config) && RunError(run, config.maxToolResultBytes).None?
    requires next == p.(toolTime := p.toolTime + RunTime(run))
    requires Logged(log, from, mid, ApprovedTrace(callId, run, config.maxToolResultBytes)) && log <= later
    requires Logged(later, mid, upTo, LoopCourse(rounds, next, ByUser, config).trace)
    ensures Logged(later, from, upTo, ApprovedCourse(callId, run, rounds, p, config).trace)
    ensures ApprovedCourse(callId, run, rounds, p, config).result == LoopCourse(rounds, next, ByUser, config).result
  {
    ApprovedGoesOn(callId, run, rounds, p, next, config);
    LoggedTwice(log, later, from, mid, upTo, ApprovedTrace(callId, run, config.maxToolResultBytes),
        LoopCourse(rounds, next, ByUser, config).trace);
  }
}
