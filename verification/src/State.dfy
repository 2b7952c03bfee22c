/**
 Session state, durable events and the values they carry. An identifier is kept as its rendered
 text and a JSON value as its compact rendering, so two of them are equal exactly when they render alike.
 */
module State {
  import opened Bytes
  import opened Options

  type Text = Bytes
  type Json = Bytes
  type SessionId = Bytes
  type TurnId = Bytes
  type CallId = Bytes

  /** The JSON value `null`, also the default input of a call whose arguments were never recorded. */
  const JSON_NULL: Json := Ascii("null")

  datatype ToolOutcome = Succeeded(result: Text) | Rejected(error: Text) | Failed(error: Text) {
    /** What the model is shown: the output, or the error message. */
    function AsToolResult(): Text {
      match this
      case Succeeded(result) => result
      case Rejected(error) => error
      case Failed(error) => error
    }
  }

  datatype ExecutionState = Pending | Completed(result: Text) | Errored(error: Text) | OutcomeUnknown

  datatype ApprovalStatus = AwaitingApproval | Approved | Denied

  datatype SessionStatus = Idle | Running | Stopped

  datatype TurnStatus = InProgress | Finished | Broken | Cancelled | TimedOut

  datatype ProviderContinuation = ProviderContinuation(
    provider: Text,
    responseId: Option<Text>,
    model: Text,
    endpoint: Text,
    nativeCallIds: map<CallId, Text>,
    historyCursor: nat,
    reasoningContent: Option<Text>,
    reasoningHistory: seq<Option<Text>>)

  datatype TurnState = TurnState(
    turnId: TurnId,
    status: TurnStatus,
    lastModelResponse: Option<Text>,
    toolCalls: seq<CallId>,
    executions: map<CallId, ExecutionState>,
    toolNames: map<CallId, Text>,
    toolInputs: map<CallId, Json>,
    rejected: set<CallId>,
    approvals: map<CallId, ApprovalStatus>,
    finalText: Option<Text>)

  datatype HistoryItem =
    | User(text: Text)
    | Assistant(text: Text)
    | Tool(callId: CallId, name: Text, input: Json, result: Text)

  datatype SessionState = SessionState(
    sessionId: SessionId,
    status: SessionStatus,
    activeTurn: Option<TurnState>,
    history: seq<HistoryItem>,
    pendingInput: Option<Text>,
    continuation: Option<ProviderContinuation>,
    lastSeq: nat,
    historyBytes: nat)

  datatype Attempt = Attempt(number: nat, clientRequestId: Text, requestId: Option<Text>, responseId: Option<Text>,
      outcome: Text)

  datatype EventPayload =
    | SessionCreated
    | UserInputRecorded(input: Text)
    | TurnStarted
    | ModelResponseRecorded(text: Text)
    | ProviderContinuationUpdated(continuation: Option<ProviderContinuation>)
    | ProviderAttemptRecorded(attempt: Attempt)
    | ToolRequested(callId: CallId, name: Text, arguments: Json, requiresApproval: bool)
    | ToolApprovalResponded(callId: CallId, approved: bool)
    | ToolCompleted(callId: CallId, outcome: ToolOutcome, durationMs: nat)
    | ToolOutcomeUnknown(callId: CallId, reason: Text)
    | TurnCompleted(text: Text)
    | TurnFailed(error: Text)
    | TurnCancelRequested
    | TurnCancelled
    | TurnTimedOut

  datatype Event = Event(eventId: Bytes, seqNo: nat, timestamp: int, sessionId: SessionId, turnId: Option<TurnId>,
      payload: EventPayload)

  function NewTurn(id: TurnId): TurnState {
    TurnState(id, InProgress, None, [], map[], map[], map[], {}, map[], None)
  }

  /** The state before the first event; an empty history is the two bytes `[]`. */
  function NewSession(id: SessionId): SessionState {
    SessionState(id, Idle, None, [], None, None, 0, 2)
  }
}
