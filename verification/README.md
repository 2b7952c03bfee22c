# Verified model of the agent runtime

A Dafny model of the event-sourced runtime of mini-harness: a durable event log, a reducer that folds it into the
session state, the agent loop that must stay in step with both through crashes, restarts and other processes, the
context window and provider transcript built from the state, and the byte-level transports around it.
`dafny verify dfyconfig.toml` checks everything.

| modules | what they are about |
|---|---|
| `State`, `HistoryJson`, `Reducer`, `ReducerInvariant`, `TurnTrace`, `LogView` | the session state machine: the reducer in place against its specification, its inductive invariant, the words that the events of one tool call can spell, and the state and the grammar of an accepted log read off its events |
| `DriverProtocol`, `DriverProgress`, `AtMostOnce`, `MemoryStore` | several drivers over one store as interleaved steps, with crashes and restores: what cannot happen, and what each step achieves |
| `TurnProtocol`, `RoundLaws`, `Dialogue`, `AgentLoop` | the loop itself as a class, with every exit, budget and failure and the exact events each operation records; those events told one by one; and the conversation they put into the history |
| `EventLogFormat`, `EventLogReading`, `EventLogStore`, `TextLines` | the JSON Lines file as bytes, which files read as which events, and the cached store over it |
| `Context`, `ResponsesInput`, `ChatTranscript`, `SentTranscript`, `Continuation`, `StreamAssembly`, `StreamLaws` | the bounded window and the provider formats derived from it |
| `Utf8`, `Unicode`, `OutputBudget`, `ReadFile`, `LineTransport` | bytes: character boundaries, two pipes sharing a budget, bounded reads, line framing |

## Main results

* **At most once, and only as asked.** In every run of any number of drivers over one store, with crashes and restores
  anywhere, a tool body runs at most once per call of a turn, only after its request is durable and, if it needed approval,
  only after a durable granted approval (`AtMostOnce.ToolRunsAtMostOnce`, `RunsAreAuthorized`). The loop itself never starts
  a call of a turn twice, and starts each tool under the name and with the input its call was requested with
  (`AgentLoop.AgentLoop.StartedOnce`, `StartedAsRequested`).
* **Memory is a fold of the log.** Each driver's state is always the fold of a prefix of the log; a driver that is behind
  is inert; a driver that loses the race never adopts what it speculated, and one that wins holds the fold of the whole new
  log (`DriverProgress.WinnerAdopts`, `Commits`); one writer keeps the whole log replayable. Tools do get to run:
  `DriverProgress.SomeToolRuns` is an execution that starts one.
* **A log determines its session.** The state an accepted log leads to is read off its events alone, without the reducer:
  history, stored continuation, waiting input, status, active turn and its calls (`LogView.StateOfLog`). So is the event it
  takes next: `LogView.AcceptedIff` is the grammar of accepted logs, for every event of every kind.
* **Completed turns.** Completing a turn is accepted exactly when the event is the next of the active turn, the answer
  has room, and each of the turn's calls was requested once, answered once in between if
  it needed approval, and completed once without failure (`TurnTrace.CompletionAcceptedIff`, `CompletedTurnCalls`).
* **The loop does what the model says.** Given what happens in each round, the loop returns exactly one result and records
  exactly one list of events, unless an append fails, which it reports exactly then (`AgentLoop.AgentLoop.RunTurn`,
  `ContinueTurn`, `ApproveTool`, `Append`). When it answers, the history has gained the input, what the model said, each
  requested call under its id with its name, input and output, and the answer, in this order and nothing else
  (`Dialogue.TurnGained`, `ApprovedGained`).
* **Exits and budgets.** Every exit of the loop other than a failed append leaves no active turn, or pauses on exactly one
  more call, which waits for approval and is the only one left open, or leaves a call of unknown outcome; samples and
  requested calls stay within their budgets across approval pauses, and time limits end a turn exactly when they are set and
  used up (`AgentLoop.AgentLoop.ContinueTurn`, `RoundLaws.SetLimitsExpire`, `DisabledLimitsNeverExpire`).
* **What a file says, and caches that do not show.** A file reads as a list of events exactly when it is text within the
  limits, made of lines that spell them, and the reducer accepts them all (`EventLogReading.ReadIff`). Over any script of
  appends, failed appends, reads, `last_seq` queries, repairs and restarts through any handles of one file, every command
  does and returns what it would if the whole file were read each time, as long as the file keeps the event limit, which a
  file written only by the encoder always does; and nothing acknowledged is ever lost, also when it was acknowledged after a
  failed write (`EventLogStore.Serve`, `CachesInvisible`, `AcknowledgedStays`).
* **What is sent.** The request built from the bounded window of the history carries, message by message from the end, the
  text and the reasoning of the full transcript (`SentTranscript.SentReasoning`); saved reasoning meets the assistant
  messages from the right (`ChatTranscript.ReasoningLands`); a turn that ends without an answer keeps of the continuation
  all that the transcript needs (`SentTranscript.GivingUpKeepsTranscript`).
* **Streams.** A streamed answer has the joined text and reasoning, the first id, and one call for each named index with its
  last id, joined name and parsed arguments; the first index in trouble decides the error; and cutting events or moving
  deltas of different indices past each other changes nothing (`StreamLaws.AnswerSays`, `RefusalSays`, `CutEvent`,
  `SwapEvents`).
* **Round trips.** Transcript to history, item by item, with native ids and recorded arguments
  (`ChatTranscript.TranscriptRoundTrip`); written messages to read messages; cut-and-repaired log to the old log or the
  log with the whole event; scalar values to UTF-8 and back (`Unicode.EncodedIsText`, `TextIsEncoded`).

## Modelling decisions

* Identifiers are their rendered text and JSON values their compact rendering, so equality of the model is equality of the
  original. Counters and sizes are unbounded; the limits of the original are constants of the model.
* The JSON codec of one event is a parameter `Codec`. `Sound` states what is used of it, all about the encoder: its lines
  decode to their event and are nonblank UTF-8 without a newline. Nothing is asked of the decoder on other lines.
  `Roomy` adds that no encoded event is shorter than 134 bytes, which holds of events with their identifiers rendered in
  full; it is a hypothesis of `EventLogFormat.WrittenNeverOverfull` and of `EventLogStore.CachesInvisible`, which rests on it.
* One critical section of the file lock is one method call. `append` drops the lock at `src/durable/event_log.rs:595` and
  queries the file's length and time at `:608` to refresh the cache; the methods count that query and the refresh as part of
  the locked step, and likewise the re-read after a failed write (`:599`). What the gap means is proved separately, below.
* Crashes are process crashes: bytes handed to the kernel stay. The file is never deleted. Modification times may move
  freely; with equal lengths they turn out not to matter. Under the lock, a suffix of unexpected length and an empty suffix
  (`src/durable/event_log.rs:317`, `:322`) cannot occur and have no counterpart.
* Both read paths fail in the same cases; which line number the error carries is not modelled, since the full read parses
  everything before it reduces while the suffix path reduces line by line.
* A refused `reduce` may leave a half-changed state. The model keeps that exactly, and `ReducerInvariant.RefusalFrame` says
  when and how little can have changed; reachable states are those of accepted events.
* What happens while the loop runs is a parameter: for each round whether the turn is found cancelled or out of time, whether
  the request is too large, the attempts reported, how the wait for the provider ends, and for each call of the response
  what policy and registry say of it and how its tool runs (`Round`, `SamplingEnd`, `CallPlan`, `ToolRun` of `TurnProtocol`).
  The contracts are functions of it, for every choice; there are as many rounds as steps are left (`Enough`). Event ids,
  time stamps, what other processes append and which accesses to the store fail are arbitrary choices at the point where they
  matter; the store counts the errors it reports (`faults`), and the loop its failed appends (`failures`), both ghost.
* How many bytes an event is encoded in is a parameter of the loop (`sizeOf`), compared with the configured limit.
* `AgentLoop.AgentLoop.Append` goes through the same points as the steps `Check`, `Store` and `Recover` of `DriverProtocol`, and a
  tool may be run only where `DriverProtocol` has its driver authorized: right after the event that authorizes the call.
  The positions of the authorizations used are kept in the ghost field `started`; running a tool requires a fresh one.
* A store that reports an error may have stored the event all the same, and a re-read after a lost race may fail: actions
  `StoreLost` and `RecoverFails` of `DriverProtocol`, `LoseEvent` and `Recover` of `AgentLoop.AgentLoop`. Only `last_seq`, `append`
  and that re-read can fail.
* Between any two accesses of the loop to the store, other processes may append anything (`MemoryStore.InMemoryEventStore.Interfere`).

## Where the code does not give what one might expect

* Cache refresh after the lock is gone: if another process writes between `src/durable/event_log.rs:595` and `:608`, the
  refreshed cache covers bytes never validated. `EventLogStore.RefreshSoundIff` shows that the cache is sound, and answers as a
  full read, exactly when nothing was written in between; `EventLogStore.RefreshMissesForeignEvent` exhibits the event that
  every cached answer then misses.
* `append` never checks the limit of 1,000,000 events that both read paths check (`src/durable/event_log.rs:245`, `:346`).
  A full log takes one more event, after which a full read fails while the cache still answers
  (`EventLogFormat.FullLogTakesOneMore`); cache and full read agree exactly up to the limit (`EventLogStore.FullCacheReads`).
  Lines of the encoder are so long that the limit of 128 MiB always comes first
  (`EventLogFormat.WrittenNeverOverfull`), so this takes a file with shorter lines from elsewhere, which the decoder reads.
* A refused event can leave the active turn changed: `ReducerInvariant.RefusalFrame` gives the exact condition,
  `ReducerInvariant.HalfDoneRefusal` a state and an event.
* `make_cc_continuation` keeps every id of the current answer, so an answer with more than 32 different calls yields a
  continuation the reducer refuses; streamed answers have no limit on calls. `Continuation.ContinuationAcceptedIff` gives the
  exact condition. The loop then reports a failed append and leaves the turn active.
* An answer's streamed calls do not depend on the highest index seen, only on what each index adds up to.
* A call whose approval was denied may still be completed as far as the reducer is concerned, and an approval may be answered
  after the call's outcome was lost. `TurnTrace.Spells` is exact about both; the loop does neither.
* At most once per (turn id, call) needs turn ids to be fresh, as random ids are; per start of a turn nothing is needed.
* When a batch pauses for approval, its later calls are dropped without a trace in the log, which is why exactly one call
  is open then.

## Model

| member | source | states |
|---|---|---|
| Utf8.ScanPrefix | src/executor/local.rs:191-206 | cutting a text inside a character makes it incomplete there, never malformed |
| Utf8.CutText | src/executor/local.rs:205-219 | any cut of valid UTF-8 is valid or incomplete, and the valid part is the longest whole-character prefix within the cut |
| Utf8.BoundaryByte | src/runtime/context.rs:146-148 | a prefix of a text is a text exactly when the cut is not before a continuation byte |
| Utf8.AppendText | src/durable/event_log.rs:339-341 | behind a valid text, the whole is valid exactly when the suffix is, so a suffix may be decoded on its own |
| Unicode.EncodedIsText | src/executor/local.rs:191-206 | encoding any list of Unicode scalar values gives valid text |
| Unicode.TextIsEncoded | src/executor/local.rs:191-206 | and every valid text is such an encoding: nothing overlong, no surrogate, nothing beyond the last scalar value |
| Unicode.BlankIff | src/model/openai_protocol.rs:788 | a text is blank exactly when all its characters have the White_Space property |
| HistoryJson.EncodeSnoc | src/durable/reducer.rs:21-42 | appending an item grows the encoded history by the item and one comma, if it is not the first |
| HistoryJson.EscapeReadsBack | src/durable/reducer.rs:21-42 | the escaped form of every text is a JSON string body that reads back as the text |
| Reducer.ReplayConcat | src/durable/event_log.rs:341-366 | folding a log in two parts is folding it at once |
| Reducer.ReplayLength | src/durable/reducer.rs:94-117 | an accepted log of n events leaves its session at number n |
| Reducer.ReplayPrefix | src/runtime/agent_loop_setup.rs:139-142 | every prefix of an accepted log is accepted |
| Reducer.ReplayNumbers | src/durable/reducer.rs:94-117 | the events of an accepted log are numbered consecutively from one, all in its session |
| Reducer.FoldAll | src/durable/event_log.rs:274-283 | the replay loop of the full read and of recovery computes the fold, or fails exactly when there is none |
| Reducer.Session.Push | src/durable/reducer.rs:21-42 | the in-place push is the specified one, including the rebuilt size and the refusal beyond 8 MiB |
| Reducer.Session.ResetProviderCursor | src/durable/reducer.rs:54-67 | only replay metadata survives, with no response id and the cursor at zero |
| Reducer.Session.Fold | src/durable/reducer.rs:94-365 | the in-place reducer is the specified transition on every event, also in what a refusal leaves behind |
| Reducer.Session.FoldIntoTurn | src/durable/reducer.rs:151-349 | the same for the transitions of an active turn |
| Reducer.Session.FoldCompletion | src/durable/reducer.rs:218-274 | the same for the end of a tool call |
| ReducerInvariant.PushKeepsSize | src/durable/reducer.rs:21-42 | a push is accepted exactly when the encoded history still fits 8 MiB, and the cached size stays exact |
| ReducerInvariant.RequestKeepsTurn | src/durable/reducer.rs:172-192 | requesting a new call keeps the call list duplicate-free and all per-call maps on the same keys |
| ReducerInvariant.ConclusionKeepsTurn | src/durable/reducer.rs:218-274 | concluding a call keeps rejected calls failed and finished calls without a pending approval |
| ReducerInvariant.TurnStepKeepsInvariant | src/durable/reducer.rs:151-349 | every accepted transition of a turn keeps the invariant |
| ReducerInvariant.ReduceKeepsInvariant | src/durable/reducer.rs:94-365 | every accepted event keeps the invariant |
| ReducerInvariant.ReachableInvariant | src/durable/reducer.rs:94-365 | the invariant holds after every accepted log: an active turn exactly when running, shared keys, bounded cursor and ids, exact history size |
| ReducerInvariant.CancellationAccepted | src/runtime/agent_loop.rs:330-344 | from every reachable state with an active turn, cancelling it is accepted and leaves an idle session with no response id |
| ReducerInvariant.TurnRefusalFrame | src/durable/reducer.rs:151-349 | a refused transition of a turn changes nothing but the active turn, and that exactly when it passes its own checks, moves the turn, and the item it records no longer fits |
| ReducerInvariant.RefusalFrame | src/runtime/agent_loop.rs:194-199 | why callers must fold into a clone: a refused event changes nothing but the active turn, and that exactly when it is the next event of that turn, passes the checks of its transition, and its item overflows the history |
| ReducerInvariant.HalfDoneRefusal | src/durable/reducer.rs:151-155 | a concrete session with a history full to the last byte and the response it refuses but half records |
| ReducerInvariant.HistoryAppendOnly | src/durable/reducer.rs:94-365 | the history is append-only: what any prefix of an accepted log recorded stays in front of it, unchanged |
| TurnTrace.TurnBegin | src/durable/reducer.rs:138-150 | nothing after this point of a log starts a turn, and the event before it does |
| TurnTrace.Positions | src/durable/reducer.rs:172-289 | exactly the positions, since the turn started, of the events about one call, in order |
| TurnTrace.Word | src/durable/reducer.rs:172-289 | the steps at those positions |
| TurnTrace.AskSpells | src/durable/reducer.rs:172-192 | a request extends the word the state of its call stands for |
| TurnTrace.AnswerSpells | src/durable/reducer.rs:193-217 | an approval answer extends the word of its call, also after the outcome was lost |
| TurnTrace.EndSpells | src/durable/reducer.rs:218-274 | a completion extends the word of its call, with rejection and failure told apart |
| TurnTrace.LossSpells | src/durable/reducer.rs:275-289 | a lost outcome extends the word of its call |
| TurnTrace.StepKeepsSpelling | src/durable/reducer.rs:151-349 | so every accepted event of the turn keeps state and word in step for every call |
| TurnTrace.WordMatchesState | src/durable/reducer.rs:94-365 | in every accepted log, the reducer's state of a call is the word its events spell |
| TurnTrace.SettledIsClosed | src/durable/reducer.rs:290-310 | the completion check of the reducer holds of a call exactly when its word is asked, answered if needed, ended without failure |
| TurnTrace.CompletionAcceptedIff | src/durable/reducer.rs:290-310 | on any accepted log, completing a turn is accepted exactly when the event is the next one, names the active turn, its answer is recorded already or has room, and every call of the turn is closed |
| TurnTrace.CompletedTurnCalls | src/durable/reducer.rs:172-310 | in a completed turn every call event belongs to a call requested once, completed once after it, not failed, and answered once in between exactly when it required approval |
| TurnTrace.AuthorizedOnce | src/durable/reducer.rs:172-217 | no call of a turn is authorized twice, and a call that needs approval only by the granted answer |
| LogView.StateOfLog | src/durable/reducer.rs:94-365 | every accepted log reads as its state: last number, history item by item, stored continuation, waiting input, status, active turn, last response, and the calls of the turn in order with name and input, all read off the events without the reducer |
| LogView.CompletionRecords | src/durable/reducer.rs:218-274 | the end of a tool adds exactly one item to the history: its call id, the name and the input it was requested with in this turn, and the output or the error message |
| LogView.CursorReset | src/durable/reducer.rs:54-67 | what a turn that ends without an answer keeps of the continuation: everything but response id and cursor, if there is an id or reasoning to replay, else nothing |
| LogView.RequestPosition | src/durable/reducer.rs:172-192 | the name and input on record for a call are those of its request in the latest turn |
| LogView.AcceptedIff | src/durable/reducer.rs:94-365 | the grammar of accepted logs: which event, of any kind, a log takes next, from its events, the words of its calls and the room in its history |
| MemoryStore.InMemoryEventStore.Append | src/durable/memory.rs:11-16 | the event is appended under the next number, whatever number it came with |
| MemoryStore.InMemoryEventStore.ReadFrom | src/durable/memory.rs:17-26 | exactly the events from a number on |
| MemoryStore.InMemoryEventStore.LastSeq | src/durable/memory.rs:27-29 | the number of events stored |
| DriverProtocol.CommitFolds | src/runtime/agent_loop.rs:194-222 | adopting the speculated state after an append under the expected number keeps memory a fold of the log |
| DriverProtocol.NextDriverInvariant | src/runtime/agent_loop.rs:170-224 | each step of a driver keeps its memory a fold of a prefix, and only its own append can authorize a tool; what each step achieves is in the rows of `DriverProgress` |
| DriverProtocol.NextKeepsInvariant | src/runtime/agent_loop.rs:170-224 | a step of one driver disturbs no other |
| DriverProtocol.ExecutionInvariant | src/runtime/agent_loop_setup.rs:118-152 | in every interleaving with crashes and restores, every memory is the fold of a prefix of the log and every run is authorized by an accepted event |
| DriverProtocol.StaleDriverIsInert | src/runtime/agent_loop.rs:175-183 | a driver behind the log appends nothing, starts nothing and keeps its memory, whatever is tried |
| DriverProtocol.LoserDoesNotAdopt | src/runtime/agent_loop.rs:200-221 | a driver that loses the race ends with the fold of the log it re-reads, or with its old memory if that is refused, has no tool to run, and its event is in the log under another number |
| DriverProtocol.CommitReplays | src/runtime/agent_loop.rs:194-222 | an append at the end of the folded log leaves the whole log replayable |
| DriverProtocol.SingleWriterStep | src/runtime/agent_loop.rs:170-224 | with one writer no step loses a race or leaves an event the reducer refuses |
| DriverProtocol.SingleWriterLogReplays | src/runtime/agent_loop_setup.rs:118-152 | with one writer the whole log stays replayable through any crashes, restores and store errors, whether or not the event of a failed append is durable |
| DriverProgress.OfferedIff | src/runtime/agent_loop.rs:175-199 | a driver offers an event exactly when it has seen the whole log and the log with the event is accepted, and may start a tool on its account exactly when the event lets it |
| DriverProgress.WinnerAdopts | src/runtime/agent_loop.rs:200-222 | a driver that wins the race has its event at the end of the log, holds the fold of the whole new log, and is authorized to start its tool, if any |
| DriverProgress.Commits | src/runtime/agent_loop.rs:170-224 | an accepted append with nobody in between: the log is one event longer and memory is its fold |
| DriverProgress.RestoredIff | src/runtime/agent_loop_setup.rs:118-152 | a restore brings the driver back with the fold of the whole log exactly when the log is one of the session, accepted, and did not grow between the two looks at it |
| DriverProgress.StoreErrorKeepsMemory | src/runtime/agent_loop.rs:200 | a store error leaves memory as it was, whether or not the event is durable |
| DriverProgress.RecoveryFails | src/runtime/agent_loop.rs:208-221 | so does a re-read that fails after a lost race |
| DriverProgress.StartsOnce | src/runtime/agent_loop.rs:715-735 | an authorized driver starts its tool once, and a crash starts none |
| DriverProgress.RunsNeedStart | src/runtime/agent_loop.rs:723-735 | no other step starts a tool |
| DriverProgress.NotEnabled | src/runtime/agent_loop.rs:170-224 | an action that is not the driver's turn does nothing |
| DriverProgress.SomeToolRuns | src/runtime/agent_loop.rs:576-735 | an execution of the protocol in which a tool is started on account of a durable request |
| AtMostOnce.ActiveTurnIdentity | src/durable/reducer.rs:138-150 | the active turn carries the id of the latest turn start of the log |
| AtMostOnce.AuthorizedState | src/durable/reducer.rs:351-365 | an accepted authorizing event belongs to the turn that is active right after it |
| AtMostOnce.AuthorizationUnique | src/durable/reducer.rs:172-217 | two authorizations of one call in one turn are the same event |
| AtMostOnce.ToolRunsAtMostOnce | src/runtime/agent_loop.rs:576-670 | over all runs of all drivers, no two tool runs are for the same call of the same turn |
| AtMostOnce.ToolRunsAtMostOncePerTurnId | src/runtime/agent_loop.rs:576-670 | the same per turn id, when turn ids are fresh |
| AtMostOnce.RunsAreAuthorized | src/runtime/agent_loop_approval.rs:30-66 | every run comes after its durable request, and for a call that needs approval after a durable granted answer in the same turn |
| AtMostOnce.RunsDiffer | src/runtime/agent_loop.rs:576-670 | runs that each used up an authorization of their own are never for the same call of the same turn |
| AtMostOnce.StartedAsAsked | src/runtime/agent_loop.rs:689-735 | a start that fits the log is for a call requested in the same turn under that name and with that input |
| AgentLoop.TurnEffect | src/durable/reducer.rs:151-349 | what every accepted event of a turn does to the waiting calls, the open calls, the history and the turn itself |
| AgentLoop.TookEffect | src/runtime/agent_loop.rs:194-222 | the same for an event the loop appended |
| RoundLaws.TextIsAnswered | src/runtime/agent_loop.rs:432-484 | a text response records the attempts, the continuation if it moved, and then response and completion of that very text, and answers with it |
| RoundLaws.CallsAreAnnounced | src/runtime/agent_loop.rs:432-563 | an acceptable batch records the attempts, the continuation if it moved, the spoken text, and then the batch |
| RoundLaws.CallsAreRequested | src/runtime/agent_loop.rs:560-662 | the calls of a batch are requested in order, each with its id, name and input, up to the first that stops the turn |
| RoundLaws.BadBatchFails | src/runtime/agent_loop.rs:489-528 | a batch that is empty, too long or repeats an id fails the turn, and nothing of it is recorded |
| RoundLaws.OneCallSpoken | src/runtime/agent_loop.rs:529-540 | a single call without a text is announced by its name |
| RoundLaws.ManyCallsSpoken | src/runtime/agent_loop.rs:529-540 | several are announced by their names, separated by commas |
| RoundLaws.TextSpoken | src/runtime/agent_loop.rs:534-540 | the model's own text is what is recorded ahead of its calls |
| RoundLaws.SamplingStops | src/runtime/sampling.rs:42-72 | a wait without an answer cancels the turn, times it out, or fails it with the provider's error |
| RoundLaws.TooLargeIsNotSent | src/runtime/agent_loop.rs:406-422 | a request beyond the limit is not sent: the turn fails, and nothing else is recorded |
| RoundLaws.RoundCounts | src/runtime/agent_loop.rs:399-441 | a round after which the loop goes on is counted, with the time of its tools, and its continuation is the stored one |
| RoundLaws.RejectedIsRecorded | src/runtime/agent_loop.rs:588-628 | a call that cannot be used is requested and rejected with the reason, takes no time, and the turn goes on |
| RoundLaws.ApprovalIsAwaited | src/runtime/agent_loop.rs:629-662 | a call that needs approval leaves its request, marked as such, and waits |
| RoundLaws.OutputIsRecorded | src/runtime/agent_loop.rs:848-892 | an output within the limit is recorded as it is; the turn goes on, or is cancelled if it was cancelled meanwhile |
| RoundLaws.ErrorIsRecorded | src/runtime/agent_loop.rs:894-914 | an error is recorded under its message and fails the turn, unless it was cancelled |
| RoundLaws.PanicIsRecorded | src/runtime/agent_loop.rs:792-846 | a panic counts as an error, and as an unknown outcome of an interrupted tool |
| RoundLaws.OversizedIsFailure | src/runtime/agent_loop.rs:850-868 | an output beyond the limit is a failure, cancelled or not, and none of it is recorded |
| RoundLaws.UnknownIsRecorded | src/runtime/agent_loop.rs:792-840 | what is not known of an interrupted or overdue tool is recorded as unknown and leaves the turn active |
| RoundLaws.SetLimitsExpire | src/runtime/agent_loop.rs:387-398 | a limit that is set and used up times the turn out at the head of the next round |
| RoundLaws.DisabledLimitsNeverExpire | src/runtime/agent_loop.rs:387-398 | with both limits disabled and no deadline met while waiting, no turn ever times out |
| RoundLaws.HeadStops | src/runtime/agent_loop.rs:369-386 | a cancellation is seen before anything else, and after the last step nothing more is asked |
| RoundLaws.ToolTimeAddsUp | src/runtime/agent_loop.rs:346-348 | time spent in tools adds up over the calls that were run |
| Dialogue.HistoryGrows | src/durable/reducer.rs:94-365 | what further events add to the history is the items they stand for, one event after the other |
| Dialogue.CallGained | src/runtime/agent_loop.rs:576-670 | a call that lets the turn go on puts its id, name, input and what it shows the model into the history |
| Dialogue.BatchGained | src/runtime/agent_loop.rs:560-563 | a batch puts in one such item per call, in order |
| Dialogue.AnswerGained | src/runtime/agent_loop.rs:443-484 | an answer enters the history once |
| Dialogue.TurnGained | src/runtime/agent_loop.rs:359-565 | an answered turn adds exactly its conversation to the history: per round what the model said and its calls with their outputs, and the answer |
| Dialogue.ApprovedGained | src/runtime/agent_loop_approval.rs:53-67 | an approved turn that is answered adds the approved call with its output, and then its conversation |
| TurnProtocol.SettledCallTrace | src/runtime/agent_loop.rs:135-145 | a call after which the turn goes on leaves exactly its request and one unfailed completion |
| TurnProtocol.StoppedRunTrace | src/runtime/agent_loop.rs:738-846 | a run that stops the turn ends its trace with the end of the turn or the lost outcome, and has neither earlier |
| TurnProtocol.Handled | src/runtime/agent_loop.rs:560-563 | how many calls of a batch are handled: all of them, or up to the first that stops the turn |
| AgentLoop.CheckBatch | src/runtime/agent_loop.rs:489-528 | a batch passes exactly when it is nonempty, without repeated ids, and within the batch limit |
| AgentLoop.AwaitingIsRecorded | src/runtime/agent_loop_approval.rs:46-52 | a call that waits for approval always has its name and input on record, so the loop's two refusals for missing ones never happen |
| AgentLoop.CommitKeepsValid | src/runtime/agent_loop.rs:194-222 | memory after a commit is again a fold of the log that satisfies the invariant |
| AgentLoop.AgentLoop.Restore | src/runtime/agent_loop_setup.rs:118-152 | recovery yields the fold of the whole log of this session, and fails without interference only for an empty, foreign or unfoldable log |
| AgentLoop.AgentLoop.Append | src/runtime/agent_loop.rs:170-224 | success moves memory by exactly the one durable event, which is within the size limit; a loop behind the log changes nothing; every other result has its cause: a store error was reported, the event may exceed the limit, the reducer refuses, or another process has written; after a lost race memory is the fold of the log re-read, or what it was if that is refused or cannot be read; every failure is counted |
| AgentLoop.AgentLoop.Recover | src/runtime/agent_loop.rs:208-217 | memory becomes the fold of the whole log, and stays only if the log is refused or cannot be read |
| AgentLoop.AgentLoop.Record | src/runtime/agent_loop.rs:170-224 | an append to a turn has exactly the effect of its payload on the turn, and is the only event recorded; it fails exactly when the append does |
| AgentLoop.AgentLoop.AppendCancellation | src/runtime/agent_loop.rs:226-236 | success ends the turn, with the request recorded first when the user cancelled |
| AgentLoop.AgentLoop.BeginTurn | src/runtime/agent_loop.rs:303-328 | a fresh turn with the input in the history and fresh budgets, recorded as session start if needed, input, turn start; refused exactly when a turn is active or the input is too long, and then nothing changes |
| AgentLoop.AgentLoop.CancelTurn | src/runtime/agent_loop.rs:330-344 | ends the named active turn by exactly request and cancellation; refused without effect exactly when it is not active |
| AgentLoop.AgentLoop.SampleModel | src/runtime/sampling.rs:19-74 | exactly the reported attempts and the event of its end are recorded; a completion leaves the turn as it was, every other exit but a failed append has ended it |
| AgentLoop.AgentLoop.RecordAttempts | src/runtime/sampling.rs:50-60 | exactly the attempts are recorded, in order, and change nothing the loop looks at |
| AgentLoop.AgentLoop.StopTool | src/runtime/agent_loop.rs:739-823 | cancelling a running tool records what is known of its end and ends the turn, or keeps it active with the outcome on record as unknown |
| AgentLoop.AgentLoop.FinishTool | src/runtime/agent_loop.rs:847-915 | records the end of the tool and then what follows; the turn goes on exactly with the call closed, while a failed, oversized or cancelled run ends it |
| AgentLoop.AgentLoop.RunApprovedTool | src/runtime/agent_loop.rs:673-916 | may be entered only right after the durable event that authorizes the call, if that was not used before, and with the input the call was requested with; uses it up if the tool starts; records exactly the trace of the run; going on means the call is closed, stopping is one of the listed exits; tool time is counted once |
| AgentLoop.AgentLoop.StartedOnce | src/runtime/agent_loop.rs:673-735 | no call of a turn is ever started twice by the loop, whatever other processes append |
| AgentLoop.AgentLoop.StartedAsRequested | src/runtime/agent_loop.rs:689-735 | every tool the loop starts has the name and the input its call was requested with in the same turn |
| AgentLoop.AgentLoop.ExecuteToolCall | src/runtime/agent_loop.rs:576-670 | records exactly the trace of the call, request first; going on leaves waiting and open calls as before; a pause adds exactly this call to both |
| AgentLoop.AgentLoop.RunBatch | src/runtime/agent_loop.rs:560-563 | ends as the first call that stops the turn does, exactly the calls up to it are requested, and the log grows by exactly their traces, one after the other |
| AgentLoop.AgentLoop.RunCalls | src/runtime/agent_loop.rs:560-563 | the loop over the calls, with the position in the log where each handled call begins and ends |
| TurnProtocol.BatchLogged | src/runtime/agent_loop.rs:560-563 | traces that follow each other in the log make up the trace of the batch |
| AgentLoop.AgentLoop.Answer | src/runtime/agent_loop.rs:443-484 | the answer completes the turn by response and completion; no call was open, and the text is in the history exactly once; after one failed append the turn has been failed instead |
| AgentLoop.AgentLoop.Obey | src/runtime/agent_loop.rs:442-564 | a bad batch fails the turn before any request; a good one is recorded as exactly the spoken text and then the traces of its handled calls; result and tool time are those of the response and its plans |
| AgentLoop.AgentLoop.Consult | src/runtime/agent_loop.rs:423-441 | asking the model records exactly the attempts, the end of the wait, and the continuation when it differs from the stored one, which is then the stored one |
| AgentLoop.AgentLoop.Step | src/runtime/agent_loop.rs:401-564 | one request and what follows: result, events and tool time are those of the round |
| AgentLoop.AgentLoop.CountedStep | src/runtime/agent_loop.rs:399-564 | the step is counted before the request, stays within the step and call budgets, and has exactly the result, events and tool time of its round |
| AgentLoop.AgentLoop.RunRound | src/runtime/agent_loop.rs:368-564 | a round returns or goes on exactly as its verdict says: cancelled, out of steps, out of time, or by what the model said |
| AgentLoop.AgentLoop.ContinueTurn | src/runtime/agent_loop.rs:359-565 | terminates; returns and records exactly what the course of its rounds says, unless an append failed, which it reports exactly then; an answer adds exactly the conversation to the history; every other exit has no active turn, one more call waiting and open, or a lost call; samples and requests stay within budget |
| AgentLoop.AgentLoop.RunTurn | src/runtime/agent_loop.rs:286-296 | a whole turn from its input: exactly the events of its opening and of the course of its rounds, and the result of that course; an answer adds the input and exactly the conversation to the history |
| AgentLoop.AgentLoop.Deny | src/runtime/agent_loop_approval.rs:53-63 | a denied approval is recorded and cancels the turn, by exactly those two events |
| AgentLoop.AgentLoop.ApproveTool | src/runtime/agent_loop_approval.rs:23-67 | refused without effect exactly when the turn is not active or the call does not wait; a denial is recorded and cancels the turn; otherwise exactly the events of the approval, of the tool and of the rounds after it, with the budgets going on from the pause, and an answer adds the call with its output and the conversation to the history |
| EventLogFormat.CompletePart | src/durable/event_log.rs:163-166 | the longest newline-terminated prefix |
| EventLogFormat.CompletePartGrows | src/durable/event_log.rs:585-593 | a longer file has the old complete part in front of its own |
| EventLogFormat.CutThenRepair | src/durable/event_log.rs:147-172 | an append cut at any byte and repaired is the old log, or the old log and the whole line |
| EventLogFormat.RepairIdempotent | src/durable/event_log.rs:147-172 | repairing again changes nothing |
| EventLogFormat.ParseConcat | src/durable/event_log.rs:342-366 | parsing lines in two parts is parsing them at once |
| EventLogFormat.SuffixRead | src/durable/event_log.rs:306-388 | a grown file is in order exactly when the suffix is terminated, decodes, parses after the events of the prefix and folds, with the same events |
| EventLogFormat.AppendRead | src/durable/event_log.rs:572-593 | a log in order with one more encoded event is in order with that event at its end, exactly when the reducer accepts it |
| EventLogFormat.FullLogTakesOneMore | src/durable/event_log.rs:572-593 | the event limit is not enforced by append: a full log takes one more event and then fails to read, although all of it is in order |
| EventLogFormat.WrittenAppend | src/durable/event_log.rs:572-593 | an append cut at any byte keeps a file of encoded lines one |
| EventLogFormat.WrittenNeverOverfull | src/durable/event_log.rs:29-30 | in a file of encoded lines the byte limit always comes before the event limit |
| EventLogReading.ReadIff | src/durable/event_log.rs:225-291 | a full read gives a list of events exactly when the file is text within 128 MiB, made of newline-terminated nonblank lines that decode to them, there are no more than a million, and the reducer accepts them all |
| EventLogStore.CacheSurvives | src/durable/event_log.rs:197-204 | a sound cache stays sound while the complete part of the file only grows, whoever writes |
| EventLogStore.FullCacheReads | src/durable/event_log.rs:188-196 | with equal length the cache holds the events of the file, and exactly up to the event limit that is what a full read gives; the time stamp adds nothing |
| EventLogStore.SuffixVerdict | src/durable/event_log.rs:306-388 | what the file holds, from the events of a sound cache and the bytes after them alone |
| EventLogStore.FoldStep | src/durable/event_log.rs:342-366 | stopping at the first event the reducer refuses loses no log that a full read would accept |
| EventLogStore.FoldLines | src/durable/event_log.rs:340-367 | line-by-line validation succeeds exactly when parsing and then folding everything does, with the same events and state |
| EventLogStore.ParseAll | src/durable/event_log.rs:241-273 | the full read's loop computes the specified parse |
| EventLogStore.RefusedLogUnreadable | src/durable/event_log.rs:364-366 | nothing after a refused event makes a log acceptable |
| EventLogStore.JsonlEventStore.ValidateSuffix | src/durable/event_log.rs:306-388 | an advanced cache is the full read of the file, and corruption is reported only when the full read fails |
| EventLogStore.JsonlEventStore.ReadAllLocked | src/durable/event_log.rs:173-291 | whichever path it takes, it answers as a full read, except that a cache of the whole file also answers for an overfull one, with the events it holds; and leaves a sound cache |
| EventLogStore.JsonlEventStore.ReadWhole | src/durable/event_log.rs:225-290 | the full read itself |
| EventLogStore.JsonlEventStore.Append | src/durable/event_log.rs:530-632 | appends exactly the encoded line to an admissible log and changes nothing otherwise; after a failed write the answer is the first event with the id in a re-read, if there is one; only an overfull log may refuse an admissible event; an answer means the file ends in a whole line |
| EventLogStore.JsonlEventStore.RepairPartialTail | src/durable/event_log.rs:147-172 | leaves the complete part of the file and says whether anything was cut |
| EventLogStore.JsonlEventStore.LastSeq | src/durable/event_log.rs:641-662 | the length of what a full read gives, failing exactly when it does; a cache of the whole file also answers for an overfull one |
| EventLogStore.FindById | src/durable/event_log.rs:596-607 | the first event with the id, or none exactly when there is none |
| EventLogStore.FoundAtTheEnd | src/durable/event_log.rs:596-607 | under an id not used before, the event found in the re-read is the one appended |
| EventLogStore.BrokenAppendRead | src/durable/event_log.rs:596-607 | after a write broken off, the log is the old one if no byte arrived, unreadable if some did, and the old one and the whole event if all did and the reducer accepts it |
| EventLogStore.GrownCacheSound | src/durable/event_log.rs:608-629 | the cache refreshed after an append is sound for the file as appended to |
| EventLogStore.RefreshSoundIff | src/durable/event_log.rs:594-629 | taken after the lock is dropped, the refreshed cache is sound, and answers as a full read, exactly when nothing was written in between |
| EventLogStore.RefreshMissesForeignEvent | src/durable/event_log.rs:594-629 | an acceptable event that another process appends in between is in the log, and not in the refreshed cache |
| EventLogStore.Dispatch | src/durable/event_log.rs:197-204 | one command of one handle does and returns what the file alone says it should, and keeps the caches of all other handles sound |
| EventLogStore.Serve | src/durable/event_log.rs:173-662 | over any script of operations through any handles, every command does and returns what the file alone says it should, whatever the caches hold; only an overfull file leaves a choice |
| EventLogStore.CachesInvisible | src/durable/event_log.rs:173-662 | in a file only the encoder wrote, every command leaves in the file and returns exactly what it would if the whole file were read for every command |
| EventLogStore.AcknowledgedStays | src/durable/event_log.rs:530-632 | the file an append is acknowledged with, also after a failed write, stays in front of the file whatever follows |
| EventLogStore.NoLogNoAppend | src/durable/event_log.rs:533-538 | a file that does not read as a log, or one of another session, is left as it is |
| EventLogStore.AdmissibleIff | src/durable/event_log.rs:553-584 | an event of the session is numbered next and has room exactly when its line keeps the file within 128 MiB |
| EventLogStore.LastNumber | src/durable/event_log.rs:641-662 | the number asked for is that of the last event of the full read, zero when there is none |
| TextLines.LinesConcat | src/durable/event_log.rs:242-243 | the lines of a terminated text and what follows are the lines of both |
| Context.BoundTextLoop | src/runtime/context.rs:140-150 | a text within 16 KiB stays as it is; a longer one keeps its longest whole-character prefix below the marker and stays within 16 KiB |
| Context.KeptPartIsLongest | src/runtime/context.rs:144-149 | the kept part is the longest whole-character prefix of that length |
| Context.BoundTextShrinks | src/runtime/context.rs:140-150 | a bounded text never encodes longer than the original |
| Context.BoundTextTight | src/runtime/context.rs:140-150 | and no byte of slack is left: there is a truncated text that encodes to exactly the same length |
| Context.BoundItemsShrink | src/runtime/context.rs:93-109 | a bounded history never encodes longer |
| Context.SuffixGrows | src/runtime/context.rs:120-136 | a longer suffix encodes to more bytes |
| Context.GrowWindow | src/runtime/context.rs:120-136 | the loop stops at the first item beyond the budget or at the cursor, and always takes the last item |
| Context.HistoryStart | src/runtime/context.rs:111-138 | without a response id the longest suffix within 512 KiB or the last item; with one, the cursor or the last item, in closed form |
| Context.SnapshotFits | src/runtime/context.rs:36-55 | the bounded window still fits, unless it is a single item |
| Context.FromState | src/runtime/context.rs:36-55 | the snapshot is that window, ends with the newest item, and its cursor is rebased |
| Context.SnapshotShows | src/runtime/context.rs:93-109 | item by item the snapshot is the history from its start on, with only long texts cut, behind their longest whole-character prefix |
| Context.SnapshotContinues | src/runtime/context.rs:46-55 | the snapshot carries the stored continuation unchanged but for the cursor, counted from the start of the window |
| ResponsesInput.BoundedItems | src/model/openai_protocol.rs:107-144 | the input items of a bounded history are the bounded input items, for the same calls refused |
| ResponsesInput.RebasedInput | src/model/openai_protocol.rs:107-144 | input built from the snapshot with the rebased cursor is, up to bounding, input built from the full history with the stored cursor, for every cursor: one beyond the history is refused by both |
| ResponsesInput.InputSent | src/model/openai_protocol.rs:107-144 | refused exactly when the cursor is beyond the history or a call behind it has no native id; otherwise every item behind the cursor is sent in its place, texts as they are, outputs under their native ids, and assistant texts only without a stored response |
| ResponsesInput.NothingElseSent | src/model/openai_protocol.rs:107-144 | and nothing else is |
| ChatTranscript.BuildMessages | src/model/openai_protocol.rs:433-546 | the loop over the history builds the specified messages with the specified reasoning |
| ChatTranscript.GatherRun | src/model/openai_protocol.rs:457-515 | a maximal run of tool items becomes its calls and its results, in order |
| ChatTranscript.FindAssistants | src/model/openai_protocol.rs:525-529 | exactly the assistant messages, in order, with their rank from the right |
| ChatTranscript.AttachReasoning | src/model/openai_protocol.rs:520-545 | reasoning is paired with the assistant messages from the right, and changes nothing else |
| ChatTranscript.DecodeMessages | src/model/openai_protocol.rs:433-518 | decoding the messages, which demands k tool messages with the same ids in order after k calls, gives the history back |
| ChatTranscript.DecodeIgnoresReasoning | src/model/openai_protocol.rs:520-545 | attached reasoning is invisible to the decoder |
| ChatTranscript.TranscriptRoundTrip | src/model/openai_protocol.rs:433-546 | for every history, id map and saved reasoning, the transcript decodes item by item to the history: texts, names and results as they are, native ids where known, recorded arguments as they are and null ones as an empty object |
| ChatTranscript.OneMessagePerResponse | src/model/openai_protocol.rs:433-518 | there is exactly one assistant message for each response: a text and the calls behind it share one |
| ChatTranscript.RepliesOfTail | src/model/openai_protocol.rs:433-518 | dropping the first item keeps every assistant message but possibly the earliest, which may lose its text or first calls |
| ChatTranscript.RepliesOfSuffix | src/runtime/context.rs:36-55 | the same for any suffix, even one cut inside a tool run |
| ChatTranscript.RepliesWithReasoning | src/model/openai_protocol.rs:520-545 | the reasoning of an assistant message depends only on its rank from the right |
| ChatTranscript.ReasoningSurvivesWindow | src/model/openai_protocol.rs:520-545 | in the transcript of any suffix of the history the j-th assistant message from the end has the reasoning it has in the full transcript |
| ChatTranscript.ReasoningLands | src/model/openai_protocol.rs:520-545 | the j-th assistant message from the end carries the j-th saved slot from the end, as it is, and is otherwise unchanged; messages with no slot left carry none |
| SentTranscript.MessagesOfBound | src/runtime/context.rs:93-109 | the messages of a history bounded item by item are the bounded messages of the history |
| SentTranscript.SentReasoning | src/runtime/context.rs:36-55 | the request built from the snapshot, wherever its window starts, carries message by message from the end the bounded text and the reasoning of the full transcript; only the earliest may have lost text and first calls |
| SentTranscript.TranscriptCarries | src/model/openai_protocol.rs:559-590 | the transcript of a history with its continuation uses the continuation's native ids and its saved reasoning, or its one reasoning value when it has no slots |
| SentTranscript.GivingUpKeepsTranscript | src/durable/reducer.rs:54-67 | whatever the history, the transcript after the cursor was reset is the one the full continuation gives |
| Continuation.MakeContinuation | src/model/openai_protocol.rs:815-880 | terminates with provider, model, endpoint, cursor and latest reasoning in place, no response id, every current id kept, at most 32 ids in all when the answer's own allow it, and the newest 64 reasoning slots |
| Continuation.MergeIds | src/model/openai_protocol.rs:827-834 | older ids overlaid by the answer's own |
| Continuation.DropOldest | src/model/openai_protocol.rs:835-851 | only ids the answer does not need are dropped, and exactly as many as the limit asks, whatever order the table yields |
| Continuation.CurrentIdIsLast | src/model/openai_protocol.rs:827-834 | a call of the answer is known by the native id it was last given |
| Continuation.EarlierIdKept | src/model/openai_protocol.rs:835-851 | an earlier call stays known by its id as long as all ids fit the limit |
| Continuation.SlotsCarriedOn | src/model/openai_protocol.rs:852-869 | the newest reasoning comes last; before it, slot by slot, what was saved before, of which the oldest make way beyond 64 |
| Continuation.AttemptsOnlyCount | src/durable/reducer.rs:168-171 | attempt reports move nothing but the sequence number |
| Continuation.ContinuationAcceptedIff | src/durable/reducer.rs:156-167 | in the turn that asked for it, the continuation is refused exactly when the answer has more than 32 different calls |
| StreamAssembly.ParseStream | src/model/openai_protocol.rs:722-800 | the answer is the one the stream stands for, which the rows of `StreamLaws` state without the parser |
| StreamAssembly.AbsorbOne | src/model/openai_protocol.rs:741-761 | one delta extends exactly its own index in the growing table |
| StreamAssembly.Conclude | src/model/openai_protocol.rs:763-799 | the first slot in trouble decides the error; nameless slots are skipped; an empty answer is refused |
| StreamAssembly.AnswerByIndex | src/model/openai_protocol.rs:704-800 | streams that say the same about every index give the same answer |
| StreamAssembly.AtConcat | src/model/openai_protocol.rs:741-761 | what an index adds up to distributes over concatenation of streams |
| StreamAssembly.SwapDeltas | src/model/openai_protocol.rs:704-800 | neighbouring deltas of different indices may be swapped |
| StreamAssembly.SplitDelta | src/model/openai_protocol.rs:704-800 | a delta may be cut in two anywhere in its name and arguments |
| StreamLaws.OneEventSays | src/model/openai_protocol.rs:720-761 | what one event contributes: its id, text, reasoning and tool deltas |
| StreamLaws.DigestConcat | src/model/openai_protocol.rs:720-761 | over concatenated streams text, reasoning and deltas concatenate, and the first id given stays |
| StreamLaws.SameStretch | src/model/openai_protocol.rs:704-800 | a stretch of a stream may be replaced by one that says the same |
| StreamLaws.CutEvent | src/model/openai_protocol.rs:704-800 | an event may be cut in two anywhere in its text, its reasoning and its deltas |
| StreamLaws.SwapEvents | src/model/openai_protocol.rs:704-800 | events that carry deltas of different indices may change places |
| StreamLaws.AnswerSays | src/model/openai_protocol.rs:763-799 | an answer has the whole text and reasoning, the first id, and for each named index in order one call with its last id, joined name and parsed arguments |
| StreamLaws.RefusalSays | src/model/openai_protocol.rs:763-799 | an error is that of the first index in trouble, or says that the text is blank and no index named |
| OutputBudget.StepKeepsReader | src/executor/process.rs:310-365 | every step keeps a reader's prefix and loses nothing while the shared budget has room |
| OutputBudget.NextKeepsInvariant | src/executor/process.rs:343-365 | the shared counter is always the total kept, within the combined limit |
| OutputBudget.ExecuteKeepsInvariant | src/executor/process.rs:310-365 | the same after every schedule of the two readers |
| OutputBudget.TotalIsScheduleIndependent | src/executor/process.rs:310-365 | under every schedule each stream keeps a prefix within its limit, loses nothing while the combined limit has room, and the final total is what the three limits allow |
| OutputBudget.BothFinish | src/executor/process.rs:310-365 | from every point of every schedule both readers can still finish, however the swaps have gone |
| OutputBudget.RetainedTextIsLongest | src/executor/process.rs:273-286 | the text of either stream is the longest whole-character prefix of what was kept, and truncated exactly when bytes are missing, under every schedule |
| ReadFile.ReadBounded | src/executor/local.rs:177-219 | NUL-free text is never taken for binary and is cut at the longest whole-character prefix within the limit, truncated exactly when the file is longer; and exactly when a file is binary |
| LineTransport.ChunkReader.Consume | mini-harness-server/src/transport.rs:38-56 | consuming drops bytes from the front of the stream, not just of the chunk |
| LineTransport.ReadBoundedLine | mini-harness-server/src/transport.rs:32-70 | one call takes exactly the first line, whatever the chunks, and reports it too large exactly when it is with its newline beyond 1 MiB |
| LineTransport.ReadToEnd | mini-harness-server/src/transport.rs:32-70 | repeated calls cut the stream exactly at its newlines: the chunks leave no trace |
| LineTransport.LineWriter.WriteJsonLine | mini-harness-server/src/transport.rs:6-25 | sends the message and a newline, or nothing when the two exceed 1 MiB |
| LineTransport.WrittenIsRead | mini-harness-server/src/transport.rs:6-70 | what was written is read back, message by message, and nothing else |
| LineTransport.Resynchronizes | mini-harness-server/src/transport.rs:32-70 | an oversized line costs only itself |
| LineTransport.LineEndings | mini-harness-server/src/transport.rs:32-70 | every way a line may end: its newline and one carriage return before it are dropped, a last line without newline is kept whole, and beyond 1 MiB it is reported |
| LineTransport.MessageArrives | mini-harness-server/src/transport.rs:6-70 | a message within the limit arrives as it is, whatever follows; one beyond it leaves no trace |

## Left out

- AgentLoop.AgentLoop.Append: the overflow of the event number is not modelled, since numbers are unbounded here; an event that cannot be encoded at all is not modelled.
- AgentLoop.AgentLoop.ObeyCalls: that a turn whose spoken text cannot be recorded is failed, if that can be recorded, is in the body and not in the contract; `Answer`, `FinishTool` and `ExecuteToolCall` state the like.
- AgentLoop.AgentLoop.RunApprovedTool: the two deadline helpers and measured time are a parameter that says whether the deadline comes first; only the accumulation of tool time is kept.
- ReadFile.ReadBounded: the file does not change between the query of its length and the read; errors of opening it are not modelled.
- OutputBudget.RetainedTextIsLongest: malformed output is decoded lossily by the original; only its length and mark are modelled.
- EventLogStore.JsonlEventStore.Append: the lock is dropped after the write and the cache refreshed without it in the original; here both are one step, and `EventLogStore.RefreshSoundIff` says when that is the same.
- StreamAssembly.ParseStream: starts from parsed deltas; server-sent-event framing, usage and error payloads are not modelled.
- Texts of error messages, line numbers in corruption errors, log diagnostics and tracing.
- `migrate_to_current_schema`: every schema but the current one is rejected on reading, so it never migrates anything.
- Delivery of the history over several Responses API rounds: the stored cursor there is relative to a snapshot, so only rebasing within one snapshot is proved.
- HTTP, TLS, process spawning, signals, JSON parsing, UUIDs and hashing: parameters or arbitrary choices.
- Server scheduling, notification order and deadlock freedom of `mini-harness-server/src/jsonl.rs`.
- Policy word lists, path confinement, redaction, user interface, command line, configuration and benchmarks.
- The result-shrinking loops of `src/tools/read.rs` and `src/tools/bash.rs` and `find_occurrences`: they would only add easy members.
