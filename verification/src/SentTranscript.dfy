/** The chat transcript of the bounded snapshot, which is what a request carries, against that of the whole history. */
module SentTranscript {
  import opened Options
  import opened State
  import opened Reducer
  import opened Context
  import opened ChatTranscript
  import opened Continuation

  /** The messages a request is built with, from a history and the continuation that goes with it. */
  function Transcript(h: seq<HistoryItem>, c: Option<ProviderContinuation>): seq<Message> {
    WithReasoning(Messages(h, None, PreviousIds(c)), PreviousReasoning(c))
  }

  /**
   The transcript carries the native ids and the saved reasoning of the continuation: it reads as the history under
   those ids, and its messages carry those slots from the right.
   */
  lemma TranscriptCarries(h: seq<HistoryItem>, c: Option<ProviderContinuation>, ids: NativeIds,
      saved: seq<Option<Text>>, rank: nat) returns (plain: Message, sent: Message)
    requires Saved(c, saved) && ids == (match c case None => map[] case Some(p) => p.nativeCallIds)
    requires 0 < rank <= Responses(h, false)
    ensures var read := Decode(Transcript(h, c));
            read.Some? && |read.value| == |h| && forall i | 0 <= i < |h| :: ReadsAs(h[i], ids, read.value[i])
    ensures HasReply(Replies(Messages(h, None, ids)), rank, plain) && HasReply(Replies(Transcript(h, c)), rank, sent)
    ensures plain.AssistantMessage? && sent.AssistantMessage? && sent.(reasoning := None) == plain
    ensures sent.reasoning == if rank <= |saved| then saved[|saved| - rank] else None
  {
    TranscriptRoundTrip(h, ids, saved);
    plain, sent := ReasoningLands(h, ids, saved, rank);
  }

  function BoundReply(reply: Option<Text>): Option<Text> {
    if reply.Some? then Some(BoundText(reply.value)) else None
  }

  function BoundMessage(m: Message): Message {
    match m
    case UserMessage(content) => UserMessage(BoundText(content))
    case AssistantMessage(reply, calls, reasoning) => AssistantMessage(BoundReply(reply), calls, reasoning)
    case ToolMessage(callId, output) => ToolMessage(callId, BoundText(output))
  }

  function BoundMessages(ms: seq<Message>): (r: seq<Message>)
    ensures |r| == |ms| && forall i | 0 <= i < |ms| :: r[i] == BoundMessage(ms[i])
  {
    seq(|ms|, i requires 0 <= i < |ms| => BoundMessage(ms[i]))
  }

  lemma BoundConcat(a: seq<Message>, b: seq<Message>)
    ensures BoundMessages(a + b) == BoundMessages(a) + BoundMessages(b)
  {
  }

  lemma RunLengthOfBound(h: seq<HistoryItem>)
    ensures RunLength(BoundItems(h)) == RunLength(h)
  {
    RunLengthIs(BoundItems(h), RunLength(h));
  }

  lemma RunItemsOfBound(run: seq<HistoryItem>, boundRun: seq<HistoryItem>, ids: NativeIds)
    requires |boundRun| == |run| && forall i | 0 <= i < |run| ::
              run[i].Tool? && boundRun[i].Tool? && boundRun[i] == BoundItem(run[i])
    ensures CallsOf(boundRun, ids) == CallsOf(run, ids)
    ensures ResultsOf(boundRun, ids) == BoundMessages(ResultsOf(run, ids))
  {
  }

  lemma RunOfBound(h: seq<HistoryItem>, pending: Option<Text>, ids: NativeIds)
    requires h != [] && h[0].Tool?
    ensures Emitted(BoundItems(h), BoundReply(pending), ids) == BoundMessages(Emitted(h, pending, ids))
  {
    RunLengthOfBound(h);
    var run, boundRun := h[..RunLength(h)], BoundItems(h)[..RunLength(h)];
    RunItemsOfBound(run, boundRun, ids);
    BoundConcat([AssistantMessage(pending, CallsOf(run, ids), None)], ResultsOf(run, ids));
  }

  lemma EmittedOfBound(h: seq<HistoryItem>, pending: Option<Text>, ids: NativeIds)
    requires h != []
    ensures Consumed(BoundItems(h)) == Consumed(h)
    ensures Emitted(BoundItems(h), BoundReply(pending), ids) == BoundMessages(Emitted(h, pending, ids))
    ensures StillPending(BoundItems(h)[0]) == BoundReply(StillPending(h[0]))
  {
    RunLengthOfBound(h);
    if h[0].Tool? { RunOfBound(h, pending, ids); }
  }

  /** Bounding the history bounds the messages and changes nothing else about them. */
  lemma {:induction false} MessagesOfBound(h: seq<HistoryItem>, pending: Option<Text>, ids: NativeIds)
    ensures Messages(BoundItems(h), BoundReply(pending), ids) == BoundMessages(Messages(h, pending, ids))
    decreases |h|
  {
    if h != [] {
      EmittedOfBound(h, pending, ids);
      var n := Consumed(h);
      assert BoundItems(h)[n..] == BoundItems(h[n..]);
      MessagesOfBound(h[n..], StillPending(h[0]), ids);
      BoundConcat(Emitted(h, pending, ids), Messages(h[n..], StillPending(h[0]), ids));
    }
  }

  lemma {:induction false} RepliesOfBound(ms: seq<Message>)
    ensures Replies(BoundMessages(ms)) == BoundMessages(Replies(ms))
  {
    if ms != [] {
      assert BoundMessages(ms)[1..] == BoundMessages(ms[1..]);
      RepliesOfBound(ms[1..]);
      BoundConcat(Reply(ms[0]), Replies(ms[1..]));
      assert BoundMessages(Reply(ms[0])) == Reply(BoundMessage(ms[0]));
    }
  }

  lemma AttachToBound(replies: seq<Message>, reasoning: seq<Option<Text>>)
    ensures AttachAll(BoundMessages(replies), reasoning) == BoundMessages(AttachAll(replies, reasoning))
  {
  }

  lemma BoundKeepsEnds(whole: seq<Message>, part: seq<Message>)
    requires EndsWith(whole, part)
    ensures EndsWith(BoundMessages(whole), BoundMessages(part))
  {
    if part != [] {
      BoundDrop(part, 1);
      BoundDrop(whole, |whole| - |part| + 1);
    }
  }

  lemma BoundDrop(ms: seq<Message>, k: nat)
    requires k <= |ms|
    ensures BoundMessages(ms)[k..] == BoundMessages(ms[k..])
  {
  }

  lemma RepliesOfTranscript(h: seq<HistoryItem>, c: Option<ProviderContinuation>)
    ensures Replies(Transcript(BoundItems(h), c)) == BoundMessages(Replies(Transcript(h, c)))
  {
    var ms, reasoning := Messages(h, None, PreviousIds(c)), PreviousReasoning(c);
    MessagesOfBound(h, None, PreviousIds(c));
    RepliesWithReasoning(BoundMessages(ms), reasoning);
    RepliesOfBound(ms);
    AttachToBound(Replies(ms), reasoning);
    RepliesWithReasoning(ms, reasoning);
  }

  /**
   The request built from the snapshot of a session, wherever its window starts: its j-th assistant message from the end
   carries the reasoning of the j-th from the end of the full transcript, and is that message with its text bounded;
   only the earliest may have lost its text and first calls.
   */
  lemma SentReasoning(s: SessionState, start: nat)
    requires start <= |s.history|
    ensures var snapshot := SnapshotFrom(s, start);
            EndsWith(BoundMessages(Replies(Transcript(s.history, s.continuation))),
                     Replies(Transcript(snapshot.history, snapshot.continuation)))
  {
    var snapshot := SnapshotFrom(s, start);
    var c := s.continuation;
    ReasoningSurvivesWindow(s.history, start, PreviousIds(c), PreviousReasoning(c));
    BoundKeepsEnds(Replies(Transcript(s.history, c)), Replies(Transcript(s.history[start..], c)));
    RepliesOfTranscript(s.history[start..], c);
    assert Transcript(snapshot.history, snapshot.continuation) == Transcript(BoundItems(s.history[start..]), c);
  }

  lemma NoReasoningToAttach(ms: seq<Message>, slots: seq<Option<Text>>)
    requires forall i | 0 <= i < |slots| :: slots[i] == None
    ensures WithReasoning(ms, slots) == ms
  {
    forall i | 0 <= i < |ms| ensures WithReasoning(ms, slots)[i] == ms[i] {
      assert ReasoningAt(slots, AssistantCount(ms[i..])) == None;
    }
  }

  /**
   What a turn that ends without an answer keeps of the continuation is enough: whatever the history, the transcript is
   the one the full continuation gives, although the stored response is given up.
   */
  lemma GivingUpKeepsTranscript(h: seq<HistoryItem>, c: Option<ProviderContinuation>)
    ensures Transcript(h, ReplayOnly(c)) == Transcript(h, c)
    ensures ReplayOnly(c).Some? ==> ReplayOnly(c).value.responseId == None && ReplayOnly(c).value.historyCursor == 0
    ensures ReplayOnly(c).Some? ==> c.Some?
    ensures ReplayOnly(c).Some? ==>
              && ReplayOnly(c).value.provider == c.value.provider && ReplayOnly(c).value.model == c.value.model
              && ReplayOnly(c).value.endpoint == c.value.endpoint
  {
    if c.Some? && ReplayOnly(c).None? {
      assert PreviousIds(c) == map[];
      NoReasoningToAttach(Messages(h, None, map[]), PreviousReasoning(c));
      NoReasoningToAttach(Messages(h, None, map[]), []);
    }
  }
}
