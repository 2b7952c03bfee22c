/** Input items of a Responses-style request that continues a stored response. */
module ResponsesInput {
  import opened Options
  import opened State
  import opened Context

  datatype InputItem = UserItem(content: Text) | AssistantItem(content: Text) | CallOutput(nativeId: Text, output: Text)

  datatype BuiltInput = Input(items: seq<InputItem>) | InvalidCursor | MissingCallId

  function Prepend(items: seq<InputItem>, rest: BuiltInput): BuiltInput {
    if rest.Input? then Input(items + rest.items) else rest
  }

  /** One item's share; assistant texts are already on the server when a response is continued. */
  function OwnItems(item: HistoryItem, c: Option<ProviderContinuation>): BuiltInput {
    match item
    case User(text) => Input([UserItem(text)])
    case Assistant(text) => Input(if c.Some? then [] else [AssistantItem(text)])
    case Tool(callId, _, _, result) =>
      if c.Some? && callId in c.value.nativeCallIds
      then Input([CallOutput(c.value.nativeCallIds[callId], result)])
      else MissingCallId
  }

  function BuildItems(history: seq<HistoryItem>, c: Option<ProviderContinuation>): BuiltInput {
    if history == [] then Input([])
    else
      var own := OwnItems(history[0], c);
      if own.Input? then Prepend(own.items, BuildItems(history[1..], c)) else own
  }

  function BuildInput(history: seq<HistoryItem>, c: Option<ProviderContinuation>): BuiltInput {
    var start := if c.Some? then c.value.historyCursor else 0;
    if start > |history| then InvalidCursor else BuildItems(history[start..], c)
  }

  function BoundInputItem(item: InputItem): InputItem {
    match item
    case UserItem(content) => UserItem(BoundText(content))
    case AssistantItem(content) => AssistantItem(BoundText(content))
    case CallOutput(id, output) => CallOutput(id, BoundText(output))
  }

  function BoundInputItems(items: seq<InputItem>): (r: seq<InputItem>)
    ensures |r| == |items| && forall i | 0 <= i < |items| :: r[i] == BoundInputItem(items[i])
  {
    seq(|items|, i requires 0 <= i < |items| => BoundInputItem(items[i]))
  }

  function BoundInput(b: BuiltInput): BuiltInput {
    if b.Input? then Input(BoundInputItems(b.items)) else b
  }

  lemma BoundPrepend(items: seq<InputItem>, rest: BuiltInput)
    ensures BoundInput(Prepend(items, rest)) == Prepend(BoundInputItems(items), BoundInput(rest))
  {
    if rest.Input? {
      assert BoundInputItems(items + rest.items) == BoundInputItems(items) + BoundInputItems(rest.items);
    }
  }

  lemma BoundOwnItems(item: HistoryItem, c: Option<ProviderContinuation>, d: Option<ProviderContinuation>)
    requires c.Some? <==> d.Some?
    requires c.Some? ==> c.value.nativeCallIds == d.value.nativeCallIds
    ensures OwnItems(BoundItem(item), c) == BoundInput(OwnItems(item, d))
  {
    if OwnItems(item, d).Input? {
      assert OwnItems(BoundItem(item), c).items == BoundInputItems(OwnItems(item, d).items);
    }
  }

  /** The items depend on a continuation only through its presence and its native ids. */
  lemma {:induction false} BoundedItems(history: seq<HistoryItem>, c: Option<ProviderContinuation>,
      d: Option<ProviderContinuation>)
    requires c.Some? <==> d.Some?
    requires c.Some? ==> c.value.nativeCallIds == d.value.nativeCallIds
    ensures BuildItems(BoundItems(history), c) == BoundInput(BuildItems(history, d))
  {
    if history == [] {
      assert BoundItems(history) == [] && BoundInputItems([]) == [];
    } else {
      BoundedItems(history[1..], c, d);
      assert BoundItems(history)[1..] == BoundItems(history[1..]);
      var own := OwnItems(history[0], d);
      BoundOwnItems(history[0], c, d);
      if own.Input? { BoundPrepend(own.items, BuildItems(history[1..], d)); }
    }
  }

  /**
   Cutting the history to the window and rebasing the cursor changes nothing a continued response is sent:
   the request is the one the whole history and the stored cursor give, each text bounded,
   and it fails in exactly the same cases.
   */
  lemma RebasedInput(s: SessionState, start: nat)
    requires ResumesResponse(s) && WindowStart(s, start)
    ensures var snapshot := SnapshotFrom(s, start);
            BuildInput(snapshot.history, snapshot.continuation) == BoundInput(BuildInput(s.history, s.continuation))
  {
    var snapshot := SnapshotFrom(s, start);
    var cursor := s.continuation.value.historyCursor;
    CursorInWindow(s, start);
    if cursor <= |s.history| {
      BuildRebased(s.history, cursor, start, snapshot.continuation, s.continuation);
    }
  }

  lemma BuildRebased(h: seq<HistoryItem>, cursor: nat, start: nat, c: Option<ProviderContinuation>,
      d: Option<ProviderContinuation>)
    requires start <= cursor <= |h| && c.Some? && d.Some? && d.value.historyCursor == cursor
    requires c.value == d.value.(historyCursor := cursor - start)
    ensures BuildInput(BoundItems(h[start..]), c) == BoundInput(BuildInput(h, d))
  {
    assert BoundItems(h[start..])[cursor - start..] == BoundItems(h[cursor..]);
    BoundedItems(h[cursor..], c, d);
  }

  // ------------------------------------------------------------------ what is sent, item by item

  /** Assistant texts are not sent to a server that produced them. */
  predicate Skipped(item: HistoryItem, c: Option<ProviderContinuation>) {
    item.Assistant? && c.Some?
  }

  function SentCount(h: seq<HistoryItem>, c: Option<ProviderContinuation>): nat {
    if h == [] then 0 else (if Skipped(h[0], c) then 0 else 1) + SentCount(h[1..], c)
  }

  /** How an item of the history must read in the request. */
  predicate SentAs(item: HistoryItem, c: Option<ProviderContinuation>, sent: InputItem) {
    match item
    case User(text) => sent == UserItem(text)
    case Assistant(text) => sent == AssistantItem(text)
    case Tool(callId, _, _, result) =>
      c.Some? && callId in c.value.nativeCallIds && sent == CallOutput(c.value.nativeCallIds[callId], result)
  }

  /** Every item that is not skipped is sent, in its place among those that are. */
  lemma {:induction false} ItemSent(h: seq<HistoryItem>, c: Option<ProviderContinuation>, i: nat)
    requires BuildItems(h, c).Input? && i < |h| && !Skipped(h[i], c)
    ensures SentCount(h[..i], c) < |BuildItems(h, c).items|
    ensures SentAs(h[i], c, BuildItems(h, c).items[SentCount(h[..i], c)])
  {
    var rest := h[1..];
    if i == 0 {
      assert h[..0] == [];
    } else {
      assert h[..i][1..] == rest[..i - 1] && rest[i - 1] == h[i];
      ItemSent(rest, c, i - 1);
    }
  }

  lemma {:induction false} NothingElseSent(h: seq<HistoryItem>, c: Option<ProviderContinuation>)
    requires BuildItems(h, c).Input?
    ensures |BuildItems(h, c).items| == SentCount(h, c)
  {
    if h != [] { NothingElseSent(h[1..], c); }
  }

  /** A call whose native id is known. */
  predicate Addressed(item: HistoryItem, c: Option<ProviderContinuation>) {
    item.Tool? ==> c.Some? && item.callId in c.value.nativeCallIds
  }

  lemma {:induction false} BuiltIff(h: seq<HistoryItem>, c: Option<ProviderContinuation>)
    ensures if forall i | 0 <= i < |h| :: Addressed(h[i], c) then BuildItems(h, c).Input?
            else BuildItems(h, c) == MissingCallId
  {
    if h != [] {
      BuiltIff(h[1..], c);
      assert forall i | 0 < i < |h| :: h[1..][i - 1] == h[i];
    }
  }

  /**
   The request sends what follows the cursor, item by item; it is refused exactly when the cursor is beyond the history
   or a call behind it has no native id.
   */
  lemma InputSent(h: seq<HistoryItem>, c: Option<ProviderContinuation>)
    ensures var start := match c case None => 0 case Some(stored) => stored.historyCursor;
            if start > |h| then BuildInput(h, c) == InvalidCursor
            else if exists i | start <= i < |h| :: !Addressed(h[i], c) then BuildInput(h, c) == MissingCallId
            else BuildInput(h, c).Input? && |BuildInput(h, c).items| == SentCount(h[start..], c)
    ensures var start := match c case None => 0 case Some(stored) => stored.historyCursor;
            BuildInput(h, c).Input? ==> start <= |h| && forall i | start <= i < |h| && !Skipped(h[i], c) ::
                var k := SentCount(h[start..i], c);
                k < |BuildInput(h, c).items| && SentAs(h[i], c, BuildInput(h, c).items[k])
  {
    var start := match c case None => 0 case Some(stored) => stored.historyCursor;
    if start <= |h| {
      var sent := h[start..];
      BuiltIff(sent, c);
      assert forall i | start <= i < |h| :: sent[i - start] == h[i];
      if BuildInput(h, c).Input? {
        NothingElseSent(sent, c);
        forall i | start <= i < |h| && !Skipped(h[i], c)
          ensures var k := SentCount(h[start..i], c);
                  k < |BuildInput(h, c).items| && SentAs(h[i], c, BuildInput(h, c).items[k])
        {
          assert sent[..i - start] == h[start..i];
          ItemSent(sent, c, i - start);
        }
      }
    }
  }
}
