/**
 The provider-facing window over the history: where it starts, how its texts are bounded, how its cursor is rebased.
 */
module Context {
  import opened Bytes
  import opened Options
  import opened Utf8
  import opened State
  import opened HistoryJson

  const MAX_CONTEXT_ITEM_BYTES: nat := 16 * 1024
  const MAX_CONTEXT_HISTORY_BYTES: nat := 512 * 1024
  const TRUNCATION_MARKER: Text := [NEWLINE] + Ascii("[context item truncated]")
  const MARKER_START: nat := MAX_CONTEXT_ITEM_BYTES - 25

  datatype ContextSnapshot = ContextSnapshot(history: seq<HistoryItem>, continuation: Option<ProviderContinuation>)

  // ------------------------------------------------------------------ bounding one text

  predicate IsCharBoundary(s: Text, n: nat) {
    n == 0 || n == |s| || (n < |s| && !IsContinuation(s[n]))
  }

  /** The last character boundary at or below `n`. */
  function BoundaryAtMost(s: Text, n: nat): (m: nat)
    ensures m <= n && IsCharBoundary(s, m)
    ensures forall k | m < k <= n :: !IsCharBoundary(s, k)
  {
    if IsCharBoundary(s, n) then n else BoundaryAtMost(s, n - 1)
  }

  function BoundText(s: Text): Text {
    if |s| <= MAX_CONTEXT_ITEM_BYTES then s else s[..BoundaryAtMost(s, MARKER_START)] + TRUNCATION_MARKER
  }

  method BoundTextLoop(value: Text) returns (r: Text)
    ensures r == BoundText(value)
    ensures |r| <= MAX_CONTEXT_ITEM_BYTES
    ensures |value| <= MAX_CONTEXT_ITEM_BYTES ==> r == value
    ensures IsText(value) && |value| > MAX_CONTEXT_ITEM_BYTES ==>
              exists m: nat :: LongestTextPrefix(value, MARKER_START, m) && r == value[..m] + TRUNCATION_MARKER
  {
    if |value| <= MAX_CONTEXT_ITEM_BYTES {
      return value;
    }
    assert |TRUNCATION_MARKER| == 25;
    var end: nat := MAX_CONTEXT_ITEM_BYTES - |TRUNCATION_MARKER|;
    while end > 0 && !(end == |value| || !IsContinuation(value[end]))
      invariant end <= MARKER_START
      invariant forall k: nat | end < k <= MARKER_START :: !IsCharBoundary(value, k)
    {
      end := end - 1;
    }
    assert IsCharBoundary(value, end);
    assert BoundaryAtMost(value, MARKER_START) <= end <= BoundaryAtMost(value, MARKER_START);
    if IsText(value) { KeptPartIsLongest(value); }
    return value[..end] + TRUNCATION_MARKER;
  }

  /** The kept part of a bounded text is its longest whole-character prefix below the marker. */
  lemma KeptPartIsLongest(s: Text)
    requires IsText(s) && |s| > MAX_CONTEXT_ITEM_BYTES
    ensures LongestTextPrefix(s, MARKER_START, BoundaryAtMost(s, MARKER_START))
  {
    var m := BoundaryAtMost(s, MARKER_START);
    forall k | 0 <= k <= MARKER_START ensures IsText(s[..k]) == IsCharBoundary(s, k) {
      if k > 0 { BoundaryByte(s, k); } else { assert s[..0] == []; }
    }
    assert IsText(s[..m]);
  }

  lemma EscapedMarker()
    ensures |TRUNCATION_MARKER| == 25
    ensures |Escape(TRUNCATION_MARKER)| == 26
  {
    var words := "[context item truncated]";
    PlainAscii(words);
    EscapeConcat([NEWLINE], Ascii(words));
    assert Escape([NEWLINE]) == EscapeByte(NEWLINE) + Escape([NEWLINE][1..]);
  }

  lemma PlainAscii(s: string)
    requires forall i | 0 <= i < |s| :: 32 <= s[i] as int < 127 && s[i] != '\"' && s[i] != '\\'
    ensures Escape(Ascii(s)) == Ascii(s)
  {
    forall i | 0 <= i < |s| ensures EscapeByte(Ascii(s)[i]) == [Ascii(s)[i]] {
      assert Ascii(s)[i] as int == s[i] as int;
    }
    PlainEscape(Ascii(s));
  }

  /** A bounded text never encodes longer: at least 26 bytes go, and the marker costs 26. */
  lemma BoundTextShrinks(s: Text)
    ensures |EncodeString(BoundText(s))| <= |EncodeString(s)|
  {
    if |s| > MAX_CONTEXT_ITEM_BYTES {
      CutShrinks(s, BoundaryAtMost(s, MARKER_START));
    }
  }

  lemma CutShrinks(s: Text, m: nat)
    requires m + 26 <= |s|
    ensures |Escape(s[..m] + TRUNCATION_MARKER)| <= |Escape(s)|
  {
    var kept, dropped := s[..m], s[m..];
    assert s == kept + dropped;
    EscapedMarker();
    EscapeConcat(kept, TRUNCATION_MARKER);
    EscapeConcat(kept, dropped);
    EscapeGrows(dropped);
  }

  /** ... and no slack is left: one byte over the limit already encodes to exactly the same length. */
  lemma BoundTextTight(s: Text)
    requires |s| == MAX_CONTEXT_ITEM_BYTES + 1 && forall i | 0 <= i < |s| :: s[i] == 97
    ensures BoundText(s) != s && |EncodeString(BoundText(s))| == |EncodeString(s)|
  {
    var m := BoundaryAtMost(s, MARKER_START);
    assert IsCharBoundary(s, MARKER_START);
    EscapedMarker();
    PlainEscape(s);
    PlainEscape(s[..m]);
    EscapeConcat(s[..m], TRUNCATION_MARKER);
    assert BoundText(s)[m] == NEWLINE;
  }

  // ------------------------------------------------------------------ bounding the window

  function BoundItem(item: HistoryItem): HistoryItem {
    match item
    case User(text) => User(BoundText(text))
    case Assistant(text) => Assistant(BoundText(text))
    case Tool(callId, name, input, result) => Tool(callId, name, input, BoundText(result))
  }

  function BoundItems(items: seq<HistoryItem>): (r: seq<HistoryItem>)
    ensures |r| == |items| && forall i | 0 <= i < |items| :: r[i] == BoundItem(items[i])
  {
    seq(|items|, i requires 0 <= i < |items| => BoundItem(items[i]))
  }

  lemma BoundItemShrinks(item: HistoryItem)
    ensures |EncodeItem(BoundItem(item))| <= |EncodeItem(item)|
  {
    match item {
      case User(text) => BoundTextShrinks(text);
      case Assistant(text) => BoundTextShrinks(text);
      case Tool(_, _, _, result) => BoundTextShrinks(result);
    }
  }

  lemma {:induction false} BoundItemsShrink(items: seq<HistoryItem>)
    ensures |EncodeHistory(BoundItems(items))| <= |EncodeHistory(items)|
  {
    if items != [] {
      BoundItemShrinks(items[0]);
      BoundItemsShrink(items[1..]);
      EncodeCons(items[0], items[1..]);
      EncodeCons(BoundItem(items[0]), BoundItems(items[1..]));
      assert items == [items[0]] + items[1..];
      assert BoundItems(items) == [BoundItem(items[0])] + BoundItems(items[1..]);
    }
  }

  // ------------------------------------------------------------------ where the window starts

  predicate Fits(items: seq<HistoryItem>) {
    |EncodeHistory(items)| <= MAX_CONTEXT_HISTORY_BYTES
  }

  predicate ResumesResponse(s: SessionState) {
    s.continuation.Some? && s.continuation.value.responseId.Some?
  }

  /** `start` begins the longest suffix within the budget, or the last item when even that one alone is not. */
  ghost predicate LongestWindow(items: seq<HistoryItem>, start: nat) {
    && start <= |items|
    && (items != [] ==> start < |items|)
    && (start + 1 < |items| ==> Fits(items[start..]))
    && (forall k | 0 <= k < start :: !Fits(items[k..]))
  }

  /** The start of the window, in closed form where a stored response is resumed. */
  ghost predicate WindowStart(s: SessionState, start: nat) {
    if ResumesResponse(s) then
      start == (if s.history == [] then 0
                else if s.continuation.value.historyCursor < |s.history| then s.continuation.value.historyCursor
                else |s.history| - 1)
    else LongestWindow(s.history, start)
  }

  /** The encoded size of an item, counted out. */
  function ItemSize(item: HistoryItem): nat {
    match item
    case User(text) => 11 + |Escape(text)|
    case Assistant(text) => 16 + |Escape(text)|
    case Tool(callId, name, input, result) => 54 + |Escape(callId)| + |Escape(name)| + |input| + |Escape(result)|
  }

  lemma ItemSizeIs(item: HistoryItem)
    ensures |EncodeItem(item)| == ItemSize(item)
  {
  }

  /** The encoded size of the history from an index on: brackets, items, and a comma between any two. */
  function SizeFrom(items: seq<HistoryItem>, start: nat): nat
    requires start <= |items|
    decreases |items| - start
  {
    if start == |items| then 2
    else SizeFrom(items, start + 1) + ItemSize(items[start]) + (if start + 1 == |items| then 0 else 1)
  }

  lemma {:induction false} SizeFromIs(items: seq<HistoryItem>, start: nat)
    requires start <= |items|
    ensures SizeFrom(items, start) == |EncodeHistory(items[start..])|
    decreases |items| - start
  {
    if start < |items| {
      SizeFromIs(items, start + 1);
      EncodeCons(items[start], items[start + 1..]);
      ItemSizeIs(items[start]);
      assert items[start..] == [items[start]] + items[start + 1..];
    } else {
      assert items[start..] == [];
    }
  }

  lemma {:induction false} SizeGrows(items: seq<HistoryItem>, k: nat, j: nat)
    requires k <= j <= |items|
    ensures SizeFrom(items, j) <= SizeFrom(items, k)
    decreases j - k
  {
    if k < j { SizeGrows(items, k + 1, j); }
  }

  /** A longer suffix encodes to more bytes. */
  lemma SuffixGrows(items: seq<HistoryItem>, k: nat, j: nat)
    requires k <= j <= |items|
    ensures |EncodeHistory(items[j..])| <= |EncodeHistory(items[k..])|
  {
    SizeGrows(items, k, j);
    SizeFromIs(items, k);
    SizeFromIs(items, j);
  }

  lemma NoLongerSuffixFits(items: seq<HistoryItem>, start: nat)
    requires 0 < start <= |items| && !Fits(items[start - 1..])
    ensures forall k | 0 <= k < start :: !Fits(items[k..])
  {
    forall k | 0 <= k < start ensures !Fits(items[k..]) {
      SuffixGrows(items, k, start - 1);
    }
  }

  method CountItem(items: seq<HistoryItem>, start: nat, size: nat) returns (next: nat)
    requires 0 < start <= |items| && size == SizeFrom(items, start)
    ensures next == SizeFrom(items, start - 1)
  {
    ItemSizeIs(items[start - 1]);
    next := size + |EncodeItem(items[start - 1])| + (if start != |items| then 1 else 0);
  }

  /** Takes items from the end while the budget lasts, and no further than the cursor; the last item always. */
  method GrowWindow(items: seq<HistoryItem>, cursor: Option<nat>) returns (start: nat)
    ensures start <= |items| && (items != [] ==> start < |items|)
    ensures start + 1 < |items| ==> SizeFrom(items, start) <= MAX_CONTEXT_HISTORY_BYTES
    ensures start == 0 || (cursor.Some? && start <= cursor.value)
              || SizeFrom(items, start - 1) > MAX_CONTEXT_HISTORY_BYTES
    ensures cursor.Some? && start < |items| - 1 ==> start >= cursor.value
  {
    var size := 2;
    start := |items|;
    while start > 0
      invariant start <= |items|
      invariant size == SizeFrom(items, start)
      invariant start + 1 < |items| ==> size <= MAX_CONTEXT_HISTORY_BYTES
      invariant cursor.Some? && start < |items| ==> start > cursor.value
    {
      var nextSize := CountItem(items, start, size);
      if nextSize > MAX_CONTEXT_HISTORY_BYTES && start < |items| {
        break;
      }
      start := start - 1;
      size := nextSize;
      if cursor.Some? && start <= cursor.value {
        break;
      }
    }
  }

  lemma WindowIsLongest(items: seq<HistoryItem>, start: nat)
    requires start <= |items| && (items != [] ==> start < |items|)
    requires start + 1 < |items| ==> SizeFrom(items, start) <= MAX_CONTEXT_HISTORY_BYTES
    requires start == 0 || SizeFrom(items, start - 1) > MAX_CONTEXT_HISTORY_BYTES
    ensures LongestWindow(items, start)
  {
    SizeFromIs(items, start);
    if start > 0 {
      SizeFromIs(items, start - 1);
      NoLongerSuffixFits(items, start);
    }
  }

  method HistoryStart(s: SessionState) returns (r: nat)
    ensures WindowStart(s, r)
  {
    var cursor: Option<nat> := None;
    if s.continuation.Some? && s.continuation.value.responseId.Some? {
      var stored := s.continuation.value.historyCursor;
      cursor := Some(if stored < |s.history| then stored else |s.history|);
    }
    var start := GrowWindow(s.history, cursor);
    if cursor.None? {
      WindowIsLongest(s.history, start);
      return start;
    }
    return if start < cursor.value then start else cursor.value;
  }

  /** The window never starts behind the cursor of a response that is resumed. */
  lemma CursorInWindow(s: SessionState, start: nat)
    requires ResumesResponse(s) && WindowStart(s, start)
    ensures start <= s.continuation.value.historyCursor
  {
  }

  // ------------------------------------------------------------------ the snapshot

  function SnapshotFrom(s: SessionState, start: nat): ContextSnapshot
    requires start <= |s.history|
  {
    ContextSnapshot(
      BoundItems(s.history[start..]),
      if s.continuation.None? then None
      else
        var c := s.continuation.value;
        Some(c.(historyCursor := if c.historyCursor < start then 0 else c.historyCursor - start)))
  }

  /** What the bounded window encodes to stays within the budget unless a single item overruns it. */
  lemma SnapshotFits(s: SessionState, start: nat)
    requires !ResumesResponse(s) && WindowStart(s, start)
    ensures |SnapshotFrom(s, start).history| <= 1 || Fits(SnapshotFrom(s, start).history)
  {
    BoundItemsShrink(s.history[start..]);
  }

  method FromState(s: SessionState) returns (snapshot: ContextSnapshot)
    ensures exists start: nat :: WindowStart(s, start) && start <= |s.history| && snapshot == SnapshotFrom(s, start)
    ensures s.history != [] ==>
              && snapshot.history != []
              && snapshot.history[|snapshot.history| - 1] == BoundItem(s.history[|s.history| - 1])
    ensures !ResumesResponse(s) ==> |snapshot.history| <= 1 || Fits(snapshot.history)
    ensures |snapshot.history| <= |s.history|
  {
    var start := HistoryStart(s);
    snapshot := SnapshotFrom(s, start);
    LastItemKept(s, start);
    if !ResumesResponse(s) { SnapshotFits(s, start); }
  }

  lemma LastItemKept(s: SessionState, start: nat)
    requires start <= |s.history| && (s.history != [] ==> start < |s.history|)
    ensures var kept := SnapshotFrom(s, start).history;
            |kept| == |s.history| - start && (s.history != [] ==>
                kept[|kept| - 1] == BoundItem(s.history[|s.history| - 1]))
  {
  }

  /** A text of the history as it is shown: whole up to 16 KiB, else its longest prefix with the marker behind it. */
  ghost predicate ShownAs(text: Text, shown: Text) {
    if |text| <= 16 * 1024 then shown == text
    else IsText(text) ==> exists m: nat :: CutAt(text, m, shown)
  }

  ghost predicate CutAt(text: Text, m: nat, shown: Text) {
    && LongestTextPrefix(text, 16 * 1024 - 25, m)
    && shown == text[..m] + [10] + Ascii("[context item truncated]")
  }

  ghost predicate ItemShownAs(item: HistoryItem, shown: HistoryItem) {
    match item
    case User(text) => shown.User? && ShownAs(text, shown.text)
    case Assistant(text) => shown.Assistant? && ShownAs(text, shown.text)
    case Tool(callId, name, input, result) =>
      shown.Tool? && shown.callId == callId && shown.name == name && shown.input == input
      && ShownAs(result, shown.result)
  }

  lemma BoundShows(text: Text)
    ensures ShownAs(text, BoundText(text))
  {
    if |text| > MAX_CONTEXT_ITEM_BYTES && IsText(text) {
      KeptPartIsLongest(text);
      var m := BoundaryAtMost(text, MARKER_START);
      assert BoundText(text) == text[..m] + [10] + Ascii("[context item truncated]");
      assert CutAt(text, m, BoundText(text));
    }
  }

  /** The snapshot shows the items of its window one by one, with only long texts cut. */
  lemma SnapshotShows(s: SessionState, start: nat, i: nat)
    requires start + i < |s.history|
    ensures i < |SnapshotFrom(s, start).history| == |s.history| - start
    ensures ItemShownAs(s.history[start + i], SnapshotFrom(s, start).history[i])
  {
    match s.history[start + i] {
      case User(text) => BoundShows(text);
      case Assistant(text) => BoundShows(text);
      case Tool(_, _, _, result) => BoundShows(result);
    }
  }

  /** The snapshot carries the stored continuation, with the cursor counted from the start of the window. */
  lemma SnapshotContinues(s: SessionState, start: nat)
    requires start <= |s.history|
    ensures match s.continuation
            case None => SnapshotFrom(s, start).continuation == None
            case Some(ProviderContinuation(provider, responseId, model, endpoint, ids, cursor, latest, slots)) =>
              SnapshotFrom(s, start).continuation == Some(ProviderContinuation(provider, responseId, model, endpoint,
                ids, if cursor < start then 0 else cursor - start, latest, slots))
  {
  }
}
