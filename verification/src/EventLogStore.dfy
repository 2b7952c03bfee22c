/**
 The JSON Lines store: a cache of the validated prefix that must answer exactly as a full read of the file would.
 Every method is one critical section of the file lock; an append counts the stat and the cache refresh as part of it.
 */
module EventLogStore {
  import opened Bytes
  import opened Options
  import opened Sequences
  import opened TextLines
  import opened Utf8
  import opened State
  import opened Reducer
  import opened EventLogFormat

  function DataOf(content: Option<Bytes>): Bytes {
    if content.Some? then content.value else []
  }

  /** The file every handle shares; its modification time moves as it likes. */
  class LogFile {
    var content: Option<Bytes>
    var modified: int

    constructor ()
      ensures content == None
    {
      content, modified := None, 0;
    }

    function Data(): Bytes
      reads this
    {
      DataOf(content)
    }

    method Write(data: Bytes, modified: int)
      modifies this
      ensures content == Some(data)
    {
      content := Some(data);
      this.modified := modified;
    }
  }

  datatype LogCache = LogCache(len: nat, modified: int, events: seq<Event>, validatedLen: nat, state: SessionState)

  /** The cache holds what a full read of a prefix of the file gives. */
  ghost predicate CacheSound(c: Codec, cache: LogCache, data: Bytes) {
    && cache.len == cache.validatedLen <= |data|
    && Contents(c, data[..cache.validatedLen]) == Some(cache.events)
    && (if cache.events == [] then cache.state == NewSession(cache.state.sessionId)
        else LogState(cache.events) == Some(cache.state))
  }

  /** A cache stays sound as long as the complete part of the file only grows, whoever writes it. */
  lemma CacheSurvives(c: Codec, cache: LogCache, data: Bytes, later: Bytes)
    requires CacheSound(c, cache, data) && CompletePart(data) <= CompletePart(later)
    ensures CacheSound(c, cache, later)
  {
    assert Terminated(data[..cache.validatedLen]);
    TerminatedPrefixStays(data, later, cache.validatedLen);
  }

  lemma TerminatedPrefixStays(data: Bytes, later: Bytes, n: nat)
    requires n <= |data| && Terminated(data[..n]) && CompletePart(data) <= CompletePart(later)
    ensures n <= |later| && later[..n] == data[..n]
  {
    assert n > 0 ==> data[n - 1] == NEWLINE;
    assert data[..n] <= CompletePart(data) <= CompletePart(later) <= later;
  }

  /**
   With a cached length equal to the file's, the cache holds the whole file, and the time stamp adds nothing.
   What it holds is what a full read gives exactly as long as the event limit is kept.
   */
  lemma FullCacheReads(c: Codec, cache: LogCache, data: Bytes)
    requires CacheSound(c, cache, data) && cache.len == |data|
    ensures Contents(c, data) == Some(cache.events)
    ensures ReadLog(c, data) == Some(cache.events) <==> |cache.events| <= MAX_EVENT_COUNT
  {
    assert data[..|data|] == data;
  }

  lemma WholeCacheSound(c: Codec, cache: LogCache, data: Bytes)
    requires cache.len == cache.validatedLen == |data|
    requires Contents(c, data) == Some(cache.events) && cache.events != []
              && LogState(cache.events) == Some(cache.state)
    ensures CacheSound(c, cache, data)
  {
    assert data[..|data|] == data;
  }

  /** What a full read of a grown file says, in terms of a sound cache and the bytes after it. */
  lemma SuffixVerdict(c: Codec, cache: LogCache, data: Bytes)
    requires CacheSound(c, cache, data) && 0 < cache.validatedLen < |data| <= MAX_EVENT_LOG_BYTES
    ensures cache.events != [] && LogState(cache.events) == Some(cache.state)
    ensures Contents(c, data) == Continued(c, cache.events, data[cache.validatedLen..])
  {
    CachedEventsFold(c, cache, data);
    SplitRead(c, data, cache.validatedLen, cache.events);
  }

  lemma SplitRead(c: Codec, data: Bytes, n: nat, events: seq<Event>)
    requires 0 < n < |data| <= MAX_EVENT_LOG_BYTES && events != [] && Contents(c, data[..n]) == Some(events)
    ensures Contents(c, data) == Continued(c, events, data[n..])
  {
    Rejoin(data, n);
    SuffixRead(c, data[..n], data[n..]);
  }

  lemma CachedEventsFold(c: Codec, cache: LogCache, data: Bytes)
    requires CacheSound(c, cache, data) && 0 < cache.validatedLen
    ensures Contents(c, data[..cache.validatedLen]) == Some(cache.events)
    ensures cache.events != [] && LogState(cache.events) == Some(cache.state)
  {
    NonEmptyLog(c, data[..cache.validatedLen]);
  }

  /** A file that exists keeps existing, and its complete part only grows. */
  predicate Outlives(before: Option<Bytes>, after: Option<Bytes>) {
    before.Some? ==> after.Some? && CompletePart(before.value) <= CompletePart(after.value)
  }

  /** The event as it is written to a log that is in order. */
  function Numbered(c: Codec, file: Option<Bytes>, event: Event): Event
    requires Held(c, file).Some?
  {
    event.(seqNo := |Held(c, file).value| + 1)
  }

  /** An append the store accepts: the log is in order, belongs to the session, and has room. */
  predicate Admissible(c: Codec, file: Option<Bytes>, event: Event) {
    var events := Held(c, file);
    && events.Some?
    && (events.value != [] ==> events.value[0].sessionId == event.sessionId)
    && |DataOf(file)| + |c.encode(Numbered(c, file, event)) + [NEWLINE]| <= MAX_EVENT_LOG_BYTES
  }

  lemma AdmissibleIff(c: Codec, file: Option<Bytes>, event: Event, events: seq<Event>)
    requires Held(c, file) == Some(events) && (events != [] ==> events[0].sessionId == event.sessionId)
    ensures Numbered(c, file, event) == event.(seqNo := |events| + 1)
    ensures Admissible(c, file, event) <==>
              |DataOf(file)| + |c.encode(event.(seqNo := |events| + 1)) + [NEWLINE]| <= MAX_EVENT_LOG_BYTES
  {
  }

  /**
   The line of an event is behind the old file, whole or as far as a failed write got; the answer is the event, or
   after a failed write the event found under its id in a re-read.
   */
  predicate Appended(c: Codec, before: Option<Bytes>, after: Option<Bytes>, numbered: Event, failed: bool,
      written: nat, r: Option<Event>) {
    && after == Some(DataOf(before) + Reached(c.encode(numbered) + [NEWLINE], failed, written))
    && (!failed ==> r == Some(numbered))
    && (failed && !Overfull(c, before) ==> r == FoundById(c, after, numbered.eventId))
  }

  predicate LeftAlone(before: Option<Bytes>, after: Option<Bytes>, r: Option<Event>) {
    r == None && DataOf(after) == DataOf(before)
  }

  predicate AppendedIfRoom(c: Codec, before: Option<Bytes>, after: Option<Bytes>, numbered: Event, failed: bool,
      written: nat, r: Option<Event>) {
    if |DataOf(before)| + |c.encode(numbered) + [NEWLINE]| > MAX_EVENT_LOG_BYTES then LeftAlone(before, after, r)
    else Appended(c, before, after, numbered, failed, written, r)
  }

  /**
   What one append does: an event that is not admissible changes nothing, one that is gets its line written. Only an
   overfull log, whose events the store may or may not see, leaves the choice open.
   */
  predicate AppendOutcome(c: Codec, before: Option<Bytes>, after: Option<Bytes>, event: Event, failed: bool,
      written: nat, r: Option<Event>) {
    if !Admissible(c, before, event) then LeftAlone(before, after, r)
    else || Appended(c, before, after, Numbered(c, before, event), failed, written, r)
         || (Overfull(c, before) && LeftAlone(before, after, r))
  }

  lemma AppendSettled(c: Codec, before: Option<Bytes>, after: Option<Bytes>, event: Event, events: seq<Event>,
      failed: bool, written: nat, r: Option<Event>)
    requires Held(c, before) == Some(events) && (events != [] ==> events[0].sessionId == event.sessionId)
    requires AppendedIfRoom(c, before, after, event.(seqNo := |events| + 1), failed, written, r)
    ensures AppendOutcome(c, before, after, event, failed, written, r)
  {
    AdmissibleIff(c, before, event, events);
  }

  /** There is no log an event could be appended to, or it may be hidden by its length. */
  predicate TurnedAway(c: Codec, file: Option<Bytes>, event: Event) {
    var events := Held(c, file);
    events.None? || (events.value != [] && events.value[0].sessionId != event.sessionId) || Overfull(c, file)
  }

  lemma TurnedAwayUnchanged(c: Codec, file: Option<Bytes>, event: Event, failed: bool, written: nat)
    requires TurnedAway(c, file, event)
    ensures AppendOutcome(c, file, file, event, failed, written, None)
  {
  }

  /** A file that does not read as a log, or one of another session, is left as it is. */
  lemma NoLogNoAppend(c: Codec, before: Option<Bytes>, after: Option<Bytes>, event: Event, failed: bool,
      written: nat, r: Option<Event>)
    requires AppendOutcome(c, before, after, event, failed, written, r)
    requires Held(c, before).Some? ==>
               Held(c, before).value != [] && Held(c, before).value[0].sessionId != event.sessionId
    ensures r == None && DataOf(after) == DataOf(before)
  {
  }

  datatype SuffixCheck = Advanced | FallBack | Corrupt

  /** One more event of a log being folded line by line. */
  lemma FoldStep(c: Codec, events: seq<Event>, state: SessionState, line: Bytes, rest: seq<Bytes>)
    requires events != [] && LogState(events) == Some(state) && AcceptableLine(c, events, line)
    ensures var e := c.decode(line).value;
            && (Reduce(state, e).ok ==> LogState(events + [e]) == Some(Reduce(state, e).state))
            && (!Reduce(state, e).ok && ParseLines(c, events + [e], rest).Some? ==>
                LogState(ParseLines(c, events + [e], rest).value).None?)
  {
    var e := c.decode(line).value;
    ReplaySnoc(NewSession(events[0].sessionId), events, e);
    if !Reduce(state, e).ok {
      RefusedLogUnreadable(c, events + [e], rest);
    }
  }

  /** Checks and folds the lines after a validated prefix one by one, stopping at the first that fails. */
  method FoldLines(c: Codec, prior: seq<Event>, priorState: SessionState, lines: seq<Bytes>)
    returns (r: Option<(seq<Event>, SessionState)>)
    requires prior != [] && LogState(prior) == Some(priorState)
    ensures r.Some? ==>
              ParseLines(c, prior, lines) == Some(r.value.0) && r.value.0 != []
                  && LogState(r.value.0) == Some(r.value.1)
    ensures r.Some? && lines != [] ==> |r.value.0| <= MAX_EVENT_COUNT
    ensures r.None? ==> || ParseLines(c, prior, lines).None? || LogState(ParseLines(c, prior, lines).value).None?
                        || |prior| + |lines| > MAX_EVENT_COUNT
  {
    var events, state := prior, priorState;
    assert lines[0..] == lines;
    for index := 0 to |lines|
      invariant prior <= events && |events| == |prior| + index
      invariant ParseLines(c, prior, lines) == ParseLines(c, events, lines[index..])
      invariant LogState(events) == Some(state)
      invariant index > 0 ==> |events| <= MAX_EVENT_COUNT
    {
      var line := lines[index];
      assert lines[index..][1..] == lines[index + 1..];
      if IsBlank(line) || |prior| + index + 1 > MAX_EVENT_COUNT {
        return None;
      }
      var decoded := c.decode(line);
      if decoded.None? || decoded.value.seqNo != |events| + 1 || decoded.value.sessionId != events[0].sessionId {
        return None;
      }
      FoldStep(c, events, state, line, lines[index + 1..]);
      var out := Reduce(state, decoded.value);
      if !out.ok {
        return None;
      }
      state := out.state;
      events := events + [decoded.value];
    }
    assert lines[|lines|..] == [];
    return Some((events, state));
  }

  method ParseAll(c: Codec, lines: seq<Bytes>) returns (r: Option<seq<Event>>)
    ensures r == if |lines| > MAX_EVENT_COUNT then None else ParseLines(c, [], lines)
  {
    var events: seq<Event> := [];
    assert lines[0..] == lines;
    for index := 0 to |lines|
      invariant |events| == index <= MAX_EVENT_COUNT
      invariant ParseLines(c, [], lines) == ParseLines(c, events, lines[index..])
    {
      var line := lines[index];
      assert lines[index..][1..] == lines[index + 1..];
      if index + 1 > MAX_EVENT_COUNT || IsBlank(line) {
        return None;
      }
      var decoded := c.decode(line);
      if decoded.None? || decoded.value.seqNo != |events| + 1 {
        return None;
      }
      if events != [] && events[0].sessionId != decoded.value.sessionId {
        return None;
      }
      if events == [] && (!decoded.value.payload.SessionCreated? || decoded.value.turnId.Some?) {
        return None;
      }
      events := events + [decoded.value];
    }
    assert lines[|lines|..] == [];
    return Some(events);
  }

  lemma LinesNonEmpty(data: Bytes)
    requires data != []
    ensures Lines(data) != []
  {
  }

  /** Just behind the last newline. */
  method TruncationPoint(data: Bytes) returns (cut: nat)
    ensures cut <= |data| && data[..cut] == CompletePart(data)
  {
    cut := |data|;
    while cut > 0 && data[cut - 1] != NEWLINE
      invariant cut <= |data|
      invariant forall i | cut <= i < |data| :: data[i] != NEWLINE
    {
      cut := cut - 1;
    }
    CompletePartUnique(data, data[..cut]);
  }

  class JsonlEventStore {
    const codec: Codec
    const file: LogFile
    var cache: Option<LogCache>

    ghost predicate Valid()
      reads this, file
    {
      && Sound(codec)
      && (cache.Some? ==> file.content.Some? && CacheSound(codec, cache.value, file.content.value))
    }

    /** The cache covers the file as it is. */
    ghost predicate Hit()
      reads this, file
    {
      file.content.Some? && cache.Some? && cache.value.len == |file.content.value|
    }

    constructor (codec: Codec, file: LogFile)
      requires Sound(codec)
      ensures Valid() && this.codec == codec && this.file == file && cache == None
    {
      this.codec, this.file, cache := codec, file, None;
    }

    /** The whole file becomes the cached prefix. */
    method Remember(data: Bytes, events: seq<Event>, state: SessionState)
      requires Sound(codec) && file.content == Some(data)
      requires Contents(codec, data) == Some(events) && events != [] && LogState(events) == Some(state)
      modifies this`cache
      ensures Valid() && cache.Some? && cache.value.events == events && cache.value.len == |data|
    {
      cache := Some(LogCache(|data|, file.modified, events, |data|, state));
      WholeCacheSound(codec, cache.value, data);
    }

    /** Validates only what follows the cached prefix. */
    method ValidateSuffix(data: Bytes) returns (r: SuffixCheck)
      requires Valid() && file.content == Some(data) && |data| <= MAX_EVENT_LOG_BYTES
      requires cache.Some? && 0 < cache.value.validatedLen < |data|
      modifies this`cache
      ensures Valid()
      ensures !r.Advanced? ==> cache == old(cache)
      ensures r.Advanced? ==>
                cache.Some? && cache.value.len == |data| && ReadLog(codec, data) == Some(cache.value.events)
      ensures r.Corrupt? ==> ReadLog(codec, data) == None
      ensures r.FallBack? <==> !Terminated(data)
    {
      var known := cache.value;
      var suffix := data[known.validatedLen..];
      SuffixVerdict(codec, known, data);
      assert suffix[|suffix| - 1] == data[|data| - 1];
      if suffix[|suffix| - 1] != NEWLINE {
        return FallBack;
      }
      if !IsText(suffix) {
        return Corrupt;
      }
      LinesNonEmpty(suffix);
      var grown := FoldLines(codec, known.events, known.state, Lines(suffix));
      if grown.None? {
        return Corrupt;
      }
      Remember(data, grown.value.0, grown.value.1);
      return Advanced;
    }

    /**
     A full read's answer, except that a cache of the whole file also answers for more events than a full read takes.
     */
    method ReadAllLocked() returns (r: Option<seq<Event>>)
      requires Valid()
      modifies this`cache
      ensures Valid()
      ensures r == ReadFile(codec, file.content)
              || (old(Hit()) && Overfull(codec, file.content) && r == Held(codec, file.content))
      ensures r.Some? ==> (file.content.None? && cache.None?) || (Hit() && cache.value.events == r.value)
    {
      if file.content.None? {
        cache := None;
        return Some([]);
      }
      var data := file.content.value;
      if |data| > MAX_EVENT_LOG_BYTES {
        return None;
      }
      if cache.Some? && cache.value.len == |data| && cache.value.modified == file.modified {
        FullCacheReads(codec, cache.value, data);
        return Some(cache.value.events);
      }
      if cache.Some? && cache.value.validatedLen > 0 && |data| > cache.value.validatedLen {
        var checked := ValidateSuffix(data);
        if checked.Corrupt? {
          return None;
        }
        if checked.Advanced? {
          return Some(cache.value.events);
        }
      }
      r := ReadWhole(data);
    }

    /** Reads and reduces the file from its first byte. */
    method ReadWhole(data: Bytes) returns (r: Option<seq<Event>>)
      requires Valid() && file.content == Some(data) && |data| <= MAX_EVENT_LOG_BYTES
      modifies this`cache
      ensures Valid()
      ensures r == ReadLog(codec, data)
      ensures r.Some? ==> cache.Some? && cache.value.events == r.value && cache.value.len == |data|
    {
      assert data[..|data|] == data;
      if data == [] {
        assert Contents(codec, data[..0]) == Some([]);
        var freshId: SessionId := *;
        cache := Some(LogCache(0, file.modified, [], 0, NewSession(freshId)));
        return Some([]);
      }
      if data[|data| - 1] != NEWLINE || !IsText(data) {
        return None;
      }
      var events := ParseAll(codec, Lines(data));
      if events.None? {
        return None;
      }
      LinesNonEmpty(data);
      var state := FoldAll(events.value[0].sessionId, events.value);
      if state.None? {
        return None;
      }
      Remember(data, events.value, state.value);
      return events;
    }

    /**
     Appends one event. When `failed`, only `written` bytes of the line are known to have reached the file
     before the write or the sync reported an error; the answer is then the event found under its id in a re-read.
     An overfull log may be appended to as long as the cache hides that it is.
     */
    method Append(event: Event, failed: bool, written: nat) returns (r: Option<Event>)
      requires Valid()
      modifies this`cache, file
      ensures Valid()
      ensures Outlives(old(file.content), file.content)
      ensures r.Some? ==> file.content.Some? && CompletePart(file.content.value) == file.content.value
      ensures AppendOutcome(codec, old(file.content), file.content, event, failed, written, r)
    {
      ghost var before := file.content;
      var known := ReadForAppend(event);
      if known.None? {
        TurnedAwayUnchanged(codec, before, event, failed, written);
        return None;
      }
      var numbered := event.(seqNo := |known.value.0| + 1);
      r := AppendLine(known.value.0, known.value.1, numbered, failed, written);
      AppendSettled(codec, before, file.content, event, known.value.0, failed, written, r);
    }

    /** Creates the file if need be and appends the line if there is room. */
    method AppendLine(events: seq<Event>, state: SessionState, numbered: Event, failed: bool, written: nat)
        returns (r: Option<Event>)
      requires Valid() && (file.content.None? ==> cache.None?)
      requires Held(codec, file.content) == Some(events) && Appendable(events, state, numbered)
      modifies this`cache, file
      ensures Valid()
      ensures Outlives(old(file.content), file.content)
      ensures r.Some? ==> file.content.Some? && CompletePart(file.content.value) == file.content.value
      ensures AppendedIfRoom(codec, old(file.content), file.content, numbered, failed, written, r)
    {
      var existing := file.Data();
      if file.content.None? {
        file.Write([], 0);
      }
      var line := codec.encode(numbered) + [NEWLINE];
      if |line| > MAX_EVENT_LOG_BYTES || |existing| + |line| > MAX_EVENT_LOG_BYTES {
        return None;
      }
      assert existing + line == existing + codec.encode(numbered) + [NEWLINE];
      r := WriteLine(existing, events, state, numbered, failed, written);
    }

    method WriteLine(existing: Bytes, events: seq<Event>, state: SessionState, numbered: Event, failed: bool,
        written: nat)
      returns (r: Option<Event>)
      requires Valid() && file.content == Some(existing)
      requires Contents(codec, existing) == Some(events) && Appendable(events, state, numbered)
      requires |existing + codec.encode(numbered) + [NEWLINE]| <= MAX_EVENT_LOG_BYTES
      modifies this`cache, file
      ensures Valid()
      ensures var line := codec.encode(numbered) + [NEWLINE];
              && file.content == Some(existing + Reached(line, failed, written))
              && CompletePart(existing) <= CompletePart(file.content.value)
      ensures Appended(codec, Some(existing), file.content, numbered, failed, written, r)
      ensures r.Some? ==> CompletePart(file.content.value) == file.content.value
    {
      ghost var line := codec.encode(numbered) + [NEWLINE];
      WriteGrows(existing, line, failed, written);
      if failed {
        r := BreakOff(existing, events, numbered, written);
      } else {
        Commit(existing, events, state, numbered);
        AppendedTerminated(existing, codec.encode(numbered));
        return Some(numbered);
      }
    }

    /** The events of the log and the state to fold the next one onto, if the log reads and is of the session. */
    method ReadForAppend(event: Event) returns (r: Option<(seq<Event>, SessionState)>)
      requires Valid()
      modifies this`cache
      ensures Valid() && (file.content.None? ==> cache.None?)
      ensures r.None? ==> TurnedAway(codec, file.content, event)
      ensures r.Some? ==>
                && Held(codec, file.content) == Some(r.value.0)
                && Appendable(r.value.0, r.value.1, event.(seqNo := |r.value.0| + 1))
    {
      var events := ReadAllLocked();
      if events.None? || (events.value != [] && events.value[0].sessionId != event.sessionId) {
        return None;
      }
      if cache.Some? {
        CachedStateCurrent(codec, cache.value, file.Data());
      }
      var state := if cache.Some? && cache.value.state.lastSeq == |events.value| then cache.value.state
          else NewSession(event.sessionId);
      return Some((events.value, state));
    }

    /**
     The write went through: the line is in the file and the cache follows, or is dropped if the reducer refuses the
     event.
     */
    method Commit(existing: Bytes, events: seq<Event>, state: SessionState, numbered: Event)
      requires Valid() && file.Data() == existing
      requires Contents(codec, existing) == Some(events) && Appendable(events, state, numbered)
      requires |existing + codec.encode(numbered) + [NEWLINE]| <= MAX_EVENT_LOG_BYTES
      modifies this`cache, file
      ensures Valid() && file.content == Some(existing + (codec.encode(numbered) + [NEWLINE]))
      ensures if Reduce(state, numbered).ok then Hit() && cache.value.events == events + [numbered] else cache == None
    {
      var now: int := *;
      var data := existing + (codec.encode(numbered) + [NEWLINE]);
      file.Write(data, now);
      var out := Reduce(state, numbered);
      if out.ok {
        cache := Some(LogCache(|data|, now, events + [numbered], |data|, out.state));
        GrownCacheSound(codec, existing, events, state, numbered, cache.value);
      } else {
        cache := None;
      }
    }

    /** The write reported an error: whether the event is durable is settled by reading the log again. */
    method BreakOff(existing: Bytes, events: seq<Event>, numbered: Event, written: nat) returns (r: Option<Event>)
      requires Valid() && file.content == Some(existing)
      requires Contents(codec, existing) == Some(events)
      modifies this`cache, file
      ensures Valid()
      ensures file.content == Some(existing + Reached(codec.encode(numbered) + [NEWLINE], true, written))
      ensures |events| <= MAX_EVENT_COUNT ==> r == FoundById(codec, file.content, numbered.eventId)
      ensures r.Some? ==> CompletePart(file.content.value) == file.content.value
    {
      var line := codec.encode(numbered) + [NEWLINE];
      var data := existing + Reached(line, true, written);
      var now: int := *;
      WriteGrows(existing, line, true, written);
      SurviveWrite(codec, cache, existing, data);
      file.Write(data, now);
      if Hit() { assert data == existing; }
      var again := ReadAllLocked();
      if again.None? {
        return None;
      }
      r := FindById(again.value, numbered.eventId);
    }

    /** Cuts an unterminated last line; the answer says whether anything was cut. */
    method RepairPartialTail() returns (r: Option<bool>)
      requires Valid()
      modifies this`cache, file
      ensures Valid()
      ensures Outlives(old(file.content), file.content)
      ensures |old(file.Data())| > MAX_EVENT_LOG_BYTES ==> r == None && file.Data() == old(file.Data())
      ensures |old(file.Data())| <= MAX_EVENT_LOG_BYTES ==>
                file.Data() == CompletePart(old(file.Data())) && r == Some(file.Data() != old(file.Data()))
      ensures cache == if r == Some(true) then None else old(cache)
    {
      if file.content.None? {
        return Some(false);
      }
      var data := file.content.value;
      if |data| > MAX_EVENT_LOG_BYTES {
        return None;
      }
      if data == [] || data[|data| - 1] == NEWLINE {
        return Some(false);
      }
      var cut := TruncationPoint(data);
      var now: int := *;
      RepairIdempotent(data);
      file.Write(data[..cut], now);
      cache := None;
      return Some(true);
    }

    method LastSeq() returns (r: Option<nat>)
      requires Valid()
      modifies this`cache
      ensures Valid()
      ensures r == Length(ReadFile(codec, file.content))
              || (old(Hit()) && Overfull(codec, file.content) && r == Length(Held(codec, file.content)))
    {
      if file.content.None? {
        cache := None;
        return Some(0);
      }
      if cache.Some? && cache.value.len == |file.content.value| && cache.value.modified == file.modified {
        FullCacheReads(codec, cache.value, file.content.value);
        return Some(|cache.value.events|);
      }
      var events := ReadAllLocked();
      return if events.Some? then Some(|events.value|) else None;
    }

    /** Carries out one command. */
    method Obey(command: Command) returns (reply: Reply)
      requires Valid()
      modifies this`cache, file
      ensures Valid()
      ensures Obeyed(codec, old(file.content), file.content, command, reply)
    {
      match command {
        case DoAppend(_, event, failed, written) =>
          var r := Append(event, failed, written);
          reply := Receipt(r);
        case DoRead(_) =>
          var r := ReadAllLocked();
          reply := Listing(r);
        case DoLastSeq(_) =>
          var r := LastSeq();
          reply := Number(r);
        case DoRepair(_) =>
          var r := RepairPartialTail();
          reply := Repaired(r);
        case DoReopen(_) =>
          Reopen();
          reply := Reopened;
      }
    }

    /** The process dies and a new one opens the log: only the file is left. */
    method Reopen()
      requires Valid()
      modifies this`cache
      ensures Valid() && cache == None
    {
      cache := None;
    }
  }

  /** What of a line has reached the file: all of it unless the write broke off. */
  function Reached(line: Bytes, failed: bool, written: nat): Bytes {
    if failed && written < |line| then line[..written] else line
  }

  /** The next event of a log and the state it is to be folded onto. */
  predicate Appendable(events: seq<Event>, state: SessionState, numbered: Event) {
    && numbered.seqNo == |events| + 1
    && if events == [] then state == NewSession(state.sessionId)
       else LogState(events) == Some(state) && events[0].sessionId == numbered.sessionId
  }

  /** The first event with an id. */
  function FirstById(events: seq<Event>, id: Bytes): (r: Option<Event>)
    ensures r.None? <==> forall i | 0 <= i < |events| :: events[i].eventId != id
    ensures r.Some? ==> r.value in events && r.value.eventId == id
  {
    if events == [] then None
    else if events[0].eventId == id then Some(events[0])
    else FirstById(events[1..], id)
  }

  lemma {:induction false} NoneBefore(events: seq<Event>, id: Bytes) returns (i: nat)
    requires FirstById(events, id).Some?
    ensures i < |events| && events[i] == FirstById(events, id).value && events[i].eventId == id
    ensures forall j | 0 <= j < i :: events[j].eventId != id
  {
    i := 0;
    if events[0].eventId != id {
      var before := NoneBefore(events[1..], id);
      assert forall j | 0 < j < |events| :: events[1..][j - 1] == events[j];
      i := before + 1;
    }
  }

  method FindById(events: seq<Event>, id: Bytes) returns (r: Option<Event>)
    ensures r == FirstById(events, id)
  {
    assert events[0..] == events;
    for i := 0 to |events|
      invariant FirstById(events, id) == FirstById(events[i..], id)
    {
      assert events[i..][1..] == events[i + 1..];
      if events[i].eventId == id {
        return Some(events[i]);
      }
    }
    assert events[|events|..] == [];
    return None;
  }

  function FoundById(c: Codec, file: Option<Bytes>, id: Bytes): Option<Event> {
    var events := ReadFile(c, file);
    if events.Some? then FirstById(events.value, id) else None
  }

  /**
   With an id not used before, the answer after a broken write is the event itself, exactly when the re-read log holds
   it.
   */
  lemma {:induction false} FoundAtTheEnd(events: seq<Event>, e: Event)
    requires FirstById(events, e.eventId).None?
    ensures FirstById(events + [e], e.eventId) == Some(e)
  {
    if events == [] {
      assert events + [e] == [e];
    } else {
      FoundAtTheEnd(events[1..], e);
      assert events[0].eventId != e.eventId;
      assert (events + [e])[1..] == events[1..] + [e];
    }
  }

  function Length(events: Option<seq<Event>>): Option<nat> {
    if events.Some? then Some(|events.value|) else None
  }

  lemma CachedStateCurrent(c: Codec, cache: LogCache, data: Bytes)
    requires CacheSound(c, cache, data)
    ensures cache.state.lastSeq == |cache.events|
  {
    if cache.events != [] { ReplayLength(NewSession(cache.events[0].sessionId), cache.events); }
  }

  lemma WriteGrows(existing: Bytes, line: Bytes, failed: bool, written: nat)
    ensures CompletePart(existing) <= CompletePart(existing + Reached(line, failed, written))
  {
    CompletePartGrows(existing, existing + Reached(line, failed, written));
  }

  lemma AppendedTerminated(existing: Bytes, body: Bytes)
    ensures CompletePart(existing + (body + [NEWLINE])) == existing + (body + [NEWLINE])
  {
  }

  lemma AppendKeepsWritten(c: Codec, before: Option<Bytes>, event: Event, failed: bool, written: nat)
    requires Sound(c) && Admissible(c, before, event) && Written(c, DataOf(before))
    ensures Written(c, DataOf(before) + Reached(c.encode(Numbered(c, before, event)) + [NEWLINE], failed, written))
  {
    var numbered := Numbered(c, before, event);
    var line := c.encode(numbered) + [NEWLINE];
    var k := if failed && written < |line| then written else |line|;
    assert line[..|line|] == line;
    assert Reached(line, failed, written) == line[..k];
    WrittenAppend(c, DataOf(before), numbered, k);
  }

  lemma OutcomeKeepsWritten(c: Codec, before: Option<Bytes>, after: Option<Bytes>, event: Event, failed: bool,
      written: nat, r: Option<Event>)
    requires Sound(c) && AppendOutcome(c, before, after, event, failed, written, r) && Written(c, DataOf(before))
    ensures Written(c, DataOf(after))
  {
    if Admissible(c, before, event) {
      AppendKeepsWritten(c, before, event, failed, written);
    }
  }

  lemma SurviveWrite(c: Codec, cache: Option<LogCache>, data: Bytes, later: Bytes)
    requires cache.Some? ==> CacheSound(c, cache.value, data)
    requires CompletePart(data) <= CompletePart(later)
    ensures cache.Some? ==> CacheSound(c, cache.value, later)
  {
    if cache.Some? { CacheSurvives(c, cache.value, data, later); }
  }

  lemma GrownState(events: seq<Event>, state: SessionState, e: Event)
    requires if events == [] then state == NewSession(state.sessionId) else LogState(events) == Some(state)
    requires Reduce(state, e).ok && e.seqNo == |events| + 1
    ensures events + [e] != [] && LogState(events + [e]) == Some(Reduce(state, e).state)
  {
    if events == [] {
      assert events + [e] == [e];
      FirstEvent(e);
    } else {
      ReplaySnoc(NewSession(events[0].sessionId), events, e);
    }
  }

  lemma GrownCacheSound(c: Codec, existing: Bytes, events: seq<Event>, state: SessionState, e: Event, cache: LogCache)
    requires Sound(c) && Contents(c, existing) == Some(events) && Appendable(events, state, e) && Reduce(state, e).ok
    requires |existing + c.encode(e) + [NEWLINE]| <= MAX_EVENT_LOG_BYTES
    requires var data := existing + (c.encode(e) + [NEWLINE]);
             cache.len == cache.validatedLen == |data| && cache.events == events + [e]
                 && cache.state == Reduce(state, e).state
    ensures CacheSound(c, cache, existing + (c.encode(e) + [NEWLINE]))
  {
    var data := existing + (c.encode(e) + [NEWLINE]);
    assert data == existing + c.encode(e) + [NEWLINE];
    ReduceEnvelope(state, e);
    AppendRead(c, existing, e);
    GrownState(events, state, e);
    WholeCacheSound(c, cache, data);
  }

  /**
   The refresh takes the file's length after the lock is dropped. With `seen` in the file by then, the refreshed cache
   is sound, and answers what a full read does, exactly when nobody has written in between.
   */
  lemma RefreshSoundIff(c: Codec, existing: Bytes, events: seq<Event>, state: SessionState, e: Event, seen: Bytes,
      modified: int)
    requires Sound(c) && Contents(c, existing) == Some(events) && Appendable(events, state, e) && Reduce(state, e).ok
    requires |existing + c.encode(e) + [NEWLINE]| <= MAX_EVENT_LOG_BYTES
    requires existing + (c.encode(e) + [NEWLINE]) <= seen
    ensures var cache := LogCache(|seen|, modified, events + [e], |seen|, Reduce(state, e).state);
            && (CacheSound(c, cache, seen) <==> seen == existing + (c.encode(e) + [NEWLINE]))
            && (Contents(c, seen) == Some(cache.events) <==> seen == existing + (c.encode(e) + [NEWLINE]))
  {
    var data := existing + (c.encode(e) + [NEWLINE]);
    var cache := LogCache(|seen|, modified, events + [e], |seen|, Reduce(state, e).state);
    assert data == existing + c.encode(e) + [NEWLINE];
    ReduceEnvelope(state, e);
    AppendRead(c, existing, e);
    if seen == data {
      GrownCacheSound(c, existing, events, state, e, cache);
    } else {
      LongerFileReadsOtherwise(c, data, events + [e], seen);
    }
    assert seen[..|seen|] == seen;
  }

  lemma LongerFileReadsOtherwise(c: Codec, data: Bytes, events: seq<Event>, seen: Bytes)
    requires data != [] && data < seen && Contents(c, data) == Some(events)
    ensures Contents(c, seen) != Some(events)
  {
    if |seen| <= MAX_EVENT_LOG_BYTES {
      NonEmptyLog(c, data);
      assert seen[..|data|] == data;
      SplitRead(c, seen, |data|, events);
      LinesNonEmpty(seen[|data|..]);
    }
  }

  /**
   So an event that another process appends just then is in the log and missing from every cached answer until the
   file changes again.
   */
  lemma RefreshMissesForeignEvent(c: Codec, existing: Bytes, events: seq<Event>, state: SessionState, e: Event,
      foreign: Event, modified: int)
    requires Sound(c) && Contents(c, existing) == Some(events) && Appendable(events, state, e) && Reduce(state, e).ok
    requires Reduce(Reduce(state, e).state, foreign).ok
    requires var data := existing + (c.encode(e) + [NEWLINE]);
             |data + c.encode(foreign) + [NEWLINE]| <= MAX_EVENT_LOG_BYTES
    ensures var seen := existing + (c.encode(e) + [NEWLINE]) + c.encode(foreign) + [NEWLINE];
            var cache := LogCache(|seen|, modified, events + [e], |seen|, Reduce(state, e).state);
            Contents(c, seen) == Some(cache.events + [foreign])
  {
    var data := existing + (c.encode(e) + [NEWLINE]);
    assert data == existing + c.encode(e) + [NEWLINE];
    ReduceEnvelope(state, e);
    AppendRead(c, existing, e);
    GrownState(events, state, e);
    ReduceEnvelope(Reduce(state, e).state, foreign);
    ReplayLength(NewSession((events + [e])[0].sessionId), events + [e]);
    AppendRead(c, data, foreign);
  }

  lemma UnterminatedUnreadable(c: Codec, existing: Bytes, part: Bytes)
    requires part != [] && NEWLINE !in part
    ensures Contents(c, existing + part) == None
  {
    assert (existing + part)[|existing + part| - 1] == part[|part| - 1];
  }

  /** After a broken write, a log that still reads is the old one, or the old one and the whole event. */
  lemma BrokenAppendRead(c: Codec, existing: Bytes, e: Event, written: nat)
    requires Sound(c) && Contents(c, existing).Some? && e.seqNo == |Contents(c, existing).value| + 1
    requires var events := Contents(c, existing).value; events != [] ==> events[0].sessionId == e.sessionId
    requires |existing + c.encode(e) + [NEWLINE]| <= MAX_EVENT_LOG_BYTES
    ensures var line := c.encode(e) + [NEWLINE];
            var again := Contents(c, existing + Reached(line, true, written));
            if written == 0 then again == Contents(c, existing)
            else if written < |line| then again == None
            else again.Some? ==> again == Some(Contents(c, existing).value + [e])
  {
    var line := c.encode(e) + [NEWLINE];
    if written == 0 {
      assert existing + line[..0] == existing;
    } else if written < |line| {
      UnterminatedUnreadable(c, existing, c.encode(e)[..written]);
      assert line[..written] == c.encode(e)[..written];
    } else {
      assert existing + line == existing + c.encode(e) + [NEWLINE];
      AppendRead(c, existing, e);
    }
  }

  /** Nothing parsed after a refused event makes the log acceptable again. */
  lemma RefusedLogUnreadable(c: Codec, events: seq<Event>, lines: seq<Bytes>)
    requires events != [] && LogState(events).None?
    ensures ParseLines(c, events, lines).Some? ==> LogState(ParseLines(c, events, lines).value).None?
  {
    if ParseLines(c, events, lines).Some? {
      var all := ParseLines(c, events, lines).value;
      assert all == events + all[|events|..];
      ReplayConcat(NewSession(events[0].sessionId), events, all[|events|..]);
    }
  }

  // ------------------------------------------------------------------ many handles, any order

  datatype Command =
    | DoAppend(handle: nat, event: Event, failed: bool, written: nat)
    | DoRead(handle: nat)
    | DoLastSeq(handle: nat)
    | DoRepair(handle: nat)
    | DoReopen(handle: nat)

  /** What a command returns. */
  datatype Reply =
    | Receipt(event: Option<Event>)
    | Listing(events: Option<seq<Event>>)
    | Number(last: Option<nat>)
    | Repaired(cut: Option<bool>)
    | Reopened
    | NoStore

  /**
   What a command does to the file and what it returns: an append is as `AppendOutcome` says, and a receipt means the
   file ends in a whole line; a query changes nothing and gives what a full read gives, or what the file holds when that
   is more than a full read takes; repair leaves the complete part.
   */
  predicate Obeyed(c: Codec, before: Option<Bytes>, after: Option<Bytes>, command: Command, reply: Reply) {
    && Outlives(before, after)
    && match command
       case DoAppend(_, event, failed, written) =>
         && reply.Receipt? && AppendOutcome(c, before, after, event, failed, written, reply.event)
         && (reply.event.Some? ==> after.Some? && CompletePart(after.value) == after.value)
       case DoRead(_) =>
         && after == before && reply.Listing?
         && (reply.events == ReadFile(c, before) || (Overfull(c, before) && reply.events == Held(c, before)))
       case DoLastSeq(_) =>
         && after == before && reply.Number?
         && (reply.last == Length(ReadFile(c, before))
             || (Overfull(c, before) && reply.last == Length(Held(c, before))))
       case DoRepair(_) =>
         if |DataOf(before)| > MAX_EVENT_LOG_BYTES then DataOf(after) == DataOf(before) && reply == Repaired(None)
         else DataOf(after) == CompletePart(DataOf(before)) && reply == Repaired(Some(DataOf(after) != DataOf(before)))
       case DoReopen(_) => after == before && reply == Reopened
  }

  ghost predicate Sharing(stores: seq<JsonlEventStore>, file: LogFile, codec: Codec)
    reads file, stores
  {
    && (forall i | 0 <= i < |stores| :: stores[i].file == file && stores[i].codec == codec && stores[i].Valid())
    && (forall i, j | 0 <= i < j < |stores| :: stores[i] != stores[j])
  }

  /** One step of a script; a command for a handle there is none of is skipped. */
  predicate Stepped(c: Codec, n: nat, before: Option<Bytes>, after: Option<Bytes>, command: Command, reply: Reply) {
    if command.handle >= n then after == before && reply == NoStore else Obeyed(c, before, after, command, reply)
  }

  /** The file before each command and after the last, and the replies. */
  ghost predicate History(c: Codec, n: nat, files: seq<Option<Bytes>>, script: seq<Command>, replies: seq<Reply>) {
    && |files| == |script| + 1 && |replies| == |script|
    && forall k | 0 <= k < |script| :: StepAt(c, n, files, script, replies, k)
  }

  predicate StepAt(c: Codec, n: nat, files: seq<Option<Bytes>>, script: seq<Command>, replies: seq<Reply>,
      k: nat)
    requires |files| == |script| + 1 && |replies| == |script| && k < |script|
  {
    Stepped(c, n, files[k], files[k + 1], script[k], replies[k])
  }

  lemma StepOf(c: Codec, n: nat, files: seq<Option<Bytes>>, script: seq<Command>, replies: seq<Reply>,
      k: nat)
    requires History(c, n, files, script, replies) && k < |script|
    ensures Stepped(c, n, files[k], files[k + 1], script[k], replies[k])
  {
    assert StepAt(c, n, files, script, replies, k);
  }

  lemma HistorySnoc(c: Codec, n: nat, files: seq<Option<Bytes>>, script: seq<Command>, replies: seq<Reply>,
      after: Option<Bytes>, command: Command, reply: Reply)
    requires History(c, n, files, script, replies)
    requires Stepped(c, n, files[|script|], after, command, reply)
    ensures History(c, n, files + [after], script + [command], replies + [reply])
  {
    forall k | 0 <= k < |script| + 1
      ensures StepAt(c, n, files + [after], script + [command], replies + [reply], k)
    {
      if k < |script| { StepOf(c, n, files, script, replies, k); }
    }
  }

  /**
   Any script of appends, failed appends, reads, `last_seq` queries, repairs and restarts through any handles of one
   file: every command does and returns what the file alone says it should, whatever the caches hold.
   */
  method Serve(file: LogFile, codec: Codec, stores: seq<JsonlEventStore>, script: seq<Command>)
    returns (replies: seq<Reply>, ghost files: seq<Option<Bytes>>)
    requires Sharing(stores, file, codec)
    modifies file, set s | s in stores
    ensures Sharing(stores, file, codec)
    ensures History(codec, |stores|, files, script, replies)
    ensures files[0] == old(file.content) && files[|script|] == file.content
  {
    replies, files := [], [file.content];
    for k := 0 to |script|
      invariant Sharing(stores, file, codec)
      invariant |files| == k + 1 && files[0] == old(file.content) && files[k] == file.content
      invariant History(codec, |stores|, files, script[..k], replies)
    {
      var reply := NoStore;
      if script[k].handle < |stores| {
        reply := Dispatch(file, codec, stores, script[k]);
      }
      HistorySnoc(codec, |stores|, files, script[..k], replies, file.content, script[k], reply);
      MoveCut(script, k);
      replies, files := replies + [reply], files + [file.content];
    }
    assert script[..|script|] == script;
  }

  method Dispatch(file: LogFile, codec: Codec, stores: seq<JsonlEventStore>, command: Command)
    returns (reply: Reply)
    requires Sharing(stores, file, codec) && command.handle < |stores|
    modifies file, stores[command.handle]
    ensures Sharing(stores, file, codec)
    ensures Obeyed(codec, old(file.content), file.content, command, reply)
  {
    ghost var before := file.content;
    var h := command.handle;
    reply := stores[h].Obey(command);
    forall i | 0 <= i < |stores| ensures stores[i].Valid() {
      if i != h && stores[i].cache.Some? {
        CacheSurvives(stores[i].codec, stores[i].cache.value, before.value, file.content.value);
      }
    }
  }

  // ------------------------------------------------------------------ nothing acknowledged is lost

  lemma OutlivesAll(a: Option<Bytes>, b: Option<Bytes>, c: Option<Bytes>)
    requires Outlives(a, b) && Outlives(b, c)
    ensures Outlives(a, c)
  {
  }

  lemma StepOutlives(c: Codec, n: nat, files: seq<Option<Bytes>>, script: seq<Command>, replies: seq<Reply>,
      k: nat)
    requires History(c, n, files, script, replies) && k < |script|
    ensures Outlives(files[k], files[k + 1])
  {
    StepOf(c, n, files, script, replies, k);
  }

  lemma {:induction false} FileOutlives(c: Codec, n: nat, files: seq<Option<Bytes>>, script: seq<Command>,
      replies: seq<Reply>, i: nat, j: nat)
    requires History(c, n, files, script, replies) && i <= j < |files|
    ensures Outlives(files[i], files[j])
    decreases j
  {
    if i < j {
      FileOutlives(c, n, files, script, replies, i, j - 1);
      StepOutlives(c, n, files, script, replies, j - 1);
      OutlivesAll(files[i], files[j - 1], files[j]);
    }
  }

  lemma AcknowledgedWhole(c: Codec, n: nat, files: seq<Option<Bytes>>, script: seq<Command>, replies: seq<Reply>,
      k: nat)
    requires History(c, n, files, script, replies) && k < |script| && replies[k].Receipt? && replies[k].event.Some?
    ensures files[k + 1].Some? && CompletePart(files[k + 1].value) == files[k + 1].value
  {
    StepOf(c, n, files, script, replies, k);
  }

  /** The file an append is acknowledged with stays in front of the file for ever, whatever follows. */
  lemma AcknowledgedStays(c: Codec, n: nat, files: seq<Option<Bytes>>, script: seq<Command>, replies: seq<Reply>,
      k: nat, j: nat)
    requires History(c, n, files, script, replies) && k < j < |files|
    requires replies[k].Receipt? && replies[k].event.Some?
    ensures files[k + 1].Some? && files[j].Some? && files[k + 1].value <= CompletePart(files[j].value)
  {
    AcknowledgedWhole(c, n, files, script, replies, k);
    FileOutlives(c, n, files, script, replies, k + 1, j);
  }

  // ------------------------------------------------------------------ a file of the encoder's own

  /** What is in the file after a command, and what the command returns, with no cache anywhere. */
  function DataAfter(c: Codec, n: nat, data: Bytes, command: Command): Bytes {
    if command.handle >= n then data
    else
      match command
      case DoAppend(_, event, failed, written) =>
        if Admissible(c, Some(data), event)
        then data + Reached(c.encode(Numbered(c, Some(data), event)) + [NEWLINE], failed, written)
        else data
      case DoRepair(_) => if |data| > MAX_EVENT_LOG_BYTES then data else CompletePart(data)
      case _ => data
  }

  function ReplyTo(c: Codec, n: nat, data: Bytes, command: Command): Reply {
    if command.handle >= n then NoStore
    else
      match command
      case DoAppend(_, event, failed, _) =>
        if !Admissible(c, Some(data), event) then Receipt(None)
        else
          var numbered := Numbered(c, Some(data), event);
          Receipt(if failed then FoundById(c, Some(DataAfter(c, n, data, command)), numbered.eventId)
              else Some(numbered))
      case DoRead(_) => Listing(ReadLog(c, data))
      case DoLastSeq(_) => Number(Length(ReadLog(c, data)))
      case DoRepair(_) =>
        Repaired(if |data| > MAX_EVENT_LOG_BYTES then None else Some(CompletePart(data) != data))
      case DoReopen(_) => Reopened
  }

  /** The number a log is asked for is that of its last event, zero when there is none. */
  lemma LastNumber(c: Codec, n: nat, data: Bytes, handle: nat)
    requires handle < n
    ensures match ReadLog(c, data)
            case None => ReplyTo(c, n, data, DoLastSeq(handle)) == Number(None)
            case Some(events) =>
              ReplyTo(c, n, data, DoLastSeq(handle))
                == Number(Some(if events == [] then 0 else events[|events| - 1].seqNo))
  {
    if ReadLog(c, data).Some? && ReadLog(c, data).value != [] {
      NonEmptyRead(c, data);
      LastIsNumbered(ReadLog(c, data).value);
    }
  }

  lemma LastIsNumbered(events: seq<Event>)
    requires events != [] && LogState(events).Some?
    ensures events[|events| - 1].seqNo == |events|
  {
    ReplayNumbers(NewSession(events[0].sessionId), events, |events| - 1);
  }

  lemma NonEmptyRead(c: Codec, data: Bytes)
    requires ReadLog(c, data).Some? && ReadLog(c, data).value != []
    ensures LogState(ReadLog(c, data).value).Some?
  {
  }

  /** A file that does not exist yet is an empty one to every command. */
  lemma MissingIsEmpty(c: Codec, file: Option<Bytes>, event: Event)
    ensures ReadFile(c, file) == ReadLog(c, DataOf(file)) && Held(c, file) == Held(c, Some(DataOf(file)))
    ensures Overfull(c, file) == Overfull(c, Some(DataOf(file)))
    ensures Admissible(c, file, event) == Admissible(c, Some(DataOf(file)), event)
    ensures Held(c, file).Some? ==> Numbered(c, file, event) == Numbered(c, Some(DataOf(file)), event)
  {
  }

  lemma AppendDecided(c: Codec, n: nat, before: Option<Bytes>, after: Option<Bytes>, command: Command, reply: Reply)
    requires !Overfull(c, before) && command.DoAppend? && command.handle < n && Obeyed(c, before, after, command, reply)
    ensures DataOf(after) == DataAfter(c, n, DataOf(before), command)
    ensures reply == ReplyTo(c, n, DataOf(before), command)
  {
    MissingIsEmpty(c, before, command.event);
    if Admissible(c, before, command.event) {
      assert Appended(c, before, after, Numbered(c, before, command.event), command.failed, command.written,
          reply.event);
    }
  }

  lemma QueryDecided(c: Codec, n: nat, before: Option<Bytes>, after: Option<Bytes>, command: Command, reply: Reply)
    requires !Overfull(c, before) && !command.DoAppend? && Stepped(c, n, before, after, command, reply)
    ensures DataOf(after) == DataAfter(c, n, DataOf(before), command)
    ensures reply == ReplyTo(c, n, DataOf(before), command)
  {
    if command.handle < n && (command.DoRead? || command.DoLastSeq?) { ReadMissing(c, before); }
  }

  lemma ReadMissing(c: Codec, file: Option<Bytes>)
    ensures ReadFile(c, file) == ReadLog(c, DataOf(file))
  {
  }

  lemma StepWritten(c: Codec, n: nat, before: Option<Bytes>, after: Option<Bytes>, command: Command, reply: Reply)
    requires Sound(c) && Written(c, DataOf(before)) && Stepped(c, n, before, after, command, reply)
    ensures Written(c, DataOf(after))
  {
    if command.handle < n {
      match command {
        case DoAppend(_, event, failed, written) =>
          OutcomeKeepsWritten(c, before, after, event, failed, written, reply.event);
        case DoRepair(_) => WrittenRepair(c, DataOf(before));
        case _ =>
      }
    }
  }

  lemma StepDecided(c: Codec, n: nat, before: Option<Bytes>, after: Option<Bytes>, command: Command, reply: Reply)
    requires Sound(c) && Roomy(c) && Written(c, DataOf(before)) && Stepped(c, n, before, after, command, reply)
    ensures DataOf(after) == DataAfter(c, n, DataOf(before), command)
    ensures reply == ReplyTo(c, n, DataOf(before), command)
  {
    WrittenNeverOverfull(c, before);
    if command.DoAppend? && command.handle < n {
      AppendDecided(c, n, before, after, command, reply);
    } else if !command.DoAppend? {
      QueryDecided(c, n, before, after, command, reply);
    }
  }

  lemma WrittenNext(c: Codec, n: nat, files: seq<Option<Bytes>>, script: seq<Command>, replies: seq<Reply>,
      k: nat)
    requires Sound(c) && History(c, n, files, script, replies) && k < |script| && Written(c, DataOf(files[k]))
    ensures Written(c, DataOf(files[k + 1]))
  {
    StepOf(c, n, files, script, replies, k);
    StepWritten(c, n, files[k], files[k + 1], script[k], replies[k]);
  }

  ghost predicate WrittenStays(c: Codec, files: seq<Option<Bytes>>, k: nat)
    requires k + 1 < |files|
  {
    Written(c, DataOf(files[k])) ==> Written(c, DataOf(files[k + 1]))
  }

  lemma {:induction false} StaysThroughout(c: Codec, files: seq<Option<Bytes>>, k: nat)
    requires k < |files| && Written(c, DataOf(files[0])) && forall j | 0 <= j < k :: WrittenStays(c, files, j)
    ensures Written(c, DataOf(files[k]))
    decreases k
  {
    if k > 0 {
      StaysThroughout(c, files, k - 1);
      assert WrittenStays(c, files, k - 1);
    }
  }

  /** A file that only the encoder wrote stays one. */
  lemma WrittenThroughout(c: Codec, n: nat, files: seq<Option<Bytes>>, script: seq<Command>, replies: seq<Reply>,
      k: nat)
    requires Sound(c) && History(c, n, files, script, replies) && Written(c, DataOf(files[0])) && k <= |script|
    ensures Written(c, DataOf(files[k]))
  {
    forall j | 0 <= j < k ensures WrittenStays(c, files, j) {
      if Written(c, DataOf(files[j])) { WrittenNext(c, n, files, script, replies, j); }
    }
    StaysThroughout(c, files, k);
  }

  /**
   In a file only the encoder wrote, caches are invisible: every command leaves in the file, and returns, exactly what
   it would if the whole file were read for every command.
   */
  lemma CachesInvisible(c: Codec, n: nat, files: seq<Option<Bytes>>, script: seq<Command>, replies: seq<Reply>,
      k: nat)
    requires Sound(c) && Roomy(c) && History(c, n, files, script, replies) && Written(c, DataOf(files[0]))
    requires k < |script|
    ensures DataOf(files[k + 1]) == DataAfter(c, n, DataOf(files[k]), script[k])
    ensures replies[k] == ReplyTo(c, n, DataOf(files[k]), script[k])
  {
    WrittenThroughout(c, n, files, script, replies, k);
    StepOf(c, n, files, script, replies, k);
    StepDecided(c, n, files[k], files[k + 1], script[k], replies[k]);
  }
}
