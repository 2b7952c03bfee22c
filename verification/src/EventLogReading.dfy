/** What it takes for a file to read as a list of events, said without the way it is read. */
module EventLogReading {
  import opened Bytes
  import opened Options
  import opened Sequences
  import opened TextLines
  import opened Utf8
  import opened State
  import opened Reducer
  import opened EventLogFormat

  /** Lines, each closed by a newline. */
  function Joined(lines: seq<Bytes>): Bytes {
    if lines == [] then [] else lines[0] + [NEWLINE] + Joined(lines[1..])
  }

  /** One event per line, with nothing blank and no newline inside. */
  predicate Spelled(c: Codec, lines: seq<Bytes>, events: seq<Event>) {
    && |lines| == |events|
    && forall i | 0 <= i < |lines| ::
         NEWLINE !in lines[i] && !IsBlank(lines[i]) && c.decode(lines[i]) == Some(events[i])
  }

  /** The file is text within the size limit, made of lines that spell the events, and the events are accepted. */
  ghost predicate Records(c: Codec, content: Bytes, lines: seq<Bytes>, events: seq<Event>) {
    && |content| <= 128 * 1024 * 1024
    && content == Joined(lines)
    && IsText(content)
    && Spelled(c, lines, events)
    && (events != [] ==> Replay(NewSession(events[0].sessionId), events).Some?)
  }

  // ------------------------------------------------------------------ lines

  predicate Clean(lines: seq<Bytes>) {
    forall i | 0 <= i < |lines| :: NEWLINE !in lines[i]
  }

  lemma CleanTail(lines: seq<Bytes>)
    requires Clean(lines) && lines != []
    ensures Clean(lines[1..]) && NEWLINE !in lines[0]
  {
  }

  lemma CleanCons(line: Bytes, lines: seq<Bytes>)
    requires Clean(lines) && NEWLINE !in line
    ensures Clean([line] + lines)
  {
  }

  lemma JoinedCons(line: Bytes, lines: seq<Bytes>)
    ensures Joined([line] + lines) == line + [NEWLINE] + Joined(lines)
  {
    assert ([line] + lines)[1..] == lines;
  }

  lemma TerminatedCons(line: Bytes, rest: Bytes)
    requires Terminated(rest)
    ensures Terminated(line + [NEWLINE] + rest)
  {
    var whole := line + [NEWLINE] + rest;
    assert whole[|whole| - 1] == if rest == [] then NEWLINE else rest[|rest| - 1];
  }

  lemma {:induction false} JoinedLines(lines: seq<Bytes>)
    requires Clean(lines)
    ensures Lines(Joined(lines)) == lines && Terminated(Joined(lines))
  {
    if lines != [] {
      CleanTail(lines);
      JoinedLines(lines[1..]);
      LinesCons(lines[0], Joined(lines[1..]));
      TerminatedCons(lines[0], Joined(lines[1..]));
      assert lines == [lines[0]] + lines[1..];
    }
  }

  /** The first line of a terminated text, and the rest. */
  lemma FirstLineOf(s: Bytes) returns (line: Bytes, rest: Bytes)
    requires s != [] && Terminated(s)
    ensures s == line + [NEWLINE] + rest && Terminated(rest) && NEWLINE !in line
    ensures Lines(s) == [line] + Lines(rest)
  {
    TerminatedLine(s);
    line, rest := s[..NewlineAt(s)], s[NewlineAt(s) + 1..];
  }

  lemma {:induction false} LinesJoined(s: Bytes)
    requires Terminated(s)
    ensures Joined(Lines(s)) == s && Clean(Lines(s))
    decreases |s|
  {
    if s != [] {
      var line, rest := FirstLineOf(s);
      LinesJoined(rest);
      JoinedCons(line, Lines(rest));
      CleanCons(line, Lines(rest));
    }
  }

  // ------------------------------------------------------------------ events

  /** Parsed events are the decoded lines, and no line is blank. */
  lemma {:induction false} ParsedSpells(c: Codec, events: seq<Event>, lines: seq<Bytes>)
    requires ParseLines(c, events, lines).Some?
    ensures var all := ParseLines(c, events, lines).value;
            && |all| == |events| + |lines| && all[..|events|] == events
            && forall i | 0 <= i < |lines| :: !IsBlank(lines[i]) && c.decode(lines[i]) == Some(all[|events| + i])
    decreases |lines|
  {
    if lines != [] {
      var more := events + [c.decode(lines[0]).value];
      ParsedSpells(c, more, lines[1..]);
      var all := ParseLines(c, events, lines).value;
      assert all[..|more|] == more && all[|events|] == more[|events|];
      forall i | 0 <= i < |lines|
        ensures !IsBlank(lines[i]) && c.decode(lines[i]) == Some(all[|events| + i])
      {
        if i > 0 { assert lines[1..][i - 1] == lines[i]; }
      }
    }
  }

  /** The events of an accepted log pass the checks made line by line. */
  lemma AcceptedLine(c: Codec, events: seq<Event>, n: nat, line: Bytes)
    requires events != [] && Replay(NewSession(events[0].sessionId), events).Some? && n < |events|
    requires !IsBlank(line) && c.decode(line) == Some(events[n])
    ensures AcceptableLine(c, events[..n], line)
  {
    ReplayNumbers(NewSession(events[0].sessionId), events, n);
    if n == 0 {
      var before := ReplayAt(NewSession(events[0].sessionId), events, 0);
      assert events[..0] == [];
    } else {
      ReplayNumbers(NewSession(events[0].sessionId), events, 0);
    }
  }

  lemma {:induction false} SpelledParses(c: Codec, events: seq<Event>, lines: seq<Bytes>, n: nat)
    requires events != [] && Replay(NewSession(events[0].sessionId), events).Some? && n <= |events|
    requires Spelled(c, lines, events)
    ensures ParseLines(c, events[..n], lines[n..]) == Some(events)
    decreases |lines| - n
  {
    if n == |events| {
      assert events[..n] == events && lines[n..] == [];
    } else {
      AcceptedLine(c, events, n, lines[n]);
      SpelledParses(c, events, lines, n + 1);
      OneMoreLine(c, events[..n], lines[n], lines[n + 1..]);
      MoveCut(events, n);
      MoveCut(lines, n);
    }
  }

  lemma OneMoreLine(c: Codec, events: seq<Event>, line: Bytes, rest: seq<Bytes>)
    requires AcceptableLine(c, events, line)
    ensures ParseLines(c, events, [line] + rest) == ParseLines(c, events + [c.decode(line).value], rest)
  {
    assert ([line] + rest)[1..] == rest;
  }

  lemma RecordsRead(c: Codec, content: Bytes, lines: seq<Bytes>, events: seq<Event>)
    requires Records(c, content, lines, events)
    ensures Contents(c, content) == Some(events)
  {
    JoinedLines(lines);
    if events != [] {
      SpelledParses(c, events, lines, 0);
      assert events[..0] == [] && lines[0..] == lines;
    }
  }

  lemma ReadRecords(c: Codec, content: Bytes, events: seq<Event>)
    requires Contents(c, content) == Some(events)
    ensures Records(c, content, Lines(content), events)
  {
    LinesJoined(content);
    if content != [] {
      ParsedSpells(c, [], Lines(content));
    }
  }

  /**
   A full read gives a list of events exactly when the file is text within the size limit made of lines that spell
   them, there are no more than a million, and the reducer accepts them all.
   */
  lemma ReadIff(c: Codec, content: Bytes, events: seq<Event>)
    ensures ReadLog(c, content) == Some(events) <==>
              |events| <= 1_000_000 && exists lines :: Records(c, content, lines, events)
  {
    if exists lines :: Records(c, content, lines, events) {
      var lines :| Records(c, content, lines, events);
      RecordsRead(c, content, lines, events);
    } else if Contents(c, content) == Some(events) {
      ReadRecords(c, content, events);
    }
  }
}
