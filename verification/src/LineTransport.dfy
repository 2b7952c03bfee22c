/** Newline-framed messages over a byte stream that arrives in arbitrary chunks. */
module LineTransport {
  import opened Bytes
  import opened Options
  import opened Sequences
  import opened TextLines

  const MAX_MESSAGE_BYTES: nat := 1024 * 1024

  datatype BoundedLine = Line(bytes: Bytes) | TooLarge

  // ------------------------------------------------------------------ specification

  function TrimReturn(line: Bytes): Bytes {
    if line != [] && line[|line| - 1] == CARRIAGE_RETURN then line[..|line| - 1] else line
  }

  /** A line that ended with a newline, which counts toward its size. */
  function Ended(body: Bytes): BoundedLine {
    if |body| + 1 > MAX_MESSAGE_BYTES then TooLarge else Line(TrimReturn(body))
  }

  /** What the stream ends with when its last line has no newline; a final carriage return stays. */
  function Unended(body: Bytes): BoundedLine {
    if |body| > MAX_MESSAGE_BYTES then TooLarge else Line(body)
  }

  /** The first line of a byte stream and what follows it. */
  function FirstLine(stream: Bytes): (Option<BoundedLine>, Bytes) {
    var i := NewlineAt(stream);
    if stream == [] then (None, [])
    else if i == |stream| then (Some(Unended(stream)), [])
    else (Some(Ended(stream[..i])), stream[i + 1..])
  }

  /** The verdict on each line of a stream; only the last may lack its newline. */
  function Verdicts(bodies: seq<Bytes>, terminated: bool): seq<BoundedLine> {
    if bodies == [] then []
    else
      [if |bodies| == 1 && !terminated then Unended(bodies[0]) else Ended(bodies[0])]
          + Verdicts(bodies[1..], terminated)
  }

  /** Cutting the whole stream at its newlines. */
  function AllLines(stream: Bytes): seq<BoundedLine> {
    Verdicts(Lines(stream), Terminated(stream))
  }

  lemma AllLinesStep(stream: Bytes)
    requires stream != []
    ensures AllLines(stream) == [FirstLine(stream).0.value] + AllLines(FirstLine(stream).1)
    ensures |FirstLine(stream).1| < |stream|
  {
    var i := NewlineAt(stream);
    if i < |stream| {
      var rest := stream[i + 1..];
      assert Lines(stream) == [stream[..i]] + Lines(rest);
      assert Lines(stream)[1..] == Lines(rest);
      LastLine(stream, rest);
    } else {
      assert stream[|stream| - 1] != NEWLINE;
      assert Lines(stream) == [stream] && [stream][1..] == [] && Lines([]) == [];
      assert Verdicts([stream], false) == [Unended(stream)] + Verdicts([], false);
    }
  }

  lemma LastLine(stream: Bytes, rest: Bytes)
    requires |rest| < |stream| && stream[|stream| - |rest|..] == rest && stream[|stream| - |rest| - 1] == NEWLINE
    ensures if rest == [] then Terminated(stream) && Lines(rest) == []
            else Terminated(rest) == Terminated(stream) && Lines(rest) != []
  {
    if rest != [] { assert rest[|rest| - 1] == stream[|stream| - 1]; }
  }

  // ------------------------------------------------------------------ the reader

  function Flat(chunks: seq<Bytes>): Bytes {
    if chunks == [] then [] else chunks[0] + Flat(chunks[1..])
  }

  /** A buffered reader; an empty buffer means the end of the stream, so chunks are never empty. */
  class ChunkReader {
    var chunks: seq<Bytes>

    ghost predicate Valid()
      reads this
    {
      forall i | 0 <= i < |chunks| :: chunks[i] != []
    }

    function Remaining(): Bytes
      reads this
    {
      Flat(chunks)
    }

    constructor (chunks: seq<Bytes>)
      requires forall i | 0 <= i < |chunks| :: chunks[i] != []
      ensures Valid() && this.chunks == chunks
    {
      this.chunks := chunks;
    }

    function FillBuf(): (r: Bytes)
      reads this
      requires Valid()
      ensures r == [] <==> Remaining() == []
      ensures r <= Remaining()
    {
      if chunks == [] then [] else chunks[0]
    }

    method Consume(n: nat)
      requires Valid() && 0 < n <= |FillBuf()|
      modifies this
      ensures Valid() && Remaining() == old(Remaining())[n..]
    {
      ghost var rest := Flat(chunks[1..]);
      assert Flat(chunks)[n..] == chunks[0][n..] + rest;
      if n == |chunks[0]| {
        chunks := chunks[1..];
      } else {
        assert ([chunks[0][n..]] + chunks[1..])[1..] == chunks[1..];
        chunks := [chunks[0][n..]] + chunks[1..];
      }
    }
  }

  /** What is kept of the bytes seen of a line: all of them until they are too many. */
  predicate Gathered(line: Bytes, oversized: bool, seen: Bytes) {
    (oversized <==> |seen| > MAX_MESSAGE_BYTES) && |line| <= |seen| && (!oversized ==> line == seen)
  }

  /** Reads one line, whatever the chunks; an oversized line is skipped up to and including its newline. */
  method ReadBoundedLine(reader: ChunkReader) returns (r: Option<BoundedLine>)
    requires reader.Valid()
    modifies reader
    ensures reader.Valid()
    ensures (r, reader.Remaining()) == FirstLine(old(reader.Remaining()))
  {
    var line: Bytes, oversized := [], false;
    ghost var stream, seen: Bytes := reader.Remaining(), [];
    while true
      invariant reader.Valid()
      invariant stream == seen + reader.Remaining()
      invariant forall k | 0 <= k < |seen| :: seen[k] != NEWLINE
      invariant Gathered(line, oversized, seen)
      decreases |reader.Remaining()|
    {
      if reader.FillBuf() == [] {
        EndOfStream(stream, seen);
        if line == [] && !oversized {
          return None;
        }
        return Some(if oversized then TooLarge else Line(line));
      }
      var piece := TakePiece(reader);
      line, oversized := Gather(line, oversized, seen, piece);
      Associative(seen, piece, reader.Remaining());
      if piece[|piece| - 1] == NEWLINE {
        ghost var body := LineCompleted(stream, seen, piece, reader.Remaining());
        var ended := FinishLine(line, oversized, body);
        return Some(ended);
      }
      seen := seen + piece;
    }
  }

  /** Takes what the buffer holds of the current line, its newline included. */
  method TakePiece(reader: ChunkReader) returns (piece: Bytes)
    requires reader.Valid() && reader.FillBuf() != []
    modifies reader
    ensures reader.Valid() && piece != [] && old(reader.Remaining()) == piece + reader.Remaining()
    ensures forall k | 0 <= k < |piece| - 1 :: piece[k] != NEWLINE
  {
    var chunk := reader.FillBuf();
    var newline := NewlineAt(chunk);
    var take := if newline == |chunk| then |chunk| else newline + 1;
    piece := chunk[..take];
    assert piece == reader.Remaining()[..take];
    reader.Consume(take);
  }

  method Gather(before: Bytes, wasOversized: bool, ghost seen: Bytes, piece: Bytes)
      returns (line: Bytes, oversized: bool)
    requires Gathered(before, wasOversized, seen)
    ensures Gathered(line, oversized, seen + piece)
  {
    line, oversized := before, wasOversized;
    if |line| + |piece| > MAX_MESSAGE_BYTES {
      oversized := true;
    } else if !oversized {
      line := line + piece;
    }
  }

  method FinishLine(line: Bytes, oversized: bool, ghost body: Bytes) returns (r: BoundedLine)
    requires Gathered(line, oversized, body + [NEWLINE])
    ensures r == Ended(body)
  {
    if oversized {
      return TooLarge;
    }
    var trimmed := TrimEnding(line, body);
    return Line(trimmed);
  }

  method TrimEnding(read: Bytes, ghost body: Bytes) returns (line: Bytes)
    requires read == body + [NEWLINE]
    ensures line == TrimReturn(body)
  {
    line := read;
    if line != [] && line[|line| - 1] == NEWLINE {
      line := line[..|line| - 1];
    }
    assert line == body;
    if line != [] && line[|line| - 1] == CARRIAGE_RETURN {
      line := line[..|line| - 1];
    }
  }

  lemma EndOfStream(stream: Bytes, seen: Bytes)
    requires stream == seen + [] && forall k | 0 <= k < |seen| :: seen[k] != NEWLINE
    ensures stream == seen && FirstLine(stream) == (if seen == [] then None else Some(Unended(seen)), [])
  {
    NewlineAtIs(stream, |stream|);
  }

  lemma EndOfLine(stream: Bytes, body: Bytes, rest: Bytes)
    requires forall k | 0 <= k < |body| :: body[k] != NEWLINE
    requires stream == body + [NEWLINE] + rest
    ensures FirstLine(stream) == (Some(Ended(body)), rest)
  {
    NewlineAtIs(stream, |body|);
    assert stream[..|body|] == body && stream[|body| + 1..] == rest;
  }

  lemma LineCompleted(stream: Bytes, seen: Bytes, piece: Bytes, rest: Bytes) returns (body: Bytes)
    requires stream == seen + piece + rest && forall k | 0 <= k < |seen| :: seen[k] != NEWLINE
    requires piece != [] && piece[|piece| - 1] == NEWLINE && forall k | 0 <= k < |piece| - 1 :: piece[k] != NEWLINE
    ensures seen + piece == body + [NEWLINE] && FirstLine(stream) == (Some(Ended(body)), rest)
  {
    body := seen + piece[..|piece| - 1];
    assert seen + piece == body + [NEWLINE];
    EndOfLine(stream, body, rest);
  }

  /** Reading to the end yields the lines of the stream: the chunks leave no trace. */
  method ReadToEnd(reader: ChunkReader) returns (lines: seq<BoundedLine>)
    requires reader.Valid()
    modifies reader
    ensures reader.Valid() && reader.Remaining() == []
    ensures lines == AllLines(old(reader.Remaining()))
  {
    lines := [];
    var more := true;
    while more
      invariant reader.Valid()
      invariant lines + AllLines(reader.Remaining()) == AllLines(old(reader.Remaining()))
      invariant !more ==> reader.Remaining() == []
      decreases more, |reader.Remaining()|
    {
      ghost var stream := reader.Remaining();
      var next := ReadBoundedLine(reader);
      if next.None? {
        more := false;
      } else {
        AllLinesStep(stream);
        lines := lines + [next.value];
      }
    }
  }

  // ------------------------------------------------------------------ the writer

  /** What writing a message puts on the stream; an oversized message is refused and nothing is sent. */
  function Framed(encoded: Bytes): Bytes {
    if |encoded| + 1 > MAX_MESSAGE_BYTES then [] else encoded + [NEWLINE]
  }

  class LineWriter {
    var sent: Bytes

    constructor ()
      ensures sent == []
    {
      sent := [];
    }

    method WriteJsonLine(encoded: Bytes) returns (ok: bool)
      modifies this
      ensures sent == old(sent) + Framed(encoded)
      ensures ok <==> |encoded| < MAX_MESSAGE_BYTES
    {
      if |encoded| + 1 > MAX_MESSAGE_BYTES {
        return false;
      }
      sent := sent + encoded;
      sent := sent + [NEWLINE];
      return true;
    }
  }

  function SendAll(messages: seq<Bytes>): Bytes {
    if messages == [] then [] else Framed(messages[0]) + SendAll(messages[1..])
  }

  function Accepted(messages: seq<Bytes>): seq<BoundedLine> {
    if messages == [] then []
    else (if |messages[0]| < MAX_MESSAGE_BYTES then [Line(messages[0])] else []) + Accepted(messages[1..])
  }

  /** An encoded message: no raw newline, and no carriage return at its end. */
  predicate Encoded(m: Bytes) {
    (forall k | 0 <= k < |m| :: m[k] != NEWLINE) && TrimReturn(m) == m
  }

  lemma LeadingLine(body: Bytes, rest: Bytes)
    requires forall k | 0 <= k < |body| :: body[k] != NEWLINE
    ensures AllLines(body + [NEWLINE] + rest) == [Ended(body)] + AllLines(rest)
  {
    EndOfLine(body + [NEWLINE] + rest, body, rest);
    AllLinesStep(body + [NEWLINE] + rest);
  }

  /** Whatever was written is read back, message by message, and nothing else is. */
  lemma {:induction false} WrittenIsRead(messages: seq<Bytes>)
    requires forall i | 0 <= i < |messages| :: Encoded(messages[i])
    ensures AllLines(SendAll(messages)) == Accepted(messages)
  {
    if messages != [] {
      var m, rest := messages[0], SendAll(messages[1..]);
      WrittenIsRead(messages[1..]);
      if |m| < MAX_MESSAGE_BYTES {
        LeadingLine(m, rest);
      } else {
        assert [] + rest == rest;
      }
    }
  }

  /** A message within the limit arrives as it is, whatever follows it; one beyond the limit leaves no trace. */
  lemma MessageArrives(m: Bytes, rest: Bytes)
    requires NEWLINE !in m && (m == [] || m[|m| - 1] != CARRIAGE_RETURN)
    ensures AllLines(Framed(m) + rest) == if |m| < 1024 * 1024 then [Line(m)] + AllLines(rest) else AllLines(rest)
  {
    if |m| < MAX_MESSAGE_BYTES {
      LeadingLine(m, rest);
    } else {
      assert [] + rest == rest;
    }
  }

  /** An oversized line costs nothing but itself: reading resumes right after its newline. */
  lemma Resynchronizes(body: Bytes, rest: Bytes)
    requires (forall k | 0 <= k < |body| :: body[k] != NEWLINE) && |body| + 1 > MAX_MESSAGE_BYTES
    ensures AllLines(body + [NEWLINE] + rest) == [TooLarge] + AllLines(rest)
  {
    LeadingLine(body, rest);
  }

  /**
   Every way a line may end: a newline closes it and is dropped with one carriage return before it; a line the stream
   ends in keeps its carriage return. Longer than 1 MiB, its newline counted, it is reported as too large.
   */
  lemma LineEndings(body: Bytes, rest: Bytes)
    requires forall k | 0 <= k < |body| :: body[k] != NEWLINE
    ensures |body| + 1 > 1024 * 1024 ==> AllLines(body + [NEWLINE] + rest) == [TooLarge] + AllLines(rest)
    ensures |body| + 1 <= 1024 * 1024 && (body == [] || body[|body| - 1] != CARRIAGE_RETURN) ==>
              AllLines(body + [NEWLINE] + rest) == [Line(body)] + AllLines(rest)
    ensures |body| + 2 <= 1024 * 1024 ==>
              AllLines(body + [CARRIAGE_RETURN] + [NEWLINE] + rest) == [Line(body)] + AllLines(rest)
    ensures body != [] ==> AllLines(body) == [if |body| > 1024 * 1024 then TooLarge else Line(body)]
    ensures AllLines([]) == []
  {
    LeadingLine(body, rest);
    var returned := body + [CARRIAGE_RETURN];
    LeadingLine(returned, rest);
    assert TrimReturn(returned) == body;
    if body != [] {
      NewlineAtIs(body, |body|);
      AllLinesStep(body);
    }
  }
}
