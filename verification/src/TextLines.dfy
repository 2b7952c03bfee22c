/** Splitting bytes into lines at newlines. */
module TextLines {
  import opened Bytes
  import opened Sequences

  function NewlineAt(s: Bytes): (i: nat)
    ensures i <= |s|
    ensures forall k | 0 <= k < i :: s[k] != NEWLINE
    ensures i < |s| ==> s[i] == NEWLINE
  {
    if s == [] || s[0] == NEWLINE then 0
    else
      assert s == [s[0]] + s[1..];
      1 + NewlineAt(s[1..])
  }

  lemma NewlineAtIs(s: Bytes, i: nat)
    requires i <= |s| && (forall k | 0 <= k < i :: s[k] != NEWLINE) && (i < |s| ==> s[i] == NEWLINE)
    ensures NewlineAt(s) == i
  {
    assert NewlineAt(s) <= i <= NewlineAt(s);
  }

  predicate Terminated(s: Bytes) {
    s == [] || s[|s| - 1] == NEWLINE
  }

  /** Splitting at newlines; only an unterminated text has a last line without one. */
  function Lines(s: Bytes): seq<Bytes> {
    if s == [] then []
    else
      var i := NewlineAt(s);
      if i == |s| then [s] else [s[..i]] + Lines(s[i + 1..])
  }

  lemma TerminatedLine(s: Bytes)
    requires s != [] && Terminated(s)
    ensures NewlineAt(s) < |s|
    ensures Terminated(s[NewlineAt(s) + 1..])
  {
    assert s[|s| - 1] == NEWLINE;
    var rest := s[NewlineAt(s) + 1..];
    if rest != [] { assert rest[|rest| - 1] == s[|s| - 1]; }
  }

  lemma LinesCons(body: Bytes, rest: Bytes)
    requires forall k | 0 <= k < |body| :: body[k] != NEWLINE
    ensures Lines(body + [NEWLINE] + rest) == [body] + Lines(rest)
  {
    var s := body + [NEWLINE] + rest;
    NewlineAtIs(s, |body|);
    assert s[..|body|] == body && s[|body| + 1..] == rest;
  }

  lemma LinesConcatStep(body: Bytes, rest: Bytes, b: Bytes)
    requires forall k | 0 <= k < |body| :: body[k] != NEWLINE
    requires Lines(rest + b) == Lines(rest) + Lines(b)
    ensures Lines(body + [NEWLINE] + rest + b) == Lines(body + [NEWLINE] + rest) + Lines(b)
  {
    LinesCons(body, rest);
    LinesCons(body, rest + b);
    Associative(body + [NEWLINE], rest, b);
    Associative([body], Lines(rest), Lines(b));
  }

  lemma {:induction false} LinesConcat(a: Bytes, b: Bytes)
    requires Terminated(a)
    ensures Lines(a + b) == Lines(a) + Lines(b)
    decreases |a|
  {
    if a == [] {
      assert a + b == b;
    } else {
      TerminatedLine(a);
      var i := NewlineAt(a);
      var rest := a[i + 1..];
      assert a == a[..i] + [NEWLINE] + rest;
      LinesConcat(rest, b);
      LinesConcatStep(a[..i], rest, b);
    }
  }

  lemma LinesOfOne(body: Bytes)
    requires NEWLINE !in body
    ensures Lines(body + [NEWLINE]) == [body]
  {
    LinesCons(body, []);
    assert body + [NEWLINE] + [] == body + [NEWLINE];
  }
}
