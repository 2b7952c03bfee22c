/** Valid UTF-8 as encoded Unicode scalar values, by the table of section 3 of RFC 3629. */
module Unicode {
  import opened Bytes
  import opened Sequences
  import opened Utf8

  /** A Unicode scalar value: any code point but the surrogates. */
  predicate Scalar(c: int) {
    0 <= c < 0xD800 || 0xE000 <= c < 0x11_0000
  }

  function Continuing(n: int): byte
    requires 0 <= n < 64
  {
    (0x80 + n) as byte
  }

  /** The encoding table of section 3 of RFC 3629. */
  function EncodeScalar(c: int): (r: Bytes)
    requires Scalar(c)
    ensures 1 <= |r| <= 4
  {
    if c < 0x80 then [c as byte]
    else if c < 0x800 then [(0xC0 + c / 64) as byte, Continuing(c % 64)]
    else if c < 0x1_0000 then [(0xE0 + c / 4096) as byte, Continuing(c / 64 % 64), Continuing(c % 64)]
    else [(0xF0 + c / 262144) as byte, Continuing(c / 4096 % 64), Continuing(c / 64 % 64), Continuing(c % 64)]
  }

  /** The number a complete character stands for. */
  function ScalarOf(s: Bytes): int
    requires s != [] && ScanChar(s).Complete?
  {
    match ScanChar(s).length
    case 1 => s[0] as int
    case 2 => (s[0] as int - 0xC0) * 64 + (s[1] as int - 0x80)
    case 3 => (s[0] as int - 0xE0) * 4096 + (s[1] as int - 0x80) * 64 + (s[2] as int - 0x80)
    case _ =>
      (s[0] as int - 0xF0) * 262144 + (s[1] as int - 0x80) * 4096 + (s[2] as int - 0x80) * 64 + (s[3] as int - 0x80)
  }

  /** The encoding of a scalar value is scanned as one complete character, whatever follows. */
  lemma EncodedIsScanned(c: int, rest: Bytes)
    requires Scalar(c)
    ensures ScanChar(EncodeScalar(c) + rest) == Complete(|EncodeScalar(c)|)
  {
  }

  lemma TwoDigits(a: nat, b: nat)
    requires b < 64
    ensures (a * 64 + b) / 64 == a && (a * 64 + b) % 64 == b
  {
  }

  lemma ThreeDigits(a: nat, b: nat, c: nat)
    requires b < 64 && c < 64
    ensures var n := a * 4096 + b * 64 + c; n / 4096 == a && n / 64 % 64 == b && n % 64 == c
  {
    var n := a * 4096 + b * 64 + c;
    TwoDigits(a * 64 + b, c);
    TwoDigits(a, b);
    assert n == (a * 64 + b) * 64 + c;
    assert 4096 * a <= n < 4096 * (a + 1);
  }

  lemma FourDigits(a: nat, b: nat, c: nat, d: nat)
    requires b < 64 && c < 64 && d < 64
    ensures var n := a * 262144 + b * 4096 + c * 64 + d;
            n / 262144 == a && n / 4096 % 64 == b && n / 64 % 64 == c && n % 64 == d
  {
    var n := a * 262144 + b * 4096 + c * 64 + d;
    ThreeDigits(a * 64 + b, c, d);
    TwoDigits(a, b);
    assert n == (a * 64 + b) * 4096 + c * 64 + d;
    assert 262144 * a <= n < 262144 * (a + 1);
  }

  lemma ThreeBytesEncoded(s: Bytes)
    requires s != [] && ScanChar(s) == Complete(3)
    ensures Scalar(ScalarOf(s)) && s[..3] == EncodeScalar(ScalarOf(s))
  {
    ThreeDigits(s[0] as int - 0xE0, s[1] as int - 0x80, s[2] as int - 0x80);
  }

  lemma FourBytesEncoded(s: Bytes)
    requires s != [] && ScanChar(s) == Complete(4)
    ensures Scalar(ScalarOf(s)) && s[..4] == EncodeScalar(ScalarOf(s))
  {
    FourDigits(s[0] as int - 0xF0, s[1] as int - 0x80, s[2] as int - 0x80, s[3] as int - 0x80);
  }

  lemma ShortEncoded(s: Bytes)
    requires s != [] && (ScanChar(s) == Complete(1) || ScanChar(s) == Complete(2))
    ensures Scalar(ScalarOf(s)) && s[..ScanChar(s).length] == EncodeScalar(ScalarOf(s))
  {
    if ScanChar(s) == Complete(2) { TwoDigits(s[0] as int - 0xC0, s[1] as int - 0x80); }
  }

  /** A complete character is the encoding of a scalar value: nothing overlong, no surrogate, nothing beyond. */
  lemma ScannedIsEncoded(s: Bytes)
    requires s != [] && ScanChar(s).Complete?
    ensures Scalar(ScalarOf(s)) && s[..ScanChar(s).length] == EncodeScalar(ScalarOf(s))
  {
    var n := ScanChar(s).length;
    assert n <= 4;
    if n == 3 { ThreeBytesEncoded(s); } else if n == 4 { FourBytesEncoded(s); } else { ShortEncoded(s); }
  }

  /** Encoded scalar values, one after the other. */
  function EncodeAll(cs: seq<int>): Bytes
    requires forall i | 0 <= i < |cs| :: Scalar(cs[i])
  {
    if cs == [] then [] else EncodeScalar(cs[0]) + EncodeAll(cs[1..])
  }

  lemma EncodeCons(c: int, cs: seq<int>)
    requires Scalar(c) && forall i | 0 <= i < |cs| :: Scalar(cs[i])
    ensures (forall i | 0 <= i < |[c] + cs| :: Scalar(([c] + cs)[i]))
    ensures EncodeAll([c] + cs) == EncodeScalar(c) + EncodeAll(cs)
  {
    assert ([c] + cs)[1..] == cs;
  }

  lemma {:induction false} EncodedIsText(cs: seq<int>)
    requires forall i | 0 <= i < |cs| :: Scalar(cs[i])
    ensures IsText(EncodeAll(cs))
  {
    if cs != [] {
      var rest := EncodeAll(cs[1..]);
      EncodedIsScanned(cs[0], rest);
      assert (EncodeScalar(cs[0]) + rest)[|EncodeScalar(cs[0])|..] == rest;
      EncodedIsText(cs[1..]);
    }
  }

  /** Valid UTF-8 is exactly what encoding a list of scalar values gives. */
  lemma {:induction false} TextIsEncoded(s: Bytes) returns (cs: seq<int>)
    requires IsText(s)
    ensures (forall i | 0 <= i < |cs| :: Scalar(cs[i])) && EncodeAll(cs) == s
    decreases |s|
  {
    cs := [];
    if s != [] {
      var n := ScanChar(s).length;
      ScannedIsEncoded(s);
      var rest := TextIsEncoded(s[n..]);
      cs := [ScalarOf(s)] + rest;
      EncodeCons(ScalarOf(s), rest);
      Rejoin(s, n);
    }
  }

  /** The characters with the Unicode White_Space property. */
  predicate WhiteSpace(c: int) {
    || 9 <= c <= 13 || c == 32 || c == 0x85 || c == 0xA0 || c == 0x1680 || 0x2000 <= c <= 0x200A
    || c == 0x2028 || c == 0x2029 || c == 0x202F || c == 0x205F || c == 0x3000
  }

  lemma BlankOfThree(c: int, rest: Bytes)
    requires 0x800 <= c < 0x1_0000 && Scalar(c)
    ensures LeadingBlank(EncodeScalar(c) + rest) == if WhiteSpace(c) then 3 else 0
  {
    var s := EncodeScalar(c) + rest;
    assert s[..3] == EncodeScalar(c) && s[..2] == [s[0], s[1]];
    assert c == (s[0] as int - 0xE0) * 4096 + (s[1] as int - 0x80) * 64 + (s[2] as int - 0x80);
    assert s[..2] == [0xE2, 0x80] <==> s[0] == 0xE2 && s[1] == 0x80;
  }

  /** Leading white space is one character with that property. */
  lemma BlankIsWhiteSpace(c: int, rest: Bytes)
    requires Scalar(c)
    ensures LeadingBlank(EncodeScalar(c) + rest) == if WhiteSpace(c) then |EncodeScalar(c)| else 0
  {
    var s := EncodeScalar(c) + rest;
    if 0x800 <= c < 0x1_0000 {
      BlankOfThree(c, rest);
    } else if c >= 0x1_0000 {
      assert s[..3][0] == s[0] >= 0xF0 && s[..2][0] == s[0];
    } else if c >= 0x80 {
      assert s[0] as int == 0xC0 + c / 64 && s[1] as int == 0x80 + c % 64;
      assert |s| >= 3 ==> s[..3][0] == s[0] < 0xE0 && s[..2][0] == s[0];
    } else {
      assert |s| >= 3 ==> s[..3][0] == s[0] < 0x80 && s[..2][0] == s[0];
    }
  }

  /** A text is blank exactly when all its characters are white space. */
  lemma {:induction false} BlankIff(cs: seq<int>)
    requires forall i | 0 <= i < |cs| :: Scalar(cs[i])
    ensures IsBlank(EncodeAll(cs)) <==> forall i | 0 <= i < |cs| :: WhiteSpace(cs[i])
  {
    if cs != [] {
      var rest := EncodeAll(cs[1..]);
      BlankIsWhiteSpace(cs[0], rest);
      BlankIff(cs[1..]);
      assert (EncodeScalar(cs[0]) + rest)[|EncodeScalar(cs[0])|..] == rest;
      assert forall i | 0 < i < |cs| :: cs[1..][i - 1] == cs[i];
    }
  }
}
