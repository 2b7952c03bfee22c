/**
 UTF-8 as section 4 of RFC 3629 defines it, with the three answers of the decoder the runtime
 relies on: valid, cut off inside a character, or malformed.
 */
module Utf8 {
  import opened Bytes

  /** Length announced by a first byte; 0 when no character starts with it. */
  function AnnouncedLength(first: byte): (n: nat)
    ensures n <= 4
  {
    if first < 0x80 then 1
    else if 0xC2 <= first <= 0xDF then 2
    else if 0xE0 <= first <= 0xEF then 3
    else if 0xF0 <= first <= 0xF4 then 4
    else 0
  }

  predicate IsContinuation(b: byte) {
    0x80 <= b <= 0xBF
  }

  /** The second byte is narrower than a continuation byte after E0, ED, F0 and F4. */
  predicate SecondByteFits(first: byte, second: byte) {
    if first == 0xE0 then 0xA0 <= second <= 0xBF
    else if first == 0xED then 0x80 <= second <= 0x9F
    else if first == 0xF0 then 0x90 <= second <= 0xBF
    else if first == 0xF4 then 0x80 <= second <= 0x8F
    else IsContinuation(second)
  }

  datatype CharScan = Complete(length: nat) | CutOff | Malformed

  /** Looks at the character that starts a nonempty byte string. */
  function ScanChar(s: Bytes): (r: CharScan)
    requires s != []
    ensures r.Complete? ==> 1 <= r.length <= |s|
  {
    var n := AnnouncedLength(s[0]);
    if n == 0 then Malformed
    else if n == 1 then Complete(1)
    else if |s| == 1 then CutOff
    else if !SecondByteFits(s[0], s[1]) then Malformed
    else if n == 2 then Complete(2)
    else if |s| == 2 then CutOff
    else if !IsContinuation(s[2]) then Malformed
    else if n == 3 then Complete(3)
    else if |s| == 3 then CutOff
    else if !IsContinuation(s[3]) then Malformed
    else Complete(4)
  }

  /** `Incomplete` is the decoder's "unexpected end": what follows `validUpTo` may still become a character. */
  datatype Validity = Valid | Incomplete(validUpTo: nat) | Invalid(validUpTo: nat)

  function Shift(v: Validity, n: nat): Validity {
    match v
    case Valid => Valid
    case Incomplete(k) => Incomplete(k + n)
    case Invalid(k) => Invalid(k + n)
  }

  function Check(s: Bytes): Validity {
    if s == [] then Valid
    else
      match ScanChar(s)
      case Complete(n) => Shift(Check(s[n..]), n)
      case CutOff => Incomplete(0)
      case Malformed => Invalid(0)
  }

  predicate IsText(s: Bytes) {
    Check(s).Valid?
  }

  /** `m` is the end of the longest whole-character prefix of `s` that has at most `n` bytes. */
  ghost predicate LongestTextPrefix(s: Bytes, n: nat, m: nat) {
    && m <= n <= |s|
    && IsText(s[..m])
    && forall k | m < k <= n :: !IsText(s[..k])
  }

  /** Where the decoder says the text ends. */
  function KeptLength(s: Bytes): (n: nat) {
    match Check(s)
    case Valid => |s|
    case Incomplete(k) => k
    case Invalid(k) => k
  }

  lemma ScanPrefix(s: Bytes, n: nat)
    requires s != [] && !ScanChar(s).Malformed? && 1 <= n <= |s|
    ensures ScanChar(s[..n]) == if ScanChar(s).CutOff? || n < ScanChar(s).length then CutOff else ScanChar(s)
  {
  }

  /** Cutting anything not malformed never looks malformed, and the decoder stops at the last character boundary. */
  lemma {:induction false} CutText(s: Bytes, n: nat)
    requires !Check(s).Invalid? && n <= |s|
    ensures !Check(s[..n]).Invalid?
    ensures LongestTextPrefix(s, n, KeptLength(s[..n]))
    decreases |s|
  {
    assert s[..0] == [];
    if n > 0 {
      ScanPrefix(s, n);
      if ScanChar(s).CutOff? || n < ScanChar(s).length {
        assert Check(s[..n]) == Incomplete(0);
        forall m | 0 < m <= n ensures !IsText(s[..m]) {
          ScanPrefix(s, m);
        }
      } else {
        CutAfterChar(s, n);
      }
    }
  }

  lemma TextAfterChar(s: Bytes, m: nat)
    requires s != [] && ScanChar(s).Complete? && ScanChar(s).length <= m <= |s|
    ensures var k := ScanChar(s).length; IsText(s[..m]) == IsText(s[k..][..m - k])
  {
    var k := ScanChar(s).length;
    ScanPrefix(s, m);
    assert s[..m][k..] == s[k..][..m - k];
  }

  lemma {:induction false} CutAfterChar(s: Bytes, n: nat)
    requires s != [] && !Check(s).Invalid? && ScanChar(s).Complete? && ScanChar(s).length <= n <= |s|
    ensures !Check(s[..n]).Invalid?
    ensures LongestTextPrefix(s, n, KeptLength(s[..n]))
    decreases |s|, 0
  {
    var k := ScanChar(s).length;
    var rest := s[k..];
    CutText(rest, n - k);
    ScanPrefix(s, n);
    assert s[..n][k..] == rest[..n - k];
    var kept := KeptLength(rest[..n - k]);
    forall m | k <= m <= n ensures IsText(s[..m]) == IsText(rest[..m - k]) {
      TextAfterChar(s, m);
    }
    assert KeptLength(s[..n]) == kept + k;
    assert IsText(rest[..kept]);
    assert rest[..kept] == rest[..(kept + k) - k];
    forall m | kept + k < m <= n ensures !IsText(s[..m]) {
      assert !IsText(rest[..m - k]);
    }
  }

  /** The test the runtime uses for a character boundary is exact on valid text. */
  lemma {:induction false} BoundaryByte(s: Bytes, n: nat)
    requires IsText(s) && 0 < n < |s|
    ensures IsText(s[..n]) <==> !IsContinuation(s[n])
    decreases |s|
  {
    var k := ScanChar(s).length;
    ScanPrefix(s, n);
    if n < k {
      assert !IsText(s[..n]);
    } else {
      var rest := s[k..];
      assert s[..n][k..] == rest[..n - k];
      if n == k {
        assert IsText(rest) && rest != [] && s[n] == rest[0];
        assert !IsContinuation(rest[0]) by {
          assert ScanChar(rest) != Malformed;
        }
        assert s[..n][k..] == [] && Check([]) == Valid;
        assert IsText(s[..n]);
      } else {
        BoundaryByte(rest, n - k);
      }
    }
  }

  /** After a valid text, validity is decided by what follows. */
  lemma {:induction false} AppendText(a: Bytes, b: Bytes)
    requires IsText(a)
    ensures IsText(a + b) <==> IsText(b)
    decreases |a|
  {
    if a == [] {
      assert a + b == b;
    } else {
      var k := ScanChar(a).length;
      assert ScanChar(a + b) == ScanChar(a) by {
        assert a == (a + b)[..|a|];
      }
      assert (a + b)[k..] == a[k..] + b;
      AppendText(a[k..], b);
    }
  }

  /** Leading white space of a text, in bytes: the characters with the Unicode White_Space property. */
  function LeadingBlank(s: Bytes): (n: nat)
    ensures n <= |s|
  {
    if |s| >= 1 && (9 <= s[0] <= 13 || s[0] == 32) then 1
    else if |s| >= 2 && s[0] == 0xC2 && (s[1] == 0x85 || s[1] == 0xA0) then 2
    else if |s| >= 3 && s[..3] == [0xE1, 0x9A, 0x80] then 3
    else if |s| >= 3 && s[..2] == [0xE2, 0x80]
        && (0x80 <= s[2] <= 0x8A || s[2] == 0xA8 || s[2] == 0xA9 || s[2] == 0xAF) then 3
    else if |s| >= 3 && (s[..3] == [0xE2, 0x81, 0x9F] || s[..3] == [0xE3, 0x80, 0x80]) then 3
    else 0
  }

  /** Trimming the text leaves nothing. */
  predicate IsBlank(s: Bytes) {
    s == [] || (LeadingBlank(s) > 0 && IsBlank(s[LeadingBlank(s)..]))
  }
}
