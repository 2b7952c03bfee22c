/** Byte strings: the form in which every text, identifier and JSON value of the runtime is kept here. */
module Bytes {

  newtype byte = x: int | 0 <= x < 256

  type Bytes = seq<byte>

  const NEWLINE: byte := 10
  const CARRIAGE_RETURN: byte := 13

  /** The bytes of an ASCII literal; any other character becomes `?`. */
  function Ascii(s: string): (b: Bytes)
    ensures |b| == |s|
    ensures forall i | 0 <= i < |s| && s[i] < 128 as char :: b[i] as int == s[i] as int
  {
    seq(|s|, i requires 0 <= i < |s| => if s[i] < 128 as char then s[i] as int as byte else 63)
  }
}

module Options {
  datatype Option<+T> = None | Some(value: T)
}

module Sequences {
  lemma Associative<T>(a: seq<T>, b: seq<T>, c: seq<T>)
    ensures a + (b + c) == a + b + c
  {
  }

  lemma Rejoin<T>(a: seq<T>, n: nat)
    requires n <= |a|
    ensures a[..n] + a[n..] == a
  {
  }

  /** One element more of a sequence, from either end of a cut. */
  lemma MoveCut<T>(a: seq<T>, n: nat)
    requires n < |a|
    ensures a[..n + 1] == a[..n] + [a[n]] && a[n..] == [a[n]] + a[n + 1..]
  {
  }

  lemma PrefixTransitive<T>(a: seq<T>, b: seq<T>, c: seq<T>)
    requires a <= b && b <= c
    ensures a <= c
  {
  }

  lemma PrefixGrows<T>(a: seq<T>, b: seq<T>, c: seq<T>)
    requires a <= b
    ensures a <= b + c
  {
  }
}
