/** JSON encoding of the conversation history: section 7 of RFC 8259 with the short escapes, no white space. */
module HistoryJson {
  import opened Bytes
  import opened Options
  import opened Sequences
  import opened State

  const QUOTE: byte := 34
  const BACKSLASH: byte := 92

  function HexDigit(n: int): byte
    requires 0 <= n < 16
  {
    if n < 10 then (48 + n) as byte else (87 + n) as byte
  }

  function EscapeByte(b: byte): (r: Bytes)
    ensures 1 <= |r| <= 6
  {
    if b == QUOTE || b == BACKSLASH then [BACKSLASH, b]
    else if b == 8 then [BACKSLASH, 98]
    else if b == 9 then [BACKSLASH, 116]
    else if b == 10 then [BACKSLASH, 110]
    else if b == 12 then [BACKSLASH, 102]
    else if b == 13 then [BACKSLASH, 114]
    else if b < 32 then [BACKSLASH, 117, 48, 48, HexDigit(b as int / 16), HexDigit(b as int % 16)]
    else [b]
  }

  function Escape(s: Text): Bytes {
    if s == [] then [] else EscapeByte(s[0]) + Escape(s[1..])
  }

  function EncodeString(s: Text): Bytes {
    [QUOTE] + Escape(s) + [QUOTE]
  }

  function EncodeItem(item: HistoryItem): (r: Bytes)
    ensures |r| > 0
  {
    match item
    case User(text) => Ascii("{\"User\":") + EncodeString(text) + Ascii("}")
    case Assistant(text) => Ascii("{\"Assistant\":") + EncodeString(text) + Ascii("}")
    case Tool(callId, name, input, result) =>
      Ascii("{\"Tool\":{\"call_id\":") + EncodeString(callId)
      + Ascii(",\"name\":") + EncodeString(name)
      + Ascii(",\"input\":") + input
      + Ascii(",\"result\":") + EncodeString(result) + Ascii("}}")
  }

  function Join(items: seq<HistoryItem>): Bytes {
    if items == [] then []
    else if |items| == 1 then EncodeItem(items[0])
    else EncodeItem(items[0]) + Ascii(",") + Join(items[1..])
  }

  function EncodeHistory(items: seq<HistoryItem>): Bytes {
    Ascii("[") + Join(items) + Ascii("]")
  }

  /** Appending an item grows the array by the item and, unless it is the first, a comma. */
  lemma {:induction false} EncodeSnoc(items: seq<HistoryItem>, item: HistoryItem)
    ensures |EncodeHistory(items + [item])| ==
              |EncodeHistory(items)| + |EncodeItem(item)| + (if items == [] then 0 else 1)
  {
    if items == [] {
      assert items + [item] == [item];
    } else {
      EncodeSnoc(items[1..], item);
      assert (items + [item])[1..] == items[1..] + [item];
    }
  }

  /** The same growth at the front. */
  lemma EncodeCons(item: HistoryItem, items: seq<HistoryItem>)
    ensures |EncodeHistory([item] + items)| ==
              |EncodeHistory(items)| + |EncodeItem(item)| + (if items == [] then 0 else 1)
  {
    assert ([item] + items)[1..] == items;
  }

  lemma {:induction false} EscapeConcat(a: Text, b: Text)
    ensures Escape(a + b) == Escape(a) + Escape(b)
  {
    if a == [] {
      assert a + b == b;
    } else {
      assert (a + b)[1..] == a[1..] + b;
      EscapeConcat(a[1..], b);
      Associative(EscapeByte(a[0]), Escape(a[1..]), Escape(b));
    }
  }

  /** Escaping never shortens. */
  lemma {:induction false} EscapeGrows(s: Text)
    ensures |Escape(s)| >= |s|
  {
    if s != [] { EscapeGrows(s[1..]); }
  }

  /** Bytes that need no escape are encoded as they are. */
  lemma {:induction false} PlainEscape(s: Text)
    requires forall i | 0 <= i < |s| :: EscapeByte(s[i]) == [s[i]]
    ensures Escape(s) == s
  {
    if s != [] {
      assert forall i | 0 <= i < |s[1..]| :: s[1..][i] == s[i + 1];
      PlainEscape(s[1..]);
      assert s == [s[0]] + s[1..];
    }
  }

  // ------------------------------------------------------------------ reading a string back

  function HexValue(b: byte): (r: int)
    ensures -1 <= r < 16
  {
    if 48 <= b <= 57 then b as int - 48 else if 97 <= b <= 102 then b as int - 87 else -1
  }

  /** One character of a JSON string and its length; nothing where a string may not go on like this. */
  function ReadEscaped(s: Bytes): (r: Option<(byte, nat)>)
    ensures r.Some? ==> 0 < r.value.1 <= |s|
  {
    if s == [] || s[0] == QUOTE || s[0] < 32 then None
    else if s[0] != BACKSLASH then Some((s[0], 1))
    else if |s| == 1 then None
    else if s[1] == QUOTE || s[1] == BACKSLASH then Some((s[1], 2))
    else if s[1] == 98 then Some((8, 2))
    else if s[1] == 116 then Some((9, 2))
    else if s[1] == 110 then Some((10, 2))
    else if s[1] == 102 then Some((12, 2))
    else if s[1] == 114 then Some((13, 2))
    else if s[1] == 117 && |s| >= 6 && s[2] == 48 && s[3] == 48 && 0 <= HexValue(s[4]) < 8 && 0 <= HexValue(s[5])
    then Some(((HexValue(s[4]) * 16 + HexValue(s[5])) as byte, 6))
    else None
  }

  /** The text of an escaped string, and nothing for what is no string. */
  function Unescape(s: Bytes): Option<Text> {
    if s == [] then Some([])
    else
      var first := ReadEscaped(s);
      if first.None? then None
      else
        var rest := Unescape(s[first.value.1..]);
        if rest.None? then None else Some([first.value.0] + rest.value)
  }

  lemma EscapedByteRead(b: byte, rest: Bytes)
    ensures ReadEscaped(EscapeByte(b) + rest) == Some((b, |EscapeByte(b)|))
  {
  }

  /** An escaped text is a JSON string body, and reads back as the text. */
  lemma {:induction false} EscapeReadsBack(s: Text)
    ensures Unescape(Escape(s)) == Some(s)
  {
    if s != [] {
      EscapedByteRead(s[0], Escape(s[1..]));
      assert (EscapeByte(s[0]) + Escape(s[1..]))[|EscapeByte(s[0])|..] == Escape(s[1..]);
      EscapeReadsBack(s[1..]);
      assert s == [s[0]] + s[1..];
    }
  }
}
