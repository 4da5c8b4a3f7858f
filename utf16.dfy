// `add_surrogates` and `remove_surrogates`
// (src/utils/text_decorations/text.rs): a string as UTF-16 code units, and
// code units back as a string, as the UTF-16 encoding of section 2.1 of
// RFC 2781 defines them. A Dafny `char` is a Unicode scalar value, so a
// string never holds a lone surrogate.
module Utf16 {
  /** A UTF-16 code unit. */
  newtype Unit = x: int | 0 <= x < 0x1_0000

  predicate IsHighSurrogate(u: Unit) {
    0xD800 <= u < 0xDC00
  }

  predicate IsLowSurrogate(u: Unit) {
    0xDC00 <= u < 0xE000
  }

  /** One scalar value: itself when it fits in one unit, else a high and a
      low surrogate carrying the 20 bits above 0x10000. */
  function EncodeChar(c: char): (us: seq<Unit>)
    ensures (c as int) < 0x1_0000 ==> us == [c as int as Unit]
    ensures (c as int) >= 0x1_0000 ==> |us| == 2 && IsHighSurrogate(us[0]) && IsLowSurrogate(us[1])
    ensures |us| == 1 ==> !IsHighSurrogate(us[0]) && !IsLowSurrogate(us[0])
  {
    var n := c as int;
    if n < 0x1_0000 then [n as Unit]
    else
      var v := n - 0x1_0000;
      [(0xD800 + v / 0x400) as Unit, (0xDC00 + v % 0x400) as Unit]
  }

  /** `add_surrogates`: `encode_utf16` of the string. */
  function Encode(s: string): (us: seq<Unit>)
    ensures |us| >= |s|
    decreases |s|
  {
    if |s| == 0 then [] else EncodeChar(s[0]) + Encode(s[1..])
  }

  /** The scalar value a surrogate pair stands for. */
  function PairValue(hi: Unit, lo: Unit): (c: char)
    requires IsHighSurrogate(hi) && IsLowSurrogate(lo)
    ensures 0x1_0000 <= c as int < 0x11_0000
  {
    (0x1_0000 + (hi as int - 0xD800) * 0x400 + (lo as int - 0xDC00)) as char
  }

  /** U+FFFD, what a lossy decoding puts in place of a lone surrogate. */
  const REPLACEMENT_CHARACTER: char := '�'

  /** `remove_surrogates`: `String::from_utf16_lossy`; a high surrogate
      followed by a low one is one scalar value, any other surrogate is
      replaced by U+FFFD. */
  function Decode(us: seq<Unit>): (s: string)
    ensures |s| <= |us|
    decreases |us|
  {
    if |us| == 0 then []
    else if |us| >= 2 && IsHighSurrogate(us[0]) && IsLowSurrogate(us[1]) then [PairValue(us[0], us[1])] + Decode(us[2..])
    else if IsHighSurrogate(us[0]) || IsLowSurrogate(us[0]) then [REPLACEMENT_CHARACTER] + Decode(us[1..])
    else [us[0] as int as char] + Decode(us[1..])
  }

  /** Decoding one encoded scalar value in front of any units gives that
      value in front of the decoding of the rest. */
  lemma DecodeEncodedChar(c: char, rest: seq<Unit>)
    ensures Decode(EncodeChar(c) + rest) == [c] + Decode(rest)
  {
    var us := EncodeChar(c) + rest;
    var n := c as int;
    if n >= 0x1_0000 {
      var v := n - 0x1_0000;
      assert v == (v / 0x400) * 0x400 + v % 0x400;
      assert us[2..] == rest;
      assert PairValue(us[0], us[1]) as int == n;
    } else {
      assert us[1..] == rest;
    }
  }

  /** `remove_surrogates` undoes `add_surrogates`. */
  lemma {:induction false} DecodeEncode(s: string)
    ensures Decode(Encode(s)) == s
    decreases |s|
  {
    if |s| > 0 {
      DecodeEncodedChar(s[0], Encode(s[1..]));
      DecodeEncode(s[1..]);
    }
  }

  /** Encoding distributes over concatenation. */
  lemma {:induction false} EncodeAppend(a: string, b: string)
    ensures Encode(a + b) == Encode(a) + Encode(b)
    decreases |a|
  {
    if |a| > 0 {
      assert (a + b)[1..] == a[1..] + b;
      EncodeAppend(a[1..], b);
    } else {
      assert a + b == b;
    }
  }

  /** The number of units of a string: one per scalar value below 0x10000,
      two per scalar value above. */
  function UnitCount(s: string): nat
    decreases |s|
  {
    if |s| == 0 then 0 else (if s[0] as int < 0x1_0000 then 1 else 2) + UnitCount(s[1..])
  }

  lemma {:induction false} EncodeLength(s: string)
    ensures |Encode(s)| == UnitCount(s)
    ensures |s| <= |Encode(s)| <= 2 * |s|
    decreases |s|
  {
    if |s| > 0 {
      EncodeLength(s[1..]);
    }
  }
}
