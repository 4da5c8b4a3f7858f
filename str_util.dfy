// The few operations of Rust's `str` that the filters and the command
// parser rely on: `trim`, `split` on one character, `to_lowercase`, and the
// substring, prefix and suffix tests. Strings are sequences of Unicode
// scalar values.
module StrUtil {

  /** The characters with the Unicode `White_Space` property, which `trim`
      removes. */
  predicate IsWhitespace(c: char) {
    ('\U{9}' <= c <= '\U{D}') || c == ' ' || c == '\U{85}' || c == '\U{A0}'
    || c == '\U{1680}' || ('\U{2000}' <= c <= '\U{200A}') || c == '\U{2028}' || c == '\U{2029}'
    || c == '\U{202F}' || c == '\U{205F}' || c == '\U{3000}'
  }

  function TrimStart(s: string): (r: string)
    ensures |r| <= |s| && r == s[|s| - |r|..]
    ensures |r| > 0 ==> !IsWhitespace(r[0])
    ensures forall i | 0 <= i < |s| - |r| :: IsWhitespace(s[i])
  {
    if |s| > 0 && IsWhitespace(s[0]) then TrimStart(s[1..]) else s
  }

  function TrimEnd(s: string): (r: string)
    ensures |r| <= |s| && r == s[..|r|]
    ensures |r| > 0 ==> !IsWhitespace(r[|r| - 1])
    ensures forall i | |r| <= i < |s| :: IsWhitespace(s[i])
  {
    if |s| > 0 && IsWhitespace(s[|s| - 1]) then TrimEnd(s[..|s| - 1]) else s
  }

  /** `str::trim`: the string without its leading and trailing white space. */
  function Trim(s: string): (r: string)
    ensures |r| > 0 ==> !IsWhitespace(r[0]) && !IsWhitespace(r[|r| - 1])
    ensures |r| <= |s|
  {
    TrimEnd(TrimStart(s))
  }

  /** A string that neither starts nor ends with white space is its own
      trim, whatever white space it holds inside. */
  lemma TrimmedIsFixed(s: string)
    requires |s| > 0 && !IsWhitespace(s[0]) && !IsWhitespace(s[|s| - 1])
    ensures Trim(s) == s
  {
  }

  /** `str::split` on one character: the pieces between the occurrences of
      `d`, empty pieces included; there is always at least one piece. */
  function Split(s: string, d: char): (r: seq<string>)
    ensures |r| >= 1
    ensures forall i | 0 <= i < |r| :: d !in r[i]
    ensures d !in s ==> r == [s]
    ensures d in s ==> |r| >= 2
    ensures |s| > 0 && s[0] != d ==> |r[0]| > 0 && r[0][0] == s[0]
  {
    if |s| == 0 then [""]
    else
      var rest := Split(s[1..], d);
      if s[0] == d then [""] + rest
      else
        assert s == [s[0]] + s[1..];
        [[s[0]] + rest[0]] + rest[1..]
  }

  /** A character absent from a string is absent from its pieces. */
  lemma {:induction false} SplitKeepsAbsent(s: string, d: char, c: char)
    requires c !in s
    ensures forall i | 0 <= i < |Split(s, d)| :: c !in Split(s, d)[i]
  {
    if |s| > 0 {
      SplitKeepsAbsent(s[1..], d, c);
    }
  }

  /** The inverse of `Split`: the pieces glued back with the separator. */
  function Join(ps: seq<string>, d: char): (r: string)
    requires |ps| >= 1
    ensures StartsWith(r, ps[0]) && EndsWith(r, ps[|ps| - 1])
  {
    if |ps| == 1 then ps[0] else ps[0] + [d] + Join(ps[1..], d)
  }

  /** Splitting and joining again gives the original string. */
  lemma {:induction false} JoinSplit(s: string, d: char)
    ensures Join(Split(s, d), d) == s
  {
    if |s| > 0 {
      JoinSplit(s[1..], d);
      var rest := Split(s[1..], d);
      if s[0] != d {
        if |rest| > 1 {
          assert Split(s, d)[1..] == rest[1..];
        }
      }
    }
  }

  /** Splitting a string made of separator-free pieces gives the pieces. */
  lemma {:induction false} SplitJoin(ps: seq<string>, d: char)
    requires |ps| >= 1
    requires forall i | 0 <= i < |ps| :: d !in ps[i]
    ensures Split(Join(ps, d), d) == ps
  {
    if |ps| == 1 {
      assert Join(ps, d) == ps[0];
    } else {
      var tail := ps[1..];
      assert forall i | 0 <= i < |tail| :: d !in tail[i] by {
        forall i | 0 <= i < |tail| ensures d !in tail[i] {
          assert tail[i] == ps[i + 1];
        }
      }
      SplitJoin(tail, d);
      assert d !in ps[0];
      SplitPrefix(ps[0], d, Join(tail, d));
      calc {
        Split(Join(ps, d), d);
        Split(ps[0] + [d] + Join(tail, d), d);
        [ps[0]] + Split(Join(tail, d), d);
        [ps[0]] + tail;
        ps;
      }
    }
  }

  /** A separator-free head splits off as the first piece. */
  lemma {:induction false} SplitPrefix(a: string, d: char, b: string)
    requires d !in a
    ensures Split(a + [d] + b, d) == [a] + Split(b, d)
  {
    if |a| == 0 {
      assert a + [d] + b == [d] + b;
      assert ([d] + b)[1..] == b;
    } else {
      SplitPrefix(a[1..], d, b);
      assert (a + [d] + b)[1..] == a[1..] + [d] + b;
      assert [a[0]] + a[1..] == a;
    }
  }

  /** `r` is `text` between the markup `open` and the markup `close`, so
      the text can be cut back out of it. */
  predicate Wraps(r: string, open: string, text: string, close: string) {
    |r| == |open| + |text| + |close|
    && r[..|open|] == open
    && r[|open|..|open| + |text|] == text
    && r[|open| + |text|..] == close
  }

  lemma WrapsConcat(open: string, text: string, close: string)
    ensures Wraps(open + text + close, open, text, close)
  {
    var r := open + text + close;
    assert r[..|open|] == open;
    assert r[|open|..|open| + |text|] == text;
    assert r[|open| + |text|..] == close;
  }

  /** `char::to_lowercase` restricted to the ASCII letters; every other
      character, non-ASCII letters included, is kept. */
  function LowerChar(c: char): (r: char)
    ensures 'A' <= c <= 'Z' ==> r as int == c as int + 32
    ensures !('A' <= c <= 'Z') ==> r == c
  {
    if 'A' <= c <= 'Z' then (c as int + 32) as char else c
  }

  /** `str::to_lowercase` on ASCII case, character by character. */
  function Lower(s: string): (r: string)
    ensures |r| == |s|
    ensures forall i | 0 <= i < |s| :: r[i] == LowerChar(s[i])
  {
    seq(|s|, i requires 0 <= i < |s| => LowerChar(s[i]))
  }

  /** Lowercasing twice is lowercasing once. */
  lemma LowerIdempotent(s: string)
    ensures Lower(Lower(s)) == Lower(s)
  {
  }

  predicate StartsWith(s: string, p: string) {
    |p| <= |s| && s[..|p|] == p
  }

  predicate EndsWith(s: string, p: string) {
    |p| <= |s| && s[|s| - |p|..] == p
  }

  /** `str::contains` with a string pattern: `p` starts at some position
      of `s`. */
  predicate Contains(s: string, p: string) {
    StartsWith(s, p) || (|s| > 0 && Contains(s[1..], p))
  }

  /** Every string contains its prefixes, its suffixes and itself. */
  lemma {:induction false} ContainsSuffix(s: string, p: string)
    requires EndsWith(s, p)
    ensures Contains(s, p)
  {
    if |s| > |p| {
      assert s[1..][|s| - 1 - |p|..] == s[|s| - |p|..];
      ContainsSuffix(s[1..], p);
    } else {
      assert s[..|p|] == s[|s| - |p|..];
    }
  }
}
