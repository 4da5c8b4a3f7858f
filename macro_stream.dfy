// `trim_chars` of the procedural macros (telers-macros/src/stream.rs): drops
// the first token of a token stream when it is the punctuation `start`, and
// the last one when it is the punctuation `end`. The derive macros use it to
// turn the impl generics `<T, E>` into `T, E` before adding their own.
module MacroStream {
  import opened Wrappers

  /** `TokenTree`: a group, an identifier, a punctuation character (with
      whether it is joined to the next one) or a literal. */
  datatype TokenTree =
    | Group(text: string)
    | Ident(name: string)
    | Punct(ch: char, joint: bool)
    | Literal(text: string)

  /** `TokenTree::Punct(p)` with `p.as_char() == c`, whatever its spacing. */
  predicate IsPunct(t: TokenTree, c: char) {
    t.Punct? && t.ch == c
  }

  /** The stream with the first token removed when it is `start`. */
  function DropStart(stream: seq<TokenTree>, start: Option<char>): seq<TokenTree> {
    if start.Some? && |stream| > 0 && IsPunct(stream[0], start.value) then stream[1..] else stream
  }

  /** The stream with the last token removed when it is `end`. */
  function DropEnd(stream: seq<TokenTree>, end: Option<char>): seq<TokenTree> {
    if end.Some? && |stream| > 0 && IsPunct(stream[|stream| - 1], end.value) then stream[..|stream| - 1] else stream
  }

  /** What `trim_chars` promises: the start token, then the end token, each
      removed when it is the given punctuation. */
  function Trimmed(stream: seq<TokenTree>, start: Option<char>, end: Option<char>): seq<TokenTree> {
    DropEnd(DropStart(stream, start), end)
  }

  /** `trim_chars`: the first token is skipped on the iterator when it is
      `start`; then a pass over the rest records the position of the last
      `end` token and the last position, and the rest is cut before the
      last position when the two agree. */
  method TrimChars(stream: seq<TokenTree>, start: Option<char>, end: Option<char>) returns (r: seq<TokenTree>)
    ensures r == Trimmed(stream, start, end)
  {
    var rest := stream;
    if start.Some? && |rest| > 0 && rest[0].Punct? && rest[0].ch == start.value {
      rest := rest[1..];
    }
    if end.Some? {
      var lastTokenPos: Option<nat> := None;
      var lastPos := 0;
      var pos := 0;
      while pos < |rest|
        invariant 0 <= pos <= |rest|
        invariant lastPos == if pos == 0 then 0 else pos - 1
        invariant lastTokenPos.None? ==> forall k | 0 <= k < pos :: !IsPunct(rest[k], end.value)
        invariant lastTokenPos.Some? ==>
          lastTokenPos.value < pos && IsPunct(rest[lastTokenPos.value], end.value)
          && forall k | lastTokenPos.value < k < pos :: !IsPunct(rest[k], end.value)
      {
        var token := rest[pos];
        if token.Punct? && token.ch == end.value {
          lastTokenPos := Some(pos);
        }
        lastPos := pos;
        pos := pos + 1;
      }
      if lastTokenPos.Some? && lastTokenPos.value == lastPos {
        return rest[..lastPos];
      }
    }
    r := rest;
  }

  /** Without `start` and `end` the stream is left as it is. */
  lemma TrimNothing(stream: seq<TokenTree>)
    ensures Trimmed(stream, None, None) == stream
  {
  }

  /** The first token goes exactly when it is `start`, the last exactly
      when it is `end`, and nothing else changes: the result is the stream
      between those two positions. */
  lemma TrimmedIsMiddle(stream: seq<TokenTree>, start: Option<char>, end: Option<char>)
    ensures var i := if start.Some? && |stream| > 0 && IsPunct(stream[0], start.value) then 1 else 0;
      var mid := stream[i..];
      var j := if end.Some? && |mid| > 0 && IsPunct(mid[|mid| - 1], end.value) then |stream| - 1 else |stream|;
      i <= j && Trimmed(stream, start, end) == stream[i..j]
  {
  }

  /** At most one token goes from each side. */
  lemma TrimmedLength(stream: seq<TokenTree>, start: Option<char>, end: Option<char>)
    ensures |stream| - 2 <= |Trimmed(stream, start, end)| <= |stream|
  {
  }

  /** One token that is `end` leaves an empty stream. */
  lemma SingleEndToken(e: char, joint: bool, start: Option<char>)
    requires start.Some? ==> start.value != e
    ensures Trimmed([Punct(e, joint)], start, Some(e)) == []
  {
  }

  /** Trimming twice with the same characters can remove more: trimming is
      not idempotent on `<<T>>`. */
  lemma TrimNotIdempotent()
    ensures var s := [Punct('<', true), Punct('<', false), Ident("T"), Punct('>', true), Punct('>', false)];
      Trimmed(Trimmed(s, Some('<'), Some('>')), Some('<'), Some('>')) == [Ident("T")]
      && Trimmed(s, Some('<'), Some('>')) != [Ident("T")]
  {
  }

  /** The tests' stream `<T, E>`, trimmed at the start, at the end and at
      both; a stream without the characters is left as it is. */
  lemma AngleBracketExamples()
    ensures var t, comma, e := Ident("T"), Punct(',', false), Ident("E");
      var open, close := Punct('<', false), Punct('>', false);
      Trimmed([open, t, comma, e, close], Some('<'), None) == [t, comma, e, close]
      && Trimmed([open, t, comma, e, close], None, Some('>')) == [open, t, comma, e]
      && Trimmed([open, t, comma, e, close], Some('<'), Some('>')) == [t, comma, e]
      && Trimmed([t, comma, e], Some('<'), Some('>')) == [t, comma, e]
      && Trimmed([t, comma, e, close], Some('<'), Some('>')) == [t, comma, e]
  {
  }
}
