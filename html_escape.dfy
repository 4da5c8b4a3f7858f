// Escaping text for Telegram's HTML parse mode, which both HTML decorators
// do (src/utils/text_decorations/html.rs and src/utils/text/html_formatter.rs):
// every '&', '<' and '>' becomes its character entity. Both replace the
// ampersand first, so the entities they write are not escaped again.
module HtmlEscape {

  /** `str::replace` of one character by a string: every occurrence, left to
      right, in one pass over the original text. */
  function Replace(s: string, c: char, t: string): (r: string)
    ensures c !in s ==> r == s
    ensures c !in t ==> c !in r
    decreases |s|
  {
    if |s| == 0 then [] else (if s[0] == c then t else [s[0]]) + Replace(s[1..], c, t)
  }

  lemma {:induction false} ReplaceAppend(a: string, b: string, c: char, t: string)
    ensures Replace(a + b, c, t) == Replace(a, c, t) + Replace(b, c, t)
    decreases |a|
  {
    if |a| == 0 {
      assert a + b == b;
    } else {
      assert (a + b)[1..] == a[1..] + b;
      ReplaceAppend(a[1..], b, c, t);
    }
  }

  /** What one character becomes. */
  function EscapeChar(x: char): (r: string)
    ensures '<' !in r && '>' !in r
    ensures x != '&' && x != '<' && x != '>' ==> r == [x]
  {
    if x == '&' then "&amp;" else if x == '<' then "&lt;" else if x == '>' then "&gt;" else [x]
  }

  /** The escaped text, character by character. */
  function Escape(s: string): (r: string)
    ensures '<' !in r && '>' !in r
    ensures |r| >= |s|
    decreases |s|
  {
    if |s| == 0 then [] else EscapeChar(s[0]) + Escape(s[1..])
  }

  /** Reading the entities back: the inverse of `Escape`. */
  function Unescape(s: string): (r: string)
    decreases |s|
  {
    if |s| == 0 then []
    else if "&amp;" <= s then ['&'] + Unescape(s[5..])
    else if "&lt;" <= s then ['<'] + Unescape(s[4..])
    else if "&gt;" <= s then ['>'] + Unescape(s[4..])
    else [s[0]] + Unescape(s[1..])
  }

  lemma UnescapeEscapedChar(x: char, rest: string)
    ensures Unescape(EscapeChar(x) + rest) == [x] + Unescape(rest)
  {
    var s := EscapeChar(x) + rest;
    if x == '&' {
      assert s[..5] == "&amp;" && s[5..] == rest;
      assert "&amp;" <= s;
    } else if x == '<' {
      assert s[..4] == "&lt;" && s[4..] == rest;
      assert s[1] == 'l';
      assert !("&amp;" <= s) && "&lt;" <= s;
    } else if x == '>' {
      assert s[..4] == "&gt;" && s[4..] == rest;
      assert s[1] == 'g';
      assert !("&amp;" <= s) && !("&lt;" <= s) && "&gt;" <= s;
    } else {
      assert s[0] == x && s[1..] == rest;
      assert !("&amp;" <= s) && !("&lt;" <= s) && !("&gt;" <= s);
    }
  }

  /** No information is lost: unescaping the escaped text gives the text. */
  lemma {:induction false} UnescapeEscape(s: string)
    ensures Unescape(Escape(s)) == s
    decreases |s|
  {
    if |s| > 0 {
      UnescapeEscapedChar(s[0], Escape(s[1..]));
      UnescapeEscape(s[1..]);
    }
  }

  /** Text without the three characters is left as it is. */
  lemma {:induction false} EscapePlainText(s: string)
    requires '&' !in s && '<' !in s && '>' !in s
    ensures Escape(s) == s
    decreases |s|
  {
    if |s| > 0 {
      assert s[0] in s;
      EscapePlainText(s[1..]);
    }
  }

  /** The three replacements, ampersand first, as both decorators apply them. */
  function ReplaceChain(s: string): (r: string)
  {
    Replace(Replace(Replace(s, '&', "&amp;"), '<', "&lt;"), '>', "&gt;")
  }

  lemma ReplaceChainAppend(a: string, b: string)
    ensures ReplaceChain(a + b) == ReplaceChain(a) + ReplaceChain(b)
  {
    ReplaceAppend(a, b, '&', "&amp;");
    ReplaceAppend(Replace(a, '&', "&amp;"), Replace(b, '&', "&amp;"), '<', "&lt;");
    ReplaceAppend(Replace(Replace(a, '&', "&amp;"), '<', "&lt;"), Replace(Replace(b, '&', "&amp;"), '<', "&lt;"), '>', "&gt;");
  }

  lemma ReplaceChainOneChar(x: char)
    ensures ReplaceChain([x]) == EscapeChar(x)
  {
    assert [x][1..] == [];
    var amp: string := "&amp;";
    if x == '&' {
      assert Replace([x], '&', amp) == amp + Replace([], '&', amp);
    } else if x == '<' {
      var lt: string := "&lt;";
      assert Replace([x], '<', lt) == lt + Replace([], '<', lt);
    } else if x == '>' {
      var gt: string := "&gt;";
      assert Replace([x], '>', gt) == gt + Replace([], '>', gt);
    } else {
      assert x !in [x][1..];
    }
  }

  /** The chain of replacements is the character-by-character escape. */
  lemma {:induction false} ReplaceChainIsEscape(s: string)
    ensures ReplaceChain(s) == Escape(s)
    decreases |s|
  {
    if |s| > 0 {
      assert s == [s[0]] + s[1..];
      ReplaceChainAppend([s[0]], s[1..]);
      ReplaceChainOneChar(s[0]);
      ReplaceChainIsEscape(s[1..]);
    }
  }

  /** Why the order matters: replacing '<' before '&' escapes the entity it
      has just written a second time. */
  lemma AmpersandLastDoubleEscapes(x: char)
    requires x == '<'
    ensures Replace(Replace([x], '<', "&lt;"), '&', "&amp;") == "&amp;lt;"
  {
    ReplaceOneChar(x, '<', "&lt;");
    AmpersandInEntity();
  }

  /** '&' replaced in "&lt;" escapes the entity's own ampersand. */
  lemma AmpersandInEntity()
    ensures Replace("&lt;", '&', "&amp;") == "&amp;lt;"
  {
    var amp: string := "&amp;";
    var tail: string := "lt;";
    assert "&lt;" == ['&'] + tail;
    ReplaceAppend(['&'], tail, '&', amp);
    ReplaceOneChar('&', '&', amp);
    assert '&' !in tail;
    assert amp + tail == "&amp;lt;";
  }

  /** A one-character text: the replacement or the character itself. */
  lemma ReplaceOneChar(x: char, c: char, t: string)
    ensures Replace([x], c, t) == if x == c then t else [x]
  {
    assert [x][1..] == [];
  }

  lemma AmpersandFirstEscapesOnce()
    ensures ReplaceChain("<") == "&lt;"
  {
    ReplaceChainOneChar('<');
  }
}
