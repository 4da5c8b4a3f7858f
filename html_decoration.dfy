// The HTML text decoration (src/utils/text_decorations/html.rs): tag
// wrappers whose tag names are configurable, and `quote`, which escapes
// the text by applying a list of replacements in order.
module HtmlDecoration {
  import opened HtmlEscape
  import StrUtil

  datatype HtmlDecoration = HtmlDecoration(
    boldTag: string,
    italicTag: string,
    underlineTag: string,
    strikethroughTag: string,
    spoilerTag: string,
    emojiTag: string)

  /** `Default` (and the static `HTML_DECORATION`): the tags Telegram reads. */
  function Default(): (d: HtmlDecoration)
    ensures d.boldTag == "b" && d.italicTag == "i" && d.underlineTag == "u"
    ensures d.strikethroughTag == "s" && d.spoilerTag == "tg-spoiler" && d.emojiTag == "tg-emoji"
  {
    HtmlDecoration("b", "i", "u", "s", "tg-spoiler", "tg-emoji")
  }

  /** `<tag>text</tag>`. */
  function Tagged(tag: string, text: string): (r: string)
    ensures |r| == 2 * |tag| + |text| + 5
    ensures r[..|tag| + 2] == "<" + tag + ">"
    ensures r[|tag| + 2..|tag| + 2 + |text|] == text
    ensures r[|tag| + 2 + |text|..] == "</" + tag + ">"
  {
    "<" + tag + ">" + text + "</" + tag + ">"
  }

  function Bold(d: HtmlDecoration, text: string): (r: string)
    ensures StrUtil.Wraps(r, "<" + d.boldTag + ">", text, "</" + d.boldTag + ">")
  {
    StrUtil.WrapsConcat("<" + d.boldTag + ">", text, "</" + d.boldTag + ">");
    Tagged(d.boldTag, text)
  }

  function Italic(d: HtmlDecoration, text: string): (r: string)
    ensures StrUtil.Wraps(r, "<" + d.italicTag + ">", text, "</" + d.italicTag + ">")
  {
    StrUtil.WrapsConcat("<" + d.italicTag + ">", text, "</" + d.italicTag + ">");
    Tagged(d.italicTag, text)
  }

  function Underline(d: HtmlDecoration, text: string): (r: string)
    ensures StrUtil.Wraps(r, "<" + d.underlineTag + ">", text, "</" + d.underlineTag + ">")
  {
    StrUtil.WrapsConcat("<" + d.underlineTag + ">", text, "</" + d.underlineTag + ">");
    Tagged(d.underlineTag, text)
  }

  function Strikethrough(d: HtmlDecoration, text: string): (r: string)
    ensures StrUtil.Wraps(r, "<" + d.strikethroughTag + ">", text, "</" + d.strikethroughTag + ">")
  {
    StrUtil.WrapsConcat("<" + d.strikethroughTag + ">", text, "</" + d.strikethroughTag + ">");
    Tagged(d.strikethroughTag, text)
  }

  function Spoiler(d: HtmlDecoration, text: string): (r: string)
    ensures StrUtil.Wraps(r, "<" + d.spoilerTag + ">", text, "</" + d.spoilerTag + ">")
  {
    StrUtil.WrapsConcat("<" + d.spoilerTag + ">", text, "</" + d.spoilerTag + ">");
    Tagged(d.spoilerTag, text)
  }

  /** `code` and `pre` use fixed tags. */
  function Code(d: HtmlDecoration, text: string): (r: string)
    ensures StrUtil.Wraps(r, "<code>", text, "</code>")
  {
    StrUtil.WrapsConcat("<code>", text, "</code>");
    Tagged("code", text)
  }

  function Pre(d: HtmlDecoration, text: string): (r: string)
    ensures StrUtil.Wraps(r, "<pre>", text, "</pre>")
  {
    StrUtil.WrapsConcat("<pre>", text, "</pre>");
    Tagged("pre", text)
  }

  function PreLanguage(d: HtmlDecoration, text: string, language: string): (r: string)
    ensures StrUtil.Wraps(r, "<pre><code class=\"language-" + language + "\">", text, "</code></pre>")
  {
    StrUtil.WrapsConcat("<pre><code class=\"language-" + language + "\">", text, "</code></pre>");
    "<pre><code class=\"language-" + language + "\">" + text + "</code></pre>"
  }

  function Link(d: HtmlDecoration, text: string, url: string): (r: string)
    ensures StrUtil.Wraps(r, "<a href=\"" + url + "\">", text, "</a>")
  {
    StrUtil.WrapsConcat("<a href=\"" + url + "\">", text, "</a>");
    "<a href=\"" + url + "\">" + text + "</a>"
  }

  function CustomEmoji(d: HtmlDecoration, text: string, emojiId: string): (r: string)
    ensures StrUtil.Wraps(r, "<" + d.emojiTag + " data-emoji-id=\"" + emojiId + "\">", text, "</" + d.emojiTag + ">")
  {
    StrUtil.WrapsConcat("<" + d.emojiTag + " data-emoji-id=\"" + emojiId + "\">", text, "</" + d.emojiTag + ">");
    "<" + d.emojiTag + " data-emoji-id=\"" + emojiId + "\">" + text + "</" + d.emojiTag + ">"
  }

  /** `<tag>text</tag>` as three pieces: the opening tag, the text and the
      closing tag. */
  lemma TaggedPieces(tag: string, text: string)
    ensures Tagged(tag, text) == ("<" + tag + ">") + text + ("</" + tag + ">")
  {
  }

  /** With the default tags, the wrappers write the markup Telegram's HTML
      parse mode reads. */
  lemma DefaultMarkup(text: string)
    ensures var d := Default();
      Bold(d, text) == "<b>" + text + "</b>" && Italic(d, text) == "<i>" + text + "</i>"
      && Spoiler(d, text) == "<tg-spoiler>" + text + "</tg-spoiler>"
  {
    TaggedPieces("b", text);
    assert "<" + "b" + ">" == "<b>" && "</" + "b" + ">" == "</b>";
    TaggedPieces("i", text);
    assert "<" + "i" + ">" == "<i>" && "</" + "i" + ">" == "</i>";
    TaggedPieces("tg-spoiler", text);
    assert "<" + "tg-spoiler" + ">" == "<tg-spoiler>" && "</" + "tg-spoiler" + ">" == "</tg-spoiler>";
  }

  /** Every wrapper keeps the text whole between its opening and its
      closing markup, so the text can be cut back out of the result. */
  lemma WrappedTextRecoverable(d: HtmlDecoration, text: string, url: string, language: string, emojiId: string)
    ensures var r := Code(d, text); r[|"<code>"|..|r| - |"</code>"|] == text
    ensures var r := Pre(d, text); r[|"<pre>"|..|r| - |"</pre>"|] == text
    ensures var r := Underline(d, text); r[|d.underlineTag| + 2..|r| - |d.underlineTag| - 3] == text
    ensures var r := Strikethrough(d, text); r[|d.strikethroughTag| + 2..|r| - |d.strikethroughTag| - 3] == text
    ensures var r := Link(d, text, url); r[|"<a href=\"" + url + "\">"|..|r| - |"</a>"|] == text
    ensures var r := PreLanguage(d, text, language);
      r[|"<pre><code class=\"language-" + language + "\">"|..|r| - |"</code></pre>"|] == text
    ensures var r := CustomEmoji(d, text, emojiId);
      r[|"<" + d.emojiTag + " data-emoji-id=\"" + emojiId + "\">"|..|r| - |"</" + d.emojiTag + ">"|] == text
  {
    var link := "<a href=\"" + url + "\">";
    assert Link(d, text, url) == link + text + "</a>";
    var pre := "<pre><code class=\"language-" + language + "\">";
    assert PreLanguage(d, text, language) == pre + text + "</code></pre>";
    var emoji := "<" + d.emojiTag + " data-emoji-id=\"" + emojiId + "\">";
    assert CustomEmoji(d, text, emojiId) == emoji + text + "</" + d.emojiTag + ">";
  }

  // ---------------------------------------------------------------------
  // `quote`

  /** The replacements `quote` applies, in this order. */
  const QUOTE_REPLACEMENTS: seq<(char, string)> := [('&', "&amp;"), ('<', "&lt;"), ('>', "&gt;")]

  /** The first `|pairs|` replacements applied one after the other. */
  function ReplaceAll(s: string, pairs: seq<(char, string)>): (r: string)
    decreases |pairs|
  {
    if |pairs| == 0 then s
    else
      var last := pairs[|pairs| - 1];
      Replace(ReplaceAll(s, pairs[..|pairs| - 1]), last.0, last.1)
  }

  lemma QuoteReplacementsEscape(s: string)
    ensures ReplaceAll(s, QUOTE_REPLACEMENTS) == Escape(s)
  {
    var p := QUOTE_REPLACEMENTS;
    assert p[..2][..1][..0] == [] && p[..2][..1] == p[..1] && p[..3][..2] == p[..2] && p[..3] == p;
    assert ReplaceAll(s, p[..1]) == Replace(s, '&', "&amp;");
    assert ReplaceAll(s, p[..2]) == Replace(Replace(s, '&', "&amp;"), '<', "&lt;");
    ReplaceChainIsEscape(s);
  }

  /** `quote`: the text, with each replacement applied in turn. */
  method Quote(d: HtmlDecoration, text: string) returns (r: string)
    ensures r == Escape(text)
  {
    r := text;
    for k := 0 to |QUOTE_REPLACEMENTS|
      invariant r == ReplaceAll(text, QUOTE_REPLACEMENTS[..k])
    {
      assert QUOTE_REPLACEMENTS[..k + 1][..k] == QUOTE_REPLACEMENTS[..k];
      r := Replace(r, QUOTE_REPLACEMENTS[k].0, QUOTE_REPLACEMENTS[k].1);
    }
    assert QUOTE_REPLACEMENTS[..|QUOTE_REPLACEMENTS|] == QUOTE_REPLACEMENTS;
    QuoteReplacementsEscape(text);
  }

  /** A quoted text holds no markup and reads back as the text. */
  lemma QuotedTextIsInert(text: string)
    ensures '<' !in Escape(text) && '>' !in Escape(text)
    ensures Unescape(Escape(text)) == text
  {
    UnescapeEscape(text);
  }
}
