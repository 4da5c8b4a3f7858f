// The HTML formatter (src/utils/text/html_formatter.rs): the tag wrappers of
// Telegram's HTML parse mode with configurable tag names, `quote`, and
// `apply_entity`, which edits one span of a text by its entity kind.
module HtmlFormatter {
  import opened Wrappers
  import IntText
  import StrUtil
  import opened HtmlEscape
  import HtmlDecoration
  import opened TextFormatter

  datatype Formatter = Formatter(
    boldTag: string,
    italicTag: string,
    underlineTag: string,
    strikethroughTag: string,
    spoilerTag: string,
    emojiTag: string)

  /** `Default` (and `FORMATTER`): b, i, u, s, tg-spoiler, tg-emoji. */
  function Default(): (f: Formatter)
    ensures f.boldTag == "b" && f.italicTag == "i" && f.underlineTag == "u"
    ensures f.strikethroughTag == "s" && f.spoilerTag == "tg-spoiler" && f.emojiTag == "tg-emoji"
  {
    Formatter("b", "i", "u", "s", "tg-spoiler", "tg-emoji")
  }

  function TextLink(text: string, url: string): (r: string)
    ensures StrUtil.Wraps(r, "<a href=\"" + url + "\">", text, "</a>")
  {
    StrUtil.WrapsConcat("<a href=\"" + url + "\">", text, "</a>");
    "<a href=\"" + url + "\">" + text + "</a>"
  }

  /** A link to the user with the given id, which reads back from the
      link. */
  function TextMention(text: string, userId: int): (r: string)
    ensures var id := IntText.IntToString(userId);
      StrUtil.Wraps(r, "<a href=\"tg://user?id=" + id + "\">", text, "</a>")
      && IntText.ParseInt(id) == Some(userId)
  {
    IntText.IntRoundTrip(userId);
    assert "<a href=\"" + ("tg://user?id=" + IntText.IntToString(userId)) + "\">"
        == "<a href=\"tg://user?id=" + IntText.IntToString(userId) + "\">";
    TextLink(text, "tg://user?id=" + IntText.IntToString(userId))
  }

  function CustomEmoji(f: Formatter, text: string, emojiId: string): (r: string)
    ensures StrUtil.Wraps(r, "<" + f.emojiTag + " data-emoji-id=\"" + emojiId + "\">", text, "</" + f.emojiTag + ">")
  {
    StrUtil.WrapsConcat("<" + f.emojiTag + " data-emoji-id=\"" + emojiId + "\">", text, "</" + f.emojiTag + ">");
    "<" + f.emojiTag + " data-emoji-id=\"" + emojiId + "\">" + text + "</" + f.emojiTag + ">"
  }

  function PreLanguage(text: string, language: string): (r: string)
    ensures StrUtil.Wraps(r, "<pre><code class=\"language-" + language + "\">", text, "</code></pre>")
  {
    StrUtil.WrapsConcat("<pre><code class=\"language-" + language + "\">", text, "</code></pre>");
    "<pre><code class=\"language-" + language + "\">" + text + "</code></pre>"
  }

  /** `quote`: `&`, then `<`, then `>` replaced by their entities. */
  function Quote(f: Formatter, text: string): (r: string)
    ensures r == Escape(text)
    ensures Unescape(r) == text
  {
    ReplaceChainIsEscape(text);
    UnescapeEscape(text);
    ReplaceChain(text)
  }

  /** What `apply_entity` puts in place of the span, by entity kind. */
  function Edit(f: Formatter, kind: EntityKind, piece: string): (r: string)
  {
    match kind
    case Mention => "@" + piece
    case Hashtag => "#" + piece
    case Cashtag => "$" + piece
    case BotCommand => "/" + piece
    case Url => piece
    case Email => piece
    case PhoneNumber => piece
    case Bold => HtmlDecoration.Tagged(f.boldTag, piece)
    case Italic => HtmlDecoration.Tagged(f.italicTag, piece)
    case Underline => HtmlDecoration.Tagged(f.underlineTag, piece)
    case Strikethrough => HtmlDecoration.Tagged(f.strikethroughTag, piece)
    case Spoiler => HtmlDecoration.Tagged(f.spoilerTag, piece)
    case Code => HtmlDecoration.Tagged("code", piece)
    case Pre(language) => if language.Some? then PreLanguage(piece, language.value) else HtmlDecoration.Tagged("pre", piece)
    case TextLink(url) => TextLink(piece, url)
    case TextMention(userId) => TextMention(piece, userId)
    case CustomEmoji(id) => CustomEmoji(f, piece, id)
  }

  /** `apply_entity`: the text with the entity's span replaced by its
      edited form; an empty text and a span past the end are refused. */
  function ApplyEntity(f: Formatter, text: string, e: Entity): (r: Result<string, ErrorKind>)
    ensures r.Err? <==> |text| == 0 || e.offset + e.length > |text|
    ensures |text| == 0 ==> r == Err(EmptyText)
    ensures r.Ok? ==> SplicedAt(text, e.offset, e.length, Edit(f, e.kind, text[e.offset..e.offset + e.length]), r.value)
  {
    Splice(text, e, (piece: string) => Edit(f, e.kind, piece))
  }

  /** An entity over exactly the end of the text edits that end. */
  lemma ApplyEntityAppended(f: Formatter, before: string, piece: string, kind: EntityKind)
    requires |before| + |piece| > 0
    requires |before| < 0x1_0000 && |piece| < 0x1_0000
    ensures ApplyEntity(f, before + piece, Entity(|before|, |piece|, kind)) == Ok(before + Edit(f, kind, piece))
  {
    SpliceAppended(before, piece, kind, (piece: string) => Edit(f, kind, piece));
  }

  /** Mentions, hashtags, cashtags and bot commands get their sign in front
      of the span; the rest of the text is kept. */
  lemma SignedKinds(f: Formatter, text: string, e: Entity)
    requires |text| > 0 && e.offset + e.length <= |text|
    requires e.kind == Mention || e.kind == Hashtag || e.kind == Cashtag || e.kind == BotCommand
    ensures ApplyEntity(f, text, e)
         == Ok(text[..e.offset] + Sign(e.kind) + text[e.offset..e.offset + e.length] + text[e.offset + e.length..])
  {
    var piece := text[e.offset..e.offset + e.length];
    SplicedAtConcat(text, e.offset, e.length, Edit(f, e.kind, piece), ApplyEntity(f, text, e).value);
    assert Edit(f, e.kind, piece) == Sign(e.kind) + piece;
    var before, after := text[..e.offset], text[e.offset + e.length..];
    assert before + (Sign(e.kind) + piece) + after == before + Sign(e.kind) + piece + after;
  }

  /** URLs, e-mails and phone numbers are left as they are. */
  lemma PlainKinds(f: Formatter, text: string, e: Entity)
    requires |text| > 0 && e.offset + e.length <= |text|
    requires e.kind == Url || e.kind == Email || e.kind == PhoneNumber
    ensures ApplyEntity(f, text, e) == Ok(text)
  {
    SpliceUnchanged(text, e, (p: string) => Edit(f, e.kind, p));
  }

  /** `apply_entity_kind` on a text shorter than 65536 characters gives the
      whole text edited. */
  lemma ApplyEntityKindWholeText(f: Formatter, text: string, kind: EntityKind)
    requires 0 < |text| < 0x1_0000
    ensures ApplyEntityKind((t: string, e: Entity) => ApplyEntity(f, t, e), text, kind) == Ok(Edit(f, kind, text))
  {
    SpliceWholeText(text, kind, (piece: string) => Edit(f, kind, piece));
  }

  /** With the default tags, bold over "world" in "Hello, world!" gives
      "Hello, <b>world</b>!". */
  lemma DefaultBoldExample()
    ensures ApplyEntity(Default(), "Hello, world!", Entity(7, 5, Bold)) == Ok("Hello, <b>world</b>!")
  {
    var text := "Hello, " + "world" + "!";
    assert text == "Hello, world!";
    StrUtil.WrapsConcat("Hello, ", "world", "!");
    var r := ApplyEntity(Default(), text, Entity(7, 5, Bold)).value;
    SplicedAtConcat(text, 7, 5, Edit(Default(), Bold, "world"), r);
    assert Edit(Default(), Bold, "world") == "<" + "b" + ">" + "world" + "</" + "b" + ">";
    assert r == "Hello, " + ("<" + "b" + ">" + "world" + "</" + "b" + ">") + "!";
    assert "Hello, " + ("<" + "b" + ">" + "world" + "</" + "b" + ">") + "!" == "Hello, <b>world</b>!";
  }
}
