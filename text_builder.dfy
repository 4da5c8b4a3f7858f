// The text builder (telers/src/utils/text/builder.rs): a formatter and the
// text accumulated so far. Plain and quoted pieces are appended as they
// are; a styled piece is appended and then an entity over exactly that
// piece is applied to the whole text through the formatter.
module TextBuilder {
  import opened Wrappers
  import opened TextFormatter
  import TF = TextFormatter
  import HtmlEscape
  import HtmlDecoration
  import HtmlFormatter
  import MarkdownFormatter

  /** The formatters a builder can be made with. */
  datatype Formatter =
    | Html(html: HtmlFormatter.Formatter)
    | Markdown(markdown: MarkdownFormatter.Formatter)

  /** The formatter's `quote`. */
  function QuoteWith(f: Formatter, text: string): string {
    match f
    case Html(h) => HtmlFormatter.Quote(h, text)
    case Markdown(m) => MarkdownFormatter.Quote(m, text)
  }

  /** Reading a quoted text back, for the formatter that quoted it. */
  function UnquoteWith(f: Formatter, text: string): string {
    match f
    case Html(_) => HtmlEscape.Unescape(text)
    case Markdown(_) => MarkdownFormatter.Unquote(text)
  }

  /** What the formatter's `apply_entity` puts in place of a span. */
  function EditWith(f: Formatter, kind: EntityKind, piece: string): string {
    match f
    case Html(h) => HtmlFormatter.Edit(h, kind, piece)
    case Markdown(_) => MarkdownFormatter.Edit(kind, piece)
  }

  /** The formatter's `apply_entity`. */
  function ApplyEntityWith(f: Formatter, text: string, e: Entity): (r: Result<string, ErrorKind>)
    ensures r.Err? <==> |text| == 0 || e.offset + e.length > |text|
    ensures |text| == 0 ==> r == Err(EmptyText)
    ensures r.Ok? ==> SplicedAt(text, e.offset, e.length, EditWith(f, e.kind, text[e.offset..e.offset + e.length]), r.value)
  {
    match f
    case Html(h) => HtmlFormatter.ApplyEntity(h, text, e)
    case Markdown(m) => MarkdownFormatter.ApplyEntity(m, text, e)
  }

  /** Quoting loses nothing: the quoted text reads back as the text (for the
      Markdown formatter, as long as its pattern quotes the backslash). */
  lemma QuoteWithReadsBack(f: Formatter, text: string)
    requires f.Markdown? ==> '\\' in f.markdown.quoted
    ensures UnquoteWith(f, QuoteWith(f, text)) == text
  {
    if f.Markdown? {
      MarkdownFormatter.UnquoteQuote(f.markdown, text);
    }
  }

  /** The pieces one after the other. */
  function Concat(pieces: seq<string>): string
    decreases |pieces|
  {
    if |pieces| == 0 then "" else Concat(pieces[..|pieces| - 1]) + pieces[|pieces| - 1]
  }

  /** Appending two lists of pieces in turn is appending them together. */
  lemma {:induction false} ConcatAppend(a: seq<string>, b: seq<string>)
    ensures Concat(a + b) == Concat(a) + Concat(b)
    decreases |b|
  {
    if |b| == 0 {
      assert a + b == a;
    } else {
      var front := b[..|b| - 1];
      var last := b[|b| - 1];
      assert (a + b)[..|a + b| - 1] == a + front;
      assert (a + b)[|a + b| - 1] == last;
      ConcatAppend(a, front);
      calc {
        Concat(a + b);
        Concat(a + front) + last;
        Concat(a) + Concat(front) + last;
        Concat(a) + (Concat(front) + last);
        Concat(a) + Concat(b);
      }
    }
  }

  /** Each piece quoted by the formatter. */
  function QuoteAll(f: Formatter, pieces: seq<string>): (r: seq<string>)
    ensures |r| == |pieces|
    ensures forall i | 0 <= i < |pieces| :: r[i] == QuoteWith(f, pieces[i])
  {
    seq(|pieces|, i requires 0 <= i < |pieces| => QuoteWith(f, pieces[i]))
  }

  /** The entity a styled method applies always lies inside the text. */
  lemma AppendedEntityFits(f: Formatter, before: string, piece: string, kind: EntityKind)
    requires |before| + |piece| > 0
    ensures ApplyEntityWith(f, before + piece, Entity(|before| % 0x1_0000, |piece| % 0x1_0000, kind)).Ok?
  {
    assert |before| % 0x1_0000 <= |before| && |piece| % 0x1_0000 <= |piece|;
  }

  /** While the lengths fit in a `u16`, the entity covers exactly the
      appended piece. */
  lemma AppendedEntityEdits(f: Formatter, before: string, piece: string, kind: EntityKind)
    requires |before| + |piece| > 0
    requires |before| < 0x1_0000 && |piece| < 0x1_0000
    ensures ApplyEntityWith(f, before + piece, Entity(|before|, |piece|, kind)) == Ok(before + EditWith(f, kind, piece))
  {
    match f
    case Html(h) => HtmlFormatter.ApplyEntityAppended(h, before, piece, kind);
    case Markdown(m) => MarkdownFormatter.ApplyEntityAppended(m, before, piece, kind);
  }

  class Builder {
    const formatter: Formatter
    var text: string

    /** `new`: the formatter and an empty text. */
    constructor (formatter: Formatter)
      ensures this.formatter == formatter && text == ""
    {
      this.formatter := formatter;
      text := "";
    }

    /** `text`: the piece appended as it is. */
    method Text(piece: string)
      modifies this
      ensures text == old(text) + piece
    {
      text := text + piece;
    }

    /** `texts`: every piece appended, in order. */
    method Texts(pieces: seq<string>)
      modifies this
      ensures text == old(text) + Concat(pieces)
    {
      for k := 0 to |pieces|
        invariant text == old(text) + Concat(pieces[..k])
      {
        assert pieces[..k + 1][..k] == pieces[..k];
        text := text + pieces[k];
      }
      assert pieces[..|pieces|] == pieces;
    }

    /** `quote`: the piece appended as the formatter quotes it. */
    method Quote(piece: string)
      modifies this
      ensures text == old(text) + QuoteWith(formatter, piece)
    {
      text := text + QuoteWith(formatter, piece);
    }

    /** `quotes`: every piece quoted, then all appended in order. */
    method Quotes(pieces: seq<string>)
      modifies this
      ensures text == old(text) + Concat(QuoteAll(formatter, pieces))
    {
      var quoted := QuoteAll(formatter, pieces);
      Texts(quoted);
    }

    /** `entity`: the entity applied to the whole text so far. On success
        the text is replaced by the result; the formatter's error is passed
        on and the text is left as it was. */
    method AddEntity(e: Entity) returns (r: Result<(), ErrorKind>)
      modifies this
      ensures r.Ok? <==> ApplyEntityWith(formatter, old(text), e).Ok?
      ensures r.Ok? ==> text == ApplyEntityWith(formatter, old(text), e).value
      ensures r.Err? ==> r.error == ApplyEntityWith(formatter, old(text), e).error && text == old(text)
    {
      var applied := ApplyEntityWith(formatter, text, e);
      match applied
      case Ok(t) =>
        text := t;
        r := Ok(());
      case Err(k) =>
        r := Err(k);
    }

    /** The shape every styled method shares: the piece appended, then an
        entity of the kind at the old length over the piece's length, both
        truncated to `u16`. The entity never reaches past the end, so the
        only failure is an empty text, which the source turns into a panic.
        While the lengths fit in a `u16`, the text is the old text followed
        by the edited piece. */
    method Styled(kind: EntityKind, piece: string)
      requires |text| + |piece| > 0
      modifies this
      ensures var e := Entity(|old(text)| % 0x1_0000, |piece| % 0x1_0000, kind);
        ApplyEntityWith(formatter, old(text) + piece, e) == Ok(text)
      ensures |old(text)| < 0x1_0000 && |piece| < 0x1_0000 ==> text == old(text) + EditWith(formatter, kind, piece)
    {
      var before := text;
      var e := Entity(|text| % 0x1_0000, |piece| % 0x1_0000, kind);
      AppendedEntityFits(formatter, before, piece, kind);
      Text(piece);
      var r := AddEntity(e);
      if |before| < 0x1_0000 && |piece| < 0x1_0000 {
        assert e == Entity(|before|, |piece|, kind);
        AppendedEntityEdits(formatter, before, piece, kind);
      }
    }

    method Mention(username: string)
      requires |text| + |username| > 0
      modifies this
      ensures ApplyEntityWith(formatter, old(text) + username, Entity(|old(text)| % 0x1_0000, |username| % 0x1_0000, TF.Mention)) == Ok(text)
      ensures |old(text)| < 0x1_0000 && |username| < 0x1_0000 ==> text == old(text) + EditWith(formatter, TF.Mention, username)
    {
      Styled(TF.Mention, username);
    }

    method Hashtag(tag: string)
      requires |text| + |tag| > 0
      modifies this
      ensures ApplyEntityWith(formatter, old(text) + tag, Entity(|old(text)| % 0x1_0000, |tag| % 0x1_0000, TF.Hashtag)) == Ok(text)
      ensures |old(text)| < 0x1_0000 && |tag| < 0x1_0000 ==> text == old(text) + EditWith(formatter, TF.Hashtag, tag)
    {
      Styled(TF.Hashtag, tag);
    }

    method Cashtag(tag: string)
      requires |text| + |tag| > 0
      modifies this
      ensures ApplyEntityWith(formatter, old(text) + tag, Entity(|old(text)| % 0x1_0000, |tag| % 0x1_0000, TF.Cashtag)) == Ok(text)
      ensures |old(text)| < 0x1_0000 && |tag| < 0x1_0000 ==> text == old(text) + EditWith(formatter, TF.Cashtag, tag)
    {
      Styled(TF.Cashtag, tag);
    }

    method BotCommand(command: string)
      requires |text| + |command| > 0
      modifies this
      ensures ApplyEntityWith(formatter, old(text) + command, Entity(|old(text)| % 0x1_0000, |command| % 0x1_0000, TF.BotCommand)) == Ok(text)
      ensures |old(text)| < 0x1_0000 && |command| < 0x1_0000 ==> text == old(text) + EditWith(formatter, TF.BotCommand, command)
    {
      Styled(TF.BotCommand, command);
    }

    method Url(url: string)
      requires |text| + |url| > 0
      modifies this
      ensures ApplyEntityWith(formatter, old(text) + url, Entity(|old(text)| % 0x1_0000, |url| % 0x1_0000, TF.Url)) == Ok(text)
      ensures |old(text)| < 0x1_0000 && |url| < 0x1_0000 ==> text == old(text) + EditWith(formatter, TF.Url, url)
    {
      Styled(TF.Url, url);
    }

    method Email(email: string)
      requires |text| + |email| > 0
      modifies this
      ensures ApplyEntityWith(formatter, old(text) + email, Entity(|old(text)| % 0x1_0000, |email| % 0x1_0000, TF.Email)) == Ok(text)
      ensures |old(text)| < 0x1_0000 && |email| < 0x1_0000 ==> text == old(text) + EditWith(formatter, TF.Email, email)
    {
      Styled(TF.Email, email);
    }

    method PhoneNumber(phoneNumber: string)
      requires |text| + |phoneNumber| > 0
      modifies this
      ensures ApplyEntityWith(formatter, old(text) + phoneNumber, Entity(|old(text)| % 0x1_0000, |phoneNumber| % 0x1_0000, TF.PhoneNumber)) == Ok(text)
      ensures |old(text)| < 0x1_0000 && |phoneNumber| < 0x1_0000 ==> text == old(text) + EditWith(formatter, TF.PhoneNumber, phoneNumber)
    {
      Styled(TF.PhoneNumber, phoneNumber);
    }

    method Bold(piece: string)
      requires |text| + |piece| > 0
      modifies this
      ensures ApplyEntityWith(formatter, old(text) + piece, Entity(|old(text)| % 0x1_0000, |piece| % 0x1_0000, TF.Bold)) == Ok(text)
      ensures |old(text)| < 0x1_0000 && |piece| < 0x1_0000 ==> text == old(text) + EditWith(formatter, TF.Bold, piece)
    {
      Styled(TF.Bold, piece);
    }

    method Italic(piece: string)
      requires |text| + |piece| > 0
      modifies this
      ensures ApplyEntityWith(formatter, old(text) + piece, Entity(|old(text)| % 0x1_0000, |piece| % 0x1_0000, TF.Italic)) == Ok(text)
      ensures |old(text)| < 0x1_0000 && |piece| < 0x1_0000 ==> text == old(text) + EditWith(formatter, TF.Italic, piece)
    {
      Styled(TF.Italic, piece);
    }

    method Underline(piece: string)
      requires |text| + |piece| > 0
      modifies this
      ensures ApplyEntityWith(formatter, old(text) + piece, Entity(|old(text)| % 0x1_0000, |piece| % 0x1_0000, TF.Underline)) == Ok(text)
      ensures |old(text)| < 0x1_0000 && |piece| < 0x1_0000 ==> text == old(text) + EditWith(formatter, TF.Underline, piece)
    {
      Styled(TF.Underline, piece);
    }

    method Strikethrough(piece: string)
      requires |text| + |piece| > 0
      modifies this
      ensures ApplyEntityWith(formatter, old(text) + piece, Entity(|old(text)| % 0x1_0000, |piece| % 0x1_0000, TF.Strikethrough)) == Ok(text)
      ensures |old(text)| < 0x1_0000 && |piece| < 0x1_0000 ==> text == old(text) + EditWith(formatter, TF.Strikethrough, piece)
    {
      Styled(TF.Strikethrough, piece);
    }

    method Spoiler(piece: string)
      requires |text| + |piece| > 0
      modifies this
      ensures ApplyEntityWith(formatter, old(text) + piece, Entity(|old(text)| % 0x1_0000, |piece| % 0x1_0000, TF.Spoiler)) == Ok(text)
      ensures |old(text)| < 0x1_0000 && |piece| < 0x1_0000 ==> text == old(text) + EditWith(formatter, TF.Spoiler, piece)
    {
      Styled(TF.Spoiler, piece);
    }

    method Code(code: string)
      requires |text| + |code| > 0
      modifies this
      ensures ApplyEntityWith(formatter, old(text) + code, Entity(|old(text)| % 0x1_0000, |code| % 0x1_0000, TF.Code)) == Ok(text)
      ensures |old(text)| < 0x1_0000 && |code| < 0x1_0000 ==> text == old(text) + EditWith(formatter, TF.Code, code)
    {
      Styled(TF.Code, code);
    }

    /** `monowidth`: the same as `code`. */
    method Monowidth(piece: string)
      requires |text| + |piece| > 0
      modifies this
      ensures ApplyEntityWith(formatter, old(text) + piece, Entity(|old(text)| % 0x1_0000, |piece| % 0x1_0000, TF.Code)) == Ok(text)
      ensures |old(text)| < 0x1_0000 && |piece| < 0x1_0000 ==> text == old(text) + EditWith(formatter, TF.Code, piece)
    {
      Code(piece);
    }

    method Pre(code: string)
      requires |text| + |code| > 0
      modifies this
      ensures ApplyEntityWith(formatter, old(text) + code, Entity(|old(text)| % 0x1_0000, |code| % 0x1_0000, TF.Pre(None))) == Ok(text)
      ensures |old(text)| < 0x1_0000 && |code| < 0x1_0000 ==> text == old(text) + EditWith(formatter, TF.Pre(None), code)
    {
      Styled(TF.Pre(None), code);
    }

    method PreLanguage(code: string, language: string)
      requires |text| + |code| > 0
      modifies this
      ensures ApplyEntityWith(formatter, old(text) + code, Entity(|old(text)| % 0x1_0000, |code| % 0x1_0000, TF.Pre(Some(language)))) == Ok(text)
      ensures |old(text)| < 0x1_0000 && |code| < 0x1_0000 ==> text == old(text) + EditWith(formatter, TF.Pre(Some(language)), code)
    {
      Styled(TF.Pre(Some(language)), code);
    }

    method TextLink(piece: string, url: string)
      requires |text| + |piece| > 0
      modifies this
      ensures ApplyEntityWith(formatter, old(text) + piece, Entity(|old(text)| % 0x1_0000, |piece| % 0x1_0000, TF.TextLink(url))) == Ok(text)
      ensures |old(text)| < 0x1_0000 && |piece| < 0x1_0000 ==> text == old(text) + EditWith(formatter, TF.TextLink(url), piece)
    {
      Styled(TF.TextLink(url), piece);
    }

    /** `text_mention`: only the user's id reaches the formatter. */
    method TextMention(piece: string, userId: int)
      requires |text| + |piece| > 0
      modifies this
      ensures ApplyEntityWith(formatter, old(text) + piece, Entity(|old(text)| % 0x1_0000, |piece| % 0x1_0000, TF.TextMention(userId))) == Ok(text)
      ensures |old(text)| < 0x1_0000 && |piece| < 0x1_0000 ==> text == old(text) + EditWith(formatter, TF.TextMention(userId), piece)
    {
      Styled(TF.TextMention(userId), piece);
    }

    method CustomEmoji(emoji: string, customEmojiId: string)
      requires |text| + |emoji| > 0
      modifies this
      ensures ApplyEntityWith(formatter, old(text) + emoji, Entity(|old(text)| % 0x1_0000, |emoji| % 0x1_0000, TF.CustomEmoji(customEmojiId))) == Ok(text)
      ensures |old(text)| < 0x1_0000 && |emoji| < 0x1_0000 ==> text == old(text) + EditWith(formatter, TF.CustomEmoji(customEmojiId), emoji)
    {
      Styled(TF.CustomEmoji(customEmojiId), emoji);
    }

    /** `get_text`. */
    function GetText(): string
      reads this
    {
      text
    }
  }

  // ---------------------------------------------------------------------
  // Properties

  /** Two `texts` calls in a row append what one call with both lists
      appends. */
  lemma TextsCompose(start: string, a: seq<string>, b: seq<string>)
    ensures start + Concat(a) + Concat(b) == start + Concat(a + b)
  {
    ConcatAppend(a, b);
  }

  /** `quotes` is `texts` over the quoted pieces; for one piece it is
      `quote`. */
  lemma QuotesOfOne(f: Formatter, piece: string)
    ensures Concat(QuoteAll(f, [piece])) == QuoteWith(f, piece)
  {
    assert QuoteAll(f, [piece])[..0] == [];
  }

  /** With the default HTML formatter, a styled bold piece is appended in
      `<b>` tags. */
  lemma DefaultHtmlBold(piece: string)
    ensures EditWith(Html(HtmlFormatter.Default()), Bold, piece) == "<b>" + piece + "</b>"
  {
    HtmlDecoration.DefaultMarkup(piece);
  }

  lemma DefaultHtmlItalic(piece: string)
    ensures EditWith(Html(HtmlFormatter.Default()), Italic, piece) == "<i>" + piece + "</i>"
  {
    HtmlDecoration.DefaultMarkup(piece);
  }

  /** The literal joins the first builder test needs. */
  lemma HelloWorldJoins()
    ensures "Hello, " + ("<b>" + "world" + "</b>") + "!" == "Hello, <b>world</b>!"
    ensures "Hello, <b>world</b>!" + ("\n" + "How are you?") + " " == "Hello, <b>world</b>!\nHow are you? "
    ensures "Hello, <b>world</b>!\nHow are you? " + ("<i>" + "I'm fine" + "</i>") == "Hello, <b>world</b>!\nHow are you? <i>I'm fine</i>"
    ensures "Hello, <b>world</b>!\nHow are you? <i>I'm fine</i>" + ("<b>" + "!" + "</b>") == "Hello, <b>world</b>!\nHow are you? <i>I'm fine</i><b>!</b>"
  {
  }

  lemma TwoPieces(a: string, b: string)
    ensures Concat([a, b]) == a + b
  {
    assert [a, b][..1] == [a] && [a][..0] == [];
    assert Concat([a]) == Concat([]) + a;
  }

  /** The source's first builder test: "Hello, " + bold "world" + "!" +
      texts ["\n", "How are you?"] + " " + italic "I'm fine" + bold "!". */
  method HelloWorldExample() returns (r: string)
    ensures r == "Hello, <b>world</b>!\nHow are you? <i>I'm fine</i><b>!</b>"
  {
    HelloWorldJoins();
    var b := new Builder(Html(HtmlFormatter.Default()));
    b.Text("Hello, ");
    DefaultHtmlBold("world");
    b.Bold("world");
    b.Text("!");
    assert b.text == "Hello, <b>world</b>!";
    TwoPieces("\n", "How are you?");
    b.Texts(["\n", "How are you?"]);
    b.Text(" ");
    assert b.text == "Hello, <b>world</b>!\nHow are you? ";
    DefaultHtmlItalic("I'm fine");
    b.Italic("I'm fine");
    assert b.text == "Hello, <b>world</b>!\nHow are you? <i>I'm fine</i>";
    DefaultHtmlBold("!");
    b.Bold("!");
    r := b.GetText();
  }
}
