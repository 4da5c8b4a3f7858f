// The Markdown formatter (src/utils/text/markdown_formatter.rs): the
// wrappers of Telegram's Markdown parse mode, `quote`, which puts a
// backslash before every character the formatter's pattern matches, and
// `apply_entity`, with the same checks and splice as the HTML formatter.
module MarkdownFormatter {
  import opened Wrappers
  import IntText
  import StrUtil
  import opened TextFormatter

  /** The formatter's quote pattern, given by the characters it matches (a
      pattern of one character class, as the default one is). */
  datatype Formatter = Formatter(quoted: set<char>)

  /** The characters of the default pattern `QUOTE_PATTERN`:
      _ * [ ] ( ) ~ ` > # + - = | { } . ! and the backslash. */
  const QUOTE_CHARACTERS: set<char> :=
    {'_', '*', '[', ']', '(', ')', '~', '`', '>', '#', '+', '-', '=', '|', '{', '}', '.', '!', '\\'}

  function Default(): (f: Formatter)
    ensures f.quoted == QUOTE_CHARACTERS
  {
    Formatter(QUOTE_CHARACTERS)
  }

  function TextLink(text: string, url: string): (r: string)
    ensures StrUtil.Wraps(r, "[", text, "](" + url + ")")
  {
    StrUtil.WrapsConcat("[", text, "](" + url + ")");
    "[" + text + "](" + url + ")"
  }

  /** `text_mention` and `custom_emoji` are links to `tg://` addresses; the
      user id reads back from the link. */
  function TextMention(text: string, userId: int): (r: string)
    ensures var id := IntText.IntToString(userId);
      StrUtil.Wraps(r, "[", text, "](tg://user?id=" + id + ")")
      && IntText.ParseInt(id) == Some(userId)
  {
    IntText.IntRoundTrip(userId);
    assert "](" + ("tg://user?id=" + IntText.IntToString(userId)) + ")"
        == "](tg://user?id=" + IntText.IntToString(userId) + ")";
    TextLink(text, "tg://user?id=" + IntText.IntToString(userId))
  }

  function CustomEmoji(text: string, emojiId: string): (r: string)
    ensures StrUtil.Wraps(r, "[", text, "](tg://emoji?id=" + emojiId + ")")
  {
    assert "](" + ("tg://emoji?id=" + emojiId) + ")" == "](tg://emoji?id=" + emojiId + ")";
    TextLink(text, "tg://emoji?id=" + emojiId)
  }

  /** `pre` and `pre_language`: a fenced block. */
  function PreLanguage(text: string, language: string): (r: string)
    ensures StrUtil.Wraps(r, "```" + language + "\n", text, "\n```")
  {
    StrUtil.WrapsConcat("```" + language + "\n", text, "\n```");
    "```" + language + "\n" + text + "\n```"
  }

  // ---------------------------------------------------------------------
  // `quote`

  /** One character, with a backslash in front when the pattern matches it. */
  function QuoteChar(f: Formatter, c: char): (r: string)
    ensures c in f.quoted ==> r == ['\\', c]
    ensures c !in f.quoted ==> r == [c]
  {
    if c in f.quoted then ['\\', c] else [c]
  }

  /** `quote`: every character the pattern matches gets a backslash in
      front; the others are left as they are. */
  function Quote(f: Formatter, text: string): (r: string)
    ensures |r| >= |text|
    ensures (forall i | 0 <= i < |text| :: text[i] !in f.quoted) ==> r == text
    decreases |text|
  {
    if |text| == 0 then [] else QuoteChar(f, text[0]) + Quote(f, text[1..])
  }

  /** Reading a quoted text back: a backslash stands for the character
      after it. */
  function Unquote(s: string): (r: string)
    decreases |s|
  {
    if |s| == 0 then []
    else if s[0] == '\\' && |s| >= 2 then [s[1]] + Unquote(s[2..])
    else [s[0]] + Unquote(s[1..])
  }

  lemma UnquoteQuotedChar(f: Formatter, c: char, rest: string)
    requires '\\' in f.quoted
    ensures Unquote(QuoteChar(f, c) + rest) == [c] + Unquote(rest)
  {
    var s := QuoteChar(f, c) + rest;
    if c in f.quoted {
      assert s[2..] == rest;
    } else {
      assert s[1..] == rest;
    }
  }

  /** When the backslash itself is quoted, as it is by default, nothing is
      lost: unquoting the quoted text gives the text. */
  lemma {:induction false} UnquoteQuote(f: Formatter, text: string)
    requires '\\' in f.quoted
    ensures Unquote(Quote(f, text)) == text
    decreases |text|
  {
    if |text| > 0 {
      UnquoteQuotedChar(f, text[0], Quote(f, text[1..]));
      UnquoteQuote(f, text[1..]);
    }
  }

  /** A quoted text is a run of pieces, each a backslash before a quoted
      character or a character that is not quoted: no quoted character
      stands on its own. */
  ghost predicate WellQuoted(f: Formatter, s: string)
    decreases |s|
  {
    |s| == 0
    || (|s| >= 2 && s[0] == '\\' && s[1] in f.quoted && WellQuoted(f, s[2..]))
    || (s[0] !in f.quoted && WellQuoted(f, s[1..]))
  }

  lemma {:induction false} QuoteIsWellQuoted(f: Formatter, text: string)
    ensures WellQuoted(f, Quote(f, text))
    decreases |text|
  {
    if |text| > 0 {
      var r := Quote(f, text);
      QuoteIsWellQuoted(f, text[1..]);
      if text[0] in f.quoted {
        assert r[2..] == Quote(f, text[1..]);
      } else {
        assert r[1..] == Quote(f, text[1..]);
      }
    }
  }

  lemma {:induction false} QuoteAppend(f: Formatter, a: string, b: string)
    ensures Quote(f, a + b) == Quote(f, a) + Quote(f, b)
    decreases |a|
  {
    if |a| == 0 {
      assert a + b == b;
    } else {
      assert (a + b)[1..] == a[1..] + b;
      QuoteAppend(f, a[1..], b);
    }
  }

  /** A quoted character between two runs that need no quoting gets its
      backslash; the runs are kept. */
  lemma QuoteBetween(f: Formatter, w1: string, c: char, w2: string)
    requires Quote(f, w1) == w1 && Quote(f, w2) == w2 && c in f.quoted
    ensures Quote(f, w1 + [c] + w2) == w1 + ['\\', c] + w2
  {
    QuoteAppend(f, w1 + [c], w2);
    QuoteAppend(f, w1, [c]);
    assert [c][1..] == [];
  }

  /** The tests' cases "test ` test", "test * test", ...: a quoted
      character between two words gets its backslash, the words are kept. */
  lemma QuoteSymbolBetweenWords(c: char)
    requires c in QUOTE_CHARACTERS
    ensures Quote(Default(), "test " + [c] + " test") == "test " + ['\\', c] + " test"
  {
    QuotePlainWords();
    QuoteBetween(Default(), "test ", c, " test");
  }

  /** The letters of "test" and the space are not quoted by default. */
  lemma PlainLetters()
    ensures 't' !in Default().quoted && 'e' !in Default().quoted
    ensures 's' !in Default().quoted && ' ' !in Default().quoted
  {
  }

  lemma QuoteTestWord()
    ensures Quote(Default(), "test") == "test"
  {
    PlainLetters();
    var w := "test";
    assert forall i | 0 <= i < |w| :: w[i] == 't' || w[i] == 'e' || w[i] == 's';
  }

  lemma QuotePlainWords()
    ensures Quote(Default(), "test ") == "test " && Quote(Default(), " test") == " test"
  {
    var f := Default();
    PlainLetters();
    QuoteTestWord();
    QuoteAppend(f, "test", " ");
    QuoteAppend(f, " ", "test");
    assert Quote(f, " ") == QuoteChar(f, ' ') + Quote(f, []);
  }

  /** The tests' case "[test]". */
  lemma QuoteBracketsExample()
    ensures Quote(Default(), "[test]") == "\\[test\\]"
  {
    var f := Default();
    QuoteTestWord();
    QuoteAppend(f, "[" + "test", "]");
    QuoteAppend(f, "[", "test");
    assert Quote(f, "[") == QuoteChar(f, '[') + Quote(f, []);
    assert Quote(f, "]") == QuoteChar(f, ']') + Quote(f, []);
    BracketLiterals();
  }

  lemma BracketLiterals()
    ensures "[" + "test" + "]" == "[test]"
    ensures "\\[" + "test" + "\\]" == "\\[test\\]"
  {
  }

  // ---------------------------------------------------------------------
  // `apply_entity`

  /** What `apply_entity` puts in place of the span, by entity kind. */
  function Edit(kind: EntityKind, piece: string): string
  {
    match kind
    case Mention => "@" + piece
    case Hashtag => "#" + piece
    case Cashtag => "$" + piece
    case BotCommand => "/" + piece
    case Url => piece
    case Email => piece
    case PhoneNumber => piece
    case Bold => "*" + piece + "*"
    case Italic => "_\r" + piece + "_\r"
    case Underline => "__\r" + piece + "__\r"
    case Strikethrough => "~" + piece + "~"
    case Spoiler => "|" + piece + "|"
    case Code => "`" + piece + "`"
    case Pre(language) => PreLanguage(piece, if language.Some? then language.value else "")
    case TextLink(url) => TextLink(piece, url)
    case TextMention(userId) => TextMention(piece, userId)
    case CustomEmoji(id) => CustomEmoji(piece, id)
  }

  /** `apply_entity`: the same checks and splice as the HTML formatter, with
      the Markdown markup. */
  function ApplyEntity(f: Formatter, text: string, e: Entity): (r: Result<string, ErrorKind>)
    ensures r.Err? <==> |text| == 0 || e.offset + e.length > |text|
    ensures |text| == 0 ==> r == Err(EmptyText)
    ensures r.Ok? ==> SplicedAt(text, e.offset, e.length, Edit(e.kind, text[e.offset..e.offset + e.length]), r.value)
  {
    Splice(text, e, (piece: string) => Edit(e.kind, piece))
  }

  /** An entity over exactly the end of the text edits that end. */
  lemma ApplyEntityAppended(f: Formatter, before: string, piece: string, kind: EntityKind)
    requires |before| + |piece| > 0
    requires |before| < 0x1_0000 && |piece| < 0x1_0000
    ensures ApplyEntity(f, before + piece, Entity(|before|, |piece|, kind)) == Ok(before + Edit(kind, piece))
  {
    SpliceAppended(before, piece, kind, (piece: string) => Edit(kind, piece));
  }

  /** Mentions, hashtags, cashtags and bot commands get their sign in front
      of the span. */
  lemma SignedKinds(f: Formatter, text: string, e: Entity)
    requires |text| > 0 && e.offset + e.length <= |text|
    requires e.kind == Mention || e.kind == Hashtag || e.kind == Cashtag || e.kind == BotCommand
    ensures ApplyEntity(f, text, e)
         == Ok(text[..e.offset] + Sign(e.kind) + text[e.offset..e.offset + e.length] + text[e.offset + e.length..])
  {
    var piece := text[e.offset..e.offset + e.length];
    SplicedAtConcat(text, e.offset, e.length, Edit(e.kind, piece), ApplyEntity(f, text, e).value);
    assert Edit(e.kind, piece) == Sign(e.kind) + piece;
    var before, after := text[..e.offset], text[e.offset + e.length..];
    assert before + (Sign(e.kind) + piece) + after == before + Sign(e.kind) + piece + after;
  }

  /** URLs, e-mails and phone numbers are left as they are. */
  lemma PlainKinds(f: Formatter, text: string, e: Entity)
    requires |text| > 0 && e.offset + e.length <= |text|
    requires e.kind == Url || e.kind == Email || e.kind == PhoneNumber
    ensures ApplyEntity(f, text, e) == Ok(text)
  {
    SpliceUnchanged(text, e, (p: string) => Edit(e.kind, p));
  }

  /** `apply_entity_kind` on a text shorter than 65536 characters gives the
      whole text edited. */
  lemma ApplyEntityKindWholeText(f: Formatter, text: string, kind: EntityKind)
    requires 0 < |text| < 0x1_0000
    ensures ApplyEntityKind((t: string, e: Entity) => ApplyEntity(f, t, e), text, kind) == Ok(Edit(kind, text))
  {
    SpliceWholeText(text, kind, (piece: string) => Edit(kind, piece));
  }
}
