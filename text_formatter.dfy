// What the text formatters share (src/utils/text/formatter.rs): the entity
// they apply — a kind over a span whose offset and length are `u16` — the two
// errors, the splice every `apply_entity` performs, and the trait's
// `apply_entity_kind`, which applies a kind to the whole text.
//
// Lengths and offsets count characters here; Rust counts the bytes of the
// UTF-8 text, which is the same for ASCII text.
module TextFormatter {
  import opened Wrappers

  /** `u16`. */
  type U16 = x: int | 0 <= x < 0x1_0000

  /** `MessageEntityKind`, with what each kind carries. A text mention
      carries a user; only its id is used, so only the id is kept. */
  datatype EntityKind =
    | Mention | Hashtag | Cashtag | BotCommand | Url | Email | PhoneNumber
    | Bold | Italic | Underline | Strikethrough | Spoiler | Code
    | Pre(language: Option<string>)
    | TextLink(url: string)
    | TextMention(userId: int)
    | CustomEmoji(customEmojiId: string)

  /** `MessageEntity::new(offset, length, kind)`. */
  datatype Entity = Entity(offset: U16, length: U16, kind: EntityKind)

  /** `ErrorKind`. */
  datatype ErrorKind = EmptyText | IndexOutOfBounds

  /** The sign put in front of the entities Telegram finds by itself. */
  function Sign(kind: EntityKind): string
  {
    match kind
    case Mention => "@"
    case Hashtag => "#"
    case Cashtag => "$"
    case BotCommand => "/"
    case _ => ""
  }

  /** `out` is `text` with the `len` characters at `off` replaced by
      `piece`: what comes before and after the span is kept as it was. */
  ghost predicate SplicedAt(text: string, off: nat, len: nat, piece: string, out: string) {
    off + len <= |text|
    && |out| == |text| - len + |piece|
    && out[..off] == text[..off]
    && out[off..off + |piece|] == piece
    && out[off + |piece|..] == text[off + len..]
  }

  lemma SplicedAtConcat(text: string, off: nat, len: nat, piece: string, out: string)
    requires SplicedAt(text, off, len, piece, out)
    ensures out == text[..off] + piece + text[off + len..]
  {
    assert out == out[..off] + out[off..off + |piece|] + out[off + |piece|..];
  }

  /** A span that is exactly the end of the text: the text's start followed
      by the new piece. */
  lemma SplicedAtEnd(before: string, piece: string, edited: string, out: string)
    requires SplicedAt(before + piece, |before|, |piece|, edited, out)
    ensures out == before + edited
  {
    var whole := before + piece;
    assert whole[..|before|] == before;
    assert out == out[..|before|] + out[|before|..|before| + |edited|] + out[|before| + |edited|..];
  }

  /** A span that is exactly the start of the text: the new piece followed
      by the rest of the text. */
  lemma SplicedAtStart(piece: string, after: string, edited: string, out: string)
    requires SplicedAt(piece + after, 0, |piece|, edited, out)
    ensures out == edited + after
  {
    var whole := piece + after;
    assert whole[|piece|..] == after;
    assert out == out[0..|edited|] + out[|edited|..];
  }

  /** The body every `apply_entity` shares: an empty text is refused, then
      a span reaching past the end; otherwise the span is replaced by its
      edited form. */
  function Splice(text: string, e: Entity, edit: string -> string): (r: Result<string, ErrorKind>)
    ensures |text| == 0 ==> r == Err(EmptyText)
    ensures |text| > 0 && e.offset + e.length > |text| ==> r == Err(IndexOutOfBounds)
    ensures r.Ok? <==> |text| > 0 && e.offset + e.length <= |text|
    ensures r.Ok? ==> SplicedAt(text, e.offset, e.length, edit(text[e.offset..e.offset + e.length]), r.value)
  {
    if |text| == 0 then Err(EmptyText)
    else if e.offset + e.length > |text| then Err(IndexOutOfBounds)
    else
      var piece := edit(text[e.offset..e.offset + e.length]);
      var out := text[..e.offset] + piece + text[e.offset + e.length..];
      assert out[e.offset..e.offset + |piece|] == piece;
      Ok(out)
  }

  /** An edit that changes nothing leaves the whole text as it was. */
  lemma SpliceUnchanged(text: string, e: Entity, edit: string -> string)
    requires |text| > 0 && e.offset + e.length <= |text|
    requires edit(text[e.offset..e.offset + e.length]) == text[e.offset..e.offset + e.length]
    ensures Splice(text, e, edit) == Ok(text)
  {
    var out := Splice(text, e, edit).value;
    assert out == out[..e.offset] + out[e.offset..e.offset + e.length] + out[e.offset + e.length..];
    assert text == text[..e.offset] + text[e.offset..e.offset + e.length] + text[e.offset + e.length..];
  }

  /** An entity over exactly the end of the text gives the text's start
      followed by the edited end. */
  lemma SpliceAppended(before: string, piece: string, kind: EntityKind, edit: string -> string)
    requires |before| + |piece| > 0
    requires |before| < 0x1_0000 && |piece| < 0x1_0000
    ensures Splice(before + piece, Entity(|before|, |piece|, kind), edit) == Ok(before + edit(piece))
  {
    var whole := before + piece;
    assert whole[|before|..|before| + |piece|] == piece;
    SplicedAtEnd(before, piece, edit(piece), Splice(whole, Entity(|before|, |piece|, kind), edit).value);
  }

  /** An entity over the whole text gives the edited text. */
  lemma SpliceWholeText(text: string, kind: EntityKind, edit: string -> string)
    requires 0 < |text| < 0x1_0000
    ensures Splice(text, Entity(0, |text|, kind), edit) == Ok(edit(text))
  {
    assert text[0..|text|] == text;
    var out := Splice(text, Entity(0, |text|, kind), edit).value;
    assert out == out[0..|edit(text)|];
  }

  /** `apply_entity_kind`: refuses an empty text, and otherwise applies the
      kind from offset 0 over the text's length truncated to `u16`, through
      the formatter's own `apply_entity`. */
  function ApplyEntityKind(applyEntity: (string, Entity) -> Result<string, ErrorKind>, text: string, kind: EntityKind): (r: Result<string, ErrorKind>)
    ensures |text| == 0 ==> r == Err(EmptyText)
    ensures |text| > 0 ==> r == applyEntity(text, Entity(0, |text| % 0x1_0000, kind))
  {
    if |text| == 0 then Err(EmptyText)
    else applyEntity(text, Entity(0, |text| % 0x1_0000, kind))
  }

  /** A text longer than `u16::MAX` is only partly covered: the entity
      spans the length modulo 65536, and the rest is kept as it was. */
  lemma ApplyEntityKindTruncates(text: string, kind: EntityKind, edit: string -> string)
    requires |text| >= 0x1_0000
    ensures var n := |text| % 0x1_0000;
      ApplyEntityKind((t: string, e: Entity) => Splice(t, e, edit), text, kind)
      == Ok(edit(text[..n]) + text[n..])
  {
    var n := |text| % 0x1_0000;
    var out := Splice(text, Entity(0, n, kind), edit).value;
    assert text[0..n] == text[..n];
    assert out == out[0..|edit(text[..n])|] + out[|edit(text[..n])|..];
  }

  // ---------------------------------------------------------------------
  // The reference formatter of the trait's own tests

  /** The tests' formatter: bold is `**text**`, and `apply_entity` handles
      the bold kind only (any other kind reaching the edit is
      `unimplemented!`). */
  function ReferenceApplyEntity(text: string, e: Entity): (r: Result<string, ErrorKind>)
    requires |text| == 0 || e.offset + e.length > |text| || e.kind == Bold
    ensures r.Err? <==> |text| == 0 || e.offset + e.length > |text|
    ensures r.Ok? ==> SplicedAt(text, e.offset, e.length, "**" + text[e.offset..e.offset + e.length] + "**", r.value)
  {
    Splice(text, e, (t: string) => "**" + t + "**")
  }

  /** The tests' cases: bold at the start and in the middle of the text. */
  lemma ReferenceBoldAtStart()
    ensures ReferenceApplyEntity("Hello, world!", Entity(0, 5, Bold)) == Ok("**Hello**, world!")
  {
    var hello, rest := "Hello", ", world!";
    HelloWorldParts();
    var a := ReferenceApplyEntity(hello + rest, Entity(0, 5, Bold)).value;
    assert (hello + rest)[0..5] == hello;
    SplicedAtStart(hello, rest, "**" + hello + "**", a);
  }

  lemma HelloWorldParts()
    ensures "Hello, world!" == "Hello" + ", world!"
    ensures "**" + "Hello" + "**" + ", world!" == "**Hello**, world!"
  {
    var bolded := "**Hello**";
    assert "**" + "Hello" + "**" == bolded;
    assert bolded + ", world!" == "**Hello**, world!";
  }

  lemma ReferenceBoldInMiddle()
    ensures ReferenceApplyEntity("Hello, world!", Entity(7, 5, Bold)) == Ok("Hello, **world**!")
  {
    var text := "Hello, world!";
    var b := ReferenceApplyEntity(text, Entity(7, 5, Bold)).value;
    assert text[..7] == "Hello, " && text[7..12] == "world" && text[12..] == "!";
    SplicedAtConcat(text, 7, 5, "**" + text[7..12] + "**", b);
    assert b == "Hello, " + ("**" + "world" + "**") + "!";
    assert "Hello, " + ("**" + "world" + "**") + "!" == "Hello, **world**!";
  }

  /** The tests' failing cases: a span past the end, and an empty text. */
  lemma ReferenceErrors()
    ensures ReferenceApplyEntity("Hello, world!", Entity(0, 15, Bold)) == Err(IndexOutOfBounds)
    ensures ReferenceApplyEntity("", Entity(0, 15, Bold)) == Err(EmptyText)
  {
  }
}
