// A message entity of the middle generation (src/types/message_entity.rs):
// its type, where it starts and how long it is — both counted in UTF-16
// code units of the message text — and the optional fields some kinds
// carry. `extract_from` cuts the entity's text out of the message.
module SrcMessageEntity {
  import opened Wrappers
  import SrcTypes
  import opened Utf16

  datatype MessageEntity = MessageEntity(
    entityType: string,
    offset: int,
    length: int,
    url: Option<string>,
    user: Option<SrcTypes.User>,
    language: Option<string>,
    customEmojiId: Option<string>)

  /** `new`: the type and the span; no optional field. */
  function New(entityType: string, offset: int, length: int): (e: MessageEntity)
    ensures e.entityType == entityType && e.offset == offset && e.length == length
    ensures e.url.None? && e.user.None? && e.language.None? && e.customEmojiId.None?
  {
    MessageEntity(entityType, offset, length, None, None, None, None)
  }

  /** The setters: each one replaces its own field only. */
  function WithOffset(e: MessageEntity, val: int): (r: MessageEntity)
    ensures r.offset == val && r == e.(offset := r.offset)
  {
    e.(offset := val)
  }

  function WithLength(e: MessageEntity, val: int): (r: MessageEntity)
    ensures r.length == val && r == e.(length := r.length)
  {
    e.(length := val)
  }

  function WithUrl(e: MessageEntity, val: string): (r: MessageEntity)
    ensures r.url == Some(val) && r == e.(url := r.url)
  {
    e.(url := Some(val))
  }

  function WithUser(e: MessageEntity, val: SrcTypes.User): (r: MessageEntity)
    ensures r.user == Some(val) && r == e.(user := r.user)
  {
    e.(user := Some(val))
  }

  function WithLanguage(e: MessageEntity, val: string): (r: MessageEntity)
    ensures r.language == Some(val) && r == e.(language := r.language)
  {
    e.(language := Some(val))
  }

  function WithCustomEmojiId(e: MessageEntity, val: string): (r: MessageEntity)
    ensures r.customEmojiId == Some(val) && r == e.(customEmojiId := r.customEmojiId)
  {
    e.(customEmojiId := Some(val))
  }

  // ---------------------------------------------------------------------
  // `extract_from`

  predicate IsAscii(text: string) {
    forall i | 0 <= i < |text| :: text[i] as int < 0x80
  }

  /** `extract_from` as written: the string is sliced by BYTES, from twice
      the offset to twice the end, and the slice goes through UTF-16 and
      back unchanged. Modelled for texts whose characters are all ASCII, where
      a byte is a character. A negative offset or end panics (the conversion
      to `usize` is unwrapped), and so does a slice out of range. */
  function ExtractFromAsWritten(e: MessageEntity, text: string): (r: string)
    requires e.offset >= 0 && e.offset + e.length >= 0
    requires 2 * e.offset <= 2 * (e.offset + e.length) <= |text|
    requires IsAscii(text)
    ensures |r| == 2 * e.length
    ensures forall i | 0 <= i < |r| :: r[i] == text[2 * e.offset + i]
  {
    DecodeEncode(text[2 * e.offset..2 * (e.offset + e.length)]);
    Decode(Encode(text[2 * e.offset..2 * (e.offset + e.length)]))
  }

  /** `extract_from` as the offset and length are documented: the code
      units `[offset, offset + length)` of the text's UTF-16 encoding,
      decoded back. */
  function ExtractFrom(e: MessageEntity, text: string): (r: string)
    requires 0 <= e.offset && 0 <= e.length && e.offset + e.length <= |Encode(text)|
    ensures |r| <= e.length
  {
    Decode(Encode(text)[e.offset..e.offset + e.length])
  }

  /** An entity spanning the encoding of `b` inside `a + b + c` extracts
      exactly `b`, whatever characters the three strings hold. */
  lemma ExtractFromSpan(a: string, b: string, c: string)
    ensures var e := New("bold", |Encode(a)|, |Encode(b)|);
      e.offset + e.length <= |Encode(a + b + c)| && ExtractFrom(e, a + b + c) == b
  {
    EncodeAppend(a + b, c);
    EncodeAppend(a, b);
    var units := Encode(a + b + c);
    assert units[|Encode(a)|..|Encode(a)| + |Encode(b)|] == Encode(b);
    DecodeEncode(b);
  }

  /** An entity covering the whole text extracts the whole text. */
  lemma ExtractWholeText(text: string)
    ensures var e := New("bold", 0, |Encode(text)|); ExtractFrom(e, text) == text
  {
    assert Encode(text)[0..|Encode(text)|] == Encode(text);
    DecodeEncode(text);
  }

  /** The documented reading and the code differ on the simplest input: in
      "hello", the entity at offset 1 of length 1 is "e", but the code
      returns "ll". */
  lemma ByteSliceCounterexample()
    ensures var e := New("bold", 1, 1);
      ExtractFromAsWritten(e, "hello") == "ll" && ExtractFrom(e, "hello") == "e"
  {
    var e := New("bold", 1, 1);
    assert Encode("o") == [111 as Unit];
    assert Encode("lo") == [108 as Unit, 111 as Unit];
    assert Encode("llo") == [108 as Unit, 108 as Unit, 111 as Unit];
    assert Encode("ello") == [101 as Unit, 108 as Unit, 108 as Unit, 111 as Unit];
    assert Encode("hello") == [104 as Unit, 101 as Unit, 108 as Unit, 108 as Unit, 111 as Unit];
    assert Encode("hello")[1..2] == [101 as Unit];
    assert Decode([101 as Unit]) == "e";
    var r := ExtractFromAsWritten(e, "hello");
    assert r[0] == 'l' && r[1] == 'l';
  }
}
