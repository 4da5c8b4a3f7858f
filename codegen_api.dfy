// The field-type classifier of the code generator
// (telers-codegen/src/parser/api.rs): each field of the Bot API scheme lists
// its raw types, and the generator decides which Rust type the field gets.
// Three pairs of raw types are special cases; otherwise the field has one
// raw type, an "Array of" prefix nests an array around the rest, and the
// scalar names map to strings, integers and booleans, anything else to the
// Telegram type of that name.
module CodegenApi {
  import opened Wrappers
  import StrUtil

  datatype IntegerKind = Int64 | Float32
  datatype BooleanKind = Any | True

  /** `TypeKindInField`. */
  datatype TypeKindInField =
    | String
    | Integer(integerKind: IntegerKind)
    | Boolean(booleanKind: BooleanKind)
    | Array(inner: TypeKindInField)
    | Telegram(name: string)

  /** `Field`: a field of a Telegram type in the scheme. */
  datatype Field = Field(name: string, required: bool, description: string, types: seq<string>)

  // ---------------------------------------------------------------------
  // The classifiers of one raw type

  function IsString(rawType: string): bool {
    rawType == "String"
  }

  /** `get_if_integer`: the description is not consulted. */
  function GetIfInteger(rawType: string, description: string): (r: Option<IntegerKind>) {
    if rawType == "Integer" then Some(Int64)
    else if rawType == "Float" then Some(Float32)
    else None
  }

  function GetIfBoolean(rawType: string): (r: Option<BooleanKind>) {
    if rawType == "Boolean" then Some(Any)
    else if rawType == "True" then Some(True)
    else None
  }

  const ARRAY_OF := "Array of"
  /** The pattern `identify_field_type` removes from an array's raw type. */
  const ARRAY_OF_SPACE := "Array of "

  /** `is_array_of`: the raw type starts with "Array of" (no space). */
  function IsArrayOf(rawType: string): bool {
    StrUtil.StartsWith(rawType, ARRAY_OF)
  }

  /** The five scalar names of the scheme. */
  const SCALAR_NAMES: set<string> := {"String", "Integer", "Float", "Boolean", "True"}

  /** The raw classifiers agree with the scheme's table: each scalar name is
      recognised by exactly one of them, every other name by none, and an
      array is never a scalar. */
  lemma ScalarClassifiers(rawType: string, description: string)
    ensures IsString(rawType) <==> rawType == "String"
    ensures GetIfInteger(rawType, description) == Some(Int64) <==> rawType == "Integer"
    ensures GetIfInteger(rawType, description) == Some(Float32) <==> rawType == "Float"
    ensures GetIfBoolean(rawType) == Some(Any) <==> rawType == "Boolean"
    ensures GetIfBoolean(rawType) == Some(True) <==> rawType == "True"
    ensures rawType !in SCALAR_NAMES ==>
      !IsString(rawType) && GetIfInteger(rawType, description) == None && GetIfBoolean(rawType) == None
    ensures IsArrayOf(rawType) ==> rawType !in SCALAR_NAMES
  {
    if IsArrayOf(rawType) {
      assert rawType[0] == 'A';
    }
  }

  /** The tests' cases of `is_array_of`. */
  lemma IsArrayOfExamples()
    ensures IsArrayOf("Array of String") && IsArrayOf("Array of Array of String")
    ensures !IsArrayOf("String")
  {
    var a, b := "Array of String", "Array of Array of String";
    assert a[..8] == ARRAY_OF;
    assert b[..8] == ARRAY_OF;
  }

  // ---------------------------------------------------------------------
  // The special cases of several raw types

  /** `multi_type_is_input_file`. */
  function MultiTypeIsInputFile(types: seq<string>): (r: bool)
    ensures r <==> types == ["InputFile"] || types == ["InputFile", "String"] || types == ["String", "InputFile"]
  {
    if |types| == 1 && "InputFile" in types then
      assert types == [types[0]];
      true
    else if |types| != 2 then false
    else
      assert types == [types[0], types[1]];
      "InputFile" in types && "String" in types
  }

  /** `multi_type_is_chat_id`. */
  function MultiTypeIsChatId(types: seq<string>): (r: bool)
    ensures r <==> types == ["Integer", "String"] || types == ["String", "Integer"]
  {
    if |types| != 2 then false
    else
      assert types == [types[0], types[1]];
      "Integer" in types && "String" in types
  }

  /** `multi_type_is_reply_markup`: the raw types are not checked, only the
      field's name; a list of one type is never a reply markup, an empty
      list is. */
  function MultiTypeIsReplyMarkup(types: seq<string>, name: string): (r: bool)
    ensures r <==> |types| != 1 && name == "reply_markup"
  {
    if |types| == 1 then false else name == "reply_markup"
  }

  /** The tests' cases of the three special cases. */
  lemma MultiTypeExamples()
    ensures MultiTypeIsInputFile(["String", "InputFile"]) && !MultiTypeIsInputFile(["String", "Integer"])
    ensures MultiTypeIsChatId(["String", "Integer"]) && !MultiTypeIsChatId(["InputFile", "String"])
    ensures !MultiTypeIsReplyMarkup(["InlineKeyboardMarkup"], "reply_markup")
    ensures MultiTypeIsReplyMarkup(["ReplyKeyboardMarkup", "InlineKeyboardMarkup"], "reply_markup")
  {
  }

  /** The special cases never overlap: a field is at most one of an input
      file and a chat id. */
  lemma SpecialCasesDisjoint(types: seq<string>)
    ensures !(MultiTypeIsInputFile(types) && MultiTypeIsChatId(types))
  {
  }

  predicate Special(f: Field) {
    MultiTypeIsInputFile(f.types) || MultiTypeIsChatId(f.types) || MultiTypeIsReplyMarkup(f.types, f.name)
  }

  /** The fields `identify_field_type` handles: a special case, or one raw
      type. Any other list of several types is `unimplemented!`, and an
      empty list fails the `unwrap` of its first type. */
  predicate Handled(f: Field) {
    Special(f) || |f.types| == 1
  }

  // ---------------------------------------------------------------------
  // `identify_field_type`

  /** `str::replacen(pattern, "", 1)` with a non-empty pattern: the first
      occurrence of the pattern is replaced. */
  function ReplaceFirst(s: string, pat: string, rep: string): (r: string)
    requires |pat| > 0
    ensures StrUtil.StartsWith(s, pat) ==> r == rep + s[|pat|..]
    ensures !StrUtil.Contains(s, pat) ==> r == s
    decreases |s|
  {
    if |s| < |pat| then s
    else if s[..|pat|] == pat then rep + s[|pat|..]
    else [s[0]] + ReplaceFirst(s[1..], pat, rep)
  }

  /** How many "Array of " prefixes a raw type starts with, and what is
      left after them. */
  function Prefixes(t: string): nat
    decreases |t|
  {
    if StrUtil.StartsWith(t, ARRAY_OF_SPACE) then 1 + Prefixes(t[|ARRAY_OF_SPACE|..]) else 0
  }

  function Base(t: string): (r: string)
    ensures !StrUtil.StartsWith(r, ARRAY_OF_SPACE)
    decreases |t|
  {
    if StrUtil.StartsWith(t, ARRAY_OF_SPACE) then Base(t[|ARRAY_OF_SPACE|..]) else t
  }

  /** How deep the arrays of a field type go, and what is inside them. */
  function Depth(k: TypeKindInField): nat {
    if k.Array? then 1 + Depth(k.inner) else 0
  }

  function Innermost(k: TypeKindInField): TypeKindInField {
    if k.Array? then Innermost(k.inner) else k
  }

  /** What the scheme's table says a raw type that is not an array is. */
  ghost predicate ScalarOf(t: string, k: TypeKindInField) {
    (t == "String" ==> k == String)
    && (t == "Integer" ==> k == Integer(Int64))
    && (t == "Float" ==> k == Integer(Float32))
    && (t == "Boolean" ==> k == Boolean(Any))
    && (t == "True" ==> k == Boolean(True))
    && (t !in SCALAR_NAMES ==> k == Telegram(t))
  }

  /** Every "Array of" prefix is followed by its space, at every level. */
  ghost predicate ArraysSpaced(t: string)
    decreases |t|
  {
    !IsArrayOf(t) || (StrUtil.StartsWith(t, ARRAY_OF_SPACE) && ArraysSpaced(t[|ARRAY_OF_SPACE|..]))
  }

  /** A raw type with the spaced prefix passes `is_array_of`; one that
      does not start with 'A' is a plain name. */
  lemma SpacedIsArray(t: string)
    requires StrUtil.StartsWith(t, ARRAY_OF_SPACE)
    ensures IsArrayOf(t)
  {
    assert t[..8] == t[..9][..8];
  }

  lemma PlainName(t: string)
    requires |t| > 0 && t[0] != 'A'
    ensures !IsArrayOf(t) && !StrUtil.StartsWith(t, ARRAY_OF_SPACE)
    ensures Prefixes(t) == 0 && Base(t) == t && ArraysSpaced(t)
  {
  }

  /** `identify_field_type` as written: it tests for "Array of" and removes
      the first "Array of " (with the space). On a raw type where the two
      differ the recursive call gets the same field again, so the model
      asks for every prefix to carry its space. */
  function IdentifyFieldTypeAsWritten(field: Field): (r: TypeKindInField)
    requires Handled(field)
    requires |field.types| == 1 ==> ArraysSpaced(field.types[0])
    ensures MultiTypeIsInputFile(field.types) ==> r == Telegram("InputFile")
    ensures !MultiTypeIsInputFile(field.types) && MultiTypeIsChatId(field.types) ==> r == Telegram("ChatId")
    ensures !MultiTypeIsInputFile(field.types) && !MultiTypeIsChatId(field.types) && MultiTypeIsReplyMarkup(field.types, field.name) ==>
      r == Telegram("ReplyMarkup")
    ensures |field.types| == 1 ==> Depth(r) == Prefixes(field.types[0]) && ScalarOf(Base(field.types[0]), Innermost(r))
    decreases if |field.types| == 1 then |field.types[0]| else 0
  {
    var types := field.types;
    if MultiTypeIsInputFile(types) then
      PlainName("InputFile");
      Telegram("InputFile")
    else if MultiTypeIsChatId(types) then Telegram("ChatId")
    else if MultiTypeIsReplyMarkup(types, field.name) then Telegram("ReplyMarkup")
    else
      var t := types[0];
      if IsArrayOf(t) then
        var innerField := Field(field.name, field.required, field.description, [ReplaceFirst(t, ARRAY_OF_SPACE, "")]);
        assert innerField.types[0] == t[|ARRAY_OF_SPACE|..];
        Array(IdentifyFieldTypeAsWritten(innerField))
      else if StrUtil.StartsWith(t, ARRAY_OF_SPACE) then
        SpacedIsArray(t);
        assert false;
        String
      else if IsString(t) then String
      else if GetIfInteger(t, field.description).Some? then Integer(GetIfInteger(t, field.description).value)
      else if GetIfBoolean(t).Some? then Boolean(GetIfBoolean(t).value)
      else Telegram(t)
  }

  /** As written, a raw type that starts with "Array of" but not with
      "Array of " is handed back unchanged to the recursive call, which
      then does the same again without end: "Array of" on its own is
      such a type. */
  lemma ArrayWithoutSpaceRecursesForever(t: string)
    requires IsArrayOf(t) && !StrUtil.Contains(t, ARRAY_OF_SPACE)
    ensures ReplaceFirst(t, ARRAY_OF_SPACE, "") == t
    ensures !ArraysSpaced(t)
  {
  }

  lemma {:induction false} ShortNotContained(s: string, p: string)
    requires |s| < |p|
    ensures !StrUtil.Contains(s, p)
    decreases |s|
  {
    if |s| > 0 {
      ShortNotContained(s[1..], p);
    }
  }

  lemma BareArrayOfRecursesForever()
    ensures IsArrayOf(ARRAY_OF) && ReplaceFirst(ARRAY_OF, ARRAY_OF_SPACE, "") == ARRAY_OF
  {
    ShortNotContained(ARRAY_OF, ARRAY_OF_SPACE);
  }

  /** `identify_field_type` with the prefix it tests and the prefix it
      removes made the same ("Array of "): it ends on every field it
      handles, and a raw type "Array of" without an element is a Telegram
      type name like any other. */
  function IdentifyFieldType(field: Field): (r: TypeKindInField)
    requires Handled(field)
    ensures MultiTypeIsInputFile(field.types) ==> r == Telegram("InputFile")
    ensures !MultiTypeIsInputFile(field.types) && MultiTypeIsChatId(field.types) ==> r == Telegram("ChatId")
    ensures !MultiTypeIsInputFile(field.types) && !MultiTypeIsChatId(field.types) && MultiTypeIsReplyMarkup(field.types, field.name) ==>
      r == Telegram("ReplyMarkup")
    ensures |field.types| == 1 ==> Depth(r) == Prefixes(field.types[0]) && ScalarOf(Base(field.types[0]), Innermost(r))
    decreases if |field.types| == 1 then |field.types[0]| else 0
  {
    var types := field.types;
    if MultiTypeIsInputFile(types) then
      PlainName("InputFile");
      Telegram("InputFile")
    else if MultiTypeIsChatId(types) then Telegram("ChatId")
    else if MultiTypeIsReplyMarkup(types, field.name) then Telegram("ReplyMarkup")
    else
      var t := types[0];
      if StrUtil.StartsWith(t, ARRAY_OF_SPACE) then
        var innerField := Field(field.name, field.required, field.description, [t[|ARRAY_OF_SPACE|..]]);
        Array(IdentifyFieldType(innerField))
      else if IsString(t) then String
      else if GetIfInteger(t, field.description).Some? then Integer(GetIfInteger(t, field.description).value)
      else if GetIfBoolean(t).Some? then Boolean(GetIfBoolean(t).value)
      else Telegram(t)
  }

  /** On the fields whose array prefixes all carry their space, the
      corrected classifier gives what the code as written gives. */
  lemma {:induction false} AsWrittenAgrees(field: Field)
    requires Handled(field)
    requires |field.types| == 1 ==> ArraysSpaced(field.types[0])
    ensures IdentifyFieldTypeAsWritten(field) == IdentifyFieldType(field)
    decreases if |field.types| == 1 then |field.types[0]| else 0
  {
    if !Special(field) {
      var t := field.types[0];
      if IsArrayOf(t) {
        var rest := t[|ARRAY_OF_SPACE|..];
        assert ReplaceFirst(t, ARRAY_OF_SPACE, "") == rest;
        AsWrittenAgrees(Field(field.name, field.required, field.description, [rest]));
      } else if StrUtil.StartsWith(t, ARRAY_OF_SPACE) {
        SpacedIsArray(t);
        assert false;
      }
    }
  }

  /** The tests' fields: nested arrays of a scalar, ... */
  lemma NestedArrayExample()
    ensures IdentifyFieldTypeAsWritten(Field("field6", true, "", ["Array of Array of String"])) == Array(Array(String))
  {
    var t, t1, t2 := "Array of Array of String", "Array of String", "String";
    assert t[..9] == ARRAY_OF_SPACE && t[9..] == t1;
    assert t1[..9] == ARRAY_OF_SPACE && t1[9..] == t2;
    PlainName(t2);
    SpacedIsArray(t1);
    SpacedIsArray(t);
    var r := IdentifyFieldTypeAsWritten(Field("field6", true, "", [t]));
    assert Depth(r) == 2 && Innermost(r) == String;
  }

  /** ... a one-type field named like a chat id or a reply markup, which
      is not a special case, ... */
  lemma OneTypeExamples()
    ensures ArraysSpaced("ReplyKeyboardMarkup")
    ensures IdentifyFieldTypeAsWritten(Field("chat_id", true, "", ["Integer"])) == Integer(Int64)
    ensures IdentifyFieldTypeAsWritten(Field("reply_markup", true, "", ["ReplyKeyboardMarkup"])) == Telegram("ReplyKeyboardMarkup")
  {
    PlainName("Integer");
    PlainName("ReplyKeyboardMarkup");
  }

  /** ... and an input file given as two types. */
  lemma InputFileExample()
    ensures IdentifyFieldTypeAsWritten(Field("field1", true, "", ["String", "InputFile"])) == Telegram("InputFile")
  {
  }
}
