// The attribute lists of the derive macros `FromEvent` and `FromContext`
// (telers-macros/src/from_event.rs, telers-macros/src/from_context.rs), as
// the items their `parse` loops meet: a comma, a `keyword = value` entry, or
// anything else.
module MacroAttrs {
  /** A type as `syn` parses it: a path (with or without a leading `::`),
      or any other type. */
  datatype ParsedType = PathType(leadingColons: bool, segments: seq<string>) | OtherType(text: string)

  /** What follows the `=`: a type or a string literal. */
  datatype AttrValue = TypeValue(ty: ParsedType) | StrValue(text: string)

  /** One item of the list: a comma, an entry `keyword = value` (`hasEq` is
      false when the `=` is missing), or a token that is neither. */
  datatype AttrItem =
    | Comma
    | Entry(keyword: string, hasEq: bool, value: AttrValue)
    | Stray

  /** How many entries name `keyword`. */
  function Count(items: seq<AttrItem>, keyword: string): (n: nat)
    ensures n <= |items|
  {
    if |items| == 0 then 0
    else (if items[0].Entry? && items[0].keyword == keyword then 1 else 0) + Count(items[1..], keyword)
  }

  /** A value that `lookahead.peek(Ident)` accepts: a path without a leading
      `::`. */
  predicate StartsWithIdent(v: AttrValue) {
    v.TypeValue? && v.ty.PathType? && !v.ty.leadingColons && |v.ty.segments| > 0
  }
}

// `#[event(from = Update)]`, `#[event(try_from = Update, error = E)]`.
module FromEventMacro {
  import opened Wrappers
  import opened MacroAttrs

  /** `TypeKind`: only `Update` is supported. */
  datatype TypeKind = Update

  datatype ConvertKind = From(from: TypeKind) | TryFrom(tryFrom: TypeKind)

  /** `ExtractionError`: the default error type or the one given. */
  datatype ExtractionError = DefaultError(path: ParsedType) | CustomError(ty: ParsedType)

  /** The errors of `parse`, one per message. */
  datatype ParseError =
    | ExpectedUpdate
    | UnknownType
    | ExpectedEq
    | ExpectedType
    | ExpectedLitStr
    | DuplicateFrom
    | FromWithTryFrom
    | DuplicateTryFrom
    | DuplicateError
    | DuplicateDescription
    | UnknownAttribute
    | MissingConvert
    | ErrorWithFrom

  datatype FromEventAttrs = FromEventAttrs(convertKind: ConvertKind, error: Option<ExtractionError>, description: Option<string>)

  const KEYWORDS: set<string> := {"from", "try_from", "error", "description"}

  /** `ExtractionError::default`: `::telers::errors::ConvertToTypeError`. */
  const DEFAULT_ERROR: ExtractionError := DefaultError(PathType(true, ["telers", "errors", "ConvertToTypeError"]))

  /** `TypeKind::parse`: a path of one segment `Update`; any other path is
      an unknown type, and anything that does not start with an identifier
      is refused. */
  function ParseTypeKind(v: AttrValue): (r: Result<TypeKind, ParseError>)
    ensures r.Ok? <==> v == TypeValue(PathType(false, ["Update"]))
    ensures r.Err? && StartsWithIdent(v) ==> r.error == UnknownType
    ensures r.Err? && !StartsWithIdent(v) ==> r.error == ExpectedUpdate
  {
    if StartsWithIdent(v) then
      if |v.ty.segments| == 1 && v.ty.segments[0] == "Update" then
        assert v.ty.segments == ["Update"];
        Ok(Update)
      else Err(UnknownType)
    else Err(ExpectedUpdate)
  }

  /** `ExtractionError::parse`: a type that starts with an identifier, which
      is then a path type. */
  function ParseExtractionError(v: AttrValue): (r: Result<ExtractionError, ParseError>)
    ensures r.Ok? <==> StartsWithIdent(v)
    ensures r.Ok? ==> r.value == CustomError(v.ty) && r.value.ty.PathType?
    ensures r.Err? ==> r.error == ExpectedType
  {
    if StartsWithIdent(v) then Ok(CustomError(v.ty)) else Err(ExpectedType)
  }

  /** The value a `description` takes: a string literal. */
  function ParseLitStr(v: AttrValue): Result<string, ParseError> {
    if v.StrValue? then Ok(v.text) else Err(ExpectedLitStr)
  }

  /** What the loop has collected so far. */
  datatype Slots = Slots(convertKind: Option<ConvertKind>, error: Option<ExtractionError>, description: Option<string>)

  /** One item of the loop: a comma is skipped; an entry parses `=` and its
      value, then refuses a second occurrence (or, for `from` and
      `try_from`, either after the other); anything else is an unknown
      attribute. */
  function Step(slots: Slots, item: AttrItem): Result<Slots, ParseError> {
    if item.Comma? then Ok(slots)
    else if item.Stray? || item.keyword !in KEYWORDS then Err(UnknownAttribute)
    else if !item.hasEq then Err(ExpectedEq)
    else if item.keyword == "from" || item.keyword == "try_from" then
      var value := ParseTypeKind(item.value);
      if value.Err? then Err(value.error)
      else if slots.convertKind.Some? then
        if slots.convertKind.value.From? == (item.keyword == "from") then
          Err(if item.keyword == "from" then DuplicateFrom else DuplicateTryFrom)
        else Err(FromWithTryFrom)
      else Ok(slots.(convertKind := Some(if item.keyword == "from" then From(value.value) else TryFrom(value.value))))
    else if item.keyword == "error" then
      var value := ParseExtractionError(item.value);
      if value.Err? then Err(value.error)
      else if slots.error.Some? then Err(DuplicateError)
      else Ok(slots.(error := Some(value.value)))
    else
      var value := ParseLitStr(item.value);
      if value.Err? then Err(value.error)
      else if slots.description.Some? then Err(DuplicateDescription)
      else Ok(slots.(description := Some(value.value)))
  }

  /** The loop over the items, stopping at the first error. */
  function Scan(slots: Slots, items: seq<AttrItem>): Result<Slots, ParseError>
    decreases |items|
  {
    if |items| == 0 then Ok(slots)
    else
      var next := Step(slots, items[0]);
      if next.Err? then next else Scan(next.value, items[1..])
  }

  /** What follows the loop: `from` or `try_from` is required; `error` is
      refused with `from` and defaults with `try_from`. */
  function Finish(slots: Slots): Result<FromEventAttrs, ParseError> {
    if slots.convertKind.None? then Err(MissingConvert)
    else if slots.convertKind.value.From? then
      if slots.error.Some? then Err(ErrorWithFrom)
      else Ok(FromEventAttrs(slots.convertKind.value, None, slots.description))
    else
      Ok(FromEventAttrs(slots.convertKind.value, if slots.error.None? then Some(DEFAULT_ERROR) else slots.error, slots.description))
  }

  function ParseSpec(items: seq<AttrItem>): Result<FromEventAttrs, ParseError> {
    var scanned := Scan(Slots(None, None, None), items);
    if scanned.Err? then Err(scanned.error) else Finish(scanned.value)
  }

  /** `FromEventAttrs::parse`: the loop fills the three slots. */
  method Parse(items: seq<AttrItem>) returns (r: Result<FromEventAttrs, ParseError>)
    ensures r == ParseSpec(items)
  {
    var convertKind: Option<ConvertKind> := None;
    var error: Option<ExtractionError> := None;
    var description: Option<string> := None;
    var i := 0;
    while i < |items|
      invariant 0 <= i <= |items|
      invariant Scan(Slots(None, None, None), items) == Scan(Slots(convertKind, error, description), items[i..])
    {
      var item := items[i];
      assert items[i..][1..] == items[i + 1..];
      if item.Comma? {
        i := i + 1;
        continue;
      }
      if item.Entry? && item.keyword == "from" {
        if !item.hasEq {
          return Err(ExpectedEq);
        }
        var value := ParseTypeKind(item.value);
        if value.Err? {
          return Err(value.error);
        }
        match convertKind {
          case Some(From(_)) => return Err(DuplicateFrom);
          case Some(TryFrom(_)) => return Err(FromWithTryFrom);
          case None =>
        }
        convertKind := Some(From(value.value));
        i := i + 1;
        continue;
      }
      if item.Entry? && item.keyword == "try_from" {
        if !item.hasEq {
          return Err(ExpectedEq);
        }
        var value := ParseTypeKind(item.value);
        if value.Err? {
          return Err(value.error);
        }
        match convertKind {
          case Some(From(_)) => return Err(FromWithTryFrom);
          case Some(TryFrom(_)) => return Err(DuplicateTryFrom);
          case None =>
        }
        convertKind := Some(TryFrom(value.value));
        i := i + 1;
        continue;
      }
      if item.Entry? && item.keyword == "error" {
        if !item.hasEq {
          return Err(ExpectedEq);
        }
        var value := ParseExtractionError(item.value);
        if value.Err? {
          return Err(value.error);
        }
        if error.Some? {
          return Err(DuplicateError);
        }
        error := Some(value.value);
        i := i + 1;
        continue;
      }
      if item.Entry? && item.keyword == "description" {
        if !item.hasEq {
          return Err(ExpectedEq);
        }
        var value := ParseLitStr(item.value);
        if value.Err? {
          return Err(value.error);
        }
        if description.Some? {
          return Err(DuplicateDescription);
        }
        description := Some(value.value);
        i := i + 1;
        continue;
      }
      return Err(UnknownAttribute);
    }
    if convertKind.None? {
      return Err(MissingConvert);
    }
    if convertKind.value.From? {
      if error.Some? {
        return Err(ErrorWithFrom);
      }
    } else if error.None? {
      error := Some(DEFAULT_ERROR);
    }
    r := Ok(FromEventAttrs(convertKind.value, error, description));
  }

  // ---------------------------------------------------------------------
  // What `parse` accepts

  /** An item the loop gets past: a comma, or a known keyword with `=` and
      a value of the right form. */
  predicate ItemOk(item: AttrItem) {
    item.Comma?
    || (item.Entry? && item.keyword in KEYWORDS && item.hasEq
        && (item.keyword == "from" || item.keyword == "try_from" ==> ParseTypeKind(item.value).Ok?)
        && (item.keyword == "error" ==> ParseExtractionError(item.value).Ok?)
        && (item.keyword == "description" ==> item.value.StrValue?))
  }

  function Filled<T>(o: Option<T>): nat {
    if o.Some? then 1 else 0
  }

  /** The loop succeeds exactly when every item is of the right form and no
      slot is filled twice, `from` and `try_from` sharing one slot. */
  lemma {:induction false} ScanOk(slots: Slots, items: seq<AttrItem>)
    ensures Scan(slots, items).Ok? <==>
      (forall i | 0 <= i < |items| :: ItemOk(items[i]))
      && Filled(slots.convertKind) + Count(items, "from") + Count(items, "try_from") <= 1
      && Filled(slots.error) + Count(items, "error") <= 1
      && Filled(slots.description) + Count(items, "description") <= 1
    ensures Scan(slots, items).Ok? ==>
      var s := Scan(slots, items).value;
      Filled(s.convertKind) == Filled(slots.convertKind) + Count(items, "from") + Count(items, "try_from")
      && (s.convertKind.Some? && s.convertKind.value.From? <==>
          (slots.convertKind.Some? && slots.convertKind.value.From?) || Count(items, "from") == 1)
      && Filled(s.error) == Filled(slots.error) + Count(items, "error")
    decreases |items|
  {
    if |items| > 0 {
      var next := Step(slots, items[0]);
      if next.Ok? {
        ScanOk(next.value, items[1..]);
      }
      assert forall i | 1 <= i < |items| :: items[i] == items[1..][i - 1];
    }
  }

  /** `parse` succeeds exactly when every item is of the right form, exactly
      one of `from` and `try_from` is given, `error` and `description` at
      most once, and `error` never with `from`. */
  lemma ParseOk(items: seq<AttrItem>)
    ensures ParseSpec(items).Ok? <==>
      (forall i | 0 <= i < |items| :: ItemOk(items[i]))
      && Count(items, "from") + Count(items, "try_from") == 1
      && Count(items, "error") <= 1 && Count(items, "description") <= 1
      && (Count(items, "from") == 1 ==> Count(items, "error") == 0)
  {
    ScanOk(Slots(None, None, None), items);
  }

  /** With `try_from` the error type is always filled in, so the code
      generator's `expect` on it cannot fail; with `from` it stays empty. */
  lemma ErrorFilledForTryFrom(items: seq<AttrItem>)
    requires ParseSpec(items).Ok?
    ensures ParseSpec(items).value.convertKind.TryFrom? <==> ParseSpec(items).value.error.Some?
    ensures ParseSpec(items).value.convertKind.TryFrom? && Count(items, "error") == 0 ==>
      ParseSpec(items).value.error == Some(DEFAULT_ERROR)
  {
    ScanOk(Slots(None, None, None), items);
  }

  /** Examples: `from = Update`; `try_from = Update` with the default error;
      both together refused; neither refused. */
  lemma ParseExamples()
    ensures var upd := TypeValue(PathType(false, ["Update"]));
      ParseSpec([Entry("from", true, upd)]) == Ok(FromEventAttrs(From(Update), None, None))
      && ParseSpec([Entry("try_from", true, upd), Comma]) == Ok(FromEventAttrs(TryFrom(Update), Some(DEFAULT_ERROR), None))
      && ParseSpec([Entry("from", true, upd), Comma, Entry("try_from", true, upd)]) == Err(FromWithTryFrom)
      && ParseSpec([Comma]) == Err(MissingConvert)
  {
  }

  // ---------------------------------------------------------------------
  // The impl the macro generates

  /** What the generated `FromEventAndContext` impl does: `from` converts
      the update with `Into` and cannot fail; `try_from` converts it with
      `TryFrom` and fails with the error type. */
  datatype Generated = InfallibleInto | FallibleTryFrom(errorType: ExtractionError)

  function Generate(attrs: FromEventAttrs): (g: Generated)
    requires attrs.convertKind.TryFrom? ==> attrs.error.Some?
    ensures g.InfallibleInto? <==> attrs.convertKind.From?
    ensures g.FallibleTryFrom? ==> g.errorType == attrs.error.value
  {
    match attrs.convertKind
    case From(Update) => InfallibleInto
    case TryFrom(Update) => FallibleTryFrom(attrs.error.value)
  }

  /** `syn::Item`, by the kinds `expand` tells apart. */
  datatype ItemKind = StructItem | EnumItem | OtherItem

  datatype ExpandError = ExpectedStructOrEnum | MissingAttribute | FailedToParse(error: ParseError)

  /** `expand`: structs and enums only; then the `#[event(...)]` attribute,
      whose lookup among the item's attributes is given as its outcome. */
  function Expand(kind: ItemKind, attribute: Option<seq<AttrItem>>): (r: Result<Generated, ExpandError>)
    ensures kind.OtherItem? ==> r == Err(ExpectedStructOrEnum)
    ensures !kind.OtherItem? && attribute.None? ==> r == Err(MissingAttribute)
    ensures !kind.OtherItem? && attribute.Some? ==>
      (r.Ok? <==> ParseSpec(attribute.value).Ok?)
      && (r.Err? ==> r == Err(FailedToParse(ParseSpec(attribute.value).error)))
  {
    if kind.OtherItem? then Err(ExpectedStructOrEnum)
    else if attribute.None? then Err(MissingAttribute)
    else
      var parsed := ParseSpec(attribute.value);
      if parsed.Err? then Err(FailedToParse(parsed.error))
      else
        ErrorFilledForTryFrom(attribute.value);
        Ok(Generate(parsed.value))
  }
}

// `#[context(key = "...", into = T, from = T, description = "...")]`.
module FromContextMacro {
  import opened Wrappers
  import opened MacroAttrs

  datatype ParseError =
    | ExpectedEq
    | ExpectedLitStr
    | ExpectedType
    | DuplicateKey
    | DuplicateInto
    | DuplicateFrom
    | DuplicateDescription
    | UnknownAttribute
    | MissingKey

  datatype FromContextAttrs = FromContextAttrs(key: string, into: Option<ParsedType>, from: Option<ParsedType>, description: Option<string>)

  const KEYWORDS: set<string> := {"key", "into", "from", "description"}

  datatype Slots = Slots(key: Option<string>, into: Option<ParsedType>, from: Option<ParsedType>, description: Option<string>)

  /** The value of `key` and `description`: a string literal; of `into` and
      `from`: any type. */
  predicate ValueOk(keyword: string, v: AttrValue) {
    if keyword == "key" || keyword == "description" then v.StrValue? else v.TypeValue?
  }

  function Step(slots: Slots, item: AttrItem): Result<Slots, ParseError> {
    if item.Comma? then Ok(slots)
    else if item.Stray? || item.keyword !in KEYWORDS then Err(UnknownAttribute)
    else if !item.hasEq then Err(ExpectedEq)
    else if !ValueOk(item.keyword, item.value) then
      Err(if item.keyword == "key" || item.keyword == "description" then ExpectedLitStr else ExpectedType)
    else if item.keyword == "key" then
      if slots.key.Some? then Err(DuplicateKey) else Ok(slots.(key := Some(item.value.text)))
    else if item.keyword == "into" then
      if slots.into.Some? then Err(DuplicateInto) else Ok(slots.(into := Some(item.value.ty)))
    else if item.keyword == "from" then
      if slots.from.Some? then Err(DuplicateFrom) else Ok(slots.(from := Some(item.value.ty)))
    else
      if slots.description.Some? then Err(DuplicateDescription) else Ok(slots.(description := Some(item.value.text)))
  }

  function Scan(slots: Slots, items: seq<AttrItem>): Result<Slots, ParseError>
    decreases |items|
  {
    if |items| == 0 then Ok(slots)
    else
      var next := Step(slots, items[0]);
      if next.Err? then next else Scan(next.value, items[1..])
  }

  function ParseSpec(items: seq<AttrItem>): Result<FromContextAttrs, ParseError> {
    var scanned := Scan(Slots(None, None, None, None), items);
    if scanned.Err? then Err(scanned.error)
    else if scanned.value.key.None? then Err(MissingKey)
    else Ok(FromContextAttrs(scanned.value.key.value, scanned.value.into, scanned.value.from, scanned.value.description))
  }

  /** `FromContextAttrs::parse`: the loop fills the four slots; the key is
      required. */
  method Parse(items: seq<AttrItem>) returns (r: Result<FromContextAttrs, ParseError>)
    ensures r == ParseSpec(items)
  {
    var key: Option<string> := None;
    var into: Option<ParsedType> := None;
    var from: Option<ParsedType> := None;
    var description: Option<string> := None;
    var i := 0;
    while i < |items|
      invariant 0 <= i <= |items|
      invariant Scan(Slots(None, None, None, None), items) == Scan(Slots(key, into, from, description), items[i..])
    {
      var item := items[i];
      assert items[i..][1..] == items[i + 1..];
      if item.Comma? {
        i := i + 1;
        continue;
      }
      if item.Entry? && item.keyword in KEYWORDS {
        if !item.hasEq {
          return Err(ExpectedEq);
        }
        if item.keyword == "key" {
          if !item.value.StrValue? {
            return Err(ExpectedLitStr);
          }
          if key.Some? {
            return Err(DuplicateKey);
          }
          key := Some(item.value.text);
        } else if item.keyword == "into" {
          if !item.value.TypeValue? {
            return Err(ExpectedType);
          }
          if into.Some? {
            return Err(DuplicateInto);
          }
          into := Some(item.value.ty);
        } else if item.keyword == "from" {
          if !item.value.TypeValue? {
            return Err(ExpectedType);
          }
          if from.Some? {
            return Err(DuplicateFrom);
          }
          from := Some(item.value.ty);
        } else {
          if !item.value.StrValue? {
            return Err(ExpectedLitStr);
          }
          if description.Some? {
            return Err(DuplicateDescription);
          }
          description := Some(item.value.text);
        }
        i := i + 1;
        continue;
      }
      return Err(UnknownAttribute);
    }
    if key.None? {
      return Err(MissingKey);
    }
    r := Ok(FromContextAttrs(key.value, into, from, description));
  }

  predicate ItemOk(item: AttrItem) {
    item.Comma? || (item.Entry? && item.keyword in KEYWORDS && item.hasEq && ValueOk(item.keyword, item.value))
  }

  function Filled<T>(o: Option<T>): nat {
    if o.Some? then 1 else 0
  }

  lemma {:induction false} ScanOk(slots: Slots, items: seq<AttrItem>)
    ensures Scan(slots, items).Ok? <==>
      (forall i | 0 <= i < |items| :: ItemOk(items[i]))
      && Filled(slots.key) + Count(items, "key") <= 1
      && Filled(slots.into) + Count(items, "into") <= 1
      && Filled(slots.from) + Count(items, "from") <= 1
      && Filled(slots.description) + Count(items, "description") <= 1
    ensures Scan(slots, items).Ok? ==>
      var s := Scan(slots, items).value;
      Filled(s.key) == Filled(slots.key) + Count(items, "key")
      && Filled(s.into) == Filled(slots.into) + Count(items, "into")
      && Filled(s.from) == Filled(slots.from) + Count(items, "from")
    decreases |items|
  {
    if |items| > 0 {
      var next := Step(slots, items[0]);
      if next.Ok? {
        ScanOk(next.value, items[1..]);
      }
      assert forall i | 1 <= i < |items| :: items[i] == items[1..][i - 1];
    }
  }

  /** `parse` succeeds exactly when every item is a comma or a known
      keyword with `=` and a value of its form, each keyword appears at
      most once, and `key` appears. */
  lemma ParseOk(items: seq<AttrItem>)
    ensures ParseSpec(items).Ok? <==>
      (forall i | 0 <= i < |items| :: ItemOk(items[i]))
      && Count(items, "key") == 1 && Count(items, "into") <= 1
      && Count(items, "from") <= 1 && Count(items, "description") <= 1
    ensures ParseSpec(items).Ok? ==>
      (ParseSpec(items).value.into.Some? <==> Count(items, "into") == 1)
      && (ParseSpec(items).value.from.Some? <==> Count(items, "from") == 1)
  {
    ScanOk(Slots(None, None, None, None), items);
  }

  // ---------------------------------------------------------------------
  // The impl the macro generates

  /** Which impl is generated: with `into`, for the `into` type, reading
      the annotated type from the context; otherwise with `from`, for the
      annotated type, reading the `from` type; otherwise for the annotated
      type, reading itself. */
  datatype Generated = Generated(implFor: ParsedType, stored: ParsedType, key: string, description: string)

  const NO_DESCRIPTION := "no description"

  function Generate(ident: ParsedType, attrs: FromContextAttrs): (g: Generated)
    ensures g.key == attrs.key
    ensures attrs.into.Some? ==> g.implFor == attrs.into.value && g.stored == ident
    ensures attrs.into.None? && attrs.from.Some? ==> g.implFor == ident && g.stored == attrs.from.value
    ensures attrs.into.None? && attrs.from.None? ==> g.implFor == ident && g.stored == ident
    ensures g.description == if attrs.description.Some? then attrs.description.value else NO_DESCRIPTION
  {
    var description := if attrs.description.Some? then attrs.description.value else NO_DESCRIPTION;
    if attrs.into.Some? then Generated(attrs.into.value, ident, attrs.key, description)
    else if attrs.from.Some? then Generated(ident, attrs.from.value, attrs.key, description)
    else Generated(ident, ident, attrs.key, description)
  }

  /** With both `into` and `from` given, `into` decides and `from` is not
      used. */
  lemma IntoWins(ident: ParsedType, key: string, into: ParsedType, from: ParsedType, description: Option<string>)
    ensures Generate(ident, FromContextAttrs(key, Some(into), Some(from), description))
         == Generate(ident, FromContextAttrs(key, Some(into), None, description))
  {
  }

  /** A value in the context, with the type it was stored as. */
  datatype Stored<V> = Stored(ty: ParsedType, value: V)

  datatype ExtractError =
    | NotFound(key: string, description: string)
    | WrongType(key: string, expected: ParsedType, description: string)

  /** What the generated `extract` does: the key must be in the context,
      its value must be of the stored type, and it is then converted into
      the impl's type. */
  function Extract<V>(g: Generated, context: map<string, Stored<V>>): (r: Result<V, ExtractError>)
    ensures r.Ok? <==> g.key in context && context[g.key].ty == g.stored
    ensures g.key !in context ==> r == Err(NotFound(g.key, g.description))
    ensures g.key in context && context[g.key].ty != g.stored ==> r == Err(WrongType(g.key, g.stored, g.description))
    ensures r.Ok? ==> r.value == context[g.key].value
  {
    if g.key !in context then Err(NotFound(g.key, g.description))
    else if context[g.key].ty != g.stored then Err(WrongType(g.key, g.stored, g.description))
    else Ok(context[g.key].value)
  }

  datatype ItemKind = StructItem | EnumItem | OtherItem

  datatype ExpandError = ExpectedStructOrEnum | MissingAttribute | FailedToParse(error: ParseError)

  /** `expand`: structs and enums only, and they need a `#[context(...)]`
      attribute, whose lookup among the item's attributes is given as its
      outcome. */
  function Expand(kind: ItemKind, ident: ParsedType, attribute: Option<seq<AttrItem>>): (r: Result<Generated, ExpandError>)
    ensures kind.OtherItem? ==> r == Err(ExpectedStructOrEnum)
    ensures !kind.OtherItem? && attribute.None? ==> r == Err(MissingAttribute)
    ensures !kind.OtherItem? && attribute.Some? ==>
      (r.Ok? <==> ParseSpec(attribute.value).Ok?)
      && (r.Ok? ==> r.value.key == ParseSpec(attribute.value).value.key)
  {
    if kind.OtherItem? then Err(ExpectedStructOrEnum)
    else if attribute.None? then Err(MissingAttribute)
    else
      var parsed := ParseSpec(attribute.value);
      if parsed.Err? then Err(FailedToParse(parsed.error))
      else Ok(Generate(ident, parsed.value))
  }
}
