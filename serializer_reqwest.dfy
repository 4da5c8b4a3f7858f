// The multipart serializer of the older generation
// (src/serializers/reqwest.rs): a request is a struct whose fields become
// the parts of a multipart form; a scalar field becomes a text part, and a
// struct or sequence field becomes one text part holding its JSON.
module ReqwestSerializer {
  import opened Wrappers
  import StrUtil
  import IntText

  type Byte = x: int | 0 <= x < 0x100

  /** The values of serde's data model that reach the serializer.
      `Compound` stands for the kinds neither serializer handles: newtype
      structs and variants, tuples, tuple structs and variants, maps and
      struct variants. */
  datatype Value =
    | Bool(b: bool)
    | Int(i: int)
    | Char(c: char)
    | Str(s: string)
    | Bytes(bytes: seq<Byte>)
    | NoneValue
    | SomeValue(inner: Value)
    | Unit
    | UnitStruct(name: string)
    | UnitVariant(name: string, variant: string)
    | Struct(name: string, fields: seq<(string, Value)>)
    | Seq(elements: seq<Value>)
    | Compound(kind: string)

  /** `Part`: a text part or a bytes part. */
  datatype Part = Text(text: string) | Binary(bytes: seq<Byte>)

  /** `Error`: a custom error, a JSON error of `serde_json`, and the error
      `Error::top_level(val)`, a custom error whose message is "Cannot
      serialize a top-level struct: " followed by the value's debug text. */
  datatype Error = Custom(message: string) | Json(message: string) | TopLevel(value: Value)

  /** `serde_json::to_string`, which the JSON parts call for every field and
      element, is a parameter: the JSON text of a value, or its error. */
  type ToJson = Value -> Result<string, string>

  // ---------------------------------------------------------------------
  // The JSON text of a struct or sequence part

  /** `"key":value`, one field of a struct part. */
  function FieldText(key: string, value: string): string {
    "\"" + key + "\":" + value
  }

  /** The text `open` followed by the items separated by commas, as the
      buffer holds it after the items were written one at a time. */
  function Written(open: string, items: seq<string>): (r: string)
    ensures |items| == 0 ==> r == ""
    ensures |items| > 0 ==> StrUtil.StartsWith(r, open)
    decreases |items|
  {
    if |items| == 0 then ""
    else if |items| == 1 then open + items[0]
    else Written(open, items[..|items| - 1]) + "," + items[|items| - 1]
  }

  /** The JSON object of the fields written, `{}` when there are none. */
  function StructText(items: seq<string>): (r: string)
    ensures |r| >= 2 && r[0] == '{' && r[|r| - 1] == '}'
  {
    if |items| == 0 then "{}" else Written("{", items) + "}"
  }

  /** The JSON array of the elements written, `[]` when there are none. */
  function SeqText(items: seq<string>): (r: string)
    ensures |r| >= 2 && r[0] == '[' && r[|r| - 1] == ']'
  {
    if |items| == 0 then "[]" else Written("[", items) + "]"
  }

  lemma {:induction false} JoinSnoc(ps: seq<string>, p: string)
    requires |ps| >= 1
    ensures StrUtil.Join(ps + [p], ',') == StrUtil.Join(ps, ',') + "," + p
    decreases |ps|
  {
    if |ps| == 1 {
      assert ps + [p] == [ps[0], p];
      assert StrUtil.Join([p], ',') == p;
    } else {
      assert (ps + [p])[1..] == ps[1..] + [p];
      JoinSnoc(ps[1..], p);
    }
  }

  /** What the buffer holds is the opening character followed by the items
      joined with commas. */
  lemma {:induction false} WrittenIsJoin(open: string, items: seq<string>)
    requires |items| >= 1
    ensures Written(open, items) == open + StrUtil.Join(items, ',')
    decreases |items|
  {
    if |items| > 1 {
      var init := items[..|items| - 1];
      WrittenIsJoin(open, init);
      JoinSnoc(init, items[|items| - 1]);
      assert init + [items[|items| - 1]] == items;
    }
  }

  /** The elements of a sequence part can be read back when none of them
      holds a comma. */
  lemma SeqTextElements(items: seq<string>)
    requires |items| >= 1 && forall i | 0 <= i < |items| :: ',' !in items[i]
    ensures var t := SeqText(items); StrUtil.Split(t[1..|t| - 1], ',') == items
  {
    WrittenIsJoin("[", items);
    var t := SeqText(items);
    var joined := StrUtil.Join(items, ',');
    assert t == "[" + joined + "]";
    assert t[1..|t| - 1] == joined;
    StrUtil.SplitJoin(items, ',');
  }

  /** A struct part with one field. */
  lemma OneFieldText(key: string, value: string)
    ensures StructText([FieldText(key, value)]) == "{\"" + key + "\":" + value + "}"
  {
  }

  // ---------------------------------------------------------------------
  // `JsonPartSerializer`

  /** `PartSerializerStructState`: whether a field or element was written. */
  datatype StructState = Empty | Rest

  /** `JsonPartSerializer`: the buffer of a struct or sequence part, and
      whether something was written to it. `open` is '{' for a struct and
      '[' for a sequence, and `items` are the fields or elements written. */
  class JsonPartSerializer {
    var buf: string
    var state: StructState
    ghost var open: string
    ghost var items: seq<string>

    ghost predicate Valid()
      reads this
    {
      (state == Empty <==> |items| == 0) && buf == Written(open, items)
    }

    /** `serialize_struct` of the part serializer. */
    constructor ForStruct()
      ensures Valid() && open == "{" && items == []
    {
      buf := "";
      state := Empty;
      open := "{";
      items := [];
    }

    /** `serialize_seq` of the part serializer. */
    constructor ForSeq()
      ensures Valid() && open == "[" && items == []
    {
      buf := "";
      state := Empty;
      open := "[";
      items := [];
    }

    /** `SerializeStruct::serialize_field`: the value's JSON (or its error,
        which leaves everything as it was), then `{"key":value` for the
        first field and `,"key":value` for the later ones. */
    method SerializeField(key: string, value: Result<string, string>) returns (r: Result<(), Error>)
      requires Valid() && open == "{"
      modifies this
      ensures Valid() && open == "{"
      ensures value.Err? ==> r == Err(Json(value.error)) && buf == old(buf) && state == old(state) && items == old(items)
      ensures value.Ok? ==> r == Ok(()) && state == Rest && items == old(items) + [FieldText(key, value.value)]
      ensures value.Ok? ==> buf == old(buf) + (if old(state) == Empty then "{" else ",") + FieldText(key, value.value)
    {
      if value.Err? {
        return Err(Json(value.error));
      }
      var v := value.value;
      if state == Empty {
        state := Rest;
        buf := buf + "{" + "\"" + key + "\":" + v;
      } else {
        buf := buf + ",\"" + key + "\":" + v;
      }
      items := items + [FieldText(key, v)];
      assert items[..|items| - 1] == old(items);
      r := Ok(());
    }

    /** `SerializeStruct::end` as written: with no field written the part
        is the four characters `{{}}`. */
    method EndAsWritten() returns (part: Part)
      requires Valid() && open == "{"
      ensures |items| == 0 ==> part == Text("{{}}")
      ensures |items| > 0 ==> part == Text(StructText(items))
    {
      if state == Empty {
        part := Text("{{}}");
      } else {
        part := Text(buf + "}");
      }
    }

    /** `SerializeStruct::end` as intended: the JSON object of the fields,
        `{}` when there are none. */
    method End() returns (part: Part)
      requires Valid() && open == "{"
      ensures part == Text(StructText(items))
    {
      if state == Empty {
        part := Text("{}");
      } else {
        part := Text(buf + "}");
      }
    }

    /** `SerializeSeq::serialize_element`: `[value` first, `,value` after. */
    method SerializeElement(value: Result<string, string>) returns (r: Result<(), Error>)
      requires Valid() && open == "["
      modifies this
      ensures Valid() && open == "["
      ensures value.Err? ==> r == Err(Json(value.error)) && buf == old(buf) && state == old(state) && items == old(items)
      ensures value.Ok? ==> r == Ok(()) && state == Rest && items == old(items) + [value.value]
      ensures value.Ok? ==> buf == old(buf) + (if old(state) == Empty then "[" else ",") + value.value
    {
      if value.Err? {
        return Err(Json(value.error));
      }
      var v := value.value;
      if state == Empty {
        state := Rest;
        buf := buf + "[" + v;
      } else {
        buf := buf + "," + v;
      }
      items := items + [v];
      assert items[..|items| - 1] == old(items);
      r := Ok(());
    }

    /** `SerializeSeq::end`: `[]` when empty, else the buffer and `]`. */
    method EndSeq() returns (part: Part)
      requires Valid() && open == "["
      ensures part == Text(SeqText(items))
    {
      if state == Empty {
        part := Text("[]");
      } else {
        part := Text(buf + "]");
      }
    }
  }

  /** A struct without fields: the part as written is `{{}}`, not the JSON
      object `{}`. */
  method EmptyStructAsWritten() returns (part: Part)
    ensures part == Text("{{}}") && part != Text(StructText([]))
  {
    var s := new JsonPartSerializer.ForStruct();
    part := s.EndAsWritten();
  }

  // ---------------------------------------------------------------------
  // `PartSerializer`

  /** The JSON texts of the fields, or the first field's error. */
  function FieldTexts(fields: seq<(string, Value)>, json: ToJson): (r: Result<seq<string>, string>)
    ensures r.Ok? ==> |r.value| == |fields|
    decreases |fields|
  {
    if |fields| == 0 then Ok([])
    else
      var last := fields[|fields| - 1];
      match FieldTexts(fields[..|fields| - 1], json)
      case Err(e) => Err(e)
      case Ok(items) =>
        match json(last.1)
        case Err(e) => Err(e)
        case Ok(v) => Ok(items + [FieldText(last.0, v)])
  }

  /** The JSON texts of the elements, or the first element's error. */
  function ElementTexts(elements: seq<Value>, json: ToJson): (r: Result<seq<string>, string>)
    ensures r.Ok? ==> |r.value| == |elements|
    decreases |elements|
  {
    if |elements| == 0 then Ok([])
    else
      match ElementTexts(elements[..|elements| - 1], json)
      case Err(e) => Err(e)
      case Ok(items) =>
        match json(elements[|elements| - 1])
        case Err(e) => Err(e)
        case Ok(v) => Ok(items + [v])
  }

  /** The values the part serializer handles; the others reach an
      `unimplemented!()`. */
  predicate PartSerializable(v: Value) {
    match v
    case NoneValue => false
    case Unit => false
    case UnitStruct(_) => false
    case Compound(_) => false
    case SomeValue(x) => PartSerializable(x)
    case _ => true
  }

  /** `PartSerializer`: scalars become the text of `to_string`, bytes a
      bytes part, `Some(x)` the part of `x`, a unit variant its name, and a
      struct or sequence the JSON text of its fields or elements. */
  function PartOf(v: Value, json: ToJson): (r: Result<Part, Error>)
    requires PartSerializable(v)
    ensures r.Err? ==> r.error.Json? && (v.Struct? || v.Seq? || v.SomeValue?)
    ensures v.SomeValue? ==> r == PartOf(v.inner, json)
    ensures v.Struct? ==> (r.Ok? <==> FieldTexts(v.fields, json).Ok?)
    ensures v.Struct? && r.Ok? ==> r.value == Text(StructText(FieldTexts(v.fields, json).value))
    ensures v.Seq? ==> (r.Ok? <==> ElementTexts(v.elements, json).Ok?)
    ensures v.Seq? && r.Ok? ==> r.value == Text(SeqText(ElementTexts(v.elements, json).value))
  {
    match v
    case Bool(b) => Ok(Text(if b then "true" else "false"))
    case Int(i) => Ok(Text(IntText.IntToString(i)))
    case Char(c) => Ok(Text([c]))
    case Str(s) => Ok(Text(s))
    case Bytes(bytes) => Ok(Binary(bytes))
    case SomeValue(x) => PartOf(x, json)
    case UnitVariant(_, variant) => Ok(Text(variant))
    case Struct(_, fields) =>
      (match FieldTexts(fields, json)
       case Err(e) => Err(Json(e))
       case Ok(items) => Ok(Text(StructText(items))))
    case Seq(elements) =>
      (match ElementTexts(elements, json)
       case Err(e) => Err(Json(e))
       case Ok(items) => Ok(Text(SeqText(items))))
  }

  /** An integer's part, bare or inside `Some`, reads back as the
      integer. */
  lemma IntPartReadsBack(i: int, json: ToJson)
    ensures PartOf(Int(i), json).Ok? && PartOf(Int(i), json).value.Text?
    ensures IntText.ParseInt(PartOf(Int(i), json).value.text) == Some(i)
    ensures PartOf(SomeValue(Int(i)), json) == PartOf(Int(i), json)
  {
    IntText.IntRoundTrip(i);
  }

  /** Scalars: a boolean is `true` or `false`, a character or a string is
      itself, a unit variant is its name. */
  lemma ScalarParts(json: ToJson, b: bool, c: char, s: string, name: string, variant: string)
    ensures PartOf(Bool(b), json) == Ok(Text(if b then "true" else "false"))
    ensures PartOf(Char(c), json) == Ok(Text([c]))
    ensures PartOf(SomeValue(Str(s)), json) == Ok(Text(s))
    ensures PartOf(UnitVariant(name, variant), json) == Ok(Text(variant))
  {
  }

  /** What serde's derived `Serialize` does with a struct field value: it
      opens the JSON part, feeds it the fields in order, stopping at the
      first error, and ends it. The part is the one `PartOf` describes. */
  method SerializeStructPart(name: string, fields: seq<(string, Value)>, json: ToJson) returns (r: Result<Part, Error>)
    ensures r == PartOf(Struct(name, fields), json)
  {
    var s := new JsonPartSerializer.ForStruct();
    for k := 0 to |fields|
      invariant s.Valid() && s.open == "{"
      invariant FieldTexts(fields[..k], json) == Ok(s.items)
    {
      var x := s.SerializeField(fields[k].0, json(fields[k].1));
      assert fields[..k + 1][..k] == fields[..k];
      if x.Err? {
        assert FieldTexts(fields[..k + 1], json).Err?;
        FieldTextsErrorStays(fields, json, k + 1);
        return Err(x.error);
      }
    }
    assert fields[..|fields|] == fields;
    var part := s.End();
    r := Ok(part);
  }

  /** Once a field fails, the whole struct fails with that field's error. */
  lemma {:induction false} FieldTextsErrorStays(fields: seq<(string, Value)>, json: ToJson, k: nat)
    requires k <= |fields| && FieldTexts(fields[..k], json).Err?
    ensures FieldTexts(fields, json) == FieldTexts(fields[..k], json)
    decreases |fields| - k
  {
    if k < |fields| {
      assert fields[..k + 1][..k] == fields[..k];
      FieldTextsErrorStays(fields, json, k + 1);
    } else {
      assert fields[..k] == fields;
    }
  }

  lemma {:induction false} ElementTextsErrorStays(elements: seq<Value>, json: ToJson, k: nat)
    requires k <= |elements| && ElementTexts(elements[..k], json).Err?
    ensures ElementTexts(elements, json) == ElementTexts(elements[..k], json)
    decreases |elements| - k
  {
    if k < |elements| {
      assert elements[..k + 1][..k] == elements[..k];
      ElementTextsErrorStays(elements, json, k + 1);
    } else {
      assert elements[..k] == elements;
    }
  }

  /** The same for a sequence field value. */
  method SerializeSeqPart(elements: seq<Value>, json: ToJson) returns (r: Result<Part, Error>)
    ensures r == PartOf(Seq(elements), json)
  {
    var s := new JsonPartSerializer.ForSeq();
    for k := 0 to |elements|
      invariant s.Valid() && s.open == "["
      invariant ElementTexts(elements[..k], json) == Ok(s.items)
    {
      var x := s.SerializeElement(json(elements[k]));
      assert elements[..k + 1][..k] == elements[..k];
      if x.Err? {
        assert ElementTexts(elements[..k + 1], json).Err?;
        ElementTextsErrorStays(elements, json, k + 1);
        return Err(x.error);
      }
    }
    assert elements[..|elements|] == elements;
    var part := s.EndSeq();
    r := Ok(part);
  }

  // ---------------------------------------------------------------------
  // `MultipartSerializer`

  /** The form's parts, in the order they were added. */
  type Form = seq<(string, Part)>

  /** The parts of a struct's fields, or the first field's error. */
  function FormOf(fields: seq<(string, Value)>, json: ToJson): (r: Result<Form, Error>)
    requires forall i | 0 <= i < |fields| :: PartSerializable(fields[i].1)
    ensures r.Ok? ==> |r.value| == |fields| && forall i | 0 <= i < |fields| :: r.value[i].0 == fields[i].0
    ensures r.Ok? <==> forall i | 0 <= i < |fields| :: PartOf(fields[i].1, json).Ok?
    decreases |fields|
  {
    if |fields| == 0 then Ok([])
    else
      var init, last := fields[..|fields| - 1], fields[|fields| - 1];
      match FormOf(init, json)
      case Err(e) => Err(e)
      case Ok(form) =>
        match PartOf(last.1, json)
        case Err(e) => Err(e)
        case Ok(part) => Ok(form + [(last.0, part)])
  }

  /** `MultipartSerializer`: only a struct is accepted at the top level,
      and each of its fields becomes a part named by its key. */
  function Multipart(v: Value, json: ToJson): (r: Result<Form, Error>)
    requires v.Struct? ==> forall i | 0 <= i < |v.fields| :: PartSerializable(v.fields[i].1)
    ensures !v.Struct? ==> r == Err(TopLevel(v))
    ensures v.Struct? ==> r == FormOf(v.fields, json)
  {
    if v.Struct? then FormOf(v.fields, json) else Err(TopLevel(v))
  }

  /** Nothing but a struct is accepted at the top level. */
  lemma TopLevelOnlyStruct(v: Value, json: ToJson)
    requires v.Struct? ==> forall i | 0 <= i < |v.fields| :: PartSerializable(v.fields[i].1)
    ensures Multipart(v, json).Ok? ==> v.Struct?
    ensures v.Int? || v.Str? || v.Seq? || v.SomeValue? ==> Multipart(v, json) == Err(TopLevel(v))
  {
  }

  /** The serializer's form, added to one field at a time. */
  class MultipartSerializer {
    var form: Form

    constructor()
      ensures form == []
    {
      form := [];
    }

    /** `SerializeStruct::serialize_field`: the value's part, added under the
        key; an error leaves the form as it was. */
    method SerializeField(key: string, value: Value, json: ToJson) returns (r: Result<(), Error>)
      requires PartSerializable(value)
      modifies this
      ensures PartOf(value, json).Err? ==> r == Err(PartOf(value, json).error) && form == old(form)
      ensures PartOf(value, json).Ok? ==> r == Ok(()) && form == old(form) + [(key, PartOf(value, json).value)]
    {
      var part := PartOf(value, json);
      if part.Err? {
        return Err(part.error);
      }
      form := form + [(key, part.value)];
      r := Ok(());
    }
  }

  lemma {:induction false} FormOfErrorStays(fields: seq<(string, Value)>, json: ToJson, k: nat)
    requires forall i | 0 <= i < |fields| :: PartSerializable(fields[i].1)
    requires k <= |fields| && FormOf(fields[..k], json).Err?
    ensures FormOf(fields, json) == FormOf(fields[..k], json)
    decreases |fields| - k
  {
    if k < |fields| {
      assert fields[..k + 1][..k] == fields[..k];
      FormOfErrorStays(fields, json, k + 1);
    } else {
      assert fields[..k] == fields;
    }
  }

  /** One more field: its part added to the form, or its error. */
  lemma FormOfStep(fields: seq<(string, Value)>, json: ToJson, k: nat)
    requires forall i | 0 <= i < |fields| :: PartSerializable(fields[i].1)
    requires k < |fields| && FormOf(fields[..k], json).Ok?
    ensures PartOf(fields[k].1, json).Err? ==> FormOf(fields[..k + 1], json) == Err(PartOf(fields[k].1, json).error)
    ensures PartOf(fields[k].1, json).Ok? ==>
      FormOf(fields[..k + 1], json) == Ok(FormOf(fields[..k], json).value + [(fields[k].0, PartOf(fields[k].1, json).value)])
  {
    assert fields[..k + 1][..k] == fields[..k];
  }

  /** A whole request: a struct is fed to the serializer field by field; any
      other value is refused at the top. */
  method Serialize(v: Value, json: ToJson) returns (r: Result<Form, Error>)
    requires v.Struct? ==> forall i | 0 <= i < |v.fields| :: PartSerializable(v.fields[i].1)
    ensures r == Multipart(v, json)
  {
    if !v.Struct? {
      return Err(TopLevel(v));
    }
    var fields := v.fields;
    var s := new MultipartSerializer();
    for k := 0 to |fields|
      invariant FormOf(fields[..k], json) == Ok(s.form)
    {
      var x := s.SerializeField(fields[k].0, fields[k].1, json);
      FormOfStep(fields, json, k);
      if x.Err? {
        FormOfErrorStays(fields, json, k + 1);
        return Err(x.error);
      }
    }
    assert fields[..|fields|] == fields;
    r := Ok(s.form);
  }
}
