// The Redis FSM storage backend (src/fsm/storage/redis.rs). The Redis server
// is modelled as two in-memory maps: the lists that hold the state stacks and
// the strings that hold each key's data as JSON text. JSON encoding is a
// parameter (`JsonCodec`), and so are the conversions of single values to and
// from JSON values, which may fail. Connecting to the server is left out.
module FsmRedis {
  import opened Wrappers
  import IntText

  const DEFAULT_PREFIX: string := "fsm"
  const DEFAULT_SEPARATOR: string := ":"

  /** The storage key these backends are written against: the ids, an
      optional forum-topic thread id, and the destiny. */
  datatype StorageKey = StorageKey(botId: int, chatId: int, userId: int, messageThreadId: Option<int>, destiny: string)

  datatype Part = States | Data

  /** `Part::as_str` */
  function PartName(p: Part): (s: string)
    ensures p.States? ==> s == "states"
    ensures p.Data? ==> s == "data"
  {
    match p
    case States => "states"
    case Data => "data"
  }

  datatype DefaultKeyBuilder = DefaultKeyBuilder(prefix: string, separator: string, withBotId: bool, withDestiny: bool)

  /** `DefaultKeyBuilder::default` */
  function DefaultBuilder(): (b: DefaultKeyBuilder)
    ensures b.prefix == "fsm" && b.separator == ":" && b.withBotId && b.withDestiny
  {
    DefaultKeyBuilder(DEFAULT_PREFIX, DEFAULT_SEPARATOR, true, true)
  }

  /** `[T]::join` for strings. */
  function Join(parts: seq<string>, sep: string): string {
    if |parts| == 0 then ""
    else if |parts| == 1 then parts[0]
    else parts[0] + sep + Join(parts[1..], sep)
  }

  /** The segments `build` pushes, in order. */
  function Segments(b: DefaultKeyBuilder, key: StorageKey, part: Part): seq<string> {
    [b.prefix]
    + (if b.withDestiny then [key.destiny] else [])
    + (if b.withBotId then [IntText.IntToString(key.botId)] else [])
    + [IntText.IntToString(key.chatId)]
    + (if key.messageThreadId.Some? then [IntText.IntToString(key.messageThreadId.value)] else [])
    + [IntText.IntToString(key.userId)]
    + [PartName(part)]
  }

  /** `KeyBuilder::build` */
  function Build(b: DefaultKeyBuilder, key: StorageKey, part: Part): string {
    Join(Segments(b, key, part), b.separator)
  }

  lemma {:induction false} JoinSnoc(parts: seq<string>, x: string, sep: string)
    requires |parts| >= 1
    ensures Join(parts + [x], sep) == Join(parts, sep) + sep + x
    decreases |parts|
  {
    if |parts| == 1 {
      assert parts + [x] == [parts[0], x];
    } else {
      assert (parts + [x])[1..] == parts[1..] + [x];
      JoinSnoc(parts[1..], x, sep);
    }
  }

  /** The States key and the Data key of one storage key share everything but
      the last segment. */
  lemma BuildShape(b: DefaultKeyBuilder, key: StorageKey)
    ensures var s := Segments(b, key, States);
      Build(b, key, States) == Join(s[..|s| - 1], b.separator) + b.separator + "states" &&
      Build(b, key, Data) == Join(s[..|s| - 1], b.separator) + b.separator + "data"
  {
    var s := Segments(b, key, States);
    var d := Segments(b, key, Data);
    assert s == s[..|s| - 1] + ["states"];
    assert d == s[..|s| - 1] + ["data"];
    JoinSnoc(s[..|s| - 1], "states", b.separator);
    JoinSnoc(s[..|s| - 1], "data", b.separator);
  }

  /** A States key never equals a Data key, so state lists and data strings
      never share a Redis key. */
  lemma StatesAndDataKeysDiffer(b: DefaultKeyBuilder, k1: StorageKey, k2: StorageKey)
    ensures Build(b, k1, States) != Build(b, k2, Data)
  {
    BuildShape(b, k1);
    BuildShape(b, k2);
    var x := Build(b, k1, States);
    var y := Build(b, k2, Data);
    assert x[|x| - 1] == 's' && y[|y| - 1] == 'a';
  }

  predicate NoChar(c: char, s: string) {
    forall i :: 0 <= i < |s| ==> s[i] != c
  }

  lemma {:induction false} JoinPrefix(parts: seq<string>, sep: string)
    requires |parts| >= 2
    ensures Join(parts, sep) == parts[0] + sep + Join(parts[1..], sep)
  {
  }

  /** A joined string starts with the first segment, followed by the
      separator when more segments follow. */
  lemma JoinStart(parts: seq<string>, sep: string)
    ensures |parts| >= 1 ==> (|Join(parts, sep)| >= |parts[0]| &&
      forall i :: 0 <= i < |parts[0]| ==> Join(parts, sep)[i] == parts[0][i])
    ensures |parts| >= 2 && sep != [] ==> |Join(parts, sep)| > |parts[0]| && Join(parts, sep)[|parts[0]|] == sep[0]
  {
  }

  /** Joining segments that do not contain the separator's first character
      loses no information. */
  lemma {:induction false} JoinInjective(a: seq<string>, b: seq<string>, sep: string)
    requires sep != [] && |a| >= 1 && |b| >= 1
    requires forall i :: 0 <= i < |a| ==> NoChar(sep[0], a[i])
    requires forall i :: 0 <= i < |b| ==> NoChar(sep[0], b[i])
    requires Join(a, sep) == Join(b, sep)
    ensures a == b
    decreases |a|
  {
    var x := Join(a, sep);
    if |a| == 1 && |b| == 1 {
    } else if |a| == 1 {
      JoinStart(b, sep);
      assert false;
    } else if |b| == 1 {
      JoinStart(a, sep);
      assert false;
    } else {
      JoinPrefix(a, sep);
      JoinPrefix(b, sep);
      JoinStart(a, sep);
      JoinStart(b, sep);
      if |a[0]| < |b[0]| {
        assert false;
      } else if |b[0]| < |a[0]| {
        assert false;
      } else {
        assert a[0] == x[..|a[0]|] == b[0];
        var n := |a[0]| + |sep|;
        assert Join(a[1..], sep) == x[n..] == Join(b[1..], sep);
        JoinInjective(a[1..], b[1..], sep);
        assert a == [a[0]] + a[1..] && b == [b[0]] + b[1..];
      }
    }
  }

  /** The separator's first character appears in no id, no part name, the
      prefix, or the given destinies. */
  predicate SeparatorIsSafe(b: DefaultKeyBuilder, destinies: set<string>) {
    && b.separator != []
    && !IntText.IsDigit(b.separator[0]) && b.separator[0] != '-'
    && NoChar(b.separator[0], b.prefix)
    && NoChar(b.separator[0], "states") && NoChar(b.separator[0], "data")
    && forall d :: d in destinies ==> NoChar(b.separator[0], d)
  }

  lemma IntSegment(c: char, i: int)
    requires !IntText.IsDigit(c) && c != '-'
    ensures NoChar(c, IntText.IntToString(i))
  {
  }

  /** Where each field lands among the segments. */
  lemma SegmentsLayout(b: DefaultKeyBuilder, key: StorageKey, part: Part)
    ensures var s := Segments(b, key, part);
      var o := (if b.withDestiny then 1 else 0) + (if b.withBotId then 1 else 0);
      var t := if key.messageThreadId.Some? then 1 else 0;
      |s| == 4 + o + t && s[0] == b.prefix &&
      s[1 + o] == IntText.IntToString(key.chatId) &&
      s[|s| - 2] == IntText.IntToString(key.userId) && s[|s| - 1] == PartName(part) &&
      (key.messageThreadId.Some? ==> s[2 + o] == IntText.IntToString(key.messageThreadId.value)) &&
      (b.withDestiny ==> s[1] == key.destiny) &&
      (b.withBotId ==> s[o] == IntText.IntToString(key.botId))
  {
  }

  /** Every segment is free of the separator's first character. */
  lemma SegmentsAvoidSeparator(b: DefaultKeyBuilder, key: StorageKey, part: Part)
    requires SeparatorIsSafe(b, {key.destiny})
    ensures var s := Segments(b, key, part);
      forall i :: 0 <= i < |s| ==> NoChar(b.separator[0], s[i])
  {
    var c := b.separator[0];
    IntSegment(c, key.botId);
    IntSegment(c, key.chatId);
    IntSegment(c, key.userId);
    if key.messageThreadId.Some? { IntSegment(c, key.messageThreadId.value); }
    assert NoChar(c, PartName(part));
  }

  /** Two storage keys share a Redis key only if they agree on every field
      the builder writes: the part, chat, thread and user always, the bot id
      when it is included and the destiny when it is included. */
  lemma BuildInjective(b: DefaultKeyBuilder, k1: StorageKey, k2: StorageKey, p1: Part, p2: Part)
    requires SeparatorIsSafe(b, {k1.destiny, k2.destiny})
    requires Build(b, k1, p1) == Build(b, k2, p2)
    ensures p1 == p2
    ensures k1.chatId == k2.chatId && k1.userId == k2.userId && k1.messageThreadId == k2.messageThreadId
    ensures b.withBotId ==> k1.botId == k2.botId
    ensures b.withDestiny ==> k1.destiny == k2.destiny
  {
    var s1 := Segments(b, k1, p1);
    var s2 := Segments(b, k2, p2);
    SegmentsAvoidSeparator(b, k1, p1);
    SegmentsAvoidSeparator(b, k2, p2);
    JoinInjective(s1, s2, b.separator);
    SegmentsLayout(b, k1, p1);
    SegmentsLayout(b, k2, p2);
    var o := (if b.withDestiny then 1 else 0) + (if b.withBotId then 1 else 0);
    IntText.IntToStringInjective(k1.chatId, k2.chatId);
    IntText.IntToStringInjective(k1.userId, k2.userId);
    if k1.messageThreadId.Some? {
      IntText.IntToStringInjective(k1.messageThreadId.value, k2.messageThreadId.value);
    }
    if b.withBotId {
      IntText.IntToStringInjective(k1.botId, k2.botId);
    }
  }

  /** `serde_json`'s text form of a JSON object, with the round trip it keeps. */
  datatype JsonCodec<!J> = JsonCodec(encode: map<string, J> -> string, decode: string -> Option<map<string, J>>)

  datatype Error =
    | SerializeData      // "Failed to serialize data"
    | DeserializeData    // "Failed to deserialize data"
    | ToJsonValue        // "Failed to convert value to `serde_json::Value`"
    | FromJsonValue      // "Failed to convert `serde_json::Value` to value"

  function Top(states: seq<string>): Option<string> {
    if |states| == 0 then None else Some(states[|states| - 1])
  }

  /** The Redis list at `k`; a missing list reads as empty. */
  function ListIn(lists: map<string, seq<string>>, k: string): seq<string> {
    if k in lists then lists[k] else []
  }

  /** Redis keeps no empty list: it drops a list whose last element is
      popped. */
  predicate NoEmptyLists(lists: map<string, seq<string>>) {
    forall k | k in lists :: |lists[k]| > 0
  }

  /** RPUSH of `state` onto the list at `k`. */
  function Pushed(lists: map<string, seq<string>>, k: string, state: string): map<string, seq<string>> {
    lists[k := ListIn(lists, k) + [state]]
  }

  /** RPOP from the list at `k`: nothing happens to a missing list, and a
      list that loses its last element is dropped. */
  function Popped(lists: map<string, seq<string>>, k: string): map<string, seq<string>> {
    var l := ListIn(lists, k);
    if |l| == 0 then lists
    else if |l| == 1 then lists - {k}
    else lists[k := l[..|l| - 1]]
  }

  predicate AllConvert<V, J>(data: map<string, V>, toJson: V -> Option<J>) {
    forall k :: k in data ==> toJson(data[k]).Some?
  }

  function Converted<V, J>(data: map<string, V>, toJson: V -> Option<J>): map<string, J>
    requires AllConvert(data, toJson)
  {
    map k | k in data :: toJson(data[k]).value
  }

  /** What `get_data` makes of the stored text, if any. */
  function ReadData<V, J>(codec: JsonCodec<J>, stored: Option<string>, fromJson: J -> Option<V>): Result<map<string, V>, Error> {
    if stored.None? then Ok(map[])
    else
      var parsed := codec.decode(stored.value);
      if parsed.None? then Err(DeserializeData)
      else if forall k :: k in parsed.value ==> fromJson(parsed.value[k]).Some? then
        Ok(map k | k in parsed.value :: fromJson(parsed.value[k]).value)
      else Err(DeserializeData)
  }

  /** What `get_value` makes of the stored text, if any. */
  function ReadValue<V, J>(codec: JsonCodec<J>, stored: Option<string>, valueKey: string, fromJson: J -> Option<V>): Result<Option<V>, Error> {
    if stored.None? then Ok(None)
    else
      var parsed := codec.decode(stored.value);
      if parsed.None? then Err(DeserializeData)
      else if valueKey !in parsed.value then Ok(None)
      else
        var v := fromJson(parsed.value[valueKey]);
        if v.Some? then Ok(Some(v.value)) else Err(FromJsonValue)
  }

  class Redis<J> {
    /** Redis lists (RPUSH/RPOP/LINDEX/LRANGE); Redis drops a list that becomes empty. */
    var lists: map<string, seq<string>>
    /** Redis strings (GET/SET). */
    var strings: map<string, string>
    var keyBuilder: DefaultKeyBuilder
    const codec: JsonCodec<J>

    function ListAt(k: string): seq<string>
      reads this
    {
      ListIn(lists, k)
    }

    function StringAt(k: string): Option<string>
      reads this
    {
      if k in strings then Some(strings[k]) else None
    }

    /** `Redis::new`: the default key builder, over the server's contents. */
    constructor (lists0: map<string, seq<string>>, strings0: map<string, string>, codec: JsonCodec<J>)
      ensures keyBuilder == DefaultBuilder()
      ensures lists == lists0 && strings == strings0 && this.codec == codec
    {
      lists := lists0;
      strings := strings0;
      keyBuilder := DefaultBuilder();
      this.codec := codec;
    }

    /** `Redis::key_builder` */
    method SetKeyBuilder(b: DefaultKeyBuilder)
      modifies this
      ensures keyBuilder == b && lists == old(lists) && strings == old(strings)
    {
      keyBuilder := b;
    }

    /** `set_state`: RPUSH onto the States list. */
    method SetState(key: StorageKey, state: string)
      modifies this
      ensures lists == Pushed(old(lists), Build(old(keyBuilder), key, States), state)
      ensures strings == old(strings) && keyBuilder == old(keyBuilder)
    {
      var k := Build(keyBuilder, key, States);
      lists := lists[k := ListAt(k) + [state]];
    }

    /** `set_previous_state`: RPOP from the States list. */
    method SetPreviousState(key: StorageKey)
      modifies this
      ensures lists == Popped(old(lists), Build(old(keyBuilder), key, States))
      ensures strings == old(strings) && keyBuilder == old(keyBuilder)
    {
      var k := Build(keyBuilder, key, States);
      var l := ListAt(k);
      if |l| == 1 {
        lists := lists - {k};
      } else if |l| > 1 {
        lists := lists[k := l[..|l| - 1]];
      }
    }

    /** `get_state`: LINDEX -1, the last pushed state. */
    method GetState(key: StorageKey) returns (r: Option<string>)
      ensures r == Top(ListAt(Build(keyBuilder, key, States)))
    {
      var l := ListAt(Build(keyBuilder, key, States));
      if |l| == 0 {
        r := None;
      } else {
        r := Some(l[|l| - 1]);
      }
    }

    /** `get_states`: LRANGE 0 -1, every state in push order. */
    method GetStates(key: StorageKey) returns (r: seq<string>)
      ensures Build(keyBuilder, key, States) in lists ==> r == lists[Build(keyBuilder, key, States)]
      ensures Build(keyBuilder, key, States) !in lists ==> r == []
    {
      r := ListAt(Build(keyBuilder, key, States));
    }

    /** `remove_states`: DEL of the States list. */
    method RemoveStates(key: StorageKey)
      modifies this
      ensures lists == old(lists) - {Build(old(keyBuilder), key, States)}
      ensures strings == old(strings) && keyBuilder == old(keyBuilder)
    {
      lists := lists - {Build(keyBuilder, key, States)};
    }

    /** `set_data`: the whole map is written as one JSON text; a value that
        cannot be converted fails before anything is written. */
    method SetData<V>(key: StorageKey, data: map<string, V>, toJson: V -> Option<J>) returns (r: Result<(), Error>)
      modifies this
      ensures r.Ok? <==> AllConvert(data, toJson)
      ensures r.Ok? ==> strings == old(strings)[Build(old(keyBuilder), key, Data) := codec.encode(Converted(data, toJson))]
      ensures r.Err? ==> r.error == SerializeData && strings == old(strings)
      ensures lists == old(lists) && keyBuilder == old(keyBuilder)
    {
      var k := Build(keyBuilder, key, Data);
      if !AllConvert(data, toJson) {
        return Err(SerializeData);
      }
      strings := strings[k := codec.encode(Converted(data, toJson))];
      r := Ok(());
    }

    /** `set_value`: GET the stored map (or start from an empty one), insert
        the value, and SET the whole map back. */
    method SetValue<V>(key: StorageKey, valueKey: string, value: V, toJson: V -> Option<J>) returns (r: Result<(), Error>)
      modifies this
      ensures var k := Build(old(keyBuilder), key, Data);
        var stored := old(StringAt(k));
        var parsed := if stored.Some? then codec.decode(stored.value) else Some(map[]);
        if parsed.None? then r == Err(DeserializeData) && strings == old(strings)
        else if toJson(value).None? then r == Err(ToJsonValue) && strings == old(strings)
        else r == Ok(()) && strings == old(strings)[k := codec.encode(parsed.value[valueKey := toJson(value).value])]
      ensures lists == old(lists) && keyBuilder == old(keyBuilder)
    {
      var k := Build(keyBuilder, key, Data);
      var data: map<string, J>;
      if k in strings {
        var parsed := codec.decode(strings[k]);
        if parsed.None? {
          return Err(DeserializeData);
        }
        data := parsed.value;
      } else {
        data := map[];
      }
      var converted := toJson(value);
      if converted.None? {
        return Err(ToJsonValue);
      }
      data := data[valueKey := converted.value];
      strings := strings[k := codec.encode(data)];
      r := Ok(());
    }

    /** `get_data`: GET and parse; no stored text gives the empty map. */
    method GetData<V>(key: StorageKey, fromJson: J -> Option<V>) returns (r: Result<map<string, V>, Error>)
      ensures r == ReadData(codec, StringAt(Build(keyBuilder, key, Data)), fromJson)
      ensures StringAt(Build(keyBuilder, key, Data)).None? ==> r == Ok(map[])
    {
      r := ReadData(codec, StringAt(Build(keyBuilder, key, Data)), fromJson);
    }

    /** `get_value`: None when no data is stored or the value key is absent. */
    method GetValue<V>(key: StorageKey, valueKey: string, fromJson: J -> Option<V>) returns (r: Result<Option<V>, Error>)
      ensures r == ReadValue(codec, StringAt(Build(keyBuilder, key, Data)), valueKey, fromJson)
      ensures StringAt(Build(keyBuilder, key, Data)).None? ==> r == Ok(None)
    {
      r := ReadValue(codec, StringAt(Build(keyBuilder, key, Data)), valueKey, fromJson);
    }

    /** `remove_data`: DEL of the Data string. */
    method RemoveData(key: StorageKey)
      modifies this
      ensures strings == old(strings) - {Build(old(keyBuilder), key, Data)}
      ensures lists == old(lists) && keyBuilder == old(keyBuilder)
    {
      strings := strings - {Build(keyBuilder, key, Data)};
    }
  }

  /** The States lists behave as stacks: after `set_state` the list at the
      key is the old one with the state on top, so `get_state` reads it
      back; `set_previous_state` then restores every list as it was; no
      other key's list changes; and Redis's rule that no list is empty is
      kept by both. */
  lemma StatesAreAStack(lists: map<string, seq<string>>, k: string, state: string)
    ensures ListIn(Pushed(lists, k, state), k) == ListIn(lists, k) + [state]
    ensures Top(ListIn(Pushed(lists, k, state), k)) == Some(state)
    ensures forall other | other != k :: ListIn(Pushed(lists, k, state), other) == ListIn(lists, other)
    ensures forall other | other != k :: ListIn(Popped(lists, k), other) == ListIn(lists, other)
    ensures NoEmptyLists(lists) ==> NoEmptyLists(Pushed(lists, k, state)) && NoEmptyLists(Popped(lists, k))
    ensures NoEmptyLists(lists) ==> Popped(Pushed(lists, k, state), k) == lists
    ensures Top(ListIn(lists - {k}, k)) == None
  {
    var l := ListIn(lists, k);
    var pushed := Pushed(lists, k, state);
    assert ListIn(pushed, k) == l + [state];
    if NoEmptyLists(lists) {
      if |l| == 0 {
        assert k !in lists;
        assert Popped(pushed, k) == pushed - {k};
        assert pushed - {k} == lists;
      } else {
        assert (l + [state])[..|l|] == l;
        assert Popped(pushed, k) == lists[k := l];
        assert lists[k := l] == lists;
      }
    }
  }

  /** The same on a storage: `set_state`, then `get_state` gives the state
      set, and `set_previous_state` then leaves the server's lists as they
      were, whatever the key builder. */
  method SetGetPrevious<J>(r: Redis<J>, key: StorageKey, state: string) returns (read: Option<string>)
    requires NoEmptyLists(r.lists)
    modifies r
    ensures read == Some(state)
    ensures r.lists == old(r.lists) && r.strings == old(r.strings) && r.keyBuilder == old(r.keyBuilder)
  {
    r.SetState(key, state);
    read := r.GetState(key);
    r.SetPreviousState(key);
    StatesAreAStack(old(r.lists), Build(r.keyBuilder, key, States), state);
  }

  /** With a JSON codec that reads back the object it wrote, `get_value`
      after a successful `set_value` returns the value, and every other value
      key reads as before. */
  lemma SetValueThenGetValue<V, J>(codec: JsonCodec<J>, data: map<string, J>, vk: string, other: string,
                                   v: V, toJson: V -> Option<J>, fromJson: J -> Option<V>)
    requires toJson(v).Some? && fromJson(toJson(v).value) == Some(v)
    requires codec.decode(codec.encode(data[vk := toJson(v).value])) == Some(data[vk := toJson(v).value])
    requires other != vk
    ensures ReadValue(codec, Some(codec.encode(data[vk := toJson(v).value])), vk, fromJson) == Ok(Some(v))
    ensures ReadValue(codec, Some(codec.encode(data[vk := toJson(v).value])), other, fromJson)
            == (if other in data then (var w := fromJson(data[other]); if w.Some? then Ok(Some(w.value)) else Err(FromJsonValue)) else Ok(None))
  {
  }

  /** With a round-tripping codec and value conversions, `get_data` after a
      successful `set_data` returns the data that was set. */
  lemma SetDataThenGetData<V, J>(codec: JsonCodec<J>, data: map<string, V>, toJson: V -> Option<J>, fromJson: J -> Option<V>)
    requires AllConvert(data, toJson)
    requires forall k :: k in data ==> fromJson(toJson(data[k]).value) == Some(data[k])
    requires codec.decode(codec.encode(Converted(data, toJson))) == Some(Converted(data, toJson))
    ensures ReadData(codec, Some(codec.encode(Converted(data, toJson))), fromJson) == Ok(data)
  {
    var c := Converted(data, toJson);
    assert forall k :: k in c ==> fromJson(c[k]) == Some(data[k]);
    assert (map k | k in c :: fromJson(c[k]).value) == data;
  }
}
