// The in-memory FSM storage backend (src/fsm/storage/memory.rs): one record per
// storage key, holding a stack of states and a map of serialized values.
// Serialization (bincode) is a parameter that may fail; the mutex around the
// map is left out, since every operation here is one sequential step.
module FsmMemory {
  import opened Wrappers

  type Bytes = seq<bv8>

  datatype Record = Record(states: seq<string>, data: map<string, Bytes>)

  /** "Failed to serialize value" / "Failed to deserialize value" */
  datatype Error = SerializeError | DeserializeError

  // ---------------------------------------------------------------------
  // The storage map as a value, and what each operation makes of it.
  // ---------------------------------------------------------------------

  function StatesOf<K>(m: map<K, Record>, key: K): seq<string> {
    if key in m then m[key].states else []
  }

  function DataOf<K>(m: map<K, Record>, key: K): map<string, Bytes> {
    if key in m then m[key].data else map[]
  }

  function Top(states: seq<string>): Option<string> {
    if |states| == 0 then None else Some(states[|states| - 1])
  }

  function WithStates<K>(m: map<K, Record>, key: K, states: seq<string>): map<K, Record> {
    m[key := Record(states, DataOf(m, key))]
  }

  function WithData<K>(m: map<K, Record>, key: K, data: map<string, Bytes>): map<K, Record> {
    m[key := Record(StatesOf(m, key), data)]
  }

  predicate AllSerialize<V>(data: map<string, V>, serialize: V -> Option<Bytes>) {
    forall k :: k in data ==> serialize(data[k]).Some?
  }

  function Serialized<V>(data: map<string, V>, serialize: V -> Option<Bytes>): map<string, Bytes>
    requires AllSerialize(data, serialize)
  {
    map k | k in data :: serialize(data[k]).value
  }

  /** Deserializes every stored value, failing if any of them fails. */
  function Deserialized<V>(data: map<string, Bytes>, deserialize: Bytes -> Option<V>): Result<map<string, V>, Error> {
    if forall k :: k in data ==> deserialize(data[k]).Some? then
      Ok(map k | k in data :: deserialize(data[k]).value)
    else Err(DeserializeError)
  }

  // ---------------------------------------------------------------------
  // The storage object.
  // ---------------------------------------------------------------------

  class Memory<K(==)> {
    var storage: map<K, Record>

    constructor ()
      ensures storage == map[]
    {
      storage := map[];
    }

    /** `set_state`: pushes onto the key's stack, creating an empty-data record. */
    method SetState(key: K, state: string)
      modifies this
      ensures storage == WithStates(old(storage), key, StatesOf(old(storage), key) + [state])
    {
      if key in storage {
        var record := storage[key];
        storage := storage[key := record.(states := record.states + [state])];
      } else {
        storage := storage[key := Record([state], map[])];
        assert StatesOf(old(storage), key) + [state] == [state];
      }
    }

    /** `previous_state`: pops one state; a missing key changes nothing. */
    method PreviousState(key: K)
      modifies this
      ensures key !in old(storage) ==> storage == old(storage)
      ensures key in old(storage) ==>
        var s := old(storage)[key].states;
        storage == WithStates(old(storage), key, if |s| == 0 then s else s[..|s| - 1])
    {
      if key in storage {
        var record := storage[key];
        var s := record.states;
        if |s| > 0 {
          storage := storage[key := record.(states := s[..|s| - 1])];
        } else {
          storage := storage[key := record];
        }
      }
    }

    /** `get_state`: the top of the stack, or None. */
    method GetState(key: K) returns (r: Option<string>)
      ensures r == Top(StatesOf(storage, key))
      ensures r.None? <==> (key !in storage || storage[key].states == [])
    {
      if key in storage && |storage[key].states| > 0 {
        var s := storage[key].states;
        r := Some(s[|s| - 1]);
      } else {
        r := None;
      }
    }

    /** `get_states`: the whole stack in push order, or empty. */
    method GetStates(key: K) returns (r: seq<string>)
      ensures key in storage ==> r == storage[key].states
      ensures key !in storage ==> r == []
    {
      if key in storage {
        r := storage[key].states;
      } else {
        r := [];
      }
    }

    /** `remove_states`: empties the stack of an existing record. */
    method RemoveStates(key: K)
      modifies this
      ensures key !in old(storage) ==> storage == old(storage)
      ensures key in old(storage) ==> storage == WithStates(old(storage), key, [])
    {
      if key in storage {
        storage := storage[key := storage[key].(states := [])];
      }
    }

    /** `set_data`: serializes every value, then replaces the key's data
        wholesale; any failure returns before the map is touched. */
    method SetData<V>(key: K, data: map<string, V>, serialize: V -> Option<Bytes>) returns (r: Result<(), Error>)
      modifies this
      ensures r.Ok? <==> AllSerialize(data, serialize)
      ensures r.Ok? ==> storage == WithData(old(storage), key, Serialized(data, serialize))
      ensures r.Err? ==> storage == old(storage) && r.error == SerializeError
    {
      if |data| == 0 {
        if key in storage {
          storage := storage[key := storage[key].(data := map[])];
        } else {
          storage := storage[key := Record([], map[])];
        }
        return Ok(());
      }
      var newData: map<string, Bytes> := map[];
      var rest := data.Keys;
      while rest != {}
        invariant rest <= data.Keys
        invariant newData.Keys == data.Keys - rest
        invariant forall k :: k in newData ==> serialize(data[k]) == Some(newData[k])
        decreases |rest|
      {
        var k :| k in rest;
        var encoded := serialize(data[k]);
        if encoded.None? {
          return Err(SerializeError);
        }
        newData := newData[k := encoded.value];
        rest := rest - {k};
      }
      assert newData == Serialized(data, serialize);
      if key in storage {
        storage := storage[key := storage[key].(data := newData)];
      } else {
        storage := storage[key := Record([], newData)];
      }
      r := Ok(());
    }

    /** `set_value`: inserts or overwrites one value; a serialization
        failure leaves the storage as it was. */
    method SetValue<V>(key: K, valueKey: string, value: V, serialize: V -> Option<Bytes>) returns (r: Result<(), Error>)
      modifies this
      ensures r.Ok? <==> serialize(value).Some?
      ensures r.Ok? ==> storage == WithData(old(storage), key, DataOf(old(storage), key)[valueKey := serialize(value).value])
      ensures r.Err? ==> storage == old(storage)
    {
      var encoded := serialize(value);
      if encoded.None? {
        return Err(SerializeError);
      }
      if key in storage {
        var record := storage[key];
        storage := storage[key := record.(data := record.data[valueKey := encoded.value])];
      } else {
        storage := storage[key := Record([], map[valueKey := encoded.value])];
      }
      r := Ok(());
    }

    /** `get_data`: deserializes every stored value of the key; an absent
        key gives the empty map. */
    method GetData<V>(key: K, deserialize: Bytes -> Option<V>) returns (r: Result<map<string, V>, Error>)
      ensures r == Deserialized(DataOf(storage, key), deserialize)
    {
      if key !in storage {
        return Ok(map[]);
      }
      var stored := storage[key].data;
      var data: map<string, V> := map[];
      var rest := stored.Keys;
      while rest != {}
        invariant rest <= stored.Keys
        invariant data.Keys == stored.Keys - rest
        invariant forall k :: k in data ==> deserialize(stored[k]) == Some(data[k])
        decreases |rest|
      {
        var k :| k in rest;
        var decoded := deserialize(stored[k]);
        if decoded.None? {
          return Err(DeserializeError);
        }
        data := data[k := decoded.value];
        rest := rest - {k};
      }
      assert data == map k | k in stored :: deserialize(stored[k]).value;
      r := Ok(data);
    }

    /** `get_value`: None when the key or the value key is absent. */
    method GetValue<V>(key: K, valueKey: string, deserialize: Bytes -> Option<V>) returns (r: Result<Option<V>, Error>)
      ensures valueKey !in DataOf(storage, key) ==> r == Ok(None)
      ensures valueKey in DataOf(storage, key) ==>
        r == (var d := deserialize(DataOf(storage, key)[valueKey]); if d.Some? then Ok(Some(d.value)) else Err(DeserializeError))
    {
      if key in storage && valueKey in storage[key].data {
        var decoded := deserialize(storage[key].data[valueKey]);
        if decoded.Some? {
          r := Ok(Some(decoded.value));
        } else {
          r := Err(DeserializeError);
        }
      } else {
        r := Ok(None);
      }
    }

    /** `remove_data`: clears the data of an existing record only. */
    method RemoveData(key: K)
      modifies this
      ensures key !in old(storage) ==> storage == old(storage)
      ensures key in old(storage) ==> storage == WithData(old(storage), key, map[])
    {
      if key in storage {
        storage := storage[key := storage[key].(data := map[])];
      }
    }
  }

  // ---------------------------------------------------------------------
  // Properties of the operations.
  // ---------------------------------------------------------------------

  /** After `set_state` the key's current state is the one just set, and
      `previous_state` then restores the stack that was there before. */
  lemma SetStateThenPrevious<K>(m: map<K, Record>, key: K, state: string)
    ensures var m1 := WithStates(m, key, StatesOf(m, key) + [state]);
      Top(StatesOf(m1, key)) == Some(state) &&
      StatesOf(m1, key) == StatesOf(m, key) + [state] &&
      var s := StatesOf(m1, key);
      StatesOf(WithStates(m1, key, s[..|s| - 1]), key) == StatesOf(m, key)
  {
  }

  /** Updating one key's states or data leaves every other key's record
      untouched, and the other half of the same record untouched. */
  lemma Frame<K>(m: map<K, Record>, key: K, other: K, states: seq<string>, data: map<string, Bytes>)
    requires other != key
    ensures other in WithStates(m, key, states) <==> other in m
    ensures other in m ==> WithStates(m, key, states)[other] == m[other] && WithData(m, key, data)[other] == m[other]
    ensures DataOf(WithStates(m, key, states), key) == DataOf(m, key)
    ensures StatesOf(WithData(m, key, data), key) == StatesOf(m, key)
  {
  }

  /** `set_data` replaces rather than merges: a key absent from the new data
      is gone afterwards, whatever the record held before. */
  lemma SetDataReplaces<K, V>(m: map<K, Record>, key: K, data: map<string, V>,
                              serialize: V -> Option<Bytes>, vk: string)
    requires AllSerialize(data, serialize)
    ensures vk in DataOf(WithData(m, key, Serialized(data, serialize)), key) <==> vk in data
  {
  }

  /** With a codec that reads back what it wrote, `get_data` after
      `set_data` returns the data that was set. */
  lemma SetDataGetData<K, V>(m: map<K, Record>, key: K, data: map<string, V>,
                             serialize: V -> Option<Bytes>, deserialize: Bytes -> Option<V>)
    requires AllSerialize(data, serialize)
    requires forall vk :: vk in data ==> deserialize(serialize(data[vk]).value) == Some(data[vk])
    ensures Deserialized(DataOf(WithData(m, key, Serialized(data, serialize)), key), deserialize) == Ok(data)
  {
    var stored := Serialized(data, serialize);
    assert forall k :: k in stored ==> deserialize(stored[k]) == Some(data[k]);
    assert (map k | k in stored :: deserialize(stored[k]).value) == data;
  }

  /** `set_value` writes one value key and keeps the other value keys and
      the states of the record. */
  lemma SetValueKeepsRest<K>(m: map<K, Record>, key: K, vk: string, bytes: Bytes, other: string)
    requires other != vk
    ensures var m1 := WithData(m, key, DataOf(m, key)[vk := bytes]);
      vk in DataOf(m1, key) && DataOf(m1, key)[vk] == bytes &&
      (other in DataOf(m1, key) <==> other in DataOf(m, key)) &&
      (other in DataOf(m, key) ==> DataOf(m1, key)[other] == DataOf(m, key)[other]) &&
      StatesOf(m1, key) == StatesOf(m, key)
  {
  }

  /** An absent key has no state, no states, and empty data. */
  lemma AbsentKey<K, V>(m: map<K, Record>, key: K, deserialize: Bytes -> Option<V>)
    requires key !in m
    ensures Top(StatesOf(m, key)) == None && StatesOf(m, key) == []
    ensures Deserialized(DataOf(m, key), deserialize) == Ok(map[])
  {
  }
}
