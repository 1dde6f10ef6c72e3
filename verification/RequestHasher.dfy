/** `hash_value` as it feeds a hasher piece by piece, sorting the keys of every object on the way. */
module RequestHasher {
  import opened Options
  import opened Json
  import opened CanonicalJson
  import opened CanonicalOrder

  // ------------------------------------------------------------------ feeding in pieces

  lemma {:induction false} PlainItemsAppend(items: seq<Json>, v: Json)
    ensures PlainItems(items + [v]) == PlainItems(items) + Plain(v)
  {
    if items == [] {
      assert PlainItems([v]) == Plain(v) + PlainItems([]);
    } else {
      PlainItemsAppend(items[1..], v);
      assert (items + [v])[1..] == items[1..] + [v];
    }
  }

  lemma {:induction false} PlainFieldsAppend(fields: seq<Field>, f: Field)
    ensures PlainFields(fields + [f]) == PlainFields(fields) + (Bytes(f.key) + Plain(f.value))
  {
    if fields == [] {
      assert PlainFields([f]) == Bytes(f.key) + Plain(f.value) + PlainFields([]);
    } else {
      PlainFieldsAppend(fields[1..], f);
      assert (fields + [f])[1..] == fields[1..] + [f];
    }
  }

  predicate SortedKeys(keys: seq<Text>) {
    forall i, j | 0 <= i < j < |keys| :: Before(keys[i], keys[j]) && keys[i] != keys[j]
  }

  lemma GetByKey(fields: seq<Field>, i: nat)
    requires DistinctKeys(fields) && i < |fields|
    ensures GetField(fields, fields[i].key) == Some(fields[i].value)
  {
    assert fields[i] in fields;
    var f := Field(fields[i].key, GetField(fields, fields[i].key).value);
    assert f in fields;
    var j :| 0 <= j < |fields| && fields[j] == f;
  }

  /** The member at a key, in canonical form. */
  function CanonAt(fields: seq<Field>, key: Text): Field
    requires key in Keys(fields)
  {
    Field(key, Canon(GetField(fields, key).value))
  }

  lemma CanonAtIsMember(fields: seq<Field>, key: Text)
    requires key in Keys(fields)
    ensures CanonAt(fields, key) in CanonFields(fields)
  {
    hide Canon;
    var f := Field(key, GetField(fields, key).value);
    var j :| 0 <= j < |fields| && fields[j] == f;
    assert CanonFields(fields)[j] == CanonAt(fields, key);
  }

  lemma MemberIsCanonAt(fields: seq<Field>, x: Field)
    requires DistinctKeys(fields) && x in CanonFields(fields)
    ensures x.key in Keys(fields) && x == CanonAt(fields, x.key)
  {
    hide Canon;
    var j :| 0 <= j < |fields| && CanonFields(fields)[j] == x;
    assert fields[j] in fields;
    GetByKey(fields, j);
  }

  /** Sorting the keys and looking each value up gives the members of the canonical form in its order. */
  lemma SortedKeysListMembers(fields: seq<Field>, keys: seq<Text>)
    requires DistinctKeys(fields) && SortedKeys(keys)
    requires forall k :: k in keys <==> k in Keys(fields)
    ensures |Sort(CanonFields(fields))| == |keys| == |fields|
    ensures forall i | 0 <= i < |keys| :: keys[i] in Keys(fields)
              && Sort(CanonFields(fields))[i] == CanonAt(fields, keys[i])
  {
    CanonFieldsFact(fields);
    hide CanonAt, CanonFields, Sort, Keys, Before, DistinctKeys;
    forall i | 0 <= i < |keys| ensures keys[i] in Keys(fields) { assert keys[i] in keys; }
    var listed := seq(|keys|, i requires 0 <= i < |keys| => CanonAt(fields, keys[i]));
    forall i | 0 <= i < |keys| ensures listed[i].key == keys[i] { CanonAtKey(fields, keys[i]); }
    forall x | x in listed ensures x in CanonFields(fields) {
      var i :| 0 <= i < |listed| && listed[i] == x;
      CanonAtIsMember(fields, keys[i]);
    }
    forall x | x in CanonFields(fields) ensures x in listed {
      MemberIsCanonAt(fields, x);
      var i :| 0 <= i < |keys| && keys[i] == x.key;
      assert listed[i] == x;
    }
    SortedUnique(listed, Sort(CanonFields(fields)));
  }

  lemma CanonAtKey(fields: seq<Field>, key: Text)
    requires key in Keys(fields)
    ensures CanonAt(fields, key).key == key
  {
  }

  // ------------------------------------------------------------------ the stream, case by case

  lemma NoItems()
    ensures PlainItems([]) == []
  {
  }

  lemma NoFields()
    ensures PlainFields([]) == []
  {
  }

  lemma StreamIsPlain(v: Json)
    ensures Stream(v) == Plain(Canon(v))
  {
  }

  lemma StreamOfArray(items: seq<Json>)
    ensures Stream(Array(items)) == [4] + U64(|items|) + PlainItems(CanonItems(items))
  {
  }

  lemma StreamOfObject(fields: seq<Field>)
    requires DistinctKeys(fields)
    ensures Stream(Object(fields)) == [5] + U64(|fields|) + PlainFields(Sort(CanonFields(fields)))
  {
    CanonFieldsFact(fields);
  }

  lemma StreamOfScalar(v: Json)
    requires !v.Array? && !v.Object?
    ensures Stream(v) == match v
                         case Null => [0]
                         case Bool(b) => [1, if b then 1 else 0]
                         case Number(text) => [2] + Bytes(text)
                         case String(text) => [3] + Bytes(text)
                         case _ => []
  {
  }

  // ------------------------------------------------------------------ the hasher

  class Hasher {
    var fed: seq<byte>

    constructor ()
      ensures fed == []
    {
      fed := [];
    }

    method Update(bytes: seq<byte>)
      modifies this
      ensures fed == old(fed) + bytes
    {
      fed := fed + bytes;
    }

    method HashBytes(value: Text)
      modifies this
      ensures fed == old(fed) + Bytes(value)
    {
      Update(U64(|value|));
      Update(value);
    }

    /** `hash_value`: the stream of the canonical form, whatever the order of the members is. */
    method HashValue(value: Json)
      requires Valid(value)
      modifies this
      ensures fed == old(fed) + Stream(value)
      decreases value
    {
      hide Stream, Bytes, U64, PlainItems, PlainFields, Sort, CanonItems, CanonFields;
      if !value.Array? && !value.Object? { StreamOfScalar(value); }
      match value {
        case Null => Update([0]);
        case Bool(b) => Update([1, if b then 1 else 0]);
        case Number(text) =>
          Update([2]);
          HashBytes(text);
        case String(text) =>
          Update([3]);
          HashBytes(text);
        case Array(items) =>
          Update([4]);
          Update(U64(|items|));
          HashItems(items);
          StreamOfArray(items);
        case Object(fields) =>
          Update([5]);
          Update(U64(|fields|));
          HashFields(fields);
          StreamOfObject(fields);
      }
    }

    method HashItems(items: seq<Json>)
      requires forall i | 0 <= i < |items| :: Valid(items[i])
      modifies this
      ensures fed == old(fed) + PlainItems(CanonItems(items))
      decreases items
    {
      hide Plain, PlainItems, Canon, CanonItems, Stream, Valid;
      ghost var canon := CanonItems(items);
      NoItems();
      assert canon[..0] == [];
      for i := 0 to |items|
        invariant fed == old(fed) + PlainItems(canon[..i])
      {
        HashValue(items[i]);
        StreamIsPlain(items[i]);
        PlainItemsAppend(canon[..i], canon[i]);
        assert canon[..i + 1] == canon[..i] + [canon[i]];
      }
      assert canon[..|items|] == canon;
    }

    method HashFields(fields: seq<Field>)
      requires DistinctKeys(fields) && forall i | 0 <= i < |fields| :: Valid(fields[i].value)
      modifies this
      ensures fed == old(fed) + PlainFields(Sort(CanonFields(fields)))
      decreases fields
    {
      hide Plain, PlainFields, Bytes, Sort, CanonFields, Canon, GetField, Before, Keys, DistinctKeys, SortedKeys;
      ghost var sorted := Sort(CanonFields(fields));
      var keys := CollectKeys(fields);
      keys := SortKeys(keys);
      SortedKeysListMembers(fields, keys);
      assert sorted[..0] == [];
      NoFields();
      for i := 0 to |keys|
        invariant fed == old(fed) + PlainFields(sorted[..i])
      {
        HashBytes(keys[i]);
        var value := Lookup(fields, keys[i]);
        HashValue(value);
        assert sorted[i] == CanonAt(fields, keys[i]) == Field(keys[i], Canon(value));
        StreamIsPlain(value);
        PlainFieldsAppend(sorted[..i], sorted[i]);
        assert sorted[..i + 1] == sorted[..i] + [sorted[i]];
      }
      assert sorted[..|keys|] == sorted;
    }

    static method Lookup(fields: seq<Field>, key: Text) returns (value: Json)
      requires key in Keys(fields)
      ensures Some(value) == GetField(fields, key)
      ensures exists i :: 0 <= i < |fields| && fields[i].value == value
    {
      var found := GetField(fields, key);
      value := found.value;
      assert Field(key, value) in fields;
    }

    static method CollectKeys(fields: seq<Field>) returns (keys: seq<Text>)
      requires DistinctKeys(fields)
      ensures forall k :: k in keys <==> k in Keys(fields)
      ensures forall i, j | 0 <= i < j < |keys| :: keys[i] != keys[j]
    {
      keys := seq(|fields|, i requires 0 <= i < |fields| => fields[i].key);
      forall k ensures k in keys <==> k in Keys(fields) {
        if k in Keys(fields) {
          var f :| f in fields && f.key == k;
          var i :| 0 <= i < |fields| && fields[i] == f;
          assert keys[i] == k;
        }
        if k in keys {
          var i :| 0 <= i < |keys| && keys[i] == k;
          assert fields[i] in fields;
        }
      }
    }

    /** `keys.sort_unstable()`. */
    static method SortKeys(keys: seq<Text>) returns (sorted: seq<Text>)
      requires forall i, j | 0 <= i < j < |keys| :: keys[i] != keys[j]
      ensures SortedKeys(sorted) && forall k :: k in sorted <==> k in keys
    {
      sorted := [];
      for i := 0 to |keys|
        invariant SortedKeys(sorted) && forall k :: k in sorted <==> k in keys[..i]
      {
        var key := keys[i];
        assert key !in keys[..i];
        var at := 0;
        while at < |sorted| && Before(sorted[at], key)
          invariant at <= |sorted|
          invariant forall j | 0 <= j < at :: Before(sorted[j], key)
        {
          at := at + 1;
        }
        InsertKey(sorted, at, key);
        assert keys[..i + 1] == keys[..i] + [key];
        sorted := sorted[..at] + [key] + sorted[at..];
      }
      assert keys[..|keys|] == keys;
    }
  }

  lemma InsertKey(keys: seq<Text>, at: nat, key: Text)
    requires SortedKeys(keys) && at <= |keys| && key !in keys
    requires forall j | 0 <= j < at :: Before(keys[j], key)
    requires at < |keys| ==> !Before(keys[at], key)
    ensures SortedKeys(keys[..at] + [key] + keys[at..])
    ensures forall k :: k in keys[..at] + [key] + keys[at..] <==> k == key || k in keys
  {
    forall j | at <= j < |keys| ensures Before(key, keys[j]) {
      BeforeTotal(key, keys[at]);
      if at < j { BeforeTransitive(key, keys[at], keys[j]); }
    }
    assert keys == keys[..at] + keys[at..];
  }
}
