/** JSON values as `serde_json` holds them: strings, keys and number texts are UTF-8 byte sequences,
    and an object is a list of fields with distinct keys, in insertion order. */
module Json {
  import opened Options

  newtype byte = x: int | 0 <= x < 256
  type Text = seq<byte>

  datatype Json =
    | Null
    | Bool(b: bool)
    | Number(text: Text)
    | String(text: Text)
    | Array(items: seq<Json>)
    | Object(fields: seq<Field>)

  datatype Field = Field(key: Text, value: Json)

  function Keys(fields: seq<Field>): set<Text> {
    set f | f in fields :: f.key
  }

  predicate DistinctKeys(fields: seq<Field>) {
    forall i, j | 0 <= i < j < |fields| :: fields[i].key != fields[j].key
  }

  function Get(v: Json, key: Text): Option<Json> {
    if v.Object? then GetField(v.fields, key) else None
  }

  function GetField(fields: seq<Field>, key: Text): (r: Option<Json>)
    ensures r.Some? <==> key in Keys(fields)
    ensures r.Some? ==> Field(key, r.value) in fields
  {
    if fields == [] then None
    else if fields[0].key == key then Some(fields[0].value)
    else GetField(fields[1..], key)
  }

  /** `get_mut` on a present key followed by an assignment: the value changes in place. */
  function SetField(fields: seq<Field>, key: Text, value: Json): (r: seq<Field>)
    ensures |r| == |fields|
    ensures forall i | 0 <= i < |fields| :: r[i].key == fields[i].key
  {
    if fields == [] then []
    else if fields[0].key == key then [Field(key, value)] + fields[1..]
    else [fields[0]] + SetField(fields[1..], key, value)
  }

  lemma {:induction false} GetSet(fields: seq<Field>, key: Text, value: Json, other: Text)
    ensures GetField(SetField(fields, key, value), other)
         == if other == key && GetField(fields, key).Some? then Some(value) else GetField(fields, other)
  {
    if fields != [] {
      GetSet(fields[1..], key, value, other);
      var r := SetField(fields, key, value);
      assert r[1..] == if fields[0].key == key then fields[1..] else SetField(fields[1..], key, value);
    }
  }

  lemma {:induction false} SetGet(fields: seq<Field>, key: Text)
    requires GetField(fields, key).Some?
    ensures SetField(fields, key, GetField(fields, key).value) == fields
  {
    if fields[0].key != key {
      SetGet(fields[1..], key);
    }
  }
}
