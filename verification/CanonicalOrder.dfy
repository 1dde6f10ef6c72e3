/** Object members in the order of their keys: the canonical form of a value, and the theorem that the
    request stream forgets exactly the order of members and nothing else. */
module CanonicalOrder {
  import opened Options
  import opened Json
  import opened CanonicalJson

  // ------------------------------------------------------------------ the order of keys

  /** Byte-wise lexicographic order, as Rust orders strings. */
  predicate Before(a: Text, b: Text) {
    if a == [] then true
    else if b == [] then false
    else if a[0] != b[0] then a[0] < b[0]
    else Before(a[1..], b[1..])
  }

  lemma {:induction false} BeforeTotal(a: Text, b: Text)
    ensures Before(a, b) || Before(b, a)
    ensures Before(a, b) && Before(b, a) ==> a == b
  {
    if a != [] && b != [] && a[0] == b[0] {
      BeforeTotal(a[1..], b[1..]);
      if a[1..] == b[1..] { assert a == [a[0]] + a[1..] && b == [b[0]] + b[1..]; }
    }
  }

  lemma {:induction false} BeforeTransitive(a: Text, b: Text, c: Text)
    requires Before(a, b) && Before(b, c)
    ensures Before(a, c)
  {
    if a != [] && b != [] && c != [] && a[0] == b[0] && b[0] == c[0] {
      BeforeTransitive(a[1..], b[1..], c[1..]);
    }
  }

  predicate Sorted(fields: seq<Field>) {
    forall i, j | 0 <= i < j < |fields| :: Before(fields[i].key, fields[j].key) && fields[i].key != fields[j].key
  }

  function Insert(fields: seq<Field>, f: Field): seq<Field> {
    if fields == [] || Before(f.key, fields[0].key) then [f] + fields else [fields[0]] + Insert(fields[1..], f)
  }

  function Sort(fields: seq<Field>): seq<Field> {
    if fields == [] then [] else Insert(Sort(fields[1..]), fields[0])
  }

  lemma {:induction false} InsertKeeps(fields: seq<Field>, f: Field)
    requires Sorted(fields) && f.key !in Keys(fields)
    ensures Sorted(Insert(fields, f)) && |Insert(fields, f)| == |fields| + 1
    ensures forall x :: x in Insert(fields, f) <==> x == f || x in fields
  {
    if fields == [] {
    } else if Before(f.key, fields[0].key) {
      assert f.key != fields[0].key by { assert fields[0] in fields; }
      forall j | 0 < j < |fields| ensures Before(f.key, fields[j].key) && f.key != fields[j].key {
        BeforeTransitive(f.key, fields[0].key, fields[j].key);
        assert fields[j] in fields;
      }
    } else {
      var rest, more := fields[1..], Insert(fields[1..], f);
      InsertKeeps(rest, f);
      BeforeTotal(f.key, fields[0].key);
      assert f.key != fields[0].key by { assert fields[0] in fields; }
      forall j | 0 <= j < |more| ensures Before(fields[0].key, more[j].key) && fields[0].key != more[j].key {
        assert more[j] == f || more[j] in rest;
      }
      assert fields == [fields[0]] + rest;
    }
  }

  lemma {:induction false} SortKeeps(fields: seq<Field>)
    requires DistinctKeys(fields)
    ensures Sorted(Sort(fields)) && |Sort(fields)| == |fields|
    ensures forall x :: x in Sort(fields) <==> x in fields
  {
    if fields != [] {
      SortKeeps(fields[1..]);
      forall x | x in Sort(fields[1..]) ensures x.key != fields[0].key {
        assert x in fields[1..];
        var i :| 0 <= i < |fields| - 1 && fields[1..][i] == x;
        assert fields[i + 1] == x;
      }
      assert fields[0].key !in Keys(Sort(fields[1..]));
      InsertKeeps(Sort(fields[1..]), fields[0]);
      assert fields == [fields[0]] + fields[1..];
    }
  }

  lemma FirstIsMember(a: seq<Field>)
    ensures a != [] ==> a[0] in a
  {
  }

  /** Sorted lists of the same fields are the same list. */
  lemma {:induction false} SortedUnique(a: seq<Field>, b: seq<Field>)
    requires Sorted(a) && Sorted(b) && forall x :: x in a <==> x in b
    ensures a == b
  {
    if a == [] {
      FirstIsMember(b);
    } else {
      assert a[0] in a && a[0] in b;
      assert b[0] in b && b[0] in a;
      BeforeTotal(a[0].key, b[0].key);
      assert a[0] == b[0];
      forall x ensures x in a[1..] <==> x in b[1..] {
        TailMembers(a, x);
        TailMembers(b, x);
      }
      SortedUnique(a[1..], b[1..]);
      assert a == [a[0]] + a[1..] && b == [b[0]] + b[1..];
    }
  }

  lemma TailMembers(a: seq<Field>, x: Field)
    requires Sorted(a) && a != []
    ensures x in a[1..] <==> x in a && x != a[0]
  {
    assert a == [a[0]] + a[1..];
    if x in a[1..] {
      var i :| 0 <= i < |a| - 1 && a[1..][i] == x;
      assert a[i + 1] == x;
    }
  }

  // ------------------------------------------------------------------ the canonical form

  /** What a JSON map is: no key twice, at any depth. */
  predicate Valid(v: Json) {
    match v
    case Array(items) => forall i | 0 <= i < |items| :: Valid(items[i])
    case Object(fields) => DistinctKeys(fields) && forall i | 0 <= i < |fields| :: Valid(fields[i].value)
    case _ => true
  }

  /** The value with the members of every object in the order of their keys. */
  function Canon(v: Json): Json {
    match v
    case Array(items) => Array(CanonItems(items))
    case Object(fields) => Object(Sort(CanonFields(fields)))
    case _ => v
  }

  function CanonItems(items: seq<Json>): (r: seq<Json>)
    ensures |r| == |items| && forall i | 0 <= i < |items| :: r[i] == Canon(items[i])
  {
    if items == [] then [] else [Canon(items[0])] + CanonItems(items[1..])
  }

  function CanonFields(fields: seq<Field>): (r: seq<Field>)
    ensures |r| == |fields|
    ensures forall i | 0 <= i < |fields| :: r[i] == Field(fields[i].key, Canon(fields[i].value))
  {
    if fields == [] then [] else [Field(fields[0].key, Canon(fields[0].value))] + CanonFields(fields[1..])
  }

  /** What `hash_value` feeds to the hash. */
  function Stream(v: Json): seq<byte> { Plain(Canon(v)) }

  lemma CanonFieldsFact(fields: seq<Field>)
    requires DistinctKeys(fields)
    ensures DistinctKeys(CanonFields(fields)) && Sorted(Sort(CanonFields(fields)))
    ensures |Sort(CanonFields(fields))| == |fields|
    ensures forall x :: x in Sort(CanonFields(fields)) <==> x in CanonFields(fields)
  {
    SortKeeps(CanonFields(fields));
  }

  lemma {:induction false} CanonSized(v: Json)
    requires Sized(v) && Valid(v)
    ensures Sized(Canon(v))
  {
    match v {
      case Array(items) =>
        forall i | 0 <= i < |items| ensures Sized(CanonItems(items)[i]) { CanonSized(items[i]); }
      case Object(fields) =>
        CanonFieldsFact(fields);
        var sorted := Sort(CanonFields(fields));
        forall i | 0 <= i < |sorted| ensures |sorted[i].key| < LIMIT && Sized(sorted[i].value) {
          assert sorted[i] in CanonFields(fields);
          var j :| 0 <= j < |fields| && CanonFields(fields)[j] == sorted[i];
          CanonSized(fields[j].value);
        }
      case _ =>
    }
  }

  // ------------------------------------------------------------------ equality up to the order of members

  /** The independent definition: equal texts and arrays, and objects with the same keys and, at each key,
      the same values, recursively. */
  predicate SameUpToOrder(v: Json, w: Json) {
    match (v, w)
    case (Array(a), Array(b)) => |a| == |b| && forall i | 0 <= i < |a| :: SameUpToOrder(a[i], b[i])
    case (Object(a), Object(b)) =>
      Keys(a) == Keys(b)
      && forall i, j | 0 <= i < |a| && 0 <= j < |b| && a[i].key == b[j].key :: SameUpToOrder(a[i].value, b[j].value)
    case _ => v == w
  }

  lemma {:induction false} CanonDecidesSameness(v: Json, w: Json)
    requires Valid(v) && Valid(w)
    ensures Canon(v) == Canon(w) <==> SameUpToOrder(v, w)
  {
    match (v, w) {
      case (Array(a), Array(b)) =>
        var x, y := CanonItems(a), CanonItems(b);
        if |a| == |b| {
          forall i | 0 <= i < |a| ensures x[i] == y[i] <==> SameUpToOrder(a[i], b[i]) {
            CanonDecidesSameness(a[i], b[i]);
          }
          if SameUpToOrder(v, w) { assert x == y; }
        }
      case (Object(a), Object(b)) =>
        forall i, j | 0 <= i < |a| && 0 <= j < |b|
          ensures Canon(a[i].value) == Canon(b[j].value) <==> SameUpToOrder(a[i].value, b[j].value)
        {
          CanonDecidesSameness(a[i].value, b[j].value);
        }
        CanonFieldsFact(a);
        CanonFieldsFact(b);
        if Canon(v) == Canon(w) {
          forall x ensures x in CanonFields(a) <==> x in CanonFields(b) {
            assert x in Sort(CanonFields(a)) <==> x in Sort(CanonFields(b));
          }
          SameFieldsAreSame(a, b);
        } else if SameUpToOrder(v, w) {
          SameHasSameFields(a, b);
          SameHasSameFields(b, a);
          SortedUnique(Sort(CanonFields(a)), Sort(CanonFields(b)));
        }
      case _ =>
    }
  }

  ghost predicate Within(a: seq<Field>, b: seq<Field>) {
    forall x | x in CanonFields(a) :: x in CanonFields(b)
  }

  lemma SameFieldsAreSame(a: seq<Field>, b: seq<Field>)
    requires DistinctKeys(b) && Within(a, b) && Within(b, a)
    ensures Keys(a) == Keys(b)
    ensures forall i, j | 0 <= i < |a| && 0 <= j < |b| && a[i].key == b[j].key :: Canon(a[i].value) == Canon(b[j].value)
  {
    hide Within, Canon, DistinctKeys;
    FieldsWithin(a, b);
    FieldsWithin(b, a);
    forall i, j | 0 <= i < |a| && 0 <= j < |b| && a[i].key == b[j].key ensures Canon(a[i].value) == Canon(b[j].value) {
      SameAtKey(a, b, i, j);
    }
  }

  lemma SameAtKey(a: seq<Field>, b: seq<Field>, i: nat, j: nat)
    requires DistinctKeys(b) && i < |a| && j < |b| && a[i].key == b[j].key
    requires Within(a, b)
    ensures Canon(a[i].value) == Canon(b[j].value)
  {
    assert CanonFields(a)[i] in CanonFields(b);
    var k :| 0 <= k < |b| && CanonFields(b)[k] == CanonFields(a)[i];
    assert b[k].key == b[j].key;
  }

  lemma FieldsWithin(a: seq<Field>, b: seq<Field>)
    requires Within(a, b)
    ensures Keys(a) <= Keys(b)
  {
    forall f | f in a ensures f.key in Keys(b) {
      var i :| 0 <= i < |a| && a[i] == f;
      assert CanonFields(a)[i] in CanonFields(b);
      var k :| 0 <= k < |b| && CanonFields(b)[k] == CanonFields(a)[i];
      assert b[k] in b;
    }
  }

  lemma SameHasSameFields(a: seq<Field>, b: seq<Field>)
    requires Keys(a) <= Keys(b)
    requires forall i, j | 0 <= i < |a| && 0 <= j < |b| && a[i].key == b[j].key ::
               Canon(a[i].value) == Canon(b[j].value)
    ensures Within(a, b)
  {
    forall x | x in CanonFields(a) ensures x in CanonFields(b) {
      var i :| 0 <= i < |a| && CanonFields(a)[i] == x;
      assert a[i] in a && a[i].key in Keys(b);
      var g :| g in b && g.key == a[i].key;
      var j :| 0 <= j < |b| && b[j] == g;
      assert CanonFields(b)[j] == x;
    }
  }

  // ------------------------------------------------------------------ the theorems

  /** decode(encode(v) + rest) = (v, rest), up to the order of members. */
  lemma StreamDecodes(v: Json, rest: seq<byte>)
    requires Sized(v) && Valid(v)
    ensures Decode(Stream(v) + rest) == Some((Canon(v), rest))
    ensures SameUpToOrder(Canon(v), v)
  {
    CanonSized(v);
    RoundTrip(Canon(v), rest);
    CanonValid(v);
    CanonIdempotent(v);
    CanonDecidesSameness(Canon(v), v);
  }

  lemma {:induction false} CanonValid(v: Json)
    requires Valid(v)
    ensures Valid(Canon(v))
  {
    match v {
      case Array(items) =>
        forall i | 0 <= i < |items| ensures Valid(CanonItems(items)[i]) { CanonValid(items[i]); }
      case Object(fields) =>
        CanonFieldsFact(fields);
        var sorted := Sort(CanonFields(fields));
        forall i | 0 <= i < |sorted| ensures Valid(sorted[i].value) {
          assert sorted[i] in CanonFields(fields);
          var j :| 0 <= j < |fields| && CanonFields(fields)[j] == sorted[i];
          CanonValid(fields[j].value);
        }
      case _ =>
    }
  }

  lemma {:induction false} CanonIdempotent(v: Json)
    requires Valid(v)
    ensures Canon(Canon(v)) == Canon(v)
  {
    match v {
      case Array(items) =>
        forall i | 0 <= i < |items| ensures Canon(Canon(items[i])) == Canon(items[i]) { CanonIdempotent(items[i]); }
        assert CanonItems(CanonItems(items)) == CanonItems(items);
      case Object(fields) =>
        CanonFieldsFact(fields);
        var sorted := Sort(CanonFields(fields));
        forall i | 0 <= i < |sorted| ensures Canon(sorted[i].value) == sorted[i].value {
          assert sorted[i] in CanonFields(fields);
          var j :| 0 <= j < |fields| && CanonFields(fields)[j] == sorted[i];
          CanonIdempotent(fields[j].value);
        }
        assert CanonFields(sorted) == sorted;
        SortKeeps(sorted);
        SortedUnique(Sort(sorted), sorted);
      case _ =>
    }
  }

  /** Two requests feed the same bytes to the hash exactly when they are equal up to the order of object
      members, at any depth. */
  lemma StreamsAgreeExactly(v: Json, w: Json)
    requires Sized(v) && Valid(v) && Sized(w) && Valid(w)
    ensures Stream(v) == Stream(w) <==> SameUpToOrder(v, w)
  {
    if Stream(v) == Stream(w) {
      StreamDecodes(v, []);
      StreamDecodes(w, []);
    }
    CanonDecidesSameness(v, w);
  }

  /** No stream begins another one. */
  lemma PrefixFree(v: Json, w: Json)
    requires Sized(v) && Valid(v) && Sized(w) && Valid(w) && Stream(v) <= Stream(w)
    ensures Stream(v) == Stream(w)
  {
    var rest := Stream(w)[|Stream(v)|..];
    assert Stream(v) + rest == Stream(w) == Stream(w) + [];
    StreamDecodes(v, rest);
    StreamDecodes(w, []);
  }

  // ------------------------------------------------------------------ an example, byte for byte

  lemma SmallLength(n: nat)
    requires n < 256
    ensures U64(n) == [0, 0, 0, 0, 0, 0, 0, n as byte]
  {
    assert BigEndian(0, 1) == [0];
    assert BigEndian(0, 2) == [0, 0];
    assert BigEndian(0, 3) == [0, 0, 0];
    assert BigEndian(0, 4) == [0, 0, 0, 0];
    assert BigEndian(0, 5) == [0, 0, 0, 0, 0];
    assert BigEndian(0, 6) == [0, 0, 0, 0, 0, 0];
    assert BigEndian(0, 7) == [0, 0, 0, 0, 0, 0, 0];
  }

  const ITEMS: seq<Json> := [Null, Bool(true), Number([55])]
  const A: Field := Field([97], String([120]))
  const B: Field := Field([98], Array(ITEMS))

  lemma ExampleItems()
    ensures CanonItems(ITEMS) == ITEMS
    ensures PlainItems(ITEMS) == [0] + ([1, 1] + ([2] + Bytes([55])))
  {
    assert ITEMS[1..] == [Bool(true), Number([55])];
    assert [Bool(true), Number([55])][1..] == [Number([55])];
    assert CanonItems([Number([55])]) == [Number([55])];
    assert CanonItems([Bool(true), Number([55])]) == [Bool(true), Number([55])];
    assert PlainItems([Number([55])]) == [2] + Bytes([55]);
    assert PlainItems([Bool(true), Number([55])]) == [1, 1] + ([2] + Bytes([55]));
  }

  lemma ExampleFields()
    ensures Sort([B, A]) == [A, B] && CanonFields([B, A]) == [B, A]
  {
    ExampleItems();
    assert [B, A][1..] == [A] && [A][1..] == [];
    assert Sort([A]) == [A];
    assert !Before([98], [97]);
    assert [A][1..] == [];
    assert Insert([], B) == [B];
    assert Insert([A], B) == [A] + Insert([], B);
    assert CanonFields([A]) == [A];
  }

  const ONE: seq<byte> := [0, 0, 0, 0, 0, 0, 0, 1]

  /** `{"b":[null,true,7],"a":"x"}`: the tags, the lengths, and the members in the order of their keys. */
  lemma StreamOfExample()
    ensures Stream(Object([B, A]))
            == [5] + [0, 0, 0, 0, 0, 0, 0, 2]
               + (((ONE + [97]) + ([3] + (ONE + [120])))
                  + ((ONE + [98]) + ([4] + [0, 0, 0, 0, 0, 0, 0, 3] + ([0] + ([1, 1] + ([2] + (ONE + [55])))))))
  {
    SmallLength(1);
    SmallLength(2);
    SmallLength(3);
    ExampleItems();
    ExampleFields();
    assert Canon(Object([B, A])) == Object([A, B]);
    hide U64, Sort, CanonFields, CanonItems, PlainItems, Canon, Insert, BigEndian;
    assert [A, B][1..] == [B] && [B][1..] == [];
    assert Bytes([98]) == ONE + [98] && Bytes([97]) == ONE + [97] && Bytes([120]) == ONE + [120];
    assert Bytes([55]) == ONE + [55];
    assert PlainFields([B]) == Bytes([98]) + Plain(B.value) + [];
    assert PlainFields([A, B]) == Bytes([97]) + Plain(A.value) + PlainFields([B]);
  }
}
