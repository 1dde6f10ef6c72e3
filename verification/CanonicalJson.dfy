/** The byte stream that identifies a create request: type tags, big-endian 64-bit lengths, and objects in
    the order of their keys. It can be decoded, so it never begins another value's stream, and two values
    have the same stream exactly when they are equal up to the order of object members. */
module CanonicalJson {
  import opened Options
  import opened Json

  // ------------------------------------------------------------------ lengths

  /** `(n as u64).to_be_bytes()` with `k` bytes: the lowest `k` base-256 digits, highest first. */
  function BigEndian(n: nat, k: nat): (r: seq<byte>)
    ensures |r| == k
  {
    if k == 0 then [] else BigEndian(n / 256, k - 1) + [(n % 256) as byte]
  }

  function U64(n: nat): seq<byte> { BigEndian(n, 8) }

  function FromBigEndian(s: seq<byte>): nat {
    if s == [] then 0 else 256 * FromBigEndian(s[..|s| - 1]) + s[|s| - 1] as nat
  }

  function Power256(k: nat): nat { if k == 0 then 1 else 256 * Power256(k - 1) }

  const LIMIT: nat := 0x1_0000_0000_0000_0000

  lemma {:induction false} DigitsRoundTrip(n: nat, k: nat)
    requires n < Power256(k)
    ensures FromBigEndian(BigEndian(n, k)) == n
  {
    if k > 0 {
      DigitsRoundTrip(n / 256, k - 1);
      assert BigEndian(n, k)[..k - 1] == BigEndian(n / 256, k - 1);
    }
  }

  lemma U64RoundTrip(n: nat)
    requires n < LIMIT
    ensures FromBigEndian(U64(n)) == n && |U64(n)| == 8
  {
    assert Power256(8) == LIMIT by {
      assert Power256(4) == 0x1_0000_0000;
      assert Power256(5) == 256 * Power256(4);
      assert Power256(6) == 256 * Power256(5);
      assert Power256(7) == 256 * Power256(6);
    }
    DigitsRoundTrip(n, 8);
  }

  // ------------------------------------------------------------------ the stream of a value as it stands

  function Bytes(s: Text): seq<byte> { U64(|s|) + s }

  function Plain(v: Json): seq<byte> {
    match v
    case Null => [0]
    case Bool(b) => [1, if b then 1 else 0]
    case Number(text) => [2] + Bytes(text)
    case String(text) => [3] + Bytes(text)
    case Array(items) => [4] + U64(|items|) + PlainItems(items)
    case Object(fields) => [5] + U64(|fields|) + PlainFields(fields)
  }

  function PlainItems(items: seq<Json>): seq<byte> {
    if items == [] then [] else Plain(items[0]) + PlainItems(items[1..])
  }

  function PlainFields(fields: seq<Field>): seq<byte> {
    if fields == [] then [] else Bytes(fields[0].key) + Plain(fields[0].value) + PlainFields(fields[1..])
  }

  /** Every string, array and object is shorter than 2^64. */
  predicate Sized(v: Json) {
    match v
    case Null => true
    case Bool(_) => true
    case Number(text) => |text| < LIMIT
    case String(text) => |text| < LIMIT
    case Array(items) => |items| < LIMIT && forall i | 0 <= i < |items| :: Sized(items[i])
    case Object(fields) =>
      |fields| < LIMIT && forall i | 0 <= i < |fields| :: |fields[i].key| < LIMIT && Sized(fields[i].value)
  }

  // ------------------------------------------------------------------ decoding

  type Parsed<T> = Option<(T, seq<byte>)>

  function ReadLength(s: seq<byte>): (r: Parsed<nat>)
    ensures r.Some? ==> |r.value.1| == |s| - 8
  {
    if |s| < 8 then None else Some((FromBigEndian(s[..8]), s[8..]))
  }

  function ReadBytes(s: seq<byte>): (r: Parsed<Text>)
    ensures r.Some? ==> |r.value.1| < |s|
  {
    match ReadLength(s)
    case None => None
    case Some((n, rest)) => if n > |rest| then None else Some((rest[..n], rest[n..]))
  }

  function Decode(s: seq<byte>): (r: Parsed<Json>)
    ensures r.Some? ==> |r.value.1| < |s|
    decreases |s|, 0
  {
    if s == [] then None
    else
      var rest := s[1..];
      if s[0] == 0 then Some((Null, rest))
      else if s[0] == 1 then
        if rest == [] || rest[0] > 1 then None else Some((Bool(rest[0] == 1), rest[1..]))
      else if s[0] == 2 then
        match ReadBytes(rest) case None => None case Some((text, more)) => Some((Number(text), more))
      else if s[0] == 3 then
        match ReadBytes(rest) case None => None case Some((text, more)) => Some((String(text), more))
      else if s[0] == 4 then
        match ReadLength(rest)
        case None => None
        case Some((n, more)) =>
          (match DecodeItems(n, more) case None => None case Some((items, end)) => Some((Array(items), end)))
      else if s[0] == 5 then
        match ReadLength(rest)
        case None => None
        case Some((n, more)) =>
          (match DecodeFields(n, more) case None => None case Some((fields, end)) => Some((Object(fields), end)))
      else None
  }

  function DecodeItems(n: nat, s: seq<byte>): (r: Parsed<seq<Json>>)
    ensures r.Some? ==> |r.value.1| <= |s|
    decreases |s|, 1
  {
    if n == 0 then Some(([], s))
    else
      match Decode(s)
      case None => None
      case Some((v, rest)) =>
        match DecodeItems(n - 1, rest) case None => None case Some((items, end)) => Some(([v] + items, end))
  }

  function DecodeFields(n: nat, s: seq<byte>): (r: Parsed<seq<Field>>)
    ensures r.Some? ==> |r.value.1| <= |s|
    decreases |s|, 1
  {
    if n == 0 then Some(([], s))
    else
      match ReadBytes(s)
      case None => None
      case Some((key, more)) =>
        match Decode(more)
        case None => None
        case Some((v, rest)) =>
          match DecodeFields(n - 1, rest)
          case None => None
          case Some((fields, end)) => Some(([Field(key, v)] + fields, end))
  }

  lemma BytesRoundTrip(text: Text, rest: seq<byte>)
    requires |text| < LIMIT
    ensures ReadBytes(Bytes(text) + rest) == Some((text, rest))
  {
    U64RoundTrip(|text|);
    var s := Bytes(text) + rest;
    assert s[..8] == U64(|text|);
    assert s[8..] == text + rest;
  }

  lemma LengthRoundTrip(n: nat, rest: seq<byte>)
    requires n < LIMIT
    ensures ReadLength(U64(n) + rest) == Some((n, rest))
  {
    U64RoundTrip(n);
    assert (U64(n) + rest)[..8] == U64(n);
    assert (U64(n) + rest)[8..] == rest;
  }

  /** Whatever follows it, the stream of a value decodes to that value and leaves the rest. */
  lemma {:induction false} RoundTrip(v: Json, rest: seq<byte>)
    requires Sized(v)
    ensures Decode(Plain(v) + rest) == Some((v, rest))
    decreases v
  {
    var s := Plain(v) + rest;
    match v {
      case Null => assert s[1..] == rest;
      case Bool(b) => assert s[1..][1..] == rest;
      case Number(text) => TextRoundTrip(2, text, rest);
      case String(text) => TextRoundTrip(3, text, rest);
      case Array(items) =>
        ItemsRoundTrip(items, rest);
        ArrayRoundTrip(items, rest);
      case Object(fields) =>
        FieldsRoundTrip(fields, rest);
        ObjectRoundTrip(fields, rest);
    }
  }

  lemma TextRoundTrip(tag: byte, text: Text, rest: seq<byte>)
    requires |text| < LIMIT && (tag == 2 || tag == 3)
    ensures Decode([tag] + Bytes(text) + rest) == Some((if tag == 2 then Number(text) else String(text), rest))
  {
    BytesRoundTrip(text, rest);
    assert ([tag] + Bytes(text) + rest)[1..] == Bytes(text) + rest;
  }

  lemma ArrayRoundTrip(items: seq<Json>, rest: seq<byte>)
    requires |items| < LIMIT && DecodeItems(|items|, PlainItems(items) + rest) == Some((items, rest))
    ensures Decode(Plain(Array(items)) + rest) == Some((Array(items), rest))
  {
    hide ReadLength, ReadBytes, DecodeItems, DecodeFields, PlainItems, PlainFields, U64;
    var s, body := Plain(Array(items)) + rest, PlainItems(items) + rest;
    LengthRoundTrip(|items|, body);
    assert s[0] == 4 && s[1..] == U64(|items|) + body;
  }

  lemma ObjectRoundTrip(fields: seq<Field>, rest: seq<byte>)
    requires |fields| < LIMIT && DecodeFields(|fields|, PlainFields(fields) + rest) == Some((fields, rest))
    ensures Decode(Plain(Object(fields)) + rest) == Some((Object(fields), rest))
  {
    hide ReadLength, ReadBytes, DecodeItems, DecodeFields, PlainItems, PlainFields, U64;
    var s, body := Plain(Object(fields)) + rest, PlainFields(fields) + rest;
    LengthRoundTrip(|fields|, body);
    assert s[0] == 5 && s[1..] == U64(|fields|) + body;
  }

  lemma {:induction false} ItemsRoundTrip(items: seq<Json>, rest: seq<byte>)
    requires forall i | 0 <= i < |items| :: Sized(items[i])
    ensures DecodeItems(|items|, PlainItems(items) + rest) == Some((items, rest))
    decreases items
  {
    if items == [] {
      assert PlainItems(items) + rest == rest;
    } else {
      var more := PlainItems(items[1..]) + rest;
      RoundTrip(items[0], more);
      ItemsRoundTrip(items[1..], rest);
      assert PlainItems(items) + rest == Plain(items[0]) + more;
      assert [items[0]] + items[1..] == items;
    }
  }

  lemma {:induction false} FieldsRoundTrip(fields: seq<Field>, rest: seq<byte>)
    requires forall i | 0 <= i < |fields| :: |fields[i].key| < LIMIT && Sized(fields[i].value)
    ensures DecodeFields(|fields|, PlainFields(fields) + rest) == Some((fields, rest))
    decreases fields
  {
    hide Decode, ReadBytes, Bytes, Plain;
    if fields == [] {
      assert PlainFields(fields) + rest == rest;
    } else {
      var f, more := fields[0], PlainFields(fields[1..]) + rest;
      BytesRoundTrip(f.key, Plain(f.value) + more);
      RoundTrip(f.value, more);
      FieldsRoundTrip(fields[1..], rest);
      FieldStep(|fields|, f, more, fields[1..], rest);
      assert PlainFields(fields) + rest == Bytes(f.key) + (Plain(f.value) + more);
      assert [f] + fields[1..] == fields;
    }
  }

  lemma FieldStep(n: nat, f: Field, more: seq<byte>, fields: seq<Field>, rest: seq<byte>)
    requires n > 0 && ReadBytes(Bytes(f.key) + (Plain(f.value) + more)) == Some((f.key, Plain(f.value) + more))
    requires Decode(Plain(f.value) + more) == Some((f.value, more))
    requires DecodeFields(n - 1, more) == Some((fields, rest))
    ensures DecodeFields(n, Bytes(f.key) + (Plain(f.value) + more)) == Some(([f] + fields, rest))
  {
    hide Decode, ReadBytes, Bytes, Plain;
  }
}
