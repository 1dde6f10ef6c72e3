/** Idempotent creation: a repeated create request is answered from the first one's record, and a key that
    was used for different data is refused. A digest is identified with the bytes it is computed from. */
module CreateRequests {
  import opened Options
  import opened Json
  import opened CanonicalJson
  import opened CanonicalOrder
  import opened RequestHasher

  /** "ctfzone/admin-create-request/v1". */
  const DOMAIN: seq<byte> := [
    99, 116, 102, 122, 111, 110, 101, 47, 97, 100, 109, 105, 110, 45, 99, 114, 101, 97, 116, 101, 45, 114, 101, 113,
    117, 101, 115, 116, 47, 118, 49]

  method CanonicalDigest(request: Json) returns (digest: seq<byte>)
    requires Valid(request)
    ensures digest == DOMAIN + Stream(request)
  {
    var hasher := new Hasher();
    hasher.Update(DOMAIN);
    hasher.HashValue(request);
    digest := hasher.fed;
  }

  /** Digests agree exactly for requests that are equal up to the order of object members. */
  lemma DigestsAgreeExactly(v: Json, w: Json)
    requires Sized(v) && Valid(v) && Sized(w) && Valid(w)
    ensures DOMAIN + Stream(v) == DOMAIN + Stream(w) <==> SameUpToOrder(v, w)
  {
    StreamsAgreeExactly(v, w);
    assert (DOMAIN + Stream(v))[|DOMAIN|..] == Stream(v);
    assert (DOMAIN + Stream(w))[|DOMAIN|..] == Stream(w);
  }

  datatype Key = Key(actor: int, operation: Text, key: Text)
  datatype Entry = Entry(digest: seq<byte>, resource: int, response: Json)
  datatype Replay = Fresh(digest: seq<byte>) | Stored(response: Json) | Conflict
  datatype Answer = Created(response: Json) | Replayed(response: Json) | Refused | Failed

  class CreateTable {
    var table: map<Key, Entry>
    /** The ids of the resources that create requests have made. */
    var resources: seq<int>
    /** The request behind each row. */
    ghost var requests: map<Key, Json>

    ghost predicate Consistent() reads this {
      && requests.Keys == table.Keys
      && forall k | k in table ::
           Sized(requests[k]) && Valid(requests[k]) && table[k].digest == DOMAIN + Stream(requests[k])
    }

    constructor ()
      ensures Consistent() && table == map[] && resources == []
    {
      table, resources, requests := map[], [], map[];
    }

    /** `lock_and_replay`, under the advisory lock of the key. */
    method LockAndReplay(key: Key, request: Json) returns (r: Replay)
      requires Consistent() && Sized(request) && Valid(request)
      ensures r.Fresh? <==> key !in table
      ensures r.Fresh? ==> r.digest == DOMAIN + Stream(request)
      ensures r.Stored? <==> key in table && SameUpToOrder(requests[key], request)
      ensures r.Stored? ==> r.response == table[key].response
    {
      var digest := CanonicalDigest(request);
      if key !in table { return Fresh(digest); }
      DigestsAgreeExactly(requests[key], request);
      if table[key].digest != digest { return Conflict; }
      return Stored(table[key].response);
    }

    /** `complete`. */
    method Complete(key: Key, digest: seq<byte>, resource: int, response: Json, ghost request: Json)
      requires Consistent() && key !in table
      requires Sized(request) && Valid(request) && digest == DOMAIN + Stream(request)
      modifies this`table, this`requests
      ensures Consistent() && table == old(table)[key := Entry(digest, resource, response)]
      ensures requests == old(requests)[key := request]
    {
      table := table[key := Entry(digest, resource, response)];
      requests := requests[key := request];
    }

    /** `forget_resource`: the rows of a deleted resource, and no other. */
    method ForgetResource(operation: Text, resource: int)
      requires Consistent()
      modifies this`table, this`requests
      ensures Consistent() && table.Keys <= old(table).Keys
      ensures forall k | k in old(table) ::
                if k.operation == operation && old(table)[k].resource == resource then k !in table
                else k in table && table[k] == old(table)[k] && requests[k] == old(requests)[k]
    {
      requests := map k | k in table && !(k.operation == operation && table[k].resource == resource) :: requests[k];
      table := map k | k in table && !(k.operation == operation && table[k].resource == resource) :: table[k];
    }

    /** A create handler, in one transaction: at most one resource comes of a key, every repetition of the
        request is answered as the first one was, and other data under the key is refused. */
    method Create(key: Key, request: Json, resource: int, response: Json) returns (answer: Answer)
      requires Consistent() && Sized(request) && Valid(request)
      modifies this
      ensures Consistent()
      ensures key in old(table) ==>
                && table == old(table) && requests == old(requests) && resources == old(resources)
                && answer == if SameUpToOrder(old(requests)[key], request) then Replayed(old(table)[key].response)
                    else Refused
      ensures key !in old(table) ==>
                || (answer == Created(response) && resources == old(resources) + [resource] && key in table
                    && requests == old(requests)[key := request] && table == old(table)[key := table[key]]
                    && table[key].response == response && table[key].resource == resource)
                || (answer.Failed? && table == old(table) && requests == old(requests) && resources == old(resources))
    {
      var replay := LockAndReplay(key, request);
      match replay {
        case Stored(stored) => answer := Replayed(stored);
        case Conflict => answer := Refused;
        case Fresh(digest) =>
          if * { return Failed; }
          resources := resources + [resource];
          Complete(key, digest, resource, response, request);
          answer := Created(response);
      }
    }
  }

  /** A retried create: however the client orders the members this time, the second call gets the first
      response and makes nothing. */
  method CreateTwice(t: CreateTable, key: Key, request: Json, again: Json, resource: int, response: Json,
                     resource': int, response': Json)
    returns (first: Answer, second: Answer)
    requires t.Consistent() && key !in t.table
    requires Sized(request) && Valid(request) && Sized(again) && Valid(again) && SameUpToOrder(request, again)
    modifies t
    ensures t.Consistent()
    ensures first.Created? ==>
              first == Created(response) && second == Replayed(response) && t.resources == old(t.resources) + [resource]
  {
    first := t.Create(key, request, resource, response);
    second := t.Create(key, again, resource', response');
  }
}
