/**
 * CosmosDbClient<TDocument> over an in-memory container: documents keyed by (PartitionKey, id),
 * a create that refuses a taken key, and reads by query or by item. The service-reported charge
 * of each call is the function `charge` of the request.
 */
module CosmosClient {
  import opened Wrappers
  import opened CosmosResponse
  import opened CosmosRequest

  /** (PartitionKey, id): the identity of a document in a container. */
  type Key = (string, string)

  /** SingleOrDefault: no element gives None, one gives it, more throw. */
  function SingleOrDefault<D>(documents: seq<D>): (r: Result<Option<D>, Error>)
    ensures r == Ok(None) <==> documents == []
    ensures r.Ok? && r.value.Some? <==> |documents| == 1
    ensures r.Ok? && r.value.Some? ==> r.value.value == documents[0]
    ensures r.Err? <==> |documents| > 1
    ensures r.Err? ==> r.error == MoreThanOneElement
  {
    if |documents| == 0 then Ok(None)
    else if |documents| == 1 then Ok(Some(documents[0]))
    else Err(MoreThanOneElement)
  }

  /**
   * What a caller taking SingleOrDefault of GetAsync's documents obtains from a container keyed by
   * (partitionKeyOf, idOf) and charging `charge`: the rounded charge and the one document (or
   * none), or the error. It does not depend on the order a partition query returns its documents in.
   */
  ghost function ReadSingle<D(!new)>(
    idOf: D -> string, partitionKeyOf: D -> string, charge: CosmosDbRequest<D> -> real,
    items: map<Key, D>, request: CosmosDbRequest<D>): Result<(real, Option<D>), Error>
  {
    var units := Round3(charge(request));
    if IsNullOrWhiteSpace(request.query) then
      if request.document.None? then Err(NullReference)
      else
        var key := (partitionKeyOf(request.document.value), idOf(request.document.value));
        if key in items then Ok((units, Some(items[key]))) else Err(NotFound(key.0, key.1))
    else
      match ParseQuery(request.query.value)
      case None => Err(BadQuery(request.query.value))
      case Some(ByPartitionKeyAndId(pk, id)) =>
        Ok((units, if (pk, id) in items then Some(items[(pk, id)]) else None))
      case Some(ByPartitionKey(pk)) =>
        var keys := set k | k in items && k.0 == pk;
        if keys == {} then Ok((units, None))
        else if |keys| > 1 then Err(MoreThanOneElement)
        else
          var k :| k in keys;
          Ok((units, Some(items[k])))
  }

  class CosmosDbClient<D(!new)> {
    /** ICosmosDbDocument.Id of a document. */
    const idOf: D -> string
    /** ICosmosDbDocument.PartitionKey of a document. */
    const partitionKeyOf: D -> string
    /** The request charge the service reports for a request. */
    const charge: CosmosDbRequest<D> -> real
    /**
     * ReadSingle of this container, as a value: Valid ties the two together, so that a proof about
     * a caller can pass the outcome of a read around without unfolding how it is computed.
     */
    ghost const read: (map<Key, D>, CosmosDbRequest<D>) -> Result<(real, Option<D>), Error>
    /** The container's documents. */
    var items: map<Key, D>

    function KeyOf(document: D): Key
    {
      (partitionKeyOf(document), idOf(document))
    }

    ghost predicate Valid()
      reads this
    {
      && (forall k :: k in items ==> KeyOf(items[k]) == k)
      && (forall request :: charge(request) >= 0.0)
    }

    /** `read` is ReadSingle of this container; it depends on constants only, so no write can break it. */
    ghost predicate ReadIsSpecified()
    {
      forall contents, request {:trigger ReadSingle(idOf, partitionKeyOf, charge, contents, request)} ::
        read(contents, request) == ReadSingle(idOf, partitionKeyOf, charge, contents, request)
    }

    constructor (idOf: D -> string, partitionKeyOf: D -> string, charge: CosmosDbRequest<D> -> real, items: map<Key, D>)
      requires forall request :: charge(request) >= 0.0
      requires forall k :: k in items ==> (partitionKeyOf(items[k]), idOf(items[k])) == k
      ensures Valid() && ReadIsSpecified()
      ensures this.idOf == idOf && this.partitionKeyOf == partitionKeyOf && this.charge == charge
      ensures this.items == items
    {
      this.idOf := idOf;
      this.partitionKeyOf := partitionKeyOf;
      this.charge := charge;
      this.read := (contents, request) => ReadSingle(idOf, partitionKeyOf, charge, contents, request);
      this.items := items;
    }

    /** The outcome of InsertAsync on a container holding `items`: the response or error, and the new contents. */
    function Insert(items: map<Key, D>, request: CosmosDbRequest<D>): (Result<CosmosDbResponse<D>, Error>, map<Key, D>)
    {
      if request.document.None? then (Err(NullReference), items)
      else
        var key := KeyOf(request.document.value);
        if key in items then (Err(Conflict(key.0, key.1)), items)
        else (Ok(NewResponse(charge(request), None)), items[key := request.document.value])
    }

    /** An insert adds exactly the document under its own key when the key is free, and changes nothing otherwise. */
    lemma InsertEffect(items: map<Key, D>, document: D)
      ensures var (r, items') := Insert(items, FromDocument(document));
        && (r.Ok? <==> KeyOf(document) !in items)
        && (r.Ok? ==> items' == items[KeyOf(document) := document] && |items'| == |items| + 1
                      && r.value.requestUnits == Round3(charge(FromDocument(document))) && r.value.documents == [])
        && (r.Err? ==> items' == items && r.error == Conflict(KeyOf(document).0, KeyOf(document).1))
    {
    }

    /** CosmosDbClient<TDocument>.InsertAsync: CreateItemAsync under the document's own key. */
    method InsertAsync(request: CosmosDbRequest<D>) returns (r: Result<CosmosDbResponse<D>, Error>)
      requires Valid()
      modifies this
      ensures Valid()
      ensures (r, items) == Insert(old(items), request)
    {
      if request.document.None? {
        return Err(NullReference);
      }
      var document := request.document.value;
      var key := KeyOf(document);
      if key in items {
        return Err(Conflict(key.0, key.1));
      }
      items := items[key := document];
      r := Ok(NewResponse(charge(request), None));
    }

    /** A partition query on a quote-free key with no document under it finds nothing. */
    lemma ReadPartitionEmpty(items: map<Key, D>, partitionKey: string)
      requires ReadIsSpecified()
      requires Unquoted(partitionKey)
      requires forall k :: k in items ==> k.0 != partitionKey
      ensures read(items, BuildBasedOnPartitionKey(partitionKey)) == Ok((Round3(charge(BuildBasedOnPartitionKey(partitionKey))), None))
    {
      assert read(items, BuildBasedOnPartitionKey(partitionKey)) == ReadSingle(idOf, partitionKeyOf, charge, items, BuildBasedOnPartitionKey(partitionKey));
      ParsePartitionKeyQuery(partitionKey);
      assert (set k | k in items && k.0 == partitionKey) == {};
    }

    /** A partition query on a quote-free key holding exactly one document finds it. */
    lemma ReadPartitionOne(items: map<Key, D>, partitionKey: string, key: Key)
      requires ReadIsSpecified()
      requires Unquoted(partitionKey)
      requires (set k | k in items && k.0 == partitionKey) == {key}
      ensures key in items
      ensures read(items, BuildBasedOnPartitionKey(partitionKey)) == Ok((Round3(charge(BuildBasedOnPartitionKey(partitionKey))), Some(items[key])))
    {
      assert read(items, BuildBasedOnPartitionKey(partitionKey)) == ReadSingle(idOf, partitionKeyOf, charge, items, BuildBasedOnPartitionKey(partitionKey));
      ParsePartitionKeyQuery(partitionKey);
      assert key in (set k | k in items && k.0 == partitionKey);
    }

    /** A partition query on a quote-free key holding two documents or more fails in SingleOrDefault. */
    lemma ReadPartitionMany(items: map<Key, D>, partitionKey: string, a: Key, b: Key)
      requires ReadIsSpecified()
      requires Unquoted(partitionKey)
      requires a in items && b in items && a != b && a.0 == partitionKey && b.0 == partitionKey
      ensures read(items, BuildBasedOnPartitionKey(partitionKey)) == Err(MoreThanOneElement)
    {
      assert read(items, BuildBasedOnPartitionKey(partitionKey)) == ReadSingle(idOf, partitionKeyOf, charge, items, BuildBasedOnPartitionKey(partitionKey));
      ParsePartitionKeyQuery(partitionKey);
      var keys := set k | k in items && k.0 == partitionKey;
      assert a in keys && b in keys;
      TwoInSet(keys, a, b);
    }

    /** A point query on quote-free keys finds the document under (PartitionKey, id), or nothing. */
    lemma ReadPoint(items: map<Key, D>, partitionKey: string, id: string)
      requires ReadIsSpecified()
      requires Unquoted(partitionKey) && Unquoted(id)
      ensures read(items, BuildBasedOnPartitionKeyAndId(partitionKey, id))
        == Ok((Round3(charge(BuildBasedOnPartitionKeyAndId(partitionKey, id))),
               if (partitionKey, id) in items then Some(items[(partitionKey, id)]) else None))
    {
      assert read(items, BuildBasedOnPartitionKeyAndId(partitionKey, id)) == ReadSingle(idOf, partitionKeyOf, charge, items, BuildBasedOnPartitionKeyAndId(partitionKey, id));
      ParsePartitionKeyAndIdQuery(partitionKey, id);
    }

    /** Insert every document in turn; the first error in list order, every charge, and the final contents. */
    function InsertAll(items: map<Key, D>, documents: seq<D>): (Option<Error>, seq<real>, map<Key, D>)
      decreases |documents|
    {
      if documents == [] then (None, [], items)
      else
        var before := InsertAll(items, documents[..|documents| - 1]);
        var inserted := Insert(before.2, FromDocument(documents[|documents| - 1]));
        (FirstError(before.0, ErrorOf(inserted.0)), before.1 + [UnitsOf(inserted.0)], inserted.1)
    }

    /** Inserting documents whose keys are fresh and pairwise distinct succeeds and charges each its rounded price. */
    lemma {:induction false} InsertAllFresh(items: map<Key, D>, documents: seq<D>)
      requires forall i, j :: 0 <= i < j < |documents| ==> KeyOf(documents[i]) != KeyOf(documents[j])
      requires forall i :: 0 <= i < |documents| ==> KeyOf(documents[i]) !in items
      ensures InsertAll(items, documents).0.None?
      ensures |InsertAll(items, documents).1| == |documents|
      ensures forall i :: 0 <= i < |documents| ==> InsertAll(items, documents).1[i] == Round3(charge(FromDocument(documents[i])))
      decreases |documents|
    {
      InsertAllUnits(items, documents);
      if documents != [] {
        var n := |documents| - 1;
        var prefix := documents[..n];
        assert forall i :: 0 <= i < n ==> prefix[i] == documents[i];
        InsertAllFresh(items, prefix);
        InsertAllKeys(items, prefix);
        var before := InsertAll(items, prefix);
        assert KeyOf(documents[n]) !in before.2;
      }
    }

    /** A run of inserts reports one charge per document; when none failed, each is the document's rounded price. */
    lemma {:induction false} InsertAllUnits(items: map<Key, D>, documents: seq<D>)
      ensures |InsertAll(items, documents).1| == |documents|
      ensures InsertAll(items, documents).0.None? ==>
        forall i :: 0 <= i < |documents| ==> InsertAll(items, documents).1[i] == Round3(charge(FromDocument(documents[i])))
      decreases |documents|
    {
      if documents != [] {
        var n := |documents| - 1;
        var prefix := documents[..n];
        InsertAllUnits(items, prefix);
        assert forall i :: 0 <= i < n ==> prefix[i] == documents[i];
      }
    }

    /** The contents `base` after the documents are put under their keys one after the other, a later key replacing an earlier one. */
    function Inserted(base: map<Key, D>, documents: seq<D>): map<Key, D>
      decreases |documents|
    {
      if documents == [] then base
      else
        var last := documents[|documents| - 1];
        Inserted(base, documents[..|documents| - 1])[KeyOf(last) := last]
    }

    /** A key is in Inserted(base, documents) exactly when it is in base or is the key of one of the documents; other keys keep their document. */
    lemma {:induction false} InsertedKeys(base: map<Key, D>, documents: seq<D>)
      ensures forall k :: k in Inserted(base, documents) <==> k in base || exists i :: 0 <= i < |documents| && KeyOf(documents[i]) == k
      ensures forall k :: k in base && (forall i :: 0 <= i < |documents| ==> KeyOf(documents[i]) != k) ==>
        Inserted(base, documents)[k] == base[k]
      decreases |documents|
    {
      if documents != [] {
        var n := |documents| - 1;
        InsertedKeys(base, documents[..n]);
        assert forall i :: 0 <= i < n ==> documents[..n][i] == documents[i];
      }
    }

    /** With pairwise distinct keys, each document is found under its key. */
    lemma {:induction false} InsertedAt(base: map<Key, D>, documents: seq<D>)
      requires forall i, j :: 0 <= i < j < |documents| ==> KeyOf(documents[i]) != KeyOf(documents[j])
      ensures forall i :: 0 <= i < |documents| ==>
        KeyOf(documents[i]) in Inserted(base, documents) && Inserted(base, documents)[KeyOf(documents[i])] == documents[i]
      decreases |documents|
    {
      if documents != [] {
        var n := |documents| - 1;
        var prefix := documents[..n];
        assert forall i :: 0 <= i < n ==> prefix[i] == documents[i];
        InsertedAt(base, prefix);
      }
    }

    /** With pairwise distinct keys not in base, the contents grow by exactly the number of documents. */
    lemma {:induction false} InsertedCount(base: map<Key, D>, documents: seq<D>)
      requires forall i, j :: 0 <= i < j < |documents| ==> KeyOf(documents[i]) != KeyOf(documents[j])
      requires forall i :: 0 <= i < |documents| ==> KeyOf(documents[i]) !in base
      ensures |Inserted(base, documents)| == |base| + |documents|
      decreases |documents|
    {
      if documents != [] {
        var n := |documents| - 1;
        var prefix := documents[..n];
        assert forall i :: 0 <= i < n ==> prefix[i] == documents[i];
        InsertedCount(base, prefix);
        InsertedKeys(base, prefix);
        assert KeyOf(documents[n]) !in Inserted(base, prefix);
      }
    }

    /** Inserting documents whose keys are fresh and pairwise distinct puts each under its key in turn. */
    lemma {:induction false} InsertAllFreshState(items: map<Key, D>, documents: seq<D>)
      requires forall i, j :: 0 <= i < j < |documents| ==> KeyOf(documents[i]) != KeyOf(documents[j])
      requires forall i :: 0 <= i < |documents| ==> KeyOf(documents[i]) !in items
      ensures InsertAll(items, documents).2 == Inserted(items, documents)
      decreases |documents|
    {
      if documents != [] {
        var n := |documents| - 1;
        var prefix := documents[..n];
        assert forall i :: 0 <= i < n ==> prefix[i] == documents[i];
        InsertAllFreshState(items, prefix);
        InsertedKeys(items, prefix);
        assert KeyOf(documents[n]) !in InsertAll(items, prefix).2;
      }
    }

    /** ... and adds exactly those documents: the old ones stay, each new one is under its key, and no other key appears. */
    lemma InsertAllContents(items: map<Key, D>, documents: seq<D>)
      requires forall i, j :: 0 <= i < j < |documents| ==> KeyOf(documents[i]) != KeyOf(documents[j])
      requires forall i :: 0 <= i < |documents| ==> KeyOf(documents[i]) !in items
      ensures var items' := InsertAll(items, documents).2;
        && (forall k :: k in items ==> k in items' && items'[k] == items[k])
        && (forall i :: 0 <= i < |documents| ==> KeyOf(documents[i]) in items' && items'[KeyOf(documents[i])] == documents[i])
        && |items'| == |items| + |documents|
    {
      InsertAllFreshState(items, documents);
      InsertedKeys(items, documents);
      InsertedAt(items, documents);
      InsertedCount(items, documents);
    }

    /** Every key after a run of inserts was there before or is the key of one of the documents. */
    lemma {:induction false} InsertAllKeys(items: map<Key, D>, documents: seq<D>)
      ensures forall k :: k in InsertAll(items, documents).2 ==>
        k in items || exists i :: 0 <= i < |documents| && k == KeyOf(documents[i])
      decreases |documents|
    {
      if documents != [] {
        var n := |documents| - 1;
        InsertAllKeys(items, documents[..n]);
        forall k | k in InsertAll(items, documents).2 && k !in items
          ensures exists i :: 0 <= i < |documents| && k == KeyOf(documents[i])
        {
          if k in InsertAll(items, documents[..n]).2 {
            var i :| 0 <= i < n && k == KeyOf(documents[..n][i]);
            assert k == KeyOf(documents[i]);
          } else {
            assert k == KeyOf(documents[n]);
          }
        }
      }
    }

    /** A run of inserts that repeats a key reports an error. */
    lemma {:induction false} InsertAllClash(items: map<Key, D>, documents: seq<D>, i: nat, j: nat)
      requires i < j < |documents| && KeyOf(documents[i]) == KeyOf(documents[j])
      ensures InsertAll(items, documents).0.Some?
      decreases |documents|
    {
      var n := |documents| - 1;
      if j < n {
        InsertAllClash(items, documents[..n], i, j);
      } else {
        InsertAllKeeps(items, documents[..n], i);
      }
    }

    /** The document of an insert stays under its key through later inserts. */
    lemma {:induction false} InsertAllKeeps(items: map<Key, D>, documents: seq<D>, i: nat)
      requires i < |documents|
      ensures KeyOf(documents[i]) in InsertAll(items, documents).2
      decreases |documents|
    {
      var n := |documents| - 1;
      if i < n {
        InsertAllKeeps(items, documents[..n], i);
      }
    }

    /** InsertAsync on each document in turn (each Task object a strategy starts and then awaits together). */
    method InsertAllAsync(documents: seq<D>) returns (error: Option<Error>, units: seq<real>)
      requires Valid()
      modifies this
      ensures Valid()
      ensures (error, units, items) == InsertAll(old(items), documents)
    {
      error, units := None, [];
      var i := 0;
      while i < |documents|
        invariant 0 <= i <= |documents| && Valid()
        invariant (error, units, items) == InsertAll(old(items), documents[..i])
      {
        assert documents[..i + 1][..i] == documents[..i];
        var r := InsertAsync(FromDocument(documents[i]));
        error, units := FirstError(error, ErrorOf(r)), units + [UnitsOf(r)];
        i := i + 1;
      }
      assert documents[..i] == documents;
    }

    /** The keys of the documents stored under one partition key. */
    ghost function PartitionKeys(partitionKey: string): set<Key>
      reads this
    {
      set k | k in items && k.0 == partitionKey
    }

    /** The documents a point query finds: none or the one under (PartitionKey, id). */
    function PointQuery(items: map<Key, D>, partitionKey: string, id: string): (documents: seq<D>)
      ensures |documents| <= 1
      ensures documents == [] <==> (partitionKey, id) !in items
    {
      if (partitionKey, id) in items then [items[(partitionKey, id)]] else []
    }

    /** CosmosDbClient<TDocument>.GetAsync: a non-blank query goes to the query path, otherwise the item is read by the request document's key. */
    method GetAsync(request: CosmosDbRequest<D>) returns (r: Result<CosmosDbResponse<D>, Error>, ghost keys: seq<Key>)
      requires Valid()
      ensures !IsNullOrWhiteSpace(request.query) ==>
        var text := request.query.value;
        match ParseQuery(text)
        case None => r == Err(BadQuery(text))
        case Some(ByPartitionKeyAndId(pk, id)) => r == Ok(NewResponse(charge(request), Some(PointQuery(items, pk, id))))
        case Some(ByPartitionKey(pk)) =>
          && r.Ok? && r.value.requestUnits == Round3(charge(request))
          && r.value.dynamicDocuments == r.value.documents && r.value.dynamicInformations == map[]
          && |r.value.documents| == |keys| == |PartitionKeys(pk)|
          && (forall i :: 0 <= i < |keys| ==> keys[i] in PartitionKeys(pk) && r.value.documents[i] == items[keys[i]])
          && (forall i, j :: 0 <= i < j < |keys| ==> keys[i] != keys[j])
      ensures IsNullOrWhiteSpace(request.query) ==>
        if request.document.None? then r == Err(NullReference)
        else
          var key := KeyOf(request.document.value);
          r == if key in items then Ok(NewResponse(charge(request), Some([items[key]]))) else Err(NotFound(key.0, key.1))
      ensures SingleOf(r) == ReadSingle(idOf, partitionKeyOf, charge, items, request)
    {
      if !IsNullOrWhiteSpace(request.query) {
        r, keys := GetByQueryAsync(request);
      } else {
        r := GetByItemAsync(request);
        keys := [];
      }
    }

    /** GetByItemAsync: a point read by the request document's (PartitionKey, Id); a missing item is NotFound. */
    method GetByItemAsync(request: CosmosDbRequest<D>) returns (r: Result<CosmosDbResponse<D>, Error>)
      requires Valid() && IsNullOrWhiteSpace(request.query)
      ensures if request.document.None? then r == Err(NullReference)
        else
          var key := KeyOf(request.document.value);
          r == if key in items then Ok(NewResponse(charge(request), Some([items[key]]))) else Err(NotFound(key.0, key.1))
      ensures SingleOf(r) == ReadSingle(idOf, partitionKeyOf, charge, items, request)
    {
      if request.document.None? {
        return Err(NullReference);
      }
      var key := KeyOf(request.document.value);
      if key !in items {
        return Err(NotFound(key.0, key.1));
      }
      r := Ok(NewResponse(charge(request), Some([items[key]])));
    }

    /**
     * GetByQueryAsync: the documents the query selects, gathered one by one, at the request's
     * charge. The ghost `keys` say where each document of a partition query came from.
     */
    method GetByQueryAsync(request: CosmosDbRequest<D>) returns (r: Result<CosmosDbResponse<D>, Error>, ghost keys: seq<Key>)
      requires Valid() && !IsNullOrWhiteSpace(request.query)
      ensures var text := request.query.value;
        match ParseQuery(text)
        case None => r == Err(BadQuery(text))
        case Some(ByPartitionKeyAndId(pk, id)) => r == Ok(NewResponse(charge(request), Some(PointQuery(items, pk, id))))
        case Some(ByPartitionKey(pk)) =>
          && r.Ok? && r.value.requestUnits == Round3(charge(request))
          && r.value.dynamicDocuments == r.value.documents && r.value.dynamicInformations == map[]
          && |r.value.documents| == |keys| == |PartitionKeys(pk)|
          && (forall i :: 0 <= i < |keys| ==> keys[i] in PartitionKeys(pk) && r.value.documents[i] == items[keys[i]])
          && (forall i, j :: 0 <= i < j < |keys| ==> keys[i] != keys[j])
      ensures SingleOf(r) == ReadSingle(idOf, partitionKeyOf, charge, items, request)
    {
      keys := [];
      var text := request.query.value;
      var query := ParseQuery(text);
      if query.None? {
        return Err(BadQuery(text)), keys;
      }
      match query.value
      case ByPartitionKeyAndId(pk, id) =>
        r := Ok(NewResponse(charge(request), Some(PointQuery(items, pk, id))));
      case ByPartitionKey(pk) =>
        var documents;
        documents, keys := QueryPartition(pk);
        r := Ok(NewResponse(charge(request), Some(documents)));
        if |documents| == 1 {
          ghost var ks := PartitionKeys(pk);
          ghost var k :| k in ks && items[k] == ReadSingle(idOf, partitionKeyOf, charge, items, request).value.1.value;
          SingletonSet(ks, k, keys[0]);
        }
    }

    /** The documents of one partition, each taken once, in no particular order. */
    method QueryPartition(pk: string) returns (documents: seq<D>, ghost keys: seq<Key>)
      ensures |documents| == |keys| == |PartitionKeys(pk)|
      ensures forall i :: 0 <= i < |keys| ==> keys[i] in PartitionKeys(pk) && documents[i] == items[keys[i]]
      ensures forall i, j :: 0 <= i < j < |keys| ==> keys[i] != keys[j]
    {
      documents, keys := [], [];
      var remaining := set k | k in items.Keys && k.0 == pk;
      while remaining != {}
        invariant remaining <= PartitionKeys(pk)
        invariant |documents| == |keys|
        invariant |documents| + |remaining| == |PartitionKeys(pk)|
        invariant forall i :: 0 <= i < |keys| ==> keys[i] in PartitionKeys(pk) && keys[i] !in remaining
        invariant forall i :: 0 <= i < |keys| ==> documents[i] == items[keys[i]]
        invariant forall i, j :: 0 <= i < j < |keys| ==> keys[i] != keys[j]
        decreases |remaining|
      {
        var k :| k in remaining;
        documents := documents + [items[k]];
        keys := keys + [k];
        remaining := remaining - {k};
      }
    }

    /** GetAsync followed by SingleOrDefault on its documents, as every strategy reads one document. */
    method GetSingleAsync(request: CosmosDbRequest<D>) returns (r: Result<(real, Option<D>), Error>)
      requires Valid() && ReadIsSpecified()
      ensures r == read(items, request)
    {
      assert read(items, request) == ReadSingle(idOf, partitionKeyOf, charge, items, request);
      var response, keys := GetAsync(request);
      if response.Err? {
        return Err(response.error);
      }
      var document := SingleOrDefault(response.value.documents);
      if document.Err? {
        return Err(document.error);
      }
      r := Ok((response.value.requestUnits, document.value));
    }
  }

  /** The view of GetAsync's outcome a caller taking SingleOrDefault of the documents has. */
  function SingleOf<D>(r: Result<CosmosDbResponse<D>, Error>): Result<(real, Option<D>), Error>
  {
    match r
    case Err(e) => Err(e)
    case Ok(response) =>
      match SingleOrDefault(response.documents)
      case Err(e) => Err(e)
      case Ok(document) => Ok((response.requestUnits, document))
  }

  function ErrorOf<T>(r: Result<T, Error>): Option<Error>
  {
    if r.Err? then Some(r.error) else None
  }

  /** The request charge of a successful call; a failed one is not added up by anybody. */
  function UnitsOf<D>(r: Result<CosmosDbResponse<D>, Error>): real
  {
    if r.Ok? then r.value.requestUnits else 0.0
  }

  /** A set with one element holds nothing else. */
  lemma SingletonSet<K>(s: set<K>, a: K, b: K)
    requires |s| == 1 && a in s && b in s
    ensures a == b
  {
    var rest := s - {a};
    assert |rest| == 0;
    assert b !in rest;
  }

  /** A set holding two different elements has more than one. */
  lemma TwoInSet<K>(s: set<K>, a: K, b: K)
    requires a in s && b in s && a != b
    ensures |s| > 1
  {
    var rest := s - {a};
    assert b in rest;
    assert s == rest + {a};
  }
}
