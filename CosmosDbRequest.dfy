/**
 * CosmosDbRequest<TDocument>: either a document (for inserts and point reads) or a query text.
 * The two static builders splice keys into a SQL text; ParseQuery is how the in-memory
 * container reads such a text back.
 */
module CosmosRequest {
  import opened Wrappers

  datatype CosmosDbRequest<D> = CosmosDbRequest(query: Option<string>, document: Option<D>)

  /** new CosmosDbRequest<TDocument>(document). */
  function FromDocument<D>(document: D): (r: CosmosDbRequest<D>)
    ensures r.document == Some(document) && r.query == None
  {
    CosmosDbRequest(None, Some(document))
  }

  /** new CosmosDbRequest<TDocument>(query). */
  function FromQuery<D>(query: string): (r: CosmosDbRequest<D>)
    ensures r.query == Some(query) && r.document == None
  {
    CosmosDbRequest(Some(query), None)
  }

  const PartitionKeyPrefix: string := "SELECT VALUE c FROM c WHERE c.PartitionKey = \""
  const IdInfix: string := " and c.id = \""

  /** A key that does not contain the quote character, so that splicing it into a query text is unambiguous. */
  predicate Unquoted(s: string)
  {
    '"' !in s
  }

  /** The query text of BuildBasedOnPartitionKey. */
  function PartitionKeyQuery(partitionKey: string): string
  {
    PartitionKeyPrefix + partitionKey + "\""
  }

  /** The query text of BuildBasedOnPartitionKeyAndId. */
  function PartitionKeyAndIdQuery(partitionKey: string, id: string): string
  {
    PartitionKeyPrefix + partitionKey + "\"" + IdInfix + id + "\""
  }

  /** The partition query: a quote-free key is read back from its text as that partition. */
  function BuildBasedOnPartitionKey<D>(partitionKey: string): (r: CosmosDbRequest<D>)
    ensures r == FromQuery(PartitionKeyQuery(partitionKey))
    ensures r.query.Some? && |r.query.value| == |PartitionKeyPrefix| + |partitionKey| + 1
    ensures Unquoted(partitionKey) ==> ParseQuery(r.query.value) == Some(ByPartitionKey(partitionKey))
  {
    assert Unquoted(partitionKey) ==> ParseQuery(PartitionKeyQuery(partitionKey)) == Some(ByPartitionKey(partitionKey)) by {
      if Unquoted(partitionKey) {
        ParsePartitionKeyQuery(partitionKey);
      }
    }
    FromQuery(PartitionKeyQuery(partitionKey))
  }

  /** The point query: quote-free keys are read back from its text as that partition key and id. */
  function BuildBasedOnPartitionKeyAndId<D>(partitionKey: string, id: string): (r: CosmosDbRequest<D>)
    ensures r == FromQuery(PartitionKeyAndIdQuery(partitionKey, id))
    ensures r.query.Some? && r.query.value == PartitionKeyQuery(partitionKey) + IdInfix + id + "\""
    ensures Unquoted(partitionKey) && Unquoted(id) ==>
      ParseQuery(r.query.value) == Some(ByPartitionKeyAndId(partitionKey, id))
  {
    assert Unquoted(partitionKey) && Unquoted(id) ==>
      ParseQuery(PartitionKeyAndIdQuery(partitionKey, id)) == Some(ByPartitionKeyAndId(partitionKey, id)) by {
      if Unquoted(partitionKey) && Unquoted(id) {
        ParsePartitionKeyAndIdQuery(partitionKey, id);
      }
    }
    FromQuery(PartitionKeyAndIdQuery(partitionKey, id))
  }

  /** The point query the strategies read a transaction's data document with: partition key and id both the transaction id. */
  function DataRequest<D>(transactionId: string): CosmosDbRequest<D>
  {
    BuildBasedOnPartitionKeyAndId(transactionId, transactionId)
  }

  /** The two query shapes the strategies issue. */
  datatype Query =
    | ByPartitionKey(partitionKey: string)
    | ByPartitionKeyAndId(partitionKey: string, id: string)

  /** The index of the first quote in s, or |s| when there is none. */
  function QuoteIndex(s: string): (i: nat)
    ensures i <= |s|
    ensures forall j :: 0 <= j < i ==> s[j] != '"'
    ensures i < |s| ==> s[i] == '"'
  {
    if s == [] then 0
    else if s[0] == '"' then 0
    else 1 + QuoteIndex(s[1..])
  }

  /** How the in-memory container reads a query text: the two shapes above, anything else is unreadable. */
  function ParseQuery(text: string): (q: Option<Query>)
    ensures q.Some? ==> |PartitionKeyPrefix| < |text| && text[..|PartitionKeyPrefix|] == PartitionKeyPrefix
  {
    var n := |PartitionKeyPrefix|;
    if |text| <= n || text[..n] != PartitionKeyPrefix then None
    else ParseKeys(text[n..])
  }

  /** What follows the prefix: the partition key up to its closing quote, then nothing or the id clause. */
  function ParseKeys(rest: string): Option<Query>
  {
    var i := QuoteIndex(rest);
    if i == |rest| then None
    else
      var partitionKey := rest[..i];
      var tail := rest[i + 1..];
      if tail == [] then Some(ByPartitionKey(partitionKey))
      else
        match ParseId(tail)
        case None => None
        case Some(id) => Some(ByPartitionKeyAndId(partitionKey, id))
  }

  /** The id clause: the infix, the id, and a closing quote that ends the text. */
  function ParseId(tail: string): Option<string>
  {
    var m := |IdInfix|;
    if |tail| <= m || tail[..m] != IdInfix then None
    else
      var idPart := tail[m..];
      var j := QuoteIndex(idPart);
      if j + 1 == |idPart| then Some(idPart[..j]) else None
  }

  /** A quote-free key is found again before the closing quote. */
  lemma QuoteIndexAfterKey(key: string, tail: string)
    requires Unquoted(key) && tail != [] && tail[0] == '"'
    ensures QuoteIndex(key + tail) == |key|
  {
    if key != [] {
      assert (key + tail)[1..] == key[1..] + tail;
      QuoteIndexAfterKey(key[1..], tail);
    } else {
      assert key + tail == tail;
    }
  }

  /** Behind the prefix, the text is read by ParseKeys. */
  lemma ParsePrefixed(rest: string)
    ensures ParseQuery(PartitionKeyPrefix + rest) == ParseKeys(rest)
  {
    var text := PartitionKeyPrefix + rest;
    assert text[..|PartitionKeyPrefix|] == PartitionKeyPrefix && text[|PartitionKeyPrefix|..] == rest;
  }

  /** A quote-free partition key is read back up to its closing quote. */
  lemma ParseKeysAfterKey(partitionKey: string, tail: string)
    requires Unquoted(partitionKey)
    ensures ParseKeys(partitionKey + ("\"" + tail)) ==
      if tail == [] then Some(ByPartitionKey(partitionKey))
      else match ParseId(tail)
        case None => None
        case Some(id) => Some(ByPartitionKeyAndId(partitionKey, id))
  {
    var rest := partitionKey + ("\"" + tail);
    assert rest[..|partitionKey|] == partitionKey && rest[|partitionKey|..] == "\"" + tail;
    QuoteIndexAfterKey(partitionKey, "\"" + tail);
    assert rest[|partitionKey| + 1..] == tail;
  }

  /** A quote-free id is read back from its clause. */
  lemma ParseIdOf(id: string)
    requires Unquoted(id)
    ensures ParseId(IdInfix + (id + "\"")) == Some(id)
  {
    var clause := IdInfix + (id + "\"");
    assert clause[..|IdInfix|] == IdInfix && clause[|IdInfix|..] == id + "\"";
    assert (id + "\"")[..|id|] == id;
    QuoteIndexAfterKey(id, "\"");
  }

  /** BuildBasedOnPartitionKey round-trips through ParseQuery for a quote-free key. */
  lemma ParsePartitionKeyQuery(partitionKey: string)
    requires Unquoted(partitionKey)
    ensures ParseQuery(PartitionKeyQuery(partitionKey)) == Some(ByPartitionKey(partitionKey))
  {
    var rest := partitionKey + ("\"" + []);
    assert PartitionKeyQuery(partitionKey) == PartitionKeyPrefix + rest;
    ParsePrefixed(rest);
    ParseKeysAfterKey(partitionKey, []);
  }

  /** The partition-key-and-id text, grouped from the right. */
  lemma AndIdQueryShape(partitionKey: string, id: string)
    ensures PartitionKeyAndIdQuery(partitionKey, id) == PartitionKeyPrefix + (partitionKey + ("\"" + (IdInfix + (id + "\""))))
  {
  }

  /** BuildBasedOnPartitionKeyAndId round-trips through ParseQuery for quote-free keys. */
  lemma ParsePartitionKeyAndIdQuery(partitionKey: string, id: string)
    requires Unquoted(partitionKey) && Unquoted(id)
    ensures ParseQuery(PartitionKeyAndIdQuery(partitionKey, id)) == Some(ByPartitionKeyAndId(partitionKey, id))
  {
    var tail := IdInfix + (id + "\"");
    var rest := partitionKey + ("\"" + tail);
    AndIdQueryShape(partitionKey, id);
    ParsePrefixed(rest);
    ParseIdOf(id);
    ParseKeysAfterKey(partitionKey, tail);
  }

  /**
   * Keys are spliced in verbatim, with no escaping: a partition key holding a quote turns a
   * partition-key query into a partition-key-and-id query.
   */
  lemma PartitionKeyQueryInjection()
    ensures ParseQuery(PartitionKeyQuery("T1\" and c.id = \"T2")) == Some(ByPartitionKeyAndId("T1", "T2"))
  {
    var text := PartitionKeyQuery("T1\" and c.id = \"T2");
    assert text == PartitionKeyAndIdQuery("T1", "T2");
    ParsePartitionKeyAndIdQuery("T1", "T2");
  }

  /** char.IsWhiteSpace, restricted to the ASCII white-space characters. */
  predicate IsWhiteSpace(c: char)
  {
    c == ' ' || c == '\t' || c == '\n' || c == '\r' || c == '\U{B}' || c == '\U{C}'
  }

  /** string.IsNullOrWhiteSpace. */
  predicate IsNullOrWhiteSpace(s: Option<string>)
  {
    s.None? || forall i :: 0 <= i < |s.value| ==> IsWhiteSpace(s.value[i])
  }

  /** The text of either builder is never blank, so CosmosDbClient.GetAsync always takes its query path for it. */
  lemma BuiltQueriesAreNotBlank(partitionKey: string, id: string)
    ensures !IsNullOrWhiteSpace(BuildBasedOnPartitionKey<int>(partitionKey).query)
    ensures !IsNullOrWhiteSpace(BuildBasedOnPartitionKeyAndId<int>(partitionKey, id).query)
  {
    var text := PartitionKeyQuery(partitionKey);
    assert text[|text| - 1] == '"';
    var text' := PartitionKeyAndIdQuery(partitionKey, id);
    assert text'[|text'| - 1] == '"';
  }
}
