/**
 * The response every Cosmos DB call and every storage strategy returns: a request-unit cost
 * rounded to three decimals, the documents read, and a free-form diagnostic map.
 */
module CosmosResponse {
  import opened Wrappers

  /** k thousandths. */
  function Milli(k: int): real
  {
    k as real / 1000.0
  }

  /** x has at most three decimals. */
  predicate IsMilli(x: real)
  {
    Milli((x * 1000.0).Floor) == x
  }

  lemma MilliIsMilli(k: int)
    ensures IsMilli(Milli(k))
  {
    assert Milli(k) * 1000.0 == k as real;
  }

  /** Nearest integer, ties to the even neighbour (the default MidpointRounding.ToEven of Math.Round). */
  function RoundHalfEven(x: real): (n: int)
    ensures x - 0.5 <= n as real <= x + 0.5
    ensures x == x.Floor as real ==> n == x.Floor
  {
    var f := x.Floor;
    var d := x - f as real;
    if d < 0.5 then f
    else if d > 0.5 then f + 1
    else if f % 2 == 0 then f
    else f + 1
  }

  /** Math.Round(x, 3). */
  function Round3(x: real): (r: real)
    ensures -0.0005 <= r - x <= 0.0005
    ensures x >= 0.0 ==> r >= 0.0
  {
    Milli(RoundHalfEven(x * 1000.0))
  }

  /** A rounded value has three decimals. */
  lemma Round3IsMilli(x: real)
    ensures IsMilli(Round3(x))
  {
    MilliIsMilli(RoundHalfEven(x * 1000.0));
  }

  /** Rounding a value that already has three decimals changes nothing. */
  lemma Round3OfMilli(x: real)
    requires IsMilli(x)
    ensures Round3(x) == x
  {
    var k := (x * 1000.0).Floor;
    assert x * 1000.0 == k as real;
  }

  /** Rounding is idempotent. */
  lemma Round3Idempotent(x: real)
    ensures Round3(Round3(x)) == Round3(x)
  {
    Round3IsMilli(x);
    Round3OfMilli(Round3(x));
  }

  /** Three-decimal values are closed under addition, so adding rounded charges needs no further rounding. */
  lemma MilliSum(a: real, b: real)
    requires IsMilli(a) && IsMilli(b)
    ensures IsMilli(a + b)
    ensures Round3(a + b) == a + b
  {
    var ka, kb := (a * 1000.0).Floor, (b * 1000.0).Floor;
    assert a + b == Milli(ka + kb);
    MilliIsMilli(ka + kb);
    Round3OfMilli(a + b);
  }

  /** A diagnostic value of DynamicInformations: a string, a "{x} RU"-style figure, a count, a price, or a nested response. */
  datatype Info =
    | Text(text: string)
    | Units(units: real, suffix: string)
    | Count(count: int, suffix: string)
    | Price(price: real)
    | SubResponse(requestUnits: real, documentCount: nat)

  type Diagnostics = map<string, Info>

  /**
   * CosmosDbResponse<TDocument>: the typed document list and its untyped view (DynamicDocuments),
   * which the IEnumerable<object> constructor sets on its own.
   */
  datatype CosmosDbResponse<D> = CosmosDbResponse(
    requestUnits: real,
    documents: seq<D>,
    dynamicDocuments: seq<D>,
    dynamicInformations: Diagnostics)
  {
    /** The nested-response diagnostic recorded by a strategy under nameof(xxxResponse). */
    function AsInfo(): Info
    {
      SubResponse(requestUnits, |documents|)
    }

    /** The DynamicInformations setter of an object initializer. */
    function WithInformations(informations: Diagnostics): (r: CosmosDbResponse<D>)
      ensures r.requestUnits == requestUnits && r.documents == documents
      ensures r.dynamicDocuments == dynamicDocuments && r.dynamicInformations == informations
    {
      this.(dynamicInformations := informations)
    }
  }

  /** new CosmosDbResponse<TDocument>(requestUnits, params documents); a null array stands for None. */
  function NewResponse<D>(requestUnits: real, documents: Option<seq<D>>): (r: CosmosDbResponse<D>)
    ensures r.requestUnits == Round3(requestUnits)
    ensures -0.0005 <= r.requestUnits - requestUnits <= 0.0005
    ensures r.documents == (if documents.Some? then documents.value else [])
    ensures r.dynamicDocuments == r.documents
    ensures r.dynamicInformations == map[]
  {
    var docs := if documents.Some? then documents.value else [];
    CosmosDbResponse(Round3(requestUnits), docs, docs, map[])
  }

  /** new CosmosDbResponse(requestUnits, IEnumerable<object> documents): only the untyped view is filled. */
  function NewDynamicResponse<D>(requestUnits: real, documents: seq<D>): (r: CosmosDbResponse<D>)
    ensures r.requestUnits == Round3(requestUnits)
    ensures r.documents == [] && r.dynamicDocuments == documents
    ensures r.dynamicInformations == map[]
  {
    NewResponse(requestUnits, None).(dynamicDocuments := documents)
  }

  /** The non-generic CosmosDbDocument every strategy response is typed with. */
  datatype CosmosDbDocument = CosmosDbDocument(id: string, partitionKey: string)

  /** What a strategy returns: a CosmosDbResponse with no documents. */
  type StorageResponse = CosmosDbResponse<CosmosDbDocument>

  /** new CosmosDbResponse(requestUnits) { DynamicInformations = informations }. */
  function Respond(requestUnits: real, informations: Diagnostics): (r: StorageResponse)
    ensures r.requestUnits == Round3(requestUnits) && r.documents == [] && r.dynamicDocuments == []
    ensures r.dynamicInformations == informations
  {
    NewResponse(requestUnits, None).WithInformations(informations)
  }

  /** A response already rounded keeps its cost when a strategy rewraps it. */
  lemma RespondMilli(requestUnits: real, informations: Diagnostics)
    requires IsMilli(requestUnits)
    ensures Respond(requestUnits, informations).requestUnits == requestUnits
  {
    Round3OfMilli(requestUnits);
  }

  /** Two rounded charges add up to a three-decimal figure, which Respond keeps as it is. */
  lemma RespondRoundedSum(x: real, y: real, informations: Diagnostics)
    ensures IsMilli(Round3(x) + Round3(y))
    ensures Respond(Round3(x) + Round3(y), informations).requestUnits == Round3(x) + Round3(y)
  {
    Round3IsMilli(x);
    Round3IsMilli(y);
    MilliSum(Round3(x), Round3(y));
    RespondMilli(Round3(x) + Round3(y), informations);
  }

  /** The zero-cost responses of the not-found paths cost exactly nothing. */
  lemma RespondZero(informations: Diagnostics)
    ensures Respond(0.0, informations).requestUnits == 0.0
  {
    MilliIsMilli(0);
    RespondMilli(0.0, informations);
  }
}
