/**
 * LegacyCosmosDbStorage: a transaction is saved as a data document, a payload document and one
 * correlation document per order; an order id is resolved by a partition query on the
 * correlations, then a point read of the data document.
 */
module LegacyStorage {
  import opened Wrappers
  import opened Contracts
  import opened CosmosResponse
  import opened CosmosRequest
  import opened CosmosClient
  import opened TransactionDocuments
  import opened LegacyDocuments

  /** The charges added up left to right, as the foreach of GetRequestUnitsAsync does. */
  function Sum(units: seq<real>): real
    decreases |units|
  {
    if units == [] then 0.0 else Sum(units[..|units| - 1]) + units[|units| - 1]
  }

  /** A sum of three-decimal charges has three decimals, so its rounding changes nothing. */
  lemma {:induction false} SumOfMilli(units: seq<real>)
    requires forall i :: 0 <= i < |units| ==> IsMilli(units[i])
    ensures IsMilli(Sum(units)) && Round3(Sum(units)) == Sum(units)
    decreases |units|
  {
    if units == [] {
      MilliIsMilli(0);
      Round3OfMilli(0.0);
    } else {
      SumOfMilli(units[..|units| - 1]);
      MilliSum(Sum(units[..|units| - 1]), units[|units| - 1]);
    }
  }

  /** Each charge rounded to three decimals, as the response of each insert reports it. */
  function Rounded(charges: seq<real>): (r: seq<real>)
    ensures |r| == |charges|
    ensures forall i :: 0 <= i < |charges| ==> r[i] == Round3(charges[i])
  {
    seq(|charges|, i requires 0 <= i < |charges| => Round3(charges[i]))
  }

  /** GetRequestUnitsAsync: the charges of the correlation inserts, added up and rounded to three decimals. */
  method GetRequestUnits(units: seq<real>) returns (r: real)
    ensures r == Round3(Sum(units))
  {
    var requestUnits := 0.0;
    var i := 0;
    while i < |units|
      invariant 0 <= i <= |units|
      invariant requestUnits == Sum(units[..i])
    {
      assert units[..i + 1][..i] == units[..i];
      requestUnits := requestUnits + units[i];
      i := i + 1;
    }
    assert units[..i] == units;
    r := Round3(requestUnits);
  }

  /** The "{x} RU" figures a Save reports. */
  function SaveInformations(dataRequestUnits: real, payloadRequestUnits: real, correlationRequestUnits: real): Diagnostics
  {
    map[
      "dataRequestUnits" := Units(dataRequestUnits, " RU"),
      "payloadRequestUnits" := Units(payloadRequestUnits, " RU"),
      "correlationRequestUnits" := Units(correlationRequestUnits, " RU")]
  }

  /**
   * What SaveAsync answers once its inserts are done: the first error in the order its Task objects are
   * awaited (correlations, data, payload), or the three charges, the correlation one summed and rounded.
   */
  function SaveResponse(
    dataResult: Result<CosmosDbResponse<CosmosDataDocument>, Error>,
    payloadResult: Result<CosmosDbResponse<CosmosPayloadDocument>, Error>,
    correlationError: Option<Error>, correlationUnits: seq<real>): Result<StorageResponse, Error>
  {
    var error := FirstError(correlationError, FirstError(ErrorOf(dataResult), ErrorOf(payloadResult)));
    if error.Some? then Err(error.value)
    else
      var dataRequestUnits := dataResult.value.requestUnits;
      var payloadRequestUnits := payloadResult.value.requestUnits;
      var correlationRequestUnits := Round3(Sum(correlationUnits));
      Ok(Saved(dataRequestUnits, payloadRequestUnits, correlationRequestUnits))
  }

  /** The answer of a Save whose inserts all succeeded: the three charges added up and reported. */
  function Saved(dataRequestUnits: real, payloadRequestUnits: real, correlationRequestUnits: real): StorageResponse
  {
    Respond(dataRequestUnits + payloadRequestUnits + correlationRequestUnits,
      SaveInformations(dataRequestUnits, payloadRequestUnits, correlationRequestUnits))
  }

  /**
   * When every insert succeeds, SaveAsync answers with the data and payload charges and the sum of
   * the correlation charges, all rounded by their responses: rounding the sum, and then the
   * total, leaves them as they are.
   */
  lemma SaveResponseCost(dataCharge: real, payloadCharge: real, charges: seq<real>)
    ensures var r := SaveResponse(Ok(NewResponse(dataCharge, None)), Ok(NewResponse(payloadCharge, None)), None, Rounded(charges));
      var dataUnits := Round3(dataCharge);
      var payloadUnits := Round3(payloadCharge);
      var correlationUnits := Sum(Rounded(charges));
      && r.Ok?
      && r.value.requestUnits == dataUnits + payloadUnits + correlationUnits
      && r.value.dynamicInformations == SaveInformations(dataUnits, payloadUnits, correlationUnits)
  {
    var rounded := Rounded(charges);
    forall i | 0 <= i < |rounded|
      ensures IsMilli(rounded[i])
    {
      Round3IsMilli(charges[i]);
    }
    SumOfMilli(rounded);
    Round3IsMilli(dataCharge);
    Round3IsMilli(payloadCharge);
    MilliSum(Round3(dataCharge), Round3(payloadCharge));
    MilliSum(Round3(dataCharge) + Round3(payloadCharge), Sum(rounded));
    RespondMilli(Round3(dataCharge) + Round3(payloadCharge) + Sum(rounded),
      SaveInformations(Round3(dataCharge), Round3(payloadCharge), Sum(rounded)));
  }

  class LegacyCosmosDbStorage {
    const dataCosmosDb: CosmosDbClient<CosmosDataDocument>
    const payloadCosmosDb: CosmosDbClient<CosmosPayloadDocument>
    const correlationCosmosDb: CosmosDbClient<CosmosCorrelationDocument>

    /** Three separate containers, each keying its documents by their own Id and PartitionKey. */
    ghost predicate Valid()
      reads this, dataCosmosDb, payloadCosmosDb, correlationCosmosDb
    {
      && dataCosmosDb as object != payloadCosmosDb as object
      && dataCosmosDb as object != correlationCosmosDb as object
      && payloadCosmosDb as object != correlationCosmosDb as object
      && dataCosmosDb.Valid() && payloadCosmosDb.Valid() && correlationCosmosDb.Valid()
      && (forall d :: dataCosmosDb.KeyOf(d) == (d.PartitionKey(), d.Id()))
      && (forall d :: payloadCosmosDb.KeyOf(d) == (d.PartitionKey(), d.Id()))
      && (forall d :: correlationCosmosDb.KeyOf(d) == (d.PartitionKey(), d.Id()))
    }

    constructor (
      dataCosmosDb: CosmosDbClient<CosmosDataDocument>,
      payloadCosmosDb: CosmosDbClient<CosmosPayloadDocument>,
      correlationCosmosDb: CosmosDbClient<CosmosCorrelationDocument>)
      requires dataCosmosDb as object != payloadCosmosDb as object
      requires dataCosmosDb as object != correlationCosmosDb as object
      requires payloadCosmosDb as object != correlationCosmosDb as object
      requires dataCosmosDb.Valid() && payloadCosmosDb.Valid() && correlationCosmosDb.Valid()
      requires forall d :: dataCosmosDb.KeyOf(d) == (d.PartitionKey(), d.Id())
      requires forall d :: payloadCosmosDb.KeyOf(d) == (d.PartitionKey(), d.Id())
      requires forall d :: correlationCosmosDb.KeyOf(d) == (d.PartitionKey(), d.Id())
      ensures Valid()
      ensures this.dataCosmosDb == dataCosmosDb && this.payloadCosmosDb == payloadCosmosDb
      ensures this.correlationCosmosDb == correlationCosmosDb
    {
      this.dataCosmosDb := dataCosmosDb;
      this.payloadCosmosDb := payloadCosmosDb;
      this.correlationCosmosDb := correlationCosmosDb;
    }

    /** The request reading the correlations of an order. */
    function OrderIdRequest(orderId: string): CosmosDbRequest<CosmosCorrelationDocument>
    {
      BuildBasedOnPartitionKey(orderId)
    }

    /** GetAsync(orderId) against containers holding `correlations` and `datas`. */
    ghost function Get(correlations: map<Key, CosmosCorrelationDocument>, datas: map<Key, CosmosDataDocument>, orderId: string): Result<StorageResponse, Error>
    {
      match correlationCosmosDb.read(correlations, OrderIdRequest(orderId))
      case Err(e) => Err(e)
      case Ok((orderIdUnits, None)) => Ok(Respond(orderIdUnits, map[]))
      case Ok((orderIdUnits, Some(correlation))) =>
        var transactionId := correlation.transactionId;
        match dataCosmosDb.read(datas, DataRequest(transactionId))
        case Err(e) => Err(e)
        case Ok((_, None)) => Ok(Respond(orderIdUnits, map[]))
        case Ok((dataUnits, Some(_))) =>
          Ok(Respond(orderIdUnits + dataUnits, map[
            "orderIdResponse" := SubResponse(orderIdUnits, 1),
            "dataResponse" := SubResponse(dataUnits, 1)]))
    }

    method GetAsync(orderId: string) returns (r: Result<StorageResponse, Error>)
      requires Valid()
      requires dataCosmosDb.ReadIsSpecified() && correlationCosmosDb.ReadIsSpecified()
      ensures r == Get(correlationCosmosDb.items, dataCosmosDb.items, orderId)
    {
      var orderIdResponse := correlationCosmosDb.GetSingleAsync(OrderIdRequest(orderId));
      if orderIdResponse.Err? {
        return Err(orderIdResponse.error);
      }
      var orderIdUnits := orderIdResponse.value.0;
      if orderIdResponse.value.1.None? {
        return Ok(Respond(orderIdUnits, map[]));
      }
      var transactionId := orderIdResponse.value.1.value.transactionId;
      var dataResponse := dataCosmosDb.GetSingleAsync(DataRequest(transactionId));
      if dataResponse.Err? {
        return Err(dataResponse.error);
      }
      if dataResponse.value.1.None? {
        return Ok(Respond(orderIdUnits, map[]));
      }
      var dataUnits := dataResponse.value.0;
      r := Ok(Respond(orderIdUnits + dataUnits, map[
        "orderIdResponse" := SubResponse(orderIdUnits, 1),
        "dataResponse" := SubResponse(dataUnits, 1)]));
    }

    function CorrelationsOf(data: Data): seq<CosmosCorrelationDocument>
    {
      Correlations(data.request.transactionId, OrderIds(data.response.orders))
    }

    /**
     * SaveAsync(payload, data) against containers holding `datas`, `payloads` and `correlations`:
     * every insert is attempted; the first failure in the order its Task objects are awaited
     * (correlations, data, payload) is reported, and nothing is rolled back.
     */
    function Save(
      datas: map<Key, CosmosDataDocument>, payloads: map<Key, CosmosPayloadDocument>,
      correlations: map<Key, CosmosCorrelationDocument>, payload: Payload, data: Data)
      : (Result<StorageResponse, Error>, map<Key, CosmosDataDocument>, map<Key, CosmosPayloadDocument>, map<Key, CosmosCorrelationDocument>)
    {
      var dataInserted := dataCosmosDb.Insert(datas, FromDocument(DataDocumentOf(data)));
      var payloadInserted := payloadCosmosDb.Insert(payloads, FromDocument(PayloadDocumentOf(payload)));
      var correlated := correlationCosmosDb.InsertAll(correlations, CorrelationsOf(data));
      (SaveResponse(dataInserted.0, payloadInserted.0, correlated.0, correlated.1), dataInserted.1, payloadInserted.1, correlated.2)
    }

    method SaveAsync(payload: Payload, data: Data) returns (r: Result<StorageResponse, Error>)
      requires Valid()
      modifies dataCosmosDb, payloadCosmosDb, correlationCosmosDb
      ensures Valid()
      ensures (r, dataCosmosDb.items, payloadCosmosDb.items, correlationCosmosDb.items)
        == Save(old(dataCosmosDb.items), old(payloadCosmosDb.items), old(correlationCosmosDb.items), payload, data)
    {
      ghost var dataInserted := dataCosmosDb.Insert(dataCosmosDb.items, FromDocument(DataDocumentOf(data)));
      ghost var payloadInserted := payloadCosmosDb.Insert(payloadCosmosDb.items, FromDocument(PayloadDocumentOf(payload)));
      ghost var correlated := correlationCosmosDb.InsertAll(correlationCosmosDb.items, CorrelationsOf(data));
      var dataResult := dataCosmosDb.InsertAsync(FromDocument(DataDocumentOf(data)));
      var payloadResult := payloadCosmosDb.InsertAsync(FromDocument(PayloadDocumentOf(payload)));
      var correlationError, correlationUnits := correlationCosmosDb.InsertAllAsync(CorrelationsOf(data));
      assert (dataResult, dataCosmosDb.items) == dataInserted;
      assert (payloadResult, payloadCosmosDb.items) == payloadInserted;
      assert (correlationError, correlationUnits, correlationCosmosDb.items) == correlated;
      var error := FirstError(correlationError, FirstError(ErrorOf(dataResult), ErrorOf(payloadResult)));
      if error.Some? {
        r := Err(error.value);
        assert r == SaveResponse(dataResult, payloadResult, correlationError, correlationUnits);
        return;
      }
      var dataRequestUnits := dataResult.value.requestUnits;
      var payloadRequestUnits := payloadResult.value.requestUnits;
      var correlationRequestUnits := GetRequestUnits(correlationUnits);
      r := Ok(Saved(dataRequestUnits, payloadRequestUnits, correlationRequestUnits));
      assert r == SaveResponse(dataResult, payloadResult, correlationError, correlationUnits);
    }

    /** The correlation of the i-th order is stored under (orderId, transactionId). */
    lemma CorrelationKeysOf(data: Data)
      requires Valid()
      ensures forall i :: 0 <= i < |data.response.orders| ==>
        correlationCosmosDb.KeyOf(CorrelationsOf(data)[i]) == (data.response.orders[i].orderId, data.request.transactionId)
    {
    }

    /** The keys a Save writes are all free: data and payload keys, and one correlation key per (distinct) order id. */
    ghost predicate FreshKeys(
      datas: map<Key, CosmosDataDocument>, payloads: map<Key, CosmosPayloadDocument>,
      correlations: map<Key, CosmosCorrelationDocument>, payload: Payload, data: Data)
    {
      var transactionId := data.request.transactionId;
      && (transactionId, transactionId) !in datas
      && (payload.requestDto.transactionId, payload.requestDto.transactionId) !in payloads
      && UniqueOrderIds(data.response.orders)
      && (forall i :: 0 <= i < |data.response.orders| ==> (data.response.orders[i].orderId, transactionId) !in correlations)
    }

    lemma CorrelationKeysFresh(
      datas: map<Key, CosmosDataDocument>, payloads: map<Key, CosmosPayloadDocument>,
      correlations: map<Key, CosmosCorrelationDocument>, payload: Payload, data: Data)
      requires Valid() && FreshKeys(datas, payloads, correlations, payload, data)
      ensures var documents := CorrelationsOf(data);
        && (forall i, j :: 0 <= i < j < |documents| ==> correlationCosmosDb.KeyOf(documents[i]) != correlationCosmosDb.KeyOf(documents[j]))
        && (forall i :: 0 <= i < |documents| ==> correlationCosmosDb.KeyOf(documents[i]) !in correlations)
    {
      CorrelationKeysOf(data);
    }

    /**
     * On free keys Save succeeds and writes exactly 2 + |orders| documents: the data document under
     * (transactionId, transactionId), the payload document under its DTO's id, and for each order
     * the correlation (transactionId, orderId) under (orderId, transactionId); nothing else changes.
     */
    lemma SaveCreates(
      datas: map<Key, CosmosDataDocument>, payloads: map<Key, CosmosPayloadDocument>,
      correlations: map<Key, CosmosCorrelationDocument>, payload: Payload, data: Data)
      requires Valid() && FreshKeys(datas, payloads, correlations, payload, data)
      ensures var (r, datas', payloads', correlations') := Save(datas, payloads, correlations, payload, data);
        var transactionId := data.request.transactionId;
        var orders := data.response.orders;
        && r.Ok?
        && datas' == datas[(transactionId, transactionId) := CosmosDataDocument(data.request, data.response)]
        && payloads' == payloads[(payload.requestDto.transactionId, payload.requestDto.transactionId) := CosmosPayloadDocument(payload.requestDto, payload.responseDto)]
        && (forall k :: k in correlations ==> k in correlations' && correlations'[k] == correlations[k])
        && (forall i :: 0 <= i < |orders| ==>
              && (orders[i].orderId, transactionId) in correlations'
              && correlations'[(orders[i].orderId, transactionId)] == CosmosCorrelationDocument(transactionId, orders[i].orderId))
        && |correlations'| == |correlations| + |orders|
        && |datas'| + |payloads'| + |correlations'| == |datas| + |payloads| + |correlations| + 2 + |orders|
    {
      SaveSucceeds(datas, payloads, correlations, payload, data);
      dataCosmosDb.InsertEffect(datas, DataDocumentOf(data));
      payloadCosmosDb.InsertEffect(payloads, PayloadDocumentOf(payload));
      CorrelationKeysFresh(datas, payloads, correlations, payload, data);
      CorrelationKeysOf(data);
      correlationCosmosDb.InsertAllContents(correlations, CorrelationsOf(data));
    }

    /** Two orders of one response with the same order id make the correlation inserts, hence Save, fail. */
    lemma SaveRepeatedOrderIdFails(
      datas: map<Key, CosmosDataDocument>, payloads: map<Key, CosmosPayloadDocument>,
      correlations: map<Key, CosmosCorrelationDocument>, payload: Payload, data: Data, i: nat, j: nat)
      requires Valid()
      requires i < j < |data.response.orders| && data.response.orders[i].orderId == data.response.orders[j].orderId
      ensures Save(datas, payloads, correlations, payload, data).0.Err?
    {
      var documents := CorrelationsOf(data);
      assert correlationCosmosDb.KeyOf(documents[i]) == correlationCosmosDb.KeyOf(documents[j]);
      correlationCosmosDb.InsertAllClash(correlations, documents, i, j);
    }

    /** The charge the service reports for inserting each correlation of a Save, in order. */
    function CorrelationRawCharges(data: Data): (charges: seq<real>)
      ensures |charges| == |data.response.orders|
    {
      var documents := CorrelationsOf(data);
      seq(|documents|, i requires 0 <= i < |documents| => correlationCosmosDb.charge(FromDocument(documents[i])))
    }

    /** The rounded charge of inserting each correlation of a Save, in order. */
    function CorrelationCharges(data: Data): (charges: seq<real>)
      ensures |charges| == |data.response.orders|
    {
      Rounded(CorrelationRawCharges(data))
    }

    /** On free keys every insert of a Save succeeds: its answer is that of three successful writes. */
    lemma SaveSucceeds(
      datas: map<Key, CosmosDataDocument>, payloads: map<Key, CosmosPayloadDocument>,
      correlations: map<Key, CosmosCorrelationDocument>, payload: Payload, data: Data)
      requires Valid() && FreshKeys(datas, payloads, correlations, payload, data)
      ensures Save(datas, payloads, correlations, payload, data).0
        == SaveResponse(
             Ok(NewResponse(dataCosmosDb.charge(FromDocument(DataDocumentOf(data))), None)),
             Ok(NewResponse(payloadCosmosDb.charge(FromDocument(PayloadDocumentOf(payload))), None)),
             None, CorrelationCharges(data))
    {
      CorrelationKeysFresh(datas, payloads, correlations, payload, data);
      var documents := CorrelationsOf(data);
      correlationCosmosDb.InsertAllFresh(correlations, documents);
      assert correlationCosmosDb.InsertAll(correlations, documents).1 == CorrelationCharges(data);
    }

    /**
     * A successful Save on free keys costs exactly the data charge plus the payload charge plus
     * the sum of the correlation charges, each as its response rounded it, and reports the three.
     */
    lemma SaveCost(
      datas: map<Key, CosmosDataDocument>, payloads: map<Key, CosmosPayloadDocument>,
      correlations: map<Key, CosmosCorrelationDocument>, payload: Payload, data: Data)
      requires Valid() && FreshKeys(datas, payloads, correlations, payload, data)
      ensures var r := Save(datas, payloads, correlations, payload, data).0;
        var dataUnits := Round3(dataCosmosDb.charge(FromDocument(DataDocumentOf(data))));
        var payloadUnits := Round3(payloadCosmosDb.charge(FromDocument(PayloadDocumentOf(payload))));
        var correlationUnits := Sum(CorrelationCharges(data));
        && r.Ok?
        && r.value.requestUnits == dataUnits + payloadUnits + correlationUnits
        && r.value.dynamicInformations == SaveInformations(dataUnits, payloadUnits, correlationUnits)
    {
      SaveSucceeds(datas, payloads, correlations, payload, data);
      SaveResponseCost(dataCosmosDb.charge(FromDocument(DataDocumentOf(data))),
        payloadCosmosDb.charge(FromDocument(PayloadDocumentOf(payload))), CorrelationRawCharges(data));
    }

    /** An order id with no correlation costs the correlation query alone, with no diagnostics, and throws nothing. */
    lemma GetUnfoundCorrelation(correlations: map<Key, CosmosCorrelationDocument>, datas: map<Key, CosmosDataDocument>, orderId: string)
      requires dataCosmosDb.ReadIsSpecified() && correlationCosmosDb.ReadIsSpecified()
      requires Unquoted(orderId)
      requires forall k :: k in correlations ==> k.0 != orderId
      ensures var orderIdUnits := Round3(correlationCosmosDb.charge(OrderIdRequest(orderId)));
        && Get(correlations, datas, orderId) == Ok(Respond(orderIdUnits, map[]))
        && Get(correlations, datas, orderId).value.requestUnits == orderIdUnits
    {
      correlationCosmosDb.ReadPartitionEmpty(correlations, orderId);
      Round3Idempotent(correlationCosmosDb.charge(OrderIdRequest(orderId)));
    }

    /** Two correlations under one order id make SingleOrDefault throw instead of reporting not-found. */
    lemma GetDuplicateCorrelations(correlations: map<Key, CosmosCorrelationDocument>, datas: map<Key, CosmosDataDocument>, orderId: string, a: Key, b: Key)
      requires dataCosmosDb.ReadIsSpecified() && correlationCosmosDb.ReadIsSpecified()
      requires Unquoted(orderId)
      requires a in correlations && b in correlations && a != b && a.0 == orderId && b.0 == orderId
      ensures Get(correlations, datas, orderId) == Err(MoreThanOneElement)
    {
      correlationCosmosDb.ReadPartitionMany(correlations, orderId, a, b);
    }

    /**
     * With exactly one correlation for the order, Get reads the data document of its transaction:
     * when it is missing the cost is the correlation query's alone and there are no diagnostics;
     * when present the cost is the sum of both reads and both sub-responses are recorded.
     */
    lemma GetWithCorrelation(correlations: map<Key, CosmosCorrelationDocument>, datas: map<Key, CosmosDataDocument>, orderId: string, transactionId: string)
      requires dataCosmosDb.ReadIsSpecified() && correlationCosmosDb.ReadIsSpecified()
      requires Unquoted(orderId) && Unquoted(transactionId)
      requires (set k | k in correlations && k.0 == orderId) == {(orderId, transactionId)}
      requires correlations[(orderId, transactionId)].transactionId == transactionId
      ensures var orderIdUnits := Round3(correlationCosmosDb.charge(OrderIdRequest(orderId)));
        var dataUnits := Round3(dataCosmosDb.charge(DataRequest(transactionId)));
        var r := Get(correlations, datas, orderId);
        && r.Ok?
        && ((transactionId, transactionId) !in datas ==> r == Ok(Respond(orderIdUnits, map[])) && r.value.requestUnits == orderIdUnits)
        && ((transactionId, transactionId) in datas ==>
              && r.value.requestUnits == orderIdUnits + dataUnits
              && r.value.dynamicInformations == map[
                   "orderIdResponse" := SubResponse(orderIdUnits, 1),
                   "dataResponse" := SubResponse(dataUnits, 1)])
    {
      correlationCosmosDb.ReadPartitionOne(correlations, orderId, (orderId, transactionId));
      dataCosmosDb.ReadPoint(datas, transactionId, transactionId);
      var orderIdUnits := Round3(correlationCosmosDb.charge(OrderIdRequest(orderId)));
      var dataUnits := Round3(dataCosmosDb.charge(DataRequest(transactionId)));
      Round3Idempotent(correlationCosmosDb.charge(OrderIdRequest(orderId)));
      RespondRoundedSum(correlationCosmosDb.charge(OrderIdRequest(orderId)), dataCosmosDb.charge(DataRequest(transactionId)),
        map["orderIdResponse" := SubResponse(orderIdUnits, 1), "dataResponse" := SubResponse(dataUnits, 1)]);
    }

    /** After a Save on free keys, an order id that had no correlation has exactly the new one, naming the saved transaction. */
    lemma SavedCorrelation(
      datas: map<Key, CosmosDataDocument>, payloads: map<Key, CosmosPayloadDocument>,
      correlations: map<Key, CosmosCorrelationDocument>, payload: Payload, data: Data, i: nat)
      requires Valid() && FreshKeys(datas, payloads, correlations, payload, data)
      requires i < |data.response.orders|
      requires forall k :: k in correlations ==> k.0 != data.response.orders[i].orderId
      ensures var saved := Save(datas, payloads, correlations, payload, data);
        var orderId := data.response.orders[i].orderId;
        var transactionId := data.request.transactionId;
        && (set k | k in saved.3 && k.0 == orderId) == {(orderId, transactionId)}
        && saved.3[(orderId, transactionId)].transactionId == transactionId
        && (transactionId, transactionId) in saved.1
    {
      var orderId := data.response.orders[i].orderId;
      var transactionId := data.request.transactionId;
      var documents := CorrelationsOf(data);
      SaveCreates(datas, payloads, correlations, payload, data);
      CorrelationKeysOf(data);
      correlationCosmosDb.InsertAllKeys(correlations, documents);
      var correlations' := correlationCosmosDb.InsertAll(correlations, documents).2;
      var keys := set k | k in correlations' && k.0 == orderId;
      forall k | k in keys
        ensures k == (orderId, transactionId)
      {
        var j :| 0 <= j < |documents| && k == correlationCosmosDb.KeyOf(documents[j]);
        assert data.response.orders[j].orderId == orderId;
      }
      assert (orderId, transactionId) in keys;
    }

    /**
     * Save then Get: after a successful Save on free keys, Get of any of its order ids that had no
     * correlation before reaches the saved data document, at the cost of both reads.
     */
    lemma SaveThenGet(
      datas: map<Key, CosmosDataDocument>, payloads: map<Key, CosmosPayloadDocument>,
      correlations: map<Key, CosmosCorrelationDocument>, payload: Payload, data: Data, i: nat)
      requires Valid() && FreshKeys(datas, payloads, correlations, payload, data)
      requires dataCosmosDb.ReadIsSpecified() && correlationCosmosDb.ReadIsSpecified()
      requires i < |data.response.orders|
      requires Unquoted(data.response.orders[i].orderId) && Unquoted(data.request.transactionId)
      requires forall k :: k in correlations ==> k.0 != data.response.orders[i].orderId
      ensures var saved := Save(datas, payloads, correlations, payload, data);
        var orderId := data.response.orders[i].orderId;
        var transactionId := data.request.transactionId;
        var r := Get(saved.3, saved.1, orderId);
        && r.Ok?
        && r.value.requestUnits == Round3(correlationCosmosDb.charge(OrderIdRequest(orderId))) + Round3(dataCosmosDb.charge(DataRequest(transactionId)))
        && "dataResponse" in r.value.dynamicInformations
    {
      var saved := Save(datas, payloads, correlations, payload, data);
      SavedCorrelation(datas, payloads, correlations, payload, data, i);
      GetWithCorrelation(saved.3, saved.1, data.response.orders[i].orderId, data.request.transactionId);
    }
  }
}
