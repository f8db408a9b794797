/**
 * SearchCosmosDbStorage: a transaction is saved as a data document, a payload document and one
 * search model per order in the order search index; an order id is resolved by searching the
 * index (with retries while nothing is found), then reading the data document of the transaction
 * the model names.
 */
module SearchStorage {
  import opened Wrappers
  import opened Contracts
  import opened CosmosResponse
  import opened CosmosRequest
  import opened CosmosClient
  import opened SearchSdk
  import opened OrderSearch
  import opened TransactionDocuments

  /** The "{x} RU" figures a Save reports. */
  function SaveInformations(dataRequestUnits: real, payloadRequestUnits: real): Diagnostics
  {
    map[
      "dataRequestUnits" := Units(dataRequestUnits, " RU"),
      "payloadRequestUnits" := Units(payloadRequestUnits, " RU")]
  }

  /** The diagnostics of a successful Get. */
  function FoundInformations(dataUnits: real, orderId: string, transactionId: string): Diagnostics
  {
    map[
      "dataResponse" := SubResponse(dataUnits, 1),
      "orderId" := Text(orderId),
      "transactionId" := Text(transactionId)]
  }

  /**
   * What SaveAsync answers once its writes are done: the first error in the order its Task objects are
   * awaited (data, payload; the search upload never fails), or the two charges.
   */
  function SaveResponse(
    dataResult: Result<CosmosDbResponse<CosmosDataDocument>, Error>,
    payloadResult: Result<CosmosDbResponse<CosmosPayloadDocument>, Error>): Result<StorageResponse, Error>
  {
    var error := FirstError(ErrorOf(dataResult), ErrorOf(payloadResult));
    if error.Some? then Err(error.value)
    else Ok(Saved(dataResult.value.requestUnits, payloadResult.value.requestUnits))
  }

  /** The answer of a Save whose inserts both succeeded: the two charges added up. */
  function Saved(dataRequestUnits: real, payloadRequestUnits: real): StorageResponse
  {
    Respond(dataRequestUnits + payloadRequestUnits, SaveInformations(dataRequestUnits, payloadRequestUnits))
  }

  /** When both inserts succeed, SaveAsync answers with the data and payload charges, as their responses rounded them. */
  lemma SaveResponseCost(dataCharge: real, payloadCharge: real)
    ensures var r := SaveResponse(Ok(NewResponse(dataCharge, None)), Ok(NewResponse(payloadCharge, None)));
      && r.Ok?
      && r.value.requestUnits == Round3(dataCharge) + Round3(payloadCharge)
      && r.value.dynamicInformations == SaveInformations(Round3(dataCharge), Round3(payloadCharge))
  {
    RespondRoundedSum(dataCharge, payloadCharge, SaveInformations(Round3(dataCharge), Round3(payloadCharge)));
  }

  class SearchCosmosDbStorage {
    const searchClient: SearchClient<OrderSearchModel>
    const dataCosmosDb: CosmosDbClient<CosmosDataDocument>
    const payloadCosmosDb: CosmosDbClient<CosmosPayloadDocument>

    /** Separate stores; documents keyed by their own Id and PartitionKey; search models keyed by order id. */
    ghost predicate Valid()
      reads this, searchClient, dataCosmosDb, payloadCosmosDb
    {
      && searchClient as object != dataCosmosDb as object
      && searchClient as object != payloadCosmosDb as object
      && dataCosmosDb as object != payloadCosmosDb as object
      && searchClient.Valid() && dataCosmosDb.Valid() && payloadCosmosDb.Valid()
      && searchClient.keyOf == OrderKey
      && (forall d :: dataCosmosDb.KeyOf(d) == (d.PartitionKey(), d.Id()))
      && (forall d :: payloadCosmosDb.KeyOf(d) == (d.PartitionKey(), d.Id()))
    }

    constructor (
      searchClient: SearchClient<OrderSearchModel>,
      dataCosmosDb: CosmosDbClient<CosmosDataDocument>,
      payloadCosmosDb: CosmosDbClient<CosmosPayloadDocument>)
      requires searchClient as object != dataCosmosDb as object
      requires searchClient as object != payloadCosmosDb as object
      requires dataCosmosDb as object != payloadCosmosDb as object
      requires searchClient.Valid() && dataCosmosDb.Valid() && payloadCosmosDb.Valid()
      requires searchClient.keyOf == OrderKey
      requires forall d :: dataCosmosDb.KeyOf(d) == (d.PartitionKey(), d.Id())
      requires forall d :: payloadCosmosDb.KeyOf(d) == (d.PartitionKey(), d.Id())
      ensures Valid()
      ensures this.searchClient == searchClient && this.dataCosmosDb == dataCosmosDb && this.payloadCosmosDb == payloadCosmosDb
    {
      this.searchClient := searchClient;
      this.dataCosmosDb := dataCosmosDb;
      this.payloadCosmosDb := payloadCosmosDb;
    }

    /**
     * The end of a Get once a model names transaction `transactionId`: the data document under
     * (transactionId, transactionId), and what is answered when it is missing or found.
     */
    ghost function FoundModel(datas: map<Key, CosmosDataDocument>, orderId: string, transactionId: string): Result<StorageResponse, Error>
    {
      match dataCosmosDb.read(datas, DataRequest(transactionId))
      case Err(e) => Err(e)
      case Ok((_, None)) =>
        Ok(Respond(0.0, map["Found OrderId in Search" := Text(orderId), "Unfound TransactionId in Cosmos" := Text(transactionId)]))
      case Ok((dataUnits, Some(_))) => Ok(Respond(dataUnits, FoundInformations(dataUnits, orderId, transactionId)))
    }

    /**
     * GetAsync(orderId) against an index `index` searched `searches` times before and a data
     * container holding `datas`; also the number of searches after. The models found are
     * filtered on the exact order id; none is answered at no cost, more than one fails.
     */
    ghost function Get(index: Index, searches: nat, datas: map<Key, CosmosDataDocument>, orderId: string): (Result<StorageResponse, Error>, nat)
    {
      var (found, searches') := Retry(searchClient.search, index, orderId, searches, MaxRetry);
      match found
      case Err(e) => (Err(e), searches')
      case Ok(models) =>
        (match SingleOrDefault(ModelsWithId(models, orderId))
         case Err(e) => (Err(e), searches')
         case Ok(None) => (Ok(Respond(0.0, map["Unfound OrderId in Search" := Text(orderId)])), searches')
         case Ok(Some(model)) => (FoundModel(datas, orderId, model.transactionId), searches'))
    }

    method GetAsync(orderId: string) returns (r: Result<StorageResponse, Error>)
      requires Valid()
      requires dataCosmosDb.ReadIsSpecified()
      modifies searchClient
      ensures Valid()
      ensures (r, searchClient.searches) == Get(old(searchClient.index), old(searchClient.searches), dataCosmosDb.items, orderId)
      ensures searchClient.index == old(searchClient.index) && searchClient.batches == old(searchClient.batches)
    {
      var orderSearchModels := SearchWithRetryAsync(searchClient, orderId);
      if orderSearchModels.Err? {
        return Err(orderSearchModels.error);
      }
      var filteredOrderSearchModels := ModelsWithId(orderSearchModels.value, orderId);
      var orderSearchModel := SingleOrDefault(filteredOrderSearchModels);
      if orderSearchModel.Err? {
        return Err(orderSearchModel.error);
      }
      if orderSearchModel.value.None? {
        return Ok(Respond(0.0, map["Unfound OrderId in Search" := Text(orderId)]));
      }
      var transactionId := orderSearchModel.value.value.transactionId;
      var dataResponse := dataCosmosDb.GetSingleAsync(DataRequest(transactionId));
      if dataResponse.Err? {
        return Err(dataResponse.error);
      }
      if dataResponse.value.1.None? {
        return Ok(Respond(0.0, map["Found OrderId in Search" := Text(orderId), "Unfound TransactionId in Cosmos" := Text(transactionId)]));
      }
      var dataUnits := dataResponse.value.0;
      r := Ok(Respond(dataUnits, FoundInformations(dataUnits, orderId, transactionId)));
    }

    /**
     * SaveAsync(payload, data): both inserts and the upload of the order search models (the
     * `batches`-th batch) are attempted; the first insert failure is reported and nothing is
     * undone; the upload never reports a failure.
     */
    ghost function Save(
      datas: map<Key, CosmosDataDocument>, payloads: map<Key, CosmosPayloadDocument>,
      index: Index, batches: nat, payload: Payload, data: Data)
      : (Result<StorageResponse, Error>, map<Key, CosmosDataDocument>, map<Key, CosmosPayloadDocument>, Index)
    {
      var dataInserted := dataCosmosDb.Insert(datas, FromDocument(DataDocumentOf(data)));
      var payloadInserted := payloadCosmosDb.Insert(payloads, FromDocument(PayloadDocumentOf(payload)));
      var index' := searchClient.Indexed(index, batches, BuildOrderSearchModels(data.response));
      (SaveResponse(dataInserted.0, payloadInserted.0), dataInserted.1, payloadInserted.1, index')
    }

    method SaveAsync(payload: Payload, data: Data) returns (r: Result<StorageResponse, Error>)
      requires Valid()
      modifies searchClient, dataCosmosDb, payloadCosmosDb
      ensures Valid()
      ensures (r, dataCosmosDb.items, payloadCosmosDb.items, searchClient.index)
        == Save(old(dataCosmosDb.items), old(payloadCosmosDb.items), old(searchClient.index), old(searchClient.batches), payload, data)
      ensures searchClient.batches == old(searchClient.batches) + 1 && searchClient.searches == old(searchClient.searches)
    {
      ghost var saved := Save(dataCosmosDb.items, payloadCosmosDb.items, searchClient.index, searchClient.batches, payload, data);
      ghost var dataInserted := dataCosmosDb.Insert(dataCosmosDb.items, FromDocument(DataDocumentOf(data)));
      ghost var payloadInserted := payloadCosmosDb.Insert(payloadCosmosDb.items, FromDocument(PayloadDocumentOf(payload)));
      assert saved.0 == SaveResponse(dataInserted.0, payloadInserted.0);
      var dataResult := dataCosmosDb.InsertAsync(FromDocument(DataDocumentOf(data)));
      assert dataResult == dataInserted.0 && saved.1 == dataCosmosDb.items;
      var payloadResult := payloadCosmosDb.InsertAsync(FromDocument(PayloadDocumentOf(payload)));
      assert payloadResult == payloadInserted.0 && saved.2 == payloadCosmosDb.items;
      var searchModels := BuildOrderSearchModels(data.response);
      searchClient.SaveAsync(searchModels);
      r := SaveResponse(dataResult, payloadResult);
    }

    /** The keys a Save writes are free: the data and payload keys. */
    ghost predicate FreshKeys(
      datas: map<Key, CosmosDataDocument>, payloads: map<Key, CosmosPayloadDocument>, payload: Payload, data: Data)
    {
      && (data.request.transactionId, data.request.transactionId) !in datas
      && (payload.requestDto.transactionId, payload.requestDto.transactionId) !in payloads
    }

    /**
     * On free keys Save succeeds and writes the data document under (transactionId,
     * transactionId) and the payload document under its DTO's id; when the service takes the
     * batch, each order id of a response with distinct ids is indexed with the response's
     * transaction id and date.
     */
    lemma SaveCreates(
      datas: map<Key, CosmosDataDocument>, payloads: map<Key, CosmosPayloadDocument>,
      index: Index, batches: nat, payload: Payload, data: Data)
      requires Valid() && FreshKeys(datas, payloads, payload, data)
      ensures var (r, datas', payloads', index') := Save(datas, payloads, index, batches, payload, data);
        && r.Ok?
        && datas' == datas[(data.request.transactionId, data.request.transactionId) := DataDocumentOf(data)]
        && payloads' == payloads[(payload.requestDto.transactionId, payload.requestDto.transactionId) := PayloadDocumentOf(payload)]
    {
      assert dataCosmosDb.KeyOf(DataDocumentOf(data)) == (data.request.transactionId, data.request.transactionId);
      assert payloadCosmosDb.KeyOf(PayloadDocumentOf(payload)) == (payload.requestDto.transactionId, payload.requestDto.transactionId);
      dataCosmosDb.InsertEffect(datas, DataDocumentOf(data));
      payloadCosmosDb.InsertEffect(payloads, PayloadDocumentOf(payload));
    }

    /** A Save whose batch the service takes indexes every order of a response with distinct ids under its id. */
    lemma SaveIndexes(
      datas: map<Key, CosmosDataDocument>, payloads: map<Key, CosmosPayloadDocument>,
      index: Index, batches: nat, payload: Payload, data: Data, i: nat)
      requires Valid()
      requires searchClient.accepts(batches)
      requires UniqueOrderIds(data.response.orders) && i < |data.response.orders|
      ensures var index' := Save(datas, payloads, index, batches, payload, data).3;
        var order := data.response.orders[i];
        && order.orderId in index'
        && index'[order.orderId] == OrderSearchModel(order.orderId, data.response.transactionId, data.response.transactionDate)
    {
      UploadOrderModels(index, data.response, i);
    }

    /** A Save on free keys costs exactly the data charge plus the payload charge, each as its response rounded it. */
    lemma SaveCost(
      datas: map<Key, CosmosDataDocument>, payloads: map<Key, CosmosPayloadDocument>,
      index: Index, batches: nat, payload: Payload, data: Data)
      requires Valid() && FreshKeys(datas, payloads, payload, data)
      ensures var r := Save(datas, payloads, index, batches, payload, data).0;
        var dataUnits := Round3(dataCosmosDb.charge(FromDocument(DataDocumentOf(data))));
        var payloadUnits := Round3(payloadCosmosDb.charge(FromDocument(PayloadDocumentOf(payload))));
        && r.Ok?
        && r.value.requestUnits == dataUnits + payloadUnits
        && r.value.dynamicInformations == SaveInformations(dataUnits, payloadUnits)
    {
      dataCosmosDb.InsertEffect(datas, DataDocumentOf(data));
      payloadCosmosDb.InsertEffect(payloads, PayloadDocumentOf(payload));
      assert dataCosmosDb.KeyOf(DataDocumentOf(data)) == (data.request.transactionId, data.request.transactionId);
      assert payloadCosmosDb.KeyOf(PayloadDocumentOf(payload)) == (payload.requestDto.transactionId, payload.requestDto.transactionId);
      SaveResponseCost(dataCosmosDb.charge(FromDocument(DataDocumentOf(data))),
        payloadCosmosDb.charge(FromDocument(PayloadDocumentOf(payload))));
    }

    /** A transaction already stored makes Save fail with the conflict on its key, after the other writes. */
    lemma SaveExistingFails(
      datas: map<Key, CosmosDataDocument>, payloads: map<Key, CosmosPayloadDocument>,
      index: Index, batches: nat, payload: Payload, data: Data)
      requires Valid()
      requires (data.request.transactionId, data.request.transactionId) in datas
      ensures var (r, datas', _, index') := Save(datas, payloads, index, batches, payload, data);
        && r == Err(Conflict(data.request.transactionId, data.request.transactionId))
        && datas' == datas
        && index' == searchClient.Indexed(index, batches, BuildOrderSearchModels(data.response))
    {
      assert dataCosmosDb.KeyOf(DataDocumentOf(data)) == (data.request.transactionId, data.request.transactionId);
      dataCosmosDb.InsertEffect(datas, DataDocumentOf(data));
    }

    /** When none of the 1 + MaxRetry searches finds anything, Get fails with UnfoundOrderException after all of them. */
    lemma GetUnfoundInSearch(index: Index, searches: nat, datas: map<Key, CosmosDataDocument>, orderId: string)
      requires forall n :: searches <= n <= searches + MaxRetry ==> searchClient.search(index, Quote(orderId), n) == []
      ensures Get(index, searches, datas, orderId) == (Err(UnfoundOrder(orderId)), searches + MaxRetry + 1)
    {
      RetryFails(searchClient.search, index, orderId, searches, MaxRetry);
      RetryOutcome(searchClient.search, index, orderId, searches, MaxRetry);
    }

    /**
     * With a sound search over a valid index, Get never finds two models for one order id: once a
     * search finds something, the answer is that of the model under the order id when it was
     * among the models found, and "Unfound OrderId in Search" at no cost otherwise.
     */
    lemma GetFromSoundSearch(index: Index, searches: nat, datas: map<Key, CosmosDataDocument>, orderId: string)
      requires Valid() && searchClient.Sound()
      requires forall k :: k in index ==> OrderKey(index[k]) == k
      requires Retry(searchClient.search, index, orderId, searches, MaxRetry).0.Ok?
      ensures var models := Retry(searchClient.search, index, orderId, searches, MaxRetry).0.value;
        var r := Get(index, searches, datas, orderId).0;
        && (orderId in index && index[orderId] in models ==> r == FoundModel(datas, orderId, index[orderId].transactionId))
        && (!(orderId in index && index[orderId] in models) ==>
              && r == Ok(Respond(0.0, map["Unfound OrderId in Search" := Text(orderId)]))
              && r.value.requestUnits == 0.0)
    {
      var retried := Retry(searchClient.search, index, orderId, searches, MaxRetry);
      RetryOutcome(searchClient.search, index, orderId, searches, MaxRetry);
      var models := retried.0.value;
      assert models == searchClient.search(index, Quote(orderId), retried.1 - 1);
      ModelsWithIdFromIndex(models, index, orderId);
      RespondZero(map["Unfound OrderId in Search" := Text(orderId)]);
    }

    /**
     * A model naming transaction `transactionId` leads Get to the data document under
     * (transactionId, transactionId): when it is missing the cost is zero and both the order id
     * and the missing transaction are reported; when present the cost is the read's.
     */
    lemma FoundModelCases(datas: map<Key, CosmosDataDocument>, orderId: string, transactionId: string)
      requires dataCosmosDb.ReadIsSpecified()
      requires Unquoted(transactionId)
      ensures var dataUnits := Round3(dataCosmosDb.charge(DataRequest(transactionId)));
        var r := FoundModel(datas, orderId, transactionId);
        && r.Ok?
        && ((transactionId, transactionId) !in datas ==>
              && r.value.requestUnits == 0.0
              && r.value.dynamicInformations == map["Found OrderId in Search" := Text(orderId), "Unfound TransactionId in Cosmos" := Text(transactionId)])
        && ((transactionId, transactionId) in datas ==>
              && r.value.requestUnits == dataUnits
              && r.value.dynamicInformations == FoundInformations(dataUnits, orderId, transactionId))
    {
      dataCosmosDb.ReadPoint(datas, transactionId, transactionId);
      RespondZero(map["Found OrderId in Search" := Text(orderId), "Unfound TransactionId in Cosmos" := Text(transactionId)]);
      Round3Idempotent(dataCosmosDb.charge(DataRequest(transactionId)));
    }

    /**
     * Save then Get: after a Save on free keys whose batch the service takes, whose response has
     * distinct order ids and the request's transaction id, a Get of one of its orders whose
     * searches (sound ones) list the order's model finds the saved data document, at the cost of
     * the data read.
     */
    lemma SaveThenGet(
      datas: map<Key, CosmosDataDocument>, payloads: map<Key, CosmosPayloadDocument>,
      index: Index, batches: nat, searches: nat, payload: Payload, data: Data, i: nat)
      requires Valid() && FreshKeys(datas, payloads, payload, data)
      requires dataCosmosDb.ReadIsSpecified() && searchClient.Sound()
      requires forall k :: k in index ==> OrderKey(index[k]) == k
      requires searchClient.accepts(batches)
      requires UniqueOrderIds(data.response.orders) && i < |data.response.orders|
      requires data.response.transactionId == data.request.transactionId && Unquoted(data.request.transactionId)
      requires var saved := Save(datas, payloads, index, batches, payload, data);
        var found := Retry(searchClient.search, saved.3, data.response.orders[i].orderId, searches, MaxRetry).0;
        found.Ok? && OrderSearchModel(data.response.orders[i].orderId, data.response.transactionId, data.response.transactionDate) in found.value
      ensures var saved := Save(datas, payloads, index, batches, payload, data);
        var orderId := data.response.orders[i].orderId;
        var transactionId := data.request.transactionId;
        var dataUnits := Round3(dataCosmosDb.charge(DataRequest(transactionId)));
        var r := Get(saved.3, searches, saved.1, orderId).0;
        && r.Ok?
        && r.value.requestUnits == dataUnits
        && r.value.dynamicInformations == FoundInformations(dataUnits, orderId, transactionId)
    {
      var saved := Save(datas, payloads, index, batches, payload, data);
      var orderId := data.response.orders[i].orderId;
      SaveCreates(datas, payloads, index, batches, payload, data);
      SaveIndexes(datas, payloads, index, batches, payload, data, i);
      UploadKeyed(index, OrderKey, BuildOrderSearchModels(data.response));
      GetFromSoundSearch(saved.3, searches, saved.1, orderId);
      FoundModelCases(saved.1, orderId, data.request.transactionId);
    }
  }
}
