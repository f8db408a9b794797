/**
 * BlobCosmosDbStorage: a transaction is saved as a data document, a payload document and one
 * order blob per order, named after the order; an order id is resolved by reading its blob, then
 * the data document of the transaction the blob names.
 */
module BlobStorage {
  import opened Wrappers
  import opened Contracts
  import opened CosmosResponse
  import opened CosmosRequest
  import opened CosmosClient
  import opened BlobSdk
  import opened TransactionDocuments
  import opened BlobDocuments

  /** The container attribute of the order blob document. */
  const OrdersContainer := "Orders"

  /** The Blob strategy stores order blob documents as they are. */
  function AsBlob(document: OrderBlobDocument): OrderBlobDocument
  {
    document
  }

  /** The "{x} RU" and "{n} files" figures a Save reports. */
  function SaveInformations(dataRequestUnits: real, payloadRequestUnits: real, blobs: int): Diagnostics
  {
    map[
      "dataRequestUnits" := Units(dataRequestUnits, " RU"),
      "payloadRequestUnits" := Units(payloadRequestUnits, " RU"),
      "blobs" := Count(blobs, " files")]
  }

  /** The diagnostics of a successful Get. */
  function FoundInformations(dataUnits: real, orderId: string, transactionId: string, blobName: string): Diagnostics
  {
    map[
      "dataResponse" := SubResponse(dataUnits, 1),
      "orderId" := Text(orderId),
      "transactionId" := Text(transactionId),
      "Found order blob" := Text(blobName)]
  }

  /**
   * What SaveAsync answers once its writes are done: the first error in the order its Task objects are
   * awaited (data, payload, blobs), or the two charges and the number of blobs.
   */
  function SaveResponse(
    dataResult: Result<CosmosDbResponse<CosmosDataDocument>, Error>,
    payloadResult: Result<CosmosDbResponse<CosmosPayloadDocument>, Error>,
    blobsError: Option<Error>, blobs: int): Result<StorageResponse, Error>
  {
    var error := FirstError(ErrorOf(dataResult), FirstError(ErrorOf(payloadResult), blobsError));
    if error.Some? then Err(error.value)
    else
      var dataRequestUnits := dataResult.value.requestUnits;
      var payloadRequestUnits := payloadResult.value.requestUnits;
      Ok(Saved(dataRequestUnits, payloadRequestUnits, blobs))
  }

  /** The answer of a Save whose writes all succeeded: the two charges added up, and the number of blobs. */
  function Saved(dataRequestUnits: real, payloadRequestUnits: real, blobs: int): StorageResponse
  {
    Respond(dataRequestUnits + payloadRequestUnits, SaveInformations(dataRequestUnits, payloadRequestUnits, blobs))
  }

  /** A failed blob task fails the Save, whatever the inserts did. */
  lemma SaveResponseFails(
    dataResult: Result<CosmosDbResponse<CosmosDataDocument>, Error>,
    payloadResult: Result<CosmosDbResponse<CosmosPayloadDocument>, Error>,
    blobsError: Option<Error>, blobs: int)
    requires blobsError.Some?
    ensures SaveResponse(dataResult, payloadResult, blobsError, blobs).Err?
  {
  }

  /** When every write succeeds, SaveAsync answers with the data and payload charges, as their responses rounded them, and the number of blobs. */
  lemma SaveResponseCost(dataCharge: real, payloadCharge: real, blobs: int)
    ensures var r := SaveResponse(Ok(NewResponse(dataCharge, None)), Ok(NewResponse(payloadCharge, None)), None, blobs);
      && r.Ok?
      && r.value.requestUnits == Round3(dataCharge) + Round3(payloadCharge)
      && r.value.dynamicInformations == SaveInformations(Round3(dataCharge), Round3(payloadCharge), blobs)
  {
    RespondRoundedSum(dataCharge, payloadCharge, SaveInformations(Round3(dataCharge), Round3(payloadCharge), blobs));
  }

  class BlobCosmosDbStorage {
    const blobClient: BlobClient<OrderBlobDocument>
    const dataCosmosDb: CosmosDbClient<CosmosDataDocument>
    const payloadCosmosDb: CosmosDbClient<CosmosPayloadDocument>

    /** Separate stores; documents keyed by their own Id and PartitionKey; order blobs go to "Orders". */
    ghost predicate Valid()
      reads this, blobClient, dataCosmosDb, payloadCosmosDb
    {
      && blobClient as object != dataCosmosDb as object
      && blobClient as object != payloadCosmosDb as object
      && dataCosmosDb as object != payloadCosmosDb as object
      && blobClient.Valid() && dataCosmosDb.Valid() && payloadCosmosDb.Valid()
      && (forall d :: dataCosmosDb.KeyOf(d) == (d.PartitionKey(), d.Id()))
      && (forall d :: payloadCosmosDb.KeyOf(d) == (d.PartitionKey(), d.Id()))
      && (forall d :: blobClient.containerOf(d) == OrdersContainer)
    }

    constructor (
      blobClient: BlobClient<OrderBlobDocument>,
      dataCosmosDb: CosmosDbClient<CosmosDataDocument>,
      payloadCosmosDb: CosmosDbClient<CosmosPayloadDocument>)
      requires blobClient as object != dataCosmosDb as object
      requires blobClient as object != payloadCosmosDb as object
      requires dataCosmosDb as object != payloadCosmosDb as object
      requires blobClient.Valid() && dataCosmosDb.Valid() && payloadCosmosDb.Valid()
      requires forall d :: dataCosmosDb.KeyOf(d) == (d.PartitionKey(), d.Id())
      requires forall d :: payloadCosmosDb.KeyOf(d) == (d.PartitionKey(), d.Id())
      requires forall d :: blobClient.containerOf(d) == OrdersContainer
      ensures Valid()
      ensures this.blobClient == blobClient && this.dataCosmosDb == dataCosmosDb && this.payloadCosmosDb == payloadCosmosDb
    {
      this.blobClient := blobClient;
      this.dataCosmosDb := dataCosmosDb;
      this.payloadCosmosDb := payloadCosmosDb;
    }

    /** GetAsync(orderId) against a blob service in state `blobs` and a data container holding `datas`; also the blob state after. */
    ghost function Get(blobs: BlobState<OrderBlobDocument>, datas: map<Key, CosmosDataDocument>, orderId: string)
      : (Result<StorageResponse, Error>, BlobState<OrderBlobDocument>)
    {
      var blobName := BlobName(orderId);
      var got := blobs.Get(Lower(OrdersContainer), blobName);
      if got.1.None? then (Ok(Respond(0.0, map["Unfound order blob" := Text(blobName)])), got.0)
      else
        var transactionId := got.1.value.document.transactionId;
        match dataCosmosDb.read(datas, DataRequest(transactionId))
        case Err(e) => (Err(e), got.0)
        case Ok((_, None)) =>
          (Ok(Respond(0.0, map["Found order blob" := Text(blobName), "Unfound TransactionId in Cosmos" := Text(transactionId)])), got.0)
        case Ok((dataUnits, Some(_))) =>
          (Ok(Respond(dataUnits, FoundInformations(dataUnits, orderId, transactionId, blobName))), got.0)
    }

    method GetAsync(orderId: string) returns (r: Result<StorageResponse, Error>)
      requires Valid()
      requires dataCosmosDb.ReadIsSpecified()
      modifies blobClient
      ensures Valid()
      ensures (r, blobClient.State()) == Get(old(blobClient.State()), dataCosmosDb.items, orderId)
    {
      var blobName := BlobName(orderId);
      var blob := blobClient.GetBlobAsync(OrdersContainer, blobName);
      if blob.None? {
        return Ok(Respond(0.0, map["Unfound order blob" := Text(blobName)]));
      }
      var transactionId := blob.value.document.transactionId;
      var dataResponse := dataCosmosDb.GetSingleAsync(DataRequest(transactionId));
      if dataResponse.Err? {
        return Err(dataResponse.error);
      }
      if dataResponse.value.1.None? {
        return Ok(Respond(0.0, map["Found order blob" := Text(blobName), "Unfound TransactionId in Cosmos" := Text(transactionId)]));
      }
      var dataUnits := dataResponse.value.0;
      r := Ok(Respond(dataUnits, FoundInformations(dataUnits, orderId, transactionId, blobName)));
    }

    /**
     * SaveAsync(payload, data): both inserts and every order blob are attempted; the first failure
     * in the order its Task objects are awaited (data, payload, blobs) is reported, and nothing is undone.
     */
    function Save(
      datas: map<Key, CosmosDataDocument>, payloads: map<Key, CosmosPayloadDocument>,
      blobs: BlobState<OrderBlobDocument>, payload: Payload, data: Data)
      : (Result<StorageResponse, Error>, map<Key, CosmosDataDocument>, map<Key, CosmosPayloadDocument>, BlobState<OrderBlobDocument>)
    {
      var dataInserted := dataCosmosDb.Insert(datas, FromDocument(DataDocumentOf(data)));
      var payloadInserted := payloadCosmosDb.Insert(payloads, FromDocument(PayloadDocumentOf(payload)));
      var saved := blobClient.SaveAll(blobs, OrderBlobs(data.response, AsBlob));
      (SaveResponse(dataInserted.0, payloadInserted.0, saved.1, |data.response.orders|), dataInserted.1, payloadInserted.1, saved.0)
    }

    method SaveAsync(payload: Payload, data: Data) returns (r: Result<StorageResponse, Error>)
      requires Valid()
      modifies blobClient, dataCosmosDb, payloadCosmosDb
      ensures Valid()
      ensures (r, dataCosmosDb.items, payloadCosmosDb.items, blobClient.State())
        == Save(old(dataCosmosDb.items), old(payloadCosmosDb.items), old(blobClient.State()), payload, data)
    {
      ghost var dataInserted := dataCosmosDb.Insert(dataCosmosDb.items, FromDocument(DataDocumentOf(data)));
      ghost var payloadInserted := payloadCosmosDb.Insert(payloadCosmosDb.items, FromDocument(PayloadDocumentOf(payload)));
      ghost var saved := blobClient.SaveAll(blobClient.State(), OrderBlobs(data.response, AsBlob));
      var dataResult := dataCosmosDb.InsertAsync(FromDocument(DataDocumentOf(data)));
      var payloadResult := payloadCosmosDb.InsertAsync(FromDocument(PayloadDocumentOf(payload)));
      var blobsError, blobs := GetSaveOrdersBlobsTask(data);
      assert (dataResult, dataCosmosDb.items) == dataInserted;
      assert (payloadResult, payloadCosmosDb.items) == payloadInserted;
      assert (blobClient.State(), blobsError) == saved;
      var error := FirstError(ErrorOf(dataResult), FirstError(ErrorOf(payloadResult), blobsError));
      if error.Some? {
        return Err(error.value);
      }
      var dataRequestUnits := dataResult.value.requestUnits;
      var payloadRequestUnits := payloadResult.value.requestUnits;
      r := Ok(Saved(dataRequestUnits, payloadRequestUnits, blobs));
    }

    /** GetSaveOrdersBlobsTask: save one blob per order; the number of save tasks started. */
    method GetSaveOrdersBlobsTask(data: Data) returns (error: Option<Error>, count: int)
      requires Valid()
      modifies blobClient
      ensures Valid()
      ensures (blobClient.State(), error) == blobClient.SaveAll(old(blobClient.State()), OrderBlobs(data.response, AsBlob))
      ensures count == |data.response.orders|
    {
      var blobs := OrderBlobs(data.response, AsBlob);
      error := blobClient.SaveAllAsync(blobs);
      count := |blobs|;
    }

    /** The container order blobs live in. */
    function OrdersBlobs(blobs: BlobState<OrderBlobDocument>): Container<OrderBlobDocument>
    {
      blobs.Blobs(Lower(OrdersContainer))
    }

    /** The keys a Save writes are all free: data and payload keys, and one order blob name per (distinct) order id. */
    ghost predicate FreshKeys(
      datas: map<Key, CosmosDataDocument>, payloads: map<Key, CosmosPayloadDocument>,
      blobs: BlobState<OrderBlobDocument>, payload: Payload, data: Data)
    {
      && (data.request.transactionId, data.request.transactionId) !in datas
      && (payload.requestDto.transactionId, payload.requestDto.transactionId) !in payloads
      && UniqueOrderIds(data.response.orders)
      && (forall i :: 0 <= i < |data.response.orders| ==> BlobName(data.response.orders[i].orderId) !in OrdersBlobs(blobs))
    }

    /** The order blobs of a Save all go to the orders container. */
    lemma OrderBlobsContainer(data: Data)
      requires Valid()
      ensures var saved := OrderBlobs(data.response, AsBlob);
        forall i :: 0 <= i < |saved| ==> blobClient.ContainerName(saved[i].document) == Lower(OrdersContainer)
    {
    }

    /** The order blobs of a Save all go to the orders container, under pairwise distinct names that are free when the keys are. */
    lemma OrderBlobsFresh(
      datas: map<Key, CosmosDataDocument>, payloads: map<Key, CosmosPayloadDocument>,
      blobs: BlobState<OrderBlobDocument>, payload: Payload, data: Data)
      requires Valid() && FreshKeys(datas, payloads, blobs, payload, data)
      ensures var saved := OrderBlobs(data.response, AsBlob);
        && (forall i :: 0 <= i < |saved| ==> blobClient.ContainerName(saved[i].document) == Lower(OrdersContainer))
        && (forall i, j :: 0 <= i < j < |saved| ==> saved[i].name != saved[j].name)
        && (forall i :: 0 <= i < |saved| ==> saved[i].name !in OrdersBlobs(blobs))
    {
      OrderBlobNamesDistinct(data.response, AsBlob);
    }

    /**
     * On free keys Save succeeds and writes the data document under (transactionId, transactionId),
     * the payload document under its DTO's id, and for each order a blob named after it holding
     * the order with the response's transaction id and the order id as metadata; blobs already in
     * the container stay, and it grows by exactly |orders|.
     */
    lemma SaveCreates(
      datas: map<Key, CosmosDataDocument>, payloads: map<Key, CosmosPayloadDocument>,
      blobs: BlobState<OrderBlobDocument>, payload: Payload, data: Data)
      requires Valid() && FreshKeys(datas, payloads, blobs, payload, data)
      ensures var (r, datas', payloads', blobs') := Save(datas, payloads, blobs, payload, data);
        var orders := data.response.orders;
        && r.Ok?
        && datas' == datas[(data.request.transactionId, data.request.transactionId) := DataDocumentOf(data)]
        && payloads' == payloads[(payload.requestDto.transactionId, payload.requestDto.transactionId) := PayloadDocumentOf(payload)]
        && (forall name :: name in OrdersBlobs(blobs) ==> name in OrdersBlobs(blobs') && OrdersBlobs(blobs')[name] == OrdersBlobs(blobs)[name])
        && (forall i :: 0 <= i < |orders| ==>
              && BlobName(orders[i].orderId) in OrdersBlobs(blobs')
              && OrdersBlobs(blobs')[BlobName(orders[i].orderId)]
                   == StoredBlob(OrderBlobDocumentOf(data.response, orders[i]), map["OrderId" := orders[i].orderId]))
        && |OrdersBlobs(blobs')| == |OrdersBlobs(blobs)| + |orders|
    {
      assert dataCosmosDb.KeyOf(DataDocumentOf(data)) == (data.request.transactionId, data.request.transactionId);
      assert payloadCosmosDb.KeyOf(PayloadDocumentOf(payload)) == (payload.requestDto.transactionId, payload.requestDto.transactionId);
      dataCosmosDb.InsertEffect(datas, DataDocumentOf(data));
      payloadCosmosDb.InsertEffect(payloads, PayloadDocumentOf(payload));
      OrderBlobsFresh(datas, payloads, blobs, payload, data);
      blobClient.SaveAllFresh(blobs, OrderBlobs(data.response, AsBlob), Lower(OrdersContainer));
    }

    /** On free keys every write of a Save succeeds: its answer is that of two successful inserts and blob saves. */
    lemma SaveSucceeds(
      datas: map<Key, CosmosDataDocument>, payloads: map<Key, CosmosPayloadDocument>,
      blobs: BlobState<OrderBlobDocument>, payload: Payload, data: Data)
      requires Valid() && FreshKeys(datas, payloads, blobs, payload, data)
      ensures Save(datas, payloads, blobs, payload, data).0
        == SaveResponse(
             Ok(NewResponse(dataCosmosDb.charge(FromDocument(DataDocumentOf(data))), None)),
             Ok(NewResponse(payloadCosmosDb.charge(FromDocument(PayloadDocumentOf(payload))), None)),
             None, |data.response.orders|)
    {
      OrderBlobsFresh(datas, payloads, blobs, payload, data);
      blobClient.SaveAllFreshState(blobs, OrderBlobs(data.response, AsBlob), Lower(OrdersContainer));
    }

    /**
     * A successful Save on free keys costs exactly the data charge plus the payload charge, each as
     * its response rounded it (blobs are not charged), and reports the number of order blobs written.
     */
    lemma SaveCost(
      datas: map<Key, CosmosDataDocument>, payloads: map<Key, CosmosPayloadDocument>,
      blobs: BlobState<OrderBlobDocument>, payload: Payload, data: Data)
      requires Valid() && FreshKeys(datas, payloads, blobs, payload, data)
      ensures var r := Save(datas, payloads, blobs, payload, data).0;
        var dataUnits := Round3(dataCosmosDb.charge(FromDocument(DataDocumentOf(data))));
        var payloadUnits := Round3(payloadCosmosDb.charge(FromDocument(PayloadDocumentOf(payload))));
        && r.Ok?
        && r.value.requestUnits == dataUnits + payloadUnits
        && r.value.dynamicInformations == SaveInformations(dataUnits, payloadUnits, |data.response.orders|)
    {
      SaveSucceeds(datas, payloads, blobs, payload, data);
      SaveResponseCost(dataCosmosDb.charge(FromDocument(DataDocumentOf(data))),
        payloadCosmosDb.charge(FromDocument(PayloadDocumentOf(payload))), |data.response.orders|);
    }

    /**
     * An order whose blob name is taken, or an order id given twice in the response, makes Save
     * fail (after writing what it could).
     */
    lemma SaveExistingBlobFails(
      datas: map<Key, CosmosDataDocument>, payloads: map<Key, CosmosPayloadDocument>,
      blobs: BlobState<OrderBlobDocument>, payload: Payload, data: Data, j: nat)
      requires Valid()
      requires j < |data.response.orders|
      requires || BlobName(data.response.orders[j].orderId) in OrdersBlobs(blobs)
               || exists i :: 0 <= i < j && data.response.orders[i].orderId == data.response.orders[j].orderId
      ensures Save(datas, payloads, blobs, payload, data).0.Err?
    {
      var dataInserted := dataCosmosDb.Insert(datas, FromDocument(DataDocumentOf(data)));
      var payloadInserted := payloadCosmosDb.Insert(payloads, FromDocument(PayloadDocumentOf(payload)));
      var saved := OrderBlobs(data.response, AsBlob);
      if BlobName(data.response.orders[j].orderId) !in OrdersBlobs(blobs) {
        var i :| 0 <= i < j && data.response.orders[i].orderId == data.response.orders[j].orderId;
        assert saved[i].name == saved[j].name;
      }
      OrderBlobsContainer(data);
      blobClient.SaveAllClash(blobs, saved, Lower(OrdersContainer), j);
      SaveResponseFails(dataInserted.0, payloadInserted.0, blobClient.SaveAll(blobs, saved).1, |data.response.orders|);
    }

    /** An order id without a blob costs nothing and reports the blob name it looked for. */
    lemma GetUnfoundBlob(blobs: BlobState<OrderBlobDocument>, datas: map<Key, CosmosDataDocument>, orderId: string)
      requires BlobName(orderId) !in OrdersBlobs(blobs)
      ensures var r := Get(blobs, datas, orderId).0;
        && r == Ok(Respond(0.0, map["Unfound order blob" := Text(BlobName(orderId))]))
        && r.value.requestUnits == 0.0
    {
      LowerIdempotent(OrdersContainer);
      RespondZero(map["Unfound order blob" := Text(BlobName(orderId))]);
    }

    /**
     * An order blob naming transaction `transactionId` leads Get to the data document under
     * (transactionId, transactionId): when it is missing the cost is zero and both the blob and the
     * missing transaction are reported; when present the cost is the read's and the diagnostics
     * hold the read, the order id, the transaction id and the blob name.
     */
    lemma GetWithBlob(blobs: BlobState<OrderBlobDocument>, datas: map<Key, CosmosDataDocument>, orderId: string)
      requires dataCosmosDb.ReadIsSpecified()
      requires BlobName(orderId) in OrdersBlobs(blobs)
      requires Unquoted(OrdersBlobs(blobs)[BlobName(orderId)].document.transactionId)
      ensures var transactionId := OrdersBlobs(blobs)[BlobName(orderId)].document.transactionId;
        var dataUnits := Round3(dataCosmosDb.charge(DataRequest(transactionId)));
        var r := Get(blobs, datas, orderId).0;
        && r.Ok?
        && ((transactionId, transactionId) !in datas ==>
              && r.value.requestUnits == 0.0
              && r.value.dynamicInformations == map["Found order blob" := Text(BlobName(orderId)), "Unfound TransactionId in Cosmos" := Text(transactionId)])
        && ((transactionId, transactionId) in datas ==>
              && r.value.requestUnits == dataUnits
              && r.value.dynamicInformations == FoundInformations(dataUnits, orderId, transactionId, BlobName(orderId)))
    {
      LowerIdempotent(OrdersContainer);
      var transactionId := OrdersBlobs(blobs)[BlobName(orderId)].document.transactionId;
      dataCosmosDb.ReadPoint(datas, transactionId, transactionId);
      RespondZero(map["Found order blob" := Text(BlobName(orderId)), "Unfound TransactionId in Cosmos" := Text(transactionId)]);
      Round3Idempotent(dataCosmosDb.charge(DataRequest(transactionId)));
    }

    /**
     * Save then Get: after a Save on free keys whose request and response carry the same
     * transaction id, Get of any of its order ids finds the order blob and the saved data
     * document, at the cost of the data read.
     */
    lemma SaveThenGet(
      datas: map<Key, CosmosDataDocument>, payloads: map<Key, CosmosPayloadDocument>,
      blobs: BlobState<OrderBlobDocument>, payload: Payload, data: Data, i: nat)
      requires Valid() && FreshKeys(datas, payloads, blobs, payload, data)
      requires dataCosmosDb.ReadIsSpecified()
      requires i < |data.response.orders|
      requires data.response.transactionId == data.request.transactionId && Unquoted(data.request.transactionId)
      ensures var saved := Save(datas, payloads, blobs, payload, data);
        var orderId := data.response.orders[i].orderId;
        var transactionId := data.request.transactionId;
        var dataUnits := Round3(dataCosmosDb.charge(DataRequest(transactionId)));
        var r := Get(saved.3, saved.1, orderId).0;
        && r.Ok?
        && r.value.requestUnits == dataUnits
        && r.value.dynamicInformations == FoundInformations(dataUnits, orderId, transactionId, BlobName(orderId))
    {
      var saved := Save(datas, payloads, blobs, payload, data);
      SaveCreates(datas, payloads, blobs, payload, data);
      GetWithBlob(saved.3, saved.1, data.response.orders[i].orderId);
    }

    /**
     * The order blob records the response's transaction id while the data document is keyed on the
     * request's: when the two differ and nothing is stored under the response's, Get of a saved
     * order finds the blob but reports the transaction as unfound.
     */
    lemma SaveThenGetMismatch(
      datas: map<Key, CosmosDataDocument>, payloads: map<Key, CosmosPayloadDocument>,
      blobs: BlobState<OrderBlobDocument>, payload: Payload, data: Data, i: nat)
      requires Valid() && FreshKeys(datas, payloads, blobs, payload, data)
      requires dataCosmosDb.ReadIsSpecified()
      requires i < |data.response.orders|
      requires data.response.transactionId != data.request.transactionId && Unquoted(data.response.transactionId)
      requires (data.response.transactionId, data.response.transactionId) !in datas
      ensures var saved := Save(datas, payloads, blobs, payload, data);
        var r := Get(saved.3, saved.1, data.response.orders[i].orderId).0;
        && r.Ok?
        && r.value.requestUnits == 0.0
        && "Unfound TransactionId in Cosmos" in r.value.dynamicInformations
    {
      var saved := Save(datas, payloads, blobs, payload, data);
      SaveCreates(datas, payloads, blobs, payload, data);
      GetWithBlob(saved.3, saved.1, data.response.orders[i].orderId);
    }
  }
}
