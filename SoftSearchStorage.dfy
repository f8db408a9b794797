/**
 * SoftSearchCosmosDbStorage: a transaction is saved as a light data document and a light payload
 * document (soft orders and the name of the transaction blob), the full data and payload as two
 * blobs named after the transaction, and one search model per order in the order search index.
 * An order id is resolved by searching the index (with retries while nothing is found), reading
 * the data document of the transaction the model names, then the data blob of that transaction.
 */
module SoftSearchStorage {
  import opened Wrappers
  import opened Contracts
  import opened CosmosResponse
  import opened CosmosRequest
  import opened CosmosClient
  import opened BlobSdk
  import opened BlobDocuments
  import opened SoftDocuments
  import opened SearchSdk
  import opened OrderSearch

  /** The container attributes of the two blob document types. */
  const DatasContainer := "Datas"
  const PayloadsContainer := "Payloads"

  /** The blob documents this strategy writes, one constructor per document type. */
  datatype TransactionBlobDocument =
    | DataBlob(data: TransactionDataBlobDocument)
    | PayloadBlob(payload: TransactionPayloadBlobDocument)

  /** BlobContainerAttribute.ContainerName of each document type. */
  function ContainerOf(document: TransactionBlobDocument): string
  {
    match document
    case DataBlob(_) => DatasContainer
    case PayloadBlob(_) => PayloadsContainer
  }

  /** The two containers are distinct once lower-cased, so each holds one document type only. */
  lemma ContainerKinds(document: TransactionBlobDocument)
    ensures Lower(ContainerOf(document)) == Lower(DatasContainer) <==> document.DataBlob?
    ensures Lower(ContainerOf(document)) == Lower(PayloadsContainer) <==> document.PayloadBlob?
  {
    assert |Lower(DatasContainer)| == 5 && |Lower(PayloadsContainer)| == 8;
  }

  /** The metadata of both transaction blobs: the request's transaction id. */
  function TransactionMetadata(data: Data): map<string, string>
  {
    map["transactionId" := data.request.transactionId]
  }

  /**
   * GetSaveTransactionBlobsTask's two blobs, in the order their tasks are listed: the data and the
   * payload, both named after the request's transaction id.
   */
  function TransactionBlobs(payload: Payload, data: Data): (blobs: seq<BlobModel<TransactionBlobDocument>>)
    ensures |blobs| == 2
    ensures blobs[0].name == blobs[1].name == BlobName(data.request.transactionId)
    ensures blobs[0].document == DataBlob(TransactionDataBlobDocument(data.request, data.response))
    ensures blobs[1].document == PayloadBlob(TransactionPayloadBlobDocument(payload.requestDto, payload.responseDto))
    ensures blobs[0].metadata == blobs[1].metadata == TransactionMetadata(data)
  {
    var name := BlobName(data.request.transactionId);
    [ BlobModel(name, DataBlob(TransactionDataBlobDocument(data.request, data.response)), TransactionMetadata(data)),
      BlobModel(name, PayloadBlob(TransactionPayloadBlobDocument(payload.requestDto, payload.responseDto)), TransactionMetadata(data)) ]
  }

  /** The "{x} RU" and "{n} uploaded" figures a Save reports. */
  function SaveInformations(dataRequestUnits: real, payloadRequestUnits: real, blobs: int): Diagnostics
  {
    map[
      "dataRequestUnits" := Units(dataRequestUnits, " RU"),
      "payloadRequestUnits" := Units(payloadRequestUnits, " RU"),
      "blobs" := Count(blobs, " uploaded")]
  }

  /** The diagnostics of a successful Get. */
  function FoundInformations(dataUnits: real, orderId: string, transactionId: string, dataBlobName: string): Diagnostics
  {
    map[
      "dataResponse" := SubResponse(dataUnits, 1),
      "orderId" := Text(orderId),
      "transactionId" := Text(transactionId),
      "Found data blob" := Text(dataBlobName)]
  }

  /**
   * What SaveAsync answers once its four tasks are done: the first error in the order they are
   * awaited (data, payload, search upload, transaction blobs; the upload never fails), or the two
   * charges and the blob count.
   */
  function SaveResponse(
    dataResult: Result<CosmosDbResponse<SoftCosmosDataDocument>, Error>,
    payloadResult: Result<CosmosDbResponse<SoftCosmosPayloadDocument>, Error>,
    blobsError: Option<Error>, blobs: int): Result<StorageResponse, Error>
  {
    var error := FirstError(ErrorOf(dataResult), FirstError(ErrorOf(payloadResult), blobsError));
    if error.Some? then Err(error.value)
    else Ok(Saved(dataResult.value.requestUnits, payloadResult.value.requestUnits, blobs))
  }

  /** The answer of a Save whose writes all succeeded: the two charges added up, and the number of blobs. */
  function Saved(dataRequestUnits: real, payloadRequestUnits: real, blobs: int): StorageResponse
  {
    Respond(dataRequestUnits + payloadRequestUnits, SaveInformations(dataRequestUnits, payloadRequestUnits, blobs))
  }

  /** When every write succeeds, SaveAsync answers with the data and payload charges, as their responses rounded them, and the number of blobs. */
  lemma SaveResponseCost(dataCharge: real, payloadCharge: real, blobs: int)
    ensures var r := SaveResponse(Ok(NewResponse(dataCharge, None)), Ok(NewResponse(payloadCharge, None)), None, blobs);
      && r.Ok?
      && r.value.requestUnits == Round3(dataCharge) + Round3(payloadCharge)
      && r.value.dynamicInformations == SaveInformations(Round3(dataCharge), Round3(payloadCharge), blobs)
  {
    RespondRoundedSum(dataCharge, payloadCharge, SaveInformations(Round3(dataCharge), Round3(payloadCharge), blobs));
  }

  /** A failed blob task fails the Save, whatever the inserts did. */
  lemma SaveResponseFails(
    dataResult: Result<CosmosDbResponse<SoftCosmosDataDocument>, Error>,
    payloadResult: Result<CosmosDbResponse<SoftCosmosPayloadDocument>, Error>,
    blobsError: Option<Error>, blobs: int)
    requires blobsError.Some?
    ensures SaveResponse(dataResult, payloadResult, blobsError, blobs).Err?
  {
  }

  /**
   * The last hop of a Get: the data blob of the transaction. A missing blob is dereferenced
   * (NullReferenceException); otherwise Single picks the order out of its response, and the answer
   * names the blob. (A blob of another document type never sits in the data container of a valid
   * client.)
   */
  function FoundBlob(
    dataBlob: Option<BlobModel<TransactionBlobDocument>>, dataUnits: real, orderId: string, transactionId: string,
    dataBlobName: string): Result<StorageResponse, Error>
  {
    match dataBlob
    case Some(BlobModel(_, DataBlob(dataBlobDocument), _)) =>
      (match SingleOrder(dataBlobDocument.response.orders, orderId)
       case Err(e) => Err(e)
       case Ok(_) => Ok(Respond(dataUnits, FoundInformations(dataUnits, orderId, transactionId, dataBlobName))))
    case _ => Err(NullReference)
  }

  class SoftSearchCosmosDbStorage {
    const blobClient: BlobClient<TransactionBlobDocument>
    const searchClient: SearchClient<OrderSearchModel>
    const dataCosmosDb: CosmosDbClient<SoftCosmosDataDocument>
    const payloadCosmosDb: CosmosDbClient<SoftCosmosPayloadDocument>

    /**
     * Separate stores; documents keyed by their own Id and PartitionKey; search models keyed by
     * order id; each blob document type has its container.
     */
    ghost predicate Valid()
      reads this, blobClient, searchClient, dataCosmosDb, payloadCosmosDb
    {
      && blobClient as object != searchClient as object
      && blobClient as object != dataCosmosDb as object
      && blobClient as object != payloadCosmosDb as object
      && searchClient as object != dataCosmosDb as object
      && searchClient as object != payloadCosmosDb as object
      && dataCosmosDb as object != payloadCosmosDb as object
      && blobClient.Valid() && searchClient.Valid() && dataCosmosDb.Valid() && payloadCosmosDb.Valid()
      && searchClient.keyOf == OrderKey
      && (forall d :: dataCosmosDb.KeyOf(d) == (d.partitionKey, d.id))
      && (forall d :: payloadCosmosDb.KeyOf(d) == (d.partitionKey, d.id))
      && (forall d :: blobClient.containerOf(d) == ContainerOf(d))
    }

    constructor (
      blobClient: BlobClient<TransactionBlobDocument>,
      searchClient: SearchClient<OrderSearchModel>,
      dataCosmosDb: CosmosDbClient<SoftCosmosDataDocument>,
      payloadCosmosDb: CosmosDbClient<SoftCosmosPayloadDocument>)
      requires blobClient as object != searchClient as object
      requires blobClient as object != dataCosmosDb as object
      requires blobClient as object != payloadCosmosDb as object
      requires searchClient as object != dataCosmosDb as object
      requires searchClient as object != payloadCosmosDb as object
      requires dataCosmosDb as object != payloadCosmosDb as object
      requires blobClient.Valid() && searchClient.Valid() && dataCosmosDb.Valid() && payloadCosmosDb.Valid()
      requires searchClient.keyOf == OrderKey
      requires forall d :: dataCosmosDb.KeyOf(d) == (d.partitionKey, d.id)
      requires forall d :: payloadCosmosDb.KeyOf(d) == (d.partitionKey, d.id)
      requires forall d :: blobClient.containerOf(d) == ContainerOf(d)
      ensures Valid()
      ensures this.blobClient == blobClient && this.searchClient == searchClient
      ensures this.dataCosmosDb == dataCosmosDb && this.payloadCosmosDb == payloadCosmosDb
    {
      this.blobClient := blobClient;
      this.searchClient := searchClient;
      this.dataCosmosDb := dataCosmosDb;
      this.payloadCosmosDb := payloadCosmosDb;
    }

    /** The data container of the strategy, in a blob state. */
    function DatasBlobs(blobs: BlobState<TransactionBlobDocument>): Container<TransactionBlobDocument>
    {
      blobs.Blobs(Lower(DatasContainer))
    }

    /** The payload container of the strategy, in a blob state. */
    function PayloadsBlobs(blobs: BlobState<TransactionBlobDocument>): Container<TransactionBlobDocument>
    {
      blobs.Blobs(Lower(PayloadsContainer))
    }

    /**
     * The end of a Get once a model names transaction `transactionId`: the data document under
     * (transactionId, transactionId), then the data blob named after the transaction; also the
     * blob state after.
     */
    ghost function FoundModel(
      blobs: BlobState<TransactionBlobDocument>, datas: map<Key, SoftCosmosDataDocument>, orderId: string, transactionId: string)
      : (Result<StorageResponse, Error>, BlobState<TransactionBlobDocument>)
    {
      match dataCosmosDb.read(datas, DataRequest(transactionId))
      case Err(e) => (Err(e), blobs)
      case Ok((_, None)) =>
        (Ok(Respond(0.0, map["Found Id in Search" := Text(orderId), "Unfound TransactionId in Cosmos" := Text(transactionId)])), blobs)
      case Ok((dataUnits, Some(_))) =>
        var blobName := BlobName(transactionId);
        var dataBlob := blobs.Get(Lower(DatasContainer), blobName);
        (FoundBlob(dataBlob.1, dataUnits, orderId, transactionId, blobName), dataBlob.0)
    }

    /**
     * GetAsync(orderId) against an index `index` searched `searches` times before, a blob service
     * in state `blobs` and a data container holding `datas`; also the number of searches and the
     * blob state after. The models found are filtered on the exact order id; none is answered at
     * no cost, more than one fails.
     */
    ghost function Get(
      index: Index, searches: nat, blobs: BlobState<TransactionBlobDocument>, datas: map<Key, SoftCosmosDataDocument>, orderId: string)
      : (Result<StorageResponse, Error>, nat, BlobState<TransactionBlobDocument>)
    {
      var (found, searches') := Retry(searchClient.search, index, orderId, searches, MaxRetry);
      match found
      case Err(e) => (Err(e), searches', blobs)
      case Ok(models) =>
        (match SingleOrDefault(ModelsWithId(models, orderId))
         case Err(e) => (Err(e), searches', blobs)
         case Ok(None) => (Ok(Respond(0.0, map["Unfound OrderId in Search" := Text(orderId)])), searches', blobs)
         case Ok(Some(model)) =>
           var (r, blobs') := FoundModel(blobs, datas, orderId, model.transactionId);
           (r, searches', blobs'))
    }

    method GetAsync(orderId: string) returns (r: Result<StorageResponse, Error>)
      requires Valid()
      requires dataCosmosDb.ReadIsSpecified()
      modifies searchClient, blobClient
      ensures Valid()
      ensures (r, searchClient.searches, blobClient.State())
        == Get(old(searchClient.index), old(searchClient.searches), old(blobClient.State()), dataCosmosDb.items, orderId)
      ensures searchClient.index == old(searchClient.index) && searchClient.batches == old(searchClient.batches)
    {
      var orderSearchModels := SearchWithRetryAsync(searchClient, orderId);
      if orderSearchModels.Err? {
        return Err(orderSearchModels.error);
      }
      var filteredOrderSearchModels := ModelsWithId(orderSearchModels.value, orderId);
      var orderSearchModel := SingleOrDefault(filteredOrderSearchModels);
      if orderSearchModel.Err? {
        return Err(orderSearchModel.error);
      }
      if orderSearchModel.value.None? {
        return Ok(Respond(0.0, map["Unfound OrderId in Search" := Text(orderId)]));
      }
      var transactionId := orderSearchModel.value.value.transactionId;
      var dataResponse := dataCosmosDb.GetSingleAsync(DataRequest(transactionId));
      if dataResponse.Err? {
        return Err(dataResponse.error);
      }
      if dataResponse.value.1.None? {
        return Ok(Respond(0.0, map["Found Id in Search" := Text(orderId), "Unfound TransactionId in Cosmos" := Text(transactionId)]));
      }
      var dataUnits := dataResponse.value.0;
      var blobName := BlobName(transactionId);
      ghost var dataBlobRead := blobClient.State().Get(Lower(DatasContainer), blobName);
      var dataBlob := blobClient.GetBlobAsync(DatasContainer, blobName);
      assert dataBlob == dataBlobRead.1;
      if dataBlob.None? {
        return Err(NullReference);
      }
      ContainerKinds(dataBlob.value.document);
      var order := SingleOrder(dataBlob.value.document.data.response.orders, orderId);
      if order.Err? {
        return Err(order.error);
      }
      r := Ok(Respond(dataUnits, FoundInformations(dataUnits, orderId, transactionId, blobName)));
    }

    /**
     * SaveAsync(payload, data): both inserts, the upload of the order search models (the
     * `batches`-th batch) and both transaction blobs are attempted; the first failure in the order
     * its Task objects are awaited is reported, and nothing is undone.
     */
    ghost function Save(
      datas: map<Key, SoftCosmosDataDocument>, payloads: map<Key, SoftCosmosPayloadDocument>,
      index: Index, batches: nat, blobs: BlobState<TransactionBlobDocument>, payload: Payload, data: Data)
      : (Result<StorageResponse, Error>, map<Key, SoftCosmosDataDocument>, map<Key, SoftCosmosPayloadDocument>, Index, BlobState<TransactionBlobDocument>)
    {
      var blobName := BlobName(data.request.transactionId);
      var dataInserted := dataCosmosDb.Insert(datas, FromDocument(SoftDataDocumentOf(data.request, data.response, blobName)));
      var payloadInserted := payloadCosmosDb.Insert(payloads, FromDocument(SoftPayloadDocumentOf(payload.requestDto, payload.responseDto, blobName)));
      var index' := searchClient.Indexed(index, batches, BuildOrderSearchModels(data.response));
      var blobsSaved := blobClient.SaveAll(blobs, TransactionBlobs(payload, data));
      (SaveResponse(dataInserted.0, payloadInserted.0, blobsSaved.1, 2), dataInserted.1, payloadInserted.1, index', blobsSaved.0)
    }

    method SaveAsync(payload: Payload, data: Data) returns (r: Result<StorageResponse, Error>)
      requires Valid()
      modifies blobClient, searchClient, dataCosmosDb, payloadCosmosDb
      ensures Valid()
      ensures (r, dataCosmosDb.items, payloadCosmosDb.items, searchClient.index, blobClient.State())
        == Save(old(dataCosmosDb.items), old(payloadCosmosDb.items), old(searchClient.index), old(searchClient.batches),
                old(blobClient.State()), payload, data)
      ensures searchClient.batches == old(searchClient.batches) + 1 && searchClient.searches == old(searchClient.searches)
    {
      var blobName := BlobName(data.request.transactionId);
      var dataDocument := SoftDataDocumentOf(data.request, data.response, blobName);
      var payloadDocument := SoftPayloadDocumentOf(payload.requestDto, payload.responseDto, blobName);
      ghost var saved := Save(dataCosmosDb.items, payloadCosmosDb.items, searchClient.index, searchClient.batches, blobClient.State(), payload, data);
      ghost var dataInserted := dataCosmosDb.Insert(dataCosmosDb.items, FromDocument(dataDocument));
      ghost var payloadInserted := payloadCosmosDb.Insert(payloadCosmosDb.items, FromDocument(payloadDocument));
      ghost var blobsSaved := blobClient.SaveAll(blobClient.State(), TransactionBlobs(payload, data));
      assert saved.0 == SaveResponse(dataInserted.0, payloadInserted.0, blobsSaved.1, 2);
      var dataResult := dataCosmosDb.InsertAsync(FromDocument(dataDocument));
      assert dataResult == dataInserted.0 && saved.1 == dataCosmosDb.items;
      var payloadResult := payloadCosmosDb.InsertAsync(FromDocument(payloadDocument));
      assert payloadResult == payloadInserted.0 && saved.2 == payloadCosmosDb.items;
      var searchModels := BuildOrderSearchModels(data.response);
      searchClient.SaveAsync(searchModels);
      var blobsError, blobs := GetSaveTransactionBlobsTask(payload, data);
      assert (blobClient.State(), blobsError) == blobsSaved;
      r := SaveResponse(dataResult, payloadResult, blobsError, blobs);
    }

    /** GetSaveTransactionBlobsTask: save the data blob and the payload blob; the number of save tasks started. */
    method GetSaveTransactionBlobsTask(payload: Payload, data: Data) returns (error: Option<Error>, count: int)
      requires Valid()
      modifies blobClient
      ensures Valid()
      ensures (blobClient.State(), error) == blobClient.SaveAll(old(blobClient.State()), TransactionBlobs(payload, data))
      ensures count == 2
    {
      var tasks := TransactionBlobs(payload, data);
      error := blobClient.SaveAllAsync(tasks);
      count := |tasks|;
    }

    /** The keys a Save writes are all free: data and payload keys, and the transaction blob name in both blob containers. */
    ghost predicate FreshKeys(
      datas: map<Key, SoftCosmosDataDocument>, payloads: map<Key, SoftCosmosPayloadDocument>,
      blobs: BlobState<TransactionBlobDocument>, payload: Payload, data: Data)
    {
      && (data.request.transactionId, data.request.transactionId) !in datas
      && (payload.requestDto.transactionId, payload.requestDto.transactionId) !in payloads
      && BlobName(data.request.transactionId) !in DatasBlobs(blobs)
      && BlobName(data.request.transactionId) !in PayloadsBlobs(blobs)
    }

    /**
     * The two transaction blobs land in the data and in the payload container under the
     * transaction blob name when it is free in both.
     */
    lemma TransactionBlobsFresh(blobs: BlobState<TransactionBlobDocument>, payload: Payload, data: Data)
      requires Valid()
      requires BlobName(data.request.transactionId) !in DatasBlobs(blobs)
      requires BlobName(data.request.transactionId) !in PayloadsBlobs(blobs)
      ensures var (blobs', error) := blobClient.SaveAll(blobs, TransactionBlobs(payload, data));
        var blobName := BlobName(data.request.transactionId);
        && error.None?
        && DatasBlobs(blobs') == DatasBlobs(blobs)[blobName := StoredBlob(DataBlob(TransactionDataBlobDocument(data.request, data.response)), TransactionMetadata(data))]
        && PayloadsBlobs(blobs') == PayloadsBlobs(blobs)[blobName := StoredBlob(PayloadBlob(TransactionPayloadBlobDocument(payload.requestDto, payload.responseDto)), TransactionMetadata(data))]
    {
      var transactionBlobs := TransactionBlobs(payload, data);
      var first, second := transactionBlobs[0], transactionBlobs[1];
      assert transactionBlobs == [first, second];
      blobClient.SaveAllPair(blobs, first, second);
      LowerIdempotent(DatasContainer);
      LowerIdempotent(PayloadsContainer);
      ContainerKinds(first.document);
      ContainerKinds(second.document);
      var datas, payloads := Lower(DatasContainer), Lower(PayloadsContainer);
      assert blobClient.ContainerName(first.document) == datas;
      assert blobClient.ContainerName(second.document) == payloads;
      var saved := blobs.Save(datas, first);
      assert saved.1.None?;
      assert DatasBlobs(saved.0) == DatasBlobs(blobs)[first.name := StoredBlob(first.document, first.metadata)];
      assert PayloadsBlobs(saved.0) == PayloadsBlobs(blobs);
      var saved' := saved.0.Save(payloads, second);
      assert saved'.1.None?;
      assert PayloadsBlobs(saved'.0) == PayloadsBlobs(blobs)[second.name := StoredBlob(second.document, second.metadata)];
      assert DatasBlobs(saved'.0) == DatasBlobs(saved.0);
    }

    /** The transaction blob name already taken in the data or the payload container makes the blob task fail. */
    lemma TransactionBlobsClash(blobs: BlobState<TransactionBlobDocument>, payload: Payload, data: Data)
      requires Valid()
      requires BlobName(data.request.transactionId) in DatasBlobs(blobs) || BlobName(data.request.transactionId) in PayloadsBlobs(blobs)
      ensures blobClient.SaveAll(blobs, TransactionBlobs(payload, data)).1.Some?
    {
      var transactionBlobs := TransactionBlobs(payload, data);
      var first, second := transactionBlobs[0], transactionBlobs[1];
      assert transactionBlobs == [first, second];
      blobClient.SaveAllPair(blobs, first, second);
      LowerIdempotent(DatasContainer);
      LowerIdempotent(PayloadsContainer);
      ContainerKinds(first.document);
      ContainerKinds(second.document);
      var datas, payloads := Lower(DatasContainer), Lower(PayloadsContainer);
      assert blobClient.ContainerName(first.document) == datas;
      assert blobClient.ContainerName(second.document) == payloads;
      var saved := blobs.Save(datas, first);
      if saved.1.None? {
        assert PayloadsBlobs(saved.0) == PayloadsBlobs(blobs);
      }
    }

    /**
     * Save writes the data and payload documents under their transaction ids when those are free,
     * both pointing at the transaction blob, and leaves the index and the blobs as the upload and
     * the blob task wrote them.
     */
    lemma SaveCreates(
      datas: map<Key, SoftCosmosDataDocument>, payloads: map<Key, SoftCosmosPayloadDocument>,
      index: Index, batches: nat, blobs: BlobState<TransactionBlobDocument>, payload: Payload, data: Data)
      requires Valid()
      requires (data.request.transactionId, data.request.transactionId) !in datas
      requires (payload.requestDto.transactionId, payload.requestDto.transactionId) !in payloads
      ensures var (_, datas', payloads', index', blobs') := Save(datas, payloads, index, batches, blobs, payload, data);
        var blobName := BlobName(data.request.transactionId);
        && datas' == datas[(data.request.transactionId, data.request.transactionId) := SoftDataDocumentOf(data.request, data.response, blobName)]
        && payloads' == payloads[(payload.requestDto.transactionId, payload.requestDto.transactionId) := SoftPayloadDocumentOf(payload.requestDto, payload.responseDto, blobName)]
        && index' == searchClient.Indexed(index, batches, BuildOrderSearchModels(data.response))
        && blobs' == blobClient.SaveAll(blobs, TransactionBlobs(payload, data)).0
    {
      var blobName := BlobName(data.request.transactionId);
      var dataDocument := SoftDataDocumentOf(data.request, data.response, blobName);
      var payloadDocument := SoftPayloadDocumentOf(payload.requestDto, payload.responseDto, blobName);
      assert dataCosmosDb.KeyOf(dataDocument) == (data.request.transactionId, data.request.transactionId);
      assert payloadCosmosDb.KeyOf(payloadDocument) == (payload.requestDto.transactionId, payload.requestDto.transactionId);
      dataCosmosDb.InsertEffect(datas, dataDocument);
      payloadCosmosDb.InsertEffect(payloads, payloadDocument);
    }

    /** A Save whose batch the service takes indexes every order of a response with distinct ids under its id. */
    lemma SaveIndexes(
      datas: map<Key, SoftCosmosDataDocument>, payloads: map<Key, SoftCosmosPayloadDocument>,
      index: Index, batches: nat, blobs: BlobState<TransactionBlobDocument>, payload: Payload, data: Data, i: nat)
      requires Valid()
      requires searchClient.accepts(batches)
      requires UniqueOrderIds(data.response.orders) && i < |data.response.orders|
      ensures var index' := Save(datas, payloads, index, batches, blobs, payload, data).3;
        var order := data.response.orders[i];
        && order.orderId in index'
        && index'[order.orderId] == OrderSearchModel(order.orderId, data.response.transactionId, data.response.transactionDate)
    {
      UploadOrderModels(index, data.response, i);
    }

    /**
     * A Save on free keys succeeds, costs exactly the data charge plus the payload charge, each as
     * its response rounded it (blobs and search are not charged), and reports two blobs uploaded.
     */
    lemma SaveCost(
      datas: map<Key, SoftCosmosDataDocument>, payloads: map<Key, SoftCosmosPayloadDocument>,
      index: Index, batches: nat, blobs: BlobState<TransactionBlobDocument>, payload: Payload, data: Data)
      requires Valid() && FreshKeys(datas, payloads, blobs, payload, data)
      ensures var blobName := BlobName(data.request.transactionId);
        var r := Save(datas, payloads, index, batches, blobs, payload, data).0;
        var dataUnits := Round3(dataCosmosDb.charge(FromDocument(SoftDataDocumentOf(data.request, data.response, blobName))));
        var payloadUnits := Round3(payloadCosmosDb.charge(FromDocument(SoftPayloadDocumentOf(payload.requestDto, payload.responseDto, blobName))));
        && r.Ok?
        && r.value.requestUnits == dataUnits + payloadUnits
        && r.value.dynamicInformations == SaveInformations(dataUnits, payloadUnits, 2)
    {
      var blobName := BlobName(data.request.transactionId);
      var dataDocument := SoftDataDocumentOf(data.request, data.response, blobName);
      var payloadDocument := SoftPayloadDocumentOf(payload.requestDto, payload.responseDto, blobName);
      assert dataCosmosDb.KeyOf(dataDocument) == (data.request.transactionId, data.request.transactionId);
      assert payloadCosmosDb.KeyOf(payloadDocument) == (payload.requestDto.transactionId, payload.requestDto.transactionId);
      dataCosmosDb.InsertEffect(datas, dataDocument);
      payloadCosmosDb.InsertEffect(payloads, payloadDocument);
      TransactionBlobsFresh(blobs, payload, data);
      SaveResponseCost(dataCosmosDb.charge(FromDocument(dataDocument)), payloadCosmosDb.charge(FromDocument(payloadDocument)), 2);
    }

    /** A transaction already stored makes Save fail with the conflict on its key, which comes first. */
    lemma SaveExistingFails(
      datas: map<Key, SoftCosmosDataDocument>, payloads: map<Key, SoftCosmosPayloadDocument>,
      index: Index, batches: nat, blobs: BlobState<TransactionBlobDocument>, payload: Payload, data: Data)
      requires Valid()
      requires (data.request.transactionId, data.request.transactionId) in datas
      ensures var (r, datas', _, _, _) := Save(datas, payloads, index, batches, blobs, payload, data);
        && r == Err(Conflict(data.request.transactionId, data.request.transactionId))
        && datas' == datas
    {
      var dataDocument := SoftDataDocumentOf(data.request, data.response, BlobName(data.request.transactionId));
      assert dataCosmosDb.KeyOf(dataDocument) == (data.request.transactionId, data.request.transactionId);
      dataCosmosDb.InsertEffect(datas, dataDocument);
    }

    /** A transaction blob name already taken in the data or the payload container makes Save fail. */
    lemma SaveExistingBlobFails(
      datas: map<Key, SoftCosmosDataDocument>, payloads: map<Key, SoftCosmosPayloadDocument>,
      index: Index, batches: nat, blobs: BlobState<TransactionBlobDocument>, payload: Payload, data: Data)
      requires Valid()
      requires BlobName(data.request.transactionId) in DatasBlobs(blobs) || BlobName(data.request.transactionId) in PayloadsBlobs(blobs)
      ensures Save(datas, payloads, index, batches, blobs, payload, data).0.Err?
    {
      var blobName := BlobName(data.request.transactionId);
      var dataInserted := dataCosmosDb.Insert(datas, FromDocument(SoftDataDocumentOf(data.request, data.response, blobName)));
      var payloadInserted := payloadCosmosDb.Insert(payloads, FromDocument(SoftPayloadDocumentOf(payload.requestDto, payload.responseDto, blobName)));
      TransactionBlobsClash(blobs, payload, data);
      SaveResponseFails(dataInserted.0, payloadInserted.0, blobClient.SaveAll(blobs, TransactionBlobs(payload, data)).1, 2);
    }

    /** When none of the 1 + MaxRetry searches finds anything, Get fails with UnfoundOrderException after all of them, touching no blob. */
    lemma GetUnfoundInSearch(
      index: Index, searches: nat, blobs: BlobState<TransactionBlobDocument>, datas: map<Key, SoftCosmosDataDocument>, orderId: string)
      requires forall n :: searches <= n <= searches + MaxRetry ==> searchClient.search(index, Quote(orderId), n) == []
      ensures Get(index, searches, blobs, datas, orderId) == (Err(UnfoundOrder(orderId)), searches + MaxRetry + 1, blobs)
    {
      RetryFails(searchClient.search, index, orderId, searches, MaxRetry);
      RetryOutcome(searchClient.search, index, orderId, searches, MaxRetry);
    }

    /**
     * With a sound search over a valid index, Get never finds two models for one order id: once a
     * search finds something, the answer is that of the model under the order id when it was
     * among the models found, and "Unfound OrderId in Search" at no cost otherwise.
     */
    lemma GetFromSoundSearch(
      index: Index, searches: nat, blobs: BlobState<TransactionBlobDocument>, datas: map<Key, SoftCosmosDataDocument>, orderId: string)
      requires Valid() && searchClient.Sound()
      requires forall k :: k in index ==> OrderKey(index[k]) == k
      requires Retry(searchClient.search, index, orderId, searches, MaxRetry).0.Ok?
      ensures var models := Retry(searchClient.search, index, orderId, searches, MaxRetry).0.value;
        var r := Get(index, searches, blobs, datas, orderId);
        && (orderId in index && index[orderId] in models ==>
              (r.0, r.2) == FoundModel(blobs, datas, orderId, index[orderId].transactionId))
        && (!(orderId in index && index[orderId] in models) ==>
              && r.0 == Ok(Respond(0.0, map["Unfound OrderId in Search" := Text(orderId)]))
              && r.0.value.requestUnits == 0.0
              && r.2 == blobs)
    {
      var retried := Retry(searchClient.search, index, orderId, searches, MaxRetry);
      RetryOutcome(searchClient.search, index, orderId, searches, MaxRetry);
      var models := retried.0.value;
      assert models == searchClient.search(index, Quote(orderId), retried.1 - 1);
      ModelsWithIdFromIndex(models, index, orderId);
      RespondZero(map["Unfound OrderId in Search" := Text(orderId)]);
    }

    /**
     * A model naming transaction `transactionId` leads Get to the data document under
     * (transactionId, transactionId): when it is missing the cost is zero and both the order id and
     * the missing transaction are reported; when present, a missing data blob is a null
     * dereference, and otherwise the answer is Single's error or, at the cost of the data read,
     * the blob's name among the diagnostics.
     */
    lemma FoundModelCases(
      blobs: BlobState<TransactionBlobDocument>, datas: map<Key, SoftCosmosDataDocument>, orderId: string, transactionId: string)
      requires dataCosmosDb.ReadIsSpecified()
      requires Unquoted(transactionId)
      ensures var dataUnits := Round3(dataCosmosDb.charge(DataRequest(transactionId)));
        var blobName := BlobName(transactionId);
        var r := FoundModel(blobs, datas, orderId, transactionId).0;
        && ((transactionId, transactionId) !in datas ==>
              && r.Ok?
              && r.value.requestUnits == 0.0
              && r.value.dynamicInformations == map["Found Id in Search" := Text(orderId), "Unfound TransactionId in Cosmos" := Text(transactionId)])
        && ((transactionId, transactionId) in datas && blobName !in DatasBlobs(blobs) ==> r == Err(NullReference))
        && ((transactionId, transactionId) in datas && blobName in DatasBlobs(blobs) && DatasBlobs(blobs)[blobName].document.DataBlob? ==>
              var single := SingleOrder(DatasBlobs(blobs)[blobName].document.data.response.orders, orderId);
              && (r.Ok? <==> single.Ok?)
              && (single.Err? ==> r == Err(single.error))
              && (single.Ok? ==>
                    && r.value.requestUnits == dataUnits
                    && r.value.dynamicInformations == FoundInformations(dataUnits, orderId, transactionId, blobName)))
    {
      LowerIdempotent(DatasContainer);
      dataCosmosDb.ReadPoint(datas, transactionId, transactionId);
      RespondZero(map["Found Id in Search" := Text(orderId), "Unfound TransactionId in Cosmos" := Text(transactionId)]);
      Round3Idempotent(dataCosmosDb.charge(DataRequest(transactionId)));
    }

    /**
     * Save then Get: after a Save on free keys whose batch the service takes, whose response has
     * distinct order ids and the request's transaction id, a Get of one of its orders whose
     * searches (sound ones) list the order's model finds the saved data document and the saved
     * data blob, and answers at the cost of the data read.
     */
    lemma SaveThenGet(
      datas: map<Key, SoftCosmosDataDocument>, payloads: map<Key, SoftCosmosPayloadDocument>,
      index: Index, batches: nat, blobs: BlobState<TransactionBlobDocument>, searches: nat, payload: Payload, data: Data, i: nat)
      requires Valid() && FreshKeys(datas, payloads, blobs, payload, data)
      requires dataCosmosDb.ReadIsSpecified() && searchClient.Sound()
      requires forall k :: k in index ==> OrderKey(index[k]) == k
      requires searchClient.accepts(batches)
      requires UniqueOrderIds(data.response.orders) && i < |data.response.orders|
      requires data.response.transactionId == data.request.transactionId && Unquoted(data.request.transactionId)
      requires var saved := Save(datas, payloads, index, batches, blobs, payload, data);
        var found := Retry(searchClient.search, saved.3, data.response.orders[i].orderId, searches, MaxRetry).0;
        found.Ok? && OrderSearchModel(data.response.orders[i].orderId, data.response.transactionId, data.response.transactionDate) in found.value
      ensures var saved := Save(datas, payloads, index, batches, blobs, payload, data);
        var orderId := data.response.orders[i].orderId;
        var transactionId := data.request.transactionId;
        var dataUnits := Round3(dataCosmosDb.charge(DataRequest(transactionId)));
        var r := Get(saved.3, searches, saved.4, saved.1, orderId).0;
        && r.Ok?
        && r.value.requestUnits == dataUnits
        && r.value.dynamicInformations == FoundInformations(dataUnits, orderId, transactionId, BlobName(transactionId))
    {
      var saved := Save(datas, payloads, index, batches, blobs, payload, data);
      var orderId := data.response.orders[i].orderId;
      SaveCreates(datas, payloads, index, batches, blobs, payload, data);
      SaveIndexes(datas, payloads, index, batches, blobs, payload, data, i);
      UploadKeyed(index, OrderKey, BuildOrderSearchModels(data.response));
      TransactionBlobsFresh(blobs, payload, data);
      SingleOrderUnique(data.response.orders, i);
      GetFromSoundSearch(saved.3, searches, saved.4, saved.1, orderId);
      FoundModelCases(saved.4, saved.1, orderId, data.request.transactionId);
    }
  }
}
