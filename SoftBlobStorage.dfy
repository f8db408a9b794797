/**
 * SoftBlobCosmosDbStorage: a transaction is saved as a light data document and a light payload
 * document (soft orders and the name of the attachment blob), one order blob per order, and the
 * full data and payload as two blobs named after the transaction. An order id is resolved through
 * its order blob, the data document of its transaction and that document's attachment blob.
 */
module SoftBlobStorage {
  import opened Wrappers
  import opened Contracts
  import opened CosmosResponse
  import opened CosmosRequest
  import opened CosmosClient
  import opened BlobSdk
  import opened BlobDocuments
  import opened SoftDocuments

  /** The container attributes of the three blob document types. */
  const OrdersContainer := "SoftOrders"
  const DatasContainer := "SoftDatas"
  const PayloadsContainer := "SoftPayloads"

  /** The blob documents this strategy writes, one constructor per document type. */
  datatype SoftBlobDocument =
    | OrderBlob(order: OrderBlobDocument)
    | DataBlob(data: TransactionDataBlobDocument)
    | PayloadBlob(payload: TransactionPayloadBlobDocument)

  /** BlobContainerAttribute.ContainerName of each document type. */
  function ContainerOf(document: SoftBlobDocument): string
  {
    match document
    case OrderBlob(_) => OrdersContainer
    case DataBlob(_) => DatasContainer
    case PayloadBlob(_) => PayloadsContainer
  }

  /** The three containers are distinct once lower-cased, so each holds one document type only. */
  lemma ContainerKinds(document: SoftBlobDocument)
    ensures Lower(ContainerOf(document)) == Lower(OrdersContainer) <==> document.OrderBlob?
    ensures Lower(ContainerOf(document)) == Lower(DatasContainer) <==> document.DataBlob?
    ensures Lower(ContainerOf(document)) == Lower(PayloadsContainer) <==> document.PayloadBlob?
  {
    assert |Lower(OrdersContainer)| == 10 && |Lower(DatasContainer)| == 9 && |Lower(PayloadsContainer)| == 12;
  }

  function AsOrderBlob(document: OrderBlobDocument): SoftBlobDocument
  {
    OrderBlob(document)
  }

  /** The metadata of both transaction blobs: the number of products of the request. */
  function TransactionMetadata(data: Data): map<string, string>
  {
    map["nbrProducts" := NatToString(|data.request.products|)]
  }

  /**
   * GetSaveTransactionBlobTask's two blobs, in the order their tasks are listed: the data and the
   * payload, both named after the request's transaction id.
   */
  function TransactionBlobs(payload: Payload, data: Data): (blobs: seq<BlobModel<SoftBlobDocument>>)
    ensures |blobs| == 2
    ensures blobs[0].name == blobs[1].name == BlobName(data.request.transactionId)
    ensures blobs[0].document == DataBlob(TransactionDataBlobDocument(data.request, data.response))
    ensures blobs[1].document == PayloadBlob(TransactionPayloadBlobDocument(payload.requestDto, payload.responseDto))
    ensures blobs[0].metadata == blobs[1].metadata == TransactionMetadata(data)
  {
    var name := BlobName(data.request.transactionId);
    [ BlobModel(name, DataBlob(TransactionDataBlobDocument(data.request, data.response)), TransactionMetadata(data)),
      BlobModel(name, PayloadBlob(TransactionPayloadBlobDocument(payload.requestDto, payload.responseDto)), TransactionMetadata(data)) ]
  }

  /** The "{x} RU" and "{n} uploaded" figures a Save reports. */
  function SaveInformations(dataRequestUnits: real, payloadRequestUnits: real, blobs: int): Diagnostics
  {
    map[
      "dataRequestUnits" := Units(dataRequestUnits, " RU"),
      "payloadRequestUnits" := Units(payloadRequestUnits, " RU"),
      "blobs" := Count(blobs, " uploaded")]
  }

  /** The diagnostics of a successful Get. */
  function FoundInformations(dataUnits: real, orderId: string, transactionId: string, orderPrice: real, orderBlobName: string): Diagnostics
  {
    map[
      "dataResponse" := SubResponse(dataUnits, 1),
      "orderId" := Text(orderId),
      "transactionId" := Text(transactionId),
      "orderPrice" := Price(orderPrice),
      "Found order blob" := Text(orderBlobName)]
  }

  /**
   * What SaveAsync answers once its four tasks are done: the first error in the order they are
   * awaited (data, payload, order blobs, transaction blobs), or the two charges and the blob count.
   */
  function SaveResponse(
    dataResult: Result<CosmosDbResponse<SoftCosmosDataDocument>, Error>,
    payloadResult: Result<CosmosDbResponse<SoftCosmosPayloadDocument>, Error>,
    orderBlobsError: Option<Error>, transactionBlobsError: Option<Error>, blobs: int): Result<StorageResponse, Error>
  {
    var error := FirstError(ErrorOf(dataResult), FirstError(ErrorOf(payloadResult), FirstError(orderBlobsError, transactionBlobsError)));
    if error.Some? then Err(error.value)
    else
      var dataRequestUnits := dataResult.value.requestUnits;
      var payloadRequestUnits := payloadResult.value.requestUnits;
      Ok(Saved(dataRequestUnits, payloadRequestUnits, blobs))
  }

  /** The answer of a Save whose writes all succeeded: the two charges added up, and the number of blobs. */
  function Saved(dataRequestUnits: real, payloadRequestUnits: real, blobs: int): StorageResponse
  {
    Respond(dataRequestUnits + payloadRequestUnits, SaveInformations(dataRequestUnits, payloadRequestUnits, blobs))
  }

  /** When every write succeeds, SaveAsync answers with the data and payload charges, as their responses rounded them, and the number of blobs. */
  lemma SaveResponseCost(dataCharge: real, payloadCharge: real, blobs: int)
    ensures var r := SaveResponse(Ok(NewResponse(dataCharge, None)), Ok(NewResponse(payloadCharge, None)), None, None, blobs);
      && r.Ok?
      && r.value.requestUnits == Round3(dataCharge) + Round3(payloadCharge)
      && r.value.dynamicInformations == SaveInformations(Round3(dataCharge), Round3(payloadCharge), blobs)
  {
    RespondRoundedSum(dataCharge, payloadCharge, SaveInformations(Round3(dataCharge), Round3(payloadCharge), blobs));
  }

  /** A failed blob task fails the Save, whatever the inserts did. */
  lemma SaveResponseFails(
    dataResult: Result<CosmosDbResponse<SoftCosmosDataDocument>, Error>,
    payloadResult: Result<CosmosDbResponse<SoftCosmosPayloadDocument>, Error>,
    orderBlobsError: Option<Error>, transactionBlobsError: Option<Error>, blobs: int)
    requires orderBlobsError.Some? || transactionBlobsError.Some?
    ensures SaveResponse(dataResult, payloadResult, orderBlobsError, transactionBlobsError, blobs).Err?
  {
  }

  /**
   * The last hop of a Get: the attachment blob read from the data container. A missing blob is
   * dereferenced (NullReferenceException); otherwise Single picks the order out of its response.
   * (A blob of another document type never sits in the data container of a valid client.)
   */
  function FoundOrder(
    dataBlob: Option<BlobModel<SoftBlobDocument>>, dataUnits: real, orderId: string, transactionId: string,
    orderBlobName: string): Result<StorageResponse, Error>
  {
    match dataBlob
    case Some(BlobModel(_, DataBlob(dataBlobDocument), _)) =>
      (match SingleOrder(dataBlobDocument.response.orders, orderId)
       case Err(e) => Err(e)
       case Ok(order) => Ok(Respond(dataUnits, FoundInformations(dataUnits, orderId, transactionId, order.OrderPrice(), orderBlobName))))
    case _ => Err(NullReference)
  }

  class SoftBlobCosmosDbStorage {
    const blobClient: BlobClient<SoftBlobDocument>
    const dataCosmosDb: CosmosDbClient<SoftCosmosDataDocument>
    const payloadCosmosDb: CosmosDbClient<SoftCosmosPayloadDocument>

    /** Separate stores; documents keyed by their own Id and PartitionKey; each blob document type has its container. */
    ghost predicate Valid()
      reads this, blobClient, dataCosmosDb, payloadCosmosDb
    {
      && blobClient as object != dataCosmosDb as object
      && blobClient as object != payloadCosmosDb as object
      && dataCosmosDb as object != payloadCosmosDb as object
      && blobClient.Valid() && dataCosmosDb.Valid() && payloadCosmosDb.Valid()
      && (forall d :: dataCosmosDb.KeyOf(d) == (d.partitionKey, d.id))
      && (forall d :: payloadCosmosDb.KeyOf(d) == (d.partitionKey, d.id))
      && (forall d :: blobClient.containerOf(d) == ContainerOf(d))
    }

    constructor (
      blobClient: BlobClient<SoftBlobDocument>,
      dataCosmosDb: CosmosDbClient<SoftCosmosDataDocument>,
      payloadCosmosDb: CosmosDbClient<SoftCosmosPayloadDocument>)
      requires blobClient as object != dataCosmosDb as object
      requires blobClient as object != payloadCosmosDb as object
      requires dataCosmosDb as object != payloadCosmosDb as object
      requires blobClient.Valid() && dataCosmosDb.Valid() && payloadCosmosDb.Valid()
      requires forall d :: dataCosmosDb.KeyOf(d) == (d.partitionKey, d.id)
      requires forall d :: payloadCosmosDb.KeyOf(d) == (d.partitionKey, d.id)
      requires forall d :: blobClient.containerOf(d) == ContainerOf(d)
      ensures Valid()
      ensures this.blobClient == blobClient && this.dataCosmosDb == dataCosmosDb && this.payloadCosmosDb == payloadCosmosDb
    {
      this.blobClient := blobClient;
      this.dataCosmosDb := dataCosmosDb;
      this.payloadCosmosDb := payloadCosmosDb;
    }

    /**
     * GetAsync(orderId) against a blob service in state `blobs` and a data container holding
     * `datas`; also the blob state after. (A blob of another document type never sits in the
     * orders container of a valid client.)
     */
    ghost function Get(blobs: BlobState<SoftBlobDocument>, datas: map<Key, SoftCosmosDataDocument>, orderId: string)
      : (Result<StorageResponse, Error>, BlobState<SoftBlobDocument>)
    {
      var orderBlobName := BlobName(orderId);
      var orderBlob := blobs.Get(Lower(OrdersContainer), orderBlobName);
      match orderBlob.1
      case Some(BlobModel(_, OrderBlob(orderBlobDocument), _)) =>
        var transactionId := orderBlobDocument.transactionId;
        (match dataCosmosDb.read(datas, DataRequest(transactionId))
         case Err(e) => (Err(e), orderBlob.0)
         case Ok((_, None)) =>
           (Ok(Respond(0.0, map["Found order blob" := Text(orderBlobName), "Unfound TransactionId in Cosmos" := Text(transactionId)])), orderBlob.0)
         case Ok((dataUnits, Some(dataDocument))) =>
           var dataBlob := orderBlob.0.Get(Lower(DatasContainer), dataDocument.attachmentBlobName);
           (FoundOrder(dataBlob.1, dataUnits, orderId, transactionId, orderBlobName), dataBlob.0))
      case _ => (Ok(Respond(0.0, map["Unfound order blob" := Text(orderBlobName)])), orderBlob.0)
    }

    method GetAsync(orderId: string) returns (r: Result<StorageResponse, Error>)
      requires Valid()
      requires dataCosmosDb.ReadIsSpecified()
      modifies blobClient
      ensures Valid()
      ensures (r, blobClient.State()) == Get(old(blobClient.State()), dataCosmosDb.items, orderId)
    {
      var orderBlobName := BlobName(orderId);
      ghost var orderBlobRead := blobClient.State().Get(Lower(OrdersContainer), orderBlobName);
      var orderBlob := blobClient.GetBlobAsync(OrdersContainer, orderBlobName);
      assert orderBlob == orderBlobRead.1;
      if orderBlob.None? {
        return Ok(Respond(0.0, map["Unfound order blob" := Text(orderBlobName)]));
      }
      ContainerKinds(orderBlob.value.document);
      var transactionId := orderBlob.value.document.order.transactionId;
      var dataResponse := dataCosmosDb.GetSingleAsync(DataRequest(transactionId));
      if dataResponse.Err? {
        return Err(dataResponse.error);
      }
      if dataResponse.value.1.None? {
        return Ok(Respond(0.0, map["Found order blob" := Text(orderBlobName), "Unfound TransactionId in Cosmos" := Text(transactionId)]));
      }
      var dataUnits := dataResponse.value.0;
      var dataBlobName := dataResponse.value.1.value.attachmentBlobName;
      ghost var dataBlobRead := blobClient.State().Get(Lower(DatasContainer), dataBlobName);
      var dataBlob := blobClient.GetBlobAsync(DatasContainer, dataBlobName);
      assert dataBlob == dataBlobRead.1;
      if dataBlob.None? {
        return Err(NullReference);
      }
      ContainerKinds(dataBlob.value.document);
      var order := SingleOrder(dataBlob.value.document.data.response.orders, orderId);
      if order.Err? {
        return Err(order.error);
      }
      r := Ok(Respond(dataUnits, FoundInformations(dataUnits, orderId, transactionId, order.value.OrderPrice(), orderBlobName)));
    }

    /**
     * SaveAsync(payload, data): both inserts, every order blob and both transaction blobs are
     * attempted; the first failure in the order its Task objects are awaited (data, payload, order blobs,
     * transaction blobs) is reported, and nothing is undone. The order blobs and the transaction
     * blobs go to different containers, so the two blob tasks do not interfere.
     */
    function Save(
      datas: map<Key, SoftCosmosDataDocument>, payloads: map<Key, SoftCosmosPayloadDocument>,
      blobs: BlobState<SoftBlobDocument>, payload: Payload, data: Data)
      : (Result<StorageResponse, Error>, map<Key, SoftCosmosDataDocument>, map<Key, SoftCosmosPayloadDocument>, BlobState<SoftBlobDocument>)
    {
      var blobName := BlobName(data.request.transactionId);
      var dataInserted := dataCosmosDb.Insert(datas, FromDocument(SoftDataDocumentOf(data.request, data.response, blobName)));
      var payloadInserted := payloadCosmosDb.Insert(payloads, FromDocument(SoftPayloadDocumentOf(payload.requestDto, payload.responseDto, blobName)));
      var blobsSaved := SaveBlobs(blobs, payload, data);
      (SaveResponse(dataInserted.0, payloadInserted.0, blobsSaved.1, blobsSaved.2, |data.response.orders| + 2),
       dataInserted.1, payloadInserted.1, blobsSaved.0)
    }

    /**
     * The two blob tasks of a Save: the order blobs, then the transaction blobs; the blob state
     * after both, and the first error of each task.
     */
    function SaveBlobs(blobs: BlobState<SoftBlobDocument>, payload: Payload, data: Data)
      : (BlobState<SoftBlobDocument>, Option<Error>, Option<Error>)
    {
      var ordersSaved := blobClient.SaveAll(blobs, OrderBlobs(data.response, AsOrderBlob));
      var transactionSaved := blobClient.SaveAll(ordersSaved.0, TransactionBlobs(payload, data));
      (transactionSaved.0, ordersSaved.1, transactionSaved.1)
    }

    method SaveAsync(payload: Payload, data: Data) returns (r: Result<StorageResponse, Error>)
      requires Valid()
      modifies blobClient, dataCosmosDb, payloadCosmosDb
      ensures Valid()
      ensures (r, dataCosmosDb.items, payloadCosmosDb.items, blobClient.State())
        == Save(old(dataCosmosDb.items), old(payloadCosmosDb.items), old(blobClient.State()), payload, data)
    {
      var blobName := BlobName(data.request.transactionId);
      var dataDocument := SoftDataDocumentOf(data.request, data.response, blobName);
      var payloadDocument := SoftPayloadDocumentOf(payload.requestDto, payload.responseDto, blobName);
      ghost var saved := Save(dataCosmosDb.items, payloadCosmosDb.items, blobClient.State(), payload, data);
      ghost var dataInserted := dataCosmosDb.Insert(dataCosmosDb.items, FromDocument(dataDocument));
      ghost var payloadInserted := payloadCosmosDb.Insert(payloadCosmosDb.items, FromDocument(payloadDocument));
      ghost var blobsSaved := SaveBlobs(blobClient.State(), payload, data);
      assert saved.0 == SaveResponse(dataInserted.0, payloadInserted.0, blobsSaved.1, blobsSaved.2, |data.response.orders| + 2);
      var dataResult := dataCosmosDb.InsertAsync(FromDocument(dataDocument));
      assert dataResult == dataInserted.0 && saved.1 == dataCosmosDb.items;
      var payloadResult := payloadCosmosDb.InsertAsync(FromDocument(payloadDocument));
      assert payloadResult == payloadInserted.0 && saved.2 == payloadCosmosDb.items;
      var orderBlobsError, orderBlobs := GetSaveOrderBlobsTask(data);
      var transactionBlobsError, transactionBlobs := GetSaveTransactionBlobTask(payload, data);
      assert (blobClient.State(), orderBlobsError, transactionBlobsError) == blobsSaved;
      r := SaveResponse(dataResult, payloadResult, orderBlobsError, transactionBlobsError, orderBlobs + transactionBlobs);
    }

    /** GetSaveTransactionBlobTask: save the data blob and the payload blob; the number of save tasks started. */
    method GetSaveTransactionBlobTask(payload: Payload, data: Data) returns (error: Option<Error>, count: int)
      requires Valid()
      modifies blobClient
      ensures Valid()
      ensures (blobClient.State(), error) == blobClient.SaveAll(old(blobClient.State()), TransactionBlobs(payload, data))
      ensures count == 2
    {
      var tasks := TransactionBlobs(payload, data);
      error := blobClient.SaveAllAsync(tasks);
      count := |tasks|;
    }

    /** GetSaveOrderBlobsTask: save one blob per order; the number of save tasks started. */
    method GetSaveOrderBlobsTask(data: Data) returns (error: Option<Error>, count: int)
      requires Valid()
      modifies blobClient
      ensures Valid()
      ensures (blobClient.State(), error) == blobClient.SaveAll(old(blobClient.State()), OrderBlobs(data.response, AsOrderBlob))
      ensures count == |data.response.orders|
    {
      var blobs := OrderBlobs(data.response, AsOrderBlob);
      error := blobClient.SaveAllAsync(blobs);
      count := |blobs|;
    }
  
    /** The three containers of the strategy, in a blob state. */
    function OrdersBlobs(blobs: BlobState<SoftBlobDocument>): Container<SoftBlobDocument>
    {
      blobs.Blobs(Lower(OrdersContainer))
    }

    function DatasBlobs(blobs: BlobState<SoftBlobDocument>): Container<SoftBlobDocument>
    {
      blobs.Blobs(Lower(DatasContainer))
    }

    function PayloadsBlobs(blobs: BlobState<SoftBlobDocument>): Container<SoftBlobDocument>
    {
      blobs.Blobs(Lower(PayloadsContainer))
    }

    /**
     * The keys a Save writes are all free: data and payload keys, one order blob name per
     * (distinct) order id, and the transaction blob name in the data and payload containers.
     */
    ghost predicate FreshKeys(
      datas: map<Key, SoftCosmosDataDocument>, payloads: map<Key, SoftCosmosPayloadDocument>,
      blobs: BlobState<SoftBlobDocument>, payload: Payload, data: Data)
    {
      && (data.request.transactionId, data.request.transactionId) !in datas
      && (payload.requestDto.transactionId, payload.requestDto.transactionId) !in payloads
      && UniqueOrderIds(data.response.orders)
      && (forall i :: 0 <= i < |data.response.orders| ==> BlobName(data.response.orders[i].orderId) !in OrdersBlobs(blobs))
      && BlobName(data.request.transactionId) !in DatasBlobs(blobs)
      && BlobName(data.request.transactionId) !in PayloadsBlobs(blobs)
    }

    /** The order blobs of a Save all go to the orders container. */
    lemma OrderBlobsContainer(data: Data)
      requires Valid()
      ensures var saved := OrderBlobs(data.response, AsOrderBlob);
        forall i :: 0 <= i < |saved| ==> blobClient.ContainerName(saved[i].document) == Lower(OrdersContainer)
    {
      var saved := OrderBlobs(data.response, AsOrderBlob);
      forall i | 0 <= i < |saved|
        ensures blobClient.ContainerName(saved[i].document) == Lower(OrdersContainer)
      {
        assert saved[i].document.OrderBlob?;
      }
    }

    /** The order blobs of a Save all go to the orders container, under pairwise distinct names that are free when the keys are. */
    lemma OrderBlobsFresh(blobs: BlobState<SoftBlobDocument>, data: Data)
      requires Valid()
      requires UniqueOrderIds(data.response.orders)
      requires forall i :: 0 <= i < |data.response.orders| ==> BlobName(data.response.orders[i].orderId) !in OrdersBlobs(blobs)
      ensures var saved := OrderBlobs(data.response, AsOrderBlob);
        && (forall i :: 0 <= i < |saved| ==> blobClient.ContainerName(saved[i].document) == Lower(OrdersContainer))
        && (forall i, j :: 0 <= i < j < |saved| ==> saved[i].name != saved[j].name)
        && (forall i :: 0 <= i < |saved| ==> saved[i].name !in OrdersBlobs(blobs))
    {
      OrderBlobsContainer(data);
      OrderBlobNamesDistinct(data.response, AsOrderBlob);
    }

    /**
     * The two transaction blobs land in the data and in the payload container under the
     * transaction blob name when it is free in both, and the orders container is left alone.
     */
    lemma TransactionBlobsFresh(blobs: BlobState<SoftBlobDocument>, payload: Payload, data: Data)
      requires Valid()
      requires BlobName(data.request.transactionId) !in DatasBlobs(blobs)
      requires BlobName(data.request.transactionId) !in PayloadsBlobs(blobs)
      ensures var (blobs', error) := blobClient.SaveAll(blobs, TransactionBlobs(payload, data));
        var blobName := BlobName(data.request.transactionId);
        && error.None?
        && DatasBlobs(blobs') == DatasBlobs(blobs)[blobName := StoredBlob(DataBlob(TransactionDataBlobDocument(data.request, data.response)), TransactionMetadata(data))]
        && PayloadsBlobs(blobs') == PayloadsBlobs(blobs)[blobName := StoredBlob(PayloadBlob(TransactionPayloadBlobDocument(payload.requestDto, payload.responseDto)), TransactionMetadata(data))]
        && OrdersBlobs(blobs') == OrdersBlobs(blobs)
    {
      var transactionBlobs := TransactionBlobs(payload, data);
      var first, second := transactionBlobs[0], transactionBlobs[1];
      assert transactionBlobs == [first, second];
      blobClient.SaveAllPair(blobs, first, second);
      LowerIdempotent(DatasContainer);
      LowerIdempotent(PayloadsContainer);
      ContainerKinds(first.document);
      ContainerKinds(second.document);
      var datas, payloads := Lower(DatasContainer), Lower(PayloadsContainer);
      assert blobClient.ContainerName(first.document) == datas;
      assert blobClient.ContainerName(second.document) == payloads;
      var saved := blobs.Save(datas, first);
      assert saved.1.None?;
      assert DatasBlobs(saved.0) == DatasBlobs(blobs)[first.name := StoredBlob(first.document, first.metadata)];
      assert PayloadsBlobs(saved.0) == PayloadsBlobs(blobs);
      assert OrdersBlobs(saved.0) == OrdersBlobs(blobs);
      var saved' := saved.0.Save(payloads, second);
      assert saved'.1.None?;
      assert PayloadsBlobs(saved'.0) == PayloadsBlobs(blobs)[second.name := StoredBlob(second.document, second.metadata)];
      assert DatasBlobs(saved'.0) == DatasBlobs(saved.0);
      assert OrdersBlobs(saved'.0) == OrdersBlobs(blobs);
    }

    /**
     * The blobs of a Save on free keys are all written: the order blobs added to the orders
     * container, and the data and payload blobs to theirs.
     */
    lemma SaveBlobsFresh(blobs: BlobState<SoftBlobDocument>, payload: Payload, data: Data)
      requires Valid()
      requires UniqueOrderIds(data.response.orders)
      requires forall i :: 0 <= i < |data.response.orders| ==> BlobName(data.response.orders[i].orderId) !in OrdersBlobs(blobs)
      requires BlobName(data.request.transactionId) !in DatasBlobs(blobs)
      requires BlobName(data.request.transactionId) !in PayloadsBlobs(blobs)
      ensures var (blobs', ordersError, transactionError) := SaveBlobs(blobs, payload, data);
        var blobName := BlobName(data.request.transactionId);
        && ordersError.None? && transactionError.None?
        && OrdersBlobs(blobs') == OrdersBlobs(blobClient.SaveAll(blobs, OrderBlobs(data.response, AsOrderBlob)).0)
        && DatasBlobs(blobs') == DatasBlobs(blobs)[blobName := StoredBlob(DataBlob(TransactionDataBlobDocument(data.request, data.response)), TransactionMetadata(data))]
        && PayloadsBlobs(blobs') == PayloadsBlobs(blobs)[blobName := StoredBlob(PayloadBlob(TransactionPayloadBlobDocument(payload.requestDto, payload.responseDto)), TransactionMetadata(data))]
    {
      var saved := OrderBlobs(data.response, AsOrderBlob);
      OrderBlobsFresh(blobs, data);
      blobClient.SaveAllFreshState(blobs, saved, Lower(OrdersContainer));
      ContainerKinds(DataBlob(TransactionDataBlobDocument(data.request, data.response)));
      ContainerKinds(PayloadBlob(TransactionPayloadBlobDocument(payload.requestDto, payload.responseDto)));
      blobClient.SaveAllOthers(blobs, saved, Lower(OrdersContainer), Lower(DatasContainer));
      blobClient.SaveAllOthers(blobs, saved, Lower(OrdersContainer), Lower(PayloadsContainer));
      TransactionBlobsFresh(blobClient.SaveAll(blobs, saved).0, payload, data);
    }

    /**
     * The order blob task of a Save on free names writes, for each order, a blob named after it
     * holding the order with the response's transaction id and the order id as metadata; blobs
     * already there stay, and the container grows by exactly |orders|.
     */
    lemma OrderBlobsCreate(blobs: BlobState<SoftBlobDocument>, data: Data)
      requires Valid()
      requires UniqueOrderIds(data.response.orders)
      requires forall i :: 0 <= i < |data.response.orders| ==> BlobName(data.response.orders[i].orderId) !in OrdersBlobs(blobs)
      ensures var blobs' := blobClient.SaveAll(blobs, OrderBlobs(data.response, AsOrderBlob)).0;
        var orders := data.response.orders;
        && (forall name :: name in OrdersBlobs(blobs) ==> name in OrdersBlobs(blobs') && OrdersBlobs(blobs')[name] == OrdersBlobs(blobs)[name])
        && (forall i :: 0 <= i < |orders| ==>
              && BlobName(orders[i].orderId) in OrdersBlobs(blobs')
              && OrdersBlobs(blobs')[BlobName(orders[i].orderId)]
                   == StoredBlob(OrderBlob(OrderBlobDocumentOf(data.response, orders[i])), map["OrderId" := orders[i].orderId]))
        && |OrdersBlobs(blobs')| == |OrdersBlobs(blobs)| + |orders|
    {
      OrderBlobsFresh(blobs, data);
      blobClient.SaveAllFresh(blobs, OrderBlobs(data.response, AsOrderBlob), Lower(OrdersContainer));
    }

    /**
     * Save writes the data and payload documents under their transaction ids when those are free,
     * both pointing at the transaction blob, and leaves the blobs as its blob tasks wrote them.
     */
    lemma SaveCreates(
      datas: map<Key, SoftCosmosDataDocument>, payloads: map<Key, SoftCosmosPayloadDocument>,
      blobs: BlobState<SoftBlobDocument>, payload: Payload, data: Data)
      requires Valid()
      requires (data.request.transactionId, data.request.transactionId) !in datas
      requires (payload.requestDto.transactionId, payload.requestDto.transactionId) !in payloads
      ensures var (_, datas', payloads', blobs') := Save(datas, payloads, blobs, payload, data);
        var blobName := BlobName(data.request.transactionId);
        && datas' == datas[(data.request.transactionId, data.request.transactionId) := SoftDataDocumentOf(data.request, data.response, blobName)]
        && payloads' == payloads[(payload.requestDto.transactionId, payload.requestDto.transactionId) := SoftPayloadDocumentOf(payload.requestDto, payload.responseDto, blobName)]
        && blobs' == SaveBlobs(blobs, payload, data).0
    {
      var blobName := BlobName(data.request.transactionId);
      var dataDocument := SoftDataDocumentOf(data.request, data.response, blobName);
      var payloadDocument := SoftPayloadDocumentOf(payload.requestDto, payload.responseDto, blobName);
      assert dataCosmosDb.KeyOf(dataDocument) == (data.request.transactionId, data.request.transactionId);
      assert payloadCosmosDb.KeyOf(payloadDocument) == (payload.requestDto.transactionId, payload.requestDto.transactionId);
      dataCosmosDb.InsertEffect(datas, dataDocument);
      payloadCosmosDb.InsertEffect(payloads, payloadDocument);
    }

    /** On free keys every write of a Save succeeds: its answer is that of two successful inserts and blob saves. */
    lemma SaveSucceeds(
      datas: map<Key, SoftCosmosDataDocument>, payloads: map<Key, SoftCosmosPayloadDocument>,
      blobs: BlobState<SoftBlobDocument>, payload: Payload, data: Data)
      requires Valid() && FreshKeys(datas, payloads, blobs, payload, data)
      ensures var blobName := BlobName(data.request.transactionId);
        Save(datas, payloads, blobs, payload, data).0
        == SaveResponse(
             Ok(NewResponse(dataCosmosDb.charge(FromDocument(SoftDataDocumentOf(data.request, data.response, blobName))), None)),
             Ok(NewResponse(payloadCosmosDb.charge(FromDocument(SoftPayloadDocumentOf(payload.requestDto, payload.responseDto, blobName))), None)),
             None, None, |data.response.orders| + 2)
    {
      var blobName := BlobName(data.request.transactionId);
      var dataDocument := SoftDataDocumentOf(data.request, data.response, blobName);
      var payloadDocument := SoftPayloadDocumentOf(payload.requestDto, payload.responseDto, blobName);
      assert dataCosmosDb.KeyOf(dataDocument) == (data.request.transactionId, data.request.transactionId);
      assert payloadCosmosDb.KeyOf(payloadDocument) == (payload.requestDto.transactionId, payload.requestDto.transactionId);
      dataCosmosDb.InsertEffect(datas, dataDocument);
      payloadCosmosDb.InsertEffect(payloads, payloadDocument);
      SaveBlobsFresh(blobs, payload, data);
    }

    /**
     * A successful Save on free keys costs exactly the data charge plus the payload charge, each as
     * its response rounded it (blobs are not charged), and reports the order blobs and the two
     * transaction blobs as uploaded.
     */
    lemma SaveCost(
      datas: map<Key, SoftCosmosDataDocument>, payloads: map<Key, SoftCosmosPayloadDocument>,
      blobs: BlobState<SoftBlobDocument>, payload: Payload, data: Data)
      requires Valid() && FreshKeys(datas, payloads, blobs, payload, data)
      ensures var blobName := BlobName(data.request.transactionId);
        var r := Save(datas, payloads, blobs, payload, data).0;
        var dataUnits := Round3(dataCosmosDb.charge(FromDocument(SoftDataDocumentOf(data.request, data.response, blobName))));
        var payloadUnits := Round3(payloadCosmosDb.charge(FromDocument(SoftPayloadDocumentOf(payload.requestDto, payload.responseDto, blobName))));
        && r.Ok?
        && r.value.requestUnits == dataUnits + payloadUnits
        && r.value.dynamicInformations == SaveInformations(dataUnits, payloadUnits, |data.response.orders| + 2)
    {
      var blobName := BlobName(data.request.transactionId);
      SaveSucceeds(datas, payloads, blobs, payload, data);
      SaveResponseCost(dataCosmosDb.charge(FromDocument(SoftDataDocumentOf(data.request, data.response, blobName))),
        payloadCosmosDb.charge(FromDocument(SoftPayloadDocumentOf(payload.requestDto, payload.responseDto, blobName))), |data.response.orders| + 2);
    }

    /** An order blob name already taken, or given twice, makes the order blob task fail. */
    lemma SaveBlobsOrderClash(blobs: BlobState<SoftBlobDocument>, payload: Payload, data: Data, j: nat)
      requires Valid()
      requires j < |data.response.orders|
      requires || BlobName(data.response.orders[j].orderId) in OrdersBlobs(blobs)
               || exists i :: 0 <= i < j && data.response.orders[i].orderId == data.response.orders[j].orderId
      ensures SaveBlobs(blobs, payload, data).1.Some?
    {
      var saved := OrderBlobs(data.response, AsOrderBlob);
      if BlobName(data.response.orders[j].orderId) !in OrdersBlobs(blobs) {
        var i :| 0 <= i < j && data.response.orders[i].orderId == data.response.orders[j].orderId;
        assert saved[i].name == saved[j].name;
      }
      OrderBlobsContainer(data);
      blobClient.SaveAllClash(blobs, saved, Lower(OrdersContainer), j);
    }

    /** A transaction blob name already taken in the data container makes the transaction blob task fail. */
    lemma SaveBlobsDataClash(blobs: BlobState<SoftBlobDocument>, payload: Payload, data: Data)
      requires Valid()
      requires BlobName(data.request.transactionId) in DatasBlobs(blobs)
      ensures SaveBlobs(blobs, payload, data).2.Some?
    {
      var saved := OrderBlobs(data.response, AsOrderBlob);
      var ordersSaved := blobClient.SaveAll(blobs, saved);
      var transactionBlobs := TransactionBlobs(payload, data);
      OrderBlobsContainer(data);
      ContainerKinds(transactionBlobs[0].document);
      LowerIdempotent(DatasContainer);
      blobClient.SaveAllOthers(blobs, saved, Lower(OrdersContainer), Lower(DatasContainer));
      blobClient.SaveAllPair(ordersSaved.0, transactionBlobs[0], transactionBlobs[1]);
      assert transactionBlobs == [transactionBlobs[0], transactionBlobs[1]];
    }

    /**
     * An order whose blob name is taken, an order id given twice in the response, or a
     * transaction blob name taken in the data container makes Save fail (after writing what it
     * could).
     */
    lemma SaveExistingBlobFails(
      datas: map<Key, SoftCosmosDataDocument>, payloads: map<Key, SoftCosmosPayloadDocument>,
      blobs: BlobState<SoftBlobDocument>, payload: Payload, data: Data, j: nat)
      requires Valid()
      requires || (j < |data.response.orders| && BlobName(data.response.orders[j].orderId) in OrdersBlobs(blobs))
               || (j < |data.response.orders| && exists i :: 0 <= i < j && data.response.orders[i].orderId == data.response.orders[j].orderId)
               || BlobName(data.request.transactionId) in DatasBlobs(blobs)
      ensures Save(datas, payloads, blobs, payload, data).0.Err?
    {
      var blobName := BlobName(data.request.transactionId);
      var dataInserted := dataCosmosDb.Insert(datas, FromDocument(SoftDataDocumentOf(data.request, data.response, blobName)));
      var payloadInserted := payloadCosmosDb.Insert(payloads, FromDocument(SoftPayloadDocumentOf(payload.requestDto, payload.responseDto, blobName)));
      var blobsSaved := SaveBlobs(blobs, payload, data);
      if BlobName(data.request.transactionId) in DatasBlobs(blobs) {
        SaveBlobsDataClash(blobs, payload, data);
      } else {
        SaveBlobsOrderClash(blobs, payload, data, j);
      }
      SaveResponseFails(dataInserted.0, payloadInserted.0, blobsSaved.1, blobsSaved.2, |data.response.orders| + 2);
    }

    /** An order id without a blob costs nothing and reports the blob name it looked for. */
    lemma GetUnfoundBlob(blobs: BlobState<SoftBlobDocument>, datas: map<Key, SoftCosmosDataDocument>, orderId: string)
      requires BlobName(orderId) !in OrdersBlobs(blobs)
      ensures var r := Get(blobs, datas, orderId).0;
        && r == Ok(Respond(0.0, map["Unfound order blob" := Text(BlobName(orderId))]))
        && r.value.requestUnits == 0.0
    {
      LowerIdempotent(OrdersContainer);
      RespondZero(map["Unfound order blob" := Text(BlobName(orderId))]);
    }

    /**
     * An order blob naming a transaction with no data document: the cost is zero and both the
     * blob and the missing transaction are reported.
     */
    lemma GetUnfoundTransaction(blobs: BlobState<SoftBlobDocument>, datas: map<Key, SoftCosmosDataDocument>, orderId: string)
      requires dataCosmosDb.ReadIsSpecified()
      requires BlobName(orderId) in OrdersBlobs(blobs) && OrdersBlobs(blobs)[BlobName(orderId)].document.OrderBlob?
      requires var transactionId := OrdersBlobs(blobs)[BlobName(orderId)].document.order.transactionId;
        Unquoted(transactionId) && (transactionId, transactionId) !in datas
      ensures var transactionId := OrdersBlobs(blobs)[BlobName(orderId)].document.order.transactionId;
        var r := Get(blobs, datas, orderId).0;
        && r.Ok?
        && r.value.requestUnits == 0.0
        && r.value.dynamicInformations == map["Found order blob" := Text(BlobName(orderId)), "Unfound TransactionId in Cosmos" := Text(transactionId)]
    {
      LowerIdempotent(OrdersContainer);
      var transactionId := OrdersBlobs(blobs)[BlobName(orderId)].document.order.transactionId;
      dataCosmosDb.ReadPoint(datas, transactionId, transactionId);
      RespondZero(map["Found order blob" := Text(BlobName(orderId)), "Unfound TransactionId in Cosmos" := Text(transactionId)]);
    }

    /**
     * An order blob naming a transaction whose data document is stored leads Get to the blob the
     * document points at: a missing blob is a null dereference; otherwise the answer is the order
     * Single finds in the blob's response (or Single's error), at the cost of the data read, with
     * that order's price among the diagnostics.
     */
    lemma GetWithDataDocument(blobs: BlobState<SoftBlobDocument>, datas: map<Key, SoftCosmosDataDocument>, orderId: string)
      requires dataCosmosDb.ReadIsSpecified()
      requires BlobName(orderId) in OrdersBlobs(blobs) && OrdersBlobs(blobs)[BlobName(orderId)].document.OrderBlob?
      requires var transactionId := OrdersBlobs(blobs)[BlobName(orderId)].document.order.transactionId;
        Unquoted(transactionId) && (transactionId, transactionId) in datas
      ensures var transactionId := OrdersBlobs(blobs)[BlobName(orderId)].document.order.transactionId;
        var attachment := datas[(transactionId, transactionId)].attachmentBlobName;
        var dataUnits := Round3(dataCosmosDb.charge(DataRequest(transactionId)));
        var r := Get(blobs, datas, orderId).0;
        && (attachment !in DatasBlobs(blobs) ==> r == Err(NullReference))
        && (attachment in DatasBlobs(blobs) && DatasBlobs(blobs)[attachment].document.DataBlob? ==>
              var single := SingleOrder(DatasBlobs(blobs)[attachment].document.data.response.orders, orderId);
              && (r.Ok? <==> single.Ok?)
              && (single.Err? ==> r == Err(single.error))
              && (single.Ok? ==>
                    && r.value.requestUnits == dataUnits
                    && r.value.dynamicInformations == FoundInformations(dataUnits, orderId, transactionId, single.value.OrderPrice(), BlobName(orderId))))
    {
      LowerIdempotent(OrdersContainer);
      LowerIdempotent(DatasContainer);
      var transactionId := OrdersBlobs(blobs)[BlobName(orderId)].document.order.transactionId;
      dataCosmosDb.ReadPoint(datas, transactionId, transactionId);
      Round3Idempotent(dataCosmosDb.charge(DataRequest(transactionId)));
    }

    /**
     * Save then Get: after a Save on free keys whose request and response carry the same
     * transaction id, Get of any of its order ids follows the order blob, the saved data document
     * and the data blob back to that very order, and answers with its price at the cost of the
     * data read.
     */
    lemma SaveThenGet(
      datas: map<Key, SoftCosmosDataDocument>, payloads: map<Key, SoftCosmosPayloadDocument>,
      blobs: BlobState<SoftBlobDocument>, payload: Payload, data: Data, i: nat)
      requires Valid() && FreshKeys(datas, payloads, blobs, payload, data)
      requires dataCosmosDb.ReadIsSpecified()
      requires i < |data.response.orders|
      requires data.response.transactionId == data.request.transactionId && Unquoted(data.request.transactionId)
      ensures var saved := Save(datas, payloads, blobs, payload, data);
        var order := data.response.orders[i];
        var transactionId := data.request.transactionId;
        var dataUnits := Round3(dataCosmosDb.charge(DataRequest(transactionId)));
        var r := Get(saved.3, saved.1, order.orderId).0;
        && r.Ok?
        && r.value.requestUnits == dataUnits
        && r.value.dynamicInformations == FoundInformations(dataUnits, order.orderId, transactionId, order.OrderPrice(), BlobName(order.orderId))
    {
      var saved := Save(datas, payloads, blobs, payload, data);
      SaveCreates(datas, payloads, blobs, payload, data);
      OrderBlobsCreate(blobs, data);
      SaveBlobsFresh(blobs, payload, data);
      SingleOrderUnique(data.response.orders, i);
      GetWithDataDocument(saved.3, saved.1, data.response.orders[i].orderId);
    }
  }
}
