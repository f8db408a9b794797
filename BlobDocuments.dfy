/**
 * The blob documents of the Blob, Soft-Blob and Soft-Search strategies, and the names their
 * blobs are stored under. Each library declares its own classes of these shapes; the container a
 * document goes to is fixed by its strategy.
 */
module BlobDocuments {
  import opened Contracts
  import opened BlobSdk

  /** An order and the transaction it belongs to. */
  datatype OrderBlobDocument = OrderBlobDocument(product: Product, orderId: string, orderPrice: real, transactionId: string)

  /** A whole transaction as computed. */
  datatype TransactionDataBlobDocument = TransactionDataBlobDocument(request: Request, response: Response)
  {
    function TransactionId(): string { request.transactionId }
  }

  /** A whole transaction as exchanged. */
  datatype TransactionPayloadBlobDocument = TransactionPayloadBlobDocument(request: RequestDto, response: ResponseDto)
  {
    function TransactionId(): string { request.transactionId }
  }

  /** GenerateOrderBlobName and GenerateTransactionBlobName: the key followed by ".txt". */
  function BlobName(key: string): (name: string)
    ensures |name| == |key| + 4
    ensures name[..|key|] == key
  {
    key + ".txt"
  }

  /** Distinct keys give distinct blob names. */
  lemma BlobNameInjective(a: string, b: string)
    ensures BlobName(a) == BlobName(b) <==> a == b
  {
    if BlobName(a) == BlobName(b) {
      assert a == BlobName(a)[..|a|] == BlobName(b)[..|b|] == b;
    }
  }

  /** The order blob document of one order: its product, id and price, with the response's transaction id. */
  function OrderBlobDocumentOf(response: Response, order: Order): OrderBlobDocument
  {
    OrderBlobDocument(order.product, order.orderId, order.OrderPrice(), response.transactionId)
  }

  /**
   * The order blobs of a transaction: one per order, in order, named after the order id and
   * carrying the order id as metadata; `wrap` puts the document into the strategy's blob type.
   */
  function OrderBlobs<T>(response: Response, wrap: OrderBlobDocument -> T): (blobs: seq<BlobModel<T>>)
    ensures |blobs| == |response.orders|
    ensures forall i :: 0 <= i < |blobs| ==>
      var order := response.orders[i];
      && blobs[i].name == BlobName(order.orderId)
      && blobs[i].document == wrap(OrderBlobDocumentOf(response, order))
      && blobs[i].metadata == map["OrderId" := order.orderId]
  {
    seq(|response.orders|, i requires 0 <= i < |response.orders| =>
      var order := response.orders[i];
      BlobModel(BlobName(order.orderId), wrap(OrderBlobDocumentOf(response, order)), map["OrderId" := order.orderId]))
  }

  /** Orders with distinct ids get blobs with distinct names. */
  lemma OrderBlobNamesDistinct<T>(response: Response, wrap: OrderBlobDocument -> T)
    requires UniqueOrderIds(response.orders)
    ensures var blobs := OrderBlobs(response, wrap);
      forall i, j :: 0 <= i < j < |blobs| ==> blobs[i].name != blobs[j].name
  {
    var blobs := OrderBlobs(response, wrap);
    forall i, j | 0 <= i < j < |blobs|
      ensures blobs[i].name != blobs[j].name
    {
      BlobNameInjective(response.orders[i].orderId, response.orders[j].orderId);
    }
  }
}
