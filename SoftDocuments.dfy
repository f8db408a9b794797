/**
 * The Cosmos documents of the Soft-Blob and Soft-Search strategies: the transaction's identity,
 * date and the name of the blob holding it in full, with the orders reduced to their soft weight
 * form (id, product, price).
 */
module SoftDocuments {
  import opened Contracts

  /** new SoftWeightOrder(order): the id, the product and the computed price. */
  function SoftWeightOrderOf(order: Order): SoftWeightOrder
  {
    SoftWeightOrder(order.orderId, order.product, order.OrderPrice())
  }

  /** new SoftWeightOrderDto(order): the id, the product and the price. */
  function SoftWeightOrderDtoOf(order: OrderDto): SoftWeightOrderDto
  {
    SoftWeightOrderDto(order.orderId, order.product, order.orderPrice)
  }

  /** SoftCosmosDataDocument. */
  datatype SoftCosmosDataDocument = SoftCosmosDataDocument(
    id: string, partitionKey: string, transactionDate: Timestamp, attachmentBlobName: string,
    orders: seq<SoftWeightOrder>)

  /** SoftCosmosPayloadDocument. */
  datatype SoftCosmosPayloadDocument = SoftCosmosPayloadDocument(
    id: string, partitionKey: string, transactionDate: Timestamp, attachmentBlobName: string,
    orders: seq<SoftWeightOrderDto>)

  /**
   * new SoftCosmosDataDocument(request, response, blobName): keyed on the request's transaction
   * id, dated by the request, pointing at `blobName`, with one soft order per response order, in
   * order, carrying that order's id, product and price.
   */
  function SoftDataDocumentOf(request: Request, response: Response, blobName: string): (d: SoftCosmosDataDocument)
    ensures d.id == request.transactionId && d.partitionKey == request.transactionId
    ensures d.transactionDate == request.transactionDate && d.attachmentBlobName == blobName
    ensures |d.orders| == |response.orders|
    ensures forall i :: 0 <= i < |d.orders| ==>
      && d.orders[i].orderId == response.orders[i].orderId
      && d.orders[i].product == response.orders[i].product
      && d.orders[i].orderPrice == response.orders[i].OrderPrice()
  {
    SoftCosmosDataDocument(request.transactionId, request.transactionId, request.transactionDate, blobName,
      seq(|response.orders|, i requires 0 <= i < |response.orders| => SoftWeightOrderOf(response.orders[i])))
  }

  /**
   * new SoftCosmosPayloadDocument(request, response, blobName): keyed on the request DTO's
   * transaction id, dated by it, pointing at `blobName`, with one soft order DTO per response
   * order DTO, in order.
   */
  function SoftPayloadDocumentOf(request: RequestDto, response: ResponseDto, blobName: string): (d: SoftCosmosPayloadDocument)
    ensures d.id == request.transactionId && d.partitionKey == request.transactionId
    ensures d.transactionDate == request.transactionDate && d.attachmentBlobName == blobName
    ensures |d.orders| == |response.orders|
    ensures forall i :: 0 <= i < |d.orders| ==>
      && d.orders[i].orderId == response.orders[i].orderId
      && d.orders[i].product == response.orders[i].product
      && d.orders[i].orderPrice == response.orders[i].orderPrice
  {
    SoftCosmosPayloadDocument(request.transactionId, request.transactionId, request.transactionDate, blobName,
      seq(|response.orders|, i requires 0 <= i < |response.orders| => SoftWeightOrderDtoOf(response.orders[i])))
  }

  function DigitChar(d: nat): char
    requires d < 10
  {
    ('0' as int + d) as char
  }

  /** int.ToString() of a count: its decimal digits, most significant first, with no leading zero. */
  function NatToString(n: nat): (s: string)
    ensures |s| >= 1
    ensures forall i :: 0 <= i < |s| ==> '0' <= s[i] <= '9'
    ensures s[0] == '0' <==> n == 0
  {
    if n < 10 then [DigitChar(n)] else NatToString(n / 10) + [DigitChar(n % 10)]
  }

  /** The number a string of decimal digits spells, most significant digit first. */
  function DecimalValue(s: string): nat
    requires forall i :: 0 <= i < |s| ==> '0' <= s[i] <= '9'
  {
    if s == [] then 0 else 10 * DecimalValue(s[..|s| - 1]) + (s[|s| - 1] as int - '0' as int)
  }

  /** The digits NatToString writes spell the count back. */
  lemma {:induction false} NatToStringValue(n: nat)
    ensures DecimalValue(NatToString(n)) == n
  {
    var s := NatToString(n);
    if n >= 10 {
      NatToStringValue(n / 10);
      assert s[..|s| - 1] == NatToString(n / 10);
    }
  }
}
