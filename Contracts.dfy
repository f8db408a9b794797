/**
 * The transaction records every strategy persists: the model side (Request, Response, Order)
 * and its externally facing DTO mirror (RequestDto, ResponseDto, OrderDto).
 */
module Contracts {
  import opened Wrappers

  /** DateTime, as a tick count. */
  type Timestamp = int

  datatype Product = Product(quantity: int, unitPrice: int, productType: string)
  datatype Merchant = Merchant(merchantId: string, name: string)
  datatype ProductTax = ProductTax(taxRate: real, region: string, country: string)
  datatype Client = Client(email: string, birthDate: Timestamp, firstName: string, lastName: string)

  datatype Order = Order(orderId: string, product: Product, merchant: Merchant, productTax: ProductTax)
  {
    /** The decimal price: quantity times unit price times tax rate. */
    function OrderPrice(): real
    {
      (product.quantity * product.unitPrice) as real * productTax.taxRate
    }
  }

  datatype Request = Request(transactionId: string, transactionDate: Timestamp, client: Client, products: seq<Product>)
  datatype Response = Response(transactionId: string, transactionDate: Timestamp, orders: seq<Order>)

  /** IData: the transaction as computed by the system. */
  datatype Data = Data(request: Request, response: Response)

  datatype ProductDto = ProductDto(quantity: int, unitPrice: int, productType: string)
  datatype ClientDto = ClientDto(email: string, birthDate: Timestamp, firstName: string, lastName: string)
  datatype OrderDto = OrderDto(orderId: string, product: ProductDto, orderPrice: real)
  datatype RequestDto = RequestDto(transactionId: string, transactionDate: Timestamp, client: ClientDto, products: seq<ProductDto>)
  datatype ResponseDto = ResponseDto(transactionId: string, transactionDate: Timestamp, orders: seq<OrderDto>)

  /** IPayload: the transaction as exchanged with the outside. */
  datatype Payload = Payload(requestDto: RequestDto, responseDto: ResponseDto)

  /** The lightweight order kept inline by the Soft strategies: no merchant, no tax detail. */
  datatype SoftWeightOrder = SoftWeightOrder(orderId: string, product: Product, orderPrice: real)
  datatype SoftWeightOrderDto = SoftWeightOrderDto(orderId: string, product: ProductDto, orderPrice: real)

  /** The order ids of a response, in order. */
  function OrderIds(orders: seq<Order>): (ids: seq<string>)
    ensures |ids| == |orders|
    ensures forall i :: 0 <= i < |orders| ==> ids[i] == orders[i].orderId
  {
    if orders == [] then [] else [orders[0].orderId] + OrderIds(orders[1..])
  }

  /** No two orders of a response share an order id. */
  predicate UniqueOrderIds(orders: seq<Order>)
  {
    forall i, j :: 0 <= i < j < |orders| ==> orders[i].orderId != orders[j].orderId
  }

  /** Where(x => x.OrderId == orderId): the orders carrying the id, in order. */
  function OrdersWithId(orders: seq<Order>, orderId: string): (r: seq<Order>)
    ensures forall o :: o in r <==> o in orders && o.orderId == orderId
    ensures forall o :: multiset(r)[o] == if o.orderId == orderId then multiset(orders)[o] else 0
    ensures |r| <= |orders|
  {
    if orders == [] then []
    else
      assert orders == [orders[0]] + orders[1..];
      (if orders[0].orderId == orderId then [orders[0]] else []) + OrdersWithId(orders[1..], orderId)
  }

  /**
   * Single(x => x.OrderId == orderId): the one order carrying the id; no such order, or more
   * than one, throws InvalidOperationException.
   */
  function SingleOrder(orders: seq<Order>, orderId: string): (r: Result<Order, Error>)
    ensures r.Ok? <==> |OrdersWithId(orders, orderId)| == 1
    ensures r.Ok? ==> r.value in orders && r.value.orderId == orderId
    ensures r == Err(NoMatchingElement) <==> forall i :: 0 <= i < |orders| ==> orders[i].orderId != orderId
    ensures r == Err(MoreThanOneElement) <==> |OrdersWithId(orders, orderId)| > 1
  {
    var matching := OrdersWithId(orders, orderId);
    if |matching| == 0 then Err(NoMatchingElement)
    else
      assert matching[0] in matching;
      if |matching| == 1 then Ok(matching[0]) else Err(MoreThanOneElement)
  }

  /** Among orders with distinct ids, Single finds the order carrying the id, wherever it sits. */
  lemma {:induction false} SingleOrderUnique(orders: seq<Order>, i: nat)
    requires UniqueOrderIds(orders)
    requires i < |orders|
    ensures OrdersWithId(orders, orders[i].orderId) == [orders[i]]
    ensures SingleOrder(orders, orders[i].orderId) == Ok(orders[i])
  {
    var rest := orders[1..];
    assert UniqueOrderIds(rest) by {
      forall a, b | 0 <= a < b < |rest|
        ensures rest[a].orderId != rest[b].orderId
      {
        assert rest[a] == orders[a + 1] && rest[b] == orders[b + 1];
      }
    }
    if i == 0 {
      forall k | 0 <= k < |rest|
        ensures rest[k].orderId != orders[0].orderId
      {
        assert rest[k] == orders[k + 1];
      }
      OrdersWithIdAbsent(rest, orders[0].orderId);
    } else {
      assert rest[i - 1] == orders[i];
      SingleOrderUnique(rest, i - 1);
    }
  }

  /** No order carries the id: the filter keeps nothing. */
  lemma {:induction false} OrdersWithIdAbsent(orders: seq<Order>, orderId: string)
    requires forall i :: 0 <= i < |orders| ==> orders[i].orderId != orderId
    ensures OrdersWithId(orders, orderId) == []
  {
    if orders != [] {
      OrdersWithIdAbsent(orders[1..], orderId);
    }
  }
}
