/**
 * The order search index shared by the Search and Soft-Search strategies: one search model per
 * order, keyed on its order id, and the way a Get finds one. The query is the order id as a
 * quoted phrase; an empty answer throws UnfoundOrderException, which the retry policy handles by
 * asking again, up to MaxRetry more times, because the index may not have caught up with a Save.
 */
module OrderSearch {
  import opened Wrappers
  import opened Contracts
  import opened SearchSdk

  /** OrderSearchModel (and the OrderSearchIndex it is stored in, whose key is OrderId). */
  datatype OrderSearchModel = OrderSearchModel(orderId: string, transactionId: string, transactionDate: Timestamp)

  type Index = map<string, OrderSearchModel>

  /** What the search service answers, by index, query text and number of searches made before. */
  type SearchFunction = (Index, string, nat) -> seq<OrderSearchModel>

  /** The index key of a search model: its order id. */
  function OrderKey(model: OrderSearchModel): string
  {
    model.orderId
  }

  /** The index is keyed on order ids: every model sits under its own order id. */
  ghost predicate KeyedByOrderId(index: Index)
  {
    forall k :: k in index ==> index[k].orderId == k
  }

  /**
   * BuildOrderSearchModels(data): one model per order of the response, in order, each carrying
   * the order's id and the response's (not the request's) transaction id and date.
   */
  function BuildOrderSearchModels(response: Response): (models: seq<OrderSearchModel>)
    ensures |models| == |response.orders|
    ensures forall i :: 0 <= i < |models| ==>
      && models[i].orderId == response.orders[i].orderId
      && models[i].transactionId == response.transactionId
      && models[i].transactionDate == response.transactionDate
  {
    seq(|response.orders|, i requires 0 <= i < |response.orders| =>
      OrderSearchModel(response.orders[i].orderId, response.transactionId, response.transactionDate))
  }

  /**
   * Uploading the models of a response whose order ids are distinct puts, under each order id, the
   * model of that order.
   */
  lemma UploadOrderModels(index: Index, response: Response, i: nat)
    requires UniqueOrderIds(response.orders)
    requires i < |response.orders|
    ensures var index' := Upload(index, OrderKey, BuildOrderSearchModels(response));
      && response.orders[i].orderId in index'
      && index'[response.orders[i].orderId] == OrderSearchModel(response.orders[i].orderId, response.transactionId, response.transactionDate)
  {
    var models := BuildOrderSearchModels(response);
    UploadValues(index, OrderKey, models, i);
  }

  /** The query text of GetOrderSearchModelAsync: the order id between double quotes (an exact phrase). */
  function Quote(orderId: string): (query: string)
    ensures |query| == |orderId| + 2
    ensures query[0] == '"' && query[|query| - 1] == '"'
    ensures query[1..|query| - 1] == orderId
  {
    "\"" + orderId + "\""
  }

  /** Distinct order ids are distinct queries. */
  lemma QuoteInjective(a: string, b: string)
    ensures Quote(a) == Quote(b) <==> a == b
  {
    if Quote(a) == Quote(b) {
      assert a == Quote(a)[1..|Quote(a)| - 1];
    }
  }

  /** maxRetry: the retries after the first attempt. */
  const MaxRetry: nat := 5

  /**
   * One GetOrderSearchModelAsync: the models the n-th search for the quoted order id finds, or
   * UnfoundOrderException when there are none.
   */
  function Attempt(search: SearchFunction, index: Index, orderId: string, n: nat): (r: Result<seq<OrderSearchModel>, Error>)
    ensures r.Ok? <==> search(index, Quote(orderId), n) != []
    ensures r.Ok? ==> r.value == search(index, Quote(orderId), n)
    ensures r.Err? ==> r.error == UnfoundOrder(orderId)
  {
    var found := search(index, Quote(orderId), n);
    if |found| == 0 then Err(UnfoundOrder(orderId)) else Ok(found)
  }

  /**
   * Policy.Handle<UnfoundOrderException>().RetryAsync(retries): attempts from the `from`-th
   * search on, until one finds models or `retries` retries are spent; the outcome and the number
   * of searches made by then.
   */
  function Retry(search: SearchFunction, index: Index, orderId: string, from: nat, retries: nat)
    : (Result<seq<OrderSearchModel>, Error>, nat)
    decreases retries
  {
    var attempt := Attempt(search, index, orderId, from);
    if attempt.Ok? || retries == 0 then (attempt, from + 1)
    else Retry(search, index, orderId, from + 1, retries - 1)
  }

  /**
   * The retry policy makes 1 to retries + 1 searches; every search but the last found nothing;
   * it succeeds with the last search's models when that one found some, and otherwise it has made
   * every allowed search and rethrows UnfoundOrderException.
   */
  lemma {:induction false} RetryOutcome(search: SearchFunction, index: Index, orderId: string, from: nat, retries: nat)
    ensures from < Retry(search, index, orderId, from, retries).1 <= from + retries + 1
    ensures forall n :: from <= n < Retry(search, index, orderId, from, retries).1 - 1 ==> search(index, Quote(orderId), n) == []
    ensures var (r, next) := Retry(search, index, orderId, from, retries);
      r == Attempt(search, index, orderId, next - 1)
    ensures Retry(search, index, orderId, from, retries).0.Err? ==>
      Retry(search, index, orderId, from, retries).1 == from + retries + 1
    decreases retries
  {
    var attempt := Attempt(search, index, orderId, from);
    if attempt.Err? && retries > 0 {
      RetryOutcome(search, index, orderId, from + 1, retries - 1);
    }
  }

  /** The retry policy fails exactly when none of the retries + 1 searches finds anything. */
  lemma RetryFails(search: SearchFunction, index: Index, orderId: string, from: nat, retries: nat)
    ensures Retry(search, index, orderId, from, retries).0.Err? <==>
      forall n :: from <= n <= from + retries ==> search(index, Quote(orderId), n) == []
    ensures Retry(search, index, orderId, from, retries).0.Err? ==>
      Retry(search, index, orderId, from, retries).0 == Err(UnfoundOrder(orderId))
  {
    RetryOutcome(search, index, orderId, from, retries);
  }

  /** Where(x => x.OrderId == orderId): the models carrying the order id, in order. */
  function ModelsWithId(models: seq<OrderSearchModel>, orderId: string): (r: seq<OrderSearchModel>)
    ensures forall m :: m in r <==> m in models && m.orderId == orderId
    ensures forall m :: multiset(r)[m] == if m.orderId == orderId then multiset(models)[m] else 0
    ensures |r| <= |models|
  {
    if models == [] then []
    else
      assert models == [models[0]] + models[1..];
      (if models[0].orderId == orderId then [models[0]] else []) + ModelsWithId(models[1..], orderId)
  }

  /**
   * Models found in an index keyed on order ids, each listed once, hold at most one model with a
   * given order id: the one under that id, when it was found.
   */
  lemma {:induction false} ModelsWithIdFromIndex(models: seq<OrderSearchModel>, index: Index, orderId: string)
    requires KeyedByOrderId(index)
    requires forall i :: 0 <= i < |models| ==> models[i] in index.Values
    requires forall i, j :: 0 <= i < j < |models| ==> models[i] != models[j]
    ensures ModelsWithId(models, orderId) ==
      if orderId in index && index[orderId] in models then [index[orderId]] else []
  {
    if models != [] {
      var head := models[0];
      var tail := models[1..];
      ModelsWithIdFromIndex(tail, index, orderId);
      assert models == [head] + tail;
      assert head !in tail by {
        forall j | 0 <= j < |tail|
          ensures tail[j] != head
        {
          assert tail[j] == models[j + 1];
        }
      }
      assert head in index.Values;
      var k :| k in index && index[k] == head;
      if head.orderId == orderId {
        assert orderId == k && index[orderId] == head;
      } else if orderId in index {
        assert index[orderId] != head;
      }
    }
  }

  /** One GetOrderSearchModelAsync against the client. */
  method GetOrderSearchModelAsync(client: SearchClient<OrderSearchModel>, orderId: string)
    returns (r: Result<seq<OrderSearchModel>, Error>)
    modifies client
    ensures r == Attempt(client.search, old(client.index), orderId, old(client.searches))
    ensures client.index == old(client.index) && client.batches == old(client.batches)
    ensures client.searches == old(client.searches) + 1
  {
    var searchModels := client.GetAsync(Quote(orderId));
    if |searchModels| == 0 {
      return Err(UnfoundOrder(orderId));
    }
    r := Ok(searchModels);
  }

  /** The retry policy of GetAsync: the first attempt and up to MaxRetry more while the order is unfound. */
  method SearchWithRetryAsync(client: SearchClient<OrderSearchModel>, orderId: string)
    returns (r: Result<seq<OrderSearchModel>, Error>)
    modifies client
    ensures (r, client.searches) == Retry(client.search, old(client.index), orderId, old(client.searches), MaxRetry)
    ensures client.index == old(client.index) && client.batches == old(client.batches)
  {
    var retries: nat := MaxRetry;
    r := GetOrderSearchModelAsync(client, orderId);
    while r.Err? && retries > 0
      invariant retries <= MaxRetry
      invariant client.index == old(client.index) && client.batches == old(client.batches)
      invariant client.searches > old(client.searches)
      invariant r == Attempt(client.search, client.index, orderId, client.searches - 1)
      invariant Retry(client.search, client.index, orderId, old(client.searches), MaxRetry)
        == Retry(client.search, client.index, orderId, client.searches - 1, retries)
      decreases retries
    {
      retries := retries - 1;
      r := GetOrderSearchModelAsync(client, orderId);
    }
    assert Retry(client.search, client.index, orderId, client.searches - 1, retries) == (r, client.searches);
  }
}
