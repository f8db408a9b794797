/** The correlation document of the Legacy strategy and the keys it derives. */
module LegacyDocuments {
  import opened Contracts

  /** The link from an order to its transaction: partitioned by order id, identified by transaction id. */
  datatype CosmosCorrelationDocument = CosmosCorrelationDocument(transactionId: string, orderId: string)
  {
    function Id(): string { transactionId }
    function PartitionKey(): string { orderId }
  }

  /** One correlation per order id, in order, each pairing it with the transaction id. */
  function Correlations(transactionId: string, orderIds: seq<string>): (documents: seq<CosmosCorrelationDocument>)
    ensures |documents| == |orderIds|
    ensures forall i :: 0 <= i < |orderIds| ==>
      documents[i].transactionId == transactionId && documents[i].orderId == orderIds[i]
  {
    if orderIds == [] then [] else [CosmosCorrelationDocument(transactionId, orderIds[0])] + Correlations(transactionId, orderIds[1..])
  }

  /**
   * A correlation is found by a partition query on its order id and names its transaction by id;
   * two correlations collide exactly when they pair the same order with the same transaction.
   */
  lemma CorrelationKeys(a: CosmosCorrelationDocument, b: CosmosCorrelationDocument)
    ensures a.PartitionKey() == a.orderId && a.Id() == a.transactionId
    ensures (a.PartitionKey(), a.Id()) == (b.PartitionKey(), b.Id()) <==> a == b
  {
  }
}
