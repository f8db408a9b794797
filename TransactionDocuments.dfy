/**
 * The data and payload documents of the Legacy, Blob and Search strategies: each library declares
 * its own class of this shape, keyed on the transaction id of the request it carries.
 */
module TransactionDocuments {
  import opened Contracts

  /** The transaction as computed, stored under its request's transaction id. */
  datatype CosmosDataDocument = CosmosDataDocument(request: Request, response: Response)
  {
    function Id(): string { request.transactionId }
    function PartitionKey(): string { request.transactionId }
  }

  /** The transaction as exchanged, stored under its request DTO's transaction id. */
  datatype CosmosPayloadDocument = CosmosPayloadDocument(request: RequestDto, response: ResponseDto)
  {
    function Id(): string { request.transactionId }
    function PartitionKey(): string { request.transactionId }
  }

  /** The data document of a transaction: its request and response. */
  function DataDocumentOf(data: Data): CosmosDataDocument
  {
    CosmosDataDocument(data.request, data.response)
  }

  /** The payload document of a transaction: its request and response DTOs. */
  function PayloadDocumentOf(payload: Payload): CosmosPayloadDocument
  {
    CosmosPayloadDocument(payload.requestDto, payload.responseDto)
  }

  /**
   * Data and payload documents have Id == PartitionKey == the request's transaction id, and
   * share their key exactly when the two transaction ids agree.
   */
  lemma DataAndPayloadKeys(data: Data, payload: Payload)
    ensures var d := DataDocumentOf(data);
      var p := PayloadDocumentOf(payload);
      && d.Id() == d.PartitionKey() == data.request.transactionId
      && p.Id() == p.PartitionKey() == payload.requestDto.transactionId
      && ((d.PartitionKey(), d.Id()) == (p.PartitionKey(), p.Id()) <==> data.request.transactionId == payload.requestDto.transactionId)
  {
  }
}
