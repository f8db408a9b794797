/** Option and Result: the model's stand-ins for C# null and for thrown exceptions. */
module Wrappers {

  datatype Option<+T> = None | Some(value: T)

  datatype Result<+T, +E> = Ok(value: T) | Err(error: E)

  /** The errors the modelled code can raise, one constructor per exception kind. */
  datatype Error =
    /** Cosmos DB refuses CreateItem when the (PartitionKey, id) pair is already taken (HTTP 409). */
    | Conflict(partitionKey: string, id: string)
    /** Cosmos DB ReadItem on a missing (PartitionKey, id) pair (HTTP 404). */
    | NotFound(partitionKey: string, id: string)
    /** Cosmos DB rejects a query text it cannot read (HTTP 400). */
    | BadQuery(query: string)
    /** A member was read through a null reference. */
    | NullReference
    /** BlobClient.SaveBlobAsync: "Blob {name} already exists!" (ArgumentException). */
    | BlobAlreadyExists(name: string)
    /** Enumerable.Single / SingleOrDefault saw more than one matching element. */
    | MoreThanOneElement
    /** Enumerable.Single saw no matching element. */
    | NoMatchingElement
    /** UnfoundOrderException: "Order '{orderId}' is unfound". */
    | UnfoundOrder(orderId: string)
    /** An array was written past its end. */
    | IndexOutOfRange
    /** An array was allocated with a negative length. */
    | Overflow

  /** The first failure of a list of concurrently awaited tasks, in the order they were passed. */
  function FirstError(a: Option<Error>, b: Option<Error>): Option<Error>
  {
    if a.Some? then a else b
  }
}
