# Order storage strategies, modelled in Dafny

AzureStoragePoc compares five ways of storing a purchase transaction and finding it again by
one of its order ids. A transaction has two halves: the data (a `Request` and a `Response`
holding the orders) and the payload (the same pair as DTOs).

Every strategy implements the same two operations:

- `SaveAsync(payload, data)` writes the transaction to several backends at once. The answer
  carries the request units (RU) charged by Cosmos DB and a dictionary of diagnostics.
- `GetAsync(orderId)` follows a chain of lookups from the order id to the transaction's data
  document. How a missing link is reported depends on the strategy: some answer with zero cost
  and a diagnostic, Legacy charges the correlation query and leaves the diagnostics empty, the
  Search strategies throw `UnfoundOrderException` after six empty searches, and the SoftBlob and
  SoftSearch strategies throw on a missing data blob and when `Single` finds no order or several.

The five strategies differ in how an order id leads to its transaction:

| strategy | Save writes | Get follows |
|---|---|---|
| Legacy | data and payload documents, one correlation document per order | correlation partition query, then the data point read |
| Blob | data and payload documents, one order blob per order | order blob, then the data point read |
| SoftBlob | slim data and payload documents pointing at a transaction blob, order blobs, the data and payload transaction blobs | order blob, data point read, data blob, then the order inside it |
| Search | data and payload documents, one search model per order | search with retry, then the data point read |
| SoftSearch | slim data and payload documents, search models, the data and payload transaction blobs | search with retry, data point read, then the data blob |

## How the model is built

Each backend client is a class over an in-memory store.

- `CosmosClient.CosmosDbClient` keeps a map from `(partition key, id)` to the document.
  - Inserting a key that is already present fails with a conflict.
  - Every call's charge comes from a function parameter.
  - A query text is interpreted by a small parser of the two query shapes the code builds.
- `BlobSdk.BlobClient` keeps the service's containers and the client's container cache.
  - Container names are lower-cased.
  - A blob is saved only if its name is free.
  - A read of a missing blob gives nothing.
- `SearchSdk.SearchClient` keeps the index, keyed by order id. It also counts searches and batches:
  - a search is answered by an oracle over (index, query, search number), which stands for ranking and for eventual consistency;
  - a batch is applied or dropped as a whole by an oracle over its number. A dropped batch is silent, because `RunBatchAsync` swallows every exception.

Each strategy class holds its clients and has:

- a specification function `Save` (or `Get`) on the old stores, giving the response and the new stores;
- a method `SaveAsync` (or `GetAsync`) proved against that function;
- lemmas on the function for each property:
  - what a save on free keys writes and what it costs;
  - which conflicts make it fail;
  - what each missing hop of a read answers;
  - the round trip from Save to Get.

Other parts of the model:

- `Task.WhenAll` is modelled as the writes done one after the other. The operation reports the
  first error in the order of its `Task` list, which is the exception `await Task.WhenAll` rethrows.
- Request units are `real`. `Math.Round(x, 3)` rounds half to even at three decimals (`Round3`).
- `Batching.Batch` models the chunking extension of the search documents job. It is a loop over the source, proved equal to a functional `Chunks`.

## Model

| member | source | states |
|---|---|---|
| Batching.FlattenAppend | SearchDocumentsJob/Extensions.cs:14-29 | Appending a bucket appends its items to the flattened output. |
| Batching.FullChunksAppend | SearchDocumentsJob/Extensions.cs:20-28 | A prefix cut into full buckets stays so when one more full bucket follows. |
| Batching.ChunksAppend | SearchDocumentsJob/Extensions.cs:14-35 | After a prefix of full buckets, a non-empty tail of at most `size` items becomes exactly one more bucket. |
| Batching.ChunksFlatten | SearchDocumentsJob/Extensions.cs:8-36 | The buckets, concatenated, give back the source exactly, in order. |
| Batching.ChunksCount | SearchDocumentsJob/Extensions.cs:8-36 | The number of buckets is the ceiling of the item count over `size`. |
| Batching.ChunksShape | SearchDocumentsJob/Extensions.cs:20-35 | Every bucket but the last has exactly `size` items; the last has between 1 and `size`. |
| Batching.ChunkStep | SearchDocumentsJob/Extensions.cs:16-28 | One loop step, which closes a bucket or ends the source, adds exactly that bucket to the buckets of the prefix. |
| Batching.Batch | SearchDocumentsJob/Extensions.cs:8-36 | An empty source yields no bucket; otherwise size 0 fails on the array index and a negative size on the array allocation; a positive size yields `Chunks(source, size)`. |
| BlobSdk.Lower | BlobSdkLib/BlobClient.cs:70 | Lower-casing keeps the length. |
| BlobSdk.LowerAt | BlobSdkLib/BlobClient.cs:70 | Lower-casing maps each character on its own. |
| BlobSdk.LowerIdempotent | BlobSdkLib/BlobClient.cs:70 | A lower-cased name is unchanged by lower-casing again. |
| BlobSdk.BlobState.Open | BlobSdkLib/BlobClient.cs:68-86 | Opening a container caches its lower-cased name and changes no blob; a cached name leaves the state as it is. |
| BlobSdk.BlobState.Get | BlobSdkLib/BlobClient.cs:23-48 | A read gives the stored document and metadata under the requested name when that name exists in the lower-cased container, and nothing otherwise. |
| BlobSdk.BlobState.Save | BlobSdkLib/BlobClient.cs:50-66 | A save fails with "already exists" exactly when the name is taken, and then changes no blob; otherwise it adds the blob to its own container and leaves every other container alone. |
| BlobSdk.StoredNames | BlobSdkLib/BlobClient.cs:50-66 | After saving a list of blobs, a name is present iff it was before or one of the blobs has it; untouched names keep their blobs. |
| BlobSdk.StoredAt | BlobSdkLib/BlobClient.cs:50-66 | With distinct names, each saved blob is found under its name. |
| BlobSdk.StoredCount | BlobSdkLib/BlobClient.cs:50-66 | Distinct fresh names grow the container by exactly the number of blobs. |
| BlobSdk.BlobClient.constructor | BlobSdkLib/BlobClient.cs:17-21 | A client starts with an empty container cache over the given service. |
| BlobSdk.BlobClient.SaveAllOthers | BlobSdkLib/BlobClient.cs:50-66 | Saving blobs of one container leaves any other container unchanged. |
| BlobSdk.BlobClient.SaveAllFreshState | BlobSdkLib/BlobClient.cs:50-66 | Saving distinct fresh names succeeds, and the container ends up as the old one with the blobs stored. |
| BlobSdk.BlobClient.SaveAllFresh | BlobSdkLib/BlobClient.cs:50-66 | Saving distinct fresh names succeeds, keeps every old blob, stores each new one under its name and grows the container by their number. |
| BlobSdk.BlobClient.SaveAllKeeps | BlobSdkLib/BlobClient.cs:50-66 | After saving a list of blobs, each of their names is present, whether or not its own save failed. |
| BlobSdk.BlobClient.SaveAllClash | BlobSdkLib/BlobClient.cs:57-61 | A name already present, or given twice in the list, makes the list's save report an error. |
| BlobSdk.BlobClient.SaveAllStays | BlobSdkLib/BlobClient.cs:50-66 | A name present before a list of saves is still present after it. |
| BlobSdk.BlobClient.SaveAllPair | BlobSdkLib/BlobClient.cs:50-66 | Saving two blobs is saving the first and then the second, and reports the first error of the two. |
| BlobSdk.BlobClient.SaveAllAsync | BlobSdkLib/BlobClient.cs:50-66 | The saves of a task list leave the client in the state `SaveAll` gives and return its first error. |
| BlobSdk.BlobClient.OpenContainer | BlobSdkLib/BlobClient.cs:68-86 | Implements `Open` on the client's state. |
| BlobSdk.BlobClient.GetBlobAsync | BlobSdkLib/BlobClient.cs:23-48 | Implements `Get` on the client's state; a blob read back has the requested name and belongs to the container it was read from. |
| BlobSdk.BlobClient.SaveBlobAsync | BlobSdkLib/BlobClient.cs:50-66 | Implements `Save` into the container named by the document's type. |
| BlobSdk.SaveThenGet | BlobSdkLib/BlobClient.cs:23-66 | A blob that was saved successfully is read back unchanged. |
| BlobSdk.SaveTwiceFails | BlobSdkLib/BlobClient.cs:57-61 | A second save under the same name fails with "already exists". |
| BlobSdk.ContainersAreSeparate | BlobSdkLib/BlobClient.cs:68-86 | A save into one container never changes a container whose lower-cased name differs. |
| BlobDocuments.BlobName | BlobStorageLib/BlobCosmosDbStorage.cs:137 | A blob name is the key followed by a four-character suffix. |
| BlobDocuments.BlobNameInjective | SoftBlobStorageLib/SoftBlobCosmosDbStorage.cs:182-183 | Two keys give the same blob name iff they are equal. |
| BlobDocuments.OrderBlobs | BlobStorageLib/BlobCosmosDbStorage.cs:108-127 | One blob per order, in order, named after the order id, holding the order with the response's transaction id, with the order id as metadata. |
| BlobDocuments.OrderBlobNamesDistinct | BlobStorageLib/BlobCosmosDbStorage.cs:118-127 | Orders with distinct ids give blobs with distinct names. |
| BlobStorage.SaveResponseFails | BlobStorageLib/BlobCosmosDbStorage.cs:87 | A failed order blob makes Save fail, whatever the inserts did. |
| BlobStorage.SaveResponseCost | BlobStorageLib/BlobCosmosDbStorage.cs:89-103 | With both inserts successful, the cost is the sum of the two rounded charges, and the diagnostics are the two RU figures and the blob count. |
| BlobStorage.BlobCosmosDbStorage.constructor | BlobStorageLib/BlobCosmosDbStorage.cs:22-27 | The strategy holds three distinct clients keyed as the documents declare, with order blobs in "Orders". |
| BlobStorage.BlobCosmosDbStorage.GetAsync | BlobStorageLib/BlobCosmosDbStorage.cs:29-72 | Implements `Get`: order blob, then the point read of the data document. |
| BlobStorage.BlobCosmosDbStorage.SaveAsync | BlobStorageLib/BlobCosmosDbStorage.cs:74-104 | Implements `Save`: data insert, payload insert, order blobs, first error in that order. |
| BlobStorage.BlobCosmosDbStorage.GetSaveOrdersBlobsTask | BlobStorageLib/BlobCosmosDbStorage.cs:106-135 | Saves `OrderBlobs` of the response and counts one per order. |
| BlobStorage.BlobCosmosDbStorage.OrderBlobsContainer | BlobStorageLib/Documents/Blobs/OrderBlobDocument.cs:6 | Every order blob goes to the lower-cased "Orders" container. |
| BlobStorage.BlobCosmosDbStorage.OrderBlobsFresh | BlobStorageLib/BlobCosmosDbStorage.cs:106-135 | On free keys the order blobs go to one container with distinct, free names. |
| BlobStorage.BlobCosmosDbStorage.SaveCreates | BlobStorageLib/BlobCosmosDbStorage.cs:74-135 | On free keys Save succeeds and writes exactly the data and payload documents under their transaction ids; it keeps every old order blob, adds each order's blob and grows the container by the order count. |
| BlobStorage.BlobCosmosDbStorage.SaveSucceeds | BlobStorageLib/BlobCosmosDbStorage.cs:74-104 | On free keys Save answers as two successful inserts and one blob per order. |
| BlobStorage.BlobCosmosDbStorage.SaveCost | BlobStorageLib/BlobCosmosDbStorage.cs:89-103 | On free keys Save costs the data charge plus the payload charge, and reports them with the order count. |
| BlobStorage.BlobCosmosDbStorage.SaveExistingBlobFails | BlobStorageLib/BlobCosmosDbStorage.cs:87 | An order blob name already taken, or an order id given twice, makes Save fail. |
| BlobStorage.BlobCosmosDbStorage.GetUnfoundBlob | BlobStorageLib/BlobCosmosDbStorage.cs:35-44 | An order without a blob costs 0 and reports "Unfound order blob" with the blob name. |
| BlobStorage.BlobCosmosDbStorage.GetWithBlob | BlobStorageLib/BlobCosmosDbStorage.cs:46-71 | With the order blob present, a missing data document costs 0 and reports the blob and the transaction id; a present one costs the data read and reports the response, the ids and the blob. |
| BlobStorage.BlobCosmosDbStorage.SaveThenGet | BlobStorageLib/BlobCosmosDbStorage.cs:29-135 | After a Save on free keys, Get of any of its order ids finds the saved transaction at the cost of the data read. |
| BlobStorage.BlobCosmosDbStorage.SaveThenGetMismatch | BlobStorageLib/BlobCosmosDbStorage.cs:115 | When the response's transaction id differs from the request's, Get after Save finds the blob but reports the transaction as unfound, at zero cost. |
| Contracts.OrderIds | LegacyStorageLib/LegacyCosmosDbStorage.cs:59 | The order ids of the response, in order, one per order. |
| Contracts.OrdersWithId | SoftBlobStorageLib/SoftBlobCosmosDbStorage.cs:64-67 | The orders whose id equals the given one, and only those, each as many times as it occurs. |
| Contracts.SingleOrder | SoftBlobStorageLib/SoftBlobCosmosDbStorage.cs:64-67 | `Single` succeeds iff exactly one order has the id, and gives an order of the list with that id; it fails with "no matching element" iff none has it, and with "more than one" iff several have it. |
| Contracts.SingleOrderUnique | SoftBlobStorageLib/SoftBlobCosmosDbStorage.cs:64-67 | With distinct order ids, `Single` on an order's id gives that order. |
| Contracts.OrdersWithIdAbsent | SoftBlobStorageLib/SoftBlobCosmosDbStorage.cs:64-67 | An id no order has matches nothing. |
| CosmosClient.SingleOrDefault | LegacyStorageLib/LegacyCosmosDbStorage.cs:30 | `SingleOrDefault` gives nothing iff the list is empty, the element iff there is exactly one, and fails iff there are several. |
| CosmosClient.CosmosDbClient.constructor | CosmosSdkLib/CosmosDbClient.cs:15-28 | A client over a store whose keys are its documents' (partition key, id) pairs, with non-negative charges. |
| CosmosClient.CosmosDbClient.InsertEffect | CosmosSdkLib/CosmosDbClient.cs:36-42 | An insert succeeds iff the document's key is free; it then adds exactly that document, with no documents in the answer and the rounded charge. Otherwise it fails with a conflict on the key and changes nothing. |
| CosmosClient.CosmosDbClient.InsertAsync | CosmosSdkLib/CosmosDbClient.cs:36-42 | Implements `Insert` on the client's store. |
| CosmosClient.CosmosDbClient.ReadPartitionEmpty | CosmosSdkLib/CosmosDbClient.cs:54-68 | A partition query on a partition with no document reads nothing, at the rounded charge. |
| CosmosClient.CosmosDbClient.ReadPartitionOne | CosmosSdkLib/CosmosDbClient.cs:54-68 | A partition query on a partition with one document reads that document. |
| CosmosClient.CosmosDbClient.ReadPartitionMany | LegacyStorageLib/LegacyCosmosDbStorage.cs:28-30 | A partition with two documents makes the single read fail with "more than one element". |
| CosmosClient.CosmosDbClient.ReadPoint | CosmosSdkLib/CosmosDbRequest.cs:26-30 | A (partition key, id) query reads the document under that key, or nothing. |
| CosmosClient.CosmosDbClient.InsertAllFresh | CosmosSdkLib/CosmosDbClient.cs:36-42 | Inserting documents with distinct fresh keys succeeds and charges each its rounded charge. |
| CosmosClient.CosmosDbClient.InsertAllUnits | LegacyStorageLib/LegacyCosmosDbStorage.cs:104-114 | There is one charge per document, and when no insert failed each is that document's rounded charge. |
| CosmosClient.CosmosDbClient.InsertedKeys | CosmosSdkLib/CosmosDbClient.cs:36-42 | After the inserts, a key is present iff it was before or one of the documents has it; untouched keys keep their documents. |
| CosmosClient.CosmosDbClient.InsertedAt | CosmosSdkLib/CosmosDbClient.cs:36-42 | With distinct keys, each inserted document is found under its key. |
| CosmosClient.CosmosDbClient.InsertedCount | CosmosSdkLib/CosmosDbClient.cs:36-42 | Distinct fresh keys grow the store by exactly the number of documents. |
| CosmosClient.CosmosDbClient.InsertAllFreshState | CosmosSdkLib/CosmosDbClient.cs:36-42 | Inserting distinct fresh keys one by one gives the old store with the documents added. |
| CosmosClient.CosmosDbClient.InsertAllContents | LegacyStorageLib/LegacyCosmosDbStorage.cs:73-85 | Inserting distinct fresh keys keeps every old document, stores each new one under its key and grows the store by their number. |
| CosmosClient.CosmosDbClient.InsertAllKeys | CosmosSdkLib/CosmosDbClient.cs:36-42 | No key appears that was not there before or in the documents. |
| CosmosClient.CosmosDbClient.InsertAllClash | CosmosSdkLib/CosmosDbClient.cs:36-42 | Two documents of one batch with the same key make the batch report an error. |
| CosmosClient.CosmosDbClient.InsertAllKeeps | CosmosSdkLib/CosmosDbClient.cs:36-42 | Every document's key is present after the batch, whether or not its own insert failed. |
| CosmosClient.CosmosDbClient.InsertAllAsync | LegacyStorageLib/LegacyCosmosDbStorage.cs:75-77 | Implements `InsertAll` on the client's store. |
| CosmosClient.CosmosDbClient.PointQuery | CosmosSdkLib/CosmosDbRequest.cs:26-30 | A point query gives at most one document, and none iff the key is absent. |
| CosmosClient.CosmosDbClient.GetAsync | CosmosSdkLib/CosmosDbClient.cs:44-47 | A non-blank query runs as a query and a blank one as a read of the request's document. The answer is that of `GetByQueryAsync` or `GetByItemAsync`, and its single document is what the read oracle gives. |
| CosmosClient.CosmosDbClient.GetByItemAsync | CosmosSdkLib/CosmosDbClient.cs:70-76 | Reads the request document's key: the document at the rounded charge, "not found" when absent, a null dereference without a document. |
| CosmosClient.CosmosDbClient.GetByQueryAsync | CosmosSdkLib/CosmosDbClient.cs:54-68 | An unreadable query fails. A point query gives the document or none. A partition query gives every document of the partition exactly once, at the rounded charge. |
| CosmosClient.CosmosDbClient.QueryPartition | CosmosSdkLib/CosmosDbClient.cs:59-65 | The query iterator gathers each document of the partition exactly once. |
| CosmosClient.CosmosDbClient.GetSingleAsync | LegacyStorageLib/LegacyCosmosDbStorage.cs:29-30 | A read followed by `SingleOrDefault` gives what the read oracle specifies. |
| CosmosRequest.FromDocument | CosmosSdkLib/CosmosDbRequest.cs:10-13 | A document request carries the document and no query. |
| CosmosRequest.FromQuery | CosmosSdkLib/CosmosDbRequest.cs:15-18 | A query request carries the query and no document. |
| CosmosRequest.BuildBasedOnPartitionKey | CosmosSdkLib/CosmosDbRequest.cs:20-24 | A query request whose text is the prefix, the key and a closing quote, and which reads back as a query on that partition when the key holds no quote. |
| CosmosRequest.BuildBasedOnPartitionKeyAndId | CosmosSdkLib/CosmosDbRequest.cs:26-30 | The partition key query followed by the id clause and the quoted id, which reads back as a point query on that key and id when neither holds a quote. |
| CosmosRequest.QuoteIndex | CosmosSdkLib/CosmosDbRequest.cs:22 | The position of the first double quote, or the length when there is none. |
| CosmosRequest.ParseQuery | CosmosSdkLib/CosmosDbRequest.cs:22-28 | Only a text that starts with the partition key prefix is understood. |
| CosmosRequest.QuoteIndexAfterKey | CosmosSdkLib/CosmosDbRequest.cs:22 | In a quote-free key followed by a quote, the first quote is right after the key. |
| CosmosRequest.ParsePrefixed | CosmosSdkLib/CosmosDbRequest.cs:22 | Parsing a prefixed text parses what follows the prefix. |
| CosmosRequest.ParseKeysAfterKey | CosmosSdkLib/CosmosDbRequest.cs:22-28 | After a quote-free key and its closing quote, nothing more means a partition query and an id clause means a point query. |
| CosmosRequest.ParseIdOf | CosmosSdkLib/CosmosDbRequest.cs:28 | The id clause of a quote-free id reads back that id. |
| CosmosRequest.ParsePartitionKeyQuery | CosmosSdkLib/CosmosDbRequest.cs:20-24 | The partition key query of a quote-free key reads back as a partition query on that key. |
| CosmosRequest.AndIdQueryShape | CosmosSdkLib/CosmosDbRequest.cs:26-30 | The point query is the prefix, the key, a quote, the id clause, the id and a quote. |
| CosmosRequest.ParsePartitionKeyAndIdQuery | CosmosSdkLib/CosmosDbRequest.cs:26-30 | The point query of quote-free keys reads back as a point query on those keys. |
| CosmosRequest.PartitionKeyQueryInjection | CosmosSdkLib/CosmosDbRequest.cs:22 | A partition key containing a quote and an id clause is read as a point query: the key is not escaped. |
| CosmosRequest.BuiltQueriesAreNotBlank | CosmosSdkLib/CosmosDbClient.cs:46 | Both built queries are non-blank, so they always take the query path. |
| CosmosResponse.MilliIsMilli | CosmosSdkLib/CosmosDbResponse.cs:14 | A whole number of thousandths is a three-decimal value. |
| CosmosResponse.RoundHalfEven | CosmosSdkLib/CosmosDbResponse.cs:14 | Rounding lands within one half of the input, and a whole number stays as it is. |
| CosmosResponse.Round3 | CosmosSdkLib/CosmosDbResponse.cs:14 | Three-decimal rounding moves a value by at most half a thousandth and keeps it non-negative. |
| CosmosResponse.Round3IsMilli | CosmosSdkLib/CosmosDbResponse.cs:14 | A rounded value has at most three decimals. |
| CosmosResponse.Round3OfMilli | CosmosSdkLib/CosmosDbResponse.cs:14 | A value with at most three decimals is unchanged by rounding. |
| CosmosResponse.Round3Idempotent | CosmosSdkLib/CosmosDbResponse.cs:14 | Rounding twice is rounding once. |
| CosmosResponse.MilliSum | LegacyStorageLib/LegacyCosmosDbStorage.cs:91-93 | A sum of three-decimal values has three decimals and is unchanged by rounding. |
| CosmosResponse.CosmosDbResponse.WithInformations | CosmosSdkLib/CosmosDbResponse.cs:26 | Setting the diagnostics changes nothing else in the response. |
| CosmosResponse.NewResponse | CosmosSdkLib/CosmosDbResponse.cs:12-18 | A response's units are the rounded charge. Missing documents become an empty list. The untyped view holds the same documents, and the diagnostics start empty. |
| CosmosResponse.NewDynamicResponse | CosmosSdkLib/CosmosDbResponse.cs:35-38 | The untyped constructor rounds the charge and sets only the untyped view. |
| CosmosResponse.Respond | CosmosSdkLib/CosmosDbResponse.cs:31-33 | A storage answer carries the rounded units, no documents and the given diagnostics. |
| CosmosResponse.RespondMilli | CosmosSdkLib/CosmosDbResponse.cs:14 | An answer built from a three-decimal sum reports that sum exactly. |
| CosmosResponse.RespondRoundedSum | LegacyStorageLib/LegacyCosmosDbStorage.cs:45-46 | An answer built from two rounded charges reports their exact sum. |
| CosmosResponse.RespondZero | BlobStorageLib/BlobCosmosDbStorage.cs:37 | A zero-cost answer reports zero units. |
| LegacyDocuments.Correlations | LegacyStorageLib/LegacyCosmosDbStorage.cs:63-65 | One correlation per order id, in order, each pairing that id with the transaction id. |
| LegacyDocuments.CorrelationKeys | LegacyStorageLib/Documents/CosmosCorrelationDocument.cs:7-19 | A correlation is partitioned by order id and identified by transaction id; two correlations share a key iff they are equal. |
| LegacyStorage.SumOfMilli | LegacyStorageLib/LegacyCosmosDbStorage.cs:104-114 | A sum of three-decimal charges has three decimals and is unchanged by rounding. |
| LegacyStorage.Rounded | LegacyStorageLib/LegacyCosmosDbStorage.cs:110 | Each correlation response's units are its rounded charge, one per response. |
| LegacyStorage.GetRequestUnits | LegacyStorageLib/LegacyCosmosDbStorage.cs:104-114 | The loop adds up the correlation units and returns the rounded total. |
| LegacyStorage.SaveResponseCost | LegacyStorageLib/LegacyCosmosDbStorage.cs:87-101 | With every insert successful, the cost is data + payload + correlation units, and the diagnostics are the three RU figures. |
| LegacyStorage.LegacyCosmosDbStorage.constructor | LegacyStorageLib/LegacyCosmosDbStorage.cs:19-24 | The strategy holds three distinct Cosmos clients keyed as the documents declare. |
| LegacyStorage.LegacyCosmosDbStorage.GetAsync | LegacyStorageLib/LegacyCosmosDbStorage.cs:26-54 | Implements `Get`: the correlation partition query, then the data point read. |
| LegacyStorage.LegacyCosmosDbStorage.SaveAsync | LegacyStorageLib/LegacyCosmosDbStorage.cs:56-102 | Implements `Save`: the correlations, then data, then payload, first error in that order, costed as the inserts answered. |
| LegacyStorage.LegacyCosmosDbStorage.CorrelationKeysOf | LegacyStorageLib/LegacyCosmosDbStorage.cs:63-65 | The correlation of the i-th order is stored under (order id, transaction id). |
| LegacyStorage.LegacyCosmosDbStorage.CorrelationKeysFresh | LegacyStorageLib/LegacyCosmosDbStorage.cs:63-77 | On free keys the correlations have distinct keys, all of them free. |
| LegacyStorage.LegacyCosmosDbStorage.SaveCreates | LegacyStorageLib/LegacyCosmosDbStorage.cs:56-85 | On free keys Save succeeds, writes exactly the data and payload documents, keeps every old correlation, adds one per order, and grows the stores by 2 + order count. |
| LegacyStorage.LegacyCosmosDbStorage.SaveRepeatedOrderIdFails | LegacyStorageLib/LegacyCosmosDbStorage.cs:63-85 | An order id given twice in the response makes Save fail on the correlation conflict. |
| LegacyStorage.LegacyCosmosDbStorage.CorrelationRawCharges | LegacyStorageLib/LegacyCosmosDbStorage.cs:75-77 | One charge per order. |
| LegacyStorage.LegacyCosmosDbStorage.CorrelationCharges | LegacyStorageLib/LegacyCosmosDbStorage.cs:108-111 | One rounded charge per order. |
| LegacyStorage.LegacyCosmosDbStorage.SaveSucceeds | LegacyStorageLib/LegacyCosmosDbStorage.cs:56-102 | On free keys Save answers as three kinds of successful inserts. |
| LegacyStorage.LegacyCosmosDbStorage.SaveCost | LegacyStorageLib/LegacyCosmosDbStorage.cs:87-101 | On free keys Save costs data + payload + the sum of the rounded correlation charges, and reports them. |
| LegacyStorage.LegacyCosmosDbStorage.GetUnfoundCorrelation | LegacyStorageLib/LegacyCosmosDbStorage.cs:28-34 | An order id without correlation costs the correlation query and reports nothing. |
| LegacyStorage.LegacyCosmosDbStorage.GetDuplicateCorrelations | LegacyStorageLib/LegacyCosmosDbStorage.cs:30 | Two correlations for one order id make Get fail with "more than one element". |
| LegacyStorage.LegacyCosmosDbStorage.GetWithCorrelation | LegacyStorageLib/LegacyCosmosDbStorage.cs:36-53 | With one correlation, a missing data document costs the correlation query only; a present one costs both reads and reports both responses. |
| LegacyStorage.LegacyCosmosDbStorage.SavedCorrelation | LegacyStorageLib/LegacyCosmosDbStorage.cs:63-85 | After a Save, an order id new to the store has exactly one correlation, naming the saved transaction, whose data document is stored. |
| LegacyStorage.LegacyCosmosDbStorage.SaveThenGet | LegacyStorageLib/LegacyCosmosDbStorage.cs:26-102 | After a Save on free keys, Get of a new order id finds the saved transaction at the cost of both reads. |
| OrderSearch.BuildOrderSearchModels | SearchStorageLib/SearchCosmosDbStorage.cs:128-140 | One model per order, in order, with the order id and the response's transaction id and date. |
| OrderSearch.UploadOrderModels | SearchStorageLib/SearchIndexes/OrderSearchIndex.cs:10-12 | Once the models of a response with distinct order ids are uploaded, each order's model sits under its order id. |
| OrderSearch.Quote | SearchStorageLib/SearchCosmosDbStorage.cs:118 | The query is the order id between double quotes. |
| OrderSearch.QuoteInjective | SearchStorageLib/SearchCosmosDbStorage.cs:118 | Distinct order ids give distinct queries. |
| OrderSearch.Attempt | SearchStorageLib/SearchCosmosDbStorage.cs:116-126 | One search succeeds with its results iff they are non-empty, and otherwise fails with the unfound-order exception. |
| OrderSearch.RetryOutcome | SearchStorageLib/SearchCosmosDbStorage.cs:35-41 | The policy makes between 1 and 1 + retries searches. Every search before the last found nothing, and the outcome is that of the last. A failure means all of them were made. |
| OrderSearch.RetryFails | SoftSearchStorageLib/Exceptions/UnfoundOrderException.cs:25-28 | The policy fails iff all 1 + retries searches find nothing, and then with the unfound-order exception. |
| OrderSearch.ModelsWithId | SearchStorageLib/SearchCosmosDbStorage.cs:43-45 | The filter keeps exactly the models with the order id, each as many times as it occurs. |
| OrderSearch.ModelsWithIdFromIndex | SearchStorageLib/SearchCosmosDbStorage.cs:43-47 | Over distinct results from an index keyed by order id, the filter leaves the indexed model alone when it was found and nothing otherwise, so `SingleOrDefault` never sees two. |
| OrderSearch.GetOrderSearchModelAsync | SearchStorageLib/SearchCosmosDbStorage.cs:116-126 | Implements `Attempt` as one search on the client, changing only its search count. |
| OrderSearch.SearchWithRetryAsync | SearchStorageLib/SearchCosmosDbStorage.cs:35-41 | The retry loop gives `Retry` with 5 retries, changes neither index nor batches, and counts each search made. |
| SearchSdk.UploadKeys | SearchSdkLib/SearchClient.cs:59-64 | After an upload, a key is present iff it was before or a model has it. |
| SearchSdk.UploadValues | SearchSdkLib/SearchClient.cs:59-64 | A model's key holds the last model of the batch with that key. |
| SearchSdk.UploadKeeps | SearchSdkLib/SearchClient.cs:59-64 | A key no model of the batch has keeps its old model. |
| SearchSdk.UploadKeyed | SearchStorageLib/SearchIndexes/OrderSearchIndex.cs:10-12 | An upload keeps every model under its own key. |
| SearchSdk.SearchClient.constructor | SearchSdkLib/SearchClient.cs:23-29 | A client starts with an empty index and no search or batch made. |
| SearchSdk.SearchClient.Indexed | SearchSdkLib/SearchClient.cs:104-128 | A refused batch leaves the index as it is; an accepted one adds exactly its models' keys. |
| SearchSdk.SearchClient.SaveAsync | SearchSdkLib/SearchClient.cs:59-64 | Applies `Indexed` with the batch number, which it counts, and makes no search. |
| SearchSdk.SearchClient.GetAsync | SearchSdkLib/SearchClient.cs:73-79 | Gives the oracle's results for this query and search number. A sound oracle gives only indexed models. Only the search count changes. |
| SearchStorage.SaveResponseCost | SearchStorageLib/SearchCosmosDbStorage.cs:102-113 | With both inserts successful, the cost is the two rounded charges and the diagnostics are the two RU figures. |
| SearchStorage.SearchCosmosDbStorage.constructor | SearchStorageLib/SearchCosmosDbStorage.cs:26-31 | The strategy holds three distinct clients, the index keyed by order id. |
| SearchStorage.SearchCosmosDbStorage.GetAsync | SearchStorageLib/SearchCosmosDbStorage.cs:33-84 | Implements `Get`: the retried search, the filter, then the data point read, and the index is unchanged. |
| SearchStorage.SearchCosmosDbStorage.SaveAsync | SearchStorageLib/SearchCosmosDbStorage.cs:86-114 | Implements `Save`: data insert, payload insert, one search batch; the first error is reported and a refused batch is silent. |
| SearchStorage.SearchCosmosDbStorage.SaveCreates | SearchStorageLib/SearchCosmosDbStorage.cs:86-100 | On free keys Save succeeds and writes exactly the data and payload documents. |
| SearchStorage.SearchCosmosDbStorage.SaveIndexes | SearchStorageLib/SearchCosmosDbStorage.cs:97-98 | When the batch is taken, each order of a response with distinct ids is indexed under its id. |
| SearchStorage.SearchCosmosDbStorage.SaveCost | SearchStorageLib/SearchCosmosDbStorage.cs:102-113 | On free keys Save costs the data charge plus the payload charge and reports them. |
| SearchStorage.SearchCosmosDbStorage.SaveExistingFails | SearchStorageLib/SearchCosmosDbStorage.cs:94-100 | A stored transaction makes Save fail with the conflict on its key; the data store is unchanged, but the search batch is still sent. |
| SearchStorage.SearchCosmosDbStorage.GetUnfoundInSearch | SearchStorageLib/SearchCosmosDbStorage.cs:35-41 | When all six searches find nothing, Get fails with the unfound-order exception after six searches. |
| SearchStorage.SearchCosmosDbStorage.GetFromSoundSearch | SearchStorageLib/SearchCosmosDbStorage.cs:43-58 | With a sound search, Get continues from the model indexed under the order id when it was found, and otherwise reports "Unfound OrderId in Search" at zero cost. |
| SearchStorage.SearchCosmosDbStorage.FoundModelCases | SearchStorageLib/SearchCosmosDbStorage.cs:60-83 | A missing data document costs 0 and reports the order and transaction ids; a present one costs the data read and reports the response and both ids. |
| SearchStorage.SearchCosmosDbStorage.SaveThenGet | SearchStorageLib/SearchCosmosDbStorage.cs:33-114 | After a Save on free keys whose batch was taken, Get of an order the sound search lists finds the saved transaction at the cost of the data read. |
| SoftBlobStorage.ContainerKinds | SoftBlobStorageLib/Documents/Blobs/TransactionDataBlobDocument.cs:6 | Order, data and payload blobs live in three different containers, each kind in its own. |
| SoftBlobStorage.TransactionBlobs | SoftBlobStorageLib/SoftBlobCosmosDbStorage.cs:117-145 | Two blobs under the transaction blob name, data first, then payload, with the product count as metadata. |
| SoftBlobStorage.SaveResponseCost | SoftBlobStorageLib/SoftBlobCosmosDbStorage.cs:100-114 | With both inserts successful, the cost is the two rounded charges, and the diagnostics are the two RU figures and the blob count. |
| SoftBlobStorage.SaveResponseFails | SoftBlobStorageLib/SoftBlobCosmosDbStorage.cs:98 | A failed blob task makes Save fail. |
| SoftBlobStorage.SoftBlobCosmosDbStorage.constructor | SoftBlobStorageLib/SoftBlobCosmosDbStorage.cs:22-27 | The strategy holds three distinct clients, with blobs in "SoftOrders", "SoftDatas" and "SoftPayloads". |
| SoftBlobStorage.SoftBlobCosmosDbStorage.GetAsync | SoftBlobStorageLib/SoftBlobCosmosDbStorage.cs:29-81 | Implements `Get`: order blob, data point read, data blob, then the order. |
| SoftBlobStorage.SoftBlobCosmosDbStorage.SaveAsync | SoftBlobStorageLib/SoftBlobCosmosDbStorage.cs:83-115 | Implements `Save`: data, payload, order blobs, transaction blobs, first error in that order. |
| SoftBlobStorage.SoftBlobCosmosDbStorage.GetSaveTransactionBlobTask | SoftBlobStorageLib/SoftBlobCosmosDbStorage.cs:117-149 | Saves `TransactionBlobs` and counts 2. |
| SoftBlobStorage.SoftBlobCosmosDbStorage.GetSaveOrderBlobsTask | SoftBlobStorageLib/SoftBlobCosmosDbStorage.cs:151-180 | Saves `OrderBlobs` and counts one per order. |
| SoftBlobStorage.SoftBlobCosmosDbStorage.OrderBlobsContainer | SoftBlobStorageLib/SoftBlobCosmosDbStorage.cs:151-180 | Every order blob goes to the lower-cased "SoftOrders" container. |
| SoftBlobStorage.SoftBlobCosmosDbStorage.OrderBlobsFresh | SoftBlobStorageLib/SoftBlobCosmosDbStorage.cs:151-180 | With distinct free order ids, the order blobs have distinct, free names in one container. |
| SoftBlobStorage.SoftBlobCosmosDbStorage.TransactionBlobsFresh | SoftBlobStorageLib/SoftBlobCosmosDbStorage.cs:117-149 | With the name free in both containers, the two transaction blobs are stored and the order blobs are unchanged. |
| SoftBlobStorage.SoftBlobCosmosDbStorage.SaveBlobsFresh | SoftBlobStorageLib/SoftBlobCosmosDbStorage.cs:95-98 | On free names both blob tasks succeed; the data and payload containers gain exactly the transaction blobs, and the orders container gains exactly the order blobs. |
| SoftBlobStorage.SoftBlobCosmosDbStorage.OrderBlobsCreate | SoftBlobStorageLib/SoftBlobCosmosDbStorage.cs:151-180 | On free names the order blobs keep every old blob, add each order's blob and grow the container by the order count. |
| SoftBlobStorage.SoftBlobCosmosDbStorage.SaveCreates | SoftBlobStorageLib/SoftBlobCosmosDbStorage.cs:83-98 | On free keys Save writes the slim data and payload documents, both pointing at the transaction blob, and the blobs its tasks write. |
| SoftBlobStorage.SoftBlobCosmosDbStorage.SaveSucceeds | SoftBlobStorageLib/SoftBlobCosmosDbStorage.cs:83-115 | On free keys Save answers as two successful inserts and order count + 2 blobs. |
| SoftBlobStorage.SoftBlobCosmosDbStorage.SaveCost | SoftBlobStorageLib/SoftBlobCosmosDbStorage.cs:100-114 | On free keys Save costs the two rounded charges and reports order count + 2 blobs uploaded. |
| SoftBlobStorage.SoftBlobCosmosDbStorage.SaveBlobsOrderClash | SoftBlobStorageLib/SoftBlobCosmosDbStorage.cs:151-180 | A taken or repeated order blob name makes the order blob task fail. |
| SoftBlobStorage.SoftBlobCosmosDbStorage.SaveBlobsDataClash | SoftBlobStorageLib/SoftBlobCosmosDbStorage.cs:117-149 | A taken data blob name makes the transaction blob task fail. |
| SoftBlobStorage.SoftBlobCosmosDbStorage.SaveExistingBlobFails | SoftBlobStorageLib/SoftBlobCosmosDbStorage.cs:98 | Any of those blob clashes makes Save fail. |
| SoftBlobStorage.SoftBlobCosmosDbStorage.GetUnfoundBlob | SoftBlobStorageLib/SoftBlobCosmosDbStorage.cs:31-44 | An order without a blob costs 0 and reports "Unfound order blob". |
| SoftBlobStorage.SoftBlobCosmosDbStorage.GetUnfoundTransaction | SoftBlobStorageLib/SoftBlobCosmosDbStorage.cs:46-60 | An order blob whose transaction has no data document costs 0 and reports the blob and the transaction id. |
| SoftBlobStorage.SoftBlobCosmosDbStorage.GetWithDataDocument | SoftBlobStorageLib/SoftBlobCosmosDbStorage.cs:62-80 | With the data document, a missing data blob is a null dereference. Otherwise Get gives `Single`'s error, or the order's price at the cost of the data read. |
| SoftBlobStorage.SoftBlobCosmosDbStorage.SaveThenGet | SoftBlobStorageLib/SoftBlobCosmosDbStorage.cs:29-180 | After a Save on free keys, Get of any of its orders follows the order blob, the data document and the data blob back to that order, with its price, at the cost of the data read. |
| SoftDocuments.SoftDataDocumentOf | SoftBlobStorageLib/Documents/Cosmos/SoftCosmosDataDocument.cs:25-35 | The slim data document has the transaction id as id and partition key, the request date and the blob name, plus one soft order per order, in order, with its id, product and price. |
| SoftDocuments.SoftPayloadDocumentOf | SoftBlobStorageLib/Documents/Cosmos/SoftCosmosPayloadDocument.cs:25-35 | The same for the payload DTOs. |
| SoftDocuments.NatToString | SoftBlobStorageLib/SoftBlobCosmosDbStorage.cs:121 | A count is written as one or more decimal digits, with a leading zero only for zero. |
| SoftDocuments.NatToStringValue | SoftBlobStorageLib/SoftBlobCosmosDbStorage.cs:121-125 | The digits of the `nbrProducts` metadata spell the product count back. |
| SoftSearchStorage.ContainerKinds | SoftSearchStorageLib/Documents/Blobs/TransactionDataBlobDocument.cs:6 | Data and payload blobs live in two different containers, each kind in its own. |
| SoftSearchStorage.TransactionBlobs | SoftSearchStorageLib/SoftSearchCosmosDbStorage.cs:161-188 | Two blobs under the transaction blob name, data first, then payload, with the transaction id as metadata. |
| SoftSearchStorage.SaveResponseCost | SoftSearchStorageLib/SoftSearchCosmosDbStorage.cs:118-132 | With both inserts successful, the cost is the two rounded charges, and the diagnostics are the two RU figures and the blob count. |
| SoftSearchStorage.SaveResponseFails | SoftSearchStorageLib/SoftSearchCosmosDbStorage.cs:116 | A failed blob task makes Save fail. |
| SoftSearchStorage.SoftSearchCosmosDbStorage.constructor | SoftSearchStorageLib/SoftSearchCosmosDbStorage.cs:30-36 | The strategy holds four distinct clients, the index keyed by order id and the blobs in "Datas" and "Payloads". |
| SoftSearchStorage.SoftSearchCosmosDbStorage.GetAsync | SoftSearchStorageLib/SoftSearchCosmosDbStorage.cs:38-97 | Implements `Get`: the retried search, the filter, the data point read, the data blob, then the order. |
| SoftSearchStorage.SoftSearchCosmosDbStorage.SaveAsync | SoftSearchStorageLib/SoftSearchCosmosDbStorage.cs:99-133 | Implements `Save`: data, payload, search batch, transaction blobs, first error in that order. |
| SoftSearchStorage.SoftSearchCosmosDbStorage.GetSaveTransactionBlobsTask | SoftSearchStorageLib/SoftSearchCosmosDbStorage.cs:161-192 | Saves `TransactionBlobs` and counts 2. |
| SoftSearchStorage.SoftSearchCosmosDbStorage.TransactionBlobsFresh | SoftSearchStorageLib/SoftSearchCosmosDbStorage.cs:161-192 | With the name free in both containers, the blob task succeeds and adds exactly the two blobs. |
| SoftSearchStorage.SoftSearchCosmosDbStorage.TransactionBlobsClash | SoftSearchStorageLib/SoftSearchCosmosDbStorage.cs:186-190 | A name taken in either container makes the blob task fail. |
| SoftSearchStorage.SoftSearchCosmosDbStorage.SaveCreates | SoftSearchStorageLib/SoftSearchCosmosDbStorage.cs:99-116 | On free keys Save writes the slim documents pointing at the blob, the index as the batch leaves it, and the two blobs. |
| SoftSearchStorage.SoftSearchCosmosDbStorage.SaveIndexes | SoftSearchStorageLib/SoftSearchCosmosDbStorage.cs:111-112 | When the batch is taken, each order of a response with distinct ids is indexed under its id. |
| SoftSearchStorage.SoftSearchCosmosDbStorage.SaveCost | SoftSearchStorageLib/SoftSearchCosmosDbStorage.cs:118-132 | On free keys Save succeeds, costs the two rounded charges and reports 2 blobs uploaded. |
| SoftSearchStorage.SoftSearchCosmosDbStorage.SaveExistingFails | SoftSearchStorageLib/SoftSearchCosmosDbStorage.cs:108-116 | A stored transaction makes Save fail with the conflict on its key, which is reported first. |
| SoftSearchStorage.SoftSearchCosmosDbStorage.SaveExistingBlobFails | SoftSearchStorageLib/SoftSearchCosmosDbStorage.cs:116 | A taken transaction blob name makes Save fail. |
| SoftSearchStorage.SoftSearchCosmosDbStorage.GetUnfoundInSearch | SoftSearchStorageLib/SoftSearchCosmosDbStorage.cs:40-46 | When all six searches find nothing, Get fails with the unfound-order exception and touches no blob. |
| SoftSearchStorage.SoftSearchCosmosDbStorage.GetFromSoundSearch | SoftSearchStorageLib/SoftSearchCosmosDbStorage.cs:48-62 | With a sound search, Get continues from the indexed model when it was found; otherwise it reports "Unfound OrderId in Search" at zero cost and touches no blob. |
| SoftSearchStorage.SoftSearchCosmosDbStorage.FoundModelCases | SoftSearchStorageLib/SoftSearchCosmosDbStorage.cs:64-96 | A missing data document costs 0 and reports both ids. A missing data blob is a null dereference. Otherwise Get gives `Single`'s error, or the answer at the cost of the data read naming the blob. |
| SoftSearchStorage.SoftSearchCosmosDbStorage.SaveThenGet | SoftSearchStorageLib/SoftSearchCosmosDbStorage.cs:38-192 | After a Save on free keys whose batch was taken, Get of an order the sound search lists finds the data document and blob at the cost of the data read. |
| TransactionDocuments.DataAndPayloadKeys | LegacyStorageLib/Documents/CosmosDataDocument.cs:12-14 | Data and payload documents are keyed by their transaction id as id and partition key, and share a key iff those ids agree. |

## Left out

- Concurrency. `Task.WhenAll` runs the writes of a Save concurrently; the model runs them one after the other in task-list order and reports the first error in that order, which is the exception `await` rethrows. Interleavings, the check-then-upload race in the blob client and partial results of cancelled tasks are not modelled.
- Request charges, network, time and the services themselves. Charges are a function parameter of each Cosmos client. A search is answered by an oracle over (index, query, search number). That oracle stands for relevance ranking and for the delay before an upload becomes visible. Whether the service accepts a batch is an oracle over the batch number.
- Partial batch failures. `IndexBatchException` can report some documents as failed. The model applies or drops a whole batch, and logs nothing.
- The semaphore, the five-minute timeout and the console logging of `RunBatchAsync`. They are left out for the same reason.
- The retry policy's `onRetry` console message and Polly's own scheduling. The policy is modelled as a bounded loop over searches.
- Order.OrderPrice: computed exactly, as the integer product of quantity and unit price times the tax rate. Contracts/Models/Product.cs is not part of this model. If its `Quantity` and `UnitPrice` are 32-bit `int`s, the C# product wraps around before it becomes a `decimal`. The `decimal` multiplication also keeps only 28 to 29 significant digits and throws `OverflowException` past its range. None of this is modelled, and SoftBlob Get reports the exact price.
- Floating point. Charges are `real`, and `Math.Round(x, 3)` is rounding half to even at three decimals. The binary double representation and its rounding errors are not modelled.
- JSON serialization, streams and downloads of blobs. A blob stores its document value and metadata as they are.
- Reflection on `BlobContainerAttribute`. Each document type's container name is a fixed function of the document (`ContainerOf`).
- Blobs of a foreign document type inside a container. A valid client only ever holds the container's own type there.
- The random contract builders, the console application, the search documents job's other parts, `ReadThroughputAsync`, `Dispose`, `SizeAsync`, `CountAsync`, the delete operations and `UpdateAsync`. They are not part of the storage strategies.
- The untyped `CosmosDbClient` (no `TDocument`). The strategies do not use it.
- The Cosmos service's SQL is reduced to the two query shapes the code builds. Any other text is a bad query.
- LegacyStorageLib/Documents/CosmosPayloadDocument.cs and SearchStorageLib/Documents/CosmosDataDocument.cs are not part of this model. They are modelled as the same shapes as their Blob-strategy counterparts.
- SoftSearchStorageLib/Documents/Cosmos/SoftCosmosDataDocument.cs and SoftCosmosPayloadDocument.cs are not part of this model. They are modelled as the SoftBlob documents.
- SearchStorageLib/Exceptions/UnfoundOrderException.cs is not part of this model. It is modelled as the SoftSearch exception.
- Where the system's documentation and the code disagree, the model follows the code:
  - The documentation speaks of 5 search attempts. `RetryAsync(5)` makes one attempt plus five retries, so up to 6 searches.
  - The documentation names the attachment `"<transactionId>.blob"`. The code names every blob `"<key>.txt"`.
  - The documentation treats several models left by the order-id filter as "not found". The code calls `SingleOrDefault`, which throws in that case. `OrderSearch.ModelsWithIdFromIndex` shows it cannot happen with a sound search.
