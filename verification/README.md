# Serverless store: the products request pipeline, in Dafny

This project models the products API of the serverless store's `store_apis` backend. One Lambda handler, `ProductsHandler`, loads its configuration, builds the AWS clients and switches on the HTTP method. POST creates a product, GET reads one, PUT updates one and DELETE deletes one. All four work on one DynamoDB table whose key attribute is `id`.

- **create** decodes the JSON body into a `Product`. It builds an `Item` with a fresh uuid and the current Unix time, then puts it unconditionally. It answers 201 with `successfully created product with id: <id>`.
- **read** takes the `id` path parameter and queries `id = <id>` with `Limit: 1`. It returns the first item as JSON with 200. If nothing matches, it answers 500 with "no entries found with id".
- **update** takes `id`, then decodes the body. It sets `name` and `description` on condition `attribute_exists(id)` and answers 200.
- **delete** takes `id` and removes the item on condition `attribute_exists(id)`. It answers 200.

An empty `id` and a body that fails to decode are answered with 400. Every other failure is answered with 500. That includes an id with no item, a refused condition and an unknown HTTP method.

How it is modelled:

- `Products` defines the data: `Product`, `Item` (with `dateModified` as a 64-bit Unix time), the request, the response, and the error each path returns beside its response.
- The table is a `map<string, Item>`. Each operation is a function on values (`CreateTransition`, `ReadOutcome`, `UpdateTransition`, `DeleteTransition`). Its contract states what the operation promises.
- Each operation is also a method of the class `ProductsTable`, whose field `items` is the table. The method performs the handler's steps in order and stops at the first error. It is proved to agree with the function.
- `Handlers` holds the method switch (`Route`), the dispatcher on values (`Handle`) and the dispatcher method (`ProductsHandler`).
- `StoreHistory` replays any sequence of invocations against the table. It proves what no sequence of requests can do to the table.

What comes from outside is passed in as a parameter:

- the decoded body, as `Request.body: Option<Product>`, where `None` means the decoder returned an error;
- the uuid, as `freshId` of type `Uuid` (the 36-character text `uuid.New().String()` renders, so never empty), and the clock, as `now`;
- which AWS SDK step returns an error, as `Fault`: expression building, marshalling, the DynamoDB call itself, unmarshalling, or JSON encoding of the item read;
- whether configuration loading and client construction succeed, as two booleans.

An operation ignores a fault at a step it never reaches. For example, a read of an absent id reports not-found even when unmarshalling would have failed.

Behaviour of the code worth noting:

- The table has a single key, `id`. The query takes `Items[0]` under `Limit: 1`, so no duplicate-record error exists.
- A refused `attribute_exists(id)` condition and a read with no match are answered with 500, not a 404-class status.
- An unknown HTTP method is answered with 500.
- Update never changes `dateModified`, so the stamp is the creation time, not a last-modified time. `StoreHistory.ReplayKeepsIdentity` proves this holds over any sequence of requests.
- `handlers.go` calls `products.CreateProduct`, `ReadProduct`, `UpdateProduct` and `DeleteProduct`. Those names are not in `products.go`, which exposes `PostHandler`, `GetHandler`, `UpdateHandler` and `DeleteHandler`, each forwarding unchanged to `createProduct`, `readProduct`, `updateProduct` and `deleteProduct`. The model routes each method to that operation.

## Model

| member | source | states |
|---|---|---|
| `Products.CreateTransition` | backend/store_apis/pkg/products/products.go:52-100 | A body that fails to decode is the only 400, and it stores nothing. Success happens exactly when the body decodes and neither marshalling nor PutItem fails. On success the table gains exactly the key `freshId` (one more item when the id is new), holding `freshId`, `now` and the decoded name and description, and every other item is unchanged. The response is 201 with the creation message, and the error is nil. Any failure leaves the table as it was and returns an error. |
| `Products.PathId` | backend/store_apis/pkg/products/products.go:103-104 | A request without an `id` path parameter yields the empty id, as a Go map lookup of a missing key does, so it takes the empty-id path. A present `id` parameter is returned as it is. |
| `Products.UpdatedMessage` | backend/store_apis/pkg/products/products.go:240 | The success message of update is a fixed prefix, exactly the id, then a fixed suffix, so the id can be recovered from the response. |
| `Products.DeletedMessage` | backend/store_apis/pkg/products/products.go:291 | The success message of delete is a fixed prefix, exactly the id, then a fixed suffix, so the id can be recovered from the response. |
| `Products.CreatedMessage` | backend/store_apis/pkg/products/products.go:94-98 | The success message of create is a fixed prefix followed by exactly the new id, so the id can be recovered from the response. |
| `Products.QueryById` | backend/store_apis/pkg/products/products.go:126-134 | The key-condition query with `Limit: 1` returns at most one item. It returns one exactly when the id is stored, and that item is the one under the id. On a table keyed by id, every item it returns satisfies the key condition `id = <id>`. |
| `Products.ReadOutcome` | backend/store_apis/pkg/products/products.go:102-179 | An empty id is 400 with the empty-id error, whatever the table holds, and no other path gives 400. Without faults, a stored id gives 200 with its item and an absent id gives 500 with a not-found error naming the id. Success happens exactly when the id is non-empty and stored and no SDK step fails: a failed expression build, Query, UnmarshalMap or json.Marshal each gives 500 with an error. A success always returns the item stored under the requested id, and that item's own id equals it. A success has a nil error and a failure has an error. |
| `Products.UpdateTransition` | backend/store_apis/pkg/products/products.go:181-246 | 400 comes exactly from an empty id or an undecodable body, and the id is checked first. Success happens exactly when the id is non-empty, the body decodes, the id is stored and no SDK step fails. On success only `name` and `description` of that one item change: its id, its `dateModified`, the key set and every other item stay the same. The response is 200. An absent id without faults gives 500 with a refused-condition error and an unchanged table, never a silent success. |
| `Products.DeleteTransition` | backend/store_apis/pkg/products/products.go:248-297 | An empty id is the only 400. Success happens exactly when the id is stored and no SDK step fails. It removes exactly that key, so the table shrinks by one, and answers 200. An absent id without faults gives 500 with a refused-condition error, and the table is unchanged. |
| `Products.CreateThenRead` | backend/store_apis/pkg/products/products.go:144-178 | After a successful create, a read with the new id answers 200 with the item holding that id, the creation time and the posted name and description. |
| `Products.UpdateThenRead` | backend/store_apis/pkg/products/products.go:203-229 | After a successful update, a read of the same id shows the new name and description under the old id and `dateModified`. |
| `Products.DeleteTwice` | backend/store_apis/pkg/products/products.go:272-296 | After a successful delete, a second delete of the same id answers 500 with a refused-condition error and changes nothing, and a read answers 500 not-found. Delete is idempotent in effect but not in its response. |
| `Products.ProductsTable.CreateProduct` | backend/store_apis/pkg/products/products.go:52-100 | Performs create step by step on the table. The response, the error and the new table are those of `CreateTransition`, and the table stays keyed by id. |
| `Products.ProductsTable.ReadProduct` | backend/store_apis/pkg/products/products.go:102-179 | Performs read step by step: the empty-id check, the query, `Items[0]`, unmarshal and encode. The table is not changed, and the outcome is that of `ReadOutcome`. |
| `Products.ProductsTable.UpdateProduct` | backend/store_apis/pkg/products/products.go:181-246 | Performs update step by step on the table. The outcome and the new table are those of `UpdateTransition`, and the table stays keyed by id. |
| `Products.ProductsTable.DeleteProduct` | backend/store_apis/pkg/products/products.go:248-297 | Performs delete step by step on the table. The outcome and the new table are those of `DeleteTransition`, and the table stays keyed by id. |
| `Handlers.Route` | backend/store_apis/pkg/handlers/handlers.go:44-53 | POST, GET, PUT and DELETE each select exactly one operation: create, read, update and delete, in that order. Every other method selects none. |
| `Handlers.Handle` | backend/store_apis/pkg/handlers/handlers.go:19-61 | Every request gets one well-formed outcome. A configuration or client failure gives 500 with an error and dispatches nothing, whatever the method. Otherwise POST, GET, PUT and DELETE give exactly the create, read, update and delete outcomes. Any other method gives 500, "method not defined", an error and an unchanged table. Only a POST adds a key, and no request changes the id or `dateModified` of an item it keeps. |
| `Handlers.ProductsHandler` | backend/store_apis/pkg/handlers/handlers.go:19-61 | One invocation against the table: the outcome and the new table are those of `Handle`, and the table stays keyed by id. |
| `StoreHistory.ReplayKeepsKeyedById` | backend/store_apis/pkg/products/products.go:63-84 | Over any sequence of invocations, every item stays stored under its own id. |
| `StoreHistory.ReplayKeysComeFromCreates` | backend/store_apis/pkg/products/products.go:63-84 | After any sequence of invocations, every key was either there at the start or was stamped by one of the POST requests. |
| `StoreHistory.ReplayKeepsIdentity` | backend/store_apis/pkg/products/products.go:203-206 | An item still present after any sequence of invocations, whose id no POST reused, keeps its id and its `dateModified`: the id is assigned once, and updates touch only name and description. |
| `StoreHistory.WidgetScenario` | backend/store_apis/pkg/handlers/handlers.go:44-52 | POST widget, GET, PUT widget2, GET, DELETE, GET answer 201 (naming the id), 200 with widget, 200, 200 with widget2, 200, and finally 500 not-found. |

## Left out

- The DynamoDB client, the AWS SDK helpers (`attributevalue.MarshalMap` and `UnmarshalMap`, the `expression` builder) and the table itself. They are foreign code. The table is a map, and each call's error is a `Fault` input.
- `json.NewDecoder` and `json.Marshal`. They are library parsing and serialisation. The decode result is the `Option<Product>` in the request. The item read is returned as a `Record`, not as JSON text. The text would carry the Go field names `Id`, `DateModified`, `Name` and `Description`, because `Item` has no JSON tags.
- `uuid.New()` and `time.Now()`. They are nondeterministic, so they are the `freshId` and `now` parameters. A collision of `freshId` with a stored id is allowed, and PutItem then overwrites. The "one more item" property of create is stated for a new id only.
- `envconfig.Process`, `aws_services.NewAWS`, the `Cfg` and `AWS` types (`pkg/config`, `pkg/aws`) and `context.TODO()`. They are environment and credential I/O. Only whether loading and construction succeed is modelled.
- Logging, the `LogMessage` and `Message` fields, and the `SendOK`/`SendErr` envelope. `SendOK` and `SendErr` are not part of this model. A response is modelled as the `APIResponse` values the operations build: which builder, the status code and the data.
- `Products.UpdateTransition`: the data of a failed update is `ErrorText(UpdateFailed(id, cause))`. This stands for the error's text, whose tail is the backend's own message and is not modelled.
- `Handlers.Handle`: the data of a configuration or client failure is `ErrorText` of that failure. This stands for the library error's text, which is not modelled.
- Error text beyond the fixed prefixes. On a failed query, unmarshal or encode, `readProduct` returns the underlying error rather than the wrapped one. Only which failure occurred is modelled, so the model does not distinguish the two.
- `PostHandler`, `GetHandler`, `UpdateHandler` and `DeleteHandler`. They forward unchanged to the four operations, which the dispatcher calls directly.
- The entry points (`cmd/lambdas/products/main.go`, `functions/products/main.go`), the forwarders in `controller.go`, `ctrl.go` and `iface.go`, and the placeholder `createProduct` and `ProductsHandler` of `store_apis/main.go` and `create_product.go`. They only register or forward handlers.
- The non-empty name and description validation exercised by `products_test.go`. It belongs to a method-based revision that `products.go` does not implement.
- Read consistency: `ProductsTable.ReadProduct` and `Products.ReadOutcome` see the last completed write, because the table is a map. The Query the source issues sets no `ConsistentRead`, so DynamoDB serves it eventually consistent, and a read right after a write may still see the old state. `Products.CreateThenRead`, `Products.UpdateThenRead`, the read half of `Products.DeleteTwice` and `StoreHistory.WidgetScenario` hold only under this strongly consistent reading.
- Concurrency between invocations. Each invocation is modelled as one atomic transition of the table.
