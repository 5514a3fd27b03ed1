/**
 * The product request pipeline of the store's products package: the four
 * operations create, read, update and delete over a DynamoDB table of items
 * whose key attribute is `id`.
 *
 * The table is a map from id to item. What the pipeline obtains from outside
 * is passed in: the result of decoding the JSON body (`Request.body`), the
 * uuid that create stamps (`freshId`), the clock (`now`), and which step of
 * the AWS SDK, if any, reports an error (`Fault`).
 *
 * Each operation is given twice: as a function on values (the specification,
 * whose contract states what the operation promises) and as a method of
 * `ProductsTable` that performs the steps in the order the handler does and
 * is proved to agree with that function.
 */
module Products {
  import opened Wrappers

  /** A 64-bit signed integer, the type of `Item.DateModified`. */
  type Int64 = x: int | -0x8000_0000_0000_0000 <= x < 0x8000_0000_0000_0000

  /** The canonical text of a random uuid, as uuid.New().String() renders it: 36 characters. */
  type Uuid = s: string | |s| == 36 witness "00000000-0000-0000-0000-000000000000"

  /** The body of a create or update request. */
  datatype Product = Product(name: string, description: string)

  /** A stored item; `dateModified` is a Unix time in seconds. */
  datatype Item = Item(id: string, dateModified: Int64, name: string, description: string)

  /**
   * An API Gateway proxy request, reduced to what the pipeline looks at.
   * `body` is what decoding the JSON body into a Product gives: None when
   * the decoder reports an error.
   */
  datatype Request = Request(httpMethod: string, pathParameters: map<string, string>, body: Option<Product>)

  /** Which external step of an invocation reports an error, if any. */
  datatype Fault =
    | NoFault
    | ExpressionFault   // Build of the expression builder
    | MarshalFault      // attributevalue.MarshalMap of the new item
    | BackendFault      // the DynamoDB call itself: PutItem, Query, UpdateItem or DeleteItem
    | UnmarshalFault    // attributevalue.UnmarshalMap of the first query result
    | EncodeFault       // json.Marshal of the item read

  /** Why a conditional UpdateItem or DeleteItem reported an error. */
  datatype StoreCause =
    | ConditionalCheckFailed  // attribute_exists(id) was false: no item has that id
    | BackendFailure

  /** The errors returned beside a response, with the fixed part of their text. */
  datatype Failure =
    | EmptyId                                      // "empty id on path params"
    | DecodeFailed                                 // "error decoding request body: ..."
    | MarshalFailed                                // "error mapping attribute values: ..."
    | PutFailed                                    // "error putting item: ..."
    | QueryBuildFailed                             // "error building query expression: ..."
    | QueryFailed                                  // the error of Query itself
    | NotFound(id: string)                         // "no entries found with id: <id>"
    | UnmarshalFailed                              // the error of UnmarshalMap itself
    | EncodeFailed                                 // the error of json.Marshal itself
    | UpdateBuildFailed                            // "error building update expression: ..."
    | UpdateFailed(id: string, cause: StoreCause)  // "error updating item with id: <id>. error: ..."
    | ConditionBuildFailed                         // "error building condition expression: ..."
    | DeleteFailed(id: string, cause: StoreCause)  // "error deleting item with id: <id>"
    | BadConfiguration                             // the error of envconfig.Process
    | ClientSetupFailed                            // the error of aws_services.NewAWS
    | MethodNotDefined                             // "method not defined"

  /** SendOK or SendErr: which of the two response builders made the response. */
  datatype Kind = Ok | Err

  /** The Data of a response: a message, the item read, or the text of an error. */
  datatype Data = Text(text: string) | Record(item: Item) | ErrorText(failure: Failure)

  datatype APIResponse = APIResponse(kind: Kind, statusCode: int, data: Data)

  /** What an operation gives back: the response and the error beside it (None is nil). */
  datatype Outcome = Outcome(response: APIResponse, err: Option<Failure>) {
    predicate Succeeded() {
      response.kind == Ok
    }

    /** A success carries a nil error and 200 or 201; a failure carries an error and 400 or 500. */
    predicate WellFormed() {
      && (response.kind == Ok <==> err.None?)
      && (response.kind == Ok ==> response.statusCode == 200 || response.statusCode == 201)
      && (response.kind == Err ==> response.statusCode == 400 || response.statusCode == 500)
    }
  }

  /** An outcome together with the table after the operation. */
  datatype Transition = Transition(outcome: Outcome, items: map<string, Item>)

  function Succeed(statusCode: int, data: Data): (o: Outcome) {
    Outcome(APIResponse(Ok, statusCode, data), None)
  }

  function Fail(statusCode: int, data: Data, failure: Failure): (o: Outcome) {
    Outcome(APIResponse(Err, statusCode, data), Some(failure))
  }

  /** The `id` path parameter; a missing key reads as "", the zero value of a Go map lookup. */
  function PathId(request: Request): (id: string)
    ensures "id" !in request.pathParameters ==> id == ""
    ensures "id" in request.pathParameters ==> id == request.pathParameters["id"]
  {
    if "id" in request.pathParameters then request.pathParameters["id"] else ""
  }

  /** Every item is stored under its own id: `id` is the table's key attribute. */
  ghost predicate KeyedById(items: map<string, Item>) {
    forall k :: k in items ==> items[k].id == k
  }

  const CreatedPrefix: string := "successfully created product with id: "

  /** The message of a successful create: the new id is exactly what follows a fixed prefix. */
  function CreatedMessage(id: string): (msg: string)
    ensures |CreatedPrefix| <= |msg|
    ensures msg[..|CreatedPrefix|] == CreatedPrefix && msg[|CreatedPrefix|..] == id
  {
    CreatedPrefix + id
  }

  const IdPrefix: string := "product with id: "
  const UpdatedSuffix: string := ", was successfully updated"
  const DeletedSuffix: string := ", was successfully deleted"

  /** The message of a successful update: the id sits between a fixed prefix and a fixed suffix. */
  function UpdatedMessage(id: string): (msg: string)
    ensures |msg| == |IdPrefix| + |id| + |UpdatedSuffix|
    ensures msg[..|IdPrefix|] == IdPrefix && msg[|msg| - |UpdatedSuffix|..] == UpdatedSuffix
    ensures msg[|IdPrefix|..|msg| - |UpdatedSuffix|] == id
  {
    IdPrefix + id + UpdatedSuffix
  }

  /** The message of a successful delete: the id sits between a fixed prefix and a fixed suffix. */
  function DeletedMessage(id: string): (msg: string)
    ensures |msg| == |IdPrefix| + |id| + |DeletedSuffix|
    ensures msg[..|IdPrefix|] == IdPrefix && msg[|msg| - |DeletedSuffix|..] == DeletedSuffix
    ensures msg[|IdPrefix|..|msg| - |DeletedSuffix|] == id
  {
    IdPrefix + id + DeletedSuffix
  }

  /**
   * createProduct: decode the body, build the item with a fresh id and the
   * current time, put it unconditionally.
   */
  function CreateTransition(items: map<string, Item>, request: Request, freshId: Uuid, now: Int64, fault: Fault): (t: Transition)
    ensures t.outcome.WellFormed()
    // a body that does not decode is the one client error, and nothing is stored
    ensures t.outcome.response.statusCode == 400 <==> request.body.None?
    ensures request.body.None? ==> t.outcome.err == Some(DecodeFailed)
    ensures t.outcome.Succeeded() <==> request.body.Some? && fault != MarshalFault && fault != BackendFault
    ensures !t.outcome.Succeeded() ==> t.items == items
    ensures t.outcome.Succeeded() ==>
      && t.outcome.response == APIResponse(Ok, 201, Text(CreatedMessage(freshId)))
      && t.items.Keys == items.Keys + {freshId}
      && t.items[freshId] == Item(freshId, now, request.body.value.name, request.body.value.description)
      && (forall k :: k in items && k != freshId ==> t.items[k] == items[k])
    ensures t.outcome.Succeeded() && freshId !in items ==> |t.items| == |items| + 1
    ensures KeyedById(items) ==> KeyedById(t.items)
  {
    match request.body
    case None => Transition(Fail(400, Text(""), DecodeFailed), items)
    case Some(product) =>
      if fault == MarshalFault then Transition(Fail(500, Text(""), MarshalFailed), items)
      else if fault == BackendFault then Transition(Fail(500, Text(""), PutFailed), items)
      else
        var item := Item(freshId, now, product.name, product.description);
        Transition(Succeed(201, Text(CreatedMessage(item.id))), items[item.id := item])
  }

  /**
   * The result of the key-condition query `id = <id>` with Limit 1: at most
   * one item, since the table holds one item per key.
   */
  function QueryById(items: map<string, Item>, id: string): (found: seq<Item>)
    ensures |found| <= 1
    ensures |found| == 1 <==> id in items
    ensures |found| == 1 ==> found[0] == items[id]
    // on a table keyed by id, whatever the query returns satisfies its key condition
    ensures KeyedById(items) ==> forall x :: x in found ==> x.id == id
  {
    if id in items then [items[id]] else []
  }

  /**
   * readProduct: query by id, take the first match, return it as the data.
   * An id with no match is a server error (500), not a not-found status.
   */
  function ReadOutcome(items: map<string, Item>, request: Request, fault: Fault): (o: Outcome)
    ensures o.WellFormed()
    // whatever the table holds, an empty id is the one client error
    ensures o.response.statusCode == 400 <==> PathId(request) == ""
    ensures PathId(request) == "" ==> o.err == Some(EmptyId)
    ensures o.Succeeded() ==>
      && PathId(request) in items
      && o.response == APIResponse(Ok, 200, Record(items[PathId(request)]))
    ensures PathId(request) != "" && fault == NoFault ==>
      o == if PathId(request) in items then Succeed(200, Record(items[PathId(request)]))
           else Fail(500, Text(""), NotFound(PathId(request)))
    // no failing SDK step is swallowed: each one turns the read into an error
    ensures o.Succeeded() <==>
      PathId(request) != "" && PathId(request) in items
      && fault != ExpressionFault && fault != BackendFault && fault != UnmarshalFault && fault != EncodeFault
    ensures PathId(request) != "" && !o.Succeeded() ==> o.response.statusCode == 500 && o.err.Some?
    ensures KeyedById(items) && o.Succeeded() ==> o.response.data.item.id == PathId(request)
  {
    var id := PathId(request);
    if |id| == 0 then Fail(400, Text(""), EmptyId)
    else if fault == ExpressionFault then Fail(500, Text(""), QueryBuildFailed)
    else if fault == BackendFault then Fail(500, Text(""), QueryFailed)
    else
      var found := QueryById(items, id);
      if |found| == 0 then Fail(500, Text(""), NotFound(id))
      else if fault == UnmarshalFault then Fail(500, Text(""), UnmarshalFailed)
      else if fault == EncodeFault then Fail(500, Text(""), EncodeFailed)
      else Succeed(200, Record(found[0]))
  }

  /**
   * updateProduct: set `name` and `description` of the item keyed by id,
   * on condition attribute_exists(id). The id is checked before the body is
   * decoded.
   */
  function UpdateTransition(items: map<string, Item>, request: Request, fault: Fault): (t: Transition)
    ensures t.outcome.WellFormed()
    ensures t.outcome.response.statusCode == 400 <==> PathId(request) == "" || request.body.None?
    ensures PathId(request) == "" ==> t.outcome.err == Some(EmptyId)
    ensures PathId(request) != "" && request.body.None? ==> t.outcome.err == Some(DecodeFailed)
    ensures t.outcome.Succeeded() <==>
      PathId(request) != "" && request.body.Some? && PathId(request) in items
      && fault != ExpressionFault && fault != BackendFault
    ensures !t.outcome.Succeeded() ==> t.items == items
    // the condition makes an update of an absent id an error, never a silent success
    ensures PathId(request) != "" && request.body.Some? && PathId(request) !in items && fault == NoFault ==>
      var failure := UpdateFailed(PathId(request), ConditionalCheckFailed);
      t.outcome == Fail(500, ErrorText(failure), failure)
    ensures t.outcome.Succeeded() ==>
      var id := PathId(request);
      && t.outcome.response == APIResponse(Ok, 200, Text(UpdatedMessage(id)))
      && t.items.Keys == items.Keys
      && t.items[id] == items[id].(name := request.body.value.name, description := request.body.value.description)
      && (forall k :: k in items && k != id ==> t.items[k] == items[k])
    ensures KeyedById(items) ==> KeyedById(t.items)
  {
    var id := PathId(request);
    if |id| == 0 then Transition(Fail(400, Text(""), EmptyId), items)
    else match request.body
      case None => Transition(Fail(400, Text(""), DecodeFailed), items)
      case Some(product) =>
        if fault == ExpressionFault then Transition(Fail(500, Text(""), UpdateBuildFailed), items)
        else if fault == BackendFault then
          Transition(Fail(500, ErrorText(UpdateFailed(id, BackendFailure)), UpdateFailed(id, BackendFailure)), items)
        else if id !in items then
          Transition(Fail(500, ErrorText(UpdateFailed(id, ConditionalCheckFailed)), UpdateFailed(id, ConditionalCheckFailed)), items)
        else
          var updated := items[id].(name := product.name, description := product.description);
          Transition(Succeed(200, Text(UpdatedMessage(id))), items[id := updated])
  }

  /** deleteProduct: remove the item keyed by id, on condition attribute_exists(id). */
  function DeleteTransition(items: map<string, Item>, request: Request, fault: Fault): (t: Transition)
    ensures t.outcome.WellFormed()
    ensures t.outcome.response.statusCode == 400 <==> PathId(request) == ""
    ensures PathId(request) == "" ==> t.outcome.err == Some(EmptyId)
    ensures t.outcome.Succeeded() <==>
      PathId(request) != "" && PathId(request) in items && fault != ExpressionFault && fault != BackendFault
    ensures !t.outcome.Succeeded() ==> t.items == items
    ensures PathId(request) != "" && PathId(request) !in items && fault == NoFault ==>
      t.outcome == Fail(500, Text(""), DeleteFailed(PathId(request), ConditionalCheckFailed))
    ensures t.outcome.Succeeded() ==>
      && t.outcome.response == APIResponse(Ok, 200, Text(DeletedMessage(PathId(request))))
      && t.items == items - {PathId(request)}
      && |t.items| == |items| - 1
    ensures KeyedById(items) ==> KeyedById(t.items)
  {
    var id := PathId(request);
    if |id| == 0 then Transition(Fail(400, Text(""), EmptyId), items)
    else if fault == ExpressionFault then Transition(Fail(500, Text(""), ConditionBuildFailed), items)
    else if fault == BackendFault then Transition(Fail(500, Text(""), DeleteFailed(id, BackendFailure)), items)
    else if id !in items then Transition(Fail(500, Text(""), DeleteFailed(id, ConditionalCheckFailed)), items)
    else Transition(Succeed(200, Text(DeletedMessage(id))), items - {id})
  }

  /** Creating and then reading by the new id gives back the stored name and description. */
  lemma CreateThenRead(items: map<string, Item>, create: Request, freshId: Uuid, now: Int64, fault: Fault, read: Request)
    requires PathId(read) == freshId
    requires CreateTransition(items, create, freshId, now, fault).outcome.Succeeded()
    ensures
      var after := CreateTransition(items, create, freshId, now, fault).items;
      ReadOutcome(after, read, NoFault)
        == Succeed(200, Record(Item(freshId, now, create.body.value.name, create.body.value.description)))
  {
  }

  /** After a successful update a read shows the new fields, under the same id and dateModified. */
  lemma UpdateThenRead(items: map<string, Item>, update: Request, fault: Fault, read: Request)
    requires PathId(read) == PathId(update)
    requires UpdateTransition(items, update, fault).outcome.Succeeded()
    ensures
      var id := PathId(update);
      var after := UpdateTransition(items, update, fault).items;
      ReadOutcome(after, read, NoFault)
        == Succeed(200, Record(Item(items[id].id, items[id].dateModified, update.body.value.name, update.body.value.description)))
  {
  }

  /**
   * Delete is idempotent in effect but not in response: after a successful
   * delete, a second delete of the same id fails with 500 and a read finds
   * nothing.
   */
  lemma DeleteTwice(items: map<string, Item>, request: Request, fault: Fault, again: Request)
    requires PathId(again) == PathId(request)
    requires DeleteTransition(items, request, fault).outcome.Succeeded()
    ensures
      var id := PathId(request);
      var after := DeleteTransition(items, request, fault).items;
      && DeleteTransition(after, again, NoFault)
           == Transition(Fail(500, Text(""), DeleteFailed(id, ConditionalCheckFailed)), after)
      && ReadOutcome(after, again, NoFault) == Fail(500, Text(""), NotFound(id))
  {
  }

  /**
   * The products table. `items` stands for the DynamoDB table; each method
   * performs one handler's steps in order and returns at its first error.
   */
  class ProductsTable {
    var items: map<string, Item>

    ghost predicate Valid()
      reads this
    {
      KeyedById(items)
    }

    constructor (initial: map<string, Item>)
      requires KeyedById(initial)
      ensures Valid() && items == initial
    {
      items := initial;
    }

    method CreateProduct(request: Request, freshId: Uuid, now: Int64, fault: Fault) returns (out: Outcome)
      requires Valid()
      modifies this
      ensures Valid()
      ensures Transition(out, items) == CreateTransition(old(items), request, freshId, now, fault)
    {
      if request.body.None? {
        out := Fail(400, Text(""), DecodeFailed);
        return;
      }
      var product := request.body.value;
      var item := Item(freshId, now, product.name, product.description);
      if fault == MarshalFault {
        out := Fail(500, Text(""), MarshalFailed);
        return;
      }
      if fault == BackendFault {
        out := Fail(500, Text(""), PutFailed);
        return;
      }
      items := items[item.id := item];
      out := Succeed(201, Text(CreatedMessage(item.id)));
    }

    method ReadProduct(request: Request, fault: Fault) returns (out: Outcome)
      ensures out == ReadOutcome(items, request, fault)
    {
      var id := PathId(request);
      if |id| == 0 {
        out := Fail(400, Text(""), EmptyId);
        return;
      }
      if fault == ExpressionFault {
        out := Fail(500, Text(""), QueryBuildFailed);
        return;
      }
      if fault == BackendFault {
        out := Fail(500, Text(""), QueryFailed);
        return;
      }
      var found := QueryById(items, id);
      if |found| == 0 {
        out := Fail(500, Text(""), NotFound(id));
        return;
      }
      var item := found[0];
      if fault == UnmarshalFault {
        out := Fail(500, Text(""), UnmarshalFailed);
        return;
      }
      if fault == EncodeFault {
        out := Fail(500, Text(""), EncodeFailed);
        return;
      }
      out := Succeed(200, Record(item));
    }

    method UpdateProduct(request: Request, fault: Fault) returns (out: Outcome)
      requires Valid()
      modifies this
      ensures Valid()
      ensures Transition(out, items) == UpdateTransition(old(items), request, fault)
    {
      var id := PathId(request);
      if |id| == 0 {
        out := Fail(400, Text(""), EmptyId);
        return;
      }
      if request.body.None? {
        out := Fail(400, Text(""), DecodeFailed);
        return;
      }
      var product := request.body.value;
      if fault == ExpressionFault {
        out := Fail(500, Text(""), UpdateBuildFailed);
        return;
      }
      // UpdateItem with ConditionExpression attribute_exists(id)
      if fault == BackendFault || id !in items {
        var failure := UpdateFailed(id, if fault == BackendFault then BackendFailure else ConditionalCheckFailed);
        out := Fail(500, ErrorText(failure), failure);
        return;
      }
      items := items[id := items[id].(name := product.name, description := product.description)];
      out := Succeed(200, Text(UpdatedMessage(id)));
    }

    method DeleteProduct(request: Request, fault: Fault) returns (out: Outcome)
      requires Valid()
      modifies this
      ensures Valid()
      ensures Transition(out, items) == DeleteTransition(old(items), request, fault)
    {
      var id := PathId(request);
      if |id| == 0 {
        out := Fail(400, Text(""), EmptyId);
        return;
      }
      if fault == ExpressionFault {
        out := Fail(500, Text(""), ConditionBuildFailed);
        return;
      }
      // DeleteItem with ConditionExpression attribute_exists(id)
      if fault == BackendFault || id !in items {
        out := Fail(500, Text(""), DeleteFailed(id, if fault == BackendFault then BackendFailure else ConditionalCheckFailed));
        return;
      }
      items := items - {id};
      out := Succeed(200, Text(DeletedMessage(id)));
    }
  }
}
