/**
 * The products handler: load the configuration, build the AWS clients, then
 * route the request by its HTTP method to one of the four product
 * operations. Configuration loading and client construction are reduced to
 * whether they succeed.
 */
module Handlers {
  import opened Wrappers
  import opened Products

  datatype Operation = Create | Read | Update | Delete

  /** The switch on the HTTP method; None is the default branch. */
  function Route(httpMethod: string): (op: Option<Operation>)
    ensures op == Some(Create) <==> httpMethod == "POST"
    ensures op == Some(Read) <==> httpMethod == "GET"
    ensures op == Some(Update) <==> httpMethod == "PUT"
    ensures op == Some(Delete) <==> httpMethod == "DELETE"
  {
    if httpMethod == "POST" then Some(Create)
    else if httpMethod == "GET" then Some(Read)
    else if httpMethod == "PUT" then Some(Update)
    else if httpMethod == "DELETE" then Some(Delete)
    else None
  }

  /** ProductsHandler on values: every request gets exactly one outcome. */
  function Handle(items: map<string, Item>, request: Request, configLoads: bool, clientBuilds: bool,
                  freshId: Uuid, now: Int64, fault: Fault): (t: Transition)
    ensures t.outcome.WellFormed()
    // without a configuration or a client, nothing is dispatched, whatever the method
    ensures !configLoads ==> t == Transition(Fail(500, ErrorText(BadConfiguration), BadConfiguration), items)
    ensures configLoads && !clientBuilds ==> t == Transition(Fail(500, ErrorText(ClientSetupFailed), ClientSetupFailed), items)
    ensures configLoads && clientBuilds && request.httpMethod == "POST" ==>
      t == CreateTransition(items, request, freshId, now, fault)
    ensures configLoads && clientBuilds && request.httpMethod == "GET" ==>
      t == Transition(ReadOutcome(items, request, fault), items)
    ensures configLoads && clientBuilds && request.httpMethod == "PUT" ==>
      t == UpdateTransition(items, request, fault)
    ensures configLoads && clientBuilds && request.httpMethod == "DELETE" ==>
      t == DeleteTransition(items, request, fault)
    ensures request.httpMethod !in {"POST", "GET", "PUT", "DELETE"} ==>
      t.outcome.response.statusCode == 500 && t.outcome.err.Some? && t.items == items
    ensures configLoads && clientBuilds && request.httpMethod !in {"POST", "GET", "PUT", "DELETE"} ==>
      t.outcome == Fail(500, Text("method not defined"), MethodNotDefined)
    // only a create adds a key, and no request changes the id or dateModified of an item it keeps
    ensures t.items.Keys <= items.Keys + (if request.httpMethod == "POST" then {freshId} else {})
    ensures forall k :: k in items && k in t.items && (request.httpMethod == "POST" ==> k != freshId) ==>
      t.items[k].id == items[k].id && t.items[k].dateModified == items[k].dateModified
    ensures KeyedById(items) ==> KeyedById(t.items)
  {
    if !configLoads then Transition(Fail(500, ErrorText(BadConfiguration), BadConfiguration), items)
    else if !clientBuilds then Transition(Fail(500, ErrorText(ClientSetupFailed), ClientSetupFailed), items)
    else match Route(request.httpMethod)
      case Some(Create) => CreateTransition(items, request, freshId, now, fault)
      case Some(Read) => Transition(ReadOutcome(items, request, fault), items)
      case Some(Update) => UpdateTransition(items, request, fault)
      case Some(Delete) => DeleteTransition(items, request, fault)
      case None => Transition(Fail(500, Text("method not defined"), MethodNotDefined), items)
  }

  /** ProductsHandler: one invocation against the table. */
  method ProductsHandler(table: ProductsTable, request: Request, configLoads: bool, clientBuilds: bool,
                         freshId: Uuid, now: Int64, fault: Fault) returns (out: Outcome)
    requires table.Valid()
    modifies table
    ensures table.Valid()
    ensures Transition(out, table.items) == Handle(old(table.items), request, configLoads, clientBuilds, freshId, now, fault)
  {
    if !configLoads {
      out := Fail(500, ErrorText(BadConfiguration), BadConfiguration);
      return;
    }
    if !clientBuilds {
      out := Fail(500, ErrorText(ClientSetupFailed), ClientSetupFailed);
      return;
    }
    match Route(request.httpMethod)
    case Some(Create) =>
      out := table.CreateProduct(request, freshId, now, fault);
    case Some(Read) =>
      out := table.ReadProduct(request, fault);
    case Some(Update) =>
      out := table.UpdateProduct(request, fault);
    case Some(Delete) =>
      out := table.DeleteProduct(request, fault);
    case None =>
      out := Fail(500, Text("method not defined"), MethodNotDefined);
  }
}
