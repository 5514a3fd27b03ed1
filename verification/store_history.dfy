/**
 * The table across many invocations of the handler. Each invocation is
 * independent; what carries over is the table. These lemmas state what no
 * sequence of requests can do to it.
 */
module StoreHistory {
  import opened Wrappers
  import opened Products
  import opened Handlers

  /** One invocation of the handler, with everything its environment supplies. */
  datatype Invocation = Invocation(request: Request, configLoads: bool, clientBuilds: bool,
                                   freshId: Uuid, now: Int64, fault: Fault)

  function Invoke(items: map<string, Item>, call: Invocation): (t: Transition) {
    Handle(items, call.request, call.configLoads, call.clientBuilds, call.freshId, call.now, call.fault)
  }

  /** The table after the invocations, in order. */
  function Replay(items: map<string, Item>, calls: seq<Invocation>): (final: map<string, Item>)
    decreases |calls|
  {
    if calls == [] then items else Replay(Invoke(items, calls[0]).items, calls[1..])
  }

  /** The ids stamped by the POST requests among the invocations. */
  function CreatedIds(calls: seq<Invocation>): (ids: set<string>) {
    set c | c in calls && c.request.httpMethod == "POST" :: c.freshId
  }

  lemma CreatedIdsTail(calls: seq<Invocation>)
    requires calls != []
    ensures CreatedIds(calls[1..]) <= CreatedIds(calls)
    ensures calls[0].request.httpMethod == "POST" ==> calls[0].freshId in CreatedIds(calls)
  {
  }

  /** Every item stays stored under its own id, whatever requests arrive. */
  lemma {:induction false} ReplayKeepsKeyedById(items: map<string, Item>, calls: seq<Invocation>)
    requires KeyedById(items)
    ensures KeyedById(Replay(items, calls))
    decreases |calls|
  {
    if calls != [] {
      ReplayKeepsKeyedById(Invoke(items, calls[0]).items, calls[1..]);
    }
  }

  /** A key is only ever introduced by a create, under the id it stamped. */
  lemma {:induction false} ReplayKeysComeFromCreates(items: map<string, Item>, calls: seq<Invocation>)
    ensures Replay(items, calls).Keys <= items.Keys + CreatedIds(calls)
    decreases |calls|
  {
    if calls != [] {
      var next := Invoke(items, calls[0]).items;
      ReplayKeysComeFromCreates(next, calls[1..]);
      CreatedIdsTail(calls);
    }
  }

  /**
   * An item that is still in the table, and whose id no create reused, keeps
   * its id and its dateModified: updates change only name and description.
   */
  lemma {:induction false} ReplayKeepsIdentity(items: map<string, Item>, calls: seq<Invocation>, k: string)
    requires k in items && k in Replay(items, calls) && k !in CreatedIds(calls)
    ensures Replay(items, calls)[k].id == items[k].id
    ensures Replay(items, calls)[k].dateModified == items[k].dateModified
    decreases |calls|
  {
    if calls != [] {
      var next := Invoke(items, calls[0]).items;
      CreatedIdsTail(calls);
      ReplayKeysComeFromCreates(next, calls[1..]);
      assert k in next;
      ReplayKeepsIdentity(next, calls[1..], k);
    }
  }

  function PostRequest(product: Product): (r: Request) {
    Request("POST", map[], Some(product))
  }

  function IdRequest(httpMethod: string, id: string, body: Option<Product>): (r: Request) {
    Request(httpMethod, map["id" := id], body)
  }

  /**
   * POST a widget, GET it, PUT a new name, GET it again, DELETE it, GET it a
   * third time: 201, 200, 200, 200 with the new name, 200, then 500.
   */
  lemma WidgetScenario(items: map<string, Item>, freshId: Uuid, now: Int64)
    ensures
      var widget := Product("widget", "a thing");
      var renamed := Product("widget2", "a thing");
      var t1 := Handle(items, PostRequest(widget), true, true, freshId, now, NoFault);
      var t2 := Handle(t1.items, IdRequest("GET", freshId, None), true, true, freshId, now, NoFault);
      var t3 := Handle(t2.items, IdRequest("PUT", freshId, Some(renamed)), true, true, freshId, now, NoFault);
      var t4 := Handle(t3.items, IdRequest("GET", freshId, None), true, true, freshId, now, NoFault);
      var t5 := Handle(t4.items, IdRequest("DELETE", freshId, None), true, true, freshId, now, NoFault);
      var t6 := Handle(t5.items, IdRequest("GET", freshId, None), true, true, freshId, now, NoFault);
      && t1.outcome.response.statusCode == 201
      && t1.outcome.response.data == Text(CreatedMessage(freshId))
      && t2.outcome == Succeed(200, Record(Item(freshId, now, "widget", "a thing")))
      && t3.outcome.response.statusCode == 200
      && t4.outcome == Succeed(200, Record(Item(freshId, now, "widget2", "a thing")))
      && t5.outcome.response.statusCode == 200
      && t6.outcome == Fail(500, Text(""), NotFound(freshId))
  {
  }
}
