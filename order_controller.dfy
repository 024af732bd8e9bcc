/**
 * The REST endpoints of the order service under /api/orders: each calls
 * one service operation and turns its result into a status code and body.
 * The service state is passed in and, for the mutating endpoints, returned.
 */
module OrderController {
  import opened Wrappers
  import opened Entities
  import opened Http
  import opened OrderService

  /** GET /api/orders[?userId=]: the user's orders when a user is given, else all; always 200. */
  function GetAllOrders(c: Orders, userId: Option<Id>): (r: Response<seq<Order>>)
    requires StoreInvariant(c)
    ensures r.status == OK && r.body.Some?
    ensures userId.None? ==> forall o :: o in r.body.value <==> o.id in c.orders && c.orders[o.id] == o
    ensures userId.Some? ==> forall o :: o in r.body.value <==> o.id in c.orders && c.orders[o.id] == o && o.userId == userId.value
    ensures userId.None? ==> IdsIncreasing(r.body.value)
    ensures userId.Some? ==> multiset(r.body.value) == multiset(OfUser(AllOrders(c), userId.value))
    ensures userId.Some? ==> NewestFirst(r.body.value)
  {
    Response(OK, Some(if userId.Some? then ByUser(c, userId.value) else AllOrders(c)))
  }

  /** GET /api/orders/{id}: 200 with the order when present, else 404 without a body. */
  function GetOrderById(c: Orders, id: Id): (r: Response<Order>)
    ensures r.status == OK <==> id in c.orders
    ensures r.status == OK || r.status == NOT_FOUND
    ensures r.body.Some? <==> r.status == OK
    ensures r.body.Some? ==> r.body.value == c.orders[id]
  {
    if id in c.orders then Response(OK, Some(c.orders[id])) else Response(NOT_FOUND, None)
  }

  /** POST /api/orders: always 201 with the created order, which is PENDING and newly stored. */
  function CreateOrder(c: Orders, order: Order, now: Time): (r: (Orders, Response<Order>))
    requires StoreInvariant(c)
    ensures r.1.status == CREATED && r.1.body.Some?
    ensures r.1.body.value.status == Some(Pending)
    ensures r.1.body.value.id !in c.orders && r.1.body.value.id in r.0.orders && r.0.orders[r.1.body.value.id] == r.1.body.value
  {
    var (d, created) := Create(c, order, now);
    (d, Response(CREATED, Some(created)))
  }

  /** The value of `body.get("status")`: null when the key is absent. */
  function StatusField(body: map<string, string>): (r: Option<string>)
    ensures r.Some? <==> "status" in body
    ensures r.Some? ==> r.value == body["status"]
  {
    if "status" in body then Some(body["status"]) else None
  }

  /** PATCH /api/orders/{id}/status: 200 with the updated order when present, else 404. */
  function UpdateOrderStatus(c: Orders, id: Id, body: map<string, string>, now: Time): (r: (Orders, Response<Order>))
    ensures r.1.status == OK <==> id in c.orders
    ensures r.1.status == OK || r.1.status == NOT_FOUND
    ensures r.1.status == NOT_FOUND ==> r.0 == c && r.1.body.None?
    ensures r.1.status == OK ==> id in r.0.orders && r.1.body == Some(r.0.orders[id]) && r.0.orders[id].status == StatusField(body)
  {
    var (d, updated) := UpdateStatus(c, id, StatusField(body), now);
    (d, if updated.Some? then Response(OK, updated) else Response(NOT_FOUND, None))
  }

  /** A PATCH whose body has no "status" key clears the stored status. */
  lemma PatchWithoutStatusClears(c: Orders, id: Id, body: map<string, string>, now: Time)
    requires id in c.orders && "status" !in body
    ensures UpdateOrderStatus(c, id, body, now).0.orders[id].status.None?
  {
  }

  /** DELETE /api/orders/{id}: 204 without a body when the order was cancelled, else 400. */
  function CancelOrder(c: Orders, id: Id, now: Time): (r: (Orders, Response<()>))
    ensures r.1.status == NO_CONTENT <==> id in c.orders && c.orders[id].status == Some(Pending)
    ensures r.1.status == NO_CONTENT || r.1.status == BAD_REQUEST
    ensures r.1.body.None?
    ensures r.1.status == BAD_REQUEST ==> r.0 == c
  {
    var (d, cancelled) := Cancel(c, id, now);
    (d, if cancelled then Response(NO_CONTENT, None) else Response(BAD_REQUEST, None))
  }

  /** Deleting the same order twice: the second request is answered 400. */
  lemma DeleteTwice(c: Orders, id: Id, t1: Time, t2: Time)
    ensures CancelOrder(CancelOrder(c, id, t1).0, id, t2).1.status == BAD_REQUEST
  {
    CancelTwice(c, id, t1, t2);
  }

  /** A freshly posted order can be deleted (204), and it is then CANCELLED. */
  lemma PostThenDelete(c: Orders, order: Order, now: Time, later: Time)
    requires StoreInvariant(c)
    ensures var (d, posted) := CreateOrder(c, order, now);
      var (e, deleted) := CancelOrder(d, posted.body.value.id, later);
      deleted.status == NO_CONTENT && e.orders[posted.body.value.id].status == Some(Cancelled)
  {
  }
}
