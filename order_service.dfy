/**
 * The order service: orders by id with an id counter. New orders start
 * PENDING; only a PENDING order can be cancelled; a status update sets any
 * value without a transition check. A user's orders are listed newest first.
 */
module OrderService {
  import opened Wrappers
  import opened Entities

  const Pending := "PENDING"
  const Cancelled := "CANCELLED"

  /** The two fields of the service. */
  datatype Orders = Orders(orders: map<Id, Order>, idCounter: int)

  /** Ids run from 1 below the counter and each order is stored under its own id. */
  ghost predicate StoreInvariant(c: Orders)
  {
    c.idCounter >= 1 && forall k :: k in c.orders ==> 1 <= k < c.idCounter && c.orders[k].id == k
  }

  const Empty := Orders(map[], 1)

  /** `createOrder`: the counter's id, status PENDING, both timestamps `now`. */
  function Create(c: Orders, order: Order, now: Time): (r: (Orders, Order))
    ensures r.1 == order.(id := c.idCounter, status := Some(Pending), createdAt := now, updatedAt := now)
    ensures r.0.idCounter == c.idCounter + 1
    ensures StoreInvariant(c) ==> r.1.id !in c.orders && StoreInvariant(r.0)
    ensures r.0.orders.Keys == c.orders.Keys + {r.1.id} && r.0.orders[r.1.id] == r.1
    ensures StoreInvariant(c) ==> forall k :: k in c.orders ==> r.0.orders[k] == c.orders[k]
  {
    var created := order.(id := c.idCounter, status := Some(Pending), createdAt := now, updatedAt := now);
    (Orders(c.orders[c.idCounter := created], c.idCounter + 1), created)
  }

  /**
   * `updateOrderStatus`: a present order takes the given status (possibly
   * null) and `now` as its update time; every other order is unchanged.
   */
  function UpdateStatus(c: Orders, id: Id, status: Option<string>, now: Time): (r: (Orders, Option<Order>))
    ensures r.1.Some? <==> id in c.orders
    ensures r.1.None? ==> r.0 == c
    ensures r.0.orders.Keys == c.orders.Keys && r.0.idCounter == c.idCounter
    ensures r.1.Some? ==> r.1.value == c.orders[id].(status := status, updatedAt := now) && r.0.orders[id] == r.1.value
    ensures forall k :: k in c.orders && k != id ==> r.0.orders[k] == c.orders[k]
    ensures StoreInvariant(c) ==> StoreInvariant(r.0)
  {
    if id in c.orders then
      var updated := c.orders[id].(status := status, updatedAt := now);
      (Orders(c.orders[id := updated], c.idCounter), Some(updated))
    else (c, None)
  }

  /**
   * `cancelOrder`: true exactly when the order is present with status
   * exactly PENDING; it then becomes CANCELLED with update time `now`.
   */
  function Cancel(c: Orders, id: Id, now: Time): (r: (Orders, bool))
    ensures r.1 <==> id in c.orders && c.orders[id].status == Some(Pending)
    ensures !r.1 ==> r.0 == c
    ensures r.0.orders.Keys == c.orders.Keys && r.0.idCounter == c.idCounter
    ensures r.1 ==> r.0.orders[id] == c.orders[id].(status := Some(Cancelled), updatedAt := now)
    ensures forall k :: k in c.orders && k != id ==> r.0.orders[k] == c.orders[k]
    ensures StoreInvariant(c) ==> StoreInvariant(r.0)
  {
    if id in c.orders && c.orders[id].status == Some(Pending) then
      (Orders(c.orders[id := c.orders[id].(status := Some(Cancelled), updatedAt := now)], c.idCounter), true)
    else (c, false)
  }

  /** Cancelling twice: the second call reports false and changes nothing. */
  lemma CancelTwice(c: Orders, id: Id, t1: Time, t2: Time)
    ensures var once := Cancel(c, id, t1).0;
      !Cancel(once, id, t2).1 && Cancel(once, id, t2).0 == once
  {
    assert Pending != Cancelled by { assert Pending[0] != Cancelled[0]; }
  }

  /** No transition check: any stored order, even a cancelled one, can be set back to PENDING and cancelled again. */
  lemma ReopenThenCancel(c: Orders, id: Id, t1: Time, t2: Time)
    requires id in c.orders
    ensures Cancel(UpdateStatus(c, id, Some(Pending), t1).0, id, t2).1
  {
  }

  /** A freshly created order can be cancelled. */
  lemma CreatedOrderCancellable(c: Orders, order: Order, now: Time, later: Time)
    ensures var (d, o) := Create(c, order, now); Cancel(d, o.id, later).1
  {
  }

  /** Ids strictly increase along the list, so no order appears twice. */
  ghost predicate IdsIncreasing(s: seq<Order>)
  {
    forall i, j :: 0 <= i < j < |s| ==> s[i].id < s[j].id
  }

  /** The stored orders in ascending id order, for ids in [lo, hi). */
  function Listing(orders: map<Id, Order>, lo: int, hi: int): (r: seq<Order>)
    decreases hi - lo
  {
    if lo >= hi then []
    else (if lo in orders then [orders[lo]] else []) + Listing(orders, lo + 1, hi)
  }

  lemma {:induction false} ListingMembers(orders: map<Id, Order>, lo: int, hi: int, o: Order)
    requires forall k :: k in orders ==> orders[k].id == k
    ensures o in Listing(orders, lo, hi) <==> lo <= o.id < hi && o.id in orders && orders[o.id] == o
    decreases hi - lo
  {
    if lo < hi {
      ListingMembers(orders, lo + 1, hi, o);
    }
  }

  /** Ids in the listing strictly increase, so no order is listed twice. */
  lemma {:induction false} ListingIncreasing(orders: map<Id, Order>, lo: int, hi: int)
    requires forall k :: k in orders ==> orders[k].id == k
    ensures IdsIncreasing(Listing(orders, lo, hi))
    decreases hi - lo
  {
    if lo < hi {
      ListingIncreasing(orders, lo + 1, hi);
      var rest := Listing(orders, lo + 1, hi);
      forall i | 0 <= i < |rest| ensures lo < rest[i].id {
        ListingMembers(orders, lo + 1, hi, rest[i]);
      }
      var r := Listing(orders, lo, hi);
      if lo in orders {
        assert r == [orders[lo]] + rest;
        forall i, j | 0 <= i < j < |r| ensures r[i].id < r[j].id {
          assert r[j] == rest[j - 1];
          if i > 0 {
            assert r[i] == rest[i - 1];
          }
        }
      } else {
        assert r == rest;
      }
    }
  }

  /** The `filter` step: the orders of `userId`, in their order. */
  function OfUser(s: seq<Order>, userId: Id): (r: seq<Order>)
    ensures forall o :: o in r <==> o in s && o.userId == userId
    ensures |r| <= |s|
  {
    if s == [] then []
    else (if s[0].userId == userId then [s[0]] else []) + OfUser(s[1..], userId)
  }

  /** Newest first: creation times never increase along the list. */
  ghost predicate NewestFirst(s: seq<Order>)
  {
    forall i, j :: 0 <= i < j < |s| ==> s[i].createdAt >= s[j].createdAt
  }

  /** Insertion into a newest-first list, before the orders no newer than `o`. */
  function Insert(o: Order, s: seq<Order>): (r: seq<Order>)
    ensures multiset(r) == multiset(s) + multiset{o}
    ensures |r| == |s| + 1
  {
    if s == [] || o.createdAt >= s[0].createdAt then [o] + s
    else
      assert s == [s[0]] + s[1..];
      [s[0]] + Insert(o, s[1..])
  }

  lemma {:induction false} InsertNewestFirst(o: Order, s: seq<Order>)
    requires NewestFirst(s)
    ensures NewestFirst(Insert(o, s))
  {
    if s != [] && o.createdAt < s[0].createdAt {
      InsertNewestFirst(o, s[1..]);
      var r := Insert(o, s[1..]);
      forall x | x in r ensures s[0].createdAt >= x.createdAt {
        assert x in multiset(r);
        assert x in multiset(s[1..]) + multiset{o};
      }
    }
  }

  /** The `sorted(comparing(createdAt).reversed())` step. */
  function SortNewestFirst(s: seq<Order>): (r: seq<Order>)
    ensures multiset(r) == multiset(s)
    ensures |r| == |s|
  {
    if s == [] then []
    else
      assert s == [s[0]] + s[1..];
      Insert(s[0], SortNewestFirst(s[1..]))
  }

  lemma {:induction false} SortIsNewestFirst(s: seq<Order>)
    ensures NewestFirst(SortNewestFirst(s))
  {
    if s != [] {
      SortIsNewestFirst(s[1..]);
      InsertNewestFirst(s[0], SortNewestFirst(s[1..]));
    }
  }

  /** `getAllOrders`: every stored order (listed in ascending id order). */
  function AllOrders(c: Orders): (r: seq<Order>)
    requires StoreInvariant(c)
    ensures forall o :: o in r <==> o.id in c.orders && c.orders[o.id] == o
    ensures IdsIncreasing(r)
  {
    var r := Listing(c.orders, 1, c.idCounter);
    forall o ensures o in r <==> o.id in c.orders && c.orders[o.id] == o {
      ListingMembers(c.orders, 1, c.idCounter, o);
    }
    ListingIncreasing(c.orders, 1, c.idCounter);
    r
  }

  /** `getOrdersByUserId`: the orders of `userId`, newest first. */
  function ByUser(c: Orders, userId: Id): (r: seq<Order>)
    requires StoreInvariant(c)
    ensures multiset(r) == multiset(OfUser(AllOrders(c), userId))
    ensures forall o :: o in r <==> o.id in c.orders && c.orders[o.id] == o && o.userId == userId
    ensures NewestFirst(r)
  {
    var r := SortNewestFirst(OfUser(AllOrders(c), userId));
    SortIsNewestFirst(OfUser(AllOrders(c), userId));
    forall o ensures o in r <==> o in OfUser(AllOrders(c), userId) {
      assert o in r <==> o in multiset(r);
    }
    r
  }

  /** A new order shows up in its user's listing. */
  lemma CreatedOrderListed(c: Orders, order: Order, now: Time)
    requires StoreInvariant(c)
    ensures var (d, o) := Create(c, order, now); o in ByUser(d, order.userId)
  {
  }

  /** The service object. Orders are stored as values; see the README on aliasing. */
  class OrderStore {
    var orders: map<Id, Order>
    var idCounter: int

    function State(): Orders
      reads this
    {
      Orders(orders, idCounter)
    }

    ghost predicate Valid()
      reads this
    {
      StoreInvariant(State())
    }

    constructor()
      ensures Valid()
      ensures State() == Empty
    {
      orders := map[];
      idCounter := 1;
    }

    /** `getAllOrders`: each stored order once, in increasing id order. */
    function GetAllOrders(): (r: seq<Order>)
      requires Valid()
      reads this
      ensures r == AllOrders(State())
      ensures forall o :: o in r <==> o.id in orders && orders[o.id] == o
      ensures IdsIncreasing(r)
    {
      AllOrders(State())
    }

    /** `getOrderById`: a plain lookup. */
    function GetOrderById(id: Id): (r: Option<Order>)
      reads this
      ensures r.Some? <==> id in orders
      ensures r.Some? ==> r.value == orders[id]
    {
      if id in orders then Some(orders[id]) else None
    }

    /** `getOrdersByUserId`: the user's orders, each once, newest first. */
    function GetOrdersByUserId(userId: Id): (r: seq<Order>)
      requires Valid()
      reads this
      ensures r == ByUser(State(), userId)
      ensures multiset(r) == multiset(OfUser(GetAllOrders(), userId))
      ensures forall o :: o in r <==> o.id in orders && orders[o.id] == o && o.userId == userId
      ensures NewestFirst(r)
    {
      ByUser(State(), userId)
    }

    method CreateOrder(order: Order, now: Time) returns (created: Order)
      requires Valid()
      modifies this
      ensures Valid()
      ensures (State(), created) == Create(old(State()), order, now)
    {
      var id := idCounter;
      idCounter := idCounter + 1;
      created := order.(id := id, status := Some(Pending), createdAt := now, updatedAt := now);
      orders := orders[id := created];
    }

    method UpdateOrderStatus(id: Id, status: Option<string>, now: Time) returns (r: Option<Order>)
      requires Valid()
      modifies this
      ensures Valid()
      ensures (State(), r) == UpdateStatus(old(State()), id, status, now)
    {
      if id in orders {
        var order := orders[id].(status := status, updatedAt := now);
        orders := orders[id := order];
        return Some(order);
      }
      return None;
    }

    method CancelOrder(id: Id, now: Time) returns (cancelled: bool)
      requires Valid()
      modifies this
      ensures Valid()
      ensures (State(), cancelled) == Cancel(old(State()), id, now)
    {
      if id in orders && orders[id].status == Some(Pending) {
        orders := orders[id := orders[id].(status := Some(Cancelled), updatedAt := now)];
        return true;
      }
      return false;
    }
  }
}
