/**
 * The shopping cart of the application root: the lines, the two
 * operations that produce a new cart (`addToCart`, `updateQuantity`)
 * and the reductions over it (item count, subtotal).
 */
module Cart {
  import opened Wrappers
  import opened Entities

  /** A cart line: the product's own fields (`{ ...product }`) plus a quantity. */
  datatype CartLine = CartLine(item: Product, quantity: int)

  /** Some line carries `id` (`cart.find(item => item.id === id)` finds one). */
  predicate InCart(cart: seq<CartLine>, id: Id)
  {
    exists i :: 0 <= i < |cart| && cart[i].item.id == id
  }

  /** The cart invariant: line ids are pairwise distinct and every quantity is at least 1. */
  ghost predicate WellFormed(cart: seq<CartLine>)
  {
    && (forall i, j :: 0 <= i < j < |cart| ==> cart[i].item.id != cart[j].item.id)
    && (forall i :: 0 <= i < |cart| ==> cart[i].quantity >= 1)
  }

  /**
   * `addToCart(product)`: a product already in the cart has its line's
   * quantity raised by one; otherwise a line with quantity 1 is appended.
   * The product's stock plays no part.
   */
  function AddToCart(cart: seq<CartLine>, product: Product): (r: seq<CartLine>)
    ensures |r| == |cart| + (if InCart(cart, product.id) then 0 else 1)
    ensures forall i :: 0 <= i < |cart| ==> r[i].item == cart[i].item
    ensures forall i :: 0 <= i < |cart| ==>
      r[i].quantity == cart[i].quantity + (if cart[i].item.id == product.id then 1 else 0)
    ensures !InCart(cart, product.id) ==> r[|cart|] == CartLine(product, 1)
    ensures InCart(r, product.id)
    ensures WellFormed(cart) ==> WellFormed(r)
  {
    if InCart(cart, product.id) then
      seq(|cart|, i requires 0 <= i < |cart| =>
        if cart[i].item.id == product.id then cart[i].(quantity := cart[i].quantity + 1) else cart[i])
    else
      assert (cart + [CartLine(product, 1)])[|cart|].item.id == product.id;
      cart + [CartLine(product, 1)]
  }

  /** `cart.filter(item => item.id !== id)`. */
  function RemoveLine(cart: seq<CartLine>, id: Id): (r: seq<CartLine>)
    ensures |r| <= |cart|
  {
    if cart == [] then []
    else if cart[0].item.id == id then RemoveLine(cart[1..], id)
    else [cart[0]] + RemoveLine(cart[1..], id)
  }

  /** Removal keeps exactly the lines whose id differs. */
  lemma {:induction false} RemoveLineMembers(cart: seq<CartLine>, id: Id)
    ensures forall l :: l in RemoveLine(cart, id) <==> l in cart && l.item.id != id
  {
    if cart != [] {
      RemoveLineMembers(cart[1..], id);
      assert cart == [cart[0]] + cart[1..];
    }
  }

  lemma WellFormedTail(cart: seq<CartLine>)
    requires WellFormed(cart) && cart != []
    ensures WellFormed(cart[1..])
  {
    var t := cart[1..];
    forall i, j | 0 <= i < j < |t| ensures t[i].item.id != t[j].item.id {
      assert t[i] == cart[i + 1] && t[j] == cart[j + 1];
    }
    forall i | 0 <= i < |t| ensures t[i].quantity >= 1 {
      assert t[i] == cart[i + 1];
    }
  }

  /** Removal keeps the cart invariant. */
  lemma {:induction false} RemoveLineWellFormed(cart: seq<CartLine>, id: Id)
    requires WellFormed(cart)
    ensures WellFormed(RemoveLine(cart, id))
  {
    if cart != [] {
      WellFormedTail(cart);
      RemoveLineWellFormed(cart[1..], id);
      var rest := RemoveLine(cart[1..], id);
      if cart[0].item.id != id {
        RemoveLineMembers(cart[1..], id);
        forall l | l in rest ensures l.item.id != cart[0].item.id && l.quantity >= 1 {
          var j :| 0 <= j < |cart[1..]| && cart[1..][j] == l;
          assert cart[j + 1] == l;
        }
        var r := [cart[0]] + rest;
        forall i, j | 0 <= i < j < |r| ensures r[i].item.id != r[j].item.id {
          assert r[j] == rest[j - 1];
          assert r[j] in rest;
          if i > 0 {
            assert r[i] == rest[i - 1];
          }
        }
        forall i | 0 <= i < |r| ensures r[i].quantity >= 1 {
          if i > 0 {
            assert r[i] == rest[i - 1];
            assert r[i] in rest;
          }
        }
      }
    }
  }

  /** No line of `cart` carries `id`. */
  lemma NotInCartTail(cart: seq<CartLine>, id: Id)
    requires cart != [] && !InCart(cart, id)
    ensures !InCart(cart[1..], id)
  {
    forall i | 0 <= i < |cart[1..]| ensures cart[1..][i].item.id != id {
      assert cart[1..][i] == cart[i + 1];
    }
  }

  lemma {:induction false} RemoveAbsent(cart: seq<CartLine>, id: Id)
    requires !InCart(cart, id)
    ensures RemoveLine(cart, id) == cart
  {
    if cart != [] {
      assert cart[0].item.id != id;
      NotInCartTail(cart, id);
      RemoveAbsent(cart[1..], id);
      assert cart == [cart[0]] + cart[1..];
    }
  }

  /** On a well-formed cart, removing the line at `k` keeps every other line, in order. */
  lemma {:induction false} RemoveLineAt(cart: seq<CartLine>, k: nat)
    requires WellFormed(cart)
    requires k < |cart|
    ensures RemoveLine(cart, cart[k].item.id) == cart[..k] + cart[k + 1..]
  {
    var id := cart[k].item.id;
    var t := cart[1..];
    if k == 0 {
      forall i | 0 <= i < |t| ensures t[i].item.id != id {
        assert t[i] == cart[i + 1];
      }
      RemoveAbsent(t, id);
    } else {
      assert cart[0].item.id != id;
      WellFormedTail(cart);
      assert t[k - 1] == cart[k];
      RemoveLineAt(t, k - 1);
      assert t[..k - 1] + t[k..] == cart[1..k] + cart[k + 1..];
      assert [cart[0]] + cart[1..k] == cart[..k];
    }
  }

  /**
   * `updateQuantity(productId, quantity)`: a quantity of zero or less
   * removes the line; otherwise the line's quantity becomes exactly
   * `quantity`.
   */
  function UpdateQuantity(cart: seq<CartLine>, productId: Id, quantity: int): (r: seq<CartLine>)
    ensures quantity <= 0 ==> !InCart(r, productId)
    ensures quantity <= 0 ==> forall l :: l in r <==> l in cart && l.item.id != productId
    ensures quantity > 0 ==> |r| == |cart|
    ensures quantity > 0 ==> forall i :: 0 <= i < |cart| ==>
      r[i] == (if cart[i].item.id == productId then CartLine(cart[i].item, quantity) else cart[i])
    ensures !InCart(cart, productId) ==> r == cart
    ensures WellFormed(cart) ==> WellFormed(r)
  {
    if quantity <= 0 then
      var r := RemoveLine(cart, productId);
      RemoveLineMembers(cart, productId);
      assert !InCart(r, productId) by {
        forall i | 0 <= i < |r| ensures r[i].item.id != productId {
          assert r[i] in r;
        }
      }
      assert !InCart(cart, productId) ==> r == cart by {
        if !InCart(cart, productId) {
          RemoveAbsent(cart, productId);
        }
      }
      assert WellFormed(cart) ==> WellFormed(r) by {
        if WellFormed(cart) {
          RemoveLineWellFormed(cart, productId);
        }
      }
      r
    else
      seq(|cart|, i requires 0 <= i < |cart| =>
        if cart[i].item.id == productId then cart[i].(quantity := quantity) else cart[i])
  }

  /** On a well-formed cart, a positive quantity replaces exactly the quantity of line `k`. */
  lemma SetQuantityAt(cart: seq<CartLine>, k: nat, quantity: int)
    requires WellFormed(cart) && k < |cart|
    requires quantity > 0
    ensures UpdateQuantity(cart, cart[k].item.id, quantity) == cart[k := CartLine(cart[k].item, quantity)]
  {
    var r := UpdateQuantity(cart, cart[k].item.id, quantity);
    var e := cart[k := CartLine(cart[k].item, quantity)];
    forall i | 0 <= i < |r| ensures r[i] == e[i] {
      if i != k {
        assert cart[i].item.id != cart[k].item.id;
      }
    }
  }

  /** `cart.reduce((sum, item) => sum + item.quantity, 0)`: the navbar count. */
  function ItemCount(cart: seq<CartLine>): (n: int)
    ensures (forall i :: 0 <= i < |cart| ==> cart[i].quantity >= 0) ==> n >= 0
    ensures cart == [] ==> n == 0
  {
    if cart == [] then 0 else ItemCount(cart[..|cart| - 1]) + cart[|cart| - 1].quantity
  }

  /** `cart.reduce((sum, item) => sum + item.price * item.quantity, 0)`. */
  function Subtotal(cart: seq<CartLine>): (r: real)
    ensures (forall i :: 0 <= i < |cart| ==> cart[i].item.price >= 0.0 && cart[i].quantity >= 0) ==> r >= 0.0
    ensures cart == [] ==> r == 0.0
  {
    if cart == [] then 0.0
    else Subtotal(cart[..|cart| - 1]) + cart[|cart| - 1].item.price * cart[|cart| - 1].quantity as real
  }

  /** Changing the quantity of one line changes the count by the difference. */
  lemma {:induction false} ItemCountUpdate(a: seq<CartLine>, b: seq<CartLine>, k: nat)
    requires |a| == |b| && k < |a|
    requires forall i :: 0 <= i < |a| && i != k ==> a[i].quantity == b[i].quantity
    ensures ItemCount(b) == ItemCount(a) - a[k].quantity + b[k].quantity
    decreases |a|
  {
    var n := |a| - 1;
    if k == n {
      ItemCountSame(a[..n], b[..n]);
    } else {
      ItemCountUpdate(a[..n], b[..n], k);
    }
  }

  lemma {:induction false} ItemCountSame(a: seq<CartLine>, b: seq<CartLine>)
    requires |a| == |b|
    requires forall i :: 0 <= i < |a| ==> a[i].quantity == b[i].quantity
    ensures ItemCount(a) == ItemCount(b)
    decreases |a|
  {
    if a != [] {
      ItemCountSame(a[..|a| - 1], b[..|b| - 1]);
    }
  }

  /** With every quantity at least one, the count is at least the number of lines, and zero only for the empty cart. */
  lemma {:induction false} ItemCountAtLeastLines(cart: seq<CartLine>)
    requires forall i :: 0 <= i < |cart| ==> cart[i].quantity >= 1
    ensures ItemCount(cart) >= |cart|
    ensures ItemCount(cart) == 0 <==> cart == []
    decreases |cart|
  {
    if cart != [] {
      ItemCountAtLeastLines(cart[..|cart| - 1]);
    }
  }

  /** Appending a line adds its quantity to the count. */
  lemma ItemCountAppend(cart: seq<CartLine>, line: CartLine)
    ensures ItemCount(cart + [line]) == ItemCount(cart) + line.quantity
  {
    assert (cart + [line])[..|cart|] == cart;
  }

  /** On a well-formed cart, adding a product already present bumps exactly its line by one. */
  lemma AddExisting(cart: seq<CartLine>, product: Product, k: nat)
    requires WellFormed(cart)
    requires k < |cart| && cart[k].item.id == product.id
    ensures AddToCart(cart, product) == cart[k := CartLine(cart[k].item, cart[k].quantity + 1)]
  {
    var r := AddToCart(cart, product);
    var e := cart[k := CartLine(cart[k].item, cart[k].quantity + 1)];
    assert |r| == |e|;
    forall i | 0 <= i < |r| ensures r[i] == e[i] {
      if i != k {
        assert cart[i].item.id != product.id;
      }
    }
  }

  /** On a well-formed cart, every `addToCart` raises the navbar count by exactly one. */
  lemma AddIncrementsCount(cart: seq<CartLine>, product: Product)
    requires WellFormed(cart)
    ensures ItemCount(AddToCart(cart, product)) == ItemCount(cart) + 1
  {
    if InCart(cart, product.id) {
      var k :| 0 <= k < |cart| && cart[k].item.id == product.id;
      AddExisting(cart, product, k);
      ItemCountUpdate(cart, AddToCart(cart, product), k);
    } else {
      ItemCountAppend(cart, CartLine(product, 1));
    }
  }

  /** The cart operations, as events. */
  datatype CartEvent = Add(product: Product) | SetQuantity(productId: Id, quantity: int)

  function Apply(cart: seq<CartLine>, e: CartEvent): seq<CartLine>
  {
    match e
    case Add(p) => AddToCart(cart, p)
    case SetQuantity(id, q) => UpdateQuantity(cart, id, q)
  }

  /** The cart after `events`, applied in order. */
  function Replay(cart: seq<CartLine>, events: seq<CartEvent>): seq<CartLine>
    decreases |events|
  {
    if events == [] then cart else Replay(Apply(cart, events[0]), events[1..])
  }

  /** From the initial empty cart, every sequence of operations keeps the cart invariant. */
  lemma {:induction false} ReplayKeepsWellFormed(cart: seq<CartLine>, events: seq<CartEvent>)
    requires WellFormed(cart)
    ensures WellFormed(Replay(cart, events))
    decreases |events|
  {
    if events != [] {
      ReplayKeepsWellFormed(Apply(cart, events[0]), events[1..]);
    }
  }

  function Adds(product: Product, n: nat): seq<CartEvent>
  {
    seq(n, i => Add(product))
  }

  lemma {:induction false} AddsFromLine(product: Product, m: int, n: nat)
    ensures Replay([CartLine(product, m)], Adds(product, n)) == [CartLine(product, m + n)]
    decreases n
  {
    if n > 0 {
      assert Adds(product, n)[0] == Add(product);
      assert Adds(product, n)[1..] == Adds(product, n - 1);
      assert [CartLine(product, m)][0].item.id == product.id;
      assert AddToCart([CartLine(product, m)], product) == [CartLine(product, m + 1)];
      AddsFromLine(product, m + 1, n - 1);
    }
  }

  /** Starting from the empty cart, `n` adds of one product give one line with quantity `n`. */
  lemma RepeatedAdds(product: Product, n: nat)
    requires n >= 1
    ensures Replay([], Adds(product, n)) == [CartLine(product, n)]
  {
    assert Adds(product, n)[0] == Add(product);
    assert Adds(product, n)[1..] == Adds(product, n - 1);
    assert AddToCart([], product) == [CartLine(product, 1)];
    AddsFromLine(product, 1, n - 1);
  }
}

/** The application root: the `cart` and `user` state slots every page shares. */
module AppState {
  import opened Wrappers
  import opened Entities
  import Cart

  class App {
    var cart: seq<Cart.CartLine>
    var user: Option<User>

    ghost predicate Valid()
      reads this
    {
      Cart.WellFormed(cart)
    }

    constructor()
      ensures Valid()
      ensures cart == [] && user == None
    {
      cart := [];
      user := None;
    }

    method AddToCart(product: Product)
      requires Valid()
      modifies this
      ensures Valid()
      ensures cart == Cart.AddToCart(old(cart), product)
      ensures user == old(user)
    {
      cart := Cart.AddToCart(cart, product);
    }

    method UpdateQuantity(productId: Id, quantity: int)
      requires Valid()
      modifies this
      ensures Valid()
      ensures cart == Cart.UpdateQuantity(old(cart), productId, quantity)
      ensures user == old(user)
    {
      cart := Cart.UpdateQuantity(cart, productId, quantity);
    }

    /** `setUser`, as the login and registration pages call it. */
    method SetUser(u: Option<User>)
      modifies this
      ensures user == u && cart == old(cart)
    {
      user := u;
    }

    /** The count the navbar shows. */
    function CartCount(): (n: int)
      requires Valid()
      reads this
      ensures n >= |cart|
      ensures n == 0 <==> cart == []
    {
      Cart.ItemCountAtLeastLines(cart);
      Cart.ItemCount(cart)
    }
  }
}
