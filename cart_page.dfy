/**
 * The cart page: the empty-cart message, one row per line with its
 * amount and the -/+ buttons, and the total.
 */
module CartPage {
  import opened Entities
  import opened Cart

  /** The arguments a quantity button hands to `updateQuantity`. */
  datatype QuantityCall = QuantityCall(productId: Id, quantity: int)

  /** One displayed row: the line, its amount and what its two buttons call. */
  datatype Row = Row(line: CartLine, amount: real, minus: QuantityCall, plus: QuantityCall)

  datatype View = EmptyMessage | Lines(rows: seq<Row>, total: real)

  const EmptyText := "Your cart is empty"

  function RenderRow(line: CartLine): Row
  {
    Row(line, line.item.price * line.quantity as real,
        QuantityCall(line.item.id, line.quantity - 1),
        QuantityCall(line.item.id, line.quantity + 1))
  }

  function Rows(cart: seq<CartLine>): seq<Row>
  {
    seq(|cart|, i requires 0 <= i < |cart| => RenderRow(cart[i]))
  }

  /** The page: the empty message alone for an empty cart, else the rows and the total. */
  function Render(cart: seq<CartLine>): (v: View)
    ensures v.EmptyMessage? <==> cart == []
    ensures v.Lines? ==> |v.rows| == |cart| && forall i :: 0 <= i < |cart| ==> v.rows[i].line == cart[i]
  {
    if |cart| == 0 then EmptyMessage else Lines(Rows(cart), Subtotal(cart))
  }

  /** Sum of the row amounts, in display order. */
  function SumAmounts(rows: seq<Row>): real
  {
    if rows == [] then 0.0 else SumAmounts(rows[..|rows| - 1]) + rows[|rows| - 1].amount
  }

  /** The row amounts add up to the displayed total. */
  lemma {:induction false} RowAmountsSumToTotal(cart: seq<CartLine>)
    requires cart != []
    ensures SumAmounts(Render(cart).rows) == Render(cart).total
  {
    RowsSum(cart);
  }

  lemma {:induction false} RowsSum(cart: seq<CartLine>)
    ensures SumAmounts(Rows(cart)) == Subtotal(cart)
    decreases |cart|
  {
    if cart != [] {
      var n := |cart| - 1;
      assert Rows(cart)[..n] == Rows(cart[..n]);
      RowsSum(cart[..n]);
    }
  }

  /** "-" on a line at quantity 1 removes that line and keeps the others in order. */
  lemma MinusAtOneRemoves(cart: seq<CartLine>, k: nat)
    requires WellFormed(cart) && k < |cart|
    requires cart[k].quantity == 1
    ensures var c := RenderRow(cart[k]).minus;
      UpdateQuantity(cart, c.productId, c.quantity) == cart[..k] + cart[k + 1..]
  {
    RemoveLineAt(cart, k);
  }

  /** "-" on a line above 1 lowers exactly that line by one. */
  lemma MinusAboveOneDecrements(cart: seq<CartLine>, k: nat)
    requires WellFormed(cart) && k < |cart|
    requires cart[k].quantity > 1
    ensures var c := RenderRow(cart[k]).minus;
      UpdateQuantity(cart, c.productId, c.quantity) == cart[k := CartLine(cart[k].item, cart[k].quantity - 1)]
  {
    SetQuantityAt(cart, k, cart[k].quantity - 1);
  }

  /** "+" raises exactly that line by one, and the count by one. */
  lemma PlusIncrements(cart: seq<CartLine>, k: nat)
    requires WellFormed(cart) && k < |cart|
    ensures var c := RenderRow(cart[k]).plus;
      UpdateQuantity(cart, c.productId, c.quantity) == cart[k := CartLine(cart[k].item, cart[k].quantity + 1)]
    ensures ItemCount(cart[k := CartLine(cart[k].item, cart[k].quantity + 1)]) == ItemCount(cart) + 1
  {
    SetQuantityAt(cart, k, cart[k].quantity + 1);
    ItemCountUpdate(cart, cart[k := CartLine(cart[k].item, cart[k].quantity + 1)], k);
  }
}
