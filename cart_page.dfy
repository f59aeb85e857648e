/**
 * The cart page (src/app/cart/page.tsx): shipping fee and final total derived
 * from the cart total, per-line totals, and the buttons that delegate to the
 * cart store.
 */
module CartPage {
  import opened Wrappers
  import opened CartContext

  const ShippingRate: int := 30000

  /** `totalPrice > 0 ? 30000 : 0`; a NaN total compares false and ships free. */
  function ShippingFee(total: Option<int>): (fee: int)
    ensures fee == ShippingRate || fee == 0
    ensures fee == ShippingRate <==> total.Some? && total.value > 0
  {
    if total.Some? && total.value > 0 then ShippingRate else 0
  }

  /** `totalPrice + shippingFee - discount` with the discount fixed at 0: the cart total plus
      30000 exactly when the total is positive, the total itself otherwise, NaN for NaN. */
  function FinalTotal(total: Option<int>): (r: Option<int>)
    ensures r.Some? <==> total.Some?
    ensures total.Some? && total.value > 0 ==> r == Some(total.value + ShippingRate)
    ensures total.Some? && total.value <= 0 ==> r == total
  {
    AddNumbers(total, Some(ShippingFee(total) - 0))
  }

  /** An empty cart pays no shipping and its final total is 0. */
  lemma EmptyCartFinalTotal()
    ensures ShippingFee(PriceTotal([])) == 0 && FinalTotal(PriceTotal([])) == Some(0)
  {
    EmptyCartTotals();
  }

  /** The per-line totals the page displays, in cart order. */
  function LineTotals(items: seq<CartLine>): (r: seq<Option<int>>)
    ensures |r| == |items|
  {
    if items == [] then [] else [LineTotal(items[0])] + LineTotals(items[1..])
  }

  function SumNumbers(xs: seq<Option<int>>): Option<int> {
    if xs == [] then Some(0) else AddNumbers(xs[0], SumNumbers(xs[1..]))
  }

  /** The displayed line totals add up to the cart's getTotalPrice. */
  lemma {:induction false} LineTotalsSum(items: seq<CartLine>)
    ensures SumNumbers(LineTotals(items)) == PriceTotal(items)
    ensures forall i :: 0 <= i < |items| ==> LineTotals(items)[i] == LineTotal(items[i])
  {
    if items != [] {
      LineTotalsSum(items[1..]);
    }
  }

  /** handleCheckout: nothing on an empty cart, otherwise navigation to /checkout. */
  function CheckoutTarget(items: seq<CartLine>): (target: Option<string>)
    ensures target.None? <==> items == []
    ensures target.Some? ==> target.value == "/checkout"
  {
    if |items| == 0 then None else Some("/checkout")
  }

  /** The "-" button: updateQuantity(id, quantity - 1). */
  function MinusPressed(items: seq<CartLine>, line: CartLine): seq<CartLine> {
    Updated(items, line.product.id, line.quantity - 1)
  }

  /** The "+" button: updateQuantity(id, quantity + 1). */
  function PlusPressed(items: seq<CartLine>, line: CartLine): seq<CartLine> {
    Updated(items, line.product.id, line.quantity + 1)
  }

  /** The delete button: removeFromCart(id). */
  function DeletePressed(items: seq<CartLine>, line: CartLine): seq<CartLine> {
    Without(items, line.product.id)
  }

  /** "-" on a line of quantity 1 removes every line of that product, whatever its
      customization, and keeps all other lines. */
  lemma MinusOnLastRemovesProduct(items: seq<CartLine>, line: CartLine)
    requires line.quantity == 1
    ensures forall x :: x in MinusPressed(items, line) <==> x in items && x.product.id != line.product.id
  {
    WithoutMembers(items, line.product.id);
  }

  /** Delete likewise drops every line with the product id and nothing else. */
  lemma DeleteRemovesProduct(items: seq<CartLine>, line: CartLine)
    ensures forall x :: x in DeletePressed(items, line) <==> x in items && x.product.id != line.product.id
  {
    WithoutMembers(items, line.product.id);
  }

  /** "+" on a line of quantity q >= 0 keeps the cart's length and sets every line of that
      product to q + 1. */
  lemma PlusKeepsLines(items: seq<CartLine>, line: CartLine)
    requires line.quantity >= 0
    ensures |PlusPressed(items, line)| == |items|
    ensures forall i :: 0 <= i < |items| && items[i].product.id == line.product.id ==>
      PlusPressed(items, line)[i].quantity == line.quantity + 1
  {
    UpdatedPositive(items, line.product.id, line.quantity + 1);
  }
}
