/**
 * The cart page's order summary (components/pages/CartPage.tsx): shipping, tax and total
 * over the subtotal the cart store reports, the free-shipping notes, the line totals and
 * the arguments the quantity buttons pass to the cart store.
 */
module Pricing {
  import opened Wrappers
  import opened Domain

  const FreeShippingThreshold: real := 200.0
  const FlatShippingFee: real := 25.0
  const TaxRate: real := 0.08

  /** `subtotal > 200 ? 0 : 25`. */
  function Shipping(subtotal: real): (r: real)
    ensures r == 0.0 <==> subtotal > FreeShippingThreshold
    ensures r != 0.0 ==> r == FlatShippingFee
  {
    if subtotal > FreeShippingThreshold then 0.0 else FlatShippingFee
  }

  /** `subtotal * 0.08`. */
  function Tax(subtotal: real): real {
    subtotal * TaxRate
  }

  /** `subtotal + shipping + tax`. */
  function Total(subtotal: real): real {
    subtotal + Shipping(subtotal) + Tax(subtotal)
  }

  /** The total never falls below the subtotal, and exceeds it by exactly the shipping plus 8%. */
  lemma TotalCoversSubtotal(subtotal: real)
    requires subtotal >= 0.0
    ensures Total(subtotal) >= subtotal
    ensures Total(subtotal) - subtotal == Shipping(subtotal) + subtotal * 8.0 / 100.0
  {
  }

  /** The shipping boundary is exclusive: exactly 200 still pays the flat fee. */
  lemma ShippingBoundary()
    ensures Shipping(200.0) == 25.0 && Total(200.0) == 241.0
    ensures Shipping(200.01) == 0.0
  {
  }

  /** The summary card's shipping notes: which one is shown and the amount still missing. */
  datatype ShippingNote = FreeShipping | AddMore(amount: real)

  /** `shipping === 0` shows the free-shipping note; `shipping > 0` shows "Add $X more". */
  function Note(subtotal: real): (r: ShippingNote)
    ensures r.FreeShipping? <==> Shipping(subtotal) == 0.0
    ensures r.AddMore? <==> Shipping(subtotal) > 0.0
    ensures r.AddMore? ==> r.amount == FreeShippingThreshold - subtotal && r.amount >= 0.0
  {
    var shipping := Shipping(subtotal);
    if shipping == 0.0 then FreeShipping else AddMore(200.0 - subtotal)
  }

  /** At exactly the threshold the page asks for $0.00 more. */
  lemma NoteAtThreshold()
    ensures Note(200.0) == AddMore(0.0)
  {
  }

  /** The per-line total, `item.price * item.quantity`. */
  function LineTotal(item: CartItem): real {
    item.price * item.quantity as real
  }

  /** What the cart page renders: the empty state or the list with its summary. */
  datatype CartView = EmptyCart | Lines(lineTotals: seq<real>, note: ShippingNote, total: real)

  function View(cart: seq<CartItem>, subtotal: real): (r: CartView)
    ensures r.EmptyCart? <==> |cart| == 0
    ensures r.Lines? ==> |r.lineTotals| == |cart| && r.total == Total(subtotal) && r.note == Note(subtotal)
    ensures r.Lines? ==> forall i :: 0 <= i < |cart| ==> r.lineTotals[i] == cart[i].price * cart[i].quantity as real
  {
    if |cart| == 0 then EmptyCart
    else Lines(seq(|cart|, i requires 0 <= i < |cart| => LineTotal(cart[i])), Note(subtotal), Total(subtotal))
  }

  /**
   * The minus button: disabled (no request) when `quantity <= 1`, otherwise asks the cart
   * store for `quantity - 1`. It never asks for a quantity below 1.
   */
  function DecrementRequest(quantity: int): (r: Option<int>)
    ensures r.None? <==> quantity <= 1
    ensures r.Some? ==> r.value >= 1 && r.value == quantity - 1
  {
    if quantity <= 1 then None else Some(quantity - 1)
  }

  /** The plus button always asks for `quantity + 1`; there is no upper bound. */
  function IncrementRequest(quantity: int): (r: int)
    ensures r > quantity
    ensures r == quantity + 1
  {
    quantity + 1
  }

  /** The minus button undoes the plus button: from any valid quantity it asks for it back. */
  lemma DecrementUndoesIncrement(quantity: int)
    requires quantity >= 1
    ensures DecrementRequest(IncrementRequest(quantity)) == Some(quantity)
  {
  }
}
