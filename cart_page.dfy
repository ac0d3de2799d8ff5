/** The money rules of `CartPage.js` in integer cents ($5.99 is 599, the $50
    free-shipping threshold is 5000), the quantity buttons, and the checkout
    hand-off, which reads the cart and never changes it. */
module CartPage {
  import opened Wrappers
  import opened CartContext

  /** Orders strictly over $50.00 ship free. */
  const FreeShippingThreshold: int := 5000
  /** The flat shipping fee, $5.99. */
  const ShippingFee: int := 599

  /** `calculateItemTotal`: price times quantity; not a number when the price
      is not one. */
  function ItemTotal(l: Line): (r: Amount)
    ensures r.Cents? <==> l.product.price.Cents?
    ensures r.Cents? ==> r.cents == l.product.price.cents * l.quantity
  {
    match l.product.price
    case Cents(p) => Cents(p * l.quantity)
    case NotANumber => NotANumber
  }

  /** The addend of `calculateSubtotal`, `item.price * item.quantity || 0`:
      a line total that is not a number counts as nothing. */
  function Contribution(l: Line): int {
    match ItemTotal(l)
    case Cents(c) => c
    case NotANumber => 0
  }

  /** `calculateSubtotal`: the line contributions summed from the left. */
  function Subtotal(items: seq<Line>): int
    decreases |items|
  {
    if items == [] then 0 else Subtotal(items[..|items| - 1]) + Contribution(items[|items| - 1])
  }

  /** `calculateShipping`: free strictly over the threshold, the flat fee
      otherwise, so a subtotal of exactly $50.00 still pays shipping. */
  function Shipping(subtotal: int): (r: int)
    ensures r == 0 <==> subtotal > FreeShippingThreshold
    ensures r == 0 || r == ShippingFee
  {
    if subtotal > FreeShippingThreshold then 0 else ShippingFee
  }

  /** `calculateTotal`: the subtotal plus shipping. */
  function Total(items: seq<Line>): (r: int)
    ensures r - Subtotal(items) == Shipping(Subtotal(items))
    ensures r == Subtotal(items) <==> Subtotal(items) > FreeShippingThreshold
    ensures r >= Subtotal(items)
  {
    var s := Subtotal(items);
    s + Shipping(s)
  }

  // ---------------------------------------------------------------------------
  // Properties of the subtotal

  lemma {:induction false} SubtotalAppend(a: seq<Line>, b: seq<Line>)
    ensures Subtotal(a + b) == Subtotal(a) + Subtotal(b)
    decreases |b|
  {
    if b == [] {
      assert a + b == a;
    } else {
      var b' := b[..|b| - 1];
      assert (a + b)[..|a + b| - 1] == a + b';
      SubtotalAppend(a, b');
    }
  }

  /** `Subtotal([l])` is the contribution of `l`. */
  lemma SubtotalSingle(l: Line)
    ensures Subtotal([l]) == Contribution(l)
  {
    assert [l][..0] == [];
  }

  /** Two carts that differ only at line `k` differ in subtotal by the change
      of that line's contribution. */
  lemma SubtotalChangeAt(a: seq<Line>, b: seq<Line>, k: nat)
    requires |a| == |b| && k < |a|
    requires forall i :: 0 <= i < |a| && i != k ==> a[i] == b[i]
    ensures Subtotal(b) == Subtotal(a) - Contribution(a[k]) + Contribution(b[k])
  {
    assert a == a[..k] + [a[k]] + a[k + 1..];
    assert b == b[..k] + [b[k]] + b[k + 1..];
    assert a[..k] == b[..k] && a[k + 1..] == b[k + 1..];
    SubtotalAppend(a[..k] + [a[k]], a[k + 1..]);
    SubtotalAppend(a[..k], [a[k]]);
    SubtotalAppend(b[..k] + [b[k]], b[k + 1..]);
    SubtotalAppend(b[..k], [b[k]]);
    SubtotalSingle(a[k]);
    SubtotalSingle(b[k]);
  }

  /** One more unit of a line adds that line's own unit price, the price of the
      snapshot taken when it was first added. */
  lemma ContributionOneMore(l: Line)
    ensures Contribution(l.(quantity := l.quantity + 1)) == Contribution(l) + Contribution(l.(quantity := 1))
  {
    if l.product.price.Cents? {
      var p := l.product.price.cents;
      assert p * (l.quantity + 1) == p * l.quantity + p;
    }
  }

  /** Adding a product that is already in the cart raises the subtotal by the
      price recorded in the cart's line, whatever price the added product now
      carries; adding a new product raises it by that product's price. */
  lemma SubtotalAfterAdd(items: seq<Line>, p: Product)
    requires WellFormed(items)
    ensures Subtotal(AddedTo(items, p)) == Subtotal(items) +
      match IndexOf(items, p.id)
      case Some(k) => Contribution(Line(items[k].product, 1))
      case None => Contribution(Line(p, 1))
  {
    match IndexOf(items, p.id)
    case Some(k) =>
      SubtotalAfterAddExisting(items, p, k);
    case None =>
      SubtotalAppend(items, [Line(p, 1)]);
      SubtotalSingle(Line(p, 1));
  }

  /** The case of `SubtotalAfterAdd` where line `k` already holds the product. */
  lemma SubtotalAfterAddExisting(items: seq<Line>, p: Product, k: nat)
    requires WellFormed(items) && k < |items| && items[k].product.id == p.id
    ensures Subtotal(AddedTo(items, p)) == Subtotal(items) + Contribution(Line(items[k].product, 1))
  {
    AddedToExisting(items, p, k);
    OneMoreAt(items, AddedTo(items, p), k);
  }

  /** Two carts that differ only in line `k` having one more unit differ in
      subtotal by that line's unit price. */
  lemma OneMoreAt(a: seq<Line>, b: seq<Line>, k: nat)
    requires |a| == |b| && k < |a|
    requires forall i :: 0 <= i < |a| && i != k ==> a[i] == b[i]
    requires b[k] == a[k].(quantity := a[k].quantity + 1)
    ensures Subtotal(b) == Subtotal(a) + Contribution(Line(a[k].product, 1))
  {
    SubtotalChangeAt(a, b, k);
    ContributionOneMore(a[k]);
    assert a[k].(quantity := 1) == Line(a[k].product, 1);
  }

  // ---------------------------------------------------------------------------
  // The free-shipping hint

  /** The hint as written: shown only below the threshold, asking for the
      difference to $50.00. */
  function FreeShippingHint(subtotal: int): (r: Option<int>)
    ensures r.Some? <==> subtotal < FreeShippingThreshold
    ensures r.Some? ==> r.value > 0 && subtotal + r.value == FreeShippingThreshold
  {
    if subtotal < FreeShippingThreshold then Some(FreeShippingThreshold - subtotal) else None
  }

  /** Adding the amount the hint names brings the subtotal to exactly $50.00,
      which still pays the fee; and at exactly $50.00 the fee is charged with
      no hint shown. */
  lemma HintAmountStillPaysShipping(subtotal: int)
    requires subtotal < FreeShippingThreshold
    ensures Shipping(subtotal + FreeShippingHint(subtotal).value) == ShippingFee
    ensures FreeShippingHint(FreeShippingThreshold).None? && Shipping(FreeShippingThreshold) == ShippingFee
  {
  }

  /** The hint with the amount that does qualify: shown exactly when shipping
      is charged, naming the least amount that makes shipping free. */
  function QualifyingHint(subtotal: int): (r: Option<int>)
    ensures r.Some? <==> Shipping(subtotal) == ShippingFee
    ensures r.Some? ==> r.value > 0 && Shipping(subtotal + r.value) == 0
    ensures r.Some? ==> forall t :: subtotal <= t < subtotal + r.value ==> Shipping(t) == ShippingFee
  {
    if subtotal <= FreeShippingThreshold then Some(FreeShippingThreshold + 1 - subtotal) else None
  }

  // ---------------------------------------------------------------------------
  // Quantity buttons

  /** The minus button asks for `max(1, q - 1)`. */
  function MinusTarget(q: int): (r: int)
    ensures r >= 1
    ensures q > 1 ==> r == q - 1
    ensures q <= 1 ==> r == 1
  {
    if q - 1 > 1 then q - 1 else 1
  }

  /** The plus button asks for `q + 1`. */
  function PlusTarget(q: int): int {
    q + 1
  }

  /** The minus button never removes a line: the cart keeps its length and its
      line for that product, whose quantity becomes `max(1, q - 1)`. */
  lemma MinusKeepsLine(items: seq<Line>, k: nat)
    requires WellFormed(items) && k < |items|
    ensures var r := UpdatedQuantity(items, items[k].product.id, MinusTarget(items[k].quantity));
      |r| == |items| && r[k].product == items[k].product && r[k].quantity == MinusTarget(items[k].quantity)
      && WellFormed(r)
  {
    WithQuantityCount(items, items[k].product.id, MinusTarget(items[k].quantity));
  }

  /** The plus button raises the item count by one. */
  lemma PlusAddsOne(items: seq<Line>, k: nat)
    requires WellFormed(items) && k < |items|
    ensures Count(UpdatedQuantity(items, items[k].product.id, PlusTarget(items[k].quantity))) == Count(items) + 1
  {
    var id := items[k].product.id;
    WithQuantityCount(items, id, PlusTarget(items[k].quantity));
    assert IndexOf(items, id) == Some(k);
  }

  // ---------------------------------------------------------------------------
  // Checkout

  /** What the checkout attempt met: the payment library could not be loaded,
      the request failed, the server answered with an error status, or it
      answered with a session id. */
  datatype ServerAnswer = LibraryUnavailable | NetworkFailure | NotOk | Session(id: string)

  datatype CheckoutResult = Redirected(sessionId: string) | Alerted(message: string)

  const CheckoutFailedMessage := "An error occurred during checkout. Please try again."

  /** `handleCheckout`: posts the cart's own lines, then redirects to the hosted
      page or alerts. It reads the cart and calls no cart operation, so a
      failed checkout leaves the cart as it was. `redirectError` is the error
      the payment library's redirect reports, if any. */
  method HandleCheckout(cart: CartStore, answer: ServerAnswer, redirectError: Option<string>)
    returns (sent: Option<seq<Line>>, result: CheckoutResult)
    requires cart.Valid()
    ensures answer.LibraryUnavailable? <==> sent.None?
    ensures sent.Some? ==> sent.value == cart.items
    ensures answer.Session? && redirectError.None? ==> result == Redirected(answer.id)
    ensures answer.Session? && redirectError.Some? ==> result == Alerted(redirectError.value)
    ensures !answer.Session? ==> result == Alerted(CheckoutFailedMessage)
  {
    if answer.LibraryUnavailable? {
      return None, Alerted(CheckoutFailedMessage);
    }
    sent := Some(cart.items);
    if !answer.Session? {
      return sent, Alerted(CheckoutFailedMessage);
    }
    match redirectError
    case Some(message) => result := Alerted(message);
    case None => result := Redirected(answer.id);
  }

  /** The return from the hosted page: the success page clears the cart
      unconditionally; the cancel page leaves it untouched. */
  method ReturnFromCheckout(cart: CartStore, paid: bool)
    requires cart.Valid()
    modifies cart
    ensures cart.Valid()
    ensures paid ==> cart.items == []
    ensures !paid ==> cart.items == old(cart.items) && cart.slot == old(cart.slot)
  {
    if paid {
      cart.ClearCart();
    }
  }
}
