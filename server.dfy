/** The two rules of `server.js` that are more than wiring: the CORS origin
    predicate, and `/create-checkout-session`, which maps the posted cart to
    payment line items and picks the return pages by environment. The payment
    provider's `sessions.create` is a function parameter. */
module Server {
  import opened Wrappers
  import opened Http
  import opened CartContext
  import CartPage

  // ---------------------------------------------------------------------------
  // CORS

  /** The origins the browser may call the API from. */
  const AllowedOrigins: seq<string> := [
    "http://localhost:3000",
    "http://localhost:3001",
    "http://127.0.0.1:3000",
    "http://159.223.118.251",
    "http://159.223.118.251:3000",
    "http://159.223.118.251:8080",
    "https://159.223.118.251:5000",
    "http://159.223.118.251/api"
  ]

  /** The `origin` callback: a request without an `Origin` header (or with an
      empty one) passes, otherwise the origin must be one of the list exactly. */
  predicate OriginAllowed(origin: Option<string>) {
    origin.None? || origin.value == "" || origin.value in AllowedOrigins
  }

  /** Membership is by whole string: a listed origin passes, and the same host
      with a trailing slash, another scheme or another port does not. */
  lemma OriginsMatchExactly()
    ensures OriginAllowed(None) && OriginAllowed(Some(""))
    ensures forall k :: 0 <= k < |AllowedOrigins| ==> OriginAllowed(Some(AllowedOrigins[k]))
    ensures !OriginAllowed(Some("http://localhost:3000/"))
    ensures !OriginAllowed(Some("https://localhost:3000"))
    ensures !OriginAllowed(Some("http://localhost:5000"))
  {
    assert "http://localhost:3000/" != AllowedOrigins[0] && |"http://localhost:3000/"| == 22;
    assert "https://localhost:3000"[4] == 's';
    assert "http://localhost:5000"[17] == '5';
  }

  // ---------------------------------------------------------------------------
  // Checkout session

  /** One `line_items` entry. `unitAmount` is `Math.round(item.price * 100)`,
      the cart's price in cents, or not a number. */
  datatype LineItem = LineItem(currency: string, name: string, unitAmount: Amount, quantity: int)

  /** The `cartItems.map(...)`: one line item per cart line, in order. */
  function LineItems(cart: seq<Line>): (r: seq<LineItem>)
    ensures |r| == |cart|
    ensures forall i :: 0 <= i < |cart| ==>
      r[i] == LineItem("usd", cart[i].product.title, cart[i].product.price, cart[i].quantity)
  {
    seq(|cart|, i requires 0 <= i < |cart| => LineItem("usd", cart[i].product.title, cart[i].product.price, cart[i].quantity))
  }

  /** What a list of line items adds up to: unit amount times quantity,
      summed, an amount that is not a number counting as nothing (the provider
      rejects such a list outright). */
  function Charged(items: seq<LineItem>): int
    decreases |items|
  {
    if items == [] then 0
    else
      var last := items[|items| - 1];
      Charged(items[..|items| - 1]) + (match last.unitAmount case Cents(c) => c * last.quantity case NotANumber => 0)
  }

  /** The line items add up to exactly the subtotal the cart page shows. */
  lemma {:induction false} ChargedIsSubtotal(cart: seq<Line>)
    ensures Charged(LineItems(cart)) == CartPage.Subtotal(cart)
    decreases |cart|
  {
    if cart != [] {
      var front := cart[..|cart| - 1];
      assert LineItems(cart)[..|cart| - 1] == LineItems(front);
      ChargedIsSubtotal(front);
    }
  }

  /** The request handed to `sessions.create`. */
  datatype SessionRequest = SessionRequest(lineItems: seq<LineItem>, successUrl: string, cancelUrl: string)

  /** What `sessions.create` answers: a session, or an error with its message. */
  datatype ProviderAnswer = Opened(id: string) | ProviderError(message: string)

  const ProductionBase := "http://159.223.118.251:8080"
  const LocalBase := "http://localhost:3000"

  /** The pages the provider sends the customer back to: the production pair
      exactly when `NODE_ENV` is `production`. */
  function ReturnUrls(nodeEnv: Option<string>): (r: (string, string))
    ensures nodeEnv == Some("production") ==> r == (ProductionBase + "/success", ProductionBase + "/cancel")
    ensures nodeEnv != Some("production") ==> r == (LocalBase + "/success", LocalBase + "/cancel")
  {
    if nodeEnv == Some("production") then (ProductionBase + "/success", ProductionBase + "/cancel")
    else (LocalBase + "/success", LocalBase + "/cancel")
  }

  /** Both pages are on the same host, whichever environment is chosen, and
      they differ. */
  lemma ReturnUrlsShareHost(nodeEnv: Option<string>)
    ensures var (success, cancel) := ReturnUrls(nodeEnv);
      success != cancel && success[..|success| - 8] == cancel[..|cancel| - 7]
  {
    var (success, cancel) := ReturnUrls(nodeEnv);
    var base := if nodeEnv == Some("production") then ProductionBase else LocalBase;
    assert success[..|success| - 8] == base;
    assert cancel[..|cancel| - 7] == base;
    assert success[|success| - 1] != cancel[|cancel| - 1];
  }

  /** The message of the `TypeError` thrown when the body has no `cartItems`
      to map. */
  const MissingCartMessage := "Cannot read properties of undefined (reading 'map')"

  /** The `/create-checkout-session` handler. `cartItems` is the posted cart
      (`None` when the body has none); `create` is the provider's
      `sessions.create`. */
  function CreateCheckoutSession(cartItems: Option<seq<Line>>, nodeEnv: Option<string>,
                                 create: SessionRequest -> ProviderAnswer): (r: Reply<string>)
    ensures cartItems.None? ==> r == Fail(500, MissingCartMessage)
    ensures cartItems.Some? ==>
      var request := SessionRequest(LineItems(cartItems.value), ReturnUrls(nodeEnv).0, ReturnUrls(nodeEnv).1);
      && (create(request).Opened? ==> r == Ok(200, create(request).id))
      && (create(request).ProviderError? ==> r == Fail(500, create(request).message))
  {
    match cartItems
    case None => Fail(500, MissingCartMessage)
    case Some(cart) =>
      var (success, cancel) := ReturnUrls(nodeEnv);
      match create(SessionRequest(LineItems(cart), success, cancel))
      case Opened(id) => Ok(200, id)
      case ProviderError(message) => Fail(500, message)
  }

  // ---------------------------------------------------------------------------
  // The shipping fee at checkout

  /** The session charges the subtotal only: whenever the cart page adds the
      shipping fee to the total it shows, the customer is charged the fee
      less. */
  lemma CheckoutOmitsShipping(cart: seq<Line>)
    requires CartPage.Subtotal(cart) <= CartPage.FreeShippingThreshold
    ensures Charged(LineItems(cart)) == CartPage.Total(cart) - CartPage.ShippingFee
  {
    ChargedIsSubtotal(cart);
  }

  /** The line items with the fee the page shows added as its own item when
      shipping is charged. */
  function LineItemsWithShipping(cart: seq<Line>): (r: seq<LineItem>)
    ensures Charged(r) == CartPage.Total(cart)
    ensures |r| == |cart| + (if CartPage.Shipping(CartPage.Subtotal(cart)) == 0 then 0 else 1)
    ensures r[..|cart|] == LineItems(cart)
  {
    ChargedIsSubtotal(cart);
    var fee := CartPage.Shipping(CartPage.Subtotal(cart));
    if fee == 0 then LineItems(cart)
    else
      var r := LineItems(cart) + [LineItem("usd", "Shipping", Cents(fee), 1)];
      assert r[..|r| - 1] == LineItems(cart);
      r
  }
}
