/** The order-intent builder: `POST` and `OPTIONS` of the create-order endpoint.
    `POST` validates a checkout request, computes the charge in minor currency units, builds the
    gateway's order options and makes one call to the gateway. The gateway is a function parameter
    and the current time is a parameter; the calls made to the gateway are returned alongside the
    response, so "the gateway is never called" reads `gatewayCalls == []`. */
module OrderIntent {
  import opened Shared

  datatype Product = Product(id: string, price: int)

  /** One entry of `cartItems`. `item` is None when the entry is null or has no `item` object,
      in which case reading `item.price` or `item._id` throws. */
  datatype CartItem = CartItem(item: Option<Product>, quantity: int, color: Option<string>, size: Option<string>)

  /** The customer object of the request; a missing property is None. */
  datatype CustomerIntent = CustomerIntent(clerkId: Option<string>, email: Option<string>,
                                           name: Option<string>, shippingRate: Option<string>)

  /** The decoded JSON request body. `cartItems` is None when it is absent, null or not an array;
      `customer` is None when it is absent or null. */
  datatype CheckoutBody = CheckoutBody(cartItems: Option<seq<CartItem>>, customer: Option<CustomerIntent>)

  /** The notes bag sent to the gateway; `orderItems` is the item list before serialisation. */
  datatype IntentNotes = IntentNotes(clerkId: string, name: string, email: string, shippingRate: string,
                                     orderItems: seq<OrderItem>)

  datatype OrderOptions = OrderOptions(amount: int, currency: string, receipt: string, notes: IntentNotes)

  /** The outcome of the gateway's order-creation call. */
  datatype GatewayReply = Created(order: GatewayOrder) | Failed

  /** A handled request: the response and the order options sent to the gateway, in call order. */
  datatype Exchange = Exchange(response: Response, gatewayCalls: seq<OrderOptions>)

  datatype Rejection = NoItemsInCart | IncompleteCustomer

  const CURRENCY := "INR"
  const NOT_AVAILABLE := "N/A"
  const RECEIPT_PREFIX := "receipt_order_"
  const NO_ITEMS_TEXT := "No items in cart"
  const INCOMPLETE_CUSTOMER_TEXT := "Incomplete customer information"
  const INTERNAL_ERROR_TEXT := "Internal Server Error"

  /** The cross-origin header set every response of this endpoint carries. */
  const CORS_HEADERS: map<string, string> := map[
    "Access-Control-Allow-Origin" := "*",
    "Access-Control-Allow-Methods" := "GET, POST, PUT, DELETE, OPTIONS",
    "Access-Control-Allow-Headers" := "Content-Type, Authorization"
  ]

  /** JavaScript truthiness of an optional string: present and not "". */
  predicate Truthy(s: Option<string>) {
    s.Some? && s.value != ""
  }

  /** `cartItems` is an array with at least one entry. */
  predicate HasCart(body: CheckoutBody) {
    body.cartItems.Some? && body.cartItems.value != []
  }

  predicate CustomerComplete(customer: Option<CustomerIntent>) {
    && customer.Some?
    && Truthy(customer.value.clerkId)
    && Truthy(customer.value.email)
    && Truthy(customer.value.name)
    && Truthy(customer.value.shippingRate)
  }

  /** Every cart entry has the `item` object that the total and the item list read. */
  predicate HasProducts(cart: seq<CartItem>) {
    forall i | 0 <= i < |cart| :: cart[i].item.Some?
  }

  /** The two guards, in source order: the cart check runs first. */
  function Validate(body: CheckoutBody): (r: Option<Rejection>)
    ensures r == Some(NoItemsInCart) <==> !HasCart(body)
    ensures r == Some(IncompleteCustomer) <==> HasCart(body) && !CustomerComplete(body.customer)
    ensures r == None <==> HasCart(body) && CustomerComplete(body.customer)
  {
    if !HasCart(body) then Some(NoItemsInCart)
    else if !CustomerComplete(body.customer) then Some(IncompleteCustomer)
    else None
  }

  function RejectionText(r: Rejection): string {
    match r
    case NoItemsInCart => NO_ITEMS_TEXT
    case IncompleteCustomer => INCOMPLETE_CUSTOMER_TEXT
  }

  function LineTotal(c: CartItem): int
    requires c.item.Some?
  {
    c.item.value.price * c.quantity
  }

  /** `calculateTotalAmount`: the left fold `acc + price * quantity` from 0, in major units.
      With prices at least 0 and quantities at least 1 the total is never negative. */
  function CalculateTotalAmount(cart: seq<CartItem>): (total: int)
    requires HasProducts(cart)
    ensures (forall i | 0 <= i < |cart| :: cart[i].item.value.price >= 0 && cart[i].quantity >= 1) ==> total >= 0
  {
    if cart == [] then 0
    else
      var init, last := cart[..|cart| - 1], cart[|cart| - 1];
      assert forall i | 0 <= i < |init| :: init[i] == cart[i];
      CalculateTotalAmount(init) + LineTotal(last)
  }

  /** The total distributes over concatenation of carts. */
  lemma {:induction false} TotalOfConcat(xs: seq<CartItem>, ys: seq<CartItem>)
    requires HasProducts(xs) && HasProducts(ys)
    ensures HasProducts(xs + ys)
    ensures CalculateTotalAmount(xs + ys) == CalculateTotalAmount(xs) + CalculateTotalAmount(ys)
  {
    if ys == [] {
      assert xs + ys == xs;
    } else {
      var init := ys[..|ys| - 1];
      assert (xs + ys)[..|xs + ys| - 1] == xs + init;
      assert (xs + ys)[|xs + ys| - 1] == ys[|ys| - 1];
      TotalOfConcat(xs, init);
    }
  }

  /** A one-line cart costs its price times its quantity. */
  lemma TotalOfSingleton(c: CartItem)
    requires c.item.Some?
    ensures HasProducts([c])
    ensures CalculateTotalAmount([c]) == c.item.value.price * c.quantity
  {
    assert [c][..0] == [];
  }

  /** `color || "N/A"` and `size || "N/A"`. */
  function OrNotAvailable(s: Option<string>): string {
    if Truthy(s) then s.value else NOT_AVAILABLE
  }

  /** The `map` over the cart that builds the serialised item list. */
  function EncodeItems(cart: seq<CartItem>): (r: seq<OrderItem>)
    requires HasProducts(cart)
    ensures |r| == |cart|
    ensures forall i | 0 <= i < |cart| ::
      r[i].product == cart[i].item.value.id && r[i].quantity == cart[i].quantity
    ensures forall i | 0 <= i < |cart| ::
      (Truthy(cart[i].color) ==> r[i].color == cart[i].color.value) &&
      (!Truthy(cart[i].color) ==> r[i].color == NOT_AVAILABLE)
    ensures forall i | 0 <= i < |cart| ::
      (Truthy(cart[i].size) ==> r[i].size == cart[i].size.value) &&
      (!Truthy(cart[i].size) ==> r[i].size == NOT_AVAILABLE)
  {
    if cart == [] then []
    else
      var c := cart[0];
      [OrderItem(c.item.value.id, OrNotAvailable(c.color), OrNotAvailable(c.size), c.quantity)]
        + EncodeItems(cart[1..])
  }

  predicate IsDigits(s: string) {
    forall i | 0 <= i < |s| :: '0' <= s[i] <= '9'
  }

  function DigitValue(c: char): nat
    requires '0' <= c <= '9'
  {
    c as int - '0' as int
  }

  /** The number a string of decimal digits spells, read left to right. */
  function DigitsValue(s: string): nat
    requires IsDigits(s)
  {
    if s == [] then 0 else 10 * DigitsValue(s[..|s| - 1]) + DigitValue(s[|s| - 1])
  }

  function DigitChar(d: nat): (c: char)
    requires d < 10
    ensures '0' <= c <= '9' && DigitValue(c) == d
  {
    "0123456789"[d]
  }

  /** The decimal rendering of a non-negative integer, as a template literal prints it:
      a non-empty digit string that reads back as `n`. */
  function DecimalString(n: nat): (s: string)
    ensures |s| >= 1 && IsDigits(s)
    ensures DigitsValue(s) == n
    ensures n < 10 <==> |s| == 1
    ensures |s| > 1 ==> s[0] != '0'
  {
    if n < 10 then
      var s := [DigitChar(n)];
      assert s[..0] == [];
      s
    else
      var head := DecimalString(n / 10);
      var s := head + [DigitChar(n % 10)];
      assert s[..|s| - 1] == head;
      assert s[0] == head[0];
      s
  }

  /** Rendering is injective: different timestamps give different receipts. */
  lemma ReceiptsDistinct(a: nat, b: nat)
    requires a != b
    ensures RECEIPT_PREFIX + DecimalString(a) != RECEIPT_PREFIX + DecimalString(b)
  {
    var ra, rb := RECEIPT_PREFIX + DecimalString(a), RECEIPT_PREFIX + DecimalString(b);
    assert ra[|RECEIPT_PREFIX|..] == DecimalString(a);
    assert rb[|RECEIPT_PREFIX|..] == DecimalString(b);
  }

  /** The order options for a validated request; `now` stands for `Date.now()`. */
  function BuildOrderOptions(cart: seq<CartItem>, customer: CustomerIntent, now: nat): (r: OrderOptions)
    requires HasProducts(cart) && CustomerComplete(Some(customer))
    ensures r.amount == 100 * CalculateTotalAmount(cart) && r.amount % 100 == 0
    ensures r.currency == CURRENCY
    ensures |r.receipt| > |RECEIPT_PREFIX| && r.receipt[..|RECEIPT_PREFIX|] == RECEIPT_PREFIX
    ensures IsDigits(r.receipt[|RECEIPT_PREFIX|..]) && DigitsValue(r.receipt[|RECEIPT_PREFIX|..]) == now
    ensures r.notes.clerkId == customer.clerkId.value && r.notes.name == customer.name.value
    ensures r.notes.email == customer.email.value && r.notes.shippingRate == customer.shippingRate.value
    ensures r.notes.orderItems == EncodeItems(cart)
  {
    OrderOptions(
      CalculateTotalAmount(cart) * 100,
      CURRENCY,
      RECEIPT_PREFIX + DecimalString(now),
      IntentNotes(customer.clerkId.value, customer.name.value, customer.email.value,
                  customer.shippingRate.value, EncodeItems(cart)))
  }

  function ServerError(): Response {
    Response(500, Text(INTERNAL_ERROR_TEXT), CORS_HEADERS)
  }

  /** `OPTIONS`: an empty 204 with the cross-origin headers. */
  function Options(): (r: Response)
    ensures r.status == 204 && r.body == NoBody && r.headers == CORS_HEADERS
  {
    Response(204, NoBody, CORS_HEADERS)
  }

  /** `POST`. `body` is None when reading the request as JSON throws. */
  function Post(body: Option<CheckoutBody>, now: nat, gateway: OrderOptions -> GatewayReply): (x: Exchange)
    ensures x.response.headers == CORS_HEADERS
    ensures x.response.status == 200 || x.response.status == 400 || x.response.status == 500
    ensures |x.gatewayCalls| <= 1
    ensures x.response.status == 400 ==> x.gatewayCalls == []
    ensures x.response.status == 200 <==> |x.gatewayCalls| == 1 && gateway(x.gatewayCalls[0]).Created?
    ensures x.response.status == 200 ==> x.response.body == OrderJson(gateway(x.gatewayCalls[0]).order)
  {
    if body.None? then Exchange(ServerError(), [])
    else
      match Validate(body.value)
      case Some(rejection) => Exchange(Response(400, Text(RejectionText(rejection)), CORS_HEADERS), [])
      case None =>
        var cart := body.value.cartItems.value;
        if !HasProducts(cart) then Exchange(ServerError(), [])
        else
          var options := BuildOrderOptions(cart, body.value.customer.value, now);
          match gateway(options)
          case Created(order) => Exchange(Response(200, OrderJson(order), CORS_HEADERS), [options])
          case Failed => Exchange(ServerError(), [options])
  }

  /** A missing, non-array or empty cart is refused before anything else, whatever the customer. */
  lemma EmptyCartRejected(body: CheckoutBody, now: nat, gateway: OrderOptions -> GatewayReply)
    requires !HasCart(body)
    ensures Post(Some(body), now, gateway) == Exchange(Response(400, Text(NO_ITEMS_TEXT), CORS_HEADERS), [])
  {
  }

  /** With a cart present, an incomplete customer is refused without a gateway call. */
  lemma IncompleteCustomerRejected(body: CheckoutBody, now: nat, gateway: OrderOptions -> GatewayReply)
    requires HasCart(body) && !CustomerComplete(body.customer)
    ensures Post(Some(body), now, gateway)
         == Exchange(Response(400, Text(INCOMPLETE_CUSTOMER_TEXT), CORS_HEADERS), [])
  {
  }

  /** A body that cannot be read, or a cart entry without its `item`, ends in 500 with no gateway call. */
  lemma UnreadableRequestFails(body: Option<CheckoutBody>, now: nat, gateway: OrderOptions -> GatewayReply)
    requires body.None? || (HasCart(body.value) && CustomerComplete(body.value.customer)
                            && !HasProducts(body.value.cartItems.value))
    ensures Post(body, now, gateway) == Exchange(ServerError(), [])
  {
  }

  /** A valid request makes exactly one gateway call, with the amount in minor units, the fixed
      currency, the customer's fields copied into the notes and the cart's item list; the gateway's
      order is returned verbatim with 200, and a failed call gives 500. */
  lemma ValidRequestCallsGatewayOnce(body: CheckoutBody, now: nat, gateway: OrderOptions -> GatewayReply)
    requires HasCart(body) && CustomerComplete(body.customer) && HasProducts(body.cartItems.value)
    ensures var x := Post(Some(body), now, gateway);
      && |x.gatewayCalls| == 1
      && var o := x.gatewayCalls[0];
      && o.amount == 100 * CalculateTotalAmount(body.cartItems.value)
      && o.currency == CURRENCY
      && o.receipt == RECEIPT_PREFIX + DecimalString(now)
      && o.notes.clerkId == body.customer.value.clerkId.value
      && o.notes.name == body.customer.value.name.value
      && o.notes.email == body.customer.value.email.value
      && o.notes.shippingRate == body.customer.value.shippingRate.value
      && o.notes.orderItems == EncodeItems(body.cartItems.value)
      && (gateway(o).Created? ==> x.response == Response(200, OrderJson(gateway(o).order), CORS_HEADERS))
      && (gateway(o).Failed? ==> x.response == ServerError())
  {
  }

  /** The example of a cart of one line priced 500 with quantity 2: the gateway is asked for 1000 × 100. */
  lemma ExampleAmount(p: Product, now: nat, customer: CustomerIntent, gateway: OrderOptions -> GatewayReply)
    requires p.price == 500 && CustomerComplete(Some(customer))
    ensures var x := Post(Some(CheckoutBody(Some([CartItem(Some(p), 2, None, None)]), Some(customer))), now, gateway);
      |x.gatewayCalls| == 1 && x.gatewayCalls[0].amount == 100000
      && x.gatewayCalls[0].notes.orderItems == [OrderItem(p.id, NOT_AVAILABLE, NOT_AVAILABLE, 2)]
  {
    TotalOfSingleton(CartItem(Some(p), 2, None, None));
  }
}
