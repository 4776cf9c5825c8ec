/** The two handlers are correlated only through the gateway: the builder's order options come back,
    inside a signed "order.paid" event, as the payment entity's amount and notes. This module states
    what a faithful echo makes of them on the webhook side. */
module EndToEnd {
  import opened Shared
  import opened OrderStore
  import OrderIntent
  import Webhook

  /** The event the gateway sends once the order built from `options` is paid: the amount and notes as
      sent, the item list serialised with `encode`, and none of the address fields. */
  function Echo(options: OrderIntent.OrderOptions, encode: seq<OrderItem> -> string): Webhook.Event {
    var n := options.notes;
    Webhook.Event(Webhook.PAID_EVENT, Some(Webhook.PaymentEntity(
      Some(options.amount),
      Some(Webhook.WebhookNotes(n.clerkId, n.name, n.email, n.shippingRate, encode(n.orderItems),
                                None, None, None, None, None)))))
  }

  /** Dividing the minor-unit amount the builder sends by 100 gives back the cart's major-unit total. */
  lemma TotalSurvivesGateway(total: int)
    ensures Webhook.TotalAmount(Some(100 * total)) == total as real
  {
    if total != 0 {
      var t := Webhook.TotalAmount(Some(100 * total));
      assert t * 100.0 == (100 * total) as real;
    }
  }

  /** When the item list decodes to what was encoded, the order recorded for the paid event carries the
      customer, shipping rate and items of the checkout request, and a total equal to the cart's; the
      paying customer's list ends with the new order's id. Address fields are absent. */
  lemma PaidOrderMatchesCheckout(body: OrderIntent.CheckoutBody, now: nat,
                                 gateway: OrderIntent.OrderOptions -> OrderIntent.GatewayReply,
                                 encode: seq<OrderItem> -> string,
                                 cfg: Webhook.Config, req: Webhook.WebhookRequest, s: Store)
    requires OrderIntent.HasCart(body) && OrderIntent.CustomerComplete(body.customer)
    requires OrderIntent.HasProducts(body.cartItems.value)
    requires forall xs :: cfg.parseItems(encode(xs)) == Some(xs)
    requires WellFormed(s)
    requires Webhook.SignatureValid(cfg, req)
    requires cfg.parseEvent(req.rawBody)
          == Some(Echo(OrderIntent.BuildOrderOptions(body.cartItems.value, body.customer.value, now), encode))
    ensures OrderIntent.Post(Some(body), now, gateway).gatewayCalls
         == [OrderIntent.BuildOrderOptions(body.cartItems.value, body.customer.value, now)]
    ensures var cart := body.cartItems.value;
      var customer := body.customer.value;
      var o := Webhook.Receive(cfg, req, Webhook.NO_FAULTS, s);
      && o.response == Webhook.CREATED
      && |o.store.orders| == |s.orders| + 1
      && o.store.orders[|s.orders|] == Order(s.nextId, OrderData(
           customer.clerkId.value,
           OrderIntent.EncodeItems(cart),
           Address(None, None, None, None, None),
           customer.shippingRate.value,
           OrderIntent.CalculateTotalAmount(cart) as real))
      && customer.clerkId.value in o.store.customers
      && var list := o.store.customers[customer.clerkId.value].orders;
         |list| > 0 && list[|list| - 1] == s.nextId
  {
    var cart := body.cartItems.value;
    var options := OrderIntent.BuildOrderOptions(cart, body.customer.value, now);
    OrderIntent.ValidRequestCallsGatewayOnce(body, now, gateway);
    var ev := Echo(options, encode);
    assert cfg.parseItems(encode(options.notes.orderItems)) == Some(options.notes.orderItems);
    Webhook.PaidEventRecordsOrder(cfg, req, s, ev);
    TotalSurvivesGateway(OrderIntent.CalculateTotalAmount(cart));
  }
}
