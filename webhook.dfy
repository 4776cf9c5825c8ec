/** The webhook reconciler: `POST` of the webhooks endpoint, run once per delivery.
    It checks the keyed hash of the raw body against the signature header, parses the event and, on
    "order.paid" only, inserts one Order and then upserts the paying Customer. `Receive` gives the
    outcome of one delivery as a function of the store before it; `HandleWebhook` performs the same
    steps one at a time against a `Database` and is proved to end where `Receive` says. */
module Webhook {
  import opened Shared
  import opened OrderStore

  /** The metadata bag echoed back by the gateway. The builder writes the first five fields; the
      address fields are read here but never written by the builder, so each may be absent.
      `postalCode` is the notes' `postal_code`. */
  datatype WebhookNotes = WebhookNotes(clerkId: string, name: string, email: string, shippingRate: string,
                                       orderItems: string,
                                       street: Option<string>, city: Option<string>, state: Option<string>,
                                       postalCode: Option<string>, country: Option<string>)

  /** `payload.payment.entity`. A missing `amount` or `notes` is None. */
  datatype PaymentEntity = PaymentEntity(amount: Option<int>, notes: Option<WebhookNotes>)

  /** A parsed event envelope: its type and, when the path exists, its payment entity. */
  datatype Event = Event(event: string, entity: Option<PaymentEntity>)

  /** The raw body and the `x-razorpay-signature` header (None when the header is absent). */
  datatype WebhookRequest = WebhookRequest(rawBody: string, signature: Option<string>)

  /** The process-wide collaborators: the shared secret, the hex HMAC-SHA256 of a body under a secret,
      and the JSON decoders for the envelope and for the serialised item list (None: parsing throws, or
      the envelope is not an object whose `event` can be read). */
  datatype Config = Config(secret: string, hmac: (string, string) -> string,
                           parseEvent: string -> Option<Event>,
                           parseItems: string -> Option<seq<OrderItem>>)

  /** Which store operations fail in this delivery: connecting, the order save, the customer lookup,
      the customer save. */
  datatype Faults = Faults(connect: bool, orderSave: bool, lookup: bool, customerSave: bool)

  const NO_FAULTS := Faults(false, false, false, false)

  datatype CustomerInfo = CustomerInfo(clerkId: string, name: string, email: string)

  /** What a payment event yields before anything is written: the customer and the new order's fields. */
  datatype Payment = Payment(info: CustomerInfo, data: OrderData)

  datatype Outcome = Outcome(response: Response, store: Store)

  const PAID_EVENT := "order.paid"

  const CREATED := Response(200, Text("Order created"), map[])
  const FAILED := Response(500, Text("Failed to create the order"), map[])

  /** The signature header equals the keyed hash of the exact raw body (a plain string comparison). */
  predicate SignatureValid(cfg: Config, req: WebhookRequest)
    ensures SignatureValid(cfg, req) ==> req.signature.Some?
  {
    req.signature == Some(cfg.hmac(cfg.secret, req.rawBody))
  }

  /** `session.amount ? session.amount / 100 : 0`, the major-unit total of the order. */
  function TotalAmount(amount: Option<int>): (t: real)
    ensures amount.Some? && amount.value != 0 ==> t * 100.0 == amount.value as real
    ensures amount.None? || amount.value == 0 ==> t == 0.0
  {
    if amount.Some? && amount.value != 0 then amount.value as real / 100.0 else 0.0
  }

  function ShippingAddress(notes: WebhookNotes): Address {
    Address(notes.street, notes.city, notes.state, notes.postalCode, notes.country)
  }

  /** Reads what the reconciliation needs from an "order.paid" event; None when the entity or its
      notes are missing or the item list does not parse, each of which throws in the handler. */
  function ReadPayment(cfg: Config, ev: Event): (p: Option<Payment>)
    ensures p.Some? <==> ev.entity.Some? && ev.entity.value.notes.Some?
                         && cfg.parseItems(ev.entity.value.notes.value.orderItems).Some?
  {
    if ev.entity.None? || ev.entity.value.notes.None? then None
    else
      var notes := ev.entity.value.notes.value;
      match cfg.parseItems(notes.orderItems)
      case None => None
      case Some(items) =>
        Some(Payment(CustomerInfo(notes.clerkId, notes.name, notes.email),
                     OrderData(notes.clerkId, items, ShippingAddress(notes), notes.shippingRate,
                               TotalAmount(ev.entity.value.amount))))
  }

  /** The customer document to save: the found one with the new id pushed on its orders, or a new
      one seeded from the event with that id alone. */
  function Linked(found: Lookup, info: CustomerInfo, id: OrderId): (c: Customer)
    requires !found.LookupFailed?
    ensures |c.orders| >= 1 && c.orders[|c.orders| - 1] == id
    ensures found.Found? ==> c.clerkId == found.customer.clerkId && c.name == found.customer.name
                             && c.email == found.customer.email
                             && c.orders[..|c.orders| - 1] == found.customer.orders
    ensures found.NotFound? ==> c.clerkId == info.clerkId && c.name == info.name && c.email == info.email
                                && c.orders == [id]
  {
    match found
    case Found(c) => c.(orders := c.orders + [id])
    case NotFound => Customer(info.clerkId, info.name, info.email, [id])
  }

  function LookupIn(s: Store, clerkId: string): Lookup {
    if clerkId in s.customers then Found(s.customers[clerkId]) else NotFound
  }

  /** The delivery is correctly signed, parses, and is an "order.paid" event. */
  predicate IsVerifiedPayment(cfg: Config, req: WebhookRequest) {
    && SignatureValid(cfg, req)
    && cfg.parseEvent(req.rawBody).Some?
    && cfg.parseEvent(req.rawBody).value.event == PAID_EVENT
  }

  /** One delivery, from the store before it to the response and the store after it. The response is
      200 or 500; the orders either stay as they were or gain one order under the supply's next id
      after the unchanged earlier ones; nothing is written unless the delivery is a verified payment;
      a customer is written only on 200; and a well-formed store stays well formed. */
  function Receive(cfg: Config, req: WebhookRequest, faults: Faults, s: Store): (o: Outcome)
    ensures o.response == CREATED || o.response == FAILED
    ensures o.store == s || (|o.store.orders| == |s.orders| + 1 && o.store.orders[..|s.orders|] == s.orders
                             && o.store.orders[|s.orders|].id == s.nextId && o.store.nextId == s.nextId + 1)
    ensures !IsVerifiedPayment(cfg, req) ==> o.store == s
    ensures o.store.customers != s.customers ==> o.response == CREATED
    ensures WellFormed(s) ==> WellFormed(o.store)
  {
    if !SignatureValid(cfg, req) then Outcome(FAILED, s)
    else
      match cfg.parseEvent(req.rawBody)
      case None => Outcome(FAILED, s)
      case Some(ev) =>
        if ev.event != PAID_EVENT then Outcome(CREATED, s)
        else
          match ReadPayment(cfg, ev)
          case None => Outcome(FAILED, s)
          case Some(p) =>
            if faults.connect || faults.orderSave then Outcome(FAILED, s)
            else
              var id := s.nextId;
              var saved := AddOrder(s, p.data);
              assert saved.orders[..|s.orders|] == s.orders;
              if faults.lookup then Outcome(FAILED, saved)
              else
                var customer := Linked(LookupIn(saved, p.info.clerkId), p.info, id);
                assert WellFormed(s) ==> RefersBelow(customer, saved.nextId);
                if faults.customerSave then Outcome(FAILED, saved)
                else Outcome(CREATED, PutCustomer(saved, customer))
  }

  /** The handler, step by step against the store. */
  method HandleWebhook(db: Database, cfg: Config, req: WebhookRequest, faults: Faults) returns (resp: Response)
    requires db.Valid()
    modifies db
    ensures db.Valid()
    ensures Outcome(resp, db.State()) == Receive(cfg, req, faults, old(db.State()))
  {
    if !SignatureValid(cfg, req) {
      return FAILED;
    }
    var parsed := cfg.parseEvent(req.rawBody);
    if parsed.None? {
      return FAILED;
    }
    var ev := parsed.value;
    if ev.event != PAID_EVENT {
      return CREATED;
    }
    var payment := ReadPayment(cfg, ev);
    if payment.None? {
      return FAILED;
    }
    var p := payment.value;
    if faults.connect {
      return FAILED;
    }
    var id := db.SaveOrder(p.data, faults.orderSave);
    if id.None? {
      return FAILED;
    }
    var found := db.FindCustomer(p.info.clerkId, faults.lookup);
    if found.LookupFailed? {
      return FAILED;
    }
    var customer := Linked(found, p.info, id.value);
    var ok := db.SaveCustomer(customer, faults.customerSave);
    resp := if ok then CREATED else FAILED;
  }

  /** A signature other than the keyed hash of the raw body ends in 500 and writes nothing. */
  lemma InvalidSignatureChangesNothing(cfg: Config, req: WebhookRequest, faults: Faults, s: Store)
    requires !SignatureValid(cfg, req)
    ensures Receive(cfg, req, faults, s) == Outcome(FAILED, s)
  {
  }

  /** A correctly signed body that does not parse ends in 500 and writes nothing. */
  lemma MalformedPayloadChangesNothing(cfg: Config, req: WebhookRequest, faults: Faults, s: Store)
    requires SignatureValid(cfg, req) && cfg.parseEvent(req.rawBody).None?
    ensures Receive(cfg, req, faults, s) == Outcome(FAILED, s)
  {
  }

  /** A correctly signed event of any type other than "order.paid" succeeds and writes nothing. */
  lemma OtherEventsIgnored(cfg: Config, req: WebhookRequest, faults: Faults, s: Store, ev: Event)
    requires SignatureValid(cfg, req) && cfg.parseEvent(req.rawBody) == Some(ev) && ev.event != PAID_EVENT
    ensures Receive(cfg, req, faults, s) == Outcome(CREATED, s)
  {
  }

  /** On "order.paid", a missing entity or notes bag, an unparsable item list, a failed connection or
      a failed order save ends in 500 and writes nothing. */
  lemma FailureBeforeOrderSaveChangesNothing(cfg: Config, req: WebhookRequest, faults: Faults, s: Store, ev: Event)
    requires SignatureValid(cfg, req) && cfg.parseEvent(req.rawBody) == Some(ev) && ev.event == PAID_EVENT
    requires ReadPayment(cfg, ev).None? || faults.connect || faults.orderSave
    ensures Receive(cfg, req, faults, s) == Outcome(FAILED, s)
  {
  }

  /** A well-formed "order.paid" delivery: the fields of the one new order, read from the event. */
  predicate RecordsPaidOrder(cfg: Config, ev: Event, s: Store, t: Store)
    requires ev.entity.Some? && ev.entity.value.notes.Some?
    requires cfg.parseItems(ev.entity.value.notes.value.orderItems).Some?
  {
    var notes := ev.entity.value.notes.value;
    t.orders == s.orders + [Order(s.nextId, OrderData(
      notes.clerkId,
      cfg.parseItems(notes.orderItems).value,
      Address(notes.street, notes.city, notes.state, notes.postalCode, notes.country),
      notes.shippingRate,
      TotalAmount(ev.entity.value.amount)))]
  }

  /** On a well-formed "order.paid" with no store failure: 200, exactly one order added with a fresh id
      and the fields taken from the event, the paying customer linked to it, and every other customer
      left as it was. An existing customer keeps its name and email and gains the id at the end of its
      list; a new one is created from the notes with that id alone. */
  lemma PaidEventRecordsOrder(cfg: Config, req: WebhookRequest, s: Store, ev: Event)
    requires WellFormed(s)
    requires SignatureValid(cfg, req) && cfg.parseEvent(req.rawBody) == Some(ev) && ev.event == PAID_EVENT
    requires ReadPayment(cfg, ev).Some?
    ensures var o := Receive(cfg, req, NO_FAULTS, s);
      var notes := ev.entity.value.notes.value;
      var k := notes.clerkId;
      && o.response == CREATED
      && WellFormed(o.store)
      && RecordsPaidOrder(cfg, ev, s, o.store)
      && s.nextId !in OrderIds(s.orders)
      && (forall j | j in s.customers :: s.nextId !in s.customers[j].orders)
      && o.store.nextId == s.nextId + 1
      && o.store.customers.Keys == s.customers.Keys + {k}
      && (k in s.customers ==>
            o.store.customers[k] == Customer(k, s.customers[k].name, s.customers[k].email,
                                              s.customers[k].orders + [s.nextId]))
      && (k !in s.customers ==> o.store.customers[k] == Customer(k, notes.name, notes.email, [s.nextId]))
      && s.nextId in o.store.customers[k].orders
      && (forall j | j in s.customers && j != k :: o.store.customers[j] == s.customers[j])
  {
    var p := ReadPayment(cfg, ev).value;
    var saved := AddOrder(s, p.data);
    AddOrderFresh(s, p.data);
    var customer := Linked(LookupIn(saved, p.info.clerkId), p.info, s.nextId);
    PutCustomerOnlyThatKey(saved, customer);
    assert customer.orders[|customer.orders| - 1] == s.nextId;
  }

  /** The same "order.paid" delivered twice adds two orders with the same fields and two new ids at
      the end of the customer's list: nothing removes duplicates. */
  lemma RedeliveryDuplicatesOrder(cfg: Config, req: WebhookRequest, s: Store, ev: Event)
    requires WellFormed(s)
    requires SignatureValid(cfg, req) && cfg.parseEvent(req.rawBody) == Some(ev) && ev.event == PAID_EVENT
    requires ReadPayment(cfg, ev).Some?
    ensures var first := Receive(cfg, req, NO_FAULTS, s);
      var second := Receive(cfg, req, NO_FAULTS, first.store);
      var k := ev.entity.value.notes.value.clerkId;
      var before := if k in s.customers then s.customers[k].orders else [];
      && first.response == CREATED && second.response == CREATED
      && |second.store.orders| == |s.orders| + 2
      && second.store.orders[|s.orders|].data == second.store.orders[|s.orders| + 1].data
      && second.store.orders[|s.orders|].id != second.store.orders[|s.orders| + 1].id
      && second.store.customers[k].orders == before + [s.nextId, s.nextId + 1]
  {
    var first := Receive(cfg, req, NO_FAULTS, s);
    PaidEventRecordsOrder(cfg, req, s, ev);
    PaidEventRecordsOrder(cfg, req, first.store, ev);
    var k := ev.entity.value.notes.value.clerkId;
    var before := if k in s.customers then s.customers[k].orders else [];
    assert first.store.customers[k].orders == before + [s.nextId];
  }

  /** Delivering the same paid event twice to an empty database leaves two orders, ids 0 and 1, with
      the same fields, and one customer whose list holds both ids. */
  method RedeliveryOnEmptyDatabase(cfg: Config, req: WebhookRequest, ev: Event)
    returns (orders: seq<Order>, customers: map<string, Customer>)
    requires SignatureValid(cfg, req) && cfg.parseEvent(req.rawBody) == Some(ev) && ev.event == PAID_EVENT
    requires ReadPayment(cfg, ev).Some?
    ensures var k := ev.entity.value.notes.value.clerkId;
      && |orders| == 2 && orders[0].id == 0 && orders[1].id == 1
      && orders[0].data == orders[1].data == ReadPayment(cfg, ev).value.data
      && customers.Keys == {k}
      && customers[k].orders == [0, 1]
  {
    var db := new Database();
    var empty := db.State();
    var first := HandleWebhook(db, cfg, req, NO_FAULTS);
    var middle := db.State();
    var second := HandleWebhook(db, cfg, req, NO_FAULTS);
    RedeliveryDuplicatesOrder(cfg, req, empty, ev);
    PaidEventRecordsOrder(cfg, req, empty, ev);
    PaidEventRecordsOrder(cfg, req, middle, ev);
    orders, customers := db.orders, db.customers;
  }

  /** A failed customer lookup or customer save after the order save ends in 500 but the new order
      stays: the two writes are not undone together. The customers are left as they were. */
  lemma CustomerFailureKeepsOrder(cfg: Config, req: WebhookRequest, faults: Faults, s: Store, ev: Event)
    requires SignatureValid(cfg, req) && cfg.parseEvent(req.rawBody) == Some(ev) && ev.event == PAID_EVENT
    requires ReadPayment(cfg, ev).Some?
    requires !faults.connect && !faults.orderSave && (faults.lookup || faults.customerSave)
    ensures var o := Receive(cfg, req, faults, s);
      && o.response == FAILED
      && RecordsPaidOrder(cfg, ev, s, o.store)
      && o.store.customers == s.customers
  {
  }

  /** The example amount: 100000 minor units are recorded as a total of 1000. */
  lemma ExampleTotal()
    ensures TotalAmount(Some(100000)) == 1000.0
  {
  }
}
