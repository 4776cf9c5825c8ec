/** An in-memory stand-in for the document store behind the Order and Customer models: an append-only
    sequence of orders, customers keyed by their external identity `clerkId`, and a supply of fresh
    order identities. Every operation takes a flag that makes it fail, standing for a database error. */
module OrderStore {
  import opened Shared

  type OrderId = nat

  datatype Address = Address(street: Option<string>, city: Option<string>, state: Option<string>,
                             postalCode: Option<string>, country: Option<string>)

  /** The fields of an Order document other than its identity. `totalAmount` is in major units. */
  datatype OrderData = OrderData(customerClerkId: string, products: seq<OrderItem>, shippingAddress: Address,
                                 shippingRate: string, totalAmount: real)

  datatype Order = Order(id: OrderId, data: OrderData)

  datatype Customer = Customer(clerkId: string, name: string, email: string, orders: seq<OrderId>)

  datatype Store = Store(orders: seq<Order>, customers: map<string, Customer>, nextId: OrderId)

  /** The result of looking a customer up by `clerkId`. */
  datatype Lookup = LookupFailed | NotFound | Found(customer: Customer)

  /** The customer refers only to ids the supply has handed out. */
  predicate RefersBelow(c: Customer, nextId: OrderId) {
    forall j | 0 <= j < |c.orders| :: c.orders[j] < nextId
  }

  /** Every stored order id and every order reference a customer holds was handed out by the supply,
      and each customer sits under its own key. */
  predicate WellFormed(s: Store) {
    && (forall i | 0 <= i < |s.orders| :: s.orders[i].id < s.nextId)
    && (forall k | k in s.customers :: s.customers[k].clerkId == k && RefersBelow(s.customers[k], s.nextId))
  }

  /** Ids of the stored orders, in insertion order. */
  function OrderIds(orders: seq<Order>): (ids: seq<OrderId>)
    ensures |ids| == |orders|
    ensures forall i | 0 <= i < |orders| :: ids[i] == orders[i].id
  {
    if orders == [] then [] else OrderIds(orders[..|orders| - 1]) + [orders[|orders| - 1].id]
  }

  /** Inserting an order: the supply's next id is attached to it and the supply moves on. */
  function AddOrder(s: Store, data: OrderData): Store {
    Store(s.orders + [Order(s.nextId, data)], s.customers, s.nextId + 1)
  }

  /** Saving a customer document overwrites whatever was stored under its key. */
  function PutCustomer(s: Store, c: Customer): Store {
    Store(s.orders, s.customers[c.clerkId := c], s.nextId)
  }

  /** The id an insertion hands out is held by no stored order and referenced by no customer, and
      insertion keeps the store well formed, adds exactly one order after the unchanged earlier ones
      and leaves the customers alone. */
  lemma AddOrderFresh(s: Store, data: OrderData)
    requires WellFormed(s)
    ensures var t := AddOrder(s, data);
      && WellFormed(t)
      && s.nextId !in OrderIds(s.orders)
      && (forall k | k in s.customers :: s.nextId !in s.customers[k].orders)
      && |t.orders| == |s.orders| + 1
      && t.orders[..|s.orders|] == s.orders
      && OrderIds(t.orders) == OrderIds(s.orders) + [s.nextId]
      && t.orders[|s.orders|] == Order(s.nextId, data)
      && t.customers == s.customers
  {
    var t := AddOrder(s, data);
    assert t.orders[..|t.orders| - 1] == s.orders;
  }

  /** Saving a customer touches only that customer's key and leaves the orders alone; the store stays
      well formed when the customer refers only to handed-out ids. */
  lemma PutCustomerOnlyThatKey(s: Store, c: Customer)
    requires WellFormed(s)
    ensures var t := PutCustomer(s, c);
      && (RefersBelow(c, s.nextId) ==> WellFormed(t))
      && t.customers.Keys == s.customers.Keys + {c.clerkId}
      && t.customers[c.clerkId] == c
      && (forall k | k in s.customers && k != c.clerkId :: t.customers[k] == s.customers[k])
      && t.orders == s.orders
  {
  }

  class Database {
    var orders: seq<Order>
    var customers: map<string, Customer>
    var nextId: OrderId

    function State(): Store
      reads this
    {
      Store(orders, customers, nextId)
    }

    predicate Valid()
      reads this
    {
      WellFormed(State())
    }

    constructor ()
      ensures Valid() && State() == Store([], map[], 0)
    {
      orders, customers, nextId := [], map[], 0;
    }

    /** `newOrder.save()`: on success the order is appended with a fresh id, which is returned. */
    method SaveOrder(data: OrderData, fail: bool) returns (id: Option<OrderId>)
      requires Valid()
      modifies this
      ensures Valid()
      ensures fail ==> id == None && State() == old(State())
      ensures !fail ==> id == Some(old(nextId)) && State() == AddOrder(old(State()), data)
    {
      if fail {
        return None;
      }
      id := Some(nextId);
      orders := orders + [Order(nextId, data)];
      nextId := nextId + 1;
    }

    /** `Customer.findOne({ clerkId })`. */
    method FindCustomer(clerkId: string, fail: bool) returns (r: Lookup)
      requires Valid()
      ensures fail ==> r == LookupFailed
      ensures !fail && clerkId in customers ==> r == Found(customers[clerkId]) && r.customer.clerkId == clerkId
      ensures !fail && clerkId !in customers ==> r == NotFound
    {
      if fail {
        r := LookupFailed;
      } else if clerkId in customers {
        r := Found(customers[clerkId]);
      } else {
        r := NotFound;
      }
    }

    /** `customer.save()`: on success the document is stored under its `clerkId`. The stand-in store
        holds references to handed-out order ids only, so the document must refer to no other. */
    method SaveCustomer(c: Customer, fail: bool) returns (ok: bool)
      requires Valid() && RefersBelow(c, nextId)
      modifies this
      ensures Valid()
      ensures ok == !fail
      ensures ok ==> State() == PutCustomer(old(State()), c)
      ensures !ok ==> State() == old(State())
    {
      if fail {
        return false;
      }
      customers := customers[c.clerkId := c];
      ok := true;
    }
  }
}
