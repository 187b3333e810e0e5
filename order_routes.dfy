/** The `/orders` routes: create, list, cancel and checkout. An order's status is
    a plain string; the guards below are exactly the ones the handlers check, in
    the order they check them. */
module OrderRoutes {
  import opened Common
  import opened Store
  import opened Records
  import opened Middleware

  const OrderingRoles := ["admin", "manager", "member"]
  const StaffRoles := ["admin", "manager"]

  const OrderNotFound := "Order not found"
  const CannotCancel := "Order cannot be cancelled"
  const CancelledMessage := "Order cancelled successfully"
  const PaidMessage := "Order paid successfully"

  /** Whether a handler goes on to write, or the response it returns first. */
  datatype Verdict = Proceed | Reject(status: int, error: string)

  /** Guards of `POST /`: role, then restaurant existence, then the restaurant's country. */
  function CreateCheck(user: Fields, restaurantId: string, restaurants: Collection<Restaurant>): (v: Verdict)
    ensures v == Proceed ==> restaurantId in Ids(restaurants) && Country(user) == Some(Get(restaurants, restaurantId).value.country)
  {
    if !RoleAllowed(OrderingRoles, user) then Reject(StatusForbidden, InsufficientPermissions)
    else match Get(restaurants, restaurantId)
      case None => Reject(StatusNotFound, RestaurantNotFound)
      case Some(restaurant) =>
        if Some(restaurant.country) != Country(user) then Reject(StatusForbidden, CountryRestricted)
        else Proceed
  }

  /** Guards of `PATCH /:orderId/cancel`: role, existence, country, then status;
      only `delivered` and `cancelled` are refused. */
  function CancelCheck(user: Fields, found: Option<Order>): (v: Verdict)
    ensures v == Proceed ==> found.Some?
  {
    if !RoleAllowed(StaffRoles, user) then Reject(StatusForbidden, InsufficientPermissions)
    else if found.None? then Reject(StatusNotFound, OrderNotFound)
    else if Some(found.value.country) != Country(user) then Reject(StatusForbidden, CountryRestricted)
    else if found.value.status == Delivered || found.value.status == Cancelled then Reject(StatusBadRequest, CannotCancel)
    else Proceed
  }

  /** Guards of `POST /:orderId/checkout`: role, existence, country, then whether
      the payment method exists. Neither the order's status nor the payment
      method's country is looked at. */
  function CheckoutCheck(user: Fields, found: Option<Order>, paymentMethodFound: bool): (v: Verdict)
    ensures v == Proceed ==> found.Some?
  {
    if !RoleAllowed(StaffRoles, user) then Reject(StatusForbidden, InsufficientPermissions)
    else if found.None? then Reject(StatusNotFound, OrderNotFound)
    else if Some(found.value.country) != Country(user) then Reject(StatusForbidden, CountryRestricted)
    else if !paymentMethodFound then Reject(StatusNotFound, PaymentMethodNotFound)
    else Proceed
  }

  /** The document `POST /` adds: the caller's id and country, the items and
      total exactly as the client sent them, status `pending`. */
  function NewOrder(user: Fields, restaurantId: string, items: seq<OrderItem>, totalAmount: Amount, now: Timestamp): Order
    requires "id" in user && Country(user).Some?
  {
    Order(user["id"], restaurantId, items, totalAmount, Pending, Country(user).value, now, now, None, None)
  }

  /** `updateDoc(orderDocRef, { status: 'cancelled', updatedAt })`. */
  function CancelledAt(o: Order, now: Timestamp): Order {
    o.(status := Cancelled, updatedAt := now)
  }

  /** `updateDoc(orderDocRef, { status: 'paid', paymentMethodId, paidAt, updatedAt })`. */
  function PaidAt(o: Order, paymentMethodId: string, now: Timestamp): Order {
    o.(status := Paid, paymentMethodId := Some(paymentMethodId), paidAt := Some(now), updatedAt := now)
  }

  /** `POST /` as a whole: the response, and the orders collection afterwards.
      `newId` is the id the store generates. */
  function CreateStep(orders: Collection<Order>, user: Fields, restaurantId: string, items: seq<OrderItem>,
                      totalAmount: Amount, restaurants: Collection<Restaurant>, now: Timestamp, newId: string)
    : (Reply<Doc<Order>>, Collection<Order>)
    requires "id" in user
  {
    match CreateCheck(user, restaurantId, restaurants)
    case Reject(status, error) => (Err(status, error), orders)
    case Proceed =>
      var d := Doc(newId, NewOrder(user, restaurantId, items, totalAmount, now));
      (Ok(StatusCreated, d), orders + [d])
  }

  /** `PATCH /:orderId/cancel` as a whole. */
  function CancelStep(orders: Collection<Order>, user: Fields, orderId: string, now: Timestamp)
    : (Reply<string>, Collection<Order>)
  {
    match CancelCheck(user, Get(orders, orderId))
    case Reject(status, error) => (Err(status, error), orders)
    case Proceed =>
      var k := IndexOf(orders, orderId);
      (Ok(StatusOk, CancelledMessage), orders[k := Doc(orderId, CancelledAt(orders[k].data, now))])
  }

  /** `POST /:orderId/checkout` as a whole. */
  function CheckoutStep(orders: Collection<Order>, user: Fields, orderId: string, paymentMethodId: string,
                        paymentMethods: Collection<PaymentMethod>, now: Timestamp)
    : (Reply<string>, Collection<Order>)
  {
    match CheckoutCheck(user, Get(orders, orderId), paymentMethodId in Ids(paymentMethods))
    case Reject(status, error) => (Err(status, error), orders)
    case Proceed =>
      var k := IndexOf(orders, orderId);
      (Ok(StatusOk, PaidMessage), orders[k := Doc(orderId, PaidAt(orders[k].data, paymentMethodId, now))])
  }

  // ----- creating -----

  /** Creation refuses a role outside admin/manager/member with 403, then a
      missing restaurant with 404, then another country's restaurant with 403,
      and writes nothing in any of these cases. */
  lemma CreateChecksInOrder(orders: Collection<Order>, user: Fields, restaurantId: string, items: seq<OrderItem>,
                            totalAmount: Amount, restaurants: Collection<Restaurant>, now: Timestamp, newId: string)
    requires "id" in user
    ensures var (r, after) := CreateStep(orders, user, restaurantId, items, totalAmount, restaurants, now, newId);
      && (!RoleAllowed(OrderingRoles, user) ==> r == Err(StatusForbidden, InsufficientPermissions) && after == orders)
      && (RoleAllowed(OrderingRoles, user) && restaurantId !in Ids(restaurants) ==>
            r == Err(StatusNotFound, RestaurantNotFound) && after == orders)
      && (RoleAllowed(OrderingRoles, user) && restaurantId in Ids(restaurants)
          && Country(user) != Some(Get(restaurants, restaurantId).value.country) ==>
            r == Err(StatusForbidden, CountryRestricted) && after == orders)
  {
  }

  /** A created order is appended as `pending`, owned by the caller, in the
      caller's country (which is the restaurant's), with the supplied items and
      total stored as sent, even when the total is not the sum of the items. */
  lemma CreatedOrder(orders: Collection<Order>, user: Fields, restaurantId: string, items: seq<OrderItem>,
                     totalAmount: Amount, restaurants: Collection<Restaurant>, now: Timestamp, newId: string)
    requires "id" in user
    requires RoleAllowed(OrderingRoles, user) && restaurantId in Ids(restaurants)
    requires Country(user) == Some(Get(restaurants, restaurantId).value.country)
    ensures var (r, after) := CreateStep(orders, user, restaurantId, items, totalAmount, restaurants, now, newId);
      && r.Ok? && r.status == StatusCreated && r.body.id == newId && after == orders + [r.body]
      && r.body.data.status == Pending && r.body.data.userId == user["id"]
      && r.body.data.restaurantId == restaurantId
      && r.body.data.country == Country(user).value == Get(restaurants, restaurantId).value.country
      && r.body.data.items == items && r.body.data.totalAmount == totalAmount
      && r.body.data.paymentMethodId.None? && r.body.data.paidAt.None?
  {
  }

  // ----- cancelling and paying -----

  /** Cancel refuses, in this order: a role other than admin/manager (403), a
      missing order (404), another country's order (403), a delivered or
      cancelled order (400); any other status, `paid` included, is cancelled. */
  lemma CancelChecksInOrder(orders: Collection<Order>, user: Fields, orderId: string, now: Timestamp)
    ensures var (r, after) := CancelStep(orders, user, orderId, now);
      && (!RoleAllowed(StaffRoles, user) ==> r == Err(StatusForbidden, InsufficientPermissions) && after == orders)
      && (RoleAllowed(StaffRoles, user) && orderId !in Ids(orders) ==> r == Err(StatusNotFound, OrderNotFound) && after == orders)
      && (RoleAllowed(StaffRoles, user) && orderId in Ids(orders) ==>
            var o := Get(orders, orderId).value;
            && (Some(o.country) != Country(user) ==> r == Err(StatusForbidden, CountryRestricted) && after == orders)
            && (Some(o.country) == Country(user) && (o.status == Delivered || o.status == Cancelled) ==>
                  r == Err(StatusBadRequest, CannotCancel) && after == orders)
            && (Some(o.country) == Country(user) && o.status != Delivered && o.status != Cancelled ==>
                  r == Ok(StatusOk, CancelledMessage)
                  && after == orders[IndexOf(orders, orderId) := Doc(orderId, CancelledAt(o, now))]))
  {
  }

  /** Cancelling an order that is already cancelled never succeeds and never
      changes the collection; a staff member of its country gets 400. */
  lemma CancelIsNotRepeatable(orders: Collection<Order>, user: Fields, orderId: string, now: Timestamp)
    requires orderId in Ids(orders) && Get(orders, orderId).value.status == Cancelled
    ensures CancelStep(orders, user, orderId, now).0.Err?
    ensures CancelStep(orders, user, orderId, now).1 == orders
    ensures RoleAllowed(StaffRoles, user) && Country(user) == Some(Get(orders, orderId).value.country) ==>
              CancelStep(orders, user, orderId, now).0 == Err(StatusBadRequest, CannotCancel)
  {
  }

  /** As written, cancel does not require `pending`: a paid order is cancelled. */
  lemma PaidOrderIsCancellable(orders: Collection<Order>, user: Fields, orderId: string, now: Timestamp)
    requires RoleAllowed(StaffRoles, user) && orderId in Ids(orders)
    requires Get(orders, orderId).value.status == Paid
    requires Country(user) == Some(Get(orders, orderId).value.country)
    ensures CancelStep(orders, user, orderId, now).0.Ok?
    ensures orderId in Ids(CancelStep(orders, user, orderId, now).1)
    ensures Get(CancelStep(orders, user, orderId, now).1, orderId).value.status == Cancelled
  {
    var k := IndexOf(orders, orderId);
    var after := CancelStep(orders, user, orderId, now).1;
    assert after[k].id == orderId;
    assert orderId in Ids(after);
    assert IndexOf(after, orderId) == k by {
      assert forall j :: 0 <= j < k ==> after[j] == orders[j];
    }
  }

  /** Checkout refuses, in this order: a role other than admin/manager (403), a
      missing order (404), another country's order (403), a missing payment
      method (404). The status of the order plays no part, nor does the payment
      method's country. */
  lemma CheckoutChecksInOrder(orders: Collection<Order>, user: Fields, orderId: string, paymentMethodId: string,
                              paymentMethods: Collection<PaymentMethod>, now: Timestamp)
    ensures var (r, after) := CheckoutStep(orders, user, orderId, paymentMethodId, paymentMethods, now);
      && (!RoleAllowed(StaffRoles, user) ==> r == Err(StatusForbidden, InsufficientPermissions) && after == orders)
      && (RoleAllowed(StaffRoles, user) && orderId !in Ids(orders) ==> r == Err(StatusNotFound, OrderNotFound) && after == orders)
      && (RoleAllowed(StaffRoles, user) && orderId in Ids(orders) ==>
            var o := Get(orders, orderId).value;
            && (Some(o.country) != Country(user) ==> r == Err(StatusForbidden, CountryRestricted) && after == orders)
            && (Some(o.country) == Country(user) && paymentMethodId !in Ids(paymentMethods) ==>
                  r == Err(StatusNotFound, PaymentMethodNotFound) && after == orders)
            && (Some(o.country) == Country(user) && paymentMethodId in Ids(paymentMethods) ==>
                  r == Ok(StatusOk, PaidMessage)
                  && after == orders[IndexOf(orders, orderId) := Doc(orderId, PaidAt(o, paymentMethodId, now))]))
  {
  }

  /** As written, checkout has no status guard: the verdict is the same whatever
      the stored status is, so a cancelled (or already paid) order is paid. */
  lemma CheckoutIgnoresStatus(user: Fields, o: Order, status: string, paymentMethodFound: bool)
    ensures CheckoutCheck(user, Some(o), paymentMethodFound) == CheckoutCheck(user, Some(o.(status := status)), paymentMethodFound)
  {
  }

  /** Checkout only asks whether a payment method with that id exists: two stores
      holding the same ids, whatever the methods' data (their country included),
      give the same reply and the same orders. */
  lemma CheckoutIgnoresMethodData(orders: Collection<Order>, user: Fields, orderId: string, paymentMethodId: string,
                                  methods: Collection<PaymentMethod>, others: Collection<PaymentMethod>, now: Timestamp)
    requires |others| == |methods|
    requires forall i :: 0 <= i < |methods| ==> others[i].id == methods[i].id
    ensures CheckoutStep(orders, user, orderId, paymentMethodId, methods, now)
            == CheckoutStep(orders, user, orderId, paymentMethodId, others, now)
  {
    assert Ids(methods) == Ids(others) by {
      forall x ensures x in Ids(methods) <==> x in Ids(others) {
        if x in Ids(methods) {
          var i :| 0 <= i < |methods| && methods[i].id == x;
          assert others[i].id == x;
        }
        if x in Ids(others) {
          var i :| 0 <= i < |others| && others[i].id == x;
          assert methods[i].id == x;
        }
      }
    }
  }

  // ----- what never changes -----

  /** The fields of an order that no handler writes after creation. */
  predicate SameIdentity(a: Order, b: Order) {
    a.userId == b.userId && a.restaurantId == b.restaurantId && a.items == b.items
    && a.totalAmount == b.totalAmount && a.country == b.country && a.createdAt == b.createdAt
  }

  /** `after` keeps every order of `before` at its place, with its id and identity fields. */
  predicate Evolves(before: Collection<Order>, after: Collection<Order>) {
    |before| <= |after|
    && forall i :: 0 <= i < |before| ==> after[i].id == before[i].id && SameIdentity(before[i].data, after[i].data)
  }

  lemma EvolvesTransitive(a: Collection<Order>, b: Collection<Order>, c: Collection<Order>)
    requires Evolves(a, b) && Evolves(b, c)
    ensures Evolves(a, c)
  {
  }

  /** One request to the orders routes. */
  datatype Request =
    | CreateOrder(user: Fields, restaurantId: string, items: seq<OrderItem>, totalAmount: Amount, newId: string)
    | CancelOrder(user: Fields, orderId: string)
    | CheckoutOrder(user: Fields, orderId: string, paymentMethodId: string)

  /** The orders collection after serving one request at instant `now`. */
  function Apply(orders: Collection<Order>, request: Request, now: Timestamp,
                 restaurants: Collection<Restaurant>, paymentMethods: Collection<PaymentMethod>): Collection<Order>
    requires "id" in request.user
  {
    match request
    case CreateOrder(user, restaurantId, items, totalAmount, newId) =>
      CreateStep(orders, user, restaurantId, items, totalAmount, restaurants, now, newId).1
    case CancelOrder(user, orderId) => CancelStep(orders, user, orderId, now).1
    case CheckoutOrder(user, orderId, paymentMethodId) =>
      CheckoutStep(orders, user, orderId, paymentMethodId, paymentMethods, now).1
  }

  /** Every single request keeps every order at its place with its identity fields. */
  lemma ApplyEvolves(orders: Collection<Order>, request: Request, now: Timestamp,
                     restaurants: Collection<Restaurant>, paymentMethods: Collection<PaymentMethod>)
    requires "id" in request.user
    ensures Evolves(orders, Apply(orders, request, now, restaurants, paymentMethods))
  {
  }

  /** The orders collection after serving `requests` one after another, each at its own instant. */
  function Serve(orders: Collection<Order>, requests: seq<Request>, times: seq<Timestamp>,
                 restaurants: Collection<Restaurant>, paymentMethods: Collection<PaymentMethod>): Collection<Order>
    requires |times| == |requests|
    requires forall i :: 0 <= i < |requests| ==> "id" in requests[i].user
    decreases |requests|
  {
    if requests == [] then orders
    else Serve(Apply(orders, requests[0], times[0], restaurants, paymentMethods), requests[1..], times[1..],
               restaurants, paymentMethods)
  }

  /** Whatever requests are served, no order disappears or moves, and no order's
      owner, restaurant, items, total, country or creation time ever changes. */
  lemma {:induction false} ServeEvolves(orders: Collection<Order>, requests: seq<Request>, times: seq<Timestamp>,
                                        restaurants: Collection<Restaurant>, paymentMethods: Collection<PaymentMethod>)
    requires |times| == |requests|
    requires forall i :: 0 <= i < |requests| ==> "id" in requests[i].user
    ensures Evolves(orders, Serve(orders, requests, times, restaurants, paymentMethods))
    decreases |requests|
  {
    if requests != [] {
      var next := Apply(orders, requests[0], times[0], restaurants, paymentMethods);
      ApplyEvolves(orders, requests[0], times[0], restaurants, paymentMethods);
      assert forall i :: 0 <= i < |requests[1..]| ==> requests[1..][i] == requests[i + 1];
      ServeEvolves(next, requests[1..], times[1..], restaurants, paymentMethods);
      EvolvesTransitive(orders, next, Serve(next, requests[1..], times[1..], restaurants, paymentMethods));
    }
  }

  // ----- listing -----

  /** `orderBy('createdAt', 'desc')`. */
  predicate NewestFirst(s: Collection<Order>) {
    forall i, j :: 0 <= i < j < |s| ==> s[i].data.createdAt >= s[j].data.createdAt
  }

  /** Every element of `s` is at most `bound`. */
  predicate NoNewerThan(bound: Timestamp, s: Collection<Order>) {
    forall i :: 0 <= i < |s| ==> s[i].data.createdAt <= bound
  }

  function InsertNewestFirst(d: Doc<Order>, s: Collection<Order>): (r: Collection<Order>)
    requires NewestFirst(s)
    ensures NewestFirst(r)
    ensures multiset(r) == multiset(s) + multiset{d}
    ensures forall bound :: d.data.createdAt <= bound && NoNewerThan(bound, s) ==> NoNewerThan(bound, r)
  {
    if s == [] || d.data.createdAt >= s[0].data.createdAt then
      PrependNewest(d, s);
      [d] + s
    else
      var rest := InsertNewestFirst(d, s[1..]);
      assert s == [s[0]] + s[1..];
      PrependNewest(s[0], rest);
      [s[0]] + rest
  }

  /** Putting in front an order no older than the head of a newest-first list
      keeps it newest first, and keeps any bound both respect. */
  lemma PrependNewest(d: Doc<Order>, s: Collection<Order>)
    requires NewestFirst(s)
    requires s == [] || d.data.createdAt >= s[0].data.createdAt
    ensures NewestFirst([d] + s)
    ensures forall bound :: d.data.createdAt <= bound && NoNewerThan(bound, s) ==> NoNewerThan(bound, [d] + s)
  {
    var r := [d] + s;
    forall i, j | 0 <= i < j < |r| ensures r[i].data.createdAt >= r[j].data.createdAt {
      if i == 0 {
        assert r[j] == s[j - 1];
      } else {
        assert r[i] == s[i - 1] && r[j] == s[j - 1];
      }
    }
  }

  /** The store's ordering of a query result: newest first, nothing added or lost. */
  function SortNewestFirst(s: Collection<Order>): (r: Collection<Order>)
    ensures NewestFirst(r)
    ensures multiset(r) == multiset(s)
  {
    if s == [] then []
    else
      assert s == [s[0]] + s[1..];
      InsertNewestFirst(s[0], SortNewestFirst(s[1..]))
  }

  predicate OwnedInCountry(userId: string, country: Option<string>, o: Order) {
    o.userId == userId && Some(o.country) == country
  }

  /** The orders routes' view of the orders collection. */
  class OrderStore {
    var orders: Collection<Order>

    ghost predicate Valid()
      reads this
    {
      UniqueIds(orders)
    }

    constructor (initial: Collection<Order>)
      requires UniqueIds(initial)
      ensures Valid() && orders == initial
    {
      orders := initial;
    }

    /** `POST /`; `now` is the handler's clock reading and `newId` the id `addDoc` generates. */
    method Create(user: Fields, restaurantId: string, items: seq<OrderItem>, totalAmount: Amount,
                  restaurants: Collection<Restaurant>, now: Timestamp, newId: string)
      returns (r: Reply<Doc<Order>>)
      requires Valid() && "id" in user && newId !in Ids(orders)
      modifies this
      ensures Valid()
      ensures (r, orders) == CreateStep(old(orders), user, restaurantId, items, totalAmount, restaurants, now, newId)
    {
      if !Includes(OrderingRoles, Role(user)) {
        return Err(StatusForbidden, InsufficientPermissions);
      }
      var restaurantDoc := Get(restaurants, restaurantId);
      if restaurantDoc.None? {
        return Err(StatusNotFound, RestaurantNotFound);
      }
      if Some(restaurantDoc.value.country) != Country(user) {
        return Err(StatusForbidden, CountryRestricted);
      }
      var orderData := Order(user["id"], restaurantId, items, totalAmount, Pending, Country(user).value, now, now, None, None);
      orders := orders + [Doc(newId, orderData)];
      return Ok(StatusCreated, Doc(newId, orderData));
    }

    /** `GET /`: the caller's own orders in the caller's country, newest first.
        A user without a country makes the query itself fail. */
    method List(user: Fields) returns (r: Reply<Collection<Order>>)
      requires "id" in user
      ensures Country(user).None? ==> r == Err(StatusInternalError, InternalServerError)
      ensures Country(user).Some? ==> r.Ok? && r.status == StatusOk
      ensures r.Ok? ==> forall d :: d in r.body <==>
                d in orders && d.data.userId == user["id"] && Some(d.data.country) == Country(user)
      ensures r.Ok? ==> NewestFirst(r.body)
      ensures r.Ok? ==> multiset(r.body) == multiset(Where(orders, (o: Order) => OwnedInCountry(user["id"], Country(user), o)))
    {
      var country := Country(user);
      if country.None? {
        return Err(StatusInternalError, InternalServerError);
      }
      var matching := Where(orders, (o: Order) => OwnedInCountry(user["id"], country, o));
      var snapshot := SortNewestFirst(matching);
      var list := [];
      for i := 0 to |snapshot|
        invariant list == snapshot[..i]
      {
        list := list + [Doc(snapshot[i].id, snapshot[i].data)];
      }
      assert list == snapshot;
      forall d ensures d in list <==> d in orders && d.data.userId == user["id"] && Some(d.data.country) == country {
        WhereMembers(orders, (o: Order) => OwnedInCountry(user["id"], country, o), d);
        assert d in list <==> d in multiset(snapshot);
        assert d in matching <==> d in multiset(matching);
      }
      return Ok(StatusOk, list);
    }

    /** `PATCH /:orderId/cancel`. */
    method Cancel(user: Fields, orderId: string, now: Timestamp) returns (r: Reply<string>)
      requires Valid()
      modifies this
      ensures Valid()
      ensures (r, orders) == CancelStep(old(orders), user, orderId, now)
    {
      if !Includes(StaffRoles, Role(user)) {
        return Err(StatusForbidden, InsufficientPermissions);
      }
      var orderDoc := Get(orders, orderId);
      if orderDoc.None? {
        return Err(StatusNotFound, OrderNotFound);
      }
      var orderData := orderDoc.value;
      if Some(orderData.country) != Country(user) {
        return Err(StatusForbidden, CountryRestricted);
      }
      if orderData.status == Delivered || orderData.status == Cancelled {
        return Err(StatusBadRequest, CannotCancel);
      }
      var k := IndexOf(orders, orderId);
      orders := orders[k := Doc(orderId, orderData.(status := Cancelled, updatedAt := now))];
      return Ok(StatusOk, CancelledMessage);
    }

    /** `POST /:orderId/checkout`; the payment methods collection is only read. */
    method Checkout(user: Fields, orderId: string, paymentMethodId: string,
                    paymentMethods: Collection<PaymentMethod>, now: Timestamp)
      returns (r: Reply<string>)
      requires Valid()
      modifies this
      ensures Valid()
      ensures (r, orders) == CheckoutStep(old(orders), user, orderId, paymentMethodId, paymentMethods, now)
    {
      if !Includes(StaffRoles, Role(user)) {
        return Err(StatusForbidden, InsufficientPermissions);
      }
      var orderDoc := Get(orders, orderId);
      if orderDoc.None? {
        return Err(StatusNotFound, OrderNotFound);
      }
      var orderData := orderDoc.value;
      if Some(orderData.country) != Country(user) {
        return Err(StatusForbidden, CountryRestricted);
      }
      var paymentMethodDoc := Get(paymentMethods, paymentMethodId);
      if paymentMethodDoc.None? {
        return Err(StatusNotFound, PaymentMethodNotFound);
      }
      var k := IndexOf(orders, orderId);
      orders := orders[k := Doc(orderId, orderData.(status := Paid, paymentMethodId := Some(paymentMethodId),
                                                     paidAt := Some(now), updatedAt := now))];
      return Ok(StatusOk, PaidMessage);
    }
  }
}
