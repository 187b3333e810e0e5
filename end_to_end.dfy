/** How the client views and the server routes fit together: what the client
    sends, what the server then stores, and how the client's gating compares
    with the server's guards. */
module EndToEnd {
  import opened Common
  import opened Store
  import opened Records
  import opened Middleware
  import OrderRoutes
  import PaymentRoutes
  import MenuModal
  import OrderHistory
  import PaymentMethodsView

  /** The server stores whatever total it is sent; an order placed from the menu
      dialog nevertheless ends up with a total equal to the sum of its lines,
      because the dialog computes both from the same cart (the lines and total
      `MenuModal.PayloadOfCart` shows it sends). */
  lemma DialogOrderTotalIsConsistent(orders: Collection<Order>, user: Fields, restaurantId: string,
                                     cart: seq<MenuModal.CartEntry>, restaurants: Collection<Restaurant>,
                                     now: Timestamp, newId: string)
    requires cart != []
    requires "id" in user && RoleAllowed(OrderRoutes.OrderingRoles, user) && restaurantId in Ids(restaurants)
    requires Country(user) == Some(Get(restaurants, restaurantId).value.country)
    ensures var (r, after) := OrderRoutes.CreateStep(orders, user, restaurantId, MenuModal.Lines(cart), MenuModal.Total(cart), restaurants, now, newId);
      && r.Ok? && after == orders + [r.body]
      && r.body.data.totalAmount == ItemsTotal(r.body.data.items) == MenuModal.Total(cart)
      && |r.body.data.items| == |cart|
  {
    MenuModal.TotalIsItemsTotal(cart);
    OrderRoutes.CreatedOrder(orders, user, restaurantId, MenuModal.Lines(cart), MenuModal.Total(cart), restaurants, now, newId);
  }

  /** The dialog offers ordering to exactly the roles the server lets create orders. */
  lemma OrderButtonMatchesServerRoles(user: Fields)
    ensures MenuModal.CanCreateOrder(Role(user)) <==> RoleAllowed(OrderRoutes.OrderingRoles, user)
  {
  }

  /** Whenever the history view offers cancel, the server's role and status
      guards pass; only the country guard (or a stale status) can still refuse. */
  lemma CancelOfferedOnlyWhenServerAgrees(user: Fields, o: Order)
    requires OrderHistory.CanCancelOrder(Role(user), o.status)
    ensures OrderRoutes.CancelCheck(user, Some(o)) == OrderRoutes.Proceed
            || OrderRoutes.CancelCheck(user, Some(o)) == OrderRoutes.Reject(StatusForbidden, CountryRestricted)
    ensures Some(o.country) == Country(user) ==> OrderRoutes.CancelCheck(user, Some(o)) == OrderRoutes.Proceed
  {
  }

  /** The same for checkout: offered only where role and existence pass. */
  lemma CheckoutOfferedOnlyWhenServerAgrees(user: Fields, o: Order, paymentMethodFound: bool)
    requires OrderHistory.CanCheckoutOrder(Role(user), o.status)
    ensures Some(o.country) == Country(user) && paymentMethodFound ==>
              OrderRoutes.CheckoutCheck(user, Some(o), paymentMethodFound) == OrderRoutes.Proceed
    ensures OrderRoutes.CheckoutCheck(user, Some(o), paymentMethodFound) != OrderRoutes.Reject(StatusForbidden, InsufficientPermissions)
  {
  }

  /** The client is stricter than the server: a paid order is neither offered
      cancel nor checkout, yet the server would cancel it, and pay it again. */
  lemma ServerAcceptsWhatClientHides(user: Fields, o: Order, paymentMethodFound: bool)
    requires RoleAllowed(OrderRoutes.StaffRoles, user) && Some(o.country) == Country(user) && paymentMethodFound
    requires o.status == Paid
    ensures !OrderHistory.CanCancelOrder(Role(user), o.status) && !OrderHistory.CanCheckoutOrder(Role(user), o.status)
    ensures OrderRoutes.CancelCheck(user, Some(o)) == OrderRoutes.Proceed
    ensures OrderRoutes.CheckoutCheck(user, Some(o), paymentMethodFound) == OrderRoutes.Proceed
  {
  }

  /** Editing a stored card and saving without retyping the number replaces it
      with its last four digits: the dialog unmasks to those digits, and the
      server's mask leaves four digits as they are. */
  lemma SaveWithoutRetypingKeepsLastFour(s: string)
    requires |s| >= 4 && forall i :: 0 <= i < |s| ==> PaymentRoutes.IsDigit(s[i])
    ensures PaymentRoutes.Mask(PaymentMethodsView.Unmask(PaymentRoutes.Mask(s))) == s[|s| - 4..]
    ensures |s| > 4 ==> PaymentRoutes.Mask(PaymentMethodsView.Unmask(PaymentRoutes.Mask(s))) != PaymentRoutes.Mask(s)
  {
    PaymentMethodsView.UnmaskKeepsLastFour(s);
    PaymentRoutes.MaskShortIsIdentity(s[|s| - 4..]);
  }

  /** A card stored in the grouped mask format, as the seeded cards are
      (`**** **** **** 1234`), comes back from editing with its spaces, and saving
      it without retyping stores `   1234`: the mask leaves it as it is. */
  lemma SeededCardSavedWithSpaces(last: string)
    requires |last| == 4 && forall i :: 0 <= i < |last| ==> PaymentRoutes.IsDigit(last[i])
    ensures PaymentMethodsView.Unmask("**** **** **** " + last) == "   " + last
    ensures PaymentRoutes.Mask(PaymentMethodsView.Unmask("**** **** **** " + last)) == "   " + last
  {
    PaymentMethodsView.SeededCardEditedWithSpaces(last);
    PaymentRoutes.SpacedLastFourIsStoredAsIs(last);
  }
}
