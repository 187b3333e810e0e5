/** The order history view of the client: which actions it offers on an
    order, how it labels a status, and when it sends a checkout. */
module OrderHistory {
  import opened Common
  import opened Records

  /** `['admin', 'manager'].includes(user?.role) && order.status === 'pending'`. */
  predicate CanCancelOrder(role: Option<string>, status: string) {
    Includes(["admin", "manager"], role) && status == Pending
  }

  /** The checkout button's test, written out separately in the view. */
  predicate CanCheckoutOrder(role: Option<string>, status: string) {
    Includes(["admin", "manager"], role) && status == Pending
  }

  /** Cancel and checkout are offered together or not at all, to admins and
      managers only, and only on pending orders. */
  lemma ActionsOfferedTogether(role: Option<string>, status: string)
    ensures CanCancelOrder(role, status) <==> CanCheckoutOrder(role, status)
    ensures CanCancelOrder(role, status) <==> (role == Some("admin") || role == Some("manager")) && status == Pending
  {
  }

  /** The view loads payment methods only for admins and managers. */
  predicate FetchesPaymentMethods(role: Option<string>) {
    role == Some("admin") || role == Some("manager")
  }

  /** Exactly the users who can be offered checkout get the payment methods to choose from. */
  lemma PaymentMethodsForCheckoutRoles(role: Option<string>)
    ensures FetchesPaymentMethods(role) <==> CanCheckoutOrder(role, Pending)
  {
  }

  /** `getStatusColor(status)`. */
  function StatusColor(status: string): (color: string)
    ensures status == Pending ==> color == "bg-yellow-100 text-yellow-800"
    ensures status == Paid ==> color == "bg-green-100 text-green-800"
    ensures status == Cancelled ==> color == "bg-red-100 text-red-800"
    ensures status != Pending && status != Paid && status != Cancelled ==> color == "bg-gray-100 text-gray-800"
  {
    if status == Pending then "bg-yellow-100 text-yellow-800"
    else if status == Paid then "bg-green-100 text-green-800"
    else if status == Cancelled then "bg-red-100 text-red-800"
    else "bg-gray-100 text-gray-800"
  }

  datatype Glyph = Clock | CheckCircle | XCircle

  /** The element `getStatusIcon(status)` renders: a glyph and its colour class. */
  datatype Icon = Icon(glyph: Glyph, color: string)

  /** `getStatusIcon(status)`. */
  function StatusIcon(status: string): (icon: Icon)
    ensures status == Pending ==> icon == Icon(Clock, "text-yellow-500")
    ensures status == Paid ==> icon == Icon(CheckCircle, "text-green-500")
    ensures status == Cancelled ==> icon == Icon(XCircle, "text-red-500")
    ensures status != Pending && status != Paid && status != Cancelled ==> icon == Icon(Clock, "text-gray-500")
  {
    if status == Pending then Icon(Clock, "text-yellow-500")
    else if status == Paid then Icon(CheckCircle, "text-green-500")
    else if status == Cancelled then Icon(XCircle, "text-red-500")
    else Icon(Clock, "text-gray-500")
  }

  /** The three known statuses and every other one are told apart, both by the
      badge colour and by the icon; every unknown status looks the same, in gray. */
  lemma StatusesLookDifferent(s: string, t: string)
    requires s in [Pending, Paid, Cancelled] || t in [Pending, Paid, Cancelled]
    requires s != t
    ensures StatusColor(s) != StatusColor(t)
    ensures StatusIcon(s) != StatusIcon(t)
  {
  }

  lemma UnknownStatusesLookAlike(s: string, t: string)
    requires s !in [Pending, Paid, Cancelled] && t !in [Pending, Paid, Cancelled]
    ensures StatusColor(s) == StatusColor(t) == "bg-gray-100 text-gray-800"
    ensures StatusIcon(s) == StatusIcon(t)
  {
  }

  /** `order.id.slice(-8)`: the order number shown. */
  function OrderNumber(id: string): (n: string)
    ensures |n| == if |id| < 8 then |id| else 8
    ensures id == id[..|id| - |n|] + n
  {
    if |id| < 8 then id else id[|id| - 8..]
  }

  /** `handleCheckout`: the `paymentMethodId` sent for the selected order, or
      nothing when no payment method is selected (the empty string is falsy). */
  function CheckoutRequest(selectedPaymentMethod: string): (request: Option<string>)
    ensures request.None? <==> selectedPaymentMethod == ""
    ensures request.Some? ==> request.value == selectedPaymentMethod
  {
    if selectedPaymentMethod == "" then None else Some(selectedPaymentMethod)
  }
}
