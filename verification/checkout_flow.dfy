/**
  The three callbacks of the custom checkout flow, with the WordPress
  plumbing removed: each is a pure function of the order it is given.

  - `OnCreate`: the `woocommerce_checkout_create_order` action, which picks
    the new order's status from its total;
  - `ThankYou`: the `woocommerce_thankyou` action, which decides whether the
    buyer is sent on to the order-pay page;
  - `PaymentCompleteStatus`: the `woocommerce_payment_complete_order_status`
    filter, which forces free orders to `completed`.
 */
module CheckoutFlow {
  import opened Orders

  /** The posted checkout fields handed to the create hook (and ignored by it). */
  type CheckoutData = map<string, string>

  /** What the thank-you handler does with the request. */
  datatype ThankYouAction =
    | NoAction          // returned at once: there is no order id
    | Stay              // returned after looking at the order: the page renders
    | Redirect(url: string) // `wp_safe_redirect` to this URL, then `exit`
    | Fatal             // `wc_get_order` found nothing and the handler called a method on `false`

  /** The status the create hook writes: decided by the total alone. */
  function StatusOnCreate(total: nat): (s: Status)
    ensures s == Completed <==> total == 0
    ensures s == Pending <==> total != 0
  {
    ParseStatus(if total == 0 then CompletedSlug else PendingSlug)
  }

  /** The create hook applied to the order being built at checkout. */
  function OnCreate(o: Order, data: CheckoutData): (r: Order)
    ensures r.id == o.id && r.total == o.total
    ensures IsFree(o) ==> r.status == Completed
    ensures !IsFree(o) ==> r.status == Pending
  {
    o.(status := StatusOnCreate(o.total))
  }

  /**
    The create hook ignores the previous status and the checkout data, so
    two orders that differ only in those get the same status, and running
    the hook a second time changes nothing.
   */
  lemma OnCreateDependsOnlyOnTotal(a: Order, b: Order, da: CheckoutData, db: CheckoutData)
    requires a.id == b.id && a.total == b.total
    ensures OnCreate(a, da) == OnCreate(b, db)
    ensures OnCreate(OnCreate(a, da), db) == OnCreate(a, da)
  {
  }

  /**
    The thank-you handler.  `orders` stands for `wc_get_order`, and
    `paymentUrl` for `get_checkout_payment_url()`, a WooCommerce call the
    model treats as an unknown function of the order id.
   */
  function ThankYou(orderId: nat, orders: map<nat, Order>, paymentUrl: nat -> string): (r: ThankYouAction)
    ensures orderId == 0 ==> r == NoAction
    ensures orderId != 0 && orderId !in orders ==> r == Fatal
    ensures orderId != 0 && orderId in orders && IsFree(orders[orderId]) ==> r == Stay
    ensures r.Redirect? <==>
      orderId != 0 && orderId in orders
      && !IsFree(orders[orderId]) && orders[orderId].status == Pending
    ensures r.Redirect? ==> r.url == paymentUrl(orders[orderId].id)
    ensures (orderId != 0 && orderId in orders && !IsFree(orders[orderId])
             && orders[orderId].status != Pending) ==> r == Stay
  {
    if orderId == 0 then
      NoAction
    else if orderId !in orders then
      Fatal
    else
      var order := orders[orderId];
      if order.total == 0 then
        Stay
      else if Slug(order.status) == PendingSlug then
        Redirect(paymentUrl(order.id))
      else
        Stay
  }

  /** The thank-you handler on an order that is in the store under its own id. */
  function VisitThankYou(o: Order, paymentUrl: nat -> string): ThankYouAction {
    ThankYou(o.id, map[o.id := o], paymentUrl)
  }

  /** A non-free order whose status is anything but `pending` is not redirected. */
  lemma PaidButNotPendingStays(orderId: nat, orders: map<nat, Order>, paymentUrl: nat -> string)
    requires orderId != 0 && orderId in orders
    requires !IsFree(orders[orderId]) && orders[orderId].status != Pending
    ensures ThankYou(orderId, orders, paymentUrl) == Stay
  {
  }

  /** The payment-complete filter: free orders always end `completed`. */
  function PaymentCompleteStatus(proposed: Status, order: Order): (r: Status)
    ensures IsFree(order) ==> r == Completed
    ensures !IsFree(order) ==> r == proposed
  {
    if order.total == 0 then Completed else proposed
  }

  /** Filtering an already filtered status gives the same status. */
  lemma PaymentCompleteIdempotent(proposed: Status, order: Order)
    ensures PaymentCompleteStatus(PaymentCompleteStatus(proposed, order), order)
         == PaymentCompleteStatus(proposed, order)
  {
  }

  /**
    An order whose status was set by the create hook, and not changed since,
    is sent to its own payment page exactly when its total is non-zero; a
    free one stays on the thank-you page.
   */
  lemma CreateThenThankYou(o: Order, data: CheckoutData, orders: map<nat, Order>, paymentUrl: nat -> string)
    requires o.id != 0
    ensures var created := OnCreate(o, data);
      var action := ThankYou(o.id, orders[o.id := created], paymentUrl);
      && (action.Redirect? <==> !IsFree(o))
      && (action.Redirect? ==> action.url == paymentUrl(o.id))
      && (IsFree(o) ==> action == Stay)
  {
  }

  /** A free order completed at creation is still completed after payment completes. */
  lemma CreateThenPaymentComplete(o: Order, data: CheckoutData, proposed: Status)
    requires IsFree(o)
    ensures var created := OnCreate(o, data);
      PaymentCompleteStatus(proposed, created) == created.status == Completed
  {
  }
}
