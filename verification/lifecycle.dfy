/**
  One order's life as a sequence of hook invocations.  WooCommerce fires the
  plugin's callbacks at checkout, on the thank-you page and when payment
  completes; anything else that changes the order's status (an admin, a
  gateway) is an `External` event.  Replaying a trace shows how the three
  callbacks compose.  A trace is any sequence of events: the model does not
  fix the order in which WooCommerce itself fires them.
 */
module Lifecycle {
  import opened Orders
  import opened CheckoutFlow

  datatype Event =
    | Create(data: CheckoutData)       // woocommerce_checkout_create_order
    | PaymentComplete(proposed: Status) // woocommerce_payment_complete_order_status, then the status is saved
    | Visit                            // woocommerce_thankyou for this order
    | External(status: Status)         // a status change made outside the plugin

  /** The order after one event; a visit to the thank-you page changes nothing. */
  function Apply(o: Order, e: Event): Order {
    match e
    case Create(data) => OnCreate(o, data)
    case PaymentComplete(proposed) => o.(status := PaymentCompleteStatus(proposed, o))
    case Visit => o
    case External(s) => o.(status := s)
  }

  /** The order after every event of the trace, in order. */
  function Replay(o: Order, events: seq<Event>): (r: Order)
    ensures r.id == o.id && r.total == o.total
    decreases |events|
  {
    if events == [] then o else Replay(Apply(o, events[0]), events[1..])
  }

  /** What the thank-you handler did on each visit of the trace, in order. */
  function Visits(o: Order, events: seq<Event>, paymentUrl: nat -> string): (r: seq<ThankYouAction>)
    ensures |r| <= |events|
    decreases |events|
  {
    if events == [] then []
    else
      var here := if events[0].Visit? then [VisitThankYou(o, paymentUrl)] else [];
      here + Visits(Apply(o, events[0]), events[1..], paymentUrl)
  }

  /** The visits of a trace split at any point: those before it, then those after it. */
  lemma {:induction false} VisitsAppend(o: Order, a: seq<Event>, b: seq<Event>, paymentUrl: nat -> string)
    ensures Visits(o, a + b, paymentUrl) == Visits(o, a, paymentUrl) + Visits(Replay(o, a), b, paymentUrl)
    decreases |a|
  {
    if a == [] {
      assert a + b == b;
    } else {
      assert (a + b)[0] == a[0];
      assert (a + b)[1..] == a[1..] + b;
      VisitsAppend(Apply(o, a[0]), a[1..], b, paymentUrl);
    }
  }

  /** Only the plugin's own callbacks and thank-you visits happen. */
  predicate PluginOnly(events: seq<Event>) {
    forall i :: 0 <= i < |events| ==> !events[i].External?
  }

  /** Only checkout and thank-you visits happen: the order is never paid. */
  predicate Unpaid(events: seq<Event>) {
    forall i :: 0 <= i < |events| ==> events[i].Create? || events[i].Visit?
  }

  /** A free order is never redirected, whatever happens to its status. */
  lemma {:induction false} FreeOrderNeverRedirected(o: Order, events: seq<Event>, paymentUrl: nat -> string)
    requires o.id != 0 && IsFree(o)
    ensures forall i :: 0 <= i < |Visits(o, events, paymentUrl)| ==> Visits(o, events, paymentUrl)[i] == Stay
    decreases |events|
  {
    if events != [] {
      var next := Apply(o, events[0]);
      FreeOrderNeverRedirected(next, events[1..], paymentUrl);
    }
  }

  /**
    Once a free order has been through checkout, the plugin's callbacks keep
    it `completed`: the create hook completes it and the payment-complete
    filter never takes that back.
   */
  lemma {:induction false} FreeOrderStaysCompleted(o: Order, events: seq<Event>)
    requires IsFree(o) && o.status == Completed
    requires PluginOnly(events)
    ensures Replay(o, events).status == Completed
    decreases |events|
  {
    if events != [] {
      FreeOrderStaysCompleted(Apply(o, events[0]), events[1..]);
    }
  }

  /** A free order checked out and then driven only by the plugin ends `completed`. */
  lemma FreeCheckoutEndsCompleted(o: Order, data: CheckoutData, events: seq<Event>)
    requires IsFree(o)
    requires PluginOnly(events)
    ensures Replay(o, [Create(data)] + events).status == Completed
  {
    assert ([Create(data)] + events)[1..] == events;
    FreeOrderStaysCompleted(OnCreate(o, data), events);
  }

  /**
    A non-free order that has been checked out and not yet paid is sent to
    its own payment page on every thank-you visit.
   */
  lemma {:induction false} UnpaidOrderAlwaysRedirected(o: Order, events: seq<Event>, paymentUrl: nat -> string)
    requires o.id != 0 && !IsFree(o) && o.status == Pending
    requires Unpaid(events)
    ensures forall i :: 0 <= i < |Visits(o, events, paymentUrl)| ==>
      Visits(o, events, paymentUrl)[i] == Redirect(paymentUrl(o.id))
    decreases |events|
  {
    if events != [] {
      UnpaidOrderAlwaysRedirected(Apply(o, events[0]), events[1..], paymentUrl);
    }
  }

  /**
    A non-free order checked out with the plugin is sent to its own payment
    page on every thank-you visit that comes before the first payment
    completion or outside status change, whatever happens afterwards.
   */
  lemma PaidCheckoutRedirectsUntilPaid(o: Order, data: CheckoutData, before: seq<Event>, after: seq<Event>,
                                       paymentUrl: nat -> string)
    requires o.id != 0 && !IsFree(o)
    requires Unpaid(before)
    ensures var early := Visits(o, [Create(data)] + before, paymentUrl);
      var all := Visits(o, [Create(data)] + before + after, paymentUrl);
      && |early| <= |all| && all[..|early|] == early
      && forall i :: 0 <= i < |early| ==> early[i] == Redirect(paymentUrl(o.id))
  {
    var trace := [Create(data)] + before;
    assert trace[1..] == before;
    UnpaidOrderAlwaysRedirected(OnCreate(o, data), before, paymentUrl);
    VisitsAppend(o, trace, after, paymentUrl);
  }

  /** Once payment completes with a status other than `pending`, the next visit stays. */
  lemma PaidOrderStaysAfterPayment(o: Order, proposed: Status, paymentUrl: nat -> string)
    requires o.id != 0 && proposed != Pending
    ensures Visits(o, [PaymentComplete(proposed), Visit], paymentUrl) == [Stay]
  {
  }

  /**
    A checkout whose payment is completed straight after the order is created,
    with any status other than `pending`, never reaches the payment page: the
    thank-you visit that follows stays.
   */
  lemma CompletedAtCheckoutStays(o: Order, data: CheckoutData, proposed: Status, paymentUrl: nat -> string)
    requires o.id != 0 && proposed != Pending
    ensures Visits(o, [Create(data), PaymentComplete(proposed), Visit], paymentUrl) == [Stay]
  {
    assert [Create(data), PaymentComplete(proposed), Visit][1..] == [PaymentComplete(proposed), Visit];
    PaidOrderStaysAfterPayment(OnCreate(o, data), proposed, paymentUrl);
  }
}
