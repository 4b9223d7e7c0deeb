# Custom Checkout Flow — a Dafny model

The "Custom Checkout Flow" WooCommerce plugin turns off payment-method
selection at checkout and routes each order by its total through three
callbacks in `multistep-checkout.php`. What the callbacks intend: a free
order is completed at once and the buyer stays on the thank-you page; a
paid order is set to `pending`, and a thank-you visit to a `pending` order
sends the buyer on to the order-pay page. This project models each callback
as a pure function and proves what it promises, alone and together. Whether
a deployed store ever shows the thank-you page to a still-`pending` order
depends on when WooCommerce itself completes payment, which is not part of
this model (see "## Left out").

- `orders.dfy` (module `Orders`): the order as the callbacks see it (id,
  total, status), and WooCommerce's status slugs. `Status` is `Pending`,
  `Completed` or `Other(slug)`. A subset type keeps `Other` from reusing
  the slugs `pending` and `completed`, so a status and its slug determine
  each other.
- `checkout_flow.dfy` (module `CheckoutFlow`): the create-order hook
  (`OnCreate`), the thank-you handler (`ThankYou`) and the payment-complete
  status filter (`PaymentCompleteStatus`), plus the lemmas on how they
  combine.
- `lifecycle.dfy` (module `Lifecycle`): one order's life as a trace of hook
  invocations. `External` stands for status changes made by anything other
  than the plugin. `Replay` folds the trace into the final order, and
  `Visits` lists what the thank-you handler did on each visit.

Framework calls become values:
- `wc_get_order` is a map from order ids to orders.
- `get_checkout_payment_url()` is a function parameter `paymentUrl` of the
  order id. "Redirected to its own payment URL" means the URL is
  `paymentUrl(order.id)`.
- `wp_safe_redirect(...); exit;` becomes the result `Redirect(url)`.
- A plain `return` becomes `NoAction` when there is no order id, and `Stay`
  after the order has been looked at.
- A non-zero id that names no order gives `Fatal`. `wc_get_order` then
  returns `false`, and the handler calls `get_total()` on it.

A total is an exact number of minor currency units (a `nat`), and the
source's `get_total() == 0` is modelled as exact equality with zero. An
order id of 0 stands for every falsy `$order_id`.

## Model

| member | source | states |
|---|---|---|
| `Orders.Slug` | multistep-checkout.php:40 | the slug of a status is `pending` exactly for `Pending` and `completed` exactly for `Completed`, so the handler's `=== 'pending'` test is a test for the pending status |
| `Orders.ParseStatus` | multistep-checkout.php:20-23 | the status written by `set_status( $slug )` has that slug again |
| `Orders.ParseSlug` | multistep-checkout.php:20-40 | reading a status back from its slug gives the status that was written |
| `Orders.SlugInjective` | multistep-checkout.php:40 | two statuses have the same slug if and only if they are the same status |
| `CheckoutFlow.StatusOnCreate` | multistep-checkout.php:18-24 | the status written by slug (`set_status( 'completed' )` or `set_status( 'pending' )`) is `completed` if and only if the total is zero, and `pending` if and only if it is not |
| `CheckoutFlow.OnCreate` | multistep-checkout.php:17-25 | the create hook keeps the order's id and total; a free order becomes `completed` and any other order becomes `pending` |
| `CheckoutFlow.OnCreateDependsOnlyOnTotal` | multistep-checkout.php:17-25 | the status set at creation ignores the previous status and the checkout data, so running the hook twice equals running it once |
| `CheckoutFlow.ThankYou` | multistep-checkout.php:28-45 | no order id: no action. Unknown id: fatal error. Free order: stay. Non-free order with any status other than `pending`: stay. Redirect if and only if the order is non-free and `pending`, and then to exactly its own payment URL |
| `CheckoutFlow.PaidButNotPendingStays` | multistep-checkout.php:40-45 | a non-free order whose status is anything other than `pending` is not redirected |
| `CheckoutFlow.PaymentCompleteStatus` | multistep-checkout.php:48-54 | at payment completion a free order gets `completed` whatever status was proposed; any other order keeps the proposed status |
| `CheckoutFlow.PaymentCompleteIdempotent` | multistep-checkout.php:48-54 | applying the payment-complete filter twice equals applying it once |
| `CheckoutFlow.CreateThenThankYou` | multistep-checkout.php:17-44 | an order whose status was set by the create hook is redirected if and only if its total is non-zero, then to its own payment URL; a free one stays |
| `CheckoutFlow.CreateThenPaymentComplete` | multistep-checkout.php:17-54 | a free order completed at creation is still `completed` after the payment-complete filter, whatever status is proposed |
| `Lifecycle.Replay` | multistep-checkout.php:17-54 | no sequence of hook invocations changes an order's id or total |
| `Lifecycle.FreeOrderNeverRedirected` | multistep-checkout.php:35-38 | on every thank-you visit in any trace, a free order stays on the thank-you page, even after outside status changes |
| `Lifecycle.FreeOrderStaysCompleted` | multistep-checkout.php:48-52 | a completed free order stays `completed` through any trace of the plugin's own callbacks |
| `Lifecycle.FreeCheckoutEndsCompleted` | multistep-checkout.php:17-54 | a free order that goes through checkout and then only the plugin's callbacks ends `completed` |
| `Lifecycle.UnpaidOrderAlwaysRedirected` | multistep-checkout.php:40-44 | a pending non-free order is sent to its own payment URL on every visit of a trace with no payment completion and no outside status change |
| `Lifecycle.VisitsAppend` | multistep-checkout.php:28-45 | the thank-you outcomes of a trace are those of any prefix followed by those of the rest, replayed from the order the prefix leaves |
| `Lifecycle.PaidCheckoutRedirectsUntilPaid` | multistep-checkout.php:17-44 | in any trace that starts with checkout, a non-free order is sent to its own payment URL on every thank-you visit before the first payment completion or outside status change, whatever follows |
| `Lifecycle.PaidOrderStaysAfterPayment` | multistep-checkout.php:40-53 | once payment completes with a status other than `pending`, the next thank-you visit stays |
| `Lifecycle.CompletedAtCheckoutStays` | multistep-checkout.php:17-53 | if payment completes straight after checkout with a status other than `pending` (for example `processing`), the following thank-you visit stays, so the buyer never reaches the payment page |

## Left out

- `assets/js/multistep-checkout.js`: browser DOM building of the state field and `localStorage` persistence. This is UI, with no decision logic.
- The `woocommerce_cart_needs_payment` filter at line 14: it is a constant `false`, with no logic of its own. What it does to WooCommerce's checkout path (which path runs, and whether payment is completed at checkout) is WooCommerce code that is not part of this model; `Lifecycle.CompletedAtCheckoutStays` states what follows if payment is completed right after creation.
- The order of events in a trace: `Lifecycle` accepts any sequence of hook invocations and does not encode the order in which WooCommerce fires them, so its lemmas describe what the callbacks do on each possible trace, not which trace a deployed store produces.
- Hook registration and priorities (`add_action`/`add_filter`) and the direct-access guard at lines 9-11: these are framework wiring.
- `wc_get_order`, `get_checkout_payment_url()`, `wp_safe_redirect` and `exit`: these are I/O and framework calls. They become a map of orders, a function parameter, and returned values (see above).
- PHP float and loose `==` semantics for totals: a total is an exact count of minor units, and only exact zero is free.
- WooCommerce's own status handling (the `wc-` prefix, the list of registered statuses): a status is a canonical slug.
- Idempotent order creation, duplicate-submission handling, billing-field validation and status audit trails: the plugin implements none of these, so there is no code to model them from.
