/**
  The slice of a WooCommerce order that the checkout-flow plugin reads and
  writes: its id, its total and its status.  WooCommerce keeps statuses as
  slugs ("pending", "completed", "processing", ...); the plugin both sets
  them by slug and compares them by slug, so the model keeps a datatype for
  the two statuses the plugin names and a canonical slug for every status.
 */
module Orders {

  const PendingSlug: string := "pending"
  const CompletedSlug: string := "completed"

  /** The statuses the plugin names, and every other status by its slug. */
  datatype OrderStatus = Pending | Completed | Other(slug: string)

  /** `Other` never carries a slug that already has its own constructor. */
  predicate Canonical(s: OrderStatus) {
    s.Other? ==> s.slug != PendingSlug && s.slug != CompletedSlug
  }

  type Status = s: OrderStatus | Canonical(s) witness Pending

  /** The slug WooCommerce stores and `get_status()` returns. */
  function Slug(s: Status): (r: string)
    ensures r == PendingSlug <==> s == Pending
    ensures r == CompletedSlug <==> s == Completed
  {
    match s
    case Pending => PendingSlug
    case Completed => CompletedSlug
    case Other(slug) => slug
  }

  /** The status a slug names, as `set_status( $slug )` records it. */
  function ParseStatus(slug: string): (s: Status)
    ensures Slug(s) == slug
  {
    if slug == PendingSlug then Pending
    else if slug == CompletedSlug then Completed
    else Other(slug)
  }

  /** Reading a status back from its slug gives the same status. */
  lemma ParseSlug(s: Status)
    ensures ParseStatus(Slug(s)) == s
  {
  }

  /** Two statuses with the same slug are the same status. */
  lemma SlugInjective(a: Status, b: Status)
    ensures Slug(a) == Slug(b) <==> a == b
  {
  }

  /**
    An order: its id (0 stands for "no order", as PHP treats a falsy id),
    its total in exact minor currency units, and its status.
   */
  datatype Order = Order(id: nat, total: nat, status: Status)

  /** The plugin's `get_total() == 0` test, compared exactly. */
  predicate IsFree(o: Order) {
    o.total == 0
  }
}
