/**
 * Forgiving numeric arguments: `months` and `limit` are clamped into a closed
 * range with `max(lo, min(hi, x))`; an out-of-range value is never rejected.
 */
module Clamp {
  import opened Wrappers

  /** Depth of the margin and account history, in months. */
  const HistoryMonthsMax := 24
  /** Rows returned by the top-customer listing. */
  const CustomerLimitMax := 100
  /** Rows returned by the product listing. */
  const ProductLimitMax := 50

  /** Declared defaults: `months: int = 6`, `limit: int = 20`. */
  const DefaultMonths := 6
  const DefaultLimit := 20

  /** An integer argument as the tool receives it: the given value, or the default when left out. */
  function Given(arg: Option<int>, default: int): int
  {
    if arg.Some? then arg.value else default
  }

  function Distance(x: int, y: int): nat
  {
    if x <= y then y - x else x - y
  }

  /**
   * `max(lo, min(hi, x))`: the value of the range closest to `x`, which is
   * `x` itself when it lies in the range and otherwise the bound it crossed.
   */
  function ClampTo(lo: int, hi: int, x: int): (r: int)
    requires lo <= hi
    ensures lo <= r <= hi
    ensures forall y :: lo <= y <= hi ==> Distance(r, x) <= Distance(y, x)
    ensures lo <= x <= hi ==> r == x
    ensures x < lo ==> r == lo
    ensures x > hi ==> r == hi
  {
    var upper := if x < hi then x else hi;
    if lo > upper then lo else upper
  }

  /** Clamping is idempotent: a clamped value passes through unchanged. */
  lemma ClampIdempotent(lo: int, hi: int, x: int)
    requires lo <= hi
    ensures ClampTo(lo, hi, ClampTo(lo, hi, x)) == ClampTo(lo, hi, x)
  {
  }

  /** Clamping preserves order: a larger request never yields a smaller value. */
  lemma ClampMonotonic(lo: int, hi: int, x: int, y: int)
    requires lo <= hi && x <= y
    ensures ClampTo(lo, hi, x) <= ClampTo(lo, hi, y)
  {
  }

  /** `months` of `get_margin_history` and `get_account_history`. */
  function ClampMonths(months: int): (r: int)
    ensures 1 <= r <= HistoryMonthsMax
    ensures 1 <= months <= HistoryMonthsMax ==> r == months
    ensures months < 1 ==> r == 1
    ensures months > HistoryMonthsMax ==> r == HistoryMonthsMax
  {
    ClampTo(1, HistoryMonthsMax, months)
  }

  /** `limit` of `get_top_customers`. */
  function ClampCustomerLimit(limit: int): (r: int)
    ensures 1 <= r <= CustomerLimitMax
    ensures 1 <= limit <= CustomerLimitMax ==> r == limit
    ensures limit < 1 ==> r == 1
    ensures limit > CustomerLimitMax ==> r == CustomerLimitMax
  {
    ClampTo(1, CustomerLimitMax, limit)
  }

  /** `limit` of `get_product_performance`. */
  function ClampProductLimit(limit: int): (r: int)
    ensures 1 <= r <= ProductLimitMax
    ensures 1 <= limit <= ProductLimitMax ==> r == limit
    ensures limit < 1 ==> r == 1
    ensures limit > ProductLimitMax ==> r == ProductLimitMax
  {
    ClampTo(1, ProductLimitMax, limit)
  }

  /**
   * A left-out argument is the default itself: 6 months of history, 20
   * rows of either listing, all inside their ranges, so clamping keeps them.
   */
  lemma DefaultsKept()
    ensures ClampMonths(Given(None, DefaultMonths)) == 6
    ensures ClampCustomerLimit(Given(None, DefaultLimit)) == 20
    ensures ClampProductLimit(Given(None, DefaultLimit)) == 20
  {
  }
}
