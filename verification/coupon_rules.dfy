/** The constants of the SAVE10 promotion and the capped discount formula, shared by the
    cart engine's grand total and by the per-item coupon function of the unit tests. */
module CouponRules {

  /** The one coupon code the shop accepts (compared case-sensitively). */
  const ValidCode: string := "SAVE10"

  /** Ten percent off ... */
  const Rate: real := 0.10

  /** ... but never more than 50 currency units. */
  const Cap: real := 50.0

  /** The cart must be worth strictly more than this before the coupon applies. */
  const Threshold: real := 100.0

  /** The smaller of ten percent of the amount and the cap. */
  function Discount(amount: real): (d: real)
    ensures d <= amount * Rate && d <= Cap
    ensures d == amount * Rate || d == Cap
  {
    if amount * Rate <= Cap then amount * Rate else Cap
  }

  /** Below 500 the discount is exactly ten percent; from 500 on it is the cap; it is never
      negative on a non-negative amount and never exceeds the amount. */
  lemma DiscountShape(amount: real)
    ensures amount <= 500.0 ==> Discount(amount) == amount / 10.0
    ensures amount >= 500.0 ==> Discount(amount) == Cap
    ensures amount >= 0.0 ==> 0.0 <= Discount(amount) <= amount
  {
  }
}
