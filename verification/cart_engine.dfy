/** The cart context: cart lines plus coupon state, the six operations it exposes, the
    revocation rule that runs after every change of the cart or of the applied flag, and
    the derived grand total. Each operation is a pure transition on a `State`. */
module CartEngine {
  import opened CartItems
  import opened JsString
  import CouponRules

  const ErrEmpty: string := "Coupon code should not be empty."
  const ErrInvalid: string := "Invalid coupon code."
  const ErrBelowThreshold: string := "Cart total must be over $100 to apply this coupon."
  const ErrRevoked: string := "Coupon removed: Cart total dropped below $100."

  /** The context's state: `cart`, `couponCode`, `isCouponApplied` and `couponError`.
      The grand total is not stored: `GrandTotal` derives it. */
  datatype State = State(cart: Cart, couponCode: string, applied: bool, error: string)

  /** A state the revocation rule leaves alone: an applied coupon implies the cart is
      worth more than the threshold. */
  predicate Settled(s: State) {
    s.applied ==> PreDiscount(s.cart) > CouponRules.Threshold
  }

  /** Everything every reachable state satisfies, given a well-formed starting cart. */
  predicate Invariant(s: State) {
    WellFormed(s.cart) && Settled(s)
  }

  /** The revocation rule: a coupon applied to a cart worth at most 100 is withdrawn, its
      code cleared and the advisory error shown; any other state is left as it is. */
  function Revoke(s: State): (r: State)
    ensures Settled(r)
    ensures r.cart == s.cart
    ensures r.applied == (s.applied && PreDiscount(s.cart) > CouponRules.Threshold)
    ensures r.applied != s.applied ==> r.couponCode == "" && r.error == ErrRevoked
    ensures r.applied == s.applied ==> r == s
  {
    if s.applied && PreDiscount(s.cart) <= CouponRules.Threshold then
      s.(applied := false, couponCode := "", error := ErrRevoked)
    else
      s
  }

  /** On a settled state the revocation rule does nothing. */
  lemma RevokeSettled(s: State)
    requires Settled(s)
    ensures Revoke(s) == s
  {
  }

  /** What a cart operation promises about the state after it settles: the new cart is
      in place; the coupon survives exactly when it was applied and the new cart is worth
      more than the threshold; if it survives the code is kept and the error cleared,
      otherwise the code is cleared and the revocation error shown. */
  predicate SettledAfter(s: State, cart: Cart, r: State) {
    && r.cart == cart
    && (r.applied <==> s.applied && PreDiscount(cart) > CouponRules.Threshold)
    && (r.applied == s.applied ==> r.couponCode == s.couponCode && r.error == "")
    && (r.applied != s.applied ==> r.couponCode == "" && r.error == ErrRevoked)
  }

  /** Every cart operation: replace the cart, clear the error, then run the revocation
      rule. The revocation error, assigned later, wins over the cleared error. */
  function AfterCartChange(s: State, cart: Cart): (r: State)
    ensures SettledAfter(s, cart, r) && Settled(r)
  {
    Revoke(s.(cart := cart, error := ""))
  }

  /** `addToCart(product, quantity)`: merge or append, then settle the coupon. */
  function AddToCart(s: State, product: Product, quantity: int): (r: State)
    ensures SettledAfter(s, AddItem(s.cart, product, quantity), r)
  {
    AfterCartChange(s, AddItem(s.cart, product, quantity))
  }

  /** `updateQuantity(id, quantity)`: the engine stores the quantity it is given, then
      settles the coupon. */
  function UpdateQuantity(s: State, id: Id, quantity: int): (r: State)
    ensures SettledAfter(s, SetQuantity(s.cart, id, quantity), r)
  {
    AfterCartChange(s, SetQuantity(s.cart, id, quantity))
  }

  /** `removeFromCart(id)`: filter the line out, then settle the coupon. */
  function RemoveFromCart(s: State, id: Id): (r: State)
    ensures SettledAfter(s, Without(s.cart, id), r)
  {
    AfterCartChange(s, Without(s.cart, id))
  }

  /** The quantity input's handler in the cart view: the entered number raised to at
      least one, then passed to `updateQuantity`. The floor of one lives here, not in the
      engine. */
  function ChangeQuantity(s: State, id: Id, value: int): (r: State)
    ensures SettledAfter(s, SetQuantity(s.cart, id, if value < 1 then 1 else value), r)
    ensures |r.cart| == |s.cart|
    ensures forall i :: 0 <= i < |s.cart| && s.cart[i].id == id ==>
      r.cart[i].quantity >= 1 && (value <= 0 ==> r.cart[i].quantity == 1) && (value >= 1 ==> r.cart[i].quantity == value)
    ensures PositiveQuantities(s.cart) ==> PositiveQuantities(r.cart)
  {
    UpdateQuantity(s, id, if value < 1 then 1 else value)
  }

  /** `setCouponCode(text)`: a raw setter; nothing is validated and nothing else changes. */
  function SetCouponCode(s: State, text: string): (r: State)
    ensures r.couponCode == text
    ensures r.cart == s.cart && r.applied == s.applied && r.error == s.error
  {
    s.(couponCode := text)
  }

  /** `applyCoupon()`: the first failing check sets its error and returns, leaving the
      applied flag as it was; if all pass the coupon is applied with no error. The cart
      and the stored (untrimmed) code never change. */
  function ApplyCoupon(s: State): (r: State)
    ensures r.cart == s.cart && r.couponCode == s.couponCode
    ensures AllWhitespace(s.couponCode) ==> r.error == ErrEmpty && r.applied == s.applied
    ensures !AllWhitespace(s.couponCode) && Trim(s.couponCode) != CouponRules.ValidCode ==>
      r.error == ErrInvalid && r.applied == s.applied
    ensures Trim(s.couponCode) == CouponRules.ValidCode && PreDiscount(s.cart) <= CouponRules.Threshold ==>
      r.error == ErrBelowThreshold && r.applied == s.applied
    ensures r.error == "" <==> Trim(s.couponCode) == CouponRules.ValidCode && PreDiscount(s.cart) > CouponRules.Threshold
    ensures r.error == "" ==> r.applied
    ensures r.applied != s.applied ==> Revoke(r) == r
    ensures Settled(s) ==> Settled(r)
  {
    var code := Trim(s.couponCode);
    if code == [] then s.(error := ErrEmpty)
    else if code != CouponRules.ValidCode then s.(error := ErrInvalid)
    else if PreDiscount(s.cart) <= CouponRules.Threshold then s.(error := ErrBelowThreshold)
    else s.(applied := true, error := "")
  }

  /** `removeCoupon()`: unconditionally back to no coupon and no error. */
  function RemoveCoupon(s: State): (r: State)
    ensures r.cart == s.cart && !r.applied && r.couponCode == "" && r.error == ""
  {
    s.(applied := false, couponCode := "", error := "")
  }

  /** `calculateTotal()`: the pre-discount sum, less the discount when a coupon is
      applied; the discount is the smaller of ten percent and 50, so the total is the
      larger of 90 percent of the sum and the sum less 50. */
  function GrandTotal(cart: Cart, applied: bool): (g: real)
    ensures !applied ==> g == PreDiscount(cart)
    ensures applied ==> g >= PreDiscount(cart) * 0.9 && g >= PreDiscount(cart) - CouponRules.Cap
    ensures applied ==> g == PreDiscount(cart) * 0.9 || g == PreDiscount(cart) - CouponRules.Cap
  {
    var pre := PreDiscount(cart);
    if applied then pre - CouponRules.Discount(pre) else pre
  }

  /** The grand total of a cart worth `pre >= 0` lies between `pre - 50` and `pre`, and is
      never negative; up to 500 the coupon takes ten percent off, from 500 on exactly 50. */
  lemma GrandTotalBounds(cart: Cart, applied: bool)
    requires PreDiscount(cart) >= 0.0
    ensures var pre, g := PreDiscount(cart), GrandTotal(cart, applied);
      && pre - CouponRules.Cap <= g <= pre
      && 0.0 <= g
      && (applied && pre <= 500.0 ==> g == pre * 0.9)
      && (applied && pre >= 500.0 ==> g == pre - CouponRules.Cap)
  {
    CouponRules.DiscountShape(PreDiscount(cart));
  }

  /** In every settled state an applied coupon takes at least 10 off. */
  lemma AppliedCouponSaves(s: State)
    requires Settled(s) && s.applied
    ensures GrandTotal(s.cart, s.applied) <= PreDiscount(s.cart) - 10.0
  {
  }
}
