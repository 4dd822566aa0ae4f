/** Sequences of user actions against the cart context, the invariants every reachable
    state keeps, and the local-storage snapshot the context is saved to and restored from. */
module CartSession {
  import opened CartItems
  import opened JsString
  import opened CartEngine
  import CouponRules

  /** The operations the context exposes to the views. `Unapply` is `removeCoupon`. */
  datatype Action =
    | Add(product: Product, quantity: int)
    | Update(id: Id, quantity: int)
    | Remove(id: Id)
    | SetCode(text: string)
    | Apply
    | Unapply

  /** One operation on a state. Only the three cart operations touch the cart, and every
      operation keeps an applied coupon on a cart worth more than 100. */
  function Step(s: State, a: Action): (r: State)
    ensures !(a.Add? || a.Update? || a.Remove?) ==> r.cart == s.cart
    ensures Settled(s) ==> Settled(r)
  {
    match a
    case Add(p, q) => AddToCart(s, p, q)
    case Update(id, q) => UpdateQuantity(s, id, q)
    case Remove(id) => RemoveFromCart(s, id)
    case SetCode(t) => SetCouponCode(s, t)
    case Apply => ApplyCoupon(s)
    case Unapply => RemoveCoupon(s)
  }

  /** The actions in order, each on the state its predecessor settled to. */
  function Run(s: State, actions: seq<Action>): State
    decreases |actions|
  {
    if actions == [] then s else Run(Step(s, actions[0]), actions[1..])
  }

  /** The assumption under which quantities stay positive: every added or updated quantity
      is at least one and every added price at least zero. The cart view's handler ensures
      the quantity part for updates; for adds it is an assumption about the caller, since
      the product list passes on any non-zero number typed into its quantity box. */
  predicate SaneInput(a: Action) {
    && (a.Add? ==> a.quantity >= 1 && a.product.price >= 0.0)
    && (a.Update? ==> a.quantity >= 1)
  }

  /** The full state invariant: unique ids, consistent line totals, positive quantities,
      non-negative prices, and an applied coupon only on a cart worth more than 100. */
  predicate Healthy(s: State) {
    Invariant(s) && PositiveQuantities(s.cart) && NonNegativePrices(s.cart)
  }

  /** One operation keeps the invariant; on sane input it keeps the full invariant. */
  lemma StepPreserves(s: State, a: Action)
    requires Invariant(s)
    ensures Invariant(Step(s, a))
    ensures Healthy(s) && SaneInput(a) ==> Healthy(Step(s, a))
  {
    match a
    case Add(p, q) => AddItemPreserves(s.cart, p, q);
    case Update(id, q) => SetQuantityPreserves(s.cart, id, q);
    case Remove(id) => WithoutPreserves(s.cart, id);
    case SetCode(t) =>
    case Apply =>
    case Unapply =>
  }

  /** Every state reachable from a healthy one by sane actions is healthy; in particular an
      applied coupon always sits on a cart worth more than 100. */
  lemma {:induction false} RunPreserves(s: State, actions: seq<Action>)
    requires Healthy(s)
    requires forall i :: 0 <= i < |actions| ==> SaneInput(actions[i])
    ensures Healthy(Run(s, actions))
    decreases |actions|
  {
    if actions != [] {
      StepPreserves(s, actions[0]);
      RunPreserves(Step(s, actions[0]), actions[1..]);
    }
  }

  /** In a healthy state the grand total lies between the pre-discount sum less 50 and the
      sum itself, is never negative, and equals the sum when no coupon is applied. */
  lemma HealthyGrandTotal(s: State)
    requires Healthy(s)
    ensures var pre, g := PreDiscount(s.cart), GrandTotal(s.cart, s.applied);
      && 0.0 <= g <= pre && pre - CouponRules.Cap <= g
      && (!s.applied ==> g == pre)
  {
    GrandTotalBounds(s.cart, s.applied);
  }

  // ---------------------------------------------------------------------------
  // The coupon code of an applied coupon

  /** An applied coupon's stored code trims to SAVE10. */
  predicate CodeMatches(s: State) {
    s.applied ==> Trim(s.couponCode) == CouponRules.ValidCode
  }

  /** The cart view only shows the coupon form, and so only lets the user edit or submit
      the code, while no coupon is applied. */
  predicate FormVisible(s: State, a: Action) {
    (a.SetCode? || a.Apply?) ==> !s.applied
  }

  /** Every action of the run was offered by the view in the state it was taken in. */
  predicate ThroughView(s: State, actions: seq<Action>)
    decreases |actions|
  {
    actions == [] || (FormVisible(s, actions[0]) && ThroughView(Step(s, actions[0]), actions[1..]))
  }

  /** Operations the view offers keep the applied coupon's code matching. */
  lemma StepKeepsCode(s: State, a: Action)
    requires CodeMatches(s) && FormVisible(s, a)
    ensures CodeMatches(Step(s, a))
  {
  }

  /** Through the view, an applied coupon's code always trims to SAVE10. */
  lemma {:induction false} RunKeepsCode(s: State, actions: seq<Action>)
    requires CodeMatches(s) && ThroughView(s, actions)
    ensures CodeMatches(Run(s, actions))
    decreases |actions|
  {
    if actions != [] {
      StepKeepsCode(s, actions[0]);
      RunKeepsCode(Step(s, actions[0]), actions[1..]);
    }
  }

  // ---------------------------------------------------------------------------
  // Local storage

  datatype Option<T> = None | Some(value: T)

  /** The three local-storage entries; `None` is a key that was never written. The cart
      entry holds the cart itself: its JSON text is outside this model. */
  datatype Stored = Stored(cart: Option<Cart>, couponCode: Option<string>, isCouponApplied: Option<string>)

  /** `localStorage.setItem` stores a boolean as its string form. */
  function BoolText(b: bool): string {
    if b then "true" else "false"
  }

  /** Reading the stored applied flag: only the exact text "true" reads back as applied;
      any other text, or no entry, reads as not applied. */
  function DecodeApplied(v: Option<string>): (b: bool)
    ensures b <==> v.Some? && v.value == "true"
  {
    match v
    case Some(text) => text == "true"
    case None => false
  }

  /** Reading back a stored flag gives the flag. */
  lemma DecodeBoolText(b: bool)
    ensures DecodeApplied(Some(BoolText(b))) == b
  {
  }

  /** What the persistence effects write after a state settles: the cart, the code, and
      the flag as its text, "false" included. */
  function Save(s: State): (st: Stored)
    ensures st.cart == Some(s.cart) && st.couponCode == Some(s.couponCode)
    ensures st.isCouponApplied == Some(BoolText(s.applied))
    ensures DecodeApplied(st.isCouponApplied) == s.applied
  {
    DecodeBoolText(s.applied);
    Stored(Some(s.cart), Some(s.couponCode), Some(BoolText(s.applied)))
  }

  /** Start-up: read the three entries with their defaults (no cart, no code, not applied),
      start without an error, and let the revocation rule run once on mount. */
  function Load(st: Stored): (s: State)
    ensures Settled(s)
    ensures s.cart == (if st.cart.Some? then st.cart.value else [])
    ensures s.applied <==> DecodeApplied(st.isCouponApplied) && PreDiscount(s.cart) > CouponRules.Threshold
    ensures var revoked := DecodeApplied(st.isCouponApplied) && !s.applied;
      && (revoked ==> s.couponCode == "" && s.error == ErrRevoked)
      && (!revoked ==> s.couponCode == (if st.couponCode.Some? then st.couponCode.value else "") && s.error == "")
  {
    var cart := match st.cart case Some(c) => c case None => [];
    var code := match st.couponCode case Some(c) => c case None => "";
    Revoke(State(cart, code, DecodeApplied(st.isCouponApplied), ""))
  }

  /** Saving a settled state and loading it back restores the cart, the code and the
      applied flag; only the transient error is not persisted. */
  lemma LoadSave(s: State)
    requires Settled(s)
    ensures Load(Save(s)) == s.(error := "")
  {
    RevokeSettled(s.(error := ""));
  }

  /** A stored applied flag over a cart worth at most 100 is revoked on start-up. */
  lemma LoadRevokes(cart: Cart, code: string)
    requires PreDiscount(cart) <= CouponRules.Threshold
    ensures Load(Stored(Some(cart), Some(code), Some("true"))) == State(cart, "", false, ErrRevoked)
  {
  }
}
