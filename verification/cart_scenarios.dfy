/** Worked examples of the cart context on small carts: merging on re-add, applying the coupon
    under, at and over the threshold, the cap, and revocation after a removal. */
module CartScenarios {
  import opened CartItems
  import opened JsString
  import opened CartEngine
  import CouponRules

  /** The state on first start: empty cart, no code, no coupon, no error. */
  const Empty: State := State([], "", false, "")

  function Line(id: Id, price: real, quantity: int): LineItem {
    LineItem(id, "Item", price, "item.png", quantity, price * quantity as real)
  }

  lemma SingleWorth(item: LineItem)
    ensures PreDiscount([item]) == Subtotal(item)
  {
    assert [item][..0] == [];
  }

  lemma ValidCodeIsTrimmed()
    ensures Trim(CouponRules.ValidCode) == CouponRules.ValidCode
  {
    TrimUnpadded(CouponRules.ValidCode);
  }

  /** Adding id 1 at 10 twice, then at 15 three times, leaves one line of five units at the
      latest price 15, worth 75. */
  lemma MergeOnReadd()
    ensures var p10 := Product(1, "Item", 10.0, "item.png");
      var p15 := Product(1, "Item", 15.0, "item.png");
      AddToCart(AddToCart(Empty, p10, 2), p15, 3).cart == [Line(1, 15.0, 5)]
  {
    var p10 := Product(1, "Item", 10.0, "item.png");
    var p15 := Product(1, "Item", 15.0, "item.png");
    var s1 := AddToCart(Empty, p10, 2);
    assert s1.cart == [Line(1, 10.0, 2)];
    assert HasId(s1.cart, 1);
    var s2 := AddToCart(s1, p15, 3);
    assert s2.cart[0] == Line(1, 15.0, 5);
  }

  /** A 150 cart with SAVE10 entered: the coupon applies and the grand total is 135. */
  lemma ApplyOnHundredFifty()
    ensures var s := AddToCart(Empty, Product(1, "Item", 150.0, "item.png"), 1);
      var r := ApplyCoupon(SetCouponCode(s, CouponRules.ValidCode));
      r.applied && r.error == "" && GrandTotal(r.cart, r.applied) == 135.0
  {
    var s := AddToCart(Empty, Product(1, "Item", 150.0, "item.png"), 1);
    assert s.cart == [Line(1, 150.0, 1)];
    SingleWorth(Line(1, 150.0, 1));
    ValidCodeIsTrimmed();
    CouponRules.DiscountShape(150.0);
  }

  /** A 1000 cart: the discount is capped at 50 and the grand total is 950. */
  lemma CapAtThousand()
    ensures var r := ApplyCoupon(State([Line(1, 250.0, 4)], CouponRules.ValidCode, false, ""));
      r.applied && GrandTotal(r.cart, r.applied) == 950.0
  {
    SingleWorth(Line(1, 250.0, 4));
    ValidCodeIsTrimmed();
    CouponRules.DiscountShape(1000.0);
  }

  /** A cart worth exactly 100 is refused with the threshold error, and no coupon applies. */
  lemma RefuseAtHundred()
    ensures var r := ApplyCoupon(State([Line(1, 50.0, 2)], CouponRules.ValidCode, false, ""));
      !r.applied && r.error == ErrBelowThreshold && GrandTotal(r.cart, r.applied) == 100.0
  {
    SingleWorth(Line(1, 50.0, 2));
    ValidCodeIsTrimmed();
  }

  /** A blank code is refused before the code or the cart are looked at. */
  lemma RefuseBlank()
    ensures ApplyCoupon(State([Line(1, 500.0, 1)], "  ", false, "")).error == ErrEmpty
  {
    var blank: string := "  ";
    assert AllWhitespace(blank) by { assert IsWhitespace(blank[0]) && IsWhitespace(blank[1]); }
  }

  /** With the coupon applied on 70 + 80, removing the 70 line drops the cart to 80: the
      coupon is revoked, its code cleared and the revocation error shown. */
  lemma RevokeOnRemoval()
    ensures var s := State([Line(1, 70.0, 1), Line(2, 80.0, 1)], CouponRules.ValidCode, true, "");
      var r := RemoveFromCart(s, 1);
      r.cart == [Line(2, 80.0, 1)] && !r.applied && r.couponCode == "" && r.error == ErrRevoked
  {
    var cart := [Line(1, 70.0, 1), Line(2, 80.0, 1)];
    RemoveAt(cart, 0);
    assert cart[..0] + cart[1..] == [Line(2, 80.0, 1)];
    SingleWorth(Line(2, 80.0, 1));
  }

  /** Removing the same id twice leaves the same cart and coupon as removing it once; only
      a revocation message from the first removal is cleared by the second. */
  lemma RemoveTwice(s: State, id: Id)
    ensures var once := RemoveFromCart(s, id);
      var twice := RemoveFromCart(once, id);
      && twice.cart == once.cart && twice.applied == once.applied && twice.couponCode == once.couponCode
      && twice.error == ""
  {
    WithoutIdempotent(s.cart, id);
  }

  /** The engine applies the coupon for a padded code and stores the code untrimmed, so an
      applied coupon's code can be " SAVE10". */
  lemma PaddedCodeStaysPadded()
    ensures var r := ApplyCoupon(State([Line(1, 150.0, 1)], " SAVE10", false, ""));
      r.applied && r.couponCode == " SAVE10" && r.couponCode != CouponRules.ValidCode
  {
    assert IsWhitespace(' ');
    assert " SAVE10" == [' '] + CouponRules.ValidCode + [];
    TrimOfPadded([' '], CouponRules.ValidCode, []);
    SingleWorth(Line(1, 150.0, 1));
  }

  /** Called directly, the engine lets the code be changed under an applied coupon; when
      the new code is then rejected, the coupon stays applied under the rejected code. */
  lemma RejectedCodeKeepsCoupon(s: State, text: string)
    requires s.applied && !AllWhitespace(text) && Trim(text) != CouponRules.ValidCode
    ensures var r := ApplyCoupon(SetCouponCode(s, text));
      r.applied && r.couponCode == text && r.error == ErrInvalid
  {
  }
}
