/** The standalone coupon function of the unit tests: with the code SAVE10, every line
    whose unit price is at least 100 has its total recomputed at the discounted unit
    price; no other field and no other line changes. It is a different rule from the cart
    context's, which discounts the whole cart once it is worth more than 100. */
module ItemCoupon {
  import opened CartItems
  import CouponRules
  import CartEngine
  import JsString

  /** A line qualifies on its own unit price, inclusive of 100. */
  predicate Eligible(item: LineItem) {
    item.price >= 100.0
  }

  /** One line under the coupon: an eligible line is re-totalled at the discounted unit
      price, any other line is returned as it is. */
  function DiscountLine(item: LineItem): (r: LineItem)
    ensures r == item.(total := r.total)
    ensures !Eligible(item) ==> r == item
    ensures Eligible(item) ==>
      r.total == (item.price - CouponRules.Discount(item.price)) * item.quantity as real
  {
    if Eligible(item) then
      item.(total := (item.price - CouponRules.Discount(item.price)) * item.quantity as real)
    else item
  }

  /** An eligible line's discounted total never exceeds its undiscounted subtotal. */
  lemma DiscountedAtMostSubtotal(item: LineItem)
    requires Eligible(item) && item.quantity >= 0
    ensures DiscountLine(item).total <= item.price * item.quantity as real
  {
    CouponRules.DiscountShape(item.price);
    ScaleMonotone(item.price - CouponRules.Discount(item.price), item.price, item.quantity as real);
  }

  /** An eligible line keeps at least 90 percent of its unit price on every unit. */
  lemma DiscountedAtLeastNinetyPercent(item: LineItem)
    requires Eligible(item) && item.quantity >= 0
    ensures DiscountLine(item).total >= (0.9 * item.price) * item.quantity as real
  {
    assert CouponRules.Discount(item.price) <= item.price * 0.10;
    ScaleMonotone(0.9 * item.price, item.price - CouponRules.Discount(item.price), item.quantity as real);
  }

  /** An eligible line loses at most 50 on every unit. */
  lemma DiscountedAtMostCapPerUnit(item: LineItem)
    requires Eligible(item) && item.quantity >= 0
    ensures DiscountLine(item).total >= (item.price - CouponRules.Cap) * item.quantity as real
  {
    assert CouponRules.Discount(item.price) <= CouponRules.Cap;
    ScaleMonotone(item.price - CouponRules.Cap, item.price - CouponRules.Discount(item.price), item.quantity as real);
  }

  lemma ScaleMonotone(a: real, b: real, q: real)
    requires a <= b && q >= 0.0
    ensures a * q <= b * q
  {
  }

  /** Every line put through `DiscountLine`, in order. */
  function DiscountAll(items: seq<LineItem>): (r: seq<LineItem>)
    ensures |r| == |items|
    ensures forall i :: 0 <= i < |items| ==> r[i] == DiscountLine(items[i])
  {
    if items == [] then [] else [DiscountLine(items[0])] + DiscountAll(items[1..])
  }

  /** The per-item coupon function of the unit tests. Any code but SAVE10 (exact, untrimmed)
      returns the items untouched; SAVE10 keeps the length, the order and every field but
      the total, leaves lines under 100 alone and re-totals every line of 100 or more at its
      unit price less the smaller of ten percent and 50. */
  function ApplyPerItem(items: seq<LineItem>, code: string): (r: seq<LineItem>)
    ensures code != CouponRules.ValidCode ==> r == items
    ensures |r| == |items|
    ensures forall i :: 0 <= i < |items| ==> r[i] == items[i].(total := r[i].total)
    ensures forall i :: 0 <= i < |items| && !Eligible(items[i]) ==> r[i] == items[i]
    ensures code == CouponRules.ValidCode ==> forall i :: 0 <= i < |items| && Eligible(items[i]) ==>
      r[i].total == (items[i].price - CouponRules.Discount(items[i].price)) * items[i].quantity as real
  {
    if code != CouponRules.ValidCode then items else DiscountAll(items)
  }

  /** Re-discounting a discounted line changes nothing. */
  lemma DiscountLineIdempotent(item: LineItem)
    ensures DiscountLine(DiscountLine(item)) == DiscountLine(item)
  {
    var once := DiscountLine(item);
    assert once.price == item.price && once.quantity == item.quantity;
  }

  /** The discounted total depends only on price and quantity, so applying the coupon a
      second time changes nothing. */
  lemma ApplyPerItemIdempotent(items: seq<LineItem>, code: string)
    ensures ApplyPerItem(ApplyPerItem(items, code), code) == ApplyPerItem(items, code)
  {
    if code == CouponRules.ValidCode {
      var once := DiscountAll(items);
      var twice := DiscountAll(once);
      forall i | 0 <= i < |items| ensures twice[i] == once[i] {
        DiscountLineIdempotent(items[i]);
      }
    }
  }

  /** The first unit test: a 600 line gets the capped 50 off (550) and an 80 line is left
      at 160. */
  lemma CappedAndIneligible()
    ensures var r := ApplyPerItem([LineItem(0, "", 600.0, "", 1, 600.0), LineItem(0, "", 80.0, "", 2, 160.0)], "SAVE10");
      r[0].total == 550.0 && r[1].total == 160.0
  {
    CouponRules.DiscountShape(600.0);
  }

  /** The second unit test: an invalid code leaves a 120 line at 120. */
  lemma InvalidCodeIgnored()
    ensures ApplyPerItem([LineItem(0, "", 120.0, "", 1, 120.0)], "INVALID")[0].total == 120.0
  {
  }

  /** The two rules disagree at the boundary: a single line at exactly 100 is discounted to
      90 by the per-item rule, while the cart context refuses the coupon for that cart. */
  lemma RulesDisagreeAtHundred()
    ensures var cart := [LineItem(1, "Hat", 100.0, "hat.png", 1, 100.0)];
      && ApplyPerItem(cart, CouponRules.ValidCode)[0].total == 90.0
      && CartEngine.ApplyCoupon(CartEngine.State(cart, CouponRules.ValidCode, false, "")).error
         == CartEngine.ErrBelowThreshold
  {
    var cart := [LineItem(1, "Hat", 100.0, "hat.png", 1, 100.0)];
    CouponRules.DiscountShape(100.0);
    assert DiscountLine(cart[0]).total == 90.0;
    assert PreDiscount(cart) == 100.0 by {
      assert cart[..0] == [];
    }
    JsString.TrimUnpadded(CouponRules.ValidCode);
  }
}
