# Product cart: cart and coupon engine

This is a Dafny model of the cart context of a small React shop. The cart holds line items (id, title, unit price, image, quantity, line total). The context offers these operations:

- add a product, merging its quantity into an existing line or appending a new line;
- set a line's quantity;
- remove a line;
- edit the coupon code;
- apply the SAVE10 coupon;
- remove the coupon.

After every change to the cart, a revocation rule withdraws an applied coupon once the cart is worth 100 or less. The grand total is the pre-discount sum less `min(10%, 50)` while a coupon is applied.

The model also covers the standalone per-item `applyCoupon(items, code)` from the unit tests. That function follows a different rule: each line priced at 100 or more is discounted on its own.

Modules:

- `JsString`: `String.prototype.trim`, over the ECMAScript white-space and line-terminator characters.
- `CouponRules`: the constants SAVE10, 10%, 50 and 100, and the capped discount.
- `CartItems`: line items, the pre-discount fold and the three list operations. It also holds their invariants: ids are unique and `total == price * quantity` whatever the input. Quantities stay positive when every added or updated quantity is at least one, and prices stay non-negative when every added price is.
- `CartEngine`: the context state `(cart, couponCode, isCouponApplied, couponError)`, the six operations, the revocation rule and the grand total. The quantity handler of the cart view is included, because the only floor of one on quantities lives there.
- `CartSession`: runs of actions, the invariants every reachable state keeps, the coupon-code discipline that the cart view enforces, and the three local-storage entries.
- `ItemCoupon`: the per-item coupon function of the unit tests and its test cases.
- `CartScenarios`: worked examples on small carts (merge on re-add, 150 → 135, the cap at 1000, refusal at exactly 100, revocation after a removal).

Each of the three cart operations (`addToCart`, `updateQuantity`, `removeFromCart`) is modelled as a single transition in three steps. First the cart is updated and the error cleared. Then the revocation effect (`CartContext.js:29-42`) runs. The total is derived afterwards and never stored. In the model, as in the code, the revocation error overrides the cleared error. `applyCoupon` has no revocation step of its own. When it changes the applied flag, the cart is worth more than 100, so the effect it triggers would do nothing. `ApplyCoupon` proves this in its contract. `setCouponCode` is a bare assignment: it keeps the error and triggers no revocation, since the effect does not depend on the code. `removeCoupon` clears the flag, so the effect it triggers finds nothing to revoke.

Prices and totals are exact `real`s. Quantities are unbounded `int`s.

Behaviour worth noting:

- A failed `applyCoupon` never clears an applied coupon: each failing check sets its error and returns, so `isCouponApplied` keeps its previous value.
- `applyCoupon` checks the trimmed code but stores the untrimmed text, and `setCouponCode` is a raw setter, so an applied coupon's code can be " SAVE10" (`CartScenarios.PaddedCodeStaysPadded`). Called directly, the engine also lets the code change under an applied coupon, and a rejected new code leaves the coupon applied (`CartScenarios.RejectedCodeKeepsCoupon`).
  - The cart view shows the coupon form only while no coupon is applied. Under that discipline an applied coupon's code always trims to SAVE10 (`CartSession.RunKeepsCode`).
- `updateQuantity` stores whatever quantity it is given. The only floor of one is in the cart view's quantity handler, modelled as `CartEngine.ChangeQuantity`.
- The product list passes on any non-zero number typed into its quantity box, so the engine can receive a negative quantity from an add. "Quantities stay positive" is therefore stated under the assumption that added and updated quantities are at least one (`CartSession.SaneInput`).

## Model

| member | source | states |
|---|---|---|
| JsString.Trim | src/context/CartContext.js:108 | the trimmed code starts and ends with a non-white-space character, and is empty exactly when the code is all white space |
| JsString.TrimSlice | src/context/CartContext.js:108 | the code is the trimmed code surrounded by two all-white-space strings |
| JsString.TrimOfPadded | src/context/CartContext.js:108 | padding a code with no white space at either end by white space on both sides trims back to that code |
| JsString.TrimIdempotent | src/context/CartContext.js:108 | trimming twice is trimming once |
| CouponRules.Discount | src/context/CartContext.js:148 | the discount is the smaller of 10% of the amount and 50, and equals one of them |
| CouponRules.DiscountShape | src/context/CartContext.js:148 | up to 500 the discount is exactly a tenth, from 500 on it is 50, and on a non-negative amount it is between 0 and the amount |
| CartItems.Merge | src/context/CartContext.js:61-66 | the merged line keeps id, title and image, takes the product's price, adds the quantities and totals at the new price |
| CartItems.NewLine | src/context/CartContext.js:73-80 | the new line copies the product's fields, stores the quantity and totals `price * quantity` |
| CartItems.MergeMatching | src/context/CartContext.js:59-68 | same length; every line with the product's id is merged, every other line is unchanged |
| CartItems.MergeMatchingMerges | src/context/CartContext.js:59-68 | merging keeps the order and ids; each matching line gets `old + q`, the product's price and `price * (old + q)`; other lines are unchanged |
| CartItems.AddItem | src/context/CartContext.js:56-82 | with the id present the cart is merged in place as above; without it the old cart is an unchanged prefix of a cart one line longer, ending in the new line |
| CartItems.Requantify | src/context/CartContext.js:90-95 | the re-quantified line keeps its id, title, image and price (the source's `price: item.price` writes back the same value), takes the new quantity, and its total is its own subtotal |
| CartItems.SetQuantity | src/context/CartContext.js:87-98 | same length and order; a matching line gets the new quantity and `price * quantity` with its price kept; other lines are unchanged; nothing is clamped |
| CartItems.SetQuantityAbsent | src/context/CartContext.js:87-98 | updating an id that is not in the cart leaves the cart unchanged |
| CartItems.Without | src/context/CartContext.js:103 | the result is no longer, contains no line with the id, and holds exactly the lines of the cart whose id differs |
| CartItems.WithoutConcat | src/context/CartContext.js:103 | filtering distributes over concatenation, so the other lines keep their relative order |
| CartItems.WithoutAbsent | src/context/CartContext.js:103 | filtering out an id that is absent leaves the cart unchanged |
| CartItems.WithoutIdempotent | src/context/CartContext.js:102-103 | removing an id twice gives the same cart as removing it once |
| CartItems.RemoveAt | src/context/CartContext.js:103 | with unique ids, removing the id at position k deletes exactly position k |
| CartItems.PreDiscountAppend | src/context/CartContext.js:32-35 | the pre-discount fold is additive over concatenation |
| CartItems.PreDiscount | src/context/CartContext.js:32-35 | the pre-discount sum of price times quantity over the lines, never negative when prices are non-negative and quantities positive |
| CartItems.PreDiscountReplace | src/context/CartContext.js:32-35 | replacing one line changes the sum by the difference of the two subtotals |
| CartItems.AddNewPreDiscount | src/context/CartContext.js:71-81 | adding a new product raises the sum by exactly `price * q` |
| CartItems.AddExistingPreDiscount | src/context/CartContext.js:57-68 | adding to an existing line replaces only that line's subtotal with the merged line's |
| CartItems.SetQuantityPreDiscount | src/context/CartContext.js:86-98 | updating a quantity replaces only that line's subtotal |
| CartItems.WithoutPreDiscount | src/context/CartContext.js:102-103 | removing a line lowers the sum by exactly that line's subtotal |
| CartItems.AddItemPreserves | src/context/CartContext.js:55-84 | adding keeps ids unique and totals consistent; with `q >= 1` quantities stay positive; with a non-negative price prices stay non-negative |
| CartItems.SetQuantityPreserves | src/context/CartContext.js:86-100 | updating keeps ids unique and totals consistent; with `q >= 1` quantities stay positive; prices stay non-negative |
| CartItems.WithoutPreserves | src/context/CartContext.js:102-105 | removing keeps ids unique, totals consistent, quantities positive and prices non-negative |
| CartItems.WithoutUnique | src/context/CartContext.js:103 | filtering a cart with unique ids leaves ids unique |
| CartEngine.Revoke | src/context/CartContext.js:37-41 | the result is settled and keeps the cart; the coupon survives exactly when it was applied on a cart worth more than 100; a withdrawn coupon has its code cleared and the revocation error set; otherwise nothing changes |
| CartEngine.AfterCartChange | src/context/CartContext.js:29-42 | after a cart change the new cart is in place and the coupon survives iff it was applied and the new cart is worth more than 100; a survivor keeps its code with no error, a withdrawn coupon leaves an empty code and the revocation error |
| CartEngine.AddToCart | src/context/CartContext.js:55-84 | `addToCart` installs the merged or extended cart and then settles the coupon as above |
| CartEngine.UpdateQuantity | src/context/CartContext.js:86-100 | `updateQuantity` installs the updated cart and then settles the coupon as above |
| CartEngine.RemoveFromCart | src/context/CartContext.js:102-105 | `removeFromCart` installs the filtered cart and then settles the coupon as above |
| CartEngine.ChangeQuantity | src/components/Cart.js:18-21 | the cart view's handler is `updateQuantity` with the entry raised to at least 1: the cart is updated at that quantity and the coupon settled; a matching line gets the entry, or 1 when the entry is below 1, so positive quantities stay positive |
| CartEngine.SetCouponCode | src/context/CartContext.js:11 | the code becomes the entered text unvalidated; cart, flag and error are unchanged |
| CartEngine.ApplyCoupon | src/context/CartContext.js:107-133 | the checks short-circuit in order (blank, not SAVE10 after trimming, sum at most 100), each failure leaving the flag as it was; the error is empty iff the trimmed code is SAVE10 and the sum exceeds 100, and then the coupon is applied; cart and stored code are never changed; the revocation rule would not undo a change of the flag |
| CartEngine.RemoveCoupon | src/context/CartContext.js:135-139 | the flag is cleared, the code and the error emptied, the cart unchanged |
| CartEngine.GrandTotal | src/context/CartContext.js:141-153 | without a coupon the total is the pre-discount sum; with one it is the larger of 90% of the sum and the sum less 50 |
| CartEngine.GrandTotalBounds | src/context/CartContext.js:141-153 | on a non-negative sum the total lies between the sum less 50 and the sum and is non-negative; up to 500 it is 90%, from 500 on it is the sum less 50 |
| CartEngine.AppliedCouponSaves | src/context/CartContext.js:37-41 | in a settled state an applied coupon takes at least 10 off |
| CartSession.Step | src/context/CartContext.js:155-169 | dispatch of the six operations: only the three cart operations change the cart, and every operation keeps an applied coupon on a cart worth more than 100 |
| CartSession.StepPreserves | src/context/CartContext.js:55-139 | every operation keeps unique ids, consistent totals and "applied only above 100"; on sane input it also keeps quantities positive and prices non-negative |
| CartSession.RunPreserves | src/context/CartContext.js:29-42 | every state reachable by sane actions satisfies the full invariant, so an applied coupon always sits on a cart worth more than 100 |
| CartSession.HealthyGrandTotal | src/context/CartContext.js:141-153 | in every reachable state the grand total lies between the sum less 50 and the sum, and is non-negative |
| CartSession.StepKeepsCode | src/components/Cart.js:77-110 | an operation the view offers keeps an applied coupon's code trimming to SAVE10 |
| CartSession.RunKeepsCode | src/components/Cart.js:77-110 | through the view, an applied coupon's code always trims to SAVE10 |
| CartSession.DecodeApplied | src/context/CartContext.js:14-16 | the stored flag reads as applied exactly when it is the text "true" |
| CartSession.DecodeBoolText | src/context/CartContext.js:14-16 | the stored text of a flag reads back as that flag |
| CartSession.Save | src/context/CartContext.js:20-27 | the persistence effects always write all three entries: the cart, the code, and the flag as its text ("true" or "false"), which reads back as the flag |
| CartSession.Load | src/context/CartContext.js:7-16 | start-up restores the stored cart (or none); the coupon is applied exactly when the stored flag is "true" and the cart is worth more than 100; a withdrawn coupon leaves an empty code and the revocation error, otherwise the stored code (or "") is restored with no error |
| CartSession.LoadSave | src/context/CartContext.js:7-27 | saving a settled state and loading it back restores cart, code and flag |
| CartSession.LoadRevokes | src/context/CartContext.js:14-16 | a stored applied flag over a cart worth at most 100 is withdrawn on start-up |
| ItemCoupon.DiscountLine | src/__tests__/cart.test.js:5-13 | only the total may change; a line under 100 is returned unchanged; a line of 100 or more is re-totalled at `(price - min(price/10, 50)) * quantity` |
| ItemCoupon.DiscountedAtMostSubtotal | src/__tests__/cart.test.js:6-11 | an eligible line's new total is at most its subtotal |
| ItemCoupon.DiscountedAtLeastNinetyPercent | src/__tests__/cart.test.js:6-11 | an eligible line's new total is at least 90% of its subtotal |
| ItemCoupon.DiscountedAtMostCapPerUnit | src/__tests__/cart.test.js:6-11 | an eligible line's new total is at least the subtotal at 50 off each unit |
| ItemCoupon.ApplyPerItem | src/__tests__/cart.test.js:3-15 | any code but SAVE10 returns the items unchanged; length and order are kept; only totals change; lines under 100 are unchanged; each line of 100 or more gets `(price - min(price/10, 50)) * quantity` |
| ItemCoupon.ApplyPerItemIdempotent | src/__tests__/cart.test.js:3-15 | applying the per-item coupon twice is applying it once |
| ItemCoupon.CappedAndIneligible | src/__tests__/cart.test.js:18-26 | a 600 line goes to 550 (the cap) and an 80 × 2 line stays at 160 |
| ItemCoupon.InvalidCodeIgnored | src/__tests__/cart.test.js:28-32 | an invalid code leaves a 120 line at 120 |
| ItemCoupon.RulesDisagreeAtHundred | src/__tests__/cart.test.js:6 | a single line at exactly 100 is discounted to 90 per item, while the cart engine refuses the coupon for that cart |
| CartScenarios.MergeOnReadd | src/context/CartContext.js:57-68 | re-adding a product merges into one line at the latest price |
| CartScenarios.ApplyOnHundredFifty | src/context/CartContext.js:107-153 | on a 150 cart SAVE10 applies and the grand total is 135 |
| CartScenarios.CapAtThousand | src/context/CartContext.js:148 | on a 1000 cart the grand total is 950 |
| CartScenarios.RefuseAtHundred | src/context/CartContext.js:126-129 | a cart worth exactly 100 is refused with the threshold error |
| CartScenarios.RefuseBlank | src/context/CartContext.js:111-114 | a code of spaces is refused with the empty-code error |
| CartScenarios.RevokeOnRemoval | src/context/CartContext.js:37-41 | removing a line that takes the cart from 150 to 80 withdraws the coupon, clears the code and shows the revocation error |
| CartScenarios.RemoveTwice | src/context/CartContext.js:102-105 | removing an id a second time changes neither the cart nor the coupon |
| CartScenarios.PaddedCodeStaysPadded | src/context/CartContext.js:108-131 | a padded code " SAVE10" is accepted and stored untrimmed |
| CartScenarios.RejectedCodeKeepsCoupon | src/context/CartContext.js:116-118 | a non-blank code that does not trim to SAVE10, entered under an applied coupon, is rejected and the coupon stays applied |

## Left out

- React plumbing is not modelled: `useState`/`useEffect` scheduling, batching and the context provider. Each cart operation is one atomic transition followed by the revocation rule; the coupon operations trigger it only when the flag changes, and then it finds nothing to revoke.
- Local storage is modelled only as the three stored values. The JSON text of the cart is not modelled, and neither is `JSON.parse` failing on a corrupt entry. `saved ? … : []` treats an empty stored string like a missing key; the model has only "present" and "absent".
- The three-second timer that clears the error (`CartContext.js:44-52`) is left out. It is timing behaviour outside any single operation.
- The `grandTotal` state variable is left out. It is recomputed by an effect, and the model derives it with `GrandTotal` instead.
- The rendering in `src/components/Cart.js` is left out, apart from the quantity handler and the rule that the coupon form shows only while no coupon is applied. Also left out are `src/components/ProductList.js` (the product `fetch`, and the `|| 1` default of its quantity input), `src/App.js`, and the UI tests.
- CartEngine.ChangeQuantity: takes an integer. The string parsing of `Number(value)`, including NaN, is not modelled.
- Quantities are integers, while the source holds them as doubles: the product list (`src/components/ProductList.js:37-42`) can pass a negative or fractional quantity to `addToCart`. Negative quantities are modelled; fractional ones are not. The positivity invariants hold only under `CartSession.SaneInput`.
- Floating-point rounding is not modelled: prices and totals are exact reals. The `toFixed(2)` display formatting is left out too.
