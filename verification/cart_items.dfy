/** Line items and the three list operations of the cart: merge-or-append on add, set the
    quantity of one line, and filter a line out. Prices and totals are exact reals. */
module CartItems {

  /** Product identifiers, compared for strict equality. */
  type Id = int

  /** A catalogue entry as the product list hands it to the cart. */
  datatype Product = Product(id: Id, title: string, price: real, image: string)

  /** One line of the cart. `price` is the unit price as of the last add. */
  datatype LineItem = LineItem(id: Id, title: string, price: real, image: string, quantity: int, total: real)

  type Cart = seq<LineItem>

  /** `item.price * item.quantity`, computed afresh rather than read from `total`. */
  function Subtotal(item: LineItem): real {
    item.price * item.quantity as real
  }

  /** The pre-discount sum: unit price times quantity over every line, folded from the left
      starting at zero. The stored line totals are not consulted. With non-negative prices
      and positive quantities it is never negative. */
  function PreDiscount(cart: Cart): (r: real)
    ensures NonNegativePrices(cart) && PositiveQuantities(cart) ==> r >= 0.0
  {
    if cart == [] then 0.0 else PreDiscount(cart[..|cart| - 1]) + Subtotal(cart[|cart| - 1])
  }

  predicate HasId(cart: Cart, id: Id) {
    exists i :: 0 <= i < |cart| && cart[i].id == id
  }

  /** No two lines share an id. */
  predicate UniqueIds(cart: Cart) {
    forall i, j :: 0 <= i < j < |cart| ==> cart[i].id != cart[j].id
  }

  /** Every stored line total agrees with price times quantity. */
  predicate TotalsConsistent(cart: Cart) {
    forall i :: 0 <= i < |cart| ==> cart[i].total == Subtotal(cart[i])
  }

  predicate PositiveQuantities(cart: Cart) {
    forall i :: 0 <= i < |cart| ==> cart[i].quantity >= 1
  }

  predicate NonNegativePrices(cart: Cart) {
    forall i :: 0 <= i < |cart| ==> cart[i].price >= 0.0
  }

  /** The invariants every cart operation keeps. */
  predicate WellFormed(cart: Cart) {
    UniqueIds(cart) && TotalsConsistent(cart)
  }

  // ---------------------------------------------------------------------------
  // addToCart

  /** The merged line: quantities add up, the latest price wins, title and image stay. */
  function Merge(item: LineItem, product: Product, quantity: int): (m: LineItem)
    ensures m.id == item.id && m.title == item.title && m.image == item.image
    ensures m.price == product.price && m.quantity == item.quantity + quantity
    ensures m.total == Subtotal(m)
  {
    item.(quantity := item.quantity + quantity, price := product.price,
          total := product.price * (item.quantity + quantity) as real)
  }

  /** The line appended for a product not yet in the cart. */
  function NewLine(product: Product, quantity: int): (n: LineItem)
    ensures n.id == product.id && n.title == product.title && n.image == product.image
    ensures n.price == product.price && n.quantity == quantity
    ensures n.total == Subtotal(n)
  {
    LineItem(product.id, product.title, product.price, product.image, quantity, product.price * quantity as real)
  }

  /** Every line with the product's id merged, every other line kept, in order. */
  function MergeMatching(cart: Cart, product: Product, quantity: int): (r: Cart)
    ensures |r| == |cart|
    ensures forall i :: 0 <= i < |cart| && cart[i].id == product.id ==> r[i] == Merge(cart[i], product, quantity)
    ensures forall i :: 0 <= i < |cart| && cart[i].id != product.id ==> r[i] == cart[i]
  {
    if cart == [] then []
    else
      var head := if cart[0].id == product.id then Merge(cart[0], product, quantity) else cart[0];
      [head] + MergeMatching(cart[1..], product, quantity)
  }

  /** The observable effect of merging: order and ids kept, other lines untouched, the
      matching line re-priced with its quantity increased and its total recomputed. */
  predicate MergedInto(cart: Cart, product: Product, quantity: int, r: Cart) {
    && |r| == |cart|
    && (forall i :: 0 <= i < |cart| ==> r[i].id == cart[i].id)
    && (forall i :: 0 <= i < |cart| && cart[i].id != product.id ==> r[i] == cart[i])
    && (forall i :: 0 <= i < |cart| && cart[i].id == product.id ==>
          && r[i].quantity == cart[i].quantity + quantity
          && r[i].price == product.price
          && r[i].total == product.price * (cart[i].quantity + quantity) as real
          && r[i].title == cart[i].title && r[i].image == cart[i].image)
  }

  lemma MergeMatchingMerges(cart: Cart, product: Product, quantity: int)
    ensures MergedInto(cart, product, quantity, MergeMatching(cart, product, quantity))
  {
  }

  /** `addToCart`'s cart update: merge into the line with the product's id if there is
      one, otherwise append a new line at the end. */
  function AddItem(cart: Cart, product: Product, quantity: int): (r: Cart)
    ensures HasId(cart, product.id) ==> MergedInto(cart, product, quantity, r)
    ensures !HasId(cart, product.id) ==>
      && |r| == |cart| + 1 && r[..|cart|] == cart
      && r[|cart|] == LineItem(product.id, product.title, product.price, product.image,
                               quantity, product.price * quantity as real)
  {
    if HasId(cart, product.id) then
      MergeMatchingMerges(cart, product, quantity);
      MergeMatching(cart, product, quantity)
    else cart + [NewLine(product, quantity)]
  }

  // ---------------------------------------------------------------------------
  // updateQuantity

  /** A line at a new quantity: the price and every other field are kept and the total is
      recomputed at that price. */
  function Requantify(item: LineItem, quantity: int): (m: LineItem)
    ensures m.id == item.id && m.title == item.title && m.image == item.image
    ensures m.price == item.price && m.quantity == quantity
    ensures m.total == Subtotal(m)
  {
    item.(quantity := quantity, total := item.price * quantity as real)
  }

  /** Every line with the id re-totalled at the given quantity and its own price, every
      other line kept, in order. */
  function SetQuantity(cart: Cart, id: Id, quantity: int): (r: Cart)
    ensures |r| == |cart|
    ensures forall i :: 0 <= i < |cart| && cart[i].id == id ==>
      r[i] == Requantify(cart[i], quantity)
    ensures forall i :: 0 <= i < |cart| && cart[i].id != id ==> r[i] == cart[i]
  {
    if cart == [] then []
    else
      var head := if cart[0].id == id
        then Requantify(cart[0], quantity)
        else cart[0];
      [head] + SetQuantity(cart[1..], id, quantity)
  }

  /** Without the id, updating a quantity changes nothing. */
  lemma SetQuantityAbsent(cart: Cart, id: Id, quantity: int)
    requires !HasId(cart, id)
    ensures SetQuantity(cart, id, quantity) == cart
  {
    var r := SetQuantity(cart, id, quantity);
    forall i | 0 <= i < |cart| ensures r[i] == cart[i] {
      assert cart[i].id != id;
    }
  }

  // ---------------------------------------------------------------------------
  // removeFromCart

  /** The lines whose id differs, in order. */
  function Without(cart: Cart, id: Id): (r: Cart)
    ensures |r| <= |cart|
    ensures !HasId(r, id)
    ensures forall x :: x in r <==> x in cart && x.id != id
  {
    if cart == [] then []
    else if cart[0].id == id then Without(cart[1..], id)
    else
      var rest := Without(cart[1..], id);
      assert forall x :: x in cart <==> x == cart[0] || x in cart[1..];
      [cart[0]] + rest
  }

  /** Filtering distributes over concatenation: relative order is kept. */
  lemma {:induction false} WithoutConcat(a: Cart, b: Cart, id: Id)
    ensures Without(a + b, id) == Without(a, id) + Without(b, id)
  {
    if a == [] {
      assert a + b == b;
    } else {
      assert (a + b)[0] == a[0];
      assert (a + b)[1..] == a[1..] + b;
      WithoutConcat(a[1..], b, id);
    }
  }

  /** Filtering a one-line cart keeps the line exactly when its id differs. */
  lemma WithoutSingle(item: LineItem, id: Id)
    ensures Without([item], id) == if item.id == id then [] else [item]
  {
    assert [item][1..] == [];
  }

  /** A cart without the id is left as it is. */
  lemma {:induction false} WithoutAbsent(cart: Cart, id: Id)
    requires !HasId(cart, id)
    ensures Without(cart, id) == cart
  {
    if cart != [] {
      assert cart[0].id != id;
      assert !HasId(cart[1..], id) by {
        forall i | 0 <= i < |cart[1..]| ensures cart[1..][i].id != id {
          assert cart[1..][i] == cart[i + 1];
        }
      }
      WithoutAbsent(cart[1..], id);
      assert cart == [cart[0]] + cart[1..];
    }
  }

  /** Removing twice is removing once. */
  lemma WithoutIdempotent(cart: Cart, id: Id)
    ensures Without(Without(cart, id), id) == Without(cart, id)
  {
    WithoutAbsent(Without(cart, id), id);
  }

  /** Filtering out the id of the one matching line between two parts without it
      leaves exactly those two parts. */
  lemma WithoutBetween(pre: Cart, item: LineItem, post: Cart)
    requires !HasId(pre, item.id) && !HasId(post, item.id)
    ensures Without(pre + [item] + post, item.id) == pre + post
  {
    WithoutConcat(pre + [item], post, item.id);
    WithoutConcat(pre, [item], item.id);
    WithoutSingle(item, item.id);
    WithoutAbsent(pre, item.id);
    WithoutAbsent(post, item.id);
    assert pre + [] == pre;
  }

  /** In a cart with unique ids, removing the id present at position `k` deletes exactly
      that position. */
  // The proof is direct; the induction hypothesis Dafny would add only slows it down.
  lemma {:induction false} RemoveAt(cart: Cart, k: nat)
    requires UniqueIds(cart) && k < |cart|
    ensures Without(cart, cart[k].id) == cart[..k] + cart[k + 1..]
  {
    var id := cart[k].id;
    var pre, post := cart[..k], cart[k + 1..];
    assert !HasId(pre, id) by {
      forall i | 0 <= i < |pre| ensures pre[i].id != id { assert pre[i] == cart[i]; }
    }
    assert !HasId(post, id) by {
      forall i | 0 <= i < |post| ensures post[i].id != id { assert post[i] == cart[k + 1 + i]; }
    }
    assert cart == pre + [cart[k]] + post;
    WithoutBetween(pre, cart[k], post);
  }

  // ---------------------------------------------------------------------------
  // The pre-discount sum

  /** The left fold is additive over concatenation, so the order of summation is irrelevant. */
  lemma {:induction false} PreDiscountAppend(a: Cart, b: Cart)
    ensures PreDiscount(a + b) == PreDiscount(a) + PreDiscount(b)
  {
    if b == [] {
      assert a + b == a;
    } else {
      var c := a + b;
      assert c[..|c| - 1] == a + b[..|b| - 1];
      assert c[|c| - 1] == b[|b| - 1];
      PreDiscountAppend(a, b[..|b| - 1]);
    }
  }

  /** Replacing the line at `k` changes the sum by the difference of the two subtotals. */
  lemma PreDiscountReplace(cart: Cart, k: nat, x: LineItem)
    requires k < |cart|
    ensures PreDiscount(cart[k := x]) == PreDiscount(cart) - Subtotal(cart[k]) + Subtotal(x)
  {
    var pre, post := cart[..k], cart[k + 1..];
    assert cart == (pre + [cart[k]]) + post;
    assert cart[k := x] == (pre + [x]) + post;
    PreDiscountAppend(pre + [cart[k]], post);
    PreDiscountAppend(pre + [x], post);
    PreDiscountAppend(pre, [cart[k]]);
    PreDiscountAppend(pre, [x]);
    assert [cart[k]][..0] == [] && [x][..0] == [];
  }

  /** Deleting the line at `k` lowers the sum by that line's subtotal. */
  // The proof is direct; the induction hypothesis Dafny would add only slows it down.
  lemma {:induction false} PreDiscountDelete(cart: Cart, k: nat)
    requires k < |cart|
    ensures PreDiscount(cart[..k] + cart[k + 1..]) == PreDiscount(cart) - Subtotal(cart[k])
  {
    var pre, post := cart[..k], cart[k + 1..];
    assert cart == (pre + [cart[k]]) + post;
    PreDiscountAppend(pre + [cart[k]], post);
    PreDiscountAppend(pre, [cart[k]]);
    PreDiscountAppend(pre, post);
    assert [cart[k]][..0] == [];
  }

  // ---------------------------------------------------------------------------
  // What each operation does to the sum, and the invariants it keeps

  /** In a cart with unique ids, the line at `k` is the only one with its id. */
  lemma OnlyMatch(cart: Cart, k: nat, i: nat)
    requires UniqueIds(cart) && k < |cart| && i < |cart| && cart[i].id == cart[k].id
    ensures i == k
  {
  }

  /** With unique ids, merging touches exactly the one line that has the product's id. */
  lemma MergeAt(cart: Cart, product: Product, quantity: int, k: nat)
    requires UniqueIds(cart) && k < |cart| && cart[k].id == product.id
    ensures MergeMatching(cart, product, quantity) == cart[k := Merge(cart[k], product, quantity)]
  {
    var r := MergeMatching(cart, product, quantity);
    forall i | 0 <= i < |cart| ensures r[i] == cart[k := Merge(cart[k], product, quantity)][i] {
      if cart[i].id == product.id { OnlyMatch(cart, k, i); }
    }
  }

  /** With unique ids, setting a quantity touches exactly the one line that has the id. */
  lemma SetQuantityAt(cart: Cart, quantity: int, k: nat)
    requires UniqueIds(cart) && k < |cart|
    ensures SetQuantity(cart, cart[k].id, quantity)
      == cart[k := Requantify(cart[k], quantity)]
  {
    var m := Requantify(cart[k], quantity);
    var r := SetQuantity(cart, cart[k].id, quantity);
    forall i | 0 <= i < |cart| ensures r[i] == cart[k := m][i] {
      if cart[i].id == cart[k].id { OnlyMatch(cart, k, i); }
    }
  }

  /** Adding a product not in the cart raises its pre-discount total by the new line's worth. */
  lemma AddNewPreDiscount(cart: Cart, product: Product, quantity: int)
    requires !HasId(cart, product.id)
    ensures PreDiscount(AddItem(cart, product, quantity)) == PreDiscount(cart) + product.price * quantity as real
  {
    PreDiscountAppend(cart, [NewLine(product, quantity)]);
    assert [NewLine(product, quantity)][..0] == [];
  }

  /** Adding more of a product already at position `k` replaces that line's subtotal by
      the merged line's (its units re-priced at the latest price). */
  lemma AddExistingPreDiscount(cart: Cart, product: Product, quantity: int, k: nat)
    requires UniqueIds(cart) && k < |cart| && cart[k].id == product.id
    ensures var r := AddItem(cart, product, quantity);
      PreDiscount(r) == PreDiscount(cart) - Subtotal(cart[k]) + Subtotal(r[k])
  {
    assert HasId(cart, product.id);
    MergeAt(cart, product, quantity, k);
    PreDiscountReplace(cart, k, Merge(cart[k], product, quantity));
  }

  /** Setting the quantity of the line at `k` replaces that line's subtotal by the new one. */
  lemma SetQuantityPreDiscount(cart: Cart, quantity: int, k: nat)
    requires UniqueIds(cart) && k < |cart|
    ensures var r := SetQuantity(cart, cart[k].id, quantity);
      PreDiscount(r) == PreDiscount(cart) - Subtotal(cart[k]) + Subtotal(r[k])
  {
    SetQuantityAt(cart, quantity, k);
    PreDiscountReplace(cart, k, Requantify(cart[k], quantity));
  }

  /** Removing the line at `k` lowers the sum by exactly its subtotal. */
  lemma WithoutPreDiscount(cart: Cart, k: nat)
    requires UniqueIds(cart) && k < |cart|
    ensures PreDiscount(Without(cart, cart[k].id)) == PreDiscount(cart) - Subtotal(cart[k])
  {
    RemoveAt(cart, k);
    PreDiscountDelete(cart, k);
  }

  /** `addToCart` keeps ids unique and line totals consistent; with a positive quantity
      and a non-negative price it also keeps quantities positive and prices non-negative. */
  lemma AddItemPreserves(cart: Cart, product: Product, quantity: int)
    requires WellFormed(cart)
    ensures WellFormed(AddItem(cart, product, quantity))
    ensures PositiveQuantities(cart) && quantity >= 1 ==> PositiveQuantities(AddItem(cart, product, quantity))
    ensures NonNegativePrices(cart) && product.price >= 0.0 ==> NonNegativePrices(AddItem(cart, product, quantity))
  {
    var r := AddItem(cart, product, quantity);
    if !HasId(cart, product.id) {
      assert forall i :: 0 <= i < |cart| ==> r[i] == cart[i];
    }
  }

  /** `updateQuantity` keeps ids unique and line totals consistent; a positive quantity
      keeps quantities positive; prices are untouched. */
  lemma SetQuantityPreserves(cart: Cart, id: Id, quantity: int)
    requires WellFormed(cart)
    ensures WellFormed(SetQuantity(cart, id, quantity))
    ensures PositiveQuantities(cart) && quantity >= 1 ==> PositiveQuantities(SetQuantity(cart, id, quantity))
    ensures NonNegativePrices(cart) ==> NonNegativePrices(SetQuantity(cart, id, quantity))
  {
    var r := SetQuantity(cart, id, quantity);
    assert forall i :: 0 <= i < |cart| ==> r[i].id == cart[i].id && r[i].price == cart[i].price;
    assert UniqueIds(r);
    assert TotalsConsistent(r);
  }

  /** `removeFromCart` keeps every invariant, since the lines it keeps are lines of `cart`. */
  lemma WithoutPreserves(cart: Cart, id: Id)
    requires WellFormed(cart)
    ensures WellFormed(Without(cart, id))
    ensures PositiveQuantities(cart) ==> PositiveQuantities(Without(cart, id))
    ensures NonNegativePrices(cart) ==> NonNegativePrices(Without(cart, id))
  {
    var r := Without(cart, id);
    assert UniqueIds(r) by {
      WithoutUnique(cart, id);
    }
    forall i | 0 <= i < |r| ensures r[i] in cart { assert r[i] in r; }
  }

  /** Filtering keeps ids unique: it keeps a subsequence. */
  lemma {:induction false} WithoutUnique(cart: Cart, id: Id)
    requires UniqueIds(cart)
    ensures UniqueIds(Without(cart, id))
  {
    if cart != [] {
      var tail := cart[1..];
      assert UniqueIds(tail) by {
        forall i, j | 0 <= i < j < |tail| ensures tail[i].id != tail[j].id {
          assert tail[i] == cart[i + 1] && tail[j] == cart[j + 1];
        }
      }
      WithoutUnique(tail, id);
      var rest := Without(tail, id);
      if cart[0].id != id {
        var r := [cart[0]] + rest;
        assert r == Without(cart, id);
        forall j | 1 <= j < |r| ensures r[0].id != r[j].id {
          assert r[j] in rest;
          var m :| 0 <= m < |tail| && tail[m] == r[j];
          assert tail[m] == cart[m + 1];
        }
      }
    }
  }
}
