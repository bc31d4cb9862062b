/** The totals derived from the cart on every change: the sum of the lines,
    a 10% discount once that sum passes 100, and the price left to pay. */
module Totals {
  import opened CartReducer

  /** What a line adds to the total: its price times its quantity. */
  function LineAmount(l: Line): int
  {
    l.price * l.quantity
  }

  /** `cart.reduce((sum, item) => sum + item.price * item.quantity, 0)`: a
      left fold, so the last line is added last. */
  function Total(cart: Cart): int
  {
    if cart == [] then 0
    else Total(cart[..|cart| - 1]) + LineAmount(cart[|cart| - 1])
  }

  /** The discount percentage: 10 strictly above 100, else 0. */
  function DiscountRate(total: int): int
  {
    if total > 100 then 10 else 0
  }

  /** The three figures the cart summary shows. Division does not truncate:
      the discount of a total of 105 is 10.5. Exact reals stand in for the
      floating-point numbers of the summary. */
  datatype Summary = Summary(totalPrice: int, discount: real, finalPrice: real)

  function Summarize(cart: Cart): Summary
  {
    var total := Total(cart);
    var rate := DiscountRate(total);
    Summary(total, (total * rate) as real / 100.0, total as real - (total * rate) as real / 100.0)
  }

  /** Prices that are never negative, as in the catalog. */
  predicate NonNegativePrices(cart: Cart)
  {
    forall i :: 0 <= i < |cart| ==> cart[i].price >= 0
  }

  // ------------------------------------------------------------------
  // The sum
  // ------------------------------------------------------------------

  /** The fold distributes over concatenation, so the order in which lines
      are summed does not matter. */
  lemma {:induction false} TotalAppend(a: Cart, b: Cart)
    ensures Total(a + b) == Total(a) + Total(b)
  {
    if b == [] {
      assert a + b == a;
    } else {
      var last := b[|b| - 1];
      assert (a + b)[..|a + b| - 1] == a + b[..|b| - 1];
      assert (a + b)[|a + b| - 1] == last;
      TotalAppend(a, b[..|b| - 1]);
    }
  }

  /** A cart whose every line holds at least one unit, with non-negative
      prices, has a non-negative total. */
  lemma {:induction false} TotalNonNegative(cart: Cart)
    requires AllPositive(cart) && NonNegativePrices(cart)
    ensures Total(cart) >= 0
  {
    if cart != [] {
      var init := cart[..|cart| - 1];
      assert AllPositive(init) && NonNegativePrices(init) by {
        forall k | 0 <= k < |init| ensures init[k] == cart[k] { }
      }
      TotalNonNegative(init);
      var l := cart[|cart| - 1];
      assert l.price >= 0 && l.quantity >= 1;
      assert LineAmount(l) >= 0 by {
        assert l.price * l.quantity >= 0 * l.quantity;
      }
    }
  }

  lemma TotalSingleton(l: Line)
    ensures Total([l]) == LineAmount(l)
  {
    assert [l][..0] == [];
  }

  /** The total of the first i + 1 lines is that of the first i plus line i. */
  lemma TotalPrefix(cart: Cart, i: int)
    requires 0 <= i < |cart|
    ensures Total(cart[..i + 1]) == Total(cart[..i]) + LineAmount(cart[i])
  {
    assert cart[..i + 1][..i] == cart[..i];
  }

  /** Replacing one line changes the total by the difference of the two
      lines' amounts. */
  lemma TotalUpdate(cart: Cart, i: int, l: Line)
    requires 0 <= i < |cart|
    ensures Total(cart[i := l]) == Total(cart) - LineAmount(cart[i]) + LineAmount(l)
  {
    var updated := cart[i := l];
    assert cart == cart[..i + 1] + cart[i + 1..];
    assert updated == updated[..i + 1] + cart[i + 1..];
    assert updated[..i] == cart[..i];
    TotalAppend(cart[..i + 1], cart[i + 1..]);
    TotalAppend(updated[..i + 1], cart[i + 1..]);
    TotalPrefix(cart, i);
    TotalPrefix(updated, i);
  }

  /** Deleting one line takes its amount off the total. */
  lemma TotalDelete(cart: Cart, i: int)
    requires 0 <= i < |cart|
    ensures Total(cart[..i] + cart[i + 1..]) == Total(cart) - LineAmount(cart[i])
  {
    assert cart == cart[..i + 1] + cart[i + 1..];
    TotalAppend(cart[..i + 1], cart[i + 1..]);
    TotalAppend(cart[..i], cart[i + 1..]);
    TotalPrefix(cart, i);
  }

  /** Moving a line's quantity by `delta` moves its amount by `delta` times
      its price. */
  lemma LineAmountShifted(l: Line, delta: int)
    ensures LineAmount(Shifted(l, delta)) == LineAmount(l) + delta * l.price
  {
    assert l.price * (l.quantity + delta) == l.price * l.quantity + l.price * delta;
  }

  /** Moving one line's quantity by `delta` moves the total by `delta`
      times that line's price. */
  lemma TotalShifted(cart: Cart, i: int, delta: int)
    requires 0 <= i < |cart|
    ensures Total(cart[i := Shifted(cart[i], delta)]) == Total(cart) + delta * cart[i].price
  {
    TotalUpdate(cart, i, Shifted(cart[i], delta));
    LineAmountShifted(cart[i], delta);
  }

  // ------------------------------------------------------------------
  // How the reducer moves the total
  // ------------------------------------------------------------------

  /** ADD_ITEM of a product already in the cart raises the total by the unit
      price of the line in the cart (not of the product dispatched). */
  lemma TotalAfterAddExisting(cart: Cart, p: Product, i: int)
    requires UniqueIds(cart)
    requires 0 <= i < |cart| && cart[i].id == p.id
    ensures Total(Add(cart, p)) == Total(cart) + cart[i].price
  {
    AddExisting(cart, p, i);
    TotalShifted(cart, i, 1);
  }

  /** ADD_ITEM of a new product raises the total by the product's price. */
  lemma TotalAfterAddNew(cart: Cart, p: Product)
    requires !HasId(cart, p.id)
    ensures Total(Add(cart, p)) == Total(cart) + p.price
  {
    var l := Line(p.id, p.name, p.price, 1);
    AddNew(cart, p);
    TotalAppend(cart, [l]);
    TotalSingleton(l);
  }

  /** REMOVE_ITEM of a line in a well-formed cart lowers the total by that
      line's unit price, whether the line stays or is dropped. */
  lemma TotalAfterRemove(cart: Cart, i: int)
    requires WellFormed(cart)
    requires 0 <= i < |cart|
    ensures Total(Remove(cart, cart[i].id)) == Total(cart) - cart[i].price
  {
    if cart[i].quantity > 1 {
      RemoveDecrements(cart, i);
      TotalShifted(cart, i, -1);
    } else {
      RemoveDrops(cart, i);
      TotalDelete(cart, i);
    }
  }

  /** REMOVE_ITEM of an id not in a well-formed cart leaves the total alone. */
  lemma TotalAfterRemoveAbsent(cart: Cart, id: int)
    requires WellFormed(cart)
    requires !HasId(cart, id)
    ensures Total(Remove(cart, id)) == Total(cart)
  {
    RemoveAbsent(cart, id);
  }

  // ------------------------------------------------------------------
  // Discount and final price
  // ------------------------------------------------------------------

  /** The discount is a tenth of the total exactly when the total is above
      100, and nothing otherwise: a total of exactly 100 gets no discount. */
  lemma DiscountThreshold(cart: Cart)
    ensures Total(cart) > 100 ==> Summarize(cart).discount == Total(cart) as real / 10.0
    ensures Total(cart) <= 100 ==> Summarize(cart).discount == 0.0
    ensures Summarize(cart).discount > 0.0 <==> Total(cart) > 100
  {
  }

  /** The final price is the total less the discount; for a cart whose every
      line holds at least one unit, with non-negative prices, it is never
      negative and never above the total. */
  lemma FinalPriceBounds(cart: Cart)
    requires AllPositive(cart) && NonNegativePrices(cart)
    ensures Summarize(cart).totalPrice == Total(cart)
    ensures Summarize(cart).finalPrice == Summarize(cart).totalPrice as real - Summarize(cart).discount
    ensures 0.0 <= Summarize(cart).finalPrice <= Total(cart) as real
  {
    TotalNonNegative(cart);
  }
}
