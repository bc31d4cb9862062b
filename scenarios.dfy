/** Worked examples over the shop's three-product catalog. */
module Scenarios {
  import opened CartReducer
  import opened Totals

  const TShirt := Product(1, "T-Shirt", 20)
  const Jeans := Product(2, "Jeans", 40)
  const Sneakers := Product(3, "Sneakers", 60)

  /** Adding the T-shirt twice to an empty cart gives one line of two, a
      total of 40 and no discount. */
  lemma TShirtTwice()
    ensures Reduce(Reduce(InitialCart, AddItem(TShirt)), AddItem(TShirt)) == [Line(1, "T-Shirt", 20, 2)]
    ensures Summarize([Line(1, "T-Shirt", 20, 2)]) == Summary(40, 0.0, 40.0)
  {
    TotalSingleton(Line(1, "T-Shirt", 20, 2));
  }

  /** Two pairs of sneakers total 120, past the threshold: 12 off, 108 to pay. */
  lemma TwoSneakers()
    ensures Reduce(Reduce(InitialCart, AddItem(Sneakers)), AddItem(Sneakers)) == [Line(3, "Sneakers", 60, 2)]
    ensures Summarize([Line(3, "Sneakers", 60, 2)]) == Summary(120, 12.0, 108.0)
  {
    TotalSingleton(Line(3, "Sneakers", 60, 2));
  }

  /** A cart worth exactly 100 (one T-shirt, two jeans) gets no discount. */
  lemma ExactlyOneHundred()
    ensures Summarize([Line(1, "T-Shirt", 20, 1), Line(2, "Jeans", 40, 2)]) == Summary(100, 0.0, 100.0)
  {
    var cart := [Line(1, "T-Shirt", 20, 1), Line(2, "Jeans", 40, 2)];
    TotalAppend([cart[0]], [cart[1]]);
    assert cart == [cart[0]] + [cart[1]];
    TotalSingleton(cart[0]);
    TotalSingleton(cart[1]);
  }
}
