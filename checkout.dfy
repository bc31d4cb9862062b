/** The running cart widget's state: the cart held by the reducer and the
    checkout counter that survives re-renders. */
module Checkout {
  import opened CartReducer
  import opened Totals

  class Session {
    /** The reducer's current state. */
    var cart: Cart
    /** How many times checkout has been clicked in this session. */
    var checkouts: nat

    ghost predicate Valid()
      reads this
    {
      WellFormed(cart)
    }

    /** A session starts with an empty cart and a counter at 0. */
    constructor ()
      ensures Valid()
      ensures cart == InitialCart && checkouts == 0
    {
      cart := InitialCart;
      checkouts := 0;
    }

    /** Hands one action to the reducer and keeps its result as the new cart. */
    method Dispatch(action: Action)
      requires Valid()
      modifies this
      ensures Valid()
      ensures cart == Reduce(old(cart), action) && checkouts == old(checkouts)
    {
      ReduceWellFormed(cart, action);
      cart := Reduce(cart, action);
    }

    /** `handleCheckout`: bumps the counter by one, reports the new count and
        the final price of the cart as it stood, then clears the cart. */
    method HandleCheckout() returns (count: nat, charged: real)
      requires Valid()
      modifies this
      ensures Valid()
      ensures checkouts == old(checkouts) + 1 && count == checkouts
      ensures charged == Summarize(old(cart)).finalPrice
      ensures cart == []
    {
      checkouts := checkouts + 1;
      count := checkouts;
      charged := Summarize(cart).finalPrice;
      Dispatch(ClearCart);
    }
  }

  /** A session that buys two pairs of sneakers and then checks out twice:
      the counter reads 1 then 2, the first checkout charges the discounted
      108 and the second, on the emptied cart, charges nothing. */
  method CheckoutTwice() returns (first: nat, firstCharged: real, second: nat, secondCharged: real)
    ensures first == 1 && firstCharged == 108.0
    ensures second == 2 && secondCharged == 0.0
  {
    var sneakers := Product(3, "Sneakers", 60);
    var session := new Session();
    session.Dispatch(AddItem(sneakers));
    session.Dispatch(AddItem(sneakers));
    assert session.cart == [Line(3, "Sneakers", 60, 2)];
    assert Total(session.cart) == 120 by {
      TotalSingleton(Line(3, "Sneakers", 60, 2));
    }
    first, firstCharged := session.HandleCheckout();
    second, secondCharged := session.HandleCheckout();
  }
}
