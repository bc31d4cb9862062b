/** The cart state machine: `cartReducer` maps the current cart and an action
    to the next cart. Every transition is total and builds a new sequence. */
module CartReducer {

  /** A catalog entry, the payload of an ADD_ITEM action. Prices are whole
      currency units. */
  datatype Product = Product(id: int, name: string, price: int)

  /** One cart line: the product's fields plus how many of it are in the cart. */
  datatype Line = Line(id: int, name: string, price: int, quantity: int)

  /** The actions the reducer is dispatched. `Unknown` stands for an action
      whose type is none of the three the reducer recognises. */
  datatype Action =
    | AddItem(product: Product)
    | RemoveItem(id: int)
    | ClearCart
    | Unknown(kind: string)

  datatype Option<T> = None | Some(value: T)

  /** The cart is an ordered list of lines; it starts empty. */
  type Cart = seq<Line>

  const InitialCart: Cart := []

  predicate HasId(cart: Cart, id: int)
  {
    exists i :: 0 <= i < |cart| && cart[i].id == id
  }

  predicate UniqueIds(cart: Cart)
  {
    forall i, j :: 0 <= i < j < |cart| ==> cart[i].id != cart[j].id
  }

  predicate AllPositive(cart: Cart)
  {
    forall i :: 0 <= i < |cart| ==> cart[i].quantity >= 1
  }

  /** The cart invariant: no two lines share an id and every line holds at
      least one unit. */
  predicate WellFormed(cart: Cart)
  {
    UniqueIds(cart) && AllPositive(cart)
  }

  /** `state.find(item => item.id === id)`: the first line carrying `id`. */
  function Find(cart: Cart, id: int): (r: Option<Line>)
    ensures r.Some? <==> HasId(cart, id)
    ensures r.Some? ==> r.value in cart && r.value.id == id
    ensures r.Some? ==> exists i :: 0 <= i < |cart| && cart[i] == r.value &&
                                    forall k :: 0 <= k < i ==> cart[k].id != id
  {
    if cart == [] then None
    else if cart[0].id == id then Some(cart[0])
    else
      var r := Find(cart[1..], id);
      assert HasId(cart, id) ==> HasId(cart[1..], id) by {
        if HasId(cart, id) {
          var i :| 0 <= i < |cart| && cart[i].id == id;
          assert cart[1..][i - 1].id == id;
        }
      }
      assert r.Some? ==> exists i :: 0 <= i < |cart| && cart[i] == r.value &&
                                     forall k :: 0 <= k < i ==> cart[k].id != id by {
        if r.Some? {
          var j :| 0 <= j < |cart[1..]| && cart[1..][j] == r.value &&
                   forall k :: 0 <= k < j ==> cart[1..][k].id != id;
          forall k | 0 <= k < j + 1 ensures cart[k].id != id {
            if k > 0 {
              assert cart[k] == cart[1..][k - 1];
            }
          }
          assert cart[j + 1] == r.value;
        }
      }
      r
  }

  /** The line `l` with its quantity moved by `delta`; every other field kept. */
  function Shifted(l: Line, delta: int): Line
  {
    l.(quantity := l.quantity + delta)
  }

  /** `state.map(item => item.id === id ? {...item, quantity: item.quantity + delta} : item)`,
      the map step shared by ADD_ITEM (delta 1) and REMOVE_ITEM (delta -1). */
  function Adjusted(cart: Cart, id: int, delta: int): (r: Cart)
    ensures |r| == |cart|
    ensures forall k :: 0 <= k < |cart| ==>
      r[k] == if cart[k].id == id then Shifted(cart[k], delta) else cart[k]
  {
    if cart == [] then []
    else [if cart[0].id == id then Shifted(cart[0], delta) else cart[0]] + Adjusted(cart[1..], id, delta)
  }

  /** `.filter(item => item.quantity > 0)`: the lines holding at least one
      unit, in their original order. */
  function KeepPositive(cart: Cart): (r: Cart)
    ensures |r| <= |cart|
    ensures AllPositive(r)
  {
    if cart == [] then []
    else if cart[0].quantity > 0 then [cart[0]] + KeepPositive(cart[1..])
    else KeepPositive(cart[1..])
  }

  /** ADD_ITEM: bump the line if the product is already there, else append a
      new line holding one unit. */
  function Add(cart: Cart, p: Product): Cart
  {
    if Find(cart, p.id).Some? then Adjusted(cart, p.id, 1)
    else cart + [Line(p.id, p.name, p.price, 1)]
  }

  /** REMOVE_ITEM: take one unit off the line, then drop every empty line. */
  function Remove(cart: Cart, id: int): Cart
  {
    KeepPositive(Adjusted(cart, id, -1))
  }

  /** `cartReducer(state, action)`. */
  function Reduce(cart: Cart, action: Action): Cart
  {
    match action
    case AddItem(p) => Add(cart, p)
    case RemoveItem(id) => Remove(cart, id)
    case ClearCart => []
    case Unknown(_) => cart
  }

  // ------------------------------------------------------------------
  // Lemmas about the list helpers
  // ------------------------------------------------------------------

  lemma {:induction false} KeepPositiveConcat(a: Cart, b: Cart)
    ensures KeepPositive(a + b) == KeepPositive(a) + KeepPositive(b)
  {
    if a == [] {
      assert a + b == b;
    } else {
      assert (a + b)[0] == a[0];
      assert (a + b)[1..] == a[1..] + b;
      KeepPositiveConcat(a[1..], b);
    }
  }

  /** Filtering a cart that holds no empty line changes nothing. */
  lemma {:induction false} KeepPositiveOfPositive(cart: Cart)
    requires AllPositive(cart)
    ensures KeepPositive(cart) == cart
  {
    if cart != [] {
      KeepPositiveOfPositive(cart[1..]);
    }
  }

  lemma UniqueIdsCons(l: Line, rest: Cart)
    ensures UniqueIds([l] + rest) <==> !HasId(rest, l.id) && UniqueIds(rest)
  {
    var s := [l] + rest;
    if UniqueIds(s) {
      forall i, j | 0 <= i < j < |rest| ensures rest[i].id != rest[j].id {
        assert s[i + 1] == rest[i] && s[j + 1] == rest[j];
      }
      forall i | 0 <= i < |rest| ensures rest[i].id != l.id {
        assert s[0] == l && s[i + 1] == rest[i];
      }
    }
    if !HasId(rest, l.id) && UniqueIds(rest) {
      forall i, j | 0 <= i < j < |s| ensures s[i].id != s[j].id {
        assert s[j] == rest[j - 1];
        if i > 0 {
          assert s[i] == rest[i - 1];
        }
      }
    }
  }

  /** The filter keeps exactly the lines of the cart that hold at least
      one unit. */
  lemma {:induction false} KeepPositiveMembers(cart: Cart)
    ensures forall l :: l in KeepPositive(cart) <==> l in cart && l.quantity > 0
  {
    if cart != [] {
      KeepPositiveMembers(cart[1..]);
      assert cart == [cart[0]] + cart[1..];
    }
  }

  /** Filtering keeps ids unique. */
  lemma {:induction false} KeepPositiveUnique(cart: Cart)
    requires UniqueIds(cart)
    ensures UniqueIds(KeepPositive(cart))
  {
    if cart != [] {
      assert cart == [cart[0]] + cart[1..];
      UniqueIdsCons(cart[0], cart[1..]);
      KeepPositiveUnique(cart[1..]);
      if cart[0].quantity > 0 {
        var tail := KeepPositive(cart[1..]);
        KeepPositiveMembers(cart[1..]);
        forall k | 0 <= k < |tail| ensures tail[k].id != cart[0].id {
          assert tail[k] in cart[1..];
        }
        UniqueIdsCons(cart[0], tail);
      }
    }
  }

  /** Under unique ids, moving the quantity of the line at index `i` is a
      point update of that line. */
  lemma AdjustedAt(cart: Cart, i: int, delta: int)
    requires UniqueIds(cart)
    requires 0 <= i < |cart|
    ensures Adjusted(cart, cart[i].id, delta) == cart[i := Shifted(cart[i], delta)]
  {
    var r := Adjusted(cart, cart[i].id, delta);
    forall k | 0 <= k < |cart| ensures r[k] == cart[i := Shifted(cart[i], delta)][k] {
      if k != i {
        assert cart[k].id != cart[i].id;
      }
    }
  }

  // ------------------------------------------------------------------
  // ADD_ITEM
  // ------------------------------------------------------------------

  /** Adding a product whose id is already in the cart bumps that line by
      exactly one; every other line, the order and the length are unchanged,
      and the line keeps its own name and price. */
  lemma AddExisting(cart: Cart, p: Product, i: int)
    requires UniqueIds(cart)
    requires 0 <= i < |cart| && cart[i].id == p.id
    ensures Add(cart, p) == cart[i := Shifted(cart[i], 1)]
  {
    assert HasId(cart, p.id);
    AdjustedAt(cart, i, 1);
  }

  /** Adding a product whose id is not in the cart appends a one-unit line
      at the end and leaves the existing prefix as it was. */
  lemma AddNew(cart: Cart, p: Product)
    requires !HasId(cart, p.id)
    ensures Add(cart, p) == cart + [Line(p.id, p.name, p.price, 1)]
    ensures |Add(cart, p)| == |cart| + 1 && Add(cart, p)[..|cart|] == cart
  {
  }

  /** Replacing a line by one with the same id and at least one unit keeps
      the cart well-formed. */
  lemma UpdateWellFormed(cart: Cart, i: int, l: Line)
    requires WellFormed(cart)
    requires 0 <= i < |cart| && l.id == cart[i].id && l.quantity >= 1
    ensures WellFormed(cart[i := l])
  {
    var r := cart[i := l];
    assert forall k :: 0 <= k < |r| ==> r[k].id == cart[k].id;
  }

  lemma AddWellFormed(cart: Cart, p: Product)
    requires WellFormed(cart)
    ensures WellFormed(Add(cart, p))
  {
    if HasId(cart, p.id) {
      var i :| 0 <= i < |cart| && cart[i].id == p.id;
      AddExisting(cart, p, i);
      UpdateWellFormed(cart, i, Shifted(cart[i], 1));
    } else {
      var r := cart + [Line(p.id, p.name, p.price, 1)];
      AddNew(cart, p);
      forall i, j | 0 <= i < j < |r| ensures r[i].id != r[j].id {
        assert r[i] == cart[i];
        if j < |cart| {
          assert r[j] == cart[j];
        }
      }
      forall k | 0 <= k < |r| ensures r[k].quantity >= 1 {
        if k < |cart| {
          assert r[k] == cart[k];
        }
      }
    }
  }

  // ------------------------------------------------------------------
  // REMOVE_ITEM
  // ------------------------------------------------------------------

  /** Removing from a line holding more than one unit leaves it in place
      with one unit less; everything else is unchanged. */
  lemma RemoveDecrements(cart: Cart, i: int)
    requires WellFormed(cart)
    requires 0 <= i < |cart| && cart[i].quantity > 1
    ensures Remove(cart, cart[i].id) == cart[i := Shifted(cart[i], -1)]
  {
    AdjustedAt(cart, i, -1);
    KeepPositiveOfPositive(cart[i := Shifted(cart[i], -1)]);
  }

  /** Filtering a cart whose only empty line is at index `i` drops exactly
      that line. */
  lemma KeepPositiveDropsAt(s: Cart, i: int)
    requires 0 <= i < |s| && s[i].quantity <= 0
    requires AllPositive(s[..i]) && AllPositive(s[i + 1..])
    ensures KeepPositive(s) == s[..i] + s[i + 1..]
  {
    var tail := [s[i]] + s[i + 1..];
    assert s == s[..i] + tail;
    assert tail[0] == s[i] && tail[1..] == s[i + 1..];
    assert KeepPositive(tail) == KeepPositive(s[i + 1..]);
    KeepPositiveConcat(s[..i], tail);
    KeepPositiveOfPositive(s[..i]);
    KeepPositiveOfPositive(s[i + 1..]);
  }

  /** Removing from a line holding one unit drops the line; the other lines
      keep their values and their relative order. */
  lemma RemoveDrops(cart: Cart, i: int)
    requires WellFormed(cart)
    requires 0 <= i < |cart| && cart[i].quantity == 1
    ensures Remove(cart, cart[i].id) == cart[..i] + cart[i + 1..]
    ensures !HasId(Remove(cart, cart[i].id), cart[i].id)
  {
    var rest := cart[..i] + cart[i + 1..];
    forall k | 0 <= k < |rest| ensures rest[k].id != cart[i].id {
      if k < i {
        assert rest[k] == cart[k];
      } else {
        assert rest[k] == cart[k + 1];
      }
    }
    var emptied := cart[i := Shifted(cart[i], -1)];
    AdjustedAt(cart, i, -1);
    assert emptied[..i] == cart[..i] && emptied[i + 1..] == cart[i + 1..];
    KeepPositiveDropsAt(emptied, i);
  }

  /** Removing an id that is not in the cart only filters out empty lines,
      so on a well-formed cart it changes nothing. */
  lemma RemoveAbsent(cart: Cart, id: int)
    requires !HasId(cart, id)
    ensures Remove(cart, id) == KeepPositive(cart)
    ensures AllPositive(cart) ==> Remove(cart, id) == cart
  {
    assert Adjusted(cart, id, -1) == cart;
    if AllPositive(cart) {
      KeepPositiveOfPositive(cart);
    }
  }

  lemma RemoveWellFormed(cart: Cart, id: int)
    requires WellFormed(cart)
    ensures WellFormed(Remove(cart, id))
  {
    var adjusted := Adjusted(cart, id, -1);
    assert UniqueIds(adjusted) by {
      forall i, j | 0 <= i < j < |adjusted| ensures adjusted[i].id != adjusted[j].id {
        assert adjusted[i].id == cart[i].id && adjusted[j].id == cart[j].id;
      }
    }
    KeepPositiveUnique(adjusted);
  }

  // ------------------------------------------------------------------
  // The reducer as a whole
  // ------------------------------------------------------------------

  /** Every action keeps the cart invariant. */
  lemma ReduceWellFormed(cart: Cart, action: Action)
    requires WellFormed(cart)
    ensures WellFormed(Reduce(cart, action))
  {
    match action
    case AddItem(p) => AddWellFormed(cart, p);
    case RemoveItem(id) => RemoveWellFormed(cart, id);
    case ClearCart =>
    case Unknown(_) =>
  }

  /** CLEAR_CART empties any cart and is idempotent; an unrecognised action
      leaves the cart as it is. */
  lemma ClearAndUnknown(cart: Cart, kind: string)
    ensures Reduce(cart, ClearCart) == []
    ensures Reduce(Reduce(cart, ClearCart), ClearCart) == Reduce(cart, ClearCart)
    ensures Reduce(cart, Unknown(kind)) == cart
  {
  }

  /** The round trip through a line that was already in the cart: one unit
      up, then one unit down. */
  lemma AddThenRemoveExisting(cart: Cart, p: Product, i: int)
    requires WellFormed(cart)
    requires 0 <= i < |cart| && cart[i].id == p.id
    ensures Remove(Add(cart, p), p.id) == cart
  {
    var added := cart[i := Shifted(cart[i], 1)];
    AddExisting(cart, p, i);
    UpdateWellFormed(cart, i, Shifted(cart[i], 1));
    assert added[i] == Shifted(cart[i], 1);
    RemoveDecrements(added, i);
    assert Shifted(added[i], -1) == cart[i];
    assert added[i := cart[i]] == cart;
  }

  /** The round trip through a new line: appended, then dropped. */
  lemma AddThenRemoveNew(cart: Cart, p: Product)
    requires WellFormed(cart)
    requires !HasId(cart, p.id)
    ensures Remove(Add(cart, p), p.id) == cart
  {
    var added := cart + [Line(p.id, p.name, p.price, 1)];
    AddNew(cart, p);
    AddWellFormed(cart, p);
    RemoveDrops(added, |cart|);
    assert added[..|cart|] + added[|cart| + 1..] == cart;
  }

  /** Round trip: on a well-formed cart, removing the product just added gives
      back the original cart. */
  lemma AddThenRemove(cart: Cart, p: Product)
    requires WellFormed(cart)
    ensures Reduce(Reduce(cart, AddItem(p)), RemoveItem(p.id)) == cart
  {
    if HasId(cart, p.id) {
      var i :| 0 <= i < |cart| && cart[i].id == p.id;
      AddThenRemoveExisting(cart, p, i);
    } else {
      AddThenRemoveNew(cart, p);
    }
  }
}
