# Shopping cart: reducer, totals and checkout

This project models the logic of a client-side shopping cart widget
(`shopping/src/App.jsx`). It has three parts:

- **The cart reducer** (`cartReducer`) is a total, side-effect-free transition
  from the current cart and an action to the next cart. A cart is an ordered
  list of lines `{id, name, price, quantity}`. The actions are:
  - `ADD_ITEM(product)` bumps the matching line or appends a one-unit line.
  - `REMOVE_ITEM(id)` takes one unit off the matching line, then drops every
    line whose quantity is no longer above 0.
  - `CLEAR_CART` empties the cart.
  - Any other action leaves the cart unchanged.
  
  This part is module `CartReducer` in `cart_reducer.dfy`. It contains
  functions on `seq<Line>` and the lemmas about them.
- **The totals** are recomputed from the cart on every change. They are the sum
  of price × quantity, a 10% discount when that sum is strictly above 100, and
  the final price, which is the sum less the discount. This part is module
  `Totals` in `totals.dfy`.
- **The checkout** bumps a session counter by exactly one, reports the count
  and the final price, and clears the cart. This part is module `Checkout` in
  `checkout.dfy`. It is a class `Session` whose fields are the cart and the
  counter.

Module `Scenarios` in `scenarios.dfy` holds worked examples over the
three-product catalog.

Prices, ids and quantities are integers. The catalog's prices are whole
numbers. The source's `/` does not truncate: a total of 105 gets a discount
of 10.5. The source computes with floating-point numbers, and the model uses
exact reals in their place. So the discount and the final price are `real`.
For whole-number totals such as 101, 105 and 120, both give the same figures
to the two decimals that the summary shows.

The invariant of a cart (`WellFormed`) is that no two lines share an id and
every line holds at least one unit. Every action keeps it
(`ReduceWellFormed`), and the session keeps it as its object invariant.

Removing an id that is not in the cart is not a pure no-op. The code maps
and then filters `quantity > 0` over the whole cart, so such a remove also
drops any line whose quantity is not positive. On a cart whose lines are all
positive nothing changes. `RemoveAbsent` states both facts.

## Model

| member | source | states |
|---|---|---|
| CartReducer.Find | shopping/src/App.jsx:10-11 | the lookup finds a line exactly when some line carries the id; what it returns is a line of the cart with that id, and no earlier line carries the id |
| CartReducer.Adjusted | shopping/src/App.jsx:12-16 | the map keeps the length; each line with the id has its quantity moved by delta, with every other field kept, and every other line is unchanged |
| CartReducer.KeepPositive | shopping/src/App.jsx:27 | the filter's result holds no line with quantity below 1 and is never longer than the cart |
| CartReducer.KeepPositiveMembers | shopping/src/App.jsx:27 | a line is in the filtered cart exactly when it is in the cart with quantity above 0 |
| CartReducer.KeepPositiveConcat | shopping/src/App.jsx:27 | filtering distributes over concatenation, so the kept lines stay in their original relative order |
| CartReducer.KeepPositiveOfPositive | shopping/src/App.jsx:27 | filtering a cart with no empty line returns it unchanged |
| CartReducer.KeepPositiveUnique | shopping/src/App.jsx:27 | filtering keeps the ids unique |
| CartReducer.KeepPositiveDropsAt | shopping/src/App.jsx:27 | when the only non-positive line is at index i, filtering removes exactly that line |
| CartReducer.AdjustedAt | shopping/src/App.jsx:22-26 | under unique ids, the map over one line's id is a point update of that line |
| CartReducer.UpdateWellFormed | shopping/src/App.jsx:12-16 | replacing a line by one with the same id and at least one unit keeps ids unique and quantities at least 1 |
| CartReducer.AddExisting | shopping/src/App.jsx:10-16 | ADD_ITEM for an id already in the cart raises that line's quantity by exactly 1; every other line, the order, the length, and the line's own name and price are unchanged |
| CartReducer.AddNew | shopping/src/App.jsx:10-18 | ADD_ITEM for an id not in the cart appends the product as a one-unit line; the length grows by 1 and the old cart is the prefix |
| CartReducer.AddWellFormed | shopping/src/App.jsx:10-18 | ADD_ITEM keeps ids unique and every quantity at least 1 |
| CartReducer.RemoveDecrements | shopping/src/App.jsx:21-27 | REMOVE_ITEM on a line of quantity q > 1 leaves it in place with q - 1; all other lines are unchanged |
| CartReducer.RemoveDrops | shopping/src/App.jsx:21-27 | REMOVE_ITEM on a line of quantity 1 drops it, keeps the other lines in order, and leaves no line with that id |
| CartReducer.RemoveAbsent | shopping/src/App.jsx:21-27 | REMOVE_ITEM of an absent id returns the filtered cart; on a cart whose lines are all positive that is the cart unchanged |
| CartReducer.RemoveWellFormed | shopping/src/App.jsx:21-27 | REMOVE_ITEM keeps ids unique and every quantity at least 1 |
| CartReducer.ReduceWellFormed | shopping/src/App.jsx:7-35 | every action, including an unrecognised one, keeps the cart invariant |
| CartReducer.ClearAndUnknown | shopping/src/App.jsx:29-33 | CLEAR_CART gives the empty cart from any cart and is idempotent; an unrecognised action returns the cart unchanged |
| CartReducer.AddThenRemoveExisting | shopping/src/App.jsx:10-27 | on a well-formed cart, adding then removing a product already present restores the cart |
| CartReducer.AddThenRemoveNew | shopping/src/App.jsx:10-27 | on a well-formed cart, adding then removing a new product restores the cart |
| CartReducer.AddThenRemove | shopping/src/App.jsx:10-27 | round trip: on a well-formed cart, REMOVE_ITEM(p.id) after ADD_ITEM(p) gives back the original cart |
| Totals.TotalAppend | shopping/src/App.jsx:71 | the left-fold sum of a concatenation is the sum of the sums |
| Totals.TotalNonNegative | shopping/src/App.jsx:71 | with non-negative prices and positive quantities the total is non-negative |
| Totals.TotalUpdate | shopping/src/App.jsx:71 | replacing one line changes the total by the difference of the two line amounts |
| Totals.TotalDelete | shopping/src/App.jsx:71 | deleting one line takes its price × quantity off the total |
| Totals.TotalShifted | shopping/src/App.jsx:71 | moving one line's quantity by delta moves the total by delta × that line's price |
| Totals.TotalAfterAddExisting | shopping/src/App.jsx:71 | ADD_ITEM of a product already in the cart raises the total by the unit price of the line in the cart |
| Totals.TotalAfterAddNew | shopping/src/App.jsx:71 | ADD_ITEM of a new product raises the total by the product's price |
| Totals.TotalAfterRemove | shopping/src/App.jsx:71 | REMOVE_ITEM of a line in a well-formed cart lowers the total by that line's unit price, whether the line stays or is dropped |
| Totals.TotalAfterRemoveAbsent | shopping/src/App.jsx:71 | REMOVE_ITEM of an id not in a well-formed cart leaves the total unchanged |
| Totals.DiscountThreshold | shopping/src/App.jsx:72-75 | the discount is total × 10 / 100 when the total is above 100 and 0 otherwise (so 100 gets none); it is positive exactly when the total is above 100 |
| Totals.FinalPriceBounds | shopping/src/App.jsx:71-77 | the final price is the total less the discount, and for non-negative prices 0 ≤ final price ≤ total |
| Checkout.Session.constructor | shopping/src/App.jsx:48-49 | a session starts with the empty cart and the counter at 0 |
| Checkout.Session.Dispatch | shopping/src/App.jsx:48 | the new cart is the reducer applied to the old cart; the counter is unchanged and the invariant kept |
| Checkout.Session.HandleCheckout | shopping/src/App.jsx:81-89 | the counter grows by exactly 1 and is reported; the reported final price is that of the cart before checkout; the cart is then empty |
| Checkout.CheckoutTwice | shopping/src/App.jsx:81-89 | two checkouts after adding two pairs of sneakers report 1 then 2, charging 108 and then 0 |
| Scenarios.TShirtTwice | shopping/src/App.jsx:70-78 | adding the T-shirt twice to an empty cart gives one line of quantity 2, total 40, discount 0, final 40 |
| Scenarios.TwoSneakers | shopping/src/App.jsx:70-78 | two pairs of sneakers give total 120, discount 12, final 108 |
| Scenarios.ExactlyOneHundred | shopping/src/App.jsx:72 | a cart worth exactly 100 gets no discount |

## Left out

- Rendering is not modelled: the JSX, the `Product` component, layout and styles have no logic.
- The React hooks are not modelled. `useReducer` is modelled directly as `Session.Dispatch`, and `useRef` as the `checkouts` field. `useMemo` and `useCallback` only memoise, so the totals are recomputed on demand. The `addToCart` and `removeFromCart` callbacks only dispatch one action each.
- The `alert` in checkout and the `toFixed(2)` formatting are I/O and string formatting. `HandleCheckout` returns the two numbers the alert shows instead.
- JavaScript floating point is not modelled. Prices are integers, and the discount and final price are exact reals.
- Ids are compared as integers. JavaScript's strict `===` between an id and a payload of another type, such as a string, is not modelled.
- A payload's fields beyond `id`, `name` and `price` are not modelled, although the object spread would copy them into the new line.
- The catalog is used only as data in the worked examples.
