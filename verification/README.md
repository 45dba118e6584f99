# Shashlik delivery page: the shopping cart

The ordering page of the shashlik delivery website keeps a shopping cart in
its local state: an insertion-ordered list of lines, each a menu item plus a
quantity. Two buttons change it — "add" (on a dish card, or the "+" beside a
line) and "remove" (the "−" beside a line) — and the page shows two figures
derived from it: the amount to pay (sum of price × quantity) and the number
of units on the cart button's badge.

This project models that logic in Dafny:

- `menu.dfy` (module `Menu`): the `MenuItem` record and the fixed six-dish
  catalog, with its ids and prices.
- `cart.dfy` (module `ShoppingCart`): cart lines, the representation
  invariant `Valid` (ids pairwise distinct, every quantity at least one), the
  `find` / `map` / `filter` steps the page uses (`FindIndex`,
  `AdjustQuantity`, `Without`), and the two updates `Add` and `Remove` as pure
  functions from the previous cart to the next.
- `totals.dfy` (module `CartTotals`): the reference sums `TotalPrice` and
  `TotalItems`, the left folds `ComputeTotalPrice` / `ComputeTotalItems` that
  mirror the page's `reduce` and are proved equal to them, and how the sums
  move when a line changes or disappears.
- `properties.dfy` (module `CartProperties`): exactly which line each update
  touches in a valid cart, preservation of the invariant, "remove undoes
  add", and the effect of each update on both totals.
- `session.dfy` (module `Session`): a page session as a sequence of button
  presses replayed from the empty cart; every reachable cart is valid and its
  unit count equals the number of presses that changed something; plus the
  concrete pork/chicken walk-through.

One might expect a remove to delete the line when it holds one unit and to
do nothing for an absent id; the code (`src/pages/Index.tsx:105`) instead
filters out every line with that id whenever the first such line does not
hold more than one unit, including when there is no such line. `Remove` is
written that way; `RemoveDeletesLine`, `Remove`'s own contract and
`WithoutSingleLine` show that in a valid cart this gives the expected result.
Likewise the increment and decrement `map` every line with the id, not just
the one `find` returned; `AddExistingLine` and `RemoveDecrements` show that in
a valid cart only that one line changes.

## Model

| member | source | states |
|---|---|---|
| Menu.CatalogWellFormed | src/pages/Index.tsx:23-75 | the catalog's six ids are pairwise distinct and every price is positive |
| ShoppingCart.FindIndex | src/pages/Index.tsx:83 | finds a line exactly when some line carries the id; the index found carries the id and no earlier line does |
| ShoppingCart.AdjustQuantity | src/pages/Index.tsx:85-89 | same length; lines with the id get quantity + delta with the item kept; every other line is identical |
| ShoppingCart.Without | src/pages/Index.tsx:105 | no line with the id remains; every remaining line came from the cart and every line with another id survives; an absent id leaves the cart unchanged |
| ShoppingCart.Add | src/pages/Index.tsx:81-93 | afterwards the id is in the cart; if it was present, length and items are kept and exactly the lines with that id gain one unit; if absent, the old cart is a prefix and one line {item, 1} follows it |
| ShoppingCart.Remove | src/pages/Index.tsx:95-107 | removing an absent id (also from the empty cart) returns the cart unchanged; the cart never grows; lines with other ids are neither lost nor invented |
| CartTotals.ComputeTotalPrice | src/pages/Index.tsx:109-111 | the left fold from zero over the lines equals the sum of price × quantity |
| CartTotals.ComputeTotalItems | src/pages/Index.tsx:113-115 | the left fold from zero over the lines equals the sum of quantities |
| CartTotals.TotalsOfConcat | src/pages/Index.tsx:109-115 | both totals of a concatenation are the sums of the parts' totals |
| CartTotals.TotalsOfQuantityChange | src/pages/Index.tsx:87 | changing one line's quantity by d moves the unit count by d and the amount by that line's price × d |
| CartTotals.TotalsOfDelete | src/pages/Index.tsx:105 | deleting one line lowers each total by exactly that line's contribution |
| CartTotals.EmptyTotals | src/pages/Index.tsx:78 | the empty cart the page starts with has amount 0 and unit count 0 |
| CartTotals.TotalItemsBoundsLines | src/pages/Index.tsx:137 | in a valid cart the unit count is at least the number of lines, so it is positive (badge shown) exactly when the cart has a line |
| CartProperties.WithoutOfConcat | src/pages/Index.tsx:105 | filtering a concatenation is the concatenation of the filtered parts, so the kept lines stay in their original order |
| CartProperties.WithoutSingleLine | src/pages/Index.tsx:105 | filtering an id that only line k carries equals deleting line k, the rest keeping their order |
| CartProperties.ValidSoleLine | src/pages/Index.tsx:83 | in a valid cart every line is the only line with its id, so the line `find` returns is the only one the `map` or `filter` touches |
| CartProperties.AddNewLine | src/pages/Index.tsx:91 | adding an id not in the cart appends exactly {item, 1} at the end, earlier lines untouched |
| CartProperties.AddExistingLine | src/pages/Index.tsx:83-89 | adding the id that only line k carries raises line k's quantity by one and changes nothing else: same length, same order |
| CartProperties.RemoveDecrements | src/pages/Index.tsx:97-103 | removing the id that only line k carries, with quantity > 1, lowers line k's quantity by one and changes nothing else |
| CartProperties.RemoveDeletesLine | src/pages/Index.tsx:98-105 | removing the id that only line k carries, with quantity at most 1, deletes line k; the other lines keep their relative order |
| CartProperties.EmptyIsValid | src/pages/Index.tsx:78 | the initial empty cart satisfies the invariant |
| CartProperties.DeleteKeepsValid | src/pages/Index.tsx:105 | deleting one line of a valid cart leaves a valid cart |
| CartProperties.AddPreservesValid | src/pages/Index.tsx:81-93 | adding keeps ids pairwise distinct and every quantity at least one |
| CartProperties.RemovePreservesValid | src/pages/Index.tsx:95-107 | removing keeps ids pairwise distinct and every quantity at least one |
| CartProperties.RemoveUndoesAdd | src/pages/Index.tsx:81-107 | in a valid cart, removing an item's id right after adding that item restores the cart, in both the append and the increment case |
| CartProperties.AddLineTotals | src/pages/Index.tsx:85-89 | adding the id that only line k carries raises the unit count by one and the amount by line k's stored price (not the added item's) |
| CartProperties.AddNewLineTotals | src/pages/Index.tsx:91 | adding an id not in the cart raises the unit count by one and the amount by the item's price |
| CartProperties.AddTotals | src/pages/Index.tsx:81-115 | in a valid cart, adding raises the unit count by exactly one and the amount by the new item's price (new line) or by the stored line's price (increment) |
| CartProperties.RemoveLineTotals | src/pages/Index.tsx:95-115 | removing the id that only line k carries, with at least one unit there, lowers the unit count by one and the amount by line k's price, in both branches |
| CartProperties.RemoveTotals | src/pages/Index.tsx:95-115 | in a valid cart, removing an absent id leaves both totals unchanged and removing a present id lowers them by one unit and that line's price |
| Session.ReplayInvariant | src/pages/Index.tsx:78-115 | every cart reachable from the empty cart by adds and removes is valid; its unit count equals adds minus removes of present ids, is never negative, and is zero exactly when the cart is empty |
| Session.AddTwiceMakesOneLine | src/pages/Index.tsx:81-93 | adding the same dish twice to an empty cart gives one line with quantity 2, not two lines |
| Session.WalkthroughAdds | src/pages/Index.tsx:81-93 | pork, pork, chicken from empty: [pork×1], then [pork×2], then [pork×2, chicken×1] |
| Session.WalkthroughRemoves | src/pages/Index.tsx:95-107 | removing id 1 twice from [pork×2, chicken×1]: [pork×1, chicken×1], then [chicken×1] |
| Session.WalkthroughTotals | src/pages/Index.tsx:28-40 | with the catalog's prices 450 and 350 the five carts above have amounts 450, 900, 1250, 800, 350 and unit counts 1, 2, 3, 2, 1 |

## Left out

- Rendering (header, hero, promo, menu grid, delivery, about, contacts, footer; `src/pages/Index.tsx:117-371`): presentation over UI library components with no derived state.
- React state mechanics (`useState`, `setCart`, re-render scheduling; `src/pages/Index.tsx:78`): each update is modelled as the pure previous-cart-to-next-cart function the page passes to the setter; `Session.Replay` stands for the sequence of such updates.
- The cart panel's open/closed flag and smooth-scroll navigation (`src/pages/Index.tsx:79`, `202`): UI state with no behaviour to state.
- The "place order" button (`src/pages/Index.tsx:178-181`): it has no handler.
- JavaScript numbers: ids, prices and quantities are modelled as unbounded integers. Every catalog value is a small whole number, so floating-point rounding (which would only start beyond 2^53) is not modelled.
- Display-only item fields (name, description, weight, image, popular flag) are carried through unchanged and no property depends on them. The popular flag is optional in the source (present and true, present and false, or absent); the model makes it a `bool` and reads an absent flag as `false`, which only the card badge would notice.
- Properties of carts that break the invariant (duplicate ids or quantities below one) are not stated beyond the contracts of `Add`, `Remove` and their helpers; no sequence of button presses reaches such a cart (`Session.ReplayInvariant`).
