# Cafeteria storefront cart, modelled in Dafny

This project models the cart and menu logic of the cafeteria page `src/pages/Index.tsx`. That page is a single React component, `Index`, with a fixed menu of fifteen dishes in five categories. It keeps three pieces of state:

- the cart: an ordered list of lines, each a dish plus a quantity;
- the selected category: `"all"` or one category name;
- whether the cart panel is open.

The model has three modules, one per concern of the component:

- `Menu` (`menu.dfy`): the `MenuItem` record and the catalog of fifteen dishes with their ids, categories and whole-rouble prices. It also has the five category names and the filter behind `filteredItems`. The filter returns the whole catalog for `"all"`. Otherwise it returns the dishes of exactly that category, in catalog order.
- `Cart` (`cart.dfy`): the pure computation of each new cart value, following the `find`/`map`/`filter`/`reduce` code of the handlers.
  - `Add` models `addToCart`.
  - `Remove` models `removeFromCart`.
  - `Update` models `updateQuantity`.
  - `Total` models `totalPrice`, as a left fold with an accumulator.

  The module also holds the lemmas that state what these operations promise:
  - at most one line per dish;
  - quantities stay at least 1 under the page's buttons;
  - order is preserved;
  - lines of other dishes are untouched;
  - the exact change of the total;
  - a removal can be repeated without further effect (idempotence);
  - a run of adds leaves one line per dish, with its click count as quantity.
- `IndexPage` (`index_page.dfy`): the component's state as a class `Index`, with the fields `cart`, `selectedCategory` and `isCartOpen`. Each event handler becomes a method that replaces the state in one atomic step. Each method is specified against the functions of `Cart`. The minus and plus buttons of a cart line are methods too, because the positive-quantity invariant depends on them. `TotalPrice` runs the `reduce` as a loop.

Two predicates in `Cart` describe the invariants:

- `Reachable(cart)` holds when there is one line per dish, every quantity is at least 1, and every dish comes from the catalog. The lemmas show that adding a catalog dish, removing a dish, the minus and plus buttons, and submitting the order all keep it.
- `UniqueIds(cart)` holds for every sequence of handler calls, whatever their arguments. It is the class invariant `Index.Valid()`.

## Model

| member | source | states |
|---|---|---|
| Menu.Categories | src/pages/Index.tsx:43 | the category buttons are five pairwise different names, none of them `"all"` |
| Menu.Catalog | src/pages/Index.tsx:25-41 | the catalog holds fifteen dishes; their ids, blocks and categories are stated by `CatalogIdsDistinct`, `DishBlocksCategories` and `CatalogCategoriesListed` |
| Menu.OfCategory | src/pages/Index.tsx:81 | the category filter keeps exactly the dishes of the given category (both directions of membership) and never grows the list |
| Menu.Filtered | src/pages/Index.tsx:79-81 | `"all"` shows the whole list unchanged; any other selection shows exactly the dishes whose category equals it |
| Menu.OfCategoryAppend | src/pages/Index.tsx:81 | the filter distributes over concatenation, so the shown dishes keep catalog order |
| Menu.OfCategoryIdempotent | src/pages/Index.tsx:81 | filtering the filtered list again by the same category changes nothing |
| Menu.OfCategoryNone | src/pages/Index.tsx:81 | a category that no dish carries yields the empty list |
| Menu.OfCategoryEvery | src/pages/Index.tsx:81 | a list whose dishes all carry the category is returned whole |
| Menu.CatalogIdsDistinct | src/pages/Index.tsx:25-41 | the catalog has fifteen dishes with ids 1 to 15 in order, so no two dishes share an id |
| Menu.SelectionNamesDistinct | src/pages/Index.tsx:43-47 | the five category names differ from each other, and `"all"` is not one of them |
| Menu.DishBlocksCategories | src/pages/Index.tsx:26-40 | the catalog runs in blocks of three dishes per category, in button order |
| Menu.CatalogCategoriesListed | src/pages/Index.tsx:25-43 | every dish's category is one of the listed categories and is never `"all"` |
| Menu.UnknownCategoryShowsNothing | src/pages/Index.tsx:79-81 | a selection that is neither `"all"` nor a listed category shows no dish |
| Menu.OfCategoryBlock | src/pages/Index.tsx:81 | a block of one category between lists without it is exactly what the category filter keeps |
| Menu.DrinksSelection | src/pages/Index.tsx:35-81 | selecting the drinks category shows exactly compote, kissel and tea, in catalog order |
| Cart.Find | src/pages/Index.tsx:53 | `find` returns nothing exactly when no line carries the id; otherwise it returns the first line carrying it |
| Cart.Increment | src/pages/Index.tsx:55 | the `map` keeps the length; lines with the id get quantity + 1 and all other lines stay as they were |
| Cart.Assign | src/pages/Index.tsx:74 | the `map` keeps the length; lines with the id get the new quantity and all other lines stay as they were |
| Cart.Add | src/pages/Index.tsx:51-58 | on a dish already in the cart: same length, same dishes in the same order, +1 only on that dish's lines; on a new dish: the old cart followed by one line of quantity 1 |
| Cart.Update | src/pages/Index.tsx:69-75 | quantity 0 is exactly `Remove`; any other quantity keeps length, order and dishes, and overwrites only the matching lines' quantity |
| Cart.Remove | src/pages/Index.tsx:65-67 | after removal no line carries the id, and the cart never grows |
| Cart.RemoveMembers | src/pages/Index.tsx:66 | the lines left after removal are exactly the old lines of other dishes |
| Cart.RemoveAbsent | src/pages/Index.tsx:66 | removing a dish not in the cart leaves the cart unchanged |
| Cart.RemoveIdempotent | src/pages/Index.tsx:65-67 | after a removal no line carries the dish, and a second removal changes nothing |
| Cart.RemoveAppend | src/pages/Index.tsx:66 | the removal filter distributes over concatenation, so the remaining lines keep their relative order |
| Cart.RemoveSplit | src/pages/Index.tsx:66 | when neither neighbouring part carries the dish, removal cuts out just its line |
| Cart.RemoveAt | src/pages/Index.tsx:65-67 | with one line per dish, removing the dish of line k yields the cart without line k, the rest in order |
| Cart.RemoveKeepsUniqueIds | src/pages/Index.tsx:66 | removal keeps at most one line per dish |
| Cart.RemoveKeepsReachable | src/pages/Index.tsx:65-67 | removal keeps every quantity at least 1, every dish from the catalog, and one line per dish |
| Cart.RemoveTotal | src/pages/Index.tsx:65-77 | removing the dish of line k lowers the total by exactly that line's price times quantity |
| Cart.ReduceIsLineSum | src/pages/Index.tsx:77 | the `reduce` started at any accumulator yields that accumulator plus the sum of line totals |
| Cart.Total | src/pages/Index.tsx:77 | `totalPrice`, the `reduce` (`Cart.Reduce`) started at 0, equals the sum of price times quantity over the lines (`LineSum`) |
| Cart.LineSumAppend | src/pages/Index.tsx:77 | the sum of line totals of two carts joined is the sum of their sums |
| Cart.TotalAppend | src/pages/Index.tsx:77 | appending a line raises the total by that line's price times quantity |
| Cart.TotalReplace | src/pages/Index.tsx:77 | replacing line k changes the total by the new line total minus the old one |
| Cart.TotalDelete | src/pages/Index.tsx:77 | dropping line k lowers the total by its line total |
| Cart.LineSumNonNegative | src/pages/Index.tsx:77 | with every quantity at least 1 the sum of line totals is non-negative |
| Cart.TotalNonNegative | src/pages/Index.tsx:77 | with every quantity at least 1 the total is never negative |
| Cart.QuantityAppend | src/pages/Index.tsx:21-23 | the quantity of a dish held by two carts joined is the sum of the two; `Quantity` is the model's own per-dish count, used by the click-count lemmas `AddAllQuantity` and `AddAllFromEmpty` |
| Cart.QuantityAbsent | src/pages/Index.tsx:21-23 | a cart without the dish holds 0 of it; `Quantity` is the model's own per-dish count, used by the click-count lemmas `AddAllQuantity` and `AddAllFromEmpty` |
| Cart.OtherLinesLackId | src/pages/Index.tsx:53-57 | with one line per dish, no line before or after line k carries its dish |
| Cart.QuantityOfLine | src/pages/Index.tsx:21-23 | with one line per dish, the quantity held of a dish is the quantity on its line; `Quantity` is the model's own per-dish count, used by the click-count lemmas `AddAllQuantity` and `AddAllFromEmpty` |
| Cart.QuantityReplace | src/pages/Index.tsx:21-23 | replacing line k by a line of the same dish changes only that dish's quantity, by the difference; `Quantity` is the model's own per-dish count, used by the click-count lemmas `AddAllQuantity` and `AddAllFromEmpty` |
| Cart.AddIncrementsLine | src/pages/Index.tsx:53-55 | with one line per dish, adding a dish in the cart bumps exactly its line by one, in place |
| Cart.AddKeepsUniqueIds | src/pages/Index.tsx:53-57 | adding keeps at most one line per dish |
| Cart.AddKeepsPositive | src/pages/Index.tsx:53-57 | adding keeps every quantity at least 1 |
| Cart.AddQuantity | src/pages/Index.tsx:51-58 | adding a dish raises its quantity by 1 and leaves every other dish's quantity unchanged |
| Cart.AddTotal | src/pages/Index.tsx:51-77 | when the dish's lines carry its price, adding it raises the total by exactly its price |
| Cart.CatalogLinesAgree | src/pages/Index.tsx:25-41 | a cart line of a catalog dish that has the id of a catalog dish is that very dish, since catalog ids are distinct |
| Cart.AddFromCatalog | src/pages/Index.tsx:51-77 | adding a catalog dish to a reachable cart keeps it reachable and raises the total by the dish's price |
| Cart.AddThrice | src/pages/Index.tsx:51-58 | adding the same dish three times to an empty cart gives one line with quantity 3 |
| Cart.AddAllQuantity | src/pages/Index.tsx:51-58 | after a run of adds, each dish's quantity has grown by the number of times it was added, and there is still one line per dish |
| Cart.AddAllLines | src/pages/Index.tsx:51-58 | after a run of adds, a dish has a line exactly when it had one before or was added |
| Cart.AddAllFromEmpty | src/pages/Index.tsx:51-58 | from an empty cart, any run of adds leaves one line per dish added, none for the others, each with quantity equal to its number of adds |
| Cart.UpdateAbsent | src/pages/Index.tsx:69-75 | updating a dish not in the cart, to any quantity, leaves the cart unchanged: it never inserts a line |
| Cart.UpdateNeverInserts | src/pages/Index.tsx:69-75 | every dish in the cart after an update was in it before |
| Cart.UpdateKeepsUniqueIds | src/pages/Index.tsx:69-75 | an update keeps at most one line per dish |
| Cart.UpdateAt | src/pages/Index.tsx:74 | with one line per dish, a nonzero update overwrites exactly the quantity of that dish's line, in place |
| Cart.UpdateTotal | src/pages/Index.tsx:69-77 | setting line k's dish to quantity q changes the total by price times (q minus the old quantity), also for q = 0 |
| Cart.DecrementKeepsReachable | src/pages/Index.tsx:155 | the minus button keeps the cart reachable; from quantity 1 it takes the removal branch and the dish's line is gone |
| Cart.IncrementIsAdd | src/pages/Index.tsx:163 | on a line whose quantity is not -1, the plus button gives the same cart as adding the line's dish |
| Cart.IncrementKeepsReachable | src/pages/Index.tsx:163 | the plus button keeps the cart reachable |
| Cart.DecrementEffect | src/pages/Index.tsx:155 | with one line per dish, the minus button lowers the total by one portion of the line's dish and keeps a reachable cart reachable |
| Cart.IncrementEffect | src/pages/Index.tsx:163 | with one line per dish, the plus button raises the total by one portion of the line's dish, keeps a reachable cart reachable, and outside quantity -1 equals adding the dish |
| Cart.DecrementTotal | src/pages/Index.tsx:155 | with one line per dish, the minus button lowers the total by one portion of the line's dish, also when it removes the line |
| Cart.IncrementTotal | src/pages/Index.tsx:163 | with one line per dish, the plus button raises the total by one portion of the line's dish |
| Cart.AddTwiceThenOther | src/pages/Index.tsx:51-77 | two adds of one dish and one of another give the two lines in click order, totalling twice the first price plus the second; removing the second dish leaves the first line and twice its price |
| Cart.BorschtAndCompote | src/pages/Index.tsx:26-77 | borscht twice and compote once give two lines totalling 420; removing the compote leaves one line and 360 |
| IndexPage.Index.constructor | src/pages/Index.tsx:46-48 | the page starts with an empty cart, the whole menu selected and the cart panel closed |
| IndexPage.Index.AddToCart | src/pages/Index.tsx:51-63 | the cart becomes `Add` of the old cart; the other state is unchanged; a catalog dish keeps a reachable cart reachable and raises the total by its price |
| IndexPage.Index.RemoveFromCart | src/pages/Index.tsx:65-67 | the cart becomes `Remove` of the old cart and holds no line of the dish; reachability is kept |
| IndexPage.Index.UpdateQuantity | src/pages/Index.tsx:69-75 | the cart becomes `Update` of the old cart (0 through `RemoveFromCart`); an absent dish leaves the cart unchanged |
| IndexPage.Index.DecrementClicked | src/pages/Index.tsx:155 | the minus button applies `Update` with the line's quantity − 1 (removal of the line from quantity 1), keeps reachability, lowers the total by the dish's price, and leaves the selection and the panel flag unchanged |
| IndexPage.Index.IncrementClicked | src/pages/Index.tsx:163 | the plus button applies `Update` with the line's quantity + 1 (removal of the line from quantity −1; otherwise the same as `Add` of its dish), keeps reachability, raises the total by the dish's price, and leaves the selection and the panel flag unchanged |
| IndexPage.Index.TotalPrice | src/pages/Index.tsx:77 | the accumulating loop returns the total, which equals the sum of line totals and is non-negative when every quantity is at least 1 |
| IndexPage.Index.FilteredItems | src/pages/Index.tsx:79-81 | the shown dishes are the whole catalog for `"all"`, otherwise exactly the catalog dishes of the selected category |
| IndexPage.Index.SelectCategory | src/pages/Index.tsx:232-241 | the selection becomes the pressed button's value; cart and panel are unchanged |
| IndexPage.Index.SetCartOpen | src/pages/Index.tsx:106 | the panel flag becomes the requested value; cart and selection are unchanged |
| IndexPage.Index.HandleOrderSubmit | src/pages/Index.tsx:83-91 | after submitting, the cart is empty (hence reachable), its total is 0 and the panel is closed; the selection is unchanged |

## Left out

- The JSX layout, the UI components, icons and CSS classes (`src/pages/Index.tsx:93-345`) are left out. They are presentation only. The three button handlers that change state (minus, plus and category) are modelled as methods.
- The `toast` notifications after an add and after an order are left out. They call a hook in another module, and their result is never used.
- `e.preventDefault()`, the browser's checks of the required contact fields, and `scrollIntoView` are left out. They are browser behaviour, not logic of this file. `HandleOrderSubmit` models the handler once the browser lets it run.
- React's state scheduling is left out. Each handler is one atomic transition of the object, so the functional-updater form of `setCart` is not modelled separately.
- Prices and quantities are modelled as integers, so JS `number` floating point is left out. The catalog holds only whole-rouble prices, and the page only ever passes integer quantities. The "₽" formatting is left out too.
- Dish names, weights and descriptions are kept in `MenuItem` only so that a new cart line copies the whole dish, as `{...item, quantity: 1}` does. No property is stated about them.
- `updateQuantity` stores any nonzero quantity it is given, negative ones included. The model keeps `quantity: int` and proves the at-least-1 invariant only for carts the page's own buttons reach (`Cart.Reachable`).
- `removeFromCart` drops every line carrying the id, not only the first; with one line per dish (`Cart.UniqueIds`) that is at most one line, and none for a dish not in the cart (`Cart.RemoveAbsent`).
- `handleOrderSubmit` only shows a notification and clears the state; no order leaves the page, so none is modelled.
- IndexPage.Index.Valid: the class invariant is only "one line per dish". Positive quantities are not part of it, because `updateQuantity` can be called with any quantity. Positivity is carried by the conditional `Reachable` postconditions instead.
