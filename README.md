# Bakery shop: cart store and product listing

This project models the logic of a small React storefront. It has three
parts.

- **The cart store** (`CartContext`). A reducer over four actions: add a
  product, remove an id, update a quantity, clear the cart. The cart state is
  the list of line items plus two cached totals. The provider runs the
  reducer, seeds it from browser storage and writes every new state back
  under the key `cart`. The reducer is modelled as functions. The provider is
  modelled as the class `CartStore`, whose `state` field each dispatch
  replaces and whose `saved` field holds what was last written.
- **The cart line controls** (`CartItemControls`). The unit price and line
  total shown for one line, and the action that each of the plus, minus and
  remove buttons sends to the store.
- **The product listing** (`ProductCatalog`, `ProductsPage`). The page reads
  its filter criteria from the query string, with defaults. `applyFilters`
  narrows the catalog by category, by a case-insensitive search in name or
  category, and by minimum and maximum effective price. It then sorts the
  result in place by the selected option. `updateUrlParams` writes the
  criteria back as query pairs. The event handlers change the criteria. The
  filter badge counts the active filters. The page is modelled as the class
  `ProductsView`, whose fields are the component's state variables.

Modelling choices:

- Money is `int` cents and a rating is an `int` (tenths of a star).
- The "effective price" `discountPrice || price` is the discount when it is
  present and non-zero, and the list price otherwise (`Pricing.EffectivePrice`).
- `parseFloat` is a parameter of type `string -> Option<int>`, where `None`
  stands for `NaN`. A price bound that is set but does not parse therefore
  fails every comparison, and the list becomes empty. It does not leave the
  list unconstrained: the code compares against `NaN`, and the model follows
  the code.
- `JSON.parse` of the stored cart is a parameter too, with `None` for a parse
  that throws.
- Query keys are a datatype: the five keys the page uses, and `OtherKey` for
  any other name. The name of an `OtherKey` is a subset type that excludes
  the five names, so each key string has exactly one representation.

Properties proved:

- Every reducer step stores totals equal to the sums over its items.
- From a valid state, every action keeps product ids distinct and quantities
  at least 1.
- What each action does to the lines, and two add/remove round trips.
- Any sequence of additions to the empty cart gives as many units as
  additions and one line per distinct product.
- `applyFilters` returns a permutation of a one-pass reference selection,
  sorted by the option's key.
- Writing the criteria to the query string and reading them back gives the
  same criteria whenever the sort option is not empty.
- The minus button never drives a quantity to 0; at quantity 1 it removes
  exactly that line.

## Model

| member | source | states |
|---|---|---|
| Pricing.EffectivePrice | src/context/CartContext.tsx:38 | a present non-zero discount is the price charged, otherwise the list price; a discount no higher than the price never raises it |
| Pricing.LineTotal | src/components/CartItem.tsx:26-27 | line total is effective price times quantity: 0 for quantity 0, non-negative for non-negative inputs, the unit price for quantity 1 |
| CartContext.FoldTotalsIsSum | src/context/CartContext.tsx:35-46 | the reduce from an accumulator adds the unit count and price sum of the items to the accumulator |
| CartContext.CalculateTotals | src/context/CartContext.tsx:35-46 | totalItems is the sum of quantities and totalPrice the sum of effective price times quantity |
| CartContext.NewItem | src/context/CartContext.tsx:62 | a new line: every field of the product, plus the given quantity; the add action uses quantity 1 |
| CartContext.ItemTotal | src/context/CartContext.tsx:38-41 | one line's contribution to the price total: its effective price times its quantity |
| CartContext.FoldTotals | src/context/CartContext.tsx:36-45 | the `reduce` itself, a left fold that adds each line's quantity and line total to the accumulator; FoldTotalsIsSum states what it computes |
| CartContext.SumsAppend | src/context/CartContext.tsx:62-65 | appending a line adds its quantity and its line total to the sums |
| CartContext.SumsUpdate | src/context/CartContext.tsx:56-60 | replacing one line changes the sums by the difference between the old and new line |
| CartContext.FindIndex | src/context/CartContext.tsx:51 | -1 exactly when no line has the id; otherwise the first line with that id |
| CartContext.RemoveById | src/context/CartContext.tsx:76 | keeps exactly the lines whose id differs; never grows; unchanged when the id is absent |
| CartContext.RemoveByIdIsSubsequence | src/context/CartContext.tsx:76 | the surviving lines keep their relative order |
| CartContext.SetQuantity | src/context/CartContext.tsx:94-96 | the map keeps the number of lines |
| CartContext.WithTotals | src/context/CartContext.tsx:65-72 | the new state holds the given items, its totalItems is the sum of their quantities and its totalPrice the sum of their line totals |
| CartContext.CartReducer | src/context/CartContext.tsx:48-114 | whatever the action, the stored totals are the sums over the stored items |
| CartContext.InitialStateValid | src/context/CartContext.tsx:29-33 | the initial cart is empty with zero totals and satisfies the cart invariant |
| CartContext.PrependKeepsInvariant | src/context/CartContext.tsx:76 | a line with a fresh id and positive quantity in front of valid lines keeps ids distinct and quantities positive |
| CartContext.RemoveByIdKeepsInvariant | src/context/CartContext.tsx:76 | filtering keeps ids distinct and quantities positive |
| CartContext.ReducerPreservesValid | src/context/CartContext.tsx:48-114 | from a state with distinct ids, positive quantities and consistent totals, every action yields such a state |
| CartContext.AddExisting | src/context/CartContext.tsx:51-60 | adding a product already present raises the first matching line by exactly 1 and leaves the rest alone; totalItems becomes one more than the sum of the old quantities, which for a valid cart is the old totalItems plus 1 |
| CartContext.AddAbsent | src/context/CartContext.tsx:61-63 | adding an absent product appends one line of quantity 1; totalItems becomes one more than the sum of the old quantities (the old totalItems plus 1 for a valid cart) and totalPrice the old price sum plus the product's effective price |
| CartContext.RemoveEffect | src/context/CartContext.tsx:75-85 | after removal no line has the id, all other lines survive in order, and an absent id changes nothing |
| CartContext.DistinctTail | src/context/CartContext.tsx:76 | the tail of lines with distinct ids has distinct ids |
| CartContext.RemoveOneLine | src/context/CartContext.tsx:76 | with distinct ids, removing the id of line k deletes exactly line k |
| CartContext.UpdateNonPositiveIsRemove | src/context/CartContext.tsx:90-92 | an update to a quantity of 0 or less is the same as removing the id |
| CartContext.UpdatePositive | src/context/CartContext.tsx:94-105 | a positive update sets the quantity of the lines with that id and keeps every other line |
| CartContext.ClearEffect | src/context/CartContext.tsx:108-109 | clearing yields the initial state whatever came before |
| CartContext.AddThenRemove | src/context/CartContext.tsx:61-85 | adding an absent product then removing its id restores the original lines, and for a valid cart the whole original state including the totals |
| CartContext.RemoveByIdAppend | src/context/CartContext.tsx:76 | filtering distributes over concatenation |
| CartContext.AddTwiceRemoveOnce | src/context/CartContext.tsx:50-85 | adding a product twice and removing it once leaves no line for it |
| CartContext.DistinctIdsCount | src/context/CartContext.tsx:13-21 | with distinct ids there are as many ids as lines |
| CartContext.AddOneIds | src/context/CartContext.tsx:50-73 | one addition to a valid cart adds one unit and the product's id to the id set |
| CartContext.AddAllFromValid | src/context/CartContext.tsx:144-146 | any sequence of additions to a valid cart keeps it valid, adds one unit per addition, and adds exactly the products' ids |
| CartContext.AddAllFromEmpty | src/context/CartContext.tsx:144-146 | from the empty cart, total units equal the number of additions and there is one line per distinct product id |
| CartContext.LoadCartFromStorage | src/context/CartContext.tsx:116-126 | no window, no entry, an empty entry or a failing parse all give the initial state; otherwise the parsed state |
| CartContext.CartStore.constructor | src/context/CartContext.tsx:138-142 | the store starts from the loaded state and writes it back |
| CartContext.CartStore.Dispatch | src/context/CartContext.tsx:138-142 | the new state is the reducer applied to the old one, it is written to storage, and validity is kept |
| CartContext.CartStore.AddItemToCart | src/context/CartContext.tsx:144-146 | dispatches ADD_ITEM for the product |
| CartContext.CartStore.RemoveItemFromCart | src/context/CartContext.tsx:148-150 | dispatches REMOVE_ITEM; afterwards no line has the id |
| CartContext.CartStore.UpdateItemQuantity | src/context/CartContext.tsx:152-154 | dispatches UPDATE_QUANTITY with the id and quantity |
| CartContext.CartStore.Clear | src/context/CartContext.tsx:156-158 | the state and what is stored become the initial state |
| CartItemControls.TotalPrice | src/components/CartItem.tsx:26-27 | the line total is the active price times the quantity |
| CartItemControls.ActivePrice | src/components/CartItem.tsx:26 | the unit price shown: the line's non-zero discount price, otherwise its list price, through the same definition the cart totals use |
| CartItemControls.IncreaseQuantity | src/components/CartItem.tsx:29-31 | plus asks for the line's quantity plus one |
| CartItemControls.DecreaseQuantity | src/components/CartItem.tsx:33-39 | minus above 1 asks for one less (still at least 1); at 1 or below it removes the line |
| CartItemControls.RemoveLine | src/components/CartItem.tsx:41-43 | the remove button removes the line's id |
| CartItemControls.LineTotalsMakeCartTotal | src/components/CartItem.tsx:26-27 | in a valid cart the stored total price is the sum of the line totals shown |
| CartItemControls.SumLineTotalsIsSumPrices | src/components/CartItem.tsx:26-27 | the shown line totals sum to the reducer's price sum |
| CartItemControls.UpdateOneLine | src/context/CartContext.tsx:94-96 | a positive update on line k of a valid cart changes only that line and keeps the cart valid |
| CartItemControls.IncreaseEffect | src/components/CartItem.tsx:29-31 | plus raises line k's quantity by one, touches no other line and keeps the cart valid |
| CartItemControls.DecreaseEffect | src/components/CartItem.tsx:33-39 | minus above 1 lowers line k by one and leaves the others; at 1 it deletes exactly line k |
| CartItemControls.RemoveButtonEffect | src/components/CartItem.tsx:41-43 | remove deletes exactly line k whatever its quantity, and the cart stays valid |
| Text.LowerChar | src/pages/Products.tsx:92 | an upper-case ASCII letter maps to its lower-case letter, every other character to itself; no upper-case letter remains |
| Text.ToLower | src/pages/Products.tsx:92-95 | same length, lower-cased character by character |
| Text.ToLowerIdempotent | src/pages/Products.tsx:92-95 | lower-casing twice is lower-casing once |
| Text.Includes | src/pages/Products.tsx:94-95 | true exactly when the query occurs at some position of the text |
| ProductCatalog.Filter | src/pages/Products.tsx:87 | filtering never lengthens the list |
| ProductCatalog.FilterMembers | src/pages/Products.tsx:87 | keeps exactly the elements that pass, and its multiset is included in the input's |
| ProductCatalog.FilterFuse | src/pages/Products.tsx:86-112 | filtering by f and then by g is filtering once by f and g together |
| ProductCatalog.FilterSame | src/pages/Products.tsx:86-112 | filters with pointwise equal predicates agree |
| ProductCatalog.FilterAll | src/pages/Products.tsx:83 | a predicate true of everything filters nothing out |
| ProductCatalog.InCategory | src/pages/Products.tsx:86-88 | true when no category is selected, otherwise exactly when the product's category is the selected one |
| ProductCatalog.MatchesSearch | src/pages/Products.tsx:91-97 | true when the search is empty, otherwise exactly when the lower-cased query occurs in the lower-cased name or category |
| ProductCatalog.AboveMin | src/pages/Products.tsx:100-105 | true when no minimum is set; otherwise the minimum must parse and the effective price must be at least it |
| ProductCatalog.BelowMax | src/pages/Products.tsx:107-112 | true when no maximum is set; otherwise the maximum must parse and the effective price must be at most it |
| ProductCatalog.Compare | src/pages/Products.tsx:115-143 | each option's comparator is the difference of one ascending sort key; any unlisted option sorts as "newest" |
| ProductCatalog.SortKey | src/pages/Products.tsx:115-143 | the ascending key each comparator orders by: effective price, negated effective price, negated rating, negated reviews, or negated id for anything else; SortedOrders states what ordering by it means |
| ProductCatalog.Swap | src/pages/Products.tsx:115-143 | exchanges two cells of the array and keeps its multiset |
| ProductCatalog.SortInPlace | src/pages/Products.tsx:115-143 | the array ends up ordered by the option's key and is a permutation of what it held |
| ProductCatalog.SortedOrders | src/pages/Products.tsx:115-143 | sorted by the key means ascending price, descending price, descending rating, descending reviews or descending id |
| ProductCatalog.SelectionMembers | src/pages/Products.tsx:82-112 | the reference selection holds exactly the catalog products meeting all four criteria |
| ProductCatalog.Narrow | src/pages/Products.tsx:83-112 | the four guarded filters in sequence compute the one-pass reference selection |
| ProductCatalog.ApplyFilters | src/pages/Products.tsx:82-146 | a permutation of the selection; each set criterion holds of every result; an unparsable bound gives the empty list; ordered as the option asks |
| ProductsPage.KeyNameInjective | src/pages/Products.tsx:38-42 | two keys are spelt the same in the query string exactly when they are the same key |
| ProductsPage.KeyName | src/pages/Products.tsx:72-76 | the spelling of each key in the query string: "category", "search", "sort", "minPrice", "maxPrice", or another key's own name |
| ProductsPage.Get | src/pages/Products.tsx:38-42 | None exactly when no pair has the key; otherwise the value of the first pair with that key |
| ProductsPage.OrElse | src/pages/Products.tsx:38-42 | a missing or empty value gives the fallback, any other value is kept |
| ProductsPage.CriteriaFromUrl | src/pages/Products.tsx:38-53 | for each of the five keys, a missing or empty first value reads as the default ("newest" for the sort, "" for the others) and a non-empty first value is kept; so the sort option is never empty |
| ProductsPage.Param | src/pages/Products.tsx:72-76 | one pair with the key and value when the guard holds, none otherwise |
| ProductsPage.PrependParam | src/pages/Products.tsx:72-76 | writing a pair before pairs of later keys keeps the written shape |
| ProductsPage.UrlParams | src/pages/Products.tsx:69-77 | keys in write order, only the five known keys, no empty value unless the sort is empty, never the default sort |
| ProductsPage.UrlParamsPairs | src/pages/Products.tsx:72-76 | a pair is written exactly when its criterion is set (the sort: when it is not "newest") with that value |
| ProductsPage.GetWithDistinctKeys | src/pages/Products.tsx:38-42 | on pairs in which no key occurs twice, get returns a value exactly when that pair is present |
| ProductsPage.GetWritten | src/pages/Products.tsx:38-42 | reading a key of the written pairs gives the written value, or nothing |
| ProductsPage.UrlRoundTrip | src/pages/Products.tsx:38-42 | reading back the written query string gives the same criteria when the sort option is not empty |
| ProductsPage.UrlReadWriteRead | src/pages/Products.tsx:38-77 | criteria read from any query string survive a write and a second read |
| ProductsPage.EmptySortDoesNotRoundTrip | src/pages/Products.tsx:74 | an empty sort option is written as an empty "sort" pair and reads back as "newest" |
| ProductsPage.ToggleCategory | src/pages/Products.tsx:148-151 | clicking the selected category clears it, any other category is selected |
| ProductsPage.ToggleTwice | src/pages/Products.tsx:148-151 | two clicks on the same category restore the selection exactly when it was empty or that category |
| ProductsPage.ActiveFilterCount | src/pages/Products.tsx:233-238 | the badge is between 0 and 2; 0 exactly when nothing is selected, 2 exactly when a category and a price bound are |
| ProductsPage.ClearedShowsEverything | src/pages/Products.tsx:169-174 | `ClearedCriteria` holds the values the clear handler sets: no category, no search, sort "newest", no price bounds; after clearing, the selection is the whole catalog, the query string is empty and the badge count is 0 |
| ProductsPage.ProductsView.constructor | src/pages/Products.tsx:44-54 | the state starts from the criteria read from the query string, with no products and the menu closed |
| ProductsPage.ProductsView.LoadCatalog | src/pages/Products.tsx:56-60 | the catalog is loaded and nothing else changes |
| ProductsPage.ProductsView.Refresh | src/pages/Products.tsx:62-67 | the filtered list is the sorted selection for the current criteria and the location is their written query |
| ProductsPage.ProductsView.HandleCategoryChange | src/pages/Products.tsx:148-151 | toggles the category and closes the menu; nothing else changes |
| ProductsPage.ProductsView.HandleSearchChange | src/pages/Products.tsx:153-155 | only the search text changes |
| ProductsPage.ProductsView.HandleSortChange | src/pages/Products.tsx:157-159 | only the sort option changes |
| ProductsPage.ProductsView.HandlePriceChange | src/pages/Products.tsx:161-167 | the named bound takes the value and the other bound is kept |
| ProductsPage.ProductsView.HandleClearFilters | src/pages/Products.tsx:169-174 | the criteria become the cleared ones; the menu is left as it was |
| ProductsPage.ProductsView.ToggleFilterMenu | src/pages/Products.tsx:176-178 | flips the menu flag and keeps the criteria |

## Left out

- Rendering, JSX, styling, icons, routing components and `useCart`'s error
  outside a provider are not modelled. Neither are the other pages and
  components.
- The reducer's `default` branch is not modelled. The action datatype has no
  fifth case, so it cannot be reached.
- `JSON.stringify`/`JSON.parse` and the shape of stored data are not modelled.
  Parsing is a parameter, and a stored state is used as parsed, without
  validation, as in the code.
- The logging of a failed load (`console.error`) is not modelled.
- `localStorage` failures other than a throwing parse are not modelled. Writing
  is recorded in `CartStore.saved`.
- Floating-point prices are not modelled. Amounts are exact integer cents, so
  rounding in totals is not modelled. `parseFloat` is a parameter.
- Only ASCII letters are lower-cased. Unicode case mapping is not modelled.
- Query strings are modelled as their decoded key/value pairs.
  Percent-encoding, `URLSearchParams.toString`, the pathname and `navigate`
  are not modelled.
- The category list (`setCategories`) is not modelled. It is only displayed.
- `Array.prototype.sort` is modelled by one in-place algorithm, insertion
  sort. The result is proved ordered and a permutation, but not stable.
- ProductCatalog.SortInPlace: equal keys may end up in any order. This is
  weaker than the stable sort of the JavaScript engine.
- React effect scheduling and batching are not modelled. `Refresh` stands for
  the effect that runs after a change of criteria or catalog. Each handler
  changes the fields it sets at once.
- CartContext.SetQuantity: its contract states only that the length is kept.
  What it does to each line is stated by CartContext.UpdatePositive and
  CartItemControls.UpdateOneLine.
