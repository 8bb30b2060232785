# Cabify mobile challenge shop — a Dafny model

This project models the core of an Android shop app in Dafny. The app sells three products (a voucher, a T-shirt and a mug).

**Catalogue and prices.** A `Product` carries a `DiscountType`:

- none;
- two-for-one: buy two, pay one, with the chargeable units rounded half up;
- bulk: from a limit amount on, a discount formula gives the unit price.

The data mapper turns a stored product entity into a `Product`:

- image URLs come from a constant table;
- `VOUCHER` gets two-for-one;
- `TSHIRT` gets a fresh bulk policy at limit 3, whose formula is one euro off and never below zero.

**State and events.** `ProductsViewModel` holds the `ProductsState`:

- the catalogue;
- the two discount filters;
- the cart, a map from product to quantity.

It reacts to `ProductsEvent`s: add to cart, subtract from cart, remove from cart, purchase the chosen lines, toggle a filter, clear the filters.

**Screens.**

- *Product list:* searches by name (case-insensitive, from three characters on) and filters by discount. Selected filters are shown first. The cart button shows a badge capped at 99, and the button hides while the list scrolls down.
- *Cart:* keeps a checked/unchecked flag per cart line, asks before removing a product, and continues with the checked products.
- *Purchase summary:* lists the lines being bought with their discounted amounts and a total, and asks before buying.

**Navigation and scrolling.** The navigation graph builds routes (product detail by name; purchase with the product names joined by `@`) and resolves them back. `Screens.getScreenByRoute` finds a destination by route prefix. `DirectionalLazyStaggeredGridState` derives the scroll direction from successive grid positions.

**How the code is modelled.**

- Prices are exact `real`s.
- Strings are `seq<char>`.
- Kotlin classes whose fields change become Dafny classes: the view model, the cart screen's remembered state, the scroll tracker and the list screen's button state. Each method states its new state in terms of the pure functions beside it.
- Kotlin reference identity is kept where it matters. A bulk discount and a filter's predicate are compared by identity, so they are Dafny classes.

All source paths below are relative to the repository root.

## Model

| member | source | states |
|---|---|---|
| Discounts.BulkDiscount.constructor | app/src/main/java/com/kiruhm/cabify_mobile_challenge/domain/models/enums/DiscountType.kt:19-22 | a bulk policy keeps its limit (default `BULK_AMOUNT_LIMIT`) and its formula |
| Discounts.DiscountType.PricePerUnit | app/src/main/java/com/kiruhm/cabify_mobile_challenge/domain/models/enums/DiscountType.kt:12-26 | no discount charges the list price; two-for-one charges `round(amount/2)` units spread over `amount` (unit price × amount = chargeable units × price); excluded for amount 0, where Kotlin's division yields NaN |
| Discounts.ChargeableUnitsRoundsHalfUp | app/src/main/java/com/kiruhm/cabify_mobile_challenge/domain/models/enums/DiscountType.kt:17 | the chargeable units are `amount/2` rounded half up, for every amount |
| Discounts.ChargeableUnitsBounds | app/src/main/java/com/kiruhm/cabify_mobile_challenge/domain/models/enums/DiscountType.kt:17 | for a positive amount you pay for at least half and at most all of the units |
| Discounts.TwoForOneBounds | app/src/main/java/com/kiruhm/cabify_mobile_challenge/domain/models/enums/DiscountType.kt:16-17 | the two-for-one unit price lies between half the price and the full price |
| Discounts.TwoForOneExamples | app/src/main/java/com/kiruhm/cabify_mobile_challenge/domain/models/enums/DiscountType.kt:16-17 | 1 unit pays full price, 2 and 4 units pay half, 3 units pay two thirds |
| Discounts.BulkBelowLimit | app/src/main/java/com/kiruhm/cabify_mobile_challenge/domain/models/enums/DiscountType.kt:23-24 | below the limit a bulk product costs its list price |
| Discounts.BulkFromLimit | app/src/main/java/com/kiruhm/cabify_mobile_challenge/domain/models/enums/DiscountType.kt:23-25 | from the limit on, the policy's formula gives the unit price |
| Products.Product.GetDiscountPrice | app/src/main/java/com/kiruhm/cabify_mobile_challenge/domain/models/Product.kt:14 | a product's discounted unit price is its discount type's price for its own list price, case by case |
| Products.BulkComparedByIdentity | app/src/main/java/com/kiruhm/cabify_mobile_challenge/domain/models/enums/DiscountType.kt:19-22 | two otherwise equal products with bulk discounts are equal only when they share the same bulk object |
| ProductMapper.ImageUrlsFor | app/src/main/java/com/kiruhm/cabify_mobile_challenge/data/mappers/ProductMapper.kt:13 | the image list is the constant table's entry for the code, or empty for an unknown code |
| ProductMapper.TshirtFormula | app/src/main/java/com/kiruhm/cabify_mobile_challenge/data/mappers/ProductMapper.kt:17 | the T-shirt bulk price is one less than the price, floored at zero, and never above a non-negative price |
| ProductMapper.ToProduct | app/src/main/java/com/kiruhm/cabify_mobile_challenge/data/mappers/ProductMapper.kt:8-20 | code, name and price are copied; the images come from the table; the currency is EUR; `VOUCHER` gets two-for-one, `TSHIRT` a fresh bulk policy at limit 3 with the T-shirt formula, anything else no discount |
| ProductMapper.MapTshirtTwice | app/src/main/java/com/kiruhm/cabify_mobile_challenge/data/mappers/ProductMapper.kt:15-17 | mapping the same `TSHIRT` entry twice gives two products with equal code, name and price that are different cart keys, so one unit of each makes two cart lines |
| ProductMapper.TshirtPriceBounds | app/src/main/java/com/kiruhm/cabify_mobile_challenge/data/mappers/ProductMapper.kt:17 | a T-shirt's discounted unit price is never negative and never above its list price, at any amount |
| ProductMapper.TshirtExamples | app/src/main/java/com/kiruhm/cabify_mobile_challenge/data/mappers/ProductMapper.kt:17 | 2 T-shirts at 20 cost 20 each, 3 cost 19 each, and a price under one drops to 0 |
| Cart.AddedToCart | app/src/main/java/com/kiruhm/cabify_mobile_challenge/presentation/main/view_models/ProductsViewModel.kt:101-107 | adding puts the product in the cart with its quantity raised by one (1 when new); other lines unchanged |
| Cart.CoerceAtLeast | app/src/main/java/com/kiruhm/cabify_mobile_challenge/presentation/main/view_models/ProductsViewModel.kt:95 | the result is the larger of the value and the minimum |
| Cart.SubtractedFromCart | app/src/main/java/com/kiruhm/cabify_mobile_challenge/presentation/main/view_models/ProductsViewModel.kt:87-99 | subtracting leaves a cart without the product unchanged, removes a line of quantity 1, otherwise lowers the quantity by one but not below 1; other lines unchanged |
| Cart.RemovedFromCart | app/src/main/java/com/kiruhm/cabify_mobile_challenge/presentation/main/view_models/ProductsViewModel.kt:64-70 | removing drops exactly that product's line |
| Cart.Purchased | app/src/main/java/com/kiruhm/cabify_mobile_challenge/presentation/main/view_models/ProductsViewModel.kt:72-85 | buying drops every line whose product is a key of the purchase, whatever quantity the purchase names; the rest keep their quantities |
| Cart.OperationsKeepQuantitiesPositive | app/src/main/java/com/kiruhm/cabify_mobile_challenge/presentation/main/view_models/ProductsViewModel.kt:64-107 | every cart operation keeps all quantities at least 1 |
| Cart.SubtractUndoesAdd | app/src/main/java/com/kiruhm/cabify_mobile_challenge/presentation/main/view_models/ProductsViewModel.kt:87-107 | subtracting after adding gives back the cart |
| Cart.AddedTimesQuantity | app/src/main/java/com/kiruhm/cabify_mobile_challenge/presentation/main/view_models/ProductsViewModel.kt:101-107 | adding n times raises the quantity by exactly n and touches no other line |
| Cart.SubtractTimesUndoesAddTimes | app/src/androidTest/java/com/kiruhm/cabify_mobile_challenge/ui/screens/ProductDetailScreenTest.kt:72-91 | adding n units and subtracting n units gives back the original cart (the add-two, remove-two scenario) |
| Cart.AbsentProductIsNoOp | app/src/main/java/com/kiruhm/cabify_mobile_challenge/presentation/main/view_models/ProductsViewModel.kt:90 | subtracting or removing a product not in the cart changes nothing |
| Cart.PurchaseExample | app/src/main/java/com/kiruhm/cabify_mobile_challenge/presentation/main/view_models/ProductsViewModel.kt:79-81 | buying one of two lines leaves the other, even when the purchase names another quantity |
| ViewModel.ToggledFilters | app/src/main/java/com/kiruhm/cabify_mobile_challenge/presentation/main/view_models/ProductsViewModel.kt:118-126 | toggling flips the selection of every filter equal to the clicked one and keeps names, predicates and order |
| ViewModel.ClearedFilters | app/src/main/java/com/kiruhm/cabify_mobile_challenge/presentation/main/view_models/ProductsViewModel.kt:109-116 | clearing unselects every filter and keeps names, predicates and order |
| ViewModel.ClearedFiltersIdempotent | app/src/main/java/com/kiruhm/cabify_mobile_challenge/presentation/main/view_models/ProductsViewModel.kt:109-116 | clearing twice is clearing once |
| ViewModel.ToggleOnlyTouchesClicked | app/src/main/java/com/kiruhm/cabify_mobile_challenge/presentation/main/view_models/ProductsViewModel.kt:121 | a filter different from the clicked one is left as it was |
| ViewModel.Reduce | app/src/main/java/com/kiruhm/cabify_mobile_challenge/presentation/main/view_models/ProductsViewModel.kt:49-62 | no event changes the catalogue; cart events keep quantities positive; only filter events change the filters |
| ViewModel.ProductsViewModel.constructor | app/src/main/java/com/kiruhm/cabify_mobile_challenge/presentation/main/view_models/ProductsViewModel.kt:129-144 | the initial state has no products, an empty cart and the two unselected filters, two-for-one then bulk, each testing its discount kind |
| ViewModel.ProductsViewModel.ProductsLoaded | app/src/main/java/com/kiruhm/cabify_mobile_challenge/presentation/main/view_models/ProductsViewModel.kt:42-46 | a loaded catalogue replaces the products, and a failed load leaves none; nothing else changes |
| ViewModel.ProductsViewModel.OnEvent | app/src/main/java/com/kiruhm/cabify_mobile_challenge/presentation/main/view_models/ProductsViewModel.kt:49-62 | the new state is the event applied to the old one; navigation-only events change nothing |
| ViewModel.ProductsViewModel.RemoveProductFromCart | app/src/main/java/com/kiruhm/cabify_mobile_challenge/presentation/main/view_models/ProductsViewModel.kt:64-70 | the cart becomes the old cart without the product; the rest of the state is kept |
| ViewModel.ProductsViewModel.PurchaseItems | app/src/main/java/com/kiruhm/cabify_mobile_challenge/presentation/main/view_models/ProductsViewModel.kt:72-85 | removing the purchased keys one by one leaves the old cart minus every purchased key |
| ViewModel.ProductsViewModel.SubtractFromCart | app/src/main/java/com/kiruhm/cabify_mobile_challenge/presentation/main/view_models/ProductsViewModel.kt:87-99 | the cart becomes the old cart with one unit subtracted as above |
| ViewModel.ProductsViewModel.AddToCart | app/src/main/java/com/kiruhm/cabify_mobile_challenge/presentation/main/view_models/ProductsViewModel.kt:101-107 | the cart becomes the old cart with one unit added |
| ViewModel.ProductsViewModel.ClearProductFilters | app/src/main/java/com/kiruhm/cabify_mobile_challenge/presentation/main/view_models/ProductsViewModel.kt:109-116 | the filters become the cleared filters |
| ViewModel.ProductsViewModel.ToggleProductFilter | app/src/main/java/com/kiruhm/cabify_mobile_challenge/presentation/main/view_models/ProductsViewModel.kt:118-126 | the filters become the toggled filters |
| PurchaseProductsScreen.PositiveCartIsPriceable | app/src/main/java/com/kiruhm/cabify_mobile_challenge/ui/screens/PurchaseProductsScreen.kt:56-62 | a cart whose quantities are all positive can be priced (no two-for-one line has quantity 0) |
| PurchaseProductsScreen.LineAmount | app/src/main/java/com/kiruhm/cabify_mobile_challenge/ui/screens/PurchaseProductsScreen.kt:128 | a line costs price × quantity without discount or below the bulk limit, chargeable units × price under two-for-one, and the policy's formula × quantity at or above the bulk limit |
| PurchaseProductsScreen.TotalPriceWithout | app/src/main/java/com/kiruhm/cabify_mobile_challenge/ui/screens/PurchaseProductsScreen.kt:56-62 | the sum over the cart entries does not depend on their order: any line can be taken out first |
| PurchaseProductsScreen.EmptyCartTotal | app/src/main/java/com/kiruhm/cabify_mobile_challenge/ui/screens/PurchaseProductsScreen.kt:58 | an empty cart totals 0 |
| PurchaseProductsScreen.TotalPriceSplit | app/src/main/java/com/kiruhm/cabify_mobile_challenge/ui/screens/PurchaseProductsScreen.kt:56-62 | the total of a cart is the total of any sub-cart plus the total of the remaining lines |
| PurchaseProductsScreen.RowsTotalIsTotalPrice | app/src/main/java/com/kiruhm/cabify_mobile_challenge/ui/screens/PurchaseProductsScreen.kt:107-133 | the amounts shown on the summary rows add up to the total of the lines they list |
| PurchaseProductsScreen.TotalPriceAsWritten | app/src/main/java/com/kiruhm/cabify_mobile_challenge/ui/screens/PurchaseProductsScreen.kt:56-62 | the displayed total is taken over the whole cart: the lines being bought plus every line not being bought |
| PurchaseProductsScreen.TotalAsWrittenCountsUnboughtLines | app/src/main/java/com/kiruhm/cabify_mobile_challenge/ui/screens/PurchaseProductsScreen.kt:56-62 | a two-line cart buying one line shows a row sum of 1 but a total of 3 |
| PurchaseProductsScreen.SummaryTotal | app/src/main/java/com/kiruhm/cabify_mobile_challenge/ui/screens/PurchaseProductsScreen.kt:96-146 | the summary total of the lines being bought; nothing bought totals 0 |
| PurchaseProductsScreen.SummaryTotalMatchesRows | app/src/main/java/com/kiruhm/cabify_mobile_challenge/ui/screens/PurchaseProductsScreen.kt:107-146 | the summary total equals the sum of the rows shown and the cart total less the lines not being bought |
| PurchaseProductsScreen.PurchaseEnabled | app/src/main/java/com/kiruhm/cabify_mobile_challenge/ui/screens/PurchaseProductsScreen.kt:158 | the purchase button is enabled exactly when there is something to buy |
| PurchaseProductsScreen.PurchaseDialogEvent | app/src/main/java/com/kiruhm/cabify_mobile_challenge/ui/screens/PurchaseProductsScreen.kt:65-77 | only accepting the dialog emits an event, and it buys exactly the lines shown |
| PurchaseProductsScreen.AcceptedPurchaseRemovesShownLines | app/src/main/java/com/kiruhm/cabify_mobile_challenge/ui/screens/PurchaseProductsScreen.kt:65-77 | after accepting, the cart loses exactly the shown lines; cancelling or dismissing keeps it |
| PurchaseProductsScreen.TwoForOneLineExample | app/src/main/java/com/kiruhm/cabify_mobile_challenge/ui/screens/PurchaseProductsScreen.kt:128 | four two-for-one vouchers at 10 cost 20 |
| PurchaseCartScreen.CartLines | app/src/main/java/com/kiruhm/cabify_mobile_challenge/ui/screens/PurchaseCartScreen.kt:191-195 | the cart's entries as (product, quantity) pairs, one per line |
| PurchaseCartScreen.Reconciled | app/src/main/java/com/kiruhm/cabify_mobile_challenge/ui/screens/PurchaseCartScreen.kt:191-195 | after a cart change, each current entry keeps its old flag when the same entry existed and is checked otherwise |
| PurchaseCartScreen.SelectedProducts | app/src/main/java/com/kiruhm/cabify_mobile_challenge/ui/screens/PurchaseCartScreen.kt:88-92 | the selected entries are exactly those flagged true |
| PurchaseCartScreen.ContinueEnabled | app/src/main/java/com/kiruhm/cabify_mobile_challenge/ui/screens/PurchaseCartScreen.kt:181 | continue is enabled exactly when some entry is checked |
| PurchaseCartScreen.QuantityChangeReselects | app/src/main/java/com/kiruhm/cabify_mobile_challenge/ui/screens/PurchaseCartScreen.kt:190-195 | a line whose quantity changed counts as a new entry and is checked again |
| PurchaseCartScreen.UnchangedLineKeepsFlag | app/src/main/java/com/kiruhm/cabify_mobile_challenge/ui/screens/PurchaseCartScreen.kt:190-195 | a line whose quantity did not change keeps its check mark |
| PurchaseCartScreen.FirstDisplayAllChecked | app/src/androidTest/java/com/kiruhm/cabify_mobile_challenge/ui/screens/PurchaseCartScreenTest.kt:84-90 | on first display every cart line is checked, and continue is enabled for a non-empty cart |
| PurchaseCartScreen.AllUncheckedDisablesContinue | app/src/androidTest/java/com/kiruhm/cabify_mobile_challenge/ui/screens/PurchaseCartScreenTest.kt:92-97 | with every line unchecked nothing is selected and continue is disabled |
| PurchaseCartScreen.PurchaseCart.constructor | app/src/main/java/com/kiruhm/cabify_mobile_challenge/ui/screens/PurchaseCartScreen.kt:84-96 | no entries and no removal pending at first |
| PurchaseCartScreen.PurchaseCart.CartChanged | app/src/main/java/com/kiruhm/cabify_mobile_challenge/ui/screens/PurchaseCartScreen.kt:191-195 | the entries become the reconciled entries; a pending removal is kept |
| PurchaseCartScreen.PurchaseCart.SelectionChanged | app/src/main/java/com/kiruhm/cabify_mobile_challenge/ui/screens/PurchaseCartScreen.kt:161-165 | the toggled entry takes the new flag and every other entry keeps its own |
| PurchaseCartScreen.PurchaseCart.RemoveProductClicked | app/src/main/java/com/kiruhm/cabify_mobile_challenge/ui/screens/PurchaseCartScreen.kt:166-168 | the product becomes the pending removal |
| PurchaseCartScreen.PurchaseCart.RemoveDialogAccepted | app/src/main/java/com/kiruhm/cabify_mobile_challenge/ui/screens/PurchaseCartScreen.kt:98-108 | accepting emits the removal of the pending product (when there is one) and clears it |
| PurchaseCartScreen.PurchaseCart.RemoveDialogClosed | app/src/main/java/com/kiruhm/cabify_mobile_challenge/ui/screens/PurchaseCartScreen.kt:103-104 | cancelling or dismissing clears the pending removal and emits nothing |
| PurchaseCartScreen.PurchaseCart.ContinueClicked | app/src/main/java/com/kiruhm/cabify_mobile_challenge/ui/screens/PurchaseCartScreen.kt:179-182 | when enabled, emits one product per checked entry and exactly the products of the checked entries; when disabled, nothing |
| DirectionalScroll.DirectionalLazyStaggeredGridState.constructor | app/src/main/java/com/kiruhm/cabify_mobile_challenge/ui/components/DirectionalScrollableState.kt:9-13 | the tracker starts at the grid's first visible item and its offset |
| DirectionalScroll.DirectionalLazyStaggeredGridState.ScrollDirection | app/src/main/java/com/kiruhm/cabify_mobile_challenge/ui/components/DirectionalScrollableState.kt:15-45 | not scrolling gives None and keeps the state; scrolling gives Down exactly when the position moved further down (a later item, or the same item at a larger offset) and Up otherwise, and records the new position |
| ProductListScreen.StartsWithIgnoreCase | app/src/main/java/com/kiruhm/cabify_mobile_challenge/ui/screens/ProductListScreen.kt:129 | the text begins with the query, ignoring case |
| ProductListScreen.ContainsIgnoreCase | app/src/main/java/com/kiruhm/cabify_mobile_challenge/ui/screens/ProductListScreen.kt:129 | the query occurs at some position of the text, ignoring case, and only then |
| ProductListScreen.Utf16Length | app/src/main/java/com/kiruhm/cabify_mobile_challenge/ui/screens/ProductListScreen.kt:129 | the query length in UTF-16 code units lies between one and two units per character, and is one per character when all lie in the Basic Multilingual Plane; its exact value follows from the two lemmas below |
| ProductListScreen.Utf16LengthOfChar | app/src/main/java/com/kiruhm/cabify_mobile_challenge/ui/screens/ProductListScreen.kt:129 | a single character counts one UTF-16 unit inside the Basic Multilingual Plane and two outside it |
| ProductListScreen.Utf16LengthAppend | app/src/main/java/com/kiruhm/cabify_mobile_challenge/ui/screens/ProductListScreen.kt:129 | the UTF-16 length of a concatenation is the sum of the lengths, so together with the single-character count it fixes the length of every string as Kotlin's `length` counts it |
| ProductListScreen.MatchesQuery | app/src/main/java/com/kiruhm/cabify_mobile_challenge/ui/screens/ProductListScreen.kt:128-129 | a query shorter than three UTF-16 code units matches every product; a longer one matches when the name contains it, ignoring case |
| ProductListScreen.AstralQueryIsSearched | app/src/main/java/com/kiruhm/cabify_mobile_challenge/ui/screens/ProductListScreen.kt:128-129 | the two-character query "a" + U+1F600 is three code units long, so it is searched, and a name without that emoji does not match |
| ProductListScreen.WithSelectionMembers | app/src/main/java/com/kiruhm/cabify_mobile_challenge/ui/screens/ProductListScreen.kt:116-118 | the active filters are exactly the selected ones |
| ProductListScreen.WithSelectionNone | app/src/main/java/com/kiruhm/cabify_mobile_challenge/ui/screens/ProductListScreen.kt:116-118 | with no filter selected there is no active filter |
| ProductListScreen.SortedIsSelectedThenUnselected | app/src/main/java/com/kiruhm/cabify_mobile_challenge/ui/screens/ProductListScreen.kt:114 | the stable sort shows the selected filters first, then the unselected ones, each group in its original order |
| ProductListScreen.WithSelectionAppend | app/src/main/java/com/kiruhm/cabify_mobile_challenge/ui/screens/ProductListScreen.kt:116 | filtering by selection distributes over concatenation |
| ProductListScreen.WithSelectionTwice | app/src/main/java/com/kiruhm/cabify_mobile_challenge/ui/screens/ProductListScreen.kt:116 | filtering by selection twice is the same as once |
| ProductListScreen.DisplayedActiveFilters | app/src/main/java/com/kiruhm/cabify_mobile_challenge/ui/screens/ProductListScreen.kt:114-118 | the active filters taken from the selected-first sorted list are exactly the selected filters in their original order, so the sort does not change what is filtered |
| ProductListScreen.AnyAccepts | app/src/main/java/com/kiruhm/cabify_mobile_challenge/ui/screens/ProductListScreen.kt:134 | some active filter's predicate accepts the product |
| ProductListScreen.PassesFilters | app/src/main/java/com/kiruhm/cabify_mobile_challenge/ui/screens/ProductListScreen.kt:132-134 | with no active filter every product passes; otherwise it passes when some active filter accepts it |
| ProductListScreen.VisibleProducts | app/src/main/java/com/kiruhm/cabify_mobile_challenge/ui/screens/ProductListScreen.kt:124-137 | the list shown keeps catalogue order, shows only products matching the query and passing the filters, and leaves none of them out |
| ProductListScreen.VisibleProductsKeepsMultiplicity | app/src/main/java/com/kiruhm/cabify_mobile_challenge/ui/screens/ProductListScreen.kt:124-137 | each product appears in the shown list exactly as many times as in the catalogue when it is visible, and not at all otherwise |
| ProductListScreen.NothingHiddenWithoutCriteria | app/src/main/java/com/kiruhm/cabify_mobile_challenge/ui/screens/ProductListScreen.kt:124-137 | with a short query and no active filter the whole catalogue is shown |
| ProductListScreen.ClearedFiltersShowEverything | app/src/androidTest/java/com/kiruhm/cabify_mobile_challenge/ui/screens/ProductListScreenTest.kt:143-150 | after clearing the filters, a short query shows the whole catalogue again |
| ProductListScreen.MissingCharacterNotContained | app/src/main/java/com/kiruhm/cabify_mobile_challenge/ui/screens/ProductListScreen.kt:129 | a query holding a character the name lacks, ignoring case, does not match |
| ProductListScreen.VisibleAmongThree | app/src/main/java/com/kiruhm/cabify_mobile_challenge/ui/screens/ProductListScreen.kt:124-137 | a three-product catalogue shows exactly its visible products, in order |
| ProductListScreen.VoucherSearchExample | app/src/androidTest/java/com/kiruhm/cabify_mobile_challenge/ui/screens/ProductListScreenTest.kt:89-92 | searching "voucher" in an illustrative voucher / T-shirt / mug catalogue shows one product, the voucher |
| ProductListScreen.UnknownWordSearchExample | app/src/androidTest/java/com/kiruhm/cabify_mobile_challenge/ui/screens/ProductListScreenTest.kt:97-98 | a word occurring in no name shows nothing |
| ProductListScreen.TwoForOneFilterExample | app/src/androidTest/java/com/kiruhm/cabify_mobile_challenge/ui/screens/ProductListScreenTest.kt:119-123 | with an empty query and only the two-for-one filter selected, an illustrative voucher / T-shirt / mug catalogue shows one product, the voucher |
| ProductListScreen.BothFiltersExample | app/src/androidTest/java/com/kiruhm/cabify_mobile_challenge/ui/screens/ProductListScreenTest.kt:136-140 | with both filters selected the same catalogue shows two products, the voucher and the T-shirt, in catalogue order |
| ProductListScreen.BadgeCount | app/src/main/java/com/kiruhm/cabify_mobile_challenge/ui/screens/ProductListScreen.kt:120-122 | the badge counts cart lines, capped at 99 |
| ProductListScreen.ShowBadge | app/src/main/java/com/kiruhm/cabify_mobile_challenge/ui/screens/ProductListScreen.kt:183 | the badge is shown exactly when the cart is not empty |
| ProductListScreen.FabState.constructor | app/src/main/java/com/kiruhm/cabify_mobile_challenge/ui/screens/ProductListScreen.kt:147-153 | the cart button starts shown, with no scroll direction |
| ProductListScreen.FabState.ScrollDirectionChanged | app/src/main/java/com/kiruhm/cabify_mobile_challenge/ui/screens/ProductListScreen.kt:155-158 | the button hides exactly when the previous or the new direction is Down, and the new direction is recorded |
| Screens.FirstMatch | app/src/main/java/com/kiruhm/cabify_mobile_challenge/ui/navigation/models/Screens.kt:13 | the position of the first destination whose route begins the given route, none before it matching |
| Screens.GetScreenByRoute | app/src/main/java/com/kiruhm/cabify_mobile_challenge/ui/navigation/models/Screens.kt:3-13 | a route resolves to the first destination, in declaration order, whose route is a prefix of it, and to none exactly when no route is |
| Screens.UnknownRoutes | app/src/main/java/com/kiruhm/cabify_mobile_challenge/ui/navigation/models/Screens.kt:13 | routes beginning with no destination's route, such as the graph's own and the cart's, resolve to nothing |
| MainNavGraph.Split | app/src/main/java/com/kiruhm/cabify_mobile_challenge/ui/navigation/MainNavGraph.kt:130 | splitting always yields at least one piece, and exactly one only when the separator does not occur |
| MainNavGraph.SplitSeparatorFreePrefix | app/src/main/java/com/kiruhm/cabify_mobile_challenge/ui/navigation/MainNavGraph.kt:130 | a separator-free prefix joins onto the first piece of the split |
| MainNavGraph.SplitJoinRoundTrip | app/src/main/java/com/kiruhm/cabify_mobile_challenge/ui/navigation/MainNavGraph.kt:106-111 | splitting the joined names gives back a non-empty list of separator-free names |
| MainNavGraph.EmptyJoinSplitsToOneEmptyName | app/src/main/java/com/kiruhm/cabify_mobile_challenge/ui/navigation/MainNavGraph.kt:106-111 | joining no names and splitting gives one empty name, not an empty list |
| MainNavGraph.Names | app/src/main/java/com/kiruhm/cabify_mobile_challenge/ui/navigation/MainNavGraph.kt:109 | the names of the products, in order |
| MainNavGraph.DetailRouteResolves | app/src/main/java/com/kiruhm/cabify_mobile_challenge/ui/navigation/MainNavGraph.kt:55 | a product-detail route resolves to the detail destination |
| MainNavGraph.PurchaseRouteRoundTrip | app/src/main/java/com/kiruhm/cabify_mobile_challenge/ui/navigation/MainNavGraph.kt:106-111 | a purchase route resolves to the purchase destination and its argument splits back into the products' names |
| MainNavGraph.FindByName | app/src/main/java/com/kiruhm/cabify_mobile_challenge/ui/navigation/MainNavGraph.kt:79-81 | finds the first product with the given name, and none exactly when no product has it |
| MainNavGraph.DetailDestinationFor | app/src/main/java/com/kiruhm/cabify_mobile_challenge/ui/navigation/MainNavGraph.kt:79-95 | the detail screen leaves exactly when no product has the name, and otherwise shows a catalogue product of that name |
| MainNavGraph.ProductsToBuy | app/src/main/java/com/kiruhm/cabify_mobile_challenge/ui/navigation/MainNavGraph.kt:137-143 | the lines to buy are exactly the cart lines whose product name is listed, with their cart quantities |
| MainNavGraph.PurchaseDestinationFor | app/src/main/java/com/kiruhm/cabify_mobile_challenge/ui/navigation/MainNavGraph.kt:130-143 | the purchase screen leaves exactly when the argument is missing, and otherwise shows the cart lines named by the split argument |
| MainNavGraph.ContinueDeliversChosenLines | app/src/main/java/com/kiruhm/cabify_mobile_challenge/ui/navigation/MainNavGraph.kt:106-143 | continuing with chosen products shows every chosen cart line with its quantity, and only lines sharing a name with a chosen product |

## Left out

- I/O and plumbing are not modelled:
  - persisting and restoring the state with Gson through the saved-state handle;
  - coroutines, `Flow` collection and dispatchers;
  - the repository and use case that load the catalogue.

  The loaded result enters as a parameter of `ProductsLoaded`.
- Prices are exact reals, not `Double`. Kotlin's `amount / 2f` is a float and `roundToInt` rounds it; the model uses the exact half-up rounding of an integer.
- Dividing by a zero amount (two-for-one at quantity 0 gives NaN in Kotlin) is excluded by a precondition. No cart line has quantity 0.
- Price formatting (`formatPrice`), string resources, Compose layout, dialogs' visuals, animations and the grid/list toggle are not modelled.
- The navigation library's parsing of route templates and its argument encoding are not modelled. Routes are plain strings, and a missing argument is an `Option`.
- `ProductListScreen.ContainsIgnoreCase`, `ProductListScreen.StartsWithIgnoreCase`, `ProductListScreen.MatchesQuery`: case is folded for ASCII letters only, while Kotlin's `contains(ignoreCase = true)` also folds other Unicode letters. Strings are sequences of Unicode scalar values; only the length threshold is measured in UTF-16 code units (`ProductListScreen.Utf16Length`), and containment is compared per character, which agrees with Kotlin's per-code-unit comparison on well-formed text.
- `PurchaseCartScreen.PurchaseCart.ContinueClicked`: the product list follows the iteration order of a set, not the insertion order of Kotlin's `LinkedHashMap`, so the order of the emitted products is not stated.
- `derivedStateOf` / `remember` caching is not modelled: each screen value is a function of the current state. In the source, the key-less `remember` blocks for the badge count (ProductListScreen.kt:120-122), the summary total (PurchaseProductsScreen.kt:56-63) and `productsToBuy` (MainNavGraph.kt:137-143) capture the first `state` parameter, so these values go stale and do not follow later states while the screen stays composed. The model always shows the up-to-date values.
- `MockData`, `LocalDSMapper`, the detail and main screens, the previews and the theme are not part of this model.
- `Screens.GetScreenByRoute`: the navigation graph also navigates to a `Screens.Cart` destination that the enum does not declare. Only the three declared destinations are modelled.
- `PurchaseProductsScreen.LineAmount`: the screens call `product.getDiscountPricePerUnit(quantity)`, which `Product` does not declare (it declares `getDiscountPrice`). The model reads it as `getDiscountPrice`.
- `Cart.AddedToCart`: quantities are unbounded integers. Kotlin's `(newCart[product] ?: 0) + 1` is a 32-bit `Int` that would wrap to a negative quantity after 2147483647 additions of one product; that overflow is not modelled.
- `Cart.OperationsKeepQuantitiesPositive`: the "at least 1" invariant holds for unbounded quantities; with 32-bit wrap-around it would fail after 2147483647 additions of one product.
- `ViewModel.ProductsViewModel.AddToCart`: inherits the unbounded quantity of `Cart.AddedToCart`.
- `ViewModel.Reduce`: it states properties of the result rather than the full new state. The full new state is stated by each `ViewModel.ProductsViewModel` method.

## Findings

| source | as written | input that shows it | evidently intended | confidence | as-written member | corrected member |
|---|---|---|---|---|---|---|
| app/src/main/java/com/kiruhm/cabify_mobile_challenge/ui/screens/PurchaseProductsScreen.kt:56-62 | the purchase summary's total sums every line of the whole cart | cart {a: 1, b: 1} with prices 1 and 2, buying only {a: 1}: the one row shown is 1, the total shown is 3 | the total sums the lines being bought, i.e. the rows shown above it | not executed | PurchaseProductsScreen.TotalAsWrittenCountsUnboughtLines | PurchaseProductsScreen.SummaryTotalMatchesRows |
