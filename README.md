# Cart, item configuration and login form of a delivery app

This is a Dafny model of the client-side logic of a React Native food and grocery
delivery app. Its centre is the **shopping cart**: a reducer over
`{store, orders}` that merges a new line into an existing one when the item
id and the multiset of add-on keys match, and otherwise appends it. It also has
remove, set-quantity, decrease, clear and restore actions, and a provider that
exposes them as `addToCart`, `removeFromCart` and the rest. Around the cart the
model covers these screens:

- **sticky cart bar**: counts the units and sums the line totals in one loop,
  and shows itself only when both are positive.
- **cart screen**: lists the distinct stores of the cart through a `Map`,
  computes the subtotal and the displayed total (subtotal + 2.00), and offers
  "add another store" while fewer than two stores are listed.
- **store page**:
  - quick add, which takes a positive price, one unit and no add-ons.
  - the configuration modal's add callback.
  - the "other store" banner guard.
  - the menu search.
- **item configuration modal**:
  - the `toBool`/`idStr` coercions and step normalisation.
  - single-select and multi-select option toggles.
  - quantity and step bounds.
  - the price formula.
- **login/register form**: the validation chain, the field updates and the
  mode toggle.

Modules follow the source files:

| module | file |
|---|---|
| `CartModel`, `AddonKeys`, `OrdersContext`, `OrdersContextLemmas` | `context/orders-context.js` |
| `StickyCartBar` | `components/StickyCartBar.js` |
| `CartScreen` | `screens/private-pages/cart-screen.js` |
| `Catalog`, `StoreDetails` | `screens/public-pages/store-details-screen.js` |
| `MenuItemModal` | `components/menu-item-modal.js` |
| `LoginScreen` | `screens/auth/login-screen.js` |
| `Wrappers`, `Text`, `JsValues`, `Assoc` | JavaScript semantics the code relies on: `Option`; `trim`, `toLowerCase`, `includes` and number printing; `||`, `??`, `String`, `Number(x) \|\| 0`; insertion-ordered `Map` and object keys |

State the source mutates is modelled as classes:

- `OrdersContext.Cart` holds the reducer state.
- `MenuItemModal.ItemModal` holds the item, steps, step index, selection and quantity.
- `LoginScreen.LoginForm` holds the form and the mode.

Each method is tied to a pure function of the old state, and the properties are
proved about those functions.

Money is in integer cents. `Number(x)` is `NumberResult = Finite(n) | NaN`.

Behaviour of the code worth knowing, all modelled as written:

- ADD sets the cart's store on every append (context/orders-context.js:50-54) whenever the new line has a store, even when the cart already holds lines.
- DECREASE lowers **every** line of the item id, not only the first.
- REMOVE, UPDATE and DECREASE never reset the store. The store stays set even when the last line goes.
- The cart screen's store list keeps the first-seen order of keys, but for a repeated key it keeps the **last** line's store object. The key is `store.id`, or `restaurant.id` when the store id is empty or missing.
- UPDATE and DECREASE re-price a line from the item's base price only, dropping the add-on cost. This is modelled as written, and `OrdersContextLemmas.UpdateDropsAddonCost` and `OrdersContextLemmas.BurgerSession` show it.
- The cart screen labels delivery "Free" but adds 2.00 to the total. `CartScreen.DisplayedTotal` models the addition.

## Model

| member | source | states |
|---|---|---|
| OrdersContext.FindIndex | context/orders-context.js:27-32 | -1 exactly when no line has the candidate's item id and add-on keys; otherwise the first such line |
| OrdersContext.WithoutItem | context/orders-context.js:60-62 | keeps exactly the lines with another item id, and only lines of the input |
| OrdersContext.PositiveOnly | context/orders-context.js:103 | keeps exactly the lines with a positive quantity; `OrdersContextLemmas.PositiveOnlyAppend` shows their order is kept |
| OrdersContext.Reduce | context/orders-context.js:13-120 | remove, update and decrease never change the store; an add either keeps the number of lines or appends the new line |
| OrdersContext.Cart.constructor | context/orders-context.js:7-10 | the provider starts with no store and no lines |
| OrdersContext.Cart.Dispatch | context/orders-context.js:124 | the new state is the reducer applied to the old state and the action |
| OrdersContext.Cart.AddToCart | context/orders-context.js:22-55 | merging in place (quantity and total of the found line grow) or appending gives the reducer's state; at most one line is added |
| OrdersContext.Cart.RemoveFromCart | context/orders-context.js:159-160 | the reducer's state; no line of the id remains; the store is kept |
| OrdersContext.Cart.UpdateQuantity | context/orders-context.js:162-163 | the reducer's state; the store is kept |
| OrdersContext.Cart.DecreaseQuantity | context/orders-context.js:165-166 | the reducer's state; never more lines than before; the store is kept |
| OrdersContext.Cart.ClearCart | context/orders-context.js:168 | the state is back to the initial empty cart |
| OrdersContext.Cart.Hydrate | context/orders-context.js:127-139 | a saved cart replaces store and lines; nothing saved leaves the state as it was |
| OrdersContext.SameConfiguration | context/orders-context.js:27-32 | same item id and same add-on keys; `AddonKeys.SameAddonsIsMultisetEquality` and `OrdersContextLemmas.FindIndexIgnoresOtherFields` state what it compares |
| OrdersContext.Add | context/orders-context.js:22-55 | merge or append; stated by `OrdersContextLemmas.AddMergesIntoFirstMatch`, `AddAppendsNewConfiguration` and `AddTwiceMerges` |
| OrdersContext.MergeAt | context/orders-context.js:35-47 | only line i changes, gaining the candidate's quantity and total; stated by `OrdersContextLemmas.AddMergesAt` and `AddMergesIntoFirstMatch` |
| OrdersContext.Requantified | context/orders-context.js:79-83 | quantity q and total base price × q; stated by `OrdersContextLemmas.SetQuantityOfAt` and `UpdateDropsAddonCost` |
| OrdersContext.SetQuantityOf | context/orders-context.js:77-85 | same length; every line of the id re-priced, the others untouched; stated by `OrdersContextLemmas.SetQuantityOfAt` |
| OrdersContext.Decremented | context/orders-context.js:91-102 | same length; every line of the id loses one unit; stated by `OrdersContextLemmas.DecrementedAt` and `DecrementedAppend` |
| OrdersContext.Snapshot | context/orders-context.js:145-147 | the saved `{store, orders}`; `OrdersContextLemmas.RestoreRoundTrip` shows restoring it gives the state back |
| OrdersContext.ShowsOrderBanner | components/StickyOrderBanner.js:24 | hidden without a store or without lines; `OrdersContextLemmas.ClearResets` shows clearing hides it |
| OrdersContextLemmas.AddMergesIntoFirstMatch | context/orders-context.js:35-47 | the first matching line gains the candidate's quantity and total and keeps item, add-ons and store; every other line and the store are unchanged |
| OrdersContextLemmas.AddAppendsNewConfiguration | context/orders-context.js:50-54 | a candidate matching no line is appended; the store becomes the line's store when it has one |
| OrdersContextLemmas.MatchIgnoresAddonOrder | context/orders-context.js:27-32 | add-on lists with the same key multiset find the same line |
| OrdersContextLemmas.AddTwiceMerges | context/orders-context.js:22-55 | adding a new configuration and then the same configuration gives one new line with the summed quantity and total |
| OrdersContextLemmas.AddMergesAt | context/orders-context.js:35-47 | when the first matching line is line k, the new list is the old one with only line k's quantity and total grown by the candidate's |
| OrdersContextLemmas.SecondAddFindsFirst | context/orders-context.js:27-32 | after appending a configuration, an equal configuration finds that appended line |
| OrdersContextLemmas.FindIndexIgnoresOtherFields | context/orders-context.js:27-32 | matching looks only at the item id and the add-ons |
| OrdersContextLemmas.AddDistinguishesExtras | context/orders-context.js:27-32 | an item without add-ons and the same item with add-ons stay two lines |
| OrdersContextLemmas.WithoutItemAppend | context/orders-context.js:60-62 | removing distributes over concatenation, so the order of the kept lines is preserved |
| OrdersContextLemmas.WithoutAbsentItem | context/orders-context.js:60-62 | removing an id no line has keeps every line |
| OrdersContextLemmas.RemoveDropsEveryVariant | context/orders-context.js:57-63 | no line of the id remains, every line of another id remains, the store is kept |
| OrdersContextLemmas.RemoveIdempotent | context/orders-context.js:57-63 | removing twice is removing once |
| OrdersContextLemmas.RemoveAbsentIsNoop | context/orders-context.js:57-63 | removing an absent id returns the same state |
| OrdersContextLemmas.UpdateToZeroRemoves | context/orders-context.js:68-73 | a quantity of zero or less acts exactly as REMOVE_FROM_CART |
| OrdersContextLemmas.SetQuantityOfAt | context/orders-context.js:77-85 | each line of the id gets the quantity and total price × quantity; other lines are unchanged |
| OrdersContextLemmas.UpdateSetsEveryVariant | context/orders-context.js:75-86 | a positive update sets every line of the id, keeps the other lines, the length and the store |
| OrdersContextLemmas.UpdateDropsAddonCost | context/orders-context.js:82 | the re-priced total is base price × quantity, whatever the add-ons cost |
| OrdersContextLemmas.DecrementedAt | context/orders-context.js:92-102 | each line of the id loses one unit and is re-priced from the base price |
| OrdersContextLemmas.DecreaseEffect | context/orders-context.js:89-109 | no zero-quantity line remains; untouched positive lines stay; lines above one unit lose one; the store is kept (order and position: `DecreaseAppend`, `DecreaseLastUnitRemoves`) |
| OrdersContextLemmas.DecreaseLastUnitRemoves | context/orders-context.js:89-109 | a one-unit line anywhere in the cart disappears: the result is that of the cart without it, so the cart shrinks |
| OrdersContextLemmas.DecrementedAppend | context/orders-context.js:91-102 | the decreasing `map` distributes over concatenation |
| OrdersContextLemmas.PositiveOnlyAppend | context/orders-context.js:103 | the positive-quantity filter distributes over concatenation, so the kept lines stay in order |
| OrdersContextLemmas.DecreaseAppend | context/orders-context.js:89-109 | decreasing a concatenation gives the concatenation of the decreased parts, so line order is kept |
| OrdersContextLemmas.UnitLineDropped | context/orders-context.js:91-103 | a one-unit line of the id contributes nothing after the map and the filter |
| OrdersContextLemmas.UnitLineDecrementsAway | context/orders-context.js:91-103 | a single one-unit line decreases to an empty list |
| OrdersContextLemmas.DecreaseAbsentIsNoop | context/orders-context.js:89-109 | decreasing an absent id keeps a cart of positive lines as it is |
| OrdersContextLemmas.SetQuantityOfPositive | context/orders-context.js:68-86 | a positive update keeps every quantity at least 1 |
| OrdersContextLemmas.QuantitiesStayPositive | context/orders-context.js:13-120 | every action keeps all quantities at least 1, given positive added and restored lines |
| OrdersContextLemmas.ClearResets | context/orders-context.js:111-115 | clearing yields no store and no lines, so the unfinished-order banner is hidden |
| OrdersContextLemmas.RestoreRoundTrip | context/orders-context.js:145-147 | restoring the saved `{store, orders}` reproduces the saved state |
| OrdersContextLemmas.OtherIsIdentity | context/orders-context.js:117-118 | an unknown action leaves the state unchanged |
| OrdersContextLemmas.BurgerSession | context/orders-context.js:22-109 | burger + cheese added once, then twice more, then decreased once: 23.00, then 69.00 with quantity 3, then 40.00 with quantity 2 |
| AddonKeys.Keys | context/orders-context.js:30-31 | one key per add-on, `id` or else `name` |
| AddonKeys.Key | context/orders-context.js:30-31 | `id`, or `name` when the id is empty; `AddonKeys.SameAddonsById` and `SameAddonsByNameFallback` state it |
| AddonKeys.KeysAppend | context/orders-context.js:30-31 | keys of a concatenation are the concatenated keys |
| AddonKeys.StrLeTotal | context/orders-context.js:30-31 | the string order used by `sort` is total |
| AddonKeys.StrLeAntisymmetric | context/orders-context.js:30-31 | the string order is antisymmetric |
| AddonKeys.StrLeTransitive | context/orders-context.js:30-31 | the string order is transitive |
| AddonKeys.InsertSorts | context/orders-context.js:30-31 | inserting into a sorted list keeps it sorted and adds exactly that key |
| AddonKeys.SortSorts | context/orders-context.js:30-31 | `sort` returns a sorted permutation of the keys |
| AddonKeys.SortedUnique | context/orders-context.js:30-31 | two sorted lists with the same multiset are equal |
| AddonKeys.SameAddonsIsMultisetEquality | context/orders-context.js:30-31 | comparing the sorted key lists is exactly comparing the key multisets |
| AddonKeys.SameAddonsIgnoresOrder | context/orders-context.js:30-31 | add-on order never matters |
| AddonKeys.SameAddonsCountsDuplicates | context/orders-context.js:30-31 | a repeated add-on makes a different configuration |
| AddonKeys.SameAddonsEmpty | context/orders-context.js:30-31 | only an empty add-on list matches an empty one |
| AddonKeys.SameAddonsById | context/orders-context.js:30-31 | add-ons with ids are compared by id, whatever their names |
| AddonKeys.SameAddonsByNameFallback | context/orders-context.js:30-31 | an add-on without id is compared by name |
| AddonKeys.SameAddons | context/orders-context.js:30-31 | the sorted key lists are equal; `AddonKeys.SameAddonsIsMultisetEquality` shows this is multiset equality of the keys |
| StickyCartBar.Summarize | components/StickyCartBar.js:21-35 | the loop's count and total are the unit sum and the amount sum of the lines |
| StickyCartBar.Render | components/StickyCartBar.js:37 | the bar is shown exactly when count and total are both positive |
| StickyCartBar.Contribution | components/StickyCartBar.js:26-32 | the line's amount: its total when it is a number, 0 when it is not, and price × units when there is none; stated by `StickyCartBar.UnreadableLineIgnored` and `MissingTotalUsesPrice` |
| StickyCartBar.Count | components/StickyCartBar.js:22-26 | the unit sum; `StickyCartBar.Summarize` ties the loop to it and `CountTotalAppend` distributes it |
| StickyCartBar.Total | components/StickyCartBar.js:22-35 | the amount sum; `StickyCartBar.Summarize` and `BarAgreesWithCart` tie it to the loop and to the cart subtotal |
| StickyCartBar.IsVisible | components/StickyCartBar.js:37 | count and total both positive; `StickyCartBar.VisibleIffSubtotalPositive` and `EmptyCartHidden` state when |
| StickyCartBar.CountTotalAppend | components/StickyCartBar.js:24-32 | both sums distribute over concatenation |
| StickyCartBar.EmptyCartHidden | components/StickyCartBar.js:37 | an empty cart hides the bar |
| StickyCartBar.UnreadableLineIgnored | components/StickyCartBar.js:25-31 | a line whose quantity and total are not numbers adds nothing |
| StickyCartBar.MissingTotalUsesPrice | components/StickyCartBar.js:27-30 | a line without total is charged price × quantity, and nothing when the price is not a number |
| StickyCartBar.NothingToPayHidden | components/StickyCartBar.js:31-37 | lines that all contribute nothing give total 0 and hide the bar |
| StickyCartBar.Readings | components/StickyCartBar.js:24-31 | one reading per cart line, in order |
| StickyCartBar.BarAgreesWithCart | components/StickyCartBar.js:21-35 | on reducer lines the bar's total is the cart screen's subtotal and its count the sum of quantities |
| StickyCartBar.UnitsAtLeastLines | components/StickyCartBar.js:24-26 | with positive quantities there are at least as many units as lines |
| StickyCartBar.VisibleIffSubtotalPositive | components/StickyCartBar.js:37 | with positive quantities the bar shows exactly for a non-empty cart with a positive subtotal |
| CartScreen.StoreEntries | screens/private-pages/cart-screen.js:24 | one `[key, store]` pair per line, in order |
| CartScreen.StoreEntriesKeys | screens/private-pages/cart-screen.js:24 | the pair keys are the lines' store keys |
| CartScreen.StoreKey | screens/private-pages/cart-screen.js:24 | `store.id` when non-empty, else `restaurant.id`, else none; `CartScreen.StoreEntriesKeys` uses it as the pair key |
| CartScreen.UniqueStores | screens/private-pages/cart-screen.js:22-26 | one store per key; stated by `CartScreen.UniqueStoresOnePerKey`, `UniqueStoresLastWins` and `UniqueStoresFirstSeenOrder` |
| CartScreen.Subtotal | screens/private-pages/cart-screen.js:28 | the sum of line totals; stated by `CartScreen.SubtotalAppend` and `SubtotalSumsLines` |
| CartScreen.DisplayedTotal | screens/private-pages/cart-screen.js:74 | subtotal plus 2.00; stated by `CartScreen.SubtotalSumsLines` |
| CartScreen.HeaderStores | screens/private-pages/cart-screen.js:35 | the first two stores; stated by `CartScreen.HeaderShowsAtMostTwo` |
| CartScreen.OffersAddAnother | screens/private-pages/cart-screen.js:140 | fewer than two stores; stated by `CartScreen.SingleStoreCart` |
| CartScreen.UniqueStoresOnePerKey | screens/private-pages/cart-screen.js:22-26 | one entry per store key, an entry for every line's key, never more stores than lines |
| CartScreen.UniqueStoresLastWins | screens/private-pages/cart-screen.js:22-26 | the store kept for a key is that of the last line with the key |
| CartScreen.UniqueStoresFirstSeenOrder | screens/private-pages/cart-screen.js:22-26 | stores are listed in the order their keys first occur |
| CartScreen.SingleStoreCart | screens/private-pages/cart-screen.js:140 | a cart of one store key lists at most one store and offers "add another" |
| CartScreen.HeaderShowsAtMostTwo | screens/private-pages/cart-screen.js:35 | the header shows the first two stores at most |
| CartScreen.SubtotalAppend | screens/private-pages/cart-screen.js:28 | the subtotal distributes over concatenation |
| CartScreen.SubtotalSumsLines | screens/private-pages/cart-screen.js:74 | the subtotal sums the line totals and the displayed total adds 2.00 |
| MenuItemModal.ToBoolIgnoresPaddingAndCase | components/menu-item-modal.js:20-22 | a string flag reads the same whatever its whitespace padding and letter case |
| MenuItemModal.ToBoolNonStrings | components/menu-item-modal.js:17-24 | among non-strings only `true` and the number 1 are true |
| MenuItemModal.ToBoolTrueWord | components/menu-item-modal.js:20-22 | each of "1", "true", "yes", "y" and "on" is true |
| MenuItemModal.ToBoolPaddedTrueWord | components/menu-item-modal.js:20-22 | an accepted word in any letter case and with any whitespace padding is true |
| MenuItemModal.ToBoolRejectsOtherWords | components/menu-item-modal.js:20-22 | "no" and "" are false |
| MenuItemModal.ToBool | components/menu-item-modal.js:17-25 | the flag reading; stated by `MenuItemModal.ToBoolIgnoresPaddingAndCase`, `ToBoolTrueWord`, `ToBoolPaddedTrueWord`, `ToBoolNonStrings` and `ToBoolRejectsOtherWords` |
| MenuItemModal.NormalizeOptions | components/menu-item-modal.js:52-56 | one normalised option per raw option, in order |
| MenuItemModal.NormalizeAll | components/menu-item-modal.js:47-72 | one step per raw entry, in order: an entry without id gets `step-<i>` (`group-<i>` for add-on groups), a string id is kept, an entry without any name gets the numbered default name `خطوة <i+1>` (`مجموعة <i+1>`), and the options and the multiple flag are the entry's own |
| MenuItemModal.StepsOfShape | components/menu-item-modal.js:44-75 | the item's steps win over its add-on groups; no item means no steps; each step keeps its options |
| MenuItemModal.StepsOf | components/menu-item-modal.js:44-75 | steps first, else add-on groups, else none; stated by `MenuItemModal.StepsOfShape` and `DefaultIdsDistinct` |
| MenuItemModal.IsLast | components/menu-item-modal.js:147 | no steps, or the index is the last step's; `MenuItemModal.NextReachesLast` shows Next stops exactly there |
| MenuItemModal.PrefixedNumbersDistinct | components/menu-item-modal.js:48 | different indexes give different prefixed ids |
| MenuItemModal.DefaultIdsDistinct | components/menu-item-modal.js:48-62 | steps or groups without an id get pairwise distinct default ids |
| MenuItemModal.UnpricedOptionIsFree | components/menu-item-modal.js:55 | an option whose price is not a number costs 0 |
| MenuItemModal.Clamp | components/menu-item-modal.js:77-81 | the index ends in range and an index already in range is kept |
| MenuItemModal.NextStep | components/menu-item-modal.js:281-285 | Next keeps the index in range and advances by one unless at the last step |
| MenuItemModal.PrevStep | components/menu-item-modal.js:316 | Back keeps the index in range and steps back by one unless at 0 |
| MenuItemModal.DecrementQuantity | components/menu-item-modal.js:196 | the quantity never drops below 1 |
| MenuItemModal.NextReachesLast | components/menu-item-modal.js:147 | Next stays put exactly on the last step, and Back undoes a Next that moved |
| MenuItemModal.IndexOfId | components/menu-item-modal.js:120 | the first option with the id, or -1 when there is none |
| MenuItemModal.ToggleMultipleFlips | components/menu-item-modal.js:119-133 | a multi-select toggle flips the option's membership, keeps every other choice and keeps ids distinct |
| MenuItemModal.ToggleMultipleTwice | components/menu-item-modal.js:119-133 | selecting a new option twice restores the group |
| MenuItemModal.ToggleSingleAtMostOne | components/menu-item-modal.js:134-143 | a single-select group holds at most one option; it empties exactly when the only chosen option is chosen again |
| MenuItemModal.ToggleMultiple | components/menu-item-modal.js:119-133 | flips the option's membership; stated by `MenuItemModal.ToggleMultipleFlips` and `ToggleMultipleTwice` |
| MenuItemModal.ToggleSingle | components/menu-item-modal.js:134-143 | the option alone, or nothing when it was the choice; stated by `MenuItemModal.ToggleSingleAtMostOne` |
| MenuItemModal.Select | components/menu-item-modal.js:113-145 | rewrites only the step's group; stated by `MenuItemModal.SelectTouchesOnlyItsGroup` and `SelectNewOptionAddsPrice` |
| MenuItemModal.SelectTouchesOnlyItsGroup | components/menu-item-modal.js:113-145 | selecting rewrites the step's group by the toggle of its mode and leaves every other group unchanged |
| MenuItemModal.SumPricesAppend | components/menu-item-modal.js:89-92 | the price sum distributes over concatenation |
| MenuItemModal.FlattenPrice | components/menu-item-modal.js:85-96 | flattening the selection keeps its price |
| MenuItemModal.PutPrice | components/menu-item-modal.js:117-144 | rewriting one group changes the price by that group's difference alone |
| MenuItemModal.SelectNewOptionAddsPrice | components/menu-item-modal.js:126-132 | choosing a new multi-select option adds exactly its price |
| MenuItemModal.SelectionPrice | components/menu-item-modal.js:85-96 | the price of every chosen option; stated by `MenuItemModal.FlattenPrice`, `PutPrice` and `ItemModal.AddonsPriceSingleQty` |
| MenuItemModal.Flatten | screens/public-pages/store-details-screen.js:284 | every chosen option, group after group; stated by `MenuItemModal.FlattenPrice`, `StoreDetails.ModalLineKeepsChoices` and `ModalLineOnlyChoices` |
| MenuItemModal.ItemModal.constructor | components/menu-item-modal.js:32-34 | step 0, no selection, quantity 1 |
| MenuItemModal.ItemModal.Open | components/menu-item-modal.js:36-81 | a new item resets step, selection and quantity and derives its steps |
| MenuItemModal.ItemModal.Close | components/menu-item-modal.js:44-45 | without an item there are no steps and the index is clamped to 0; selection and quantity stay |
| MenuItemModal.ItemModal.Increment | components/menu-item-modal.js:203 | the quantity grows by one and nothing else changes |
| MenuItemModal.ItemModal.Decrement | components/menu-item-modal.js:196 | the quantity becomes max(1, q - 1) and nothing else changes |
| MenuItemModal.ItemModal.Next | components/menu-item-modal.js:281-285 | the index advances within range and nothing else changes |
| MenuItemModal.ItemModal.Back | components/menu-item-modal.js:316 | the index moves back within range and nothing else changes |
| MenuItemModal.ItemModal.SelectAddon | components/menu-item-modal.js:113-145 | the selection is toggled for the step and nothing else changes |
| MenuItemModal.ItemModal.AddonsPriceSingleQty | components/menu-item-modal.js:85-96 | the loop's sum is the price of every chosen option across groups |
| MenuItemModal.ItemModal.TotalPrice | components/menu-item-modal.js:98 | the total is (base price + add-on price) × quantity |
| MenuItemModal.ItemModal.AddOffer | components/menu-item-modal.js:277-301 | the add button exists exactly on the last step with an item, and passes item, quantity and selection |
| StoreDetails.HandleAddToCart | screens/public-pages/store-details-screen.js:78-94 | an unpriced item leaves the cart; a priced one is dispatched as its quick-add line |
| StoreDetails.QuickAddShape | screens/public-pages/store-details-screen.js:78-94 | a line exists exactly for a positive price: one unit, no add-ons, total = price, this store, the item's id |
| StoreDetails.QuickAddFromEmpty | screens/public-pages/store-details-screen.js:78-94 | the first quick add into an empty cart gives one line and this store |
| StoreDetails.QuickAddTwice | screens/public-pages/store-details-screen.js:78-94 | quick-adding a new item twice gives one line of two units at twice the price |
| StoreDetails.QuickAddLine | screens/public-pages/store-details-screen.js:78-94 | a line only for a positive price; stated by `StoreDetails.QuickAddShape` |
| StoreDetails.ModalAddLine | screens/public-pages/store-details-screen.js:267-288 | the modal's line; stated by `StoreDetails.ModalLineTotalIsDisplayedTotal`, `ModalLineKeepsChoices` and `ModalLineOnlyChoices` |
| StoreDetails.OnModalAdd | screens/public-pages/store-details-screen.js:267-288 | the modal's configuration is dispatched as its line |
| StoreDetails.ModalLineTotalIsDisplayedTotal | screens/public-pages/store-details-screen.js:269-274 | the line's total equals the total the modal displayed, and the quantity is the modal's |
| StoreDetails.ModalLineKeepsChoices | screens/public-pages/store-details-screen.js:284 | every chosen option of every group is among the line's add-ons |
| StoreDetails.ModalLineOnlyChoices | screens/public-pages/store-details-screen.js:284 | every add-on of the line is a chosen option of some group |
| StoreDetails.AddFromThisStoreNoConflict | screens/public-pages/store-details-screen.js:96-99 | adding a line of this store never raises the other-store banner |
| StoreDetails.OtherStoreConflicts | screens/public-pages/store-details-screen.js:96-99 | a first line of another store raises it |
| StoreDetails.HasConflictingOrder | screens/public-pages/store-details-screen.js:96-99 | a non-empty cart whose first line is of another store; stated by `StoreDetails.AddFromThisStoreNoConflict` and `OtherStoreConflicts` |
| StoreDetails.FilterItemsExact | screens/public-pages/store-details-screen.js:108-111 | an item is kept exactly when it is in the category and matches the query, as many times as the category holds it |
| StoreDetails.FilterMenuShape | screens/public-pages/store-details-screen.js:105-113 | each shown category is an input category with the same id and exactly its matching items, never empty (order: `FilterMenuAppend`) |
| StoreDetails.FilterMenuKeepsMatches | screens/public-pages/store-details-screen.js:105-113 | a category with a matching item is shown |
| StoreDetails.FilterItemsAppend | screens/public-pages/store-details-screen.js:108-111 | the item filter distributes over concatenation, so kept items stay in menu order |
| StoreDetails.FilterMenuAppend | screens/public-pages/store-details-screen.js:104-113 | the menu filter distributes over concatenation, so shown categories stay in menu order |
| StoreDetails.NonEmptyMembers | screens/public-pages/store-details-screen.js:113 | the emptiness filter keeps exactly the categories with at least one item |
| StoreDetails.NonEmptyAppend | screens/public-pages/store-details-screen.js:113 | the emptiness filter distributes over concatenation |
| StoreDetails.EmptyQueryMatchesNamed | screens/public-pages/store-details-screen.js:109-110 | an empty query keeps exactly the items with a name to show |
| StoreDetails.QueryCaseIgnored | screens/public-pages/store-details-screen.js:110 | the query's letter case does not matter |
| StoreDetails.DisplayName | screens/public-pages/store-details-screen.js:109 | the name shown in the page's language; `StoreDetails.EmptyQueryMatchesNamed` uses it |
| StoreDetails.MatchesQuery | screens/public-pages/store-details-screen.js:109-110 | the lower-cased name includes the lower-cased query; stated by `StoreDetails.QueryCaseIgnored` and `EmptyQueryMatchesNamed` |
| StoreDetails.FilterItems | screens/public-pages/store-details-screen.js:108-111 | the matching items; stated by `StoreDetails.FilterItemsExact` and `FilterItemsAppend` |
| StoreDetails.FilterMenu | screens/public-pages/store-details-screen.js:104-113 | the categories with matches; stated by `StoreDetails.FilterMenuShape`, `FilterMenuKeepsMatches` and `FilterMenuAppend` |
| LoginScreen.WithField | screens/auth/login-screen.js:176-177 | the named field gets the value and the other three are unchanged |
| LoginScreen.FieldEditsCommute | screens/auth/login-screen.js:176-177 | edits of different fields commute; a later edit of the same field wins |
| LoginScreen.MissingCredentialsRefused | screens/auth/login-screen.js:150-153 | an empty phone or password gives only the fill-all-fields alert, in both modes |
| LoginScreen.RegisterNeedsAllFields | screens/auth/login-screen.js:155-159 | registering with an empty name or confirmation gives only the same alert |
| LoginScreen.MismatchOnlyAfterEmptinessChecks | screens/auth/login-screen.js:160-163 | the mismatch message comes exactly when every field is filled and the passwords differ |
| LoginScreen.LoginIgnoresNameAndConfirmation | screens/auth/login-screen.js:171-173 | logging in does not read name or confirmation |
| LoginScreen.OnlyValidFormsReachServices | screens/auth/login-screen.js:148-174 | a service is called exactly when the form passes every check |
| LoginScreen.RegisterThenLogin | screens/auth/login-screen.js:164-167 | a successful registration is announced and followed by a login with the same phone and password |
| LoginScreen.FailedRegisterStops | screens/auth/login-screen.js:168-170 | a failed registration reports its error (or the default message) and never logs in |
| LoginScreen.RejectedLoginAlerts | screens/auth/login-screen.js:143-145 | a rejected login without message shows the default message and stores no session |
| LoginScreen.Validate | screens/auth/login-screen.js:150-163 | the first failing check's message; stated by `LoginScreen.MissingCredentialsRefused`, `RegisterNeedsAllFields` and `MismatchOnlyAfterEmptinessChecks` |
| LoginScreen.HandleLogin | screens/auth/login-screen.js:136-146 | store the session and navigate, or alert; stated by `LoginScreen.RejectedLoginAlerts` and `RegisterThenLogin` |
| LoginScreen.HandleSubmit | screens/auth/login-screen.js:148-174 | the submit trace; stated by `LoginScreen.OnlyValidFormsReachServices`, `RegisterThenLogin`, `FailedRegisterStops` and `LoginIgnoresNameAndConfirmation` |
| LoginScreen.LoginForm.constructor | screens/auth/login-screen.js:120-126 | empty form, login mode |
| LoginScreen.LoginForm.ChangeField | screens/auth/login-screen.js:176-177 | the form becomes the edited form and the mode is kept |
| LoginScreen.LoginForm.ToggleMode | screens/auth/login-screen.js:277 | the mode flips and the form is kept |
| LoginScreen.LoginForm.Submit | screens/auth/login-screen.js:148-174 | the early-return chain produces the trace of `HandleSubmit` |
| JsValues.OrStr | screens/public-pages/store-details-screen.js:86 | `\|\|` returns one of its operands, and a non-empty string exactly when some operand is one |
| JsValues.OrStrAssociative | screens/public-pages/store-details-screen.js:86 | a chain of `\|\|` reads the same however it is grouped |
| JsValues.OrStrFirstFilled | screens/public-pages/store-details-screen.js:86 | in `a \|\| b \|\| c` the first present, non-empty operand wins, else the last operand |
| JsValues.IdStr | components/menu-item-modal.js:26 | a nullish id becomes "" and a string id is kept |
| JsValues.IdStrNumInjective | components/menu-item-modal.js:26 | different numeric ids normalise to different strings |
| Text.TrimIgnoresPadding | components/menu-item-modal.js:21 | `trim` ignores whitespace padding on both sides |
| Text.TrimLower | components/menu-item-modal.js:21 | trimming and lower-casing commute |
| Text.LowerIdempotent | screens/public-pages/store-details-screen.js:110 | lower-casing twice is lower-casing once |
| Text.ContainsOccurs | screens/public-pages/store-details-screen.js:110 | `includes` holds exactly when the query occurs at some position |
| Text.ContainsEmpty | screens/public-pages/store-details-screen.js:110 | every name includes the empty query |
| Text.Lower | screens/public-pages/store-details-screen.js:110 | same length, each letter lower-cased; `Text.LowerIdempotent` and `TrimLower` relate it to itself and to `trim` |
| Text.Trim | components/menu-item-modal.js:21 | whitespace padding removed; stated by `Text.TrimIgnoresPadding` and `TrimLower` |
| Text.Contains | screens/public-pages/store-details-screen.js:110 | `includes`; stated by `Text.ContainsOccurs` and `ContainsEmpty` |
| Text.DecimalRoundTrip | components/menu-item-modal.js:48 | reading a printed index back gives the index |
| Text.NatToDecimalInjective | components/menu-item-modal.js:48 | different indexes print differently |
| Assoc.PutKeys | components/menu-item-modal.js:124-141 | writing an existing key keeps the key order; a new key is appended |
| Assoc.PutGet | components/menu-item-modal.js:124-141 | after writing, the key reads the new value and every other key its old one |
| Assoc.PutDistinct | components/menu-item-modal.js:124-141 | writing keeps keys distinct |
| Assoc.Put | components/menu-item-modal.js:124-141 | a key write; stated by `Assoc.PutKeys`, `PutGet` and `PutDistinct` |
| Assoc.FromEntriesKeys | screens/private-pages/cart-screen.js:23-25 | `new Map(pairs)` holds each key once, a key for every pair and none other |
| Assoc.FromEntriesLastWins | screens/private-pages/cart-screen.js:23-25 | the value kept for a key is the one written last |
| Assoc.FromEntriesFirstSeenOrder | screens/private-pages/cart-screen.js:23-25 | keys are in the order they were first written |
| Assoc.DistinctKeysBound | screens/private-pages/cart-screen.js:23-25 | a map whose keys come from a set has at most as many entries as the set |
| Assoc.FromEntries | screens/private-pages/cart-screen.js:23-25 | `new Map(pairs)`; stated by `Assoc.FromEntriesKeys`, `FromEntriesLastWins` and `FromEntriesFirstSeenOrder` |

## Left out

- Floating point: money is integer cents. Line totals are two-decimal strings in the source (`toFixed(2)`, `parseFloat`), and the model does not cover their rounding or their parsing back. Infinity and fractional numbers are not modelled either, and `Number(...)` of a string is a given `Finite`/`NaN` reading rather than a parser.
- Text handling is narrower than JavaScript's:
  - `toLowerCase` is modelled on ASCII letters only.
  - `trim` uses the listed whitespace code points.
  - strings are sequences of code points, not UTF-16 units.
  - the add-on key sort therefore compares code points. Only the equality of the sorted lists is used, and that is proved to be multiset equality whatever the order.
- Identifiers are strings throughout: item ids, add-on ids and store ids, except the raw step and option ids, which are loose values. Number ids compared with `===` against strings are not modelled.
- Add-on objects always carry string `id` and `name` fields. A missing `addons` array, or an add-on without either field, is not modelled. The source's JSON would print such a key as `null`.
- OrdersContext.Cart.AddToCart: the source mutates the matched line object in place. That object is shared with the previous state through the shallow copy. The model builds a new line, so this aliasing is not captured.
- AsyncStorage: reading, writing and JSON parsing are I/O. The model keeps only the saved payload (`Snapshot`) and its restoration (`Hydrate`, where `None` stands for nothing saved or a failed read).
- React hooks:
  - effect ordering, re-renders, `useMemo` caching and `Animated` timing are framework concerns.
  - the modal's reset effect runs on every `Open` here. Ids are always present, and closing sets the item to null, so the next item always changes `item?.id`.
- Object key order in the modal's selection: JavaScript lists integer-like keys first, and the model keeps plain insertion order.
- `handleSelectAddon`'s `g-${currentStep}` fallback key is not modelled. A normalised step always has an id.
- Login services, `alert`, `setUserData` and navigation are outcomes: the services' answers are parameters and the screen's actions a trace. The `user` effect that navigates away is not modelled. A missing `err.message` is the empty string.
- Store page loading, category scrolling, delivery fee, ETA and all layout are not modelled. `formatPrice` and `Intl.NumberFormat` are display only.
- The network services, navigators, theme and presentational components are not part of this model.
