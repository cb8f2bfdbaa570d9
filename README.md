# SwiftCart cart store in Dafny

This project models the client-side cart of the SwiftCart storefront (`js/index.js`). It also models two pure display helpers from the same file.

- **Cart record.** The cart lives in browser local storage under the key `"swiftcart"` as `{items: [...]}`. Each line item is `{id, title, price, image, quantity}`. Storage is modelled as a `map<string, Cart>`, and a missing key reads as an empty cart.
- **Operations.** The operations are `getCart`, `saveCart`, page-load initialisation, `addToCart`, `removeFromCart`, `updateCartItemQuantity`, `clearCart`, `getCartItemCount`, the count in `updateCartCount`, and the exact part of `calculateCartTotals`. They are methods of the class `CartStore.LocalCartStore`, and each one keeps the source's read, modify and write-back shape and its loops. Each mutating method is proved against a pure function of the module `CartModel`: `AddProduct`, `Remove`, `UpdateQuantity` or `EmptyCart`. The reading methods are proved against `TotalQuantity`, `Subtotal` and `CartTotals`.
- **Proved properties.** The cart invariant says there is at most one line per product id and every quantity is at least 1. It is proved preserved by every mutating operation: initialisation, addToCart, removeFromCart, updateCartItemQuantity and clearCart. `saveCart` writes whatever cart it is given, so it keeps the invariant only when its argument has it. Other proofs cover:
  - the exact effect of each operation on the lines;
  - the effect of `addToCart` on the item count and the subtotal;
  - order preservation by `removeFromCart`;
  - repeated addition of one product;
  - the storage round trip.
- **Helpers.** `truncateText` is `Text.TruncateText`. The category-pill filter is `Catalog.FilterByCategory`.
- **Money.** Money is an exact `real`. Tax is exactly one tenth of the subtotal, shipping is 0, and the total is their sum.

Files: `catalog.dfy` (module `Catalog`), `text.dfy` (module `Text`), `cart.dfy` (module `CartModel`), `store.dfy` (module `CartStore`).

## Model

| member | source | states |
|---|---|---|
| `CartModel.FirstIndex` | js/index.js:179-185 | None exactly when no line has the id; otherwise the index of a line with the id before which no line has it (the index the search loop breaks at) |
| `CartModel.FirstIndexIsOnly` | js/index.js:179-185 | in a cart with unique ids the first matching line is the only matching line |
| `CartModel.AddProduct` | js/index.js:174-201 | new id: exactly one line appended at the end, copying id/title/price/image with quantity 1, earlier lines unchanged; present id: same length, the first matching line's quantity is one higher and every other line is unchanged |
| `CartModel.Without` | js/index.js:216-218 | the filter result is no longer than the input, contains exactly the input's lines whose id differs, and equals the input when the id is absent |
| `CartModel.Remove` | js/index.js:211-220 | after removal no line has the id, the remaining lines are exactly the others, and an absent id leaves the cart unchanged |
| `CartModel.WithoutAppend` | js/index.js:216-218 | the filter distributes over concatenation, so the kept lines stay in their original relative order |
| `CartModel.UpdateQuantity` | js/index.js:228-251 | below 1 it is exactly removal; at 1 or more an absent id changes nothing, otherwise only the first matching line's quantity becomes the new value and length, order and all other lines are unchanged |
| `CartModel.AddProductValid` | js/index.js:179-201 | adding keeps at most one line per id and every quantity at least 1 |
| `CartModel.WithoutKeepsUniqueIds` | js/index.js:216-218 | filtering a list with unique ids leaves unique ids |
| `CartModel.RemoveValid` | js/index.js:211-220 | removal keeps the cart invariant |
| `CartModel.UpdateQuantityValid` | js/index.js:228-251 | setting a quantity keeps the cart invariant, both in the removal branch and in the setting branch |
| `CartModel.AddTimesFromEmpty` | js/index.js:179-201 | adding the same product n ≥ 1 times to an empty cart gives a single line with quantity n |
| `CartModel.TotalQuantityReplace` | js/index.js:327-336 | replacing one line changes the item count by the difference of the two quantities |
| `CartModel.SubtotalReplace` | js/index.js:282-286 | replacing one line changes the subtotal by the difference of the two line totals |
| `CartModel.AddProductCount` | js/index.js:174-201 | every addToCart raises the item count by exactly one |
| `CartModel.AddProductSubtotal` | js/index.js:174-201 | every addToCart raises the subtotal by one unit's price: the snapshotted line price when the product is already present, the product's price otherwise |
| `CartModel.CountAtLeastLines` | js/index.js:327-336 | with every quantity at least 1 the item count is at least the number of lines |
| `CartModel.EmptyCartAggregates` | js/index.js:282-303 | an empty cart counts 0 items and has all four totals 0 |
| `CartModel.TotalIsSubtotalPlusTax` | js/index.js:290-295 | for every cart, tax is one tenth of the subtotal, shipping is 0, and total is 1.1 times the subtotal |
| `CartModel.SubtotalNonNegative` | js/index.js:282-295 | with no negative price and no negative quantity, the subtotal is non-negative and the total is at least the subtotal |
| `CartStore.LoadAfterSave` | js/index.js:255-273 | a saved cart reads back unchanged, and no other storage key changes |
| `CartStore.SaveLoadedIsInvisible` | js/index.js:255-273 | writing back what was read changes nothing readable, and nothing at all when a record exists |
| `CartStore.LocalCartStore.InitializeCart` | js/index.js:160-170 | an existing record is left alone; a missing one becomes an empty cart; the cart read afterwards is the same as before |
| `CartStore.LocalCartStore.GetCart` | js/index.js:255-263 | returns the stored record, or the empty cart when there is no record |
| `CartStore.LocalCartStore.SaveCart` | js/index.js:267-273 | storage equals the old storage with the cart key overwritten, and the cart reads back as saved |
| `CartStore.LocalCartStore.AddToCart` | js/index.js:174-207 | storage becomes the old storage with the record replaced by `AddProduct` of the old cart; the invariant is preserved and the item count rises by one |
| `CartStore.LocalCartStore.RemoveFromCart` | js/index.js:211-224 | storage becomes the old storage with the record replaced by `Remove` of the old cart; the invariant is preserved |
| `CartStore.LocalCartStore.UpdateCartItemQuantity` | js/index.js:228-251 | storage becomes the old storage with the record replaced by `UpdateQuantity` of the old cart, written back even when the id is absent; the invariant is preserved |
| `CartStore.LocalCartStore.ClearCart` | js/index.js:308-323 | storage becomes the old storage with the record replaced by the empty cart, which then reads back as empty |
| `CartStore.LocalCartStore.GetCartItemCount` | js/index.js:327-336 | returns the sum of the quantities, which is 0 for an empty cart and at least the number of lines for a valid cart |
| `CartStore.LocalCartStore.UpdateCartCount` | js/index.js:3-13 | the badge count is the sum of the quantities; for a valid cart it is positive exactly when the cart has a line |
| `CartStore.LocalCartStore.CalculateCartTotals` | js/index.js:277-303 | subtotal is Σ price × quantity, tax is subtotal × 0.1, shipping is 0, and total is subtotal + tax + shipping |
| `Text.TruncateText` | js/index.js:150-156 | text no longer than the limit is returned unchanged; longer text becomes its first max(limit, 0) characters followed by "...", of length max(limit, 0) + 3 |
| `Catalog.ToLower` | js/index.js:610 | same length; every upper-case ASCII letter is mapped to its lower-case letter, every other character is kept, and no upper-case letter remains |
| `Catalog.ToLowerIdempotent` | js/index.js:610 | lower-casing twice equals lower-casing once |
| `Catalog.MatchingCategory` | js/index.js:608-612 | keeps exactly the products whose category equals the selected one up to case |
| `Catalog.FilterByCategory` | js/index.js:602-612 | "all" keeps the whole list; any other value keeps exactly the products whose category matches up to case |
| `Catalog.MatchingCategoryAppend` | js/index.js:608-612 | the filter distributes over concatenation, so products keep their list order |
| `Catalog.FilterIgnoresCase` | js/index.js:608-612 | two selected values other than "all" that are equal up to case select the same products |

## Left out

- Network fetchers (`fetchAllProducts`, `fetchProductsByCategory`, `fetchProductById`, `fetchCategories`) and the `addProductToCart` promise chain: network I/O and promise plumbing.
- DOM rendering (product cards, the detail modal, the cart page, badges shown or hidden, active pill, the "Added to cart!" alert): presentation only. `UpdateCartCount` returns the count that decides whether a badge is shown.
- `formatPrice` and the `toFixed(2)` rounding in `calculateCartTotals`: IEEE-754 formatting. `CalculateCartTotals` returns the exact figures before rounding, and prices are exact reals rather than doubles.
- `JSON.stringify` and `JSON.parse`: the storage holds cart values with a perfect round trip. A corrupt stored record is not modelled because the source leaves that case undefined.
- Cross-tab writes to local storage, where the last write wins: an environment effect.
- Catalog.ToLower: maps only the ASCII letters A-Z, while `toLowerCase` covers all of Unicode.
- Text.TruncateText: lengths count Dafny characters, while JavaScript counts UTF-16 code units. A non-integer limit is not modelled.
- Line items are values. Each `getCart` parses a fresh object, so the source's in-place update of `cart.items[i].quantity` cannot be observed through aliasing.
- The `if (cart && cart.items)` guard in `updateCartCount` always holds in the model, because a cart always has an item sequence.
- JavaScript numbers: ids and quantities are unbounded integers, so non-integer ids and quantities and float overflow are not modelled.
- The product rating: the cart never reads it.
