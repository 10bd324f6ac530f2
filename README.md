# Storefront state model

A Dafny model of the client-side state of an anime-merchandise storefront
(a React application). Three components hold state:

- **The storefront controller** (`App.tsx`), modelled in `storefront.dfy`.
  It holds the view, the cart, the login flag, the cart drawer flag, the
  search text and the selected product, and changes them through named
  handlers: `addToCart` (login-gated, merge-by-id or append),
  `removeFromCart`, `handleLogin`, `handleLogout` (which empties the cart)
  and `handleSetCurrentView` (which clears the selection). The cart
  transforms and the folds `cartCount` and `cartTotal` are pure functions in
  `cart.dfy`. The static catalog, the case-insensitive name search and the
  related-products strip are in `catalog.dfy`.
- **The quantity selector of the product page**
  (`components/ProductDetails.tsx`), modelled in `product_details.dfy`. It is a
  counter clamped at one and reset when the product id changes. It supplies
  the quantity passed to `addToCart`.
- **The chat panel** (`components/AIChat.tsx`), modelled in `chat.dfy`. It
  keeps an append-only message log and a pending flag. The awaited call to
  the text-generation service is split into two steps.
  `HandleSendMessage` runs up to the await and returns the request.
  `CompleteSend` takes the outcome, either a reply text or a failure.

The storefront controller is the class `Storefront.App`.
`types.dfy` holds the records of `types.ts`. Prices are integer cents and
ratings are integer tenths. `sequences.dfy` defines order-preserving
subsequences, which are used to state what filtering keeps.
`Storefront.ShoppingSession` and `Chat.HelloExchange` are worked client
sessions. Their asserts follow from the contracts alone.

Main results:

- Ids in the cart stay pairwise distinct, and quantities stay at least one,
  under every add of at least one unit and every removal.
- A logged-in add raises `cartCount` by exactly the added quantity.
- A run of adds of one new product yields one entry whose quantity is the
  sum of the requested quantities.
- A removal deletes exactly the entry with its id and keeps the rest in
  order.
- The search result is an order-preserving subsequence of the catalog,
  containing exactly the products whose names match.
- Within one mounted chat panel, the log only grows, a blank input gives no
  send, and no send starts while a request is pending.

Two behaviours of the code are worth naming. A failed chat call appends
nothing to the log (components/AIChat.tsx:51-55), and neither does
`CompleteSend`. The cart loaded at App.tsx:29 is whatever browser storage
holds, so the model does not assume its ids are unique: every handler
instead preserves well-formedness (`old(CartWellFormed()) ==> CartWellFormed()`).

## Model

| member | source | states |
|---|---|---|
| `Storefront.App.constructor` | App.tsx:24-41 | Initial state: the home view, logged out, drawer closed, empty search, nothing selected. The cart is the stored one, or empty when storage has none or holds something unparsable. |
| `Storefront.App.CartCount` | App.tsx:90 | The badge number, `Cart.Count` of the cart. No contract of its own: `Logout`, `AddToCart` and `RemoveFromCart` state how it changes. |
| `Storefront.App.CartTotal` | App.tsx:89 | The drawer total, `Cart.Total` of the cart. No contract of its own: `Logout` sets it to 0, and `Cart.AddRaisesTotal` states how an add changes it. |
| `Storefront.App.FilteredProducts` | App.tsx:92-94 | The shop page lists exactly the catalog products whose name matches the current search text, in catalog order. |
| `Storefront.App.DetailsShown` | App.tsx:196 | The overlay condition: a product is selected and the view is not login. No contract of its own: `SelectProduct`, `CloseDetails`, `Login`, `SetCurrentView` and `AddToCart` state when it holds. |
| `Storefront.App.RelatedProducts` | App.tsx:199 | The strip handed to the detail page holds four catalog products, none with the selected id. |
| `Storefront.App.SetCurrentView` | App.tsx:49-52 | Switching view always clears the selection, so the detail overlay is hidden. Nothing else changes. |
| `Storefront.App.Login` | App.tsx:54-57 | Sets the login flag and goes to the shop view. The cart and the selection are kept, so the overlay shows again exactly when a product was selected. |
| `Storefront.App.Logout` | App.tsx:59-63 | Clears the login flag, empties the cart (count and total become 0) and goes home. The selection is kept. |
| `Storefront.App.AddToCart` | App.tsx:65-83 | Logged out: cart and drawer unchanged, view becomes login, selection kept, overlay hidden. Logged in: the cart becomes `Cart.AddItem` of the old cart, the drawer opens and the view is kept. With unique ids the count rises by exactly the quantity. A well-formed cart stays well-formed when the quantity is at least 1. |
| `Storefront.App.RemoveFromCart` | App.tsx:85-87 | The cart becomes `Cart.RemoveId` of the old cart. An absent id leaves it unchanged. The count falls by the removed units. Well-formedness is kept and nothing else changes. |
| `Storefront.App.SetSearchQuery` | App.tsx:225-226 | The search text is replaced and nothing else changes. |
| `Storefront.App.SelectProduct` | App.tsx:176 | Clicking a card selects its product. The overlay is then shown exactly when the view is not login. |
| `Storefront.App.CloseDetails` | App.tsx:200 | The back button clears the selection and hides the overlay. |
| `Storefront.App.OpenCart` | App.tsx:190 | The cart button opens the drawer. |
| `Storefront.App.CloseCart` | App.tsx:283-289 | The backdrop and the close button close the drawer. |
| `Storefront.App.GoShopping` | App.tsx:299 | Closes the drawer, goes to the shop and clears the selection. The cart and login are kept. |
| `Storefront.AddFromDetails` | App.tsx:201 | The page's request is passed to `addToCart` unchanged. The page's quantity is at least 1, so a well-formed cart stays well-formed. |
| `Storefront.AddFromRelated` | components/ProductDetails.tsx:201 | A related card adds one unit of its product through `addToCart`. The cart stays well-formed. |
| `Catalog.Trending` | App.tsx:171 | The home page shows exactly the first four catalog entries, in order. |
| `Catalog.CatalogIdsDistinct` | App.tsx:12-21 | The eight entries of the catalog constant `Catalog.Products` have pairwise distinct ids. |
| `Catalog.LowerChar` | App.tsx:93 | ASCII lower-casing: the result is never an upper-case letter, an upper-case letter moves by 32, and every other character is unchanged. |
| `Catalog.Lower` | App.tsx:93 | Lower-casing keeps the length and lowers each character. |
| `Catalog.LowerIdempotent` | App.tsx:93 | Lower-casing twice is the same as lower-casing once. |
| `Catalog.Includes` | App.tsx:93 | `includes` holds iff the query occurs at some position of the string. |
| `Catalog.NameMatches` | App.tsx:93 | The search predicate: the lower-cased name includes the lower-cased query. No contract of its own: `Includes` and `Lower` describe its parts, and `FilterByName` uses it. |
| `Catalog.FilterByName` | App.tsx:92-94 | A product is in the result iff it is in the list and its lower-cased name contains the lower-cased query. |
| `Catalog.Filter` | App.tsx:92-94 | The shop's search over the catalog. No contract of its own: `FilterByName`, `FilterIsSubsequence`, `FilterEmptyQuery` and `FilterIgnoresQueryCase` state its result. |
| `Catalog.FilterIsSubsequence` | App.tsx:92-94 | The search result is an order-preserving subsequence of the list. |
| `Catalog.FilterEmptyQuery` | App.tsx:92-94 | The empty query returns the whole list, in order. |
| `Catalog.FilterCaseInsensitive` | App.tsx:92-94 | Two queries with the same lower-cased form give the same result. |
| `Catalog.FilterIgnoresQueryCase` | App.tsx:92-94 | The shop's result for a query equals the result for its lower-cased form. |
| `Catalog.NarutoQueryFindsFigure` | App.tsx:13 | Both "naruto" and "NARUTO" find the "Naruto Rasengan Figure \| 19 CM". |
| `Catalog.WithoutId` | App.tsx:199 | The filter keeps exactly the products whose id differs from the given one. |
| `Catalog.Related` | App.tsx:199 | The first four catalog products without the selected id. No contract of its own: `RelatedProperties` states its result. |
| `Catalog.RelatedProperties` | App.tsx:199 | The related strip never holds the selected id. It holds exactly four catalog products, in catalog order. |
| `Cart.InCart` | App.tsx:74 | Some entry has the id, which is exactly when the lookup by id returns an entry. No contract of its own: `AddExisting`, `AddNew` and `RemoveAbsent` are stated with it. |
| `Cart.MergeQuantity` | App.tsx:76-78 | The map keeps the length. Each entry with the id gains the quantity and keeps its own product data. Every other entry is unchanged. |
| `Cart.AddItem` | App.tsx:73-81 | The cart an add computes. No contract of its own: `AddExisting`, `AddNew`, `AddKeepsWellFormed`, `AddRaisesCount`, `AddRaisesTotal` and `RepeatedAddsMerge` state its result. |
| `Cart.AddExisting` | App.tsx:74-79 | With unique ids, adding an id already in the cart raises only that entry's quantity. The length and every other entry are unchanged. |
| `Cart.AddNew` | App.tsx:80 | Adding a new id appends `{...product, quantity}` at the end and keeps the earlier entries. |
| `Cart.AddKeepsIdsUnique` | App.tsx:73-81 | Adding never creates a second entry for an id. |
| `Cart.AddKeepsQuantitiesPositive` | App.tsx:73-81 | Adding at least one unit keeps every quantity at least 1. |
| `Cart.AddKeepsWellFormed` | App.tsx:73-81 | Unique ids and positive quantities survive an add of at least one unit. |
| `Cart.Count` | App.tsx:90 | `cartCount`, the sum of the quantities. No contract of its own: `CountAppend`, `CountMerge`, `AddRaisesCount` and `RemoveLowersCount` state how it changes. |
| `Cart.Total` | App.tsx:89 | `cartTotal`, the sum of price times quantity. No contract of its own: `TotalAppend`, `TotalMerge` and `AddRaisesTotal` state how it changes. |
| `Cart.CountAppend` | App.tsx:90 | Appending an entry raises the count by its quantity. |
| `Cart.TotalAppend` | App.tsx:89 | Appending an entry raises the total by its price times its quantity. |
| `Cart.CountMerge` | App.tsx:76-90 | A merge raises the count by the quantity times the number of entries with the id. |
| `Cart.TotalMerge` | App.tsx:76-89 | A merge raises the total by the quantity times the summed unit prices of the entries with the id. |
| `Cart.AddRaisesCount` | App.tsx:73-90 | With unique ids, an add raises `cartCount` by exactly the requested quantity. |
| `Cart.AddRaisesTotal` | App.tsx:73-89 | With unique ids, an add raises `cartTotal` by the quantity times the unit price. On a merge that is the existing entry's price; on an append it is the added product's. |
| `Cart.RepeatedAddsMerge` | App.tsx:73-81 | Repeated adds of one product not yet in the cart leave exactly one new entry, at the end. Its quantity is the sum of the requested quantities. |
| `Cart.RemoveId` | App.tsx:86 | An entry is kept iff it was in the cart and has another id. No entry with the id remains. |
| `Cart.RemoveIsSubsequence` | App.tsx:86 | A removal keeps the remaining entries in their order. |
| `Cart.RemoveAbsent` | App.tsx:86 | Removing an absent id leaves the cart unchanged. |
| `Cart.RemoveUnique` | App.tsx:86 | With unique ids, a removal deletes exactly the one entry with the id and keeps the others in order. |
| `Cart.RemoveKeepsIdsUnique` | App.tsx:86 | A removal keeps ids unique. |
| `Cart.RemoveKeepsQuantitiesPositive` | App.tsx:86 | A removal keeps quantities positive. |
| `Cart.RemoveKeepsWellFormed` | App.tsx:86 | Unique ids and positive quantities survive a removal. |
| `Cart.RemoveLowersCount` | App.tsx:86-90 | A removal lowers the count by the units held under the id. |
| `ProductDetails.Clamp` | components/ProductDetails.tsx:35 | `max(1, quantity + delta)` is at least 1 and at least the sum, and it is either 1 or the sum. |
| `ProductDetails.StepButtons` | components/ProductDetails.tsx:134-146 | Minus at 1 leaves 1. Plus adds exactly 1. Minus above 1 takes exactly 1 away. |
| `ProductDetails.Panel.constructor` | components/ProductDetails.tsx:21-23 | The page starts with quantity 1 and an empty size and colour. |
| `ProductDetails.Panel.ChangeQuantity` | components/ProductDetails.tsx:34-36 | The quantity becomes the clamped sum, so it stays at least 1. |
| `ProductDetails.Panel.ShowProduct` | components/ProductDetails.tsx:26-32 | When the product id changes, quantity, size and colour reset to 1, "" and "". With the same id they are kept. |
| `ProductDetails.Panel.SelectSize` | components/ProductDetails.tsx:106 | The size selector replaces the size. |
| `ProductDetails.Panel.SelectColor` | components/ProductDetails.tsx:121 | The colour selector replaces the colour. |
| `ProductDetails.Panel.AddToCartClicked` | components/ProductDetails.tsx:158-169 | "Add to Cart" and "Order Now" both send the shown product with the current quantity, which is at least 1. They change nothing else. |
| `ProductDetails.Panel.RelatedAddClicked` | components/ProductDetails.tsx:201 | A related card's add sends that product with quantity 1. |
| `Chat.InitialHistory` | components/AIChat.tsx:7-13 | The log starts with exactly one message: the greeting, by the model. |
| `Chat.IsSpace` | components/AIChat.tsx:27 | The characters `trim` strips: the ECMAScript white-space and line-terminator characters. No contract of its own: it is a character set. |
| `Chat.TrimStart` | components/AIChat.tsx:27 | Strips exactly the leading white space. The result is a suffix whose first character is not white space. |
| `Chat.TrimEnd` | components/AIChat.tsx:27 | Strips exactly the trailing white space. The result is a prefix whose last character is not white space. |
| `Chat.Trim` | components/AIChat.tsx:27 | `trim()`: strips both ends. No contract of its own: `TrimStart`, `TrimEnd` and `TrimEmptyIffBlank` state its result. |
| `Chat.TrimEmptyIffBlank` | components/AIChat.tsx:27 | `trim()` gives "" iff every character is white space. |
| `Chat.ChatPanel.constructor` | components/AIChat.tsx:7-15 | The panel starts with the greeting, an empty input and nothing pending. |
| `Chat.ChatPanel.TypeInput` | components/AIChat.tsx:110-113 | Typing replaces the input, except while pending, when the input box is disabled. |
| `Chat.ChatPanel.HandleSendMessage` | components/AIChat.tsx:26-42 | Blank input: no request and no change. Otherwise the untrimmed text is appended as one user message, the input is cleared and the panel turns pending. The request carries the history from before that message and the text. The log only grows. |
| `Chat.ChatPanel.CompleteSend` | components/AIChat.tsx:42-55 | A reply appends exactly one model message with its text. A failure appends nothing. The pending flag clears on both paths and the log only grows. |
| `Chat.ChatPanel.PressEnter` | components/AIChat.tsx:111 | While pending, Enter sends nothing and changes nothing. Otherwise it behaves as `HandleSendMessage`. |
| `Chat.ChatPanel.ClickSend` | components/AIChat.tsx:116-118 | While pending or with blank input the button is disabled: no request and no change. Otherwise it sends as `HandleSendMessage`. |

## Left out

- Writing the cart to browser storage after each change (App.tsx:44-46) is left out. The JSON encoding is a foreign serialiser. Reading the cart back is modelled only as the constructor's `saved` parameter, where `None` means missing or unparsable.
- Prices are integer cents and ratings integer tenths. The source uses IEEE doubles, so its float rounding in `cartTotal` and the `toFixed(2)` display are not modelled.
- `Cart.Count` and `Cart.Total` sum from the front. `reduce` folds from the left. For integers the sums are equal.
- `prev.find(...)` is modelled by the predicate `Cart.InCart`: `find` returns an entry, which is always truthy, exactly when an entry with that id exists.
- Lower-casing covers ASCII letters only, not Unicode `toLowerCase`. `trim` uses the ECMAScript white-space and line-terminator characters.
- The text-generation service (services/geminiService.ts) is not part of this model. It is a network call. Its outcome is a parameter of `CompleteSend`, and a reply may be any string, including the service's own fallback messages.
- The send is two sequential steps, not real concurrency. `Chat.ChatPanel.CompleteSend` requires that a send is pending, because the source reaches that code only after a send has started. Under this model the history snapshot taken at render time equals the current log, because input is disabled while pending.
- Not modelled: timestamps, `alert`, `console.error`, `window.scrollTo`, `scrollIntoView`, all rendering and styling, the navigation bar, footer, login form and product card (which only forward callbacks; the login form calls `onLogin` unconditionally, which is `Login`), and the mobile-menu and password-visibility toggles.
- The size and colour selections are kept only so that the reset can be stated. They never reach the cart.
- `Storefront.App.AddToCart`: the exact count increase is stated only for carts with unique ids. The source guarantees nothing more: with duplicate ids (possible only in a cart loaded from storage) a merge raises every duplicate.
- The mounting and unmounting of components by App's conditional rendering is not modelled. `AIChat` is mounted only while the view is chat (App.tsx:262-266). Leaving that view discards the log and the pending flag, and coming back mounts a fresh `Chat.ChatPanel` with only the greeting and nothing pending, even while an earlier request is still awaited. The log-only-grows and one-request-at-a-time results therefore hold within one mounted panel only.
- Likewise `ProductDetails` is mounted only while the overlay shows (App.tsx:196-203). Showing the overlay again, for example after the logged-out add redirects to login and the user logs in, mounts a fresh `ProductDetails.Panel` with quantity 1, whatever the product id. `ShowProduct` models only a change of product while the page stays mounted.
