# GrimHide storefront cart — a Dafny model

The GrimHide shop has five page scripts. Each one keeps a shopping cart of
its own, and most of them share it through the browser's `localStorage`:

- `js/main.js`, the storefront: a header cart drawer, the image lightbox,
  and search, category filter and sort over the product grid;
- `js/products.js`, the listing page: category chips, live search, a price
  and name sort, and its own copy of the drawer;
- `js/cart.js`, the cart page: it loads the cart on every action, edits it,
  saves it, and shows item count, subtotal, 8% tax and total;
- `js/product-detail.js`, the product page: one cart line per product,
  colour and size, kept under its own key `grimhide_cart` in its own line
  shape (`cartItemID`, `quantity`);
- `js/login.js`, the sign-in page: login flags written into the key-value
  store and read back by the header and the checkout button.

The copies do not agree with one another:
- main.js and products.js clamp a decrement at one, but cart.js and
  product-detail.js remove a line that falls to zero;
- product-detail.js uses another key and another line shape.

The model keeps each copy as written, one module per script.

Conventions:
- Shared building blocks live in their own modules:
  - `Basics`: `findIndex`, `filter` and `reduce` over keyed lines;
  - `Text`: ASCII case mapping, `indexOf`/`includes`, `split(c)[0]`, and a
    lexicographic comparison;
  - `Sorting`: a stable sort, and the in-place array call;
  - `Storage`: a stored text, known only by what `JSON.parse` makes of it;
  - `CartLines`: the `{id, name, price, img, qty}` line the other three
    pages share, and its edits.
- Money is integer cents, except on the listing page (products.js), where a card's price is `parseInt(data-price) || 0` in whole currency units. cart.js's tax and total are `real`.
- State the scripts change in place is a class:
  - the in-memory `cart` is a `seq` field;
  - `localStorage` is a `map` field;
  - each handler is a method whose `ensures` gives the new cart and the new
    store in terms of a specification function, and lemmas prove what that
    function promises.
- View logic that only computes is functions and lemmas.
- Loops that the scripts run become `while` loops with invariants.

## Model

| member | source | states |
|---|---|---|
| `Basics.FindIndex` | js/product-detail.js:166 | `findIndex`: the first index whose key matches, or -1 exactly when no line has the key |
| `Basics.WithoutKey` | js/product-detail.js:193 | `filter`: no kept line has the key, and the result is no longer than the input |
| `Basics.WithoutKeyMembers` | js/product-detail.js:193 | every kept line comes from the input, and every input line with another key is kept |
| `Text.Lower` | js/products.js:103 | lower-casing keeps the length and maps each character |
| `Text.IndexOf` | js/main.js:375 | `indexOf`: the first position where the term occurs, or -1 when it occurs nowhere |
| `Text.BeforeFirst` | js/login.js:205 | `split('@')[0]`: a prefix of the text holding no separator, which is followed by the separator when it is shorter than the text |
| `Text.BeforeFirstStops` | js/login.js:205 | splitting `p + c + rest` on `c` gives `p` when `p` holds no `c` |
| `Text.Compare` | js/products.js:84 | the name comparison behind `localeCompare`: -1, 0 or 1, and 0 exactly for equal names |
| `Sorting.Sort` | js/products.js:72-90 | the sorted cards are a permutation of the input, of the same length |
| `Sorting.SortSorted` | js/main.js:392 | under a total preorder comparator the output is in order |
| `Sorting.SortAllTied` | js/products.js:87-88 | a comparator that returns 0 for every pair keeps the original order |
| `Sorting.SortInPlace` | js/products.js:72 | after the in-place sort the array holds the sorted permutation of its old contents |
| `Storage.Stringify` | js/cart.js:20 | `JSON.stringify` of an array is a text that parses back to the same array |
| `Storage.ParseOrEmptyArray` | js/cart.js:9 | the parse with the `'[]'` fallback: a missing key and an empty text both read as `[]`, a malformed text (and only that) throws, and any other text gives its parsed value |
| `CartLines.StartupCart` | js/main.js:59 | the start-up load: a missing key or an empty text gives `[]`, a stored array starts the page with exactly that cart, and a malformed text or a non-array value stops the script |
| `CartLines.AddOneShape` | js/main.js:334-339 | add: the existing line with the id gains one unit, keeping its price and name, or one `{id,name,price,img,qty:1}` is appended; no other line changes |
| `CartLines.AddOneSums` | js/main.js:334-339 | add raises the count by one and the subtotal by the unit price of the receiving line |
| `CartLines.AddOneKeepsInvariants` | js/products.js:252-263 | after an add a line with the id exists; unique ids stay unique; quantities stay at least one |
| `CartLines.IncAtSums` | js/main.js:247 | `qty++`: the line becomes itself with one more unit (id, name, price and image kept), count rises by one and subtotal by its price; no other line changes |
| `CartLines.DecAtClamps` | js/main.js:248 | the line becomes itself with quantity `max(1, qty-1)` (other fields kept), is never removed, and the count drops by one unless the line was at one; no other line changes |
| `CartLines.RemoveIdFacts` | js/main.js:249 | remove leaves no line with the id and an absent id changes nothing; with unique ids exactly that line leaves, the rest in order, and its units and value leave the sums |
| `Cart.LoadCart` | js/cart.js:7-15 | `loadCart()` gives `[]`, or the array stored under `grimhide_cart_v1` |
| `Cart.SaveCart` | js/cart.js:18-24 | `saveCart` writes the serialised cart under the cart key and leaves every other key as it was |
| `Cart.LoadCartFailsSafe` | js/cart.js:7-15 | a missing key, an empty or malformed text, or a non-array value all load as `[]`; a stored array loads as itself |
| `Cart.SaveThenLoad` | js/cart.js:9-20 | `saveCart` then `loadCart` gives back the same array |
| `Cart.LoadSaveLoad` | js/cart.js:9-20 | saving what was loaded and loading again gives the same cart |
| `Cart.AdjustedKeepsInvariants` | js/cart.js:141-156 | `updateQuantity` never stores a quantity at or below zero, and keeps ids unique |
| `Cart.AdjustedEffect` | js/cart.js:141-156 | with `i` the first index of the id: a known id above zero gives that line `qty + change` with its other fields and every other line kept (count moves by change); at zero or below the id is filtered out, and with unique ids exactly that line leaves and the rest keep their order; an unknown id leaves the cart unchanged |
| `Cart.Tax` | js/cart.js:101 | tax is exactly 8% of the subtotal, never negative for a non-negative subtotal |
| `Cart.Total` | js/cart.js:102 | total is subtotal plus tax, i.e. 108% of the subtotal |
| `Cart.EmptySummary` | js/cart.js:44-57 | an empty cart shows a count, subtotal, tax and total of zero |
| `Cart.CartPage.Save` | js/cart.js:18-24 | the store after `saveCart(cart)` |
| `Cart.CartPage.RemoveFromCart` | js/cart.js:133-138 | the stored cart becomes the loaded cart without the id |
| `Cart.CartPage.UpdateQuantity` | js/cart.js:141-157 | an unknown id leaves the store as it was; otherwise the stored cart becomes the adjusted one, through the reload-and-filter path when the quantity reaches zero |
| `Cart.CartPage.Summary` | js/cart.js:32-107 | item count, subtotal, tax and total of the stored cart; the loop sum equals the subtotal |
| `Cart.CartPage.Checkout` | js/cart.js:171-179 | checkout proceeds exactly when the loaded cart is non-empty |
| `Storefront.Clamp` | js/main.js:6 | for a <= b the result lies in [a, b], and it equals v when v is already in range |
| `Storefront.LightboxPrev` | js/main.js:171 | `prev` stays in [0, n), steps back by one, and wraps from 0 to the last image |
| `Storefront.LightboxNext` | js/main.js:172 | `next` stays in [0, n), steps on by one, and wraps from the last image to 0 |
| `Storefront.LightboxRoundTrip` | js/main.js:171-172 | `next` then `prev`, or `prev` then `next`, returns the original index |
| `Storefront.BuildEntry` | js/main.js:360-365 | an index entry: the lower-cased name (or heading), the parsed price or 0 when parsing fails, the category `data-cat` or `'all'` when that is empty, and no score yet |
| `Storefront.ScoreFacts` | js/main.js:375 | the score is 100 minus the first position of the term, or 0 when the name lacks it; the empty term scores 100 |
| `Storefront.ShownIff` | js/main.js:373-377 | a card is shown iff its category matches and the term occurs in its name before position 100; with the empty term, iff the category matches |
| `Storefront.VisibleEntries` | js/main.js:384 | every kept entry is shown and from the index; every shown entry is kept |
| `Storefront.VisibleEntriesAppend` | js/main.js:384 | the filter keeps index order: two runs of cards filter to the first run's visible entries followed by the second's |
| `Storefront.VisibleEntriesExtremes` | js/main.js:384 | with every card shown the visible entries are the whole index in order; with none shown there are none |
| `Storefront.BeforeIsPreorder` | js/main.js:385-391 | each of the five comparators is a total preorder |
| `Storefront.SortedMeans` | js/main.js:385-392 | sorted under `lh` means non-decreasing price, under `hl` non-increasing price, under `pop` non-increasing score, and name order under `az`/`za` |
| `Storefront.ApplySort` | js/main.js:382-393 | the new order is a sorted permutation of the visible entries; an unknown key sorts by score |
| `Storefront.PerformSearch` | js/main.js:368-380 | the term is the lower-cased query and the category the active chip's or `'all'`; every entry gets its score and display state for them, and the display order is the stable sort of the shown entries |
| `Storefront.InitialCart` | js/main.js:59 | a missing key or an empty text starts an empty cart, a stored array starts with exactly that cart, a malformed text or a non-array value stops the script, and a loaded cart is what the cart page would load |
| `Storefront.StorefrontPage.constructor` | js/main.js:58-59 | start-up: the cart is loaded, the initial `refreshCart()` saves it, and the store agrees with it |
| `Storefront.StorefrontPage.RefreshCart` | js/main.js:256 | `refreshCart()` writes the cart under `grimhide_cart_v1` |
| `Storefront.StorefrontPage.AddToCart` | js/main.js:324-340 | the cart after an add, saved |
| `Storefront.StorefrontPage.Increment` | js/main.js:247 | the row gains one unit, saved |
| `Storefront.StorefrontPage.Decrement` | js/main.js:248 | the row is clamped down by one, saved |
| `Storefront.StorefrontPage.Remove` | js/main.js:249 | every line with the row's id goes, saved |
| `Storefront.StorefrontPage.CartTotals` | js/main.js:210-228 | the header count is the sum of quantities, and the drawer subtotal is the sum of price × qty (0 for an empty cart) |
| `Products.FilterByCategory` | js/products.js:53-61 | a card is shown iff the chip is `'all'` or names the card's category |
| `Products.Search` | js/products.js:102-113 | a card is shown iff its lower-cased name contains the lower-cased term |
| `Products.EmptySearchShowsAll` | js/products.js:103-107 | the empty term shows every card |
| `Products.BeforeIsPreorder` | js/products.js:72-90 | the listing comparator is a total preorder for every sort key |
| `Products.SortCards` | js/products.js:68-97 | the order is the stable sort of the cards under the chosen comparator: a permutation, `lh` ascending and `hl` descending by price, and an unknown key keeps document order |
| `Products.IncIdFacts` | js/products.js:209-218 | with `i` the first index of the id: an unknown id changes nothing; otherwise that line gains one unit keeping its other fields, count rises by one and subtotal by its price, and no other line changes |
| `Products.DecIdFacts` | js/products.js:220-229 | with `i` the first index of the id: an unknown id changes nothing; otherwise that line takes `max(1, qty-1)` keeping its other fields, is never removed, and no other line changes |
| `Products.ProductsPage.constructor` | js/products.js:134-135 | the cart is loaded; nothing is saved yet |
| `Products.ProductsPage.SaveCart` | js/products.js:233-237 | `saveCart()` writes the cart key |
| `Products.ProductsPage.AddToCart` | js/products.js:240-265 | the cart after an add, saved |
| `Products.ProductsPage.Remove` | js/products.js:201-206 | the lines with the id are filtered out, saved |
| `Products.ProductsPage.Increment` | js/products.js:209-218 | the first line with the id gains one, saved; an unknown id neither edits nor saves |
| `Products.ProductsPage.Decrement` | js/products.js:220-229 | the first line with the id is clamped down by one, saved; an unknown id neither edits nor saves |
| `Products.ProductsPage.CartTotals` | js/products.js:146-175 | the count is the sum of quantities, and the subtotal is the sum of price × qty |
| `ProductDetail.CartItemIDInjective` | js/product-detail.js:149-151 | the key `productId-color-size` tells variants apart when ids and colours hold no dash |
| `ProductDetail.Selected` | js/product-detail.js:159-160 | no checked input, or an empty one, gives the default (Black, M); the result is never empty |
| `ProductDetail.MergeShape` | js/product-detail.js:163-183 | `Merge`: an existing variant gains exactly `quantity`, keeping price, name and the other lines; a new one appends one line keyed `productId-color-size` at the base price; nothing is ever removed |
| `ProductDetail.MergeSums` | js/product-detail.js:166-183 | `Merge`: the count rises by `quantity`, and the total by `quantity` times the unit price |
| `ProductDetail.MergeKeepsInvariants` | js/product-detail.js:165-183 | `Merge`: variant keys stay unique, a line for the variant exists, and quantities stay positive when a positive amount is added |
| `ProductDetail.ChangeQuantityRemoves` | js/product-detail.js:202-205 | `ChangeQuantity` at zero or below: the line is spliced out, the rest in order, its units and value leave the sums, and with unique keys no line of the id is left |
| `ProductDetail.ChangeQuantityUpdates` | js/product-detail.js:200-202 | `ChangeQuantity` above zero: only that line's quantity moves, by exactly `change`, and count and total move with it |
| `ProductDetail.ChangeQuantityKeepsInvariants` | js/product-detail.js:199-209 | `ChangeQuantity`: an unknown id changes nothing; unique keys and quantities of at least one are kept |
| `ProductDetail.RemoveItemFacts` | js/product-detail.js:192-196 | no line with the key is left; with unique keys exactly that line goes, the rest in order, and the sums drop by its units and value |
| `ProductDetail.StartupCart` | js/product-detail.js:141 | a missing key gives `[]`; an empty or malformed text throws; a saved array reloads as itself |
| `ProductDetail.QtyOrOne` | js/product-detail.js:493 | `parseInt` with the fallback 1 is never 0: it gives 1 for NaN or 0, and the parsed value otherwise |
| `ProductDetail.QtySelectorBounds` | js/product-detail.js:547-563 | − and + keep a value in [1, 10] within [1, 10], stop at the ends, and undo each other; an unreadable field steps up to 2 |
| `ProductDetail.FirstActive` | js/product-detail.js:599 | the first active thumbnail, or -1 when none is active |
| `ProductDetail.GalleryTarget` | js/product-detail.js:596-611 | with thumbnails present the new index is in [0, n), including when none is active; with none there is no target |
| `ProductDetail.OnlyActive` | js/product-detail.js:411-414 | clicking a thumbnail leaves exactly that one active |
| `ProductDetail.GalleryRoundTrip` | js/product-detail.js:599-609 | with no thumb active, prev lands on the last and next on the first; next then prev, or prev then next, returns |
| `ProductDetail.DetailPage.constructor` | js/product-detail.js:141 | the cart loaded at start-up; reloading would read the same cart |
| `ProductDetail.DetailPage.SaveCart` | js/product-detail.js:144-146 | `saveCart()` writes `grimhide_cart` |
| `ProductDetail.DetailPage.AddToCart` | js/product-detail.js:154-189 | unknown product: nothing changes; otherwise the merged cart with the selected (or default) variant, saved |
| `ProductDetail.DetailPage.BuyNow` | js/product-detail.js:214-250 | unknown product: nothing changes; otherwise the cart, whatever it held, is exactly the one new line for the selected colour and size (variant key, product id, name, base price, image, requested quantity), saved so that a reload gives it back |
| `ProductDetail.DetailPage.RemoveFromCart` | js/product-detail.js:192-196 | the filtered cart, saved |
| `ProductDetail.DetailPage.UpdateCartItemQuantity` | js/product-detail.js:199-209 | the changed cart, saved only when the id was found |
| `ProductDetail.DetailPage.CartUI` | js/product-detail.js:255-311 | the badge count is the sum of quantities and shows iff positive; the drawer total is the sum of price × quantity (0 when empty) |
| `ProductDetail.DetailPage.ProceedToCheckout` | js/product-detail.js:617-633 | checkout is reached exactly when the cart is non-empty |
| `Login.Classify` | js/login.js:32-34 | an empty email or password is an error; the admin branch runs exactly for the admin credentials |
| `Login.CheckoutTarget` | js/login.js:110-119 | checkout exactly when `isLoggedIn` is `'true'`, otherwise the login page |
| `Login.Capitalize` | js/login.js:71 | only the first character is upper-cased |
| `Login.AdminSubmitWrites` | js/login.js:34-38 | admin: `isAdmin`, `isLoggedIn` and `userEmail` are set; `rememberMe` and every other key are untouched |
| `Login.UserSubmitWrites` | js/login.js:46-54 | regular user: `isLoggedIn='true'`, `userEmail=email`, `isAdmin='false'`; `rememberMe='true'` only when ticked, and never cleared |
| `Login.MissingFieldsWriteNothing` | js/login.js:63-65 | an empty field writes nothing |
| `Login.LoginUnlocksCheckout` | js/login.js:32-54 | after a successful sign-in, checkout opens and the header shows the email's part before the first '@' |
| `Login.RememberRoundTrip` | js/login.js:210-217 | `RememberedEmail`: a remembered regular sign-in pre-fills that email next time |
| `Login.SocialLoginEffect` | js/login.js:75-77 | a social sign-in sets `isLoggedIn='true'`, `userEmail='user@'+p+'.com'` and `loginMethod=p`, adds no other key and keeps every other key's value; the header then shows "user" and checkout opens |
| `Login.LoggedOutGates` | js/login.js:202-208 | `HeaderStatus` and `CheckoutTarget` when not logged in: the header reads "Login" and checkout sends the visitor to the login page |
| `Login.AccountFallback` | js/login.js:205 | `HeaderStatus` when logged in without an email: the header reads "Account" |
| `Login.ToastIconMapping` | js/login.js:161-177 | `ToastIcon`: success, error, warning and info have their icons; all other types get `info-circle` |
| `Login.CapitalizeFacts` | js/login.js:71 | capitalising is idempotent and leaves every character but the first alone |
| `Login.LoginPage.Submit` | js/login.js:18-67 | the outcome of the submission, and the store after its writes |
| `Login.LoginPage.SocialLogin` | js/login.js:70-85 | the store after the social sign-in, and the provider label of its toasts |

## Left out

- Rendering, animation, toasts, the mobile menu, focus trapping, timers and page navigation are DOM work. A navigation is modelled as the returned target or flag.
- `JSON.parse`/`JSON.stringify` internals: a stored text is known only by its parse outcome. Array elements are taken to be cart lines as written.
- `parseFloat`/`parseInt`: parsed prices and quantities are parameters. So `NaN` prices, and prices with fractions of a cent, are not modelled.
- Floating-point money and `toFixed` rounding: money is integer cents and tax is an exact `real`.
- Unicode: `toLowerCase`/`toUpperCase` act on ASCII letters only, and `normalize('NFD')` with the accent strip is not modelled.
- `localeCompare` is modelled by code-unit lexicographic comparison.
- Writes to `localStorage` always succeed; cart.js's caught write error is not modelled.
- cart.js's promo-code handler only raises alerts.
- product-detail.js's `loadProduct` rendering is left out, including its `p1` fallback and the rounded discount percentage, because it only fills the page.
- Storefront.ScoreKey: an unscored entry ties under `pop`, because `undefined - undefined` is `NaN`, which `sort` treats as equal.
- The scripts run on separate pages. Only cross-page facts that follow from one page's saves are stated, such as "the cart page would load this cart".
- main.js and products.js keep an in-memory `cart`. It is never re-read from the store, so a cart changed by another page is not picked up.
- Attributes the scripts read as `undefined` are modelled as the empty string, in `data-*` values, checked inputs and the value of a missing search box.
- ProductDetail.StartupCart: a stored truthy non-array value is modelled as a dead page (`None`), so `DetailPage` cannot be built from it. In product-detail.js only the later `updateCartUI()` at start-up (js/product-detail.js:566) throws. The listeners registered before it keep working: `buyNow` replaces the value with a one-line cart and saves it, and `proceedToCheckout` goes on because `cart.length === 0` is false for it. No page ever writes such a value, so only a tampered store reaches that state.
- The login handler's one-second delay and password visibility toggle are timing and DOM work.
