# Storefront logic of a Shopify headless shop, in Dafny

This project models the sequential logic under a Next.js storefront that sells
courses and products through Shopify's Storefront GraphQL API. Presentation is left
aside. What remains is modelled:

- the API client's response reshaping: edge/node connections become flat lists, and
  a missing node becomes null. It also covers the cache mode and revalidation tags
  each query or mutation carries (`Shopify`, over the records of `ShopifyTypes`);
- the same-origin cart proxy endpoints `GET`/`POST /api/cart`, `POST /api/cart/add`
  and `POST /api/cart/update`, as request-to-response decisions (`CartRoutes`, over
  the JavaScript values of `JsValue`);
- the client-side cart context: the state cells `cart`, `isLoading` and `isOpen`, and
  the stored cart id, with `initCart` (resume or create), `openCart`, `closeCart`,
  `addItem`, `updateItem` and `removeItem` (`CartContext`, a class);
- the cart drawer's rows, buttons and visible sections (`CartDrawer`);
- the product page's option selection, variant lookup, add-to-cart guard, button
  state and price (`ProductDetails`);
- the hero carousel's index arithmetic and guards (`HeroSlider`), the FAQ accordion
  (`CoursesFaq`), and the course card's three-word heading, alt text and wishlist
  toggle (`CourseCard`, over the string helpers of `Text`). The card also defines a
  `getCourseName` helper that nothing calls; it is modelled as written;
- the sitemap (`Sitemap`).

Nothing here performs I/O. Every network exchange is a parameter that stands for its
outcome: a GraphQL response, an HTTP result (`HttpOk(cart)`, `HttpNotOk`,
`FetchThrew`), or an upstream call that returns or throws (`Outcome`). The same goes
for `localStorage`, the environment variable and the clock. Each handler or state
transition reports the request it would send. That lets one lemma connect the cart
context to the proxy routes: `CartContext.ClientRequestsReachPlatform`.

JavaScript semantics are written out where the code depends on them:

- truthiness (`!cartId` rejects `""`, `0`, `null` and `undefined`);
- destructuring, which throws on `null` and `undefined`;
- destructuring defaults, which replace `undefined` only;
- `a || b` on nullable strings;
- the truncating `%`.

The model follows the code in these places:

- An empty stored cart id counts as no id, so initialisation goes straight to
  creation.
- A successful creation whose payload has a null cart sets `cart` to null. Reading
  its id then throws inside the `try`, so the stored id is kept.
- In the add route, `quantity` defaults to 1 only when it is undefined. A `null`,
  `0` or negative quantity is forwarded unchanged.
- The update route accepts `quantity: 0`.
- `userErrors` in cart mutation payloads are never looked at. A payload without a
  cart makes `reshapeCart` throw, which surfaces as the route's 500.
- The drawer's remove button calls `/api/cart/remove`. That endpoint's handler is not
  part of this model. Only the request the context sends is modelled.

## Model

| member | source | states |
|---|---|---|
| `Shopify.Nodes` | src/lib/shopify/index.ts:137 | `edges.map(edge => edge.node)`: one element per edge, in edge order, each the edge's node |
| `Shopify.NodesOfEdges` | src/lib/shopify/index.ts:137-138 | unwrapping a connection built from a list gives back that list |
| `Shopify.EdgesOfNodes` | src/lib/shopify/index.ts:137-138 | every connection is rebuilt from its nodes, so unwrapping loses nothing |
| `Shopify.ReshapeProduct` | src/lib/shopify/index.ts:134-140 | `images` and `variants` are the edge nodes in order; every other field of the product is unchanged |
| `Shopify.ReshapeProductLossless` | src/lib/shopify/index.ts:134-140 | re-wrapping a reshaped product yields the original node (the reshaper is injective) |
| `Shopify.ReshapeProductOnto` | src/lib/shopify/index.ts:134-140 | every flat product is the reshape of the node obtained by wrapping it |
| `Shopify.ReshapeCart` | src/lib/shopify/index.ts:324-329 | `lines` are the line-edge nodes in order; `id`, `checkoutUrl`, `totalQuantity` and `cost` are unchanged |
| `Shopify.ReshapeCartLossless` | src/lib/shopify/index.ts:324-329 | re-wrapping a reshaped cart yields the original node |
| `Shopify.ReshapeCartOnto` | src/lib/shopify/index.ts:324-329 | every flat cart is the reshape of the node obtained by wrapping it |
| `Shopify.GetProducts` | src/lib/shopify/index.ts:162 | one product per edge, in order, each the reshape of its node |
| `Shopify.GetProduct` | src/lib/shopify/index.ts:181-182 | null exactly when the product node is missing; otherwise a product that wraps back to that node |
| `Shopify.ListedCollection` | src/lib/shopify/index.ts:224-228 | a listed collection keeps the node's fields and has no products |
| `Shopify.GetCollections` | src/lib/shopify/index.ts:224-228 | one collection per edge, in order, each the listed form of its node |
| `Shopify.GetCollection` | src/lib/shopify/index.ts:255-262 | null exactly when the node is missing; otherwise the node's fields with its products reshaped one per edge, in order |
| `Shopify.GetCart` | src/lib/shopify/index.ts:371-372 | null exactly when the platform returns no cart; otherwise a cart that wraps back to the node |
| `Shopify.CartFromPayload` | src/lib/shopify/index.ts:352 | a cart mutation throws exactly when its payload has no cart, whatever the user errors; otherwise it returns the reshaped cart |
| `Shopify.RequestFor` | src/lib/shopify/index.ts:156-160 | the cache mode and tags each operation hands to the fetch helper: `["products"]` here, and likewise `product-<handle>` (175-179), `["collections"]` (219-222), `collection-<handle>` (249-253); `no-store` without tags for the cart calls (347-350, 365-369, 394-398, 422-426, 450-454) |
| `Shopify.CartOperationsAreNeverCached` | src/lib/shopify/index.ts:25 | an operation is sent `no-store` iff it is one of the five cart operations; the others take the `force-cache` default and are exactly the ones that carry tags |
| `Shopify.HandleTagsAreDistinct` | src/lib/shopify/index.ts:178 | two single-product or single-collection reads with equal tags are the same read (same kind and handle) |
| `JsValue.Property` | src/app/api/cart/add/route.ts:6 | destructuring throws exactly on null and undefined; a key the object has reads as its value, and a missing key or a non-object reads as undefined |
| `JsValue.Truthy` | src/app/api/cart/add/route.ts:8 | `!!v`: false, 0, "", null and undefined are falsy, everything else truthy |
| `JsValue.WithDefault` | src/app/api/cart/add/route.ts:6 | a destructuring default replaces undefined and keeps every other value, null and 0 included |
| `CartRoutes.GetCartRoute` | src/app/api/cart/route.ts:4-18 | no upstream call and 400 "Cart ID required" exactly when `cartId` is absent or empty; otherwise `getCart(cartId)`, with 200 and `{cart}` (null included) on return and 500 "Failed to fetch cart" on an exception |
| `CartRoutes.UnknownCartIsNotAnError` | src/app/api/cart/route.ts:12-13 | a cart the platform does not know yields 200 with a null cart |
| `CartRoutes.CreateCartRoute` | src/app/api/cart/route.ts:20-27 | 200 with the created cart iff creation returns; 500 "Failed to create cart" otherwise |
| `CartRoutes.AddRoute` | src/app/api/cart/add/route.ts:4-27 | unreadable body: 500; falsy `cartId` or `variantId`: 400 with no call (both directions); otherwise one call with exactly one line `{merchandiseId: variantId, quantity}`, the quantity 1 only when undefined; 200 with the cart iff the call returns, 500 "Failed to add to cart" when it throws |
| `CartRoutes.AddQuantityIsNotChecked` | src/app/api/cart/add/route.ts:6-17 | any defined quantity (zero, negative, non-numeric) is forwarded unchanged |
| `CartRoutes.UpdateRoute` | src/app/api/cart/update/route.ts:4-25 | unreadable body: 500; falsy ids or an undefined quantity: 400 with no call (both directions); otherwise one call with exactly the line `{id: lineId, quantity}`; 200 with the cart iff it returns, 500 "Failed to update cart" when it throws |
| `CartRoutes.UpdateZeroIsNotMissing` | src/app/api/cart/update/route.ts:8 | quantity 0 reaches the platform, while an absent quantity is rejected with 400 |
| `CartRoutes.GetStatusCodes` | src/app/api/cart/route.ts:4-18 | `GET` answers 200, 400 or 500, and a 400 is never accompanied by an upstream call |
| `CartRoutes.AddStatusCodes` | src/app/api/cart/add/route.ts:4-27 | the add handler answers 200, 400 or 500, and a 400 is never accompanied by an upstream call |
| `CartRoutes.UpdateStatusCodes` | src/app/api/cart/update/route.ts:4-25 | the update handler answers 200, 400 or 500, and a 400 is never accompanied by an upstream call |
| `CartContext.CartProvider.constructor` | src/context/cart-context.tsx:29-31 | no cart, not loading, drawer closed, stored id as the browser has it |
| `CartContext.CartProvider.InitCart` | src/context/cart-context.tsx:35-65 | a non-empty stored id whose fetch returns a cart resumes it (one request, stored id kept); every other case (no id, non-ok, null cart, exception) falls through to creation, which on ok sets the cart and stores the new id when there is a cart, and otherwise leaves both unchanged |
| `CartContext.CartProvider.OpenCart` | src/context/cart-context.tsx:70 | opens the drawer and changes nothing else |
| `CartContext.CartProvider.CloseCart` | src/context/cart-context.tsx:71 | closes the drawer and changes nothing else |
| `CartContext.CartProvider.AddItem` | src/context/cart-context.tsx:73-101 | without a cart, no request and no state change; otherwise sends `{cart.id, variantId, quantity ?? 1}`, replaces the cart and opens the drawer only on ok, and ends not loading |
| `CartContext.CartProvider.UpdateItem` | src/context/cart-context.tsx:103-130 | without a cart, no request and no change; otherwise sends `{cart.id, lineId, quantity}`, replaces the cart only on ok, ends not loading, never touches `isOpen` |
| `CartContext.CartProvider.RemoveItem` | src/context/cart-context.tsx:132-158 | without a cart, no request and no change; otherwise sends `{cart.id, lineId}`, replaces the cart only on ok, ends not loading, never touches `isOpen` |
| `CartContext.ResultOf` | src/context/cart-context.tsx:89-91 | the context sees a proxy response as ok iff its status is 2xx, and then takes its `cart` |
| `CartContext.ClientRequestsReachPlatform` | src/context/cart-context.tsx:79-87 | every add or update the context sends with non-empty ids passes the proxy's validation and becomes exactly one upstream line with the requested quantity |
| `CartContext.FreshSessionAdd` | src/context/cart-context.tsx:54-92 | in a fresh browser, initialisation creates and stores a cart, and the first add sends that id with quantity 1 and opens the drawer |
| `CartContext.StaleCartIdRecovers` | src/context/cart-context.tsx:38-60 | a stored id the platform no longer knows (200 with a null cart) leads to a new cart whose id replaces the stored one |
| `CartDrawer.ThumbnailOf` | src/components/cart/cart-drawer.tsx:105-116 | a picture iff the product has a featured image, with alt text `altText \|\| title` |
| `CartDrawer.LineOf` | src/components/cart/cart-drawer.tsx:94-167 | the row shows its line's thumbnail (`ThumbnailOf` the product), product title and price; its buttons act on its own line: decrement asks for `quantity - 1` and is enabled iff not loading and that is at least 1; increment asks for `quantity + 1` and remove for the line, both disabled exactly while loading; link `/products/<handle>`; variant title hidden iff it is "Default Title" |
| `CartDrawer.LinesOf` | src/components/cart/cart-drawer.tsx:94 | one row per cart line, in order |
| `CartDrawer.Render` | src/components/cart/cart-drawer.tsx:14-197 | rendered iff open; the empty message iff no cart or no lines; the rows and the footer (subtotal, checkout URL) exactly otherwise |
| `CartDrawer.IsEmpty` | src/components/cart/cart-drawer.tsx:63 | `!cart \|\| cart.lines.length === 0`, the condition that switches between the empty message and the rows plus footer (also line 174) |
| `CartDrawer.IdleDecrementsStayPositive` | src/components/cart/cart-drawer.tsx:141-142 | while idle, a row's decrement is disabled iff its quantity is at most 1, so it never requests a quantity below 1 |
| `CartDrawer.Press` | src/components/cart/cart-drawer.tsx:139-164 | a disabled button does nothing; with no cart nothing is sent or changed; otherwise an enabled button sends its update or removal for the current cart, the cart becomes the server's on ok and stays otherwise, loading ends false, and `isOpen` never changes |
| `ProductDetails.InitialSelection` | src/components/product/product-details.tsx:15-22 | the keys are exactly the option names, and each name maps to the first value of its last option (undefined for an option without values) |
| `ProductDetails.OptionChanged` | src/components/product/product-details.tsx:32-37 | the changed option holds the new value and every other key is unchanged |
| `ProductDetails.FindVariant` | src/components/product/product-details.tsx:26-30 | the first variant, in list order, all of whose options equal the selection; none iff no variant matches |
| `ProductDetails.SelectedVariant` | src/components/product/product-details.tsx:26-30 | absent iff no variant matches the selection; otherwise the first variant, in list order, that matches it |
| `ProductDetails.OptionlessVariantIsFound` | src/components/product/product-details.tsx:27-29 | a variant without options matches any selection, so the lookup stops at it or earlier |
| `ProductDetails.ButtonDisabled` | src/components/product/product-details.tsx:147 | disabled when there is no selected variant, it is not for sale, or the cart is loading |
| `ProductDetails.ButtonLabel` | src/components/product/product-details.tsx:147-154 | "Add to Cart" iff the button is enabled; "Adding..." iff loading; "Sold Out" iff idle and there is no available variant |
| `ProductDetails.DisplayedPrice` | src/components/product/product-details.tsx:98-112 | the selected variant's price and compare-at price, or the product's minimum price without a compare-at price |
| `ProductDetails.ProductPanel.constructor` | src/components/product/product-details.tsx:15-22 | the panel starts on the initial selection |
| `ProductDetails.ProductPanel.HandleOptionChange` | src/components/product/product-details.tsx:32-37 | the selection becomes the single-key update of the old one |
| `ProductDetails.ProductPanel.HandleAddToCart` | src/components/product/product-details.tsx:39-42 | with no matching variant (or no cart) nothing is sent and the cart, drawer and loading flag are unchanged; otherwise the selected variant is added with quantity 1 to the current cart, the cart becomes the server's and the drawer opens on ok, and loading ends false; the stored id never changes |
| `HeroSlider.Next` | src/components/home/hero-slider.tsx:26 | from an index in `[0, n)`: the next index, wrapping from the last to 0, always in `[0, n)` |
| `HeroSlider.Prev` | src/components/home/hero-slider.tsx:30 | from an index in `[0, n)`: the previous index, wrapping from 0 to the last, always in `[0, n)` |
| `HeroSlider.NextPrevInverse` | src/components/home/hero-slider.tsx:25-31 | previous after next, and next after previous, return to the same slide |
| `HeroSlider.AdvanceInRange` | src/components/home/hero-slider.tsx:26 | any number of steps forward stays in `[0, n)` |
| `HeroSlider.AdvanceWithoutWrap` | src/components/home/hero-slider.tsx:26 | k steps forward that do not pass the last slide land on index i + k |
| `HeroSlider.AdvanceSplits` | src/components/home/hero-slider.tsx:26 | a + b steps forward are a steps followed by b steps |
| `HeroSlider.FullCycle` | src/components/home/hero-slider.tsx:26 | n steps forward over n slides return to the starting slide |
| `HeroSlider.Slider.constructor` | src/components/home/hero-slider.tsx:22-23 | starts on slide 0, not paused |
| `HeroSlider.Slider.AutoplayRunning` | src/components/home/hero-slider.tsx:39 | the autoplay interval exists only while unpaused with more than one slide |
| `HeroSlider.Slider.ShowsNavigation` | src/components/home/hero-slider.tsx:98 | the arrows (and the dots, line 136) render only with more than one slide |
| `HeroSlider.Slider.Rendered` | src/components/home/hero-slider.tsx:45-47 | nothing is rendered iff there are no slides; otherwise the current slide |
| `HeroSlider.Slider.IndicatorTargets` | src/components/home/hero-slider.tsx:136-141 | dots exist only with more than one slide, and dot k passes index k, which is in range |
| `HeroSlider.Slider.GoToNext` | src/components/home/hero-slider.tsx:25-27 | the index becomes `Next` of the old one, pause flag kept, validity preserved |
| `HeroSlider.Slider.GoToPrev` | src/components/home/hero-slider.tsx:29-31 | the index becomes `Prev` of the old one, pause flag kept, validity preserved |
| `HeroSlider.Slider.GoToSlide` | src/components/home/hero-slider.tsx:33-35 | stores the index without a bounds check: the slider stays valid iff the index is in range |
| `HeroSlider.Slider.AutoplayTick` | src/components/home/hero-slider.tsx:38-43 | a tick happens only while unpaused with more than one slide, and advances like the next arrow |
| `HeroSlider.Slider.MouseEnter` | src/components/home/hero-slider.tsx:52 | pauses and stops autoplay, keeping the slide |
| `HeroSlider.Slider.MouseLeave` | src/components/home/hero-slider.tsx:53 | unpauses; autoplay then runs iff there is more than one slide |
| `HeroSlider.ClickIndicator` | src/components/home/hero-slider.tsx:138-141 | clicking dot k shows slide k, leaves the slider valid and keeps the pause flag |
| `CoursesFaq.Toggle` | src/components/courses/courses-faq.tsx:48 | clicking the open item closes it; clicking any other item opens that one in place of the open one |
| `CoursesFaq.AnswerShown` | src/components/courses/courses-faq.tsx:107 | item i's answer is rendered exactly when `openIndex === i` |
| `CoursesFaq.ToggleTwice` | src/components/courses/courses-faq.tsx:48 | two clicks on an item restore a closed accordion or that item, and close the accordion when another item was open |
| `CoursesFaq.LastClickDecides` | src/components/courses/courses-faq.tsx:47-49 | after any clicks, either nothing is open or the last item clicked is |
| `CoursesFaq.OpenIndexStaysInRange` | src/components/courses/courses-faq.tsx:45-49 | clicks on rendered items keep the open index among the items |
| `CoursesFaq.Accordion.constructor` | src/components/courses/courses-faq.tsx:45 | initially no answer is shown |
| `CoursesFaq.Accordion.ToggleItem` | src/components/courses/courses-faq.tsx:47-49 | the clicked item's answer flips, and no other answer is shown afterwards |
| `CourseCard.FirstCourseTag` | src/components/courses/course-card.tsx:24-26 | the first tag whose lower-case form contains "course"; none iff no tag does |
| `CourseCard.GetCourseName` | src/components/courses/course-card.tsx:22-35 | (a helper the component defines but never calls) the upper-cased first course tag; else the upper-cased title if it contains "COURSE"; else "THE <TITLE> COURSE"; in every case upper-case and containing "COURSE" |
| `CourseCard.Heading` | src/components/courses/course-card.tsx:68 | the overlay heading `split(" ").slice(0, 3).join(" ").toUpperCase()`, which holds no lower-case letter |
| `CourseCard.HeadingIsPrefixBeforeThirdSpace` | src/components/courses/course-card.tsx:68 | the heading is the upper-cased title cut just before its third space, or the whole upper-cased title when it has fewer than three spaces |
| `CourseCard.ImageAlt` | src/components/courses/course-card.tsx:47-50 | alt text exists iff there is an image; it is the image's `altText` unless that is null or empty, then the title |
| `CourseCard.WishlistButton.constructor` | src/components/courses/course-card.tsx:16 | not wishlisted initially |
| `CourseCard.WishlistButton.Click` | src/components/courses/course-card.tsx:75-79 | flips the flag |
| `CourseCard.WishlistButton.AriaLabel` | src/components/courses/course-card.tsx:81 | "Remove from wishlist" iff wishlisted, "Add to wishlist" iff not |
| `CourseCard.ClickTwice` | src/components/courses/course-card.tsx:78-81 | from any state, the first click swaps the label and the second restores both the flag and the label |
| `Text.OrElse` | src/components/courses/course-card.tsx:50 | `s \|\| fallback`: the string itself when it is non-empty, and the fallback when it is null or empty |
| `Text.Upper` | src/components/courses/course-card.tsx:27 | `toUpperCase` on ASCII: same length, each lower-case letter mapped to its capital, every other character kept |
| `Text.Lower` | src/components/courses/course-card.tsx:25 | `toLowerCase` on ASCII: same length, each capital mapped to its lower-case letter, every other character kept |
| `Text.Contains` | src/components/courses/course-card.tsx:25 | `includes`: `sub` occurs at some position of `s` (see `Text.ContainsHasPosition`) |
| `Text.ContainsHasPosition` | src/components/courses/course-card.tsx:25 | a string that includes `sub` has `sub` at some position |
| `Text.Split` | src/components/courses/course-card.tsx:68 | `split(" ")`: never empty, "" splits into one empty piece |
| `Text.SplitPieces` | src/components/courses/course-card.tsx:68 | `split(" ")` yields one more piece than there are spaces, and no piece contains a space |
| `Text.Join` | src/components/courses/course-card.tsx:68 | `join(" ")`: the pieces with one space between neighbours |
| `Text.Take` | src/components/courses/course-card.tsx:68 | `slice(0, k)`: the first k elements, or all of them when there are fewer |
| `Text.JoinSplit` | src/components/courses/course-card.tsx:68 | joining the pieces of `split(" ")` with spaces restores the string |
| `Sitemap.ReadsAreCachedCatalogueReads` | src/app/sitemap.ts:7-10 | the sitemap's two reads, `getProducts(100)` and `getCollections()`, go through the cache tagged `products` and `collections` |
| `Sitemap.SiteUrl` | src/app/sitemap.ts:4 | the environment's URL when set and non-empty, else the default deployment URL |
| `Sitemap.Modified` | src/app/sitemap.ts:14 | the record's `updatedAt` when non-empty, the current time otherwise |
| `Sitemap.CollectionEntries` | src/app/sitemap.ts:19-24 | one weekly 0.7 entry per collection, in order, at `<site>/collections/<handle>` |
| `Sitemap.ProductEntries` | src/app/sitemap.ts:12-17 | one weekly 0.8 entry per product, in order, at `<site>/products/<handle>` |
| `Sitemap.Build` | src/app/sitemap.ts:26-41 | `2 + collections + products` entries: the home page (daily, 1) and the collections index (daily, 0.9), then the collections, then the products |
| `Sitemap.ProductIsNotCollection` | src/app/sitemap.ts:13 | a product URL is never a collection URL nor the collections index |
| `Sitemap.ProductUrlInjective` | src/app/sitemap.ts:13 | equal product URLs have equal handles |
| `Sitemap.CollectionUrlInjective` | src/app/sitemap.ts:20 | equal collection URLs have equal handles |
| `Sitemap.UrlsAreDistinct` | src/app/sitemap.ts:12-41 | with handles distinct per resource type, no URL appears twice in the sitemap |

## Left out

- `shopifyFetch`, the store credentials and endpoint, and the GraphQL document strings are network I/O and query text. The reshapers and getters take the parsed response as a value instead.
- `formatPrice` is locale and floating-point formatting. Money stays a pair of uninterpreted strings.
- The sort in `courses-grid.tsx` compares prices with `parseFloat` and titles with locale-aware comparison. Neither has a faithful model over strings here.
- `localStorage`, `fetch` and `console.error` are not modelled as effects. The stored id is a field, and each fetch's outcome is a parameter.
- Concurrent cart mutations whose responses race are not modelled. Each context operation is one atomic step, so "last response wins" interleavings are outside the model.
- The `/api/cart/remove` route handler is not part of this model. Only the remove request the context sends is modelled.
- The cart id is put into `/api/cart?cartId=...` without URL encoding. The model assumes the proxy reads back the same id.
- Numbers are integers. NaN, fractional quantities and `-0` are not represented.
- `toUpperCase`/`toLowerCase` are modelled on ASCII letters only. Unicode case mapping (for example `ß` to `SS`) is out of scope.
- The autoplay interval's timing (5000 ms, `setInterval`/`clearInterval`) is not modelled. One tick is one call of `AutoplayTick`.
- HeroSlider.Slider.Rendered requires a valid index. After an out-of-range `goToSlide` argument, `currentSlide` would be undefined and reading its `link` would throw during render; that failure is not modelled. Only the indicator dots call `goToSlide`, and they pass in-range indices (`HeroSlider.ClickIndicator`).
- The product page's image gallery index (`selectedImageIndex`), framer-motion animation props, and the header's cart badge timer are presentation. So are the page layouts, `robots.ts` and the remaining components.
- The sitemap does not parse `updatedAt` into a date. The text is kept as the entry's timestamp, and `new Date()` is the marker `Now`.
- A cart's `totalQuantity` and cost are taken from the platform as given. Nothing here checks them against the lines.
