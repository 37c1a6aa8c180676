# A verified model of the hex-demo storefront client

hex-demo is the browser side of a web shop written with Next.js. This
project models its core in Dafny and proves properties of the model:

- the cart and the wishlist, kept in cookies as percent-encoded JSON;
- the cookie and local-storage helpers;
- the API client: bearer tokens, token refresh, the 401 retry and logout;
- the analytics identifier and the synchronisation of cart and wishlist
  with the server;
- the cart and wishlist contexts;
- the cached store settings;
- the product and blog infinite-scroll hooks;
- the product listing page: URL parameters, price ranges and filters;
- the attribute filter list and the filter header;
- the search and category modals;
- the cart summary;
- the checkout page with its email verification, phone-number list and
  address selector;
- the account page;
- the wishlist page.

Each source file is one module, except `src/lib/api-service.ts`: its
token exchange (`exchangeCodeForTokens`) is the module `TokenExchange`,
apart from the module `ApiService`, because it drives the analytics merge
and the two providers, which themselves depend on `ApiService`. The modules `Wrappers`, `Strings`,
`JsonDoc`, `JsNumber`, `Lists`, `Paging`, `Catalog` and `Colors` model the
JavaScript built-ins and the shared types those files rely on.

Code that is pure, such as the list operations of `src/lib/cart.ts` or the
price summary of the listing, is modelled as functions with lemmas about
them. Code that changes state is modelled as classes whose methods say what
they change, checked against functions of the old state. That covers the
cookie jar, the API session, the React components and their hooks.

React state held by a component is a field of its class. An effect or an
event handler is a method. A request whose reply the code awaits takes that
reply as a parameter. The requests sent are recorded in a `sent` or
`requests` field.

Several things are modelled as data rather than performed:

- The network is a queue of replies held by `ApiService.Session`. A request
  whose reply is read takes the next one; an empty queue means no response.
- The clock is the `now` field of `ClientStore.Store`.
- Whether a browser window exists is its `browser` field.
- Identifiers the browser generates are parameters.

Cookie and local-storage values are of type `JsonDoc.Text`:

- `Encoded(doc)` is the percent-encoded JSON text that `setCart` and
  `setWishlist` write;
- `Plain(doc)` is JSON text;
- `Raw(s)` is any other string, such as a token or a username.

Reading a value back decodes it to the same document; `JsonDoc.DecodeEncoded`
proves this.

## Model

| member | source | states |
|---|---|---|
| Strings.TrimStart | src/lib/utils.ts:51 | the result is a suffix of the input; what it drops is whitespace; it does not start with whitespace |
| Strings.TrimEnd | src/lib/utils.ts:51 | the result is a prefix of the input; what it drops is whitespace; it does not end with whitespace |
| Strings.TrimDecomposes | src/lib/utils.ts:51 | a string is its trimmed core with whitespace on either side |
| Strings.TrimWithin | src/components/listing/AttributeFilterList.tsx:83-84 | every character of a trimmed string occurs in the original |
| Strings.TrimIdempotent | src/app/checkout/PhoneNumbers.tsx:35 | trimming twice is trimming once |
| Strings.TrimAround | src/components/listing/ProductFilterHeader.tsx:130 | whitespace added on either side of a string is trimmed away again |
| Strings.Split | src/lib/utils.ts:50 | `split` on one character gives at least one piece, and no piece holds the separator |
| Strings.TrimAll | src/app/checkout/PhoneNumbers.tsx:34-35 | `map(p => p.trim())` keeps the length and trims each piece in place |
| Strings.JoinSplit | src/app/checkout/PhoneNumbers.tsx:34-64 | joining the pieces of a split with the same separator gives back the string |
| Strings.SplitJoin | src/components/listing/ProductListing.tsx:76-129 | splitting a join gives back the pieces when none of them holds the separator |
| Strings.SplitNoSeparator | src/lib/utils.ts:50 | a string without the separator splits into itself alone |
| Strings.SplitPrepend | src/components/listing/ProductFilterHeader.tsx:130 | a separator-free prefix becomes part of the first piece, and the other pieces stay |
| Strings.SplitAppend | src/components/listing/ProductFilterHeader.tsx:130 | a separator-free suffix becomes part of the last piece, and the other pieces stay |
| Strings.ToLower | src/components/menu/CategoryModal.tsx:26 | `toLowerCase` keeps the length and maps each character in place |
| Strings.ToLowerIdempotent | src/components/menu/CategoryModal.tsx:26-30 | lower-casing twice is lower-casing once |
| Strings.ToUpper | src/lib/api-service.ts:57 | `toUpperCase` keeps the length and maps each character in place |
| Strings.ToUpperIdempotent | src/lib/api-service.ts:57 | upper-casing twice is upper-casing once |
| Strings.IncludesEmpty | src/components/menu/CategoryModal.tsx:30-32 | every title includes the empty search text |
| Strings.IncludesAt | src/components/menu/CategoryModal.tsx:30-32 | an occurrence at any position makes `includes` hold |
| Strings.KeepDigits | src/app/checkout/PhoneNumbers.tsx:21 | `replace(/\D/g, '')` yields only digits and is no longer than its input |
| Strings.KeepDigitsOfDigits | src/app/checkout/EmailVerify.tsx:199 | a string of digits passes the digit filter unchanged |
| Strings.Take | src/app/checkout/EmailVerify.tsx:199 | `slice(0, n)` is the prefix of length `min(n, len)` |
| JsonDoc.Get | src/lib/cart.ts:26 | a key is found exactly when some field has it, and the value found is that of such a field |
| JsonDoc.AsText | src/lib/cookie-manipulation.ts:39-41 | a truthy value is stored as non-empty text |
| JsonDoc.Decode | src/lib/cart.ts:25-26 | `JSON.parse(decodeURIComponent(raw))` succeeds exactly on percent-encoded JSON text |
| JsonDoc.Parse | src/store/useStoreSetup.ts:24 | `JSON.parse` succeeds exactly on JSON text |
| JsonDoc.DecodeEncoded | src/lib/cart.ts:15-26 | each encoding is read back to its document by its own reader, and not by the other reader |
| JsonDoc.OptProp | src/lib/analytics.ts:28 | optional chaining never throws |
| JsNumber.NatToString | src/components/menu/CartSummary.tsx:59 | the numeral is non-empty, all digits, without a leading zero |
| JsNumber.DigitPrefix | src/components/menu/CartSummary.tsx:75 | the digits `parseInt` reads are the longest run of digits at the start |
| JsNumber.ParseDecimal | src/components/menu/CartSummary.tsx:75 | `parseInt(s, 10)` is `NaN` exactly when no digit follows the leading whitespace and sign |
| JsNumber.DigitsValueOfNatToString | src/components/menu/CartSummary.tsx:59-75 | the digits of a numeral have its value |
| JsNumber.ParseIntOfIntToString | src/components/menu/CartSummary.tsx:59-78 | `parseInt` reads back what `toString` writes, with and without a radix |
| JsNumber.ParseIntOfNumToString | src/components/listing/ProductListing.tsx:74-75 | a price written to the URL is read back as the same number, `NaN` included |
| JsNumber.StringToNumber | src/lib/analytics.ts:46 | `Number` of blank text is 0 |
| JsNumber.NumberOfIntToString | src/lib/analytics.ts:46 | `Number` reads back a numeral that `String` wrote, also when it comes as a JSON string |
| JsNumber.NumberOfArray | src/lib/analytics.ts:46 | `Number` of an array: 0 for `[]` and `[null]`, the element's number for one numeric element, `NaN` for a boolean element or two or more elements |
| Lists.WithoutIndexSpec | src/app/checkout/PhoneNumbers.tsx:72 | `filter((_, i) => i !== index)` deletes exactly the element at a valid index and keeps the rest in order; any other index removes nothing |
| Paging.HasMore | src/hooks/useProductFetcher.ts:76 | with a non-zero count, more remain exactly when fewer are loaded; otherwise exactly when the page came back full |
| Paging.AllLoadedStops | src/hooks/useBlogFetcher.ts:36 | once the count is reached, no further page is asked for |
| Paging.ShortPageStops | src/hooks/useProductFetcher.ts:125 | without a count, a short page is the last one |
| Paging.ConcatAppend | src/hooks/useProductFetcher.ts:71 | appending a page to the list appends its items |
| ClientStore.ExpiryAt | src/lib/cookie-manipulation.ts:40 | a cookie's expiry lies `minutes * 60000` ms after now |
| ClientStore.Store.constructor | src/lib/cookie-manipulation.ts:18 | a fresh browser starts with no cookies and no local storage |
| ClientStore.Store.Advance | src/lib/cookie-manipulation.ts:40 | time moves on and nothing stored changes |
| ClientStore.Store.SetLocalStorage | src/lib/cookie-manipulation.ts:22-26 | with a window the key is set, without one nothing changes |
| ClientStore.Store.GetLocalStorage | src/lib/cookie-manipulation.ts:27-32 | a value exactly when a window exists and holds the key, and the value stored |
| ClientStore.Store.RemoveLocalStorage | src/lib/cookie-manipulation.ts:33-37 | with a window the key is removed, without one nothing changes |
| ClientStore.Store.SetCookie | src/lib/cookie-manipulation.ts:39-42 | the cookie is stored with its expiry and nothing else changes |
| ClientStore.Store.GetCookie | src/lib/cookie-manipulation.ts:45 | a value exactly when the cookie is stored and not expired, and the value stored |
| ClientStore.Store.RemoveCookie | src/lib/cookie-manipulation.ts:46 | the cookie is gone and nothing else changes |
| ClientStore.Store.ClearTokens | src/lib/cookie-manipulation.ts:49-51 | the loop removes exactly the access-token and username cookies |
| ClientStore.Store.SetAccessToken | src/lib/cookie-manipulation.ts:53 | the token is stored for 59 minutes |
| ClientStore.Store.SetUsername | src/lib/cookie-manipulation.ts:57 | the username is stored for 43200 minutes |
| ClientStore.Store.ValueOrNull | src/lib/cookie-manipulation.ts:55-59 | `getCookie(name) \|\| null`: a value exactly when the cookie is readable and non-empty |
| ClientStore.Store.GetAccessToken | src/lib/cookie-manipulation.ts:55 | a returned token is never empty |
| ClientStore.Store.GetUsername | src/lib/cookie-manipulation.ts:59 | a returned username is never empty |
| ClientStore.LoggedInIff | src/lib/cookie-manipulation.ts:62 | logged in exactly when an unexpired, non-empty username cookie is stored |
| Catalog.EffectivePrice | src/components/menu/CartSummary.tsx:82 | a variant's price is its discount price when it has one, else its list price |
| Catalog.FindVariant | src/components/menu/CartSummary.tsx:81 | `find` by sku: the first variant with the sku, and none exactly when no variant has it |
| Cart.EncodeItems | src/lib/cart.ts:15 | one JSON element per cart item |
| Cart.ItemsOf | src/lib/cart.ts:26-28 | reading elements never yields more items than elements |
| Cart.ReadCart | src/lib/cart.ts:20-33 | a missing, empty, undecodable or non-array cookie reads as the empty cart |
| Cart.ItemsOfEncodeItems | src/lib/cart.ts:15-26 | reading the encoded items gives back the items |
| Cart.ItemOfItemJson | src/lib/cart.ts:5-15 | an item's JSON object reads back as the same item |
| Cart.ReadCartText | src/lib/cart.ts:15-28 | the text `setCart` writes reads back as the same cart |
| Cart.IndexOf | src/lib/cart.ts:67 | `findIndex`: -1 exactly when no item has the sku, else the first such index |
| Cart.Skus | src/lib/cart.ts:53 | the skus of the cart, in order |
| Cart.ItemCount | src/lib/cart.ts:40-45 | a sku absent from the cart counts 0 |
| Cart.SetCart | src/lib/cart.ts:12-17 | in a browser the cookie holds the new cart for a year, and `getCart` then returns it; on the server nothing changes |
| Cart.AddToCart | src/lib/cart.ts:47-62 | the stored cart becomes the cart with the item added, and nothing else changes |
| Cart.EditCartItem | src/lib/cart.ts:64-77 | the stored cart becomes the cart with the item edited; an absent sku writes nothing |
| Cart.ClearCart | src/lib/cart.ts:80-83 | the cookie is removed and the cart reads as empty |
| Cart.SkusAdded | src/lib/cart.ts:53-59 | an add keeps the order of skus and appends only a new sku |
| Cart.FindAdded | src/lib/cart.ts:53-59 | after an add the sku's entry has the old amount plus the added one, and the new price |
| Cart.FindAddedOther | src/lib/cart.ts:53-59 | an add leaves every other sku's entry as it was |
| Cart.ItemCountAdded | src/lib/cart.ts:40-59 | `getCartItemCount` after an add: the added sku gains the positive amount and every other sku keeps its count |
| Cart.UniqueAdded | src/lib/cart.ts:53-59 | an add keeps skus unique |
| Cart.TotalCountAdded | src/lib/cart.ts:35-62 | the total count grows by exactly the amount added, and not at all for a non-positive amount |
| Cart.TotalCountRemove | src/lib/cart.ts:70 | `splice(idx, 1)` lowers the total count by that item's amount |
| Cart.EditedAbsent | src/lib/cart.ts:68 | editing an absent sku changes nothing |
| Cart.FindEditedPositive | src/lib/cart.ts:74-75 | a positive edit sets exactly the given amount and price, and keeps the skus |
| Cart.EditedOverrides | src/lib/cart.ts:74-75 | a later edit overrides an earlier one: the amount is absolute |
| Cart.EditedIdempotent | src/lib/cart.ts:64-77 | editing twice with the same arguments is editing once, when skus are unique or the amount is positive |
| Cart.EditedRemoves | src/lib/cart.ts:69-72 | a non-positive edit removes the first entry with the sku and keeps the rest in order; the total count drops by its amount; with unique skus the sku is gone |
| Cart.RemovedSkuAbsent | src/lib/cart.ts:70 | with unique skus, deleting an entry leaves no entry with its sku |
| Wishlist.EncodeItems | src/lib/wishlist.ts:13 | one JSON element per wishlist item |
| Wishlist.ItemsOf | src/lib/wishlist.ts:23-25 | reading elements never yields more items than elements |
| Wishlist.ReadWishlist | src/lib/wishlist.ts:17-30 | a missing, empty, undecodable or non-array cookie reads as the empty wishlist |
| Wishlist.ItemOfItemJson | src/lib/wishlist.ts:5-13 | an item's JSON object reads back as the same item |
| Wishlist.ItemsOfEncodeItems | src/lib/wishlist.ts:13-23 | reading the encoded items gives back the items |
| Wishlist.ReadWishlistText | src/lib/wishlist.ts:13-25 | the text `setWishlist` writes reads back as the same wishlist |
| Wishlist.Slugs | src/lib/wishlist.ts:35 | the slugs of the wishlist, in order |
| Wishlist.Without | src/lib/wishlist.ts:43 | `filter(item => item.slug !== slug)` is no longer than its input and holds no item with the slug |
| Wishlist.SetWishlist | src/lib/wishlist.ts:10-15 | in a browser the cookie holds the new wishlist for a year, and `getWishlist` then returns it; on the server nothing changes |
| Wishlist.AddToWishlist | src/lib/wishlist.ts:32-39 | an item with a new, non-empty slug is appended; anything else writes nothing |
| Wishlist.RemoveFromWishlist | src/lib/wishlist.ts:41-45 | the stored wishlist becomes the old one without the slug |
| Wishlist.ClearWishlist | src/lib/wishlist.ts:47-50 | the cookie is removed and the wishlist reads as empty |
| Wishlist.WithAddedIdempotent | src/lib/wishlist.ts:32-39 | adding twice is adding once |
| Wishlist.WithAddedContains | src/lib/wishlist.ts:33-37 | after an add a non-empty slug is present; an empty slug changes nothing |
| Wishlist.UniqueWithAdded | src/lib/wishlist.ts:35-37 | adding keeps slugs unique |
| Wishlist.WithoutAbsent | src/lib/wishlist.ts:43 | removing an absent slug changes nothing |
| Wishlist.WithoutKeepsOthers | src/lib/wishlist.ts:43 | every item with another slug is kept, as often as it occurred |
| Wishlist.WithoutConcat | src/lib/wishlist.ts:43 | removal distributes over concatenation, so the kept items keep their order |
| Wishlist.WithoutIdempotent | src/lib/wishlist.ts:41-45 | removing twice is removing once |
| Wishlist.WithoutWithAdded | src/lib/wishlist.ts:32-45 | removing a slug just added gives back the old list |
| ApiService.MakeRequest | src/lib/api-service.ts:56-70 | the request keeps the method, URL and token; only POST and PUT carry the body |
| ApiService.PublicUrl | src/lib/api-service.ts:105-109 | the URL is under `/open/<slug>` exactly when `addSlug` is set |
| ApiService.MessageText | src/lib/api-service.ts:86 | a 400 toast's text is never empty, and reading the message fails exactly on a `null` body |
| ApiService.RefreshResult | src/lib/api-service.ts:26-42 | the refresh succeeds exactly on a successful reply with a body; a failed one keeps its status |
| ApiService.Session.constructor | src/lib/api-service.ts:11-15 | no refresh outstanding, the latch unset, nothing sent, shown or redirected |
| ApiService.Session.Exchange | src/lib/api-service.ts:59-66 | the request is recorded and takes the next reply |
| ApiService.Session.SendPublic | src/lib/api-service.ts:103-124 | the request sent, the toasts shown and the result are those of the failure policy applied to the reply; an unsupported method sends nothing |
| ApiService.Session.EndSession | src/lib/api-service.ts:137-140 | the cart, the wishlist and the session cookies are removed, nothing else, and the one redirect goes to `/account` |
| ApiService.Session.BeginRefresh | src/lib/api-service.ts:20-26 | a refresh already outstanding is joined, and only a new one posts to the refresh route |
| ApiService.Session.CompleteRefresh | src/lib/api-service.ts:26-46 | a renewed token and username are stored for their lifetimes; a 401 with the latch unset ends the session once; both flags are cleared |
| ApiService.Session.Catch | src/lib/api-service.ts:83-98 | a 400 or 500 toast unless silent, `logout` on a 401, and the call settles to `null`, or rejects for a 400 without a body |
| ApiService.Session.SendWithToken | src/lib/api-service.ts:75-99 | the requests sent, the toasts shown, the settled value, the replies consumed and the cookies are exactly those of the reference call `TokenCallOf`, while the session is not ended: a stored token sends one request with its Bearer header; without one the shared refresh goes first and its renewed token is used |
| ApiService.Session.WithStoredToken | src/lib/api-service.ts:77-82 | the request goes with the stored token; an unsupported method sends nothing and settles to `null` |
| ApiService.Session.WithRefreshedToken | src/lib/api-service.ts:78-82 | exactly the reference `RefreshCallOf`: the refresh route unless a refresh is pending, then the request with `Bearer <renewed token>` and its outcome; a falsy token settles to `null`, and a failed refresh goes through the `catch` block |
| ApiService.Session.Refresh | src/lib/api-service.ts:20-46 | `refresh()` reads one reply; a renewal stores the token for 59 minutes and the user name, and a truthy token is then the stored access token; the refresh route is sent unless one is pending |
| ApiService.Session.AfterRefresh | src/lib/api-service.ts:79-82 | after the refresh: a failure settles through the `catch` block, a falsy token to `null`, and a truthy one sends the request with it, exactly as `AfterRefreshOf` |
| ApiService.StoredTokenCall | src/lib/api-service.ts:77-82 | with a stored token the call sends one request with `Bearer <token>`, reads one reply, and keeps the cookies |
| ApiService.StoredTokenKept | src/lib/api-service.ts:77-82 | a call with a stored token leaves every cookie as it was |
| ApiService.RenewedTokenCall | src/lib/api-service.ts:78-82 | without a stored token and with a truthy renewed one, the refresh route (unless pending) then the request with the renewed Bearer token; the settled value is the second reply's, and the renewed token and user name stay stored |
| ApiService.FalsyTokenCall | src/lib/api-service.ts:79-80 | a renewal without a usable token sends only the refresh and settles to `null` with nothing shown |
| ApiService.FailedRefreshCall | src/lib/api-service.ts:32-42 | a failed refresh sends only the refresh route, keeps the cookies, and settles through the `catch` block |
| ApiService.QuietCatch | src/lib/api-service.ts:83-98 | a silent call's failure shows no toast and settles |
| ApiService.SilentStoredCall | src/lib/api-service.ts:82-98 | a silent request with a stored token shows nothing and settles |
| ApiService.SilentTokenCall | src/lib/api-service.ts:75-99 | a silent `sendRequestWithToken` shows nothing and settles, on every path |
| ApiService.TokenCallKeeps | src/lib/api-service.ts:75-99 | the call changes no cookie besides the access token and the user name |
| ApiService.Session.Authorized | src/lib/api-service.ts:82-98 | the authenticated request and its failure policy |
| ApiService.Session.Logout | src/lib/api-service.ts:127-142 | with the latch set nothing happens; otherwise, after the latch is set, exactly the authenticated `TokenCallOf` POST of `{client_id}` to the provider's logout endpoint (refreshing an expired token first), the `/api/oauth/logout` route post only when that call resolves, its toasts, and then the session ends once: cart, wishlist and tokens cleared from the cookies that call leaves, one redirect to `/account` |
| ApiService.ParseMethodAccepts | src/lib/api-service.ts:57-69 | exactly five method names are accepted, in any case |
| ApiService.ParseMethodCaseInsensitive | src/lib/api-service.ts:57 | the method name is read case-insensitively |
| ApiService.ParseMethodNames | src/lib/api-service.ts:58-66 | each method is recognised by its own name; `update` is sent as PUT, and lower case works |
| ApiService.LiteralMethods | src/lib/api-service.ts:58-61 | `POST` and `GET` are recognised as they are written |
| ApiService.UpperCaseFixed | src/lib/api-service.ts:57 | upper-case text is left as it is |
| ApiService.PublicFailureIsNull | src/lib/api-service.ts:111-123 | a failed public request never logs out and settles to `null`, except that a 400 without a body shown in a window rejects |
| ApiService.SilentShowsNothing | src/lib/api-service.ts:113-121 | a silent public request shows nothing and settles to its body or `null` |
| ApiService.NoWindowShowsNothing | src/lib/api-service.ts:114-118 | without a window a public request shows nothing |
| ApiService.ToastsHaveText | src/lib/api-service.ts:84-93 | every toast has text, and a 400 with a message shows that message |
| ApiService.OnlyUnauthorizedLogsOut | src/lib/api-service.ts:94-96 | `logout` is called exactly on a 401 of an authenticated request |
| ApiService.LogoutTwice | src/lib/api-service.ts:128-129 | however often `logout` runs, the session ends once |
| TokenExchange.ExchangeCodeForTokens | src/lib/api-service.ts:146-159 | the code goes to the exchange route; a rejected exchange takes one reply, shows one toast and changes nothing else, the session latch, refresh and redirects included; an accepted one stores the token and the user name, then runs exactly the analytics merge with every later request carrying that token, removes only the analytic id from local storage (nothing with analytics off), and has both providers re-read the store |
| TokenExchange.StoreTokensAndMerge | src/lib/api-service.ts:150-152 | the tokens are stored and then exactly the merge run follows; local storage loses only the analytic id; a truthy token stays stored with the user name and every request of the run carries it |
| TokenExchange.TokensSurviveMerge | src/lib/api-service.ts:150-152 | the merge run keeps the exchanged token and user name and sends every request with that token |
| Analytics.UuidField | src/lib/analytics.ts:41 | `{uuid: id}` has no field exactly when the id is `undefined` |
| Analytics.IdSourceOf | src/lib/analytics.ts:15-27 | the id comes from the cookie when present, else from local storage, else from the server, and nowhere without a window |
| Analytics.IssuedId | src/lib/analytics.ts:28 | an id taken from the reply is truthy |
| Analytics.GetOrCreateAnalyticId | src/lib/analytics.ts:14-35 | for each source: the id returned, the writes to the cookie and to local storage, and the one silent request in the server case; a returned id is then held by both stores |
| Analytics.SourcedCookies | src/lib/analytics.ts:16-31 | after `getOrCreateAnalyticId`, an id it hands out is live in the id cookie, without one the cookies are as they were, and no cookie but the id's ever changes |
| Analytics.SourcedLocal | src/lib/analytics.ts:16-31 | a cookie's or the server's id is copied into local storage, an id read from local storage leaves it as it was, and no other key changes |
| Analytics.IssueAnalyticId | src/lib/analytics.ts:27-32 | one silent GET of `/analytic/get/`; a truthy `uuid` is written to both stores and returned |
| Analytics.NormalizeCart | src/lib/analytics.ts:43-47 | the map fails exactly when an element is `null` |
| Analytics.NormalizeWishlist | src/lib/analytics.ts:62-65 | the map fails exactly when an element is `null` |
| Analytics.ApplyServerCart | src/lib/analytics.ts:42-48 | a well-formed reply replaces the local cart with the server's items; any other reply writes nothing |
| Analytics.ApplyServerWishlist | src/lib/analytics.ts:60-66 | a well-formed reply replaces the local wishlist with the server's items; any other reply writes nothing |
| Analytics.UpdateLocalCartFromServer | src/lib/analytics.ts:38-53 | a silent POST with the cookie's id whose sent requests, settled reply and cookies are exactly the reference `CartPullOf`; a well-formed reply becomes the local cart |
| Analytics.UpdateLocalWishlistFromServer | src/lib/analytics.ts:56-71 | the same for the wishlist, against `WishlistPullOf` |
| Analytics.DiscardIdAndPull | src/lib/analytics.ts:86-89 | the id is removed from both stores and every other local-storage key stays; then exactly the cart pull and the wishlist pull, both without an id, and each well-formed reply becomes the local copy |
| Analytics.MergeAnalytics | src/lib/analytics.ts:74-93 | with analytics off nothing changes; otherwise exactly the reference `MergeRunOf`: the merge request only with an id, the id discarded (local storage keeps every other key), then the cart pull and the wishlist pull, in that order, the local cart and wishlist becoming the server's |
| Analytics.MergeAndPull | src/lib/analytics.ts:78-89 | with analytics on: exactly `MergeRunOf`, the merge request (only with an id), the id discarded with every other local-storage key kept, then the cart and the wishlist pulls in that order, each well-formed reply becoming the local copy |
| Analytics.SendMerge | src/lib/analytics.ts:76-85 | the merge request, with the id and the flags, is sent exactly when an id is stored, as `sendRequestWithToken` sends it; without an id nothing changes |
| Analytics.PullServerCopies | src/lib/analytics.ts:88-89 | the cart pull and then the wishlist pull, in that order, exactly as `ServerPullsOf`; each well-formed reply becomes the local copy |
| Analytics.CartPullKeeps | src/lib/analytics.ts:38-53 | the cart pull changes no cookie but the tokens and the cart, and without a server cart keeps the local copies |
| Analytics.WishlistPullKeeps | src/lib/analytics.ts:56-71 | the wishlist pull changes no cookie but the tokens and the wishlist, and without a server wishlist keeps the local copies |
| Analytics.PullsLand | src/lib/analytics.ts:88-89 | after both pulls the cart cookie still reads as the server cart, and the wishlist cookie as the server wishlist |
| Analytics.PullsWithStoredToken | src/lib/analytics.ts:86-89 | with a stored token the two pulls send exactly the cart and the wishlist request with that Bearer token and read one reply each |
| Analytics.MergeRunWithStoredToken | src/lib/analytics.ts:74-93 | with a stored token the run sends the merge (with an id), the cart pull and the wishlist pull, all carrying that token, and keeps it stored |
| Analytics.MergeStepWithStoredToken | src/lib/analytics.ts:78-85 | with a stored token the merge step sends only its one request, with `Bearer <token>`, when an id is stored, and hands the pulls the next replies and the same cookies |
| Analytics.EnsureAnalyticId | src/lib/analytics.ts:96-102 | the cookie's id with nothing changed, or for a guest without one the id `getOrCreateAnalyticId` takes from local storage or the server, with the one GET and reply only when the server is asked; the id's cookie and local-storage key are written as `SourcedCookies` and `SourcedLocal` say, and no other cookie or key changes; a present id is then in the cookie; the login state does not change |
| Analytics.SlugsJson | src/lib/analytics.ts:152 | one JSON string per slug, item i being slug i |
| Analytics.PostCart | src/lib/analytics.ts:105-115 | `ensureAnalyticId` runs first, also with analytics off, and gives the cookie's or the looked-up id; its lookup writes only the id's cookie and local-storage key; with analytics off nothing else follows and the result is `undefined`; a user's post is exactly the authenticated `TokenCallOf` call (refreshing an expired token first) and settles with its result; a guest posts to the public endpoint after the lookup, only with an id, writes no cookie, and settles with the next reply |
| Analytics.PostWishlist | src/lib/analytics.ts:148-158 | with the cookie's id: a user's post is exactly the authenticated `TokenCallOf` call and settles with its result; a guest with an id posts to the public endpoint and settles with the reply, without one sends nothing; with analytics off nothing changes |
| Analytics.GetCartFromServer | src/lib/analytics.ts:117-125 | `ensureAnalyticId` runs first, also with analytics off, writing only the id's cookie and local-storage key; then `undefined` with analytics off and `null` for a guest after only that lookup; for a user, the result of exactly the authenticated `TokenCallOf` call for the cart (refreshing an expired token first), with local storage left alone |
| Analytics.SendCart | src/lib/analytics.ts:107-114 | the post of `postCart` once the id is known: the authenticated call for a user, the public post for a guest with an id, and nothing else; local storage never changes, and a guest's cookies do not |
| Analytics.ServerCartItemIsItemOf | src/lib/analytics.ts:43-47 | on an item whose price is a number, the server reading equals the cookie reading |
| Analytics.NormalizeEncodedCart | src/lib/analytics.ts:43-48 | the server reading of an encoded cart is that cart |
| Analytics.ServerItemOfItemJson | src/lib/analytics.ts:43-47 | the server reading of an encoded cart item is that item |
| Analytics.ServerCartRoundTrip | src/lib/analytics.ts:42-48 | a reply holding a cart in `items` replaces the local cart with exactly that cart |
| Analytics.ServerPriceText | src/lib/analytics.ts:46 | a price sent as decimal text is read as its number |
| Analytics.MalformedCartReply | src/lib/analytics.ts:42 | a falsy reply, or one without an `items` array, leaves the cart alone |
| Analytics.ServerWishlistItemIsItemOf | src/lib/analytics.ts:62-65 | on an object, the server reading of a wishlist item equals the cookie reading |
| Analytics.NormalizeEncodedWishlist | src/lib/analytics.ts:60-66 | the server reading of an encoded wishlist is that wishlist |
| Analytics.ServerWishlistRoundTrip | src/lib/analytics.ts:60-66 | a reply that is an array of wishlist items replaces the local wishlist with exactly those |
| Analytics.MergeFlagsDefault | src/lib/analytics.ts:81-83 | each merge flag defaults to true on its own |
| CartContext.CartProvider.constructor | src/context/CartContext.tsx:33-47 | after mounting, the state is the stored cart, the drawer is closed, nothing is posted, and a listener has been told the cart once |
| CartContext.CartProvider.RefreshCart | src/context/CartContext.tsx:37-42 | the state and the returned cart are the stored cart; the listener is told it when there is one; the drawer and the posts are unchanged |
| CartContext.CartProvider.AddToCart | src/context/CartContext.tsx:49-53 | defaults count 1, price 0 and open false; the rendered cart is the stored one with the item added, exactly that cart is posted, the total count grows by a positive count, and the drawer opens only when asked |
| CartContext.CartProvider.EditCartItem | src/context/CartContext.tsx:55-58 | the rendered cart is the old stored cart edited, and exactly that cart is posted and announced |
| CartContext.CartProvider.ClearCart | src/context/CartContext.tsx:60-63 | the stored and rendered carts are empty and the empty cart is posted |
| CartContext.CartProvider.OpenCart | src/context/CartContext.tsx:65 | the drawer is open and nothing else changes |
| CartContext.CartProvider.CloseCart | src/context/CartContext.tsx:66 | the drawer is closed and nothing else changes |
| CartContext.CartProvider.ToggleCart | src/context/CartContext.tsx:67 | the drawer flag flips and nothing else changes |
| CartContext.DrawerLaws | src/context/CartContext.tsx:65-67 | toggling twice restores the drawer; opening or closing twice equals once |
| WishlistContext.WishlistProvider.constructor | src/context/WishlistContext.tsx:25-38 | after mounting, the state is the stored wishlist, nothing is posted, and a listener has been told it once |
| WishlistContext.WishlistProvider.IsInWishlist | src/context/WishlistContext.tsx:69 | true exactly when some entry of the state has the slug |
| WishlistContext.WishlistProvider.RefreshWishlist | src/context/WishlistContext.tsx:28-33 | the state and the returned wishlist are the stored one; the listener is told it; the posts are unchanged |
| WishlistContext.WishlistProvider.RefreshAndPost | src/context/WishlistContext.tsx:43 | after the re-read, the slugs of exactly the re-read wishlist are posted |
| WishlistContext.WishlistProvider.AddToWishlist | src/context/WishlistContext.tsx:41-44 | the rendered wishlist is the old stored one with the item added, a non-empty slug is then in it, and its slugs are posted |
| WishlistContext.WishlistProvider.AddProductToWishlist | src/context/WishlistContext.tsx:46-52 | adds an item with the slug stamped with the current time's text |
| WishlistContext.WishlistProvider.RemoveFromWishlist | src/context/WishlistContext.tsx:54-57 | the rendered wishlist is the old stored one without the slug, the slug is no longer in it, and its slugs are posted |
| WishlistContext.WishlistProvider.ClearWishlist | src/context/WishlistContext.tsx:59-62 | the stored and rendered wishlists are empty and the empty slug list is posted |
| WishlistContext.WishlistProvider.SetWishlist | src/context/WishlistContext.tsx:64-67 | in a browser the rendered wishlist becomes the given one, and the slugs of the re-read wishlist are posted |
| StoreSetup.Verdict | src/store/useStoreSetup.ts:19-40 | a cache entry is served only when it parses, is fresh and has non-null data, and then its `data` is served; "nothing cached" is exactly an absent or empty entry |
| StoreSetup.StoreSetupHook.constructor | src/store/useStoreSetup.ts:13-15 | placeholder settings, loading, no error |
| StoreSetup.StoreSetupHook.Mount | src/store/useStoreSetup.ts:17-58 | a usable cache is served with no request; a corrupt one sets the error and rethrows; otherwise one GET of `/setup/get/` is sent, a truthy reply becomes the settings and is cached with the start time, anything else sets the error; loading always ends |
| StoreSetup.CachedSetupServed | src/store/useStoreSetup.ts:26-32 | an entry written at time t is served for less than five minutes and stale from then on |
| StoreSetup.UntimedCacheIsStale | src/store/useStoreSetup.ts:26 | an object without a timestamp is stale (the comparison with NaN fails), so the hook fetches |
| StoreSetup.FreshNullDataIsCorrupt | src/store/useStoreSetup.ts:27-29 | a fresh entry with null or missing data is an error and not a fetch |
| VariantCache.LexReflexive | src/lib/variant-cache.ts:18 | the string order of `sort()` is reflexive |
| VariantCache.LexTotal | src/lib/variant-cache.ts:18 | the string order is total |
| VariantCache.LexAntisymmetric | src/lib/variant-cache.ts:18 | the string order is antisymmetric |
| VariantCache.LexTransitive | src/lib/variant-cache.ts:18 | the string order is transitive |
| VariantCache.Insert | src/lib/variant-cache.ts:18 | inserting into a sorted list keeps it sorted and adds exactly the one element |
| VariantCache.SortStrings | src/lib/variant-cache.ts:18 | `slice().sort()` returns a sorted permutation of the SKU list |
| VariantCache.SortedUnique | src/lib/variant-cache.ts:18 | two sorted lists with the same elements are equal |
| VariantCache.KeyOfPermutation | src/lib/variant-cache.ts:18 | any reordering of a SKU list has the same cache key |
| VariantCache.KeyDeterminesSkus | src/lib/variant-cache.ts:18 | for non-empty lists of comma-free SKUs, equal keys mean the same SKUs |
| VariantCache.FetchResult | src/lib/variant-cache.ts:44 | a failed request gives the empty list, a reply gives the reply |
| VariantCache.Cache.constructor | src/lib/variant-cache.ts:6-8 | empty cache, nothing in flight |
| VariantCache.Cache.GetVariants | src/lib/variant-cache.ts:16-33 | an unforced call on a cached key returns the cached list; an unforced call on an in-flight key joins that fetch; otherwise a new fetch is started and recorded as the key's in-flight one; the cache's invariant is kept |
| VariantCache.Cache.Complete | src/lib/variant-cache.ts:24-28 | a settling fetch caches its result under its key and drops the key's in-flight entry |
| VariantCache.OnePendingPerKey | src/lib/variant-cache.ts:23-29 | without forcing, at most one fetch per key is outstanding |
| VariantCache.FailedFetchIsServed | src/lib/variant-cache.ts:20 | the empty list a failed fetch caches is served to the next unforced call without a new fetch |
| VariantCache.ConcurrentCallsShare | src/lib/variant-cache.ts:23-32 | two unforced calls, the second with the SKUs reordered, share one fetch |
| VariantCache.ForceAlwaysFetches | src/lib/variant-cache.ts:20-23 | a forced call starts a new fetch even with the key cached or in flight |
| Colors.KeepShortOrLongHex | src/lib/utils.ts:52 | the kept pieces all have three or six hex digits, every such piece is kept, and they stay in input order |
| Colors.KeepShortOrLongHexCounts | src/lib/utils.ts:52 | the filter keeps every copy of a qualifying piece and no copy of any other piece |
| Colors.KeepFirst | src/lib/utils.ts:52 | the first kept piece is the first qualifying piece of the input, and the others are those kept from the pieces after it |
| Colors.FirstTwoKept | src/lib/utils.ts:52-53 | the second kept piece is the first qualifying piece after the first one |
| Colors.KeepSingleColors | src/components/listing/AttributeFilterList.tsx:92 | keeps only single colours, in order; a list of single colours is kept whole |
| Colors.FirstTwo | src/lib/utils.ts:53 | `slice(0, 2)`: a prefix of length at most two, empty only for an empty list |
| Colors.ExtractHexColorsSpec | src/lib/utils.ts:48-54 | at most two colours of three or six hex digits, from the trimmed `/`-pieces, none exactly when no piece qualifies; the first is the first qualifying piece, there is one only when no later piece qualifies, and a second is the next qualifying piece |
| Colors.TrimOfSingleColor | src/components/listing/AttributeFilterList.tsx:91 | trimming a single colour leaves it as it is |
| Colors.TrimAllOfSingleColors | src/components/listing/AttributeFilterList.tsx:91 | trimming a list of single colours leaves it as it is |
| Colors.TrimAllSplitTrim | src/components/listing/ProductFilterHeader.tsx:130 | trimming the value before splitting does not change the trimmed pieces |
| Colors.ColorTextPieces | src/components/listing/AttributeFilterList.tsx:82-92 | the `/`-pieces of a single or multi-colour text are all single colours, and there is one exactly for a single colour |
| Colors.ColorValuePieces | src/components/listing/AttributeFilterList.tsx:83-92 | for a value accepted once trimmed, the swatch's colours are the trimmed value's pieces, all single colours, one exactly for a single colour |
| Colors.JoinCommaAt | src/components/listing/AttributeFilterList.tsx:116 | `colors.join(", ")` holds each colour at some position |
| Colors.SwatchShowsEveryColor | src/components/listing/AttributeFilterList.tsx:111-116 | every colour of the swatch appears in its CSS background, whether it is one colour, a 45° split or a 90° gradient |
| Colors.SingleIsNotMulti | src/components/listing/AttributeFilterList.tsx:81-84 | no value is both a single and a multi-colour value |
| ProductFetcher.Defined | src/hooks/useProductFetcher.ts:61-62 | `?? undefined` drops exactly a `null` value and passes anything else through |
| ProductFetcher.With | src/hooks/useProductFetcher.ts:57-65 | setting a key to `undefined` leaves the object's text as it was; any other value is set, and no other key changes |
| ProductFetcher.PagingBody | src/hooks/useProductFetcher.ts:49-53 | page, a page size of 20 and `full_data: true`, and no query or filter key |
| ProductFetcher.BuildParams | src/hooks/useProductFetcher.ts:49-66 | the body holds the paging keys and, with a non-empty query, only the query; otherwise every filter, with a `null` price left out |
| ProductFetcher.QueryParams | src/hooks/useProductFetcher.ts:54-55 | the query branch builds a body of that form |
| ProductFetcher.FilterParams | src/hooks/useProductFetcher.ts:56-66 | the filter branch builds a body of that form |
| ProductFetcher.WithFlags | src/hooks/useProductFetcher.ts:57-60 | sets the three flags and the ordering, and no other key |
| ProductFetcher.WithValues | src/hooks/useProductFetcher.ts:61-65 | sets the prices through `?? undefined` and the attribute, category and collection filters, and no other key |
| ProductFetcher.QueryOverridesFilters | src/hooks/useProductFetcher.ts:54-55 | with a query, two requests for the same page with different filters are the same body |
| ProductFetcher.NullPriceOmitted | src/hooks/useProductFetcher.ts:61 | a `null` low price is not sent, while 0 is |
| ProductFetcher.Fetcher.constructor | src/hooks/useProductFetcher.ts:36-41 | no products, a total of 0, more to load, not loading, page 1 |
| ProductFetcher.Fetcher.Settle | src/hooks/useProductFetcher.ts:69-77 | the page is appended or replaces the list, with missing products read as none; `hasMore` follows the count when it is truthy and otherwise a full page; the list stays the concatenation of the pages received |
| ProductFetcher.Fetcher.GetProducts | src/hooks/useProductFetcher.ts:43-78 | nothing happens unless the filters are ready and no load is running; otherwise exactly one body of the stated form is posted and the reply is settled into the products, the total count, the available attributes and `hasMore`, and an unreadable reply leaves the load flag set |
| ProductFetcher.Fetcher.FiltersChanged | src/hooks/useProductFetcher.ts:97-131 | the page counter returns to 1, and with the filters ready page 1 is posted and replaces the list even during a load |
| ProductFetcher.Fetcher.Scroll | src/hooks/useProductFetcher.ts:134-151 | near the bottom, with no load running and more to come, the page counter goes up by one and that page is appended; otherwise nothing changes |
| BlogFetcher.BuildParams | src/hooks/useBlogFetcher.ts:26-30 | the body holds exactly the page and a page size of 10, plus the title when it is non-empty |
| BlogFetcher.EmptyTitleUnfiltered | src/hooks/useBlogFetcher.ts:30 | an empty title asks for the same body as no title |
| BlogFetcher.BlogQueryUnique | src/hooks/useBlogFetcher.ts:26-30 | the body is determined by the title and the page |
| BlogFetcher.BlogFetcher.constructor | src/hooks/useBlogFetcher.ts:16-20 | no posts, a total of 0, more to load, not loading, page 1 |
| BlogFetcher.BlogFetcher.Settle | src/hooks/useBlogFetcher.ts:32-37 | the page is appended or replaces the list, with missing results read as none; `hasMore` follows a truthy count, otherwise a full page; the list stays the concatenation of the pages received |
| BlogFetcher.BlogFetcher.GetBlogs | src/hooks/useBlogFetcher.ts:22-40 | nothing happens during a load; otherwise one body of the stated form is posted and the reply settled, and a `null` response leaves the load flag set |
| BlogFetcher.BlogFetcher.TitleChanged | src/hooks/useBlogFetcher.ts:42-46 | the page counter returns to 1 and page 1 replaces the list, except while a load is running |
| BlogFetcher.BlogFetcher.Scroll | src/hooks/useBlogFetcher.ts:48-65 | near the bottom, with no load running and more to come, the next page is posted and appended; otherwise nothing changes |
| Listing.NameTextInjective | src/components/listing/ProductListing.tsx:70-79 | the query-string names the page uses are distinct |
| Listing.ParamSet | src/components/listing/ProductListing.tsx:122-132 | `params.set` makes the name read back as the value and leaves every other name alone |
| Listing.PairTexts | src/components/listing/ProductListing.tsx:129 | each selection is written as `attribute:value`, in order |
| Listing.ParsePairs | src/components/listing/ProductListing.tsx:76-79 | each piece is read as the text before the first `:` and the one after it, in order |
| Listing.WriteFlagParams | src/components/listing/ProductListing.tsx:121-125 | each flag is written only when true and the ordering only when non-empty |
| Listing.WriteValueParams | src/components/listing/ProductListing.tsx:126-132 | each price is written whenever it is not `null`, the selections only when there are some, the query only when non-empty, and the earlier entries are kept |
| Listing.UpdateUrlParams | src/components/listing/ProductListing.tsx:120-134 | the query string holds exactly the entries described, and nothing else |
| Listing.ParsePairText | src/components/listing/ProductListing.tsx:76-78 | a pair without `:` in its parts reads back as itself |
| Listing.ParseWritten | src/components/listing/ProductListing.tsx:67-134 | reading back what `updateURLParams` writes gives the same filters, for a non-empty ordering and selections free of `,` and `:` |
| Listing.QueryIgnored | src/components/listing/ProductListing.tsx:67-81 | the search query written to the query string does not change the filters read back |
| Listing.Min | src/components/listing/ProductListing.tsx:142 | `Math.min` of a non-empty list is an element below all elements |
| Listing.Max | src/components/listing/ProductListing.tsx:143 | `Math.max` of a non-empty list is an element above all elements |
| Listing.MaxSale | src/components/listing/ProductListing.tsx:153 | `Math.max` of the sales is `NaN` exactly when some sale is, and otherwise a sale at least as large as every sale, the infinities included |
| Listing.ListPrices | src/components/listing/ProductListing.tsx:141 | the list prices, one per variant, in order |
| Listing.DiscountedVariants | src/components/listing/ProductListing.tsx:144 | exactly the variants with a discount price |
| Listing.UndiscountedVariants | src/components/listing/ProductListing.tsx:145 | exactly the variants without a discount price |
| Listing.DiscountPrices | src/components/listing/ProductListing.tsx:147 | the discount prices, one per discounted variant, in order |
| Listing.Sales | src/components/listing/ProductListing.tsx:152 | the rounded percentage off of each discounted variant, in order |
| Listing.SaleRounds | src/components/listing/ProductListing.tsx:152 | for a non-zero price the sale is the percentage off rounded half up; for a zero price it is -Infinity, +Infinity or `NaN` as the discount is above, below or at zero |
| Listing.SaleIsNaN | src/components/listing/ProductListing.tsx:152 | a sale is `NaN` exactly when both the price and the discount price are zero |
| Listing.SalesNaN | src/components/listing/ProductListing.tsx:152-153 | some sale is `NaN` exactly when some discounted variant has a zero price and a zero discount price |
| Listing.NaNSaleOfVariant | src/components/listing/ProductListing.tsx:152 | a variant priced and discounted at zero puts a `NaN` among the sales |
| Listing.VariantOfNaNSale | src/components/listing/ProductListing.tsx:152 | a `NaN` sale comes from a variant priced and discounted at zero |
| Listing.SalesBound | src/components/listing/ProductListing.tsx:152-153 | without a `NaN`, the maximum sale is some discounted variant's sale and no variant's sale is above it |
| Listing.MaxSaleSpec | src/components/listing/ProductListing.tsx:152-153 | the maximum sale is `NaN` exactly when some discounted variant has zero price and discount; otherwise it is attained by a discounted variant and bounds every sale |
| Listing.EffectivePricesAre | src/components/listing/ProductListing.tsx:146-151 | the prices the bounds range over are exactly the variants' effective prices |
| Listing.EffectivePricesFromVariants | src/components/listing/ProductListing.tsx:146-151 | each price the bounds range over is some variant's effective price |
| Listing.VariantInEffectivePrices | src/components/listing/ProductListing.tsx:146-151 | each variant's effective price is among those the bounds range over |
| Listing.PriceInfoSpec | src/components/listing/ProductListing.tsx:140-156 | no summary for no variants; otherwise both pairs of bounds hold every variant and are attained, there is a discount iff some variant has one, and a maximum sale exactly then |
| Listing.Without | src/components/listing/ProductListing.tsx:161 | drops every copy of the pair and keeps the rest |
| Listing.WithoutAbsent | src/components/listing/ProductListing.tsx:161 | dropping an absent pair changes nothing |
| Listing.WithoutAppended | src/components/listing/ProductListing.tsx:161-163 | dropping a pair just appended gives the list back |
| Listing.ToggleFlips | src/components/listing/ProductListing.tsx:157-166 | toggling flips the pair's membership and no other pair's |
| Listing.ToggleTwice | src/components/listing/ProductListing.tsx:157-166 | toggling an absent pair twice gives back the selection, in order |
| AttributeFilter.Flipped | src/components/listing/AttributeFilterList.tsx:24-32 | the panel's membership flips and no other panel's changes |
| AttributeFilter.FlippedTwice | src/components/listing/AttributeFilterList.tsx:23-33 | flipping a panel twice restores the set of open panels |
| AttributeFilter.DeriveExpanded | src/components/listing/AttributeFilterList.tsx:35-43 | the open panels are exactly the attributes whose name occurs among the selected pairs |
| AttributeFilter.AttributePanels.constructor | src/components/listing/AttributeFilterList.tsx:21 | no panel is open |
| AttributeFilter.AttributePanels.ToggleExpand | src/components/listing/AttributeFilterList.tsx:23-33 | panel i opens or closes and every other panel stays |
| AttributeFilter.AttributePanels.Rederive | src/components/listing/AttributeFilterList.tsx:35-43 | manual toggles are forgotten: the open panels become those with a selected value |
| AttributeFilter.ToggleOnOpensPanel | src/components/listing/AttributeFilterList.tsx:38 | choosing a value that was not selected leaves its attribute's panel open after the effect |
| AttributeFilter.FindAttribute | src/components/listing/AttributeFilterList.tsx:77-78 | the first attribute with the name, or none exactly when no attribute has it |
| AttributeFilter.IsAvailableSpec | src/components/listing/AttributeFilterList.tsx:76-79 | a value is available exactly when the first available attribute with its name lists it |
| AttributeFilter.ToggleFlipsChecked | src/components/listing/AttributeFilterList.tsx:100-103 | clicking a checkbox flips its own checked state and no other |
| AttributeFilter.SwatchColorsSpec | src/components/listing/AttributeFilterList.tsx:88-92 | for a colour value the swatch colours are the trimmed value's pieces, at least one, all single colours, one exactly for a single colour |
| AttributeFilter.SwatchOfSingleColor | src/components/listing/AttributeFilterList.tsx:112-113 | a single colour is drawn as itself, trimmed |
| AttributeFilter.SwatchOfMultiColor | src/components/listing/AttributeFilterList.tsx:114-116 | two colours are drawn as a 45° split and more as a 90° gradient through all of them |
| FilterHeader.ZeroPriceInactive | src/components/listing/ProductFilterHeader.tsx:63 | a price of 0 shows the tag row exactly when no price would |
| FilterHeader.ClearedHidesChipRow | src/components/listing/ProductFilterHeader.tsx:50-57 | after clearing, the tag row is shown exactly for an active query |
| FilterHeader.ClearedWritesOnlyOrderAndQuery | src/components/listing/ProductFilterHeader.tsx:50-57 | after clearing, the query string holds only the ordering and the query |
| FilterHeader.OrderByChoice | src/components/listing/ProductFilterHeader.tsx:99 | the empty option means no ordering, so the ordering is never the empty text |
| FilterHeader.OrderByRoundTrip | src/components/listing/ProductFilterHeader.tsx:98-99 | choosing the option shown gives back the ordering |
| FilterHeader.ListingFilters.constructor | src/components/listing/ProductFilterHeader.tsx:31-49 | holds the given filters and query |
| FilterHeader.ListingFilters.ClearAll | src/components/listing/ProductFilterHeader.tsx:50-57 | the selections, flags and prices are cleared and the ordering and query kept |
| FilterHeader.ListingFilters.RemoveTag | src/components/listing/ProductFilterHeader.tsx:78-80 | the selection at that index is dropped and nothing else changes |
| FilterHeader.ListingFilters.ChooseOrder | src/components/listing/ProductFilterHeader.tsx:99 | only the ordering changes, to the choice |
| FilterHeader.TagColorsSpec | src/components/listing/ProductFilterHeader.tsx:129-130 | a swatch tag's colours are the trimmed value's pieces, all single colours, one exactly for a single colour |
| FilterHeader.TagMatchesFilterSwatch | src/components/listing/ProductFilterHeader.tsx:129-143 | a colour value is drawn the same as a header tag as in the attribute filter |
| SearchModal.SearchBody | src/components/menu/ProductSearchModal.tsx:34-39 | a search body is the listing's body for that query alone, at the given page |
| SearchModal.Modal.constructor | src/components/menu/ProductSearchModal.tsx:17-22 | empty query and results, not loading, page 1, more to load |
| SearchModal.Modal.StartFetch | src/components/menu/ProductSearchModal.tsx:27-39 | an empty query clears the results and `hasMore` with no request; otherwise the page-1 or the next-page flag is set and one search body is posted |
| SearchModal.Modal.FinishFetch | src/components/menu/ProductSearchModal.tsx:40-44 | a failed or empty reply reads as no products; the page is appended or replaces the results, `hasMore` means a full page, and both flags clear |
| SearchModal.Modal.FetchProducts | src/components/menu/ProductSearchModal.tsx:26-45 | an empty query clears the results with no request; otherwise one search body is posted; a resolved reply is appended or replaces the results, `hasMore` means a full page and both flags clear; a rejected request leaves the results, `hasMore` and the flag it set for page 1 or a later page as they are |
| SearchModal.Modal.Scroll | src/components/menu/ProductSearchModal.tsx:51-60 | near the bottom, with more to come and no next page loading, the page counter goes up and the next page of the query is posted; a resolved reply is appended, a rejected one leaves `loadingNext` set so that no later scroll asks again; otherwise nothing changes |
| SearchModal.Modal.QueryEffect | src/components/menu/ProductSearchModal.tsx:76-84 | a non-empty query posts page 1, which replaces the results when it resolves and leaves `loading` set when it rejects; an empty one clears the results and `hasMore` |
| SearchModal.Modal.Input | src/components/menu/ProductSearchModal.tsx:86-88 | a new text becomes the query and re-runs the query effect, with the same outcome for a resolved or a rejected page 1; the same text changes nothing |
| SearchModal.Modal.Reset | src/components/menu/ProductSearchModal.tsx:66-73 | opening clears the query and results, goes to page 1 and sets `hasMore` |
| SearchModal.Modal.Open | src/components/menu/ProductSearchModal.tsx:66-84 | after opening, the query and results are empty with no request, and `hasMore` stays set only if the query was already empty |
| SearchModal.Modal.GoToSearchPage | src/components/menu/ProductSearchModal.tsx:96-101 | only a non-empty query closes the modal and goes to the search page for that query |
| SearchModal.Modal.KeyDown | src/components/menu/ProductSearchModal.tsx:90-94 | only Enter, with a non-empty query, leaves for the search page |
| CategoryModal.MatchesIgnoresCase | src/components/menu/CategoryModal.tsx:26-32 | the letter case of the title or of the search text does not change a match |
| CategoryModal.MatchingChildrenMembers | src/components/menu/CategoryModal.tsx:31-33 | the children kept are exactly those whose title matches |
| CategoryModal.MatchingChildrenAppend | src/components/menu/CategoryModal.tsx:31-33 | the children filter works piece by piece, so their order is kept |
| CategoryModal.FilterMenuAppend | src/components/menu/CategoryModal.tsx:28-44 | the menu filter works piece by piece, so the parents kept stay in menu order |
| CategoryModal.FilterMenuSingle | src/components/menu/CategoryModal.tsx:29-42 | a parent is kept, narrowed to its matching children, exactly when its title or a child's title matches |
| CategoryModal.FilterMenuMembers | src/components/menu/CategoryModal.tsx:28-44 | the result holds exactly the kept parents, each narrowed |
| CategoryModal.FilterMenuShorter | src/components/menu/CategoryModal.tsx:28-44 | the result is never longer than the menu |
| CategoryModal.EmptyMatchesAll | src/components/menu/CategoryModal.tsx:30 | every title includes the empty search text |
| CategoryModal.EmptySearchKeepsChildren | src/components/menu/CategoryModal.tsx:31-33 | an empty search keeps every child |
| CategoryModal.EmptySearchKeepsMenu | src/components/menu/CategoryModal.tsx:28-44 | an empty search keeps the whole menu as it is |
| CartSummary.EditPrice | src/components/menu/CartSummary.tsx:81-82 | an amount edit uses the variant's effective price, or 0 without a variant |
| CartSummary.LinePrice | src/components/menu/CartSummary.tsx:252-253 | the totals use the effective price, or the stored cart price without a variant |
| CartSummary.LineWarning | src/components/menu/CartSummary.tsx:139-149 | a missing variant is "not found"; a positive product limit that the amount exceeds wins over an exceeded non-zero inventory; each warning names a limit below the amount |
| CartSummary.WithinLimitsNoWarning | src/components/menu/CartSummary.tsx:139-146 | an amount within the inventory and the product limit shows no warning |
| CartSummary.ClampedSpec | src/components/menu/CartSummary.tsx:75-77 | the settled amount is at most the inventory and at least 1 when the inventory allows; an amount in range is kept, a missing or small one becomes 1, a large one the inventory |
| CartSummary.ClampedKeepsInRange | src/components/menu/CartSummary.tsx:75-77 | an amount already in range is kept as typed |
| CartSummary.ZeroInventoryRemovesLine | src/components/menu/CartSummary.tsx:75-83 | with an inventory of 0 any typed amount settles on 0, and the edit removes the line |
| CartSummary.ClampAmount | src/components/menu/CartSummary.tsx:75-77 | the timer's steps compute the clamped amount |
| CartSummary.TotalAppend | src/components/menu/CartSummary.tsx:251-255 | the total of a split cart is the sum of the parts' totals |
| CartSummary.UnchangedPricesKeepTotal | src/components/menu/CartSummary.tsx:182 | when no line shows a changed price, the total equals the total at stored prices |
| CartSummary.Delivery | src/components/menu/CartSummary.tsx:247-275 | shown only with delivery fees enabled; free exactly for a positive threshold that the total reaches; otherwise the fee, with the positive missing amount exactly when a threshold is set |
| CartSummary.GrandTotal | src/components/menu/CartSummary.tsx:311-314 | the fee is added exactly when fees are enabled and there is no threshold or the total is below it |
| CartSummary.DeliveryAgreesWithGrandTotal | src/components/menu/CartSummary.tsx:256-314 | for a non-negative threshold the grand total includes the fee exactly when the delivery line shows it |
| CartSummary.AddingMissingFreesDelivery | src/components/menu/CartSummary.tsx:258-272 | adding the missing amount makes delivery free and takes the fee out of the grand total |
| CartSummary.AmountTexts | src/components/menu/CartSummary.tsx:56-63 | the boxes hold a text for exactly the cart's skus |
| CartSummary.AmountTextsOfUnique | src/components/menu/CartSummary.tsx:58-60 | with one line per sku, each box shows its line's amount |
| CartSummary.Summary.constructor | src/components/menu/CartSummary.tsx:22-25 | no variants, loading, no box text, no timers |
| CartSummary.Summary.CartChanged | src/components/menu/CartSummary.tsx:36-63 | the boxes show the stored amounts and the loading flag ends cleared; an empty cart empties the variant list without a request; otherwise its skus are fetched without forcing, and the list becomes the fetched variants, or stays as it was when the fetch rejects |
| CartSummary.Summary.RefreshVariantList | src/components/menu/CartSummary.tsx:88-103 | the same fetch, forced; a rejected fetch keeps the list and clears the flag; for an empty cart the list is emptied and the loading flag is left alone |
| CartSummary.Summary.InputChange | src/components/menu/CartSummary.tsx:65-74 | the box shows the typed text and the sku's timer is replaced by one capturing the current variant list |
| CartSummary.Summary.TimerFires | src/components/menu/CartSummary.tsx:74-85 | the box shows the clamped amount, and the cart is edited only when it differs from the line's amount, at the captured price |
| CartSummary.Summary.ConfirmPrice | src/components/menu/CartSummary.tsx:182-190 | the OK button edits the line to the effective price at its amount |
| CartSummary.Summary.Decrement | src/components/menu/CartSummary.tsx:198-199 | one less, never below 1 |
| CartSummary.Summary.Increment | src/components/menu/CartSummary.tsx:213-214 | adds one at the effective price, unless a non-zero inventory is reached |
| CartSummary.Summary.Remove | src/components/menu/CartSummary.tsx:221 | edits the line to amount 0 |
| CartSummary.ConfirmClearsNotice | src/components/menu/CartSummary.tsx:182-187 | after the OK is applied, the line no longer shows the notice |
| CartSummary.RemoveDropsLine | src/components/menu/CartSummary.tsx:221-235 | a remove button drops the sku from the cart |
| Checkout.ValidateContact | src/app/checkout/page.tsx:169-171 | an error with its message for exactly the empty contact fields |
| Checkout.ValidateAddress | src/app/checkout/page.tsx:172-175 | an error with its message for exactly the empty address fields, the contact errors kept |
| Checkout.Validate | src/app/checkout/page.tsx:167-177 | one error, with its message, per empty required field and no other |
| Checkout.ErrorsOfUnique | src/app/checkout/page.tsx:167-177 | the errors are determined by the form |
| Checkout.FilledFormHasNoErrors | src/app/checkout/page.tsx:167-177 | a form with every required field filled has no errors |
| Checkout.ErrorsReadBack | src/app/checkout/page.tsx:191-198 | the phone error, the presence of any error and of an address error each mean the corresponding fields are empty |
| Checkout.OrderLines | src/app/checkout/page.tsx:203 | one order line per cart line, in order, with its sku, price and amount |
| Checkout.BuildPayload | src/app/checkout/page.tsx:204-218 | the cart's lines and the form's fields; a tax number exactly for a business that gave one, a consumer number exactly for a person who gave one, never both |
| Checkout.CheckoutPage.constructor | src/app/checkout/page.tsx:28-51 | the initial form with the default city and point, the default city's districts, no errors, not verified, nothing pending |
| Checkout.CheckoutPage.CityChange | src/app/checkout/page.tsx:134-145 | the city is set, the district and khoroo cleared, the point becomes the city's first or the default, and the choices follow the city |
| Checkout.CheckoutPage.DistrictChange | src/app/checkout/page.tsx:146-153 | the district is set, the khoroo cleared and its choices follow the district |
| Checkout.CheckoutPage.KhorooChange | src/app/checkout/page.tsx:154-159 | only the khoroo changes |
| Checkout.CheckoutPage.ClearError | src/app/checkout/page.tsx:276-282 | that field's error is removed and every other is kept |
| Checkout.CheckoutPage.Submit | src/app/checkout/page.tsx:179-221 | checks, in order, the verified email, a non-empty cart, the phone, then every other field, and stops at the first failure; field failures store the errors; only a fully valid submit keeps the payload and shows the captcha, and nothing is sent |
| Checkout.CheckoutPage.CaptchaVerified | src/app/checkout/page.tsx:223-258 | nothing without a pending payload; otherwise the payload goes with the token to the signed-in or the public endpoint; an order id removes only the cart cookie and leaves for the order page, another reply refreshes the variants, a thrown error only stops submitting, neither touching the store; the payload and captcha are always dropped |
| Checkout.CheckoutPage.OrderReplied | src/app/checkout/page.tsx:240-253 | an order id removes only the cart cookie and sets the order page; an empty id or no order refreshes the variants and stops submitting; a thrown error only stops submitting |
| Checkout.PayloadKeepsCart | src/app/checkout/page.tsx:203 | each order line keeps its cart line's sku, amount and price |
| PhoneNumbers.KeepDigitsKeepsAll | src/app/checkout/PhoneNumbers.tsx:21 | removing the non-digits keeps every character exactly when all are digits |
| PhoneNumbers.ShortValidPhone | src/app/checkout/PhoneNumbers.tsx:20-23 | within the input's length of 8, a phone is valid exactly when it is eight digits |
| PhoneNumbers.NonEmpty | src/app/checkout/PhoneNumbers.tsx:36 | keeps exactly the non-empty entries |
| PhoneNumbers.NonEmptyOfNonEmpty | src/app/checkout/PhoneNumbers.tsx:36 | a list with no empty entry is kept whole |
| PhoneNumbers.TidyAppended | src/app/checkout/PhoneNumbers.tsx:56 | appending a tidy entry keeps the list tidy |
| PhoneNumbers.TidyWithoutIndex | src/app/checkout/PhoneNumbers.tsx:72 | removing an entry keeps the list tidy |
| PhoneNumbers.ParsePhonesTidy | src/app/checkout/PhoneNumbers.tsx:32-38 | every parsed entry is non-empty, trimmed and free of commas |
| PhoneNumbers.ValidPhones | src/app/checkout/PhoneNumbers.tsx:60 | keeps exactly the valid phones |
| PhoneNumbers.ReportedParsesToValid | src/app/checkout/PhoneNumbers.tsx:32-67 | the text reported to the form parses back to exactly the valid entries, so the invalid ones are gone once it comes back as the prop |
| PhoneNumbers.InvalidIndexes | src/app/checkout/PhoneNumbers.tsx:40-46 | the indices of exactly the invalid entries, ascending |
| PhoneNumbers.AddedEntryTidy | src/app/checkout/PhoneNumbers.tsx:53-54 | the trimmed input, when not blank, is a tidy entry |
| PhoneNumbers.PhoneList.constructor | src/app/checkout/PhoneNumbers.tsx:27-46 | the entries are the parse of the prop and the invalid indices are theirs |
| PhoneNumbers.PhoneList.PropChanged | src/app/checkout/PhoneNumbers.tsx:32-38 | a new prop replaces the entries with its parse; the same prop changes nothing |
| PhoneNumbers.PhoneList.Reparse | src/app/checkout/PhoneNumbers.tsx:32-46 | the entries become the parse and the invalid indices follow |
| PhoneNumbers.PhoneList.InputChange | src/app/checkout/PhoneNumbers.tsx:85-88 | the input holds the text cut at 8 characters and the phone error is cleared |
| PhoneNumbers.PhoneList.Add | src/app/checkout/PhoneNumbers.tsx:51-69 | a blank input does nothing; otherwise the trimmed input is appended, valid or not, the input cleared, and the valid phones reported |
| PhoneNumbers.PhoneList.Append | src/app/checkout/PhoneNumbers.tsx:55-68 | a tidy entry is appended and the valid phones reported |
| PhoneNumbers.PhoneList.Remove | src/app/checkout/PhoneNumbers.tsx:71-83 | only the entry at that index goes, and the valid phones are reported |
| PhoneNumbers.PhoneList.Store | src/app/checkout/PhoneNumbers.tsx:57-68 | the entries, their invalid indices and the report to the form |
| PhoneNumbers.PhoneList.KeyDown | src/app/checkout/PhoneNumbers.tsx:90-94 | Enter adds and any other key does nothing |
| EmailVerify.AfterCaptcha | src/app/checkout/EmailVerify.tsx:82-92 | a `valid` reply leads to the verified state, `sent` to the code step, and anything else back to idle |
| EmailVerify.CodeInput | src/app/checkout/EmailVerify.tsx:199 | the code field holds at most six characters, all digits |
| EmailVerify.CodeInputIdempotent | src/app/checkout/EmailVerify.tsx:199 | filtering a filtered code changes nothing |
| EmailVerify.CodeInputFixed | src/app/checkout/EmailVerify.tsx:199 | a value passes the filter unchanged exactly when it is at most six digits |
| EmailVerify.EmailVerifier.constructor | src/app/checkout/EmailVerify.tsx:23-31 | idle, no code, no attempts, unverified, nothing sent |
| EmailVerify.EmailVerifier.EmailEffects | src/app/checkout/EmailVerify.tsx:45-65 | an address change resets status, code, attempts and the verified flag; an address set from outside the input into an empty field starts the captcha |
| EmailVerify.EmailVerifier.EmailPropChanged | src/app/checkout/EmailVerify.tsx:45-65 | the same address runs no effect; a new one resets and may start the captcha |
| EmailVerify.EmailVerifier.EmailTyped | src/app/checkout/EmailVerify.tsx:150-158 | typing resets to idle with no code or attempts, marks the address unverified, clears its error and never starts the captcha |
| EmailVerify.EmailVerifier.SendCodeClicked | src/app/checkout/EmailVerify.tsx:67-70 | without an address nothing changes, otherwise the captcha is shown |
| EmailVerify.EmailVerifier.CheckEmail | src/app/checkout/EmailVerify.tsx:33-43 | back to idle, then the captcha when an address is present |
| EmailVerify.EmailVerifier.TurnstileVerified | src/app/checkout/EmailVerify.tsx:72-94 | the address is sent with the token; the status follows the reply and only `valid` verifies |
| EmailVerify.EmailVerifier.CodeTyped | src/app/checkout/EmailVerify.tsx:199 | the code becomes the filtered input and nothing else changes |
| EmailVerify.EmailVerifier.CodeVerifyClicked | src/app/checkout/EmailVerify.tsx:96-137 | without an address or code nothing happens; `valid` verifies; any other reply or an error counts an attempt, the tenth resetting to idle; the code is cleared |
| AddressSelector.ChosenIsSelected | src/app/checkout/AddressSelector.tsx:73-97 | a chosen saved address is the one highlighted, carries its point, leaves the contact fields alone and locks the address fields |
| AddressSelector.ChosenPassesAddressChecks | src/app/checkout/AddressSelector.tsx:85-97 | a complete saved address leaves no address error at submit |
| AddressSelector.ManualUnlocks | src/app/checkout/AddressSelector.tsx:64-180 | manual mode keeps the form, highlights no saved address and opens the fields in order |
| AddressSelector.MapPickAsWrittenLost | src/app/checkout/AddressSelector.tsx:220-222 | as written, a map pick leaves the order payload unchanged |
| AddressSelector.MapPickAsWrittenExample | src/app/checkout/AddressSelector.tsx:220-222 | a pick on a fresh form still orders to the default point |
| AddressSelector.MapPickReachesOrder | src/app/checkout/AddressSelector.tsx:217-222 | corrected, a manual pick is the payload's point and changes nothing else |
| AddressSelector.SavedIgnoresMap | src/app/checkout/AddressSelector.tsx:214-216 | in saved mode the map changes nothing |
| AccountPage.CeilDiv | src/app/account/page.tsx:170 | the least multiple of the divisor at or above the dividend |
| AccountPage.PageCount | src/app/account/page.tsx:170 | the rounded-up page count, with 0 read as 1 |
| AccountPage.PageCountSpec | src/app/account/page.tsx:170 | at least one page, and the pages just hold the orders |
| AccountPage.NextEnabledIff | src/app/account/page.tsx:172 | "next" is enabled exactly when orders lie beyond the current page |
| AccountPage.FindProcess | src/app/account/page.tsx:152 | the first process with the code, or none when no process has it |
| AccountPage.StatusLabelSpec | src/app/account/page.tsx:151-154 | the label is the name of the first process with the code, or the code itself when none has it |
| AccountPage.Account.constructor | src/app/account/page.tsx:12-19 | no user, loading, info tab, page 1, no orders |
| AccountPage.Account.LoadUser | src/app/account/page.tsx:22-33 | signed out nothing is sent; signed in the user is asked for and kept when returned; loading stops either way |
| AccountPage.Account.LoadOrders | src/app/account/page.tsx:35-50 | only on the orders tab, the current page of 20 is asked for; missing results and counts read as empty and 0; an error keeps the list |
| AccountPage.Account.ChooseTab | src/app/account/page.tsx:80-86 | the tab is set, and switching to orders loads them |
| AccountPage.Account.PrevPage | src/app/account/page.tsx:163-169 | the page goes down by one but not below 1, loading orders when it changed |
| AccountPage.Account.NextPage | src/app/account/page.tsx:171-177 | the page goes up by one and the orders are loaded |
| AccountPage.ButtonsKeepPageInRange | src/app/account/page.tsx:163-177 | used only while enabled, the buttons keep the page between 1 and the page count |
| WishlistPage.SavedProducts.constructor | src/app/wishlist/page.tsx:13-14 | no products, not loading, nothing asked for |
| WishlistPage.SavedProducts.FetchProducts | src/app/wishlist/page.tsx:16-32 | a signed-in user's wishlist pull is sent first and a well-formed server wishlist lands in the store; then, for a non-empty wishlist, exactly one product request by slug follows and reads the next reply; an empty wishlist asks for nothing; a `null` reply gives no products |
| WishlistPage.PullIfSignedIn | src/app/wishlist/page.tsx:19-21 | a guest sends nothing and changes nothing; a signed-in user sends exactly the wishlist pull, and a well-formed server wishlist becomes the stored one |
| WishlistPage.SavedProducts.ListProducts | src/app/wishlist/page.tsx:25-29 | one public POST of the slugs, in order, reading the next reply; a truthy body sets the products, anything else none, and a rejection changes neither field |
| WishlistPage.PriceSummarySpec | src/app/wishlist/page.tsx:49-63 | the bounds are ordered, `lowest` bounds every effective price, and the discount flag and the sale agree with the discounted variants |
| WishlistPage.FindItem | src/app/wishlist/page.tsx:90 | the first item with the slug, or none when no item has it |
| WishlistPage.SavedDateOfItem | src/app/wishlist/page.tsx:89-94 | with unique slugs the date shown is the product's own item's, when not empty |

## Left out

- Network transport: axios, `fetch`, the Next.js route handlers and the remote API are not modelled. Each reply is an input: a status, a JSON body or none.
- Concurrency: each request settles before the next step. Pending promises (the token refresh, the variant cache's in-flight map) are explicit pending entries with begin and complete steps. Interleaved awaits and races between browser tabs are not modelled.
- Toasts, `window.location` redirects, router navigation and `console` logging are kept as traces of events when the model needs them, and otherwise dropped.
- Rendering, CSS classes, scroll and resize listeners, and the scroll-direction logic of the listing and checkout pages are left out. Debounces and the 400 ms timer of the cart summary are single atomic steps.
- Floating point: JavaScript numbers are whole numbers or `NaN` (`JsNumber.Num`). Infinities are modelled only for the sale percentage (`Listing.SalePercent`), where a zero list price divides by zero. Prices are whole ₮. `Math.round((1 - d / p) * 100)` is computed over exact rationals, so a float rounding error at a half is not reproduced.
- The listing price summary (`Listing.GetPriceInfo`, `WishlistPage.PriceSummary`) is none for an empty variant list, where the source computes `Infinity` bounds.
- Percent-encoding and JSON: `JsonDoc.Text` abstracts `encodeURIComponent(JSON.stringify(…))` as an injective encoding with its decoder. JSON numbers are whole numbers only. Any other stored string is `Raw` and reads as corrupt.
- Array elements whose shape does not match the record are dropped on read, where the source keeps them untyped.
- `toLowerCase` is modelled for ASCII and Cyrillic letters only. `toUpperCase` is modelled for ASCII letters only; it is applied only to HTTP method names.
- `URLSearchParams` is a record over the listing's eight parameter names, each holding its first value. The order of the entries in the written query string is not modelled. The search page's URL encoding of the query is not modelled: the target is the query itself.
- Date and price formatting (`formatPrice`, `formatDateString` and the other helpers of `src/lib/utils.ts` besides `extractHexColors`), and `generateId`'s randomness, are not modelled. The time `addProductToWishlist` stamps and any generated identifier are parameters.
- The address lookups `getCity`, `getDistrict`, `getKhoroo` and `getPoint` belong to a module that is not part of this model. They are parameters.
- The map widget and the captcha widget are left out. Their callbacks (`onSelect`, `onVerify`) are methods that take the point or the token.
- `getWishlist`, `getViewHistory` and `postViewHistory` of `src/lib/analytics.ts` are outside the modelled core.
- The listing page's attribute fetch and its scroll effects are not modelled (`src/components/listing/ProductListing.tsx:25-66`).
- Checkout: the profile prefill effect, the sticky mobile header, scrolling to the first error and the toasts of the page are not modelled.
- EmailVerify.EmailVerifier.TurnstileVerified: `isLoading` is not modelled, because each handler runs as one step and so no input or button can be used while it is set.
- PhoneNumbers.PhoneList.InputChange: the input's `maxLength` of 8 is modelled as cutting the typed text at 8 characters.
- PhoneNumbers.PhoneList.Add: `onClearError` is taken as always given, since the checkout page passes it.
- WishlistPage.SavedProducts.FetchProducts: the product reply is taken as already decoded into products.
- JsNumber.StringToNumber: only optionally signed decimal integers with surrounding whitespace are read. Fractions, exponents ("1e3"), hexadecimal, octal and binary literals ("0x1F") and "Infinity" read as `NaN`, where `Number` accepts them. The model reads prices and amounts this way, and these are whole decimal numbers.
- `sendRequestWithToken`, the analytics pulls and the merge change no cookie outside the two session cookies and the local copies they replace. The methods state their new cookies exactly, through reference functions (`TokenCallOf`, `CartPullOf`, `WishlistPullOf`, `MergeRunOf`). The facts about the cookies they leave alone are lemmas over those functions (`ApiService.TokenCallKeeps`, `Analytics.CartPullKeeps`, `Analytics.WishlistPullKeeps`, `Analytics.PullsLand`), not method postconditions.
- The product and blog fetchers read the list length through the closure of the render that started the request. Under one settled request at a time this is the current length, which the model uses.
- CartSummary.DeliveryAgreesWithGrandTotal: stated only for a threshold that is not negative. Below zero the delivery line shows a fee that the grand total does not add; the store settings are not expected to hold such a threshold.
- `StoreContext.tsx` and the layout-only pages and components hold no behaviour of the core and are left out.

## Findings

| source | as written | input that shows it | evidently intended | confidence | as-written member | corrected member |
|---|---|---|---|---|---|---|
| src/app/checkout/AddressSelector.tsx:220-222 | the map's `onSelect` stores the picked coordinates under a new key `point`; the payload reads `address_point`, so the pick is lost | a map pick of `47.9`, `106.8` on the initial form in manual mode: the order still carries the default point | the picked point becomes `address_point`, which the order carries | not executed | AddressSelector.MapPickAsWrittenExample | AddressSelector.MapPickReachesOrder |
