# Storefront client model

A Dafny model of the state logic of a small e-commerce web client (a
Next.js/React storefront talking to a REST backend). The backend is an
oracle: every transition takes the reply it would have produced, either
`Ok(value)` or `Err(message)` (`Common.Reply`), or the raw fetch outcome
(`Api.Outcome`: a delivered HTTP response or a network rejection). The
requests a transition sends, the toast it shows and where it navigates are
returned as values.

Modules follow the program's structure:

- `Session`: the authentication context. It holds the in-memory user and
  token, the two local-storage keys `authToken` and `authUser`, and the
  transitions login, logout, set-or-clear and the startup auto-login.
- `CartStore`: the cart context. It covers the fetch, the
  add/update/remove mutations (each replaces the whole cart with the
  server's reply), `clearCart` and the derived item count.
- `Middleware`: the route guard over the protected prefixes and the
  login/register prefixes.
- `Api`: the service layer. It covers how a response becomes a value or an
  error message, the delete helpers' own error handling, `logoutUserApi`,
  and the request every endpoint helper sends.
- `AdminOrders`, `OrdersPage`: the two order-status encodings, the status
  patch, the guards and the fetches.
- `CartPage`, `LoginPage`, `HomePage`, `Navbar`: the customer-facing pages'
  handlers.
- `AdminList`, `AdminProducts`, `AdminCategories`: the admin list pages.
  `AdminList` holds the shape the product and category pages share.
- `ProductForm`, `AddProductDialog`, `EditProductDialog`: the product form,
  its multipart payload and the two dialogs.
- Helper modules:
  - `Common`: options, replies, toasts and JavaScript string truthiness.
  - `Strings`: `String(n)`, `parseInt` with and without a radix, and `trim`.
  - `Query`: `URLSearchParams` as an ordered list of pairs.

## Model

| member | source | states |
|---|---|---|
| Session.Mount | src/contexts/AuthContext.tsx:24-26 | the provider starts anonymous and loading, with storage as an earlier visit left it |
| Session.Login | src/contexts/AuthContext.tsx:82-88 | both storage keys hold the new token and user, memory holds the same pair, and storage mirrors memory |
| Session.Logout | src/contexts/AuthContext.tsx:90-103 | the session ends anonymous with both keys removed; a backend logout request carrying the stored token is sent exactly when the stored token was truthy |
| Session.SetUserAndToken | src/contexts/AuthContext.tsx:105-117 | with a user and a truthy token both are adopted and persisted; otherwise both keys and both fields are cleared; the pair stays paired and mirrored |
| Session.AttemptAutoLogin | src/contexts/AuthContext.tsx:53-79 | verification is requested exactly for a truthy stored token; an ok reply adopts the token and the returned user and rewrites `authUser`; any failure removes both keys; loading ends on every branch |
| Session.StartupOutcome | src/contexts/AuthContext.tsx:26-79 | after startup from any storage the session is paired and not loading; it is signed in exactly when a truthy stored token was verified, and then storage mirrors memory |
| Session.FailedVerificationClearsStorage | src/contexts/AuthContext.tsx:66-75 | a failed verification, whether a non-ok reply or a rejection, leaves the session anonymous with storage cleared |
| Session.StaleUserSurvivesStartup | src/contexts/AuthContext.tsx:54-55 | with no stored token a stale `authUser` is left in storage, so storage no longer mirrors memory |
| Session.TransitionsPreservePairing | src/contexts/AuthContext.tsx:82-117 | every transition keeps user and token both set or both null, and keeps the two storage keys paired |
| Session.LoginThenLogout | src/contexts/AuthContext.tsx:82-103 | logging out after logging in ends anonymous and notifies the backend exactly when the token was non-empty |
| CartStore.ReduceQuantities | src/contexts/CartContext.tsx:91 | the left-to-right reduction over the items computes the sum of quantities |
| CartStore.ItemCountZeroIff | src/contexts/CartContext.tsx:91 | the count is zero exactly when there is no cart or every line has quantity zero, and it bounds each line's quantity |
| CartStore.StartFetch | src/contexts/CartContext.tsx:39-42 | the fetch raises the loading flag and sends `GET /cart`, with an `Authorization` header exactly when the token is truthy |
| CartStore.FinishFetch | src/contexts/CartContext.tsx:42-50 | success installs the reply verbatim; failure installs the fixed empty cart, whose count is zero; loading ends either way |
| CartStore.Mutate | src/contexts/CartContext.tsx:57-85 | success replaces the cart with the reply and leaves everything else alone; failure leaves the state untouched and reports the message or the fallback |
| CartStore.AddToCart | src/contexts/CartContext.tsx:57-65 | sends the add request; success installs the reply with "Item added to cart!"; failure keeps the state |
| CartStore.UpdateQuantity | src/contexts/CartContext.tsx:67-75 | sends the update request; success installs the reply with "Cart updated."; failure keeps the state |
| CartStore.RemoveFromCart | src/contexts/CartContext.tsx:77-85 | sends the remove request; success installs the reply with "Item removed from cart."; failure keeps the state |
| CartStore.ClearCart | src/contexts/CartContext.tsx:87-89 | the cart becomes null, so the count is zero; nothing is sent |
| CartStore.MutationsSetItemCount | src/contexts/CartContext.tsx:57-91 | after a refused mutation the badge count is unchanged; after an answered one it is the returned cart's total quantity, zero exactly when every returned line has quantity zero |
| CartStore.FetchesOverHistory | src/contexts/CartContext.tsx:39-55 | over a sequence of token values starting at mount, there is at least one fetch, at most one per value, exactly one when the token never changes, and one per value exactly when every value differs from the one before |
| CartStore.LastReplyWins | src/contexts/CartContext.tsx:57-75 | two successful mutations leave the cart of the later reply |
| CartStore.SessionChangesRefetchCart | src/contexts/CartContext.tsx:35-55 | signing in from anonymous refetches once; re-login with the same token does not; logout refetches once; startup refetches exactly when verification succeeded |
| Middleware.Guard | src/middleware.ts:4-23 | redirects to the login page with the path as `redirect` exactly for a protected prefix without a token; redirects home exactly for a login/register prefix with a token; passes everything else |
| Middleware.RulesAreExclusive | src/middleware.ts:7-18 | no path is both protected and a login/register page |
| Middleware.PrefixMatching | src/middleware.ts:11-18 | matching is by plain prefix: `/dashboards` and `/loginx` are caught, and a protected path with a token passes |
| Middleware.NoRedirectLoop | src/middleware.ts:11-20 | following a redirect with the same cookie is never redirected again |
| Api.ErrorMessage | src/services/api.ts:10-14 | the message thrown for a non-ok response is never empty |
| Api.HandleResponse | src/services/api.ts:9-17 | an ok response yields its body and never throws; a non-ok response throws the selected message |
| Api.ErrorMessagePrecedence | src/services/api.ts:11-12 | `Message` wins, then `message`, then "API request failed with status N"; an unparsable body reads as "An unknown error occurred" |
| Api.StatusMessageNamesStatus | src/services/api.ts:12 | the status number can be read back from the fallback message |
| Api.Call | src/services/api.ts:30-38 | an awaited helper succeeds exactly on an ok response; a network rejection propagates its own message |
| Api.DeleteCall | src/services/api.ts:102-114 | a delete succeeds exactly on an ok response without reading a body; failure throws `message`, else "API Error: <statusText>"; an unparsable body throws "An unknown error occurred during deletion."; a network rejection propagates its message |
| Api.DeleteCallAgreesWithCall | src/services/api.ts:9-114 | a delete helper succeeds exactly when an ordinary helper would; both pass a network message through, and both throw `message` when it is truthy and `Message` is not |
| Api.DeleteIgnoresUpperMessage | src/services/api.ts:110-113 | the same error reply gives `Message` through `handleResponse` but the status text through a delete helper |
| Api.LogoutUserApiAsWritten | src/services/api.ts:41-56 | as written, only a network rejection reaches the fallback; an HTTP error rejects |
| Api.LogoutUserApiAsWrittenRejects | src/services/api.ts:41-56 | a 401 with an unparsable body makes the as-written helper reject with "An unknown error occurred" |
| Api.LogoutUserApi | src/services/api.ts:41-56 | the helper never rejects; it returns the server's body exactly on an ok response and the client-side fallback otherwise |
| Api.LogoutUserApiAgrees | src/services/api.ts:41-56 | wherever the as-written helper resolves, it resolves as the intended one does |
| Api.CartHeaders | src/services/api.ts:199-204 | JSON content type always; `Authorization: Bearer <token>` exactly when the token is truthy |
| Api.GetProducts | src/services/api.ts:116-120 | path `/products`, with `categoryId` in the query exactly when it is truthy |
| Api.SearchProducts | src/services/api.ts:177-184 | `q` is always the first parameter; `categoryId` follows exactly when it is truthy |
| Api.CartAuthorizationRule | src/services/api.ts:198-258 | all four cart helpers hit cart paths and carry a bearer header exactly when the token is truthy |
| AdminOrders.FromEntriesHoldsEntries | src/app/admin/orders/page.tsx:57-59 | a map built from entries with distinct keys holds exactly those entries |
| AdminOrders.EntriesInverse | src/app/admin/orders/page.tsx:57-59 | with distinct keys and values, the map of swapped entries inverts the map of the entries |
| AdminOrders.StatusMapIsBijection | src/app/admin/orders/page.tsx:48-59 | the code map is defined on exactly 0..4 with the five labels, and the reverse map undoes it both ways |
| AdminOrders.SelectValueRoundTrip | src/app/admin/orders/page.tsx:169 | a label outside the map shows no select value; a known label shows a value that parses back to its code |
| AdminOrders.PatchStatus | src/app/admin/orders/page.tsx:101-105 | only orders with the id take the new status; length, order, ids and all other orders are unchanged |
| AdminOrders.PatchStatusProperties | src/app/admin/orders/page.tsx:101-105 | patching is idempotent, and an absent id changes nothing |
| AdminOrders.HandleStatusChange | src/app/admin/orders/page.tsx:96-115 | without a token nothing happens; otherwise the parsed status is sent; success patches the order with the returned status and toasts "Order #<first 8 characters of the id> status updated to <label of the REQUESTED value, or `undefined` when it is not a known code or NaN>."; failure keeps the list, refetches and reports the message or fallback |
| AdminOrders.StatusChangeFromSelect | src/app/admin/orders/page.tsx:96-115 | choosing a code from the select sends that code, the echoed label shows that code again, and the success toast names that code's label |
| AdminOrders.ToastIgnoresReturnedStatus | src/app/admin/orders/page.tsx:97-110 | the success toast depends only on the id and the requested value, never on the order the server returns; a value that does not parse reads "status updated to undefined." |
| AdminOrders.OrdersGuard | src/app/admin/orders/page.tsx:85-94 | while auth loads nothing happens; a non-admin is sent home with "Access Denied"; all orders are fetched exactly for an admin with a token |
| AdminOrders.FinishFetch | src/app/admin/orders/page.tsx:70-83 | success replaces the list without a toast; failure records the message or "Failed to fetch orders." and shows the same text as an error toast; loading ends |
| OrdersPage.StatusText | src/app/orders/page.tsx:32-39 | a code has text other than "Unknown" exactly when it is 0, 1 or 2 |
| OrdersPage.StatusTextAgainstAdminMap | src/app/orders/page.tsx:32-39 | the two pages agree on 0..2 and disagree exactly on 3 and 4; codes outside the admin map read "Unknown" |
| OrdersPage.OrdersEffect | src/app/orders/page.tsx:48-70 | nothing while auth loads; an anonymous visitor goes to `/login?redirect=/orders`; orders are fetched exactly for a user with a truthy token |
| OrdersPage.FinishFetch | src/app/orders/page.tsx:56-65 | success replaces the list; failure records the message or "Failed to fetch orders."; loading ends |
| OrdersPage.Render | src/app/orders/page.tsx:72-84 | loading first, then a truthy error, then the empty message, then the list |
| OrdersPage.EmptyTokenStaysLoading | src/app/orders/page.tsx:45-66 | a signed-in user with an empty token is never fetched for, so the page stays in the loading view |
| OrdersPage.FailedFetchShowsError | src/app/orders/page.tsx:61-78 | a failed fetch always shows the error view, never the empty message |
| CartPage.Render | src/app/cart/page.tsx:22-36 | the loading view while loading; the empty view exactly when the cart is null or has no lines; otherwise the lines |
| CartPage.EmptyViewAndItemCount | src/app/cart/page.tsx:26 | the empty view implies a zero count, a positive count implies the lines are shown, and lines that all have quantity zero are still listed |
| CartPage.HandleQuantityChange | src/app/cart/page.tsx:38-45 | a positive quantity is an update to that quantity; zero or less is a removal |
| CartPage.ActionRequest | src/app/cart/page.tsx:38-45 | an update sends the update request and a removal the remove request |
| CartPage.InputQuantity | src/app/cart/page.tsx:91 | text that does not parse becomes 0; parsed text keeps its value |
| CartPage.QuantityControls | src/app/cart/page.tsx:84-94 | minus removes a line of quantity one or less; plus always updates; typed positive numbers update, and typed zero, negative or non-numeric text removes |
| CartPage.HandlePlaceOrder | src/app/cart/page.tsx:47-64 | without a token an error and a redirect to `/login`, nothing sent; success clears the cart and goes to `/orders`; failure keeps the cart; the in-progress flag drops after a request |
| CartPage.PlacedOrderEmptiesPage | src/app/cart/page.tsx:26-58 | after a placed order the page shows the empty view |
| LoginPage.Submit | src/app/login/page.tsx:23-61 | nothing is sent unless both fields validate; a well-formed reply signs in with the access token and user and goes home; a malformed reply or a failure keeps the session and reports the message |
| LoginPage.SignInIff | src/app/login/page.tsx:42-50 | sign-in happens exactly on an ok, well-formed reply, and then the session is paired, mirrored and has a truthy token |
| LoginPage.FallbackOnlyForSilentNetworkFailure | src/app/login/page.tsx:56-59 | an HTTP error shows the message selected from the response; "Invalid email or password." appears for a network failure with an empty message |
| HomePage.FindCategory | src/app/page.tsx:62 | the first category with the parsed id, and none when no category has it or the id is not a number |
| Strings.ParseIntAuto | src/app/page.tsx:62 | `parseInt` without a radix agrees with base 10 unless "0x"/"0X" follows the sign, and is NaN after such a prefix exactly when no hex digit follows it |
| Strings.RadixMatters | src/app/page.tsx:62 | "0x1A" reads as 0 in base 10 and as 26 without a radix |
| Strings.ParseIntAutoOfIntToString | src/app/page.tsx:62 | `parseInt(String(i))` without a radix is `i` for every integer |
| HomePage.HeadingAndHighlightCanDisagree | src/app/page.tsx:60-107 | for `categoryId=0x1A` the heading looks up category 26 while the category list highlights category 0 |
| HomePage.PageTitleCases | src/app/page.tsx:51-69 | the four headings: default, search, category, and search within category |
| HomePage.ProductsRequest | src/app/page.tsx:53-58 | a truthy query searches, passing the category along; otherwise the category listing is fetched |
| HomePage.FetchProductsAndTitle | src/app/page.tsx:45-83 | the product request comes first; categories are fetched only after it succeeds and only for a truthy category; errors empty the list and keep the old heading; success sets the heading from the category whose id `parseInt` without a radix reads from `categoryId` |
| HomePage.SearchWithoutCategory | src/app/page.tsx:53-73 | a search without a category sends one search request and heads the results with the search text |
| HomePage.SelectCategory | src/app/page.tsx:85-93 | navigation to `/`, with every pair not named `categoryId` kept in order, so every other name reads as before |
| HomePage.HighlightOfParams | src/components/categories/CategoryList.tsx:49-60 | with `parseInt(categoryId, 10)` passed as the selection, "All" is highlighted exactly when `categoryId` is absent or empty, a category exactly when the value parses to its id, and nothing when the value does not parse; never "All" and a category together |
| HomePage.NonNumericHighlightsNothing | src/app/page.tsx:107 | `categoryId=abc` passes NaN, which highlights neither "All" nor any category, unlike an absent `categoryId` |
| HomePage.FinishCategoryFetch | src/components/categories/CategoryList.tsx:22-36 | the list's own mount fetch ends loading either way; success replaces the categories, failure keeps them and records the message, or "Failed to fetch categories." when it is empty, which is always truthy |
| HomePage.RenderCategoryList | src/components/categories/CategoryList.tsx:38-65 | a loading line while loading; otherwise a truthy error is shown as is; otherwise the "All" button, highlighted exactly when the selection is null, followed by one button per category in order, captioned with its name and highlighted exactly when the selection equals its id |
| HomePage.MountedListShowsFetch | src/components/categories/CategoryList.tsx:22-44 | after the mount fetch the error view appears exactly when the fetch failed, with the message or the fallback; on success there is one category button per fetched category |
| HomePage.SelectedButtons | src/components/categories/CategoryList.tsx:49-65 | in a shown list "All" and a category are never highlighted together, NaN highlights no button, and a numeric selection highlights some button exactly when a listed category has that id |
| HomePage.SelectCategoryRoundTrip | src/app/page.tsx:85-107 | selecting a category makes the list highlight exactly that category; selecting none makes it highlight "All" |
| HomePage.SelectedCategoryNamesHeading | src/app/page.tsx:60-69 | selecting a listed category without a search heads the page with that category's name |
| HomePage.HandleAddToCart | src/app/page.tsx:39-43 | one unit is added, with the id sent as a string that parses back to the product id |
| HomePage.AddToCartButton | src/app/page.tsx:130-137 | the button is disabled exactly while the cart is busy or the stock is zero, with the matching caption |
| HomePage.NegativeStockIsOffered | src/app/page.tsx:133 | a negative stock still enables the button |
| Navbar.HandleLogout | src/components/layout/Navbar.tsx:28-39 | the session ends anonymous with storage cleared, the title-only toast is shown and the browser goes to `/login`; one helper logout request (bearer and JSON content type) for a truthy in-memory token, first, and one session logout request (bearer only) for a truthy stored token, last |
| Navbar.LogoutIgnoresHelperResult | src/components/layout/Navbar.tsx:29-35 | whatever the helper produces, as written or as intended, the logout is the same |
| Navbar.SignedInLogoutSendsTwice | src/components/layout/Navbar.tsx:28-39 | a signed-in session posts to `/auth/logout` twice with the same bearer token; only the first request declares a JSON content type |
| Navbar.SearchTarget | src/components/layout/Navbar.tsx:43-45 | home page, `q` set to the trimmed text, every pair not named `q` kept in order, so every other name reads as before |
| Navbar.HandleSearchSubmit | src/components/layout/Navbar.tsx:41-48 | a search fires exactly on Enter with a non-blank box, and only then is the box cleared |
| Navbar.SubmittedQueryIsTrimmed | src/components/layout/Navbar.tsx:42-44 | a submitted `q` is non-empty and already trimmed |
| Navbar.SearchReachesHomePage | src/components/layout/Navbar.tsx:41-48 | a submitted search without a category makes the home page search for exactly the trimmed text and head the results with it |
| Navbar.Render | src/components/layout/Navbar.tsx:50-168 | a placeholder while auth loads; the badge exactly for a positive count, showing it; the user menu exactly for a user; the Manage menu exactly for an admin |
| Navbar.BadgeAndMenus | src/components/layout/Navbar.tsx:99-105 | the badge shows exactly when some cart line has a positive quantity, and the Manage menu only appears next to the user menu |
| AdminList.RedirectTarget | src/app/admin/products/page.tsx:69-73 | once auth has loaded, anyone but an admin is sent to `/` |
| AdminList.FetchRequest | src/app/admin/products/page.tsx:55-67 | the list is fetched exactly for an admin |
| AdminList.AccessIsConsistent | src/app/admin/products/page.tsx:69-77 | once loaded, the list is shown exactly when nobody is redirected; a shown list is fetched, and a redirected visitor fetches nothing |
| AdminList.FinishFetch | src/app/admin/products/page.tsx:57-65 | success replaces the items; failure records the message or "Failed to fetch <plural>." (products, categories), so the error is never empty; loading ends; nothing else changes |
| AdminList.DialogRoundTrips | src/app/admin/products/page.tsx:79-97 | opening a dialog and reporting success closes it and returns the page to where it was, refetching for an admin; a delete click only marks the item pending |
| AdminList.RemoveId | src/app/admin/products/page.tsx:108 | the result has no item with the id, keeps only original items, and keeps every item with another id |
| AdminList.RemoveIdProperties | src/app/admin/products/page.tsx:108 | filtering leaves the list as it was exactly when no item had the id, and filtering twice is filtering once |
| AdminList.RemoveIdIsFilter | src/app/admin/products/page.tsx:108 | the removal distributes over concatenation and keeps a single item exactly when its id differs, so kept items keep their order and multiplicity |
| AdminList.DeleteConfirm | src/app/admin/products/page.tsx:99-115 | with nothing pending or no token, "missing information" and no change, not even to the pending item; otherwise delete by id, filter on success, report on failure; the pending item is cleared and deleting ends |
| AdminList.DeleteRemovesExactlyThatId | src/app/admin/products/page.tsx:106-113 | after a successful delete no item has that id, every other item remains, and a second confirm only reports missing information |
| AdminProducts.FetchProducts | src/app/admin/products/page.tsx:55-67 | the unfiltered `/products` listing is fetched exactly for an admin |
| AdminProducts.DeleteConfirm | src/app/admin/products/page.tsx:99-115 | the product page's delete, with its numeric id, its endpoint and its messages |
| AdminProducts.PendingSurvivesMissingToken | src/app/admin/products/page.tsx:100-103 | a confirm without a token leaves the product pending, so a later confirm with a token deletes it |
| AdminCategories.FetchCategories | src/app/admin/categories/page.tsx:56-68 | the `/categories` listing is fetched exactly for an admin |
| AdminCategories.DeleteConfirm | src/app/admin/categories/page.tsx:100-116 | the category page's delete, with its string id, its endpoint and its messages |
| AdminCategories.DeleteFailureWording | src/app/admin/categories/page.tsx:107-111 | a failure whose body carries only `Message` is reported with the status text |
| ProductForm.HandleChange | src/components/admin/AddProductDialog.tsx:60-63 | the named field takes the value and every other field is unchanged |
| ProductForm.HandleCategoryChange | src/components/admin/AddProductDialog.tsx:71-73 | only the category changes |
| ProductForm.HandleFileChange | src/components/admin/AddProductDialog.tsx:65-69 | the first chosen file replaces the current one; an empty choice keeps it |
| ProductForm.Payload | src/components/admin/AddProductDialog.tsx:83-91 | the text entries name, description, price, stockQuantity and categoryId in that order, each with its form value; then an `imageFile` entry with the chosen file exactly when one is chosen; never an `imageUrl` entry |
| ProductForm.PayloadRoundTrip | src/components/admin/EditProductDialog.tsx:107-115 | reading the body back gives every form value and the file; only `imageUrl` is lost |
| ProductForm.GuardMessage | src/components/admin/EditProductDialog.tsx:101-104 | the submission passes exactly with a product, a category and a token; otherwise "Authentication error." when the token is missing, else "Please select a category." |
| AddProductDialog.LoadCategories | src/components/admin/AddProductDialog.tsx:46-58 | success fills the list; failure shows "Failed to fetch categories."; the select is enabled either way |
| AddProductDialog.Submit | src/components/admin/AddProductDialog.tsx:75-104 | the guard stops a submission without a category or token; otherwise the payload is sent; success resets the form and file and tells the page; failure keeps what was typed |
| AddProductDialog.FilledFormIsSent | src/components/admin/AddProductDialog.tsx:60-98 | filling the form and submitting sends exactly what was typed and the file, then resets the dialog |
| EditProductDialog.Prefill | src/components/admin/EditProductDialog.tsx:64-71 | the form copies the details, with numbers rendered so they parse back to the loaded values |
| EditProductDialog.FetchInitialData | src/components/admin/EditProductDialog.tsx:53-81 | only with a product and a token are the details and categories fetched; both must succeed to fill the form; otherwise one error toast |
| EditProductDialog.Submit | src/components/admin/EditProductDialog.tsx:99-126 | the guard stops a submission without product, category or token; otherwise the payload goes to the product's id; the form is kept on both outcomes |
| EditProductDialog.UnchangedSaveSendsLoadedValues | src/components/admin/EditProductDialog.tsx:64-112 | saving without changes sends the loaded values back; only the image URL is not sent |
| EditProductDialog.MissingProductBlamesCategory | src/components/admin/EditProductDialog.tsx:101-102 | with a token and a category but no product, the message blames the category |
| Query.Set | src/components/layout/Navbar.tsx:43-44 | `set` leaves one pair with the name and the new value, and every other name reads as before |
| Query.Delete | src/app/page.tsx:86-90 | `delete` removes every pair with the name, and every other name reads as before |
| Strings.ParseIntOfIntToString | src/app/page.tsx:107 | `parseInt(String(i), 10)` is `i` for every integer |
| Strings.TrimEmptyIffBlank | src/components/layout/Navbar.tsx:42 | a string trims to empty exactly when it is all white space |
| Strings.TrimIdempotent | src/components/layout/Navbar.tsx:44 | trimming twice is trimming once |

## Left out

- Real HTTP, `fetch` and JSON parsing. Replies are inputs (`Reply`, `Outcome`). A reply whose JSON has the wrong shape is not modelled, except for the login response's shape check.
- React scheduling, re-renders and effect dependencies. Each effect run is one call. Toasts and router pushes are output values. `CartStore.FetchesOverHistory` counts the fetches that the `useCallback`/`useEffect` dependency on the token triggers.
- Concurrency: out-of-order replies, cross-tab storage, and the ordering inside `Promise.all`. The edit dialog's two requests are listed in source order and need both replies.
- Floating-point prices, totals and `toFixed`. Cart, order and list prices are integers the client only shows.
- EditProductDialog.Prefill: prices are integers in the model, so the promise that the rendered price parses back to the loaded price covers integer prices only. The edit dialog's price input accepts steps of 0.01, and a price such as 19.99 is not modelled.
- Date and locale formatting.
- The zod email rule. Its verdict is the `emailAccepted` parameter of `LoginPage.Submit`.
- `URLSearchParams` percent-encoding and `toString`. Queries are lists of pairs.
- Api.GetProducts: the helper interpolates `categoryId` into the URL text without encoding, so a value holding `&`, `=`, `#`, `%` or `+` reaches the server as other or more parameters (`1&x=2` becomes two). The model always sends one pair, and its single-parameter promise holds only for values without those characters.
- The middleware `matcher` pattern.
- `parseInt` on numbers beyond 2^53, where the JavaScript result loses precision. Both `Strings.ParseInt` and `Strings.ParseIntAuto` read exact integers.
- AdminOrders.SelectValueRoundTrip: the status map is a plain dictionary in the model. In JavaScript, `statusNameToValueMap[order.status]` on an object literal also finds inherited names, so a status such as "constructor" or "toString" yields a select value instead of none. The lemma covers only labels that are not such inherited property names.
- The unused `loginAndRefetchCart` and `logoutAndClearCart` in the authentication context, which the provider does not expose.
- The endpoint helpers no modelled screen calls: `registerUser`, `createCategory`, `updateCategory` and the three report helpers.
- The pages and components that are only markup or a single guard: the reports page, the category dialogs, the product page, the dashboard, the footer and the layout.
- Markup: the orders dialog, the product cards and the tables.
- The serialised form of `authUser`. Storage holds the user value itself.
- `isLoading` of the product dialogs during a submission. The model sets it to false at the end but does not model the intermediate raised value.
- `CartPage.MinusQuantity`, `CartPage.PlusQuantity`: one below and one above the line's quantity, stated through `CartPage.QuantityControls`.

## Findings

| source | as written | input that shows it | evidently intended | confidence | as-written member | corrected member |
|---|---|---|---|---|---|---|
| src/services/api.ts:41-56 | `handleResponse` is returned without `await` inside the `try`, so its rejection on a non-ok response bypasses the `catch` | a logout that the server answers with 401 and a non-JSON body rejects with "An unknown error occurred" | the helper resolves with the client-side fallback on every failure, as its comment says | not executed | Api.LogoutUserApiAsWritten, Api.LogoutUserApiAsWrittenRejects | Api.LogoutUserApi |

The only caller wraps the call in its own `try` and ignores the result, so
the logout that users see is the same with either helper
(`Navbar.LogoutIgnoresHelperResult`).
