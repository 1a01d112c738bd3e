# Storefront catalog and session controllers, in Dafny

This project models the two pieces of controller logic in a React storefront
and proves properties of them.

- **The products page** (`src/page/ProductsView.jsx`, module `ProductsView`).
  - `GetSearchParams` turns the free-text query into the request parameters.
    `limit` and `page` are always present. A numeric query adds `price` when
    its value is above 1000 and `stock` otherwise. Any other non-empty query
    adds `productName`.
  - `TotalPages` is the ceiling division of the item count by the page size.
  - `PrevPage` and `NextPage` are the clamped updates behind the Previous and
    Next buttons.
  - `Settle` maps the outcome of one listing request onto the list, the item
    count and the error message.
  - The class `View` holds the component's state fields. It has one method per
    handler: previous, next, page size, search input and submit. It also has
    `FetchShops`, split into its start (`StartFetch`) and its end
    (`SettleFetch`). Previous, Next and the fetch are proved against the pure
    functions above; the page-size, input and submit handlers state their new
    fields directly.
- **The session provider** (`src/context/AuthContext.jsx`, module `AuthContext`).
  - `AfterStartup`, `AfterLogin` and `AfterLogout` give the effect of the
    startup check, login and logout on a `Session` value. A `Session` holds the
    stored items, `isAuthenticated`, `user` and the redirects asked for.
  - The class `AuthProvider` runs the same three transitions over a `Storage`
    object, which stands for the browser's key-value store. Each method is
    proved equal to its function.
  - `UseAuth` is the hook's guard against use outside the provider.

Two quirks of the code are proved as written:

- **Next can reach page 0.** When there are no items, `totalPages` is 0. The
  Next button is still enabled on page 1, and Next takes the page to
  `min(2, 0) = 0` (`NextWithoutItemsReachesZero`).
- **An expired token still ends authenticated.** Startup sets the flag from the
  token string it read, after removing an expired token. A present but expired
  token is therefore removed from storage, yet the session ends authenticated
  (`ExpiredTokenStillAuthenticated`).

Collaborators the code calls into are parameters:

- `Number()` is a parser `string -> Option<int>`, where `None` is NaN. The
  resolver's properties hold for every parser. `ParseDecimal`, which reads
  strings of decimal digits only, is used for the concrete scenarios.
- The token-expiry check (`Utils/auth.js`) is a `string -> bool`.
  `Utils/auth.js` is not part of this model.
- `jwtDecode` is a `string -> Option<Claims>`, where `None` means decoding
  threw.
- An HTTP exchange is an outcome datatype: `FetchOutcome` for the listing and
  `LoginReply` for login.
- Navigation is recorded as the list of redirect targets in `navigations`.

The model follows the code as written:

- Submitting a search keeps the page; only a page-size change resets it.
- Page sizes are not validated. The selector offers 5, 10, 20, 50 and 100.
- A stale response is not discarded.
- Startup sets `isAuthenticated` from the token string it read.
- Logout removes only `token`.

## Model

| member | source | states |
|---|---|---|
| `ProductsView.GetSearchParams` | src/page/ProductsView.jsx:14-33 | `limit`/`page` come from the state. An empty query gives exactly the keys {limit, page}. A number above 1000 adds only `price` = value. Any other number adds only `stock` = value. A non-number adds only `productName` = the query, verbatim |
| `ProductsView.AtMostOneDiscriminator` | src/page/ProductsView.jsx:20-30 | at most one of price/stock/productName is set, never both price and stock, and none is set exactly when the query is empty |
| `ProductsView.ParseDecimal` | src/page/ProductsView.jsx:21-22 | the number parse (digits-only approximation) succeeds exactly on non-empty strings of decimal digits, and its value is their decimal reading, most significant digit first |
| `ProductsView.LeadingZeroIgnored` | src/page/ProductsView.jsx:21-22 | a leading zero does not change a digit string's value, as with `Number("015")` |
| `ProductsView.LeadingZerosScenario` | src/page/ProductsView.jsx:21-22 | "0015" and "15" both read as 15 |
| `ProductsView.PriceScenario` | src/page/ProductsView.jsx:21-25 | "15000" yields `{limit, page, price: 15000}` |
| `ProductsView.StockScenario` | src/page/ProductsView.jsx:21-27 | "15" yields `{limit, page, stock: 15}` |
| `ProductsView.ProductNameScenario` | src/page/ProductsView.jsx:28-30 | "chair" yields `{limit, page, productName: "chair"}` |
| `ProductsView.TotalPages` | src/page/ProductsView.jsx:78 | the result is the least page count whose pages hold every item (ceiling division), and it is 0 exactly when there are no items |
| `ProductsView.PrevPage` | src/page/ProductsView.jsx:81 | Previous never goes below 1. It steps back by one from any page above 1 and stays at 1 from page 1 |
| `ProductsView.NextPage` | src/page/ProductsView.jsx:85 | Next never exceeds `totalPages`. It steps on by one below the last page, and otherwise gives `totalPages`, with no lower clamp |
| `ProductsView.PreviousDisabledExactlyAtFixpoint` | src/page/ProductsView.jsx:222 | on any page ≥ 1, the Previous button is disabled exactly where pressing it would leave the page unchanged |
| `ProductsView.NextWithoutItemsReachesZero` | src/page/ProductsView.jsx:84-86 | with no items the Next button is enabled on page 1 (it is disabled only when `currentPage === totalPages`), and pressing it gives page 0 |
| `ProductsView.PrevTimesClamps` | src/page/ProductsView.jsx:80-82 | k ≥ 1 presses of Previous end at max(page − k, 1), never below 1 |
| `ProductsView.NextTimesClamps` | src/page/ProductsView.jsx:84-86 | k ≥ 1 presses of Next end at min(page + k, totalPages), never above totalPages |
| `ProductsView.ServerErrorText` | src/page/ProductsView.jsx:58-62 | the message is "Server Error: " followed by the server's message, or by "Unknown error occurred" when that message is absent or empty |
| `ProductsView.Settle` | src/page/ProductsView.jsx:44-68 | success replaces the list and count wholesale. isSuccess false or a 404 empties both and sets no error. A non-404 status, no response, or a local failure sets its fixed error and keeps list and count. A body without `data` sets the generic error. A body without `pagination` replaces the list, keeps the count and sets the generic error |
| `ProductsView.SettleSetsErrorOrReplaces` | src/page/ProductsView.jsx:36-68 | after a fetch starts with no error, every outcome either shows an error and keeps the item count, or shows none and replaces list and count together (both emptied, or both taken from the response) |
| `ProductsView.TransportErrorsKeepResults` | src/page/ProductsView.jsx:57-68 | the three transport errors keep `shops` and `totalItems` and show "Server Error: …", "No response from server. Please check your connection." and "An error occurred while processing your request." |
| `ProductsView.NotFoundScenario` | src/page/ProductsView.jsx:53-56 | a 404 gives `shops = []`, `totalItems = 0`, `error = null` |
| `ProductsView.View.constructor` | src/page/ProductsView.jsx:5-12 | initial state: no shops, no error, loading, empty queries, 0 items, page 1, 10 per page |
| `ProductsView.View.StartFetch` | src/page/ProductsView.jsx:36-42 | sets loading and clears the error. The request parameters are the resolver applied to `searchQuery`, `itemsPerPage` and `currentPage` |
| `ProductsView.View.SettleFetch` | src/page/ProductsView.jsx:44-71 | list, count and error become `Settle` of the outcome over their previous values, and loading ends false |
| `ProductsView.View.FetchShops` | src/page/ProductsView.jsx:35-72 | a whole fetch: parameters from the current state, results `Settle` of the outcome over the old list and count with the error cleared, loading false. Query, page and page size are untouched |
| `ProductsView.View.HandlePreviousPage` | src/page/ProductsView.jsx:80-82 | only `currentPage` changes, to `PrevPage` of its old value |
| `ProductsView.View.HandleNextPage` | src/page/ProductsView.jsx:84-86 | only `currentPage` changes, to `NextPage` of its old value and the current page count |
| `ProductsView.View.HandleItemsPerPageChange` | src/page/ProductsView.jsx:88-91 | `itemsPerPage` becomes the chosen size and `currentPage` 1; nothing else changes |
| `ProductsView.View.HandleSearchInput` | src/page/ProductsView.jsx:123 | typing changes only `localSearchQuery` |
| `ProductsView.View.HandleSubmit` | src/page/ProductsView.jsx:93-96 | only `searchQuery` changes, to `localSearchQuery`; the page is not reset |
| `ProductsView.SubmitKeepsPageScenario` | src/page/ProductsView.jsx:74-96 | with 25 items, Next moves to page 2. A submitted search for "chair" then requests page 2, limit 10, `productName` "chair" |
| `AuthContext.Fresh` | src/context/AuthContext.jsx:11-12 | the provider starts unauthenticated with no user |
| `AuthContext.AfterStartup` | src/context/AuthContext.jsx:15-24 | a missing, empty or expired token removes `token` and `username` and redirects to /login. A valid token leaves storage alone, with no redirect, and ends authenticated. The flag always ends as "a token string was read". `user` is untouched |
| `AuthContext.ExpiredTokenStillAuthenticated` | src/context/AuthContext.jsx:17-23 | a present but expired token is removed along with the username, yet startup ends authenticated |
| `AuthContext.StartupFlagIgnoresExpiry` | src/context/AuthContext.jsx:23 | the final flag does not depend on the expiry check at all |
| `AuthContext.AfterLogin` | src/context/AuthContext.jsx:26-45 | login succeeds exactly when a token arrives and decodes. It then stores the token, sets the flag, sets `user` to the decoded claims and redirects to /. A failed request changes nothing. A token that fails to decode is still stored and sets the flag. The thrown message is the server's message when present, else "Login failed" |
| `AuthContext.AfterLogout` | src/context/AuthContext.jsx:47-52 | only the `token` key is removed and every other item is kept. The flag is cleared, `user` is null, and the redirect is to /login |
| `AuthContext.LogoutThenStartup` | src/context/AuthContext.jsx:15-52 | logout keeps the username. The startup of the next provider, after a reload, removes it, ends unauthenticated and redirects to /login once |
| `AuthContext.ReloadAfterLogin` | src/context/AuthContext.jsx:15-40 | after a successful login, a reload ends authenticated with no user, whether or not the token has expired. The token stays stored exactly when it has not expired |
| `AuthContext.UseAuth` | src/context/AuthContext.jsx:62-68 | returns the provider's value when there is one, and otherwise fails with "error in useAuth function" |
| `AuthContext.Storage.GetItem` | src/context/AuthContext.jsx:16 | returns the stored value exactly when the key is present |
| `AuthContext.Storage.SetItem` | src/context/AuthContext.jsx:37 | the key now maps to the value; other keys are kept |
| `AuthContext.Storage.RemoveItem` | src/context/AuthContext.jsx:18-19 | the key is gone; other keys are kept |
| `AuthContext.AuthProvider.constructor` | src/context/AuthContext.jsx:10-13 | the provider's state is `Fresh` over the store's items |
| `AuthContext.AuthProvider.Startup` | src/context/AuthContext.jsx:15-24 | the new store, flag, user and redirects are `AfterStartup` of the old ones |
| `AuthContext.AuthProvider.Login` | src/context/AuthContext.jsx:26-45 | the new state and the thrown error are `AfterLogin` of the old state and the reply |
| `AuthContext.AuthProvider.Logout` | src/context/AuthContext.jsx:47-52 | the new state is `AfterLogout` of the old one |

## Left out

- All rendering is left out: the loading and error overlays, the cards, the
  currency formatting and the select options. Only the disabled conditions of
  the Previous and Next buttons are modelled, as the predicates
  `PreviousDisabled` and `NextDisabled`.
- The effect that refetches on every change of `currentPage`, `itemsPerPage`
  or `searchQuery` is left out. A caller runs `FetchShops` after each handler.
  There is no asynchrony and no interleaving of two requests. The code does not
  discard stale responses, so no ordering is claimed.
- `Number()` is left out as such. The parser is a parameter returning integers.
  Decimals, `Infinity`, and the strings `Number` reads as a number
  (whitespace, hex, exponents, signs) are not modelled by `ParseDecimal`.
- ProductsView.View.HandleItemsPerPageChange: requires one of 5, 10, 20, 50,
  100, the only values the selector can produce. Other page sizes are not
  modelled.
- `totalRow` is taken to be a non-negative integer. A missing, non-integer
  or negative count is not modelled.
- A listing body whose `data` object exists but has no `shops` field is left
  out. So is an error response without a body, whose message read throws out
  of the catch block.
- A login body whose `data` has no `token` field is left out. The code would
  then store the string "undefined".
- The email and password are not modelled. They only go into the request body.
- `console.log` calls, axios, `localStorage` and react-router are left out.
  They are modelled only through the `Storage` class, the outcome datatypes and
  the redirect list.
- The `HomeView.jsx`, `FormRegister.jsx` and `App.jsx` files are left out. They
  are markup or routing that only branches on `isAuthenticated`.
