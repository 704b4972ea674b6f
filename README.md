# Pharmacy inventory: a verified model of its decision logic

This project models the logic of a small pharmacy inventory application written in
JavaScript: a Node/Express API over MongoDB (mongoose schemas, authentication routes and
middleware, medication routes), two React inventory list views, and the browser-side API
client with its token-refresh interceptor. The model is written in Dafny and proves
properties of that model.

Modules, one per part of the program:

- `Wrappers`: `Option` and `Result`.
- `Js`: the JavaScript built-ins the program leans on.
  - `Math.ceil` of a quotient, as integer ceiling division.
  - `String.prototype.toLowerCase` (ASCII letters) and `includes`.
  - `Array.prototype.filter`, `find` and `slice`.
  - The subsequence relation used to state that a filter keeps order.
- `Http`: status codes and the reply shape `{error, message}` against a JSON body.
- `Models`: the mongoose schemas.
  - The required, enum and default rules of User, Medication, Order and Prescription.
  - The user document with its password-hashing `pre('save')` hook, as a class.
  - `comparePassword`.
  - The `isLowStock` and `isExpiringSoon` virtuals.
- `AuthRoutes`: the login, refresh, profile and logout handlers, and the `x-auth-token`
  middleware, which writes `userId`/`userRole` into a request object.
- `MedicationRoutes`:
  - The medication collection as a class (ids in natural order, documents by id, and the
    next id to hand out), whose create, update and delete methods change it in place.
  - Get, list, search, low-stock, expiring-soon and barcode scan, as functions of the
    collection.
- `InventoryView`: the inventory page over its built-in sample data.
  - Search, ten-per-page slicing, `totalPages`, the "Showing x to y of n" label, and the
    Previous/Next rules.
  - The expiry badge.
  - A class for the page state (`searchTerm`, `currentPage`) with the handlers that change it.
- `InventoryComponent`: the same page fed by the API.
  - `fetchMedications`'s state changes, the null-safe search, and the local list update
    after a delete.
- `ApiClient`: the axios interceptors and `authAPI.logout`.
  - `localStorage` and the browser address are a class.
  - The request's headers and `_retry` mark are a class.

Time is integer milliseconds passed in as `now`. A day is 86 400 000 ms. JWT timestamps are
whole seconds, as the JWT library writes them.

A token is abstract data: the secret that signed it, its payload, `iat` and `exp`.
- `jwt.verify` accepts a token exactly when it was signed with the given secret and
  `now < exp * 1000`.
- A bad signature is reported before an expired one.

Password hashing is a function parameter `hash`. `bcrypt.compare(plain, stored)` is read as
`hash(plain) == stored`.

A required string that is absent and one that is empty are both `""`, since mongoose's
`required` rejects both.

A refresh outcome, a confirm dialog or an API call's success is a parameter of the
operation that uses it.

## Model

| member | source | states |
|---|---|---|
| `Js.CeilDiv` | inventory-management.tsx:50 | `Math.ceil(a / b)` for a positive divisor: the result `q` satisfies `(q-1)*b < a <= q*b` |
| `Js.CeilDivAtMost` | mongodb-models.js:119-120 | `ceil(a / b) <= n` holds exactly when `a <= n * b` |
| `Js.ToLower` | inventory-management.tsx:41-43 | lowercasing keeps the length and lowercases each ASCII letter on its own, leaving every other character as it is |
| `Js.ToLowerIdempotent` | inventory-management.tsx:41-43 | lowercasing a lowercased string changes nothing |
| `Js.IncludesIffOccurs` | inventory-management.tsx:41-43 | `includes` holds exactly when the substring occurs at some position |
| `Js.IncludedInEmpty` | updated-inventory-component.js:66 | the empty string contains only the empty string |
| `Js.Filter` | api-routes.js:215 | `filter` keeps no more than it is given, keeps only elements that pass, and keeps every element that passes |
| `Js.FilterPartition` | updated-inventory-component.js:45 | what a filter keeps and what it drops together make up the input, as a multiset |
| `Js.FilterKeepsAll` | inventory-management.tsx:39-44 | a filter that every element passes returns its input unchanged |
| `Js.FilterIsSubsequence` | api-routes.js:215 | a filter keeps the relative order of what it keeps |
| `Js.SubsequenceDistinct` | api-routes.js:214-216 | a subsequence of a list without duplicates has no duplicates |
| `Js.Find` | api-routes.js:250 | `findOne` gives `None` exactly when nothing matches; otherwise it gives the first match |
| `Js.SliceIndex` | inventory-management.tsx:49 | a `slice` index within range is kept; one past the length becomes the length; a negative one counts back from the end, and one before the start becomes 0 |
| `Models.ParseRole` | mongodb-models.js:20-24 | the role enum accepts a string exactly when it names one of `ADMIN`, `PHARMACIST`, `STAFF` |
| `Models.UserErrors` | mongodb-models.js:5-24 | a user validates exactly when name, email and password are present and the role is in the enum |
| `Models.UserDocument.constructor` | mongodb-models.js:10-24 | a new user document stores the email lowercased, defaults the role to `STAFF`, and marks the password as modified |
| `Models.UserDocument.SetPassword` | mongodb-models.js:36-38 | assigning a password marks it as modified and touches no other field |
| `Models.UserDocument.Save` | mongodb-models.js:36-41 | saving validates first; on success the stored password is `hash(password)` when it was modified and is unchanged otherwise; the modified mark is cleared |
| `Models.Register` | mongodb-models.js:5-46 | registering succeeds exactly when the required fields are present and the role is valid; the saved email is lowercased, the role defaults to `STAFF` and an explicit valid role is stored as given, and `comparePassword` accepts the plaintext |
| `Models.RegisterThenResave` | mongodb-models.js:36-41 | re-saving without a new password leaves the saved user as it was; re-saving with one stores that password's hash |
| `Models.MedicationErrors` | mongodb-models.js:54-107 | a medication validates exactly when every required field is present; each missing `expirationDate`, `reorderLevel`, `currentStock` or `name` is reported as required |
| `Models.NewMedication` | mongodb-models.js:54-107 | creating a document fails exactly when a required field is missing, naming a missing `expirationDate`, `reorderLevel`, `currentStock` or `name`; otherwise it copies the fields and defaults `needsPrescription` to true |
| `Models.PatchErrors` | api-routes.js:154-158 | an update with validators fails exactly when it clears a required string field |
| `Models.EmptyPatchIsIdentity` | api-routes.js:154-158 | an update that sets nothing leaves the document as it was |
| `Models.ApplyPatchIdempotent` | api-routes.js:154-158 | applying the same update twice gives the same document as applying it once |
| `Models.StockPatchTouchesOnlyStock` | api-routes.js:154-158 | an update of `currentStock` alone changes only that field |
| `Models.LowStockBoundary` | mongodb-models.js:110-112 | stock equal to the reorder level is low; one above it is not |
| `Models.ExpiringSoonIffWithinWindow` | mongodb-models.js:115-121 | `isExpiringSoon` holds exactly when the expiry is at most 30 days after `now`, including every expiry already past |
| `Models.ExpiringSoonMonotone` | mongodb-models.js:115-121 | once a medication is expiring soon, it stays so at every later instant |
| `Models.ExpiredIsExpiringSoon` | mongodb-models.js:115-121 | an expired medication has at most 0 days left and counts as expiring soon |
| `Models.ExpiringSoonBoundary` | mongodb-models.js:115-121 | an expiry exactly 30 days ahead is expiring soon; one 31 days ahead is not |
| `Models.ParseOrderStatus` | mongodb-models.js:233-237 | the order status enum accepts exactly its five names |
| `Models.NewOrder` | mongodb-models.js:222-255 | an order validates exactly when its required fields are present and its status is in the enum; the status defaults to `PENDING` |
| `Models.ParsePrescriptionStatus` | mongodb-models.js:284-288 | the prescription status enum accepts exactly its four names |
| `Models.NewPrescription` | mongodb-models.js:263-290 | a prescription validates exactly when its required fields are present and its status is in the enum; the status defaults to `ACTIVE` |
| `AuthRoutes.Sign` | api-routes.js:26-36 | a signed token carries the secret and the payload; `iat` is the whole second containing `now` (`iat*1000 <= now < (iat+1)*1000`), and `exp` is `iat` plus the lifetime |
| `AuthRoutes.Verify` | api-routes.js:64 | verification succeeds exactly under the signing secret and before `exp`; a foreign secret is reported as a bad signature and a late check as expired |
| `AuthRoutes.ExpiryInstant` | api-routes.js:29 | a token's last instant lies within one second before issue time plus its lifetime |
| `AuthRoutes.TokenLifetime` | api-routes.js:26-36 | a freshly signed token is accepted under its secret exactly until its expiry instant |
| `AuthRoutes.ForeignSecretRejected` | api-routes.js:64 | a token is never accepted under a secret other than its own |
| `AuthRoutes.Login` | api-routes.js:9-47 | login succeeds exactly when a user with that email exists and the password matches, and otherwise gives 401 `Invalid credentials`; on success the access token has `{userId, role}` under the access secret for one hour, the refresh token has `{userId}` under the refresh secret for seven days, both issued in the second containing the login, and the user summary gives id, name, email and role |
| `AuthRoutes.Refresh` | api-routes.js:55-84 | a missing token gives 401 `Refresh token required`; a token that fails to verify and a user who no longer exists both give 401 `Invalid refresh token`; otherwise the reply is a new one-hour access token issued in the second containing the refresh, with the live user's role, and no refresh token |
| `AuthRoutes.GetProfile` | api-routes.js:87-98 | an unknown user id gives 404 `User not found`; otherwise the reply is the user the lookup finds, without the password |
| `AuthRoutes.Logout` | api-routes.js:101-104 | logout always answers 200 with `success: true` and `Logged out successfully` |
| `AuthRoutes.AuthRequest.constructor` | api-routes.js:270 | a request starts with its header token and with no user id or role set |
| `AuthRoutes.AuthMiddleware` | api-routes.js:268-289 | no token gives 401 `No token, authorization denied`; a token that fails to verify under the access secret gives 401 `Token is not valid`; the handler chain runs exactly when the token verifies, and then the request carries its user id and role; a denied request is left unchanged |
| `AuthRoutes.LoginFailuresIndistinguishable` | api-routes.js:14-23 | an unknown email and a wrong password get the identical 401 reply |
| `AuthRoutes.LoginAccessTokenLifetime` | api-routes.js:26-30 | the access token from login is accepted until one hour after the whole second of login and is rejected from then on |
| `AuthRoutes.RefreshAccessTokenLifetime` | api-routes.js:73-77 | the access token from a refresh is accepted until one hour after the whole second of the refresh and is rejected from then on |
| `AuthRoutes.RefreshTokenSevenDays` | api-routes.js:32-36 | a refresh token still verifies 6 days 23 hours after issue and fails 7 days 1 hour after issue |
| `AuthRoutes.RefreshCarriesLiveRole` | api-routes.js:67-79 | refreshing a login's refresh token within its lifetime gives an access token with the role the user has at refresh time |
| `AuthRoutes.RefreshTokenIsNotAnAccessToken` | api-routes.js:279 | with distinct secrets, the middleware's verification rejects a refresh token as a bad signature |
| `AuthRoutes.AccessTokenIsNotARefreshToken` | api-routes.js:64 | with distinct secrets, the refresh route rejects an access token with 401 `Invalid refresh token` |
| `AuthRoutes.LoginThenAuthorize` | api-routes.js:9-47 | an access token from a successful login passes the middleware until it expires and is denied as not valid afterwards; a failed login leaves no token to send |
| `AuthRoutes.RefreshTokenAsHeader` | api-routes.js:268-289 | with distinct secrets, a refresh token sent as `x-auth-token` is denied as not valid |
| `MedicationRoutes.DocsOf` | api-routes.js:117 | the listed documents are the stored ones under the ids, position by position |
| `MedicationRoutes.DocsOfFilter` | api-routes.js:174 | dropping an id from the id list drops its document from the listing and keeps the rest in order |
| `MedicationRoutes.DeleteKeepsInvariant` | api-routes.js:172-180 | removing one id from the id list and the records keeps every id stored once, below the next id and backed by a document |
| `MedicationRoutes.FilterIdFrame` | api-routes.js:172-180 | after that removal the listing is the old listing without the deleted document, the others in their order |
| `MedicationRoutes.CreateKeepsInvariant` | api-routes.js:140-144 | storing a document under a fresh id keeps the store invariant and appends the document to the listing |
| `MedicationRoutes.MedicationStore.DocsContents` | api-routes.js:117 | `find()` lists each stored document exactly once |
| `MedicationRoutes.MedicationStore.constructor` | api-routes.js:108-112 | the collection starts empty |
| `MedicationRoutes.MedicationStore.GetAll` | api-routes.js:115-123 | the list route answers 200 with exactly the stored documents, each of them once |
| `MedicationRoutes.MedicationStore.GetById` | api-routes.js:126-137 | an absent id gives 404 `Medication not found`; otherwise the reply is the stored document |
| `MedicationRoutes.MedicationStore.Create` | api-routes.js:140-149 | invalid input gives 400 with the validation message and changes nothing; otherwise a new document under a fresh id is appended and returned with 201 |
| `MedicationRoutes.MedicationStore.Update` | api-routes.js:152-169 | an update that clears a required field gives 400; next an absent id gives 404; otherwise only that document changes, by the fields the body sets; 400 and 404 change nothing |
| `MedicationRoutes.MedicationStore.Delete` | api-routes.js:172-185 | an absent id gives 404 and changes nothing; otherwise exactly that id and its document are removed, the others keep their order, and the reply is `Medication deleted successfully` |
| `MedicationRoutes.GetLowStock` | api-routes.js:212-221 | the low-stock route returns exactly the documents with `currentStock <= reorderLevel`, in store order |
| `MedicationRoutes.LowStockNoDuplicates` | api-routes.js:214-216 | the low-stock list has no document twice |
| `MedicationRoutes.MedicationStore.ListRoutesOnListing` | api-routes.js:188-239 | on the store's listing the low-stock, expiring-soon and search routes each list every matching stored document exactly once |
| `MedicationRoutes.GetExpiringSoon` | api-routes.js:224-239 | the expiring-soon route returns exactly the documents expiring between now and 30 days later, both inclusive, in store order |
| `MedicationRoutes.ExpiringRouteIsUnexpiredPartOfVirtual` | api-routes.js:226-232 | a document is in the expiring-soon route's range exactly when its `isExpiringSoon` virtual holds and it has not yet expired |
| `MedicationRoutes.ExpiringRouteWithinVirtual` | api-routes.js:226-232 | every document the route returns has `isExpiringSoon` true |
| `MedicationRoutes.ExpiredMedicationNotListed` | api-routes.js:226-232 | every document of the listing that has already expired has its virtual true, yet the route does not list it |
| `MedicationRoutes.SearchMedications` | api-routes.js:188-209 | an empty term gives 400 `Search term is required`; otherwise the reply is the documents whose name, generic name or category contains the term regardless of case, in store order |
| `MedicationRoutes.ScanBarcode` | api-routes.js:242-261 | an empty barcode gives 400 `Barcode is required`; a non-empty barcode gives 200 exactly when some document carries it, and then the reply is the first such document; otherwise 404 |
| `InventoryView.SampleMedications` | inventory-management.tsx:11-36 | the twelve samples carry ids 1 to 12, and each hard-coded `isLowStock` flag equals `stock <= reorderLevel` |
| `InventoryView.FilterMedications` | inventory-management.tsx:38-44 | the search keeps exactly the medications whose name, generic name or category contains the lowercased term, in list order |
| `InventoryView.MatchesIgnoresTermCase` | inventory-management.tsx:41-43 | a term and its lowercase form match the same medications |
| `InventoryView.EmptyTermKeepsAll` | inventory-management.tsx:38-44 | an empty search term keeps the whole list |
| `InventoryView.CurrentItems` | inventory-management.tsx:47-49 | a page never shows more than ten rows |
| `InventoryView.TotalPages` | inventory-management.tsx:50 | `totalPages` is the fewest pages of ten holding the list, and is 0 exactly for an empty list |
| `InventoryView.PageWindow` | inventory-management.tsx:47-49 | page `p` shows the list from `(p-1)*10` up to `p*10`, clipped to the list's end |
| `InventoryView.PageEmptyIffBeyondLast` | inventory-management.tsx:47-50 | a page is empty exactly when its number exceeds `totalPages` |
| `InventoryView.FullPagesBeforeLast` | inventory-management.tsx:47-50 | every page before the last shows exactly ten rows |
| `InventoryView.PagesFromIsSuffix` | inventory-management.tsx:47-50 | pages `p` to `totalPages` together are the list from position `(p-1)*10` on |
| `InventoryView.AllPagesReproduce` | inventory-management.tsx:47-50 | pages 1 to `totalPages` together are exactly the filtered list |
| `InventoryView.ShowingLabelDescribesPage` | inventory-management.tsx:219-223 | on an existing page, "Showing" and "to" are the 1-based positions of its first and last rows |
| `InventoryView.ShowingLabelBeyondLast` | inventory-management.tsx:219-223 | beyond the last page the "Showing" number exceeds the "to" number |
| `InventoryView.PrevStaysOnAPage` | inventory-management.tsx:228-230 | when Previous can be pressed on an existing page, it leads to a page with rows |
| `InventoryView.NextEnabledOnEmptyResults` | inventory-management.tsx:250-252 | as written, with no results, Next is enabled on page 1 and on every later page, and page 2 is empty |
| `InventoryView.CorrectedNextLeadsToRows` | inventory-management.tsx:250-252 | with Next disabled at `currentPage >= totalPages`, an enabled Next always leads to a page with rows |
| `InventoryView.CorrectedAgreesOnExistingPages` | inventory-management.tsx:250-252 | on pages 1 to `totalPages` the corrected rule and the written one agree |
| `InventoryView.GetExpiryInfo` | inventory-management.tsx:57-72 | `daysLeft` is the time to expiry in days, rounded up; `isExpiringSoon` holds exactly when the expiry is at most 30 days away |
| `InventoryView.ExpiryInfoMatchesVirtual` | inventory-management.tsx:57-72 | the view's days left and flag equal the model's `isExpiringSoon` virtual at the same instant |
| `InventoryView.InventoryPage.constructor` | inventory-management.tsx:5-8 | the page starts on page 1 with an empty search over the sample list |
| `InventoryView.InventoryPage.SetSearchTerm` | inventory-management.tsx:100 | typing changes the term and leaves the page number alone |
| `InventoryView.InventoryPage.ChangePage` | inventory-management.tsx:52-54 | `handleChangePage` sets the page number |
| `InventoryView.InventoryPage.ClickPrevious` | inventory-management.tsx:228-236 | Previous goes back one page unless on page 1, and the page number stays at least 1 |
| `InventoryView.InventoryPage.ClickNext` | inventory-management.tsx:250-258 | Next goes forward one page unless the page number equals `totalPages` |
| `InventoryView.InventoryPage.ClickPageNumber` | inventory-management.tsx:237-249 | numbered button `i` goes to page `i + 1`, which has rows |
| `InventoryComponent.DocMatchesLikeView` | updated-inventory-component.js:63-68 | the null-safe search treats a missing generic name as an empty one; with a generic name present it is the list view's search |
| `InventoryComponent.DocMatchesLikeRouteSearch` | updated-inventory-component.js:63-68 | on the page and in the search route, a document matches the same terms |
| `InventoryComponent.FilterDocs` | updated-inventory-component.js:63-68 | the search keeps exactly the matching documents, in list order |
| `InventoryComponent.RemoveById` | updated-inventory-component.js:45 | the local removal keeps exactly the documents with another id, in list order |
| `InventoryComponent.RemoveByIdPartition` | updated-inventory-component.js:45 | the removal drops only documents carrying the id, and what it keeps plus what it drops is the old list as a multiset |
| `InventoryComponent.RemoveAbsentId` | updated-inventory-component.js:45 | removing an id no document carries changes nothing |
| `InventoryComponent.InventoryList.constructor` | updated-inventory-component.js:7-13 | the component starts with no medications, loading, no error, an empty search, on page 1 |
| `InventoryComponent.InventoryList.FetchMedications` | updated-inventory-component.js:17-35 | a successful fetch sets the list and clears the error; a failed one keeps the list and sets `Failed to load medications. Please try again.`; loading ends false either way |
| `InventoryComponent.InventoryList.HandleDelete` | updated-inventory-component.js:41-60 | only a confirmed delete that the server accepted changes the list, by removing exactly the documents with that id; otherwise nothing changes |
| `InventoryComponent.InventoryList.SetSearchTerm` | updated-inventory-component.js:7 | typing changes only the term |
| `InventoryComponent.InventoryList.ChangePage` | updated-inventory-component.js:76-78 | `handleChangePage` changes only the page number |
| `ApiClient.Browser.SetItem` | frontend-api-service.js:53 | `setItem` writes one key and leaves the address alone |
| `ApiClient.Browser.RemoveItem` | frontend-api-service.js:60-61 | `removeItem` removes one key and leaves the address alone |
| `ApiClient.Browser.Navigate` | frontend-api-service.js:41 | setting the address leaves the storage alone |
| `ApiClient.Request.constructor` | frontend-api-service.js:30 | a new request is not yet marked as retried |
| `ApiClient.InterceptRequest` | frontend-api-service.js:15-24 | the `x-auth-token` header is set to the stored access token exactly when `accessToken` is stored and non-empty (the truthiness test on `getItem`); otherwise the headers are untouched |
| `ApiClient.InterceptResponseError` | frontend-api-service.js:27-69 | a non-401 or an already retried request is rejected with nothing changed; a first 401 marks the request; without a refresh token the browser goes to `/login` and no refresh is made; a successful refresh stores the new access token, puts it in the header and replays; a failed one removes both tokens and goes to `/login` |
| `ApiClient.Send` | frontend-api-service.js:15-69 | one call makes at most one refresh whatever the server answers; success and non-401 errors pass through unchanged; a refreshed replay carries the new token |
| `ApiClient.Logout` | frontend-api-service.js:78-83 | once the logout request succeeds both tokens are removed; if it fails they stay |
| `ApiClient.NoTokenAfterLogout` | frontend-api-service.js:78-82 | after logout neither token counts as stored |
| `ApiClient.EmptyRefreshedTokenIsNoToken` | frontend-api-service.js:17-19 | an empty access token written by a refresh fails the truthiness test on `getItem`, so later requests get no header from it |

## Left out

- Every `catch` branch that answers 500 (database errors, lost connections): the collection
  is an in-memory map and cannot fail.
- The `$regex` search is read as a case-insensitive substring test; regular-expression
  metacharacters in the search term are not modelled.
- Login looks users up by the email exactly as typed, while stored emails are lowercased. The
  model keeps that lookup as it is. Whether the query is lowercased on the way to MongoDB is
  not modelled.
- The unique index on `email`, `orderNumber` and `prescriptionNumber` is not modelled: it is
  enforced by the database, not by the schema's validation.
- JWT signatures and bcrypt salting are abstract. A token is its secret, payload and
  timestamps, and hashing is a function parameter. That the two secrets differ is an
  assumption (`SecretsDistinct`) of the lemmas that need it.
- Express routing order is not modelled. `GET /:id` is registered before `/search`,
  `/low-stock` and `/expiring-soon`; each handler is modelled on its own, and nothing is
  claimed about which handler a path reaches.
- `setDate(getDate() + 30)` is read as exactly 30 days. Daylight-saving shifts of local time
  are not modelled.
- Dates are instants in milliseconds. Parsing date strings, `toLocaleString` and the formatted
  date of the expiry badge are left out.
- Prices, cost prices and amounts are floating point, and nothing computes with them. They
  are `real` fields that are only copied; `toFixed(2)` is left out.
- `createdAt`/`updatedAt` timestamps and `{ timestamps: true }` are not modelled.
- The Transaction and Supplier schemas are not modelled: no route uses them.
- The items and ObjectId references of Order are not checked. Order and Prescription are
  modelled only for their required fields and their status enums and defaults.
- `findByIdAndUpdate`'s casting of values is not modelled. Of its update validators only one
  case is modelled: setting a required string path to `""`. A body that sets a required path
  to `null` (`currentStock`, `expirationDate`, `price` and the others) also gets 400 from those
  validators; `MedicationPatch` cannot express it.
- A create body whose values fail casting (a non-numeric `price`, an unparsable date) gets 400
  from the create route. The typed `MedicationInput` cannot express such a body, so that path
  is not modelled.
- `toJSON`/`toObject` with `virtuals: true` (mongodb-models.js:124-125) puts `isLowStock` and
  `isExpiringSoon` into every medication reply, computed when the reply is serialised. The
  model's replies are bare documents; the virtuals are separate functions of a document.
- `currentStock` and `reorderLevel` are mongoose `Number`s, which accept fractional values.
  The model makes them integers.
- `Js.ToLower`: folds only the ASCII letters A-Z. JavaScript `toLowerCase`, mongoose
  `lowercase: true` and the regex option `i` fold all of Unicode, and some characters change
  the length of the string (`'İ'` lowercases to two code units). So `|r| == |s|` holds for
  the model, not for the program, and non-ASCII search terms are not modelled.
- The profile route's `select('-password')` is modelled as the user record without its
  password field.
- Toasts, `console.error`, rendering and `window.confirm` are left out; confirm is a
  boolean parameter of `HandleDelete`.
- axios networking and promise chaining are left out. Server answers and refresh outcomes
  are parameters, `localStorage` is a map, and `window.location` is a string field.
- The response interceptor reads `error.response.status`. It throws when a request fails
  without a response, as on a network error; that path is not modelled.
- `authAPI.login`, `getProfile` and the other API wrappers only forward a request, and are
  not modelled beyond `Send`.
- `Models.MedicationErrors`: the contract names the required error only for `expirationDate`,
  `reorderLevel`, `currentStock` and `name`. The body reports the other seven required fields
  too; the contract leaves them unstated to keep its proof small.
- `Models.NewMedication`: its failure contract names the required error for the same four
  fields only, for the same reason; its success contract states every copied field.
- `ApiClient.Send`: models one call with at most one replay. The replayed request's own
  interceptor run is included, but a refresh made by a different, concurrent request is not.
- Parts of the UI that do nothing are not modelled: the filter/export/print buttons,
  `filterOpen`, and the Add/Edit buttons.

## Findings

| source | as written | input that shows it | evidently intended | confidence | as-written member | corrected member |
|---|---|---|---|---|---|---|
| inventory-management.tsx:252 | Next is disabled only when `currentPage === totalPages` | a search with no results: `totalPages` is 0, so on page 1 Next is enabled and leads to page 2, which is empty, and Next never becomes disabled again | disable Next when `currentPage >= totalPages` | not executed | `InventoryView.NextEnabledOnEmptyResults` | `InventoryView.CorrectedNextLeadsToRows` |
