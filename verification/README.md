# Storefront core, modelled in Dafny

This project models the parts of an auto- and moto-parts storefront (a Next.js and
TypeScript web shop) that have precise behaviour, and proves properties about them:

- **Authenticated request client** (`HttpClient`). This is the token store over an abstract
  key/value storage, the per-request header record and the error shape. It also covers the
  process-wide single-flight refresh: the `isRefreshing` flag plus a waiter queue. The client
  is a class, `AuthClient`. Each network result is one event method: the first response, the
  refresh result, the retried response. The class invariant `Coordinated` states the
  single-flight discipline: at most one leader, only while refreshing, and followers only
  behind a leader.
- **VIN decoder** (`VinDecoder`): validation against the ISO 3779 alphabet, the WMI/VDS/VIS
  split, and the manufacturer, year, body and engine tables.
- **Serialisation sanitiser** (`Serialization`): the recursive clean-up of a JSON-like tree,
  plus the shop, brand, category and product sanitisers.
- **Catalogue pipelines**:
  - the used-vehicle filter, in-place sort, toggle and active-filter count (`UsedVehicles`);
  - the garage directory filter (`Garages`);
  - the VIP-first partner strip (`GaragePartners`).
- **Password recovery** (`ForgotPassword`): a class holding the step, a six-cell code buffer,
  the error and the loading flag. Each handler is a method, and each delayed completion is an
  explicit timer event.
- **API decoders** for the shop, account and vehicle endpoints (`ShopApi`, `AccountApi`,
  `VehicleApi`). They cover:
  - query parameters, built with a model of `URLSearchParams` (`SearchParams`);
  - the page-navigation window (`Pagination`).
- **Route builders**:
  - the link table (`Url`);
  - the vehicle-search page's mode, props and page header (`VehicleSearch`);
  - the two finder blocks (`Finder`, `FinderMoto`, with the model table in `ModelTable` and
    `MotoCatalogue`);
  - how a finder query is read back by the search page (`FinderSearch`).
- **Country lookup and location provider** (`UserLocation`, `Countries`).
- **Category fallback table** (`CategoryFallbacks`).

The foundations are shared:

- `JsValue` models JavaScript values as a `Json` datatype with:
  - truthiness and nullishness;
  - `||` and `??`;
  - property read, write and delete on records with ordered keys;
  - `Number()` on integers only (a numeric string with a fraction, an exponent or a radix
    prefix, such as `"19.99"`, `"1e3"` or `"0x10"`, reads as `NaN`) and `String()`.
- `Text` models the string primitives: trim, case mapping, joining and number formatting.
- `Seqs` holds filter and subsequence lemmas.
- `Sorting` holds an insertion sort.
- `Wrappers` holds `Option` and `Result`.

A `None` result in a decoder stands for a `TypeError` that the source would throw, such as
reading a field of `null`. Network replies, `fetch`, the clock and the JSON codec are
parameters of the members that use them.

Behaviour of the code that the model follows deliberately:

- On a failed refresh, the code empties the waiter queue without calling any waiter
  (`src/api/http-client.ts:87-90`). Queued followers therefore never settle: the model moves
  them to the phase `Stranded` instead of failing them with `Session expired`.
- A public request does not add `Authorization`, but a caller-supplied `Authorization` header
  still passes through the header spread (`src/api/http-client.ts:59-66`).
  `HttpClient.PublicRequestNotAuthorised` states this precisely.
- When no refresh token is stored, `refreshAccessToken` returns `null` without clearing storage
  (`src/api/http-client.ts:35`).
- A refresh reply whose `accessToken` is falsy counts as a failed refresh for the callers, but
  the new pair has already been stored (`src/api/http-client.ts:45-46`, `82`).
- Without its own `availability`, a back-ordered product reads "Out of Stock"
  (`src/api/real-api/real-shop.api.ts:428`).
- A product with no `price` counts as costing 0 in `getSpecialOffers`, so it is an offer. Yet
  `buildBadges` compares against `NaN` and gives it no sale badge
  (`ShopApi.MissingPriceOfferWithoutSaleBadge`).
- The address of an order ignores `zipCode`, while `mapAddress` falls back to it
  (`AccountApi.MappersAgree`).
- The garage search lower-cases the query without trimming it, so surrounding spaces take part
  in the match (`Garages.UntrimmedSpaceMatchesNothing`).
- A motorcycle search with no brand carries no `moto_brand`, so the search page treats it as a
  vehicle search (`FinderSearch.MotoSubmissionSearchesByMoto`).

## Model

| member | source | states |
|---|---|---|
| HttpClient.TokenRecord | src/api/http-client.ts:20-23 | the record `setTokens` writes holds the access and refresh tokens it was given |
| HttpClient.ReadTokens | src/api/http-client.ts:13-18 | `getTokens` gives `null` outside a browser and when no entry is stored |
| HttpClient.MalformedReadsNull | src/api/http-client.ts:17 | a stored entry that does not parse reads as no tokens |
| HttpClient.ReadAfterWrite | src/api/http-client.ts:13-23 | `setTokens` then `getTokens` gives back the pair written, for a JSON codec that round-trips |
| HttpClient.BuildHeaders | src/api/http-client.ts:59-71 | the header statements build the request's header record |
| HttpClient.RequestHeadersLookup | src/api/http-client.ts:59-71 | `Content-Type` is the caller's or `application/json` and absent for `FormData`; `Authorization` is `Bearer <access token>` for an authorised request, overriding the caller; every other header is the caller's |
| HttpClient.PublicRequestNotAuthorised | src/api/http-client.ts:58-66 | a public request adds no bearer token: its `Authorization` is whatever the caller passed |
| HttpClient.ErrorMessage | src/api/http-client.ts:101-103 | no message (a throw) exactly for a nullish body; else a truthy `message`, then a truthy `error`, then `API error <status>` |
| HttpClient.SettleOutcome | src/api/http-client.ts:101-127 | a non-OK response is an error with its status, the path and the body (`{}` when unreadable); 204 resolves to `undefined`; any other OK response to its body |
| HttpClient.RefreshAccessTokenSpec | src/api/http-client.ts:33-51 | no network call exactly without a stored refresh token, storage kept; a failed, non-OK or unreadable refresh clears storage and gives `null`; success stores the new pair and returns the new access token |
| HttpClient.RetriedHeaders | src/api/http-client.ts:85-86 | the retried fetch carries `Bearer <new token>` and otherwise the first fetch's headers |
| HttpClient.AddCallKeepsCoordinated | src/api/http-client.ts:53-73 | a new call keeps the coordinator invariant and the count of outstanding refreshes |
| HttpClient.SettleKeepsCoordinated | src/api/http-client.ts:101-127 | settling a call that takes no part in a refresh keeps the invariant |
| HttpClient.EnqueueKeepsCoordinated | src/api/http-client.ts:91-95 | a 401 during a refresh joins the queue and keeps the invariant |
| HttpClient.LeadKeepsCoordinated | src/api/http-client.ts:76-79 | a 401 with no refresh running makes the call the single leader; one refresh is outstanding exactly when storage holds a refresh token |
| HttpClient.AfterRefreshPhases | src/api/http-client.ts:79-98 | after the refresh, with a truthy token the leader and every queued call retry with it; otherwise queued calls are stranded and the leader fails with `Session expired`; no other call changes |
| HttpClient.AfterRefreshCoordinated | src/api/http-client.ts:79-90 | once the refresh completes nobody leads or follows, the queue is empty and the invariant holds |
| HttpClient.ReleaseWaiters | src/api/http-client.ts:83-84 | every queued call, and only those, retries with the same token |
| HttpClient.SettleWaiters | src/api/http-client.ts:82-90 | the leader's continuation gives exactly the calls `AfterRefresh` describes |
| HttpClient.AuthClient.constructor | src/api/http-client.ts:30-31 | no refresh running, empty queue, no calls |
| HttpClient.AuthClient.SetTokens | src/api/http-client.ts:20-23 | writes the entry in a browser only; reading afterwards gives the pair back; nothing else changes |
| HttpClient.AuthClient.ClearTokens | src/api/http-client.ts:25-28 | removes the entry in a browser only; reading afterwards gives `null` |
| HttpClient.AuthClient.Request | src/api/http-client.ts:53-73 | a new call whose tokens are read only when protected, with the built headers as its first fetch |
| HttpClient.AuthClient.PublicRequest | src/api/http-client.ts:130-135 | a request with `publicRequest` set: no tokens read |
| HttpClient.AuthClient.ReceiveResponse | src/api/http-client.ts:73-127 | a response that does not call for a refresh settles the call; a refreshable 401 leads when no refresh runs (sending at most one refresh) and queues otherwise; storage unchanged |
| HttpClient.AuthClient.Lead | src/api/http-client.ts:77-79 | the call leads, the flag is set, a refresh is counted exactly when a refresh token is stored |
| HttpClient.AuthClient.Follow | src/api/http-client.ts:91-95 | the call is appended to the queue; no refresh is sent |
| HttpClient.AuthClient.Finish | src/api/http-client.ts:101-127 | the call settles with the outcome; nothing else changes |
| HttpClient.AuthClient.ApplyEffect | src/api/http-client.ts:43-48 | storage after the refresh's `setTokens`/`clearTokens` |
| HttpClient.AuthClient.CompleteRefresh | src/api/http-client.ts:79-90 | flag cleared, queue emptied, the outstanding refresh counted done (single flight), storage effect applied, calls as `AfterRefresh` |
| HttpClient.AuthClient.ReceiveRetryResponse | src/api/http-client.ts:86-127 | the retried response settles the call; a second 401 is never a success |
| HttpClient.QueueShape | src/api/http-client.ts:77-86 | while a refresh runs, the queue holds distinct waiting calls and never the leader |
| HttpClient.CallAfterRefreshWellFormed | src/api/http-client.ts:87-97 | after the refresh no call leads or follows any more |
| HttpClient.ReleasedIsAfter | src/api/http-client.ts:91-97 | releasing the waiters and retrying the leader is the state after a successful refresh |
| HttpClient.StrandedIsAfter | src/api/http-client.ts:87-90 | stranding the waiters and failing the leader is the state after a failed refresh |
| VinDecoder.YearOf | src/services/vinDecoder.ts:83-91 | a year exactly for A-Z without I, O, Q, U, Z, and 1-9 |
| VinDecoder.DecodeVin | src/services/vinDecoder.ts:103-104 | the result carries the upper-cased, trimmed input |
| VinDecoder.Decode | src/services/vinDecoder.ts:106-159 | valid exactly for a valid VIN; an invalid one gives the empty record; serial is the last six characters; year from the 10th; motorcycle exactly for a listed WMI, then body `Moto`; a valid VIN's body style and engine type are read from its VDS, characters 4 to 8 |
| VinDecoder.ValidIffAlphabet | src/services/vinDecoder.ts:99-101 | on the normalised input, valid exactly for 17 digits or upper-case letters other than I, O, Q |
| VinDecoder.ManufacturerFromWmi | src/services/vinDecoder.ts:124 | manufacturer and country from the WMI table, `Inconnu` for an unknown WMI |
| VinDecoder.MotoWmisKnown | src/services/vinDecoder.ts:26-97 | every motorcycle WMI is in the manufacturer table |
| VinDecoder.BodyStylePrecedence | src/services/vinDecoder.ts:128-139 | a saloon exactly without T, K, W, V, C, S in the VDS; T or K gives SUV, else W or V a wagon, else C or S a coupé |
| VinDecoder.EngineTypePrecedence | src/services/vinDecoder.ts:141-147 | petrol exactly without D, L, E, H; D/L means diesel before E/H hybrid |
| VinDecoder.NormaliseIdempotent | src/services/vinDecoder.ts:104 | normalising twice is normalising once |
| VinDecoder.DecodeIdempotent | src/services/vinDecoder.ts:103-160 | decoding the returned `vin` gives the same record |
| Serialization.SanitizeForSerialization | src/utils/serialization.ts:6-39 | the loop-and-recursion procedure computes the sanitiser's function on every value |
| Serialization.SanitizeIsClean | src/utils/serialization.ts:6-39 | on objects without repeated keys the sanitiser equals the reference meaning: arrays mapped, function fields dropped, `undefined` fields `null`, nested values cleaned |
| Serialization.SanitizeFieldsIsClean | src/utils/serialization.ts:16-35 | the field loop from field `i` on appends the cleaned non-function fields after `i` to what it has built |
| Serialization.CleanAll | src/utils/serialization.ts:17-33 | one cleaned field per field taken, in order |
| Serialization.CleanSerializable | src/utils/serialization.ts:21-29 | no object field anywhere in a cleaned value is `undefined` or a function |
| Serialization.CleanRealObjects | src/utils/serialization.ts:16-35 | cleaning never repeats a key |
| Serialization.CleanIdempotent | src/utils/serialization.ts:6-39 | cleaning a cleaned value changes nothing |
| Serialization.SanitizeIdempotent | src/utils/serialization.ts:6-39 | sanitising twice equals sanitising once |
| Serialization.SanitizeSerializable | src/utils/serialization.ts:27-29 | after sanitising no object field anywhere is `undefined` or a function |
| Serialization.SanitizeShape | src/utils/serialization.ts:7-14 | `null`, `undefined` and primitives come back unchanged; an array keeps length and order with each element sanitised, an `undefined` element staying `undefined` |
| Serialization.CleanObjectKeys | src/utils/serialization.ts:17-26 | a cleaned object's keys are its non-function keys, in order |
| Serialization.CleanObjectDrops | src/utils/serialization.ts:24-26 | a field is dropped exactly when its value is a function |
| Serialization.CleanObjectLookup | src/utils/serialization.ts:22-32 | a kept field reads as its cleaned value, `null` for `undefined` |
| Serialization.SanitizeObjectField | src/utils/serialization.ts:16-35 | field by field: keys are the non-function keys in order, functions gone, `undefined` to `null`, nested values sanitised, others copied |
| Serialization.OverrideLookup | src/utils/serialization.ts:47-51 | in `{...j, ...fields}` a written field reads as written, every other as spread |
| Serialization.SanitizeBrand | src/utils/serialization.ts:44-45 | `null` exactly for a falsy brand |
| Serialization.SanitizeBrandFields | src/utils/serialization.ts:44-52 | a brand keeps every field; `latitude`/`longitude` read as before unless nullish, then `null` |
| Serialization.NullFieldsLookup | src/utils/serialization.ts:60-66 | a `?? null` field reads as the original unless nullish; every other as spread |
| Serialization.ShopFields | src/utils/serialization.ts:62-65 | the shop literal writes exactly coordinates, city and country, once each |
| Serialization.SanitizeShop | src/utils/serialization.ts:57-58 | `null` exactly for a falsy shop |
| Serialization.SanitizeShopFields | src/utils/serialization.ts:57-67 | a shop keeps every field; coordinates, city and country read as before unless nullish, then `null` |
| Serialization.CategoryFields | src/utils/serialization.ts:77-80 | the category literal writes exactly `parent`, `children`, `items`, `customFields` |
| Serialization.SanitizeCategory | src/utils/serialization.ts:72-73 | `null` exactly for a falsy category |
| Serialization.SanitizeCategoryFields | src/utils/serialization.ts:72-82 | falsy `parent`/`children` become `null`, `items` 0, `customFields` `{}`; others as spread |
| Serialization.SanitizeCategories | src/utils/serialization.ts:87-89 | `undefined` is the empty list; an array maps element by element; anything else throws |
| Serialization.ProductFields | src/utils/serialization.ts:95-107 | the product literal writes exactly its ten keys |
| Serialization.SanitizeProductForSSP | src/utils/serialization.ts:94-108 | throws exactly for a nullish product or categories neither absent nor an array |
| Serialization.SanitizeProductLookup | src/utils/serialization.ts:94-108 | a written field reads as its written value; every other field is the product's |
| Serialization.SanitizeProductFields | src/utils/serialization.ts:97-106 | nullish `rating`/`compareAtPrice`/`availability` become `null`, `tags`/`badges`/`images` `[]`, `reviews` 0; brand, shop, categories go through their sanitisers |
| UsedVehicles.WithAttr | src/pages/used-vehicles/index.tsx:78-83 | replacing one attribute a multi-select tests leaves the others, the type and the price alone |
| UsedVehicles.FilterStage | src/pages/used-vehicles/index.tsx:63-83 | filtering the survivors of the first `n` stages by stage `n`'s test, or not when it is off, gives the survivors of `n + 1` stages |
| UsedVehicles.SortListing | src/pages/used-vehicles/index.tsx:86-103 | the listing ends sorted by the chosen key and is a permutation of what it was |
| UsedVehicles.FilteredVehicles | src/pages/used-vehicles/index.tsx:63-106 | exactly the matching vehicles, each as often as the listing holds it, ordered by the key; every result has the chosen type and lies within a price bound that parses |
| UsedVehicles.NarrowListing | src/pages/used-vehicles/index.tsx:64-83 | the stage-by-stage filtering keeps exactly the vehicles that pass every filter, in order |
| UsedVehicles.SurvivorsOfNoStage | src/pages/used-vehicles/index.tsx:64 | before any stage the whole listing survives |
| UsedVehicles.SurvivorsOfAllStages | src/pages/used-vehicles/index.tsx:64-83 | after the last stage the survivors are the matching vehicles |
| UsedVehicles.TypeStage | src/pages/used-vehicles/index.tsx:67-69 | the type filter is stage 1 of the pipeline |
| UsedVehicles.MinPriceStage | src/pages/used-vehicles/index.tsx:72-74 | the minimum price filter is stage 2 |
| UsedVehicles.MaxPriceStage | src/pages/used-vehicles/index.tsx:73-75 | the maximum price filter is stage 3 |
| UsedVehicles.SelectStage | src/pages/used-vehicles/index.tsx:78-83 | each multi-select filter is its stage |
| UsedVehicles.UnparsedMinIgnored | src/pages/used-vehicles/index.tsx:72-74 | a minimum that does not parse filters nothing |
| UsedVehicles.UnparsedMaxIgnored | src/pages/used-vehicles/index.tsx:73-75 | a maximum that does not parse filters nothing |
| UsedVehicles.SelectionRestricts | src/pages/used-vehicles/index.tsx:78-83 | a non-empty selection restricts its attribute to the selected values |
| UsedVehicles.EmptySelectionFree | src/pages/used-vehicles/index.tsx:78-83 | an empty selection imposes nothing on its attribute |
| UsedVehicles.UnknownSortIsNewest | src/pages/used-vehicles/index.tsx:99-102 | an unrecognised sort key orders by id, descending, like `newest` |
| UsedVehicles.Toggle | src/pages/used-vehicles/index.tsx:58-60 | a selected value is removed and all others kept; an unselected one is appended |
| UsedVehicles.ToggleTwice | src/pages/used-vehicles/index.tsx:58-60 | toggling an absent value twice restores the selection |
| UsedVehicles.ActiveFilterCount | src/pages/used-vehicles/index.tsx:150-159 | zero exactly when every filter is at its default; at least the number of selected colours |
| UsedVehicles.UnparsedPriceCounted | src/pages/used-vehicles/index.tsx:72-74 | a minimum price that is not a number counts as an active filter yet filters nothing |
| UsedVehicles.UsedVehiclesPage.constructor | src/pages/used-vehicles/index.tsx:30-44 | every hook starts at its default |
| UsedVehicles.UsedVehiclesPage.ToggleArrayFilter | src/pages/used-vehicles/index.tsx:58-60 | the facet's selection toggles; every other state is unchanged |
| UsedVehicles.UsedVehiclesPage.ResetFilters | src/pages/used-vehicles/index.tsx:137-148 | every filter back at its default, sort `newest`, no active filter; search inputs kept |
| UsedVehicles.UsedVehiclesPage.OnSubmitVehicle | src/pages/used-vehicles/index.tsx:109-124 | no navigation without a vehicle; a throw when its id or year is nullish; else the vehicle search whose six distinct keys read as the id (twice), year, make, model and engine |
| UsedVehicles.UsedVehiclesPage.OnSubmitVin | src/pages/used-vehicles/index.tsx:126-134 | no navigation for a blank input; else the search by the trimmed VIN |
| Garages.FilteredGarages | src/pages/garages/index.tsx:17-37 | a garage is kept exactly when its tier passes the filter and, for a non-blank search, its name, city or a specialty contains the lower-cased untrimmed query |
| Garages.FilteredGaragesOrder | src/pages/garages/index.tsx:17-37 | the directory never reorders: the result is a subsequence of the list |
| Garages.VipGarages | src/pages/garages/index.tsx:39 | exactly the VIP garages of the filtered list |
| Garages.NormalGarages | src/pages/garages/index.tsx:40 | exactly the normal garages of the filtered list |
| Garages.SectionsPartition | src/pages/garages/index.tsx:39-40 | the two sections split the filtered list, each garage in exactly one, order kept |
| Garages.UntrimmedSpaceMatchesNothing | src/pages/garages/index.tsx:26-33 | a search with a space finds no garage whose name, city and specialties have none, although the trimmed search might match |
| GaragePartners.DisplayGarages | src/components/blocks/BlockGaragePartners.tsx:9-11 | at most six garages; six, or all when fewer |
| GaragePartners.DisplayShape | src/components/blocks/BlockGaragePartners.tsx:9-11 | six VIPs when there are that many; else every VIP followed by as many normal garages as fit |
| GaragePartners.VipPositions | src/components/blocks/BlockGaragePartners.tsx:9-11 | position `k` is VIP exactly when `k` is below the number of VIPs |
| GaragePartners.VipsFirst | src/components/blocks/BlockGaragePartners.tsx:11 | every VIP shown comes before every normal garage shown |
| GaragePartners.ShownVips | src/components/blocks/BlockGaragePartners.tsx:9-11 | the VIPs shown are the first VIPs of the list, in order |
| GaragePartners.ShownNormals | src/components/blocks/BlockGaragePartners.tsx:10-11 | the normal garages shown are the first normal garages of the list, in order, after the VIPs |
| GaragePartners.NormalsOnlyAfterAllVips | src/components/blocks/BlockGaragePartners.tsx:9-11 | a normal garage is shown only when there are fewer than six VIPs, and then every VIP leads the strip |
| ForgotPassword.StepIndex | src/pages/account/forgot-password.tsx:109 | the index of the step in the step list |
| ForgotPassword.ProgressDots | src/pages/account/forgot-password.tsx:105-127 | a done dot is active; exactly the current step's dot is active and not done |
| ForgotPassword.CellsFilled | src/pages/account/forgot-password.tsx:59 | one-character cells join to at most one character each, and to one per cell exactly when all are filled |
| ForgotPassword.CodeComplete | src/pages/account/forgot-password.tsx:59-60 | the six cells join to six characters exactly when every cell is filled |
| ForgotPassword.DropFirstNonDigit | src/pages/account/forgot-password.tsx:189 | removes exactly the first non-digit, keeping the rest in order: the result is `s[..i] + s[i + 1..]` for the first `i` with `s[i]` not a digit, one character shorter; a string of digits is unchanged |
| ForgotPassword.ForgotPasswordPage.constructor | src/pages/account/forgot-password.tsx:13-19 | the email step, six empty cells, empty fields, not loading, no error |
| ForgotPassword.ForgotPasswordPage.SetEmail | src/pages/account/forgot-password.tsx:14 | the email field takes the value; nothing else changes |
| ForgotPassword.ForgotPasswordPage.SetPassword | src/pages/account/forgot-password.tsx:16-17 | the two password fields take the values; nothing else changes |
| ForgotPassword.ForgotPasswordPage.HandleEmailSubmit | src/pages/account/forgot-password.tsx:21-34 | a blank address or one without `@` sets the error only; a valid one clears it, sets loading and schedules the code step |
| ForgotPassword.ForgotPasswordPage.Schedule | src/pages/account/forgot-password.tsx:30-33 | a timer is appended; the step moves only one ahead |
| ForgotPassword.ForgotPasswordPage.HandleOtpChange | src/pages/account/forgot-password.tsx:36-41 | a value of more than one character is ignored; otherwise only that cell takes it |
| ForgotPassword.ForgotPasswordPage.HandleOtpSubmit | src/pages/account/forgot-password.tsx:56-69 | the reset step is scheduled exactly when all six cells are filled; otherwise the error is set |
| ForgotPassword.ForgotPasswordPage.HandleResetSubmit | src/pages/account/forgot-password.tsx:71-87 | a password under six characters is refused first, then a differing confirmation; otherwise success is scheduled |
| ForgotPassword.ForgotPasswordPage.ResendOtp | src/pages/account/forgot-password.tsx:89-93 | all six cells emptied, loading until its timer fires; email, passwords and error unchanged |
| ForgotPassword.ForgotPasswordPage.FireTimer | src/pages/account/forgot-password.tsx:30-33 | the oldest timer ends loading and, for a submission, moves the step on by one; the step never goes back; the code cells, email, passwords and error unchanged |
| ShopApi.Target | src/api/real-api/real-shop.api.ts:85-97 | a filter entry only ever sets a whitelisted parameter: falsy entries and `category` set none, `vehicle` sets `carId` |
| ShopApi.LastSet | src/api/real-api/real-shop.api.ts:85-97 | the parameter the filter entries leave behind is always one of the allowed names |
| ShopApi.LastSetSnoc | src/api/real-api/real-shop.api.ts:85-97 | each further entry overrides the parameter it targets and leaves every other parameter as it was |
| ShopApi.ProductsListParams | src/api/real-api/real-shop.api.ts:65-97 | the query of `getProductsList` has no duplicate names, and each parameter is the last filter entry setting it, else the option or resolved category id |
| ShopApi.SetOptionParams | src/api/real-api/real-shop.api.ts:66-76 | on empty parameters, sets exactly `page`, `limit`, `sortBy` from truthy options and `categoryId` when the category slug resolves to a truthy id |
| ShopApi.OnlyWhitelisted | src/api/real-api/real-shop.api.ts:78-97 | a name that is neither an option nor in the whitelist (e.g. `brand`, `part_type`) never reaches the query |
| ShopApi.FalsySkipped | src/api/real-api/real-shop.api.ts:86 | removing a filter entry with a falsy value does not change any parameter |
| ShopApi.VehicleBecomesCarId | src/api/real-api/real-shop.api.ts:88-92 | a truthy `vehicle` filter is sent as `carId` unless a later entry sets `carId`; `vehicle` and `category` are never sent under their own names |
| ShopApi.CategoryAsId | src/api/real-api/real-shop.api.ts:71-76 | a category slug that resolves is sent as `categoryId` (unless a filter sets `categoryId` itself), never as `category` |
| ShopApi.StockStatus | src/api/real-api/real-shop.api.ts:401-403 | out of stock exactly for `0` and `'out-of-stock'`, on backorder exactly for `'on-backorder'`, otherwise in stock |
| ShopApi.CarId | src/api/real-api/real-shop.api.ts:408 | reading the car id fails exactly for a nullish entry |
| ShopApi.CarIds | src/api/real-api/real-shop.api.ts:408 | the ids of all entries, one per entry, and a failure exactly when some entry is nullish |
| ShopApi.Compatibility | src/api/real-api/real-shop.api.ts:406-411 | a falsy value means all cars; an array gives exactly its truthy car ids, each as often as it occurs, and fails exactly when it has a nullish entry; a truthy non-array gives `'unknown'` exactly when its `length` is 0, else all cars |
| ShopApi.CompatibilityOrder | src/api/real-api/real-shop.api.ts:408 | the listed ids keep the order of the entries |
| ShopApi.CollapseSpace | src/api/real-api/real-shop.api.ts:441 | the result has no white space, is no longer than the input, every character is `-` or from the input, and a string without white space is unchanged |
| ShopApi.Slug | src/api/real-api/real-shop.api.ts:441 | an attribute slug contains no white space and is already lower case |
| ShopApi.SlugIdempotent | src/api/real-api/real-shop.api.ts:441 | slugging a slug gives it back unchanged |
| ShopApi.CollapseSpaceSplit | src/api/real-api/real-shop.api.ts:441 | a string that does not end in white space collapses on its own, whatever follows it |
| ShopApi.CollapseSpaceJoin | src/api/real-api/real-shop.api.ts:441 | a white-space run between two words becomes a single `-`, the words collapsing on their own |
| ShopApi.SlugOf | src/api/real-api/real-shop.api.ts:441-445 | the slug of a name fails exactly for a truthy non-string, and for a string is its slug |
| ShopApi.MapAttribute | src/api/real-api/real-shop.api.ts:439-447 | an entry maps exactly when it is not nullish and its name (`key` or `name`) and `value` are strings or falsy; the name is `key`, else `name`, else `''`; `featured` defaults to `false` and the value to `''`; each slug is the slug of the name or value it was read from |
| ShopApi.MapAttributes | src/api/real-api/real-shop.api.ts:439-447 | the attributes are mapped one for one, and the mapping fails exactly when one entry's does |
| ShopApi.MapImage | src/api/real-api/real-shop.api.ts:397-399 | a string image is kept, and an image fails exactly when it is nullish |
| ShopApi.MapImages | src/api/real-api/real-shop.api.ts:397-399 | the images are mapped one for one, and fail exactly when one is nullish |
| ShopApi.Badges | src/api/real-api/real-shop.api.ts:452-459 | a badge is listed exactly when it is one of sale, new, hot, featured and the product earns it |
| ShopApi.BuildBadges | src/api/real-api/real-shop.api.ts:452-459 | the pushes of `buildBadges` produce exactly the badge list |
| ShopApi.BadgesOrdered | src/api/real-api/real-shop.api.ts:452-459 | badges come in the order sale, new, hot, featured, each at most once |
| ShopApi.MapProduct | src/api/real-api/real-shop.api.ts:396-450 | the record maps exactly when it is not nullish, neither its description fallback nor its categories throw, and its images, compatible cars and specifications map; a mapped product copies `id`; name, description, slug, sku, part number, tags, reviews and badges each take their own value when truthy, else their fallback; it has the stock status, the numeric price, a compare price and a rating exactly when truthy, an availability that is its own when truthy, else "In Stock" or "Out of Stock" by its stock status, the mapped images and attributes, and the compatibility of its record |
| ShopApi.AvailabilityFollowsStock | src/api/real-api/real-shop.api.ts:428 | without its own availability a product reads "In Stock" exactly when in stock; a back-ordered one reads "Out of Stock" |
| ShopApi.MapProducts | src/api/real-api/real-shop.api.ts:100 | the products are mapped one for one, and fail exactly when one mapping does |
| ShopApi.DataProducts | src/api/real-api/real-shop.api.ts:100 | the products map exactly when the reply is not nullish, `data` is an array or falsy and every entry maps; then each product is `mapProduct` of its `data` entry, one for one, and a falsy `data` gives none |
| ShopApi.ProductsListResult | src/api/real-api/real-shop.api.ts:99-115 | the list holds the mapped `data`, the navigation computed from `meta`, the asked sort or `'default'`, and the reply's `filters` when an array, else none |
| ShopApi.SpecialOffers | src/api/real-api/real-shop.api.ts:249-255 | the offers are exactly the mapped products whose compare price is truthy and above the price |
| ShopApi.SpecialOffersOrder | src/api/real-api/real-shop.api.ts:254 | the offers keep the order of the listing |
| ShopApi.OfferIffSaleBadge | src/api/real-api/real-shop.api.ts:254 | for a numeric price of zero or more, a product is an offer exactly when it earns the sale badge |
| ShopApi.MissingPriceOfferWithoutSaleBadge | src/api/real-api/real-shop.api.ts:422 | a product without a price is an offer yet earns no sale badge |
| ShopApi.CeilDiv | src/api/real-api/real-shop.api.ts:316 | for a positive divisor, the least multiple count covering the dividend |
| ShopApi.FallbackPages | src/api/real-api/real-shop.api.ts:316 | at least one page, and for a positive total the fewest pages of `limit` that hold it |
| ShopApi.RawList | src/api/real-api/real-shop.api.ts:311-313 | an array reply is the list itself; a nullish reply fails |
| ShopApi.SearchResults | src/api/real-api/real-shop.api.ts:310-323 | the mapped products; `total` from `meta.total`, else `res.total`, else the product count; `page` from `meta.page`, else `res.page`, else the requested page; `totalPages` from `meta.totalPages`, else `res.totalPages`, else computed from the total |
| SearchParams.UrlSearchParams.Set | src/api/real-api/real-account.api.ts:94-97 | `params.set` gives the name its new value and keeps every other name's value |
| Pagination.SetListOptions | src/api/real-api/real-account.api.ts:94-97 | on empty parameters, exactly `page`, `limit` and `sortBy` are set, each from a truthy option |
| Pagination.PageNavigation | src/api/real-api/real-account.api.ts:103-111 | a reply without `meta` gives the window from 1 to 0 |
| Pagination.Window | src/api/real-api/real-account.api.ts:105-110 | page, limit, total and page count are each the given value when truthy, else 1, 20, 0 and 1; the window `from`/`to` is computed from the page and limit it reports |
| Pagination.NumericFrom | src/api/real-api/real-account.api.ts:109 | with numeric fields the window starts at `(page - 1) * limit + 1` |
| Pagination.NumericTo | src/api/real-api/real-account.api.ts:110 | with numeric fields the window ends at `min(page * limit, total)` |
| Pagination.WindowBounds | src/api/real-api/real-shop.api.ts:111-112 | on a page within the total the window lies in `1..total`, holds at most `limit` items and is full unless it is the last page |
| Pagination.NextPageFrom | src/api/real-api/real-shop.api.ts:111 | page `p + 1` starts right after `p * limit` |
| Pagination.PagesTile | src/api/real-api/real-shop.api.ts:111-112 | consecutive full pages tile the list without gap or overlap |
| Pagination.MetaWindow | src/api/real-api/real-shop.api.ts:105-113 | for a numeric `meta` within the total, `from`/`to` are `(page - 1) * limit + 1` and `min(page * limit, total)` and lie in `1..total` |
| AccountApi.MapUser | src/api/real-api/real-account.api.ts:128-136 | a nullish user throws; each of the five fields is the user's own when truthy and `''` otherwise (a falsy `null`, `0` or `false` included) |
| AccountApi.CompleteSignIn | src/api/real-api/real-account.api.ts:13-29 | a nullish reply stores nothing; otherwise the two tokens are stored (and read back by `getTokens`) before the user is mapped |
| AccountApi.SignOut | src/api/real-api/real-account.api.ts:31-39 | whatever the logout call does, the stored tokens are removed |
| AccountApi.FieldsOf | src/api/real-api/real-account.api.ts:141-151 | each of the eleven fields is the record's own when truthy, else `''`; a truthy `address1` beats `street`, which beats `''`; the postcode is the one given or `''` |
| AccountApi.MapAddress | src/api/real-api/real-account.api.ts:138-154 | a nullish record throws; the id is copied, `default` is `isDefault` or `false`, and the text fields are the record's, with the postcode falling back to `zipCode` |
| AccountApi.MapAddressData | src/api/real-api/real-account.api.ts:216-230 | an order's address has the record's text fields and takes the postcode only from `postcode` |
| AccountApi.MappersAgree | src/api/real-api/real-account.api.ts:138-230 | the two address mappers agree except that an order's address drops a `zipCode`-only postcode |
| AccountApi.ApiValues | src/api/real-api/real-account.api.ts:156-171 | twelve values, one per API name |
| AccountApi.ApiKeysDistinct | src/api/real-api/real-account.api.ts:158-169 | the API object's twelve names are all different |
| AccountApi.MapAddressToApi | src/api/real-api/real-account.api.ts:156-171 | the object has exactly the twelve API names, none twice |
| AccountApi.ApiField | src/api/real-api/real-account.api.ts:156-171 | each API name reads as the form value written under it |
| AccountApi.ApiFields | src/api/real-api/real-account.api.ts:156-171 | the built object reads back every form value under its API name |
| AccountApi.ApiNames | src/api/real-api/real-account.api.ts:158-160 | an object holding the API values carries the form's names and company |
| AccountApi.ApiStreet | src/api/real-api/real-account.api.ts:161-163 | an object holding the API values carries the form's country and street lines |
| AccountApi.ApiLocality | src/api/real-api/real-account.api.ts:164-166 | an object holding the API values carries the form's city, state and postcode |
| AccountApi.ApiContact | src/api/real-api/real-account.api.ts:167-169 | an object holding the API values carries the form's e-mail, phone and `isDefault` flag |
| AccountApi.ApiNoExtras | src/api/real-api/real-account.api.ts:156-171 | the built object has no `id`, `street` or `zipCode` |
| AccountApi.ApiMissing | src/api/real-api/real-account.api.ts:156-171 | any other name reads as `undefined` |
| AccountApi.MapCarried | src/api/real-api/real-account.api.ts:138-154 | `mapAddress` reads the form back from any record carrying it |
| AccountApi.AddressRoundTrip | src/api/real-api/real-account.api.ts:56-171 | an address sent with `mapAddressToApi` and read with `mapAddress` keeps every string field and its default flag, and has no id |
| AccountApi.GetAddresses | src/api/real-api/real-account.api.ts:88-91 | a falsy reply gives no addresses; otherwise every entry is mapped one for one, failing for a non-array or a nullish entry |
| AccountApi.FirstDefault | src/api/real-api/real-account.api.ts:78 | the position of the first address flagged default, or none exactly when no address is |
| AccountApi.DefaultAddress | src/api/real-api/real-account.api.ts:76-79 | no address exactly for an empty list, otherwise one of the addresses |
| AccountApi.DefaultAddressChoice | src/api/real-api/real-account.api.ts:76-79 | the default is the first flagged address, else the first address |
| AccountApi.GetAddress | src/api/real-api/real-account.api.ts:81-86 | `Address not found` exactly when no id equals the one asked; otherwise the first address with that id |
| AccountApi.Plus | src/api/real-api/real-account.api.ts:204 | a sum that has become text stays text; numbers add |
| AccountApi.QuantityIsSum | src/api/real-api/real-account.api.ts:204 | with numeric quantities the order's quantity is their sum |
| AccountApi.TextQuantityStaysText | src/api/real-api/real-account.api.ts:204 | one string quantity turns the order's quantity into text |
| AccountApi.Fee | src/api/real-api/real-account.api.ts:207-208 | a missing fee counts as 0, a number as itself |
| AccountApi.Totals | src/api/real-api/real-account.api.ts:206-209 | exactly two totals, shipping then tax, from their fees |
| AccountApi.MapOrderItem | src/api/real-api/real-account.api.ts:181-203 | the line throws exactly when it is nullish or its product's `description` has no `slice`, its `images` no `map`, or an image is nullish; the product id falls back to `productId`, the name to `''`; quantity comes from the line, and price and total are the line's values read by the integer-only `Number()` |
| AccountApi.OrderItems | src/api/real-api/real-account.api.ts:181-203 | the lines, none of which throws, are mapped one for one |
| AccountApi.Status | src/api/real-api/real-account.api.ts:180 | a non-string status throws; the status is never empty and is the lower-cased status when one is given |
| AccountApi.MapOrder | src/api/real-api/real-account.api.ts:173-214 | the order maps exactly when it is not nullish, its status is a string or nullish and its lines are an array none of whose entries throws; then it holds the id, the `createdAt` and payment method defaults, the status, `Number` of subtotal and total, one item per line, their quantity, the two totals, and the same shipping and billing address (`mapAddressData` of a truthy `address`, else empty) |
| AccountApi.OrderToken | src/api/real-api/real-account.api.ts:176-177 | without an order number the token is the id and the number empty; with one both are the number |
| AccountApi.DataOrders | src/api/real-api/real-account.api.ts:101 | the orders map exactly when the reply is not nullish, `data` is an array or falsy and no entry throws; then each order is `mapOrder` of its `data` entry, one for one |
| AccountApi.OrdersListParams | src/api/real-api/real-account.api.ts:93-97 | the orders query has no duplicate names and holds exactly the truthy page, limit and sort |
| AccountApi.OrdersListResult | src/api/real-api/real-account.api.ts:99-112 | the list holds the mapped orders, the navigation from `meta` and sort `'default'` when none was asked |
| AccountApi.OrdersWindow | src/api/real-api/real-account.api.ts:103-111 | for a numeric `meta` the orders window is `(page - 1) * limit + 1` to `min(page * limit, total)` inside `1..total` |
| VehicleApi.MapVehicle | src/api/real-api/real-vehicle.api.ts:56-74 | anything falsy or not an object is the empty vehicle; every field is truthy or its default |
| VehicleApi.MapVehicleFields | src/api/real-api/real-vehicle.api.ts:67-73 | each of `id`, `year`, `make`, `model` is the record's own when truthy, else `0` or `''`; `engine` falls back to `trim` then `''` |
| VehicleApi.ArrayOrEmpty | src/api/real-api/real-vehicle.api.ts:6-20 | an array reply is returned as is, anything else as no entries |
| VehicleApi.MakesPath | src/api/real-api/real-vehicle.api.ts:11-13 | `?year=` is added exactly for a truthy year |
| VehicleApi.ModelsPath | src/api/real-api/real-vehicle.api.ts:17-18 | the path is `/cars/models/` followed by the encoded make |
| VehicleApi.ModelsPathIgnoresYear | src/api/real-api/real-vehicle.api.ts:17-18 | the requested path does not depend on the year |
| VehicleApi.ItemsOf | src/api/real-api/real-vehicle.api.ts:29-30 | an array is its own items and a nullish reply throws; an object gives its `data` array, none when `data` is falsy, and throws when `data` is a truthy non-array; any other value gives none |
| VehicleApi.GetVehicles | src/api/real-api/real-vehicle.api.ts:22-31 | every item is mapped, one for one |
| VehicleApi.UserVehicle | src/api/real-api/real-vehicle.api.ts:41 | a nullish entry throws; otherwise its truthy `car`, else the entry, is mapped |
| VehicleApi.GetUserVehicles | src/api/real-api/real-vehicle.api.ts:38-42 | the garage maps one vehicle per entry, failing exactly when the items do or an entry is nullish |
| Url.StaticPath | src/services/url.ts:13-113 | every fixed page address is an absolute path |
| Url.RootPages | src/services/url.ts:15-111 | only the home page and the store-location page lead to `/` |
| Url.ParamLink | src/services/url.ts:37-58 | `href` is `<base>/[<param>]?<param>=<value>` and `as` is `<base>/<value>` |
| Url.ParamOf | src/services/url.ts:37-40 | a parameter read back from a link's address is exactly the suffix after `<base>/` |
| Url.ParamRoundTrip | src/services/url.ts:37-58 | the value a dynamic link is built with is what its address gives back |
| Url.ParamLinkInjective | src/services/url.ts:37-58 | two links of one route are equal exactly when their values are |
| Url.Product | src/services/url.ts:37-40 | `href` is `/products/[slug]?slug=` and `as` is `/products/`, each followed by the product's slug, which the address gives back |
| Url.Brand | src/services/url.ts:46-49 | `href` is `/supplier/[slug]?slug=` and `as` is `/supplier/`, each followed by the brand's slug, which the address gives back |
| Url.GarageProfile | src/services/url.ts:55-58 | `href` is `/garages/[slug]?slug=` and `as` is `/garages/`, each followed by the slug, which the address gives back |
| Url.CheckoutSuccess | src/services/url.ts:61-64 | `href` is `/cart/checkout/[token]?token=` and `as` is `/cart/checkout/`, each followed by the order token as a template literal writes it, which the address gives back |
| Url.AccountOrderView | src/services/url.ts:94-97 | `href` is `/account/orders/[id]?id=` and `as` is `/account/orders/`, each followed by the order id as a template literal writes it, which the address gives back |
| Url.AccountAddressEdit | src/services/url.ts:103-106 | `href` is `/account/addresses/[id]?id=` and `as` is `/account/addresses/`, each followed by the address id as a template literal writes it, which the address gives back |
| Url.AccountAddressNew | src/services/url.ts:99-102 | the address gives back `new` |
| Url.AddressNewIsEdit | src/services/url.ts:99-106 | the new-address link is the edit link of the id `new` |
| Url.ShopCategory | src/services/url.ts:25-28 | `/products` is appended to both `href` and `as` exactly for the `products` layout |
| Url.ShopCategoryInjective | src/services/url.ts:25-28 | for slugs without `/`, two categories share an address exactly when slug and products-layout agree |
| Url.CategoryLink | src/services/url.ts:16-22 | a shop category links as `shopCategory`, every other kind to `/` |
| Url.Products | src/services/url.ts:29-36 | the product list link has path `/catalog/products` and an empty query without filters |
| Url.ProductsCopiesFilters | src/services/url.ts:29-36 | every filter reaches the query unchanged, and nothing else |
| Url.ShopLink | src/services/url.ts:50-53 | a shop page link exactly for a shop with a non-empty slug, which its address gives back; else `/catalog` |
| Url.Search | src/services/url.ts:68-71 | `href` and `as` are the same `/search?query=` string ending in the encoded query |
| Router.VinSearch | src/components/blocks/BlockFinder.tsx:41-52 | nothing for a blank input, otherwise the search page with the trimmed input as `vin` |
| VehicleSearch.QueryOr | src/pages/vehicle-search.tsx:54-64 | a truthy query value is kept, anything else reads as `''` |
| VehicleSearch.ServerSideProps | src/pages/vehicle-search.tsx:39-88 | VIN mode exactly for a non-blank string `vin`, else moto mode exactly for a string `moto_brand`, else vehicle mode; each mode fills only its own fields; the shop filters exist exactly for a string `req.url` and get `vehicle` only from a non-empty vehicle id |
| VehicleSearch.PartsTitle | src/pages/vehicle-search.tsx:127-134 | no non-empty part gives the fallback title, one part gives that part |
| VehicleSearch.PartsTitleOfStrings | src/pages/vehicle-search.tsx:127-134 | for any list of strings, the title is the non-empty ones joined by single spaces, or the fallback when all are empty |
| VehicleSearch.PartsTitleThree | src/pages/vehicle-search.tsx:127-134 | for any three strings, the title is the non-empty ones joined by single spaces, or the fallback when all three are empty |
| VehicleSearch.PartsTitleAll | src/pages/vehicle-search.tsx:133-134 | three non-empty parts are joined with single spaces |
| VehicleSearch.KeepAllTruthy | src/pages/vehicle-search.tsx:127-133 | `filter(Boolean)` keeps three truthy parts |
| VehicleSearch.PartsTitleSkipsEmpty | src/pages/vehicle-search.tsx:133-134 | an empty middle part is skipped, not joined as a blank |
| VehicleSearch.PartsTitleNone | src/pages/vehicle-search.tsx:134 | only empty parts leave the fallback title |
| VehicleSearch.BuildPageInfo | src/pages/vehicle-search.tsx:109-141 | the breadcrumb always has three entries starting with Accueil; a valid VIN titles `manufacturer year` with subtitle `VIN: vin`, an invalid one `VIN invalide`; moto and vehicle titles are their joined parts or fallbacks, subtitles the part type or engine or defaults |
| FinderSearch.VinSubmissionSearchesByVin | src/pages/vehicle-search.tsx:47-49 | a VIN submission opens the VIN search, and the page decodes the same VIN as the typed input |
| FinderSearch.NeitherVinNorMoto | src/pages/vehicle-search.tsx:47-65 | a query without `vin` and `moto_brand` selects the vehicle search |
| FinderSearch.QueryOrString | src/pages/vehicle-search.tsx:60-64 | a string value reads back as itself, an absent key as `''` |
| FinderSearch.VehicleSubmissionSearchesByVehicle | src/components/blocks/BlockFinder.tsx:28-37 | a vehicle submission selects the vehicle search and the page reads back id, year, make, model and engine |
| FinderSearch.MotoSubmissionSearchesByMoto | src/components/blocks/BlockFinderMoto.tsx:65-82 | a motorcycle submission selects the motorcycle search exactly when a brand was chosen, and the page reads back all four choices |
| Finder.ToStringCall | src/components/blocks/BlockFinder.tsx:31-32 | `toString()` throws exactly on a nullish value |
| Finder.VehicleKeysDistinct | src/components/blocks/BlockFinder.tsx:31-36 | the vehicle query's six keys are distinct |
| Finder.VehicleQueryFields | src/components/blocks/BlockFinder.tsx:28-37 | the query holds exactly the six keys, reads back id, year, make, model and engine, and `filter_vehicle` equals `vehicle_id` |
| Finder.VehicleQueryKeys | src/components/blocks/BlockFinder.tsx:30-37 | a vehicle query has no `vin` and no `moto_brand` |
| Finder.MappedVehicleConverts | src/components/blocks/BlockFinder.tsx:31-32 | a vehicle built by `mapVehicle` always converts its id and year |
| Finder.Finder.constructor | src/components/blocks/BlockFinder.tsx:17-19 | no vehicle, the vehicle tab, an empty VIN field |
| Finder.Finder.SelectTab | src/components/blocks/BlockFinder.tsx:76-86 | only the tab changes |
| Finder.Finder.SelectVehicle | src/components/blocks/BlockFinder.tsx:17 | only the vehicle changes |
| Finder.Finder.TypeVin | src/components/blocks/BlockFinder.tsx:120 | the VIN field holds the typed text upper-cased; nothing else changes |
| Finder.Finder.SubmitVehicle | src/components/blocks/BlockFinder.tsx:21-39 | nothing without a vehicle; a nullish id or year throws; otherwise the search for the vehicle's query |
| Finder.Finder.SubmitVin | src/components/blocks/BlockFinder.tsx:41-52 | nothing exactly for a blank field, otherwise the search for the trimmed VIN |
| FinderMoto.Present | src/components/blocks/BlockFinderMoto.tsx:68-76 | the record a run of conditional assignments builds has only the run's keys |
| FinderMoto.LookupPresent | src/components/blocks/BlockFinderMoto.tsx:68-76 | each key of the run reads as its value when non-empty and is absent otherwise; no key twice |
| FinderMoto.PresentNext | src/components/blocks/BlockFinderMoto.tsx:68-76 | each further assignment adds a key not yet present |
| FinderMoto.PutIfSet | src/components/blocks/BlockFinderMoto.tsx:69-76 | one `if (v) query[k] = v` extends the record by that one assignment |
| FinderMoto.MotoKeysDistinct | src/components/blocks/BlockFinderMoto.tsx:69-76 | the six query keys are distinct |
| FinderMoto.MotoQueryFields | src/components/blocks/BlockFinderMoto.tsx:68-76 | a `moto_` key is present only for a chosen field and carries it; `filter_brand` and `filter_part_type` mirror `moto_brand` and `moto_part_type`; no other key |
| FinderMoto.FinderMoto.constructor | src/components/blocks/BlockFinderMoto.tsx:33-38 | the motorcycle tab and all fields empty |
| FinderMoto.FinderMoto.SelectTab | src/components/blocks/BlockFinderMoto.tsx:124-134 | only the tab changes |
| FinderMoto.FinderMoto.SelectBrand | src/components/blocks/BlockFinderMoto.tsx:148 | a new brand clears the model; nothing else changes |
| FinderMoto.FinderMoto.SelectModel | src/components/blocks/BlockFinderMoto.tsx:158 | only the model changes |
| FinderMoto.FinderMoto.SelectYear | src/components/blocks/BlockFinderMoto.tsx:169 | only the year changes |
| FinderMoto.FinderMoto.SelectPartType | src/components/blocks/BlockFinderMoto.tsx:179 | only the part type changes |
| FinderMoto.FinderMoto.TypeVin | src/components/blocks/BlockFinderMoto.tsx:208 | the VIN field holds the typed text upper-cased |
| FinderMoto.FinderMoto.SubmitMoto | src/components/blocks/BlockFinderMoto.tsx:65-82 | the search page with the query of the chosen fields |
| FinderMoto.FinderMoto.SubmitVin | src/components/blocks/BlockFinderMoto.tsx:84-95 | nothing for a blank input; else the search page with the trimmed input as `vin` |
| ModelTable.Brands | src/components/blocks/BlockFinderMoto.tsx:40 | the table's keys in table order |
| ModelTable.ModelsOf | src/components/blocks/BlockFinderMoto.tsx:43-44 | a brand's models when the table has it, none exactly when it does not |
| ModelTable.AvailableModels | src/components/blocks/BlockFinderMoto.tsx:42-45 | no models for an empty or unknown brand, else the brand's entry |
| ModelTable.SortedBrands | src/components/blocks/BlockFinderMoto.tsx:40 | the brand list is sorted and a permutation of the table's keys |
| ModelTable.OfferedBrandsHaveModels | src/components/blocks/BlockFinderMoto.tsx:40-45 | in a complete table every offered brand has models |
| ModelTable.Years | src/components/blocks/BlockFinderMoto.tsx:62-63 | thirty consecutive years descending from the current one |
| MotoCatalogue.CatalogueComplete | src/components/blocks/BlockFinderMoto.tsx:12-29 | every brand of the table is named and has models |
| MotoCatalogue.OfferedBrandsHaveModels | src/components/blocks/BlockFinderMoto.tsx:40-45 | every brand in the selector has models to choose from |
| UserLocation.FindIndex | src/services/userLocation.tsx:208-210 | the first entry satisfying the test, or none exactly when no entry does |
| UserLocation.ByCode | src/services/userLocation.tsx:207 | the entry stored under a code, or none exactly when no entry has it |
| UserLocation.ByName | src/services/userLocation.tsx:208-210 | the first entry whose lower-cased name matches, or none exactly when none does |
| UserLocation.CoordsIn | src/services/userLocation.tsx:204-212 | null for a missing or blank input; a two-letter code's entry; else the first entry of that name ignoring case; else null |
| UserLocation.CoordsIgnoreBlanks | src/services/userLocation.tsx:205-209 | surrounding blanks make no difference |
| UserLocation.CodesIgnoreCase | src/services/userLocation.tsx:206-207 | a code gives the same entry in either case |
| UserLocation.CodeHit | src/services/userLocation.tsx:206-207 | a two-character code gives its entry |
| UserLocation.NameHit | src/services/userLocation.tsx:208-211 | another input gives the first entry of that name |
| UserLocation.FirstTruthy | src/services/userLocation.tsx:45 | an `\|\|` chain gives a truthy value or its last operand |
| UserLocation.FirstTruthyIsFirst | src/services/userLocation.tsx:45 | the chain gives its first truthy value |
| UserLocation.FirstTruthyNone | src/services/userLocation.tsx:45 | with no truthy value the chain gives its last operand |
| UserLocation.ReverseGeocode | src/services/userLocation.tsx:42-56 | geocoding throws exactly when the country code is a truthy non-string; otherwise the code is that value upper-cased, the country is `country` or `''`, and the region is `state`, else `county`, else `''` |
| UserLocation.CityNames | src/services/userLocation.tsx:45 | the four names a place may have |
| UserLocation.GeocodedCity | src/services/userLocation.tsx:45 | the city is the first truthy of city, town, village and hamlet, else `''` |
| UserLocation.GeocodedAddress | src/services/userLocation.tsx:49-54 | when the road, neighbourhood, city and country are strings, the address is the non-empty ones, in that order, joined by `, ` |
| UserLocation.CityCountryAddress | src/services/userLocation.tsx:53-54 | without road and neighbourhood the address is `city, country` |
| UserLocation.FromPosition | src/services/userLocation.tsx:66-91 | loaded with the browser's coordinates; the geocoded country, code, city, region and address when geocoding succeeds; the default fields when it fails |
| UserLocation.FromIp | src/services/userLocation.tsx:115-157 | always loaded with an upper-case code; the default when ipapi fails or lacks coordinates; otherwise ipapi's coordinates with the geocoded place, whose empty code falls back to ipapi's upper-cased code, and the default when that code throws |
| UserLocation.IpFieldsWhenGeocodingFails | src/services/userLocation.tsx:133-148 | when geocoding fails, ipapi's city, country and region or `''`; the address joins city and country dropping an empty one; the code is ipapi's, upper-cased |
| UserLocation.IpCodeThrows | src/services/userLocation.tsx:125-156 | a truthy non-string ipapi code makes the fallback settle on the default |
| UserLocation.LocationProvider.constructor | src/services/userLocation.tsx:60 | the provider starts at the default location |
| UserLocation.LocationProvider.OnPosition | src/services/userLocation.tsx:65-92 | the position callback stores the located place |
| UserLocation.LocationProvider.OnIpFallback | src/services/userLocation.tsx:93-157 | the IP fallback stores the located place |
| Countries.CountryCoords | src/services/userLocation.tsx:204-212 | null for a missing or blank input; any result is an entry of the table |
| Countries.CodesDistinct | src/services/userLocation.tsx:188-201 | the table's codes are distinct |
| Countries.TogoByCode | src/services/userLocation.tsx:189-207 | `'tg'`, `'TG'` and padded forms all give Togo |
| Countries.GhanaByName | src/services/userLocation.tsx:190-211 | the name Ghana in any case gives Ghana |
| CategoryFallbacks.TableShape | src/services/categoryFallbacks.ts:2-13 | every list of the table holds three distinct slugs |
| CategoryFallbacks.CategoryFallbacksOf | src/services/categoryFallbacks.ts:29-31 | a listed slug gives exactly its list, in order; any other slug `[]` |
| CategoryFallbacks.HasFallbacksIffListed | src/services/categoryFallbacks.ts:29-31 | a slug has fallbacks exactly when the table lists it |
| CategoryFallbacks.EnginePartsFallbacks | src/services/categoryFallbacks.ts:4-31 | `engine-parts` gives `moteur`, `engine`, `drivetrain` |
| CategoryFallbacks.SafeCategoryList | src/services/categoryFallbacks.ts:15-35 | the eleven common slugs, each once |

## Left out

- **Network, storage and browser I/O.**
  - `fetch`, Nominatim, ipapi and browser geolocation become parameters carrying their decoded
    answers.
  - `localStorage` is a `map<string, string>`.
  - The router push is a returned value.
  - The Redux dispatch in `getServerSideProps` is left out; the filters it would receive are
    returned instead.
- **Asynchrony.**
  - Promises and interleavings are modelled as discrete event methods on `AuthClient` and
    `LocationProvider`.
  - The password page's `setTimeout` completions are explicit timer events.
- **Floating point.**
  - JSON numbers are integers, and `NaN` is a separate `Number` case.
  - `Number()` of a string accepts only an optionally signed run of digits; a fraction, an
    exponent or a radix prefix gives `NaN`. The price lines below say what that changes.
  - Country coordinates are in ten-thousandths of a degree.
  - The provider's coordinates are copied values.
  - `haversineDistance` is not part of this model.
- **Foreign primitives, taken as parameters or specified directly.**
  - `JSON.stringify` and `JSON.parse` form a codec parameter. Its round trip is a precondition
    of `HttpClient.ReadAfterWrite`.
  - `encodeURIComponent` is a function parameter.
  - `queryString` parsing of `req.url` is a parameter.
  - `URLSearchParams` is reduced to its `set`/`get` behaviour; its `toString` encoding is not
    modelled.
  - `parseFloat` is modelled on integer prefixes only.
- **Strings and sorting.**
  - Strings are sequences of code points, so UTF-16 lengths of astral characters are not
    modelled.
  - Case mapping covers ASCII and Latin-1 only.
  - The used-vehicle sort is a stable insertion sort in place; the order JavaScript's
    `Array.prototype.sort` gives to equal keys is not modelled beyond being a sorted
    permutation.
- **Record keys.** Properties inherited through the prototype (such as `constructor` on a plain
  object) are not modelled: an absent key always reads as `undefined`.
- **Request bodies and endpoint paths.**
  - The request bodies `JSON.stringify` produces are not modelled.
  - Paths are modelled only where a property depends on them (`getMakes`, `getModels`).
- **Shop API calls that only forward a reply.**
  - `getCategoryBySlug` with its fallback endpoint, `getCategories`, `getBrands`,
    `getProductBySlug` with its alternative endpoints, `getProductReviews`,
    `addProductReview`, `getProductAnalogs`, `getRelatedProducts`, `getFeaturedProducts`,
    `getPopularProducts`, `getTopRatedProducts`, `getLatestProducts`, `getSearchSuggestions`
    and `checkout`.
  - The mappers `mapCategory`, `mapShop`, `mapBrand`, `mapReview` and the shop's own
    `mapOrder`.
  - These are network fallbacks or field-by-field copies outside the modelled decoders.
- **Account and vehicle API calls that only forward a reply.** `editProfile`,
  `changePassword`, `delAddress`, `getOrderById`, `getOrderByToken`, `getVehicleByVin`,
  `addUserVehicle` and `removeUserVehicle` are a request plus, at most, a mapper that is
  modelled (`MapUser`, `MapOrder`, `MapVehicle`).
- **Other helpers.** `safeStringify` in `src/utils/serialization.ts` is not part of this model.
- **Rendering and focus.**
  - Markup, DOM focus moves in the code inputs and the VIN field's `maxLength` are left out.
  - The moto block's part-type list is kept as a constant without a property.
- ShopApi.MapProduct: `excerpt`, `brand`, `shop`, `categories`, `type` and the constant
  `options: []` are not part of `Product`; only the throws `excerpt` and `categories` can
  cause are modelled. `mapCategory` is not part of this model, so a throw from a category's
  nested `parent` or `children` is not modelled, and a `description` object carrying its own
  `slice` function is treated as throwing. Its numbers are read by the integer-only `Number()`:
  a `price`, `comparePrice` or `rating` string with a fraction, an exponent or a radix prefix
  reads as `NaN`, so the price falls to 0, `compareAtPrice` and `rating` are `NaN`, and such a
  product is no offer and earns no sale badge.
- AccountApi.MapOrderItem: `price` and `total` are read by the integer-only `Number()`: a string
  with a fraction, an exponent or a radix prefix reads as `NaN` where JavaScript gives its
  decimal value.
- AccountApi.MapOrder: the item products' copied text fields (`excerpt`, `description`, `slug`,
  `partNumber`, `images`) and constants are not part of `OrderItem`; only the throws they can
  cause are modelled. A `description` or `images` object carrying its own `slice` or `map`
  function is treated as throwing. `subtotal`, `total` and the item prices and totals are read
  by the integer-only `Number()`, so a string with a fraction, an exponent or a radix prefix
  reads as `NaN`.
- Pagination.PageNavigation: its own contract covers only a missing `meta`. The numeric case is
  stated by `Pagination.MetaWindow`, and the defaults by `Pagination.Window`.
