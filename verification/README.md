# proxy402 gate and stores, modelled in Dafny

proxy402 turns a URL or an uploaded file into a paid short link. A visitor who requests `/<short code>` gets the resource only after paying for it in USDC with the x402 protocol (HTTP 402 Payment Required). Alternatively, they present the payment header of an earlier purchase that still has credits left. This project models the part of proxy402 that decides who gets what:

- **Short codes.** Codes are drawn from a random source and checked against the stored routes and links (`Shortener`, `RouteStore`, `LinkService`).
- **Route tables and their counters.** Three stores are modelled:
  - the sqlc queries over `paid_routes` (`PaidRouteQueries`) and the store built on them (`RouteStore`);
  - the gorm stores for routes and plain short links (`InternalPaidRouteStore`, `InternalLinkStore`).
  A route counts the attempts that ended in a 402, the payments and the accesses.
- **Route creation.** Requests are validated, defaults are applied, and URL and file routes are created (`RouteRequests`, `RouteService`, `InternalRouteService`).
- **The x402 gates:**
  - the version 1 gate (`X402`) builds the payment requirements, answers 402 with a JSON body or a paywall page, and asks a facilitator to verify and settle;
  - the older gate (`InternalX402`) does the same in a different order;
  - the handler (`Gate`) chooses protocol version 1 or 2, spends credits, records purchases, bumps counters and finally hands out a download link or proxies the request.
- **The dashboard's statistics.** Per-day earnings are padded to a window of days and sorted newest first (`Purchases`, `InternalPurchaseStore`, `DailyStats`, `Dashboard`).
- **Supporting pieces:** base64 (`Base64`), the database DSN (`Dsn`), pagination (`Pagination`), request URI parsing (`RequestUri`), bearer authentication (`AuthMiddleware`) and users (`Users`).

## How the model is built

- **Inputs.** The database, the facilitator, the version 2 x402 library, the random source, the clock and the presigner are not modelled. Their answers arrive as inputs: a row set or a fault, a verify outcome, a byte string.
- **Tables.** A table is a class whose methods change its rows in place. Each method is specified by a pure function of the old rows, and the properties are proved about those functions.
- **The gin context** is a class. Its response side is a `Response` value, so each handler states its whole effect on that response.
- **Action lists.** The older x402 gate also calls the facilitator and the next handler. Its effects are written as a list of actions that is replayed on the response, so the order of the calls can be stated and proved.
- **The central property.** For every request, the handler hands out a resource only after exactly one of two things happened:
  - a credit of an existing purchase was spent;
  - one new purchase was recorded.

Where the code disagrees with its comments or its callers, the model follows the code:
- The sqlc route store is modelled as written. `RouteStore.Store` carries a `revision`, and the program is the `AsWritten` store:
  - the routes it reads back are bare: no type, credits, resource type, file name, cover, title or description;
  - its delete writes NULL into deleted_at and so changes no row;
  - its counter updates write Go's zero time into updated_at.
  The `Corrected` revision is the store the Findings section asks for, and its properties are proved separately. The contracts of the store, of `RouteService` and of the gate hold for both revisions and say which one they mean where the two differ. In the program, then, the gate never sees a route with credits or a resource type, and every purchase is spent on the request that made it (`Gate.BareRoutePurchaseIsSpent`). The multi-credit path arises only with the corrected store.
- The route store's short-code check counts only live routes, because gorm's soft-delete filter applies to it, although its comment says "enabled or not".
- The purchases service's `GetDashboardStats` returns two results, but its handler reads four. The handler is modelled against a service that returns the daily rows and both totals.
- The stored route has no protocol-version column, so every route read back from the sqlc store is a version 1 route.

## Model

| member | source | states |
|---|---|---|
| PaidRouteQueries.QueryOne | store/sqlc/paid_routes.sql.go:139-166 | a :one query yields a row that matches the WHERE clause, pgx.ErrNoRows exactly when no row matches, and a driver error unchanged |
| PaidRouteQueries.IncrementAll | store/sqlc/paid_routes.sql.go:238-290 | the counter UPDATE keeps the table's length, bumps exactly the live rows with the short code and leaves every other row as it was |
| PaidRouteQueries.IncrementTouchesOnlyItsCounter | store/sqlc/paid_routes.sql.go:238-243 | an increment adds one to its own counter and sets updated_at on a targeted row; no other counter or column of any row changes |
| PaidRouteQueries.IncrementKeepsKeys | store/sqlc/paid_routes.sql.go:238-290 | no increment changes a row's id or short code |
| PaidRouteQueries.SoftDeleteAll | store/sqlc/paid_routes.sql.go:115-131 | the soft delete sets deleted_at only on the live row whose id and user_id both match |
| PaidRouteQueries.SoftDeleteIdempotent | store/sqlc/paid_routes.sql.go:115-119 | repeating a soft delete with a timestamp changes nothing |
| PaidRouteQueries.SoftDeleteWithNullIsNoOp | store/sqlc/paid_routes.sql.go:115-131 | a soft delete passing a NULL deleted_at leaves every row unchanged |
| PaidRouteQueries.SoftDeleteKeepsKeys | store/sqlc/paid_routes.sql.go:115-131 | the soft delete changes no id or short code |
| PaidRouteQueries.SoftDeleteOfUnownedIsNoOp | store/sqlc/paid_routes.sql.go:115-131 | a delete that names no live row of that owner, a missing id or another owner's route, changes no row |
| PaidRouteQueries.LiveRowsOf | store/sqlc/paid_routes.sql.go:292-294 | the rows selected are exactly the user's rows that are not soft-deleted |
| PaidRouteQueries.RowOf | store/sqlc/paid_routes.sql.go:30-40 | the inserted row carries the new id and the given short code, with deleted_at NULL |
| PaidRouteQueries.ListingIsOwnedLiveRowsNewestFirst | store/sqlc/paid_routes.sql.go:292-296 | the user's listing holds exactly their non-deleted rows, ordered by created_at descending |
| PaidRouteQueries.Queries.CheckShortCodeExists | store/sqlc/paid_routes.sql.go:15-28 | true exactly when some row has the code, whether it is enabled, disabled or deleted |
| PaidRouteQueries.Queries.GetEnabledByShortCode | store/sqlc/paid_routes.sql.go:133-166 | a found row has the code, is enabled and is not deleted; ErrNoRows exactly when no such row exists |
| PaidRouteQueries.Queries.GetById | store/sqlc/paid_routes.sql.go:168-201 | a found row has the id and is not deleted; ErrNoRows exactly when no such row exists |
| PaidRouteQueries.Queries.GetByShortCode | store/sqlc/paid_routes.sql.go:203-236 | disabled rows are found and deleted rows are not; ErrNoRows exactly when no live row has the code |
| PaidRouteQueries.Queries.CreatePaidRoute | store/sqlc/paid_routes.sql.go:30-113 | the insert appends the new row with the next id and returns it; a taken short code or a failure writes nothing; with no fault and a code no row has, it succeeds |
| PaidRouteQueries.Queries.Increment | store/sqlc/paid_routes.sql.go:238-290 | on success the table becomes IncrementAll of the old table; an int32 overflow is "integer out of range" and a failure leaves the table unchanged |
| PaidRouteQueries.Queries.DeletePaidRoute | store/sqlc/paid_routes.sql.go:115-131 | on success the table becomes SoftDeleteAll of the old table; a failure changes nothing |
| PaidRouteQueries.Queries.ListUserPaidRoutes | store/sqlc/paid_routes.sql.go:292-339 | the result is the user's ordered listing; a query, scan or iteration error gives an error, and without one the call succeeds |
| RouteStore.ToInt32 | store/paid_routes.go:37 | int32 of an unsigned price keeps a value that fits in 31 bits, and otherwise agrees with it modulo 2^32 |
| RouteStore.ToUint64 | store/paid_routes.go:203 | uint64 of a negative int32 wraps to the top of the 64-bit range |
| RouteStore.PriceRoundTrip | store/paid_routes.go:33-43 | a price survives the int32 column and back exactly when it fits in 31 bits or is the sign extension of a negative int32 |
| RouteStore.ConvertAsWritten | store/paid_routes.go:197-221 | the conversion as written copies the id, code, owner, enabled flag, counters and timestamps and sets DeletedAt exactly when the column is valid, but the route is bare: no credits, type, resource type, file name, cover, title or description |
| RouteStore.Convert | store/paid_routes.go:197-221 | the corrected conversion of the first Findings row, not the code at these lines: it copies every column the row has, and sets DeletedAt exactly when the column is valid |
| RouteStore.CreateAsWrittenLosesCredits | store/paid_routes.go:33-43 | as written, a created 5-credit route reads back with no credits and differs from the route stored |
| RouteStore.CreateRoundTrip | store/paid_routes.go:24-51 | with every column passed, a created route reads back exactly as stored, given price and credits within int32 |
| RouteStore.ReadBack | store/paid_routes.go:33-50 | storing a route and reading it back yields what the revision keeps of it, with counters zero, timestamps now and price and credits through int32: as written the route comes back bare, corrected it comes back whole |
| RouteStore.FindResult | store/paid_routes.go:80-90 | pgx.ErrNoRows becomes ErrRouteNotFound, another error passes through unchanged, and a row is converted with the revision's conversion, `ConvertAsWritten` in the program |
| RouteStore.Draws | store/paid_routes.go:177-181 | each attempt's code is GenerateSecureShortCode of the random bytes drawn for it |
| RouteStore.CheckResult | store/paid_routes.go:156-162 | the existence check returns whether the code is taken, or wraps the database error |
| RouteStore.AttemptsReturnFirstFree | store/paid_routes.go:177-190 | a returned code is free, and it is the first drawn code after attempts that all drew taken codes without error |
| RouteStore.AttemptsExhaustedMeansAllTaken | store/paid_routes.go:177-193 | the retry gives up only when every attempt drew a taken code with no generator or existence-check error |
| RouteStore.DrawnCodeLength | store/paid_routes.go:166-190 | a code the retry returns has the effective length and is not taken |
| RouteStore.DeleteAsWrittenKeepsRouteServed | store/paid_routes.go:108-112 | as written, the owner's delete changes no row, and the route is still served by the enabled lookup |
| RouteStore.DeleteHidesRoute | store/paid_routes.go:108-120 | passing the deletion time, the delete hides the route from every lookup that filters deleted rows, and leaves other owners' rows alone |
| RouteStore.IncrementAsWrittenRewindsUpdatedAt | store/paid_routes.go:123-131 | as written, an increment sets updated_at to Go's zero time, earlier than the row's created_at |
| RouteStore.IncrementStampsNow | store/paid_routes.go:123-153 | passing the clock's time, an increment leaves updated_at at that time |
| RouteStore.Store.FindRouteById | store/paid_routes.go:54-64 | a found route has the id, is not deleted and, in the program, is bare; without a fault ErrRouteNotFound exactly when no live row has the id; any other error passes through |
| RouteStore.Store.FindRouteByShortCode | store/paid_routes.go:67-77 | a found route has the code, is not deleted and, in the program, is bare; ErrRouteNotFound exactly when no live row has the code |
| RouteStore.Store.FindEnabledRouteByShortCode | store/paid_routes.go:80-90 | a found route is enabled, not deleted, has the code and, in the program, is bare; ErrRouteNotFound exactly when no such row exists; other errors pass through |
| RouteStore.Store.CheckShortCodeExists | store/paid_routes.go:156-162 | whether any row has the code, or the wrapped database error |
| RouteStore.Store.ListUserRoutes | store/paid_routes.go:93-105 | the user's listing converted row by row, in order, with the revision's conversion; an error exactly when the query, a scan or the iteration fails |
| RouteStore.Store.DeleteRoute | store/paid_routes.go:108-120 | without a fault the statement runs with the revision's deleted_at: in the program that is NULL and no row changes, in the corrected store the owner's live row gets the deletion time; a failure changes nothing; pgx.ErrNoRows would become ErrRouteNoPermission, but the Exec statement never reports a missing row |
| RouteStore.Store.IncrementRouteCount | store/paid_routes.go:123-153 | success exactly when there is no fault and no overflow, and then the table is IncrementAll with the revision's updated_at, Go's zero time in the program; a failure is wrapped with the counter's message and changes nothing |
| RouteStore.Store.GenerateUniqueShortCode | store/paid_routes.go:166-194 | the loop returns what the retry specification gives: a length and retry count of zero or less fall back to 7 and 10 |
| RouteStore.Store.CreateRoute | store/paid_routes.go:24-51 | a generator error is wrapped and writes nothing; a good draw, no fault and a free code succeed; a created route carries the code generated from the draw, 10 characters long, and is exactly what the revision keeps of the one given (bare in the program) under the next id, the current time and zero counters, with price and credits through the int32 columns; exactly the row for those parameters is appended |
| InternalPaidRouteStore.BumpTouchesOnlyItsCounter | internal/store/paid_route_store.go:58-60 | UpdateColumn adds one to the named counter of each selected row, leaves the other counters and every other column alone, and leaves unselected rows unchanged |
| InternalPaidRouteStore.BumpRow | internal/store/paid_route_store.go:60 | one row's update adds one to its counter and changes nothing else |
| InternalPaidRouteStore.BumpKeepsKeys | internal/store/paid_route_store.go:96-98 | a counter update never changes a route's id or short code |
| InternalPaidRouteStore.DeleteHidesRoute | internal/store/paid_route_store.go:81-92 | after the owner's delete no live row has the id and owner, and the short code is found neither by the enabled lookup nor by the existence count |
| InternalPaidRouteStore.Inserted | internal/store/paid_route_store.go:26-29 | gorm's insert assigns the next id, fills zero timestamps with the current time, and keeps every other field of the route |
| InternalPaidRouteStore.NotUpdated | internal/store/paid_route_store.go:105 | the zero-rows error wraps the store's ErrRouteNotFound and is not gorm's ErrRecordNotFound |
| InternalPaidRouteStore.PaidRouteStore.Create | internal/store/paid_route_store.go:26-29 | the route is appended with the next id; a duplicate short code or a failure writes nothing; otherwise the insert succeeds |
| InternalPaidRouteStore.PaidRouteStore.FindByShortCode | internal/store/paid_route_store.go:33-43 | a found route is enabled, live and has the code; ErrRecordNotFound exactly when none exists; other errors pass through |
| InternalPaidRouteStore.PaidRouteStore.CheckShortCodeExists | internal/store/paid_route_store.go:46-53 | true exactly when a live row has the code, enabled or not |
| InternalPaidRouteStore.PaidRouteStore.IncrementPaymentCount | internal/store/paid_route_store.go:56-70 | bumps only enabled live routes with the code; zero rows affected is ErrRecordNotFound with the table unchanged |
| InternalPaidRouteStore.PaidRouteStore.ListByUserID | internal/store/paid_route_store.go:73-78 | exactly the user's live routes, newest first |
| InternalPaidRouteStore.PaidRouteStore.Delete | internal/store/paid_route_store.go:81-92 | soft-deletes the route only when id and owner match; zero rows affected is ErrRecordNotFound with the table unchanged |
| InternalPaidRouteStore.PaidRouteStore.IncrementAttemptCount | internal/store/paid_route_store.go:95-108 | bumps the attempt counter whatever the enabled flag; a database error is wrapped; zero rows gives an error wrapping ErrRouteNotFound |
| InternalPaidRouteStore.PaidRouteStore.IncrementAccessCount | internal/store/paid_route_store.go:111-124 | bumps the access counter whatever the enabled flag; a database error is wrapped; zero rows gives an error wrapping ErrRouteNotFound |
| InternalPaidRouteStore.PaidRouteStore.IncrementLive | internal/store/paid_route_store.go:95-124 | the shared body of the two counter updates that ignore the enabled flag |
| InternalLinkStore.VisitTouchesOnlyVisitCount | internal/store/link_store.go:43 | the update adds one to visit_count of the links with the code and changes no other field |
| InternalLinkStore.DeleteRemovesOnlyTheLink | internal/store/link_store.go:63-74 | the owner's delete removes at most one link, leaves none with that id and owner, and keeps every link with another id |
| InternalLinkStore.AtMostOneWithId | internal/store/link_store.go:65 | at most one link matches an id and owner, because ids are unique |
| InternalLinkStore.DeleteKeepsValidity | internal/store/link_store.go:63-74 | deleting links keeps ids unique and below the sequence |
| InternalLinkStore.LinkStore.Create | internal/store/link_store.go:22-25 | the link is appended with the next id; a failure writes nothing |
| InternalLinkStore.LinkStore.FindByShortCode | internal/store/link_store.go:29-39 | a found link has the code; ErrRecordNotFound exactly when none has it; other errors pass through |
| InternalLinkStore.LinkStore.IncrementVisitCount | internal/store/link_store.go:42-53 | bumps the visit count of the links with the code; zero rows affected is ErrRecordNotFound with nothing changed |
| InternalLinkStore.LinkStore.FindByUserID | internal/store/link_store.go:56-60 | the result holds exactly the user's links |
| InternalLinkStore.LinkStore.Delete | internal/store/link_store.go:63-74 | removes the link only when id and owner match; otherwise ErrRecordNotFound with nothing changed |
| LinkService.Lookup | internal/core/services/link_service.go:49 | the uniqueness lookup fails with ErrRecordNotFound exactly when no link has the code, and passes a database failure through |
| LinkService.FreeAtMeans | internal/core/services/link_service.go:49-50 | an attempt's code counts as free exactly when the lookup reported ErrRecordNotFound |
| LinkService.PlanInsertsFirstFree | internal/core/services/link_service.go:41-64 | the code the loop inserts is the first free one, and every earlier attempt collided |
| LinkService.PlanExhaustedMeansAllCollided | internal/core/services/link_service.go:41-73 | the loop gives up only after all 5 attempts collided |
| LinkService.PlanStopsOnError | internal/core/services/link_service.go:42-68 | a generator error or an unexpected lookup error ends the loop at once with its wrapped error, with no further attempt |
| LinkService.CollidedSkips | internal/core/services/link_service.go:69 | attempts that collided do not change the outcome of the later attempts |
| LinkService.Service.CreateShortLink | internal/core/services/link_service.go:29-74 | a target that is not http or https is "invalid URL provided" with no write; otherwise the first free code's link is created with the URL, owner and expiry, a create failure is wrapped with nothing retried, and an exhausted or failed loop writes nothing |
| LinkService.Service.GetOriginalUrl | internal/core/services/link_service.go:77-96 | not found, lookup error and expiry each give their own error with nothing changed; a nil expiry never expires; otherwise the URL is returned and the visit count is bumped unless that update failed, which is ignored |
| LinkService.Service.GetUserLinks | internal/core/services/link_service.go:99-101 | only the user's links, or the store's error |
| LinkService.Service.DeleteLink | internal/core/services/link_service.go:104-114 | the owner's link is removed; not-found or not-owned gives the permission message and any other error is wrapped, with nothing changed |
| RouteService.ObjectKey | routes/service.go:169 | the object key starts with the owner's id in decimal followed by "/" |
| RouteService.DeleteError | routes/service.go:146-157 | ErrRouteNotFound and ErrRouteNoPermission come back as themselves, with not-found taking precedence; any other error is wrapped; the result is never a sentinel its cause was not |
| RouteService.Service.CreateUrlRoute | routes/service.go:49-103 | a target that is not http or https and a price that does not parse fail in that order; a cover upload failure is wrapped; every failure writes nothing; a good target, price, cover, draw and free code succeed; a success returns, under the code generated from the draw (10 characters), exactly what the store keeps of the route built from the request with the parsed price and the uploaded cover (bare in the program), and appends exactly that route's row |
| RouteService.Service.CreateFileRoute | routes/service.go:160-221 | a bad price, then an upload-URL failure, then a cover failure each fail with nothing stored; with those passing, a good draw and a free code succeed; a success returns the upload URL and, under the code generated from the draw (10 characters), exactly what the store keeps of the file route for the object key with the parsed price and the uploaded cover (bare in the program), and appends exactly that route's row |
| RouteService.Service.IncrementCount | routes/service.go:111-138 | success exactly when there is no fault and no overflow, and then the counter is bumped with the store's updated_at; a failure is wrapped with the counter's message and the short code and changes nothing |
| RouteService.Service.DeleteRoute | routes/service.go:146-157 | without a database error the delete always succeeds: in the program it changes no row, and deleting a missing route or another owner's changes no row in either store; a database error changes nothing and is mapped by DeleteError, or becomes ErrRouteNoPermission if it wraps pgx.ErrNoRows |
| RouteService.FileRouteShape | routes/service.go:169-201 | a new file route uses GET, resource type "file", protocol V2, the "<user>/<nanos>" key as target and the original filename, with type and credits from the request and title and description only when non-empty |
| RouteService.UrlRouteShape | routes/service.go:64-84 | a new URL route has the method upper-cased, resource type "url", protocol V2 and is enabled, with target, price, type, credits and test flag from the request and title and description only when non-empty |
| RouteService.AsWrittenRoutesComeBackBare | routes/service.go:64-103 | the URL and file routes the service builds carry their resource type, and the file route its file name, but what the program's store hands back of them is bare |
| InternalRouteService.MicroUnits | internal/core/services/paid_route_service.go:60 | int64(price * 1000000) for a non-negative price is the floor of the scaled price |
| InternalRouteService.CheckRequest | internal/core/services/paid_route_service.go:38-60 | the checks run in order: target scheme, upper-cased method in the valid set, price parses, price not negative; each failure has its own message, and a pass yields the scaled price |
| InternalRouteService.WrapCount | internal/core/services/paid_route_service.go:87-114 | a counter error is wrapped and keeps every sentinel identity of its cause; no error stays no error |
| InternalRouteService.Service.CreatePaidRoute | internal/core/services/paid_route_service.go:36-79 | a failed check returns its error with no write; after the checks a store error comes back wrapped as "failed to save paid route", a taken code as the wrapped duplicate-key error, and a free code with no fault succeeds; a stored route has the upper-cased method, the target, the scaled price, is enabled and copies the test flag and owner |
| InternalRouteService.Service.IncrementPaymentCount | internal/core/services/paid_route_service.go:87-94 | bumps only an enabled route; no enabled route gives an error that is still ErrRecordNotFound; a database error keeps its identity |
| InternalRouteService.Service.IncrementAttemptCount | internal/core/services/paid_route_service.go:97-104 | bumps the attempt counter whatever the enabled flag; no route gives an error that is still the store's ErrRouteNotFound |
| InternalRouteService.Service.IncrementAccessCount | internal/core/services/paid_route_service.go:107-114 | bumps the access counter whatever the enabled flag; no route gives an error that is still the store's ErrRouteNotFound |
| InternalRouteService.Service.DeleteRoute | internal/core/services/paid_route_service.go:122-133 | without a store error an owned live route is soft-deleted and no error is returned; a store error is mapped by DeleteError, so the gorm not-found error for a missing or foreign route comes back wrapped as "error deleting route"; a failure changes nothing |
| DailyStats.Step | store/purchases.go:180-182 | one comparison of the inner loop leaves the two rows latest first and touches no other position |
| DailyStats.StepKeeps | store/purchases.go:179-183 | a comparison keeps the rows, the sorted suffix and the split, and carries the earliest row forward |
| DailyStats.PassDone | store/purchases.go:179-183 | a finished inner pass leaves the earliest remaining row at the end of the unsorted part |
| DailyStats.BubblePass | store/purchases.go:179-183 | one inner pass over the array permutes it and grows the sorted suffix by one |
| DailyStats.BubbleSortDesc | store/purchases.go:178-184 | the in-place bubble sort leaves the rows ordered latest date first and is a permutation of its input |
| DailyStats.SwapPermutes | store/purchases.go:181 | swapping two neighbours keeps the same rows |
| DailyStats.LessTotal | store/purchases.go:180 | Go's string comparison orders any two different dates one way |
| DailyStats.LessTransitive | store/purchases.go:180 | Go's string comparison is transitive |
| DailyStats.MissingCovers | store/purchases.go:162-175 | every window date without a row gets a zero row |
| DailyStats.MissingOnlyWindow | store/purchases.go:162-175 | every added row is the zero row of a window date that had no row |
| DailyStats.Fill | store/purchases.go:154-175 | marking the existing dates and appending zero rows yields the old rows followed by the zero rows for the missing window dates |
| DailyStats.Pad | store/purchases.go:152-192 | padDailyStats returns the padded rows sorted latest first and cut to the window's length |
| DailyStats.CutKeepsLatest | store/purchases.go:187-189 | cutting the sorted list keeps it sorted, keeps only rows of the list, and drops only rows dated no later than any kept one |
| DailyStats.PaddedCoversWindow | store/purchases.go:157-175 | after filling, every date of the window has a row |
| DailyStats.NothingCutKeepsAll | store/purchases.go:187-189 | when the list is no longer than the window, no row is cut |
| Purchases.ToPurchase | store/purchases.go:195-210 | the scanned columns are copied and every other field of the purchase keeps its zero value: no id, no payee address, no route type, no credits and no payment header |
| Purchases.ToDayStats | store/purchases.go:127-135 | a day's row copies date and counts and reads both earnings through the int64 check |
| Purchases.ListPurchasesByShortCode | store/purchases.go:55-87 | a query error, then a scan error, then an iteration error, each wrapped with its own message; with none of them, no rows at all is ErrPurchaseNotFound and any rows succeed, one converted purchase per matching row, in order |
| Purchases.ScanRows | store/purchases.go:65-76 | succeeds exactly when no row fails to scan, and then holds one converted purchase per row in order; a scan failure is wrapped with "failed to scan purchase row" |
| Purchases.MatchingIsTheCodesPurchasesNewestFirst | store/purchases.go:57-59 | the listing holds exactly the purchases with the short code, newest first, and is empty exactly when none has the code |
| Purchases.GetDailyStatsByUserID | store/purchases.go:90-149 | a daily-query error is returned as is; no totals row is ErrNoStats with an empty list; otherwise the rows are converted, padded only when fewer than the window came back, and the totals read through the int64 check |
| Purchases.PaddingCoversTheWindow | store/purchases.go:139-141 | after padding, every date of the window has a row whenever nothing had to be cut |
| InternalPurchaseStore.GetDailyStatsByUserID | internal/store/purchase_store.go:52-123 | a totals error ends the call; otherwise the totals are returned, the rows are padded, sorted and cut only when empty or shorter than the window, and the daily query's error comes back last |
| InternalPurchaseStore.NoPurchasesGivesZeroWindow | internal/store/purchase_store.go:86-105 | with no purchases, every window day gets a zero row and every row has count and earnings zero |
| InternalPurchaseStore.MissingLength | internal/store/purchase_store.go:96-105 | the fill adds at most one row per window day |
| Dashboard.SplitTotals | purchases/handler.go:54-62 | the four running totals are the sums of the per-day test and real fields |
| Dashboard.SumAppend | purchases/handler.go:57-62 | summing a list in two parts gives the sum of the whole |
| Dashboard.ZeroRowsAddNothing | purchases/handler.go:57-62 | the zero rows added by padding add nothing to any total |
| Dashboard.PaddingKeepsTotals | purchases/handler.go:53-62 | padding the window changes none of the four test and real totals |
| Dashboard.GetDashboardStats | purchases/handler.go:36-75 | no auth payload gives 401 without a service call; a service error gives 500; otherwise 200 with the totals passed through, the 7-day list, and the four sums |
| Base64.Digit | x402/payment.go:204 | the encoding tables of section 4 (standard) and section 5 (URL-safe) of RFC 4648 never produce the pad or a line break |
| Base64.Value | x402/payment.go:142 | the decoding table is the inverse of the encoding table on the 64 characters |
| Base64.DigitTable | utils/shortener.go:52 | the table is a bijection between 0..63 and the alphabet's characters |
| Base64.EncodeShape | utils/shortener.go:52-55 | the encoding of n bytes has 4 * ceil(n / 3) characters: first ceil(8n / 6) alphabet characters, then only '=' padding |
| Base64.SkipNewlines | x402/payment.go:142 | removing line breaks never lengthens the text |
| Base64.SkipNewlinesOfEncoding | x402/payment.go:142 | an encoding contains no line break for the decoder to skip |
| Base64.Regroup | x402/payment.go:142 | regrouping three bytes into four 6-bit values and back is lossless |
| Base64.DecodeEncode | x402/payment.go:142-204 | DecodeString of EncodeToString gives back the bytes |
| Base64.DecodeQuantaEncode | x402/payment.go:142 | decoding the quanta of an encoding gives back the bytes |
| Base64.DecodeTwoByteQuantum | x402/payment.go:142 | a final quantum with one '=' decodes to its two bytes |
| Base64.DecodeOneByteQuantum | x402/payment.go:142 | a final quantum with two '=' decodes to its one byte |
| Shortener.EffectiveLength | utils/shortener.go:25-27 | a length of zero or less falls back to DefaultLength 7, and any other length is kept |
| Shortener.CharsetIsUrlAlphabet | utils/shortener.go:15 | charset has 64 characters and holds exactly the URL-safe alphabet of section 5 of RFC 4648 |
| Shortener.GenerateShortCode | utils/shortener.go:24-33 | the code has the effective length and its i-th character is the charset character of the i-th draw |
| Shortener.NumBytes | utils/shortener.go:44 | the byte count is ceil(6 * length / 8): enough bits for every character, and no byte more |
| Shortener.GenerateSecureShortCode | utils/shortener.go:38-56 | a random-source error is returned as is; otherwise the code has the effective length, uses only charset characters and holds no '=' |
| Shortener.SecureCodeUsesOnlyNumBytes | utils/shortener.go:44-52 | the code depends only on the first ceil(6 * length / 8) random bytes |
| Shortener.SecureCodeIsEncodingPrefix | utils/shortener.go:52-55 | the code is a prefix of the URL-safe encoding of the random bytes, and that encoding decodes back to them |
| Dsn.HiddenDiffersOnlyInPassword | store/config.go:42-56 | DSN(true) and DSN(false) agree everywhere except the password segment, which is "****" or the real password |
| Dsn.HiddenIgnoresPassword | store/config.go:48-52 | the hidden rendering does not depend on the password |
| Dsn.SslModeIsLast | store/config.go:43-55 | the string ends in "require" exactly when SSL is required, else in "disable" |
| Pagination.CalculateLimitOffset | store/store.go:43-61 | a limit above 100 is refused first, then a negative limit or offset; a success keeps the offset and turns a zero limit into 20, so the limit lies in 1..100 |
| Pagination.ClampIdempotent | store/store.go:43-61 | clamping an accepted page again gives the same page |
| RequestUri.SchemeScan | routes/service.go:52 | a run of letters ending in ':' is read as the scheme, with the rest after the colon |
| RequestUri.SchemeLetters | routes/service.go:52 | a scheme found by the scan is the text before the first ':', made of a letter and then scheme characters |
| RequestUri.LowerIsWord | routes/service.go:53 | a scheme that lower-cases to "http" or "https" is made of letters only |
| RequestUri.HttpTargetShape | routes/service.go:52-55 | a target passes the http(s) check exactly when it has no control character and starts with "http:" or "https:" in any letter case |
| Users.UpdatePaymentAddress | users/service.go:94-112 | the store is written exactly when the address is "" or "0x" with 40 hex digits; anything else is refused with no write; a store error is wrapped |
| Users.HexAddressAccepted | users/service.go:100 | "0x" followed by the hex of 20 bytes passes the address check |
| Users.AddressShapeIsExact | users/service.go:100 | one character more, one less, or a prefix other than "0x" fails the address check |
| Users.FindOrCreateUser | users/service.go:25-61 | an existing user is returned with no write; a lookup error other than not-found is wrapped with no write; a new user gets a 32-hex-digit secret that decodes to the 16 random bytes and the id the store returned |
| Users.GetUserById | users/service.go:64-73 | not-found comes back as the bare ErrUserNotFound; any other error is wrapped with the "error finding user" prefix |
| AuthMiddleware.ParseAuthorization | internal/api/middleware/auth_middleware.go:21-39 | an empty header is refused first; a token is handed on exactly when there are two or more fields and the first is exactly "Bearer", and it is the second field |
| AuthMiddleware.Authorize | internal/api/middleware/auth_middleware.go:20-49 | each refusal aborts with 401 and its message, a validation error's text included; a valid token stores the payload under its key and calls the next handler |
| AuthMiddleware.Middleware | internal/api/middleware/auth_middleware.go:19-50 | the context ends in the state Authorize gives for the Authorization header |
| AuthMiddleware.FieldsOfWord | internal/api/middleware/auth_middleware.go:27 | a single word with no white space is one field |
| AuthMiddleware.BearerRoundTrip | internal/api/middleware/auth_middleware.go:27-39 | "Bearer <token>" hands exactly that token to the validator |
| AuthMiddleware.SchemeIsCaseSensitive | internal/api/middleware/auth_middleware.go:33-37 | a lower-case "bearer" is refused as an unsupported type |
| RouteRequests.DefaultsAreComplete | routes/handler.go:90-97 | an empty type becomes "credit" and zero credits become 1, and a type or credit count the request gave is kept; applying the defaults again changes nothing |
| RouteRequests.Validate | routes/handler.go:113-131 | a request is valid exactly when its upper-cased method is GET, POST, PUT, DELETE or PATCH and its price parses |
| RouteRequests.MethodCheckedBeforePrice | routes/handler.go:113-125 | an invalid method is refused as such whatever the price, because the price is parsed only after the method check |
| RouteRequests.FileValidationReadsOnlyThePrice | routes/handler.go:213-218 | a file request is judged by its price alone: two requests with the same price validate alike |
| X402.ApplyOptions | x402/payment.go:84-91 | the options loop yields the defaults with every option applied in order |
| X402.LastSetterWins | x402/payment.go:89-91 | a field keeps its default when no option writes it, and otherwise holds what the last option writing it set |
| X402.TestnetIsLastSetting | x402/payment.go:84-91 | the network is the test network unless an option says otherwise, and the last WithTestnet decides |
| X402.TimeoutIsLastSetting | x402/payment.go:84-91 | the timeout is 60 seconds unless an option says otherwise, and the last WithMaxTimeoutSeconds decides |
| X402.Network | x402/payment.go:95-100 | "base-sepolia" exactly on the test network and "base" exactly on mainnet |
| X402.UsdcInfo | x402/payment.go:209-225 | the token name is "USDC" exactly on the test network and "USD Coin" exactly on mainnet; the version is always "2" |
| X402.Resource | x402/payment.go:102-107 | the configured resource when it is not empty, else the root URL followed by the request path |
| X402.BuildRequirements | x402/payment.go:95-128 | the requirements use scheme "exact", pay to the address, carry the timeout, the network's USDC contract, the token info, the resource and the options' texts, and state the amount in decimal micro-units |
| X402.Ladder | x402/payment.go:136-206 | an empty header, a bad base64 header, a wrong version and an undecodable payload are rejected with no facilitator call; settle is called only after a valid verify; each failure message follows its own priority; acceptance happens exactly when every step passes and yields the decoded payload and the settle response |
| X402.RejectionBody | x402/payment.go:252-259 | the JSON rejection is {error, accepts, x402Version} and an empty message becomes "X-PAYMENT header is required" |
| X402.RespondPaymentRequired | x402/payment.go:227-260 | a browser gets the 402 paywall page, where a description stored on the context wins over the option, and is aborted; any other client gets the 402 JSON rejection |
| X402.Payment | x402/payment.go:83-207 | the payment is returned exactly when the ladder accepts, and then only the two headers change; a rejection writes one 402 response, or keeps a status already written, and aborts; a non-browser rejection's body is built from the applied options |
| InternalX402.ApplyOptions | internal/x402/payment.go:92-101 | the options start from facilitator x402.org, 60 s timeout and testnet, and each option is applied in order (the result equals the fold `Applied`) |
| InternalX402.PaywallOptionIsInert | internal/x402/payment.go:29-89 | the custom paywall HTML option touches none of the fields the gate reads: the remaining options are exactly the version 1 gate's options applied in the same order |
| InternalX402.ClientUrl | internal/x402/facilitatorclient.go:21-29 | the facilitator client never gets an empty URL: an empty one falls back to the default, any other is kept |
| InternalX402.BaseRequirements | internal/x402/payment.go:103-136 | the requirements are the version 1 gate's requirements for the same options, amount, address and path, with no token info |
| InternalX402.Ladder | internal/x402/payment.go:145-203 | a header that does not decode is a single 402 "X-PAYMENT header is required" and nothing else; otherwise verify is called first; settle is called iff verify answered valid, and only right after the next handler; a verify transport error is verify followed by one 500 |
| InternalX402.SettleActions | internal/x402/payment.go:183-203 | after the settle call no facilitator call and no further next handler follow |
| InternalX402.WrittenStatusSticks | internal/x402/payment.go:138-143 | once a status is written no later abort changes it, and the response stays written |
| InternalX402.TokenInfoFailureIs500 | internal/x402/payment.go:138-143 | when SetUSDCInfo fails on a fresh response the client sees 500, whatever verify and settle do afterwards (the missing return is harmless to the status) |
| InternalX402.LadderOutcome | internal/x402/payment.go:145-203 | on a fresh context: the next handler runs iff verify answered valid; a header that does not decode or an invalid payment is an aborted 402, a verify transport error an aborted 500; a settle error is an aborted 402, an encoder error an aborted 500 with no X-Payment-Response header; a settled payment writes no status and aborts nothing itself, and carries the encoded settle response in X-Payment-Response |
| InternalX402.RejectedOutcome | internal/x402/payment.go:145-176 | a header that does not decode, a verify error or an invalid payment leaves the next handler unrun and aborts with 402, or 500 for a verify transport error |
| InternalX402.AcceptedOutcome | internal/x402/payment.go:178-203 | a valid payment runs the next handler; a settle error then aborts with 402, an encoder error aborts with 500 without the X-Payment-Response header, and a settled payment sets that header to the encoded response without aborting |
| InternalX402.SettleStep | internal/x402/payment.go:183-203 | the settle branch does exactly `SettleActions` to the context |
| InternalX402.LadderStep | internal/x402/payment.go:145-203 | the decode, verify, next and settle steps do exactly `Ladder` to the context |
| InternalX402.AcceptStep | internal/x402/payment.go:178-203 | on a valid payment the context sees verify, next and settle, then exactly the settle actions |
| InternalX402.Payment | internal/x402/payment.go:92-204 | the whole gate does exactly `Actions` to the context: a 500 when the token info fails, then the ladder on the requirements built from the options, amount, address and request path and the decoded X-PAYMENT header |
| Gate.RoutePaymentVersion | routes/handler.go:70-76 | a route never speaks version 0: a stored 0 means version 1, any other stored version is kept |
| Gate.PaymentHeaderNameForVersion | routes/handler.go:78-83 | the header is PAYMENT-SIGNATURE exactly for version 2 and X-Payment for every other version |
| Gate.PaymentHeaderName | routes/handler.go:85-87 | a route reads PAYMENT-SIGNATURE exactly when it is a version 2 route, X-Payment otherwise, including a route stored without a version |
| Gate.RequestScheme | routes/handler.go:60-68 | the scheme is https exactly when the proxy's X-Forwarded-Proto says https or the connection is TLS, and http otherwise |
| Gate.AccessUrl | routes/handler.go:394-395 | the public URL starts with the request's scheme and "://" and ends with "/" and the short code |
| Gate.PurchaseRecord | routes/handler.go:871-893 | the new purchase copies the route's code, target, method, price, type, test flag and id, offers the route's credits with one already used, and keeps the payment header, payee, payload and settle response |
| Gate.SingleCreditIsSpentAtPurchase | routes/handler.go:334-337 | a purchase of a route with at most one credit never has a credit left for a later request with the same header |
| Gate.MultiCreditLeavesTheRest | routes/handler.go:334-362 | a purchase of a route with n >= 2 credits can be reused with its header, and n - 1 uses are left; only the corrected store hands out such routes |
| Gate.BareRoutePurchaseIsSpent | routes/handler.go:334-337 | a purchase of a bare route, as every route the program's store returns is, has no credit left, so its header never buys a second access |
| Gate.Ledger.CreatePurchase | routes/handler.go:895-904 | a purchase is appended to the ledger when the store accepts it and nothing changes when it fails; spent credits are untouched |
| Gate.Ledger.IncrementCreditsUsed | routes/handler.go:344-349 | a credit use is appended when the store accepts it and nothing changes when it fails; the purchases are untouched |
| Gate.V1RequirementsDescribeTheRoute | routes/handler.go:393-432 | the version 1 gate announces the route's public URL as the resource, the chosen payee, the configured timeout, the test network exactly for test routes, and the route's price in micro-units |
| Gate.TemplateKeys | routes/handler.go:410-425 | the paywall keys always hold ResourceType, hold OriginalFilename only for a file route that has one and Title, Description and CoverURL only when the route has them; all other keys are kept |
| Gate.Handler.constructor | routes/handler.go:43-57 | the handler keeps the route service, the purchase ledger and the configuration it is given |
| Gate.Handler.GetAndValidateRoute | routes/handler.go:270-295 | no enabled route gives 404, any other lookup error 500, a method that differs from the route's 405 with both methods named; otherwise the route comes back with nothing written, and it is enabled, not deleted, has the requested code and the request's method; in the program the route is bare |
| Gate.Handler.TryExistingPayment | routes/handler.go:302-363 | exactly one of "credit spent" and "run a new payment"; a credit is spent iff the route's payment header is present, names a purchase with credits used below credits available, and the ledger takes the spend; a spent credit bumps the access counter (its failure ignored) and adds no purchase |
| Gate.Handler.SavePurchaseRecord | routes/handler.go:871-905 | on success the ledger gains exactly the purchase record; a store error is wrapped as "failed to save purchase record" and nothing is added |
| Gate.Handler.RecordPayment | routes/handler.go:447-470 | a failed save is a 500 with no counter bumped and the payment not processed; a saved payment is processed; then a failed payment counter is a 500 that still counts as processed, while a counted payment also bumps the access counter and writes nothing; rows, response and whether the request is handled are RecordedRows, RecordedResponse and the failure of either step |
| Gate.Handler.SetTemplateKeys | routes/handler.go:410-425 | the context changes only in its keys, which become `TemplateKeys` of the old keys |
| Gate.Handler.NewPaymentFlowV1 | routes/handler.go:385-471 | an unparsable price or a failed owner lookup is a 500 with no purchase and no counter change; a rejection or an aborted context records no purchase and bumps the attempt counter exactly when the status is 402; an accepted payment records the purchase to the owner's payee with the gate's payload and settle response and is processed iff that save succeeds; then, on the response the gate left (V1Accepted: template keys, Payment-Protocol and X-PAYMENT-RESPONSE), a failed save or payment count is a 500 and leaves the request handled, and otherwise the payment and access counters move, as RecordedRows and RecordedResponse give them |
| Gate.Handler.AfterV1Gate | routes/handler.go:435-470 | after an aborting gate nothing is recorded, the response is left as the gate wrote it and the attempt counter moves exactly when the status is 402; after a passing gate the purchase is appended exactly when its save succeeds, the payment counts as processed exactly then, the request is handled exactly when the save or the payment count failed, and rows and response are RecordedRows and RecordedResponse: the save-failure and payment-count 500s, and the payment and access bumps |
| Gate.V2ErrorStatus | routes/handler.go:538-553 | on a fresh response the client sees the library's status whenever the body renders, a 500 for an HTML body that is not text, and the library's headers either way |
| Gate.Handler.RespondV2Error | routes/handler.go:538-553 | the response becomes V2ErrorResponse: the library's headers in order, then an HTML body that is not a string is a 500 "Invalid paywall response", HTML is sent as text/html with the given status, no body writes only the status, and any other body is sent as JSON with the given status |
| Gate.Handler.PaymentErrorV2 | routes/handler.go:532-562 | a payment-error result is never processed and always handled; with no response it is a 500 "Unexpected payment response" and no counter moves; otherwise the client receives the library's response as V2ErrorResponse renders it, and the attempt counter moves exactly when the response could be rendered and its status is 402 |
| Gate.Handler.VerifiedV2 | routes/handler.go:564-624 | a verified result without payload or requirements is a 500 with no counter change; a settle failure is a 402 with the error and x402Version 2; after a settlement PAYMENT-RESPONSE carries the base64 settle response and RecordPayment's outcome follows: processed exactly when the purchase is saved, the payment and access counters as RecordedRows says, and the save or payment-count 500 as RecordedResponse says; a processed payment appends exactly its purchase record, an unprocessed one records nothing |
| Gate.Handler.NewPaymentFlowV2 | routes/handler.go:473-626 | each of the 500 paths (owner lookup, server start, no payment required, unknown result, payment error without a response, verification without payload) leaves the payment unprocessed, the request handled, the rows unchanged and the response a 500 with its own message; a payment error response is rendered as V2ErrorResponse and bumps the attempt counter exactly when it is a well-formed 402; a settle failure is a 402 with the error and x402Version 2; a settled payment follows RecordPayment with PAYMENT-RESPONSE set; a processed payment means all of these passed and exactly its purchase is recorded |
| Gate.Handler.NewPaymentFlow | routes/handler.go:369-383 | a processed payment adds exactly one purchase and no credit use; an unprocessed one adds nothing and the request is handled; a version other than 1 or 2 is a 500 "Unsupported payment protocol version" |
| Gate.Handler.ProxyRequest | routes/handler.go:628-708 | a file route or a target without "://" is handed out as a presigned download link with its file name (a presigner error is a 500); any other target is reverse-proxied when it parses and is a 500 otherwise, unless the context was already aborted |
| Gate.Handler.Serve | routes/handler.go:717-737 | a resource is handed out only after exactly one of: a credit spent on an existing purchase, or one new purchase recorded; at most one of each happens per request |
| Gate.Handler.HandlePaidRoute | routes/handler.go:711-738 | the same guarantee for the whole request, and a failed route lookup serves nothing and changes neither the ledger nor the counters |

## Left out

- Logging, `fmt.Println`, `gCtx.Error` and every log-only branch: they change no state the model has.
- I/O and foreign calls are inputs of the members that use them:
  - SQL text and database drivers;
  - the facilitator's HTTP client;
  - the version 2 x402 library (`NewServer`, `Initialize`, `ProcessHTTPRequest`, `SettlePayment`);
  - the R2 presigner and the cover-image processing (routes/service.go:235-258);
  - `crypto/rand`;
  - `time.Now` and the window dates derived from it.
- The decoders and encoders of the x402 libraries are inputs rather than code: `DetectVersion`, `ToPaymentPayloadV1`, `DecodePaymentPayloadFromBase64`, `SetUSDCInfo` and `EncodeToBase64String`.
- JSON text serialisation: JSON bodies are values, not byte strings.
- The `json.Marshal` errors are left out because they cannot occur on these plain values. They are:
  - the token-info error branch of the version 1 gate (x402/payment.go:122-128);
  - its marshal branches (x402/payment.go:162-169, 196-203);
  - the marshal branches of the version 2 flow.
- Floating point:
  - `ParsePrice` and `strconv.ParseFloat` are inputs that give an exact value or fail (`priceParses`);
  - the big.Float amount is the route's price in micro-units;
  - `amount.Text('f', 6)` is the exact decimal.
- The reverse proxy's streaming, its Director (which adds the Proxy402-Secret header) and its error handler. `ProxyRequest` only says which target is proxied.
- `GetFileDownloadURL` (routes/service.go:224-232) is the presigner; its answer is the `download` input of `ProxyRequest`.
- Two route-service operations are pure delegations to the store and are covered by the store members:
  - `FindEnabledRouteByShortCode` (routes/service.go:106-108, internal/core/services/paid_route_service.go:82-84);
  - `ListUserRoutes` (routes/service.go:141-143, internal/core/services/paid_route_service.go:117-119).
- `UpdateProxySecret` (users/service.go:76-91) is not on the paid-route path.
- The purchase store behind `CreatePurchase`, `GetPurchaseByRouteIDAndPaymentHeader`, `IncrementCreditsUsed` and `ListPurchasesByUserID` is not part of this model.
  - `Gate.Ledger` stands in for it: a purchase or a credit use is appended, or the store's error is returned.
  - The purchase that a header names is an input.
- The internal/core/shortener package and the `models.Link` type are not part of this model. The link service takes its candidate codes as an input sequence.
- The store behind `routes.Store` in internal/core/services/paid_route_service.go is not part of this model; the gorm store stands in for it.
- A gorm ID set by the caller is not modelled: the store always assigns the next free ID.
- The int64 counters of the gorm route and link stores are unbounded: an increment past the int64 maximum is not modelled. The sqlc store's int32 counters do model PostgreSQL's "integer out of range" error.
- `InternalPaidRouteStore.PaidRouteStore.ListByUserID`: on a query error it returns only the error, not the partial slice gorm may have filled.
- A negative number of days is not modelled: the window of dates is an input sequence, so its length is never negative.
- `RequestUri.HttpTargetShape`: `url.ParseRequestURI` is modelled only as far as the control-character check, Go's scheme scan and the lower-casing of the scheme; host and port validation are left out.
- `strings.ToUpper` and `strings.ToLower` are modelled on ASCII letters only.
- The version 2 response headers are a map in Go. The model writes them as a sequence in a fixed order, so an order that depends on map iteration is not captured.
- `Gate.Handler.HandlePaidRoute`: the "Logical error" 500 branch (routes/handler.go:729-735) is proved unreachable: whenever neither a credit was spent nor a payment processed, the flow has already handled the request.
- `InternalX402.LadderOutcome`: the next handler is represented only by the fact that it ran. The status and body it writes are not part of the replay.
- The legacy handler files outside routes/ are not part of this model.
- The default facilitator URL is "https://x402.org/facilitator" for both gates.

## Findings

| source | as written | input that shows it | evidently intended | confidence | as-written member | corrected member |
|---|---|---|---|---|---|---|
| store/paid_routes.go:33-43 | `CreateRoute` stores neither the route's type nor its credits, and `convertToPaidRouteModel` (197-221) reads neither back, so every route read back offers 0 credits and every purchase starts used up | a route created with 5 credits reads back with 0 credits (`RouteStore.CreateAsWrittenLosesCredits`) | the stored route reads back with the type and credits it was created with | not executed | RouteStore.ConvertAsWritten | RouteStore.CreateRoundTrip |
| store/paid_routes.go:108-112 | `DeleteRoute` passes a `DeletePaidRouteParams` without `DeletedAt`, so the soft delete writes NULL and the route stays live | deleting a live route leaves it served by `FindEnabledRouteByShortCode` (`RouteStore.DeleteAsWrittenKeepsRouteServed`) | a deleted route is no longer found | not executed | RouteStore.DeleteAsWrittenKeepsRouteServed | RouteStore.DeleteHidesRoute |
| store/paid_routes.go:123-153 | the three counter increments pass params without `UpdatedAt`, so each increment writes Go's zero time into updated_at | incrementing a route updated at time 100 leaves updated_at at the zero time (`RouteStore.IncrementAsWrittenRewindsUpdatedAt`) | an increment stamps updated_at with the current time | not executed | RouteStore.IncrementAsWrittenRewindsUpdatedAt | RouteStore.IncrementStampsNow |
