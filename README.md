# Shares Alert Ghana: a verified model of the alert core

Shares Alert Ghana watches the Ghana Stock Exchange for its users. It raises price alerts, dividend alerts (announcements and yields) and IPO alerts, and it mails the users who asked for them. This project models the logic at the centre of that system in Dafny and proves what the code promises. The backend (Go) and the web client (React) are both covered.

The backend part covers:

- **Alert store and price-alert evaluation.** The alert table is a class with one row map. Creation checks, owner-checked reads, partial updates and deletes are modelled. One monitoring tick evaluates every active price alert against its fetched quote. It records the price, fires when the price reaches the threshold (equality fires), and then mails the owner.
- **Announcement engine.** Dividend and IPO announcements fan out to the active alerts of their kind, with a symbol filter for dividends and none for IPOs. Preferences gate the mail, and a missing row means email is on. The "announced" event marks the alert triggered. Daily sweeps are meant to move announcements from announced to paid or listed once their date has passed; as written they read only announcements whose ex-dividend or listing date is still ahead, so they almost never act (see Findings).
- **Market data.** The read-through cache is a class over an abstract key-to-entry store, and a disabled cache is a permanent miss. Lookups follow the chain cache hit → direct request → proxy request → mock data. Mock data is cached for 1 minute and real data for the configured TTL. The model also covers key naming, invalidation, statistics and warm-up.
- **Smaller pieces:**
  - scraped dividend rows and their fallback data;
  - the mail dispatch decisions;
  - the legacy in-memory server in `backend/main.go`;
  - environment defaulting;
  - Bearer-header parsing, with the scheme of section 2.1 of RFC 6750.

The web client part covers:

- the alert form validator;
- the dividend-yield alert panel and dashboard;
- the search and alert-filter hooks;
- the alerts table's pagination and menu;
- the top-movers and market-summary computations;
- the notification settings form;
- the formatters, the status chip and the IPO list;
- the authentication context.

Modelling choices:

- Times are whole seconds. Go's `float64` and JavaScript numbers are `real`. JavaScript's NaN appears only where truthiness or `Number()` makes it matter.
- Collaborators are parameters or outcome datatypes: the exchange feed, the proxy, SMTP, Redis, SQL, the browser's storage and API calls. A refused database write is a boolean that leaves the table unchanged.
- Component state and the Go tables are classes whose methods state their whole new state. Pure code is functions, with lemmas about them.
- Shared modules:
  - `Wrappers`: Option, Result and Outcome.
  - `Text`: Go's `strconv.Atoi` over the int64 range, decimal reading, `toFixed(2)` rendering, and ASCII case mapping.
  - `Seqs`: `filter`, a stable insertion sort by key, and row scans ordered by a column.

## Model

| member | source | states |
|---|---|---|
| Models.ParseKind | backend/internal/models/alert.go:64-71 | a string names a kind exactly when it is one of the six kind constants, and then it is that kind's constant |
| Models.KindNamesDistinct | backend/internal/models/alert.go:64-71 | the six kind constants are pairwise distinct strings |
| Models.ParseKindOfName | backend/internal/models/alert.go:64-71 | reading a kind's constant back gives that kind |
| Models.ParseStatus | backend/internal/models/alert.go:74-79 | a string is a backend status exactly when it is one of active, triggered, paused, deleted |
| Models.InactiveIsNotABackendStatus | backend/internal/models/alert.go:74-79 | "inactive", which the web client writes, is not a backend status |
| AlertService.ValidateCreate | backend/internal/services/alert_service.go:37-66 | a request passes iff it has a symbol, one of the six kinds and that kind's parameter; an empty symbol or type fails with "stockSymbol and alertType are required" for every kind; an unknown type fails with "invalid alert type" |
| AlertService.ValidateCreateAccepts | backend/internal/services/alert_service.go:42-66 | the accepted requests, stated without the parser: a symbol, some kind whose constant is the type, and that kind's parameter present |
| AlertService.Quote | backend/internal/services/alert_service.go:69-73 | a price is available exactly when the quote lookup has the symbol, and it is that quote |
| AlertService.NewAlert | backend/internal/services/alert_service.go:83-99 | the built alert is active, owned by the caller, copies the request's fields and parameters, carries the quoted price if any, and has no current yield and no trigger time |
| AlertService.CreateAlert | backend/internal/services/alert_service.go:35-106 | a failed validation is returned unchanged and stores nothing; creation succeeds iff validation passes and the insert is accepted; the caller gets the alert as built and the table gains only its persisted columns |
| AlertService.CreatedYieldIsNotStored | backend/internal/repository/alert_repository.go:20-30 | a yield parameter given at creation is returned to the caller but the stored row has no yield columns |
| AlertService.GetAlert | backend/internal/services/alert_service.go:112-124 | succeeds iff the row exists and belongs to the caller, returning that row; someone else's alert fails with "alert not found" |
| AlertService.Requested | backend/internal/services/alert_service.go:132-150 | each non-nil request field replaces the alert's field; identity, owner, symbol, current price and trigger time are kept |
| AlertService.CopyRequested | backend/internal/services/alert_service.go:132-150 | the six field-by-field copies produce exactly Requested |
| AlertService.UpdateAlert | backend/internal/services/alert_service.go:126-158 | a failed ownership check is returned and nothing changes; a refused write fails with the wrapped database error and nothing changes; otherwise the row becomes the repository's update of the requested alert and is read back |
| AlertService.UpdateIdempotent | backend/internal/repository/alert_repository.go:127-161 | applying the same update request twice at one instant equals applying it once |
| AlertService.EmptyUpdateOnlyTouches | backend/internal/repository/alert_repository.go:127-161 | an update request with no field set changes only updated_at |
| AlertService.UnknownStatusIsStored | backend/internal/services/alert_service.go:148-150 | the status is copied without a check: "inactive" is stored although it is not a backend status |
| AlertService.EmptyStringsAreIgnored | backend/internal/repository/alert_repository.go:135-150 | an empty type or status in the request leaves the stored type and status as they were |
| AlertService.UpdatedYieldIsNotStored | backend/internal/repository/alert_repository.go:135-154 | a yield in an update request never reaches the table |
| AlertService.DeleteAlert | backend/internal/services/alert_service.go:160-167 | a failed ownership check is returned and nothing changes; otherwise the row is removed iff the delete is accepted |
| AlertService.TriggerMail | backend/internal/services/alert_service.go:240-259 | at most one mail, and only when the trigger write was accepted, the owner loads and email is enabled (missing preferences count as enabled) |
| AlertService.TriggerAlert | backend/internal/services/alert_service.go:231-262 | fails iff the trigger write is refused, and then nothing is stored and nothing sent; after an accepted write the row is triggered and a missing user or failed mail is only logged |
| AlertService.ProcessedMail | backend/internal/services/alert_service.go:204-229 | at most one mail per processed alert |
| AlertService.ProcessAlert | backend/internal/services/alert_service.go:204-229 | fails iff it is a price alert and either the quote is missing or it fires and the trigger write is refused; the stored row becomes ProcessedRow and the mails are ProcessedMail |
| AlertService.Ticked | backend/internal/services/alert_service.go:189-202 | one tick keeps exactly the same alert ids |
| AlertService.ActiveScan | backend/internal/repository/alert_repository.go:97-125 | a scan of the active rows holds each active row as stored, once, and no other |
| AlertService.AllActiveTicked | backend/internal/services/alert_service.go:195-199 | processing every active id one by one is the whole tick |
| AlertService.TickAll | backend/internal/services/alert_service.go:195-199 | processing a scan in turn leaves exactly the scanned rows processed and collects their mails in order |
| AlertService.CheckAlerts | backend/internal/services/alert_service.go:189-202 | fails iff the read fails, and then nothing changes; otherwise every active row is processed once, newest first, one alert's error never stops the rest, and the table is the ticked table |
| AlertService.IgnoredAlertsUnchanged | backend/internal/services/alert_service.go:207-215 | an alert that is not a price alert, or has no quote, is left as it was and sends nothing |
| AlertService.TriggersIffThresholdReached | backend/internal/services/alert_service.go:217-226 | with writes accepted, an evaluated alert records the fetched price and ends triggered iff price >= threshold (equality fires) |
| AlertService.RefusedTriggerSendsNothing | backend/internal/services/alert_service.go:233-235 | a refused trigger write sends no mail |
| AlertService.MailOnlyForTriggered | backend/internal/services/alert_service.go:231-259 | a mail is sent only for an alert that ends the tick triggered |
| AlertService.InactiveRowsUntouched | backend/internal/services/alert_service.go:189-195 | a row that is not active, a triggered one say, is not changed by a tick |
| AlertService.SecondTickIsQuiet | backend/internal/services/alert_service.go:189-226 | an alert that fires with its writes accepted is no longer active after the tick, so a second tick leaves it alone |
| AlertRepository.Persisted | backend/internal/repository/alert_repository.go:20-30 | the stored row keeps the ten inserted columns and has no yield columns and no trigger time |
| AlertRepository.UpdatedRow | backend/internal/repository/alert_repository.go:127-161 | updated_at becomes now; identity, owner, symbol, name and created_at are kept; a present column can be overwritten but never cleared; no yield column is written |
| AlertRepository.RewriteWithPrice | backend/internal/repository/alert_repository.go:139-146 | writing a row back with a new current price changes only that price and updated_at |
| AlertRepository.BuildSetClause | backend/internal/repository/alert_repository.go:129-158 | the SET clause starts with updated_at, and applied to any row it gives UpdatedRow |
| AlertRepository.AddPart | backend/internal/repository/alert_repository.go:135-154 | an optional column is appended only when its value is present, and the clause then applies it last |
| AlertRepository.AlertTable.constructor | backend/internal/repository/alert_repository.go:16-18 | a new table is empty |
| AlertRepository.AlertTable.GetByID | backend/internal/repository/alert_repository.go:32-48 | succeeds iff the id is stored, with that row |
| AlertRepository.AlertTable.Create | backend/internal/repository/alert_repository.go:20-30 | succeeds iff the write is accepted and the id is new, and then stores the persisted columns |
| AlertRepository.AlertTable.GetByUserID | backend/internal/repository/alert_repository.go:50-95 | exactly the owner's rows narrowed by each non-empty filter, each once, newest first |
| AlertRepository.AlertTable.GetActiveAlerts | backend/internal/repository/alert_repository.go:97-125 | exactly the active rows, each once, newest first |
| AlertRepository.AlertTable.GetActiveAlertsByType | backend/internal/services/alert_service.go:169-171 | exactly the active rows of the kind, each once, newest first |
| AlertRepository.AlertTable.Update | backend/internal/repository/alert_repository.go:127-161 | the row with the id becomes UpdatedRow; an unknown id matches nothing and is not an error |
| AlertRepository.AlertTable.Delete | backend/internal/repository/alert_repository.go:163-167 | removes exactly the row with that id |
| AlertRepository.AlertTable.UpdateCurrentPrice | backend/internal/repository/alert_repository.go:169-177 | only active rows of the symbol get the price and updated_at; every other row is unchanged |
| AlertRepository.AlertTable.TriggerAlert | backend/internal/repository/alert_repository.go:179-188 | the row becomes triggered with triggered_at = updated_at = now, whatever its status was |
| AlertRepository.TriggeredRow | backend/internal/repository/alert_repository.go:179-188 | status triggered and both timestamps now; identity, owner and type kept |
| Users.LookupUser | backend/internal/repository/user_repository.go:28-42 | a user loads iff the id is in the directory, and it is that user |
| Notifications.NotifyMail | backend/internal/services/dividend_service.go:209-227 | at most one mail, and only for an owner who loads and has email enabled |
| Notifications.Notify | backend/internal/services/dividend_service.go:209-237 | succeeds iff the owner loads and, with email enabled, the mail is accepted; a missing owner fails with "failed to get user"; only an announcement with the mail delivered marks the alert triggered |
| Notifications.RefusedMailBlocksTrigger | backend/internal/services/dividend_service.go:223-227 | a mail the server refuses returns before the trigger write, so the alert stays active and nothing is sent |
| Notifications.MissingPreferencesMeanEmail | backend/internal/services/ipo_service.go:145-156 | an owner without a preferences row is mailed |
| Notifications.MarkAll | backend/internal/services/dividend_service.go:229-234 | marking alerts triggered keeps exactly the same ids |
| Notifications.NotifyIfWanted | backend/internal/services/dividend_service.go:178-186 | an alert the filter skips changes nothing and sends nothing; a wanted one is notified and, if picked, marked |
| Notifications.FanOut | backend/internal/services/dividend_service.go:178-187 | every wanted alert is notified in turn, one failure never stops the rest, and exactly the picked alerts end triggered |
| Notifications.FanOutOverScan | backend/internal/services/ipo_service.go:106-120 | over a scan of the stored rows of a kind, the fan-out marks exactly the stored rows it picks |
| Notifications.OnlyAnnouncementsMark | backend/internal/services/ipo_service.go:158-163 | an event other than "announced" leaves every alert row as it was |
| Notifications.MarkedLeaveTheActiveSet | backend/internal/services/dividend_service.go:190-201 | a marked alert is no longer active, so a later payment or listing fan-out never reaches it |
| DividendService.NewDividend | backend/internal/services/dividend_service.go:38-51 | the stored announcement carries the request's fields, status announced, created and updated now |
| DividendService.NotifyDividendAlerts | backend/internal/services/dividend_service.go:170-207 | a failed read notifies no one; otherwise every active dividend alert is read, and exactly those whose symbol is empty or the announcement's, with delivered mail, are marked on "announced" |
| DividendService.CreateDividendAnnouncement | backend/internal/services/dividend_service.go:38-61 | the announcement is stored iff the insert is accepted; a failed insert notifies no one; a stored one notifies its stock's alerts |
| DividendService.PaidRows | backend/internal/services/dividend_service.go:155-160 | marking announcements paid keeps exactly the same ids |
| DividendService.PayIfDue | backend/internal/services/dividend_service.go:155-164 | a due announcement is marked paid unless the write is refused; nothing is sent for one that is not due or whose write is refused; otherwise, unless the alert read fails, one "paid" mail goes to each owner (who wants mail) of an active dividend alert that names no stock or this stock, in the order the alerts are read; payment notices never mark an alert |
| DividendService.SweepOverScan | backend/internal/services/dividend_service.go:146-168 | over a scan of the upcoming rows, the ids paid are exactly those PayableIds names |
| DividendService.PayAll | backend/internal/services/dividend_service.go:153-165 | each due announcement of the scan is paid in turn; alerts are unchanged; the mail sent is each announcement's payment notices joined in scan order, so mail goes out only if something was due |
| DividendService.CheckDividendPayments | backend/internal/services/dividend_service.go:146-168 | fails iff the read fails, sending nothing; exactly the upcoming, due announcements whose write is accepted become paid; no alert changes; the mail sent is the payment notices of the upcoming announcements, joined in the order they are read |
| DividendService.UpcomingOnTimeIsNeverDue | backend/internal/repository/dividend_repository.go:64 | with one clock value, an upcoming announcement whose payment date is not before its ex-date is never due |
| DividendService.SweepIsInertForOnTimeDividends | backend/internal/services/dividend_service.go:155 | when every announcement pays on or after its ex-date, a sweep marks nothing |
| DividendService.AnnouncedScanIds | backend/internal/services/dividend_service.go:153-160 | over any scan of the announced rows, the ids paid are exactly the announced dividends whose payment date has passed and whose write is accepted |
| DividendService.CheckDividendPaymentsFixed | backend/internal/services/dividend_service.go:146-168 | the corrected sweep: fails iff the read fails; exactly the announced dividends whose payment date has passed and whose write is accepted become paid; the mail sent is their payment notices joined in scan order |
| DividendService.FixedSweepPaysEveryPastDividend | backend/internal/services/dividend_service.go:154-155 | after the corrected sweep every past-due announced dividend with an accepted write is paid at now, and every other row is unchanged |
| DividendService.GetDividendStockBySymbol | backend/internal/services/dividend_service.go:98-111 | a feed error is passed on; otherwise succeeds iff some stock has exactly that symbol (case-sensitive), returning the first, else "not found in dividend data" |
| DividendService.GetHighDividendYieldStocks | backend/internal/services/dividend_service.go:114-128 | a feed error is passed on; otherwise the stocks with yield >= minYield in feed order |
| DividendService.HighYieldIsExact | backend/internal/services/dividend_service.go:120-125 | a stock is in the high-yield list iff it is in the feed with yield >= minYield, and the list keeps feed order |
| DividendRepository.DividendTable.constructor | backend/internal/repository/dividend_repository.go:16-25 | a new table is empty |
| DividendRepository.DividendTable.Create | backend/internal/repository/dividend_repository.go:27-34 | succeeds iff the write is accepted and the id is new, and then stores the announcement |
| DividendRepository.DividendTable.GetUpcoming | backend/internal/repository/dividend_repository.go:60-83 | exactly the announced rows with ex-date after now, each once, ex-date ascending |
| DividendRepository.DividendTable.UpdateStatus | backend/internal/repository/dividend_repository.go:85-89 | only the status and updated_at of the row with that id change |
| DividendRepository.DividendTable.GetBySymbol | backend/internal/repository/dividend_repository.go:91-114 | exactly the rows for the symbol, each once, ex-date descending |
| IPOService.NewIPO | backend/internal/services/ipo_service.go:36-46 | the stored IPO carries the request's fields, status announced, created and updated now |
| IPOService.NotifyIPOAlerts | backend/internal/services/ipo_service.go:106-136 | a failed read notifies no one; otherwise every active IPO alert is read and notified, with no symbol filter |
| IPOService.NoSymbolFilter | backend/internal/services/ipo_service.go:114-119 | an active IPO alert with delivered mail and an accepted write is marked whatever its stock |
| IPOService.CreateIPOAnnouncement | backend/internal/services/ipo_service.go:35-56 | the IPO is stored iff the insert is accepted; a failed insert notifies no one; a stored one notifies every IPO alert |
| IPOService.ListedRows | backend/internal/services/ipo_service.go:91-96 | marking IPOs listed keeps exactly the same ids |
| IPOService.ListIfDue | backend/internal/services/ipo_service.go:91-100 | a due IPO is marked listed unless the write is refused; nothing is sent unless it is due and its write accepted; otherwise, unless the alert read fails, one "listed" mail goes to each owner (who wants mail) of an active IPO alert, in the order the alerts are read; listing notices never mark an alert |
| IPOService.ListAll | backend/internal/services/ipo_service.go:89-101 | each due IPO of the scan is listed in turn; alerts are unchanged; the mail sent is each IPO's listing notices joined in scan order, so mail goes out only if something was due |
| IPOService.UpcomingIsNeverDue | backend/internal/repository/ipo_repository.go:64-65 | with one clock value no IPO has its listing date both after and before now |
| IPOService.CheckIPOListings | backend/internal/services/ipo_service.go:82-104 | fails iff the read fails; since nothing upcoming is ever due, the sweep changes no row and sends nothing |
| IPOService.SweepAsWrittenMissesPastIPO | backend/internal/services/ipo_service.go:83-91 | an announced IPO whose listing date passed a second ago is due, yet GetUpcoming does not return it |
| IPOService.AnnouncedScanIds | backend/internal/services/ipo_service.go:89-96 | over any scan of the announced rows, the ids listed are exactly the announced, past-dated IPOs whose write is accepted |
| IPOService.CheckIPOListingsFixed | backend/internal/services/ipo_service.go:82-104 | the corrected sweep: fails iff the read fails; exactly the announced IPOs whose listing date has passed and whose write is accepted become listed; the mail sent is their listing notices joined in scan order |
| IPOService.FixedSweepListsEveryPastIPO | backend/internal/services/ipo_service.go:90-91 | after the corrected sweep every past-dated announced IPO with an accepted write is listed at now, and every other row is unchanged |
| IPORepository.IPOTable.constructor | backend/internal/repository/ipo_repository.go:16-25 | a new table is empty |
| IPORepository.IPOTable.Create | backend/internal/repository/ipo_repository.go:27-34 | succeeds iff the write is accepted and the id is new, and then stores the IPO |
| IPORepository.IPOTable.GetUpcoming | backend/internal/repository/ipo_repository.go:60-83 | exactly the announced rows with listing date after now, each once, ascending |
| IPORepository.IPOTable.UpdateStatus | backend/internal/repository/ipo_repository.go:85-89 | only the status and updated_at of the row with that id change |
| IPORepository.IPOTable.GetBySymbol | backend/internal/repository/ipo_repository.go:91-103 | succeeds iff some row has the symbol, returning such a row; otherwise the no-rows error |
| StockService.FetchWithProxy | backend/internal/services/stock_service.go:210-235 | a response is returned iff the direct or the proxy answer is a 200, the direct one first; nil with a nil error iff the direct attempt failed and the proxy answered with another status |
| StockService.Requests | backend/internal/services/stock_service.go:210-224 | the direct URL is always requested first, and the proxy only when the direct answer is not a 200 |
| StockService.CallerStepAsWritten | backend/internal/services/stock_service.go:45-53 | the callers test only the error, so they dereference the response exactly when it is nil with a nil error |
| StockService.BothUnavailableDereferencesNil | backend/internal/services/stock_service.go:232-234 | both sides answering 503 gives nil, nil, and the caller then dereferences nil |
| StockService.FetchWithProxyFixed | backend/internal/services/stock_service.go:210-235 | corrected: succeeds exactly when fetchWithProxy has a 200 response, and is an error otherwise |
| StockService.FixedFallsBack | backend/internal/services/stock_service.go:45-52 | corrected: when neither side answers 200 the caller takes the mock fallback |
| StockService.ChangePercentSign | backend/internal/services/stock_service.go:246-253 | the percentage has the sign of the change when price and previous close are positive, and is 0 otherwise |
| StockService.ConvertToEnhancedStock | backend/internal/services/stock_service.go:245-264 | the feed's name is both symbol and name; previous close plus change is the price; the percentage is ChangePercent |
| StockService.ConvertAll | backend/internal/services/stock_service.go:237-243 | one converted entry per feed entry, position by position |
| StockService.ConvertToEnhancedStocks | backend/internal/services/stock_service.go:237-243 | the slice filled entry by entry equals ConvertAll |
| StockService.MockStocks | backend/internal/services/stock_service.go:266-308 | three mock quotes |
| StockService.MockSymbols | backend/internal/services/stock_service.go:266-308 | the mock quotes are ACCESS, GCB and MTN, already upper case |
| StockService.MockDetailedStock | backend/internal/services/stock_service.go:310-344 | mock details exist iff the symbol is MTN, with that symbol |
| StockService.FindMockStock | backend/internal/services/stock_service.go:89-97 | finds a mock quote iff one has that upper-cased symbol, returning such a quote |
| StockService.Written | backend/internal/cache/redis.go:55-66 | a connected, accepted Set stores the entry under the key; every other key is untouched |
| StockService.GetAllStocks | backend/internal/services/stock_service.go:33-71 | over the corrected fetch: a hit returns the cached list with no request and no write; a miss returns the converted feed cached for the configured TTL, or on failure the mock list cached for one minute; never an error (the source panics instead when both requests answer non-200, see Findings) |
| StockService.GetStock | backend/internal/services/stock_service.go:73-122 | over the corrected fetch: the symbol is upper-cased for key and request; a hit returns the cached quote with no request; a real quote is cached for the TTL; on failure the mock quote for ACCESS, GCB or MTN is cached for one minute, any other symbol gets "stock not found" and nothing is written (the source panics instead when both requests answer non-200) |
| StockService.MockCoversGetStock | backend/internal/services/stock_service.go:86-112 | over the corrected fetch: ACCESS, GCB and MTN in any letter case always succeed, whatever the network does |
| StockService.DetailsFrom | backend/internal/services/stock_service.go:159-200 | names come from the equity feed; price, change and volume from the live quote if any, else the equity price with change and volume 0; previous close plus change is the price |
| StockService.GetStockDetails | backend/internal/services/stock_service.go:124-208 | over the corrected fetch: as GetStock with the details key; the equity request is followed by a live request; the fallback exists for MTN only (the source panics instead when both requests answer non-200) |
| StockService.ReadThrough | backend/internal/services/stock_service.go:33-41 | right after a call on a connected cache, the same call is a hit, returns the same list and requests nothing |
| StockService.DisabledAlwaysFetches | backend/internal/cache/redis.go:68-71 | with no client every call misses and goes to the network |
| RedisCache.PrefixGlob | backend/internal/cache/redis.go:97 | a literal prefix followed by `*` matches exactly the keys that start with the prefix |
| RedisCache.StarMatchesAll | backend/internal/cache/redis.go:97 | the pattern `*` matches every key |
| RedisCache.Without | backend/internal/cache/redis.go:97-106 | a key stays iff it was stored and does not match the pattern, with its entry unchanged |
| RedisCache.Cache.constructor | backend/internal/cache/redis.go:26-53 | there is a client iff caching is enabled and the first ping succeeds; construction never fails |
| RedisCache.Cache.Set | backend/internal/cache/redis.go:55-66 | without a client it succeeds and changes nothing; with one it stores the entry unless the store refuses |
| RedisCache.Cache.Get | backend/internal/cache/redis.go:68-82 | a hit returns the stored value; no client is always a miss; a missing key is "key not found", distinct from other store errors |
| RedisCache.Cache.Delete | backend/internal/cache/redis.go:84-90 | without a client it succeeds and changes nothing; otherwise the key is removed unless the store refuses |
| RedisCache.Cache.DeletePattern | backend/internal/cache/redis.go:92-107 | removes exactly the matching keys, nothing when none match, and nothing without a client |
| RedisCache.Cache.Exists | backend/internal/cache/redis.go:109-116 | true iff there is a client, the query succeeds and the key is stored |
| RedisCache.Cache.SetTTL | backend/internal/cache/redis.go:118-124 | without a client it succeeds and changes nothing; otherwise only the key's TTL changes |
| RedisCache.Cache.GetTTL | backend/internal/cache/redis.go:126-132 | without a client it fails with "Redis not available"; otherwise the stored TTL or the no-such-key value |
| RedisCache.DisabledStaysEmpty | backend/internal/cache/redis.go:26-30 | a cache built with caching disabled misses after any Set |
| CacheService.InvalidateStockCache | backend/internal/services/cache_service.go:22-37 | deletes "stocks:*" then "stock:*"; a refusal of the first returns without trying the second; fails iff a pattern is refused |
| CacheService.InvalidationClearsStockKeys | backend/internal/services/cache_service.go:23-26 | after both patterns no key starting with "stocks:" or "stock:" remains |
| CacheService.ListNeedsItsOwnPattern | backend/internal/services/cache_service.go:23-26 | "stock:*" alone does not match "stocks:all" |
| CacheService.InvalidateStockSymbol | backend/internal/services/cache_service.go:40-59 | removes the live and details keys of the symbol as given and the list key, except refused ones; always returns nil |
| CacheService.LowercaseInvalidationMisses | backend/internal/services/cache_service.go:41-44 | a symbol written with a lower-case letter leaves GetStock's upper-cased entry in place |
| CacheService.CountCached | backend/internal/services/cache_service.go:73-81 | the count of checked keys held is at most the number checked |
| CacheService.GetCacheStats | backend/internal/services/cache_service.go:62-88 | total checked is 4, cached keys between 0 and 4 and equal to the count the store holds; a TTL is reported exactly for held keys whose TTL query succeeds |
| CacheService.WarmupCache | backend/internal/services/cache_service.go:91-113 | over the corrected fetch: always nil; no key is lost; with a working store the list, the MTN, ACCESS and GCB quotes and MTN's details end up cached whatever the network does |
| CacheService.WarmSymbol | backend/internal/services/cache_service.go:101-109 | over the corrected fetch: one popular symbol's quote then details; no key is lost; the three mock-backed quotes and MTN's details always end up cached |
| CacheService.UpperOfPopular | backend/internal/services/cache_service.go:100 | the popular symbols are already upper case |
| CacheService.StatsAfterWarmup | backend/internal/services/cache_service.go:91-113 | over the corrected fetch: after a warm-up through a working store the report finds all four keys it checks |
| CacheService.AllCheckedCached | backend/internal/services/cache_service.go:66-81 | a store holding the four checked keys counts all four |
| Config.GetEnv | backend/internal/config/config.go:119-124 | the variable's value when it is set and non-empty, otherwise the default |
| Config.GetEnvAsInt | backend/internal/config/config.go:126-133 | the parsed integer when the value is set and accepted by strconv.Atoi, the default when it is unset, empty or rejected |
| Config.ParseBoolRejects | backend/internal/config/config.go:137 | "yes", "on" and "tRUE" are not accepted as booleans |
| Config.ParseBool | backend/internal/config/config.go:137 | an accepted spelling has one to five characters, and it means true exactly when it starts with 1, t or T |
| Config.GetEnvAsBool | backend/internal/config/config.go:135-142 | the parsed boolean when the value is set and accepted by strconv.ParseBool, the default otherwise |
| Config.IntSettingRoundTrip | backend/internal/config/config.go:126-133 | any int64 written in decimal is read back as itself |
| Config.Load | backend/internal/config/config.go:66-117 | four allowed origins, the first taken from FRONTEND_URL or its default |
| Config.EmptyEnvironmentDefaults | backend/internal/config/config.go:66-117 | with nothing set: port 10000, 60-second timeout, 24-hour tokens, cache enabled for 5 minutes, no SMTP credentials |
| Config.CacheSwitch | backend/internal/config/config.go:113 | REDIS_ENABLED=false turns the cache off; an unparsable value such as "off" leaves it on |
| DividendScraper.MockDividendData | backend/internal/services/dividend_scraper_service.go:150-158 | the fallback data is five rows |
| DividendScraper.Normalise | backend/internal/services/dividend_scraper_service.go:163-195 | a row yields a request iff its yield is neither empty nor "0%" and both yield and price parse; the request is a GHS cash dividend of price × yield / 100, ex in 30 days, paid in 45 |
| DividendScraper.ScrapedNumbersReadBack | backend/internal/services/dividend_scraper_service.go:168-177 | a two-decimal yield with "%" and a two-decimal price behind the cedi sign read back as the number shown |
| DividendScraper.ZeroPercentSpellings | backend/internal/services/dividend_scraper_service.go:165 | "0%" is skipped while "0.0%" produces an announcement of amount 0 |
| DividendScraper.ZeroPointZeroYield | backend/internal/services/dividend_scraper_service.go:170-171 | "0.0%" parses to the yield 0 |
| DividendScraper.ScrapedAreNeverPaid | backend/internal/services/dividend_scraper_service.go:193-194 | an upcoming scraped announcement is never due for payment by the sweep |
| DividendScraper.HasRecent | backend/internal/services/dividend_scraper_service.go:199-205 | true iff some existing row was created within the last 7 days |
| DividendScraper.ScanRecent | backend/internal/services/dividend_scraper_service.go:198-205 | scanning the symbol's rows finds a recent one iff the table holds one |
| DividendScraper.ProcessItem | backend/internal/services/dividend_scraper_service.go:163-214 | one row: only the fresh id may be added; a row that parses and is created leaves a recent announcement for its ticker; alerts are only marked triggered |
| DividendScraper.RecentPersists | backend/internal/services/dividend_scraper_service.go:197-205 | a recent announcement stays recent as the table grows |
| DividendScraper.ProcessDividendData | backend/internal/services/dividend_scraper_service.go:162-218 | always nil; rows are only added, each built from a scraped row; with working lookups nothing duplicates a recent announcement; every parsing row ends covered unless its creation failed |
| DividendScraper.ScrapeDividends | backend/internal/services/dividend_scraper_service.go:62-70 | processes the scraped rows, or the mock rows when scraping fails, and always returns nil |
| LegacyServer.AlertIdInjective | backend/main.go:434-436 | ids "alert-<n>" built from different counters differ |
| LegacyServer.ValidateCreate | backend/main.go:398-418 | a request passes iff symbol and type are non-empty, the type is one of the three accepted, and a price alert carries a threshold; every rejection is a 400 |
| LegacyServer.Updated | backend/main.go:476-488 | provided fields replace the stored ones, the others stay, UpdatedAt is the current time |
| LegacyServer.EmptyUpdateOnlyTouches | backend/main.go:476-488 | an update with no fields changes only UpdatedAt |
| LegacyServer.TickTriggersIffReached | backend/main.go:529-552 | a monitored alert records the price and time, and becomes triggered iff it has a threshold the price reaches (equality included); otherwise it stays active; nothing else changes |
| LegacyServer.TriggeredIsFinal | backend/main.go:529-531 | a triggered alert is skipped by every later pass |
| LegacyServer.Tick | backend/main.go:529-552 | an unmonitored or unquoted alert is untouched; a monitored, quoted one records the price and time; only price, time and status change, and the status only to "triggered" |
| LegacyServer.Server.constructor | backend/main.go:696-722 | the two sample alerts alert-1 (MTN price alert at 0.85) and alert-2 (ACCESS dividend alert), counter 2 |
| LegacyServer.Server.GetAlerts | backend/main.go:370-388 | exactly the stored alerts passing the user and status filters, in stored order |
| LegacyServer.Server.CreateAlert | backend/main.go:390-452 | rejects exactly the invalid requests with their error and no change; otherwise appends an active alert of user-123 under a fresh id alert-<counter+1> with the looked-up price |
| LegacyServer.Server.Find | backend/main.go:457-462 | the first position holding the id, or none iff no alert has it |
| LegacyServer.Server.GetAlert | backend/main.go:454-465 | an alert with the id, or 404 iff none has it |
| LegacyServer.Server.UpdateAlert | backend/main.go:467-497 | 404 with no change iff the id is unknown; otherwise that alert alone is replaced by its updated form |
| LegacyServer.Server.DeleteAlert | backend/main.go:499-512 | 404 with no change iff the id is unknown; otherwise the alert is cut out, the others keep their order, and no alert keeps the id |
| LegacyServer.Server.CheckAlerts | backend/main.go:527-559 | every alert becomes its evaluation against its symbol's price; none is added or removed |
| LegacyServer.FirstCreatedId | backend/main.go:434-436 | the first alert created after seeding is alert-3 |
| LegacyServer.MockStocks | backend/main.go:562-630 | the legacy mock list has five stocks |
| LegacyServer.Enhance | backend/main.go:264-284 | the served symbol is the feed's name, and previous close plus change is the current price |
| LegacyServer.GetStock | backend/main.go:229-287 | the feed's quote when the lookup succeeds; otherwise the mock entry matching the upper-cased symbol, or 404 "Stock not found" iff none does |
| Email.Deliver | backend/internal/services/email_service.go:71-86 | the message goes out unchanged iff the server does not refuse its address |
| Email.PriceOrZero | backend/internal/services/email_service.go:45-50 | a nil price is shown as 0, a present one as itself |
| Email.SendAlertEmail | backend/internal/services/email_service.go:32-58 | fails with "email service not configured" without SMTP credentials; succeeds iff configured and delivered; the mail goes to the user with subject "Stock Alert: name (symbol)" and nil prices shown as 0 |
| Email.SendWelcomeEmail | backend/internal/services/email_service.go:60-69 | not configured fails; otherwise the welcome mail to the user's address |
| Email.SendIPOAlertEmail | backend/internal/services/email_service.go:197-219 | not configured fails; "announced" gives the "New IPO Announced" subject and every other event "IPO Now Listed" |
| Email.SendDividendAlertEmail | backend/internal/services/email_service.go:315-337 | not configured fails; "announced" gives the "Dividend Announced" subject and every other event "Dividend Paid" |
| Email.YieldChange | backend/internal/services/email_service.go:555-560 | the change reported is the magnitude of current minus last, and the direction is "decreased" exactly when the yield fell |
| Email.SendDividendYieldAlertEmail | backend/internal/services/email_service.go:430-458 | not configured fails; a kind other than the three yield kinds fails as unsupported; each yield kind gets its own subject, and the change mail says "decreased" iff the yield fell |
| AuthHandler.SplitFirstSpace | backend/internal/handlers/auth_handler.go:94 | one part iff the header has no space; otherwise the text before the first space and the rest, which joined by a space give the header back |
| AuthHandler.BearerToken | backend/internal/handlers/auth_handler.go:87-100 | an empty header is "Authorization header required"; every other refusal is "Invalid authorization header format" |
| AuthHandler.BearerTokenIff | backend/internal/handlers/auth_handler.go:94-100 | a header yields token t iff it is exactly "Bearer " followed by t |
| AuthHandler.LowercaseSchemeRefused | backend/internal/handlers/auth_handler.go:95 | the scheme is case-sensitive: "bearer t" is refused as badly formatted |
| AuthHandler.TokenKeepsSpaces | backend/internal/handlers/auth_handler.go:94-100 | everything after "Bearer " is the token, an empty one or one with spaces included |
| AuthHandler.Authenticate | backend/internal/handlers/auth_handler.go:85-112 | passes with the token's user iff the header is well formed and the token verifies; every refusal is 401, "Invalid token" when only the token is bad |
| AuthHandler.OptionalAgreesWithStrict | backend/internal/handlers/auth_handler.go:115-131 | the optional middleware attaches a user iff the strict one would let the request through, and the same user |
| AuthHandler.OptionalAuthenticate | backend/internal/handlers/auth_handler.go:115-131 | never refuses; no user for a missing or malformed header, otherwise the user the verifier gives for the Bearer token |
| AuthHandler.AuthUrl | backend/internal/handlers/auth_handler.go:32-40 | the URL is built for the given state, or for the placeholder state when none is given |
| AuthHandler.GoogleCallback | backend/internal/handlers/auth_handler.go:42-66 | an empty code is 400 "Authorization code is required" before any exchange; otherwise success iff the exchange succeeds, and a failed exchange is 401 with its message |
| AlertForm.Errors | components/forms/AlertForm.tsx:47-88 | a stock error iff the stock is empty and the kind is not high_dividend_yield; otherwise only the selected kind's parameter can carry an error, iff it is not a number above zero, with the message for its case |
| AlertForm.FalsyMeansRequired | components/forms/AlertForm.tsx:54-60 | a missing, NaN or zero threshold reads "is required"; only a negative one reads "must be greater than 0" |
| AlertForm.HighYieldWithoutStock | components/forms/AlertForm.tsx:50 | a high-yield alert with a positive minimum and no stock has no errors |
| AlertForm.CheckParam | components/forms/AlertForm.tsx:54-84 | a parameter check adds its field's message only when its kind is selected and the value fails, leaving the other fields as they were |
| AlertForm.CheckForm | components/forms/AlertForm.tsx:47-85 | the checks in the source's order produce exactly the specified errors |
| AlertForm.Form.constructor | components/forms/AlertForm.tsx:40-45 | starts with an empty price-threshold form and no errors |
| AlertForm.Form.ValidateForm | components/forms/AlertForm.tsx:47-88 | the shown errors become those of the current data, which stays; valid iff there are none |
| AlertForm.Form.Close | components/forms/AlertForm.tsx:97-105 | back to the empty form with no errors, and the dialog closes |
| AlertForm.Form.Submit | components/forms/AlertForm.tsx:90-95 | submits the data iff it has no errors, then closes and resets; otherwise keeps the data and shows its errors |
| AlertForm.Form.StockChange | components/forms/AlertForm.tsx:107-115 | a chosen stock sets symbol and name only; clearing the picker changes nothing |
| DividendYieldAlerts.PriceAndIPOAlertsDropped | components/dividend/DividendYieldAlerts.tsx:61-68 | an alert is kept iff it is one of the three yield kinds or an announcement alert; price and IPO alerts never are |
| DividendYieldAlerts.ToggledStatus | components/dividend/DividendYieldAlerts.tsx:96 | the new status is "inactive" iff the old one is "active", and "active" otherwise |
| DividendYieldAlerts.WithStatus | components/dividend/DividendYieldAlerts.tsx:98-100 | same length; exactly the alerts with the id get the new status, the others are unchanged |
| DividendYieldAlerts.WithoutMembers | components/dividend/DividendYieldAlerts.tsx:86 | after deletion an alert remains iff it was there and has a different id |
| DividendYieldAlerts.EmptySymbolWording | components/dividend/DividendYieldAlerts.tsx:121-134 | an empty symbol reads "any stock" for high-yield and announcement alerts but stays blank for target alerts |
| DividendYieldAlerts.Description | components/dividend/DividendYieldAlerts.tsx:121-135 | the three yield kinds read "Alert when …" ending in a percentage, an announcement alert ends with its stock or "any stock", and any other type reads "Dividend alert" |
| DividendYieldAlerts.StatusCountsBounded | components/dividend/DividendYieldAlerts.tsx:149-151 | the active, triggered and inactive counts add up to at most the number of alerts |
| DividendYieldAlerts.Panel.constructor | components/dividend/DividendYieldAlerts.tsx:49-53 | starts with no alerts, loading, no error and no pending deletion |
| DividendYieldAlerts.Panel.FetchAlerts | components/dividend/DividendYieldAlerts.tsx:55-75 | on success the dividend alerts, in order, replace the list and clear the error; a failure records its message and keeps the list; loading ends |
| DividendYieldAlerts.Panel.AskDelete | components/dividend/DividendYieldAlerts.tsx:53 | remembers the alert and opens the confirmation, nothing else |
| DividendYieldAlerts.Panel.DeleteAlert | components/dividend/DividendYieldAlerts.tsx:81-92 | nothing without a selection; after a successful call exactly the selected id leaves the list and the dialog closes; a failure records its message and keeps everything else |
| DividendYieldAlerts.Panel.ToggleAlert | components/dividend/DividendYieldAlerts.tsx:94-104 | after a successful update the alerts with that id get the toggled status; a failure records its message and keeps the list |
| DividendYieldAlerts.ToggleRearmsTriggered | components/dividend/DividendYieldAlerts.tsx:96 | toggling a triggered alert makes it active |
| DividendDashboard.ReadMinYield | components/dividend/DividendYieldDashboard.tsx:210 | an empty box clears the filter; any other text gives a minimum exactly when it reads as a decimal, and that minimum is the decimal the text denotes (otherwise NaN) |
| DividendDashboard.FilteredMembers | components/dividend/DividendYieldDashboard.tsx:65-73 | a stock is listed iff data is loaded, it contains the stock, the search matches its name, symbol or sector, and it meets the minimum |
| DividendDashboard.FilterExtremes | components/dividend/DividendYieldDashboard.tsx:65-73 | an empty search with no minimum lists every stock in order; an unreadable minimum lists none |
| DividendDashboard.FilteredStocks | components/dividend/DividendYieldDashboard.tsx:65-73 | nothing before the data loads; otherwise no more stocks than loaded, each matching the search and the minimum |
| DividendDashboard.HighYieldCount | components/dividend/DividendYieldDashboard.tsx:75 | the high-yield count never exceeds the number shown |
| DividendDashboard.HighYieldCountExact | components/dividend/DividendYieldDashboard.tsx:75 | the stocks counted and those below 3% together are all the shown stocks; if all yield at least 3% all are counted |
| DividendDashboard.AverageYield | components/dividend/DividendYieldDashboard.tsx:76-78 | 0 with nothing shown, otherwise the value whose product with the count is the sum of the shown yields |
| DividendDashboard.AverageAtLeast | components/dividend/DividendYieldDashboard.tsx:76-78 | a mean of yields all at least m is at least m |
| DividendDashboard.AverageMeetsMinimum | components/dividend/DividendYieldDashboard.tsx:65-78 | with a minimum in force and something shown, the average card is at least the minimum |
| DividendDashboard.CreateYieldAlert | components/dividend/DividendYieldDashboard.tsx:80-92 | a draft iff there is a callback, carrying the stock and the kind, with only that kind's prefilled field present |
| DividendDashboard.DraftValues | components/dividend/DividendYieldDashboard.tsx:86-88 | the prefills: the current yield as threshold, half a point above it as target, 0.5 as change |
| DividendDashboard.Dashboard.constructor | components/dividend/DividendYieldDashboard.tsx:42-46 | starts with no data, loading, no error, an empty search and no minimum |
| DividendDashboard.Dashboard.FetchDividendData | components/dividend/DividendYieldDashboard.tsx:48-59 | success replaces the data and clears the error; a failure keeps the old data and records its message; loading ends; the filters stay |
| DividendDashboard.Dashboard.SetSearchTerm | components/dividend/DividendYieldDashboard.tsx:196 | only the search term changes |
| DividendDashboard.Dashboard.SetMinYield | components/dividend/DividendYieldDashboard.tsx:210 | only the minimum changes, to the value read from the box |
| AuthContext.UseAuth | src/contexts/AuthContext.tsx:116-122 | the context value inside a provider; outside one, the error "useAuth must be used within an AuthProvider" |
| AuthContext.Provider.constructor | src/contexts/AuthContext.tsx:21-23 | nobody signed in, no token, loading |
| AuthContext.Provider.Restore | src/contexts/AuthContext.tsx:28-43 | with both keys saved and non-empty the session is restored; if the saved user is unparsable both keys are removed and the token, already taken over, stays; otherwise nothing changes; loading ends |
| AuthContext.Provider.Login | src/contexts/AuthContext.tsx:55-72 | success iff the call succeeds: user and token set and both keys saved; a failure is rethrown and leaves session and storage as they were; loading ends |
| AuthContext.Provider.Logout | src/contexts/AuthContext.tsx:74-84 | user and token cleared, both keys removed and nothing else, so the session is not authenticated; the backend is called iff a token was held |
| AuthContext.Provider.RefreshUser | src/contexts/AuthContext.tsx:86-97 | nothing without a token; otherwise the profile replaces the user and its saved copy, or the failure is rethrown with nothing changed |
| AuthContext.Provider.VerifyToken | src/contexts/AuthContext.tsx:46-53 | with a token held and loading over, a failed profile call logs out (no user, no token, both keys removed from storage and nothing else) and a successful one keeps the token, sets the fresh user and saves it under the user key, leaving the session authenticated; otherwise nothing changes |
| AuthContext.LoginAuthenticates | src/contexts/AuthContext.tsx:25 | a successful login with a non-empty token leaves the session authenticated |
| Search.StockSearch | src/hooks/useSearch.ts:3-16 | a blank term returns the list unchanged; a search never lengthens the list |
| Search.StockSearchMembers | src/hooks/useSearch.ts:10-14 | for a non-blank term an item is kept iff it is in the list and its lower-cased symbol or name contains the lower-cased, untrimmed term |
| Search.StockSearchKeepsOrder | src/hooks/useSearch.ts:11-14 | the result is a subsequence of the list: no reordering, nothing invented |
| Search.LeadingSpaceIsSearchedFor | src/hooks/useSearch.ts:8-10 | the term is trimmed only for the blank test, so a leading space finds nothing among space-free symbols and names |
| Search.AlertFilter | src/hooks/useSearch.ts:18-29 | "all" returns the list unchanged |
| Search.AlertFilterMembers | src/hooks/useSearch.ts:25-27 | any other filter keeps an item iff it is in the list and its status or its kind equals the filter |
| Search.AlertFilterKeepsOrder | src/hooks/useSearch.ts:25-27 | the result is a subsequence of the list |
| Search.PriceDirectionFiltersMatchNothing | src/hooks/useSearch.ts:25-27 | "price_above" and "price_below" match no alert of a known kind and status, so they always give an empty list |
| AlertsTable.PageRows | components/tables/AlertsTable.tsx:80 | the page is the slice starting at page × size: its length is the size, the remainder or 0, and row i is alert page × size + i |
| AlertsTable.EveryRowOnItsPage | components/tables/AlertsTable.tsx:80 | every alert appears, at position j mod size on page j div size |
| AlertsTable.EmptyMessage | components/tables/AlertsTable.tsx:98-104 | "No alerts created yet" iff there are no alerts, otherwise "No alerts match the current filter" |
| AlertsTable.PriceCell | components/tables/AlertsTable.tsx:122-127 | "-" iff the price is absent or zero, otherwise the formatted price |
| AlertsTable.Table.constructor | components/tables/AlertsTable.tsx:42-45 | first page, 10 rows per page, no selection, menu closed |
| AlertsTable.Table.MenuClick | components/tables/AlertsTable.tsx:47-50 | the menu opens on this alert; paging unchanged |
| AlertsTable.Table.MenuClose | components/tables/AlertsTable.tsx:52-55 | menu closed and selection cleared; paging unchanged |
| AlertsTable.Table.Edit | components/tables/AlertsTable.tsx:57-62 | the selected alert, if any, is handed on; the selection is then cleared |
| AlertsTable.Table.Delete | components/tables/AlertsTable.tsx:64-69 | the selected alert's id, if any, is handed on; the selection is then cleared |
| AlertsTable.Table.ChangePage | components/tables/AlertsTable.tsx:71-73 | only the page changes |
| AlertsTable.Table.ChangeRowsPerPage | components/tables/AlertsTable.tsx:75-78 | the new size, and back to the first page |
| AlertsTable.ResizeShowsTop | components/tables/AlertsTable.tsx:75-80 | after a change of page size the visible rows are the first n alerts (or all of them) |
| Market.TopMovers | components/market/TopMovers.tsx:11-15 | never more stocks than the limit |
| Market.TopMoversProperties | components/market/TopMovers.tsx:12-15 | every listed stock moved the right way (by change), best first by changePercent, drawn from the input, and as many as there are movers up to the limit |
| Market.TopMoversAreBest | components/market/TopMovers.tsx:12-15 | the listed movers are the top ones: a mover of the input left out by the cut ranks no better than any listed stock |
| Market.GainersBestFirst | components/market/TopMovers.tsx:13 | a listed gainer's changePercent is at least that of every gainer after it |
| Market.EmptyCaption | components/market/TopMovers.tsx:27-30 | "No gainers today" or "No losers today" by kind |
| Market.CountsAddUp | components/market/MarketSummary.tsx:12-14 | gainers, losers and unchanged together count every stock once |
| Market.TotalVolumeAppend | components/market/MarketSummary.tsx:16 | the total volume of a joined list is the sum of the parts' totals |
| Market.TotalVolumeBounds | components/market/MarketSummary.tsx:16 | with non-negative volumes the total is at least each stock's volume |
| Market.AverageChange | components/market/MarketSummary.tsx:17 | none (NaN) iff the list is empty, otherwise the value whose product with the count is the sum of changePercent |
| Market.Trend | components/market/MarketSummary.tsx:83-84 | rising iff the average is above zero, falling iff below; zero and NaN are neutral |
| Market.TrendSign | components/market/MarketSummary.tsx:83 | a "+" exactly for a rising average, nothing otherwise |
| Market.AllUpMeansRising | components/market/MarketSummary.tsx:17-84 | a non-empty market where every stock gained has a rising trend |
| NotificationSettings.DefaultSettings | components/forms/NotificationSettings.tsx:32-42 | without initial settings exactly email and mobile push are on, with no contact details |
| NotificationSettings.PhoneExamples | components/forms/NotificationSettings.tsx:46-48 | the empty number and "+233" followed by nine digits pass; a local number, eight or ten digits, or another country code fail |
| NotificationSettings.Toggled | components/forms/NotificationSettings.tsx:56-64 | exactly the one channel flips; other channels and contact details stay |
| NotificationSettings.ToggleTwice | components/forms/NotificationSettings.tsx:56-64 | toggling a channel twice restores the settings |
| NotificationSettings.Form.constructor | components/forms/NotificationSettings.tsx:32-44 | the given settings, or the defaults when none are given, and no phone error |
| NotificationSettings.Form.ValidatePhone | components/forms/NotificationSettings.tsx:46-54 | accepts iff the number is empty or matches the Ghana format, and the error message shows exactly when it fails |
| NotificationSettings.Form.ToggleChannel | components/forms/NotificationSettings.tsx:56-64 | the settings become their toggled form; the error stays |
| NotificationSettings.Form.EditPhone | components/forms/NotificationSettings.tsx:112-114 | the number is stored; a non-empty one is checked and the error set to match, an empty one leaves the error |
| NotificationSettings.Form.Save | components/forms/NotificationSettings.tsx:66-71 | the settings are handed on unchanged unless a non-empty phone number fails, in which case the format error shows; after a successful save the error is cleared if a non-empty number was checked and is otherwise as it was |
| Formatters.FormatAlertType | utils/formatters.ts:33-50 | a known kind gets its label, which differs from the raw constant; any other string is shown as given |
| Formatters.AlertTypeLabelsDistinct | utils/formatters.ts:33-50 | the six kinds get six different labels |
| Formatters.FormatNotificationChannel | utils/formatters.ts:52-67 | a known channel gets its label; any other string is shown as given |
| Formatters.ChannelLabelsDistinct | utils/formatters.ts:52-67 | the five channels get five different labels |
| Formatters.FormatPrice | utils/formatters.ts:4-6 | the text starts with "GHS " |
| Formatters.FormatCurrency | utils/formatters.ts:8-10 | the text starts with "GH₵ " |
| Formatters.FormatPercentage | utils/formatters.ts:12-14 | the text ends in "%" |
| Formatters.FormattedAmountsReadBack | utils/formatters.ts:4-14 | the number in each of the three formats reads back within half a hundredth of the input, and the three agree on it |
| AlertStatusChip.GetChipProps | components/common/AlertStatusChip.tsx:11-38 | green iff "active", amber iff "triggered", filled iff one of those two; the three client statuses get their labels and any other status its raw text |
| AlertStatusChip.BackendOnlyStatusesLookInactive | components/common/AlertStatusChip.tsx:19-36 | "paused" and "deleted" show as their raw text in the style of "inactive" |
| IPOList.StatusColour | components/ipo/IPOList.tsx:47-54 | primary iff announced, success iff listed, error iff cancelled |
| IPOList.StatusLabel | components/ipo/IPOList.tsx:56-63 | the three known statuses are capitalised and otherwise kept; any other status is shown raw |
| IPOList.DateCaption | components/ipo/IPOList.tsx:130 | "Listed on" iff the IPO is listed, "Expected listing" otherwise |
| IPOList.FetchError | components/ipo/IPOList.tsx:34-45 | a non-OK answer records "Failed to fetch IPOs"; a rejected request records its error's message, or "Failed to fetch IPOs" when the thrown value has none; an OK answer that is not JSON records the parse error's message; an OK JSON answer records nothing |
| IPOList.View.constructor | components/ipo/IPOList.tsx:26-28 | an empty list, loading, no error |
| IPOList.View.FetchIPOs | components/ipo/IPOList.tsx:34-45 | a successful answer replaces the list (null as empty) and keeps the error; a failure records its message and keeps the list; loading ends |
| NotificationSettings.PhoneFieldFollowsPhoneChannels | components/forms/NotificationSettings.tsx:107 | the phone field is hidden by default, appears once SMS is switched on, and toggling telegram, email or push never changes it |

## Left out

- Network, SMTP, Redis and SQL are not modelled as such. Each call is an outcome parameter: a transport error or a status-coded response, a refused address, a refused write. JSON decoding is a decoded value or a decode error chosen by the caller.
- HTML e-mail templates and `fmt` text are not modelled, nor is `toFixed` text outside `utils/formatters.ts` (the TopMovers and MarketSummary chip labels). Mail bodies are records of the values they show. Float formatting is exact decimal rounding over reals, and NaN and infinities do not arise.
- Goroutines, tickers and timeouts are not modelled. `go trigger...Alerts(...)` runs synchronously after its write, and one tick is one call of the check method. Interleavings between goroutines are not captured.
- The headless-browser scrape and its regular expressions are not modelled; the scrape is a result parameter. Go's RE2 rejects the `(?=` lookahead at `dividend_scraper_service.go:113`, so `MustCompile` would panic there; this path is reached only after a successful page load, which the parameter already abstracts.
- OAuth code exchange and JWT signing are not modelled. The token check and the code exchange are functions passed in.
- The HTTP handlers that only translate requests, and the app wiring, are not modelled. Only the price-alert monitor is started by the app; dividend and IPO operations are modelled as callable regardless.
- AlertRepository.AlertTable.GetActiveAlertsByType is specified as "status active and type t", because its body is not in the source; the callers at `alert_service.go:170`, `dividend_service.go:172` and `ipo_service.go:108` fix its meaning.
- Search.LeadingSpaceIsSearchedFor is stated only for lists whose symbols and names hold no space; with spaces inside them a term with a leading space can match.
- Email.SendDividendYieldAlertEmail requires the kind's yield fields to be present once mail is configured, because the source dereferences them and panics on nil; the panic itself is not modelled.
- StockService.GetAllStocks: specified over the corrected fetch (StockService.FetchWithProxyFixed), serving and caching the mock list; as written, when the direct request and the proxy both answer non-200, the source dereferences a nil response at `stock_service.go:53` and panics. The as-written fetch is StockService.FetchWithProxy, and the discrepancy is under Findings.
- GetStock: StockService.GetStock is specified over the corrected fetch; the source panics at `stock_service.go:99` when both requests answer non-200.
- MockCoversGetStock: "whatever the network does" holds for the corrected fetch only; as written, both requests answering non-200 panics.
- GetStockDetails: specified over the corrected fetch; the source panics at `stock_service.go:147` and `166` when both requests answer non-200.
- WarmupCache: CacheService.WarmupCache calls the corrected fetch; as written, the first symbol whose requests both answer non-200 panics inside GetAllStocks, GetStock or GetStockDetails, and the warm-up does not complete.
- WarmSymbol: CacheService.WarmSymbol "always ends up cached" only over the corrected fetch; as written, both requests answering non-200 panics.
- StatsAfterWarmup: CacheService.StatsAfterWarmup assumes the warm-up completes, which holds over the corrected fetch only.
- DividendScraper.Normalise, with DividendScraper.ParseYield and DividendScraper.ParsePrice, reads numbers with a plain decimal reader (an optional sign, digits, at most one '.'). `strconv.ParseFloat` also accepts exponent, hexadecimal, `Inf` and `NaN` spellings, so a row with a yield such as "1e1%" or "Inf%" produces an announcement in the source and is skipped in the model.
- DividendDashboard.ReadMinYield reads the box with a plain decimal reader; `Number()`'s exponent, hexadecimal and whitespace forms are not modelled.
- AuthContext.Provider.Restore models `JSON.parse` as a parse outcome; a saved `"null"` parses to no user.
- The sweeps read the clock once: GetUpcoming's `time.Now()` and the sweep's own `time.Now()` are the same `now`. The source reads it twice (`ipo_repository.go:67` then `ipo_service.go:88`; `dividend_repository.go:67` then `dividend_service.go:152`), so an announcement whose date falls between the two reads can be acted on there and not here.
- RedisCache.Glob covers the `*` and `?` wildcards of Redis `KEYS` patterns only; `[...]` classes and `\` escapes are not modelled. The patterns the services use (`stocks:*`, `stock:*`) hold only `*`.
- Text case mapping (`toLowerCase`, `strings.ToUpper`) covers ASCII only; other Unicode case pairs are left unchanged.
- Market.TopMovers takes a natural-number limit; a negative or fractional `limit` prop is not modelled. Market.CountsAddUp holds because changes are reals; with a NaN change the three counts fall short.
- The chip size, icons, colours and layout of the components are not modelled beyond the status mappings.

## Findings

| source | as written | input that shows it | evidently intended | confidence | as-written member | corrected member |
|---|---|---|---|---|---|---|
| backend/internal/services/ipo_service.go:83-91 | the sweep reads only IPOs whose listing date is still after now (`ipo_repository.go:64`), then lists only those whose listing date is before now, so with one clock value nothing is ever listed | an announced IPO whose listing date was yesterday stays announced for ever | read the announced IPOs and list those whose listing date has passed | not executed | IPOService.CheckIPOListings | IPOService.CheckIPOListingsFixed |
| backend/internal/services/dividend_service.go:146-160 | the sweep reads only dividends whose ex-dividend date is still after now (`dividend_repository.go:64`), then pays only those whose payment date is before now, so a dividend paid on or after its ex-dividend date is never marked paid | an announced dividend with ex date in ten days and payment date after it stays announced once both dates have passed | read the announced dividends and pay those whose payment date has passed | not executed | DividendService.SweepIsInertForOnTimeDividends | DividendService.CheckDividendPaymentsFixed |
| backend/internal/services/stock_service.go:232-234 | when the direct and the proxy request both complete with a non-200 status, fetchWithProxy returns a nil response and a nil error, and the callers, which test only the error, dereference the nil response | direct and proxy both answer 503 | report an error so that the caller takes its mock fallback | not executed | StockService.BothUnavailableDereferencesNil | StockService.FixedFallsBack |
