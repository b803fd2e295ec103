# CargoTracker in Dafny

A model of the CargoTracker shipment-tracking system and proofs about it. The
system is offline-first. A local API server answers from a SQLite cache. While
the cloud backend is unreachable, it queues shipment writes in
`pending_operations`, and a synchronisation engine replays them later. The
cloud backend comes in two variants: a PostgreSQL cloud function and a
Supabase cloud function. There is also an Express server backed by Supabase,
which serves shipments, drivers and vehicles. The browser side is a Pinia store
holding the shipment list and a service worker with a cache-first policy.

The model follows the program's structure, one Dafny module per concern:

| module | file | what it holds |
|---|---|---|
| `Wrappers` | wrappers.dfy | `Option`, `Result` |
| `Json` | json.dfy | JSON values and objects, JavaScript `\|\|` and truthiness, SQL `COALESCE` and parameter binding, clock-minted ids |
| `Tables` | tables.dfy | a keyed table as a sequence of rows in table order, with lookup, delete, update, upsert, re-key and filter |
| `Remote` | remote.dfy | the answers a remote call can give (the oracles) |
| `Http` | http.dfy | responses and the `success` / `created` / `notFound` / `serverError` helpers |
| `LocalStore` | local_store.dfy | the SQLite tables: the queue, the shipment cache with its `synced` flag, drivers and vehicles, and the statements run on them (`class LocalDatabase`) |
| `Sync` | sync_manager.dfy | `class SyncManager`: the replay pass, the unsynced-records pass, and the status |
| `LocalServer` | local_server.dfy | `class LocalServer`: the probe, the request façade, and its own replay loop |
| `Routing` | routing.dfy | path normalisation, `split`, body parsing, and route dispatch shared by both cloud functions |
| `Statistics` | statistics.dfy | the status counters |
| `Records` | records.dfy | create shaping (defaults) for shipments, drivers and vehicles, and the Supabase update object |
| `Backend` | backend.dfy | the table operations both cloud functions and the Supabase server share, each returning an `Outcome` (the table afterwards and the answer) |
| `CloudFunction` | cloud_function.dfy | the PostgreSQL handler (`class Database`) |
| `SupabaseFunction` | supabase_function.dfy | the Supabase handler (`class Project`) |
| `SupabaseServer` | supabase_server.dfy | the Express/Supabase server (`class Server`) |
| `ShipmentStore` | shipment_store.dfy | the frontend store (`class Store`) |
| `ServiceWorker` | service_worker.dfy | the service worker's cache policy (`class Worker`) |

## How I/O, time and errors are represented

- **Remote calls.** Every remote call (axios, `pg`, `supabase-js`) is a parameter of the method that makes it: an answer, or a failure with its message.
  - A loop that makes one call per element takes an oracle `nat -> Reply`. It is indexed by the position of the element in the loop.
  - The methods that send requests to the cloud function also return them (`seq<Call>`), so "no remote call" is a checked statement for them. These are `Sync.SyncManager.SyncAll`, its two passes and `ReplayOne`, and the local server's `GetShipments`, `CreateShipment`, `UpdateShipment`, `GetStatistics`, `SyncPendingOperations` and `ForceSync`.
  - The exceptions are the connectivity probes (`CheckCloudConnection`, `GetSyncStatus`, and the availability check inside `SyncAll`), whose GET is the `probe` parameter itself, and `Sync.SyncManager.SyncOne`, which runs after its record's POST has answered; the loop around it records that POST.
- **Thrown database and client errors.** These are a `fault` parameter and are answered with 500 and the message.
  - The Supabase handlers take an `Option<string>`: the error the client reports for the request's one query.
  - The PostgreSQL handler takes a `CloudFunction.Fault`, which says whether `client.connect()` fails or the statement does.
  - A body that `JSON.parse` rejects is `RawBody.Garbled`; the body `null` is `RawBody.NullText`.
  - The handlers fail in the order the source does. Rejected text fails before any database call. In the PostgreSQL create and update, a failed connect comes next, then the `null` body's TypeError, then a failed statement. In the Supabase create, the `null` body fails before the query.
- **Time.** Clock readings are parameters:
  - `now`, milliseconds, used for minted ids;
  - `nowIso`, its ISO text;
  - `now / 1000`, the `CURRENT_TIMESTAMP` of a queued operation in seconds.
- **Tables.** A table is a `seq` of keyed rows with unique keys (the primary key) as a class invariant `Valid()`.
  - `INSERT OR REPLACE` is delete then append.
  - `UPDATE ... SET id = ?` fails, changing nothing, when the new id is taken.
- **Payloads.** These are maps from field name to a JSON value. An absent field reads as `undefined`.

## Where the model follows the code rather than the description of the system

- **Probes and replay loops.** The two probes and the two replay loops differ, and both are modelled as written.
  - An HTTP error status is online for the local server and offline for `SyncManager` (`LocalServer.ProbesDiffer`).
  - The local loop takes the first ten operations with no retry filter, so a retry count can pass `MAX_RETRIES` (`LocalServer.LocalPassExceedsRetries`).
- **Queued creates are posted twice.** The local server queues creates under `id` and adds no `tempId` of its own (`server/local-server.js:153`). Unless the client's body carries a `tempId` naming the cached row, the re-key at `server/sync-manager.js:94` changes nothing for them. The cached row stays unsynced, and the same pass posts its data a second time (`LocalServer.QueuedCreatePostedTwice`).
- **PostgreSQL statistics are strings.** The statistics of the PostgreSQL function are the driver's `COUNT(*)` values, which are decimal strings. The Supabase handlers answer numbers.

## Model

| member | source | states |
|---|---|---|
| Json.Or | cloud-functions/index.js:150-154 | `a \|\| b` is `a` when `a` is truthy and `b` otherwise; the result is one of the two, and truthy exactly when either operand is |
| Json.Bind | cloud-functions/index.js:146-157 | a bound parameter is never `undefined`, is NULL exactly when the value is absent or null, keeps the value's truthiness, and is the value itself otherwise |
| Json.Coalesce | cloud-functions/index.js:183-189 | `COALESCE($n, col)` keeps the column exactly when the given value is absent or null |
| Json.NatToString | cloud-functions/index.js:138 | `String(n)` of a natural: at least one character, every one a decimal digit, and a single digit exactly when `n < 10` (injective by `Json.NatToStringInjective`) |
| Json.MintId | cloud-functions/index.js:138 | a minted id starts with its prefix and is longer than it |
| Json.MintIdInjective | cloud-functions/index.js:138 | two ids with the same prefix are equal exactly when their instants are |
| Json.NatToStringInjective | cloud-functions/index.js:138 | distinct instants render as distinct decimal texts |
| Routing.IndexOf | cloud-functions/index.js:32 | the index found holds the character and none before it does; `None` exactly when it is absent |
| Routing.Split | cloud-functions/index.js:57 | `split` gives at least one piece, no piece contains the separator, and text without it is one piece |
| Routing.SplitJoin | cloud-functions/index.js:57 | splitting and joining again gives the text back |
| Routing.StripQuery | cloud-functions/index.js:32 | the path is cut at the first `?`: a prefix with no `?`, unchanged exactly when there is none |
| Routing.StripQueryCut | cloud-functions/index.js:32 | a path without `?` followed by `?` and a query is cut back to exactly that path |
| Routing.FirstGiven | cloud-functions/index.js:28-29 | `a \|\| b \|\| fallback` over strings: the result is one of the three, empty only when all three are, and the fallback exactly when neither earlier value is given (or equals it) |
| Routing.MethodOf | cloud-functions/index.js:29 | the method is never empty, is one of the two event fields or `GET`, and is `GET` when the event names none |
| Routing.PathOf | cloud-functions/index.js:28-37 | a GET with a `queryStringParameters.path` routes on it; otherwise the routed path is `path \|\| url \|\| '/'` cut at `?` |
| Routing.QueryIgnored | cloud-functions/index.js:28-37 | short of the GET `path` override, a request on `p?q` (with no `?` in `p`) is routed exactly as one on `p` |
| Routing.ParseBody | cloud-functions/index.js:52 | a body whose fields the handler reads fails exactly on rejected text (with the parse error) and on `null` (with the TypeError of reading `origin`); an absent body reads as `{}`, on which every field is `undefined` |
| Routing.SpreadBody | cloud-functions/supabase-function.js:94-98 | a body spread into the update object fails only on rejected text; `null` and an absent body both spread as no field at all |
| Routing.BodyReadings | cloud-functions/supabase-function.js:53-58 | the two readings of a body agree on every body but `null`, which fails when read and spreads like an absent body |
| Routing.IsItemPath | cloud-functions/index.js:55 | an item path is none of the fixed routes `/health`, `/shipments` and `/statistics` |
| Routing.ItemId | cloud-functions/index.js:56 | `path.split('/')[2]` on an item path is the whole segment after `/shipments/`, non-empty and without `/` |
| Routing.ItemPathShape | cloud-functions/index.js:56-57 | `/shipments/<seg>` is an item path exactly when `seg` is non-empty and has no `/`, and its id is `seg` |
| Routing.ItemPathId | cloud-functions/index.js:56-57 | every item path is `/shipments/` followed by its non-empty, slash-free id |
| Routing.Dispatch | cloud-functions/index.js:43-76 | `/health` matches whatever the method; `NoRoute` exactly when no path and method pair matches; item routes carry the third `/` piece |
| Routing.DispatchItems | cloud-functions/index.js:56-70 | item routes are dispatched by method on a valid segment; any other segment is not found |
| Statistics.Count | cloud-functions/supabase-function.js:135-137 | a filtered count is at most the length |
| Statistics.CountAppend | cloud-functions/supabase-function.js:135-137 | counting is additive over concatenation |
| Statistics.Tally | cloud-functions/supabase-function.js:133-138 | `total` is the number of rows |
| Statistics.TallyBound | cloud-functions/index.js:257-264 | `active` (active or in transit), `completed` and `pending` are disjoint, so they sum to at most `total` |
| Statistics.TallyAppend | server/supabase-server.js:337-342 | counting in pieces and adding gives the same counters |
| Statistics.TallyUnclassified | server/supabase-server.js:337-342 | rows with none of the four statuses count only towards `total` |
| Statistics.TallyExample | cloud-functions/supabase-function.js:133-138 | pending, active, completed, in transit count as `{4, 2, 1, 1}` |
| Records.ShipmentRecord | cloud-functions/supabase-function.js:56-67 | the id; driver and vehicle `\|\| null`; status `\|\| 'pending'`; the other columns as given; `created_at` = `updated_at` = now |
| Records.DriverRecord | server/supabase-server.js:158-166 | the `DRV` row: status defaults to `active`; both timestamps now |
| Records.VehicleRecord | server/supabase-server.js:251-262 | the `VH` row: type defaults to `truck` and status to `available`; both timestamps now |
| Records.Updates | cloud-functions/supabase-function.js:95-101 | the update object is the body with `updated_at` set, minus `id` and `created_at`; its keys are exactly those |
| Records.Apply | cloud-functions/supabase-function.js:103-108 | the sent columns take the sent values; every other column keeps its value |
| Records.UpdateKeepsIdentity | server/supabase-server.js:94-100 | an update never changes `id` or `created_at` and always sets `updated_at` |
| Records.UpdateIdempotent | server/supabase-server.js:94-107 | sending the same update twice is sending it once |
| Records.CreateThenUpdate | server/supabase-server.js:60-107 | a created row, updated, keeps its id and creation time and gets the new `updated_at` |
| Backend.Insert | cloud-functions/index.js:141-163 | a new key makes 201 with the row, which a lookup then finds, and other keys are unchanged; a taken key makes 500 and leaves the table alone; unique keys are kept |
| Backend.Fetch | cloud-functions/index.js:113-122 | 404 with the message exactly when no row has the id; otherwise 200 with the row |
| Backend.Listing | cloud-functions/supabase-function.js:42-49 | 200 with an array holding every row, in table order |
| Backend.UpdateWith | cloud-functions/index.js:181-213 | an unknown id gives 404 and no change; otherwise the row becomes `f(row)`, which is answered, and no other row changes |
| Backend.InsertThenFetch | cloud-functions/index.js:107-163 | a row just inserted is what a fetch of its id answers |
| Backend.InsertThenDelete | cloud-functions/index.js:141-158 | deleting a row just inserted gives the old table back |
| Backend.UpdateThenFetch | cloud-functions/index.js:181-213 | after an update, a fetch answers exactly what the update answered |
| Backend.DeleteThenFetch | cloud-functions/supabase-function.js:115-124 | after a delete, a fetch of the id answers 404 |
| Backend.NewShipment | cloud-functions/supabase-function.js:52-77 | a create inserts the shaped record under `'SHIP-' + now` and answers 201 with it, or 500 when that id exists |
| Backend.Patch | cloud-functions/supabase-function.js:92-112 | an unknown id gives 404 and no change; otherwise the row with the update object applied is stored and answered |
| Backend.Discard | cloud-functions/supabase-function.js:115-123 | the row, if any, is removed, other rows are kept, and the answer is 200 whether or not a row was there |
| Backend.DiscardTwice | cloud-functions/supabase-function.js:115-123 | a second delete answers the same and changes nothing |
| Backend.CountedStatistics | server/supabase-server.js:329-345 | 200 with numeric counters: `total` is the row count, and the three classes sum to at most it |
| CloudFunction.CoalesceRow | cloud-functions/index.js:181-204 | each of the seven columns is the given value unless it is absent or null; `updated_at` is refreshed; nothing else changes |
| CloudFunction.CoalesceNothingGiven | cloud-functions/index.js:183-190 | an update that gives no column changes only `updated_at` |
| CloudFunction.CoalesceIdempotent | cloud-functions/index.js:181-204 | the same update twice leaves what one left |
| CloudFunction.UpdateOutcome | cloud-functions/index.js:173-218 | an unknown id gives 404 and no change; otherwise the COALESCE row is stored and answered with 200 |
| CloudFunction.DeleteOutcome | cloud-functions/index.js:223-246 | an unknown id gives 404 and no change; otherwise only that row is removed and the answer carries the id |
| CloudFunction.StatisticsAnswer | cloud-functions/index.js:251-271 | 200 with `total` the row count as text |
| CloudFunction.CreateThenDelete | cloud-functions/index.js:132-246 | create then delete gives the old table back and answers with the id |
| CloudFunction.DeleteTwice | cloud-functions/index.js:229-236 | a second delete of the id answers 404 and changes nothing |
| CloudFunction.CreateThenUpdate | cloud-functions/index.js:132-213 | updating a shipment just created keeps its id and creation time and stamps the new `updated_at` |
| CloudFunction.Database.CreateShipment | cloud-functions/index.js:132-168 | a database fault (at connect or in the statement) answers 500 with its message and no change; otherwise the table and answer are those of the create |
| CloudFunction.Database.UpdateShipment | cloud-functions/index.js:173-218 | a fault answers 500 with no change; otherwise the COALESCE update |
| CloudFunction.Database.DeleteShipment | cloud-functions/index.js:223-246 | a fault answers 500 with no change; otherwise the delete |
| CloudFunction.Database.Handle | cloud-functions/index.js:24-218 | per route: health, list, get, create, update, delete, statistics, 404 'Route not found'; only writing routes change the table. Every failure answers 500 with its message, in the source's order: rejected body text first, then a failed connect, then the TypeError of a `null` body, then a failed statement |
| SupabaseFunction.UpdateOutcome | cloud-functions/supabase-function.js:92-113 | 404 and no change for an unknown id; otherwise 200 with the stored row, whose id and `created_at` are the old ones and `updated_at` is new |
| SupabaseFunction.DeleteOutcome | cloud-functions/supabase-function.js:115-124 | the answer is always `{ message: 'Shipment deleted', id }`; only that row is gone |
| SupabaseFunction.StatisticsExample | cloud-functions/supabase-function.js:126-141 | four rows with statuses pending, active, completed and in transit answer `{4, 2, 1, 1}` |
| SupabaseFunction.DeleteUnknown | cloud-functions/supabase-function.js:115-124 | deleting an unknown id answers 200 and changes nothing |
| SupabaseFunction.Project.Commit | cloud-functions/supabase-function.js:69-75 | a client error answers 500 and leaves the table; otherwise the outcome is stored |
| SupabaseFunction.Project.Handle | cloud-functions/supabase-function.js:8-149 | OPTIONS answers the preflight before anything else; then the same routes as the PostgreSQL function built on the Supabase outcomes; errors answer 500, unmatched routes 404; a `null` body answers 500 in a create and spreads as `{}` in an update |
| SupabaseServer.Shape | server/supabase-server.js:62-74 | every created row holds its id and both timestamps and a truthy status |
| SupabaseServer.DeletedAnswer | server/supabase-server.js:133 | only the shipment delete repeats the id; every delete answers a message |
| SupabaseServer.CreateOutcome | server/supabase-server.js:60-89 | a create inserts the shaped row under the resource's prefix plus now, 201; 500 when that id is taken |
| SupabaseServer.ShipmentCreateShared | server/supabase-server.js:60-89 | the server's shipment create is the cloud function's |
| SupabaseServer.PrefixesDistinct | server/supabase-server.js:62 | ids minted for different resources never collide |
| SupabaseServer.HealthAnswer | server/supabase-server.js:27-42 | always 200 `ok`; `database` is `connected`, `disconnected` or `error` exactly when the query answered, reported an error or threw |
| SupabaseServer.SyncStatusAnswer | server/supabase-server.js:351-369 | `cloudOnline` exactly when the query answered; pending and unsynced are always 0 |
| SupabaseServer.Server.Commit | server/supabase-server.js:76-87 | a client error answers 500; otherwise the resource's table becomes the outcome's; the other tables never change |
| SupabaseServer.Server.List | server/supabase-server.js:44-58 | 500 on error, otherwise every row of the resource |
| SupabaseServer.Server.Create | server/supabase-server.js:60-89 | the create of the resource's table; other tables unchanged |
| SupabaseServer.Server.Update | server/supabase-server.js:91-120 | the update object applied, or 404 with the resource's message; other tables unchanged |
| SupabaseServer.Server.Delete | server/supabase-server.js:122-138 | the row removed, success either way; other tables unchanged |
| SupabaseServer.Server.StatisticsOf | server/supabase-server.js:329-349 | 500 on error, otherwise the counted statistics |
| SupabaseServer.Server.ForceSync | server/supabase-server.js:371-376 | always `{ status: 'success', message: 'Using Supabase - always in sync' }` |
| ShipmentStore.Filter | src/stores/shipments.js:11-17 | the filtered list is never longer than the list |
| ShipmentStore.FilterCounts | src/stores/shipments.js:11-17 | the filtered list holds exactly the elements satisfying the test, each as often as in the list |
| ShipmentStore.FilterAppend | src/stores/shipments.js:11-17 | filtering commutes with concatenation, so it keeps the list's order |
| ShipmentStore.FiltersDisjoint | src/stores/shipments.js:11-17 | no shipment is both active and completed |
| ShipmentStore.IndexWhere | src/stores/shipments.js:58 | `findIndex`: the first element with the id; `None` exactly when there is none |
| ShipmentStore.ReplaceFirst | src/stores/shipments.js:58-61 | only the first match is replaced; no match leaves the list; the length never changes |
| ShipmentStore.RemoveFirst | src/stores/shipments.js:79-82 | only the first match is removed and the later elements shift down; no match leaves the list |
| ShipmentStore.ReplaceKeepsPosition | src/stores/shipments.js:56-61 | a replacement that keeps the id leaves the match where it was |
| ShipmentStore.CreateThenDelete | src/stores/shipments.js:40-82 | deleting the shipment just prepended gives the old list back |
| ShipmentStore.CreateFilters | src/stores/shipments.js:11-17 | a prepended shipment heads the filtered lists it belongs to |
| ShipmentStore.Store.constructor | src/stores/shipments.js:6-9 | empty list, not loading, no error, online |
| ShipmentStore.Store.ActiveShipments | src/stores/shipments.js:11-13 | exactly the shipments with status active or in transit |
| ShipmentStore.Store.CompletedShipments | src/stores/shipments.js:15-17 | exactly the completed shipments |
| ShipmentStore.Store.FetchShipments | src/stores/shipments.js:19-33 | success replaces the list and clears offline; failure keeps the list and records the message; never left loading |
| ShipmentStore.Store.CreateShipment | src/stores/shipments.js:35-49 | success prepends the answer and returns it; failure keeps the list, records and returns the error |
| ShipmentStore.Store.UpdateShipment | src/stores/shipments.js:51-70 | success replaces the first match; failure keeps the list; the length never changes |
| ShipmentStore.Store.DeleteShipment | src/stores/shipments.js:72-89 | success removes the first match; failure keeps the list and rethrows the error |
| ServiceWorker.MatchAll | public/sw.js:24 | a hit is the entry of the first cache, in creation order, holding the URL; a miss exactly when no cache holds it |
| ServiceWorker.Open | public/sw.js:13 | the current cache exists afterwards, empty when it was created; other caches are unchanged |
| ServiceWorker.AddAll | public/sw.js:16 | a success saw the last URL answer ok |
| ServiceWorker.AddAllSucceeds | public/sw.js:16 | `addAll` succeeds exactly when every URL's fetch answered ok |
| ServiceWorker.AddAllStores | public/sw.js:16 | a successful `addAll` holds every URL with the network's response; other entries of the cache are unchanged |
| ServiceWorker.Store | public/sw.js:41-44 | the current cache, opened first, gets the response under the URL; the other caches are unchanged |
| ServiceWorker.StoreThenHit | public/sw.js:24-44 | a response stored after a miss is a hit for the next request |
| ServiceWorker.Evicted | public/sw.js:59-70 | at most the current cache survives, unchanged |
| ServiceWorker.SyncRequests | public/sw.js:75-89 | only the `sync-shipments` tag sends `POST /api/sync/force` |
| ServiceWorker.Worker.Install | public/sw.js:11-19 | the current cache is opened; install succeeds exactly when every shell URL answered ok, and then holds each with its response; other caches unchanged |
| ServiceWorker.Worker.Fetch | public/sw.js:22-55 | a hit answers without the network; a miss answers the network's response and stores it only when it is 200 and `basic`; a failed fetch answers the cached `/index.html` |
| ServiceWorker.Worker.Activate | public/sw.js:58-72 | exactly the caches not named `cargotracker-v1` are deleted |
| LocalStore.KindOf | server/sync-manager.js:87-122 | only the three exact names are known kinds; the name reads back |
| LocalStore.KindRoundTrip | server/sync-manager.js:87-122 | writing a kind and reading it back gives the kind |
| Tables.Delete | server/sync-manager.js:120 | `DELETE … WHERE id = k`: `k` is then absent, every other key holds what it held, the table does not grow, and keys stay unique |
| Tables.Modify | server/sync-manager.js:109-112 | `UPDATE … WHERE id = k`: the row under `k` (if any) is the function of its old value, every other key holds what it held, the keys keep their order, and keys stay unique |
| Tables.Relabel | server/sync-manager.js:161-166 | `UPDATE … SET id = to, data = row WHERE id = from` on a free new key: `to` then holds the row, `from` is gone, no other key changes, nothing changes when `from` is absent, and keys stay unique |
| Tables.Where | server/sync-manager.js:141-143 | `SELECT … WHERE p`: exactly the rows that satisfy `p`, no more rows than the table, none when no row does, and unique keys stay unique |
| Tables.Upsert | server/local-server.js:99 | `INSERT OR REPLACE`: afterwards the key holds the new row, every other key holds what it held, and keys stay unique |
| Tables.Rekey | server/sync-manager.js:95-98 | `UPDATE … SET id`: fails exactly when it would give a second row the new key; otherwise the new key holds the row, the old key is gone, no other key changes, and keys stay unique |
| LocalStore.BumpRetry | server/sync-manager.js:132-135 | only that operation changes, and only its retry count, by one |
| LocalStore.InsertByCreation | server/sync-manager.js:71 | an insertion keeps every entry and adds one |
| LocalStore.InsertSorted | server/sync-manager.js:71 | inserting into a queue sorted by creation keeps it sorted |
| LocalStore.SortByCreation | server/sync-manager.js:71 | `ORDER BY created_at` is a permutation |
| LocalStore.SortSorted | server/sync-manager.js:71 | and its result is sorted by creation time |
| LocalStore.PermutationUnique | server/sync-manager.js:70-73 | a permutation of a table with unique keys has unique keys |
| LocalStore.ReplayCandidates | server/sync-manager.js:70-73 | exactly the operations below the retry limit, oldest first |
| LocalStore.Settle | server/sync-manager.js:125-135 | one step deletes the operation, or bumps its retry count when it failed, and touches no other |
| LocalStore.SettleAll | server/sync-manager.js:82-137 | settling candidates one by one keeps the queue's keys unique; `SettleEffect` states it per operation |
| LocalStore.SettleEffect | server/sync-manager.js:82-137 | after the loop: operations outside the candidates are unchanged; each candidate is gone or bumped once |
| LocalStore.LocalDatabase.constructor | database/setup.js:12-49 | the four tables start empty and the first queued id is 1 |
| LocalStore.LocalDatabase.InsertOp | database/setup.js:24-30 | the row is appended under the next id with retry count 0 (the column default); nothing else changes |
| LocalStore.LocalDatabase.DeleteOp | server/sync-manager.js:125 | the queue loses exactly that operation |
| LocalStore.LocalDatabase.BumpRetryCount | server/sync-manager.js:132-135 | the queue becomes `BumpRetry` of that id |
| LocalStore.LocalDatabase.UpsertShipment | server/local-server.js:98-101 | `INSERT OR REPLACE` of the cached row; the queue untouched |
| LocalStore.LocalDatabase.UpdateShipment | server/sync-manager.js:109-112 | an `UPDATE` of an existing row only; no row created |
| LocalStore.LocalDatabase.RekeyShipment | server/sync-manager.js:95-98 | the row moves to the new id, or nothing changes when the statement fails on the key |
| LocalStore.LocalDatabase.DeleteShipment | server/sync-manager.js:120 | the cache loses exactly that row |
| LocalStore.LocalDatabase.UpdateEntity | server/local-server.js:350-353 | an `UPDATE` of the driver or vehicle row; the other tables unchanged |
| LocalStore.LocalDatabase.DeleteEntity | server/local-server.js:364 | the driver or vehicle table loses exactly that row |
| Sync.OpCall | server/sync-manager.js:87-122 | one request per known kind, none for an unknown one: a create posts its data, an update puts it to `/shipments/<data.id>`, a delete sends `DELETE /shipments/<data.id>` |
| Sync.TempKey | server/sync-manager.js:94-98 | only a create whose `tempId` is a non-empty string names a temporary row, and every such create does |
| Sync.DataKey | server/sync-manager.js:109-120 | an update or delete names a cached row exactly when its `data.id` is a string, and then that string |
| Sync.ReplayFails | server/sync-manager.js:82-136 | a replay can end in the catch block only if it sent a request; `ReplayFailsCases` gives the cases |
| Sync.CacheAfter | server/sync-manager.js:94-120 | create with `tempId`: re-keyed to the answer's id and synced; update: the answer stored, synced; delete: removed; other rows unchanged |
| Sync.CacheStep | server/sync-manager.js:128-135 | a failed replay leaves the cache as it was |
| Sync.FailVectorAt | server/sync-manager.js:82-137 | each step's failure is judged on the cache the earlier steps left |
| Sync.CacheRun | server/sync-manager.js:82-137 | the cache after the first `n` replays keeps unique keys (each step is `Sync.CacheStep`) |
| Sync.FailVector | server/sync-manager.js:124-136 | one outcome per replayed candidate; its entries are given by `Sync.FailVectorAt` |
| Sync.PassCalls | server/sync-manager.js:56-57 | a whole pass sends at most one request per operation below the retry limit, plus at most twenty for unsynced records |
| Sync.ReplayCalls | server/sync-manager.js:82-122 | at most one request per candidate |
| Sync.PendingPass | server/sync-manager.js:69-138 | a replay pass keeps both tables' keys unique |
| Sync.FullPass | server/sync-manager.js:49-57 | a whole pass keeps both primary keys unique, and leaves the queue as the replay pass left it |
| Sync.CloudAvailable | server/sync-manager.js:30-37 | `checkCloudAvailability` is false on every HTTP error status and when nothing answers |
| Sync.PendingPassSettles | server/sync-manager.js:69-138 | no operation is added; one at the limit is neither sent nor changed; each candidate is deleted on success and bumped by one on failure |
| Sync.ReplayFailsCases | server/sync-manager.js:87-135 | unknown types never fail; failed requests always do; successful updates and deletes never do |
| Sync.ReplayOutcomes | server/sync-manager.js:87-135 | an unknown type is dropped with no request; a failed request is bumped; a successful update or delete is dropped |
| Sync.RetryBound | server/sync-manager.js:70-73 | retry counts that start within `MAX_RETRIES` stay within it |
| Sync.UnsyncedBatch | server/sync-manager.js:141-143 | at most twenty unsynced rows, all of them when there are few enough, none when all are synced |
| Sync.SyncRecords | server/sync-manager.js:152-172 | the record loop keeps the cache's primary key unique; `SyncRecordsEffect` states what it does per row |
| Sync.UnsyncedPass | server/sync-manager.js:140-173 | the unsynced-records pass keeps the primary key unique, and changes nothing when every row is synced; `UnsyncedPassEffect` states it per row |
| Sync.SyncRecord | server/sync-manager.js:152-171 | success re-keys the row to the answer's id, synced; failure leaves it; other rows unchanged |
| Sync.RecordCalls | server/sync-manager.js:156-160 | one POST per record of the batch, with its data |
| Sync.SyncRecordsEffect | server/sync-manager.js:152-172 | rows outside the batch, and records whose POST failed, keep their rows |
| Sync.SyncRecordsKeep | server/sync-manager.js:152-172 | a cached id that no record of a stretch of the batch carries keeps its row across that stretch |
| Sync.SyncRecordsFailed | server/sync-manager.js:152-172 | a record whose POST failed keeps its row, whatever the later records do |
| Sync.UnsyncedPassEffect | server/sync-manager.js:140-173 | synced rows, rows beyond the batch and records whose POST failed are unchanged |
| Sync.QuietPass | server/sync-manager.js:75-78 | with nothing below the limit and nothing unsynced, a pass sends nothing and changes nothing |
| Sync.UnsyncedCount | server/sync-manager.js:177 | zero exactly when every row is synced |
| Sync.SyncManager.constructor | server/sync-manager.js:8-9 | not syncing, never synced |
| Sync.SyncManager.SyncAll | server/sync-manager.js:39-67 | single flight; `isSyncing` restored; offline or a fault changes nothing and sends nothing; otherwise both passes run and `lastSyncTime` is set |
| Sync.SyncManager.SyncPendingOperations | server/sync-manager.js:69-138 | the tables become those of the replay pass; the requests are the candidates' |
| Sync.SyncManager.ReplayOne | server/sync-manager.js:83-136 | one operation: its request, its cache effect, and its deletion or retry bump |
| Sync.SyncManager.SyncOne | server/sync-manager.js:153-171 | one record: the cache becomes that of `SyncRecord`; the queue and the other tables unchanged |
| Sync.SyncManager.SyncUnsyncedRecords | server/sync-manager.js:140-173 | the cache becomes that of the unsynced pass; one POST per record; the queue unchanged |
| Sync.SyncManager.GetSyncStatus | server/sync-manager.js:175-187 | online per the probe; every queued operation and every unsynced row counted |
| LocalServer.ProbesDiffer | server/local-server.js:59-66 | the two probes disagree exactly on HTTP error answers |
| LocalServer.ProbeOnline | server/local-server.js:53-70 | `checkCloudConnection` counts every HTTP error status as online |
| LocalServer.CacheAllEffect | server/local-server.js:97-102 | every fetched shipment is cached as synced (the last one for a repeated id); other rows unchanged |
| LocalServer.CacheAll | server/local-server.js:97-102 | caching the fetched list keeps the cache's primary key unique |
| LocalServer.QueuedShipment | server/local-server.js:153 | `{ id, ...body, createdAt }`: a body field `id` wins over the minted one |
| LocalServer.QueuedCreateAnswer | server/local-server.js:157-171 | the queued answer (status 200) of a create carries the id the shipment was queued under: the body's own `id` if it has one, else the minted one |
| LocalServer.LoneCreateReplayed | server/sync-manager.js:88-100 | a queued create whose `tempId` (if any) names no cached row is posted, dropped from the queue, and the cache is untouched |
| LocalServer.QueuedCreatePostedTwice | server/local-server.js:152-164 | a create queued by the server, whose body's `tempId` is not the minted id, is posted twice by one sync pass |
| LocalServer.LocalBatch | server/local-server.js:426 | the first ten operations in table order |
| LocalServer.LocalCall | server/local-server.js:436-443 | a create posts its data, an update puts it to `/shipments/<data.id>`; deletes and unknown types send nothing |
| LocalServer.LocalCalls | server/local-server.js:432-443 | the first `n` operations send at most `n` requests |
| LocalServer.LocalFailVector | server/local-server.js:432-458 | an operation fails exactly when its request failed |
| LocalServer.LocalPassEffect | server/local-server.js:419-462 | exactly the first ten operations are settled, whatever their retry count; the rest and the cache unchanged |
| LocalServer.LocalPass | server/local-server.js:419-462 | the local replay loop keeps the queue's keys unique |
| LocalServer.LocalPassExceedsRetries | server/local-server.js:426-456 | an operation at `MAX_RETRIES` whose request fails again goes past the limit |
| LocalServer.LocalServer.constructor | server/local-server.js:51 | the server starts out online |
| LocalServer.LocalServer.CheckCloudConnection | server/local-server.js:53-70 | online unless there was no answer at all; `lastCheck` refreshed every time |
| LocalServer.LocalServer.GetHealth | server/local-server.js:80-86 | `ok`, the cloud status and the time |
| LocalServer.LocalServer.GetShipments | server/local-server.js:89-124 | GET `/shipments` is sent exactly when online; online success caches every shipment as synced and answers them; offline or on failure the cache is answered, unchanged |
| LocalServer.LocalServer.CreateShipment | server/local-server.js:127-171 | online with a real URL: the cloud is asked and its answer cached as synced and nothing queued; otherwise one create is queued and the row cached unsynced under `SHIP-` + now |
| LocalServer.LocalServer.UpdateShipment | server/local-server.js:200-231 | online: the answer cached, or 500 with nothing queued; offline: one update queued and the cache untouched |
| LocalServer.LocalServer.GetStatistics | server/local-server.js:234-253 | GET `/statistics` is sent exactly when online; online: the cloud's answer or 500; offline: exactly `total` (the cached row count), `offline` and `message` |
| LocalServer.LocalServer.GetSyncStatus | server/local-server.js:256-270 | every queued operation counted, stuck ones included; unsynced rows counted |
| LocalServer.LocalServer.SyncPendingOperations | server/local-server.js:419-462 | nothing while offline; otherwise the local pass; the cache is never touched |
| LocalServer.LocalServer.ForceSync | server/local-server.js:273-280 | the local pass, then success |
| LocalServer.LocalServer.GetEntities | server/local-server.js:333-341 | every driver or vehicle row's data |
| LocalServer.LocalServer.PutEntity | server/local-server.js:343-360 | an `UPDATE` of that row only, answered with `{ id, ...row }`; the other tables unchanged |
| LocalServer.LocalServer.DeleteEntity | server/local-server.js:362-370 | only that row is removed; the other tables unchanged |
| LocalServer.EntityUpdateIsUpdate | server/local-server.js:386-403 | an unknown id creates no row; a known id gets exactly the new row |

## Definitions

These members only build a value. Their `ensures` spell that value out for callers and promise nothing more, so they are not in the table above.

- `Http.ErrorBody` (cloud-functions/index.js:318): `{ error: message }`.
- `Http.MessageBody` (server/supabase-server.js:226): `{ message }`.
- `Http.Success` (cloud-functions/index.js:289-298): status 200 with the body.
- `Http.Created` (cloud-functions/index.js:300-309): status 201 with the body.
- `Http.NotFound` (cloud-functions/index.js:311-320): status 404 with `{ error: message }`.
- `Http.ServerError` (cloud-functions/index.js:322-331): status 500 with `{ error: message }`.
- `Statistics.StatusesOf` (cloud-functions/supabase-function.js:127-129): each row's `status`, in table order.
- `Statistics.NumericBody` (cloud-functions/supabase-function.js:133-140): the four counters as numbers.
- `Backend.HealthBody` (cloud-functions/index.js:43-45): `{ status: 'ok', timestamp }`.
- `Backend.DeletedBody` (cloud-functions/index.js:241): `{ message: 'Shipment deleted', id }`.
- `CloudFunction.TextBody` (cloud-functions/index.js:257-266): the four counters as decimal strings.
- `SupabaseFunction.Preflight` (cloud-functions/supabase-function.js:29-35): status 200 with the empty string.
- `LocalServer.RowData` (server/local-server.js:107-109, server/local-server.js:333-341): the parsed `data` of every row of a table, in table order.
- `LocalServer.Bodies` (server/local-server.js:104): the bodies of the fetched records, in order.
- `LocalServer.QueuedAnswer` (server/local-server.js:166-171): `{ ...data, status: 'queued', message, offline: true }`.
- `Json.Truthy` (cloud-functions/index.js:152-155): JavaScript truthiness of a value.
- `Json.SqlText` (server/sync-manager.js:110-111): a bound key parameter; only a string can match a TEXT key.
- `Tables.Lookup` (cloud-functions/index.js:113-116): the row stored under a key, if any (`Tables.LookupFound` shows it is an entry of the table).
- `Tables.CountWhere` (server/sync-manager.js:177): the number of rows `Tables.Where` selects.
- `LocalServer.LocalFails` (server/local-server.js:436-456): a local replay fails exactly when the create or update request it sends fails.
- `LocalServer.EntityRow` (server/local-server.js:345-348): the request body with `updated_at` set.

## Left out

- HTTP plumbing is not modelled. This covers express, helmet, cors, body parsers, response headers (including the CORS headers of the Supabase function), `app.listen` and logging. None of it decides anything. A body that express fails to parse is not modelled either.
- JSON serialisation of table columns (`JSON.stringify` / `JSON.parse` of `data`) is not modelled. Payloads are kept parsed, so a `JSON.parse` of stored data that throws inside a replay loop is not modelled.
- `ORDER BY` in listings is not modelled: `created_at DESC` in the cloud listings and `updated_at DESC` in the local cache and entity listings. `LIMIT 100` in the PostgreSQL listing is not modelled either. Listings answer in table order, because the model keeps no row timestamps beyond the queue's `created_at`.
- Ordering of the queue's `ORDER BY created_at ASC` is modelled by a stable sort. Rows created in the same second keep table order, which is an assumption about SQLite.
- Number values are integers. Floating point and `NaN` truthiness do not arise.
- Only text ids are modelled. An `id` in queued data that is not a string matches no cached row (`Json.SqlText`). SQLite's type affinity for numeric ids is not modelled.
- Supabase `.single()` with zero rows reports an error in the client library. The model follows the handlers' own `if (!data)` reading, in which a missing row is answered 404 (`Backend.Fetch`, `Backend.Patch`).
- Backend.Insert: a key collision is answered with the fixed text "duplicate key value violates unique constraint". The driver's own message also names the violated constraint (such as `"shipments_pkey"`), which the model leaves out.
- A request body that parses to JSON other than an object or `null` (a number, a string, an array, a boolean) is not modelled. `RawBody` holds objects, `null`, an absent body and rejected text. The TypeError text for a `null` body follows V8's wording.
- A Supabase update whose body names a column the table lacks is answered by the database with an error. The model applies every key. Column checking belongs to the database schema, which is not part of this model.
- Each `new Date()` call of a handler reads the clock afresh. The model passes one instant per request, so `created_at` equals `updated_at` on a create.
- The local server's create catch block (server/local-server.js:172-196) is not modelled. There, a failing local `INSERT` queues again and answers 202. Local SQLite statements are modelled as never failing, except the primary-key clash of a re-key. The same goes for the 500 answers of the local handlers' outer catch blocks.
- A thrown error during the queue read of `SyncManager.syncAll` is modelled as one `storeFault`, checked before any change. A statement that fails midway through a pass is not modelled.
- Timers and scheduling are not modelled: `setInterval`, `cron.schedule`, the initial probe, and the 30-second probe loop. Each becomes an explicit method call. Async interleaving of two passes is not modelled; single flight is the sequential `isSyncing` check.
- A cache of the service worker is a map from URL to response. Requests are matched by URL alone: the method, headers and `Vary` are not modelled, and neither is the order of `cache.keys()` inside one cache.
- The service worker's `cache.put` is not awaited in the source. The model stores the response before answering, and does not model response cloning.
- The service worker's `syncShipments` swallows a failed request. The model returns the request to send (`ServiceWorker.SyncRequests`) and does not model the answer.
- Object Storage upload (server/local-server.js:286-327) and `sendEventToQueue` (cloud-functions/index.js:276-284) are not part of this model. They are a foreign SDK wrapper and a no-op.
- The router, the bootstrap and the API client's interceptors are not part of this model (src/router.js, src/main.js, src/api/client.js). They hold no decision logic.
- The database schema is used only for the column defaults, `synced` 0 and `retry_count` 0. The `routes` table and the indexes are not modelled.
- The Supabase health query's `count: 'exact', head: true` options are not modelled. Only whether the query answered, reported an error or threw matters (`SupabaseServer.Check`).
- CloudFunction.StatisticsAnswer: states only `total` as text. The other three counters are whatever `TextBody` renders from `Statistics.Tally`, whose own lemmas (`TallyBound`, `TallyExample`) carry the class properties.
- Sync.SyncManager.GetSyncStatus: the probe is a parameter, and database read failures of the status query are not modelled.
