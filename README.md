# maeven-backend purchasing core in Dafny

This project models the purchase-order receiving engine of the maeven
backend and proves properties about it. It also models the small pure
components around that engine.

- **Receiving.** An order moved into `received` replays its line items. Each
  item appends one movement to the append-only `inventory_movements` ledger
  and upserts the `inventories` row for its (branch, variant). A line item can
  be added directly only to a received order, and it then has the same effect.
  The estimates of a received order cannot be created, edited or removed
  through the service. An edit of another order's estimate can still move it
  into a received order, since the update checks only the current owner.
- **Around it.**
  - per-order item totals (`listWithItemTotals`)
  - the field validator `validate` and its rule tables
  - the SQL builders in `_helpers.js`
  - CORS origin matching
  - `Authorization` header parsing: the Bearer scheme, compared case-insensitively as section 11.1 of RFC 9110 asks, followed by exactly one space and the token (stricter than the `1*SP` of section 2.1 of RFC 6750)
  - the login decision chain
  - the database configuration and connect-retry loop

## Modules

- `Values` (values.dfy): JavaScript values, `Truthy`, payload records and the host-parsing oracle.
- `Strings` (strings.dfy): `split`/`join`, `trim`, ASCII case folding, decimal placeholders.
- `Sorting` (sorting.dfy): the `ORDER BY id DESC`, `LIMIT` and `OFFSET` of a listing.
- `Schemas` (schemas.dfy): `validate`, the 18 rule tables and the UUID syntax.
- `Helpers` (helpers.dfy): `insert`, `update`, `getAll`, `getById` and `deleteById`. The table's column list is a parameter.
- `Inventory` (inventory.dfy): the ledger and stock, one item's receiving step (`Receive`) and the loop (`ReceiveAll`). Also the reference sums the loop is proved against.
- `Rows` (rows.dfy): the stored rows of the purchase-order tables and the column defaults, NOT NULL and CHECK constraints a write meets.
- `Purchasing` (purchasing.dfy): class `PurchasingStore`, which holds orders, items, estimates, stock and movements. Its methods are the three services.
- `OrderTotals` (order_totals.dfy): `listWithItemTotals`.
- `Cors` (cors.dfy): the allowed-origin list and `isOriginAllowed`.
- `Auth` (auth.dfy): class `Request` with `authMiddleware` and `requireAuth`.
- `Login` (login.dfy): the `/login` handler.
- `Database` (database.dfy): the connection and SSL decision, class `PoolConfig`, and `connectWithRetry`.

## Oracles and modelling choices

- **Database failures.**
  - For the item at position i of a reconciliation, a `fault` oracle says whether the movement insert failed (nothing is written) or the stock step after it failed (the movement stays).
  - A `Db` value says whether the database accepts a write beyond the constraints the model checks itself.
- **Host functions.** `jwt.verify`, the user lookups, `bcrypt.compare`, `Number(text)`, `Date.parse`, and PostgreSQL's text-to-number cast are function parameters.
- **Connection attempts.** The outcome of each attempt is an input (`succeeds`). The waits are returned as a trace.
- **Numbers.** Costs are integers in cents. JavaScript numbers are integers plus NaN.
- **Item listing order.** `purchase_order_items` has no `created_at` column, so the reconciliation's listing is ordered by id descending.

## Model

| member | source | states |
|---|---|---|
| Purchasing.NewStatus | src/services/purchaseOrderService.js:23-24 | the new status is `data.status` when the payload has a truthy one, otherwise the previous status |
| Purchasing.Triggers | src/services/purchaseOrderService.js:27 | the guard itself; its meaning over the payload is stated by `TriggerCondition` |
| Purchasing.TriggerCondition | src/services/purchaseOrderService.js:27 | reconciliation runs iff the previous status is not 'received' and the payload's status is 'received'; an order already received never reconciles |
| Purchasing.MissingStatusKeepsPrevious | src/services/purchaseOrderService.js:24 | an undefined, null, empty or false status keeps the previous status and does not trigger |
| Purchasing.FindOrder | src/models/_helpers.js:70-73 | the lookup by id finds a row iff the id is a string key of the orders, and then returns that row |
| Purchasing.Owner | src/services/purchaseOrderEstimateService.js:24 | the owning order is found iff the estimate references an existing order |
| Purchasing.ItemsOf | src/services/purchaseOrderService.js:29 | the WHERE keeps exactly the items of that order |
| Purchasing.OrderItems | src/services/purchaseOrderService.js:29 | the listing holds at most 1000 items of the order, sorted by id descending; with at most 1000 it holds all of them (as a multiset) |
| Purchasing.OrderItemsKeepLargest | src/services/purchaseOrderService.js:29 | `ORDER BY id DESC LIMIT 1000` keeps the largest ids: no item of the order left out has an id above one kept |
| Purchasing.ReconcileReadsAtMostLimit | src/services/purchaseOrderService.js:29 | exactly min(count, 1000) items are read |
| Purchasing.EditOrder | src/services/purchaseOrderService.js:56 | the edit succeeds only when the update plan is valid and the database accepts; an invalid plan fails with the plan's message; a valid status stays valid |
| Purchasing.InsertOrder | src/services/purchaseOrderService.js:6-8 | no payload gives 'No data provided'; a created order passed the insert plan, has a CHECKed status and a fresh id |
| Purchasing.InsertItem | src/services/purchaseOrderItemService.js:13 | a created item passed the insert plan, has the new id, a fresh primary key and an existing order; a string purchase_order_id in the payload is its order |
| Purchasing.InsertEstimate | src/services/purchaseOrderEstimateService.js:10 | a created estimate meets both CHECKs and references an existing order |
| Purchasing.EditEstimate | src/services/purchaseOrderEstimateService.js:27 | an edited estimate meets both CHECKs and references an existing order |
| Purchasing.IndexOfItem | src/models/_helpers.js:48-68 | the position found holds the item with that id; none is found iff no item has it |
| Purchasing.EditItem | src/services/purchaseOrderItemService.js:50-52 | the edit succeeds only with a valid plan and an accepting database; it returns no row iff no item has that id |
| Purchasing.ItemGate | src/services/purchaseOrderItemService.js:7-11 | item creation passes the gate iff purchase_order_id is truthy, the order exists and its status is exactly 'received' |
| Purchasing.EstimateCreateGate | src/services/purchaseOrderEstimateService.js:5-9 | estimate creation passes iff purchase_order_id is truthy, the order exists and it is not received |
| Purchasing.EstimateUpdateGate | src/services/purchaseOrderEstimateService.js:24-26 | estimate update passes iff the owning order exists and is not received |
| Purchasing.EstimateRemoveGate | src/services/purchaseOrderEstimateService.js:33-34 | estimate removal passes iff the owner is missing or not received |
| Purchasing.EstimateGuardsOnlyBlockReceived | src/services/purchaseOrderEstimateService.js:5-9 | a missing id comes first, then a missing order; any existing order whose status is draft, estimated, ordered or cancelled passes, whatever the rest of it holds; for an existing owner, update and remove are blocked iff it is received |
| Purchasing.MoveIntoReceived | src/services/purchaseOrderEstimateService.js:21-28 | an estimate of an order that is not received passes the update gate, and an edit of its purchase_order_id moves it into a received order |
| Purchasing.MissingOwnerRemoveVersusUpdate | src/services/purchaseOrderEstimateService.js:24-25 | with a missing owner, update refuses with 'purchase order not found' while remove goes ahead |
| Purchasing.ItemGateMessages | src/services/purchaseOrderItemService.js:7-11 | each failing check gives its own message, in the service's order |
| Purchasing.PurchasingStore.constructor | src/db/initSchema.js:193-223 | an empty database satisfies the table constraints |
| Purchasing.PurchasingStore.ReceiveItem | src/services/purchaseOrderService.js:32-52 | one item's step changes the ledger and stock exactly as `Receive` and no other table |
| Purchasing.PurchasingStore.ReceiveEach | src/services/purchaseOrderService.js:31-53 | the loop changes the ledger and stock exactly as `ReceiveAll` over the items in order, each with its own fault |
| Purchasing.PurchasingStore.UpdateOrder | src/services/purchaseOrderService.js:18-57 | an unknown order gives null and changes nothing; on a trigger, all listed items are received; otherwise the books are unchanged; the result is the header edit, applied only on success; the books change even when the edit fails |
| Purchasing.PurchasingStore.CreateItem | src/services/purchaseOrderItemService.js:6-39 | a failed gate or insert writes nothing; on success the item belongs to the payload's purchase order and is appended and the books change as `Receive` for the order's branch and id; a failed ledger or stock step still returns the item |
| Purchasing.PurchasingStore.UpdateItem | src/services/purchaseOrderItemService.js:50-52 | no status check; the ledger and stock are untouched; only the edited item changes |
| Purchasing.PurchasingStore.RemoveItem | src/services/purchaseOrderItemService.js:54-56 | no status check; the ledger and stock are untouched; the deleted row is returned, or null when there is none |
| Purchasing.PurchasingStore.CreateEstimate | src/services/purchaseOrderEstimateService.js:4-11 | a failed gate returns its error and writes nothing; otherwise the insert's outcome, stored only on success |
| Purchasing.PurchasingStore.UpdateEstimate | src/services/purchaseOrderEstimateService.js:21-28 | an unknown estimate gives null; a failed gate returns its error; only a successful edit changes the estimate |
| Purchasing.PurchasingStore.RemoveEstimate | src/services/purchaseOrderEstimateService.js:30-36 | an unknown estimate gives null; a received owner refuses and the estimate stays; otherwise it is removed and returned |
| Purchasing.PurchasingStore.CreateOrder | src/services/purchaseOrderService.js:6-8 | a missing payload gives 'No data provided'; otherwise the insert's outcome, stored only on success; nothing else changes |
| Purchasing.PurchasingStore.RemoveOrder | src/services/purchaseOrderService.js:59-61 | the row (or null) is returned; the order's items and estimates are deleted by the cascade; the ledger and stock stay |
| Purchasing.KeepOtherOrders | src/db/initSchema.js:208 | the cascade keeps exactly the items of other orders, and their ids stay distinct |
| Inventory.Receive | src/services/purchaseOrderService.js:32-52 | one item appends at most one movement to the ledger, deletes no stock row, and leaves every row except its own (branch, variant) unchanged |
| Inventory.ReceiveAll | src/services/purchaseOrderService.js:31-53 | the loop keeps the ledger as a prefix, appends at most one movement per item, and deletes no stock row |
| Inventory.Upsert | src/services/purchaseOrderService.js:43-48 | an existing row gets on-hand (null as 0) plus the quantity and keeps its reorder level; a missing row is created holding the quantity with reorder level 0; other rows are unchanged |
| Inventory.Entry | src/services/purchaseOrderService.js:34-41 | a movement has type restock, reference_type 'purchase_order' and the order's id |
| Inventory.Entries | src/services/purchaseOrderService.js:31-41 | the loop appends at most one movement per item, each for the order's branch, of type restock, referencing the order |
| Inventory.WithVariant | src/services/purchaseOrderService.js:32 | the items with a variant, in order |
| Inventory.EntryList | src/services/purchaseOrderService.js:34-41 | one movement per item with the item's variant and quantity |
| Inventory.ReceiveAllMovements | src/services/purchaseOrderService.js:31-53 | the ledger only grows: the loop appends exactly `Entries` |
| Inventory.EntriesWithoutFaults | src/services/purchaseOrderService.js:32-41 | with no failed movement insert, each item with a variant appends exactly one movement, in item order |
| Inventory.VariantlessItemsSkipped | src/services/purchaseOrderService.js:32 | items without a variant change neither the ledger nor the stock |
| Inventory.ReceiveAllStock | src/services/purchaseOrderService.js:43-48 | on-hand ends at the initial value plus the quantities whose stock step ran; the row exists iff it existed or was touched; an untouched row is unchanged |
| Inventory.ReceiveAllOtherBranches | src/services/purchaseOrderService.js:43-48 | stock rows of other branches are unchanged |
| Inventory.ReceivedWithoutFaults | src/services/purchaseOrderService.js:43-48 | with no failing item, on-hand grows by the sum of that variant's item quantities |
| Inventory.LedgerSplits | src/services/purchaseOrderService.js:33-52 | the ledger's quantity for a key is what reached the stock plus what a failed stock step dropped |
| Inventory.StockFollowsLedger | src/services/purchaseOrderService.js:33-52 | the stock change plus the dropped quantities equals what the loop wrote to the ledger |
| Inventory.NothingDroppedWithoutStockFaults | src/services/purchaseOrderService.js:43-52 | with no failed stock step, nothing is dropped |
| Inventory.ReplayCountsTwice | src/services/purchaseOrderService.js:27 | leaving and re-entering 'received' replays every item: stock and ledger count it twice |
| Rows.Written | src/models/_helpers.js:63-65 | a column is written iff it is among the query's columns, with its bound value |
| Rows.ItemRow | src/db/initSchema.js:206-212 | a stored item keeps its id, references an existing order, keeps unwritten columns, and refuses a null quantity |
| Rows.HeaderWrites | src/db/initSchema.js:193-204 | the header holds the written columns over the current ones; unwritten columns are unchanged |
| Rows.OrderRow | src/db/initSchema.js:193-204 | a stored status passes the CHECK; unwritten status, branch and header columns are unchanged |
| Rows.NewOrderRow | src/db/initSchema.js:195-198 | a new order needs branch_id and a CHECKed status |
| Rows.EstimateRow | src/db/initSchema.js:214-223 | a stored estimate meets both CHECKs and references an existing order |
| Rows.NewEstimateRow | src/db/initSchema.js:218-219 | a new estimate needs both NOT NULL quantities and meets both CHECKs |
| Rows.EstimateCheckRefuses | src/db/initSchema.js:218 | a zero or negative estimated quantity is never stored |
| Schemas.FormatIsUuid | src/models/schemas.js:4 | five hex groups of lengths 8, 4, 4, 4 and 12 joined by dashes match the UUID pattern |
| Schemas.UuidGroups | src/models/schemas.js:4 | every UUID is exactly such a joining of five hex groups |
| Schemas.UuidIgnoresCase | src/models/schemas.js:4 | the `i` flag: a string matches iff its lower-case form does |
| Schemas.SchemaFor | src/models/schemas.js:3-133 | the rule tables; the purchase-order table is stated by `PurchaseOrdersSchemaFor` and a table without rules by `Validate` |
| Schemas.CheckField | src/models/schemas.js:143-180 | 'is required' only under requireAll for a required rule; 'cannot be null' only for null under `allowNull: false`; an absent value otherwise passes |
| Schemas.PurchaseOrdersSchemaFor | src/models/schemas.js:111-120 | the purchase_orders table's rules are the eight declared ones, status restricted to the five values |
| Schemas.FirstError | src/models/schemas.js:139-183 | no error iff every rule passes; otherwise the error of the first failing rule in declaration order |
| Schemas.FirstFailureDecides | src/models/schemas.js:139-183 | when the rules before rule n all pass and rule n fails, the result is rule n's error, whatever the later rules say |
| Schemas.Validate | src/models/schemas.js:136-138 | a table without a schema is accepted; an error names the table |
| Schemas.ExtraKeysIgnored | src/models/schemas.js:139-141 | payloads agreeing on the schema's keys validate alike |
| Schemas.RequiredFieldMissing | src/models/schemas.js:143-145 | with requireAll, a required field that is undefined, null or '' fails with "is required" |
| Schemas.UndefinedAndNull | src/models/schemas.js:147-151 | undefined passes; null fails only under `allowNull: false` |
| Schemas.TypeChecks | src/models/schemas.js:153-179 | each type's check holds iff the value has that type: string/text, non-NaN number, numeric, boolean, UUID, enum member, date |
| Schemas.PurchaseOrderStatusChecked | src/models/schemas.js:115 | a status outside the five is rejected even on an update |
| Helpers.Placeholders | src/models/_helpers.js:41 | the i-th placeholder is `$(from+i)` |
| Helpers.PlaceholderBinds | src/models/_helpers.js:41-43 | `$(i+1)` binds the value at index i |
| Helpers.TrailingPlaceholdersBind | src/models/_helpers.js:87-92 | LIMIT and OFFSET placeholders bind the two appended values; the caller's placeholders still bind theirs |
| Helpers.KeepColumns | src/models/_helpers.js:37 | exactly the keys that are columns, in payload order |
| Helpers.ValuesOf | src/models/_helpers.js:42 | the values of the kept keys, in order |
| Helpers.InsertPlan | src/models/_helpers.js:23-46 | falsy data gives 'No data provided'; then validation with requireAll; then the empty-key and no-column errors; on success, columns and values line up |
| Helpers.InsertPlaceholdersLineUp | src/models/_helpers.js:40-43 | column i is written through `$(i+1)` with its payload value |
| Helpers.Assignments | src/models/_helpers.js:63 | key i is assigned `$(from+i)` |
| Helpers.UpdatePlan | src/models/_helpers.js:48-68 | no keys first, then validation without requireAll, then no columns; on success values are [id] followed by the data values |
| Helpers.UpdatePlaceholdersLineUp | src/models/_helpers.js:63-65 | `$1` binds the id and key i is set from `$(i+2)` |
| Helpers.ListQuery | src/models/_helpers.js:80-95 | the text orders by created_at or id DESC, the values are params plus limit and offset (defaults 100 and 0) at `$(n+1)` and `$(n+2)` |
| Helpers.FindRow | src/models/_helpers.js:70-78 | null exactly when no row has the id |
| OrderTotals.JoinItems | src/models/purchaseOrders.js:19-21 | one joined row per item |
| OrderTotals.Where | src/models/purchaseOrders.js:23 | the WHERE keeps only matching rows; an empty WHERE keeps all |
| OrderTotals.Group | src/models/purchaseOrders.js:19-25 | a group carries its order's id and columns unchanged |
| OrderTotals.Groups | src/models/purchaseOrders.js:25 | at most one group per order, each from the table |
| OrderTotals.ListWithItemTotals | src/models/purchaseOrders.js:17-31 | for orders with distinct ids (the primary key): at most `limit` rows (100 when left out), sorted by id descending |
| OrderTotals.TotalsText | src/models/purchaseOrders.js:18-25 | the text starts with the SELECT and LEFT JOIN, ends with ` LIMIT $(n+1) OFFSET $(n+2)`, and the join is followed by ` WHERE <where> GROUP BY` when a `where` is given and directly by ` GROUP BY` otherwise |
| OrderTotals.TotalsValues | src/models/purchaseOrders.js:17-27 | the values are the caller's followed by limit and offset (100 and 0 by default, so `[100, 0]` with no options); `$(n+1)` and `$(n+2)` bind limit and offset and `$(i+1)` still binds the caller's i-th value |
| OrderTotals.JoinedTotals | src/models/purchaseOrders.js:19 | the joined SUM is the items' qty times cost total, and COUNT is the item count |
| OrderTotals.GroupTotals | src/models/purchaseOrders.js:19-21 | without a WHERE every order has a group; items_total is the item total (0 with none); items_count reads back as the item count |
| OrderTotals.OneGroupPerOrder | src/models/purchaseOrders.js:19-25 | without a WHERE, exactly one group per order, including orders with no items |
| OrderTotals.Paging | src/models/purchaseOrders.js:25 | for orders with distinct ids: the page is the sorted rows from `offset`, at most `limit` of them |
| OrderTotals.DefaultPage | src/models/purchaseOrders.js:17 | with `limit` and `offset` left out, the result is the first min(100, n) sorted groups |
| OrderTotals.NoOptionsPage | src/models/purchaseOrders.js:17-31 | `listWithItemTotals()` over distinct orders returns one row per order, up to 100 |
| OrderTotals.GroupIdsDistinct | src/models/purchaseOrders.js:25 | `GROUP BY po.id` over distinct order ids gives rows with distinct ids |
| Cors.RawAllowed | src/index.js:13 | CORS_ALLOWED_ORIGINS when non-empty, else CORS_ORIGIN |
| Cors.TrimAll | src/index.js:14 | each entry trimmed |
| Cors.NonEmpty | src/index.js:14 | the non-empty entries |
| Cors.ParseAllowed | src/index.js:14 | every entry is non-empty, comma-free and trimmed |
| Cors.ParseJoined | src/index.js:14 | a list of clean entries joined by commas parses back to itself |
| Cors.NothingConfigured | src/index.js:13-14 | with neither variable set, the list is empty; `isOriginAllowed` refuses every origin for it, while the server admits every origin |
| Cors.WildcardMatches | src/index.js:34-37 | `*.suffix` matches exactly the origins that end with `.suffix` |
| Cors.AnyEntryMatches | src/index.js:32-38 | an origin listed verbatim always matches |
| Cors.IsOriginAllowed | src/index.js:28-40 | nothing is allowed with an empty list; a listed origin is always allowed |
| Cors.AnyEntryMatchesExists | src/index.js:32-38 | the loop succeeds iff some entry equals the origin or is a matching wildcard |
| Cors.Admits | src/index.js:42-55 | with no configured origin the server admits every origin; otherwise it admits exactly what `isOriginAllowed` allows |
| Cors.OriginDecision | src/index.js:28-40 | an empty list refuses everything; a missing origin is allowed; otherwise allowed iff there is a `*`, an exact entry or a matching `*.suffix` |
| Cors.WildcardNeedsSubdomain | src/index.js:34-37 | `*.suffix` admits `sub.suffix` but not the bare `suffix` |
| Auth.JwtSecret | src/middleware/auth.js:24 | JWT_SECRET when non-empty, else the default; never empty |
| Auth.ParseAuthorization | src/middleware/auth.js:7-22 | a token never contains a space |
| Auth.Request.constructor | src/middleware/auth.js:5 | a request starts with no user, no `next()` call and no reply |
| Auth.Request.AuthMiddleware | src/middleware/auth.js:5-38 | calls `next()` exactly once, never replies, and sets the user as `UserAfter` |
| Auth.Request.RequireAuth | src/middleware/auth.js:41-44 | `next()` once when authenticated; otherwise 401 'authentication required' and no `next()` |
| Auth.BearerRoundTrip | src/middleware/auth.js:12-22 | `<Bearer in any case> <token>` yields the token |
| Auth.BearerShape | src/middleware/auth.js:12-22 | a token is read only from a header `<scheme> <token>` whose scheme folds to 'bearer' |
| Auth.ExtraSpaceMalformed | src/middleware/auth.js:12-16 | two spaces between scheme and token, or a space inside the token, make the header malformed |
| Auth.UserAfter | src/middleware/auth.js:24-33 | a header that is not a well-formed Bearer header, or a token the verifier rejects, leaves the user as it was; a changed user is always present |
| Auth.UserDecision | src/middleware/auth.js:25-33 | the user changes only for a verified Bearer token, becoming exactly its id and role; no header keeps the user |
| Auth.UserSetIff | src/middleware/auth.js:26-28 | a request without a user gets one iff a Bearer token verifies |
| Auth.RequireAuthRefuses | src/middleware/auth.js:42 | a missing user, or an id that is undefined, 0 or '', is refused |
| Login.RemoveKey | src/routes/auth.js:27 | the entries without that key, drawn from the record |
| Login.Login | src/routes/auth.js:9-32 | a refusal is one of 400, 401, 403, 404, 500; a success payload has no password_hash |
| Login.MissingCredentialsFirst | src/routes/auth.js:11-14 | missing password, or no phone and no email, give 400 whatever the oracles do |
| Login.FindUser | src/routes/auth.js:16-18 | neither phone nor email gives no user; a phone lookup that errs or finds someone decides; a found user comes from the lookup of a given phone or email |
| Login.PhoneFirst | src/routes/auth.js:16-18 | a user found by phone is the user; the email lookup is irrelevant |
| Login.EmailFallback | src/routes/auth.js:17-18 | email is looked up when phone is missing or matched no one |
| Login.NoUserNotFound | src/routes/auth.js:20 | no user found gives 404 |
| Login.InactiveBeforePassword | src/routes/auth.js:21 | `is_active === false` gives 403 whatever the comparison says |
| Login.MissingHashComparedAsEmpty | src/routes/auth.js:23-25 | a user without a hash is compared against '' |
| Login.LoginSucceedsIff | src/routes/auth.js:11-28 | success iff credentials, a found user, not inactive and a matching password; the payload is the user without password_hash |
| Login.SafeUserFields | src/routes/auth.js:27-28 | the payload has no password_hash and every other field's value is unchanged |
| Login.RemoveKeyAbsent | src/routes/auth.js:27 | a record without the key is returned unchanged, order included |
| Database.ConnectionString | src/db.js:5 | DATABASE_URL, then DB_URL, else none; never empty |
| Database.Ssl | src/db.js:9-13 | SSL options exist iff SSL is enabled; rejectUnauthorized iff DB_SSL_REJECT_UNAUTHORIZED is 'true' |
| Database.TargetOf | src/db.js:15-23 | a connection string wins; otherwise the DB_* parts with port 5432 by default |
| Database.PoolConfig.constructor | src/db.js:15-23 | the literal: target set, no max, idle timeout or ssl |
| Database.PoolConfig.ApplyDefaults | src/db.js:25-27 | max defaults to 10 and idle timeout to 30000 when falsy; ssl is set only when given |
| Database.NewPoolConfig | src/db.js:15-27 | the final pool config: target, max 10, idle timeout 30000, ssl as decided |
| Database.Backoff | src/db.js:44-45 | the i-th delay passed to `setTimeout` is initialDelay times 2^i |
| Database.ConnectWithRetry | src/db.js:42-63 | retries <= 0 makes no attempt and resolves; at most `retries` attempts, stopping at the first success; rejection after the `retries`-th failure; the waits are the backoff sequence with none after the last attempt |
| Database.UrlTakesPrecedence | src/db.js:15-16 | with a connection string, DB_* variables do not matter |
| Database.SslEnabled | src/db.js:9-11 | a DB_SSL other than 'true' or '1' disables SSL; with no DB_SSL and no connection string SSL is off |
| Database.SslDecision | src/db.js:9-11 | with DB_SSL set, SSL is on iff it is 'true' or '1'; otherwise on iff the connection string contains `sslmode=require` in any case |
| Database.DbSslOverridesUrl | src/db.js:10-13 | another DB_SSL value turns SSL off whatever the URL says |
| Database.BackoffTotal | src/db.js:59-60 | n delays passed to `setTimeout` total initialDelay times (2^n - 1) |
| Database.DefaultSchedule | src/db.js:43-45 | the defaults pass delays 2000, 4000, 8000 and 16000 to `setTimeout`, 30000 in all |

## Left out

- Concurrency: calls run one at a time, so the lost update when two requests read and write the same stock row concurrently is not modelled.
- `getVariance`: the variance endpoint calls a function the purchase-order service does not define, so there is nothing to model.
- src/models/purchaseOrderItems.js is not part of this model. It is assumed to be the same generic wrapper over the helpers as the other models (listing ordered by id since the table has no created_at).
- Reads are assumed to succeed: the order, estimate and stock lookups and the item listing do not fail in the model. Failures of the writes inside the per-item `try` are the `fault` oracle.
- The stock lookup (src/models/inventories.js:12-18) is modelled by the map key: with the UNIQUE (branch, variant) constraint, at most one row can match.
- id, created_at and updated_at are not writable columns in the model; the generated ids are parameters and timestamps are not modelled.
- PostgreSQL's own error texts are not modelled: every constraint violation the model checks gives one constant message, and other rejections carry the `Db` oracle's message.
- Text normalisation of uuid values by PostgreSQL is not modelled: ids are compared as written, and a non-uuid id finds no row instead of raising a cast error.
- Database.Backoff: the delays are the values passed to `setTimeout`; Node replaces a delay above 2147483647 ms or below 1 ms with 1 ms (retries of 22 or more at the default 2000, or a negative `initialDelay`), and that clamp of the actual wait is not modelled.
- OrderTotals.ListWithItemTotals: `limit` and `offset` are natural numbers or left out; other values a caller could pass (null, text, or a negative number, which PostgreSQL rejects) are not modelled.
- Floating point: `Number`, `Number.isNaN`, `Date.parse` and the numeric casts are oracles; JavaScript number overflow of a doubled delay is not modelled.
- The pass-throughs `getById` and `list` of the three services, and the estimates' `listByPurchaseOrder`, are the helpers' `FindRow` and `ListQuery`; they have no members of their own.
- HTTP and Express plumbing (routes, controllers, status mapping, logging, `AUTH_DEBUG` output), the schema bootstrap, scripts and the pool's own connection handling are not modelled.
- Routing: src/routes/api.js:76 wires `PUT /purchase-orders/:id` to the generic model wrapper, not to `purchaseOrderService.update`, so the reconciliation modelled by `PurchasingStore.UpdateOrder` is not reached through the HTTP API.
- Purchasing.PurchasingStore.CreateItem, Purchasing.PurchasingStore.CreateEstimate: the payload is always an object; an undefined payload, on which the services throw a TypeError reading `data.purchase_order_id` (src/services/purchaseOrderItemService.js:7, src/services/purchaseOrderEstimateService.js:5), is not modelled.
- Auth.Request.AuthMiddleware: the outer `try`/`catch` is not modelled separately; with the header parsing total, only `jwt.verify` can fail, and that failure keeps the user.
- Auth.ParseAuthorization: the header is modelled as a string; a non-string header value before `String(auth)` is not modelled.
- Login.Login: `req.body` is either absent or an object; other body values are not modelled.
