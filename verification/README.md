# Maintenance platform: verified model

A Dafny model of the parts of the maintenance platform that keep state under concurrency: work orders
and the inventory ledger, refresh-token rotation and the browser client that drives it, condition
monitoring with its notifications, and two small pure algorithms (paging and the telemetry window).
`dafny verify dfyconfig.toml` checks the whole project.

## How it is built

**Shared tables.** `Tables` and `Statements` give each statement of a service transaction its meaning:
the row it locks, what it checks, what it writes. `Transactions` strings statements into calls and runs
a call alone (`Run`) or a list of calls one after the other (`Replay`). `Interleaving` is the concurrent
system: transactions with a program counter, a private write set and a lock set, stepping in any order
under READ COMMITTED with `FOR UPDATE` locks held to commit, aborting anywhere. A schedule is any
sequence of actions; an action that must wait or is not enabled changes nothing, so every theorem is
about all schedules. `Serializable` reduces every schedule to a serial one; `Ledger`, `StockAudit`,
`Reconciliation`, `OrderTrail` and `AutoOrders` prove the invariants of one call at a time; `Guarantees`
lifts them to every schedule. The lemmas named `…Outcome` and `…Response` fix what each operation does
column by column and without the functions that define it, so that no definition vouches for itself.
`Completion`, `OrderCalls` and `PartCalls` say exactly when each call
succeeds and what it changes.

**Whole calls.** `Sites` adds what no lock protects: asset status, maintenance plans, notifications.
There, calls are atomic steps. `AssetHistory` and `SiteGuarantees` prove what every sequence of calls
keeps.

**Services.** `Store` is the database as mutable fields. `InventoryServices`, `WorkOrdersServices`,
`MonitoringServices`, `NotificationsServices`, `AuthServices` and `ApiClients` hold the services as
classes with the code's own branches, loops and rollbacks, each proved to do exactly what the functions
above say, or to leave everything unchanged and give the same error.

**Tokens.** `Tokens` is the token server as interleaved transaction steps, `UserSessions` any number of
sessions of one user on it, `Session` the browser client, `Composition` the browser and the server
together with the user's other sessions and everyone else's traffic.

Money is counted in whole cents. `Cost` relates that to the code's floating point: for every rounding
function with a relative error of at most 2^-53, the stored total is the exact one.

## Two results that limit the code

* Reuse detection revokes every token of the user as an atomic step (`AuthServices.RefreshResponse`),
  but not against a concurrent rotation of another token of that user: `Tokens.RacingRotationSurvives`
  is a run after which reuse was detected and the user still holds a live token.
  `Tokens.ReuseRevokesIff` gives the exact condition, for every run from the lock on the revoked row to
  the commit: the user is left without a live token if and only if every token the user has live at the
  commit was a row when the UPDATE took its snapshot. `Tokens.ReuseRevokesIffQuiet` says the same by
  what happens in between: unless somebody else revokes the user's tokens too, it is complete if and
  only if nobody logs the user in and no rotation of the user's commits in that window.
* The range shown under a list counts the rows of the page on pages 1 to `totalPages`. Past the last
  page it does so only when that page is full and the page shown is the one right after it
  (`Pagination.RangeCountsRows`, both directions); `Pagination.RangePastTheEnd` is a page that shows
  "3 to 1 of 1".

## Model

| member | source | states |
|---|---|---|
| Lifecycle.TerminalIsAbsorbing | backend/src/work-orders/work-order-lifecycle.ts:4-32 | along any path of allowed transitions only the last status can be inactive, and the inactive statuses are exactly those without a way out |
| Lifecycle.TransitionsAre | backend/src/work-orders/work-order-lifecycle.ts:4-21 | every active order can be cancelled, and besides that there are exactly five moves |
| Tables.OverlayCompose | backend/src/work-orders/work-orders.service.ts:314-414 | writing through one transaction manager twice and committing once equals committing the two batches one after the other |
| Transactions.CompletionLeavesOrders | backend/src/work-orders/work-orders.service.ts:309-354 | until it closes the order, a completion has changed no order row, and its guards passed on the row it locked |
| Interleaving.CommitIsInvisible | backend/src/work-orders/work-orders.service.ts:55-69 | a commit changes nothing on any row another transaction has locked, references to parts and active AUTO orders included |
| Interleaving.ExecDependsOnReads | backend/src/inventory/inventory.service.ts:47-95 | the outcome and the lock of a statement depend only on the rows it reads |
| Interleaving.ReadsAreHeld | backend/src/work-orders/work-orders.service.ts:309-361 | once a statement has run, every row it read is locked by its transaction until commit |
| Interleaving.PrivateIsCovered | backend/src/work-orders/work-orders.service.ts:309-361 | every row a transaction has written is among the rows it holds, and no write makes an inactive AUTO order active |
| Interleaving.PrivateRefinesRun | backend/src/work-orders/work-orders.service.ts:309-415 | buffering writes privately computes the same tables and running cost as executing directly on the tables |
| Interleaving.PrivateIsStable | backend/src/work-orders/work-orders.service.ts:309-415 | a transaction's private state is unaffected by any change of the tables that agrees on the rows it holds |
| Interleaving.Serializable | backend/src/work-orders/work-orders.service.ts:55-69 | after every schedule the tables are those of the committed calls run one by one in commit order; aborted calls leave no trace |
| Interleaving.SerialIsReachable | backend/src/work-orders/work-orders.service.ts:115-415 | conversely, every list of valid calls that succeed one after the other is the commit log of some schedule, with the same tables |
| Interleaving.BeginOutcome | backend/src/condition-monitoring/condition-monitoring.service.ts:59-68 | a valid call begins; an evaluator begins exactly if no AUTO order of its asset is active in the committed tables |
| Interleaving.ExecuteOutcome | backend/src/work-orders/work-orders.service.ts:55-85 | a statement waits exactly while another transaction holds its row; else it locks and buffers, or fails and ends its transaction, and commits nothing |
| Interleaving.EndOutcome | backend/src/work-orders/work-orders.service.ts:314 | a commit applies all writes at once, an abort none |
| Interleaving.CompletionsExcludeAsset | backend/src/work-orders/work-orders.service.ts:361 | in every reachable state no two completions of orders of one asset are both ready to commit |
| Ledger.PostingKeepsBooks | backend/src/inventory/inventory.service.ts:63-95 | a stock change with its ledger row keeps stock equal to the ledger sum, and rows equal to non-negative prefix sums, for every part |
| Ledger.PrefixKeepsBooks | backend/src/inventory/inventory.service.ts:63-310 | after any part of any call the books of every part still balance |
| Ledger.OnlyEmptyPartsAreDeleted | backend/src/database/migrations/1789875701743-CreateInventoryTransactions.ts:19-21 | a part that can be deleted has zero stock, and is gone afterwards |
| StockAudit.PrefixIsAudited | backend/src/inventory/inventory.service.ts:126-310 | per part, the stock changes shown in audit rows sum to the ledger rows that are not consumptions |
| Reconciliation.ConsumptionMatches | backend/src/work-orders/work-orders.service.ts:336-351 | a consumption and its work-order part keep consumed units equal to used units for every order and part |
| Reconciliation.RunReconciles | backend/src/work-orders/work-orders.service.ts:315-358 | a successful call keeps double entry, changes no completed order, and completes an order only if it was not completed |
| OrderTrail.PrefixKeepsTraces | backend/src/work-orders/work-orders.service.ts:156-392 | the audit rows of every order chain from OPEN to its status through allowed links, and the timestamps, assignee and cost match the status |
| AutoOrders.OnlyInsertionAddsAuto | backend/src/database/migrations/1789900000000-AddAutoWorkOrderUniqueIndex.ts:8-11 | no statement but the insertion can add an active AUTO order of an asset, so only it can hit the partial unique index |
| AutoOrders.PrefixKeepsAuto | backend/src/condition-monitoring/condition-monitoring.service.ts:59-163 | at most one active AUTO order per asset; AUTO orders, critical alerts and monitoring history rows of an asset are equally many |
| AutoOrders.EvaluatorLosesIff | backend/src/condition-monitoring/condition-monitoring.service.ts:93-155 | an evaluator's transaction fails exactly when the asset has an active AUTO order or the new id is taken, and otherwise leaves one |
| Guarantees.EveryScheduleIsSound | backend/src/work-orders/work-orders.service.ts:309-415 | ledger, stock audit, double entry, audit trails and AUTO orders are in order after every interleaving of calls |
| Guarantees.AfterAnySchedule | backend/src/inventory/inventory.service.ts:63-95 | the same read out for one part, order and asset of a database that started empty |
| Guarantees.DoubleSubmitCommitsOnce | backend/src/work-orders/work-orders.service.ts:315-330 | of concurrent completions of one order at most one commits, whatever the schedule |
| Completion.ConsumeNext | backend/src/work-orders/work-orders.service.ts:336-353 | one round of the parts loop succeeds exactly when the part exists and what the list wanted so far fits, and takes and prices exactly that |
| Completion.LoopSucceedsIff | backend/src/work-orders/work-orders.service.ts:336-353 | the loop reaches line k exactly when every distinct part's total over the first k lines fits its stock |
| Completion.CompletionSucceedsIff | backend/src/work-orders/work-orders.service.ts:309-358 | a completion succeeds if and only if its guards pass and every part's total over the list, duplicates included, fits its stock; it then debits exactly the totals, and the order is COMPLETED at that time with their price as its total and every other column as before |
| Completion.CompletionWritesRows | backend/src/work-orders/work-orders.service.ts:337-411 | the rows a completion appends: per line, in order, a ledger row with the stock it left and a work-order part with the price it found; the order's audit row; the asset's audit and history rows if it was out of service |
| Completion.FirstBadLineFails | backend/src/inventory/inventory.service.ts:57-76 | the first line that cannot be served decides the error, NotFound or Conflict |
| Completion.TotalIgnoresOrder | backend/src/work-orders/work-orders.service.ts:336-353 | every sum over the list is the same for every permutation of it |
| Completion.CompletionIgnoresListOrder | backend/src/work-orders/work-orders.service.ts:336-353 | permuting the list changes neither success nor stock nor the order row |
| Cost.ProductIsNear | backend/src/work-orders/work-orders.service.ts:352 | one floating-point product of price and quantity is off by at most four roundings |
| Cost.FloatTotalIsNear | backend/src/work-orders/work-orders.service.ts:334-353 | the error of the accumulated total grows by two roundings per part |
| Cost.StoredTotalIsExact | backend/src/work-orders/work-orders.service.ts:357 | for up to 100,000 parts and a total the column can hold, the rounded total is the exact sum in cents |
| Cost.CompletionStoresExactTotal | backend/src/common/transformers/decimal.transformer.ts:3-7 | so the exact cents a completion records are what the floating-point code stores |
| OrderCalls.AssignOutcome | backend/src/work-orders/work-orders.service.ts:181-241 | exactly who may assign which order to whom, which error the others get, and that only the one row changes and one audit row is written |
| OrderCalls.StartOutcome | backend/src/work-orders/work-orders.service.ts:244-279 | starting works exactly for the assignee or the privileged, from ASSIGNED or BLOCKED, sets status and start time only and writes one audit row |
| OrderCalls.CancelOutcome | backend/src/work-orders/work-orders.service.ts:281-307 | cancelling works exactly from the active statuses, sets status and time only and writes one audit row |
| OrderCalls.CompleteOutcome | backend/src/work-orders/work-orders.service.ts:315-353 | completing works exactly for the assignee or the privileged, from IN_PROGRESS, with stock for every part, and which guard gives which error |
| PartCalls.MoveOutcome | backend/src/inventory/inventory.service.ts:63-95 | restock and adjust succeed exactly when the part exists and its stock stays non-negative, and change that part, its ledger and one audit row only |
| PartCalls.EditOutcome | backend/src/inventory/inventory.service.ts:175-211 | an update changes exactly the given columns, never stock, ledger or any order |
| PartCalls.DeleteOutcome | backend/src/inventory/inventory.service.ts:289-310 | a part can be deleted exactly while it has no ledger row and no order has used it |
| PartCalls.InsertOutcome | backend/src/inventory/inventory.service.ts:126-173 | a new part starts with the stock its opening ledger row says |
| InventoryServices.InventoryService.ApplyStockChange | backend/src/inventory/inventory.service.ts:63-95 | changes the quantity and appends its ledger row, or refuses a negative result and changes nothing |
| InventoryServices.InventoryService.Consume | backend/src/inventory/inventory.service.ts:213-227 | takes the quantity for an order as a CONSUMED row, inside the caller's transaction |
| InventoryServices.InventoryService.Restock | backend/src/inventory/inventory.service.ts:229-255 | is the restock call of the shared tables, or changes nothing |
| InventoryServices.InventoryService.Adjust | backend/src/inventory/inventory.service.ts:257-287 | is the adjustment call of the shared tables, or changes nothing |
| InventoryServices.InventoryService.Create | backend/src/inventory/inventory.service.ts:126-173 | inserts the part with an opening ledger row exactly when its quantity is positive |
| InventoryServices.InventoryService.Update | backend/src/inventory/inventory.service.ts:175-211 | changes only the given columns, never the quantity |
| InventoryServices.InventoryService.Remove | backend/src/inventory/inventory.service.ts:289-310 | deletes a part no ledger or usage row refers to, and otherwise changes nothing |
| WorkOrdersServices.WorkOrdersService.Create | backend/src/work-orders/work-orders.service.ts:115-174 | opens an order on an existing asset, PLANNED for a plan of that asset, or fails with the code's error |
| WorkOrdersServices.WorkOrdersService.Assign | backend/src/work-orders/work-orders.service.ts:176-242 | is the assignment call of the shared tables, or changes nothing |
| WorkOrdersServices.WorkOrdersService.Start | backend/src/work-orders/work-orders.service.ts:244-279 | is the start call of the shared tables, or changes nothing |
| WorkOrdersServices.WorkOrdersService.Cancel | backend/src/work-orders/work-orders.service.ts:281-307 | is the cancel call of the shared tables, or changes nothing |
| WorkOrdersServices.WorkOrdersService.ConsumeParts | backend/src/work-orders/work-orders.service.ts:332-353 | the loop leaves the tables and the running total of the specification's first statements, or stops with its error |
| WorkOrdersServices.WorkOrdersService.CloseOrder | backend/src/work-orders/work-orders.service.ts:355-411 | saves the order, returns the asset to service, moves the plan along and writes the audit and history rows that apply |
| WorkOrdersServices.WorkOrdersService.Complete | backend/src/work-orders/work-orders.service.ts:309-415 | all or nothing: the tables, the asset and the plan of a completion, or its error and every table as it was |
| AssetHistory.CompletionIsRecorded | backend/src/work-orders/work-orders.service.ts:361-411 | a completion records a status change exactly when the asset was not operational |
| AssetHistory.EvaluationIsRecorded | backend/src/condition-monitoring/condition-monitoring.service.ts:102-122 | an evaluation records its change even when the asset was already critical, and the chain still holds |
| AssetHistory.UpdateIsRecorded | backend/src/assets/assets.service.ts:181-218 | a manual change to the same status writes nothing, any other extends the chain |
| AssetHistory.HistoryReplaysStatus | backend/src/assets/assets.service.ts:192-216 | after any sequence of calls an asset's history leads without gaps from OPERATIONAL to its status, and the audit trail mirrors it row for row |
| Notifications.MissingActivates | backend/src/notifications/notifications.service.ts:54-68 | after a check's inserts exactly the listed entities, and those active before, have an active notification |
| Notifications.NotYetListed | backend/src/condition-monitoring/scheduled-checks.service.ts:92-101 | testing the growing table entity by entity decides as testing the table once at the start |
| Notifications.MissingRows | backend/src/notifications/notifications.service.ts:42-49 | a check appends an unread, unsigned notification for exactly the listed entities without an active one |
| Notifications.ActiveMeans | backend/src/notifications/notifications.service.ts:59-66 | active means unread or acknowledged, that is, not resolved |
| Notifications.ChangeKeepsOk | backend/src/notifications/notifications.service.ts:91-119 | acknowledging or resolving never yields two active notifications, and a notice is resolved exactly when it is signed |
| Notifications.AcknowledgeOutcome | backend/src/notifications/notifications.service.ts:91-104 | acknowledging works exactly on unresolved notifications and changes nothing about what is active |
| Notifications.ResolveOutcome | backend/src/notifications/notifications.service.ts:106-119 | resolving works exactly once, after which the entity has no active notification and the next check adds exactly one |
| SiteGuarantees.NoDuplicateNotices | backend/src/condition-monitoring/scheduled-checks.service.ts:29-79 | after any sequence of calls no part and no plan has two active notifications of its type |
| SiteGuarantees.LowStockRun | backend/src/condition-monitoring/scheduled-checks.service.ts:89-118 | after a low-stock run every part at or below its threshold has exactly one active notification, others keep theirs, and a second run in any order adds nothing |
| SiteGuarantees.OverdueRun | backend/src/condition-monitoring/scheduled-checks.service.ts:29-79 | after an overdue run every active plan whose due date has come has an uncompleted, uncancelled order or an active notification, and a second run adds nothing |
| SiteGuarantees.EvaluationRaises | backend/src/condition-monitoring/condition-monitoring.service.ts:49-66 | an evaluation without interference marks an existing asset critical and writes the rows of one alert, column by column, exactly when the last three readings were hot and no AUTO order is active, and else changes nothing |
| SiteGuarantees.CompletionClearsPlan | backend/src/work-orders/work-orders.service.ts:361-380 | completing a plan's order sets exactly that plan's last completion to now and its due date one interval of days later, and touches no other plan or asset |
| SiteGuarantees.CreateOutcome | backend/src/work-orders/work-orders.service.ts:119-153 | exactly when an order can be created, every column of the new row, and that it serves its plan |
| SiteGuarantees.CompletionOutcome | backend/src/work-orders/work-orders.service.ts:315-369 | completing on the site is completing in the tables with the status the asset has, with the same errors |
| SiteGuarantees.AssetOutcome | backend/src/assets/assets.service.ts:60-220 | every row a creation or status update of an asset writes, and which error it gives |
| SiteGuarantees.NoticeOutcome | backend/src/notifications/notifications.service.ts:91-119 | acknowledging and resolving change one unresolved notification in exactly these columns, or fail |
| SiteGuarantees.CallsKeepSite | backend/src/condition-monitoring/condition-monitoring.service.ts:93-163 | all invariants, of tables, notifications and histories, survive every sequence of calls |
| MonitoringServices.AssetsService.Create | backend/src/assets/assets.service.ts:60-105 | a new asset of an existing type and location starts OPERATIONAL with its creation audited and no history; otherwise NotFound |
| MonitoringServices.AssetsService.UpdateStatus | backend/src/assets/assets.service.ts:181-220 | sets the status with one audit and one history row, or writes nothing when it is already set |
| MonitoringServices.ConditionMonitoringService.EvaluateAsset | backend/src/condition-monitoring/condition-monitoring.service.ts:48-163 | one evaluation does all of its writes or none, and none unless the rule trips and no AUTO order is active |
| NotificationsServices.NotificationsService.HasActiveNotification | backend/src/notifications/notifications.service.ts:54-68 | tells whether an unread or acknowledged notification of the entity exists |
| NotificationsServices.NotificationsService.AcknowledgeNotice | backend/src/notifications/notifications.service.ts:91-104 | acknowledges an unresolved notification, which stays active, or fails |
| NotificationsServices.NotificationsService.ResolveNotice | backend/src/notifications/notifications.service.ts:106-119 | resolves an unresolved notification with time and user, or fails |
| NotificationsServices.ScheduledChecksService.FindAllLowStock | backend/src/inventory/inventory.service.ts:110-116 | lists every part at or below its threshold once, lowest stock first |
| NotificationsServices.ScheduledChecksService.FindAllDue | backend/src/maintenance-plans/maintenance-plans.service.ts:69-76 | lists every active plan that is due once, longest overdue first |
| NotificationsServices.ScheduledChecksService.CheckLowStock | backend/src/condition-monitoring/scheduled-checks.service.ts:89-118 | the loop appends exactly one notification for each low part without an active one |
| NotificationsServices.ScheduledChecksService.CheckOverdueMaintenance | backend/src/condition-monitoring/scheduled-checks.service.ts:29-79 | the loop appends exactly one notification for each due plan with neither an active order nor an active notification |
| Telemetry.LastRecordIsNewest | frontend/src/features/telemetry/mergeReadings.ts:12-16 | comparing with the last point kept decides as comparing with every earlier poll |
| Telemetry.RecordHighsIncrease | frontend/src/features/telemetry/mergeReadings.ts:12-16 | the record highs of a stream are strictly increasing in time |
| Telemetry.WindowShowsRecordHighs | frontend/src/features/telemetry/mergeReadings.ts:12-23 | merging polls one by one shows the last `limit` record highs of the stream |
| Telemetry.WindowIsSuffix | frontend/src/features/telemetry/mergeReadings.ts:22-23 | the window holds as many of the record highs as fit, counted from the end |
| Telemetry.RecordHighsAppend | frontend/src/features/telemetry/mergeReadings.ts:13-16 | a poll becomes a record high exactly if its reading is newer than every one before it |
| Telemetry.RuleIsStreak | backend/src/condition-monitoring/hot-temperature.rule.ts:12-21 | the three-newest rule trips exactly when the streak counter is at least three |
| Telemetry.RuleInDegrees | backend/src/condition-monitoring/hot-temperature.rule.ts:1-2 | it trips exactly when the last three readings ingested are all above 80 degrees |
| Tokens.NextKeeps | backend/src/auth/auth.service.ts:80-154 | every step of logins, refreshes and logouts keeps the token invariant and never makes a revoked token live |
| Tokens.TokenFamilies | backend/src/auth/auth.service.ts:89-120 | in every interleaving a token is rotated at most once, a family has at most one live token, nothing revoked returns, and replacement chains end |
| Tokens.LockOutcome | backend/src/auth/auth.service.ts:87-114 | with the row locked, exactly an unrevoked, unexpired token of an active account goes on to rotate and exactly a revoked one to reuse |
| Tokens.RotationOutcome | backend/src/auth/auth.service.ts:116-121 | every column of the two rows a rotation commits, and no other row |
| Tokens.SweepOutcome | backend/src/auth/auth.service.ts:200-203 | the UPDATE covers the user's unrevoked rows of its snapshot, waits for each lock, and takes a row only if it is still unrevoked |
| Tokens.RevocationOutcome | backend/src/auth/auth.service.ts:200-203 | a sweep that commits revokes exactly the rows it took, at that time |
| Tokens.LogoutReadOutcome | backend/src/auth/auth.service.ts:140-150 | a logout begins exactly for an unrevoked, unexpired token |
| Tokens.LogoutOutcome | backend/src/auth/auth.service.ts:152-153 | a logout that saves leaves its token revoked at that time and every other row as it was |
| Tokens.SaveStaleIsOk | backend/src/auth/auth.service.ts:138-154 | logout's unlocked save may overwrite a replacement link but always revokes its row, changes no other, and breaks no invariant |
| Tokens.ReuseRevokesIff | backend/src/auth/auth.service.ts:87-98 | from the lock on a revoked row to the commit, with anything in between: the answer is reuse, and the user is left no live token if and only if every token live at the commit was a row at the snapshot of the UPDATE |
| Tokens.ReuseRevokesIffQuiet | backend/src/auth/auth.service.ts:193-204 | with no other revoker of that user in the window, that is so if and only if the user is given no token in the window |
| Tokens.ReuseRevokesUser | backend/src/auth/auth.service.ts:95-98 | a window without a new token suffices, whoever else revokes |
| Tokens.RacingRotationSurvives | backend/src/auth/auth.service.ts:95-120 | a concrete run in which a rotation racing the detection survives it |
| AuthServices.RefreshResponse | backend/src/auth/auth.service.ts:95-134 | as one step: a token is issued exactly for an unrevoked, unexpired token of an active account, which is then revoked, linked and replaced, column by column; a revoked one costs its user exactly the live tokens though the call fails; any other failure changes nothing |
| AuthServices.LogoutResponse | backend/src/auth/auth.service.ts:138-154 | a logout revokes an unrevoked, unexpired token, which then never gets another one, and changes nothing else; otherwise nothing |
| AuthServices.RefreshIsARun | backend/src/auth/auth.service.ts:80-136 | a refresh alone is a run of the interleaved server with the same tokens and answer |
| AuthServices.LogoutIsARun | backend/src/auth/auth.service.ts:138-154 | a logout alone is a run of the interleaved server |
| AuthServices.AuthService.Login | backend/src/auth/auth.service.ts:74-78 | a login starts a family with one live token |
| AuthServices.AuthService.RevokeAllForUser | backend/src/auth/auth.service.ts:193-204 | revokes exactly the user's live tokens |
| AuthServices.AuthService.Refresh | backend/src/auth/auth.service.ts:80-136 | the answer and the token table of one refresh, kept also when the call fails on reuse |
| AuthServices.AuthService.Logout | backend/src/auth/auth.service.ts:138-154 | revokes the presented token if it is live and unexpired, and nothing else |
| Session.ClientStep | frontend/src/lib/api/client.ts:61-151 | every event keeps one shared promise, at most one refresh in flight, and each request's bounds |
| Session.RequestsOnlyAdvance | frontend/src/lib/api/client.ts:109-151 | retrying terminates: each event leaves a request alone or brings it closer to settling, and opted-out requests never refresh |
| Session.ReplyOutcome | frontend/src/lib/api/client.ts:114-129 | what a reply does: an eligible 401 awaits the one refresh, a 401 after the retry ends the session, anything else settles and leaves the session alone |
| Session.ResumeOutcome | frontend/src/lib/api/client.ts:117-124 | after a refresh that succeeded the request is sent once more with the session kept; after one that failed it settles and the session ends |
| Session.LandOutcome | frontend/src/lib/api/client.ts:76-105 | a refresh succeeds exactly if a token was issued and the response held an access token; the cookie follows the server either way |
| Session.SettleOutcome | frontend/src/lib/api/client.ts:63-70 | settling frees the promise and wakes exactly its waiters with its result |
| Session.StartOutcome | frontend/src/lib/api/client.ts:142-151 | how a request and a restore begin |
| Session.SessionEndsIff | frontend/src/lib/api/client.ts:56-59 | the session ends exactly on a failed refresh or a 401 after the retry, and comes back exactly with a refresh that succeeded |
| UserSessions.LiveSurvives | backend/src/auth/auth.service.ts:80-154 | a live token of a user whose sessions are in order ends only by its own rotation or its own logout |
| UserSessions.SessionsNeverReuse | backend/src/auth/auth.service.ts:80-130 | any number of sessions of one user that present live tokens, one use at a time, never put a refresh on reuse, whatever everyone else does |
| UserSessions.NoReuseAnswer | backend/src/auth/auth.service.ts:95-134 | and none of their refreshes is ever answered by reuse detection |
| Composition.LoginIsFresh | frontend/src/lib/api/client.ts:61-74 | a login on any server on which the user's sessions are in order is a starting point of the composition |
| Composition.OwnSurvives | backend/src/auth/auth.service.ts:80-130 | no step but the commit of the browser's own refresh touches the live token of its login |
| Composition.ReuseDetectionNeverFires | frontend/src/lib/api/client.ts:61-70 | in every interleaving, with logins and refreshes of the same user elsewhere, each refresh presents the one live token of its login and no refresh of the user meets reuse detection |
| Composition.ClientBounds | frontend/src/lib/api/client.ts:109-151 | at most one refresh in flight, at most two fetches and one awaited refresh per request, none for opted-out ones |
| ApiClients.ApiClient.PerformRefresh | frontend/src/lib/api/client.ts:61-70 | joins the refresh in flight or starts the only one |
| ApiClients.ApiClient.Start | frontend/src/lib/api/client.ts:142-151 | a request starts eligible, or disabled when it opted out |
| ApiClients.ApiClient.ResponseArrived | frontend/src/lib/api/client.ts:109-140 | a 401 makes an eligible request await the shared refresh, ends the session of a retried one, and settles otherwise |
| ApiClients.ApiClient.RefreshAwaited | frontend/src/lib/api/client.ts:117-124 | after the refresh a request retries once or the session ends |
| ApiClients.ApiClient.RefreshAnswered | frontend/src/lib/api/client.ts:76-105 | a new cookie is kept even when the response holds no access token |
| ApiClients.ApiClient.RefreshSettled | frontend/src/lib/api/client.ts:63-70 | settling clears the promise and wakes everyone who awaited it |
| Pagination.BeforeIsStrictTotal | backend/src/common/pagination/paginate.ts:31-32 | sort key and id together order rows strictly and totally |
| Pagination.SortedByKey | backend/src/common/pagination/paginate.ts:26-32 | ascending, keys never fall and ties go by id upwards; descending, the other way round |
| Pagination.SortedIsUnique | backend/src/common/pagination/paginate.ts:31-32 | so a result set has only one sorted list |
| Pagination.OrderedSorts | backend/src/common/pagination/paginate.ts:31-35 | every table has one, with exactly its rows |
| Pagination.PagesPartition | backend/src/common/pagination/paginate.ts:33-40 | pages 1 to totalPages concatenate to exactly the sorted list for every limit of at least 1 |
| Pagination.PageOutcome | backend/src/common/pagination/paginate.ts:33-40 | what each page holds and says: its rows, the total, and the number of pages they fill |
| Pagination.PagingIgnoresStorage | backend/src/common/pagination/paginate.ts:24-41 | the pages are the same whatever order the rows are stored in |
| Pagination.RangeCountsRows | frontend/src/design/Pagination.tsx:22-23 | the range shown counts the page's rows exactly on pages up to totalPages and on the page right after a full last one |
| Pagination.RangePastTheEnd | frontend/src/design/Pagination.tsx:22-23 | one row, one per page, page 3: an empty page whose range runs from 3 to 1 |
| Pagination.RangeNamesRows | frontend/src/design/Pagination.tsx:19-23 | on such a page it names the rows' positions, and Previous and Next are enabled exactly when rows remain on that side |

## Left out

- Deadlock freedom: parts are locked in request order, so two completions can block each other; the model lets any blocked transaction be aborted and claims nothing more.
- Serializability of asset status and maintenance plans: they are read without a lock. In the concurrent system the asset status a call read is an input; claims about histories and plans are made for whole calls as atomic steps.
- The lock an INSERT or DELETE takes on rows it refers to by foreign key, and the uniqueness of `sku`, `tag` and token hashes: a violation aborts, which every schedule already allows.
- The asset row that vanishes between a work order's insert and its completion cannot occur in the database (foreign key); the branch is kept in the model.
- 32-bit integer columns: a stock level or quantity the column cannot hold makes the database reject the statement; the model's integers are unbounded.
- Columns the properties do not need: priority, description, notes, `sku`, and in audit rows everything but statuses and part rows; the actor and source of an audit row; setting user ids to NULL when a user is deleted.
- The AI note and its timeout, which do not affect control flow; logging; events and queues.
- The latest-reading cache: it follows arrival order, the database fallback `recordedAt`.
- Calendar arithmetic: `daysFromNow` is taken as that many times 24 hours.
- Readings with an unparsable date.
- Cryptography and JWTs: a token is its row, and hashes do not collide. A guessed token is one that no row has, nor will have; it is refused.
- Misbehaviour of the same user elsewhere in `UserSessions` and `Composition`: presenting a token that is spent or already in use there calls reuse detection on all of the user's sessions, which is what the code is for.
- The refresh cookie's own expiry, requests without a cookie, a refresh response lost on its way back, and logout by the browser itself: `Composition` excludes them, and the properties there would not hold of the last two.
- Asset removal, and the other columns `update` changes: they do not touch the status history. Asset types and locations are not tables of the model: whether those of a new asset exist is an input.
- `findDue`, the paged list of due plans: it sorts by date alone, so its pages are not determined.
- Choosing the sort column from the allow-list and parsing the sort direction.
- Controllers, request validation (its bounds appear as preconditions: quantities of at least 1, a delta other than 0, a limit of at least 1), user, plant, type and location records, the rest of the user interface.
