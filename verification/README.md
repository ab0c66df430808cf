# Tenant protocols of the CRM backend

A Dafny model of the stateful protocols of the multi-tenant backend, with proofs of what they
promise. `dafny verify dfyconfig.toml` checks all of it.

| file | what it models |
|---|---|
| TablePaging.dfy | copying a table page by page when no query promises the order of the one before |
| VipSaga.dfy | migration to a dedicated database, delayed cleanup, decommission, with a fault at any statement |
| PluginGraph.dfy | dependency validation by depth-first search, and what the enable guard can ever reach |
| TenantPlans.dfy | toggles, tier defaults, tier changes and offboarding of one tenant |
| Outbox.dfy, OutboxTasks.dfy | the plugin event outbox as a machine of atomic steps, and the tasks that drive it |
| Automation.dfy | conditions and fan-out of one event into action rows |
| ActionRows.dfy, ActionTasks.dfy | the action rows, their poller and processor, likewise |
| Quota.dfy | the connection cap: shared slots, waiters holding them by reference |
| Interceptor.dfy, InterceptorTasks.dfy | tenant scoping, quota and query limit of pooled connections, likewise |
| PoolRegistry.dfy | pools per tenant and the scoped clients they hand out |
| Template.dfy, JsText.dfy | the `{{path}}` templates, and inserting a token at a cursor |
| RateLimit.dfy | the per-minute request limit |
| Hooks.dfy | the hook registry |
| Cache.dfy | the flat key space of the cache |
| Options.dfy | the absent value |

Concurrency is modelled at awaits: what runs between two awaits of a task is one atomic step. The
outbox, the action rows and the interceptor are each a machine of such steps, with invariants
over every run of any number of tasks; beside each machine, a `...Tasks` file has the tasks in the
code's own form, loops and early exits included, with arbitrary legal steps of the other tasks at
every await, and shows each task to be a run of the machine. One SQL statement or Redis command is
one atomic step. Faults are inputs: in the sagas a statement may take effect or not, and its caller may
hear of success, of an error, or die with the process; in the outbox, the action rows and the interceptor
a call may throw before or after it took effect. Clocks, page orders, the replies of SCAN and what other
tasks do are inputs too.

Where the code and its comments disagree, the model follows the code:

- the rate limiter is described as a sliding window (tenant-rate-limit.middleware.ts:12,52); it is a
  fixed one, and `RateLimit.TwiceLimitIsReached` shows the difference;
- a connection whose reset failed is released like any other, beside a comment that the pool discards it
  (QueryInterceptor.ts:90-93, PoolRegistry.ts:154-157); the pool discards broken ones only, and
  `Interceptor.ReadsOutsideIff` says what the others show;
- the failure handlers of the two automation processors carry no worker-event decorator, so they may
  never be called; the machines let them run or not, and the results hold either way.

## Model

| member | source | states |
|---|---|---|
| VipSaga.SagasLoseNothing | backend/src/workers/bullmq/processors/vip-migration.processor.ts:49-153 | in every serial run of migrations, cleanups and decommissions, each starting from any state, with the tenant's row changing in any way, its requests writing to the shared database whenever it is not gated, and any statement failing before or after it took effect: every row present at the latest gate is, payload and all, in the shared or the dedicated database after every event, and a migration or decommission that meets a live dedicated database loses no row of either; unless a decommission started where it can drop the database over a missing row or a pending cleanup, or a migration into a new database lost the acknowledgement of its cleanup |
| VipSaga.DecommissionLossIff | backend/src/workers/bullmq/processors/vip-decommission.processor.ts:35-92 | with no cleanup involved, a decommission can drop the database and lose a row if and only if the four counts can agree and the tenant wrote a row to the shared database after the migration that the dedicated one does not know |
| VipSaga.LosingPagingIff | backend/src/workers/bullmq/processors/vip-decommission.processor.ts:37-66 | the same condition for row orders: there are orders of the four copies under which all counts agree and a row is missed |
| VipSaga.DecommissionOverStranger | backend/src/workers/bullmq/processors/vip-decommission.processor.ts:26-93 | the processor itself, every statement succeeding, under such orders: it drops the only copy of a row |
| VipSaga.VerifiedReturns | backend/src/workers/bullmq/processors/vip-decommission.processor.ts:47-66 | after copies whose counts agree, every dedicated row is in the shared database if and only if the shared one had no row of the tenant that the dedicated one does not know |
| VipSaga.DropLosesIff | backend/src/workers/bullmq/processors/vip-decommission.processor.ts:83-87 | once the database is dropped, no row is lost if and only if every dedicated id came back: leftovers keep their shared version |
| VipSaga.CleanupLossIff | backend/src/workers/bullmq/processors/vip-shared-cleanup.processor.ts:40-63 | a cleanup on time can lose a row of the latest state if and only if the tenant wrote one to the shared database since the migration copied it |
| VipSaga.SafeThroughout | backend/src/workers/bullmq/processors/vip-migration.processor.ts:42-154 | the invariant behind it holds after every event: the gate's rows are the shared ones and no cleanup is pending, or the dedicated database is an exact copy of them, or a gated decommission is on its way back and every row still shows in the two databases together |
| VipSaga.MigrationKeepsSafe | backend/src/workers/bullmq/processors/vip-migration.processor.ts:53-150 | whatever a migration run may do, failed or not, keeps that invariant from every state: from the shared database it copies, and onto a live dedicated one it fails, and its rollback must leave that database and lose no row of either |
| VipSaga.DecommissionKeepsSafe | backend/src/workers/bullmq/processors/vip-decommission.processor.ts:35-92 | so does a decommission, gated or retried after the gate was lifted, unless its counts can agree while a row would be missing or a cleanup is pending: where it drops the dedicated database, equal counts force every row to be back |
| VipSaga.CleanupKeepsSafe | backend/src/workers/bullmq/processors/vip-shared-cleanup.processor.ts:46-63 | so does a cleanup, stopped after any table |
| VipSaga.WindowLossIff | backend/src/workers/bullmq/processors/vip-shared-cleanup.processor.ts:40-63 | with a cleanup that may follow: a decommission can lose a row if and only if its counts can agree and either the shared database has a row the dedicated one does not know or the cleanup was still pending over some row |
| VipSaga.DecommissionInsideWindow | backend/src/workers/bullmq/processors/vip-decommission.processor.ts:26-93 | the witness, by the processors themselves: decommissioned inside the 24 hours, every statement succeeding, the tenant ends with no row in either database |
| VipSaga.MigrationWithLostAck | backend/src/workers/bullmq/processors/vip-migration.processor.ts:117-149 | if the queue took the cleanup job but reported an error, the rollback drops the only copy that cleanup relies on, and all rows are lost |
| VipSaga.ProcessorsKeepOthers | backend/src/workers/bullmq/processors/vip-shared-cleanup.processor.ts:48-52 | no processor changes a row of another tenant |
| VipSaga.Cluster.Migrate | backend/src/workers/bullmq/processors/vip-migration.processor.ts:42-154 | a completed run leaves an exact copy, the registry row, the active status, no cap and one cleanup; a failed run whose rollback could work leaves the databases as they were and the old tier; a database that existed before is never dropped; a run leaves a cleanup pending without a dedicated database if and only if the queue took the job and reported an error, the restore did not die and the drop took effect |
| VipSaga.Cluster.TryMigrate | backend/src/workers/bullmq/processors/vip-migration.processor.ts:53-126 | the steps in order, none before the tenant is gated: only a run whose CREATE DATABASE succeeded counts as having created it, and a cleanup is queued only after the copy was verified and registered |
| VipSaga.Cluster.Rollback | backend/src/workers/bullmq/processors/vip-migration.processor.ts:127-149 | exactly which of tier, status and cap are restored by which faults, and the database is dropped only if this run created it; inside a failed transaction neither statement has an effect |
| VipSaga.Cluster.Register | backend/src/workers/bullmq/processors/vip-migration.processor.ts:102-112 | registry row and tenants update land together or not at all |
| VipSaga.Cluster.Decommission | backend/src/workers/bullmq/processors/vip-decommission.processor.ts:26-93 | the dedicated database goes only after copy, count check, tenants update, pool and registry; on a clean run it completes if and only if the counts agree |
| VipSaga.Cluster.VerifiedCopy | backend/src/workers/bullmq/processors/vip-decommission.processor.ts:37-66 | copy and counts: completed, each shared table is merged with the rows some paging returned and has as many rows as the dedicated one |
| VipSaga.Cluster.Finish | backend/src/workers/bullmq/processors/vip-decommission.processor.ts:68-87 | the order of the last five steps, with the drop last, and what each fault leaves |
| VipSaga.Cluster.Cleanup | backend/src/workers/bullmq/processors/vip-shared-cleanup.processor.ts:40-63 | deletes the tenant's rows table by table, dependents first, each table exactly when the ones before it were acknowledged, and nothing else; the job leaves the queue when it completes or for the last time fails |
| VipSaga.VerifyRowCounts | backend/src/workers/bullmq/processors/vip-migration.processor.ts:213-234 | succeeds if and only if the counts of all four tables agree and every count was answered |
| VipSaga.Cluster.FillDatabase | backend/src/workers/bullmq/processors/vip-migration.processor.ts:69-96 | schema, copy and counts: completed, the dedicated database holds exactly the tenant's rows |
| VipSaga.CopyTables | backend/src/workers/bullmq/processors/vip-migration.processor.ts:78-80 | the four tables, one after the other, into the fresh database |
| VipSaga.CopyBack | backend/src/workers/bullmq/processors/vip-decommission.processor.ts:37-45 | the four tables back; a failure leaves each partly merged and none damaged |
| VipSaga.StepKeepsSafe | backend/src/workers/bullmq/processors/vip-migration.processor.ts:49-153 | every event of a serial run keeps the invariant, from every home of the rows; only a decommission, and a migration into a new database, need their condition |
| VipSaga.SafeMeansNoLoss | backend/src/workers/bullmq/processors/vip-migration.processor.ts:49-153 | the invariant means that no row is lost |
| TablePaging.MigrateTable | backend/src/workers/bullmq/processors/vip-migration.processor.ts:193-211 | for any page order: a completed copy holds exactly the source rows beside what was there, after floor(n/500)+1 queries; with no failing statement it completes if and only if the pages repeat no row and meet none in the destination |
| TablePaging.MigratePage | backend/src/workers/bullmq/processors/vip-migration.processor.ts:201-208 | one query and its multi-row insert, which fails as a whole on a duplicate key; an empty page inserts nothing |
| TablePaging.ApartReturnsAll | backend/src/workers/bullmq/processors/vip-migration.processor.ts:201-209 | pages that repeat nothing return every row, by counting |
| TablePaging.FixedOrderIsApart | backend/src/workers/bullmq/processors/vip-migration.processor.ts:201-204 | under one fixed order the pages repeat nothing |
| TablePaging.DecommissionTable | backend/src/workers/bullmq/processors/vip-decommission.processor.ts:95-120 | for any page order, the destination is merged with exactly the rows returned, existing ids keeping their version |
| TablePaging.EmptyStartVerifies | backend/src/workers/bullmq/processors/vip-decommission.processor.ts:47-66 | from an empty start, equal counts make the shared rows equal to the dedicated ones, whatever the page orders |
| TablePaging.LeftoversVerify | backend/src/workers/bullmq/processors/vip-decommission.processor.ts:47-66 | with leftovers and one fixed order, equal counts make the id sets equal, leftovers keeping the shared version |
| TablePaging.UnseenLossIff | backend/src/workers/bullmq/processors/vip-decommission.processor.ts:95-120 | with leftovers, foreign rows and unstable paging, a row can be missed while the counts agree if and only if the counts can agree at all and some leftover is unknown to the dedicated table |
| TablePaging.RerunDivergesIff | backend/src/workers/bullmq/processors/vip-decommission.processor.ts:37-45 | a complete run from the start and a complete rerun after some partial copy can leave different tables if and only if there are more rows than one page and some row's id is not in the shared table yet |
| TablePaging.VerifiedRunsDivergeIff | backend/src/workers/bullmq/processors/vip-decommission.processor.ts:37-66 | two such runs that both pass the count check can leave different tables if and only if the counts can agree, the leftovers unknown to the dedicated table outnumber the taken ids, and there are fewer leftovers than rows |
| TablePaging.VerifiedRerunConverges | backend/src/workers/bullmq/processors/vip-decommission.processor.ts:37-72 | so with no unknown leftover, a rerun that passes the count check leaves the table a clean run that passes it leaves |
| TablePaging.PartlyIsDetermined | backend/src/workers/bullmq/processors/vip-decommission.processor.ts:108-115 | after any partial copies, equal ids of the tenant mean equal tables: no payload depends on the failure or on the page orders |
| TablePaging.RerunConverges | backend/src/workers/bullmq/processors/vip-decommission.processor.ts:37-45 | the step behind it: a rerun leaves the table of the clean run if and only if each missing row is returned by both or by neither |
| TablePaging.InsertPage | backend/src/workers/bullmq/processors/vip-migration.processor.ts:206-206 | a page goes in whole, or not at all when one of its ids is there |
| TablePaging.InsertRows | backend/src/workers/bullmq/processors/vip-decommission.processor.ts:108-115 | row by row, existing ids skipped, up to the first failure |
| TablePaging.DecommissionPage | backend/src/workers/bullmq/processors/vip-decommission.processor.ts:103-117 | one query and its inserts |
| TablePaging.CountsCanAgreeIff | backend/src/workers/bullmq/processors/vip-decommission.processor.ts:95-120 | the counts can agree under some page orders if and only if there are not too many unknown leftovers and foreign rows for the repeats of the pages, as the stated arithmetic says |
| TablePaging.MakeAgree | backend/src/workers/bullmq/processors/vip-decommission.processor.ts:95-120 | the page orders for that, constructed |
| TablePaging.MissedIffStranger | backend/src/workers/bullmq/processors/vip-decommission.processor.ts:47-66 | with equal counts a row is missed exactly when a leftover fills its place |
| TablePaging.IdsAfterCopy | backend/src/workers/bullmq/processors/vip-decommission.processor.ts:95-120 | the tenant's ids after a copy are the leftovers and the returned rows, without the ids the shared table has given to another tenant |
| PluginGraph.PluginDependencyService.ValidateGraph | backend/src/plugins/deps/plugin-dependency.service.ts:19-74 | a missing dependency is reported as often as it is declared, and no other; every reported cycle is a closed walk of the graph that repeats no plugin; every cycle of the graph has an edge that some report ends with, so that without the reported edges there is none; a cycle is reported if and only if there is one; no issue at all if and only if every registered plugin can be enabled by some accepted run |
| PluginGraph.PluginDependencyService.MissingDependencies | backend/src/plugins/deps/plugin-dependency.service.ts:22-33 | pass one reports a pair as often as the plugin declares it, exactly when the dependency is not registered |
| PluginGraph.PluginDependencyService.CircularDependencies | backend/src/plugins/deps/plugin-dependency.service.ts:35-71 | pass two adds only real cycles, and finishing order ranks every edge downwards but for the reported ones |
| PluginGraph.Search.Dfs | backend/src/plugins/deps/plugin-dependency.service.ts:41-65 | terminates, keeps gray nodes equal to the current path, finishes its node and turns nothing white again |
| PluginGraph.Search.VisitDependencies | backend/src/plugins/deps/plugin-dependency.service.ts:46-63 | after the loop every registered dependency is finished, or its edge was reported |
| PluginGraph.Search.Visit | backend/src/plugins/deps/plugin-dependency.service.ts:48-63 | a gray dependency lies on the path, so the fallback for an index below zero is unreachable; each one is reported, and the reported walk is a cycle |
| PluginGraph.ReportsBreakCycles | backend/src/plugins/deps/plugin-dependency.service.ts:41-65 | a graph whose edges descend in finishing order, but for the reported ones, has no cycle without a reported edge |
| PluginGraph.EnableableIffNotDoomed | backend/src/api/v1/admin/tenants/admin-tenants.service.ts:516-528 | a registered plugin can be enabled by some run of accepted enable calls if and only if it is not on or above a cycle or a missing dependency |
| PluginGraph.DoomedNeverEnabled | backend/src/api/v1/admin/tenants/admin-tenants.service.ts:516-558 | no run of toggles, disables included, ever enables a doomed plugin |
| PluginGraph.SoundIffAllEnableable | backend/src/plugins/deps/plugin-dependency.service.ts:19-74 | no cycle and nothing missing, if and only if every registered plugin is enableable |
| PluginGraph.RunsCompose | backend/src/api/v1/admin/tenants/admin-tenants.service.ts:516-528 | accepted enable-only runs compose, and enable the union |
| PluginGraph.PluginDependencyService.constructor | backend/src/plugins/deps/plugin-dependency.service.ts:15-17 | the last manifest of a name wins |
| PluginGraph.PluginDependencyService.GetMissingDeps | backend/src/plugins/deps/plugin-dependency.service.ts:76-81 | exactly the declared dependencies that are not enabled |
| PluginGraph.PluginDependencyService.GetBlockingDependents | backend/src/plugins/deps/plugin-dependency.service.ts:83-88 | exactly the enabled plugins that declare it as a dependency |
| PluginGraph.DoomComesFromBelow | backend/src/plugins/deps/plugin-dependency.service.ts:41-65 | a doomed plugin misses a dependency or depends on a doomed one |
| PluginGraph.StuckWalkDooms | backend/src/api/v1/admin/tenants/admin-tenants.service.ts:516-528 | following dependencies that nothing enables ends at a missing one or bites its own tail |
| PluginGraph.Search.Root | backend/src/plugins/deps/plugin-dependency.service.ts:67-71 | after the search from a name, the name is finished |
| TenantPlans.TierChangeClosedIff | backend/src/api/v1/admin/tenants/admin-tenants.service.ts:307-329 | a tier change keeps a closed enabled set closed if and only if the stated condition on the old set holds |
| TenantPlans.DowngradeCanBreakClosure | backend/src/api/v1/admin/tenants/admin-tenants.service.ts:307-329 | the witness: premium with automation enabled by hand is not closed after moving to basic |
| TenantPlans.SafeAfterRollback | backend/src/workers/bullmq/processors/vip-migration.processor.ts:127-137 | a failed vip migration puts the tier back and keeps the plugins of vip; from there a move is safe if and only if it is not to basic from premium or enterprise |
| TenantPlans.FailedVipBreaksClosure | backend/src/workers/bullmq/processors/vip-migration.processor.ts:127-137 | the witness, by the operations themselves and with no toggle: premium, a failed vip migration, then basic leaves automation without analytics |
| TenantPlans.DefaultsToDefaults | backend/src/api/v1/admin/tenants/admin-tenants.service.ts:308-329 | from exactly the old defaults the delta yields exactly the new ones |
| TenantPlans.DefaultsClosed | backend/src/api/v1/admin/tenants/admin-tenants.service.ts:19-24 | the default set of every tier is closed under dependencies |
| TenantPlans.BuiltInClosed | backend/src/plugins/manifest/built-in-manifests.ts:16-74 | closure over the built-in manifests, edge by edge |
| TenantPlans.AcceptedIffClosed | backend/src/api/v1/admin/tenants/admin-tenants.service.ts:516-558 | for any manifests, on a closed set a toggle is accepted exactly when it leaves a closed set, and a plugin that depends on itself cannot be switched at all |
| TenantPlans.ToggleRunsStayClosed | backend/src/api/v1/admin/tenants/admin-tenants.service.ts:497-579 | every run of accepted toggles keeps closure, for any manifests |
| TenantPlans.AdminRunsStayClosed | backend/src/api/v1/admin/tenants/admin-tenants.service.ts:149-579 | from provisioning on, every run of toggles, safe tier changes, failed vip migrations and offboardings is closed at every step |
| TenantPlans.PreviewIsExact | backend/src/api/v1/admin/tenants/admin-tenants.service.ts:589-622 | what the downgrade preview lists is what the change takes away, and it is never empty |
| TenantPlans.Tenant.constructor | backend/src/api/v1/admin/tenants/admin-tenants.service.ts:149-192 | provisioning ends active with exactly the defaults enabled |
| TenantPlans.Tenant.TogglePlugin | backend/src/api/v1/admin/tenants/admin-tenants.service.ts:497-579 | accepts exactly what the guard accepts, changes one row, keeping whether it was initialized, queues an init job on first enable, and otherwise names the missing or blocking plugins and changes nothing |
| TenantPlans.Tenant.Update | backend/src/api/v1/admin/tenants/admin-tenants.service.ts:250-374 | the plan by its name, the plugin delta with every row's initialization kept, the gate and the job of a move to or from vip, and the status rules otherwise; an invalid plan changes nothing; its plan is the step of an administration run |
| TenantPlans.Tenant.OffboardTenant | backend/src/api/v1/admin/tenants/admin-tenants.service.ts:386-430 | ends offboarded with nothing enabled and every row kept |
| TenantPlans.ToggleStaysClosed | backend/src/api/v1/admin/tenants/admin-tenants.service.ts:516-558 | an accepted toggle keeps closure |
| TenantPlans.SetEnabled | backend/src/api/v1/admin/tenants/admin-tenants.service.ts:314-321 | the upsert enables exactly the named plugins besides those enabled |
| TenantPlans.ClearEnabled | backend/src/api/v1/admin/tenants/admin-tenants.service.ts:322-328 | the update disables exactly the named ones and adds no row |
| Outbox.InvStep | backend/src/plugins/events/event-poller.service.ts:28-77 | every step of pollers, workers, failure handlers and crons keeps the locking, row, claim, job and fire invariants |
| Outbox.EventsAreKept | backend/src/plugins/events/event-poller.service.ts:28-77 | an unexpired event is in the table, and processed only if its triggers were fired at least once |
| Outbox.CountingBound | backend/src/plugins/events/event-infra.module.ts:25-33 | jobs of an event are at most its claims, claims at most one more than its resets, and fires at most three times that, counting resets by cron and by the failure handler |
| Outbox.ClaimsAreExclusive | backend/src/plugins/events/event-poller.service.ts:38-56 | concurrent pollers never hold the same row |
| Outbox.ClaimsAreSpaced | backend/src/workers/scheduler/cron.service.ts:155-167 | in every run, two claims of one event with no failure handler putting it back in between start more than fifteen minutes apart |
| Outbox.RowComesAndGoes | backend/src/plugins/events/event-registry.service.ts:25-32 | a row appears when its event is emitted, pending and for seven days, and disappears only when the purge finds it expired |
| Outbox.RowChanges | backend/src/plugins/events/event-poller.service.ts:38-56 | in between only a claim, a worker's mark and a reset change it, each as the statement says |
| Outbox.JobChanges | backend/src/plugins/events/event-infra.module.ts:25-33 | a job changes only by its own worker and handler, in their order; a failed attempt counts, and the third is the last |
| Outbox.JobAppears | backend/src/plugins/events/event-poller.service.ts:61-71 | a job is made by an enqueue call only, for its row and with all its attempts to come |
| Outbox.CallsChange | backend/src/plugins/events/event-poller.service.ts:61-71 | each row of a commit has one call to come, until it is made or lost |
| Outbox.OpenChanges | backend/src/plugins/events/event-poller.service.ts:38-56 | a claim opens with a selection, at the time it is made, and stays as it is until it ends |
| Outbox.LedgerCounts | backend/src/workers/scheduler/cron.service.ts:155-167 | the history that CountingBound speaks of counts the claims and the resets, and no others |
| Outbox.LedgerStarts | backend/src/plugins/events/event-registry.service.ts:25-32 | and starts with none, and with the expiry of the row |
| Outbox.CanStillBeDelivered | backend/src/workers/scheduler/cron.service.ts:155-167 | from every reachable state, an undelivered event with more than fifteen minutes to live can still be driven to processed |
| OutboxTasks.Backend.Poll | backend/src/plugins/events/event-poller.service.ts:28-77 | with other tasks acting at every await, a poll is a run of the machine; what it claims is a legal batch of the state it saw, it ends without a lock, and every claimed row gets a job unless a call threw: its enqueue call, or a commit that took effect all the same |
| OutboxTasks.Backend.AddOne | backend/src/plugins/events/event-poller.service.ts:61-71 | one enqueue call, after the commit: a job or a row left queued; a call that throws may have made the job |
| OutboxTasks.Backend.Process | backend/src/plugins/cores/automation/automation-event.processor.ts:30-43 | an attempt fires, then marks, waiting for a poller that holds the row; it counts one fire and is done; only a fault, before or after the call took effect, makes it count one failure instead, to be retried or exhausted |
| OutboxTasks.Backend.OnFailed | backend/src/plugins/cores/automation/automation-event.processor.ts:45-55 | once the attempts are used up, and unless its call throws without effect, the row becomes pending and every other row stays as it was |
| OutboxTasks.Backend.ResetStuckPluginEvents | backend/src/workers/scheduler/cron.service.ts:155-167 | of the rows it meets, those queued for more than fifteen minutes become pending, and every other row stays as it was |
| OutboxTasks.Backend.PurgeExpiredPluginEvents | backend/src/workers/scheduler/cron.service.ts:169-178 | of the rows it meets, those that have not expired stay as they were, and no other; it waits for the pollers that hold one; a call that throws may have had no effect |
| OutboxTasks.Backend.AwaitLocks | backend/src/plugins/cores/automation/automation-event.processor.ts:39-43 | a statement that writes rows held by pollers waits until their transactions have ended, in commit or rollback |
| OutboxTasks.OnlyOwnSteps | backend/src/plugins/events/event-poller.service.ts:28-77 | at an await the others may take any step but those of this task's own transaction, calls or job |
| OutboxTasks.EventRegistryService.Emit | backend/src/plugins/events/event-registry.service.ts:19-33 | a row is inserted exactly when the definition last registered under the name accepts the data and the insert does not throw: one pending row that expires in seven days; an insert that throws may have inserted it; otherwise nothing changes and the error says why |
| OutboxTasks.TasksStayReachable | backend/src/plugins/events/event-poller.service.ts:28-77 | so every result for reachable states holds after any mix of these tasks |
| OutboxTasks.Backend.SelectPending | backend/src/plugins/events/event-poller.service.ts:39-49 | fifty of the rows that are pending, unexpired and in no open claim with their tenant, in no promised order, or all of them |
| OutboxTasks.SelectIff | backend/src/plugins/events/event-poller.service.ts:39-49 | the machine selects exactly such batches, and none when there is nothing to select |
| OutboxTasks.Backend.Add | backend/src/plugins/events/event-poller.service.ts:61-71 | all calls are made, whichever of them fail, and the rows reported are those that have a job |
| OutboxTasks.EventRegistryService.Register | backend/src/plugins/events/event-registry.service.ts:15-17 | under every name stands the definition last registered for it, which is the one that emit asks |
| Automation.FireTriggerEvents | backend/src/plugins/cores/automation/automation.core.ts:103-138 | the rows are those of the matching triggers, trigger by trigger and action by action, with indexes and contents |
| Automation.OneRowEach | backend/src/plugins/cores/automation/automation.core.ts:103-138 | one row per active matching trigger of the event and action index, and no other row |
| Automation.MoreRulesFewerRows | backend/src/plugins/cores/automation/automation.core.ts:140-165 | adding rules to triggers, in any order, never adds rows |
| Automation.EvaluateConditions | backend/src/plugins/cores/automation/automation.core.ts:140-165 | true if and only if every rule passes, each operator by its meaning |
| Automation.FailsRule | backend/src/plugins/cores/automation/automation.core.ts:154-162 | each operator fails exactly when its meaning does not hold; an unknown one never does |
| Automation.RowComesFrom | backend/src/plugins/cores/automation/automation.core.ts:116-133 | every row belongs to a matching trigger and one of its actions |
| JsText.Includes | backend/src/plugins/cores/automation/automation.core.ts:157-157 | true if and only if the text occurs somewhere |
| JsText.TrimIsEmptyIffBlank | backend/src/plugins/cores/automation/automation.core.ts:159-160 | trimming leaves nothing if and only if there is only white space |
| JsText.SpaceChars | backend/src/plugins/cores/automation/automation.core.ts:159-160 | white space is the twenty-five characters that ECMA-262 counts as such |
| ActionRows.InvStep | backend/src/plugins/cores/automation/automation-action.poller.ts:42-80 | every step of pollers, workers and failure handlers keeps the invariants |
| ActionRows.OneJobPerRow | backend/src/plugins/cores/automation/automation-action.poller.ts:43-80 | a row yields at most one job, and none while an enqueue call for it is outstanding |
| ActionRows.AttemptsBounded | backend/src/plugins/cores/automation/automation-action.processor.ts:21-53 | attempts never exceed three, and completed implies that the handler returned |
| ActionRows.RowChanges | backend/src/plugins/cores/automation/automation-action.processor.ts:21-64 | a commit queues a row; an attempt is counted as it begins; the outcome and every failed attempt's handler mark it; nothing else changes it |
| ActionRows.JobChanges | backend/src/plugins/cores/automation/automation-action.processor.ts:21-64 | a job changes only by its own worker and handler, in their order; the third failed attempt is the last, and each owes a notice |
| ActionRows.RowAppears | backend/src/plugins/cores/automation/automation.core.ts:119-138 | a row appears pending and unattempted, and stays |
| ActionRows.JobAppears | backend/src/plugins/cores/automation/automation-action.poller.ts:63-80 | a job is made by an enqueue call only, for its row and with all its attempts to come |
| ActionRows.ClaimsChange | backend/src/plugins/cores/automation/automation-action.poller.ts:43-80 | rows are locked from the selection to the end of the transaction, and each row of a commit has one call to come |
| ActionRows.CompletableIffLive | backend/src/plugins/cores/automation/automation-action.poller.ts:42-80 | a row that is not completed can still be completed by some run if and only if it is pending, on its way into the queue, or has a job that can still run; oldest-first batches included |
| ActionRows.DeadStaysDead | backend/src/plugins/cores/automation/automation-action.processor.ts:21-64 | any other row is never attempted again in any run; at most it is marked failed |
| ActionRows.LostAddStrandsRow | backend/src/plugins/cores/automation/automation-action.poller.ts:63-80 | the witness: one lost enqueue call leaves a row queued, unattempted, for good, since nothing resets these rows |
| ActionRows.LiveCompletes | backend/src/plugins/cores/automation/automation-action.poller.ts:42-80 | the run that completes a live row, older rows first |
| ActionTasks.Backend.Poll | backend/src/plugins/cores/automation/automation-action.poller.ts:42-85 | claims the oldest rows of the state it saw and enqueues them in order after the commit; the first n have a job, and when a call throws, before or after it took effect, the rows without one are over, all of them if it was the commit; it ends without a lock, and with no fault every claimed row gets a job |
| ActionTasks.Backend.SelectOldest | backend/src/plugins/cores/automation/automation-action.poller.ts:44-51 | the fifty oldest unlocked pending rows, in order, or all of them |
| ActionTasks.SelectIff | backend/src/plugins/cores/automation/automation-action.poller.ts:44-51 | the machine selects exactly the fifty pending unlocked rows scheduled first, or all of them |
| ActionTasks.Backend.Process | backend/src/plugins/cores/automation/automation-action.processor.ts:21-53 | an attempt counts itself, and ends the job after handler and mark, or without the handler for a missing tenant; otherwise, and only after a fault, it counts one failure |
| ActionTasks.Backend.OnFailed | backend/src/plugins/cores/automation/automation-action.processor.ts:55-63 | marks the row failed, after any failed attempt |
| ActionTasks.Backend.Claim | backend/src/plugins/cores/automation/automation-action.poller.ts:43-61 | select, update and commit, with an await before each; nothing is claimed unless the commit took effect, and rows of a commit that threw are over |
| ActionTasks.Backend.Add | backend/src/plugins/cores/automation/automation-action.poller.ts:63-80 | one call after the other; the first that throws ends the loop, and its own row has a job if the queue took it |
| ActionTasks.Backend.Abandon | backend/src/plugins/cores/automation/automation-action.poller.ts:63-80 | the rows from there on are over |
| ActionTasks.Backend.Handle | backend/src/plugins/cores/automation/automation-action.processor.ts:30-50 | a missing tenant is recorded without calling the handler |
| ActionTasks.TasksStayReachable | backend/src/plugins/cores/automation/automation-action.poller.ts:42-85 | so every result for reachable states holds after any mix of these tasks |
| ActionTasks.OnlyOwnSteps | backend/src/plugins/cores/automation/automation-action.poller.ts:42-85 | at an await the others may take any step but those of this task's own transaction, calls or job |
| Quota.TenantQuotaEnforcer.Acquire | backend/src/dal/pool/TenantQuotaEnforcer.ts:46-61 | sleeps at most a hundred times; a grant comes from the slot captured on arrival, below its cap of the moment; a refusal comes after five seconds with that slot still full |
| Quota.TenantQuotaEnforcer.AcquireSync | backend/src/dal/pool/TenantQuotaEnforcer.ts:33-43 | passes exactly when there is no slot or room in it, and charges that slot alone |
| Quota.TenantQuotaEnforcer.Release | backend/src/dal/pool/TenantQuotaEnforcer.ts:63-66 | takes one from the live slot, never below zero; with nothing held it changes nothing |
| Quota.TenantQuotaEnforcer.Register | backend/src/dal/pool/TenantQuotaEnforcer.ts:23-27 | a fresh empty slot with the tier's cap replaces the old one; the exempt tier changes nothing |
| Quota.TenantQuotaEnforcer.UpdateCap | backend/src/dal/pool/TenantQuotaEnforcer.ts:68-80 | re-caps the slot in place, creates one, or removes it for the exempt tier; counts do not change |
| Quota.TenantQuotaEnforcer.Deregister | backend/src/dal/pool/TenantQuotaEnforcer.ts:82-84 | removes the slot |
| Quota.TenantQuotaEnforcer.Do | backend/src/dal/pool/TenantQuotaEnforcer.ts:23-84 | whatever task acts, a slot's count rises by one at a time and only from below its cap |
| Quota.TenantQuotaEnforcer.Run | backend/src/dal/pool/TenantQuotaEnforcer.ts:23-84 | over any run that sets no cap above m, a slot stays within m or does not rise from where it was |
| Quota.TenantQuotaEnforcer.SlotBounds | backend/src/dal/pool/TenantQuotaEnforcer.ts:20-84 | no slot, live or orphaned, exceeds the largest cap it was given; a live slot never counts more than the connections held, and exactly those when it was never replaced |
| Quota.ReplacedSlotDoublesCap | backend/src/dal/pool/TenantQuotaEnforcer.ts:23-27 | the witness: registering again lets a tenant hold twice its cap |
| Quota.TenantQuotaEnforcer.Grant | backend/src/dal/pool/TenantQuotaEnforcer.ts:52-60 | grants exactly when the count is below the cap |
| Interceptor.ReadsOwnRows | backend/src/db/migrations/20260222000001_init_schema.ts:128-144 | a query in a tenant's context reads exactly the rows of that tenant, whatever became of the resets before it |
| Interceptor.ReadsOutsideIff | backend/src/dal/interceptor/QueryInterceptor.ts:79-94 | a query outside any context can read some row if and only if its connection went back to the pool after a tenant's use with a reset that threw and changed nothing, and was not reset since |
| Interceptor.UnresetReadsRows | backend/src/dal/interceptor/QueryInterceptor.ts:84-93 | the witness: after one such reset, a query outside any context reads the tenant's rows |
| Interceptor.UnresetByFailure | backend/src/dal/interceptor/QueryInterceptor.ts:84-93 | in a run with no such reset, no connection keeps a tenant's setting |
| Interceptor.HeldCarriesHolder | backend/src/dal/interceptor/QueryInterceptor.ts:53-94 | a connection handed out in a context carries its tenant id, outside one it carries an id exactly when a release left it one; no other acquisition has the connection |
| Interceptor.SlotConservation | backend/src/dal/interceptor/QueryInterceptor.ts:62-76 | the slot of a tenant that never had another one, was not made while a connection of the tenant was held without a slot, and saw no release into or out of another tenant's context counts the connections held, those about to be handed out, and those rejected by the query limit after the grant |
| Interceptor.HeldWithinCap | backend/src/dal/pool/TenantQuotaEnforcer.ts:46-61 | so such a tenant holds no more connections than the largest cap its slot was given, each of them charged to that slot |
| Interceptor.StepWithinCap | backend/src/dal/pool/TenantQuotaEnforcer.ts:46-61 | every step of every task charges a slot by one at most, for one grant, and only from below its cap of the moment; only a new cap changes the cap |
| Interceptor.ScopedCaptures | backend/src/dal/interceptor/QueryInterceptor.ts:62-67 | on first sight of a tenant with a capped tier a slot with that cap; the slot captured is the live one, and only without one does the call pass uncharged |
| Interceptor.ReleaseDischarges | backend/src/dal/interceptor/QueryInterceptor.ts:80-82 | a release takes one from the live slot of the tenant of the context it is made in, not below zero, and from no other |
| Interceptor.SpoiltOnlyBy | backend/src/dal/interceptor/QueryInterceptor.ts:62-82 | a tenant leaves the scope of SlotConservation only when its slot is replaced or removed, or made beside connections without one, or a connection is released across its context |
| Interceptor.QuotaOperations | backend/src/dal/pool/TenantQuotaEnforcer.ts:23-84 | a registration makes an empty slot in place of the old one, a new cap goes to the slot there is, and the exempt tier removes it |
| Interceptor.UuidIff | backend/src/dal/interceptor/QueryInterceptor.ts:33-37 | the id check lets through exactly eight, four, four, four and twelve hexadecimal digits between dashes |
| Interceptor.SameUuidIff | backend/src/db/migrations/20260222000001_init_schema.ts:128-144 | two ids are the same uuid when their digits stand for the same numbers, upper or lower case |
| Interceptor.LimitExhaustsCap | backend/src/dal/middleware/QueryCounter.ts:23-29 | as many rejections as the cap allows leave the slot full |
| Interceptor.PoolConservation | backend/src/dal/interceptor/QueryInterceptor.ts:53-94 | connections checked out are those in use and those of acquisitions that threw after the pool gave them one |
| Interceptor.ThrewNeverReturns | backend/src/dal/interceptor/QueryInterceptor.ts:54-76 | such a connection stays out in every continuation |
| Interceptor.FiftyPerRun | backend/src/dal/context/TenantContext.ts:44-49 | the connections handed out in a run are the queries counted, up to fifty; a nested run counts for itself |
| Interceptor.RunOpens | backend/src/dal/context/TenantContext.ts:44-49 | a context opens for its tenant and tier with no query counted |
| Interceptor.InvStep | backend/src/dal/interceptor/QueryInterceptor.ts:43-95 | every step of every acquisition and release keeps all these invariants |
| Interceptor.SlotsScoped | backend/src/dal/interceptor/QueryInterceptor.ts:62-67 | registration on first sight and the grant keep the slot counts exact |
| Interceptor.SlotsReleased | backend/src/dal/interceptor/QueryInterceptor.ts:80-82 | a release in its own context takes one from the slot that was charged |
| InterceptorTasks.QueryInterceptor.AcquireConnection | backend/src/dal/interceptor/QueryInterceptor.ts:53-77 | with other tasks acting at every await, the call is a run of the machine; it hands out a connection in the context's name, granted within the cap of a slot of the tenant or past no slot at all, and withholds it only for a call that threw, a malformed id, five seconds of a full slot or a used-up run |
| InterceptorTasks.QueryInterceptor.ReleaseConnection | backend/src/dal/interceptor/QueryInterceptor.ts:80-94 | the connection ends idle without a tenant; only after a reset that threw is it discarded, or idle with the tenant's setting |
| InterceptorTasks.QueryInterceptor.Connect | backend/src/dal/interceptor/QueryInterceptor.ts:54-58 | the pool's acquire, and what runs up to the next await |
| InterceptorTasks.QueryInterceptor.Scope | backend/src/dal/interceptor/QueryInterceptor.ts:59-67 | set the tenant, register on first sight, ask the quota |
| InterceptorTasks.QueryInterceptor.Wait | backend/src/dal/interceptor/QueryInterceptor.ts:67-67 | waits for the captured slot, at most a hundred sleeps; a grant leaves the slot within its cap, and a refusal meets it full |
| InterceptorTasks.QueryInterceptor.CountQuery | backend/src/dal/middleware/QueryCounter.ts:23-29 | after the grant the query is counted, and past fifty in the run the call throws |
| InterceptorTasks.QueryInterceptor.Admit | backend/src/dal/interceptor/QueryInterceptor.ts:57-74 | in a tenant's context: the setting, the quota within its cap, then the counter, which hands out what the quota granted |
| PoolRegistry.PoolRegistry.GetPool | backend/src/dal/pool/PoolRegistry.ts:113-121 | the tenant's own pool if and only if it has one and its tier may use it, and otherwise the shared one; never the metadata pool |
| PoolRegistry.PoolRegistry.RegisterVipPool | backend/src/dal/pool/PoolRegistry.ts:81-89 | a malformed id is refused, and a second registration changes nothing |
| PoolRegistry.PoolRegistry.Scope | backend/src/dal/pool/PoolRegistry.ts:160-166 | hands the client out with its tenant set, or throws and hands out nothing |
| PoolRegistry.PoolRegistry.EndRelease | backend/src/dal/pool/PoolRegistry.ts:149-158 | a client returns to the pool with its setting reset, unless the reset threw and changed nothing; a release with an error discards it |
| PoolRegistry.PoolRegistry.HeldReadsOwnRows | backend/src/dal/pool/PoolRegistry.ts:139-167 | a query on a client handed out for a tenant reads exactly the rows of that tenant, whatever became of the resets before |
| PoolRegistry.PoolRegistry.UnscopedReadsIff | backend/src/dal/pool/PoolRegistry.ts:149-166 | on a client handed out for no tenant it can read some row if and only if the client was given back without a reset |
| PoolRegistry.PoolRegistry.Connect | backend/src/dal/pool/PoolRegistry.ts:143-145 | an idle client with what its last release left, or a new one; no other client changes |
| PoolRegistry.PoolRegistry.BeginRelease | backend/src/dal/pool/PoolRegistry.ts:148-153 | the holder gives the client back before its setting is reset |
| PoolRegistry.PoolRegistry.DeregisterVipPool | backend/src/dal/pool/PoolRegistry.ts:101-106 | removes the tenant's pool, if there is one |
| Template.InsertionIff | frontend/web/src/components/automation/template-string-input.tsx:73-82 | inserting a token gives, in every context, the resolution of the text before, the value, and the resolution of the text after, if and only if the text before leaves nothing open after its last closing brace |
| Template.ResolvesTheScan | backend/src/plugins/cores/automation/template-engine.ts:14-20 | the scanner computes the replacement of the leftmost non-overlapping matches, values inserted as they are |
| Template.ScanIsUnique | backend/src/plugins/cores/automation/template-engine.ts:14-14 | that list of matches is determined by the text |
| Template.ScanExists | backend/src/plugins/cores/automation/template-engine.ts:14-14 | and every text has one |
| Template.MatchEnd | backend/src/plugins/cores/automation/template-engine.ts:14-14 | the greedy matcher finds the match at a position if and only if there is one |
| Template.PlainTextUnchanged | backend/src/plugins/cores/automation/template-engine.ts:10-21 | text without an opening pair is left as it is |
| Template.SpliceToken | backend/src/plugins/cores/automation/template-engine.ts:10-21 | after a clean prefix a token stands for its value and nothing is expanded twice |
| Template.UncleanFails | backend/src/plugins/cores/automation/template-engine.ts:10-21 | after any other prefix the token is swallowed into a longer path, and the empty context shows the difference |
| Template.PickedValue | frontend/web/src/components/automation/variable-picker-popover.tsx:13-14 | a picked token stands for the field of the object |
| Template.MatchStandsFor | backend/src/plugins/cores/automation/template-engine.ts:14-20 | a match stands for the text of the value that the dotted parts of its path lead to, field by field, white space around the path apart, and for nothing when there is no value or a null |
| Template.BlankMatchStays | backend/src/plugins/cores/automation/template-engine.ts:16-16 | a match with a blank path is left as it is |
| Template.PathComposes | backend/src/plugins/cores/automation/template-engine.ts:1-8 | a longer path continues from where the shorter one leads |
| Template.SplitJoins | backend/src/plugins/cores/automation/template-engine.ts:2-2 | the parts of a path have no dot, and joined by dots they are the path |
| Template.ResolveParams | backend/src/plugins/cores/automation/template-engine.ts:23-32 | the result has the same keys; text values are resolved and others kept as they are |
| Template.CleanIff | backend/src/plugins/cores/automation/template-engine.ts:14-14 | leaving nothing open is: no position from which a match would run into a following token |
| Template.ResolveSeparate | backend/src/plugins/cores/automation/template-engine.ts:14-20 | texts between which no match reaches are resolved apart |
| Template.NothingInEmptyContext | backend/src/plugins/cores/automation/template-engine.ts:14-20 | in an empty context a token stands for nothing |
| RateLimit.AcceptedPerMinute | backend/src/gateway/middleware/tenant-rate-limit.middleware.ts:54-70 | of the requests of a tenant's minute, as many are accepted as the smaller of their number and the limit, if and only if no request of that minute found its counter expired or there were no more than the limit |
| RateLimit.PromptIsExact | backend/src/gateway/middleware/tenant-rate-limit.middleware.ts:54-70 | in particular when each is counted within its minute, whenever the expiry is set |
| RateLimit.OutlivesStep | backend/src/gateway/middleware/tenant-rate-limit.middleware.ts:60-63 | the time to live set on the first request never resets the counter inside its minute, whether or not it was set |
| RateLimit.AnyWindowBound | backend/src/gateway/middleware/tenant-rate-limit.middleware.ts:52-70 | any sixty seconds accept at most twice the limit and once more the limit for each restart of the two counters they meet, whenever the requests are counted |
| RateLimit.WindowBoundIsReached | backend/src/gateway/middleware/tenant-rate-limit.middleware.ts:52-70 | and that bound is reached, for every tier that has a limit and every number of restarts |
| RateLimit.AcceptedWithRestarts | backend/src/gateway/middleware/tenant-rate-limit.middleware.ts:54-70 | a minute's counter accepts at most the limit once and once more for each restart |
| RateLimit.AnyWindowTwiceLimit | backend/src/gateway/middleware/tenant-rate-limit.middleware.ts:52-70 | so at most twice the limit, unless one of the two counters restarts past it |
| RateLimit.TwiceLimitIsReached | backend/src/gateway/middleware/tenant-rate-limit.middleware.ts:52-58 | and twice the limit is reached, for every tier that has one |
| RateLimit.LateCountIsFree | backend/src/gateway/middleware/tenant-rate-limit.middleware.ts:58-65 | the witness: a request counted after its counter expired is accepted although the limit was used up |
| RateLimit.TenantRateLimitMiddleware.Use | backend/src/gateway/middleware/tenant-rate-limit.middleware.ts:35-71 | passes without counting when there is no tenant or the tier is exempt; otherwise passes exactly when the minute's count was below the tier's limit, counts the request, and gives a new counter sixty seconds from its EXPIRE, an old one none |
| RateLimit.NamesAreApart | backend/src/gateway/middleware/tenant-rate-limit.middleware.ts:54-56 | tenants and minutes never share a counter, whatever the tenant's id |
| RateLimit.AcceptedFrom | backend/src/gateway/middleware/tenant-rate-limit.middleware.ts:54-70 | from a counter at n that never restarts, the requests accepted are those up to the limit |
| RateLimit.WindowSplits | backend/src/gateway/middleware/tenant-rate-limit.middleware.ts:54-70 | what a window of sixty seconds accepts is at most what two minutes accept |
| Hooks.HookRegistryService.Register | backend/src/plugins/hooks/hook-registry.service.ts:32-39 | every key's list stays its registrations sorted by priority, and within a priority in registration order |
| Hooks.StableSortIsUnique | backend/src/plugins/hooks/hook-registry.service.ts:37-37 | sorted and agreeing priority by priority determines the list |
| Hooks.ListIsPermutation | backend/src/plugins/hooks/hook-registry.service.ts:32-39 | a list is a sorted permutation of what was registered |
| Hooks.OrderDoesNotMatter | backend/src/plugins/hooks/hook-registry.service.ts:32-39 | with distinct priorities the list does not depend on the order of registration |
| Hooks.EqualPrioritiesMatter | backend/src/plugins/hooks/hook-registry.service.ts:36-37 | with equal priorities it does |
| Hooks.GatedRunIsSubRegistry | backend/src/plugins/hooks/hook-registry.service.ts:46-50 | a run gated by enabled plugins is the ungated run of a registry that only those plugins registered with |
| Hooks.HookRegistryService.RunBefore | backend/src/plugins/hooks/hook-registry.service.ts:41-51 | calls exactly the entries whose plugin is enabled, or all without a list, each once, in list order and on the same data, each in the world the one before left, up to the first that throws |
| Hooks.HookRegistryService.RunAfter | backend/src/plugins/hooks/hook-registry.service.ts:53-63 | likewise |
| Hooks.HookRegistryService.RunFilter | backend/src/plugins/hooks/hook-registry.service.ts:65-77 | likewise, each entry given the value of the one before; the last value is the result |
| Hooks.KeyIsInjective | backend/src/plugins/hooks/hook-registry.service.ts:33-33 | different types or events never share a list |
| Hooks.SortByPriority | backend/src/plugins/hooks/hook-registry.service.ts:37-37 | a stable sort |
| Hooks.GateCommutes | backend/src/plugins/hooks/hook-registry.service.ts:46-50 | gating a sorted list is sorting the gated registrations |
| Cache.StoreHoldsLastWrites | backend/src/dal/cache/CacheManager.ts:38-113 | after any log of operations on clean ids, the flat store holds for every tenant, resource and id exactly the last write to it |
| Cache.LookupIsLastWrite | backend/src/dal/cache/CacheManager.ts:45-63 | so what is found under an entry's key is the value last set, while it lives |
| Cache.TenantIsolation | backend/src/dal/cache/CacheManager.ts:38-113 | what a tenant reads from the shared store is what it would read from a store of its own, whatever the others do, between the calls of its scans too |
| Cache.KeyIsInjective | backend/src/dal/cache/CacheManager.ts:40-40 | distinct entries have distinct keys when tenant and resource have no colon |
| Cache.ColonAliases | backend/src/dal/cache/CacheManager.ts:40-40 | a colon in a resource makes two entries share a key |
| Cache.ResourceKeys | backend/src/dal/cache/CacheManager.ts:89-89 | the pattern of a resource matches exactly the keys of that resource of that tenant |
| Cache.TenantKeys | backend/src/dal/cache/CacheManager.ts:107-107 | the pattern of a tenant matches exactly the keys of that tenant |
| Cache.LimiterKeys | backend/src/dal/cache/CacheManager.ts:107-107 | the limiter's pattern of a tenant matches the counters of that tenant for every minute, and no other's |
| Cache.UnrepliedIsDead | backend/src/dal/cache/CacheManager.ts:149-166 | a matching key that nobody set after the first call of a scan and that no reply named is dead by its end |
| Cache.StarTenantReachesAll | backend/src/dal/cache/CacheManager.ts:107-107 | a star for a tenant id matches every tenant's keys |
| Cache.CacheManager.ScanKeys | backend/src/dal/cache/CacheManager.ts:149-166 | collects exactly what the calls of one scan return, other tasks writing in between |
| Cache.CacheManager.InvalidateResource | backend/src/dal/cache/CacheManager.ts:87-95 | other tasks writing throughout, every entry of the resource nobody set meanwhile is gone, and every other entry and every key outside the prefix is as those tasks left it |
| Cache.CacheManager.FlushTenant | backend/src/dal/cache/CacheManager.ts:106-113 | other tasks writing throughout, the tenant's entries, its limiter counters for every minute, and its lookup are gone unless set meanwhile; the last write to every entry of another tenant, and what is found under every key not its own, is as those tasks left it |
| Cache.CacheManager.Get | backend/src/dal/cache/CacheManager.ts:45-51 | outside a tenant context it throws; otherwise the value of the last write to the entry in everything that reached the store, while it lives |
| Cache.CacheManager.Set | backend/src/dal/cache/CacheManager.ts:53-63 | afterwards the last write to the entry is this one and to every other entry what it was; outside a context, or with a time to live below one, nothing changes |
| Cache.PrefixPattern | backend/src/dal/cache/CacheManager.ts:154-160 | a literal prefix and a star match exactly the texts with that prefix |
| Cache.OtherKeyspaces | backend/src/dal/cache/CacheManager.ts:107-112 | limiter counters and lookups are no entries of any tenant |
| Cache.TenantsAreApart | backend/src/dal/cache/CacheManager.ts:38-113 | the last write to an entry is decided by its own tenant's operations |
| Cache.CacheManager.Del | backend/src/dal/cache/CacheManager.ts:65-68 | afterwards the entry has no last write, and every other clean entry has the one it had |
| Cache.CacheManager.DelForTenant | backend/src/dal/cache/CacheManager.ts:74-77 | likewise for the given tenant |
| Cache.CacheManager.Sweep | backend/src/dal/cache/CacheManager.ts:89-94 | scan for a pattern, then delete what was found, other tasks writing throughout: only matching keys are deleted, and a matching key nobody set after the first call is dead afterwards |

## Left out

- Columns: rows are an id and a payload, so the differences between the shared tables and the ones
  `createPluginSchema` makes are not modelled.
- Isolation levels: each SQL statement is atomic, and the tenant's requests do not change its shared rows
  while it is gated as migrating.
- VipSaga.SagasLoseNothing: speaks of the rows present when the tenant was last gated. It is false of rows
  written to the shared database between a migration and its cleanup (`VipSaga.CleanupLossIff` has the exact
  condition), and after the runs it excludes: a decommission over unknown rows or one that did not wait for
  the cleanup (`VipSaga.DecommissionLossIff`, `VipSaga.WindowLossIff`), and a lost acknowledgement
  (`VipSaga.MigrationWithLostAck`). A gate lifted in the middle of a return leaves the rows of the dedicated
  copy, since the tenant may then change the others. Two processors, or a processor and a request, at the
  same time are not modelled.
- `is_active` after the sagas (the processors do not restore it), and closing of knex instances and clients.
- Outbox.CanStillBeDelivered: takes the tenant of the event to exist; the poller joins the tenants
  table, and deletion of tenants is not modelled.
- BullMQ beyond three attempts: stalled-job re-runs, backoff, priorities and removal of old jobs.
- ActionRows.AttemptsBounded: says that the handler returned, not what its effects were; handlers are
  code behind a registry.
- Quota.TenantQuotaEnforcer.Acquire: takes a timer that does not fire early, as the bound on sleeps needs.
- The size of the connection pools, the time limits of their own acquire and what it does before it throws,
  and user code that sets `app.tenant_id` itself.
- PoolRegistry.PoolRegistry.HeldReadsOwnRows: takes the pool's role to be subject to the row policy, as the
  one of 20260310000010_create_app_user.ts is; a superuser, such as the `crm` of backend/.env.example:10,
  bypasses it and reads all rows. The same holds for Interceptor.ReadsOwnRows. The sagas take the opposite: the role
  of the metadata pool sees and writes the rows of every tenant.
- PoolRegistry.PoolRegistry.Scope: holds for any interleaving because every step keeps the invariant; the draining of
  a removed pool is not modelled.
- RateLimit.AcceptedPerMinute: takes a tenant to have one tier throughout the minute, since the limit is
  looked up on each request.
- OutboxTasks.EventRegistryService.Emit: the schema is a test of the data; the name, plugin and payload
  columns of the row are not modelled.
- Hooks: registration during a run, and priorities that are not numbers; handlers are functions of the
  world and the data.
- Template: string conversion of values and inherited properties of the context; a value carries its text.
- Cache: Redis calls that fail, but for the time to live that Redis rejects; what SCAN promises, that a key
  alive from its first call to its last is returned, is taken as given; escapes and character classes in
  patterns, which clean ids do not contain; MessagePack; the lookup entry by subdomain, which a flush
  leaves behind.
- Audit messages, cache invalidation, metrics, logging and provisioning mails around the admin operations.
- Pure request handling: controllers, authentication, CRUD of triggers, tenants and users, DLQ consumers,
  queue-depth reports, seeds and migrations other than the row policy.
