# A verified model of the asynchronous VM lifecycle

The control plane (`main-api`) accepts lifecycle requests, records each as an instance row, a task row and an outbox
row in one transaction, and publishes the outbox through a leased relay. The agent (`vm-manager`) executes commands
against qemu and the network, deduplicates them by request id, retries them a bounded number of times and reports
result events. This project models that protocol as one transition system and proves what it is meant to guarantee:

* every reachable state follows the one-active-task protocol, a success leaves exactly what was asked
  for, and every failure route undoes a request exactly;
* quotas and host capacity hold along every run free of unchecked steps, and along a run with such steps if and only
  if each of them finds the room it needs;
* results may arrive in any order across tasks, repeated or late, without changing the outcome, and the first final
  one is what the task shows ever after;
* a canceled running task always has a cancel command of its own on the way to the agent;
* a sweep times out exactly the tasks left unanswered for longer than the timeout, a hundred at a time;
* the outbox conserves its messages through crashes, respects leases and waiting times, and no queued task stays
  queued, whatever else the run does;
* the agent's deduplication and retry loop make at-least-once delivery look like exactly-once execution, and a command
  the machine can serve succeeds as soon as an attempt meets no fault, unless a process was left in its way;
* end to end, the tables agree with the agent's state files - status, address, cpu, memory, disk - under loss,
  duplication and reordering, and a task given up by cancel, timeout, sweep or canceled event breaks that agreement
  under an exact condition, whether its command is handled before, afterwards or never.

## How it is organised

| file | contents |
|---|---|
| `Model.dfy` | rows, messages, configuration; Python's `or` on optional strings |
| `Accounting.dfy` | the incremental quota and capacity checks, the two SQL views, and their agreement |
| `ControlPlane.dfy` | what each transaction commits, as functions on a snapshot of the tables |
| `Outbox.dfy` | outbox row updates and one relay dispatch, as functions |
| `Database.dfy`, `Handlers.dfy` | the tables as a mutable object; repositories and transactions step by step, proved against `ControlPlane` |
| `Relay.dfy` | the drain loop of the relay as mutable code, proved to be a run of the transition system |
| `Draining.dfy` | what such a run does while the clock stands still |
| `Protocol.dfy` | actions, runs, and the protocol invariant |
| `Requests.dfy` | one normal form for the six requests that create a task |
| `Invariant.dfy` | every action keeps the invariant |
| `Lifecycle.dfy` | monotone statuses, final deletion, failure round trips, retry chains |
| `Results.dfy` | confluence of result events; the first terminal event wins |
| `Sweeping.dfy` | task and outbox pairing, and the stale-task sweep |
| `Effects.dfy` | requests, results, undone creates and quota changes, told in the columns they write |
| `Canceling.dfy` | cancel requests, and the cancel command of every cancellation under way |
| `Safety.dfy` | quota and capacity safety over runs |
| `Delivery.dfy` | the outbox over runs: conservation, at-least-once, progress |
| `Leases.dfy` | claims and dispatches in plain terms; nobody touches a row before its time |
| `Agent.dfy`, `Manager.dfy` | the agent as functions with its dedup and convergence theorems, and as mutable machines |
| `Progress.dfy` | which commands a machine can serve, and when retrying helps |
| `EndToEnd.dfy` | both services and the broker together: status and address |
| `Resources.dfy` | cpu, memory and disk end to end |
| `Reporting.dfy` | from the agent's reply to the task row |

Tables are sequences: a row's id is its position, so a fresh uuid is the next position. Request ids come from a
counter. Time is a natural number that only grows. Every transaction is one step; the relay keeps its claimed batch
in memory and may crash between any two of its transactions, before or after the broker has taken a message.
Randomness (retry jitter), publish outcomes and the failures of external calls are parameters, universally quantified.

## Model

| member | source | states |
|---|---|---|
| Accounting.AssertQuota | main-api/app/adapters/resource_accounting.py:102-185 | no error exactly when the tenant exists, is active, has a quota, and the next usage fits all four limits |
| Accounting.AssertCapacity | main-api/app/adapters/resource_accounting.py:32-95 | no error exactly when the host is known and the next usage fits its cpu, memory and disk |
| Accounting.ProfileAgreesWithViews | main-api/app/application/commands/instance_commands.py:554-559 | the profile derived from a row charges exactly what the views count for that row, for every status and reservation |
| Accounting.PutMovesTenantUsage | main-api/migrations/001_init.sql:328-337 | writing one row moves the recomputed usage of any tenant by exactly the difference of the two rows |
| Accounting.PutMovesHostUsage | main-api/migrations/001_init.sql:318-327 | the same for the reservations of any host |
| Accounting.TenantsAndHostsCountTheSame | main-api/migrations/001_init.sql:318-337 | for every instance table each column summed over tenants equals the same column summed over hosts |
| Requests.NormalForm | main-api/app/application/commands/instance_commands.py:47-552 | a request is accepted if and only if its guards hold and its check passes; then it commits one row, one task and one outbox row, otherwise it commits nothing |
| Requests.RetryNormalForm | main-api/app/application/commands/task_commands.py:134-215 | the same for retry: guards, check and a complete payload decide acceptance, and the new task repeats command and snapshot |
| Effects.AcceptedRequestCommits | main-api/app/application/commands/instance_commands.py:47-552 | the reply, the new task, the new outbox row and the pending instance row of an accepted request, column by column; nothing else changes |
| Effects.RejectionTellsWhy | main-api/app/application/commands/instance_commands.py:47-552 | a rejected request changes nothing and its error names a failed condition: not found exactly when the target is missing; a conflict an active task; quota before capacity; a retry never fails on its payload |
| Invariant.PendingIffActiveTask | main-api/app/adapters/postgres_repositories/task.py:22-33 | under the invariant an instance is pending if and only if it has an active task, and then the row and that task name each other |
| Invariant.AtMostOneActiveTask | main-api/app/adapters/postgres_repositories/task.py:22-33 | two active tasks of one instance are the same task |
| Invariant.EnqueueInserts | main-api/app/adapters/postgres_repositories/outbox.py:23-70 | in reachable states the conflict clause never fires: an enqueue always appends its row |
| Invariant.StepKeepsInv | main-api/app/application/services/task_result_processor.py:39-102 | every action, from requests and results to relay steps and sweeps, keeps the protocol invariant |
| Invariant.RunKeepsInv | main-api/app/application/services/task_instance_state.py:10-161 | every run keeps it |
| Invariant.ReachableStatesFollowTheProtocol | main-api/app/application/commands/instance_commands.py:158-531 | in every reachable state: pending if and only if one active task, which is `last_task_id` and has the matching command; reservation and `deleted_at` follow the status |
| Results.EventsOfDifferentTasksCommute | main-api/app/application/services/task_result_processor.py:44-102 | two events of different tasks give the same tables in either order |
| Results.ResultsAreConfluent | main-api/app/application/services/task_result_processor.py:44-102 | two event lists with the same per-task subsequences fold to the same tables |
| Results.FirstTerminalEventWins | main-api/app/application/services/task_result_processor.py:50-58 | dropping every event after the first terminal event of its task changes nothing |
| Effects.ResultIsTold | main-api/app/application/services/task_result_processor.py:39-102 | an event changes nothing unless it is supported and its task known and not over; then the task is failed with the code and attempts of the event, canceled with its code or `CANCELED`, succeeded without code, or running unless a cancellation waits; only that task and its instance change |
| Effects.FinalResultStands | main-api/app/application/services/task_result_processor.py:50-102 | what the first final event said about its task, the task shows after any further run |
| Effects.OutcomeTells | main-api/app/application/services/task_result_processor.py:39-55 | an event is delivered again exactly when its task is unknown and it is less than 60 seconds old, ignored when older or when the task is over, put aside exactly when unsupported in reachable states; only an applied event changes anything |
| Sweeping.ExactlyOneCommandRow | main-api/app/application/commands/task_commands.py:191-208 | each task has exactly one outbox row for its command, it carries the task's request id, and no other row does |
| Sweeping.StaleTaskWasPublishedOrFailed | main-api/app/runtime/workers/stale_task_monitor.py:81-119 | a task is selected if and only if it is queued, old, and its own row was sent before the cutoff or failed; never while its command waits to be published |
| Sweeping.ListingIsUnanswered | main-api/app/runtime/workers/stale_task_monitor.py:75-119 | the listing holds exactly the tasks queued for longer than the timeout in seconds whose command has failed or was sent longer ago than that |
| Sweeping.SweepTimesOutExactly | main-api/app/runtime/workers/stale_task_monitor.py:74-150 | in every reachable state a sweep fails with `TIMEOUT` exactly those of them that have fewer than 100 before them; every other task stays as it is |
| Sweeping.StaleAmongIsExact | main-api/app/runtime/workers/stale_task_monitor.py:106-119 | the selection lists exactly the stale tasks, each once, in creation order |
| Sweeping.PickIsStale | main-api/app/runtime/workers/stale_task_monitor.py:106-119 | one sweep picks min(n, 100) distinct stale tasks, a prefix of the selection |
| Sweeping.PickIsOldestFirst | main-api/app/runtime/workers/stale_task_monitor.py:115-116 | no stale task older than a picked one is skipped |
| Sweeping.FailAllEffect | main-api/app/runtime/workers/stale_task_monitor.py:128-147 | failing a list of queued tasks one by one changes each listed task and the row of its own instance, and nothing else |
| Sweeping.SweepOrderIrrelevant | main-api/app/runtime/workers/stale_task_monitor.py:128-147 | any order of the same tasks gives the same tables |
| Sweeping.SweepEffect | main-api/app/runtime/workers/stale_task_monitor.py:74-150 | the picked tasks fail, their pairwise distinct instances leave their pending status, no other row changes |
| Sweeping.SweepTimesLeaves | main-api/app/runtime/workers/stale_task_monitor.py:106-150 | after k sweeps at a fixed cutoff exactly the first 100k stale tasks are gone from the selection |
| Sweeping.BacklogIsCleared | main-api/app/runtime/workers/stale_task_monitor.py:106-150 | ceil(n / 100) sweeps clear n stale tasks |
| Safety.RequestCovered | main-api/app/application/commands/task_commands.py:150-190 | for requests that pass their guards: each one outside the unseen class is covered by a check on what it adds, each one inside it strictly raises usage |
| Safety.CheckComputesTheViews | main-api/app/adapters/resource_accounting.py:67-88 | for create, start, non-stopped update and their retries the `next_*` values are the view aggregates recomputed after the write: of the tenant always, of the host when the request names the host of the row |
| Safety.RevertUsage | main-api/app/application/services/task_instance_state.py:91-161 | undoing an active task raises usage if and only if it undoes a delete or an update that had shrunk the row |
| Safety.StepKeepsLimits | main-api/app/application/commands/tenant_commands.py:151-172 | every step that is not unchecked, rejected requests and quota changes included, keeps all quotas, and the capacity of every host when a request names the host of the row it writes |
| Safety.CheckedRunsKeepLimits | main-api/app/adapters/resource_accounting.py:32-185 | every run without unchecked steps, whatever it rejects, keeps the four quotas of every tenant, and the three capacities of every host when each request names the host of its row |
| Safety.SingleHostKeepsCapacity | main-api/app/adapters/resource_accounting.py:32-95 | in a one-host deployment every run without unchecked steps keeps that host's capacity, whatever it rejects |
| Safety.RequestKeepsLimitsIff | main-api/app/application/commands/task_commands.py:134-215 | after any accepted request the tenant's quota and the row's host hold if and only if they have room for the written row in place of the old one |
| Safety.UncheckedRequestKeepsLimitsIff | main-api/app/application/commands/instance_commands.py:243-306 | for every kind of unchecked request the limits survive if and only if they have room for the row counted in full |
| Safety.StopOfStoppedKeepsLimitsIff | main-api/app/application/commands/instance_commands.py:243-306 | a stop of a stopped instance is accepted unchecked; quota and capacity survive if and only if they had room for its cpu and memory |
| Safety.UpdateOfStoppedKeepsQuotaIff | main-api/app/application/commands/instance_commands.py:446-552 | an accepted update of a stopped instance keeps the quota if and only if the new cpu and memory fit on top of current usage |
| Safety.UpdateOfStoppedKeepsCapacityIff | main-api/app/application/commands/instance_commands.py:446-552 | the same for the capacity of the row's host, whichever configured host the request names; only a request naming the row's host has its disk checked there |
| Safety.StopRetryKeepsLimitsIff | main-api/app/application/commands/task_commands.py:134-215 | a retried stop of a stopped or failed instance keeps the limits if and only if there is room for what the row does not count yet |
| Safety.NoBootUpdateRetryKeepsQuotaIff | main-api/app/application/commands/task_commands.py:225-241 | a retried update without boot keeps the quota if and only if cpu and memory fit when counted as running |
| Safety.FailedDeleteKeepsLimitsIff | main-api/app/application/services/task_instance_state.py:153-161 | a failed or canceled delete keeps the limits if and only if the whole previous spec fits again |
| Safety.FailedUpdateKeepsLimitsIff | main-api/app/application/services/task_instance_state.py:115-125 | a failed or canceled update keeps the limits if and only if the previous spec fits in place of the written one |
| Safety.SweepKeepsLimitsIff | main-api/app/runtime/workers/stale_task_monitor.py:128-147 | a sweep keeps a tenant's quota and a host's capacity if and only if each column has room for the sum of what the undone rows add |
| Safety.StepKeepsLimitsIff | main-api/app/adapters/resource_accounting.py:32-185 | any legal step from a state within the limits stays within them if and only if it is covered by a check or finds the room it needs |
| Safety.LimitsHoldThroughoutIff | main-api/app/adapters/resource_accounting.py:32-185 | for every run: all quotas, and all capacities when hosts are asked for, hold at every prefix if and only if each step no check has covered finds the room it needs in the state it meets |
| Lifecycle.StepClimbs | main-api/app/adapters/postgres_repositories/task.py:123-258 | a step keeps a task's identity and its status stays or climbs queued < running < cancel_pending < terminal |
| Lifecycle.StatusChangesAtMostThreeTimes | main-api/app/application/services/task_result_processor.py:50-58 | along every run a status changes at most three times and a terminal one never |
| Lifecycle.RunKeepsAccounts | main-api/app/adapters/postgres_repositories/task.py:123-258 | along every run attempts are at least 1 once running, success carries no error code, a cancellation always carries one |
| Lifecycle.StepFollowsTask | main-api/app/application/services/task_instance_state.py:91-161 | while a task is active its instance row is frozen, and when it fails or is canceled the row is the undone one |
| Lifecycle.DeletedForever | main-api/app/application/commands/task_commands.py:138-146 | a deleted row never changes again under any run |
| Lifecycle.FailureRoundTrip | main-api/app/application/services/task_instance_state.py:91-161 | request, any run, then any failure route: start and stop restore the row with only `last_task_id` cleared; update and delete restore spec and address, clear `last_task_id`, reserve the resources and set `error` |
| Effects.FailedCreateReleasesEverything | main-api/app/application/services/task_instance_state.py:97-106 | a create undone by any step leaves its instance in `error` with no task, no address and nothing reserved |
| Lifecycle.SuccessRoundTrip | main-api/app/application/services/task_result_processor.py:104-167 | request, any run that keeps its task active, then its success event: the instance row is exactly the requested one |
| Lifecycle.RetryUndoRestoresIffSnapshotIsCurrent | main-api/app/adapters/postgres_repositories/task.py:200-229 | a failed retry restores the row it found if and only if the snapshot it inherited is still current |
| Lifecycle.DefaultSpecIsNeverUsed | main-api/app/application/services/task_instance_state.py:108-113 | undoing an update or delete always restores the recorded spec, never the default one |
| Lifecycle.ChainSharesSnapshot | main-api/app/adapters/postgres_repositories/task.py:200-229 | a retry chain of any length keeps instance, command and snapshot of its first task |
| Lifecycle.RetriesRepublishTheOriginal | main-api/app/application/commands/task_commands.py:243-279 | each retry publishes the original payload under a request id of its own, if and only if the payload did not name the empty host (or the instance's host is empty too) |
| Lifecycle.RetryIsFresh | main-api/app/application/commands/task_commands.py:181-208 | an accepted retry uses a request id that no outbox row carries |
| Canceling.CancelOfRunningTellsAgent | main-api/app/application/commands/task_commands.py:74-98 | canceling a running task marks it and adds exactly one queued cancel command, naming the task, under a request id that no row and no task has |
| Canceling.CancelOfQueuedEndsIt | main-api/app/application/commands/task_commands.py:51-73 | canceling a queued task ends it with `CANCELED`, undoes its instance and publishes nothing |
| Canceling.OtherCancelsChangeNothing | main-api/app/application/commands/task_commands.py:99-109 | canceling again answers the current status, canceling a finished or unknown task is rejected, and neither changes anything |
| Canceling.RunKeepsCancels | main-api/app/application/commands/task_commands.py:74-98 | along every run each task waiting for its cancellation has a cancel command on the outbox, and no task has two |
| Canceling.CancellationsReachTheOutbox | main-api/app/application/commands/task_commands.py:74-98 | so in every reachable state exactly one, whose request id is nobody else's |
| Outbox.DueAmongIsExact | main-api/app/adapters/postgres_repositories/outbox.py:82-92 | the due listing contains exactly the due rows, each once, in order |
| Outbox.ClaimIsOldestFirst | main-api/app/adapters/postgres_repositories/outbox.py:82-105 | whatever order the database resolves ties and returns rows in, a claim leaves behind no due row older than a claimed one |
| Outbox.RetryDelayBounds | main-api/app/runtime/workers/outbox_relay.py:131-134 | the delay before attempt k + 1 lies in [min(R, 2^k), R + 1], and exceeds min(R, 2^k) only at the upper end of the jitter; `Leases.DispatchHandlesHead` says that this is the delay of a failed publish |
| Outbox.BackoffDoubles | main-api/app/runtime/workers/outbox_relay.py:131-134 | apart from jitter the delay is 2 seconds after the first failure and doubles until it reaches the maximum |
| Leases.DispatchHandlesHead | main-api/app/runtime/workers/outbox_relay.py:100-134 | a dispatch handles the head of the batch only: sent now with its attempts unchanged, or one attempt more and failed for good or due again between min(R, 2^k) and R + 1 seconds later, k being its new attempt count |
| Leases.ClaimTakesAvailable | main-api/app/adapters/postgres_repositories/outbox.py:72-105 | a claim takes queued rows that are due and rows under expired leases, as many as there are up to the batch size, leases them for exactly the lock timeout, and requeues or leaves alone every other row |
| Leases.NobodyComesEarly | main-api/app/adapters/postgres_repositories/outbox.py:72-105 | in any run a row is neither changed nor claimed before its due time, nor, unless its holder dispatches it, before its lease is over |
| Leases.BackoffIsRespected | main-api/app/runtime/workers/outbox_relay.py:118-134 | after its k-th failed publish a row is left alone for min(R, 2^k) seconds, whatever the run does |
| Relay.OutboxRelay.Dispatch | main-api/app/runtime/workers/outbox_relay.py:100-129 | publish and mark; on any failure one attempt is used up and the row is failed, or due again within the stated bounds of its new attempt count |
| Relay.OutboxRelay.ClaimRound | main-api/app/runtime/workers/outbox_relay.py:80-91 | a round, however much time has passed, is a clock step and a claim of the transition system; an empty batch means that nothing is ready |
| Relay.OutboxRelay.DispatchAll | main-api/app/runtime/workers/outbox_relay.py:93-97 | the inner loop hands the batch to the broker in order, time passing in between, until the stop flag is seen; the rest stays claimed, and each publish uses up an attempt |
| Relay.OutboxRelay.DrainAvailable | main-api/app/runtime/workers/outbox_relay.py:77-98 | whatever the broker does, however time passes and wherever the stop flag strikes, a drain is a run of the transition system whose publishes are the broker's calls in order and number; it ends, and unless stopped it leaves nothing ready |
| Draining.DrainStaysOnTrack | main-api/app/runtime/workers/outbox_relay.py:77-98 | at every point of a drain on a standing clock the table shows exactly the rows handled and the rows held so far |
| Draining.StandingClockDrainIsExact | main-api/app/runtime/workers/outbox_relay.py:77-98 | on a standing clock no row is published twice and none that is not ready; a finished drain has published every ready row exactly once, touched no other, and its table does not depend on batch size or claim order |
| Delivery.RunKeepsRelayOk | main-api/app/adapters/postgres_repositories/outbox.py:72-192 | queued, publishing and sent rows have attempts left, failed rows have none, and every claimed copy is current, along every run with crashes |
| Delivery.ClaimsAreOldestFirst | main-api/app/adapters/postgres_repositories/outbox.py:82-105 | in every reachable state a claim takes the oldest due rows, as many as the batch holds |
| Delivery.LedgerBalances | main-api/app/adapters/postgres_repositories/outbox.py:72-192 | each dispatch uses one attempt; each claim ends in a dispatch, a recovery, or is still held |
| Delivery.ClaimsAreConserved | main-api/app/adapters/postgres_repositories/outbox.py:72-192 | claims = attempts + [sent] + recoveries + [publishing] for every row of every run |
| Delivery.SettledForever | main-api/app/adapters/postgres_repositories/outbox.py:107-125 | a sent or failed row never changes again |
| Delivery.SentWasPublished | main-api/app/runtime/workers/outbox_relay.py:100-111 | a row that became sent was handed to the broker at least once |
| Delivery.DispatchBudget | main-api/app/runtime/workers/outbox_relay.py:118-129 | a row is dispatched at most `max_attempts` times, and after that many it is sent or failed, whatever else the run does |
| Delivery.RelaySettlesEverything | main-api/app/runtime/workers/outbox_relay.py:66-98 | whatever each publish does, as many relay rounds as attempts are left settle every row |
| Delivery.RoundIsARun | main-api/app/runtime/workers/outbox_relay.py:77-129 | such a round is a run of the transition system: clock, claim, dispatch |
| Delivery.SettledTaskLeavesQueue | main-api/app/runtime/workers/stale_task_monitor.py:74-150 | once the command row is settled, the timeout and then ceil(n / 100) sweeps in a row take the task out of `queued` |
| Delivery.NoQueuedTaskIsStuck | main-api/app/runtime/workers/stale_task_monitor.py:74-150 | along the relay's own schedule, from any reachable state: as many rounds as attempts are left, the timeout, and sweeps leave no task queued |
| Delivery.OverdueTaskLeavesQueue | main-api/app/runtime/workers/stale_task_monitor.py:106-150 | in any run, whatever happens between the sweeps: t / 100 + 1 sweeps take task t out of `queued` once its row has expired |
| Delivery.NoQueuedTaskIsStuckInAnyRun | main-api/app/runtime/workers/stale_task_monitor.py:74-150 | in any run in which the row of task t is dispatched as often as it has attempts left or is settled otherwise, then more than the timeout passes, then t / 100 + 1 sweeps take place, the task is out of `queued` |
| Database.Database.UpdateSpec | main-api/app/adapters/postgres_repositories/instance.py:50-79 | writes exactly the listed columns of the row, or reports it missing |
| Database.Database.UpdateState | main-api/app/adapters/postgres_repositories/instance.py:81-106 | the same without the spec columns |
| Database.Database.CloneForRetry | main-api/app/adapters/postgres_repositories/task.py:200-229 | appends a queued copy of the source task that links back to it |
| Database.Database.MarkTerminal | main-api/app/adapters/postgres_repositories/task.py:231-258 | writes status, attempts and error code of one task |
| Database.Database.EnqueueCommand | main-api/app/adapters/postgres_repositories/outbox.py:23-70 | appends a queued row unless the same (task, topic, request) is there |
| Database.Database.RecoverStuckPublishing | main-api/app/adapters/postgres_repositories/outbox.py:173-192 | requeues exactly the rows under expired leases and counts them |
| Database.Database.ClaimBatch | main-api/app/adapters/postgres_repositories/outbox.py:72-105 | leases the rows the claim query picks, ties and returned order left to the database, and returns their current attempt counts |
| Database.Database.MarkSent | main-api/app/adapters/postgres_repositories/outbox.py:107-125 | the row is sent and unlocked |
| Database.Database.MarkRetry | main-api/app/adapters/postgres_repositories/outbox.py:127-149 | the row is queued again, one attempt used, due after the delay |
| Database.Database.MarkFailed | main-api/app/adapters/postgres_repositories/outbox.py:151-171 | the row is failed, one attempt used |
| Handlers.ApplyPendingInstanceState | main-api/app/application/services/task_instance_state.py:10-88 | the row update of each command equals the pending row of the specification |
| Handlers.RevertInstanceState | main-api/app/application/services/task_instance_state.py:91-161 | the row update of each command equals the undone row of the specification |
| Handlers.HandleCreate | main-api/app/application/commands/instance_commands.py:47-137 | the transaction commits exactly what its specification says, with the same reply, rejections included |
| Handlers.HandleDelete | main-api/app/application/commands/instance_commands.py:158-222 | as above for delete |
| Handlers.HandleStop | main-api/app/application/commands/instance_commands.py:243-306 | as above for stop |
| Handlers.HandleStart | main-api/app/application/commands/instance_commands.py:332-417 | as above for start |
| Handlers.HandleUpdate | main-api/app/application/commands/instance_commands.py:446-552 | as above for update |
| Handlers.HandleRetry | main-api/app/application/commands/task_commands.py:134-215 | as above for retry; an incomplete payload rolls everything back |
| Handlers.HandleCancel | main-api/app/application/commands/task_commands.py:43-109 | as above for cancel; what its specification does in each status is told by the `Canceling` rows |
| Handlers.HandleSuccess | main-api/app/application/services/task_result_processor.py:104-167 | the row after success, for each command |
| Handlers.Process | main-api/app/application/services/task_result_processor.py:39-102 | tables and acknowledgement of one event equal their specifications, which `Effects.ResultIsTold` and `Effects.OutcomeTells` spell out |
| Handlers.SweepStaleTasks | main-api/app/runtime/workers/stale_task_monitor.py:74-150 | the loop commits the specified sweep, spelled out by `Sweeping.SweepTimesOutExactly`, and counts every selected task as recovered |
| Handlers.UpdateTenantQuota | main-api/app/application/commands/tenant_commands.py:151-172 | the quota is replaced if and only if current usage fits the new one |
| Effects.QuotaChangesIff | main-api/app/application/commands/tenant_commands.py:151-172 | a quota changes, to the requested one, if and only if the tenant is known and uses at most that in all four columns; the error says which |
| Agent.OnlyFirstDeliveriesCount | vm-manager/internal/service/manager.go:51-85 | handling any sequence of commands leaves the world of handling only the first delivery of each request |
| Agent.RepeatsGetTheFirstReply | vm-manager/internal/infra/state.go:78-99 | every repeated delivery gets the first reply, failures included, under its own correlation id |
| Agent.FailureKeepsRecord | vm-manager/internal/service/manager.go:64-84 | a command reported as failed leaves the state file as it was |
| Agent.RetriesConverge | vm-manager/internal/service/manager.go:64-84 | the induction behind the next row, from any attempt on |
| Agent.SuccessIsFaultFree | vm-manager/internal/service/manager.go:146-448 | for any failures across attempts, a command reported as successful leaves state file and reply of a fault-free first attempt; the same process if and only if none outlived its kill; network and disk up to swallowed removals |
| Agent.SuccessStaysConsistentIff | vm-manager/internal/infra/qemu.go:172-244 | after success the machine matches its state file if and only if no process outlived its kill |
| Agent.StopOverASurvivor | vm-manager/internal/infra/qemu.go:201-244 | the witness: a stop whose kill has no effect succeeds, the state file says stopped, the process lives |
| Progress.FaultFreeSucceedsIff | vm-manager/internal/service/manager.go:146-448 | an attempt in which nothing fails succeeds if and only if the machine can serve the command: a valid request, the right state, no process in the way of the one to be started |
| Progress.FaultFreeServes | vm-manager/internal/service/manager.go:146-448 | and then it leaves the machine and reply of that command, told in full: process, network, disk, state file, status and address |
| Progress.SuccessServes | vm-manager/internal/service/manager.go:51-85 | whatever failed on the way, a reported success was a command the machine could serve, with state file and reply of a served one |
| Progress.ErrorCodeTellsCause | vm-manager/internal/service/manager.go:146-448 | the error code of a failed attempt names a call that failed or a condition that was not met |
| Progress.FirstSuccessIsReported | vm-manager/internal/service/manager.go:60-84 | the loop reports the first attempt that succeeds; a reported failure means that every allowed attempt was made and failed |
| Progress.FaultFreeAttemptHelpsIff | vm-manager/internal/service/manager.go:60-84 | when attempt k meets no fault, a command the machine can serve succeeds by then if and only if an earlier attempt does or none has left a process where one is to be started |
| Progress.RetryingSucceeds | vm-manager/internal/service/manager.go:60-84 | so it succeeds by then whenever the earlier failures are of calls that leave no process behind |
| Progress.RetriedCommandIsAnswered | vm-manager/internal/service/manager.go:51-85 | and that success is what the agent answers, also to every repeat |
| Progress.UnsavedCreateNeverSucceeds | vm-manager/internal/service/manager.go:205-230 | the witness: a create whose state file cannot be written once fails for good, its process still there |
| Progress.HandleIsContained | vm-manager/internal/service/manager.go:51-85 | a message touches at most its own machine and its own saved reply, and one without request id nothing |
| Manager.Machine.Ensure | vm-manager/internal/infra/network.go:131-156 | the network comes up, or stays as a failed call left it |
| Manager.Machine.Unlink | vm-manager/internal/infra/network.go:158-166 | link removal always looks successful, whatever it left behind |
| Manager.Machine.Boot | vm-manager/internal/infra/qemu.go:150-170 | fails on a live process; otherwise starts one with the given cpu and memory |
| Manager.Machine.Shutdown | vm-manager/internal/infra/qemu.go:172-244 | no process afterwards, or what a failed call left, or a process that survives a call reported as successful |
| Manager.Machine.Create | vm-manager/internal/service/manager.go:146-235 | the call-by-call command has the specified effect and reply for every combination of failures |
| Manager.Machine.Update | vm-manager/internal/service/manager.go:237-314 | as above for update |
| Manager.Machine.Start | vm-manager/internal/service/manager.go:316-368 | as above for start |
| Manager.Machine.Stop | vm-manager/internal/service/manager.go:370-408 | as above for stop |
| Manager.Machine.Delete | vm-manager/internal/service/manager.go:410-448 | as above for delete, unknown machines included |
| Manager.Machine.Dispatch | vm-manager/internal/service/manager.go:87-137 | each topic reaches its command; anything else is a validation error |
| Manager.Manager.RetryLoop | vm-manager/internal/service/manager.go:60-84 | the loop over attempts equals the recursive specification, in result and attempt count; `Progress.FirstSuccessIsReported` says which attempt that is |
| Manager.Manager.Handle | vm-manager/internal/service/manager.go:51-85 | a known request is answered from its saved reply; a new one runs on its own machine only and its reply is saved |
| EndToEnd.AttemptsEffect | vm-manager/internal/service/manager.go:146-448 | with a working store success writes the command's status and address, failure writes nothing, and starting a running or stopping a stopped machine cannot fail |
| EndToEnd.MoveAgrees | vm-manager/internal/rpc/server.go:157-248 | every move of control plane, broker and agent keeps the agreement invariant; running events may arrive before, after or without their command being handled |
| EndToEnd.TablesAgreeWithAgent | main-api/app/application/services/task_result_processor.py:39-167 | in every run without cancel and timeout, under loss, duplication and reordering, a running or stopped instance has a state file with that status and address and a deleted one has none |
| EndToEnd.GivingUpKeepsAgreementIff | main-api/app/application/services/task_instance_state.py:91-161 | a task given up by cancel, timeout, sweep or canceled event, delivered or not: tables and agent agree about its instance afterwards if and only if it is not a start or stop, or the machine has the status of the task's snapshot |
| EndToEnd.GivingUpFirstRequestAgrees | main-api/app/runtime/workers/stale_task_monitor.py:128-147 | giving up a first request that the agent has not answered always keeps the agreement |
| EndToEnd.CancelOfStaleStartRetry | main-api/app/application/commands/task_commands.py:134-215 | the witness: a failed start retried while its instance runs, then canceled before anyone sees it, leaves `stopped` over a running machine |
| EndToEnd.GivenUpCommandStillRuns | main-api/app/application/commands/task_commands.py:51-73 | the half after delivery: the command of a given-up task still reaches the agent; for every command and any faults, tables and agent then disagree if and only if the agent succeeds in stopping a running or starting a stopped instance |
| EndToEnd.CancelOfPublishedStop | main-api/app/application/commands/task_commands.py:51-73 | in particular, a canceled stop that still runs leaves agreement if and only if the instance was stopped before |
| Reporting.ResultReachesTask | vm-manager/internal/rpc/server.go:157-248 | after the final event of a handled command its task says what the agent replied: status, error code and number of attempts; a new command that failed was tried as often as allowed |
| Reporting.DeliveredCancelEndsTask | vm-manager/internal/rpc/server.go:157-248 | once its cancel command is handled and answered, a task waiting for cancellation is canceled, whatever fails, and no machine has changed |
| Reporting.PublishedCommandsArrive | main-api/app/runtime/workers/outbox_relay.py:100-111 | a published command is there for the agent, and no move takes a message away |
| Reporting.ServedTaskIsFulfilled | vm-manager/internal/service/manager.go:51-85 | a published command that the machine can serve, with an attempt that meets no fault after failures that leave no process, ends in a succeeded task and an instance in the status the command is for |
| Resources.AttemptsSpec | vm-manager/internal/service/manager.go:146-448 | create and update write the requested cpu, memory and disk, start and stop keep them, failure keeps the state file |
| Resources.MoveKeepsSpecs | main-api/app/application/services/task_instance_state.py:10-161 | every move keeps cpu, memory and disk of row and state file in step, when retries of create, update and delete find their snapshot current |
| Resources.SpecsAgreeWithAgent | main-api/app/application/services/task_result_processor.py:39-167 | in every such run a running or stopped instance has exactly the state file the tables show: cpu, memory, disk, status and address |
| Resources.FailedRetryKeepsSpecIff | main-api/app/adapters/postgres_repositories/task.py:200-229 | undoing a failed retry leaves row and state file in step if and only if the snapshot was current |

## Left out

- DrainAvailable: starts from a table that relay steps have left, as every reachable one is (`Delivery.RunKeepsRelayOk`), and no other transaction touches the outbox in between.
- PickIsOldestFirst: tasks with equal `created_at` are taken in table order, where the source leaves ties open.
- SweepTimesOutExactly: resolves ties in `created_at` in the same way.
- UnsavedCreateNeverSucceeds: rests on qemu refusing to start on a disk image and pid file in use by a live process.
- TablesAgreeWithAgent: assumes that the agent can read and write its own state and reply files; with an unreadable file a start of a running machine fails and a failed retry of it would restore `stopped`.
- OnlyFirstDeliveriesCount: assumes that replies are saved and can be read back, and that two deliveries of one request do not overlap; the agent takes an unreadable reply for an unknown request and runs the command again.
- SuccessIsFaultFree: a kill without effect or a missing pid file, a link removal, and the directory cleanup of a delete can fail unseen; process, network and disk are stated up to exactly these.
- CheckedRunsKeepLimits: a quota change is one step, although its handler does not take the lock the requests take; the start-up bootstrap, which overwrites the default tenant's quota and the host capacity without looking at usage, is not a step.
- SweepStaleTasks: requires that every task's instance row exists, which the schema's foreign key guarantees; the source would abort the sweep otherwise.
- RunKeepsInv: an update result is assumed to report `running` or `stopped`; `EndToEnd` shows that the agent reports nothing else.
- Attempt: a payload that does not belong to its command is one validation error; the source decodes what it can and fails on the missing fields.
- One relay process: marks do not check the lease holder, so several relays with expired leases would break the ledger.
- Transactions are atomic steps; row locks, the advisory lock and thread interleaving inside a transaction are not modelled.
- A missing quota accounting port: the handlers are modelled with it present, as the application wires them.
- Fresh uuids are fresh positions or counter values; uuid parsing and malformed ids are not modelled.
- Columns that no decision reads: `started_at`, `finished_at`, `updated_at`, `canceled_by`, `cancel_reason`, `last_error`, `result_payload`, error messages, user agents.
- Partial `previous_spec` or resource keys in a request payload: the handlers write the three keys together.
- Tenant creation and deactivation, the start-up bootstrap of the default tenant, its quota and the host capacity, users, tokens, audit logs, console tickets and ports, image catalog and cache, the network janitor: separate and easier.
- The network, the clock, qemu, `ip`, `iptables`, `curl` and cloud-init appear only through their outcomes.
- Events for unknown commands, `image.sync`, reply queues and the dead-letter exchange of the agent.
