# A verified model of the sampling platform's core

The repository runs sampling orders through a business service (`apps/soundlab-api`), watches them from a platform
(`apps/zhixing-api`) and drives background work from a worker (`apps/zhixing-worker`); its test harness splits
coverage files over parallel jobs. This project models the parts of that code whose correctness is hardest to see,
and proves what they are for. Pure code is modelled as functions; code that updates tables or buffers in place is
modelled as classes and methods, each proved against a specification function, and the concurrent parts as state
machines over whole runs.

- **Scheduler** (`WorkCalendar`, `Graph`, `ProjectValidation`, `Schedule`, `ScheduleProperties`, `ScheduleEvaluation`,
  `ForecastProperties`). The memoised depth-first evaluation equals a plain recursion; the result is the least feasible
  schedule; it never fails on a validated project; a finish is unknown exactly when a stuck node lies upstream; and it is
  monotone in everything that can be delayed. `OperationEffects` says what the operations on a node do to it. Dates are
  day numbers (full-date, section 5.6 of RFC 3339), so string order is integer order and a weekday is `(d + 4) mod 7`.
- **Weighted partitioner** (`Loads`, `Partitions`, `PartitionHeap`). The heap-driven placement keeps every file, always
  picks a lightest and leanest bucket, and its heaviest partition is within `4/3 - 1/(3m)` of that of any other split.
- **Exactly-once business writes** (`Domain`, `DomainProperties`, `Ledgers`, `LedgerInvariant`, `LedgerRuns`,
  `FeedbackCount`, `AttachmentQuota`, `BatchPreview`, `Store`, `StableJson`, `EventPolling`, `OutboxDelivery`,
  `ChannelFeedback`, `ChannelTenants`, `ChangeTasks`). One tenant's tables are a `Ledger`; every transaction is a
  function `Execute` or `Decide` on it, which the methods of `Store.Tables` implement statement by statement. Around it
  run the event poller, the channel with redelivery, and the fenced task worker; `OutboxDelivery` puts ledgers and
  pollers together.
- **Exceptions, patrol, notifications** (`Exceptions`, `ExceptionHistory`, `Patrol`, `PatrolHistory`, `PatrolExecution`,
  `PatrolRuns`, `Notifications`, `PatrolDelivery`). Incremental tables are proved equal to simple folds over the whole
  history; `PatrolDelivery` follows an escalation from the look that found it due to the sender.

`Contracts`, `Results` and `Collections` hold shared types and small facts. `dafny verify dfyconfig.toml` checks everything.

## What the proofs brought to light

- The doc comment of `assignWeightedPartitions` says that every partition is non-empty. That holds, for non-negative
  weights, exactly when there are at least as many files as partitions (`Partitions.AllPartitionsUsedIffEnoughFiles`).
  Zero partitions with files to place are refused by an error, which the comment does not mention.
- A project without nodes has risk "normal" and no forecast (`ForecastProperties.EmptyProjectIsNormalWithoutForecast`);
  for every other project "normal" means a known forecast that is not after the due date. A validated project has nodes.
- The search for a working day gives up after 3660 days. The limit of 366 holidays keeps it from ever failing, and so
  would any limit up to 521; 522 holidays defeat it (`WorkCalendar.SearchCanFailWith522Holidays`).
- The per-tenant lock is needed: without it a run of eight steps loses an event
  (`EventPolling.WithoutLockAnEventIsSkipped`).
- "One event, at most one entry" holds of each tenant, but not of all tenants together: the business key is derived from
  the event alone, so an event whose copies name senders of two tenants can be taken once by each if the first answer is
  lost before the event is recorded; `ChannelTenants.TwoTenantsBothTake` is such a history. It holds in every history if
  and only if the channel's senders belong to one tenant (`ChannelTenants.OneEntryIffOneTenant`), and for any event whose
  copies name one sender (`ChannelTenants.OneSenderOneEntry`).
- A report of more progress can hide a finish, because it completes or blocks the node; it never delays one that is
  known before and after (`OperationEffects.ProgressNeverDelays`). Whatever a report says, only a report that stalls the
  node hides a finish, and only one on a stalled node brings an unknown one to light
  (`OperationEffects.OnlyStallsHideAndReveal`).
- Replaying a batch of observations changes nothing, not only at once but at any later time
  (`ExceptionHistory.ReplayChangesNothing`).

## Model

| member | source | states |
|---|---|---|
| WorkCalendar.FindWorkday | apps/soundlab-api/schedule.ts:9 | The search loop returns the first working day of 3660 and fails exactly when there is none among them |
| WorkCalendar.AdvanceIsLeast | apps/soundlab-api/schedule.ts:33 | Counting off days ends on the earliest day by which the interval holds the wanted number of working days |
| WorkCalendar.SearchSucceeds | packages/sampling-contracts/project-validation.ts:12 | On a validated calendar the search succeeds from every date |
| WorkCalendar.SearchSucceedsUnlessHolidaysAbound | apps/soundlab-api/schedule.ts:9 | It succeeds for any calendar with a working weekday and at most 521 holidays |
| WorkCalendar.SearchCanFailWith522Holidays | apps/soundlab-api/schedule.ts:9 | With 522 holidays there is a calendar and a date on which it fails |
| Graph.TopologicalOrderMeansAcyclic | packages/sampling-contracts/project-validation.ts:19-21 | Nodes that can all be finished after their dependencies form no cycle |
| ProjectValidation.CycleSearch.Visit | packages/sampling-contracts/project-validation.ts:20 | Success finishes the node and leaves the path as it was; refusal exhibits a dependency cycle |
| ProjectValidation.CycleSearch.Run | packages/sampling-contracts/project-validation.ts:19-21 | The search over all nodes accepts exactly the acyclic dependency graphs |
| ProjectValidation.ValidateProject | packages/sampling-contracts/project-validation.ts:8-22 | Accepts exactly the inputs with valid fields, closed dependencies and no dependency cycle |
| Schedule.ShorterPath | apps/soundlab-api/schedule.ts:11-14 | Where the recursion succeeds below some visited nodes it succeeds below fewer, with the same entry |
| Schedule.UnreachedPath | apps/soundlab-api/schedule.ts:11-14 | Visited nodes that the recursion cannot reach do not influence its result |
| ScheduleProperties.ValidatedProjectIsEvaluable | apps/soundlab-api/schedule.ts:11-39 | With a validated calendar and graph, the evaluation fails for no date and no state of the nodes |
| ScheduleProperties.ComputedScheduleIsFeasible | apps/soundlab-api/schedule.ts:24-36 | Computed starts and finishes meet every demand: working day, evaluation date, planned start, material date, dependencies, remaining days, owner's date |
| ScheduleProperties.ComputedScheduleIsLeast | apps/soundlab-api/schedule.ts:24-36 | Every feasible schedule starts and finishes each node no earlier than the computed one |
| ScheduleProperties.UnknownIffStuckUpstream | apps/soundlab-api/schedule.ts:22-27 | A pending node's finish is unknown exactly when a chain of pending dependencies leads to an unconfigured, blocked-without-date or unaccepted complete node |
| ScheduleEvaluation.EntryFromMemo | apps/soundlab-api/schedule.ts:11-39 | Memoised finishes of the dependencies give a node the very entry of the plain recursion |
| ScheduleEvaluation.Evaluation.Finish | apps/soundlab-api/schedule.ts:11-39 | Keeps the memo equal to the plain recursion, restores the path, and fails only where the recursion fails |
| ScheduleEvaluation.Evaluation.FinishEveryNode | apps/soundlab-api/schedule.ts:40 | Every node ends up recorded exactly once, whatever the order of the nodes |
| ScheduleEvaluation.RiskFromRecords | apps/soundlab-api/schedule.ts:44-45 | Lateness and gaps read off the records are those of the plain recursion over all nodes |
| ScheduleEvaluation.Forecast | apps/soundlab-api/schedule.ts:41-43 | The forecast is the latest finish if every unfinished node's finish is known, else unknown |
| ScheduleEvaluation.EvaluateSchedule | apps/soundlab-api/schedule.ts:4-46 | Fails exactly when the plain recursion fails for some node; otherwise records, gaps, forecast and risk are those it defines |
| ForecastProperties.NormalIffAllKnownInTime | apps/soundlab-api/schedule.ts:44-45 | Risk is normal exactly when every node has a known finish that is not after the due date |
| ForecastProperties.NormalMeansForecastInTime | apps/soundlab-api/schedule.ts:41-45 | With at least one node, normal risk means a known forecast within the due date |
| ForecastProperties.EmptyProjectIsNormalWithoutForecast | apps/soundlab-api/schedule.ts:41-45 | Without nodes the risk is normal although no forecast exists |
| ForecastProperties.ForecastUnknownIffStuck | apps/soundlab-api/schedule.ts:41-43 | An unfinished project lacks a forecast exactly when some pending node leads to a stuck one |
| ForecastProperties.FinishIsMonotone | apps/soundlab-api/schedule.ts:29-36 | A later date, longer duration, lower percent or more holidays, with no node newly stalled, makes a known finish neither earlier nor unknown |
| ForecastProperties.FinishIsNoEarlier | apps/soundlab-api/schedule.ts:24-36 | The same comparison whatever happens to the nodes' states short of acceptance, for a finish known before and after |
| ForecastProperties.ForecastIsMonotone | apps/soundlab-api/schedule.ts:40-43 | The forecast too becomes neither earlier nor unknown; accepted nodes stay accepted, on the same date or a later one |
| Loads.LoadsConserveWeight | apps/zhixing-harness/upstream/scripts/coverage-partitions.ts:310-318 | Bucket loads add up to the weight placed, for every assignment |
| Loads.GreedyNearAverage | apps/zhixing-harness/upstream/scripts/coverage-partitions.ts:310-318 | Placing on a lightest bucket keeps every load within total/m + (1 - 1/m) of the largest weight |
| Loads.GreedyWithinTwice | apps/zhixing-harness/upstream/scripts/coverage-partitions.ts:310-318 | Against any other assignment, in any order of the files: factor 2 - 1/m |
| Loads.HeaviestFirstWithinFourThirds | apps/zhixing-harness/upstream/scripts/coverage-partitions.ts:303-318 | Heaviest first, against any other assignment: factor 4/3 - 1/(3m) |
| Loads.FourThirdsIsAttained | apps/zhixing-harness/upstream/scripts/coverage-partitions.ts:303-318 | The factor is exact for every number m of buckets: 4m - 1 against 3m |
| Partitions.SortedIsHeaviestFirst | apps/zhixing-harness/upstream/scripts/coverage-partitions.ts:303-305 | The placement order lists the same files, heavier ones first |
| Partitions.PlacementKeepsEveryFile | apps/zhixing-harness/upstream/scripts/coverage-partitions.ts:297-320 | Every file, with its multiplicity, lands in exactly one partition |
| Partitions.HeaviestPartitionNearOptimal | apps/zhixing-harness/upstream/scripts/coverage-partitions.ts:297-320 | Any split of the same files into as many parts bounds each partition by the factor 4/3 - 1/(3m) |
| Partitions.HeaviestPartitionNearAverage | apps/zhixing-harness/upstream/scripts/coverage-partitions.ts:297-320 | No partition exceeds total/m + (1 - 1/m) times the heaviest file |
| Partitions.SplitIsAssignment | apps/zhixing-harness/upstream/scripts/coverage-partitions.ts:374-376 | Any split of the files is an assignment of the sorted list whose loads are the partition weights |
| Partitions.AllPartitionsUsedIffEnoughFiles | apps/zhixing-harness/upstream/scripts/coverage-partitions.ts:295 | With non-negative weights, all partitions are non-empty if and only if there are at least m files |
| PartitionHeap.SwapMovesFaultDown | apps/zhixing-harness/upstream/scripts/coverage-partitions.ts:344-349 | Exchanging a misplaced bucket with its least child leaves only that child position misplaced |
| PartitionHeap.SiftDown | apps/zhixing-harness/upstream/scripts/coverage-partitions.ts:323-351 | From a heap with one grown bucket restores heap order by permuting the heap in place |
| PartitionHeap.RootIsLeast | apps/zhixing-harness/upstream/scripts/coverage-partitions.ts:307-311 | The root of the heap is least by sum and then by file count |
| PartitionHeap.PlaceOnRoot | apps/zhixing-harness/upstream/scripts/coverage-partitions.ts:310-318 | One round adds the file to the root bucket, its weight to that bucket's sum, and restores the heap |
| PartitionHeap.Distribute | apps/zhixing-harness/upstream/scripts/coverage-partitions.ts:310-318 | The loop makes the greedy choice at every step, sums stay the weights of the files placed |
| PartitionHeap.AssignWeightedPartitions | apps/zhixing-harness/upstream/scripts/coverage-partitions.ts:297-320 | Fails exactly for files without partitions; otherwise the result is a greedy, lean, heaviest-first placement of all files |
| StableJson.PrintDecodes | apps/soundlab-api/store.ts:88-92 | A value's text followed by a delimiter tells the value, up to member order, and where it ends |
| StableJson.StableTextIsCanonical | apps/soundlab-api/store.ts:88-92 | Two JSON values print the same text exactly when they are equal up to member order at every depth |
| Domain.RoundedPercent | apps/soundlab-api/domain.ts:36 | The percentage is the nearest to the reported share, halves upwards; between 0 and 100, and 100 for a complete report |
| DomainProperties.FeedbackAdvances | apps/soundlab-api/domain.ts:27-46 | Accepted feedback is the next version, adds exactly one entry at the front, and touches no other node and no other part of the order |
| DomainProperties.AssignAdvances | apps/soundlab-api/domain.ts:47-53 | Assignment is the next version and keeps feedback, changes and every accepted node's state |
| DomainProperties.AcceptAdvances | apps/soundlab-api/domain.ts:54-64 | Acceptance is the next version and keeps nodes sound: accepted means 100 percent |
| DomainProperties.ReturnAdvances | apps/soundlab-api/domain.ts:65-76 | Return is the next version and keeps nodes sound: rework means 0 percent |
| DomainProperties.NewProjectIsSound | apps/soundlab-api/project.ts:6-10 | A new project is at version 1, sound, and its schedule can be evaluated |
| DomainProperties.ConfigureAdvances | apps/soundlab-api/project.ts:18-40 | Reconfiguration is the next version, changes no node's state, and leaves the schedule evaluable |
| OperationEffects.BlockerHidesForecast | apps/soundlab-api/domain.ts:37-43 | A new blocker without a new date leaves no finish, no forecast and no normal risk on any date: earlier evidence is void |
| OperationEffects.CompletionAwaitsAcceptance | apps/soundlab-api/domain.ts:41 | A completed node has no finish, and the project no forecast, until it is accepted |
| OperationEffects.AcceptanceDatesFinish | apps/soundlab-api/domain.ts:60-61 | An accepted node finishes on the Shanghai day of its acceptance, whenever the schedule is evaluated |
| OperationEffects.ProgressNeverDelays | apps/soundlab-api/domain.ts:36 | A report of no less progress and no later dates, on a node in any state, makes no finish later that is known before and after |
| OperationEffects.OnlyStallsHideAndReveal | apps/soundlab-api/domain.ts:37-43 | Whatever a report says: unless it stalls the node every known finish stays known, and unless the node was stalled it reveals no unknown one |
| Ledgers.CreatedOrders | apps/soundlab-api/store.ts:104 | A batch yields one order per project, in order |
| LedgerInvariant.ExecuteKeepsInvariant | apps/soundlab-api/store.ts:41-63 | Every transaction keeps announcements, plans, receipts and orders in agreement and takes nothing back |
| LedgerInvariant.DecideKeepsInvariant | apps/soundlab-api/changes.ts:37 | So does every decision on a plan |
| LedgerInvariant.UploadKeeps | apps/soundlab-api/attachments.ts:50-57 | An upload is one more announced version and alters neither plans nor receipts |
| LedgerInvariant.ApplyKeeps | apps/soundlab-api/changes.ts:38 | Applying turns an approved plan into an applied one listed on its order, with a receipt under the key |
| LedgerRuns.RunKeepsInvariant | apps/soundlab-api/store.ts:41-63 | Along every run the invariant holds and later tables extend earlier ones |
| LedgerRuns.EveryVersionAnnouncedInOrder | apps/soundlab-api/store.ts:57-60 | Outbox rows of a created order carry versions 1, 2, ..., current, in sequence order |
| LedgerRuns.AcceptedForEver | apps/soundlab-api/domain.ts:31 | An accepted node keeps status, percent and acceptance for ever |
| LedgerRuns.StatusMatchesPercent | apps/soundlab-api/domain.ts:41 | Reported-complete and accepted imply 100 percent, rework implies 0, in every reachable state |
| LedgerRuns.ScheduleNeverFails | apps/soundlab-api/store.ts:17-23 | The listing can evaluate the schedule of every order in every reachable state, on every date |
| LedgerRuns.ApprovedChangesAreAppliedPlans | apps/soundlab-api/changes.ts:38 | An order's approved changes are exactly its applied plans, none twice, at most one per source version |
| LedgerRuns.ApprovedBeforeApplied | apps/soundlab-api/changes.ts:37-38 | Whatever is applied was approved at an earlier moment of the run |
| AttachmentQuota.QuotaNeverExceeded | apps/soundlab-api/attachments.ts:51-52 | In every reachable state no order has more files or bytes than its quota |
| LedgerRuns.RepeatedRequestReturnsSameResponse | apps/soundlab-api/store.ts:50-54 | Repeating a request under its key at any later time changes nothing and returns the first response |
| FeedbackCount.OneEntryPerKey | apps/soundlab-api/store.ts:41-63 | In every reachable state an order has as many feedback entries as keys under which feedback was taken |
| Store.Tables.CreateProject | apps/soundlab-api/store.ts:24-40 | The statements have the effect and the answer of one creation transaction, errors included |
| Store.Tables.Mutate | apps/soundlab-api/store.ts:41-63 | The same for feedback, assignment, acceptance and return |
| Store.Tables.ConfigureStoredProject | apps/soundlab-api/store.ts:64-86 | The same for reconfiguration |
| Store.Tables.CreateProjectBatch | apps/soundlab-api/store.ts:93-108 | The same for a batch: all orders or none |
| Store.Tables.UploadAttachment | apps/soundlab-api/attachments.ts:34-60 | The same for an upload with its quota |
| Store.Tables.ProposeChange | apps/soundlab-api/changes.ts:36 | The same for a proposal |
| Store.Tables.DecideChange | apps/soundlab-api/changes.ts:37 | The same for a decision |
| Store.Tables.ApplyChange | apps/soundlab-api/changes.ts:38 | The same for an application |
| BatchPreview.PreviewProjectBatch | packages/sampling-contracts/project-validation.ts:23-29 | A batch is valid exactly when it has 1 to 50 valid projects with distinct ids, none of an existing order; otherwise every bad row is listed |
| BatchPreview.ProblemsByRow | packages/sampling-contracts/project-validation.ts:26 | An error stands for a row exactly if that row is invalid, repeats the id of a valid earlier row, or names an existing order |
| BatchPreview.NoProblems | packages/sampling-contracts/project-validation.ts:26-27 | Nothing is listed exactly if all rows are valid, have different ids and name no existing order |
| EventPolling.Worker.PollTenantEvents | apps/zhixing-worker/event-poll.ts:14-19 | Stores a prefix of the events one transaction at a time, or nothing on a foreign tenant |
| EventPolling.CommitKeeps | apps/soundlab-api/store.ts:47-61 | Under the lock whatever commits comes after all that its tenant had committed |
| EventPolling.CommittedEventsArriveExactlyOnce | apps/zhixing-worker/event-poll.ts:15-19 | A committed event at or below its tenant's cursor is in activity exactly once, in every reachable state |
| EventPolling.ProgressIsKept | apps/zhixing-worker/event-poll.ts:18 | Cursors never move back and activity only grows |
| EventPolling.WithoutLockAnEventIsSkipped | apps/soundlab-api/store.ts:47-48 | Without the lock a reachable state has the cursor past an event that is missing from activity |
| OutboxDelivery.VersionsArriveInOrder | apps/zhixing-worker/event-poll.ts:15-19 | Activity shows a created order's versions 1, 2, ... in order without gap or repetition, and all of them once the cursor has reached its last announcement |
| OutboxDelivery.ActivityIsPrefixOfOutbox | apps/soundlab-api/store.ts:57-60 | A tenant's part of activity is at all times a beginning of its outbox, in the order of the commits |
| ChannelFeedback.EventTable.ReceiveFeedback | apps/zhixing-api/channel.ts:11-28 | Answers and records of one delivery in every case of validity, sender, earlier record, reply and commit |
| ChannelFeedback.AtMostOneEntry | apps/zhixing-api/channel.ts:22-26 | All executions for an event add at most one entry to one order of a tenant and none to any other |
| ChannelFeedback.SuccessfulDeliveriesAgree | apps/zhixing-api/channel.ts:19-20 | All successful deliveries of an event return the same result |
| ChannelFeedback.SuccessMeansAccepted | apps/zhixing-api/channel.ts:24-26 | Success is reported only for feedback that the business service holds under the event's key |
| ChannelFeedback.OneTenantPerSender | apps/zhixing-api/channel.ts:18 | Requests of one sender all go to that sender's tenant and member |
| ChannelTenants.OneSenderOneEntry | apps/zhixing-api/channel.ts:18-26 | Copies of an event that all name one sender add at most one entry, to one order of one tenant |
| ChannelTenants.TwoTenantsBothTake | apps/zhixing-api/channel.ts:18-26 | With senders of two tenants there is a history in which both take the event |
| ChannelTenants.OneEntryIffOneTenant | apps/zhixing-api/channel.ts:18-26 | An event adds at most one entry in every history if and only if the channel's senders belong to one tenant |
| ChangeTasks.TaskTable.ClaimTask | apps/zhixing-worker/change-tasks.ts:17 | A claim takes the first eligible row by next time and then by id, under the new token, and nothing only if no row is eligible |
| ChangeTasks.TaskTable.Complete | apps/zhixing-worker/change-tasks.ts:34 | The conclusion and its audit row are written only while the change task runs under this token |
| ChangeTasks.TasksTellTheTruth | apps/zhixing-worker/change-tasks.ts:22-34 | Succeeded means applied, turned down means rejected, attempts never exceed 3 |
| ChangeTasks.PlanAltersOrderAtMostOnce | apps/soundlab-api/changes.ts:38 | However requests are lost, late or repeated, a plan alters its order at most once, exactly when applied |
| ChangeTasks.AppliedAfterApproval | apps/zhixing-worker/change-tasks.ts:25-30 | Whatever is applied was approved earlier in the run |
| ChangeTasks.StaleTokenWritesNothing | apps/zhixing-worker/change-tasks.ts:34 | A worker whose token no longer owns a change task never again writes to it |
| ChangeTasks.ExpiryFences | apps/zhixing-worker/change-tasks.ts:16 | Expiry makes the owner's token stale and the outcome unknown |
| ChangeTasks.ConcludedTaskStays | apps/zhixing-worker/change-tasks.ts:17 | A concluded task never changes again, whatever happens later |
| ChangeTasks.AppliedByReceipt | apps/zhixing-worker/change-tasks.ts:30 | A receipt in a reply, fresh or replayed, proves that its plan was applied |
| Exceptions.ValidateBatch | apps/zhixing-api/exceptions.ts:18-20 | Accepts exactly the batches with valid, distinct objects and valid, distinct issues |
| Exceptions.ExceptionTables.ReconcileExceptions | apps/zhixing-api/exceptions.ts:17-27 | The nested loops have the effect of observing the objects one after the other, or none on an invalid batch |
| Exceptions.ExceptionTables.TransitionException | apps/zhixing-api/exceptions.ts:29-38 | Effect and answer of a transition in every case: role, owner, version, allowed moves, source, replay |
| ExceptionHistory.TablesAgreeWithHistory | apps/zhixing-api/exceptions.ts:21-25 | Records and sources always say what a fold over all reported observations says |
| ExceptionHistory.ClearExactlyWhenAbsent | apps/zhixing-api/exceptions.ts:23-24 | The source is clear exactly when the issue is absent from the last accepted observation; closed implies clear |
| ExceptionHistory.PresentIssueHasOpenRecord | apps/zhixing-api/exceptions.ts:23 | Every issue of the last accepted observation has one record, not closed, with the observed summary |
| ExceptionHistory.LogIsFaithful | apps/zhixing-api/exceptions.ts:14 | The audit list is chained, made of permitted moves, and folds to the record's status, owner and clearance |
| ExceptionHistory.LogVersions | apps/zhixing-api/exceptions.ts:14 | Entry k carries version k + 1 and starts from the status that the entries before it end in |
| ExceptionHistory.AcceptedNeverGoesBack | apps/zhixing-api/exceptions.ts:21 | Accepted observations never go back in version or time |
| ExceptionHistory.ReportedOnceIsSettled | apps/zhixing-api/exceptions.ts:21 | An observation that was reported once is never accepted again |
| ExceptionHistory.ReplayChangesNothing | apps/zhixing-api/exceptions.ts:21-25 | Replaying a batch, at once or later, changes nothing |
| ExceptionHistory.RepeatedTransitionReturnsSameRecord | apps/zhixing-api/exceptions.ts:31-32 | Repeating an answered transition under its key, at once or later, changes nothing and returns the same record |
| PatrolExecution.PatrolTables.RaiseState | apps/zhixing-worker/patrol.ts:39 | The upsert keeps an active issue's episode and starts a new one otherwise |
| PatrolExecution.PatrolTables.InspectObject | apps/zhixing-worker/patrol.ts:33-48 | One object: the effect of a look on states, inbox, escalations and notices; fails exactly when something is due without a manager |
| PatrolExecution.PatrolTables.RunPatrol | apps/zhixing-worker/patrol.ts:24-54 | A run is refused, fails without a trace, or commits all its looks with its own row |
| PatrolRuns.PatrolRunCommitsItsLooks | apps/zhixing-worker/patrol.ts:50-53 | A run commits all its looks or leaves the board alone |
| PatrolRuns.EpisodesAreStretches | apps/zhixing-worker/patrol.ts:37-39 | The episode is the number of maximal unbroken stretches of presence, first seen is the start of the latest |
| PatrolRuns.KnownIffEverPresent | apps/zhixing-worker/patrol.ts:39 | An issue has a state exactly when it was ever present |
| PatrolRuns.EscalatedExactlyWhenDue | apps/zhixing-worker/patrol.ts:42-46 | A stretch has an escalation, and only one row, exactly when some look found it due |
| PatrolRuns.EscalationWasDue | apps/zhixing-worker/patrol.ts:42-44 | An escalation was made when the stretch had lasted the configured hours, for the manager of that look |
| PatrolRuns.InboxExactlyWhenReported | apps/zhixing-worker/patrol.ts:40 | The inbox shows an issue on a business date exactly when it was reported on that date |
| PatrolRuns.OneNotificationPerRow | apps/zhixing-worker/patrol.ts:41-45 | One notification for every inbox row and every escalation, and none besides |
| PatrolRuns.RowsAreKept | apps/zhixing-worker/notifications.ts:6 | Inbox rows, escalations and notices are never changed or removed, so nothing is escalated twice |
| Notifications.NotificationTable.EnqueueNotification | apps/zhixing-worker/notifications.ts:11-17 | Queues once per key, and skips unless exactly one identity maps to the owner |
| Notifications.NotificationTable.RecoverNotifications | apps/zhixing-worker/notifications.ts:20 | Turns exactly the rows being sent into unknown ones, one audit row each |
| Notifications.NotificationTable.Claim | apps/zhixing-worker/notifications.ts:23 | Claims the first free candidate and counts the attempt; claims nothing only if there is none |
| Notifications.NotificationTable.Complete | apps/zhixing-worker/notifications.ts:25-26 | The outcome is recorded only for the row's own token while it is being sent |
| Notifications.RetriedOnlyAfterKnownFailure | apps/zhixing-worker/notifications.ts:20-26 | A message is tried again only after tries known to have failed or been disabled, also when recovery overlaps an old worker |
| Notifications.AtMostThreeTries | apps/zhixing-worker/notifications.ts:23 | No message is tried more than three times |
| Notifications.StatusTellsTheTruth | apps/zhixing-worker/notifications.ts:25-26 | Sent means that the last try was answered so; pending or failed means that nothing can have arrived |
| Notifications.FinalStaysFinal | apps/zhixing-worker/notifications.ts:23 | Sent, unknown and skipped rows never change again |
| Notifications.FinalIsNotClaimed | apps/zhixing-worker/notifications.ts:23 | Whoever holds a final row later in the run held it when it became final: no later claim takes it |
| Notifications.FinalIsNotTriedAgain | apps/zhixing-worker/notifications.ts:23-24 | Once a final row is held by nobody, nothing is handed to the sender for it any more |
| PatrolDelivery.EscalationIsDeliveredWithCare | apps/zhixing-worker/patrol.ts:42-46 | An escalation is queued, in one row, exactly when some look found it due, and is sent three times at most, again only after known failures |
| PatrolDelivery.InboxRowIsDeliveredWithCare | apps/zhixing-worker/patrol.ts:40-41 | The same for an inbox row, queued exactly when the issue was reported on the date |
| PatrolDelivery.MessagesGoToTheOwner | apps/zhixing-worker/notifications.ts:11-16 | Every message handed to the sender about a topic goes to the one identity its owner had when it was queued |

## Left out

- Databases, HTTP, headers and time-outs: kept are atomic commit or rollback, the locks, unique keys, the global sequence
  and replies that are lost or late.
- Hashes and signatures: a request fingerprint is the request itself, and the key of a channel event is an arbitrary function of it.
- Random ids: fresh where a proof needs it (`LedgerRuns.Next`), otherwise represented by a unique key that the table has anyway.
- Dates and clocks: day numbers and milliseconds; an accepted node's date is computed with a fixed offset of eight hours.
- Malformed JSON input (wrong types, unknown fields, unparsable dates): inputs are typed. An absent field is an `Option`.
- Binary floating point: node weights, file weights and the percentage are exact numbers.
- `localeCompare`: file names of equal weight are ordered by an arbitrary relation, so the results hold for every order.
- Thirty-two-bit version columns: a version beyond their range makes the database refuse the row.
- Deciding, creating and uploading take one lock for a whole tenant, so a tenant's transactions are modelled one after
  the other; other tenants and rolled back transactions appear only as gaps in the sequence.
- Attachment bytes: file type and base64 checks are not part of this model; size and quota are.
- Demonstration orders: any orders at version 1 that are sound may be there from the start.
- Templates, installations, runtime settings, members and roles: compare-and-set storage of the same kind. Roles are a
  given directory of enabled members and managers.
- The adoption of the retired shared cursor and the queueing of analyses while polling.
- `delegateChange` reads the plan and inserts its row in one step.
- `savePolicy`: the policy row of a patrol may be any row at any time.
- The collation of ids in `ORDER BY next_run_at, id`: an arbitrary total order.
- Outbox numbers in `OutboxDelivery`: those of the polling machine; a ledger's own numbers stand for the order of its rows.
- Keys of queued notifications carry the id of an inbox row or an escalation: in `PatrolDelivery` any injective naming of
  those rows. The wording of preview errors is a code.
- The order of rows in answers and of issues that a query returns unordered.
- Clock times in the audit entries of exceptions, tasks and notifications: nothing depends on them.
- Whether work is ever done: no liveness is claimed for pollers, task workers or senders.
