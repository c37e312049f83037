# Verified model of the Snapah Pow server components

Snapah Pow is a server, written in Go, that manages BTRFS snapshots on several nodes. This project
models the parts of it that keep state over time and proves what holds over every run of them:

| File | Component |
|---|---|
| `RateLimit.dfy` | the per-address rate limiter, with its background sweep |
| `Hub.dfy` | the WebSocket hub: overlapping broadcasts to bounded client queues |
| `Watchdog.dfy` | the node watchdog, which keeps a second copy of each node's status |
| `Scheduler.dfy` | the policy table and the cron entries it tracks |
| `Retention.dfy` | automatic snapshots and the retention pass after each |
| `SnapshotNames.dfy` | the snapshot path printer |
| `Lifecycle.dfy` | the create and delete handlers over disk, rows and counters |
| `Replication.dfy` | replication jobs and their events |
| `ApiKeys.dfy` | API keys: generation, validation, revocation |
| `Quotients.dfy`, `Sequences.dfy` | facts about integer quotients, and the few notions the histories share |

Each component has a state machine on values, whose runs are sequences of steps of any length and in
any interleaving the locks allow, and, beside it, the code's own form: a class whose methods change
its fields in place and are proved against the state machine or against a function of the history of
calls. Clock reads, failures of the disk and of the database, accepted schedules, digests and the
order of map iteration are parameters or free choices, so the theorems hold for all of them.

## Findings

Some properties one would expect do not hold of the code as it is. The model follows the code, and
each is stated with the exact condition under which it holds:

* A node that is gone is reported "recovered". `UpdateNodeStatus` writes `last_seen` together with the
  status, also when the watchdog marks the node offline, so the watchdog refreshes the row it judges
  by. With checks exactly `d` apart the reports repeat every `2 min / d + 2` checks: at exactly one
  minute, the server's interval, a critical alert every four checks and a recovery at the check after
  each; at any larger spacing up to the threshold, every three checks (`Watchdog.UnattendedNodeCycles`).
* `AddPolicy` over an id that is tracked already either leaves a cron entry that no call can remove, or
  leaves a disabled policy firing. The table is right after every call exactly when this never happens
  (`Scheduler.CronTableIsRight`); `UpdatePolicy` is always safe. The server's only call, at
  cmd/server/main.go:348-353, makes up a fresh id, so this is a fact about the exported method.
* Retention deletes the end of the listing. Over a newest-first listing it keeps the newest snapshots
  (`Retention.NewestRunSurvives`); over an oldest-first listing the same code keeps the first ones for
  ever and goes on to delete the latest (`Retention.OldestFirstFreezes`,
  `Retention.OldestFirstDeletesTheLatest`). In either order a path survives a pass exactly when it is
  among the first entries up to the limit or its deletion fails (`Retention.RetentionAccounts`). The
  comment at internal/scheduler/scheduler.go:134 expects the former order; the btrfs tool decides it.
* A firing need not keep its own snapshot: with limit one, another creation before its listing is enough
  (`Retention.OwnSnapshotCanGo`). At rest, with nothing stuck, its snapshot is left exactly when at each
  listing since its creation, its own included, fewer than the listing firing's limit had been made after
  it (`Retention.OwnSnapshotStays`); all other snapshots follow the same rule
  (`Retention.LeftUnlessOvertaken`). What is left exceeds a firing's limit by no more than the creations
  after its listing (`Retention.FiringTrims`), and the newest snapshots up to the least limit are always
  safe (`Retention.LimitsProtect`).
* Retention sparing recorded paths is not enough to keep every row backed by a snapshot: a pass between
  the disk step and the row step of a creation leaves a live row with nothing behind it
  (`Lifecycle.RetentionCanOrphan`). The exact condition for the rows is `Lifecycle.RecordedRowsAreBacked`,
  for rows together with pending creations `Lifecycle.RowsAreBacked`.
* `DeleteSnapshot` reports success when erasing the row failed. Such rows are the only difference
  between the rows and the counters (`Lifecycle.RowsAddUp`). Such a row can be deleted with success a
  second time when `handleRestore` puts a snapshot back at its path
  (`Lifecycle.RestoredRowIsDeletedTwice`): a row is reported deleted at most once, and once more for each
  restore to its path (`Lifecycle.DeletedOncePerRestore`).
* A row can say offline for a node the watchdog remembers online, exactly when the write that should
  have taken the mark off failed (`Watchdog.CopiesAgree`).
* With a negative window the rate limiter refuses nobody, and with a limit below one it still admits
  the first call of each burst (`RateLimit.NegativeWindowRefusesNobody`, `RateLimit.SlidingWindowBound`).
  Both limiters of the server, at cmd/server/main.go:621-622, have a positive window and limit.

## Model

| member | source | states |
|---|---|---|
| RateLimit.AnswerIsAdmitted | internal/ratelimit/ratelimit.go:42-54 | whatever sweeps and other addresses did before, `Allow` answers yes exactly when the call is the first of its burst or at most the limit-th, where bursts are read off the address's own calls |
| RateLimit.PlaceInBurst | internal/ratelimit/ratelimit.go:47-53 | of the calls that follow an opening call without a gap of more than the window, the k-th is admitted exactly when k is one or at most the limit |
| RateLimit.RecordIsLastBurst | internal/ratelimit/ratelimit.go:28-53 | in every reachable table the record of an address holds the place and time of its last call in the burst still open, and is absent only if the address never called or that burst is over |
| RateLimit.LimiterRefinesBursts | internal/ratelimit/ratelimit.go:42-54 | over every run, the answers to an address are those of a pure function of its own calls |
| RateLimit.OtherAddressesDoNotMatter | internal/ratelimit/ratelimit.go:42-54 | two runs with the same calls of an address answer it the same, whatever else happens in them |
| RateLimit.SweepsAreInvisible | internal/ratelimit/ratelimit.go:28-38 | taking all sweeps out of a run changes no answer to anyone |
| RateLimit.BoundByBursts | internal/ratelimit/ratelimit.go:46-53 | the induction behind the bound: admitted calls since `lo` are at most one burst per whole window passed, plus the place in the burst now open |
| RateLimit.SlidingWindowBound | internal/ratelimit/ratelimit.go:42-54 | in any stretch of `length` ticks of any run at most max(1, limit) * (length / (window + 1) + 1) calls of an address get through, so at most max(1, limit) in any window |
| RateLimit.SlidingWindowBoundIsReached | internal/ratelimit/ratelimit.go:42-54 | for every limit, window and length some run reaches the bound |
| RateLimit.NegativeWindowRefusesNobody | internal/ratelimit/ratelimit.go:47-50 | with a negative window every call of every run is let through |
| RateLimit.Limiter.constructor | internal/ratelimit/ratelimit.go:21-26 | a new limiter has no visitors and an empty history |
| RateLimit.Limiter.Allow | internal/ratelimit/ratelimit.go:42-54 | the method admits a call exactly when its address has no record, or one older than the limiter's window, or one whose count plus one is at most the limiter's limit; it leaves the new count and time there and no other record changed; and that answer is the one its address's own past calls call for |
| RateLimit.Limiter.SweepStale | internal/ratelimit/ratelimit.go:29-37 | the sweep loop, in any order, keeps exactly the visitors seen within the window of their own clock read and touches no record it keeps |
| RateLimit.Limiter.Serve | internal/ratelimit/ratelimit.go:56-71 | the gate charges the forwarded address when there is one and serves the request exactly when that address's record lets the call through, and so when its own past calls do |
| Hub.ReadersKeepWritersOut | internal/hub/hub.go:38-39 | in every reachable state no writer holds the lock while a broadcast is under way, and each loop has only registered clients left |
| Hub.FanOutSoFar | internal/hub/hub.go:36-47 | halfway through a broadcast its event has gone once to each client its loop has passed and to nobody else, and the client set is the one it started with |
| Hub.FanOut | internal/hub/hub.go:36-47 | for any overlap of broadcasts, joins and leaves, a finished broadcast offered its own event exactly once to each client registered when it took the lock and to no one else |
| Hub.AccountsAfterStep | internal/hub/hub.go:40-46 | what each step does to the queue, the received events and the offers of a client: offers push unless 32 are queued, receives take the oldest, nothing else matters |
| Hub.QueueAccounting | internal/hub/hub.go:59-99 | in every reachable state a queue holds at most 32 events, and offers equal events received plus queued plus dropped on a full queue |
| Hub.QueueOrder | internal/hub/hub.go:40-99 | events received followed by events queued are the offers in their order with some left out |
| Hub.NeverFullLosesNothing | internal/hub/hub.go:40-46 | a client has received or still has queued all its offers, in order, exactly when none found its queue full |
| Hub.ChannelHoldsEntries | internal/hub/hub.go:40-99 | what a client has received followed by what it has queued is exactly the sequence of offers that found room |
| Hub.RoomDecides | internal/hub/hub.go:40-46 | the one offer of a broadcast to a client brings its event into the channel exactly when it finds room, whatever else is dropped |
| Hub.RegisteredClientsGetTheEvent | internal/hub/hub.go:36-47 | of all a registered client has received or queued, what comes from a finished broadcast is its event exactly once if its one offer found fewer than 32 queued, and nothing otherwise |
| Hub.EarlierBroadcastsComeFirst | internal/hub/hub.go:36-47 | a broadcast that has finished when another starts comes before it in the channel of every client |
| Hub.LockHoldersGoOn | internal/hub/hub.go:38-46 | in every reachable state a broadcast under way can offer to any client it has left, whatever its queue looks like, or finish, and a writer can commit: no slow client holds anybody up |
| Hub.BroadcastsMayStart | internal/hub/hub.go:36-39 | unless a writer holds the lock a new broadcast can join those under way, and is to go through the clients registered then |
| Hub.OverlapMayReverse | internal/hub/hub.go:36-47 | a run in which of two overlapping broadcasts the later one reaches a client first |
| Hub.UndisturbedBroadcast | internal/hub/hub.go:36-47 | one broadcast on its own ends by pushing once on every registered queue, whatever the order of its loop |
| HubServer.Peer.Offer | internal/hub/hub.go:41-45 | a send that appends when fewer than 32 events wait and otherwise changes nothing |
| HubServer.Peer.Receive | internal/hub/hub.go:90 | receives leave in the order sends came |
| HubServer.Server.OfferTo | internal/hub/hub.go:40-46 | one turn of the loop is one offer step of the state machine and keeps every channel equal to its queue there |
| HubServer.Server.Spread | internal/hub/hub.go:40-46 | the loop leaves no client out, offers to each exactly once, and is a sequence of offer steps in whatever order it went |
| HubServer.Server.Broadcast | internal/hub/hub.go:36-47 | the method is a run of the state machine, start, offers, finish; it appends the event, with its time, to the channel of each registered client with fewer than 32 waiting and touches no other channel |
| HubServer.Server.Join | internal/hub/hub.go:59-62 | a new client with an empty channel is added, as the lock and commit steps of the state machine do |
| HubServer.Server.Leave | internal/hub/hub.go:109-111 | the client is taken out of the set, its channel untouched, as the state machine does |
| HubServer.Server.Drain | internal/hub/hub.go:87-99 | the writer takes the oldest queued event, also after its client left |
| Watchdog.LevelsAfterStep | internal/alerts/watchdog.go:64-86 | which alert each step adds to a node's alerts: critical on falling offline, info on recovering, none otherwise |
| Watchdog.AlertsReportVisits | internal/alerts/watchdog.go:60-86 | over any run the alerts sent are those of some of its visits, in their order, each under the node's id and with the host name of the row listed for that visit, critical exactly when that row was more than two minutes old |
| Watchdog.NodesDoNotInterfere | internal/alerts/watchdog.go:60-90 | what becomes of a node's remembered status, row and alerts depends on its own steps only, whatever happens to the others |
| Watchdog.AlertsAlternate | internal/alerts/watchdog.go:60-90 | for every clock, listing, interleaving and write failure, the alerts about a node alternate starting with critical, and it is remembered offline exactly when the latest was critical |
| Watchdog.AgreementPerStep | internal/alerts/watchdog.go:64-89 | a row marked offline stays remembered offline through a step exactly when the step is not a recovery whose write fails to take the offline mark off its row |
| Watchdog.CopiesAgree | internal/alerts/watchdog.go:51-91 | over any run, the two copies of the status agree after every step exactly when no recovery write is lost |
| Watchdog.LostRecoveryExample | internal/alerts/watchdog.go:64-85 | a run from a watchdog just started in which a node falls, recovers a minute later on the watchdog's own mark and the second write fails: the row then says offline for a node remembered online |
| Watchdog.StreamIsReconciled | cmd/server/main.go:191-193 | a node remembered offline that opens a stream is online in both copies, with exactly one recovery alert, after a visit within two minutes that listed the row after the stream, even if the check under way at the stream still came by with the row from before |
| Watchdog.CycleStep | internal/alerts/watchdog.go:58-90 | one check of an unattended node moves it to the next place of the cycle, because the last mark set the age that this check sees |
| Watchdog.LoneNodeCycles | internal/alerts/watchdog.go:58-90 | after the first offline verdict, with checks `d` apart and no other writer, the n-th check alerts critical when n is a multiple of threshold / d + 2, info at the one after, nothing otherwise |
| Watchdog.LoneNodeStaysOffline | internal/alerts/watchdog.go:58-75 | with checks further apart than the threshold there is one critical alert and nothing ever after |
| Watchdog.OneVisitPerCheck | internal/alerts/watchdog.go:60 | a full check visits each listed node exactly once, with its current row |
| Watchdog.UnattendedNodeCycles | internal/storage/db.go:56-59 | the cycle in full runs of checks exactly `d` apart over all nodes, others being visited, streamed and registered freely, also in the middle of a check; with `d` exactly the interval of cmd/server/main.go:65 the period is four checks, with any larger one up to the threshold three |
| Watchdog.UnattendedNodeStaysOffline | internal/alerts/watchdog.go:58-75 | in such runs with checks further apart than the threshold there is one critical alert, nothing ever after, and the row stays as that check left it |
| WatchdogServer.NodeTable.CreateNode | cmd/server/main.go:100-107 | a row is inserted unless the id exists or the write fails |
| WatchdogServer.NodeTable.UpdateNodeStatus | internal/storage/db.go:56-59 | status and last_seen of the row change together, or not at all when the write fails or there is no row |
| WatchdogServer.NodeTable.ListNodes | internal/storage/db.go:52-55 | every row exactly once, most recently seen first |
| WatchdogServer.NodeHandlers.RegisterNode | cmd/server/main.go:100-107 | a registration is the state machine's step that inserts an online row just seen, refused when the id exists or the write fails |
| WatchdogServer.NodeHandlers.StreamEvents | cmd/server/main.go:186-193 | opening a stream for a node is the state machine's online mark; for no node it writes nothing |
| WatchdogServer.Monitor.Look | internal/alerts/watchdog.go:60-90 | one turn of the loop is one visit step, and branch by branch: what is remembered, the alert with its level, title and message, and the write of status and time, by whether the row is more than two minutes old and what was remembered |
| WatchdogServer.Monitor.constructor | internal/alerts/watchdog.go:20-29 | a new watchdog remembers nothing and has sent nothing |
| WatchdogServer.Monitor.Check | internal/alerts/watchdog.go:51-91 | the loop over the listing leaves maps, rows and alerts as the visits of the state machine, one per row in listing order, and does nothing when the listing fails; every new alert is about a listed row, under its id and with its host name |
| Scheduler.LiveEntriesAreEnabled | internal/scheduler/scheduler.go:46-69 | after any calls every live entry fires a policy that is enabled and whose schedule, `0 * * * *` when none is given, was accepted |
| Scheduler.LatestIsInLastCall | internal/scheduler/scheduler.go:46-83 | the latest version of a policy is the one in the last call about its id, if that call stores one |
| Scheduler.EntriesAreAccountedFor | internal/scheduler/scheduler.go:46-83 | after any calls, live cron entries are as many as tracked ones plus accepted additions made over a tracked id, and tracked entries are live and fire a policy of their id |
| Scheduler.StrayEntriesStay | internal/scheduler/scheduler.go:71-83 | an entry lost sight of stays live with its old policy through any further calls |
| Scheduler.OverlapBreaks | internal/scheduler/scheduler.go:46-69 | an addition over a tracked id always leaves the table wrong |
| Scheduler.RefinesPerStep | internal/scheduler/scheduler.go:46-83 | a right table stays right through a call exactly when the call is not an addition over a tracked id |
| Scheduler.CronTableIsRight | internal/scheduler/scheduler.go:46-83 | for every acceptance predicate and call sequence: after every call live entries correspond one to one to the ids whose latest policy is enabled and accepted and fire that version, exactly when no addition overlaps |
| Scheduler.RightTableFiresTheLatest | internal/scheduler/scheduler.go:46-83 | after any calls without an overlap an id has an entry exactly when its latest version is there, is enabled, and has an accepted schedule, `0 * * * *` when none is given; it is the only entry for the id and fires that version |
| SchedulerServer.Cron.AddFunc | internal/scheduler/scheduler.go:59-61 | the library's table gains one entry under an id never used before |
| SchedulerServer.PolicyTable.AddPolicy | internal/scheduler/scheduler.go:46-69 | the policy is stored; it gets one new entry, tracked under its id, when it is enabled and its schedule is accepted, and nothing else changes otherwise; an error is reported exactly for an enabled policy with a rejected schedule; a right table stays right when the call does not overlap |
| SchedulerServer.PolicyTable.RemovePolicy | internal/scheduler/scheduler.go:71-78 | the policy, its tracked entry and the note of it are gone and all others stay; a right table stays right |
| SchedulerServer.PolicyTable.UpdatePolicy | internal/scheduler/scheduler.go:80-83 | the tracked entry of the id is replaced by one for the new version if that is enabled and accepted, and removed otherwise; a right table stays right |
| Retention.RetentionAccounts | internal/scheduler/scheduler.go:118-143 | for a listing in either order, every limit and every set of failing deletions: survivors and deleted together are the listing, the first entries up to the limit stay in place, and any other survives exactly when its deletion fails |
| Retention.SurvivorsInOrder | internal/scheduler/scheduler.go:118-143 | the survivors of a pass stay in the order in which they were listed |
| Retention.LimitIsThePolicys | internal/scheduler/scheduler.go:125-128 | in every run the limit of a firing is the daily retention of the policy it was created with, or seven when that is not positive |
| Retention.ClosingAlways | internal/scheduler/scheduler.go:103-143 | in every interleaving of creations, listings and single deletions of any number of firings, newest first: a firing that means to delete a path means to delete every older one, and whatever is older than a snapshot now missing is about to go, save what would not go |
| Retention.OnlyStuckOnesOutliveNewer | internal/scheduler/scheduler.go:134-143 | whenever no firing is under way, a snapshot that outlives a newer one is one whose deletion failed |
| Retention.NewestRunSurvives | internal/scheduler/scheduler.go:103-143 | however firings of any policies overlapped, when none is under way and nothing is stuck, what is left is a prefix of the whole history, newest first, with no gap |
| Retention.LimitsProtect | internal/scheduler/scheduler.go:118-143 | at every moment of every interleaving, whatever fails: policies with limits of at least m never delete one of the m newest snapshots over a newest-first listing, nor one of the first m ever made over an oldest-first one |
| Retention.FiringTrims | internal/scheduler/scheduler.go:118-143 | once a firing has ended, all that is left was in the first entries it listed, up to its limit, or was made after it listed, or is stuck; with nothing stuck the number left is at most the limit plus the later creations |
| Retention.LastFiringTrims | internal/scheduler/scheduler.go:103-143 | at rest, with nothing stuck and nothing made since a firing listed, what is left is the newest run, starts with the latest snapshot and is no longer than that firing's limit |
| Retention.NotOvertakenIsThere | internal/scheduler/scheduler.go:103-143 | at every moment, whatever overlaps and whatever fails, a snapshot that no listing has overtaken is there and nobody means to delete it; a listing overtakes it when at least its firing's limit were made after it by then |
| Retention.LeftUnlessOvertaken | internal/scheduler/scheduler.go:103-143 | newest first, at rest with nothing stuck, however firings overlapped: the k-th snapshot ever made is there exactly when no listing has overtaken it |
| Retention.OwnSnapshotStays | internal/scheduler/scheduler.go:103-143 | there, a firing's own snapshot is left exactly when at each listing since its creation fewer than the listing firing's limit had been made after it |
| Retention.OwnSnapshotCanGo | internal/scheduler/scheduler.go:103-143 | a run of two overlapping firings with limit one, come to rest, in which the first has deleted the snapshot it made, though nothing was made after it listed |
| Retention.PlannedPathGoesAgain | internal/scheduler/scheduler.go:134-143 | a run in which a path is made again while a firing under way still means to delete it, and is deleted again: the latest snapshot is gone and older ones are left |
| Retention.OldestFirstFreezes | internal/scheduler/scheduler.go:134-143 | oldest first, with policies of any limits and any overlap: when a firing with the least limit m has ended, nothing was made since it listed and nothing is stuck, what is left is exactly the first m snapshots ever made |
| Retention.OldestFirstDeletesTheLatest | internal/scheduler/scheduler.go:134-143 | oldest first, a firing that lists more than its limit goes on to delete the latest snapshot there is |
| Retention.ListingSortsByPath | internal/btrfs/btrfs.go:105-111 | the snapshots of one policy, made at later and later seconds, are listed newest first exactly in descending order of path |
| Retention.FiringAlone | internal/scheduler/scheduler.go:103-143 | a firing whose steps no other's come between is a run of the state machine that leaves what one pass over the listing leaves |
| RetentionServer.Subvolume.CreateSnapshot | internal/btrfs/btrfs.go:28-41 | a new path joins the listing at its end of the order, or nothing changes; where something is at the path already, the place is the tool's to choose |
| RetentionServer.Subvolume.DeleteSnapshot | internal/btrfs/btrfs.go:43-50 | exactly the given path leaves the listing, or nothing changes; deleting a path that is not there fails |
| RetentionServer.Subvolume.DeleteAll | internal/scheduler/scheduler.go:135-142 | the deletion loop leaves what stood before its paths, followed by those whose deletion failed, in order |
| RetentionServer.Subvolume.ApplyRetention | internal/scheduler/scheduler.go:118-143 | with m the daily retention, or seven when that is not positive: a listing of at most m entries stays as it is; of a longer one the first m stay and of the rest exactly those whose deletion fails, in order |
| RetentionServer.Subvolume.Execute | internal/scheduler/scheduler.go:103-116 | one firing that nothing overlaps: nothing after a failed creation, only the new snapshot after a failed listing, otherwise the new snapshot and then the pass with the policy's limit, seven by default |
| SnapshotNames.PadOrder | internal/btrfs/btrfs.go:106 | zero-padded numbers of one width sort and differ as the numbers do |
| SnapshotNames.StampOrder | internal/btrfs/btrfs.go:106 | printed times sort as the civil times do |
| SnapshotNames.PathOrder | internal/btrfs/btrfs.go:105-111 | for one name, paths sort in the order of their civil times, in both directions |
| SnapshotNames.PathIsUnique | internal/btrfs/btrfs.go:105-111 | two paths of a directory are equal exactly when name and second are, the empty name included |
| SnapshotNames.PathReads | internal/btrfs/btrfs.go:105-111 | a path is the directory, the name when there is one, and fifteen characters that read back, as decimal digits, as the civil time it was printed for |
| SnapshotNames.StampExample | internal/btrfs/btrfs.go:106 | one time printed in Go's layout, character by character |
| Lifecycle.InvAlways | cmd/server/main.go:132-184 | in every state of every interleaving paths belong to one row or one pending creation, a snapshot taken off the disk for a row has one taker and never returns, and rows outlive it only halfway or lost |
| Lifecycle.DeletedOnce | cmd/server/main.go:172-184 | whatever interleaves or fails, at most one `DeleteSnapshot` of a row reports success, while restores leave the paths of taken rows alone |
| Lifecycle.EveryTakeIsReported | cmd/server/main.go:172-184 | wherever restores go, successes reported for a row and handlers on their way to one are as many as snapshots taken off the disk for it |
| Lifecycle.DeletedOncePerRestore | cmd/server/main.go:403 | wherever restores go, whatever interleaves or fails, a row is reported deleted at most once, and once more for each restore to its path |
| Lifecycle.RestoredRowIsDeletedTwice | cmd/server/main.go:172-184 | a run that meets that bound: a row whose erasure failed, restored to its path, deleted with success twice |
| Lifecycle.LostMeansFailedErasure | cmd/server/main.go:180 | a row counts as lost exactly when, with its snapshot gone, a write that should have erased it failed |
| Lifecycle.DiskIsLastStep | cmd/server/main.go:132-184 | in any run there is something at a path exactly when the last step that put or dropped something there put it |
| Lifecycle.BalanceAlways | cmd/server/main.go:142-182 | rows, counters, handlers between the two, and failed erasures keep a constant balance through every run |
| Lifecycle.RowsAddUp | cmd/server/main.go:132-184 | at rest, live rows are initial rows plus created minus deleted plus the erasures that failed |
| Lifecycle.BackedPerStep | cmd/server/main.go:132-184 | rows and pending creations stay on disk through a step exactly when it is not a retention deletion of one of them |
| Lifecycle.RowsAreBacked | internal/scheduler/scheduler.go:134-143 | over any run, rows and creations waiting for their row are backed in every state exactly when retention never deletes a recorded or about-to-be-recorded snapshot |
| Lifecycle.RecordedRowsAreBacked | cmd/server/main.go:132-153 | over any run, the rows alone are backed in every state exactly when retention deletes no recorded snapshot and no row is written for a snapshot that has left the disk |
| Lifecycle.OnlyLostRowsDangle | cmd/server/main.go:172-184 | at rest and with such retention, a live row's path is on disk exactly when its erasure did not fail |
| Lifecycle.RetentionCanOrphan | cmd/server/main.go:134-142 | a run in which retention runs between the disk step and the row step of a creation and leaves a live row without a snapshot |
| LifecycleServer.Handlers.CreateSnapshot | cmd/server/main.go:132-153 | the handler alone has the effect of its steps in the state machine, for every pattern of failures: the snapshot is on disk when its creation worked, also when the row write then failed; row and count come only with both |
| LifecycleServer.Handlers.DeleteSnapshot | cmd/server/main.go:172-184 | the same for deletion: success exactly when the row was found, its lookup worked and the snapshot came off the disk; then it is counted, and the row is gone exactly when its write worked; without success nothing changes |
| Replication.JobsStayConsistent | internal/replication/replication.go:47-149 | in every interleaving the place of a job's goroutine fixes its status, its entry in the jobs map, its events, its error and the order of its times |
| Replication.StatusOnlyMovesOn | internal/replication/replication.go:47-104 | each job's statuses are pending, running, then done or failed, none skipped and the last two never left |
| Replication.TableHoldsStartedJobs | internal/replication/replication.go:48-52 | the jobs map holds exactly the jobs that have been started |
| Replication.EventsMatchOutcomes | internal/replication/replication.go:89-147 | at most one event per job; done implies its completion event was tried; a failure event implies a failed job with a non-empty error and finish not before start; a finished goroutine tried exactly the event of its outcome |
| Replication.JobsDoNotInterfere | internal/replication/replication.go:107-115 | what becomes of a job depends on its own steps only |
| Replication.ScriptIsPossible | internal/replication/replication.go:47-115 | after any run, whatever other jobs are doing, a new job can be run to its end under each of the four scripts |
| Replication.JobTellsItsStory | internal/replication/replication.go:47-149 | whatever the other jobs do, the place and struct of a job determine exactly the steps it has taken, in order, with their times and error text |
| Replication.JobEndsAsAlone | internal/replication/replication.go:47-149 | in the middle of any other jobs, a job's goroutine is over exactly when its own steps are one of the four scripts, and then its struct, entry and event are what that script's attempts decide |
| ReplicationServer.Manager.Replicate | internal/replication/replication.go:47-104 | the method leaves the shared struct, the map and the events as that final state: done or failed, with start and finish times, and the error text of the attempt that failed |
| ReplicationServer.Manager.Abandon | internal/replication/replication.go:134-149 | failure sets status, error and finish time and tries the failure event |
| ReplicationServer.Manager.GetJob | internal/replication/replication.go:127-132 | finds a job exactly when the map holds it |
| ReplicationServer.Manager.ListJobs | internal/replication/replication.go:117-125 | lists exactly the jobs of the map |
| ApiKeys.HexIsInjective | internal/apikeys/apikeys.go:25-27 | different bytes print differently |
| ApiKeys.HexDigits | internal/apikeys/apikeys.go:25-27 | each byte prints as its two lower-case hexadecimal digits, the higher one first |
| ApiKeys.IdFollowsHash | internal/apikeys/apikeys.go:25-27 | the id is the start of the hash text, so equal hashes give equal ids and ids collide exactly on the first eight digest bytes |
| ApiKeys.RowsTellTheHistory | internal/storage/db.go:101-117 | after any calls the row under an id holds what the last call to store it gave, hash, prefix, name, role, creation time and expiry, and is active exactly when not revoked since |
| ApiKeys.AcceptanceIsHistory | internal/apikeys/apikeys.go:51-64 | with no assumption on the digest, a key is accepted exactly when the last call to store its id stored its hash and has been neither revoked nor outlived |
| ApiKeys.KeysAreGoodUntilRevoked | internal/apikeys/apikeys.go:21-72 | without collisions of the id bytes, a key is accepted at a time exactly when it was generated, not revoked since, and not expired then |
| ApiKeys.CollidingIdEvicts | internal/apikeys/apikeys.go:25-45 | generating a key that collides on the id bytes alone makes the earlier key invalid |
| ApiKeyServer.Store.Generate | internal/apikeys/apikeys.go:21-49 | the method stores one row, with the id, name, hash, prefix, role, times and expiry of the call, and its key is accepted until the calendar's expiry, for ever when no days are given; nothing is stored when no bytes are drawn or the write fails |
| ApiKeyServer.Store.Validate | internal/apikeys/apikeys.go:51-64 | accepts exactly when the lookup works and the row under the key's id has its hash, is active and not expired, and so when some call of the history vouches for the key; returns that row, with the name and role of that call; notes the use, when that works, and changes nothing else |
| ApiKeyServer.Store.Revoke | internal/apikeys/apikeys.go:70-72 | the row of the id, if there is one, is no longer active and nothing else changes; success exactly when the write works, for an unknown id too |

## Left out

- `cmd/cli`, `cmd/agent`, `web`, configuration, certificates, metrics other than the two snapshot counters, generated protocol code: no state of their own worth a theorem.
- `internal/auth`, the API key middleware and the role checks in the handlers: single branches over library calls.
- `internal/alerts/alerts.go`: sending mail and webhooks; an alert handed to `Send` is appended to a list.
- `parseList` in `internal/btrfs/btrfs.go`: the listing is an arbitrary sequence of paths, and its order a parameter.
- The cron library's parser and clock: acceptance is an arbitrary predicate of the schedule text, and a firing may happen at any time. Whether the default schedule of five fields is accepted by a parser that expects seconds is decided there.
- `ListPolicies`, `NextRun`, `ClientCount` and the list handlers: they only read.
- `handleRestore`, at cmd/server/main.go:403, beyond the snapshot it makes: its lookup and its event. A restore to a path that is taken goes wherever the btrfs tool puts it, which is a free path. Apart from `Lifecycle.DeletedOncePerRestore` the theorems about rows are for restores that leave the paths of taken rows alone.
- Paths in a subvolume under retention: deletions by hand there are not part of the retention model, and a snapshot is made where there is none and where no firing under way means to delete one. `SnapshotPath` sees to that while names differ or seconds pass; `Retention.PlannedPathGoesAgain` says what happens otherwise.
- Data sent by replication jobs: the buffer read is never sent on, so only job states and events are modelled.
- `filepath.Join` cleaning the base directory: a path starts with the cleaned directory, given as a parameter; names with a slash are outside the model.
- Go data races on the scheduler's maps and on job pointers handed out by `ListJobs`: scheduler calls follow one another, and job fields change in atomic steps.
- The connections, pings and write errors of `ServeWS`: a client may join, leave and receive at any moment.
- A waiting writer holding back new readers in Go's read-write lock: the model allows every run without that rule too.
- Wrap-around of the rate limiter's counter, daylight-saving folds in local time, and restarts that lose `lastStatus` and the scheduler's tables.
