# Verified models of Banana Suite protocols

Dafny models of the stateful protocols and of the sharper algorithms of Banana Suite (the sandbox runner, the operations
tool, the backup tool, the checkpoint agent, the web application's limits), with proofs about all their runs and inputs.
`dafny verify dfyconfig.toml` checks the whole project.

| file | what it models |
|---|---|
| SandboxLifecycle.dfy | the sandbox runner as a state machine over regions under its locks and engine commands that may fail |
| SandboxManager.dfy | those regions on the object's own fields, and the memory of removed sandboxes |
| EngineSlots.dfy | engine operations at once, and each sandbox's share of them |
| PathWalk.dfy | the path walker inside a container, on a tree that may change between any two system calls |
| UpdateTransaction.dfy | update, restore, backup and recover, each durable change one step with a crash on either side |
| SnapshotIds.dfy | snapshot IDs: dates, text order, new IDs |
| BackupSeries.dfy | the start of a series, downgrades and retention, in a repository where others add, replace and delete branches |
| BackupTransfer.dfy | framing, parts, limits, and what a download gives back |
| CheckpointRequest.dfy | the checkpoint agent's requests, parsed and stored |
| CheckpointState.dfy, CheckpointQueue.dfy | its jobs, queue, worker and state file, over crashes and restarts |
| CheckpointRoom.dfy, CheckpointBulk.dfy | why the worker can record every failure, and the sizes at which it could not |
| BodyDeadline.dfy | the reader and timer of a request body's deadline |
| FailureWindow.dfy | the sliding window of failed authentications |
| EnvironmentFile.dfy | the printer and the parser of settings files |
| Amounts.dfy | the printers and the tolerant parser of token amounts |
| DownloadPlaces.dfy | download, long-request and reply places, and how a request keeps them |
| Texts.dfy, Basics.dfy | shared helpers: numbers as text, the order of text, options |

Code that changes fields is modelled by classes whose methods are the regions under the lock; a run is any sequence of
their calls, so an invariant that every method keeps holds in every run. The sandbox lifecycle, whose engine commands
run outside the lock, is a step relation instead; the class of its regions carries a state of that relation and makes
its steps. The backup series has both: a step relation for runs with other writers, and methods for the loops.

## What is assumed

- Sandbox runner: names are unique; a `run` that failed, was killed or ended creates no container later; a successful
  `rm`, or one that finds no container, means the container is gone; `run` raises only when the engine program could not
  start.
- Path walk: nothing inside the workspace is a mount point of another file system; where the result is compared with
  recursive resolution, a directory has one parent and keeps it.
- Operations tool: one atomic replacement or removal is one durable step; commands may fail at any point; running
  services, also those a reboot starts, change data/ as they like.
- Backups: a tag of HMAC-SHA256 can be made only with its key; age undoes its own encryption and is what section
  "Payload" of the C2SP age v1 specification says of sizes, with a header of at most 1 MiB; the JSON parser reads back
  what was printed of the metadata of an upload (`BackupTransfer.Ideal`, which `BackupTransfer.SomeToolsAreIdeal` shows
  can be met). Where a branch may hold what others put there, no part of it collides with one of the upload under
  SHA-256. Clock readings of one server increase strictly; a series begins without indexes of development builds that
  record no start.
- Checkpoint agent: job IDs are unique; a request's SHA-256 fingerprint stands for the request; device, inode, size and
  time of change identify what a file holds; where the state file's size matters, fewer jobs take no more bytes, and
  neither does a job put back to waiting (`CheckpointState.Encoding`); where the worker's end matters, a managed record
  takes no more bytes than its job and another one (`CheckpointRoom.Compact`, which `CheckpointRoom.PayloadIsCompact`
  proves of the text of state.json).
- Requests: one thread reads a body; a view takes at most one download place; each release function is called by one
  thread at a time.

## Results that differ from the documentation

- A series keeps its start exactly when each upload reads an authenticated snapshot. `_authenticated_index`
  (banana_backup/store.py:239-253) treats a failed fetch like a forgery, so one failed fetch of the only authenticated
  snapshot records a second start: `BackupSeries.AFailedFetchForks`, `BackupSeries.StartIsKeptIff`. For the same reason
  a scan that can read no authenticated snapshot lets an unauthenticated one through whatever its plausible date, also
  after the start: `BackupSeries.AForgeryPasses`, `BackupSeries.ForgeriesAreRefused`. While no fetch fails and one
  authenticated snapshot is always listed, neither happens: `BackupSeries.RepositoryKeepsStart`.
- A settings file reads back as it was written exactly when no value holds a character below U+0020, U+0085, U+2028 or
  U+2029; `write_environment` refuses only three of them: `EnvironmentFile.RoundTripIff`, and for a tab
  `EnvironmentFile.ATabReadsAsTwoCharacters`.
- Recovery re-seeds an empty hosting site from the release that `current` still names, so a rollback restores such a
  site only if that release ships none: `UpdateTransaction.RollbackRestores`, `UpdateTransaction.RollbackMaySeed`.
- The handler of an unexpected error in the checkpoint worker lets the error of a too large state through, which ends
  the worker, exactly when the other unfinished jobs and the managed records alone are too large:
  `CheckpointQueue.CheckpointAgent.Recover`. Whether that can be is a matter of the encoding. It cannot when a record
  takes no more bytes than two jobs (`CheckpointQueue.CheckpointAgent.AnyRun`), and in the text of state.json none does
  (`CheckpointRoom.PayloadIsCompact`), so the worker ends only with the agent. With records that take more it can end:
  `CheckpointBulk.AWorkerEnds`.
- With a clock before the year 1000 a new ID is no snapshot ID, and in the last day of the year 9999 comparing dates
  overflows: `SnapshotIds.NewIdIs`, `SnapshotIds.NextSnapshot`, `SnapshotIds.AnEarlyIdIsNone`,
  `SnapshotIds.ALateClockOverflows`.

## Model

| member | source | states |
|---|---|---|
| `SandboxLifecycle.StepKeepsInv` | compute/sandbox_runner.py:1098-1209 | Every step of every thread (a region under `_lock`, an engine command starting, succeeding, failing or raising, a container dying by itself) keeps the whole invariant: the books of `_sandboxes`, `_pending`, `_doomed`, and what the holder of `_cleanup_lock` relies on |
| `SandboxLifecycle.CapacityIsKept` | compute/sandbox_runner.py:1334-1374 | In every interleaving, registered sandboxes plus this run's pending or doomed names never exceed `max_sandboxes` |
| `SandboxLifecycle.NoContainerIsForgotten` | compute/sandbox_runner.py:1133-1146 | In every reachable state each existing container this run started is registered, pending or doomed |
| `SandboxLifecycle.RemovalHitsNothingLive` | compute/sandbox_runner.py:1393-1407 | While the engine is asked to remove a container, whoever asked, its name is doomed, no registered sandbox has it and no creation is in flight under it |
| `SandboxLifecycle.PlanIsGood` | compute/sandbox_runner.py:1175-1191 | Reconcile plans exactly the removal of every listed container that is neither known nor registered nor pending, and of every known sandbox, not pending, that the listing lacks or shows stopped; and every one of these removals is safe |
| `SandboxLifecycle.ReconcileIsSafe` | compute/sandbox_runner.py:1164-1191 | In every reachable state what reconcile removes as unknown is not registered and belongs to no creation in flight, what it removes as stopped or missing was not listed as running, and nothing else of either kind is left out |
| `SandboxLifecycle.DecisionIsExact` | compute/sandbox_runner.py:1175-1191 | The step after the listing picks exactly these removals and changes nothing else |
| `SandboxLifecycle.PassClears` | compute/sandbox_runner.py:1133-1146 | A pass whose removals succeed, with any steps of other threads between them, leaves of every name it was to remove no container, no doomed name and no sandbox, and nothing can come back under it |
| `SandboxLifecycle.ReconcileClearsUnknown` | compute/sandbox_runner.py:1164-1191 | A whole reconcile, others creating, deleting and dying meanwhile: every container it listed that nobody had registered or was creating when it decided is gone |
| `SandboxLifecycle.ReconcileClearsDead` | compute/sandbox_runner.py:1164-1191 | And every sandbox registered at its start whose container it saw missing or stopped is forgotten, with what is left of its container |
| `SandboxLifecycle.ReapClears` | compute/sandbox_runner.py:1193-1209 | A reap clears the sandboxes it chose and every container that an earlier removal left doomed, and goes on to reconcile |
| `SandboxLifecycle.RemoveClears` | compute/sandbox_runner.py:1393-1407 | A removal, also of a sandbox whose first removal failed, clears it |
| `SandboxLifecycle.CleanupClears` | compute/sandbox_runner.py:1343-1362 | A failed creation that cleans up leaves no container |
| `SandboxLifecycle.AdmissionHasRoom` | compute/sandbox_runner.py:1337-1339 | The one check before admission leaves room for the name it adds |
| `SandboxLifecycle.AdmissionIff` | compute/sandbox_runner.py:1334-1339 | A new name is admitted exactly while the runner is not stopping and what is registered, pending or doomed is less than the limit |
| `SandboxLifecycle.AllPlacesCanBeTaken` | compute/sandbox_runner.py:1334-1339 | A runner that has begun admits max_sandboxes creations, one after the other |
| `SandboxLifecycle.NothingRegistersAfterStop` | compute/sandbox_runner.py:1363-1370 | Once `_stop` is set under the lock no run of any length registers a sandbox again |
| `SandboxLifecycle.ShutdownLeavesNothing` | compute/sandbox_runner.py:1098-1113 | A shutdown whose wait did not time out and whose last removals succeeded ends with the three sets empty and no container of this run alive |
| `SandboxLifecycle.QuietForGood` | compute/sandbox_runner.py:1098-1115 | After that nothing comes back, whatever late deletes, reaps or reconciles still do |
| `SandboxRegions.SandboxManager.TakePlace` | compute/sandbox_runner.py:1334-1339 | The admission region on the object's fields: 503 exactly when stopping, 429 exactly when registered and pending or doomed names make up the limit, else it is the step that makes the name pending; the fields stay the shared part of a state that satisfies the lifecycle's invariant |
| `SandboxRegions.SandboxManager.Enter` | compute/sandbox_runner.py:1363-1367 | Registration of a verified container is the lifecycle's step: registered and no longer pending in one region, or refused when stopping; the invariant of the whole runner is kept |
| `SandboxRegions.SandboxManager.StopPending` | compute/sandbox_runner.py:1371-1374 | The last region of a creation is the lifecycle's last step of it; the invariant is kept, so what was pending and still has a container is doomed by then |
| `SandboxRegions.SandboxManager.MarkDoomed` | compute/sandbox_runner.py:1135-1136 | The region before `rm` begins a planned removal of the lifecycle and keeps the invariant, so the removal hits nothing live |
| `SandboxRegions.SandboxManager.ForgetDoomed` | compute/sandbox_runner.py:1141-1143 | The region after a successful `rm` ends that removal and keeps the invariant, so no container of the forgotten name exists |
| `SandboxRegions.SandboxManager.RetireBox` | compute/sandbox_runner.py:1395-1405 | The region of `remove` is the lifecycle's step: nothing when the sandbox is gone and its container too, else doomed, unregistered and gone; the id is remembered as the latest removal |
| `SandboxRegions.SandboxManager.Stop` | compute/sandbox_runner.py:1099-1100 | Setting the stop flag is the lifecycle's step and keeps the invariant |
| `SandboxRegions.SandboxManager.Elsewhere` | compute/sandbox_runner.py:1098-1209 | Every other step (of the engine, of a thread between regions, of the environment) leaves the fields as they are and keeps the invariant |
| `SandboxRegions.SandboxManager.CountsFit` | compute/sandbox_runner.py:1337 | At all times the fields hold no more than max_sandboxes of what admission counts for this run |
| `SandboxRegions.SandboxManager.Get` | compute/sandbox_runner.py:1383-1391 | Found exactly when registered, 410 exactly when a remembered removal, else 404 |
| `SandboxRegions.RemembersTheLatest` | compute/sandbox_runner.py:1402-1405 | After any sequence of removals, repeated ones included, `_removed` holds exactly the most recently removed ids up to the limit |
| `EngineSlots.EnterBalances` | compute/sandbox_runner.py:1424-1429 | Counting an operation in keeps each sandbox's counter equal to its operations under way and within its share, and the semaphore equal to the slots not held |
| `EngineSlots.HoldBalances` | compute/sandbox_runner.py:1430-1436 | Taking and giving back a slot keep the same balance |
| `EngineSlots.LeaveBalances` | compute/sandbox_runner.py:1437-1440 | Counting an operation out, with or without a slot before, keeps the same balance |
| `EngineSlots.IdleIsEmpty` | compute/sandbox_runner.py:1417-1440 | When no operation is under way all slots are free and no sandbox has one |
| `EngineSlots.Slots.Enter` | compute/sandbox_runner.py:1424-1429 | Refused exactly when the sandbox runs its share; then nothing changes |
| `EngineSlots.Slots.Acquire` | compute/sandbox_runner.py:1431-1433 | Refused exactly when as many operations as allowed hold a slot |
| `EngineSlots.Slots.Release` | compute/sandbox_runner.py:1434-1436 | The slot is given back |
| `EngineSlots.Slots.Leave` | compute/sandbox_runner.py:1437-1440 | The sandbox's place is given back, whether the operation had a slot or was refused one |
| `PathWalk.TurnStaysInside` | compute/sandbox_runner.py:137-186 | With arbitrary changes to the tree between any two system calls, one turn of the loop keeps every descriptor in the workspace and uses up a hop or a pending name |
| `PathWalk.Walk` | compute/sandbox_runner.py:133-187 | `walk` terminates, ends with descriptors of the workspace only, refuses paths outside it with 91, on an unchanged tree ends as recursive resolution of the path's components with links, `..` and the 40-link limit does, and on one that only grows, as when it makes the missing directories itself, finds the place that resolution in the tree it saw last finds |
| `PathWalk.FlatIsResolve` | compute/sandbox_runner.py:163-175 | Prepending a link's components to the pending ones is the same as resolving the link recursively |
| `PathWalk.PartsJoin` | compute/sandbox_runner.py:128-129 | The components of a path are those before a slash and those behind it |
| `PathWalk.PartsOfName` | compute/sandbox_runner.py:128-129 | Nothing and "." are no components, any other name is one, ".." too |
| `PathWalk.PathGoesOn` | compute/sandbox_runner.py:137-186 | What follows a path to a directory is resolved from there |
| `PathWalk.DotDotGoesBack` | compute/sandbox_runner.py:140-144 | In a path a directory followed by ".." makes no difference |
| `PathWalk.DotDotAtRoot` | compute/sandbox_runner.py:140-144 | ".." leads to the directory a directory is in, and at the workspace's root it is refused |
| `PathWalk.LinkMeansTarget` | compute/sandbox_runner.py:163-175 | In a path a link means the text of its target, from its own directory or from the root; a target outside is refused, and so is the 41st link |
| `PathWalk.ABackAndB` | compute/sandbox_runner.py:128-144 | "/workspace/a/../b" names the file "b" of the workspace |
| `PathWalk.ReadBackAndB` | compute/sandbox_runner.py:190-232 | And reading it opens that file |
| `PathWalk.TurnStaysOnTrack` | compute/sandbox_runner.py:137-186 | On an unchanged tree every turn keeps the rest of the walk leading to the same place |
| `PathWalk.TurnStaysOnPath` | compute/sandbox_runner.py:137-186 | On a tree that only grows, every turn, a directory made or a link followed included, keeps the rest of the walk leading to where the whole path leads in every later tree |
| `PathWalk.TurnFails` | compute/sandbox_runner.py:137-186 | On such a tree, if missing directories can be made, a turn below the limit of hops fails only if resolving the whole path in the tree it saw fails |
| `PathWalk.AWalkMakesADirectory` | compute/sandbox_runner.py:145-162 | One such walk: a missing directory is made, found and entered |
| `PathWalk.Read` | compute/sandbox_runner.py:190-232 | `read` opens only files and directories of the workspace, whatever changes meanwhile; on an unchanged tree it answers what the resolved place is |
| `PathWalk.Write` | compute/sandbox_runner.py:232-250 | `write` opens or creates only in the workspace, whatever changes meanwhile; on an unchanged tree it opens the resolved place or fails with the status of what is there; where the walk makes missing directories it opens what the resolved place then is, and below the limit of hops, if they can all be made, it opens exactly the paths that resolve to a missing name or a regular file; it never fails for a missing directory |
| `UpdateTransaction.Manager.Step` | banana_ops/manager.py:386-391 | A durable change is all there or not at all, and the process may end on either side of it |
| `UpdateTransaction.Manager.Quiesce` | banana_ops/manager.py:386-391 | The journal is on disk before anything else, and nothing but data/, by services, has changed |
| `UpdateTransaction.Manager.WriteBackup` | banana_ops/manager.py:425-451 | The journal on disk names a package only once it is finished and holds the stopped installation; an existing package is never overwritten |
| `UpdateTransaction.Manager.Begin` | banana_ops/manager.py:551-558 | When the part before the first change is over, the journal names the finished package of the stopped installation, and nothing else has changed |
| `UpdateTransaction.Manager.Finish` | banana_ops/manager.py:468-478 | Services start on the whole installation that was there, and removing the journal is the commit |
| `UpdateTransaction.Manager.Start` | banana_ops/manager.py:468-473 | Services start only on a whole installation, which is then recorded; health checks may fail |
| `UpdateTransaction.Manager.ReplaceFiles` | banana_ops/manager.py:685-717 | The first half of applying a package: data and site are the package's, and the update source's files if they are copied |
| `UpdateTransaction.Manager.Configure` | banana_ops/manager.py:718-754 | The second half: the database without interrupted work, environment, hosting site and settings; nothing else |
| `UpdateTransaction.Manager.SwitchOver` | banana_ops/manager.py:927-941 | Environment, current release and units of the restored installation; nothing else |
| `UpdateTransaction.Manager.CopySources` | banana_ops/manager.py:711-717 | Afterwards the five update source files are exactly the package's, written or removed one by one |
| `UpdateTransaction.Manager.WriteRuntime` | banana_ops/manager.py:267-289 | Environment, provisioned data and a seeded hosting site, and nothing else; cut short, only those three may differ |
| `UpdateTransaction.Manager.ApplyPackage` | banana_ops/manager.py:676-754 | Data and site are the package's, configuration and settings the new ones; cut short anywhere, releases, packages, journal, units and the current release are untouched |
| `UpdateTransaction.Manager.Recover` | banana_ops/manager.py:756-776 | From any state a crash may leave, and cut short any number of times itself: recovery starts services at most once, and whether it gets through or not, only on the installation the backup holds if the journal names one, else on the disk as it is |
| `UpdateTransaction.Manager.Update` | banana_ops/manager.py:504-590 | An update ends with the old installation still journalled, or untouched, or services started on the whole new one; success means the last: data/ as it was when stopped, with what was missing in it made, the old environment with the new link and defaults, the old sources, the site unless it was an empty hosting site, the new settings, release and units; it starts services at most once, and only on that |
| `UpdateTransaction.Manager.Deploy` | banana_ops/manager.py:562-569 | The steps of an update produce exactly that, field by field, from what was there |
| `UpdateTransaction.Manager.Restore` | banana_ops/manager.py:911-949 | The same for a restore, which also undoes a replaced update source: on success data, site and environment are the package's, the environment with the machine's own settings if the release is switched, and an existing update source stays |
| `UpdateTransaction.Manager.Overwrite` | banana_ops/manager.py:924-942 | The steps of a restore produce exactly that, field by field |
| `UpdateTransaction.UpdateKeepsFiles` | banana_ops/manager.py:267-289 | Where provisioning only makes what is missing, an update loses no file of data/ or the site and keeps the sources |
| `UpdateTransaction.UpdateChangesRelease` | banana_ops/manager.py:562-569 | Of itself an update changes the settings, the release and the units, and fills an empty hosting site, nothing else |
| `UpdateTransaction.RestoreGivesBack` | banana_ops/manager.py:924-942 | Of itself a restore gives back the packed installation, whether the release is switched or not |
| `UpdateTransaction.SwitchKeepsMachine` | banana_ops/manager.py:927-940 | Switching changes the environment of a restore and nothing else |
| `UpdateTransaction.Manager.Backup` | banana_ops/manager.py:483-502 | A backup packs the stopped installation and starts services on it again |
| `UpdateTransaction.Manager.Settle` | banana_ops/manager.py:756-776 | Any number of crashes inside recovery, with services writing between them, still leads back to the old installation: what the backup holds, data/ included, if the journal names one, else the disk as it was; every start of services on the way is on that installation |
| `UpdateTransaction.Manager.UpdateThroughCrashes` | banana_ops/manager.py:551-574 | For an update and every crash after it: if the journal was on disk when the update ended, the old installation comes back, unpacked from the backup if the journal names one; if it had been removed, services started on the whole new one; and no start at all, not even of a recovery cut short, is on anything but the whole new installation (once, by the update) or the old one (from then on) |
| `UpdateTransaction.Manager.RestoreThroughCrashes` | banana_ops/manager.py:911-958 | The same for a restore |
| `UpdateTransaction.RollbackRestores` | banana_ops/manager.py:764-772 | A rollback gives back everything but data/ rewritten by provisioning and added environment defaults, and the site exactly if and only if it was not an empty hosting site that the current release fills |
| `UpdateTransaction.RollbackMaySeed` | banana_ops/manager.py:280-289 | Such a site: an update from a release without a site to one that ships it, rolled back after `current` was switched, leaves the old release with the new one's site |
| `SnapshotIds.EarlierIffLess` | banana_backup/store.py:33-41 | For valid dates the order of the fields is the order in time, and equal times are equal dates, across month lengths and leap years |
| `SnapshotIds.SuccIsNext` | banana_backup/store.py:58-59 | Adding a microsecond is the next instant, across midnight, month ends and leap years |
| `SnapshotIds.TextOrderIsTimeOrder` | banana_backup/store.py:27-41 | Two printed dates sort as text exactly as they follow in time |
| `SnapshotIds.OrderIs` | banana_backup/store.py:27-30 | The sort key of an ID of either format is its date to the microsecond |
| `SnapshotIds.OrderIsChronological` | banana_backup/store.py:27-30 | IDs of both formats sort by `_snapshot_order` in the order of their dates |
| `SnapshotIds.PrintedTimeParses` | banana_backup/store.py:33-41 | A date printed in a year of four digits parses back to itself |
| `SnapshotIds.NewIdIs` | banana_backup/store.py:60 | A new ID has the form of a snapshot ID if and only if its year has four digits (`strftime` pads none); then it reads back as its time |
| `SnapshotIds.NextSnapshot` | banana_backup/store.py:50-60 | It raises exactly when a date overflows; from the year 1000 on, the new ID is later than every plausible previous one, never earlier than now, never later than now plus the skew and a microsecond whatever else has been pushed, and exactly now or one microsecond past a plausible one |
| `SnapshotIds.AnEarlyIdIsNone` | banana_backup/store.py:60 | A clock in the year 999 prints no snapshot ID |
| `SnapshotIds.ALateClockOverflows` | banana_backup/store.py:44-47 | On the last day of the year 9999 a name dated in 2024 makes the comparison overflow |
| `BackupSeries.InTimeIsPlausible` | banana_backup/store.py:44-47 | A branch name counts exactly when it is a date no later than now plus the skew |
| `BackupSeries.SortsAsText` | banana_backup/store.py:273 | Sorting listed names by date is sorting them by the text of `_snapshot_order` |
| `BackupSeries.Newest` | banana_backup/store.py:273 | The list that is scanned: exactly the plausibly dated branches, newest first |
| `BackupSeries.AuthenticatedSince` | banana_backup/store.py:259-286 | The scan of at most MAX_UNVERIFIED unauthenticated branches computes the specified start, gives up, or finds nothing |
| `BackupSeries.TooManyIff` | banana_backup/store.py:275-281 | The scan gives up exactly when more than MAX_UNVERIFIED branches that do not read as authenticated come before the first that does, whatever the branches record |
| `BackupSeries.FoundIsSaid` | banana_backup/store.py:282-286 | A start that is found is plausible, and what an authenticated, plausibly dated branch that is as new records, or its own name |
| `BackupSeries.OldestIsStart` | banana_backup/store.py:282-286 | Where no authenticated branch records a start that can be one, the oldest is it |
| `BackupSeries.StartAgrees` | banana_backup/store.py:259-286 | Where authenticated snapshots agree on the start, the scan gives up if it is swamped like that, else finds the start if it reads one of them, and finds nothing if it reads none |
| `BackupSeries.RefuseDowngrade` | banana_backup/store.py:288-308 | An unauthenticated snapshot is refused exactly when its ID is no plausible date, the scan gave up, or it is not older than the start |
| `BackupSeries.ConstantStart` | banana_backup/store.py:355-373 | Over any run of uploads, prunes and branches that others add, replace or delete, if every upload reads one authenticated, plausibly dated snapshot, all authenticated indexes ever published record one start, never later than their own ID |
| `BackupSeries.StartIsKeptIff` | banana_backup/store.py:355-373 | An upload keeps the start if and only if its scan read such a snapshot, or its own ID is the start |
| `BackupSeries.AFailedFetchForks` | banana_backup/store.py:239-253 | Two uploads into an empty repository, on the night of February 29th, 2024, each right after its listing: the fetch of the first snapshot, the only authenticated one, fails in the second, and the series has two starts |
| `BackupSeries.AuthenticIsMade` | banana_backup/crypto.py:67-100 | What passes for authenticated under a name was published by this key for that very name: an index shown under another name does not count |
| `BackupSeries.ForgeriesAreRefused` | banana_backup/store.py:288-308 | In every state of such a run an unauthenticated snapshot is let through if and only if its date is plausible, no more than MAX_UNVERIFIED unreadable or unauthenticated ones come first, and the scan either read no authenticated snapshot or the date is before the start of the series |
| `BackupSeries.AForgeryPasses` | banana_backup/store.py:239-253 | Such a scan: after a series' first upload somebody pushes a snapshot dated a microsecond later; the fetch of the first one fails, and the forgery is let through |
| `BackupSeries.RepositoryKeepsStart` | banana_backup/store.py:355-373 | In terms of the repository: while uploads take a listing first, no fetch of a scan fails and from the first publication on every listing finds an authenticated snapshot, all authenticated indexes record one start, whatever others push, replace and delete |
| `BackupSeries.UndisturbedReads` | banana_backup/store.py:259-286 | Under those conditions every upload reads an authenticated, plausibly dated snapshot |
| `BackupSeries.Repository.Remove` | banana_backup/git.py:313-314 | A branch is deleted exactly when it is still what was listed and may be deleted; all others stay |
| `BackupSeries.Repository.Prune` | banana_backup/store.py:401-446 | Exactly the branches behind the cut that may be deleted are deleted and reported, after at most keep + MAX_UNVERIFIED reads |
| `BackupSeries.CutCounts` | banana_backup/store.py:426-435 | Exactly `keep` authenticated snapshots stand before the cut |
| `BackupSeries.NoCutMeans` | banana_backup/store.py:427-430 | Nothing is deleted only if fewer than `keep` are authenticated or MAX_UNVERIFIED others come first |
| `BackupSeries.DeletedBehindKept` | banana_backup/store.py:401-446 | A branch is deleted only if `keep` authenticated, plausibly dated branches that are as new stay; one whose name is no plausible date never is |
| `BackupSeries.RetentionKeeps` | banana_backup/store.py:401-446 | Retention leaves at least min(keep, all) authenticated snapshots, whatever others pushed and whichever fetches fail |
| `BackupSeries.RetentionDeletes` | banana_backup/store.py:426-440 | When enough authenticated snapshots are among the readable ones, everything behind the `keep`-th is deleted |
| `BackupSeries.RetentionIsExact` | banana_backup/store.py:426-440 | Where all listed snapshots are authenticated, plausibly dated, readable and deletable, exactly min(keep, all) stay |
| `BackupSeries.PushedIs` | banana_backup/store.py:371-374 | What an upload publishes: its own context, ID and parts, tagged with the key, and the start the listed snapshots agree on, or its own ID |
| `BackupSeries.Uploader.Upload` | banana_backup/store.py:339-399 | Whatever others make of the repository before the push, before the check and before retention: the snapshot is published under the next ID with the start of the series, unless it is unnamed, flooded or its name taken; nothing is deleted unless the pushed snapshot was read back, and never by an append-only series; else what the first listing makes outdated goes: at least min(keep, previous authenticated + 1) are there if others left the authenticated snapshots alone, and exactly min(keep, previous + 1) if nobody else wrote and all counted |
| `BackupTransfer.WriteParts` | banana_backup/store.py:363-369 | The reading loop writes exactly the split of the sealed file |
| `BackupTransfer.SplitJoins` | banana_backup/store.py:363-369 | The parts are not empty, within PART_BYTES, as few as possible, and join to the whole |
| `BackupTransfer.UnsealSealed` | banana_backup/crypto.py:103-168 | Decrypting what was encrypted in the same context gives the package back, whatever bytes it holds |
| `BackupTransfer.UnsealRefuses` | banana_backup/crypto.py:128-168 | Only what decrypts to the first line, metadata for this very product, series and snapshot, and a package of the length and digest it says is given back |
| `BackupTransfer.ForeignIsRefused` | banana_backup/crypto.py:156-159 | A package sealed for another product, series or snapshot is refused |
| `BackupTransfer.SealedFits` | banana_backup/store.py:361-362 | Framing, header and the 16-byte tag of every 64 KiB chunk leave room for the index below the size limit |
| `BackupTransfer.Fetch` | banana_backup/git.py:230-256 | A tree is let through if and only if all its entries are regular, known, distinct and within their limits, with an index and within the total and the entry count |
| `BackupTransfer.Assemble` | banana_backup/store.py:222-234 | The parts are joined if and only if each is what the index says of it |
| `BackupTransfer.Download` | banana_backup/store.py:199-237 | A download succeeds if and only if everything checked before decryption holds and the joined parts unseal; then the index is authentic and for this context, the tree holds it and one regular file for each of its 1 to 34 parts, with its name, size and digest, and the package is the one that was sealed for it |
| `BackupTransfer.Build` | banana_backup/store.py:345-374 | An upload builds exactly the specified branch, or is refused for the package's size; the check of the sealed size never refuses what the first one let through |
| `BackupTransfer.UploadedFetches` | banana_backup/store.py:345-374 | Every package accepted by size splits into a branch within all limits: part sizes, at most 34 parts, 36 entries, the total with the index |
| `BackupTransfer.IndexFits` | banana_backup/store.py:371-373 | The JSON text of an index with at most 34 parts, its tag and its start is within the 128 KiB a fetch allows |
| `BackupTransfer.SomeToolsAreIdeal` | banana_backup/crypto.py:103-168 | What the results of this module assume of age, SHA-256 and JSON can be met: concrete tools that meet all of it |
| `BackupTransfer.RoundTrip` | banana_backup/store.py:339-391 | Every package `upload` accepts by size passes the download's checks, which gives back the identical bytes |
| `BackupTransfer.OnlyThisPackage` | banana_backup/store.py:205-237 | Under an index that a package's upload authenticated, whatever others put in the branch is refused or is that package, unless it collides with a part of that package under SHA-256 |
| `CheckpointRequest.ParsedIsOk` | compute/checkpoint_agent.py:222-265 | A parsed request has a repository, revision, paths and key of the allowed forms, a digest without capitals and a size within the limit |
| `CheckpointRequest.ReparsesIff` | compute/checkpoint_agent.py:493-508 | The fields of a job parse back to its request if and only if the request is of that form |
| `CheckpointRequest.ParseIsIdempotent` | compute/checkpoint_agent.py:222-265 | Parsing is idempotent: an accepted request, stored with its job, is accepted again with the same result |
| `CheckpointRequest.StoredIsNormal` | compute/checkpoint_agent.py:252-265 | What is stored is the body itself, with null for missing fields and its digest in lower case; nothing else changes |
| `CheckpointRequest.SameRequestIff` | compute/checkpoint_agent.py:649-657 | Two bodies make the same request, and repeat an idempotency key without conflict, exactly when they differ in nothing but that |
| `CheckpointRequest.JoinSplit` | compute/checkpoint_agent.py:208-219 | Splitting a path at its slashes and joining it again gives the path |
| `CheckpointRequest.PathStaysBelow` | compute/checkpoint_agent.py:205-219 | An accepted path never leads out of its directory, to it, or to a hidden file, and ends in .safetensors |
| `CheckpointRequest.PathsAreAccepted` | compute/checkpoint_agent.py:205-219 | Any file in any directories of allowed names is an accepted path |
| `CheckpointRequest.RepoIdIff` | compute/checkpoint_agent.py:188-196 | A repository is an owner and a name, with one slash |
| `CheckpointRequest.RepoIdOf` | compute/checkpoint_agent.py:188-196 | And any two allowed names make one |
| `CheckpointRequest.OtherFieldsAreRefused` | compute/checkpoint_agent.py:225-233 | A body with an unknown field is refused |
| `CheckpointRequest.SourceFieldsAreExact` | compute/checkpoint_agent.py:234-241 | A source has exactly its four fields |
| `CheckpointState.SubmitOk` | compute/checkpoint_agent.py:652-676 | A new job with a new key, when fewer than queue_size wait and at most one runs, keeps unique keys and at most queue_size + 1 unfinished jobs |
| `CheckpointState.IndexIsRank` | compute/checkpoint_agent.py:549-555 | A finished job's index in the sorted list is the number of newer finished jobs |
| `CheckpointState.Removals` | compute/checkpoint_agent.py:546-559 | What pruning lists are exactly the finished jobs that are too old or have `keep` newer ones |
| `CheckpointState.PrunedIsTrimmed` | compute/checkpoint_agent.py:546-559 | Pruning drops no unfinished job, and with a finished one it keeps every newer one |
| `CheckpointState.PrunedIsSmall` | compute/checkpoint_agent.py:546-559 | At most `keep` finished jobs are left |
| `CheckpointState.PrunedCounts` | compute/checkpoint_agent.py:546-559 | Exactly min(keep, the finished jobs that are not too old) are left, and none that is too old |
| `CheckpointState.TrimmedKeepsYounger` | compute/checkpoint_agent.py:549-557 | What is forgotten is finished and no younger than any finished job that is kept |
| `CheckpointQueue.CheckpointAgent.Prune` | compute/checkpoint_agent.py:546-559 | The in-place deletion leaves exactly the pruned jobs and reports whether any went |
| `CheckpointQueue.CheckpointAgent.Shrink` | compute/checkpoint_agent.py:568-575 | The halving loop ends; a newest-first prefix of at most 500 finished jobs is left, and none if the state is still over half the limit; no more is dropped than the first pruning if that sufficed |
| `CheckpointQueue.CheckpointAgent.Persist` | compute/checkpoint_agent.py:568-597 | On success the file equals memory and is within the limit; otherwise it is untouched; no unfinished job and no managed record is dropped |
| `CheckpointQueue.TooLargeIff` | compute/checkpoint_agent.py:568-577 | A state is refused for its size if and only if its unfinished jobs and managed records alone are too large |
| `CheckpointQueue.CheckpointAgent.Post` | compute/checkpoint_agent.py:647-685 | A body is refused exactly when it does not parse, and then nothing changes; an accepted or repeated one is a job that stores the body in its normal form; a conflict means that no job does |
| `CheckpointQueue.CheckpointAgent.Submit` | compute/checkpoint_agent.py:647-685 | A known key answers its job or a conflict, a full queue is refused, else the job is recorded as waiting, with nothing received, and queued last; a job that could not be saved leaves no trace |
| `CheckpointQueue.CheckpointAgent.RecordNew` | compute/checkpoint_agent.py:676-683 | The job is in memory and in the file, or in neither |
| `CheckpointQueue.CheckpointAgent.Cancel` | compute/checkpoint_agent.py:694-708 | Unknown and finished jobs are refused, a waiting job ends at once as canceled and frees its place, a running one is flagged |
| `CheckpointQueue.CheckpointAgent.NextJob` | compute/checkpoint_agent.py:816-822 | The oldest waiting job is taken, dropping only places of jobs that ended; all other waiting jobs keep theirs |
| `CheckpointQueue.CheckpointAgent.TakeNext` | compute/checkpoint_agent.py:824-836 | Jobs are taken in the order of arrival within a process; idle means that nothing waits |
| `CheckpointQueue.CheckpointAgent.Begin` | compute/checkpoint_agent.py:848-859 | A job that still waits and is not cancelled starts; otherwise nothing changes |
| `CheckpointQueue.CheckpointAgent.Progress` | compute/checkpoint_agent.py:969-973 | Only the running job's progress changes, and it is not saved |
| `CheckpointQueue.CheckpointAgent.End` | compute/checkpoint_agent.py:860-918 | A stopped agent's download waits again, with nothing received; else it ends as completed with its digest, size and record, as canceled, or as failed with its code; it is saved if and only if the file can be written and the unfinished jobs and managed records alone are not too large |
| `CheckpointQueue.CheckpointAgent.Recover` | compute/checkpoint_agent.py:837-843 | After an exception the job fails; the worker ends if and only if the other unfinished jobs and the managed records, as they were before, are too large to save |
| `CheckpointRoom.FailureFits` | compute/checkpoint_agent.py:837-843 | While there is room for all unfinished jobs but any one, the failure of a job can be recorded |
| `CheckpointRoom.InstalledStaysRoomy` | compute/checkpoint_agent.py:877-897 | An installed checkpoint leaves that room, saved or not: its record takes the place of its job and of any other one |
| `CheckpointRoom.FewerStaysRoomy` | compute/checkpoint_agent.py:694-708 | Jobs that end, and records that are deleted, leave that room |
| `CheckpointQueue.CheckpointAgent.Perform` | compute/checkpoint_agent.py:647-918 | Every region keeps that room, and every unfinished job in the file |
| `CheckpointRoom.PayloadIsCompact` | compute/checkpoint_agent.py:561-566 | The text of state.json is such an encoding for every configurable size limit: a record, which says its path of at most 512 characters twice, takes no more bytes than its job and another one |
| `CheckpointBulk.AWorkerEnds` | compute/checkpoint_agent.py:837-843 | With sizes for which that fails, a worker may end: a run of an agent that nobody stops, in which neither an installed checkpoint nor then the failure of the next job can be recorded |
| `CheckpointQueue.CheckpointAgent.Restart` | compute/checkpoint_agent.py:446-539 | From the file alone, wherever the process ended: exactly the unfinished jobs wait again, as they were asked for, the first created first, finished ones are what they were, and every file the agent can have written is accepted |
| `CheckpointQueue.CheckpointAgent.PutBack` | compute/checkpoint_agent.py:473-519 | Unfinished jobs of the file wait again, in the order of creation |
| `CheckpointQueue.CheckpointAgent.Load` | compute/checkpoint_agent.py:536-539 | Loading a readable file fails only if what changed cannot be saved |
| `CheckpointQueue.CheckpointAgent.AnyRun` | compute/checkpoint_agent.py:424-918 | Over any run, with a crash and a restart between any two regions, at most one job downloads and at most queue_size + 1 are unfinished, in memory and in the file; every unfinished job is in the file; where a record takes no more bytes than its job and another one, the worker ends only when the agent stops |
| `CheckpointQueue.CheckpointAgent.Crash` | compute/checkpoint_agent.py:446-539 | Wherever a process of a run ends, every job that had not finished waits again in the next one |
| `CheckpointQueue.CheckpointAgent.StopAndResume` | compute/checkpoint_agent.py:862-918 | A download that a stop interrupts, by cancellation or by an error, saved or not, is resumed by the next process |
| `CheckpointQueue.PutBackResumes` | compute/checkpoint_agent.py:510-519 | Jobs that were created earlier are taken earlier; of two created at once the one with the smaller ID |
| `CheckpointQueue.CheckpointAgent.Close` | compute/checkpoint_agent.py:424-429 | Stopping flags every job |
| `CheckpointQueue.CheckpointAgent.Delete` | compute/checkpoint_agent.py:738-766 | The file and its record go if and only if the file was hashed to the digest, is regular and has not changed since it was opened, and the record is the one the first region saw; so what is unlinked has the digest the client named; nothing else is dropped but old finished jobs |
| `CheckpointQueue.CheckpointAgent.BeginDelete` | compute/checkpoint_agent.py:718-736 | The first region: it begins only for a recorded checkpoint whose digest the client named, and for none that is being deleted already; every refusal has its cause |
| `CheckpointQueue.SuppliedIs` | compute/checkpoint_agent.py:722-727 | If-Match names a digest with or without quotation marks, in either case; half quoted it names none |
| `CheckpointQueue.ReparsesWhenWellFormed` | compute/checkpoint_agent.py:478-509 | The restart's check of the stored requests accepts exactly the jobs the agent keeps |
| `CheckpointQueue.QueueIsBounded` | compute/checkpoint_agent.py:510-519 | The invariant every region and every restart keeps means at most one downloading job and at most queue_size + 1 unfinished ones |
| `CheckpointQueue.SubmitKeeps` | compute/checkpoint_agent.py:652-684 | A submitted job keeps the invariant: queued jobs have a place or are in the worker's hand unless stopping |
| `BodyDeadline.ReadTimeIsBounded` | bananachat/read_timeout.py:71-90 | With a timer armed in time that runs at most so late, a body is waited for no longer than that past its total time |
| `BodyDeadline.LastMomentWaits` | bananachat/read_timeout.py:71-83 | The moment at which the reads use up the total only moves away while the handler is busy |
| `BodyDeadline.TimedInput.BeginRead` | bananachat/read_timeout.py:92-100 | A read begins unless the body is too late already; from then on a timer is armed no later than the last moment |
| `BodyDeadline.TimedInput.EndRead` | bananachat/read_timeout.py:101-105 | The time spent is the time inside reads; the timer stays armed in time |
| `BodyDeadline.TimedInput.Received` | bananachat/read_timeout.py:124-130 | A late body is refused exactly when it is expired and incomplete; an empty read ends a body in time |
| `BodyDeadline.TimedInput.Due` | bananachat/read_timeout.py:71-90 | The deadline is missed if and only if the body is neither stopped nor complete and the reads have taken the total time less the tolerance; else the timer is set to the last moment; the reader is woken exactly when it is blocked |
| `FailureWindow.TrimmedAgrees` | compute/http_limits.py:92-99 | After trimming, a deque of at most twice the limit holds the limit exactly when the full history does within the window |
| `FailureWindow.RecentIff` | compute/http_limits.py:96-99 | A history has so many failures in the window exactly when the one that many places from its end is in it |
| `FailureWindow.AppendKeeps` | compute/http_limits.py:101-104 | Appending to the bounded deque keeps it a summary of the full history |
| `FailureWindow.FailureLimiter.Blocked` | compute/http_limits.py:92-99 | A peer is blocked if and only if the limit is at least one and the limit-th latest of its counted failures since it was last forgotten is in the window |
| `FailureWindow.FailureLimiter.Count` | compute/http_limits.py:101-104 | The failure joins the peer's history; at most 1024 peers are kept, the first making room |
| `FailureWindow.FailureLimiter.Record` | compute/http_limits.py:84-90 | A failure is counted if and only if the full history does not block the peer |
| `EnvironmentFile.ReadEnvironment` | banana_ops/files.py:90-106 | The loop over the lines computes what the file means |
| `EnvironmentFile.WriteEnvironment` | banana_ops/files.py:109-115 | Refuses exactly the invalid assignments; otherwise the text lists every name once, in order |
| `EnvironmentFile.SplitUndoesJson` | banana_ops/files.py:102-114 | shlex in POSIX mode undoes the JSON quoting of a value without control characters or line separators |
| `EnvironmentFile.LineMeansAssignment` | banana_ops/files.py:94-105 | A written line reads as its assignment |
| `EnvironmentFile.RoundTrip` | banana_ops/files.py:90-115 | An environment of clean values reads back as itself |
| `EnvironmentFile.RoundTripIff` | banana_ops/files.py:90-115 | What was written reads back as it was if and only if no value holds a character below U+0020, U+0085, U+2028 or U+2029 |
| `EnvironmentFile.ATabReadsAsTwoCharacters` | banana_ops/files.py:102-114 | Such a value: a tab is written as a backslash and a t, and reads back as those two characters |
| `EnvironmentFile.CommentIsSkipped` | banana_ops/files.py:94-97 | A comment changes nothing |
| `EnvironmentFile.LineWithoutEquals` | banana_ops/files.py:98-100 | A line that is neither makes the file unreadable |
| `EnvironmentFile.UnquotedValue` | banana_ops/files.py:102 | An unquoted value is its words |
| `EnvironmentFile.SingleQuotes` | banana_ops/files.py:101-105 | Between single quotation marks everything stands for itself; without the second one the text is taken literally |
| `EnvironmentFile.LaterAssignmentWins` | banana_ops/files.py:94-105 | Of two assignments to a name the later one counts |
| `Amounts.NumberRoundTrip` | bananachat/formatting.py:131-137 | What a page shows of a whole amount parses to that amount, with decimal points and with decimal commas |
| `Amounts.TokenInputRoundTrip` | bananachat/formatting.py:200-210 | What a form field shows of a whole amount parses to that amount |
| `Amounts.GroupSplits` | bananachat/formatting.py:183-188 | Grouped digits split back into groups the parser takes for thousands, and they join to the digits |
| `Amounts.NearIsWhole` | bananachat/formatting.py:205-207 | For whole amounts the printer's tolerance of 1e-9 asks whether one decimal is exact |
| `Amounts.ParsesAs` | bananachat/formatting.py:167-197 | The parser reads a cleaned text of a number and a suffix as the normalized number times the suffix's factor |
| `Amounts.MixedParses` | bananachat/formatting.py:180-182 | With both separators the last one is the decimal one and the other groups, with any suffix |
| `Amounts.OneSeparatorParses` | bananachat/formatting.py:183-190 | With one separator, exactly three digits behind it, one to three before it and no suffix make thousands; anything else makes decimals |
| `Amounts.SuffixParses` | bananachat/formatting.py:164-192 | k, m, mln, b and mld in either case multiply by a thousand, a million and a billion |
| `Amounts.TokenInputForms` | bananachat/formatting.py:200-210 | Whole thousands and millions are shown with their letter and at most one decimal, anything else in full |
| `DownloadPlaces.Downloads.Take` | bananachat/security.py:503-526 | 503 exactly when as many places are out as there are, else 429 exactly when as many of the client's are out as its share, else one more place of that client is out |
| `DownloadPlaces.Downloads.Release` | bananachat/security.py:514-524 | The first call gives back one place of the client that took it; a second call changes nothing |
| `DownloadPlaces.TakeOk` | bananachat/security.py:503-511 | Taking keeps active equal to the sum of the clients' counts and to the places out, each count the client's places out, between one and its share |
| `DownloadPlaces.ReleaseOk` | bananachat/security.py:514-524 | Giving back keeps the same equalities |
| `DownloadPlaces.SumWithout` | bananachat/security.py:496-501 | The sum of the counts does not depend on the order of the clients |
| `DownloadPlaces.LongRequests.Take` | bananachat/security.py:447-469 | A long-request place exactly when fewer are out than the limit and, for a poll, fewer polls than a quarter of it, at least one |
| `DownloadPlaces.LongRequests.Release` | bananachat/security.py:462-467 | Given back once, however often it is called |
| `DownloadPlaces.Server.TakeFirst` | bananachat/security.py:558-580 | A request takes one place before its view works, or is refused and holds nothing |
| `DownloadPlaces.Server.Respond` | bananachat/security.py:590-616 | For a request with or without a place: a kept place moves to a large response or is given back; a large response without one takes one, is refused, or for a token API goes out without |
| `DownloadPlaces.Server.Teardown` | bananachat/security.py:583-587 | After the request nothing is kept, whatever the view did |
| `DownloadPlaces.Server.CloseResponse` | bananachat/security.py:661-683 | Closing the response gives its place back, once |
| `DownloadPlaces.Server.Reserve` | bananachat/security.py:635-638 | The first region of a reply: a client that has a reply in progress gets none, else it is reserved |
| `DownloadPlaces.Server.ReplyDownload` | bananachat/security.py:639 | The second, under another lock: a download place exactly when the process and the client have one left |
| `DownloadPlaces.Server.ReplyLong` | bananachat/security.py:640-641 | The third, refused a download place: a long-request place exactly when one is free, else nothing is held |
| `DownloadPlaces.Server.GiveBack` | bananachat/security.py:648-653 | The place is given back once, however often it is called; the client is still reserved |
| `DownloadPlaces.Server.Discard` | bananachat/security.py:655-656 | The last region: the client may take another reply place |
| `DownloadPlaces.NothingHeld` | bananachat/security.py:583-616 | When every request is torn down, every response closed and every reply place given back, no download place is out |
| `DownloadPlaces.Server.IdleIsEmpty` | bananachat/security.py:484-526 | Then active is 0, no client has a count and no client is reserved |
| `DownloadPlaces.Server.AnyRun` | bananachat/security.py:440-683 | Over any number of requests and replies, region by region in any order, the limits hold; whenever all of them are through, every counter of the downloads and replies is back to zero, and whenever no long-request place is out, both of theirs are |

## Left out

- PathWalk.Write: where the walk must make directories, the status of a failure (no permission, too many links or directories) is not compared with recursive resolution.
- PathWalk.Walk: directories without search permission and the bytes a read or listing prints are not modelled; a read is modelled up to the opened file.
- UpdateTransaction.Manager.Update: model weights, added defaults of app.env, updates.json, containers of hosted instances, disk-space checks and the records written after the commit are outside the modelled state.
- UpdateTransaction.Manager.WriteBackup: the package is one durable step; how an archive is built and read is not modelled.
- UpdateTransaction.Manager.Restore: a restore onto a new server, which has nothing to return to and writes no journal, is not modelled.
- SandboxLifecycle.CapacityIsKept: leftover containers of a previous runner process, which enter the doomed names through reconcile, are not counted.
- SandboxLifecycle.StepKeepsInv: commands and file operations in a sandbox, the health cache and which sandboxes are idle are not modelled; a reap may pick any registered ones.
- BackupSeries.ConstantStart: series with indexes of development builds that record no start are covered by the scan's specification but not by this result.
- BackupSeries.Uploader.Upload: others act between its regions, but not between two deletions of one retention run; that the pushed snapshot, once fetched, passes the download's checks is BackupTransfer.RoundTrip; later clock readings are not in the last day of the year 9999.
- BackupTransfer.Download: that the text of index.json decodes to its index is taken from the JSON library.
- CheckpointQueue.CheckpointAgent.Persist: a failure after the file was replaced (while syncing the directory) is not modelled.
- CheckpointQueue.CheckpointAgent.Restart: files the agent did not write (changed times or statuses) are only modelled by the checks that refuse them.
- CheckpointQueue.CheckpointAgent.End: the download itself and safetensors validation are not modelled.
- CheckpointRequest.ParseIsIdempotent: a restart with a smaller size limit than the stored jobs were accepted with is not modelled.
- BodyDeadline.TimedInput.Received: the socket's own stall timeout and its restoration are not modelled.
- FailureWindow.FailureLimiter.Blocked: the history of a peer begins again when the peer was forgotten for lack of room.
- EnvironmentFile.ReadEnvironment: the file is text; bytes that are not UTF-8 are not modelled.
- Amounts.NumberRoundTrip: amounts are whole and arithmetic is exact; amounts beyond the range of floating point and fractions are not covered.
- DownloadPlaces.Server.GiveBack: two threads calling the same function at once, outside its lock, are not modelled.
- HTTP handlers, sockets, Git, age, systemd and container commands are calls that may fail; templates, sign-in, command lines, configuration readers and unit files are not modelled.
