# Backup Sentinel: a verified model of its algorithmic cores

Backup Sentinel watches Proxmox backups, draws the replication topology of Proxmox Backup
Servers, follows running backups, and tests backups by restoring them in a sandbox. This
project models the parts whose correctness no finite test settles and proves what they are for.

- **Replication topology** (`Servers`, `NamespaceWalk`, `Layers`, `Topology`, over `Graph`).
  A union-find recognises the physical server behind several connections; a worklist follows
  the data from namespace to namespace, through replication cycles; a depth-first search with
  an explicit stack takes out back edges; a relaxation loop puts every datastore into the column
  given by the longest chain of syncs to it. `Topology.Build` joins walk, layers and columns.
- **Disk placement** (`Pack`, `Reasons`, `Placement`). An exhaustive search with backtracking over two
  dictionaries changed in place; choosing a storage; the check before a start.
- **Task logs and their cache** (`TaskLog`, `SingleFlight`). A paged reader that reads a growing
  log backwards from its tail, and the lock protocol that keeps one refresh per cluster.
- **Restore testing** (`Alloc`, `RestoreRuns`, `RestoreQueue`, `Books`, `Steps`, `Script`,
  `Lifecycle`, `Life`, `Drain`, `Progress`).
  The tables, the allocation, the worker, resuming and recovering after a crash, the reaper, held
  environments, the queue drainer and the progress display. In `Lifecycle` a script decides how
  every host operation turns out and what the web application does between any two of them, so a
  contract holds for every interleaving of that grain and every failure.
- **Event folding** (`EventSync`, `BackupKind`, `VzdumpLog`) and the **Gotify batch queue**
  (`Gotify`).

Host calls, clocks, randomness and the network are parameters or script entries. Where the
source changes fields or loops, the model is a class or a method with a loop, and its contract
ties it to a specification about which the lemmas are proved.

## Where the code does not do what its documentation says

Each of these comes with the input that shows it and with the exact condition.

- Connections with the same non-empty name, host or alias are one server, except when what they
  share ends in a colon, such as the address `2001:db8::`, and nothing else links them
  (`Servers.SameServerExact`, app/services/pbs_topology.py:118-137).
- The task-log cache equals re-reading the whole log, except when the stand-in line of an empty
  log is read without a line count, or when a log has become shorter and no smaller line count
  shows it (`TaskLog.ReadTaskLog`, app/services/proxmox_progress.py:252-282).
- The message for an impossible distribution names two reasons; on several storages there are
  other cases (`Reasons.ReasonsAreNotNecessary`, `Reasons.EqualSizes`,
  app/services/restore_orchestrator.py:352-357).
- A distribution judged "ok" now may still not be started: it is, if and only if packing by five
  sixths of the free space gives the same mapping (`Placement.OkStarts`,
  app/services/restore_worker.py:549-554).
- A Gotify batch may be sent less than five minutes after its last message, when that message was
  accepted while a flush waited for the lock, or while a timer other than the current one was due
  within five minutes, as such a flush leaves one behind (`Gotify.CooldownExact`,
  app/services/notifications.py:97-134).
- A plan for one storage waits in the same way, even if a later storage would do
  (`Placement.WholeStarts`, app/services/restore_orchestrator.py:259-262).
- Held actions and recoveries do not look at the run again when they end. Overlapping ones can
  document a run twice, drop a documented test, or destroy the guests of the run that has taken
  their VMIDs; those that do not overlap do no harm (`Life.Live`, `Life.OverlapHarms`,
  `Life.SecondRobs`, `Life.RecoveryDropsTest`, app/web/routes_restore.py:624-645,
  app/services/restore_orchestrator.py:829-836, 905-925).
- The environments of live runs are apart, except when a worker that was overtaken by a recovery
  holds its run although another live run has its VM or VLAN by then (`Books.LateExact`,
  `Life.LateHoldClashes`, app/services/restore_worker.py:269-289).

## Model

| member | source | states |
|---|---|---|
| Servers.Servers.constructor | app/services/pbs_topology.py:113-141 | two connections get the same key exactly when they are linked by the reflexive-transitive closure of sharing a usable identifier, and the key is a linked connection |
| Servers.Servers.Root | app/services/pbs_topology.py:122-126 | following parents always ends, at the root of the tree, because the parent map stays a forest |
| Servers.Servers.Register | app/services/pbs_topology.py:127-139 | afterwards the connection has the same root as the owner of the identifier, and nothing merged before comes apart |
| Servers.Servers.MergeAll | app/services/pbs_topology.py:127-139 | after the loop every identifier of every connection has been merged with its owner |
| Servers.Servers.AssignKeys | app/services/pbs_topology.py:140-141 | every connection's key is its root |
| Servers.JoinKeepsForest | app/services/pbs_topology.py:127-139 | hanging one root below another keeps the parent map a forest whose roots are joined |
| Servers.LinkedSameRoot | app/services/pbs_topology.py:113-141 | once every identifier is merged, a path of shared identifiers never leaves its tree |
| Servers.KeysPartition | app/services/pbs_topology.py:140-141 | same root and linked are the same thing, in both directions |
| Servers.OrderIndependent | app/services/pbs_topology.py:113-141 | the partition is the same for every order of the connections |
| Servers.SameServerExact | app/services/pbs_topology.py:118-141 | connections sharing any non-empty name, host or alias, directly or over others, are one server for the code if and only if those that share an identifier ending in a colon are linked in some other way |
| Servers.NoColonsNoGap | app/services/pbs_topology.py:118-141 | for lists without names, hosts or aliases that end in a colon the keys are those of the promised servers |
| Servers.TwoConnections | app/services/pbs_topology.py:118-137 | two connections are one server for the code exactly when they have the same name, or a host or alias in common, that is not empty and does not end in a colon |
| NamespaceWalk.MapNs | app/services/pbs_topology.py:39-46 | a job takes data exactly when one of data and source namespace contains the other; no new component appears |
| NamespaceWalk.LandsBelow | app/services/pbs_topology.py:39-46 | the data lands below the target namespace, behind it exactly as much of the end of the data's path as lies below the source namespace |
| NamespaceWalk.PartLandsAsWhole | app/services/pbs_topology.py:44-45 | data that contains the source namespace lands in the target namespace itself, as data lying in the source namespace would |
| NamespaceWalk.ShapeIsKept | app/services/pbs_topology.py:42-43 | below the source a job keeps which namespace contains which, and tells different namespaces apart |
| NamespaceWalk.JobsCompose | app/services/pbs_topology.py:39-46 | two jobs in a row, the second from where the first one puts its data, do what one job between the ends would do |
| NamespaceWalk.MutualJobsRoundTrip | app/services/pbs_topology.py:39-46 | a job followed by its mirror image brings data back to where it was |
| NamespaceWalk.FiniteUniverse | app/services/pbs_topology.py:211-233 | a finite set of states contains the seeds and is closed under depth-bounded job steps: the reason why the walk ends through replication cycles |
| NamespaceWalk.Walk.ReachSeed | app/services/pbs_topology.py:217-221 | a seed keeps the walk valid: every visited state is in each closed set with the seeds, and all but the queued ones are expanded |
| NamespaceWalk.Walk.Follow | app/services/pbs_topology.py:225-233 | expanding a state follows every job it feeds, and either visits something new or leaves the queue as it is |
| NamespaceWalk.Walk.Run | app/services/pbs_topology.py:223-233 | the walk ends with an empty queue and every visited state expanded |
| NamespaceWalk.RunIsLeast | app/services/pbs_topology.py:211-233 | an empty queue means that `visited` is the least set with the depth-bounded seeds that is closed under depth-bounded job steps, and the edges are exactly the jobs some visited state feeds, each once |
| NamespaceWalk.LeastIsUnique | app/services/pbs_topology.py:211-233 | there is only one such set, so the result does not depend on the order of the queue |
| NamespaceWalk.Walk.ReachStores | app/services/pbs_topology.py:255-257 | the seeds grow by all datastores with usage data of that server, and by nothing else |
| NamespaceWalk.Walk.ReachIdle | app/services/pbs_topology.py:246-257 | the seeds of the second pass are exactly the datastores of the cluster's own unrestricted servers without a part in the flow |
| NamespaceWalk.Discover | app/services/pbs_topology.py:211-260 | both passes: the least fixpoint over the targets decides which servers are idle, the result is the least fixpoint over both; the datastores shown are exactly the targets, the copies of listed jobs, and those with usage data on an own unrestricted server without a part in the first pass; no namespace visited has more than seven components |
| NamespaceWalk.ShownMeans | app/services/pbs_topology.py:211-260 | a datastore is among those of the seeds and edges exactly if it is a target, a copy of a listed job, or idle and the cluster's own |
| NamespaceWalk.VisitedBounded | app/services/pbs_topology.py:216-221 | the least fixpoint stays within the depth limit |
| Layers.Explore | app/services/pbs_topology.py:380-406 | one root of the explicit-stack search: all edges of finished nodes are decided, the kept ones run to earlier finished nodes, each back edge closes a cycle with kept ones; only what the root leads to is finished, and no edge into the root is kept |
| Layers.RemoveBackEdges | app/services/pbs_topology.py:380-406 | the edges that are not back edges are acyclic, and every back edge, self-loops and parallel edges included, closes a cycle with kept edges: none is dropped needlessly; of the edges into a root that no earlier root leads to, the back edges are exactly those from what the root leads to |
| Layers.SettledNoWayOut | app/services/pbs_topology.py:385-406 | no edge leads from finished nodes to others |
| Layers.ExploredCuts | app/services/pbs_topology.py:385-406 | the search from a root makes every edge into it from what it leads to a back edge |
| Layers.FinishStep | app/services/pbs_topology.py:390-394 | finishing the top of the stack keeps the search's invariant |
| Layers.TopEdge | app/services/pbs_topology.py:390-396 | the next edge of the top node starts at it, has not been decided yet, and is then the only one no longer with its iterator |
| Layers.BackStep | app/services/pbs_topology.py:395-402 | an edge to a node on the stack is a back edge and closes a cycle with kept ones |
| Layers.CrossStep | app/services/pbs_topology.py:395-406 | an edge to a finished node is kept and leads down |
| Layers.EnterStep | app/services/pbs_topology.py:395-406 | an edge to a new node is kept, the search goes on there, and one node less is unseen |
| Layers.PathClosesCycle | app/services/pbs_topology.py:395-402 | a target that is still on the stack is joined by kept edges to the node being expanded |
| Layers.FinishHeights | app/services/pbs_topology.py:390-394 | finishing the top of the stack puts it below the path and above all finished nodes, with kept edges still leading down |
| Layers.RankedIsAcyclic | app/services/pbs_topology.py:380-406 | edges that all run to earlier finished nodes have no cycle |
| Layers.Relax | app/services/pbs_topology.py:408-418 | as many rounds as there are nodes reach the fixpoint: a layer is exactly one more than the longest chain of kept edges to the node |
| Layers.RoundCovers | app/services/pbs_topology.py:410-417 | one round accounts for chains with one more edge |
| Layers.CoveredIsExact | app/services/pbs_topology.py:408-418 | chains are no longer than the number of nodes, so covering those is covering all |
| Layers.BuildLayers | app/services/pbs_topology.py:371-418 | for every order of the roots: acyclic without the back edges, no needless back edge, exact longest-path layers; cycles are cut at the roots, and a root that no earlier root leads to is in the first layer if and only if every edge into it comes from what it leads to |
| Layers.RootLayer | app/services/pbs_topology.py:383-418 | such a root is in the first layer exactly when no edge comes into it from outside what it leads to |
| Layers.KeptEdgesSpan | app/services/pbs_topology.py:358-362 | every edge that is not a back edge spans at least one column |
| Layers.NoGaps | app/services/pbs_topology.py:408-418 | every layer from 1 up to a node's own is occupied |
| Layers.ExactIsGapless | app/services/pbs_topology.py:408-418 | exact layers are exactly 1, 2, .. without a gap |
| Layers.SortedLayers | app/services/pbs_topology.py:437-438 | sorting the distinct layers numbers them by themselves |
| Layers.Columns | app/services/pbs_topology.py:421-438 | column k holds exactly the datastores of layer k + 1, grouped by server without an empty group |
| Layers.Placement | app/services/pbs_topology.py:358-362 | every datastore stands in exactly one column, and an edge that is not a back edge leads to a later one |
| Topology.RootOrder | app/services/pbs_topology.py:380-388 | the search starts at every reached datastore, once each: the primary targets before all others, and among them none with fewer guests before one with more |
| Topology.LeadingIsFirst | app/services/pbs_topology.py:383-388 | no root before a target leads to it, if every other target that leads to it has fewer guests |
| Topology.Build | app/services/pbs_topology.py:211-362 | the picture end to end: its edges are the jobs that feed some copy of the data, every datastore found stands in the one column given by the longest chain of non-back edges to it; of the edges into a target to which no other target with as many guests leads, the back edges are exactly those from what it leads to, and it stands in the first column if and only if there are no others |
| Pack.SortOrder | app/services/restore_pack.py:35 | sorting by size is descending and keeps the order of equal disks |
| Pack.SortElements | app/services/restore_pack.py:35 | sorting keeps every disk, as often as it occurs |
| Pack.SortLoad | app/services/restore_pack.py:35 | sorting changes no storage's load |
| Pack.Packer.Place | app/services/restore_pack.py:40-52 | succeeds with the first feasible choice for the disks left, or fails only if there is none and then leaves both dictionaries as it found them |
| Pack.ChoiceLoads | app/services/restore_pack.py:40-52 | a choice the search accepts loads no storage beyond what it had left |
| Pack.MappingChoice | app/services/restore_pack.py:40-52 | any mapping that fits is among the choices the search goes through |
| Pack.FoundIsBest | app/services/restore_pack.py:35-54 | the first feasible choice fits, covers every disk and comes first among all fitting mappings |
| Pack.NotFoundIsImpossible | app/services/restore_pack.py:20-54 | when the search fails, no assignment of whole disks to storages fits |
| Pack.PackDisks | app/services/restore_pack.py:20-54 | a mapping is returned if and only if one exists; it covers the disks, respects every capacity and is the lexicographically first |
| Pack.EarlierStorage | app/services/restore_pack.py:35-52 | where another fitting mapping differs for the first time, largest disk first, it puts the disk on a storage that stands later in the operator's order |
| Pack.PlanDistribution | app/services/restore_pack.py:57-80 | the verdict is exactly ok, retry or impossible as the packings by free space and by capacity exist; a mapping comes with ok only, and is the first by free space |
| Pack.VerdictNeverWorse | app/services/restore_pack.py:57-80 | more capacity, more storages or one disk less never make the verdict worse |
| Reasons.ReasonsAreSufficient | app/services/restore_orchestrator.py:352-357 | if a packing exists, no disk is larger than every storage and the disks do not exceed the total capacity |
| Reasons.OneStorage | app/services/restore_orchestrator.py:352-357 | on one storage the two reasons are exact: a packing exists if and only if neither holds |
| Reasons.SlackPacks | app/services/restore_pack.py:20-54 | if the storages hold all disks and once more the largest disk for each storage but one, a packing exists |
| Reasons.EqualSizes | app/services/restore_pack.py:20-54 | disks of one size can be packed if and only if the storages together have a slot for each |
| Reasons.ImpossibleMeans | app/services/restore_orchestrator.py:352-357 | an "impossible" verdict means a reason holds if there is one storage, and that the slack is missing if there are several |
| Reasons.ReasonsAreNotNecessary | app/services/restore_orchestrator.py:352-357 | three disks of 60 cannot be packed on two storages of 100, though neither reason in the message holds |
| Placement.ChooseTargetStorage | app/services/restore_orchestrator.py:233-271 | the first storage in order with the bytes free; otherwise "too big" if and only if every free size is unknown or less and every capacity is known and less than needed, else wait |
| Placement.MoreCapacityWaits | app/services/restore_orchestrator.py:266-271 | more capacity, an unknown capacity or a smaller guest never turns waiting into "too big" |
| Placement.PlaceGuest | app/services/restore_orchestrator.py:317-371 | one storage exactly when the size is unknown or some storage has the bytes free; spread exactly when every free size and every known capacity is less than needed and the disks can be packed by free space, then over the first fitting mapping; refused if and only if they can be packed neither by free space nor by capacity or there are no known disks |
| Placement.KnownStorages | app/services/restore_orchestrator.py:342-343 | exactly the storages with a known size, with unique names |
| Placement.KnownInOrder | app/services/restore_orchestrator.py:342-343 | they stand in the operator's order |
| Placement.DiskDemand | app/services/restore_orchestrator.py:446-451 | the demand added up per storage equals what the packing assigned to it |
| Placement.FitsSpread | app/services/restore_orchestrator.py:446-452 | true exactly when every storage of the plan has the headroom for its share |
| Placement.HeadroomStarts | app/services/restore_worker.py:549-554 | a mapping that fits the free space passes the check before a start if and only if it also fits five sixths of it |
| Placement.OkStarts | app/services/restore_worker.py:549-554 | the plan judged "ok" starts if and only if packing by five sixths of the free space gives the same mapping |
| Placement.SomeMappingStarts | app/services/restore_worker.py:549-554 | some mapping fits and passes the check if and only if five sixths of the free space allow a packing |
| Placement.OkMayNotStart | app/services/restore_worker.py:549-554 | the first mapping may fail the check although another one of the same disk would start |
| Placement.WholeStarts | app/services/restore_worker.py:549-554 | a plan for one storage starts if and only if five sixths of the first storage with room hold the guest; some storage would do exactly when five sixths of one hold it |
| Placement.WholeMayWait | app/services/restore_orchestrator.py:259-262 | with 110 free on the first storage a guest of 100 waits although a later storage would do |
| TaskLog.HasStartExact | app/services/proxmox_progress.py:91-101 | the scan from the end finds a section start exactly when there is one |
| TaskLog.CurrentIsLastSection | app/services/proxmox_progress.py:91-101 | the current section is the suffix from the last section start, or everything when there is none |
| TaskLog.CurrentOfConcat | app/services/proxmox_progress.py:245-249 | the section of a longer log needs only the section so far and the new lines |
| TaskLog.TailIsEnough | app/services/proxmox_progress.py:270-279 | lines before a section start need not be read |
| TaskLog.ReadOn | app/services/proxmox_progress.py:265-269 | without a line count: page after page, while the log grows, reaches at least the length at the start and stays exact |
| TaskLog.ReadTail | app/services/proxmox_progress.py:270-282 | reading back from the tail gives the section of the log up to the reported total |
| TaskLog.ReadTaskLog | app/services/proxmox_progress.py:252-282 | for a log that only grew and for every log that shrank: the cached section is that of lines read if and only if the stand-in of an empty log was not read as a line and the shrink could be seen (a total is reported and is less than what was read) or the log has grown back to the same lines; with a reported total, exactly the lines there are read |
| TaskLog.ReadRest | app/services/proxmox_progress.py:259-282 | the rest after the first page: a part of the log leads to the section of lines read, up to the total if there is one; the stand-in and the empty page leave nothing but themselves |
| TaskLog.Follow | app/services/proxmox_progress.py:344-351 | from the first, possibly empty, log on, over any number of refreshes and with growth between page calls: the refreshes make all the server's calls one after the other, and after each the cache is what re-reading would give, with nothing unread that was there at its first call, and exactly that when this reported a total |
| SingleFlight.LockStep | app/services/proxmox_progress.py:396-451 | the lock's holder is always one thread at a step that needs it |
| SingleFlight.FlightStep | app/services/proxmox_progress.py:396-451 | every step keeps: `_inflight` names an unfinished refresh of its cluster, and every unfinished one is named or just being registered |
| SingleFlight.LogsStep | app/services/proxmox_progress.py:344-351 | every step keeps: a worker between reading and writing `_task_logs` has read the current value |
| SingleFlight.OneInFlight | app/services/proxmox_progress.py:396-404 | two unfinished refreshes of one cluster are the same |
| SingleFlight.RunKeepsInv | app/services/proxmox_progress.py:396-451 | the invariant holds along every run |
| SingleFlight.SafeInEveryRun | app/services/proxmox_progress.py:396-451 | after any interleaving: at most one unfinished refresh per cluster, `_inflight` has a key exactly for it, and no update of the task logs is lost |
| SingleFlight.AskStep | app/services/proxmox_progress.py:396-451 | every step keeps: who holds the lock looks for the cluster it asked about, and who waits does so for a refresh of it |
| SingleFlight.WaitsForOwn | app/services/proxmox_progress.py:396-451 | in every run a waiting caller waits for a refresh of the cluster it asked about last, and goes on exactly when that one is done |
| SingleFlight.NearerStep | app/services/proxmox_progress.py:396-451 | while a refresh is unfinished, some step that needs no new caller lowers its rank |
| SingleFlight.CanFinish | app/services/proxmox_progress.py:396-451 | from every state at most that many steps of those already there finish the refresh |
| Alloc.LowestFree | app/services/restore_alloc.py:36-40 | the lowest free value, or none exactly when all are in use |
| Alloc.TwoLowestFree | app/services/restore_alloc.py:43-50 | the two lowest free values, or none exactly when there are no two |
| Alloc.Allocate | app/services/restore_alloc.py:53-78 | refused if and only if fewer than two VMIDs, no tag or no address is free; otherwise free in every respect, in range and the lowest |
| RestoreRuns.CreatedKeeps | app/db_restore.py:56-63 | a new queued run keeps all invariants of the tables |
| RestoreRuns.DeletedKeeps | app/db_restore.py:258-265 | deleting a queued run keeps them |
| RestoreRuns.CancelKeeps | app/db_restore.py:268-278 | flagging a run keeps them |
| RestoreRuns.StartedKeeps | app/services/restore_worker.py:172-185 | starting a queued run with a free environment keeps them: all live VMIDs, tags and addresses stay distinct and in range |
| RestoreRuns.HelperSetKeeps | app/services/restore_orchestrator.py:783-837 | giving a held run a fresh helper and address keeps them |
| RestoreRuns.HelperClearedKeeps | app/services/restore_worker.py:288 | giving helper and address back keeps them |
| RestoreRuns.RecordedOrphans | app/db_restore.py:413-451 | recording a result leaves no test behind if and only if the run has not been documented before, and a test left behind stays so |
| RestoreRuns.RecordedKeeps | app/db_restore.py:413-451 | ending or holding a live run keeps all invariants; tests come from passed and limited results only |
| RestoreRuns.TestsCorrespond | app/db_restore.py:413-451 | as long as none is left behind, tests and the runs that passed or were limited correspond, each test with the run that points at it |
| RestoreRuns.EnvsShrink | app/db_restore.py:190-196 | a transaction on one row that lets no environment grow keeps all live environments apart and in range |
| RestoreRuns.DoublePromotion | app/web/routes_restore.py:624-645 | promoting any held run twice leaves a test behind |
| RestoreRuns.CreatedOneLive | app/db_restore.py:66-85 | a run created for a guest without a live run keeps every guest at one live run |
| RestoreQueue.ListQueuedRuns | app/db_restore.py:217-224 | exactly the queued runs, in effective order |
| RestoreQueue.QueueUnique | app/db_restore.py:217-224 | the effective order is total, so the queue is determined |
| RestoreQueue.QueueIsFifo | app/db_restore.py:217-224 | runs that were re-ordered come first, by place; the others first in, first out, and among equals the older row first |
| RestoreQueue.ReorderQueue | app/db_restore.py:227-243 | every queued run of the list gets its position, and the number of rows changed is returned |
| RestoreQueue.ReorderedRows | app/db_restore.py:227-243 | nothing but the sort order of queued runs changes: a started run is neither revived nor touched |
| RestoreQueue.ReorderTakesEffect | app/db_restore.py:227-243 | when the list names every queued run once, the queue afterwards is the list |
| RestoreQueue.ReorderedKeeps | app/db_restore.py:227-243 | re-ordering keeps all invariants of the tables |
| Lifecycle.System.Destroy | app/services/restore_server.py:2118-2128 | the worker, the reaper and a recovery may call this only for a guest that no other live run owns |
| Lifecycle.System.Reap | app/services/restore_server.py:2118-2128 | destroys no owned guest, wherever it fails; if it does not fail, every guest left is owned |
| Books.OwnedVmidsExact | app/services/restore_worker.py:57-63 | the owned VMIDs are exactly those of running and held runs |
| Books.OwnedOnce | app/services/restore_worker.py:57-63 | a VMID has at most one live owner |
| Books.IntactIsHarmless | app/web/routes_restore.py:624-645 | an action whose run is still as it found or left it destroys no other run's guest and documents nothing twice |
| Books.EndTables | app/web/routes_restore.py:624-645 | the end of an action keeps all table invariants whatever has happened to the run, and leaves a test behind exactly if it documents or drops one that is recorded |
| Books.EndMeans | app/services/restore_orchestrator.py:783-837 | a recovered run ends in error, a promoted one or one that passed its re-test is documented as passed, a discarded one ends as what it was held for, and a re-test that did not pass only takes helper and address back; no other run changes |
| Books.NotRobbed | app/web/routes_restore.py:624-645 | an end that destroys no other run's guest leaves the running run its guests |
| Books.AllocatableIsFresh | app/services/restore_orchestrator.py:792-805 | the helper and the address a re-test is given are in range and no live run has them |
| Books.LateExact | app/services/restore_worker.py:269-289 | a worker whose run was recovered meanwhile holds or ends it all the same: all live environments stay apart if and only if it does not hold it, or no other live run has its VM or VLAN; all else is kept |
| Steps.BeginKept | app/web/routes_restore.py:624-645 | the begin of an action keeps the books; it is an overlap exactly if another is in flight on the run |
| Steps.EndKept | app/web/routes_restore.py:624-645 | the end of an action does harm only if it robs or doubles |
| Steps.RecordKept | app/db_restore.py:413-451 | recording a queued or running run keeps the books; with a recovery in flight on it, that is overtaken |
| Steps.LateKept | app/services/restore_worker.py:269-289 | a late record keeps the books, and the environments apart unless it clashes |
| Steps.StepKeeps | app/services/restore_worker.py:57-63 | every transaction of web application, worker, drainer and recoveries keeps the tables consistent unless it is a clash, and the record of starts, actions in flight and harm |
| Steps.LogStep | app/services/restore_worker.py:57-63 | so does a log of such transactions with one more |
| Lifecycle.System.Teardown | app/services/restore_worker.py:300-323 | destroys nothing that another live run owns, whichever steps fail; a guest whose destruction succeeds is gone |
| Lifecycle.System.TeardownNoted | app/services/restore_worker.py:300-323 | the teardown of an environment noted earlier robs another live run exactly when a guest it finds there is that run's by now |
| Lifecycle.System.CreateRun | app/db_restore.py:56-63 | a new queued row, every other row unchanged |
| Lifecycle.System.EnqueueIfNever | app/db_restore.py:66-85 | enqueues exactly when no run of the guest is queued, running or held, or has passed; a guest with at most one live run keeps at most one |
| Lifecycle.System.ActiveAndHeld | app/db_restore.py:190-196 | lists exactly the environments of running and held runs |
| Lifecycle.System.StartRun | app/services/restore_worker.py:172-185 | the run gets the allocated environment, and the start is logged with the tables before it |
| Lifecycle.System.BeginHeldAction | app/web/routes_restore.py:624-645 | begins exactly on a held run, a re-test only if an environment is free, which then gives the run a free helper and address; the step is logged as it is |
| Lifecycle.System.BeginRecoveryAction | app/services/restore_orchestrator.py:863-896 | another thread notes a running run exactly if it is not recent and neither task nor VM of it can be seen |
| Lifecycle.System.EndActionNow | app/services/restore_orchestrator.py:783-837 | ends without looking at the run again: promote, discard, give the noted helper back, or record the recovery; it robs a live run exactly if a noted guest is that run's by now, and otherwise the running run is left alone |
| Lifecycle.System.AbandonAction | app/web/routes_restore.py:643-645 | an action that raises changes nothing but that it is no longer in flight |
| Lifecycle.System.Act | app/web/routes_restore.py:624-645 | each act of others is logged as the step it is; the running run is at most flagged for cancellation and keeps its guests unless an action robs it, and at most one run is added to the queue |
| Lifecycle.System.Await | app/services/restore_worker.py:187-260 | between two host operations others do what the script says up to the next answer, nothing else happens, and the running run's cancel flag is set exactly if it was or one of them asks for it |
| Lifecycle.System.Pipeline | app/services/restore_worker.py:187-260 | the result is exactly the one that answers and cancels determine (`Script.Tells`): cancelled if somebody has asked for it when the worker looks, in error at the first failure, otherwise what the probes found; wherever it fails, the run keeps its environment, and with a probe result VM and helper are on the host, unless an action robbed a run |
| Lifecycle.System.CheckHost | app/services/restore_worker.py:190-191 | a wrong host or a failing reap ends the test in error before anything is created |
| Lifecycle.System.Prepare | app/services/restore_worker.py:190-207 | the test goes on to the helper exactly if host checks and pre-flight went well and no cancel was found after them |
| Lifecycle.System.BringUp | app/services/restore_worker.py:209-231 | helper and restore: it goes on exactly if both went well and no cancel was found after them; a cancel found in the restore counts even if that fails |
| Script.Stops | app/services/restore_worker.py:187-244 | one more answer: the test goes on, ends in error, or ends cancelled, as answer and cancels say |
| Script.OneResult | app/services/restore_worker.py:187-248 | answers and cancels leave no choice of result or of where the test ends |
| Script.ResultMeans | app/services/restore_worker.py:187-248 | passed, or failed, if and only if all eight operations went well, the probes say so and no cancel was found; an error needs a failure, "cancelled" a request |
| Script.UncancelledError | app/services/restore_worker.py:187-248 | when nobody cancels the run, its test is in error if and only if one of the eight operations fails |
| Script.FlagStep | app/db_restore.py:56-243 | of all acts of others only a cancel request for it sets the flag of the running run |
| Lifecycle.System.Probe | app/services/restore_worker.py:66-148 | cancelled exactly if the flag is set; otherwise error exactly if the probe loop fails, and passed or failed exactly if it says so |
| Lifecycle.System.FinalizeHost | app/services/restore_worker.py:269-293 | on the host: a run to be held loses its helper and keeps its VM unless an action robs it; otherwise every guest of the environment whose destruction succeeds is gone |
| Lifecycle.System.Finalize | app/services/restore_worker.py:269-297 | held exactly for a failure or error with the hold option, then with VM and tag only; result and status are on the row and in the log, the guests are gone as the host's answer says; nothing is running afterwards |
| Lifecycle.System.Execute | app/services/restore_worker.py:151-266 | exactly this run is started; the recorded result is exactly the one that answers and cancels determine, a test is documented exactly for passed and limited, and the log has both result and status; the run ends owning nothing with its guests gone as far as their destruction succeeds, or held with its VM and tag only |
| Lifecycle.System.TestAndEnd | app/services/restore_worker.py:187-266 | the same from the started run on |
| Lifecycle.System.StartAndCrash | app/services/restore_worker.py:172-297 | dying anywhere in the pipeline, after the host part of the finish or between its two writes leaves the invariants intact; a result that was recorded is the one that answers and cancels determine |
| Lifecycle.System.Resume | app/services/restore_worker.py:420-546 | if it leaves the run running, an operation has failed, no guest was destroyed and nothing of the run changed; else its result is an error from a failed answer or what the probe loop answered last, and it ends and is logged as after execute |
| Lifecycle.System.Reattach | app/services/restore_worker.py:457-535 | the result of a resumed run: probe results need the restore task to be well and the lock to be free |
| Lifecycle.System.FinishTail | app/services/restore_worker.py:481-511 | finishing a resumed run destroys nothing and keeps its environment; the result is that of the last answer |
| Lifecycle.System.Recover | app/services/restore_orchestrator.py:852-917 | with no worker on it, a run is ended exactly if it is not recent, has no live task and no guest with its VMID is on the host; otherwise nothing changes |
| Lifecycle.System.RecoverUnderWorker | app/web/sync.py:640-663 | a recovery while the worker is still at the run: the worker's own clean-up, result or hold come later, and the tables stay consistent exactly unless that clashes |
| Lifecycle.System.FinishLate | app/services/restore_worker.py:269-297 | the late worker does what the finish does without a look at the row; it clashes exactly if it holds the run while another live run has its VM or VLAN |
| Lifecycle.System.ReapOrphans | app/web/sync.py:666-695 | destroys no owned guest; if the host is the right one and nothing runs, every guest left is owned |
| Books.FinishedKeeps | app/db_restore.py:413-451 | recording the running run keeps all invariants and leaves nothing running |
| Life.ConsistentIsSafe | app/services/restore_worker.py:57-63 | the invariants say the same as: no VMID has two owners, all environments are apart and in range, at most one run is running, each row fits its status |
| Life.Live | app/web/sync.py:752-782 | every sequence of starts, crashes, resumes, recoveries, overtakings and reaps, with any host outcomes, any foreign guests and others acting as the script says: the log has every step in order and each operation did what it does, a started or resumed run ending with the result that its answers and cancels determine; live environments are apart if and only if the last step is no clash, which alone stops the life early; no run is robbed and no test left behind if and only if every action was harmless when it ended; and all this holds if no two actions on a run overlap in the log |
| Life.OverlapHarms | app/web/routes_restore.py:624-645 | of two actions on one held run that are not both discards, some outcome documents the run twice |
| Life.SecondRobs | app/services/restore_orchestrator.py:783-837 | the end of an action whose run another has ended robs a live run if and only if a noted VMID has a live owner and its guest is on the host |
| Life.RecoveryDropsTest | app/services/restore_orchestrator.py:852-917 | a recovery that ends after the worker has recorded its result leaves a test behind if and only if that was passed or limited |
| Life.StaleRetest | app/services/restore_orchestrator.py:783-837 | an interleaving: a re-test that ends after the run was discarded destroys the VM of the run that has taken its VMID |
| Life.LateHoldClashes | app/services/restore_worker.py:269-289 | an interleaving: a late worker holds its run after a re-test has got its VMID, and two live runs own it |
| Drain.DequeueStep | app/services/restore_orchestrator.py:486-498 | dequeuing a run that cannot run keeps all invariants, touches no other run and shortens the queue |
| Drain.JudgeRun | app/services/restore_orchestrator.py:485-522 | a run is judged by its candidate, its plan, the free environments, disk, RAM and benchmark in this order |
| Drain.AllocationDecides | app/services/restore_orchestrator.py:499-502 | within a pass an address is free for all runs or for none |
| Drain.Pass | app/services/restore_orchestrator.py:484-526 | one pass: the run started is the first in the queue that has a plan, fits and is not blocked, all before it were skipped, no other run is started, and it is held only for a failure with the hold option; if none starts, exactly the dequeued runs have left the queue |
| Drain.BegunRight | app/services/restore_orchestrator.py:484-523 | of a run started: an environment was free, it was planned, fitted disk and RAM, and no benchmark ran on its storages; each run before it either lacked one of these and stays queued, or had no plan and ended in error |
| Drain.PassBlocks | app/services/restore_orchestrator.py:484-528 | after a pass that starts nothing, every run still queued was planned and either did not fit disk or RAM or was blocked by a benchmark |
| Drain.PassWaits | app/services/restore_orchestrator.py:499-502 | a pass ends for want of addresses only if a run that needs one is still queued |
| Drain.Drain | app/services/restore_orchestrator.py:467-528 | the drain ends; the runs the system has started are exactly those of the events, each directly after an unpaused look at the pause switch, planned, fitting, not benchmarked, with an environment free, and behind none in the queue that could have started; if it ends without pause, running run or lack of addresses, every run still queued was planned but did not fit or was blocked by a benchmark |
| Progress.PercentMonotone | app/services/restore_server.py:486-504 | for one total, more bytes never show less percent |
| Progress.PercentExact | app/services/restore_server.py:486-504 | the percentage is the exact quotient, rounded down |
| Progress.OverallMeans | app/services/restore_server.py:486-504 | shown are the bytes read, at most the total, their exact share, and "finalizing" exactly when all are read; nothing exactly while the total is unknown |
| Progress.FullPercent | app/services/restore_server.py:486-504 | 100 percent, and so "finalizing", exactly when all bytes are read |
| Progress.FollowsSame | app/services/restore_worker.py:594-605 | a report for the same drive moves its highest position |
| Progress.FollowsOther | app/services/restore_worker.py:594-605 | another drive adds the last one's highest position to the base; the total is the largest size answered so far |
| Progress.StepMonotone | app/services/restore_worker.py:594-607 | no update goes back behind an earlier one, whatever the size query answers |
| Progress.Updater.OnProgress | app/services/restore_worker.py:591-607 | writes the sum of every drive's highest position over the largest known total, or the raw fields while none is known |
| Progress.Updater.Line | app/services/restore_server.py:1452-1466 | one report per progress line, tagged with the drive named last |
| Progress.Consume | app/services/restore_server.py:1452-1466 | a whole log over any number of disks: what is shown is right after every report, bytes never decrease, never exceed the total, and percent never decreases while the total stays |
| EventSync.BackupEvents.Sync | app/db_reports.py:146-225 | the table becomes what the declarative sync makes of it: batch prepared, upserted in order, unseen rows marked |
| EventSync.UpsertByKey | app/db_reports.py:176-206 | a key's row depends on that key's events only, in their order |
| EventSync.PrepareMeans | app/db_reports.py:146-169 | the batch is exactly the events of known guests, each under its guest and full minute |
| EventSync.SyncedRow | app/db_reports.py:146-225 | a row with events becomes that row, or a new one, merged with its events in order |
| EventSync.LastKnown | app/db_reports.py:176-200 | size, encryption, verification and name are those of the last event that knows them, the end that of the last event of more than one byte that knows it |
| EventSync.FirstKnown | app/db_reports.py:174-201 | duration and task are those of the row, or of the event that made it; the row is live and of this source, but stays read from PBS when PVE reports it |
| EventSync.NeverKnown | app/db_reports.py:179-200 | what no event knows stays as it was |
| EventSync.NewRow | app/db_reports.py:174-201 | in a new row what no event knows is unknown |
| EventSync.StatusOfFold | app/db_reports.py:187-194 | the status is that of the last event, unless a failure, the row's own or an event's, is followed by no event of more than one byte |
| EventSync.OriginOfFold | app/db_reports.py:185-186 | the origin is PBS once an event says so, else what was known first |
| EventSync.FoldIsEffect | app/db_reports.py:176-206 | any list of merges amounts to one effect, independent of the row |
| EventSync.FoldIdempotent | app/db_reports.py:176-206 | merging a key's events again changes nothing, even several events of one key |
| EventSync.SyncIdempotent | app/db_reports.py:146-225 | syncing a batch twice, even on another day, is the same as syncing it once |
| EventSync.MarkingExact | app/db_reports.py:207-225 | with removal marking every seen key is live, and every live row of the source was seen |
| EventSync.MarkingSpares | app/db_reports.py:207-225 | a row without an event changes exactly if removals are marked, it is a live row of this source and cluster, and its minute was not seen: then it is marked with today's date |
| EventSync.FailedSticks | app/db_reports.py:186-200 | a failed row changes status only when an event of more than one byte arrives for it |
| EventSync.SyncForgetsNothing | app/db_reports.py:176-206 | no row disappears and no known field becomes unknown; a row read from PBS stays so when PVE reports it, and a known origin only changes to PBS |
| EventSync.DedupPbsEvents | app/web/sync.py:112-142 | drops exactly the events that a direct event of the same guest shadows within an hour slot, and keeps the order |
| EventSync.UnshadowedMembers | app/web/sync.py:112-142 | an event is kept if and only if nothing shadows it |
| EventSync.HourMeans | app/web/sync.py:112-142 | slots are full hours |
| EventSync.DedupIdempotent | app/web/sync.py:112-142 | deduplicating again changes nothing |
| VzdumpLog.ParseVzdumpLog | app/services/vzdump_log.py:83-133 | the single pass with its mutable section gives one result per start line, from that line's own section |
| VzdumpLog.RemainingIsSections | app/services/vzdump_log.py:93-132 | what the loop still yields is the closed open section followed by the sections left |
| VzdumpLog.Compositional | app/services/vzdump_log.py:103-132 | where the second part begins with a start line, parsing the whole is parsing the parts |
| VzdumpLog.OneRunPerStart | app/services/vzdump_log.py:104-109 | as many results as start lines, each for the guest its line names |
| VzdumpLog.StartOfSection | app/services/vzdump_log.py:112-115 | a section starts at its last archive time if it has one, else at its first "started at" |
| VzdumpLog.FullOfSection | app/services/vzdump_log.py:94-101 | the full-backup field of a run is decided by its own section: true if a line that reaches the test shows an unusable bitmap of a data disk, else false if one shows an incremental backup, else unknown |
| VzdumpLog.LastTransfer | app/services/vzdump_log.py:116-117 | the bytes transferred are those of the section's last transfer line |
| VzdumpLog.LastRate | app/services/vzdump_log.py:116-121 | the throughput is that of the last transfer line with a rate, or with bytes and seconds, then their quotient |
| VzdumpLog.LastShare | app/services/vzdump_log.py:122-124 | the share reused is that of the last line that tells it |
| VzdumpLog.LastFinish | app/services/vzdump_log.py:128-129 | the duration is that of the last line that tells it |
| VzdumpLog.NothingTold | app/services/vzdump_log.py:111-131 | what no line tells stays unknown, and a backup failed if and only if a line that reaches the test says so |
| BackupKind.ParseVmidSet | app/services/proxmox.py:431-444 | exactly the listed numbers and those within listed ranges, junk ignored |
| BackupKind.Apply | app/services/proxmox.py:370-401 | one job updates exactly the guests it covers |
| BackupKind.InferBackupKind | app/services/proxmox.py:352-401 | if any enabled specific job covers the guest, daily exactly when one of them is daily; otherwise the same over catch-all jobs |
| BackupKind.OrderOfJobsIrrelevant | app/services/proxmox.py:352-401 | the result is the same for every order of the job list |
| Gotify.Queue.Send | app/services/notifications.py:198-222 | one step of the protocol: an accepted message is last in the queue and a full cool-down is armed in place of the current timer |
| Gotify.Queue.Flush | app/services/notifications.py:119-134 | one step of the protocol: in quiet hours the batch is put off, otherwise the whole queue is taken |
| Gotify.RunKeeps | app/services/notifications.py:103-134 | along every run batches followed by the queue are the accepted messages in order, and a non-empty queue has a timer or flush pending |
| Gotify.QuietRun | app/services/notifications.py:119-134 | in a whole run every batch was the whole queue, taken by a flush outside quiet hours |
| Gotify.QuietRetries | app/services/notifications.py:124-129 | a flush in quiet hours keeps the queue and makes a timer due ten minutes later the current one |
| Gotify.FlushIsNear | app/services/notifications.py:103-134 | in every run a queued message has a flush that waits for the lock or a timer due within ten minutes |
| Gotify.SendIsPatient | app/services/notifications.py:198-222 | after an accepted message nothing can take the queue before the cool-down exactly when no flush waited for the lock and no other timer was due within it |
| Gotify.CooldownExact | app/services/notifications.py:97-134 | every batch of every continuation of a run keeps the cool-down if and only if each message was accepted in such a state |
| Gotify.Replay | app/services/notifications.py:103-134 | for every interleaving of senders, time and timers, one cancelled after it fired included, the code ends with the batches, queue and timers of the protocol; messages are conserved, waiting ones have a flush coming, and batches keep the cool-down if each message was accepted alone |
| Gotify.CooldownCanBeMissed | app/services/notifications.py:109-134 | a flush waiting for the lock takes a message at once, and the timer it leaves behind takes a later one too early |

## Left out

Of the topology:

- Resolving host names and aliases to a server (`resolve`), and de-duplicating jobs by server and id: the walk starts from resolved jobs and targets.
- Namespaces are given by their components; joining and splitting of the text is not modelled.
- Topology.RootOrder: not by name among targets with as many guests, nor among the other datastores; everything proved holds for every such order. The number of guests is given per datastore.
- The order of datastores inside a column. `depth` is not claimed to be a distance.
- `_synced_guests`, `_job_state`, usage figures, weights.

Of placement and progress:

- Floating point: the safety factor 1.2 is six fifths, percentages are integer quotients.
- The RAM check, probe targets and the rest of a run's plan.

Of the task logs:

- Parsing a line: a line says whether it starts a section. Pages are taken to be exact slices of the log, without dropped blank lines.
- Localising progress, forgetting the logs of ended tasks, age limits of the cache.

Of restore testing:

- The database: tables are maps and sequences, a transaction is one step.
- Allocating and recording an environment is one step, as is listing and judging the queue within one pass of the drainer, recording a held run and clearing its helper, reading the owned VMIDs and reaping, and the teardown and the record at the end of a held action: others can act between them only in the real program.
- Lifecycle.System.RecoverUnderWorker: the steps of the worker between the recovery and its own end are one wait, in which others act; it creates nothing any more.
- Lifecycle.System.Probe: the passes of the probe loop are one operation with one answer; a cancel is looked for once, before that answer counts.
- Lifecycle.System.Resume: whether the restore task is still known is not asked; a task that is not polled counts as polled well.
- Due dates, retries in days, notifications, diagnostics and probe evidence; giving up all running runs when the restore server is no longer configured.
- That a guest has at most one live run: manual tests are enqueued unconditionally.
- Drain.Drain: with new runs enqueued by others for ever it would not end; the script lets others act finitely often.

Of events and notifications:

- Regular expressions: a log line says what it matches. Time zones.
- `classify_schedule` and `job_storages_by_vmid`: a job says whether it is daily.
- Composing and sending the batched message, and the other channels.
