# Verified model of the analyzer's cores

This Dafny 4.11 project models the algorithms and state machines at the heart of the Go analysis
server and proves what they promise. Where the Go code updates things in place, so does the model:
classes with fields, loops with invariants, each tied to a specification on values; the theorems are
about those specifications. `dafny verify dfyconfig.toml` checks all of it.

| file | what it models |
|---|---|
| `import_cycles.dfy`, `tarjan.dfy`, `ordering.dfy`, `cycle_report.dfy` | the import graph, Tarjan's search, the sorted report of cycles |
| `call_graph.dfy`, `call_path.dfy`, `call_hierarchy.dfy` | path enumeration and the two depth-limited walks |
| `workspace_cache.dfy`, `workspace.dfy`, `workspace_protocol.dfy` | the program cache: as a list, as map plus list, and shared by concurrent callers |
| `memory_keys.dfy`, `dataflow.dfy` | substitution of memory keys, expansion of accesses through call chains |
| `locksets.dfy`, `lock_tracking.dfy`, `risks.dfy`, `races.dfy` | lockset protection against read-write mutexes, the scan that records locksets, the race report |
| `orm_summaries.dfy` | the pass-bounded fixpoint of ORM usage |
| `compute_mutex.dfy`, `rebuild_queue.dfy`, `build_loop.dfy` | the pre-emptible lock, the rebuild queue, the build loop |
| `embeddings.dfy`, `vector_index.dfy` | the embedding codec and the shadow vector index |
| `complexity.dfy` | the complexity visitor |
| `texts.dfy`, `streaming.dfy` | numbers and joined texts; windows and cursor streaming |
| `grpc_rows.dfy` | the row codec of gRPC endpoints |

Parameters of the model are the call graph, SSA and type facts, loading (which succeeds or fails), clocks,
environment variables, hash functions and the text form of a cursor. Maps stand for SQLite
tables and a store method is one step that either happens or is rolled back; the vector table is taken to
refuse a vector whose length is not its dimension.

Where the code falls short of what it promises, the model keeps the code and states exactly when the promise holds:

- The tool handlers take the compute lock under the tool's name (`main.go:105-120`, `main.go:929-935`), and
  the lock is re-entrant by name without a count. Two overlapping calls of one tool are both let in
  (`ComputeMutex.ExclusionIff`, `ComputeMutex.SameNameBreaksExclusion`).
- The lockset scan counts a deferred `Lock` or `RLock` at once (`LockTracking.DeferredCallIff`,
  `LockTracking.DeferredLockIsNotHeld`), and it walks all blocks in order, so that a lock taken on one branch counts
  behind it on every path (`LockTracking.ScannedLockIff`, `LockTracking.BranchedLockIsNotHeld`).
- The locks of a global access are not rewritten for the caller, so that two goroutines which are given different
  locks seem to share one (`Dataflow.GlobalLocksIff`, `Races.GlobalLocksHideARace`).
- Markers of lost precision that are nested in another order than the code takes them off in stay on
  (`MemoryKeys.NestedMarkerStays`).
- A write under a read lock is not counted as protected even where it is (`Locksets.WriteUnderReadLock`).
- Aborting the rebuild queue stops nothing (`BuildLoop.AbortsStopNothing`).
- A symbol whose new version has no embedding keeps its old vector row (`VectorIndex.BatchKeepsIff`,
  `VectorIndex.EmptiedSymbolKeepsItsRow`), and a symbol that comes without a hash is never stored
  (`VectorIndex.SymbolWithoutHashIsDropped`).
- An incremental update misses a source that changes back after a plain upsert, which leaves the old hash
  (`VectorIndex.IncrementalIff`, `VectorIndex.ChangedBackIsMissed`).
- A path search reports that it hit the path limit also when the limit is exactly the number of paths
  (`CallPath.FindCallPath`).
- A sum of offset and bound past the largest int empties a window (`Streaming.WindowIff`,
  `Streaming.LargestBoundEmptiesTheWindow`) or makes a stream fail (`Streaming.PageIsInBounds`,
  `Streaming.LargestChunkFaults`).
- The comment on `StreamOptions` says that changes of the dataset are detected, but one between the first and the
  last item is not, nor is one that moves a bar between the first and the last key (`Streaming.AcceptedIff`,
  `Streaming.MiddleChangePasses`, `Streaming.MovedBarPasses`).
- A gRPC endpoint whose proto file holds the marker, or whose short name is not trimmed, or whose implementations
  hold newlines or are all blank, is not read back as stored (`GrpcRows.RoundTripIff`, `GrpcRows.MarkedProtoIsCut`).

## Model

| member | source | states |
|---|---|---|
| ImportGraph.StaysInside | analyzer/cycles.go:89-103 | no chain of imports leaves a set of packages that is closed under imports |
| TarjanInvariant.EnterKeeps | analyzer/cycles.go:83-87 | visiting a node that every running call reaches keeps the search invariant and starts its edge loop with its own number as lowlink |
| TarjanInvariant.ChildKeeps | analyzer/cycles.go:93-97 | after a nested call the smaller of the two lowlinks is reached from v and is not undercut by any edge met so far |
| TarjanInvariant.BackEdgeKeeps | analyzer/cycles.go:98-101 | an edge to a node on the stack lowers the lowlink to that node's number and keeps both bounds |
| TarjanInvariant.SkipKeeps | analyzer/cycles.go:90-92 | an edge to an unknown package or to an emitted one leaves the lowlink right |
| TarjanInvariant.LeaveKeeps | analyzer/cycles.go:105 | a call that ends below its own number keeps the invariant and leaves v on the stack with a way down to a running call |
| TarjanInvariant.TopIsMutual | analyzer/cycles.go:105 | when the lowlink is v's own number, all nodes above v reach v and v reaches them |
| TarjanInvariant.TopIsClosed | analyzer/cycles.go:105 | and no import leads from them to anything but emitted nodes |
| TarjanInvariant.TopIsComponent | analyzer/cycles.go:105-117 | so the nodes above v are exactly the nodes mutual with any one of them |
| TarjanInvariant.PopKeeps | analyzer/cycles.go:106-116 | taking them off the stack keeps the invariant and all that earlier calls rely on |
| Tarjan.Search.constructor | analyzer/cycles.go:74-79 | the empty search satisfies the invariant |
| Tarjan.Search.StrongConnect | analyzer/cycles.go:82-118 | the recursive call terminates, keeps the invariant and the report, and returns with v finished at its lowlink |
| Tarjan.Search.Enter | analyzer/cycles.go:83-87 | the assignments before the loop make the visiting step on maps and stack |
| Tarjan.Search.WalkEdge | analyzer/cycles.go:89-103 | one turn of the edge loop accounts for one more edge and touches no finished lowlink |
| Tarjan.Search.Exit | analyzer/cycles.go:105-117 | the end of a call either leaves v open or emits one whole component |
| Tarjan.Search.PopUntil | analyzer/cycles.go:107-115 | the popping loop returns exactly what lay above, each node once, and the stack as it was before v |
| Tarjan.EmitKeeps | analyzer/cycles.go:105-117 | a call whose lowlink is its own number extends the report by one whole component and keeps all invariants |
| Tarjan.ReportOne | analyzer/cycles.go:116 | appending a whole component, closed but for listed nodes, keeps the list disjoint, complete and in order |
| Tarjan.FindSCCs | analyzer/cycles.go:73-134 | for every graph and every order of the keys: the result partitions the keys, groups two of them exactly when each reaches the other, and no edge leads to a later group |
| Tarjan.TogetherIffMutual | analyzer/cycles.go:70-73 | being listed in one group is mutual reachability |
| Tarjan.ReachesEarlier | analyzer/cycles.go:20-23 | the order is reverse topological for reachability: what a group reaches stands in it or before it |
| Ordering.SortSorts | analyzer/cycles.go:54-64 | sorting by an order that tells the elements apart gives a sorted list |
| Ordering.SortedOnce | analyzer/cycles.go:54-64 | two sorted lists of the same elements are the same list |
| Ordering.BeforeIff | analyzer/cycles.go:54-64 | of two names the one that ends first, or has the smaller character where they first differ, comes before |
| CycleReport.MembersSorted | analyzer/cycles.go:48-56 | a component of two and more becomes a sorted cycle that holds with a package exactly the packages mutual with it |
| CycleReport.FoundIsReport | analyzer/cycles.go:47-64 | the sorted cycles of the components are a report: all cycles, each whole and sorted, in order of size and first member |
| CycleReport.ReportSays | analyzer/cycles.go:20-23 | in a report two different packages share a cycle exactly when each imports the other, directly or not |
| CycleReport.ReportIsUnique | analyzer/cycles.go:20-23 | a graph has only one report, so the result is deterministic whatever the order of keys and imports |
| CycleReport.SmallestFirst | analyzer/cycles.go:57-64 | in a report no cycle is larger than a later one, and cycles of one size go by their first members |
| CycleReport.DetectImportCycles | analyzer/cycles.go:45-67 | the method returns that report and its length, smaller cycles first |
| CallPath.FoundArePaths | analyzer/call_path.go:87-140 | the enumeration holds exactly the simple edge paths of length 1 to d from source to target |
| CallPath.FoundInOrder | analyzer/call_path.go:31-33 | in non-decreasing length |
| CallPath.FoundDistinct | analyzer/call_path.go:31-33 | and each once |
| CallPath.SimpleWalk | analyzer/call_path.go:107-117 | every walk has a simple walk between the same ends that is no longer |
| CallPath.FoundIffWithin | analyzer/call_path.go:126-146 | there is a path exactly when source and target differ and the target is within the depth |
| CallPath.CutPrefix | analyzer/call_path.go:127-130 | what is collected when the limit strikes in the middle of a node is a prefix of the enumeration |
| CallPath.ExtendItem | analyzer/call_path.go:103-135 | the edge loop appends every extension to the paths or the queue, and stops at the limit |
| CallPath.FindCallPath | analyzer/call_path.go:41-148 | the queue loop terminates and returns the first maxPaths of the enumeration; reachable says that there is one; the path limit is reported exactly when there are at least that many |
| CallHierarchy.EnterKeeps | analyzer/call_hierarchy.go:125-128 | recording a smaller depth keeps the invariant of the walk |
| CallHierarchy.LeaveKeeps | analyzer/call_hierarchy.go:130-141 | a node whose edges are all followed is settled |
| CallHierarchy.Walker.WalkFrom | analyzer/call_hierarchy.go:121-141 | the walk with its pruning terminates, keeps the invariant, and leaves its node seen at its depth or less |
| CallHierarchy.WalksAreSeen | analyzer/call_hierarchy.go:122-128 | pruning loses nothing: each walk of fewer than maxDepth edges ends in a node seen no later than that |
| CallHierarchy.SeenAreDistances | analyzer/call_hierarchy.go:119-142 | the recorded depths are the shortest distances plus one, for exactly the nodes within maxDepth - 1 |
| CallHierarchy.KeyIff | analyzer/call_hierarchy.go:134-138 | the string of an edge tells a pair of names without the arrow from every other pair |
| CallHierarchy.ReportedIffWithin | analyzer/call_hierarchy.go:134-138 | a string is reported exactly when an edge with this string starts that close |
| CallHierarchy.PairIff | analyzer/call_hierarchy.go:134-138 | on names alone: for every two names without the arrow an edge that joins them is reported exactly when one starts that close, and only one is |
| CallHierarchy.CollectEdges | analyzer/call_hierarchy.go:118-142 | the same of the method's result, by string and by names: each pair of names once, exactly the pairs of live edges that start within the depth less one, each stored depth the length of some walk that ends in the pair |
| CallHierarchy.WalkReversed | analyzer/callers.go:62-83 | a walk over incoming edges is a call chain read backwards |
| CallHierarchy.CallersDistance | analyzer/callers.go:62-83 | so the callers walk measures how many calls a function is away from the root |
| WorkspaceCache.TouchKeeps | analyzer/workspace.go:333-340 | a hit keeps the list free of duplicates, within capacity and sorted by last access |
| WorkspaceCache.InstallKeeps | analyzer/workspace.go:352-370 | so does a landed load, whether it is dropped, replaces an entry or is new |
| WorkspaceCache.SweepIsExact | analyzer/workspace.go:213-235 | on a sorted list the sweep that stops at the first fresh tail entry removes exactly the entries idle for longer than the TTL and keeps the order |
| WorkspaceCache.Resize | analyzer/workspace.go:238-246 | a capacity below one counts as one, and what goes is the tail of the list, if anything |
| WorkspaceCache.RemoveCutsOne | analyzer/workspace.go:391-415 | after a removal the key is gone and the other entries stand as they stood |
| WorkspaceCache.LandedIsCached | analyzer/workspace.go:352-370 | the program a landed load hands out is the one cached first under its key: the cached one if its mode is good enough, else the one loaded |
| WorkspaceCache.GetOrLoadKeys | analyzer/workspace.go:328-389 | whatever the modes, a successful call moves its key to the front and cuts the tail |
| WorkspaceCache.KeepsMostRecent | analyzer/workspace.go:153-160 | after any run of successful calls the cached keys are the first capacity distinct keys of the trace read backwards |
| WorkspaceCache.LargerKeepsMore | analyzer/workspace.go:378-389 | a smaller cache's list is a prefix of a larger one's, and the key just touched is first in both |
| Workspace.Workspace.constructor | analyzer/workspace.go:166-182 | a new workspace is an empty cache with a TTL of 15 minutes |
| Workspace.Workspace.PushFront | analyzer/workspace.go:367-368 | a new entry goes to the front and into the map, which stay in bijection |
| Workspace.Workspace.MoveToFront | analyzer/workspace.go:336-337 | an entry moves to the front and the others keep their order |
| Workspace.Workspace.Drop | analyzer/workspace.go:394-397 | an entry leaves map and list together |
| Workspace.Workspace.EvictLocked | analyzer/workspace.go:378-389 | the list is cut to the capacity from its end, and the map with it |
| Workspace.Workspace.RemoveBack | analyzer/workspace.go:227-228 | the last entry leaves list and map |
| Workspace.Workspace.SweepAt | analyzer/workspace.go:213-235 | the loop over the list's end does what the sweep does on values |
| Workspace.Workspace.SetCapacity | analyzer/workspace.go:238-246 | the capacity is at least one and the list is cut to it |
| Workspace.Workspace.Clear | analyzer/workspace.go:391-415 | the key's entry is removed and the flag says whether there was one |
| Workspace.Workspace.ClearAll | analyzer/workspace.go:417-424 | nothing is left and the count is what there was |
| Workspace.Workspace.Lookup | analyzer/workspace.go:332-342 | the first critical section serves and touches an entry of sufficient mode, or changes nothing |
| Workspace.Workspace.MoveUpdated | analyzer/workspace.go:356-364 | moving an entry whose fields were just assigned is putting its new contents first |
| Workspace.Workspace.Land | analyzer/workspace.go:352-370 | the second critical section keeps a sufficient entry, upgrades one in place, or installs and evicts, and returns the program that is cached |
| WorkspaceProtocol.DoKeeps | analyzer/workspace.go:332-376 | every step of every caller keeps: list valid, within capacity and sorted; every answer of the asked mode at least; every caller that waits for a load waits for one under way |
| WorkspaceProtocol.InEveryRun | analyzer/workspace.go:332-376 | so in all interleavings of any number of calls with sweeps, resizes and removals |
| WorkspaceProtocol.LookIff | analyzer/workspace.go:332-342 | a call is answered from the cache exactly when an entry of its key has its mode or a larger one, with that entry's program |
| WorkspaceProtocol.FlightsAdvance | analyzer/workspace.go:343-376 | a shared load is never begun again while it is under way, and ends only in its own delivery or failure |
| WorkspaceProtocol.ModeNeverDrops | analyzer/workspace.go:354-365 | while a key stays cached its mode never goes down |
| MemoryKeys.SubstituteRootAssociative | analyzer/dataflow.go:277-290 | substituting through two calls at once or one after the other gives the same key |
| MemoryKeys.SubstituteRootDenotes | analyzer/dataflow.go:277-290 | however fields lie in memory, the substituted key denotes what the key denotes with its root bound to the location of the replacement; its type is the replacement's, if known, else the key's |
| MemoryKeys.ParamIndexIsFirst | analyzer/dataflow.go:941-951 | the index is that of the first parameter the root names by ID or by name |
| MemoryKeys.ReplacementIff | analyzer/dataflow.go:292-308 | what stands for a root is the closure binding of a free variable, or the argument of the first parameter that a parameter or receiver names |
| MemoryKeys.SubstituteArgDenotes | analyzer/dataflow.go:292-308 | a key denotes inside a call what its substituted key denotes outside |
| MemoryKeys.SubstituteLockDenotes | analyzer/dataflow.go:310-331 | so does a lock, in its mode, where no root with the read prefix is put in its place |
| MemoryKeys.MarkersComeOff | analyzer/concurrency.go:240-245 | whichever markers a root ID carries in the order of the loop, they all come off |
| MemoryKeys.NestedMarkerStays | analyzer/concurrency.go:240-245 | of an ambiguous alias of a container element one marker stays |
| MemoryKeys.SubstituteLockKeepsMode | analyzer/dataflow.go:310-331 | substitution keeps a lock's mode exactly unless it puts a root with the read prefix under a write lock |
| MemoryKeys.PrefixOfReadLock | analyzer/concurrency.go:290-302 | the base of a read lock's root ID is the ID it was made from |
| MemoryKeys.PrefixedArgumentFlipsMode | analyzer/dataflow.go:310-331 | the function at a root with the prefix, which turns a write lock into a read lock; the scan itself builds no such root |
| MemoryKeys.MergeLocksetsIsUnion | analyzer/dataflow.go:333-348 | merging keeps the base as a prefix and holds exactly the keys of both |
| MemoryKeys.MergeLocksetsLoop | analyzer/dataflow.go:333-348 | the double loop computes that merge |
| Dataflow.ExpandedAreChains | analyzer/dataflow.go:180-261 | the expansion to depth d holds exactly the accesses of the functions at the ends of the call chains of at most d calls, each seen through its chain |
| Dataflow.ChainLocksAreKept | analyzer/dataflow.go:251-259 | an access seen through a chain carries its own locks and, for each call, the caller's locks there as seen from the start, and no others |
| Dataflow.ChainKeepsTheRest | analyzer/dataflow.go:254-257 | a chain changes nothing of an access but its locks and the call it is reported under |
| Dataflow.SubstituteArgCommutes | analyzer/dataflow.go:292-308 | substitution looks at a key's root only |
| Dataflow.OwnAre | analyzer/dataflow.go:188-250 | a function's own accesses are exactly those its summary keeps, adapted by their place, where the argument they ask for is there |
| Dataflow.ExpandedIff | analyzer/dataflow.go:180-261 | the expansion to depth d holds exactly the summary accesses at the ends of the call chains of at most d calls whose arguments are there, adapted and seen through their chains |
| Dataflow.ExpandedKey | analyzer/dataflow.go:180-308 | for accesses filed as addAccess files them, the key of an expanded access is its summary's key walked out call by call, its locks are its own and those of the calls; only a key of unknown root in the expanded function itself may be named by a closure binding |
| Dataflow.ExpandedRest | analyzer/dataflow.go:188-259 | all else of an expanded access is as in its summary: its own goroutine, or the one asked for where it names none, reported under the first call of the chain |
| Dataflow.FramesExist | analyzer/dataflow.go:251-253 | each function on a chain has roots, what a call binds lying where its caller finds it |
| Dataflow.EnvIsFrame | analyzer/dataflow.go:251-253 | the composed arguments put into the function at the end of a chain what the calls put there one by one |
| Dataflow.ExpandedDenotes | analyzer/dataflow.go:180-308 | however fields lie in memory, an expanded access denotes, from the start's roots, the location that its summary key denotes in the function at the end of the chain |
| Dataflow.LocksDenote | analyzer/dataflow.go:310-331 | so do substituted locks, in their modes, as long as no root with the read prefix was passed |
| Dataflow.GlobalLocksIff | analyzer/dataflow.go:213-218 | the own locks of a global access, which are not substituted, come out as substituted exactly when the call gives none of their roots another meaning |
| Dataflow.KeysComposeAlongChains | analyzer/dataflow.go:251-253 | the arguments composed on the way in give any key the meaning it has when it is walked out call by call |
| Dataflow.FiledAccessKey | analyzer/dataflow.go:189-212 | an access filed under the parameter its key names is rewritten by that same substitution |
| Dataflow.AppendAll | analyzer/dataflow.go:193-200 | one loop over filed accesses appends them adapted, in order |
| Dataflow.ExpandFunctionAccesses | analyzer/dataflow.go:180-261 | the recursive method computes the expansion, in order |
| Dataflow.AppendCapped | analyzer/dataflow.go:119-134 | the closure keeps the first 5000 of all that was offered, and the flag says that there was more |
| Dataflow.ExpandSpawn | analyzer/dataflow.go:150-158 | a goroutine's accesses are those of its function with the given arguments and bindings, marked with the goroutine's ID |
| Dataflow.CollectSpawned | analyzer/dataflow.go:150-160 | the loop over a function's goroutines keeps the first 5000 of all |
| Dataflow.SpawnAccessesAre | analyzer/dataflow.go:150-158 | a goroutine gives exactly the accesses at the ends of the chains from its function, marked with its ID |
| Dataflow.CollectedIsGathered | analyzer/dataflow.go:143-161 | when no ID looks like a parent's, marking a function's own accesses and clearing the mark is not marking them: the collection is, in order, each function's accesses and those of its goroutines |
| Dataflow.CollectedIff | analyzer/dataflow.go:135-161 | so it holds exactly the accesses a top-level function with a summary makes through at most three calls, and those of the goroutines it starts |
| Dataflow.CollectCapped | analyzer/dataflow.go:115-166 | over all functions: the first 5000 accesses of the top-level functions with a summary, expanded to depth three outside any goroutine, and of the goroutines they start; and a note exactly when there are more |
| Locksets.ProtectSymmetric | analyzer/concurrency.go:263-282 | protection does not depend on the order of the pair |
| Locksets.ProtectMonotone | analyzer/concurrency.go:263-272 | holding more locks loses no protection |
| Locksets.DoKeeps | analyzer/concurrency.go:274-282 | every step of the mutex machine keeps readers and writer apart and every running access under its locks |
| Locksets.SharedIsReading | analyzer/concurrency.go:284-302 | two threads hold one mutex at once only as readers |
| Locksets.ProtectedPairsExclude | analyzer/concurrency.go:263-282 | in every run that respects the locksets, two accesses under way at once with a write among them are not protected from each other; `ProtectIff` is the converse |
| Locksets.TakeOne | analyzer/concurrency.go:274-282 | where two locksets share only what both read, each lock of one is free for its thread or held by it |
| Locksets.TakeAll | analyzer/concurrency.go:274-282 | so a thread can take its whole lockset while the other keeps its own |
| Locksets.OverlapIff | analyzer/concurrency.go:263-282 | some run has two accesses under way at once exactly when each lockset can be held and what they share is read by both |
| Locksets.ProtectIff | analyzer/concurrency.go:263-282 | two accesses, one a write, that hold no base in both modes and no write under a read lock are protected exactly when no run has them under way at once |
| Locksets.WriteUnderReadLock | analyzer/concurrency.go:274-282 | a write under a read lock is not protected from a read under the write lock, though no run has both under way |
| LockTracking.Builder.AddLock | analyzer/dataflow.go:719-726 | the key joins the lockset unless it is there |
| LockTracking.Builder.AddReadLock | analyzer/dataflow.go:728-736 | the same for the key marked as read |
| LockTracking.Builder.RemoveLock | analyzer/dataflow.go:738-745 | the first entry with the key is cut out |
| LockTracking.Builder.RemoveReadLock | analyzer/dataflow.go:747-750 | the same for the key marked as read |
| LockTracking.Builder.RecordLockCall | analyzer/dataflow.go:448-478 | exactly the four lock methods are recognised; one with an argument that has a key updates the lockset, but a deferred unlock does not |
| LockTracking.TrackedDistinct | analyzer/dataflow.go:719-750 | the lockset never holds an entry twice |
| LockTracking.TrackedAreHeld | analyzer/dataflow.go:448-478 | in every run, with other threads in between, the locks recorded for the calls a thread went through are held by it in the recorded modes, and none it holds for writing is missing |
| LockTracking.DeferredUnlocksDoNotCount | analyzer/dataflow.go:444-477 | where only unlocks are deferred, the lockset is that of the calls made at once |
| LockTracking.RecordedAccessMayBegin | analyzer/dataflow.go:407-415 | so an access recorded with the tracked lockset meets the machine's condition to begin |
| LockTracking.DeferredCallIff | analyzer/dataflow.go:444-477 | with all recorded locks held, a further deferred call leaves them held exactly when it unlocks or takes a lock the thread holds in that mode |
| LockTracking.DeferredLockIsNotHeld | analyzer/dataflow.go:444-477 | a function that begins with a deferred Lock: the lock is recorded, nobody holds it, and an access recorded with it may not begin |
| LockTracking.ScannedLockIff | analyzer/dataflow.go:372-392 | whatever path the thread takes, a lock the scan has recorded for writing is held exactly when the calls of that path leave it recorded too |
| LockTracking.BranchedLockIsNotHeld | analyzer/dataflow.go:372-392 | a write behind a branch that locks, on the path that does not: the lock is recorded, nobody holds it, and the access may not begin |
| Risks.RacyPairSymmetric | analyzer/concurrency.go:148-166 | the pair relation is symmetric |
| Risks.RacyPairShrinks | analyzer/concurrency.go:164-166 | growing a lockset only takes pairs away |
| Risks.PairRiskIsAtAWrite | analyzer/concurrency.go:167-172 | the risk made for a pair stands at one of its writes |
| Risks.PairRiskSays | analyzer/concurrency.go:304-324 | the level is medium exactly when a root is unknown, and a pair of known roots names the type and field of both keys |
| Risks.RelevantLockProtects | analyzer/concurrency.go:196-207 | a write under a relevant lock is no lone write, and is protected from whatever holds the same locks in a mode that fits |
| Risks.RacyPairIff | analyzer/concurrency.go:148-166 | for well-locked accesses a pair survives the filters exactly when it conflicts, is concurrent, and some run has both under way at once |
| Risks.JustifiedIff | analyzer/concurrency.go:135-182 | so a pair that no run has under way at once gives no risk of its own, and each other pair does |
| Risks.HarmlessIsSilent | analyzer/concurrency.go:135-182 | nothing is reported where all accesses are atomic, all are reads, or none is in a goroutine |
| Risks.KeyTextIff | analyzer/concurrency.go:141-173 | with names without a colon the key text tells file, line, level, struct and field apart |
| Risks.ReasonIsReported | analyzer/concurrency.go:141-178 | so the report keeps for every reason its very risk, up to the function it names |
| Risks.SitesAreReported | analyzer/concurrency.go:135-182 | every lone write has a risk at its site, and every racy pair one at a write of it |
| Risks.AddRisk | analyzer/concurrency.go:173-178 | the seen map lets each key in once |
| Risks.CheckAlone | analyzer/concurrency.go:138-147 | one turn of the first loop accounts for one more access |
| Risks.CheckPair | analyzer/concurrency.go:150-178 | one turn of the double loop accounts for one more pair |
| Risks.RisksFromAccesses | analyzer/concurrency.go:135-182 | every unlocked shared goroutine write and every racy pair has a risk with its key text and, with plain names, at its site or at one of its writes; every risk comes from one of them, and no two share a text; of well-locked accesses exactly the conflicting pairs that some run has under way at once |
| Risks.SilenceMeansExclusion | analyzer/concurrency.go:148-180 | a concurrent conflicting pair without a risk is never under way at once in a run that respects the locksets |
| Risks.QuietSitesExclude | analyzer/concurrency.go:148-180 | where no risk stands at a write of such a pair, the two are never under way at once |
| Races.GlobalLocksHideARace | analyzer/dataflow.go:213-218 | two goroutines of one function that touches a global under the lock it is given, each with a lock of its own: with the locks that were given a race, with those collected none |
| OrmSummaries.ApplyCall | analyzer/orphaned_models.go:406-440 | one call instruction records exactly what its rule derives, only facts of the least fixpoint, and reports a change exactly when there is one |
| OrmSummaries.ApplyFunction | analyzer/orphaned_models.go:396-443 | so do a function's loops with the final write back |
| OrmSummaries.Pass | analyzer/orphaned_models.go:395-444 | and one pass in place |
| OrmSummaries.PassAddsHeight | analyzer/orphaned_models.go:394 | each pass adds one derivation height |
| OrmSummaries.UnchangedIsClosed | analyzer/orphaned_models.go:394 | a pass that changes nothing holds the whole least fixpoint |
| OrmSummaries.BuildOrmUsageSummaries | analyzer/orphaned_models.go:385-447 | only facts of the least fixpoint; all facts of height at most four; the least fixpoint itself when the last pass changed nothing |
| ComputeMutex.Lock.constructor | analyzer/compute_mutex.go:44-46 | a new lock is free |
| ComputeMutex.Lock.TryLock | analyzer/compute_mutex.go:48-69 | state and outcome by holder, name and priority |
| ComputeMutex.Lock.Unlock | analyzer/compute_mutex.go:71-83 | only the holder's name, or an empty one, frees the lock |
| ComputeMutex.DoKeeps | analyzer/compute_mutex.go:48-83 | every step of distinctly named sessions keeps: the one inside is the holder, and the flag is set exactly when a contender was refused for it |
| ComputeMutex.AtMostOneInside | analyzer/compute_mutex.go:48-83 | in every run of distinctly named sessions at most one is inside |
| ComputeMutex.AbortedMeansRefused | analyzer/compute_mutex.go:64-92 | the flag that CheckAborted reads means exactly that a high-priority contender was refused since the present, lower-ranking holder came in |
| ComputeMutex.PreemptionWaits | analyzer/compute_mutex.go:61-80 | no contender changes the holder, by locking or by unlocking |
| ComputeMutex.SecondEntersIff | analyzer/compute_mutex.go:55-63 | on a lock just taken a second session gets in exactly when the names are equal or the first is empty |
| ComputeMutex.TidyStep | analyzer/compute_mutex.go:48-83 | in a run under any names, with one session inside at most, a clash of names lets a second one in and anything else does not |
| ComputeMutex.ExclusionIff | analyzer/compute_mutex.go:48-83 | in a run under any names at most one session is inside all the time exactly when none enters while one with the same name, or the empty name, is inside |
| ComputeMutex.SameNameBreaksExclusion | main.go:105-120 | two overlapping calls of one tool are both let in, and after the first ends a third joins the second |
| RebuildQueue.InsertSorts | analyzer/sync_queue.go:60-65 | inserting into a sorted queue keeps it sorted |
| RebuildQueue.StableSortSorts | analyzer/sync_queue.go:60-65 | after the sort no request has a larger priority number than a later one, nor, at the same number, a later creation time |
| RebuildQueue.StableSortElements | analyzer/sync_queue.go:60-65 | and loses and adds nothing |
| RebuildQueue.StableSortIsStable | analyzer/sync_queue.go:60-65 | and keeps the order of requests that compare equal |
| RebuildQueue.EnqueueSorts | analyzer/sync_queue.go:53-67 | after a submission the queue is sorted and holds the stamped request in addition |
| RebuildQueue.OldestFirst | analyzer/sync_queue.go:72-79 | of all that waits the request taken has the smallest priority number and, among those, the earliest creation time |
| RebuildQueue.Requests.constructor | analyzer/sync_queue.go:47-51 | a new queue is empty |
| RebuildQueue.Requests.Enqueue | analyzer/sync_queue.go:53-67 | append and stable sort on the field |
| RebuildQueue.Requests.TryDequeue | analyzer/sync_queue.go:71-81 | the first request becomes active, or nothing changes |
| RebuildQueue.Requests.FinishActive | analyzer/sync_queue.go:123-129 | clears the active request, flag and reason only |
| BuildLoop.DoKeeps | analyzer/sync_manager.go:173-228 | every step of the loop, a submitter or a tool keeps: no request lost or doubled, the lock held from TryLock to Unlock only, queue sorted |
| BuildLoop.InEveryRun | analyzer/sync_manager.go:169-229 | so in every interleaving; what becomes of a request is in `BouncedIff` and `LoopBuilds` |
| BuildLoop.AtLoopHead | analyzer/sync_manager.go:173-177 | at the loop head the loop does not hold the lock, nothing is active, and submitted is pending plus completed plus failed |
| BuildLoop.BounceKeepsPlace | analyzer/sync_manager.go:186-215 | a bounced request goes back unchanged, before every waiting request of its priority that was created later |
| BuildLoop.TakesOldest | analyzer/sync_queue.go:72-79 | in every run the loop takes a request whose priority number is at most that of every waiting one, and at the same number no younger |
| BuildLoop.FlagInEveryRun | analyzer/sync_manager.go:210-215 | in every run, while the loop holds the lock it holds it with its request's priority, and the flag says exactly that a high-priority tool was turned away since it got it and the request ranks lower |
| BuildLoop.BouncedIff | analyzer/sync_manager.go:185-215 | a request is turned back before the lock exactly when a tool holds it, and after it exactly when the request ranks lower than a high-priority tool that was turned away since |
| BuildLoop.LoopBuilds | analyzer/sync_manager.go:173-228 | from the head with the lock free, one round with nothing in between builds the first request: completed if the build succeeds, failed if not, all else as before and the lock free again |
| BuildLoop.LoopDrains | analyzer/sync_manager.go:173-228 | so undisturbed rounds that succeed complete all that waits |
| BuildLoop.AbortsStopNothing | analyzer/sync_queue.go:90-96 | in every run, leaving out all aborts of the queue changes no request, no lock and no step of the loop: only the flag and the reason it shows |
| Embeddings.DecodeEncode | analyzer/embeddings.go:257-277 | decoding undoes encoding |
| Embeddings.DecodeLength | analyzer/embeddings.go:268-272 | one entry for eight bytes, none for a length that is no multiple |
| Embeddings.EncodeEmbedding | analyzer/embeddings.go:257-266 | the loop writes the little-endian bytes of each entry |
| Embeddings.DecodeEmbedding | analyzer/embeddings.go:268-277 | the loop reads them back |
| VectorIndex.UpsertOneSelf | analyzer/storage.go:1089-1099 | a symbol with an embedding ends in step with its vector row; one without exactly if it has no row |
| VectorIndex.UpsertOneOthers | analyzer/storage.go:1104-1122 | no other symbol's row is touched |
| VectorIndex.UpsertAllIff | analyzer/storage.go:1070-1102 | a batch goes through exactly when its vectors have the table's dimension |
| VectorIndex.UpsertAllSymbols | analyzer/storage.go:1089-1096 | the symbol table afterwards is the old one with the filled-in batch put on top |
| VectorIndex.StoredEmbedding | analyzer/storage.go:1089-1097 | the last symbol of an ID is stored as it is, embedding included; one with a source and no embedding gets the deterministic one |
| VectorIndex.BatchKeepsIff | analyzer/storage.go:1070-1122 | after a batch the vector table holds exactly one row, with the stored vector, for each symbol of the current dimension, if and only if no symbol that ends without an embedding had a row |
| VectorIndex.EmptiedSymbolKeepsItsRow | analyzer/storage.go:1104-1108 | a symbol stored with a source and then without one: its old vector row stays |
| VectorIndex.UpsertAllKeeps | analyzer/storage.go:1070-1122 | so always when every symbol of the batch embeds |
| VectorIndex.ChangedAre | analyzer/storage.go:847-856 | the changed symbols are those of the batch with a stale ID |
| VectorIndex.SkippedIff | analyzer/storage.go:769-800 | an ID is skipped exactly when every hash offered for it is recorded, for this very version |
| VectorIndex.PutSource | analyzer/storage.go:1089-1096 | after a batch each of its IDs has the source of its last symbol, and no other ID changes |
| VectorIndex.ChangedSource | analyzer/storage.go:843-856 | storing the stale symbols is storing all of them at the stale IDs and nothing at the others |
| VectorIndex.IncrementalIff | analyzer/storage.go:839-879 | for every batch, with shared IDs or missing hashes too: storing the stale symbols leaves the same sources as storing all exactly when the last source of every skipped ID is stored already |
| VectorIndex.IncrementalIsComplete | analyzer/storage.go:839-879 | that is so, with a collision-free hash, where every recorded hash is that of the stored source, and it keeps the hashes so |
| VectorIndex.IncrementalRunIsComplete | analyzer/storage.go:839-879 | so a store that only UpsertChangedSymbols writes to has after any run of batches the sources of the run that stores every symbol each time |
| VectorIndex.SecondTimeStoresNothing | analyzer/storage.go:839-879 | a batch that has gone through stores nothing when it comes again |
| VectorIndex.ChangedBackIsMissed | analyzer/storage.go:802-879 | stored as v1, rewritten by UpsertSymbols as v2, offered as v1 again: v2 stays |
| VectorIndex.SymbolWithoutHashIsDropped | analyzer/storage.go:847-856 | a symbol that comes without a hash is never stored |
| VectorIndex.FitsIff | analyzer/storage.go:1171-1187 | for a batch in which every symbol embeds, fitting the table means that all vectors have one length |
| VectorIndex.OwnerIsIndexable | analyzer/storage.go:1189-1234 | every vector row belongs to a symbol of the current dimension |
| VectorIndex.Store.constructor | analyzer/storage.go:132-134 | empty tables are in step |
| VectorIndex.Store.VectorRowID | analyzer/storage.go:1124-1133 | a symbol keeps its row ID, and a new one gets a fresh ID |
| VectorIndex.Store.RebuildVectorTable | analyzer/storage.go:1189-1234 | filling an empty vector table brings it in step |
| VectorIndex.Store.EnsureVectorTable | analyzer/storage.go:1135-1169 | the table gets the dimension and stays in step; a dimension that is not positive changes nothing |
| VectorIndex.Store.EnsureVectorTableForSymbols | analyzer/storage.go:1171-1187 | the first symbol with a vector or a source decides the dimension |
| VectorIndex.Store.UpsertSymbol | analyzer/storage.go:1089-1122 | the loop body on the tables does the upsert on values |
| VectorIndex.Store.UpsertSymbolsTx | analyzer/storage.go:1070-1102 | all or nothing |
| VectorIndex.Store.UpsertSymbols | analyzer/storage.go:802-837 | it goes through exactly when the vectors fit; the index is in step afterwards exactly when it failed or stranded no row |
| VectorIndex.Store.UpsertChangedSymbols | analyzer/storage.go:839-879 | the same for the stale part of the batch, with the hashes recorded when it goes through |
| VectorIndex.Store.SearchCandidates | analyzer/storage.go:899-919 | the symbols a search ranks are exactly those whose embedding has the query's length |
| Complexity.Analyzer.constructor | analyzer/complexity.go:174-181 | counting starts at one |
| Complexity.Analyzer.NoteNesting | analyzer/complexity.go:191-195 | the deepest level so far |
| Complexity.Analyzer.AddDecision | analyzer/complexity.go:197-200 | one branch, and one plus the level of cognitive cost |
| Complexity.Analyzer.AddFork | analyzer/complexity.go:240-241 | one plus the level of cognitive cost and no branch |
| Complexity.Analyzer.VisitExpr | analyzer/complexity.go:350-404 | the fields afterwards are the count of what the expression makes the visitor meet |
| Complexity.Analyzer.VisitBlock | analyzer/complexity.go:202-210 | the same for a block |
| Complexity.Analyzer.VisitStmt | analyzer/complexity.go:212-216 | the same for a statement, with nil met by nothing |
| Complexity.Analyzer.VisitInner | analyzer/complexity.go:217-287 | the same for each kind of statement, with else-if on the level of its if |
| Complexity.Analyzer.VisitCases | analyzer/complexity.go:290-311 | the same for case clauses |
| Complexity.Analyzer.VisitComms | analyzer/complexity.go:313-332 | the same for communication clauses |
| Complexity.ScoreIsTotal | analyzer/complexity.go:183-200 | the stateful counts are sums: branches; structures with their levels, flat costs and one recursion; the deepest level |
| Complexity.StmtMoves | analyzer/complexity.go:212-288 | moving a statement k levels down moves all it makes the visitor meet k levels down, and every structure stands at its own level or at one that was noted |
| Complexity.StmtMet | analyzer/complexity.go:212-288 | what is counted in a statement does not depend on where it stands and is what its syntax holds: ifs, loops, clauses that are no default, logical operators, forks, counted branch statements |
| Complexity.StmtFits | analyzer/complexity.go:212-288 | at any level n, the levels of the structures met sum to n for each structure and one more for each body around it, the deepest level is n plus the depth of the syntax, and the function calls itself exactly when its syntax does |
| Complexity.MovingDeeper | analyzer/complexity.go:212-404 | k levels down: cognitive grows by k for each structure, the deepest level by k, cyclomatic not at all |
| Complexity.WholeFunction | analyzer/complexity.go:174-181 | exactly: cyclomatic is one plus the branches; cognitive is, from the syntax, one for each structure and each body around it, the flat costs, and one if the function calls itself; the deepest level is the depth of the syntax |
| Complexity.AnalyzeFunc | analyzer/complexity.go:174-181 | the same of the method's results, with or without a body |
| Streaming.EffectiveMaxChunkSize | analyzer/query_options.go:22-29 | the cap is positive whatever the environment says |
| Streaming.WindowIff | analyzer/query_options.go:88-116 | the window is what offset, maxItems and limit ask for exactly when nothing lies past the offset or no sum wraps around, and truncated says that items are missing |
| Streaming.PageIsInBounds | analyzer/streaming.go:77-115 | any cursor is refused, or gives a part in bounds from its offset with a next cursor right behind it; the call fails exactly when offset plus chunk size wraps around |
| Streaming.OneCall | analyzer/streaming.go:126-143 | the same through streamOrWindow over the first maxItems items: refused exactly for another version, total or fingerprint |
| Streaming.FirstPageTruncatedIff | analyzer/streaming.go:132-141 | on a first page truncated says that items are missing exactly unless maxItems cut the list to what fits |
| Streaming.ReadsTheRest | analyzer/streaming.go:77-143 | following next cursors with any positive sizes terminates and gives the rest of the list in order, nothing repeated or skipped |
| Streaming.ReadsAll | analyzer/streaming.go:124-143 | from the start: exactly the first maxItems items, or all |
| Streaming.AcceptedIff | analyzer/streaming.go:63-94 | a cursor is accepted over another list exactly when length and joined text are the same |
| Streaming.TextIff | analyzer/streaming.go:67-70 | keys without a bar: the joined text tells identifier, length, first and last key apart |
| Streaming.AcceptedFields | analyzer/streaming.go:63-94 | so for such keys a cursor is accepted exactly when these four are the same |
| Streaming.MiddleChangePasses | analyzer/streaming.go:12-19 | a change in the middle that is read without notice |
| Streaming.MovedBarPasses | analyzer/streaming.go:67-70 | first and last key that change by moving a bar between them are accepted |
| Streaming.LargestBoundEmptiesTheWindow | analyzer/query_options.go:98-111 | everything from the second item on, asked for with the largest bound: nothing |
| Streaming.LargestChunkFaults | analyzer/streaming.go:101-109 | a second call for the largest chunk, in an environment that allows it, fails |
| GrpcRows.MarkerCannotStraddle | analyzer/storage.go:677-680 | the marker cannot lie across the end of the proto text |
| GrpcRows.ProtoIff | analyzer/storage.go:677-680 | proto file and short name are cut apart as they were joined exactly when the proto file has no marker |
| GrpcRows.SplitJoin | analyzer/storage.go:685-687 | splitting undoes joining for parts without the separator |
| GrpcRows.LinesIff | analyzer/storage.go:685-687 | the implementations come back exactly when there are none, or none has a newline and one is not blank |
| GrpcRows.RoundTripIff | analyzer/storage.go:737-745 | an endpoint comes back as it was stored exactly under those conditions and with a trimmed short name, or one that is filled in again |
| GrpcRows.ShortNameIsLast | analyzer/storage.go:752-758 | the short name is what follows the last dot, or all of a name without one |
| GrpcRows.MarkedProtoIsCut | analyzer/storage.go:677-680 | a proto file that holds the marker is not read back |
| GrpcRows.Table.UpsertGRPCEndpoints | analyzer/storage.go:716-750 | the loop puts each endpoint's row under its key |
| GrpcRows.OthersStay | analyzer/storage.go:719-727 | rows of other keys stay |
| GrpcRows.LastOneIsRead | analyzer/storage.go:662-690 | of the endpoints with one key the last is kept and read |

## Left out

- CycleReport.DetectImportCycles: how the graph is read off the loaded packages.
- CallPath.FindCallPath: looking functions up by name, and the rendering of steps and edges.
- CallHierarchy.CollectEdges: sorting, summary and diagram; the stored depth is that of the first visit and is not claimed to be the smallest.
- Workspace.Workspace.Clear: how the key is computed from directory and patterns.
- WorkspaceProtocol.InEveryRun: freshness after an invalidation, since a load under way may still be joined or installed, which the code allows; the shadow store write inside the load.
- MemoryKeys.SubstituteLockKeepsMode: markers in root IDs are not interpreted; that the scan builds no root with the read prefix, so that modes are kept, is not part of the model.
- Dataflow.ExpandFunctionAccesses: the order in which Go iterates over the map of parameter effects is an input.
- Dataflow.CollectCapped: the keys of a function's own parameters are inputs, and which functions have a parent.
- Dataflow.ExpandedKey: that accesses are filed as addAccess files them is a hypothesis, since the scan that files them rests on SSA values.
- Dataflow.ExpandedDenotes: a key of unknown root that a closure binding names keeps its unknown root, which denotes nothing certain.
- Races.GlobalLocksHideARace: it is about the pair; a goroutine write that is not atomic may still be reported by itself.
- Locksets.ProtectedPairsExclude: a mutex is unlocked by the thread that locked it, and one key is one mutex.
- LockTracking.TrackedAreHeld: the scan sees the calls in the order the thread makes them, so branches and loops are not covered; keys that start with the read prefix are shut out, and nothing is said about the time after the function returns.
- Risks.RisksFromAccesses: the texts of a risk, built from the same two accesses, and the final sorting.
- OrmSummaries.BuildOrmUsageSummaries: the recognition of ORM operations and of parameters behind values.
- ComputeMutex.Lock.TryLock: nil receivers and the estimated time.
- BuildLoop.InEveryRun: the loop is a state machine on values, because other goroutines step in between its critical sections, which are the methods of `ComputeMutex.Lock` and `RebuildQueue.Requests`; status fields, pauses, pause and resume (which do not stop the loop), cancellation, and what a rebuild does; a request counts as failed when its rebuild does.
- RebuildQueue.Requests.TryDequeue: the polling wait, and the error text beside the queue.
- Embeddings.DecodeEncode: entries are 64-bit patterns, so arithmetic on floats plays no part.
- VectorIndex.Store.UpsertSymbols: the embedding provider, vectors that JSON cannot write, and rounding to 32 bits in the vector table.
- VectorIndex.Store.SearchCandidates: the ranking, which is the vector extension's.
- VectorIndex.IncrementalIsComplete: line numbers, which an unchanged source does not update.
- Complexity.Analyzer.VisitInner: clause lists hold clauses only, as the Go parser makes them.
- Streaming.AcceptedIff: the hash of the joined text, of which eight bytes are kept, is taken as injective.
- GrpcRows.Table.UpsertGRPCEndpoints: the loop over the rows read, of which only the decoding of one row is modelled, the order of the rows read, and the anchor, which is computed.
- The summary builder's memory keys and aliases, and the field limits there: they rest on SSA values.
- SQLite, its journal and crashes; package loading; call graph construction; type queries.
- Route, entrypoint and tag extraction from syntax, and name matching: heuristics without a specification.
- Dead code and reverse dependencies: reachability, which the harder walks above subsume.
- Halstead and maintainability figures, diagrams, configuration, handlers, prompts and workflow texts.
