# A verified model of the LemonDB query scheduler and table engine

LemonDB runs a list of queries over named tables, either one by one or with a pool
of workers.  This project models the part that makes the second mode give the
results of the first, and the table engine below it, and proves what both promise.

## What is modelled

The scheduler is one state machine.  All of its state changes happen in critical
sections under one mutex, so each section is one function on a state value
(`TaskQueueSpec`, `DependencySpec`, `GlobalIndexSpec`), and a run is any list of enabled
events: register, ready, fetch, execute, complete, finish (`SchedulerSystem`).  No event
names a worker, so a run covers every number of workers and every interleaving.  The
objects that the program updates in place are classes (`TaskQueueObject.TaskQueue`,
`DependencyManagerObject.DependencyManager`, `GlobalIndexObject.GlobalIndex`) whose loops
and assignments are proved to take exactly these steps; the theorems about runs are
lemmas about the step functions.

* `SchedulerTypes`: queries, items, dependency payloads.
* `GlobalIndex.dfy`, `DependencyManager.dfy`, `TaskQueue.dfy`, `TaskQueueClass.dfy`: the
  index with lazy deletion, the dependency records with their wait heaps, the queue.
* `SchedulerSystem.dfy`: the queue with its workers.
* `Conservation.dfy`, `Waiting.dfy`, `Registration.dfy`, `SchedulerInvariant.dfy`,
  `PriorityRuns.dfy`: what holds in every run without any restriction on the workload.
* `ExampleRuns.dfy`, `LostCandidates.dfy`, `FairnessWindow.dfy`, `QuitRun.dfy`: runs that show
  what does not hold, and how single events work in them.
* `Tokens.dfy`, `SingleRegistration*.dfy`, `SerialEquivalence.dfy`, `SingleThreaded.dfy`:
  workloads in which each table is created at most once.  In them the operations of each
  table are dispatched one at a time in submission order, and the database is that of
  running the executed queries one by one in submission order; how this relates to the
  single-threaded mode, which ends at QUIT, is the subject of the last file.
* `Workers.dfy`: table locks and mutexes, and the workers of the pool over single lock
  operations.
* `Table.dfy`, `Conditions.dfy`, `RowQueries.dfy`, `Arithmetic.dfy`, `Reports.dfy`,
  `NumberText.dfy`, `DumpLoad.dfy`, `TableStreams.dfy`: rows with a hash index, where-clauses,
  DELETE, DUPLICATE, ADD, SUB, SUM, SELECT, and the text format of DUMP and LOAD.

Sequence numbers start at 1 and increase, and all queries are registered before the first
fetch; this is how the query executor drives the queue, and it is what an enabled event
requires.  A *single-registration* workload is one in which each table is the target of at
most one LOAD or COPYTABLE, no COPYTABLE copies a table onto itself, no LOAD reads a file that
an earlier DUMP wrote, and LOADs of one file name one table (the program takes the name from
the file).

## What the code does differently from what one would expect

* `fetchNext` takes a LOAD and a table candidate out of their queues and keeps one.  When the
  table wins, the LOAD is destroyed; `Conservation.TurnDiscards` says exactly when, and
  `LostCandidates.ALoadCanBeLost` is a run of three queries in which it happens.  The other
  theorems count such items in a history variable `discarded`.
* COPYTABLE of a table onto itself waits for itself: `RegistrationSpec.SelfDependency`.
* The index comparator is not transitive: `GlobalIndexSpec.KeyCmpHasCycle`.  That all stamps in
  the heap lie within one fairness window does not make the pick a least live entry by
  (priority, headSeq), because the heap may still be in the order that an older entry gave
  it: `WindowExample.WindowIsNotEnough` is a list of eight operations after which it fails.
  What does is that fewer than 64 ticks have passed since the heap was last empty, and that
  bound is exact: `FairnessWindow.WindowIsExact`.
* The single-threaded loop ends at QUIT, which throws; the threaded queue goes on past it.
  `QuitRun.QuitIsPassed` is a run of LOAD, QUIT, DROP that drops the table.
  `SingleThreadedRuns.AgreeForAllEffects` says for which workloads it makes no difference.
* Renaming a row to the key of another row breaks the index: `TableObject.Table.SetKey` says
  exactly when the table stays consistent.
* DUMP pads columns to ten characters but does not separate them, so a table is read back
  exactly when its entries leave room; a negative number separates itself from the one before.
* A table file whose field count is zero makes LOAD look at the front of an empty deque; the
  model has an outcome of its own for it (`NoFields`).

## Model

| member | source | states |
|---|---|---|
| `GlobalIndexSpec.PushContents` | src/scheduler/GlobalIndex.cpp:9-21 | a push adds exactly one entry to the heap |
| `GlobalIndexSpec.PopContents` | src/scheduler/GlobalIndex.cpp:24-39 | a pop removes exactly the top entry |
| `GlobalIndexSpec.PushOrdered` | src/scheduler/GlobalIndex.h:44-58 | with the non-transitive comparator a push still keeps parents at least as high in class as children, and in exact (priority, headSeq) order when all stamps lie in one fairness window |
| `GlobalIndexSpec.PopOrdered` | src/scheduler/GlobalIndex.h:44-58 | the same for a pop |
| `GlobalIndexSpec.TopBeforeAll` | src/scheduler/GlobalIndex.h:44-58 | the top of an ordered heap comes before all entries |
| `GlobalIndexSpec.KeyCmpHasCycle` | src/scheduler/GlobalIndex.h:44-58 | three entries each of which has to come out after the next |
| `GlobalIndexSpec.LiveIsAMap` | src/scheduler/GlobalIndex.cpp:9-39 | at most one live entry per table |
| `GlobalIndexSpec.UpsertReplaces` | src/scheduler/GlobalIndex.cpp:9-21 | upsert replaces the live entry of its table and no other |
| `GlobalIndexSpec.PickBestPicks` | src/scheduler/GlobalIndex.cpp:24-39 | pickBest is empty exactly when nothing is live, else removes one live entry of the best class |
| `GlobalIndexSpec.PickBestTables` | src/scheduler/GlobalIndex.cpp:24-39 | the picked table is live before and not after, all others stay |
| `GlobalIndexSpec.PickBestLeast` | src/scheduler/GlobalIndex.cpp:24-39 | if the heap is ordered by one of the three orders and the comparator agrees with it on the entries, the pick is a least live entry by that order and the heap stays so |
| `GlobalIndexSpec.UpsertSound` | src/scheduler/GlobalIndex.cpp:9-21 | an upsert keeps the heap ordered by an order the comparator agrees with on the old and the new entries |
| `GlobalIndexSpec.NotPickedUnlessPut` | src/scheduler/GlobalIndex.cpp:9-39 | in any list of index operations, a table that is not live at some point is not picked later before it is upserted |
| `GlobalIndexSpec.PutBetweenPicks` | src/scheduler/GlobalIndex.cpp:9-39 | in any list of index operations there is an upsert of a table between any two picks of it |
| `GlobalIndexSpec.StretchIsExact` | src/scheduler/GlobalIndex.h:44-58 | after any list of operations on an empty heap whose ticks lie in one fairness window, the heap is ordered by (priority, headSeq) |
| `WindowExample.WindowIsNotEnough` | src/scheduler/GlobalIndex.h:44-58 | operations after which all stamps lie in one fairness window and the pick is not a least live entry |
| `GlobalIndexObject.GlobalIndex.Upsert` | src/scheduler/GlobalIndex.cpp:9-21 | the object takes the upsert step: version bumped, entry sifted up |
| `GlobalIndexObject.GlobalIndex.PickBest` | src/scheduler/GlobalIndex.cpp:24-39 | the popping loop takes the pickBest step |
| `PriorityRuns.PicksBestClass` | src/scheduler/GlobalIndex.cpp:24-39 | in every reachable state the pick has the best class among the live entries |
| `PriorityRuns.TraceFollows` | src/scheduler/TaskQueue.cpp:22-279 | the index of every run results from the listed upserts and picks of its events, each upsert bearing the tick of its moment |
| `PriorityRuns.PutBetweenPicks` | src/scheduler/GlobalIndex.cpp:9-39 | in every stretch of every run there is an upsert of a table between any two picks of it |
| `PriorityRuns.NotPickedUnlessPut` | src/scheduler/GlobalIndex.cpp:9-39 | a table that is not live in some state of a run is not picked later on before it is upserted |
| `PriorityRuns.StretchPicksLeast` | src/scheduler/GlobalIndex.h:44-58 | in every run, while fewer than 64 ticks have passed since the heap was last empty, every pick takes out a least live entry by (priority, headSeq) |
| `FairnessWindow.PickAfter64Ticks` | src/scheduler/GlobalIndex.h:44-58 | a run in which, 64 ticks after the heap was empty, the pick is not a least live entry |
| `FairnessWindow.WindowIsExact` | src/scheduler/GlobalIndex.h:44-58 | all runs pick a least live entry while at most n ticks have passed since the heap was last empty, if and only if n is less than 64 |
| `DependencyManagerObject.DependencyManager.MarkScheduledFile` | src/scheduler/DependencyManager.cpp:91-101 | returns the previous mark of the file and records the later one |
| `DependencyManagerObject.DependencyManager.TakeDroppedTables` | src/scheduler/DependencyManager.cpp:35-52 | a pending LOAD takes over each dropped table once |
| `DependencyManagerObject.DependencyManager.MarkScheduled` | src/scheduler/DependencyManager.cpp:15-89 | the object takes the scheduling step for each query type |
| `DependencyManagerObject.DependencyManager.AddWait` | src/scheduler/DependencyManager.cpp:115-120 | the item joins the heap of its key in sequence order |
| `DependencyManagerObject.DependencyManager.NotifyCompleted` | src/scheduler/DependencyManager.cpp:122-167 | the loop yields exactly the items before the first still blocked one |
| `RegistrationSpec.RegisterChains` | src/scheduler/DependencyManager.cpp:15-113 | every recorded dependency names an earlier accepted item that will notify just that key, and no later one lies between |
| `RegistrationSpec.SelfDependency` | src/scheduler/DependencyManager.cpp:79-88 | a COPYTABLE depends on itself exactly when it copies a table onto itself |
| `RegistrationSpec.RegisterPlaced` | src/scheduler/TaskQueue.cpp:22-72 | a registered item is appended to the barriers, the load queue or its table's queue, nothing else moves, and all items stay well placed |
| `WaitingSpec.RestStillWaits` | src/scheduler/DependencyManager.cpp:122-200 | everything behind the break of the notification loop still waits, so stopping there is sound |
| `WaitingSpec.NotifyKeepsHeaps` | src/scheduler/DependencyManager.cpp:122-167 | after a notification each parked item still waits for a number above the last completed one |
| `WaitingSpec.OnCompletedPlaced` | src/scheduler/TaskQueue.cpp:99-117 | completion actions, with all their wake-ups, keep every item well placed |
| `WaitingSpec.FetchLoopOk` | src/scheduler/TaskQueue.cpp:225-279 | a fetched task has all its dependencies met and precedes all pending barriers; items stay well placed |
| `TaskQueueSpec.FlagDropped` | src/scheduler/TaskQueue.cpp:211-217 | exactly the items with a smaller number get the flag |
| `TaskQueueSpec.PickTable` | src/scheduler/TaskQueueFetch.cpp:26-39 | only index and waiting tables change, the heap shrinks when a nonempty table is returned |
| `TaskQueueSpec.FetchTurnShrinks` | src/scheduler/TaskQueue.cpp:233-277 | each turn of the fetch loop that loops again uses up a LOAD or an index entry, so the loop ends from every state |
| `TaskQueueObject.TaskQueue.RegisterTask` | src/scheduler/TaskQueue.cpp:22-72 | the object takes the registration step, or rejects the query after QUIT |
| `TaskQueueObject.TaskQueue.GetFetched` | src/scheduler/TaskQueueFetch.cpp:16-40 | takes the load candidate and then the table candidate of the state machine |
| `TaskQueueObject.TaskQueue.FetchBarrier` | src/scheduler/TaskQueueFetch.cpp:42-70 | takes the barrier step: only with nothing running, then re-indexes the held back tables |
| `TaskQueueObject.TaskQueue.JudgeLoadDeps` | src/scheduler/TaskQueueFetch.cpp:72-91 | parks a LOAD on the file, else on the table, it has to wait for |
| `TaskQueueObject.TaskQueue.JudgeNormalDeps` | src/scheduler/TaskQueueFetch.cpp:93-160 | pops and parks the head of a queue on the first key it has to wait for |
| `TaskQueueObject.TaskQueue.FetchNext` | src/scheduler/TaskQueue.cpp:225-279 | the loop takes the fetch step, exception included |
| `TaskQueueObject.TaskQueue.OnCompleted` | src/scheduler/TaskQueue.cpp:99-117 | the completion closure takes the completion step |
| `TaskQueueObject.TaskQueue.RegisterTableQueue` | src/scheduler/TaskQueue.cpp:205-223 | registers a table, flags the earlier items and indexes its head |
| `TaskQueueObject.TaskQueue.UpdateDependencyRecords` | src/scheduler/TaskQueueDeps.cpp:29-81 | notifies the file and the tables of the item; a DROP unregisters its table |
| `TaskQueueObject.TaskQueue.UpdateReadyFile` | src/scheduler/TaskQueueDeps.cpp:83-111 | wakes an item that waited for a file |
| `TaskQueueObject.TaskQueue.UpdateReadyTable` | src/scheduler/TaskQueueDeps.cpp:113-147 | wakes an item that waited for a table |
| `TaskQueueObject.TaskQueue.ApplyUpdateDeps` | src/scheduler/TaskQueueDeps.cpp:17-27 | notifies, then wakes the file items, then the table items |
| `Conservation.AlwaysConserved` | src/scheduler/TaskQueue.cpp:22-279 | in every reachable state each accepted item is in exactly one place, discarded ones counted |
| `Conservation.TurnDiscards` | src/scheduler/TaskQueue.cpp:245-276 | a turn discards its LOAD candidate exactly when a table candidate is preferred to it or the fetch throws, and nothing else |
| `LostCandidates.ALoadCanBeLost` | src/scheduler/TaskQueue.cpp:245-276 | a run of LOAD, DROP, LOAD in which the second LOAD is discarded |
| `SchedulerInvariant.AlwaysInv` | src/scheduler/TaskQueue.cpp:22-279 | the invariant of the scheduler holds in every state of every run |
| `SchedulerInvariant.FileOperationsInOrder` | src/scheduler/TaskQueueFetch.cpp:72-108 | LOADs and DUMPs of one file are dispatched in submission order, each after all earlier ones completed, never two in flight |
| `SchedulerInvariant.BarrierSafety` | src/scheduler/TaskQueueFetch.cpp:16-70 | dispatched items precede pending barriers; barriers go in order, each after everything dispatched before it finished; never two in flight |
| `SchedulerInvariant.ParkedAwaitsEarlier` | src/scheduler/DependencyManager.cpp:122-200 | every parked item recorded a dependency above the last completed number, on an accepted, not yet completed item that will notify this key, and that item is strictly earlier unless a COPYTABLE copies a table onto itself |
| `SchedulerInvariant.DispatchedOnce` | src/scheduler/TaskQueue.cpp:99-124 | no item is dispatched twice, and running plus completed equals dispatched |
| `TokenSpec.FetchLoopTokens` | src/scheduler/TaskQueue.cpp:225-279 | fetching adds no token to any table, and dispatching a table operation uses one up |
| `TokenSpec.OnCompletedTokens` | src/scheduler/TaskQueue.cpp:99-117 | a completion adds at most one token to the tables it touches and none to others |
| `SingleRegistrationSpec.LoadsArePlain` | src/scheduler/DependencyManager.cpp:15-58 | in a single-registration workload no LOAD is pending on dropped tables or marked dropped |
| `SingleRegistrationFetch.FetchLoopOrderly` | src/scheduler/TaskQueue.cpp:225-279 | a fetch keeps one token per table, sorted queues, order and flags |
| `SingleRegistrationComplete.CompleteOrderly` | src/scheduler/TaskQueue.cpp:99-117 | so does a completion, even with woken items pushed to the front |
| `SingleRegistrationRuns.AlwaysOrderly` | src/scheduler/TaskQueue.cpp:205-276 | the invariant holds in every run of a single-registration workload |
| `SingleRegistrationRuns.TablesOneAtATime` | src/scheduler/TaskQueue.cpp:205-276 | per table at most one token and none while an operation is in flight, sorted queue, one operation in flight, dispatch in submission order after the table was created, dropped flag exactly on the earlier ones |
| `SerialEquivalence.Commute` | src/query/management/CopyTableQuery.cpp:13-33 | queries with disjoint footprints commute |
| `SerialEquivalence.JoinsSerially` | src/scheduler/TaskQueue.cpp:99-117 | executing a task late equals executing it at its place in the submission order |
| `SerialEquivalence.RunsAreSerial` | src/scheduler/TaskQueue.cpp:99-117 | after any run the database is that of running the executed queries one by one in submission order |
| `SerialEquivalence.InFlightApart` | src/runtime/Threadpool.cpp:140-164 | no two tasks in flight share a table, so that executing one is a single step |
| `SerialEquivalence.TablesFollowSerialRun` | src/scheduler/TaskQueue.cpp:99-117 | each table is in the state that running all accepted queries in submission order, past any QUIT, has after the last query of it executed so far |
| `SerialEquivalence.DrainedIsSerial` | src/scheduler/TaskQueue.cpp:99-117 | when everything accepted was executed, the database is that of running all of it in submission order, past any QUIT |
| `SingleThreadedRuns.StopsAtQuit` | src/runtime/QueryExecutor.cpp:164-170 | the single-threaded loop executes just the queries before the first QUIT |
| `SingleThreadedRuns.AgreeUnlessEffective` | src/runtime/QueryExecutor.cpp:164-170 | the single-threaded run and the run in submission order agree at every place if and only if no query after the first QUIT changes the database at its place |
| `SingleThreadedRuns.AgreeForAllEffects` | src/runtime/QueryExecutor.cpp:164-170 | they agree whatever the files hold and the data queries do, if and only if no query after the first QUIT is a LOAD, or a DROP, COPYTABLE or data query of a table that can exist there |
| `SingleThreadedRuns.DrainedIsSingleThreaded` | src/runtime/QueryExecutor.cpp:164-188 | when everything accepted was executed and no query after the first QUIT is effective, the database is that of the single-threaded run |
| `SingleThreadedRuns.TablesFollowSingleThreaded` | src/runtime/QueryExecutor.cpp:164-188 | each table is in a state of the single-threaded run as long as the last query of it executed so far is not behind a QUIT, or no query behind it is effective |
| `SingleThreadedRuns.QuitFindsSingleThreaded` | src/scheduler/TaskQueueFetch.cpp:42-70 | when the first QUIT is dispatched and everything before it was executed, the database is the one in which the single-threaded run ends |
| `QuitRun.QuitIsPassed` | src/runtime/QueryExecutor.cpp:164-188 | a threaded run of LOAD, QUIT, DROP that drops the table, while the single-threaded run ends with it |
| `LockManagerObject.LockManager.LockS` | src/runtime/LockManager.cpp:29-32 | a shared lock is granted exactly when there is no writer |
| `LockManagerObject.LockManager.LockX` | src/runtime/LockManager.cpp:39-42 | an exclusive lock is granted exactly when there is no writer and no reader |
| `LockManagerObject.LockManager.UnlockS` | src/runtime/LockManager.cpp:34-37 | one reader less |
| `LockManagerObject.LockManager.UnlockX` | src/runtime/LockManager.cpp:44-47 | no writer any more |
| `Workers.AlwaysInv` | src/runtime/Threadpool.cpp:88-201 | in every run mutex owners and lock counts agree with what the workers hold, so no unlock underflows |
| `Workers.OneWriterOrReaders` | src/runtime/Threadpool.cpp:140-164 | two workers that execute queries on one table at the same time both read |
| `Workers.LocksInRankOrder` | src/runtime/Threadpool.cpp:88-201 | a worker asks only for locks above those it holds in the order table lock, queue mutex, database mutex, map and local mutex |
| `Workers.NoCircularWait` | src/runtime/Threadpool.cpp:88-201 | no set of workers waits in a circle |
| `Workers.BlockedByAnother` | src/runtime/LockManager.cpp:9-47 | a lock that is not granted is held by another worker |
| `Workers.SomeWorkerMoves` | src/runtime/Threadpool.cpp:88-201 | in every reachable state each worker can take a step or waits, along at most four blocked workers, for one that can |
| `Workers.JobsExecutedOnce` | src/runtime/Threadpool.cpp:88-138 | every fetched job is in one batch, in the local queue, with one worker, or done, and never comes back |
| `TableSpec.SameMapSameRows` | src/db/Table.h:75-81 | tables that stand for the same map hold the same rows |
| `TableSpec.DeleteIndexed` | src/db/Table.cpp:37-53 | swap with last and pop is deletion from the map |
| `TableSpec.RenameIndexed` | src/db/Table.h:101-107 | renaming keeps the index right exactly when the new key is fresh or the row's own |
| `TableObject.Table.WithFields` | src/db/Table.h:216-227 | every field is found under its name, the first of equal names counting |
| `TableObject.Table.Copy` | src/db/Table.h:213-215 | the copy stands for the same map |
| `TableObject.Table.Create` | src/db/Table.h:216-227 | fails exactly when a field is called KEY |
| `TableObject.Table.InsertByIndex` | src/db/Table.cpp:27-35 | adds the key to the map, or fails exactly when it is there |
| `TableObject.Table.DeleteByIndex` | src/db/Table.cpp:37-53 | removes the key from the map and says whether it was there |
| `TableObject.Table.DuplicateByKey` | src/db/Table.cpp:56-71 | copies a row exactly when the source exists and the destination is free |
| `TableObject.Table.Find` | src/db/Table.cpp:73-96 | finds the row of a key exactly when there is one |
| `TableObject.Table.SetKey` | src/db/Table.h:101-107 | renames a row in the map; the table stays valid if and only if the key is fresh or unchanged |
| `TableObject.Table.Clear` | src/db/Table.h:246-251 | empties the map and returns its size |
| `NumberText.ValueOfNatText` | src/db/Table.cpp:108-114 | a printed number reads as itself |
| `ConditionSpec.UnsatisfiableMatchesNothing` | src/query/Query.cpp:27-36 | when initCondition reports unsatisfiable no row whatever meets the conditions |
| `ConditionSpec.KeyedMatchesOnlyKey` | src/query/Query.cpp:27-36 | when it reports a key only a row with that key can match |
| `ConditionSpec.FullRowsDoNotThrow` | src/query/Query.cpp:72-94 | on rows of full width evaluation never throws |
| `ComplexQueryObject.ComplexQuery.InitCondition` | src/query/Query.cpp:19-70 | yields key, flag or error as specified, and prepares every condition |
| `ComplexQueryObject.ComplexQuery.EvalCondition` | src/query/Query.cpp:72-94 | true exactly on rows that meet all conditions; throws exactly when a missing field is reached before a false condition |
| `ComplexQueryObject.ComplexQuery.TestKeyCondition` | src/query/Query.cpp:96-115 | the keyed answer is the one a scan of all rows would give |
| `RowQueries.Delete` | src/query/data/DeleteQuery.cpp:15-51 | exactly the matching rows go, the count is the change in size, errors exactly as specified and without effect |
| `RowQueries.Duplicate` | src/query/data/DuplicateQuery.cpp:15-55 | exactly the copies of matching rows whose copy key was free are added, the count is the change in size |
| `RowQueries.DeleteKeys` | src/query/data/DeleteQuery.cpp:32-36 | the second loop removes the collected keys and counts them |
| `Arithmetic.SumFitsAccumulator` | src/query/data/AddQuery.cpp:51-55 | the true sum of n 32-bit columns lies within n times the 32-bit range |
| `Arithmetic.Accumulate` | src/query/data/AddQuery.cpp:51-55 | below 2^32 operands the 64-bit accumulator holds the true sum throughout |
| `Arithmetic.Compute` | src/query/data/SubQuery.cpp:48-63 | the stored value is the true sum or difference reduced to 32 bits, or the row lacks a field |
| `Arithmetic.Execute` | src/query/data/SubQuery.cpp:18-76 | every matching row is updated and counted, or the scan stops at the first failing row with the rows before it updated; nothing but the destination column of matching rows changes, and each stored result is exact when it fits and right modulo 2^32 otherwise |
| `Arithmetic.AddThenSub` | src/query/data/SubQuery.cpp:45-62 | ADD (a b c) then SUB (c b c) leaves a in c on the matching rows and everything else as it was |
| `Reports.SortedUnique` | src/query/data/SelectQuery.cpp:71 | sorted sequences of the same lines are equal |
| `Reports.MappedPermutes` | src/query/data/SelectQuery.cpp:58-68 | rendering permuted rows gives permuted lines |
| `Reports.StorageOrderUnobservable` | src/query/data/SelectQuery.cpp:44-84 | tables with the same fields and the same map answer every SELECT and SUM alike |
| `Reports.Select` | src/query/data/SelectQuery.cpp:20-100 | the scan, sort and concatenation give the specified answer, errors included |
| `Reports.Sum` | src/query/data/SumQuery.cpp:18-87 | the answer is the vector of true column sums of the matching rows reduced to 32 bits |
| `DumpLoad.WordReadBack` | src/db/Database.cpp:151-159 | a printed word is read back exactly when what follows does not continue it |
| `DumpLoad.NumberReadBack` | src/db/Database.cpp:183-190 | a printed number is read back, and nothing of what follows it is consumed, exactly when no further digit follows |
| `DumpLoad.WordsReadBack` | src/db/Database.cpp:151-159 | the header is read back exactly when all field names are shorter than the column |
| `DumpLoad.RowReadBack` | src/db/Database.cpp:176-190 | a row is read back exactly when its first value is shorter than the column and each later one is or is negative |
| `DumpLoad.RowsReadBack` | src/db/Database.cpp:168-192 | the rows are read back in order exactly when each of them is |
| `DumpLoad.DumpThenLoad` | src/db/Table.cpp:98-116 | loading a dumped table gives back name, fields and rows if and only if no entry runs into the one before |
| `TableStreams.Print` | src/db/Table.cpp:98-116 | the printing loops write the specified text |
| `TableStreams.LoadTableFromStream` | src/db/Database.cpp:119-195 | the parsing loops accept and reject as specified, and build a valid table with the rows read |
| `TableStreams.DumpAndLoad` | src/db/Database.cpp:119-195 | printing and reading yields an equal table with the same index |

## Left out

- Absolute liveness of the scheduler: false of the code, since `fetchNext` drops one of its two candidates; when the LOAD wins, the index entry of the table is gone.
- Result texts in threaded and serial mode: a query before its LOAD gives an error in one and a null result in the other, so table states are compared instead.
- File contents in the serial equivalence: a dropped DUMP leaves its file alone while a serial DUMP of a missing table empties it; what a LOAD reads is a function of the LOAD, which file order and the workload hypothesis justify.
- The effect of UPDATE, INSERT, TRUNCATE, SWAP and of the data queries inside the scheduler proofs: arbitrary functions of the table they work on.
- MIN, MAX, COUNT, SWAP, TRUNCATE, INSERT and UPDATE as queries of their own: the same shapes as the modelled ones, but easier.
- `GlobalIndexSpec.Pop` and `GlobalIndexSpec.Push`: a textbook array heap; the C++ library may choose other swaps among entries that the comparator does not order.
- The wait heaps: given by the sorted sequence in which they yield their items, not as arrays.
- Table lookup by name in `Database`, and registration of a loaded table: callers pass the table, or the set of existing names.
- Wording of error messages: errors are told apart by kind, and an index in a message is not modelled.
- `std::ranges::sort`: a function with the contract of sorting.
- Memory order of atomics, sleeping, stop tokens, promises and futures: steps are atomic and a task's result is not tracked.
- The recursive acquisition of the database mutex: no code path takes it twice, so it is an ordinary mutex here.
- The query builders, the LISTEN file queue, `FallbackAnalyzer`, `QueryResult`, argument parsing and all other input and output.
- 64-bit wrap-around of sequence numbers, ticks, versions and counters: they are natural numbers.
- The exception of `classifyActions` inside a worker: it ends the run, as it ends the process.
- The thread pool as a class: the steps of `work` and `executeTask` interleave with those of other workers, so they are the state machine of `Workers` rather than methods.
- Executing a query under its table lock takes one step in `SchedulerSystem`; `Workers` shows the lock steps around it.
