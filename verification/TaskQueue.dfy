/**
  The task queue as a state machine over values.  Every function is one critical
  section (or a part of one) under the queue's mutex.
*/
module TaskQueueSpec {
  import opened SchedulerTypes
  import G = GlobalIndexSpec
  import D = DependencySpec

  datatype TableQueue = TableQueue(registered: bool, registerSeq: nat, queue: seq<Item>)

  datatype Action = RegisterTable | UpdateDeps

  /** A task handed to a worker; a dropped item runs as a null query. */
  datatype Task = Task(item: Item, actions: seq<Action>, tableQ: Option<string>)

  datatype TaskState = TaskState(
    tables: map<string, TableQueue>,
    index: G.Index,
    loadQueue: seq<LoadItem>,
    loadBlocked: bool,
    dm: D.DepState,
    barriers: seq<Item>,
    waitingTables: seq<string>,
    quitFlag: bool,
    readyToFetch: bool,
    fetchTick: nat,
    submitted: nat,
    running: nat,
    completed: nat,
    fileTableNames: map<string, string>, // the database's file-to-table map, fixed at parse time
    discarded: seq<LoadItem>)                // history: candidates destroyed by fetchNext

  function InitialState(names: map<string, string>): TaskState {
    TaskState(map[], G.Index([], map[]), [], false, D.EMPTY, [], [], false, false, 0, 0, 0, 0, names, [])
  }

  function TableAt(tables: map<string, TableQueue>, t: string): TableQueue {
    if t in tables then tables[t] else TableQueue(false, 0, [])
  }

  function QueueOf(s: TaskState, t: string): seq<Item> {
    TableAt(s.tables, t).queue
  }

  function WithQueue(s: TaskState, t: string, queue: seq<Item>): (r: TaskState)
    ensures r == s.(tables := r.tables)
  {
    s.(tables := s.tables[t := TableAt(s.tables, t).(queue := queue)])
  }

  /** Puts the head of t's queue, if any, into the index. */
  function UpsertHead(s: TaskState, t: string): (r: TaskState)
    ensures r == s.(index := r.index)
  {
    var queue := QueueOf(s, t);
    if queue == [] then s
    else s.(index := G.Upsert(s.index, t, queue[0].priority, s.fetchTick, queue[0].seqno))
  }

  // ----- registering -----

  /** registerTask; `order` is how the hash map yields the dropped tables. */
  function RegisterTask(s: TaskState, q: Query, order: seq<string>): (TaskState, Option<Item>) {
    if s.quitFlag then (s, None)
    else
      var (dm, item) := D.MarkScheduled(s.dm, q, order);
      var s1 := s.(submitted := s.submitted + 1, dm := dm);
      if IsBarrier(q.kind) then (s1.(barriers := s1.barriers + [item]), Some(item))
      else if q.kind == Load then (s1.(loadQueue := s1.loadQueue + [item]), Some(item))
      else (WithQueue(s1, q.tableName, QueueOf(s1, q.tableName) + [item]), Some(item))
  }

  function SetReady(s: TaskState): TaskState {
    s.(readyToFetch := true)
  }

  // ----- fetching -----

  /** First half of getFetched: takes the front LOAD unless a barrier comes first. */
  function TakeLoad(s: TaskState): (r: (TaskState, Option<LoadItem>))
    ensures r.0 == s.(loadQueue := r.0.loadQueue, loadBlocked := r.0.loadBlocked)
    ensures if r.1 == None then r.0.loadQueue == s.loadQueue else s.loadQueue == [r.1.value] + r.0.loadQueue
  {
    if s.loadQueue == [] || s.loadBlocked then (s, None)
    else if s.barriers != [] && s.loadQueue[0].seqno > s.barriers[0].seqno then (s.(loadBlocked := true), None)
    else (s.(loadQueue := s.loadQueue[1..]), Some(s.loadQueue[0]))
  }

  /** Second half of getFetched: picks a table whose head precedes the first barrier. */
  function PickTable(s: TaskState): (r: (TaskState, Option<string>))
    ensures r.0 == s.(index := r.0.index, waitingTables := r.0.waitingTables)
    ensures |r.0.index.heap| <= |s.index.heap|
    ensures r.1.Some? ==> |r.0.index.heap| < |s.index.heap| && QueueOf(s, r.1.value) != []
    decreases |s.index.heap|
  {
    var (ix, t) := G.PickBest(s.index);
    var s1 := s.(index := ix);
    if t == None then (s1, None)
    else if QueueOf(s, t.value) == [] then PickTable(s1)
    else if s.barriers != [] && QueueOf(s, t.value)[0].seqno > s.barriers[0].seqno then
      PickTable(s1.(waitingTables := s1.waitingTables + [t.value]))
    else (s1, Some(t.value))
  }

  /** The key a LOAD still has to wait for, if any. */
  function LoadBlocker(s: TaskState, x: LoadItem): Option<(D.DepType, string)>
  {
    if x.depends.fileDependsOn > D.LastCompletedFor(s.dm, D.File, x.depends.filePath) then
      Some((D.File, x.depends.filePath))
    else if x.depends.tableDependsOn > D.LastCompletedFor(s.dm, D.Table, x.tableId) then Some((D.Table, x.tableId))
    else None
  }

  /** The key a queued table operation still has to wait for, if any. */
  function TableBlocker(s: TaskState, x: Item): Option<(D.DepType, string)> {
    match x.kind
    case Dump =>
      if x.depends.fileDependsOn > D.LastCompletedFor(s.dm, D.File, x.depends.filePath) then
        Some((D.File, x.depends.filePath))
      else if x.depends.tableDependsOn > D.LastCompletedFor(s.dm, D.Table, x.tableId) then Some((D.Table, x.tableId))
      else None
    case Drop =>
      if x.depends.tableDependsOn > D.LastCompletedFor(s.dm, D.Table, x.tableId) then Some((D.Table, x.tableId))
      else None
    case CopyTable =>
      if x.depends.srcTableDependsOn > D.LastCompletedFor(s.dm, D.Table, x.tableId) then Some((D.Table, x.tableId))
      else if x.depends.dstTableDependsOn > D.LastCompletedFor(s.dm, D.Table, x.depends.newTable) then
        Some((D.Table, x.depends.newTable))
      else None
    case _ => None
  }

  function Park(s: TaskState, where: (D.DepType, string), x: Item): (r: TaskState)
    ensures r == s.(dm := r.dm)
    ensures r.dm.lastScheduledFile == s.dm.lastScheduledFile && r.dm.lastScheduledTable == s.dm.lastScheduledTable
            && r.dm.lastCompletedFile == s.dm.lastCompletedFile && r.dm.lastCompletedTable == s.dm.lastCompletedTable
  {
    s.(dm := D.AddWait(s.dm, where.0, where.1, x))
  }

  /** A LOAD of a registered table must not precede the LOAD that registered it. */
  predicate LoadTooLate(s: TaskState, x: Item) {
    x.kind == Load && x.tableId in s.tables && s.tables[x.tableId].registered
    && s.tables[x.tableId].registerSeq > x.seqno
  }

  function ClassifyActions(s: TaskState, x: Item): seq<Action> {
    match x.kind
    case Load =>
      if x.tableId in s.tables && s.tables[x.tableId].registered then [UpdateDeps] else [RegisterTable, UpdateDeps]
    case CopyTable => [RegisterTable, UpdateDeps]
    case Dump => [UpdateDeps]
    case Drop => [UpdateDeps]
    case _ => if x.tableId != "" then [UpdateDeps] else []
  }

  function BuildExecutable(s: TaskState, x: Item): Task {
    Task(x, ClassifyActions(s, x),
         if x.tableId != "" && x.tableId != CONTROL_TABLE && x.tableId in s.tables then Some(x.tableId) else None)
  }

  function Started(s: TaskState): TaskState {
    s.(running := s.running + 1, fetchTick := s.fetchTick + 1)
  }

  function UpsertAll(s: TaskState, ts: seq<string>): (r: TaskState)
    decreases |ts|
    ensures r == s.(index := r.index)
  {
    if ts == [] then s else UpsertAll(UpsertHead(s, ts[0]), ts[1..])
  }

  /** Crash is the exception of classifyActions; it ends the process. */
  datatype Outcome = NoTask | Run(task: Task) | Crash

  function FetchBarrier(s: TaskState): (r: (TaskState, Outcome))
    ensures r.0 == s.(barriers := r.0.barriers, quitFlag := r.0.quitFlag, running := r.0.running,
                      fetchTick := r.0.fetchTick, index := r.0.index, waitingTables := r.0.waitingTables,
                      loadBlocked := r.0.loadBlocked)
    ensures r.1 == NoTask ==> r.0 == s
  {
    if s.barriers == [] || s.running > 0 then (s, NoTask)
    else
      var b := s.barriers[0];
      var s1 := s.(barriers := s.barriers[1..], quitFlag := s.quitFlag || b.kind == Quit);
      var s2 := UpsertAll(Started(s1), s1.waitingTables);
      (s2.(waitingTables := [], loadBlocked := false), Run(BuildExecutable(s1, b)))
  }

  function Discard(s: TaskState, x: Option<LoadItem>): TaskState {
    if x == None then s else s.(discarded := s.discarded + [x.value])
  }

  predicate PreferLoad(load: LoadItem, tableCand: Item) {
    load.priority < tableCand.priority || (load.priority == tableCand.priority && load.seqno < tableCand.seqno)
  }

  datatype Turn = Again(next: TaskState) | Done(next: TaskState, outcome: Outcome)

  function LoadTurn(s: TaskState, x: LoadItem): (r: Turn)
    ensures r.Again? ==> r.next == s.(dm := r.next.dm)
  {
    var blocker := LoadBlocker(s, x);
    if blocker.Some? then Again(Park(s, blocker.value, x))
    else if LoadTooLate(s, x) then Done(Discard(s, Some(x)), Crash)
    else Done(Started(s), Run(BuildExecutable(s, x)))
  }

  /** The table branch of the loop; the LOAD candidate, if any, is destroyed. */
  function TableTurn(s: TaskState, load: Option<LoadItem>, t: string): (r: Turn)
    requires QueueOf(s, t) != []
    ensures r.Again? ==> r.next == s.(dm := r.next.dm, tables := r.next.tables, discarded := r.next.discarded)
  {
    var x := QueueOf(s, t)[0];
    var s1 := Discard(WithQueue(s, t, QueueOf(s, t)[1..]), load);
    var blocker := TableBlocker(s, x);
    if blocker.Some? then Again(Park(s1, blocker.value, x))
    else Done(Started(s1), Run(BuildExecutable(s, x)))
  }

  /** One iteration of the loop in fetchNext. */
  function FetchTurn(s: TaskState): Turn
  {
    var (s1, load) := TakeLoad(s);
    var (s2, t) := PickTable(s1);
    if t == None && load == None then
      var (s3, outcome) := FetchBarrier(s2);
      Done(s3, outcome)
    else if load.Some? && (t == None || PreferLoad(load.value, QueueOf(s2, t.value)[0])) then LoadTurn(s2, load.value)
    else TableTurn(s2, load, t.value)
  }

  /** Every iteration that loops again has used up a LOAD candidate or an index entry. */
  lemma FetchTurnShrinks(s: TaskState)
    ensures FetchTurn(s).Again? ==>
              var s' := FetchTurn(s).next;
              && |s'.loadQueue| + |s'.index.heap| < |s.loadQueue| + |s.index.heap|
  {
    var (s1, load) := TakeLoad(s);
    var (s2, t) := PickTable(s1);
    assert s2.loadQueue == s1.loadQueue;
    if t == None && load == None {
    } else if load.Some? && (t == None || PreferLoad(load.value, QueueOf(s2, t.value)[0])) {
      assert LoadTurn(s2, load.value).Again? ==> LoadTurn(s2, load.value).next.loadQueue == s1.loadQueue;
    } else {
      assert TableTurn(s2, load, t.value).Again? ==> TableTurn(s2, load, t.value).next.loadQueue == s1.loadQueue;
    }
  }

  function FetchLoop(s: TaskState): (r: (TaskState, Outcome))
    decreases |s.loadQueue| + |s.index.heap|
  {
    FetchTurnShrinks(s);
    match FetchTurn(s)
    case Done(s', outcome) => (s', outcome)
    case Again(s') => FetchLoop(s')
  }

  function FetchNext(s: TaskState): (TaskState, Outcome)
  {
    if !s.readyToFetch then (s, NoTask) else FetchLoop(s)
  }

  // ----- completing -----

  function FlagDropped(queue: seq<Item>, seqno: nat): (r: seq<Item>)
    ensures |r| == |queue|
    ensures forall i :: 0 <= i < |r| ==>
      r[i] == if queue[i].seqno < seqno then queue[i].(droppedFlag := true) else queue[i]
  {
    if queue == [] then []
    else [if queue[0].seqno < seqno then queue[0].(droppedFlag := true) else queue[0]] + FlagDropped(queue[1..], seqno)
  }

  function RegisterTableQueue(s: TaskState, t: string, seqno: nat): (r: TaskState)
    ensures r == s.(tables := r.tables, index := r.index)
  {
    var tbl := TableAt(s.tables, t);
    if tbl.registered then s.(tables := s.tables[t := tbl])
    else UpsertHead(s.(tables := s.tables[t := TableQueue(true, seqno, FlagDropped(tbl.queue, seqno))]), t)
  }

  function ApplyRegisterTable(s: TaskState, x: Item): (r: TaskState)
    ensures r == s.(tables := r.tables, index := r.index)
  {
    var s1 := RegisterTableQueue(s, x.tableId, x.seqno);
    if x.kind == CopyTable then RegisterTableQueue(s1, x.depends.newTable, x.seqno) else s1
  }

  /** A woken item goes back to the front of its table's queue. */
  function PushFront(s: TaskState, x: Item): (r: TaskState)
    ensures r == s.(tables := r.tables, index := r.index)
  {
    UpsertHead(WithQueue(s, x.tableId, [x] + QueueOf(s, x.tableId)), x.tableId)
  }

  function FileTableName(s: TaskState, f: string): string {
    if f in s.fileTableNames then s.fileTableNames[f] else ""
  }

  function WakeFromFile(s: TaskState, x: Item): (r: TaskState)
    ensures r == s.(tables := r.tables, index := r.index, loadQueue := r.loadQueue, dm := r.dm)
  {
    if x.kind == Load then
      if x.depends.pendingTable != [] then
        s.(loadQueue := [x.(tableId := FileTableName(s, x.depends.filePath))] + s.loadQueue)
      else if x.depends.tableDependsOn > D.LastCompletedFor(s.dm, D.Table, x.tableId) then
        Park(s, (D.Table, x.tableId), x)
      else s.(loadQueue := [x] + s.loadQueue)
    else PushFront(s, x)
  }

  function WakeFromTable(s: TaskState, x: Item): (r: TaskState)
    ensures r == s.(tables := r.tables, index := r.index, loadQueue := r.loadQueue, dm := r.dm)
  {
    if x.kind == Load then s.(loadQueue := [x] + s.loadQueue)
    else if x.kind == CopyTable && x.depends.srcTableDependsOn > D.LastCompletedFor(s.dm, D.Table, x.tableId) then
      Park(s, (D.Table, x.tableId), x)
    else if x.kind == CopyTable
            && x.depends.dstTableDependsOn > D.LastCompletedFor(s.dm, D.Table, x.depends.newTable) then
      Park(s, (D.Table, x.depends.newTable), x)
    else PushFront(s, x)
  }

  function Wake(s: TaskState, ty: D.DepType, x: Item): (r: TaskState)
    ensures r == s.(tables := r.tables, index := r.index, loadQueue := r.loadQueue, dm := r.dm)
  {
    if ty == D.File then WakeFromFile(s, x) else WakeFromTable(s, x)
  }

  function WakeAll(s: TaskState, ty: D.DepType, xs: seq<Item>): (r: TaskState)
    decreases |xs|
    ensures r == s.(tables := r.tables, index := r.index, loadQueue := r.loadQueue, dm := r.dm)
  {
    if xs == [] then s else WakeAll(Wake(s, ty, xs[0]), ty, xs[1..])
  }

  /** updateDependencyRecords: the notified state and the items that came off the heaps. */
  function UpdateDependencyRecords(s: TaskState, x: Item): (TaskState, seq<Item>, seq<Item>) {
    var (dm1, files) :=
      if x.kind == Load || x.kind == Dump then
        D.NotifyCompleted(s.dm, D.File, x.depends.filePath, x.seqno)
      else (s.dm, []);
    var (dm2, tables) := D.NotifyTables(dm1, NotifiedTables(x), x.seqno);
    var s1 := s.(dm := dm2);
    (if x.kind == Drop && x.tableId in s.tables then
       s1.(tables := s1.tables[x.tableId := s1.tables[x.tableId].(registered := false)])
     else s1, files, tables)
  }

  function ApplyUpdateDeps(s: TaskState, x: Item): TaskState {
    var (s1, files, tables) := UpdateDependencyRecords(s, x);
    WakeAll(WakeAll(s1, D.File, files), D.Table, tables)
  }

  function ApplyActions(s: TaskState, actions: seq<Action>, x: Item): TaskState
    decreases |actions|
  {
    if actions == [] then s
    else
      ApplyActions(if actions[0] == RegisterTable then ApplyRegisterTable(s, x) else ApplyUpdateDeps(s, x),
                   actions[1..], x)
  }

  /** The part of onCompleted that runs under the mutex. */
  function OnCompleted(s: TaskState, task: Task): TaskState {
    var s1 := ApplyActions(s, task.actions, task.item);
    if task.tableQ.Some? then UpsertHead(s1, task.tableQ.value) else s1
  }

  /** The counter updates that follow after the mutex is released. */
  function Retire(s: TaskState): TaskState
    requires s.running > 0
  {
    s.(running := s.running - 1, completed := s.completed + 1)
  }
}
