/**
  Who waits for whom.  Every parked item waits for a completion that has not been
  seen yet, and what it waits for is an earlier item that will announce it.
*/
module WaitingSpec {
  import opened SchedulerTypes
  import opened TaskQueueSpec
  import D = DependencySpec
  import G = GlobalIndexSpec

  type Accepted = map<nat, Item>

  /** x is the accepted item a, up to the flag of a queued item and the table of a pending LOAD. */
  predicate SameItem(a: Item, x: Item) {
    && a.seqno == x.seqno && a.kind == x.kind && a.depends == x.depends && a.priority == x.priority
    && (a.tableId == x.tableId || (x.kind == Load && x.depends.pendingTable != []))
    && (x.kind == Load ==> a.droppedFlag == x.droppedFlag)
  }

  predicate Known(acc: Accepted, x: Item) {
    x.seqno in acc && SameItem(acc[x.seqno], x)
  }

  function FileDep(x: Item): nat {
    if x.kind == Load || x.kind == Dump then x.depends.fileDependsOn else 0
  }

  /** x recorded on table k a dependency above c. */
  ghost predicate WaitsOnTable(x: Item, k: string, c: nat) {
    exists d: nat :: d > c && HasTableDep(x, k, d)
  }

  predicate WaitsOnFile(x: Item, k: string, c: nat) {
    UsesFile(x, k) && FileDep(x) > c
  }

  ghost predicate WaitsOn(x: Item, ty: D.DepType, k: string, c: nat) {
    if ty == D.File then WaitsOnFile(x, k, c) else WaitsOnTable(x, k, c)
  }

  // ----- the dependency records form chains -----

  /** On a common file the later item depends on the earlier one or on something in between. */
  predicate FileChained(a: Item, b: Item) {
    a.seqno < b.seqno && (a.kind == Load || a.kind == Dump) && UsesFile(b, a.depends.filePath) ==> a.seqno <= FileDep(b)
  }

  ghost predicate TableChained(a: Item, b: Item) {
    a.seqno < b.seqno ==>
      forall k, d: nat, e: nat :: d > 0 && HasTableDep(a, k, d) && e > 0 && HasTableDep(b, k, e) ==> d <= a.seqno <= e
  }

  /** COPYTABLE of a table onto itself. */
  predicate IsSelfCopy(x: Item) {
    x.kind == CopyTable && x.depends.newTable == x.tableId
  }

  /**
    A recorded file dependency names an earlier operation on the same file; it is a
    DUMP for a LOAD that took over dropped tables, a LOAD for one marked dropped.
  */
  predicate FileDepNamed(acc: Accepted, x: Item) {
    x.kind == Load || x.kind == Dump ==>
      var d := FileDep(x);
      && (d == 0 || (d in acc && d < x.seqno && UsesFile(acc[d], x.depends.filePath)))
      && (x.kind == Load && x.depends.pendingTable != [] ==> d in acc && acc[d].kind == Dump)
      && (x.kind == Load && x.droppedFlag ==> d in acc && acc[d].kind == Load)
  }

  /** A recorded table dependency names an item that notifies the table, earlier unless x copies onto itself. */
  ghost predicate TableDepNamed(acc: Accepted, x: Item) {
    forall k, d: nat :: d > 0 && HasTableDep(x, k, d) ==>
      && d in acc && k in NotifiedTables(acc[d])
      && (d < x.seqno || (d == x.seqno && IsSelfCopy(x)))
  }

  /** A LOAD that took over dropped tables waits for its file only. */
  predicate PendingWaitsForFile(x: Item) {
    x.kind == Load && x.depends.pendingTable != [] ==> x.depends.tableDependsOn == 0
  }

  ghost predicate Numbered(acc: Accepted) {
    forall n :: n in acc ==> acc[n].seqno == n >= 1
  }

  ghost predicate FilesChained(acc: Accepted) {
    && (forall n {:trigger FileDepNamed(acc, acc[n])} :: n in acc ==> FileDepNamed(acc, acc[n]))
    && (forall m, n {:trigger FileChained(acc[m], acc[n])} :: m in acc && n in acc ==> FileChained(acc[m], acc[n]))
  }

  ghost predicate TablesChained(acc: Accepted) {
    && (forall n {:trigger TableDepNamed(acc, acc[n])} :: n in acc ==> TableDepNamed(acc, acc[n]))
    && (forall n {:trigger PendingWaitsForFile(acc[n])} :: n in acc ==> PendingWaitsForFile(acc[n]))
    && (forall m, n {:trigger TableChained(acc[m], acc[n])} :: m in acc && n in acc ==> TableChained(acc[m], acc[n]))
  }

  ghost predicate Chained(acc: Accepted) {
    Numbered(acc) && FilesChained(acc) && TablesChained(acc)
  }

  predicate MarkOfFile(acc: Accepted, mark: D.Mark, f: string) {
    mark == D.NO_MARK || (mark.seqno in acc && UsesFile(acc[mark.seqno], f) && acc[mark.seqno].kind == mark.tag)
  }

  /** The last-scheduled marks are up to date with what has been accepted. */
  ghost predicate MarksCurrent(acc: Accepted, dm: D.DepState) {
    && (forall n, f :: n in acc && UsesFile(acc[n], f) ==> n <= D.LastMark(dm.lastScheduledFile, f).seqno)
    && (forall f :: var mark := D.LastMark(dm.lastScheduledFile, f); MarkOfFile(acc, mark, f))
    && (forall n, k, d: nat :: n in acc && d > 0 && HasTableDep(acc[n], k, d) ==>
          n <= D.LastMark(dm.lastScheduledTable, k).seqno)
    && (forall k :: var d := D.LastMark(dm.lastScheduledTable, k).seqno;
          d == 0 || (d in acc && k in NotifiedTables(acc[d])))
  }

  // ----- where items may be -----

  ghost predicate QueueOk(acc: Accepted, t: string, queue: seq<Item>) {
    forall x :: x in queue ==> Known(acc, x) && IsTableKind(x.kind) && x.tableId == t
  }

  ghost predicate LoadsOk(acc: Accepted, loads: seq<LoadItem>) {
    forall x :: x in loads ==> Known(acc, x)
  }

  ghost predicate BarriersOk(acc: Accepted, barriers: seq<Item>) {
    && (forall x :: x in barriers ==> Known(acc, x) && IsBarrier(x.kind))
    && (forall i, j :: 0 <= i < j < |barriers| ==> barriers[i].seqno < barriers[j].seqno)
  }

  ghost predicate Sorted(heap: seq<Item>) {
    forall i, j :: 0 <= i < j < |heap| ==> heap[i].seqno <= heap[j].seqno
  }

  /** A heap of parked items: ordered, and nothing in it could already go on. */
  ghost predicate HeapOk(acc: Accepted, ty: D.DepType, k: string, c: nat, heap: seq<Item>) {
    && Sorted(heap)
    && forall x :: x in heap ==> Known(acc, x) && WaitsOn(x, ty, k, c)
  }

  ghost predicate HeapsOfType(acc: Accepted, dm: D.DepState, ty: D.DepType) {
    forall k :: k in D.Waiting(dm, ty) ==> HeapOk(acc, ty, k, D.LastCompletedFor(dm, ty, k), D.Waiting(dm, ty)[k])
  }

  ghost predicate HeapsOk(acc: Accepted, dm: D.DepState) {
    HeapsOfType(acc, dm, D.File) && HeapsOfType(acc, dm, D.Table)
  }

  ghost predicate TablesOk(acc: Accepted, tables: map<string, TableQueue>) {
    forall t :: t in tables ==> QueueOk(acc, t, tables[t].queue)
  }

  ghost predicate WellPlaced(acc: Accepted, s: TaskState) {
    && TablesOk(acc, s.tables)
    && LoadsOk(acc, s.loadQueue) && LoadsOk(acc, s.discarded)
    && BarriersOk(acc, s.barriers)
    && HeapsOk(acc, s.dm)
  }

  // ----- the dependency manager -----

  lemma {:induction false} InsertSorted(heap: seq<Item>, x: Item)
    requires Sorted(heap)
    ensures Sorted(D.InsertBySeq(heap, x))
    ensures forall y :: y in D.InsertBySeq(heap, x) <==> y == x || y in heap
  {
    if heap == [] || x.seqno < heap[0].seqno {
    } else {
      InsertSorted(heap[1..], x);
      var rest := D.InsertBySeq(heap[1..], x);
      assert heap == [heap[0]] + heap[1..];
      forall y | y in rest ensures heap[0].seqno <= y.seqno {
      }
      assert forall i :: 0 <= i < |rest| ==> rest[i] in rest;
    }
  }

  lemma ParkKeepsHeapsOfType(acc: Accepted, dm: D.DepState, ty: D.DepType, k: string, x: Item, of: D.DepType)
    requires HeapsOk(acc, dm) && Known(acc, x) && WaitsOn(x, ty, k, D.LastCompletedFor(dm, ty, k))
    ensures HeapsOfType(acc, D.AddWait(dm, ty, k, x), of)
  {
    var dm' := D.AddWait(dm, ty, k, x);
    forall j | j in D.Waiting(dm', of)
      ensures HeapOk(acc, of, j, D.LastCompletedFor(dm', of, j), D.Waiting(dm', of)[j])
    {
      if of == ty && j == k {
        var heap := D.HeapAt(D.Waiting(dm, of), k);
        assert HeapOk(acc, of, j, D.LastCompletedFor(dm, of, j), heap);
        InsertSorted(heap, x);
      } else {
        assert HeapOk(acc, of, j, D.LastCompletedFor(dm, of, j), D.Waiting(dm, of)[j]);
      }
    }
  }

  lemma ParkKeepsHeaps(acc: Accepted, dm: D.DepState, ty: D.DepType, k: string, x: Item)
    requires HeapsOk(acc, dm) && Known(acc, x) && WaitsOn(x, ty, k, D.LastCompletedFor(dm, ty, k))
    ensures HeapsOk(acc, D.AddWait(dm, ty, k, x))
  {
    ParkKeepsHeapsOfType(acc, dm, ty, k, x, D.File);
    ParkKeepsHeapsOfType(acc, dm, ty, k, x, D.Table);
  }

  /** The break test looks at this key only: what is still blocked waits on it. */
  lemma StillBlockedWaits(acc: Accepted, ty: D.DepType, k: string, c: nat, seqno: nat, x: Item)
    requires WaitsOn(x, ty, k, c) && D.StillBlocked(ty, seqno, x)
    ensures WaitsOn(x, ty, k, seqno)
  {
    if ty == D.Table {
      match x.kind
      case Load => assert HasTableDep(x, k, x.depends.tableDependsOn);
      case Drop => assert HasTableDep(x, k, x.depends.tableDependsOn);
      case CopyTable =>
        var d: nat :| d > c && HasTableDep(x, k, d);
        if x.tableId == k {
          assert HasTableDep(x, k, x.depends.srcTableDependsOn);
        } else {
          assert HasTableDep(x, k, x.depends.dstTableDependsOn);
        }
      case _ =>
    }
  }

  /** Per key, what a later item waits for is not below what an earlier one waits for. */
  lemma LaterWaitsToo(acc: Accepted, ty: D.DepType, k: string, c: nat, x: Item, y: Item, seqno: nat)
    requires Chained(acc) && Known(acc, x) && Known(acc, y) && x.seqno <= y.seqno
    requires WaitsOn(x, ty, k, seqno) && WaitsOn(y, ty, k, c)
    ensures WaitsOn(y, ty, k, seqno)
  {
    var a, b := acc[x.seqno], acc[y.seqno];
    if ty == D.File {
      if x.seqno < y.seqno {
        assert FileChained(a, b);
      assert FileDepNamed(acc, a);
      }
    } else {
      var d: nat :| d > seqno && HasTableDep(x, k, d);
      var e: nat :| e > c && HasTableDep(y, k, e);
      assert TableDepNamed(acc, a) && TableDepNamed(acc, b);
      assert PendingWaitsForFile(a) && PendingWaitsForFile(b);
      if x.seqno < y.seqno {
        assert TableChained(a, b);
        assert HasTableDep(a, k, d) && HasTableDep(b, k, e);
      } else {
        assert HasTableDep(y, k, d);
      }
    }
  }

  lemma {:induction false} ReadyCountStops(ty: D.DepType, seqno: nat, heap: seq<Item>)
    ensures var n := D.ReadyCount(ty, seqno, heap);
            n < |heap| ==> D.StillBlocked(ty, seqno, heap[n])
  {
    if heap != [] && !D.StillBlocked(ty, seqno, heap[0]) {
      ReadyCountStops(ty, seqno, heap[1..]);
    }
  }

  /**
    Breaking off at the first blocked item strands nobody: everything behind it
    waits for something that is still to come.
  */
  lemma RestStillWaits(acc: Accepted, ty: D.DepType, k: string, c: nat, seqno: nat, heap: seq<Item>)
    requires Chained(acc) && HeapOk(acc, ty, k, c, heap)
    ensures HeapOk(acc, ty, k, seqno, heap[D.ReadyCount(ty, seqno, heap)..])
  {
    var n := D.ReadyCount(ty, seqno, heap);
    var rest := heap[n..];
    if rest != [] {
      ReadyCountStops(ty, seqno, heap);
      assert heap[n] in heap;
      StillBlockedWaits(acc, ty, k, c, seqno, heap[n]);
      forall y | y in rest ensures WaitsOn(y, ty, k, seqno) {
        LaterWaitsToo(acc, ty, k, c, heap[n], y, seqno);
      }
    }
  }

  ghost predicate ReadyOk(acc: Accepted, xs: seq<Item>) {
    forall x :: x in xs ==> Known(acc, x) && !IsBarrier(x.kind)
  }

  lemma NotifyKeepsHeapsOfType(acc: Accepted, dm: D.DepState, ty: D.DepType, k: string, seqno: nat, of: D.DepType)
    requires Chained(acc) && HeapsOk(acc, dm)
    ensures HeapsOfType(acc, D.NotifyCompleted(dm, ty, k, seqno).0, of)
  {
    var dm' := D.NotifyCompleted(dm, ty, k, seqno).0;
    forall j | j in D.Waiting(dm', of)
      ensures HeapOk(acc, of, j, D.LastCompletedFor(dm', of, j), D.Waiting(dm', of)[j])
    {
      NotifyShape(dm, ty, k, seqno, of, j);
      var c := D.LastCompletedFor(dm, of, j);
      assert HeapOk(acc, of, j, c, D.Waiting(dm, of)[j]);
      if of == ty && j == k && seqno >= c {
        RestStillWaits(acc, ty, k, c, seqno, D.Waiting(dm, ty)[k]);
      }
    }
  }

  /** A notification changes the heap and the record of its own key only. */
  lemma NotifyShape(dm: D.DepState, ty: D.DepType, k: string, seqno: nat, of: D.DepType, j: string)
    requires j in D.Waiting(D.NotifyCompleted(dm, ty, k, seqno).0, of)
    ensures var dm' := D.NotifyCompleted(dm, ty, k, seqno).0;
            && j in D.Waiting(dm, of)
            && (if of == ty && j == k && seqno >= D.LastCompletedFor(dm, ty, k) then
                  var heap := D.Waiting(dm, ty)[k];
                  && D.LastCompletedFor(dm', of, j) == seqno
                  && D.Waiting(dm', of)[j] == heap[D.ReadyCount(ty, seqno, heap)..]
                else
                  && D.LastCompletedFor(dm', of, j) == D.LastCompletedFor(dm, of, j)
                  && D.Waiting(dm', of)[j] == D.Waiting(dm, of)[j])
  {
  }

  lemma NotifyKeepsHeaps(acc: Accepted, dm: D.DepState, ty: D.DepType, k: string, seqno: nat)
    requires Chained(acc) && HeapsOk(acc, dm)
    ensures var (dm', ready) := D.NotifyCompleted(dm, ty, k, seqno); HeapsOk(acc, dm') && ReadyOk(acc, ready)
  {
    NotifyKeepsHeapsOfType(acc, dm, ty, k, seqno, D.File);
    NotifyKeepsHeapsOfType(acc, dm, ty, k, seqno, D.Table);
    var m := D.Waiting(dm, ty);
    if k in m {
      var heap := m[k];
      assert HeapOk(acc, ty, k, D.LastCompletedFor(dm, ty, k), heap);
      forall x | x in heap ensures Known(acc, x) && !IsBarrier(x.kind) {
        if ty == D.Table {
          var d: nat :| HasTableDep(x, k, d);
        }
      }
    }
  }

  lemma {:induction false} NotifyTablesKeepsHeaps(acc: Accepted, dm: D.DepState, keys: seq<string>, seqno: nat)
    requires Chained(acc) && HeapsOk(acc, dm)
    ensures var (dm', ready) := D.NotifyTables(dm, keys, seqno); HeapsOk(acc, dm') && ReadyOk(acc, ready)
    decreases |keys|
  {
    if keys != [] {
      NotifyKeepsHeaps(acc, dm, D.Table, keys[0], seqno);
      NotifyTablesKeepsHeaps(acc, D.NotifyCompleted(dm, D.Table, keys[0], seqno).0, keys[1..], seqno);
    }
  }

  // ----- completion -----

  lemma WithQueuePlaced(acc: Accepted, s: TaskState, t: string, queue: seq<Item>)
    requires WellPlaced(acc, s) && QueueOk(acc, t, queue)
    ensures WellPlaced(acc, WithQueue(s, t, queue))
  {
  }

  lemma QueueOfOk(acc: Accepted, s: TaskState, t: string)
    requires WellPlaced(acc, s)
    ensures QueueOk(acc, t, QueueOf(s, t))
  {
  }

  lemma ParkPlaced(acc: Accepted, s: TaskState, where: (D.DepType, string), x: Item)
    requires WellPlaced(acc, s) && Known(acc, x)
    requires WaitsOn(x, where.0, where.1, D.LastCompletedFor(s.dm, where.0, where.1))
    ensures WellPlaced(acc, Park(s, where, x))
  {
    ParkKeepsHeaps(acc, s.dm, where.0, where.1, x);
  }

  lemma RegisterTableQueuePlaced(acc: Accepted, s: TaskState, t: string, seqno: nat)
    requires WellPlaced(acc, s)
    ensures WellPlaced(acc, RegisterTableQueue(s, t, seqno))
  {
    QueueOfOk(acc, s, t);
    FlaggedOk(acc, t, QueueOf(s, t), seqno);
  }

  lemma FlaggedOk(acc: Accepted, t: string, queue: seq<Item>, seqno: nat)
    requires QueueOk(acc, t, queue)
    ensures QueueOk(acc, t, FlagDropped(queue, seqno))
  {
    var flagged := FlagDropped(queue, seqno);
    forall x | x in flagged ensures Known(acc, x) && IsTableKind(x.kind) && x.tableId == t {
      var i :| 0 <= i < |flagged| && flagged[i] == x;
      assert queue[i] in queue;
    }
  }

  lemma PushFrontPlaced(acc: Accepted, s: TaskState, x: Item)
    requires WellPlaced(acc, s) && Known(acc, x) && IsTableKind(x.kind)
    ensures WellPlaced(acc, PushFront(s, x))
  {
    QueueOfOk(acc, s, x.tableId);
    WithQueuePlaced(acc, s, x.tableId, [x] + QueueOf(s, x.tableId));
  }

  lemma WakePlaced(acc: Accepted, s: TaskState, ty: D.DepType, x: Item)
    requires WellPlaced(acc, s) && Known(acc, x) && !IsBarrier(x.kind)
    ensures WellPlaced(acc, Wake(s, ty, x))
  {
    if ty == D.File {
      WakeFromFilePlaced(acc, s, x);
    } else {
      WakeFromTablePlaced(acc, s, x);
    }
  }

  lemma WakeFromFilePlaced(acc: Accepted, s: TaskState, x: Item)
    requires WellPlaced(acc, s) && Known(acc, x) && !IsBarrier(x.kind)
    ensures WellPlaced(acc, WakeFromFile(s, x))
  {
    if x.kind != Load {
      PushFrontPlaced(acc, s, x);
    } else if x.depends.pendingTable == []
              && x.depends.tableDependsOn > D.LastCompletedFor(s.dm, D.Table, x.tableId) {
      assert HasTableDep(x, x.tableId, x.depends.tableDependsOn);
      ParkPlaced(acc, s, (D.Table, x.tableId), x);
    }
  }

  lemma WakeFromTablePlaced(acc: Accepted, s: TaskState, x: Item)
    requires WellPlaced(acc, s) && Known(acc, x) && !IsBarrier(x.kind)
    ensures WellPlaced(acc, WakeFromTable(s, x))
  {
    if x.kind == CopyTable && x.depends.srcTableDependsOn > D.LastCompletedFor(s.dm, D.Table, x.tableId) {
      assert HasTableDep(x, x.tableId, x.depends.srcTableDependsOn);
      ParkPlaced(acc, s, (D.Table, x.tableId), x);
    } else if x.kind == CopyTable
              && x.depends.dstTableDependsOn > D.LastCompletedFor(s.dm, D.Table, x.depends.newTable) {
      assert HasTableDep(x, x.depends.newTable, x.depends.dstTableDependsOn);
      ParkPlaced(acc, s, (D.Table, x.depends.newTable), x);
    } else if x.kind != Load {
      PushFrontPlaced(acc, s, x);
    }
  }

  lemma {:induction false} WakeAllPlaced(acc: Accepted, s: TaskState, ty: D.DepType, xs: seq<Item>)
    requires WellPlaced(acc, s) && ReadyOk(acc, xs)
    ensures WellPlaced(acc, WakeAll(s, ty, xs))
    decreases |xs|
  {
    if xs != [] {
      assert xs[0] in xs;
      WakePlaced(acc, s, ty, xs[0]);
      WakeAllPlaced(acc, Wake(s, ty, xs[0]), ty, xs[1..]);
    }
  }

  lemma UpdateRecordsPlaced(acc: Accepted, s: TaskState, x: Item)
    requires Chained(acc) && WellPlaced(acc, s)
    ensures var (s1, files, tables) := UpdateDependencyRecords(s, x);
            WellPlaced(acc, s1) && ReadyOk(acc, files) && ReadyOk(acc, tables)
  {
    var (dm1, files) :=
      if x.kind == Load || x.kind == Dump then
        D.NotifyCompleted(s.dm, D.File, x.depends.filePath, x.seqno)
      else (s.dm, []);
    if x.kind == Load || x.kind == Dump {
      NotifyKeepsHeaps(acc, s.dm, D.File, x.depends.filePath, x.seqno);
    }
    NotifyTablesKeepsHeaps(acc, dm1, NotifiedTables(x), x.seqno);
  }

  lemma UpdateDepsPlaced(acc: Accepted, s: TaskState, x: Item)
    requires Chained(acc) && WellPlaced(acc, s)
    ensures WellPlaced(acc, ApplyUpdateDeps(s, x))
  {
    UpdateRecordsPlaced(acc, s, x);
    var (s1, files, tables) := UpdateDependencyRecords(s, x);
    WakeAllPlaced(acc, s1, D.File, files);
    WakeAllPlaced(acc, WakeAll(s1, D.File, files), D.Table, tables);
  }

  lemma RegisterActionPlaced(acc: Accepted, s: TaskState, x: Item)
    requires WellPlaced(acc, s)
    ensures WellPlaced(acc, ApplyRegisterTable(s, x))
  {
    RegisterTableQueuePlaced(acc, s, x.tableId, x.seqno);
    if x.kind == CopyTable {
      RegisterTableQueuePlaced(acc, RegisterTableQueue(s, x.tableId, x.seqno), x.depends.newTable, x.seqno);
    }
  }

  lemma {:induction false} ApplyActionsPlaced(acc: Accepted, s: TaskState, actions: seq<Action>, x: Item)
    requires Chained(acc) && WellPlaced(acc, s)
    ensures WellPlaced(acc, ApplyActions(s, actions, x))
    decreases |actions|
  {
    if actions != [] {
      var s1 := if actions[0] == RegisterTable then ApplyRegisterTable(s, x) else ApplyUpdateDeps(s, x);
      if actions[0] == RegisterTable {
        RegisterActionPlaced(acc, s, x);
      } else {
        UpdateDepsPlaced(acc, s, x);
      }
      ApplyActionsPlaced(acc, s1, actions[1..], x);
    }
  }

  lemma OnCompletedPlaced(acc: Accepted, s: TaskState, task: Task)
    requires Chained(acc) && WellPlaced(acc, s)
    ensures WellPlaced(acc, OnCompleted(s, task))
  {
    ApplyActionsPlaced(acc, s, task.actions, task.item);
  }

  // ----- fetching -----

  /** Nothing x has to wait for is outstanding. */
  predicate DepsMet(dm: D.DepState, x: Item) {
    match x.depends
    case NoDeps => true
    case LoadDeps(fd, td, f, _) =>
      fd <= D.LastCompletedFor(dm, D.File, f) && td <= D.LastCompletedFor(dm, D.Table, x.tableId)
    case DumpDeps(fd, f, td) =>
      fd <= D.LastCompletedFor(dm, D.File, f) && td <= D.LastCompletedFor(dm, D.Table, x.tableId)
    case DropDeps(td) => td <= D.LastCompletedFor(dm, D.Table, x.tableId)
    case CopyTableDeps(sd, dd, newTable) =>
      sd <= D.LastCompletedFor(dm, D.Table, x.tableId) && dd <= D.LastCompletedFor(dm, D.Table, newTable)
  }

  /** Fetching changes neither the completion records nor the scheduling marks. */
  predicate SameRecords(dm: D.DepState, dm': D.DepState) {
    && dm'.lastCompletedFile == dm.lastCompletedFile && dm'.lastCompletedTable == dm.lastCompletedTable
    && dm'.lastScheduledFile == dm.lastScheduledFile && dm'.lastScheduledTable == dm.lastScheduledTable
  }

  /** The completion actions fit the item, and the captured queue is the item's own. */
  predicate TaskOk(task: Task) {
    && (match task.item.kind
        case Load => task.actions == [RegisterTable, UpdateDeps] || task.actions == [UpdateDeps]
        case CopyTable => task.actions == [RegisterTable, UpdateDeps]
        case Dump => task.actions == [UpdateDeps]
        case Drop => task.actions == [UpdateDeps]
        case _ => task.actions == if task.item.tableId != "" then [UpdateDeps] else [])
    && (task.tableQ.Some? ==> task.tableQ.value == task.item.tableId != CONTROL_TABLE)
  }

  lemma ActionsUnfold(s: TaskState, task: Task)
    requires TaskOk(task) && task.actions != []
    ensures var s1 := if |task.actions| == 2 then ApplyRegisterTable(s, task.item) else s;
            ApplyActions(s, task.actions, task.item) == ApplyUpdateDeps(s1, task.item)
  {
    var x := task.item;
    var s1 := if |task.actions| == 2 then ApplyRegisterTable(s, x) else s;
    var s2 := ApplyUpdateDeps(s1, x);
    assert [UpdateDeps][1..] == [] && [RegisterTable, UpdateDeps][1..] == [UpdateDeps];
    assert ApplyActions(s2, [], x) == s2;
    assert ApplyActions(s1, [UpdateDeps], x) == s2;
  }

  /**
    How a task leaves the queue: its dependencies are met and it precedes every
    barrier that is left; a barrier leaves only when nothing is running.
  */
  ghost predicate DispatchOk(acc: Accepted, s: TaskState, s': TaskState, task: Task) {
    var x := task.item;
    && TaskOk(task)
    && Known(acc, x)
    && DepsMet(s.dm, x)
    && (forall b :: b in s'.barriers ==> x.seqno < b.seqno)
    && s'.running == s.running + 1
    && (if IsBarrier(x.kind) then s.running == 0 && s.barriers == [x] + s'.barriers else s'.barriers == s.barriers)
  }

  ghost predicate FetchOk(acc: Accepted, s: TaskState, s': TaskState, outcome: Outcome) {
    && WellPlaced(acc, s') && SameRecords(s.dm, s'.dm)
    && (if outcome.Run? then DispatchOk(acc, s, s', outcome.task)
        else s'.barriers == s.barriers && s'.running == s.running)
  }

  lemma LoadBlockerWaits(s: TaskState, x: LoadItem)
    ensures LoadBlocker(s, x).Some? ==>
              var (ty, k) := LoadBlocker(s, x).value; WaitsOn(x, ty, k, D.LastCompletedFor(s.dm, ty, k))
    ensures LoadBlocker(s, x).None? ==> DepsMet(s.dm, x)
  {
    assert HasTableDep(x, x.tableId, x.depends.tableDependsOn);
  }

  lemma TableBlockerWaits(s: TaskState, x: Item)
    requires x.kind != Load
    ensures TableBlocker(s, x).Some? ==>
              var (ty, k) := TableBlocker(s, x).value; WaitsOn(x, ty, k, D.LastCompletedFor(s.dm, ty, k))
    ensures TableBlocker(s, x).None? ==> DepsMet(s.dm, x)
  {
    match x.kind
    case Dump => assert HasTableDep(x, x.tableId, x.depends.tableDependsOn);
    case Drop => assert HasTableDep(x, x.tableId, x.depends.tableDependsOn);
    case CopyTable =>
      assert HasTableDep(x, x.tableId, x.depends.srcTableDependsOn);
      assert HasTableDep(x, x.depends.newTable, x.depends.dstTableDependsOn);
    case _ =>
  }

  /** An item that is not behind the first barrier precedes them all. */
  lemma PrecedesBarriers(acc: Accepted, barriers: seq<Item>, x: Item)
    requires BarriersOk(acc, barriers) && Known(acc, x) && !IsBarrier(x.kind)
    requires barriers != [] ==> x.seqno <= barriers[0].seqno
    ensures forall b :: b in barriers ==> x.seqno < b.seqno
  {
    forall i | 0 <= i < |barriers| ensures x.seqno < barriers[i].seqno {
      assert barriers[0] in barriers && barriers[0].seqno != x.seqno;
    }
  }

  lemma {:induction false} PickTablePrecedes(s: TaskState)
    ensures var (s', t) := PickTable(s);
            t.Some? && s.barriers != [] ==> QueueOf(s, t.value)[0].seqno <= s.barriers[0].seqno
    decreases |s.index.heap|
  {
    var (ix, t) := G.PickBest(s.index);
    var s1 := s.(index := ix);
    if t == None {
    } else if QueueOf(s, t.value) == [] {
      PickTablePrecedes(s1);
    } else if s.barriers != [] && QueueOf(s, t.value)[0].seqno > s.barriers[0].seqno {
      PickTablePrecedes(s1.(waitingTables := s1.waitingTables + [t.value]));
    }
  }

  lemma TailOfBarriers(acc: Accepted, barriers: seq<Item>)
    requires BarriersOk(acc, barriers) && barriers != []
    ensures BarriersOk(acc, barriers[1..])
    ensures Known(acc, barriers[0]) && IsBarrier(barriers[0].kind)
    ensures forall b :: b in barriers[1..] ==> barriers[0].seqno < b.seqno
  {
    assert barriers[0] in barriers;
    forall c | c in barriers[1..] ensures barriers[0].seqno < c.seqno && c in barriers {
      var i :| 0 <= i < |barriers[1..]| && barriers[1..][i] == c;
      assert barriers[i + 1] == c;
    }
  }

  lemma FetchBarrierOk(acc: Accepted, s: TaskState)
    requires WellPlaced(acc, s)
    ensures FetchOk(acc, s, FetchBarrier(s).0, FetchBarrier(s).1)
  {
    if s.barriers != [] && s.running == 0 {
      var b := s.barriers[0];
      TailOfBarriers(acc, s.barriers);
      var s1 := s.(barriers := s.barriers[1..], quitFlag := s.quitFlag || b.kind == Quit);
      var (s', outcome) := FetchBarrier(s);
      assert outcome == Run(BuildExecutable(s1, b)) && outcome.task.item == b;
      assert s'.tables == s.tables && s'.loadQueue == s.loadQueue && s'.dm == s.dm && s'.barriers == s.barriers[1..];
      assert s.barriers == [b] + s'.barriers;
      assert DispatchOk(acc, s, s', outcome.task);
    }
  }

  ghost predicate TurnOk(acc: Accepted, s: TaskState, turn: Turn) {
    FetchOk(acc, s, turn.next, if turn.Done? then turn.outcome else NoTask)
  }

  lemma LoadTurnOk(acc: Accepted, s: TaskState, x: LoadItem)
    requires WellPlaced(acc, s) && Known(acc, x)
    requires s.barriers != [] ==> x.seqno <= s.barriers[0].seqno
    ensures TurnOk(acc, s, LoadTurn(s, x))
  {
    LoadBlockerWaits(s, x);
    PrecedesBarriers(acc, s.barriers, x);
    if LoadBlocker(s, x).Some? {
      ParkPlaced(acc, s, LoadBlocker(s, x).value, x);
    }
  }

  lemma TableTurnOk(acc: Accepted, s: TaskState, load: Option<LoadItem>, t: string)
    requires WellPlaced(acc, s) && QueueOf(s, t) != [] && (load.Some? ==> Known(acc, load.value))
    requires s.barriers != [] ==> QueueOf(s, t)[0].seqno <= s.barriers[0].seqno
    ensures TurnOk(acc, s, TableTurn(s, load, t))
  {
    var queue := QueueOf(s, t);
    var x := queue[0];
    QueueOfOk(acc, s, t);
    assert x in queue;
    TableBlockerWaits(s, x);
    PrecedesBarriers(acc, s.barriers, x);
    WithQueuePlaced(acc, s, t, queue[1..]);
    DiscardPlaced(acc, WithQueue(s, t, queue[1..]), load);
    TableTurnFrom(acc, s, Discard(WithQueue(s, t, queue[1..]), load), x);
  }

  lemma DiscardPlaced(acc: Accepted, s: TaskState, load: Option<LoadItem>)
    requires WellPlaced(acc, s) && (load.Some? ==> Known(acc, load.value))
    ensures WellPlaced(acc, Discard(s, load))
  {
  }

  lemma TableTurnFrom(acc: Accepted, s: TaskState, s1: TaskState, x: Item)
    requires WellPlaced(acc, s1) && s1.dm == s.dm && s1.barriers == s.barriers && s1.running == s.running
    requires Known(acc, x) && IsTableKind(x.kind)
    requires TableBlocker(s, x).Some? ==>
              var (ty, k) := TableBlocker(s, x).value; WaitsOn(x, ty, k, D.LastCompletedFor(s.dm, ty, k))
    requires TableBlocker(s, x).None? ==> DepsMet(s.dm, x)
    requires forall b :: b in s.barriers ==> x.seqno < b.seqno
    ensures TableBlocker(s, x).Some? ==> FetchOk(acc, s, Park(s1, TableBlocker(s, x).value, x), NoTask)
    ensures TableBlocker(s, x).None? ==>
              WellPlaced(acc, Started(s1)) && DispatchOk(acc, s, Started(s1), BuildExecutable(s, x))
  {
    if TableBlocker(s, x).Some? {
      ParkPlaced(acc, s1, TableBlocker(s, x).value, x);
    }
  }

  lemma TakeLoadPlaced(acc: Accepted, s: TaskState)
    requires WellPlaced(acc, s)
    ensures var (s1, load) := TakeLoad(s);
            && WellPlaced(acc, s1)
            && (load.Some? ==>
                  Known(acc, load.value) && (s1.barriers != [] ==> load.value.seqno <= s1.barriers[0].seqno))
  {
    var (s1, load) := TakeLoad(s);
    assert forall x :: x in s1.loadQueue ==> x in s.loadQueue;
    if load.Some? {
      assert load.value in s.loadQueue;
    }
  }

  lemma PickTablePlaced(acc: Accepted, s: TaskState)
    requires WellPlaced(acc, s)
    ensures WellPlaced(acc, PickTable(s).0)
  {
  }

  lemma FetchTurnOk(acc: Accepted, s: TaskState)
    requires WellPlaced(acc, s)
    ensures TurnOk(acc, s, FetchTurn(s))
  {
    var (s1, load) := TakeLoad(s);
    TakeLoadPlaced(acc, s);
    PickTablePlaced(acc, s1);
    PickTablePrecedes(s1);
    var (s2, t) := PickTable(s1);
    if t == None && load == None {
      FetchBarrierOk(acc, s2);
    } else if load.Some? && (t == None || PreferLoad(load.value, QueueOf(s2, t.value)[0])) {
      LoadTurnOk(acc, s2, load.value);
    } else {
      TableTurnOk(acc, s2, load, t.value);
    }
  }

  lemma {:induction false} FetchLoopOk(acc: Accepted, s: TaskState)
    requires WellPlaced(acc, s)
    ensures FetchOk(acc, s, FetchLoop(s).0, FetchLoop(s).1)
    decreases |s.loadQueue| + |s.index.heap|
  {
    FetchTurnOk(acc, s);
    FetchTurnShrinks(s);
    if FetchTurn(s).Again? {
      FetchLoopOk(acc, FetchTurn(s).next);
    }
  }
}
