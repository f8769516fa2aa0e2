/** The task queue object.  Every method is proved to take the step of the state machine. */
module TaskQueueObject {
  import opened SchedulerTypes
  import opened DependencyManagerObject
  import opened GlobalIndexObject
  import D = DependencySpec
  import G = GlobalIndexSpec
  import S = TaskQueueSpec

  /** What is left of PickTable once the index has yielded `picked`. */
  ghost function Examined(s: S.TaskState, picked: Option<string>): (S.TaskState, Option<string>) {
    if picked == None then (s, None)
    else if S.QueueOf(s, picked.value) == [] then S.PickTable(s)
    else if s.barriers != [] && S.QueueOf(s, picked.value)[0].seqno > s.barriers[0].seqno then
      S.PickTable(s.(waitingTables := s.waitingTables + [picked.value]))
    else (s, picked)
  }

  /** Only LOAD, DUMP, DROP and COPYTABLE are recorded as scheduled. */
  lemma PlainUnmarked(dm: D.DepState, q: Query, order: seq<string>)
    requires q.kind != Dump && q.kind != Drop && q.kind != CopyTable && q.kind != Load
    ensures D.MarkScheduled(dm, q, order) == (dm, RawItem(q.seqno, q.priority, q.tableName, q.kind, NoDeps, false))
  {
  }

  /** What registerTask does after it has counted the query. */
  lemma RegisterByKind(s: S.TaskState, s1: S.TaskState, q: Query)
    requires !s.quitFlag && s1 == s.(submitted := s.submitted + 1)
    ensures forall order {:trigger S.RegisterTask(s, q, order)} ::
              var (dm, item) := D.MarkScheduled(s1.dm, q, order);
              S.RegisterTask(s, q, order) ==
                if IsBarrier(q.kind) then
                  (s1.(barriers := s1.barriers + [item]), Some(item))
                else if q.kind == Load then (s1.(dm := dm, loadQueue := s1.loadQueue + [item]), Some(item))
                else
                  var s2 := s1.(dm := dm);
                  (S.WithQueue(s2, q.tableName, S.QueueOf(s2, q.tableName) + [item]), Some(item))
    ensures IsBarrier(q.kind) ==> forall order {:trigger D.MarkScheduled(s1.dm, q, order)} ::
              D.MarkScheduled(s1.dm, q, order).1 == RawItem(q.seqno, q.priority, q.tableName, q.kind, NoDeps, false)
  {
  }

  lemma PickTableUnfolds(s: S.TaskState)
    ensures var (ix, t) := G.PickBest(s.index); S.PickTable(s) == Examined(s.(index := ix), t)
  {
  }

  /** y is x, marked as dropped if it was submitted before number seqno. */
  predicate FlaggedAs(x: Item, y: Item, seqno: nat) {
    y == if x.seqno < seqno then x.(droppedFlag := true) else x
  }

  lemma FlaggedEach(pending: seq<Item>, queue: seq<Item>, seqno: nat)
    requires |queue| == |pending| && forall j :: 0 <= j < |queue| ==> FlaggedAs(pending[j], queue[j], seqno)
    ensures queue == S.FlagDropped(pending, seqno)
  {
    forall j | 0 <= j < |queue| ensures queue[j] == S.FlagDropped(pending, seqno)[j] {
      assert FlaggedAs(pending[j], queue[j], seqno);
    }
  }

  /** In the table branch it does not matter when the LOAD candidate is destroyed. */
  lemma TableTurnDiscardsFirst(s: S.TaskState, load: Option<LoadItem>, t: string)
    requires S.QueueOf(s, t) != []
    ensures var s1 := S.Discard(s, load);
            var x := S.QueueOf(s, t)[0];
            var popped := S.WithQueue(s1, t, S.QueueOf(s1, t)[1..]);
            var blocker := S.TableBlocker(s1, x);
            S.TableTurn(s, load, t) ==
              if blocker.Some? then S.Again(S.Park(popped, blocker.value, x))
              else S.Done(S.Started(popped), S.Run(S.BuildExecutable(s1, x)))
  {
    assert S.TableBlocker(S.Discard(s, load), S.QueueOf(s, t)[0]) == S.TableBlocker(s, S.QueueOf(s, t)[0]);
  }

  class TaskQueue {
    var tables: map<string, S.TableQueue>
    const globalIndex: GlobalIndex
    var loadQueue: seq<LoadItem>
    var loadBlocked: bool
    const depManager: DependencyManager
    var barriers: seq<Item>
    var waitingTables: seq<string>
    var quitFlag: bool
    var readyToFetch: bool
    var fetchTick: nat
    var submitted: nat
    var running: nat
    var completed: nat
    const fileTableNames: map<string, string>
    ghost var discarded: seq<LoadItem>

    ghost function State(): S.TaskState
      reads this, globalIndex, depManager
    {
      S.TaskState(tables, globalIndex.State(), loadQueue, loadBlocked, depManager.State(), barriers, waitingTables,
                  quitFlag, readyToFetch, fetchTick, submitted, running, completed, fileTableNames, discarded)
    }

    constructor (fileTableNames: map<string, string>)
      ensures State() == S.InitialState(fileTableNames)
      ensures fresh(globalIndex) && fresh(depManager)
    {
      tables := map[];
      globalIndex := new GlobalIndex();
      loadQueue := [];
      loadBlocked := false;
      depManager := new DependencyManager();
      barriers := [];
      waitingTables := [];
      quitFlag := false;
      readyToFetch := false;
      fetchTick := 0;
      submitted := 0;
      running := 0;
      completed := 0;
      this.fileTableNames := fileTableNames;
      discarded := [];
    }

    method SetReady()
      modifies this`readyToFetch
      ensures State() == S.SetReady(old(State()))
    {
      readyToFetch := true;
    }

    method RegisterTask(q: Query) returns (accepted: Option<Item>, ghost order: seq<string>)
      modifies this, depManager
      ensures (State(), accepted) == S.RegisterTask(old(State()), q, order)
      ensures accepted.Some? && q.kind == Load && D.IsPending(old(depManager.State()), q) ==>
                D.Enumerates(order, D.DroppedTables(old(depManager.lastScheduledTable)))
    {
      order := [];
      if quitFlag {
        return None, order;
      }
      submitted := submitted + 1;
      RegisterByKind(old(State()), State(), q);
      if IsBarrier(q.kind) {
        var item := RegisterBarrier(q);
        return Some(item), order;
      }
      var item;
      if q.kind == Load {
        item, order := RegisterLoad(q);
      } else {
        item, order := RegisterTableQuery(q);
      }
      return Some(item), order;
    }

    method RegisterBarrier(q: Query) returns (item: Item)
      requires IsBarrier(q.kind)
      modifies this`barriers
      ensures item == RawItem(q.seqno, q.priority, q.tableName, q.kind, NoDeps, false)
      ensures State() == old(State()).(barriers := old(barriers) + [item])
    {
      item := RawItem(q.seqno, q.priority, q.tableName, q.kind, NoDeps, false);
      barriers := barriers + [item];
    }

    method RegisterLoad(q: Query) returns (item: LoadItem, ghost order: seq<string>)
      requires q.kind == Load
      modifies this`loadQueue, depManager
      ensures var (dm, x) := D.MarkScheduled(old(depManager.State()), q, order);
              item == x && State() == old(State()).(dm := dm, loadQueue := old(loadQueue) + [item])
      ensures D.IsPending(old(depManager.State()), q) ==>
                D.Enumerates(order, D.DroppedTables(old(depManager.lastScheduledTable)))
    {
      item, order := depManager.MarkScheduled(q);
      loadQueue := loadQueue + [item];
    }

    method RegisterTableQuery(q: Query) returns (item: Item, ghost order: seq<string>)
      requires q.kind != Load
      modifies this`tables, depManager
      ensures var (dm, x) := D.MarkScheduled(old(depManager.State()), q, order);
              var s1 := old(State()).(dm := dm);
              item == x && State() == S.WithQueue(s1, q.tableName, S.QueueOf(s1, q.tableName) + [item])
    {
      item, order := MarkTableQuery(q);
      Enqueue(q.tableName, S.TableAt(tables, q.tableName).queue + [item]);
    }

    /** DUMP, DROP and COPYTABLE are recorded; other table queries have no dependencies. */
    method MarkTableQuery(q: Query) returns (item: Item, ghost order: seq<string>)
      requires q.kind != Load
      modifies depManager
      ensures (depManager.State(), item) == D.MarkScheduled(old(depManager.State()), q, order)
    {
      order := [];
      item := RawItem(q.seqno, q.priority, q.tableName, q.kind, NoDepsFor(q), false);
      if q.kind == Dump || q.kind == Drop || q.kind == CopyTable {
        item, order := depManager.MarkScheduled(q);
      } else {
        PlainUnmarked(depManager.State(), q, order);
      }
    }

    /** Stores a table's queue; operator[] creates the entry of an unknown table. */
    method Enqueue(t: string, queue: seq<Item>)
      modifies this`tables
      ensures State() == S.WithQueue(old(State()), t, queue)
    {
      var tbl := S.TableAt(tables, t);
      tables := tables[t := tbl.(queue := queue)];
    }

    method UpsertHead(t: string)
      modifies globalIndex
      ensures State() == S.UpsertHead(old(State()), t)
    {
      var queue := S.TableAt(tables, t).queue;
      if queue != [] {
        globalIndex.Upsert(t, queue[0].priority, fetchTick, queue[0].seqno);
      }
    }

    // ----- fetching -----

    method GetFetched() returns (loadCand: Option<LoadItem>, tableCandQ: Option<string>)
      modifies this`loadQueue, this`loadBlocked, this`waitingTables, globalIndex
      ensures loadCand == S.TakeLoad(old(State())).1
      ensures (State(), tableCandQ) == S.PickTable(S.TakeLoad(old(State())).0)
    {
      loadCand := None;
      if loadQueue != [] && !loadBlocked {
        if barriers != [] && loadQueue[0].seqno > barriers[0].seqno {
          loadBlocked := true;
        } else {
          loadCand := Some(loadQueue[0]);
          loadQueue := loadQueue[1..];
        }
      }
      tableCandQ := PickCandidate();
    }

    /** The loop of getFetched over the index. */
    method PickCandidate() returns (tableCandQ: Option<string>)
      modifies this`waitingTables, globalIndex
      ensures (State(), tableCandQ) == S.PickTable(old(State()))
    {
      tableCandQ := None;
      ghost var all := S.PickTable(State());
      PickTableUnfolds(State());
      var picked := PickNext();
      while picked.Some?
        invariant all == Examined(State(), picked)
        decreases |globalIndex.heap| + (if picked.Some? then 1 else 0)
      {
        var queue := S.TableAt(tables, picked.value).queue;
        if queue != [] {
          if barriers == [] || queue[0].seqno <= barriers[0].seqno {
            tableCandQ := picked;
            return;
          }
          waitingTables := waitingTables + [picked.value];
        }
        PickTableUnfolds(State());
        picked := PickNext();
      }
    }

    method PickNext() returns (picked: Option<string>)
      modifies globalIndex
      ensures var (ix, t) := G.PickBest(old(globalIndex.State()));
              picked == t && State() == old(State()).(index := ix)
      ensures picked.Some? ==> |globalIndex.heap| < old(|globalIndex.heap|)
      ensures |globalIndex.heap| <= old(|globalIndex.heap|)
    {
      picked := globalIndex.PickBest();
    }

    method BuildExecutable(x: Item) returns (task: S.Task)
      ensures task == S.BuildExecutable(State(), x)
    {
      var actions := ClassifyActions(x);
      var tableQ := None;
      if x.tableId != "" && x.tableId != CONTROL_TABLE && x.tableId in tables {
        tableQ := Some(x.tableId);
      }
      task := S.Task(x, actions, tableQ);
    }

    method ClassifyActions(x: Item) returns (actions: seq<S.Action>)
      ensures actions == S.ClassifyActions(State(), x)
    {
      actions := [];
      match x.kind {
        case Load =>
          if !(x.tableId in tables && tables[x.tableId].registered) {
            actions := [S.RegisterTable];
          }
          actions := actions + [S.UpdateDeps];
        case CopyTable => actions := [S.RegisterTable, S.UpdateDeps];
        case Dump => actions := [S.UpdateDeps];
        case Drop => actions := [S.UpdateDeps];
        case _ =>
          if x.tableId != "" {
            actions := [S.UpdateDeps];
          }
      }
    }

    method CountStarted()
      modifies this`running, this`fetchTick
      ensures State() == S.Started(old(State()))
    {
      running := running + 1;
      fetchTick := fetchTick + 1;
    }

    method FetchBarrier() returns (outcome: S.Outcome)
      modifies this`barriers, this`quitFlag,
               this`running, this`fetchTick, this`waitingTables, this`loadBlocked, globalIndex
      ensures (State(), outcome) == S.FetchBarrier(old(State()))
    {
      if barriers == [] || running > 0 {
        return S.NoTask;
      }
      var item := TakeBarrier();
      var task := BuildExecutable(item);
      CountStarted();
      ReleaseBlocked();
      return S.Run(task);
    }

    method TakeBarrier() returns (item: Item)
      requires barriers != []
      modifies this`barriers, this`quitFlag
      ensures item == old(barriers[0])
      ensures State() == old(State()).(barriers := old(barriers)[1..], quitFlag := old(quitFlag) || item.kind == Quit)
    {
      item := barriers[0];
      barriers := barriers[1..];
      if item.kind == Quit {
        quitFlag := true;
      }
    }

    /** Re-indexes the tables that the barrier held back, and lets LOADs pass again. */
    method ReleaseBlocked()
      modifies this`waitingTables, this`loadBlocked, globalIndex
      ensures State() == S.UpsertAll(old(State()), old(waitingTables)).(waitingTables := [], loadBlocked := false)
    {
      var i := 0;
      while i < |waitingTables|
        invariant i <= |waitingTables|
        invariant S.UpsertAll(State(), waitingTables[i..]) == S.UpsertAll(old(State()), waitingTables)
      {
        UpsertHead(waitingTables[i]);
        i := i + 1;
      }
      assert State() == S.UpsertAll(old(State()), waitingTables);
      waitingTables := [];
      loadBlocked := false;
    }

    /** Parks a LOAD whose dependencies are not met. */
    method JudgeLoadDeps(loadCand: LoadItem) returns (waits: bool)
      modifies depManager
      ensures var blocker := S.LoadBlocker(old(State()), loadCand);
              && waits == blocker.Some?
              && State() == if waits then S.Park(old(State()), blocker.value, loadCand) else old(State())
    {
      var deps := loadCand.depends;
      if deps.fileDependsOn > D.LastCompletedFor(depManager.State(), D.File, deps.filePath) {
        depManager.AddWait(D.File, deps.filePath, loadCand);
        return true;
      }
      if deps.tableDependsOn > D.LastCompletedFor(depManager.State(), D.Table, loadCand.tableId) {
        depManager.AddWait(D.Table, loadCand.tableId, loadCand);
        return true;
      }
      return false;
    }

    method ParkHead(t: string, ty: D.DepType, key: string)
      requires S.TableAt(tables, t).queue != []
      modifies this`tables, depManager
      ensures var queue := S.QueueOf(old(State()), t);
              State() == S.Park(S.WithQueue(old(State()), t, queue[1..]), (ty, key), queue[0])
    {
      var queue := S.TableAt(tables, t).queue;
      Enqueue(t, queue[1..]);
      depManager.AddWait(ty, key, queue[0]);
    }

    /** Parks the head of t's queue if its dependencies are not met. */
    method JudgeNormalDeps(t: string) returns (waits: bool)
      requires S.TableAt(tables, t).queue != []
      modifies this`tables, depManager
      ensures var queue := S.QueueOf(old(State()), t);
              var blocker := S.TableBlocker(old(State()), queue[0]);
              && waits == blocker.Some?
              && State() == if waits then S.Park(S.WithQueue(old(State()), t, queue[1..]), blocker.value, queue[0])
                            else old(State())
    {
      var cand := S.TableAt(tables, t).queue[0];
      if cand.kind == Dump {
        if cand.depends.fileDependsOn > D.LastCompletedFor(depManager.State(), D.File, cand.depends.filePath) {
          ParkHead(t, D.File, cand.depends.filePath);
          return true;
        }
        if cand.depends.tableDependsOn > D.LastCompletedFor(depManager.State(), D.Table, cand.tableId) {
          ParkHead(t, D.Table, cand.tableId);
          return true;
        }
      }
      if cand.kind == Drop {
        if cand.depends.tableDependsOn > D.LastCompletedFor(depManager.State(), D.Table, cand.tableId) {
          ParkHead(t, D.Table, cand.tableId);
          return true;
        }
      }
      if cand.kind == CopyTable {
        if cand.depends.srcTableDependsOn > D.LastCompletedFor(depManager.State(), D.Table, cand.tableId) {
          ParkHead(t, D.Table, cand.tableId);
          return true;
        }
        if cand.depends.dstTableDependsOn > D.LastCompletedFor(depManager.State(), D.Table, cand.depends.newTable) {
          ParkHead(t, D.Table, cand.depends.newTable);
          return true;
        }
      }
      return false;
    }

    method FetchNext() returns (outcome: S.Outcome)
      modifies this, globalIndex, depManager
      ensures (State(), outcome) == S.FetchNext(old(State()))
    {
      if !readyToFetch {
        return S.NoTask;
      }
      while true
        invariant S.FetchLoop(State()) == S.FetchLoop(old(State()))
        decreases |loadQueue| + |globalIndex.heap|
      {
        ghost var s0 := State();
        S.FetchTurnShrinks(s0);
        var loadCand, tableCandQ := GetFetched();
        if tableCandQ == None && loadCand == None {
          outcome := FetchBarrier();
          return;
        }
        var preferLoad := tableCandQ == None;
        if loadCand.Some? && tableCandQ.Some? {
          preferLoad := S.PreferLoad(loadCand.value, S.TableAt(tables, tableCandQ.value).queue[0]);
        }
        if preferLoad {
          outcome := FetchLoad(loadCand.value);
        } else {
          outcome := FetchTable(loadCand, tableCandQ.value);
        }
        if outcome != S.NoTask {
          return;
        }
      }
    }

    /** The LOAD branch of the fetch loop; NoTask means that the loop continues. */
    method FetchLoad(loadCand: LoadItem) returns (outcome: S.Outcome)
      modifies this`running, this`fetchTick, this`discarded, depManager
      ensures S.LoadTurn(old(State()), loadCand) ==
              if outcome == S.NoTask then S.Again(State()) else S.Done(State(), outcome)
    {
      var waits := JudgeLoadDeps(loadCand);
      if waits {
        return S.NoTask;
      }
      if loadCand.tableId in tables && tables[loadCand.tableId].registered
         && tables[loadCand.tableId].registerSeq > loadCand.seqno {
        discarded := discarded + [loadCand];
        return S.Crash;
      }
      var task := BuildExecutable(loadCand);
      CountStarted();
      return S.Run(task);
    }

    /** The table branch of the fetch loop; a LOAD candidate goes out of scope. */
    method FetchTable(loadCand: Option<LoadItem>, t: string) returns (outcome: S.Outcome)
      requires S.TableAt(tables, t).queue != []
      modifies this`tables, this`running, this`fetchTick, this`discarded, depManager
      ensures S.TableTurn(old(State()), loadCand, t) ==
              if outcome == S.NoTask then S.Again(State()) else S.Done(State(), outcome)
    {
      TableTurnDiscardsFirst(State(), loadCand, t);
      ghost var s1 := S.Discard(State(), loadCand);
      if loadCand.Some? {
        discarded := discarded + [loadCand.value];
      }
      assert State() == s1;
      var waits := JudgeNormalDeps(t);
      if waits {
        return S.NoTask;
      }
      var queue := S.TableAt(tables, t).queue;
      var task := BuildExecutable(queue[0]);
      Enqueue(t, queue[1..]);
      assert State() == S.WithQueue(s1, t, queue[1..]);
      CountStarted();
      return S.Run(task);
    }

    // ----- completing -----

    /** The part of the completion closure that runs under the mutex. */
    method OnCompleted(task: S.Task)
      modifies this, globalIndex, depManager
      ensures State() == S.OnCompleted(old(State()), task)
    {
      var i := 0;
      while i < |task.actions|
        invariant i <= |task.actions|
        invariant S.ApplyActions(State(), task.actions[i..], task.item) ==
                  S.ApplyActions(old(State()), task.actions, task.item)
      {
        match task.actions[i] {
          case RegisterTable => ApplyRegisterTable(task.item);
          case UpdateDeps => ApplyUpdateDeps(task.item);
        }
        i := i + 1;
      }
      if task.tableQ.Some? {
        UpsertHead(task.tableQ.value);
      }
    }

    /** The counter updates at the end of the completion closure. */
    method Retire()
      requires running > 0
      modifies this`running, this`completed
      ensures State() == S.Retire(old(State()))
    {
      running := running - 1;
      completed := completed + 1;
    }

    method ApplyRegisterTable(item: Item)
      modifies this`tables, globalIndex
      ensures State() == S.ApplyRegisterTable(old(State()), item)
    {
      RegisterTableQueue(item.tableId, item.seqno);
      if item.kind == CopyTable {
        RegisterTableQueue(item.depends.newTable, item.seqno);
      }
    }

    /** Marks the queries submitted before number seqno as dropped. */
    method FlagPending(pending: seq<Item>, seqno: nat) returns (queue: seq<Item>)
      ensures queue == S.FlagDropped(pending, seqno)
    {
      queue := pending;
      var i := 0;
      while i < |queue|
        invariant i <= |queue| == |pending|
        invariant forall j :: 0 <= j < i ==> FlaggedAs(pending[j], queue[j], seqno)
        invariant forall j :: i <= j < |queue| ==> queue[j] == pending[j]
      {
        if queue[i].seqno < seqno {
          queue := queue[i := queue[i].(droppedFlag := true)];
        }
        i := i + 1;
      }
      FlaggedEach(pending, queue, seqno);
    }

    method RegisterTableQueue(t: string, seqno: nat)
      modifies this`tables, globalIndex
      ensures State() == S.RegisterTableQueue(old(State()), t, seqno)
    {
      var tbl := S.TableAt(tables, t);
      if tbl.registered {
        tables := tables[t := tbl];
        return;
      }
      var queue := FlagPending(tbl.queue, seqno);
      tables := tables[t := S.TableQueue(true, seqno, queue)];
      UpsertHead(t);
    }

    method ApplyUpdateDeps(item: Item)
      modifies this, globalIndex, depManager
      ensures State() == S.ApplyUpdateDeps(old(State()), item)
    {
      var readyFileItems, readyTableItems := UpdateDependencyRecords(item);
      ghost var s1 := State();
      var i := 0;
      while i < |readyFileItems|
        invariant i <= |readyFileItems|
        invariant S.WakeAll(State(), D.File, readyFileItems[i..]) == S.WakeAll(s1, D.File, readyFileItems)
      {
        UpdateReadyFile(readyFileItems[i]);
        i := i + 1;
      }
      ghost var s2 := State();
      i := 0;
      while i < |readyTableItems|
        invariant i <= |readyTableItems|
        invariant S.WakeAll(State(), D.Table, readyTableItems[i..]) == S.WakeAll(s2, D.Table, readyTableItems)
      {
        UpdateReadyTable(readyTableItems[i]);
        i := i + 1;
      }
    }

    method UpdateDependencyRecords(item: Item) returns (readyFileItems: seq<Item>, readyTableItems: seq<Item>)
      modifies this`tables, depManager
      ensures (State(), readyFileItems, readyTableItems) == S.UpdateDependencyRecords(old(State()), item)
    {
      readyFileItems := [];
      if item.kind == Load || item.kind == Dump {
        readyFileItems := depManager.NotifyCompleted(D.File, item.depends.filePath, item.seqno);
      }
      readyTableItems := NotifyTables(NotifiedTables(item), item.seqno);
      if item.kind == Drop && item.tableId in tables {
        tables := tables[item.tableId := tables[item.tableId].(registered := false)];
      }
    }

    method NotifyTables(keys: seq<string>, seqno: nat) returns (ready: seq<Item>)
      modifies depManager
      ensures (depManager.State(), ready) == D.NotifyTables(old(depManager.State()), keys, seqno)
    {
      ready := [];
      ghost var all := D.NotifyTables(depManager.State(), keys, seqno);
      var todo := keys;
      while todo != []
        invariant all.0 == D.NotifyTables(depManager.State(), todo, seqno).0
        invariant all.1 == ready + D.NotifyTables(depManager.State(), todo, seqno).1
        decreases |todo|
      {
        var more := NotifyTable(todo, seqno);
        ghost var rest := D.NotifyTables(depManager.State(), todo[1..], seqno);
        assert ready + (more + rest.1) == ready + more + rest.1;
        ready := ready + more;
        todo := todo[1..];
      }
      assert ready + [] == ready;
    }

    /** One round of the notification loop. */
    method NotifyTable(todo: seq<string>, seqno: nat) returns (more: seq<Item>)
      requires todo != []
      modifies depManager
      ensures var rest := D.NotifyTables(depManager.State(), todo[1..], seqno);
              D.NotifyTables(old(depManager.State()), todo, seqno) == (rest.0, more + rest.1)
    {
      more := depManager.NotifyCompleted(D.Table, todo[0], seqno);
    }

    /** Puts a woken item at the front of its table's queue. */
    method PushFront(item: Item)
      modifies this`tables, globalIndex
      ensures State() == S.PushFront(old(State()), item)
    {
      Enqueue(item.tableId, [item] + S.TableAt(tables, item.tableId).queue);
      UpsertHead(item.tableId);
    }

    method UpdateReadyFile(readyItem: Item)
      modifies this`tables, this`loadQueue, globalIndex, depManager
      ensures State() == S.Wake(old(State()), D.File, readyItem)
    {
      if readyItem.kind == Load {
        var item := readyItem;
        if item.depends.pendingTable != [] {
          var file := item.depends.filePath;
          item := item.(tableId := if file in fileTableNames then fileTableNames[file] else "");
        } else if item.depends.tableDependsOn > D.LastCompletedFor(depManager.State(), D.Table, item.tableId) {
          depManager.AddWait(D.Table, item.tableId, item);
          return;
        }
        loadQueue := [item] + loadQueue;
        return;
      }
      PushFront(readyItem);
    }

    method UpdateReadyTable(readyItem: Item)
      modifies this`tables, this`loadQueue, globalIndex, depManager
      ensures State() == S.Wake(old(State()), D.Table, readyItem)
    {
      if readyItem.kind == Load {
        loadQueue := [readyItem] + loadQueue;
        return;
      }
      if readyItem.kind == CopyTable {
        if readyItem.depends.srcTableDependsOn > D.LastCompletedFor(depManager.State(), D.Table, readyItem.tableId) {
          depManager.AddWait(D.Table, readyItem.tableId, readyItem);
          return;
        }
        if readyItem.depends.dstTableDependsOn >
             D.LastCompletedFor(depManager.State(), D.Table, readyItem.depends.newTable) {
          depManager.AddWait(D.Table, readyItem.depends.newTable, readyItem);
          return;
        }
      }
      PushFront(readyItem);
    }
  }
}
