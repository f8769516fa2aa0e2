/** How single events work when nothing waits; for the runs that show what does not hold. */
module ExampleRuns {
  import opened SchedulerTypes
  import opened TaskQueueSpec
  import opened SchedulerSystem
  import D = DependencySpec
  import G = GlobalIndexSpec

  /** Two tables and the files they are loaded from. */
  datatype Names = Names(a: string, b: string, f: string, g: string)

  type Setup = w: Names | w.a != w.b && w.f != w.g && IsTableName(w.a) && IsTableName(w.b) witness EXAMPLE

  const EXAMPLE := Names("a", "b", "f", "g")

  predicate IsTableName(t: string) {
    t != "" && t != CONTROL_TABLE
  }

  /** The run with one more event. */
  lemma Extended(names: map<string, string>, es: seq<Event>, e: Event) returns (more: seq<Event>)
    requires IsRun(names, es) && Enabled(After(names, es), e)
    ensures more == es + [e] && more[..|es|] == es
    ensures IsRun(names, more) && After(names, more) == Step(After(names, es), e)
  {
    more := es + [e];
    assert more[..|es|] == es;
  }

  // ----- registration -----

  /** Queries are being registered; nothing has been fetched. */
  ghost predicate Fresh(s: Sys) {
    && s.inflight == map[] && s.executed == {} && Completed(s) == {} && !s.crashed
    && !s.q.readyToFetch && !s.q.quitFlag
  }

  lemma RegisterStep(s: Sys, q: Query, item: Item)
    requires Fresh(s) && RegisterTask(s.q, q, []).1 == Some(item) && item.seqno == q.seqno
    ensures var s' := Step(s, Register(q, []));
            s'.q == RegisterTask(s.q, q, []).0 && s'.acc == s.acc[q.seqno := item] && Fresh(s')
  {
  }

  /** No operation on the file or the table has been registered. */
  ghost predicate Untouched(q: TaskState, file: string, table: string) {
    file !in q.dm.lastScheduledFile && table !in q.dm.lastScheduledTable
  }

  /** The first LOAD of a file and a table depends on nothing. */
  lemma RegisterFirstLoad(s: TaskState, q: Query)
    requires q.kind == Load && q.seqno > 0 && !s.quitFlag && Untouched(s, q.filePath, q.tableName)
    ensures var item: LoadItem := RawItem(q.seqno, q.priority, q.tableName, Load,
                                              LoadDeps(0, 0, q.filePath, []), false);
            var (s', x) := RegisterTask(s, q, []);
            && x == Some(item) && !D.IsPending(s.dm, q)
            && s' == s.(submitted := s'.submitted, dm := s'.dm, loadQueue := s.loadQueue + [item])
            && s'.dm == s.dm.(lastScheduledFile := s'.dm.lastScheduledFile,
                                 lastScheduledTable := s'.dm.lastScheduledTable)
            && s'.dm.lastScheduledFile.Keys == s.dm.lastScheduledFile.Keys + {q.filePath}
            && s'.dm.lastScheduledTable == s.dm.lastScheduledTable[q.tableName := D.Mark(Load, q.seqno)]
  {
  }

  /** A data query has no dependencies. */
  lemma RegisterPlain(s: TaskState, q: Query)
    requires q.kind == Truncate || q.kind == Insert
    requires !s.quitFlag
    ensures var item: Item := RawItem(q.seqno, q.priority, q.tableName, q.kind, NoDeps, false);
            RegisterTask(s, q, []) ==
              (WithQueue(s.(submitted := s.submitted + 1), q.tableName, QueueOf(s, q.tableName) + [item]), Some(item))
  {
  }

  /** A DROP waits for the operation on its table that was registered last. */
  lemma RegisterDrop(s: TaskState, q: Query, mark: D.Mark)
    requires q.kind == Drop && !s.quitFlag && D.LastMark(s.dm.lastScheduledTable, q.tableName) == mark
    ensures var item: Item := RawItem(q.seqno, q.priority, q.tableName, Drop, DropDeps(mark.seqno), false);
            var (s', x) := RegisterTask(s, q, []);
            && x == Some(item)
            && s' == WithQueue(s.(submitted := s.submitted + 1, dm := s'.dm),
                                q.tableName, QueueOf(s, q.tableName) + [item])
            && s'.dm == s.dm.(lastScheduledTable := s'.dm.lastScheduledTable)
            && s'.dm.lastScheduledTable.Keys == s.dm.lastScheduledTable.Keys + {q.tableName}
  {
  }

  lemma RegisterBarrier(s: TaskState, q: Query)
    requires IsBarrier(q.kind) && !s.quitFlag
    ensures var item: Item := RawItem(q.seqno, q.priority, q.tableName, q.kind, NoDeps, false);
            RegisterTask(s, q, []) == (s.(submitted := s.submitted + 1, barriers := s.barriers + [item]), Some(item))
  {
  }

  // ----- one live table -----

  ghost predicate OnlyLive(ix: G.Index, t: string) {
    G.ValidIndex(ix) && G.LiveTables(ix) == {t}
  }

  lemma PutOnly(s: TaskState, t: string)
    requires G.ValidIndex(s.index) && G.LiveTables(s.index) <= {t} && QueueOf(s, t) != []
    ensures OnlyLive(UpsertHead(s, t).index, t)
  {
    var x := QueueOf(s, t)[0];
    G.UpsertReplaces(s.index, t, x.priority, s.fetchTick, x.seqno);
  }

  lemma PickOnly(ix: G.Index, t: string)
    requires OnlyLive(ix, t)
    ensures var (ix', u) := G.PickBest(ix); u == Some(t) && G.ValidIndex(ix') && G.LiveTables(ix') == {}
  {
    G.PickBestTables(ix);
  }

  lemma PickNothing(ix: G.Index)
    requires G.ValidIndex(ix) && G.LiveTables(ix) == {}
    ensures var (ix', u) := G.PickBest(ix); u == None && G.ValidIndex(ix') && G.LiveTables(ix') == {}
  {
    G.PickBestTables(ix);
  }

  // ----- fetching -----

  /** With an empty index the first LOAD is fetched, if it depends on nothing. */
  lemma FetchLoad(s: TaskState)
    requires s.loadQueue != [] && !s.loadBlocked && s.readyToFetch && s.index.heap == []
    requires s.barriers == [] || s.loadQueue[0].seqno <= s.barriers[0].seqno
    requires var x := s.loadQueue[0];
             x.depends.fileDependsOn == 0 && x.depends.tableDependsOn == 0 && !TableAt(s.tables, x.tableId).registered
    ensures var s1 := s.(loadQueue := s.loadQueue[1..]);
            FetchNext(s) == (Started(s1), Run(BuildExecutable(s1, s.loadQueue[0])))
  {
    var x := s.loadQueue[0];
    var s1 := s.(loadQueue := s.loadQueue[1..]);
    assert TakeLoad(s) == (s1, Some(x));
    assert G.PickBest(s1.index) == (s1.index, None);
    assert PickTable(s1) == (s1, None);
    assert LoadBlocker(s1, x) == None && !LoadTooLate(s1, x);
    assert FetchTurn(s) == LoadTurn(s1, x);
  }

  /** Without LOADs the picked table's head is fetched, if nothing blocks it. */
  lemma FetchTable(s: TaskState, t: string)
    requires s.loadQueue == [] && s.barriers == [] && s.readyToFetch
    requires G.PickBest(s.index).1 == Some(t) && QueueOf(s, t) != [] && TableBlocker(s, QueueOf(s, t)[0]) == None
    ensures var s1 := s.(index := G.PickBest(s.index).0);
            FetchNext(s) == (Started(WithQueue(s1, t, QueueOf(s, t)[1..])), Run(BuildExecutable(s1, QueueOf(s, t)[0])))
  {
    var s1 := s.(index := G.PickBest(s.index).0);
    assert TakeLoad(s) == (s, None);
    assert PickTable(s) == (s1, Some(t));
    assert TableBlocker(s1, QueueOf(s, t)[0]) == None;
    assert FetchTurn(s) == TableTurn(s1, None, t);
  }

  lemma DispatchStep(s: Sys, q': TaskState, task: Task)
    requires (q', Run(task)) == FetchNext(s.q)
    ensures Step(s, Fetch) == Dispatch(s, q', task)
  {
  }

  // ----- completion -----

  ghost predicate Unwaited(dm: D.DepState) {
    dm.waitingFile == map[] && dm.waitingTable == map[]
  }

  /** When nobody waits, a notification only raises the record of its key. */
  lemma NotifyNobody(dm: D.DepState, ty: D.DepType, k: string, seqno: nat)
    requires Unwaited(dm)
    ensures var (dm', ready) := D.NotifyCompleted(dm, ty, k, seqno);
            && ready == [] && Unwaited(dm')
            && D.LastCompletedFor(dm', ty, k) >= seqno
            && dm'.lastScheduledFile == dm.lastScheduledFile && dm'.lastScheduledTable == dm.lastScheduledTable
  {
  }

  /** An item that notifies one table key. */
  ghost predicate NotifiesOne(x: Item) {
    && x.tableId != "" && (x.kind == Load || x.kind == Truncate || x.kind == Insert)
    && (x.kind == Load ==> x.depends.pendingTable == [])
  }

  lemma UpdateNobody(s: TaskState, x: Item)
    requires Unwaited(s.dm) && NotifiesOne(x)
    ensures var s' := ApplyUpdateDeps(s, x);
            s' == s.(dm := s'.dm) && Unwaited(s'.dm) && D.LastCompletedFor(s'.dm, D.Table, x.tableId) >= x.seqno
  {
    var dm1 := if x.kind == Load then D.NotifyCompleted(s.dm, D.File, x.depends.filePath, x.seqno).0 else s.dm;
    if x.kind == Load {
      NotifyNobody(s.dm, D.File, x.depends.filePath, x.seqno);
    }
    NotifyNobody(dm1, D.Table, x.tableId, x.seqno);
    var dm2 := D.NotifyCompleted(dm1, D.Table, x.tableId, x.seqno).0;
    assert NotifiedTables(x) == [x.tableId] && [x.tableId][1..] == [];
    assert D.NotifyTables(dm2, [], x.seqno) == (dm2, []);
    assert D.NotifyTables(dm1, [x.tableId], x.seqno) == (dm2, [] + []);
  }

  /** A data query completes: its table's next head is indexed. */
  lemma CompletePlain(s: TaskState, x: Item, t: string)
    requires Unwaited(s.dm) && NotifiesOne(x)
    ensures var dm := ApplyUpdateDeps(s, x).dm;
            Unwaited(dm) && OnCompleted(s, Task(x, [UpdateDeps], Some(t))) == UpsertHead(s.(dm := dm), t)
  {
    UpdateNobody(s, x);
    var s1 := ApplyUpdateDeps(s, x);
    assert [UpdateDeps][1..] == [];
    assert ApplyActions(s1, [], x) == s1;
    assert ApplyActions(s, [UpdateDeps], x) == s1;
  }

  /** A LOAD completes: its table is registered, and its head is indexed twice. */
  lemma CompleteLoad(s: TaskState, x: LoadItem)
    requires Unwaited(s.dm) && NotifiesOne(x) && !TableAt(s.tables, x.tableId).registered
    requires forall y :: y in QueueOf(s, x.tableId) ==> y.seqno > x.seqno
    ensures var t := x.tableId;
            var s1 := UpsertHead(s.(tables := s.tables[t := TableQueue(true, x.seqno, QueueOf(s, t))]), t);
            var s' := OnCompleted(s, Task(x, [RegisterTable, UpdateDeps], Some(t)));
            && s' == UpsertHead(s1.(dm := s'.dm), t) && Unwaited(s'.dm)
            && D.LastCompletedFor(s'.dm, D.Table, t) >= x.seqno
  {
    var t, queue := x.tableId, QueueOf(s, x.tableId);
    assert FlagDropped(queue, x.seqno) == queue;
    var s1 := UpsertHead(s.(tables := s.tables[t := TableQueue(true, x.seqno, queue)]), t);
    assert ApplyRegisterTable(s, x) == s1;
    UpdateNobody(s1, x);
    var s2 := ApplyUpdateDeps(s1, x);
    LoadActions(s, s1, s2, x);
  }

  lemma LoadActions(s: TaskState, s1: TaskState, s2: TaskState, x: LoadItem)
    requires s1 == ApplyRegisterTable(s, x) && s2 == ApplyUpdateDeps(s1, x)
    ensures ApplyActions(s, [RegisterTable, UpdateDeps], x) == s2
  {
    assert [RegisterTable, UpdateDeps][1..] == [UpdateDeps] && [UpdateDeps][1..] == [];
    assert ApplyActions(s2, [], x) == s2;
    assert ApplyActions(s1, [UpdateDeps], x) == s2;
  }

  lemma CompleteStep(s: Sys, n: nat)
    requires n in s.inflight
    ensures var s' := Step(s, Complete(n));
            && s' == s.(q := OnCompleted(s.q, s.inflight[n]), inflight := s.inflight - {n},
                         retiring := s.retiring + {n})
  {
  }

  // ----- whole turns of a worker -----

  lemma RegisterOne(names: map<string, string>, es: seq<Event>, q: Query, q': TaskState, item: Item)
    returns (more: seq<Event>)
    requires IsRun(names, es) && Enabled(After(names, es), Register(q, [])) && Fresh(After(names, es))
    requires item.seqno == q.seqno && (q', Some(item)) == RegisterTask(After(names, es).q, q, [])
    ensures var s, s' := After(names, es), After(names, more);
            IsRun(names, more) && s'.q == q' && s'.acc == s.acc[q.seqno := item] && Fresh(s')
  {
    RegisterStep(After(names, es), q, item);
    more := Extended(names, es, Register(q, []));
  }

  lemma FetchOne(names: map<string, string>, es: seq<Event>, q': TaskState, task: Task) returns (more: seq<Event>)
    requires IsRun(names, es) && !After(names, es).crashed && (q', Run(task)) == FetchNext(After(names, es).q)
    ensures |more| == |es| + 1 && more[..|es|] == es
    ensures IsRun(names, more) && After(names, more) == Dispatch(After(names, es), q', task)
  {
    DispatchStep(After(names, es), q', task);
    more := Extended(names, es, Fetch);
  }

  /** The state after the task has been executed and its completion actions are done. */
  function Ran(s: Sys, n: nat, q': TaskState): Sys {
    s.(q := q', inflight := s.inflight - {n}, executed := s.executed + {n}, retiring := s.retiring + {n})
  }

  lemma RunOne(names: map<string, string>, es: seq<Event>, n: nat, q': TaskState) returns (more: seq<Event>)
    requires IsRun(names, es) && !After(names, es).crashed
    requires n in After(names, es).inflight && n !in After(names, es).executed
    requires q' == OnCompleted(After(names, es).q, After(names, es).inflight[n])
    ensures |more| == |es| + 2 && more[..|es|] == es
    ensures IsRun(names, more) && After(names, more) == Ran(After(names, es), n, q')
  {
    var es1 := Extended(names, es, Execute(n));
    CompleteStep(After(names, es1), n);
    more := Extended(names, es1, Complete(n));
    assert more[..|es|] == es1[..|es|];
  }

  /** A lone worker fetches a task and runs it. */
  lemma FetchAndRun(names: map<string, string>, es: seq<Event>, q1: TaskState, task: Task, q2: TaskState)
    returns (more: seq<Event>)
    requires IsRun(names, es) && !After(names, es).crashed && (q1, Run(task)) == FetchNext(After(names, es).q)
    requires After(names, es).inflight == map[] && task.item.seqno !in After(names, es).executed
    requires q2 == OnCompleted(q1, task)
    ensures |es| <= |more| && more[..|es|] == es && IsRun(names, more)
    ensures var s, s', n := After(names, es), After(names, more), task.item.seqno;
            && s'.q == q2 && s'.inflight == map[] && !s'.crashed && s'.acc == s.acc
            && s'.executed == s.executed + {n} && Completed(s') == Completed(s) + {n}
            && s'.finished == s.finished && s'.retiring == s.retiring + {n}
  {
    var s, n := After(names, es), task.item.seqno;
    var es1 := FetchOne(names, es, q1, task);
    var s1 := Dispatch(s, q1, task);
    assert s1.inflight[n] == task;
    more := RunOne(names, es1, n, q2);
    assert more[..|es|] == es1[..|es|];
    assert s1.inflight - {n} == map[];
  }

  /** Just the two tasks x and y are in flight, and nothing has run yet. */
  ghost predicate InFlight(s: Sys, x: Task, y: Task) {
    && x.item.seqno != y.item.seqno && s.inflight == map[x.item.seqno := x, y.item.seqno := y]
    && s.executed == {} && Completed(s) == {} && !s.crashed
  }

  /** They run one after the other. */
  lemma RunBoth(names: map<string, string>, es: seq<Event>, x: Task, y: Task) returns (more: seq<Event>)
    requires IsRun(names, es) && InFlight(After(names, es), x, y)
    ensures |es| <= |more| && more[..|es|] == es && IsRun(names, more)
    ensures var s' := After(names, more);
            && s'.q == OnCompleted(OnCompleted(After(names, es).q, x), y) && s'.inflight == map[] && !s'.crashed
            && s'.executed == Completed(s') == {x.item.seqno, y.item.seqno}
  {
    var s := After(names, es);
    var es1 := RunOne(names, es, x.item.seqno, OnCompleted(s.q, x));
    RanFirst(s, x, y, OnCompleted(s.q, x));
    var s1 := Ran(s, x.item.seqno, OnCompleted(s.q, x));
    more := RunOne(names, es1, y.item.seqno, OnCompleted(s1.q, y));
    RanSecond(s1, x, y, OnCompleted(s1.q, y));
    assert more[..|es|] == es1[..|es|];
  }

  lemma RanFirst(s: Sys, x: Task, y: Task, q': TaskState)
    requires InFlight(s, x, y)
    ensures var s1 := Ran(s, x.item.seqno, q');
            && s1.inflight == map[y.item.seqno := y] && s1.executed == Completed(s1) == {x.item.seqno} && !s1.crashed
  {
  }

  lemma RanSecond(s: Sys, x: Task, y: Task, q': TaskState)
    requires s.inflight == map[y.item.seqno := y] && s.executed == Completed(s) == {x.item.seqno} && !s.crashed
    ensures var s1 := Ran(s, y.item.seqno, q');
            s1.inflight == map[] && s1.executed == Completed(s1) == {x.item.seqno, y.item.seqno} && !s1.crashed
  {
  }

  // ----- LOAD a, and later a DROP of a -----

  function LoadQueryOf(w: Setup): Query {
    Query(1, 1, w.a, Load, w.f, "")
  }

  function LoadOf(w: Setup): LoadItem {
    RawItem(1, 1, w.a, Load, LoadDeps(0, 0, w.f, []), false)
  }

  function DropQueryOf(w: Setup, d: nat): Query {
    Query(d, 1, w.a, Drop, "", "")
  }

  function DropOf(w: Setup, d: nat): Item {
    RawItem(d, 1, w.a, Drop, DropDeps(1), false)
  }

  function LoadTask(w: Setup): Task {
    Task(LoadOf(w), [RegisterTable, UpdateDeps], Some(w.a))
  }

  /** a is not registered, its queue is as given, and nothing is indexed or parked. */
  ghost predicate Unloaded(w: Setup, q: TaskState, queue: seq<Item>) {
    && QueueOf(q, w.a) == queue && !TableAt(q.tables, w.a).registered && q.index == G.Index([], map[])
    && Unwaited(q.dm) && !q.loadBlocked && q.waitingTables == [] && q.discarded == [] && !q.quitFlag && q.running == 0
  }

  lemma RegisterFirst(w: Setup, names: map<string, string>) returns (es: seq<Event>)
    ensures IsRun(names, es)
    ensures var s := After(names, es);
            && Fresh(s) && Unloaded(w, s.q, []) && s.q.loadQueue == [LoadOf(w)] && s.q.barriers == []
            && s.acc == map[1 := LoadOf(w)]
            && s.q.dm.lastScheduledFile.Keys == {w.f} && s.q.dm.lastScheduledTable == map[w.a := D.Mark(Load, 1)]
  {
    var q := InitialState(names);
    RegisterFirstLoad(q, LoadQueryOf(w));
    es := RegisterOne(names, [], LoadQueryOf(w), RegisterTask(q, LoadQueryOf(w), []).0, LoadOf(w));
  }

  lemma DropQueued(w: Setup, q: TaskState, d: nat)
    requires Unloaded(w, q, []) && q.dm.lastScheduledTable == map[w.a := D.Mark(Load, 1)]
    ensures var (q', item) := RegisterTask(q, DropQueryOf(w, d), []);
            && item == Some(DropOf(w, d)) && Unloaded(w, q', [DropOf(w, d)])
            && q'.loadQueue == q.loadQueue && q'.barriers == q.barriers && q'.readyToFetch == q.readyToFetch
            && q'.dm.lastScheduledFile == q.dm.lastScheduledFile && q'.dm.lastScheduledTable.Keys == {w.a}
  {
    RegisterDrop(q, DropQueryOf(w, d), D.Mark(Load, 1));
    assert [] + [DropOf(w, d)] == [DropOf(w, d)];
  }

  /** LOAD a has completed and the DROP is next. */
  ghost predicate Loaded(w: Setup, q: TaskState, d: nat) {
    && QueueOf(q, w.a) == [DropOf(w, d)] && OnlyLive(q.index, w.a)
    && D.LastCompletedFor(q.dm, D.Table, w.a) >= 1 && Unwaited(q.dm)
  }

  lemma FetchFirst(w: Setup, q: TaskState, d: nat, rest: seq<LoadItem>)
    requires Unloaded(w, q, [DropOf(w, d)]) && q.loadQueue == [LoadOf(w)] + rest && q.readyToFetch
    requires q.barriers == [] || q.barriers[0].seqno >= 1
    ensures FetchNext(q) == (Started(q.(loadQueue := rest)), Run(LoadTask(w)))
  {
    assert q.loadQueue[1..] == rest;
    FetchLoad(q);
  }

  lemma CompleteFirst(w: Setup, q: TaskState, d: nat)
    requires QueueOf(q, w.a) == [DropOf(w, d)] && !TableAt(q.tables, w.a).registered && q.index == G.Index([], map[])
    requires Unwaited(q.dm) && d > 1
    ensures var q' := OnCompleted(q, LoadTask(w));
            && Loaded(w, q', d)
            && q' == q.(tables := q'.tables, index := q'.index, dm := q'.dm)
  {
    CompleteLoad(q, LoadOf(w));
    var q1 := q.(tables := q.tables[w.a := TableQueue(true, 1, QueueOf(q, w.a))]);
    assert G.LiveTables(q1.index) == {};
    PutOnly(q1, w.a);
    var q2 := UpsertHead(q1, w.a).(dm := OnCompleted(q, LoadTask(w)).dm);
    PutOnly(q2, w.a);
  }

  /** Registration is over, nothing has been fetched. */
  ghost predicate Begun(s: Sys) {
    s.inflight == map[] && s.executed == {} && Completed(s) == {} && !s.crashed && s.q.readyToFetch
  }

  /** LOAD a is the only task that has run, and its counters are still to be updated. */
  ghost predicate RanLoad(w: Setup, before: Sys, s: Sys, d: nat, rest: seq<LoadItem>) {
    && s.inflight == map[] && s.executed == {1} && Completed(s) == s.retiring == {1}
    && !s.crashed && s.acc == before.acc
    && Loaded(w, s.q, d)
    && s.q == Started(before.q.(tables := s.q.tables, index := s.q.index, dm := s.q.dm, loadQueue := rest))
  }

  /** LOAD a is in flight. */
  ghost predicate LoadFetched(w: Setup, before: Sys, s: Sys, d: nat, rest: seq<LoadItem>) {
    && s.inflight == map[1 := LoadTask(w)] && s.executed == {} && Completed(s) == {}
    && !s.crashed && s.acc == before.acc
    && s.q == Started(before.q.(loadQueue := rest))
    && QueueOf(s.q, w.a) == [DropOf(w, d)] && !TableAt(s.q.tables, w.a).registered && s.q.index == G.Index([], map[])
    && Unwaited(s.q.dm)
  }

  lemma FetchTheLoad(w: Setup, names: map<string, string>, es: seq<Event>, d: nat, rest: seq<LoadItem>)
    returns (more: seq<Event>)
    requires IsRun(names, es) && Begun(After(names, es))
    requires var q := After(names, es).q;
             && Unloaded(w, q, [DropOf(w, d)]) && q.loadQueue == [LoadOf(w)] + rest
             && (q.barriers == [] || q.barriers[0].seqno >= 1)
    ensures IsRun(names, more) && LoadFetched(w, After(names, es), After(names, more), d, rest)
  {
    var q := After(names, es).q;
    FetchFirst(w, q, d, rest);
    more := FetchOne(names, es, Started(q.(loadQueue := rest)), LoadTask(w));
  }

  lemma RunTheLoad(w: Setup, names: map<string, string>, es: seq<Event>, before: Sys, d: nat, rest: seq<LoadItem>)
    returns (more: seq<Event>)
    requires IsRun(names, es) && LoadFetched(w, before, After(names, es), d, rest) && d > 1
    ensures IsRun(names, more) && RanLoad(w, before, After(names, more), d, rest)
  {
    var s := After(names, es);
    CompleteFirst(w, s.q, d);
    var q' := OnCompleted(s.q, LoadTask(w));
    more := RunOne(names, es, 1, q');
    RanTheLoad(w, before, s, q', d, rest);
  }

  lemma RanTheLoad(w: Setup, before: Sys, s: Sys, q': TaskState, d: nat, rest: seq<LoadItem>)
    requires LoadFetched(w, before, s, d, rest) && Loaded(w, q', d)
    requires q' == s.q.(tables := q'.tables, index := q'.index, dm := q'.dm)
    ensures RanLoad(w, before, Ran(s, 1, q'), d, rest)
  {
    assert Ran(s, 1, q').inflight == map[];
  }

  lemma RunFirst(w: Setup, names: map<string, string>, es: seq<Event>, d: nat, rest: seq<LoadItem>)
    returns (more: seq<Event>)
    requires IsRun(names, es) && Begun(After(names, es)) && d > 1
    requires var q := After(names, es).q;
             && Unloaded(w, q, [DropOf(w, d)]) && q.loadQueue == [LoadOf(w)] + rest
             && (q.barriers == [] || q.barriers[0].seqno >= 1)
    ensures IsRun(names, more) && RanLoad(w, After(names, es), After(names, more), d, rest)
  {
    more := FetchTheLoad(w, names, es, d, rest);
    more := RunTheLoad(w, names, more, After(names, es), d, rest);
  }
}
