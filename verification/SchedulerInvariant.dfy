/**
  The invariant of the whole scheduler, and what follows from it for every run:
  file order, barrier order, discharge of dependencies.
*/
module SchedulerInvariant {
  import opened SchedulerTypes
  import opened TaskQueueSpec
  import opened SchedulerSystem
  import opened WaitingSpec
  import opened Conservation
  import D = DependencySpec
  import R = RegistrationSpec

  /** Completed items have announced themselves on their tables. */
  ghost predicate TablesAnnounced(acc: Accepted, done: set<nat>, dm: D.DepState) {
    forall n: nat, k :: n in done && n in acc && k in NotifiedTables(acc[n]) ==> n <= D.LastCompletedFor(dm, D.Table, k)
  }

  /** Completed items have announced themselves on their file, and files record nothing else. */
  ghost predicate FilesAnnounced(acc: Accepted, done: set<nat>, dm: D.DepState) {
    && (forall n: nat, f :: n in done && n in acc && UsesFile(acc[n], f) ==> n <= D.LastCompletedFor(dm, D.File, f))
    && (forall f :: var c := D.LastCompletedFor(dm, D.File, f);
          c == 0 || (c in done && c in acc && UsesFile(acc[c], f)))
  }

  ghost predicate Announced(acc: Accepted, done: set<nat>, dm: D.DepState) {
    TablesAnnounced(acc, done, dm) && FilesAnnounced(acc, done, dm)
  }

  predicate Dispatched(s: Sys, n: nat) {
    n in s.inflight || n in Completed(s)
  }

  predicate ShareFile(a: Item, b: Item) {
    (a.kind == Load || a.kind == Dump) && UsesFile(b, a.depends.filePath)
  }

  /** An operation on a file is dispatched only after every earlier one on that file has completed. */
  ghost predicate FilesInOrder(s: Sys) {
    forall m, n {:trigger ShareFile(s.acc[m], s.acc[n])} ::
      m in s.acc && n in s.acc && m < n && ShareFile(s.acc[m], s.acc[n]) && Dispatched(s, n) ==> m in Completed(s)
  }

  /** Everything dispatched precedes every barrier that is still pending. */
  ghost predicate BarriersAhead(s: Sys) {
    forall n: nat, b :: Dispatched(s, n) && b in s.q.barriers ==> n < b.seqno
  }

  // The dispatch history h: each item once; nothing but finished, earlier items
  // before a barrier; on each file ascending.

  ghost predicate Distinct(h: seq<Item>) {
    forall i, j :: 0 <= i < j < |h| ==> h[i].seqno != h[j].seqno
  }

  ghost predicate BarriersFence(h: seq<Item>, finished: set<nat>) {
    forall i, j :: 0 <= i < j < |h| && IsBarrier(h[j].kind) ==> h[i].seqno in finished && h[i].seqno < h[j].seqno
  }

  ghost predicate FilesAscend(h: seq<Item>) {
    forall i, j :: 0 <= i < j < |h| && ShareFile(h[i], h[j]) ==> h[i].seqno < h[j].seqno
  }

  predicate Occurring(h: seq<Item>, n: nat) {
    exists i :: 0 <= i < |h| && h[i].seqno == n
  }

  ghost predicate Listed(s: Sys) {
    && (forall i :: 0 <= i < |s.dispatched| ==> Known(s.acc, s.dispatched[i]))
    && (forall n: nat :: Occurring(s.dispatched, n) <==> Dispatched(s, n))
  }

  ghost predicate HistoryOk(s: Sys) {
    Listed(s) && Distinct(s.dispatched) && BarriersFence(s.dispatched, s.finished) && FilesAscend(s.dispatched)
  }

  ghost predicate CountersOk(s: Sys) {
    && s.q.running == |s.inflight| + |s.retiring|
    && s.q.completed == |s.finished|
    && (s.q.quitFlag ==> s.q.readyToFetch)
  }

  ghost predicate TasksOk(s: Sys) {
    forall n :: n in s.inflight ==> Known(s.acc, s.inflight[n].item) && TaskOk(s.inflight[n])
  }

  ghost predicate Inv(s: Sys) {
    && Conserved(s)
    && Chained(s.acc) && MarksCurrent(s.acc, s.q.dm) && WellPlaced(s.acc, s.q)
    && TasksOk(s)
    && Announced(s.acc, Completed(s), s.q.dm)
    && FilesInOrder(s) && BarriersAhead(s) && HistoryOk(s) && CountersOk(s)
  }

  // ----- what the conservation law says about single numbers -----

  lemma DispatchedIsAccepted(s: Sys, n: nat)
    requires Conserved(s) && Dispatched(s, n)
    ensures n in s.acc
    ensures n in s.inflight ==> n !in Completed(s)
    ensures n in s.retiring ==> n !in s.finished
  {
    assert Places(s, n) == Occurs(n, s.acc.Keys);
  }

  lemma HeldIsFresh(s: Sys, n: nat)
    requires Conserved(s) && Held(Id(n), s.q) > 0
    ensures n in s.acc && !Dispatched(s, n)
  {
    assert Places(s, n) == Occurs(n, s.acc.Keys);
  }

  /** A fetched task was held by the queue. */
  lemma FetchedIsFresh(s: Sys)
    requires Conserved(s) && FetchNext(s.q).1.Run?
    ensures var n := FetchNext(s.q).1.task.item.seqno; n in s.acc && !Dispatched(s, n)
  {
    var n := FetchNext(s.q).1.task.item.seqno;
    FetchLoopHeld(Id(n), s.q);
    HeldIsFresh(s, n);
  }

  // ----- file order -----

  /** When the dependencies of x are met, every earlier operation on its file has completed. */
  lemma EarlierOnFileCompleted(s: Sys, dm: D.DepState, x: Item, m: nat)
    requires Numbered(s.acc) && FilesChained(s.acc) && FilesAnnounced(s.acc, Completed(s), dm) && FilesInOrder(s)
    requires Known(s.acc, x) && DepsMet(dm, x) && !Dispatched(s, x.seqno)
    requires m in s.acc && m < x.seqno && ShareFile(s.acc[m], x)
    ensures m in Completed(s)
  {
    var a := s.acc[x.seqno];
    var f := x.depends.filePath;
    assert FileChained(s.acc[m], a) && FileDepNamed(s.acc, a);
    var d := FileDep(a);
    var c := D.LastCompletedFor(dm, D.File, f);
    assert c in s.acc ==> FileChained(s.acc[c], a);
    assert m <= d <= c && c in Completed(s) && UsesFile(s.acc[c], f);
    if c > d {
      if c >= x.seqno {
        assert ShareFile(a, s.acc[c]);
        assert false;
      }
    }
    assert ShareFile(s.acc[m], s.acc[c]) && Dispatched(s, c);
  }

  // ----- dispatch -----

  lemma SameRecordsKeep(acc: Accepted, done: set<nat>, dm: D.DepState, dm': D.DepState)
    requires SameRecords(dm, dm')
    ensures MarksCurrent(acc, dm) ==> MarksCurrent(acc, dm')
    ensures Announced(acc, done, dm) ==> Announced(acc, done, dm')
  {
    assert forall ty, k :: D.LastCompletedFor(dm', ty, k) == D.LastCompletedFor(dm, ty, k);
  }

  lemma DispatchFiles(s: Sys, q': TaskState, task: Task)
    requires Numbered(s.acc) && FilesChained(s.acc) && FilesAnnounced(s.acc, Completed(s), s.q.dm) && FilesInOrder(s)
    requires Known(s.acc, task.item) && DepsMet(s.q.dm, task.item) && !Dispatched(s, task.item.seqno)
    ensures FilesInOrder(Dispatch(s, q', task))
  {
    var s' := Dispatch(s, q', task);
    var x := task.item;
    forall m, n | m in s.acc && n in s.acc && m < n && ShareFile(s.acc[m], s.acc[n]) && Dispatched(s', n)
      ensures m in Completed(s')
    {
      if n == x.seqno {
        EarlierOnFileCompleted(s, s.q.dm, x, m);
      } else {
        assert Dispatched(s, n);
      }
    }
  }

  lemma DispatchBarriers(s: Sys, q': TaskState, task: Task)
    requires BarriersAhead(s) && DispatchOk(s.acc, s.q, q', task)
    ensures BarriersAhead(Dispatch(s, q', task))
  {
    var s' := Dispatch(s, q', task);
    forall n: nat, b | Dispatched(s', n) && b in q'.barriers ensures n < b.seqno {
      if n != task.item.seqno {
        assert Dispatched(s, n) && b in s.q.barriers;
      }
    }
  }

  lemma EmptyInflight(s: Sys)
    requires CountersOk(s) && s.q.running == 0
    ensures s.inflight == map[] && s.retiring == {}
  {
  }

  lemma HistoryEntry(s: Sys, i: nat)
    requires Listed(s) && i < |s.dispatched|
    ensures Dispatched(s, s.dispatched[i].seqno)
  {
    assert Occurring(s.dispatched, s.dispatched[i].seqno);
  }

  /** At the moment a barrier is dispatched everything dispatched before has finished and precedes it. */
  lemma BarrierFinds(s: Sys, q': TaskState, task: Task, i: nat)
    requires CountersOk(s) && BarriersAhead(s) && Listed(s) && DispatchOk(s.acc, s.q, q', task)
    requires IsBarrier(task.item.kind) && i < |s.dispatched|
    ensures s.dispatched[i].seqno in s.finished && s.dispatched[i].seqno < task.item.seqno
  {
    EmptyInflight(s);
    HistoryEntry(s, i);
    assert task.item in s.q.barriers;
  }

  /** Nothing later on the same file has been dispatched before. */
  lemma NoLaterOnFile(s: Sys, x: Item, i: nat)
    requires FilesInOrder(s) && Listed(s) && Known(s.acc, x) && !Dispatched(s, x.seqno)
    requires i < |s.dispatched| && ShareFile(s.dispatched[i], x)
    ensures s.dispatched[i].seqno < x.seqno
  {
    var y := s.dispatched[i];
    HistoryEntry(s, i);
    assert ShareFile(s.acc[x.seqno], s.acc[y.seqno]);
  }

  lemma OccurringGrows(h: seq<Item>, x: Item, n: nat)
    ensures Occurring(h + [x], n) <==> Occurring(h, n) || n == x.seqno
  {
    if Occurring(h, n) {
      var i :| 0 <= i < |h| && h[i].seqno == n;
      assert (h + [x])[i].seqno == n;
    }
    if n == x.seqno {
      assert (h + [x])[|h|].seqno == n;
    }
  }

  lemma DispatchHistory(s: Sys, q': TaskState, task: Task)
    requires HistoryOk(s) && Known(s.acc, task.item) && !Dispatched(s, task.item.seqno)
    requires IsBarrier(task.item.kind) ==> forall i :: 0 <= i < |s.dispatched| ==>
               s.dispatched[i].seqno in s.finished && s.dispatched[i].seqno < task.item.seqno
    requires forall i :: 0 <= i < |s.dispatched| && ShareFile(s.dispatched[i], task.item) ==>
               s.dispatched[i].seqno < task.item.seqno
    ensures HistoryOk(Dispatch(s, q', task))
  {
    var s' := Dispatch(s, q', task);
    var x := task.item;
    forall n: nat ensures Occurring(s'.dispatched, n) <==> Dispatched(s', n) {
      OccurringGrows(s.dispatched, x, n);
      assert Occurring(s.dispatched, n) <==> Dispatched(s, n);
    }
    OccurringGrows(s.dispatched, x, x.seqno);
    forall i | 0 <= i < |s.dispatched| ensures s.dispatched[i].seqno != x.seqno {
      HistoryEntry(s, i);
    }
  }

  lemma DispatchCounters(s: Sys, q': TaskState, task: Task)
    requires CountersOk(s) && task.item.seqno !in s.inflight && q'.running == s.q.running + 1
    requires q'.completed == s.q.completed && q'.readyToFetch
    ensures CountersOk(Dispatch(s, q', task))
  {
    var s' := Dispatch(s, q', task);
    assert s'.inflight.Keys == s.inflight.Keys + {task.item.seqno};
    assert |s'.inflight| == |s'.inflight.Keys| && |s.inflight| == |s.inflight.Keys|;
  }

  lemma DispatchKeeps(s: Sys, q': TaskState, task: Task)
    requires Inv(s) && Conserved(Dispatch(s, q', task))
    requires WellPlaced(s.acc, q') && SameRecords(s.q.dm, q'.dm)
    requires DispatchOk(s.acc, s.q, q', task)
    requires !Dispatched(s, task.item.seqno)
    requires q'.completed == s.q.completed && q'.readyToFetch
    ensures Inv(Dispatch(s, q', task))
  {
    var s' := Dispatch(s, q', task);
    SameRecordsKeep(s.acc, Completed(s), s.q.dm, q'.dm);
    DispatchFiles(s, q', task);
    DispatchBarriers(s, q', task);
    forall i: nat | IsBarrier(task.item.kind) && i < |s.dispatched|
      ensures s.dispatched[i].seqno in s.finished && s.dispatched[i].seqno < task.item.seqno
    {
      BarrierFinds(s, q', task, i);
    }
    forall i: nat | i < |s.dispatched| && ShareFile(s.dispatched[i], task.item)
      ensures s.dispatched[i].seqno < task.item.seqno
    {
      NoLaterOnFile(s, task.item, i);
    }
    DispatchHistory(s, q', task);
    DispatchCounters(s, q', task);
    assert Completed(s') == Completed(s);
  }

  /** The fetch loop leaves the completion counter and the flags alone. */
  lemma {:induction false} FetchLoopFrame(s: TaskState)
    ensures var s' := FetchLoop(s).0;
            && s'.completed == s.completed && s'.readyToFetch == s.readyToFetch
            && (s.readyToFetch || s'.quitFlag == s.quitFlag || FetchLoop(s).1.Run?)
    decreases |s.loadQueue| + |s.index.heap|
  {
    FetchTurnShrinks(s);
    FetchTurnFrame(s);
    if FetchTurn(s).Again? {
      FetchLoopFrame(FetchTurn(s).next);
    }
  }

  lemma FetchTurnFrame(s: TaskState)
    ensures var s' := FetchTurn(s).next;
            && s'.completed == s.completed && s'.readyToFetch == s.readyToFetch
            && (FetchTurn(s).Again? || !FetchTurn(s).outcome.Run? ==> s'.quitFlag == s.quitFlag)
  {
    var (s1, load) := TakeLoad(s);
    var (s2, t) := PickTable(s1);
    if t == None && load == None {
      assert FetchBarrier(s2).1 != NoTask ==> FetchBarrier(s2).1.Run?;
    } else if load.Some? && (t == None || PreferLoad(load.value, QueueOf(s2, t.value)[0])) {
      LoadTurnFrame(s2, load.value);
    } else {
      TableTurnFrame(s2, load, t.value);
    }
  }

  lemma LoadTurnFrame(s: TaskState, x: LoadItem)
    ensures var s' := LoadTurn(s, x).next;
            s'.completed == s.completed && s'.readyToFetch == s.readyToFetch && s'.quitFlag == s.quitFlag
  {
  }

  lemma TableTurnFrame(s: TaskState, load: Option<LoadItem>, t: string)
    requires QueueOf(s, t) != []
    ensures var s' := TableTurn(s, load, t).next;
            s'.completed == s.completed && s'.readyToFetch == s.readyToFetch && s'.quitFlag == s.quitFlag
  {
  }

  lemma FetchKeeps(s: Sys)
    requires Inv(s)
    ensures Inv(Step(s, Fetch))
  {
    FetchConserves(s);
    if s.q.readyToFetch {
      var (q', outcome) := FetchLoop(s.q);
      FetchLoopOk(s.acc, s.q);
      FetchLoopFrame(s.q);
      if outcome.Run? {
        FetchedIsFresh(s);
        DispatchKeeps(s, q', outcome.task);
      } else {
        IdleKeeps(s, q', outcome == Crash || s.crashed);
      }
    }
  }

  lemma IdleKeeps(s: Sys, q': TaskState, crashed: bool)
    requires Inv(s) && WellPlaced(s.acc, q') && SameRecords(s.q.dm, q'.dm)
    requires q'.barriers == s.q.barriers && q'.running == s.q.running && q'.completed == s.q.completed
    requires q'.quitFlag ==> q'.readyToFetch
    requires Conserved(s.(q := q', crashed := crashed))
    ensures Inv(s.(q := q', crashed := crashed))
  {
    SameRecordsKeep(s.acc, Completed(s), s.q.dm, q'.dm);
    var s' := s.(q := q', crashed := crashed);
    IdleHistory(s, q', crashed);
    assert FilesInOrder(s') && BarriersAhead(s') by {
      assert forall n: nat :: Dispatched(s', n) == Dispatched(s, n);
    }
  }

  lemma IdleHistory(s: Sys, q': TaskState, crashed: bool)
    requires HistoryOk(s)
    ensures HistoryOk(s.(q := q', crashed := crashed))
  {
    var s' := s.(q := q', crashed := crashed);
    forall n: nat ensures Occurring(s'.dispatched, n) <==> Dispatched(s', n) {
      assert Occurring(s.dispatched, n) <==> Dispatched(s, n);
    }
  }

  // ----- completion -----

  lemma WakeSameRecords(s: TaskState, ty: D.DepType, x: Item)
    ensures SameRecords(s.dm, Wake(s, ty, x).dm)
  {
  }

  lemma {:induction false} WakeAllSameRecords(s: TaskState, ty: D.DepType, xs: seq<Item>)
    ensures SameRecords(s.dm, WakeAll(s, ty, xs).dm)
    decreases |xs|
  {
    if xs != [] {
      WakeSameRecords(s, ty, xs[0]);
      WakeAllSameRecords(Wake(s, ty, xs[0]), ty, xs[1..]);
    }
  }

  /** A completion touches the tables, the index, the LOAD queue and the dependency records only. */
  lemma UpdateDepsFrame(s: TaskState, x: Item)
    ensures var s' := ApplyUpdateDeps(s, x);
            && s' == s.(tables := s'.tables, index := s'.index, loadQueue := s'.loadQueue, dm := s'.dm)
            && SameRecords(UpdateDependencyRecords(s, x).0.dm, s'.dm)
  {
    var (s1, files, tables) := UpdateDependencyRecords(s, x);
    assert s1 == s.(tables := s1.tables, dm := s1.dm);
    WakeAllSameRecords(s1, D.File, files);
    WakeAllSameRecords(WakeAll(s1, D.File, files), D.Table, tables);
  }

  lemma NotifyRecords(dm: D.DepState, ty: D.DepType, k: string, seqno: nat, of: D.DepType, j: string)
    ensures var dm' := D.NotifyCompleted(dm, ty, k, seqno).0;
            var before := D.LastCompletedFor(dm, of, j);
            && D.LastCompletedFor(dm', of, j) == (if of == ty && j == k && seqno > before then seqno else before)
            && dm'.lastScheduledFile == dm.lastScheduledFile && dm'.lastScheduledTable == dm.lastScheduledTable
  {
    var noted := D.WithCompleted(dm, ty, k, seqno);
    assert D.LastCompletedFor(noted, of, j) == if of == ty && j == k then seqno else D.LastCompletedFor(dm, of, j);
    var dm' := D.NotifyCompleted(dm, ty, k, seqno).0;
    if seqno >= D.LastCompletedFor(dm, ty, k) {
      assert SameRecords(noted, dm');
    }
  }

  lemma {:induction false} NotifyTablesRecords(dm: D.DepState, keys: seq<string>, seqno: nat, of: D.DepType, j: string)
    ensures var dm' := D.NotifyTables(dm, keys, seqno).0;
            var before := D.LastCompletedFor(dm, of, j);
            && D.LastCompletedFor(dm', of, j) ==
                  (if of == D.Table && j in keys && seqno > before then seqno else before)
            && dm'.lastScheduledFile == dm.lastScheduledFile && dm'.lastScheduledTable == dm.lastScheduledTable
    decreases |keys|
  {
    if keys != [] {
      var dm1 := D.NotifyCompleted(dm, D.Table, keys[0], seqno).0;
      NotifyRecords(dm, D.Table, keys[0], seqno, of, j);
      NotifyTablesRecords(dm1, keys[1..], seqno, of, j);
    }
  }

  /** A completion raises exactly the records of its file and of the tables it notifies. */
  ghost predicate RecordsRaised(dm: D.DepState, dm': D.DepState, x: Item) {
    && (forall k :: D.LastCompletedFor(dm', D.Table, k) ==
          if k in NotifiedTables(x) && x.seqno > D.LastCompletedFor(dm, D.Table, k) then x.seqno
          else D.LastCompletedFor(dm, D.Table, k))
    && (forall f :: D.LastCompletedFor(dm', D.File, f) ==
          if UsesFile(x, f) && x.seqno > D.LastCompletedFor(dm, D.File, f) then x.seqno
          else D.LastCompletedFor(dm, D.File, f))
    && dm'.lastScheduledFile == dm.lastScheduledFile && dm'.lastScheduledTable == dm.lastScheduledTable
  }

  lemma UpdateRecordsRaise(s: TaskState, x: Item)
    ensures RecordsRaised(s.dm, UpdateDependencyRecords(s, x).0.dm, x)
  {
    var dm1 :=
      if x.kind == Load || x.kind == Dump then
        D.NotifyCompleted(s.dm, D.File, x.depends.filePath, x.seqno).0
      else s.dm;
    var dm2 := D.NotifyTables(dm1, NotifiedTables(x), x.seqno).0;
    assert UpdateDependencyRecords(s, x).0.dm == dm2;
    forall of, j
      ensures D.LastCompletedFor(dm1, of, j) ==
              (if of == D.File && UsesFile(x, j) && x.seqno > D.LastCompletedFor(s.dm, of, j) then x.seqno
               else D.LastCompletedFor(s.dm, of, j))
    {
      if x.kind == Load || x.kind == Dump {
        NotifyRecords(s.dm, D.File, x.depends.filePath, x.seqno, of, j);
      }
    }
    forall of, j
      ensures D.LastCompletedFor(dm2, of, j) ==
              (if of == D.Table && j in NotifiedTables(x) && x.seqno > D.LastCompletedFor(dm1, of, j) then x.seqno
               else D.LastCompletedFor(dm1, of, j))
    {
      NotifyTablesRecords(dm1, NotifiedTables(x), x.seqno, of, j);
    }
    NotifyTablesRecords(dm1, NotifiedTables(x), x.seqno, D.File, "");
  }

  lemma OnCompletedFrame(s: TaskState, task: Task)
    requires TaskOk(task)
    ensures var s' := OnCompleted(s, task);
            && s' == s.(tables := s'.tables, index := s'.index, loadQueue := s'.loadQueue, dm := s'.dm)
            && RecordsRaised(s.dm, s'.dm, task.item)
  {
    var x := task.item;
    var s1 := if |task.actions| == 2 then ApplyRegisterTable(s, x) else s;
    if task.actions == [] {
      assert NotifiedTables(x) == [];
    } else {
      ActionsUnfold(s, task);
      UpdateDepsFrame(s1, x);
      UpdateRecordsRaise(s1, x);
      RaisedThenSame(s.dm, UpdateDependencyRecords(s1, x).0.dm, ApplyUpdateDeps(s1, x).dm, x);
    }
  }

  lemma RaisedThenSame(dm: D.DepState, dm1: D.DepState, dm2: D.DepState, x: Item)
    requires RecordsRaised(dm, dm1, x) && SameRecords(dm1, dm2)
    ensures RecordsRaised(dm, dm2, x)
  {
    assert forall ty, k :: D.LastCompletedFor(dm2, ty, k) == D.LastCompletedFor(dm1, ty, k);
  }


  lemma NotifiedSame(acc: Accepted, x: Item)
    requires Known(acc, x)
    ensures NotifiedTables(x) == NotifiedTables(acc[x.seqno])
    ensures forall f :: UsesFile(x, f) <==> UsesFile(acc[x.seqno], f)
  {
  }

  lemma AnnounceMore(acc: Accepted, done: set<nat>, dm: D.DepState, dm': D.DepState, x: Item)
    requires Announced(acc, done, dm) && RecordsRaised(dm, dm', x) && Known(acc, x)
    ensures Announced(acc, done + {x.seqno}, dm')
  {
    NotifiedSame(acc, x);
  }

  lemma MarksUnmoved(acc: Accepted, dm: D.DepState, dm': D.DepState)
    requires MarksCurrent(acc, dm)
    requires dm'.lastScheduledFile == dm.lastScheduledFile && dm'.lastScheduledTable == dm.lastScheduledTable
    ensures MarksCurrent(acc, dm')
  {
  }

  /** The state after the completion actions of m. */
  function Acted(s: Sys, q': TaskState, m: nat): Sys {
    s.(q := q', inflight := s.inflight - {m}, retiring := s.retiring + {m})
  }

  lemma ActedOrder(s: Sys, q': TaskState, m: nat)
    requires m in s.inflight && q'.barriers == s.q.barriers
    requires FilesInOrder(s) && BarriersAhead(s) && HistoryOk(s)
    ensures FilesInOrder(Acted(s, q', m)) && BarriersAhead(Acted(s, q', m)) && HistoryOk(Acted(s, q', m))
  {
    var s' := Acted(s, q', m);
    assert forall n: nat :: Dispatched(s', n) == Dispatched(s, n);
  }

  lemma ActedCounters(s: Sys, q': TaskState, m: nat)
    requires CountersOk(s) && m in s.inflight && m !in s.retiring
    requires q'.running == s.q.running && q'.completed == s.q.completed
    requires q'.quitFlag == s.q.quitFlag && q'.readyToFetch == s.q.readyToFetch
    ensures CountersOk(Acted(s, q', m))
  {
    var s' := Acted(s, q', m);
    assert s'.inflight.Keys == s.inflight.Keys - {m};
    assert |s'.inflight| == |s'.inflight.Keys| && |s.inflight| == |s.inflight.Keys|;
  }

  lemma CompleteIsActed(s: Sys, m: nat)
    requires m in s.inflight
    ensures Step(s, Complete(m)) == Acted(s, OnCompleted(s.q, s.inflight[m]), m)
  {
  }

  lemma CompleteKeeps(s: Sys, m: nat)
    requires Inv(s) && m in s.inflight
    ensures Inv(Step(s, Complete(m)))
  {
    CompleteIsActed(s, m);
    var task := s.inflight[m];
    var q' := OnCompleted(s.q, task);
    CompleteConserves(s, m);
    OnCompletedPlaced(s.acc, s.q, task);
    OnCompletedFrame(s.q, task);
    ActedKeeps(s, q', m);
  }

  lemma ActedKeeps(s: Sys, q': TaskState, m: nat)
    requires Inv(s) && m in s.inflight && Conserved(Acted(s, q', m)) && WellPlaced(s.acc, q')
    requires q' == s.q.(tables := q'.tables, index := q'.index, loadQueue := q'.loadQueue, dm := q'.dm)
    requires RecordsRaised(s.q.dm, q'.dm, s.inflight[m].item)
    ensures Inv(Acted(s, q', m))
  {
    var s' := Acted(s, q', m);
    DispatchedIsAccepted(s, m);
    MarksUnmoved(s.acc, s.q.dm, q'.dm);
    AnnounceMore(s.acc, Completed(s), s.q.dm, q'.dm, s.inflight[m].item);
    assert Completed(s') == Completed(s) + {m};
    ActedOrder(s, q', m);
    ActedCounters(s, q', m);
  }

  // ----- the other events -----

  lemma RegisterFrame(s: TaskState, q: Query, order: seq<string>)
    requires !s.quitFlag
    ensures var (s', item) := RegisterTask(s, q, order);
            var (dm', x) := D.MarkScheduled(s.dm, q, order);
            && item == Some(x) && s'.dm == dm'
            && (forall b :: b in s'.barriers ==> b in s.barriers || b == x)
            && s'.running == s.running && s'.completed == s.completed
            && s'.quitFlag == s.quitFlag && s'.readyToFetch == s.readyToFetch
  {
  }

  lemma AnnouncedStays(acc: Accepted, done: set<nat>, dm: D.DepState, dm': D.DepState, x: Item)
    requires Announced(acc, done, dm) && x.seqno !in acc && (forall n :: n in done ==> n in acc)
    requires dm'.lastCompletedFile == dm.lastCompletedFile && dm'.lastCompletedTable == dm.lastCompletedTable
    ensures Announced(acc[x.seqno := x], done, dm')
  {
    assert forall ty, k :: D.LastCompletedFor(dm', ty, k) == D.LastCompletedFor(dm, ty, k);
  }

  lemma RegisterKeeps(s: Sys, q: Query, order: seq<string>)
    requires Inv(s) && Enabled(s, Register(q, order))
    ensures Inv(Step(s, Register(q, order)))
  {
    var q' := RegisterTask(s.q, q, order).0;
    RegisterConserves(s, q, order);
    RegisterFrame(s.q, q, order);
    R.RegisterPlaced(s.acc, s.q, q, order);
    RegisteredKeeps(s, q, order, q');
  }

  lemma RegisteredKeeps(s: Sys, q: Query, order: seq<string>, q': TaskState)
    requires Inv(s) && R.NextQuery(s.acc, s.q.dm, q, order) && q'.dm == D.MarkScheduled(s.q.dm, q, order).0
    requires forall b :: b in q'.barriers ==> b in s.q.barriers || b == D.MarkScheduled(s.q.dm, q, order).1
    requires q'.running == s.q.running && q'.completed == s.q.completed
    requires q'.quitFlag == s.q.quitFlag && q'.readyToFetch == s.q.readyToFetch
    requires var s' := s.(q := q', acc := s.acc[q.seqno := D.MarkScheduled(s.q.dm, q, order).1]);
             Conserved(s') && WellPlaced(s'.acc, q')
    ensures Inv(s.(q := q', acc := s.acc[q.seqno := D.MarkScheduled(s.q.dm, q, order).1]))
  {
    var x := D.MarkScheduled(s.q.dm, q, order).1;
    RegisteredChains(s, q, order, q', x);
    NewIsLast(s, q', x);
    var s' := s.(q := q', acc := s.acc[q.seqno := x]);
    assert Completed(s') == Completed(s);
    assert CountersOk(s');
  }

  lemma RegisteredChains(s: Sys, q: Query, order: seq<string>, q': TaskState, x: Item)
    requires Conserved(s) && Chained(s.acc) && MarksCurrent(s.acc, s.q.dm) && Announced(s.acc, Completed(s), s.q.dm)
    requires R.NextQuery(s.acc, s.q.dm, q, order) && (q'.dm, x) == D.MarkScheduled(s.q.dm, q, order)
    ensures var acc' := s.acc[q.seqno := x];
            Chained(acc') && MarksCurrent(acc', q'.dm) && Announced(acc', Completed(s), q'.dm)
  {
    R.RegisterChains(s.acc, s.q.dm, q, order);
    R.RegisterMarksFile(s.acc, s.q.dm, q, order);
    R.RegisterMarksTable(s.acc, s.q.dm, q, order);
    forall n | n in Completed(s) ensures n in s.acc {
      DispatchedIsAccepted(s, n);
    }
    AnnouncedStays(s.acc, Completed(s), s.q.dm, q'.dm, x);
  }

  /** A new item changes nothing about what has been dispatched. */
  lemma NewIsLast(s: Sys, q': TaskState, x: Item)
    requires Conserved(s) && TasksOk(s) && FilesInOrder(s) && BarriersAhead(s) && HistoryOk(s)
    requires forall n :: n in s.acc ==> n < x.seqno
    requires forall b :: b in q'.barriers ==> b in s.q.barriers || b == x
    ensures var s' := s.(q := q', acc := s.acc[x.seqno := x]);
            TasksOk(s') && FilesInOrder(s') && BarriersAhead(s') && HistoryOk(s')
  {
    var s' := s.(q := q', acc := s.acc[x.seqno := x]);
    forall n: nat | Dispatched(s', n) ensures n in s.acc && Dispatched(s, n) {
      DispatchedIsAccepted(s, n);
    }
    forall n: nat ensures Occurring(s'.dispatched, n) <==> Dispatched(s', n) {
      assert Occurring(s.dispatched, n) <==> Dispatched(s, n);
    }
    forall m, n | m in s'.acc && n in s'.acc && m < n && ShareFile(s'.acc[m], s'.acc[n]) && Dispatched(s', n)
      ensures m in Completed(s')
    {
      assert s'.acc[m] == s.acc[m] && s'.acc[n] == s.acc[n];
      assert ShareFile(s.acc[m], s.acc[n]);
    }
  }

  lemma FinishKeeps(s: Sys, m: nat)
    requires Inv(s) && m in s.retiring
    ensures Inv(Step(s, Finish(m)))
  {
    FinishConserves(s, m);
    DispatchedIsAccepted(s, m);
    var s' := s.(q := Retire(s.q), retiring := s.retiring - {m}, finished := s.finished + {m});
    assert Completed(s') == Completed(s);
    assert forall n: nat :: Dispatched(s', n) == Dispatched(s, n);
    FinishHistory(s, m);
  }

  lemma FinishHistory(s: Sys, m: nat)
    requires HistoryOk(s) && s.q.running > 0 && m in s.retiring
    ensures HistoryOk(s.(q := Retire(s.q), retiring := s.retiring - {m}, finished := s.finished + {m}))
  {
    var s' := s.(q := Retire(s.q), retiring := s.retiring - {m}, finished := s.finished + {m});
    forall n: nat ensures Occurring(s'.dispatched, n) <==> Dispatched(s', n) {
      assert Occurring(s.dispatched, n) <==> Dispatched(s, n);
    }
  }

  lemma StepKeeps(s: Sys, e: Event)
    requires Inv(s) && Enabled(s, e)
    ensures Inv(Step(s, e))
  {
    match e
    case Register(q, order) => RegisterKeeps(s, q, order);
    case Ready =>
      forall p ensures Held(p, SetReady(s.q)) == Held(p, s.q) {
      }
      QueueChangeConserves(s, SetReady(s.q));
      IdleKeeps(s, SetReady(s.q), s.crashed);
    case Fetch => FetchKeeps(s);
    case Execute(n) => ExecuteKeeps(s, n);
    case Complete(m) => CompleteKeeps(s, m);
    case Finish(m) => FinishKeeps(s, m);
  }

  lemma ExecuteKeeps(s: Sys, n: nat)
    requires Inv(s)
    ensures Inv(Step(s, Execute(n)))
  {
    var s' := Step(s, Execute(n));
    StepConservesExecute(s, n);
    assert forall m: nat :: Dispatched(s', m) == Dispatched(s, m);
    forall m: nat ensures Occurring(s'.dispatched, m) <==> Dispatched(s', m) {
      assert Occurring(s.dispatched, m) <==> Dispatched(s, m);
    }
  }

  lemma StepConservesExecute(s: Sys, n: nat)
    requires Conserved(s)
    ensures Conserved(Step(s, Execute(n)))
  {
    assert forall m :: Places(Step(s, Execute(n)), m) == Places(s, m);
  }

  lemma InitHolds(names: map<string, string>)
    ensures Inv(Init(names))
  {
    InitConserved(names);
    InitHistory(Init(names));
  }

  lemma InitConserved(names: map<string, string>)
    ensures Conserved(Init(names))
  {
    assert forall n :: Held(Id(n), InitialState(names)) == 0;
  }

  lemma InitHistory(s: Sys)
    requires s.dispatched == [] && s.inflight == map[] && Completed(s) == {}
    ensures HistoryOk(s)
  {
    assert forall n: nat :: !Occurring(s.dispatched, n);
  }

  /** The invariant holds in every state of every run. */
  lemma {:induction false} AlwaysInv(names: map<string, string>, es: seq<Event>)
    requires IsRun(names, es)
    ensures Inv(After(names, es))
    decreases |es|
  {
    if es == [] {
      InitHolds(names);
    } else {
      AlwaysInv(names, es[..|es| - 1]);
      StepKeeps(After(names, es[..|es| - 1]), es[|es| - 1]);
    }
  }

  // ----- what it means for runs -----

  /**
    On every file the LOADs and DUMPs are dispatched in submission order, each only
    after all earlier ones have completed, so no two of them are ever in flight together.
  */
  lemma FileOperationsInOrder(names: map<string, string>, es: seq<Event>)
    requires IsRun(names, es)
    ensures var s := After(names, es);
            && (forall m, n ::
                  m in s.acc && n in s.acc && m < n && ShareFile(s.acc[m], s.acc[n]) && Dispatched(s, n) ==>
                  m in Completed(s))
            && (forall m, n :: m in s.inflight && n in s.inflight && m < n ==>
                  m in s.acc && n in s.acc && !ShareFile(s.acc[m], s.acc[n]))
            && (forall i, j :: 0 <= i < j < |s.dispatched| && ShareFile(s.dispatched[i], s.dispatched[j]) ==>
                  s.dispatched[i].seqno < s.dispatched[j].seqno)
  {
    AlwaysInv(names, es);
    var s := After(names, es);
    forall m, n | m in s.inflight && n in s.inflight && m < n
      ensures m in s.acc && n in s.acc && !ShareFile(s.acc[m], s.acc[n])
    {
      DispatchedIsAccepted(s, m);
      DispatchedIsAccepted(s, n);
      assert Dispatched(s, n);
    }
  }

  /**
    Barriers: what has been dispatched precedes every pending barrier; barriers go
    in order, each after all that was dispatched before it has finished; so two
    barriers are never in flight together.
  */
  lemma BarrierSafety(names: map<string, string>, es: seq<Event>)
    requires IsRun(names, es)
    ensures var s := After(names, es);
            && (forall i, b :: 0 <= i < |s.dispatched| && b in s.q.barriers ==> s.dispatched[i].seqno < b.seqno)
            && (forall i, j :: 0 <= i < j < |s.dispatched| && IsBarrier(s.dispatched[j].kind) ==>
                  s.dispatched[i].seqno in s.finished && s.dispatched[i].seqno < s.dispatched[j].seqno)
            && (forall m, n | m in s.inflight && n in s.inflight
                  && IsBarrier(s.inflight[m].item.kind) && IsBarrier(s.inflight[n].item.kind) :: m == n)
  {
    AlwaysInv(names, es);
    var s := After(names, es);
    forall i, b | 0 <= i < |s.dispatched| && b in s.q.barriers ensures s.dispatched[i].seqno < b.seqno {
      HistoryEntry(s, i);
    }
    forall m, n | m in s.inflight && n in s.inflight
                  && IsBarrier(s.inflight[m].item.kind) && IsBarrier(s.inflight[n].item.kind)
      ensures m == n
    {
      OneBarrierInFlight(s, m, n);
    }
  }

  /** A barrier in flight has its entry in the history. */
  lemma BarrierEntry(s: Sys, m: nat) returns (i: nat)
    requires Conserved(s) && TasksOk(s) && Listed(s) && m in s.inflight && IsBarrier(s.inflight[m].item.kind)
    ensures i < |s.dispatched| && s.dispatched[i].seqno == m && IsBarrier(s.dispatched[i].kind) && m !in s.finished
  {
    assert Dispatched(s, m);
    assert Occurring(s.dispatched, m);
    i :| 0 <= i < |s.dispatched| && s.dispatched[i].seqno == m;
    DispatchedIsAccepted(s, m);
    assert Known(s.acc, s.dispatched[i]) && Known(s.acc, s.inflight[m].item);
  }

  lemma OneBarrierInFlight(s: Sys, m: nat, n: nat)
    requires Conserved(s) && TasksOk(s) && HistoryOk(s) && m in s.inflight && n in s.inflight
    requires IsBarrier(s.inflight[m].item.kind) && IsBarrier(s.inflight[n].item.kind)
    ensures m == n
  {
    var i := BarrierEntry(s, m);
    var j := BarrierEntry(s, n);
    assert i == j;
  }

  /** d is what x recorded for key k: accepted, announcing k, and not completed. */
  ghost predicate AwaitedBy(s: Sys, ty: D.DepType, k: string, x: Item, d: nat) {
    && d > D.LastCompletedFor(s.q.dm, ty, k)
    && d in s.acc && d !in Completed(s)
    && (if ty == D.File then UsesFile(x, k) && FileDep(x) == d && UsesFile(s.acc[d], k)
        else HasTableDep(x, k, d) && k in NotifiedTables(s.acc[d]))
    && (d < x.seqno || (d == x.seqno && IsSelfCopy(x)))
  }

  /**
    No stranded waiter: in every reachable state each parked item waits for an
    accepted item that has not completed and whose completion will announce just
    this key.  That item is strictly earlier, so waiting is acyclic, except that a
    COPYTABLE of a table onto itself waits for itself.
  */
  lemma ParkedAwaitsEarlier(names: map<string, string>, es: seq<Event>, ty: D.DepType, k: string, x: Item)
    requires IsRun(names, es)
    requires k in D.Waiting(After(names, es).q.dm, ty) && x in D.Waiting(After(names, es).q.dm, ty)[k]
    ensures exists d: nat :: AwaitedBy(After(names, es), ty, k, x, d)
  {
    AlwaysInv(names, es);
    var s := After(names, es);
    var c := D.LastCompletedFor(s.q.dm, ty, k);
    assert HeapOk(s.acc, ty, k, c, D.Waiting(s.q.dm, ty)[k]);
    var a := s.acc[x.seqno];
    if ty == D.File {
      assert FileDepNamed(s.acc, a);
      assert AwaitedBy(s, ty, k, x, FileDep(x));
    } else {
      var d: nat :| d > c && HasTableDep(x, k, d);
      assert PendingWaitsForFile(a) && TableDepNamed(s.acc, a);
      assert HasTableDep(a, k, d);
      assert AwaitedBy(s, ty, k, x, d);
    }
  }

  /** No item is dispatched twice, and the counters agree with the history. */
  lemma DispatchedOnce(names: map<string, string>, es: seq<Event>)
    requires IsRun(names, es)
    ensures var s := After(names, es);
            && (forall i, j :: 0 <= i < j < |s.dispatched| ==> s.dispatched[i].seqno != s.dispatched[j].seqno)
            && (forall i :: 0 <= i < |s.dispatched| ==> s.dispatched[i].seqno in s.acc)
            && s.q.running + s.q.completed == |s.inflight| + |s.retiring| + |s.finished| == |s.dispatched|
  {
    AlwaysInv(names, es);
    var s := After(names, es);
    var all := s.inflight.Keys + s.retiring + s.finished;
    forall i | 0 <= i < |s.dispatched| ensures s.dispatched[i].seqno in s.acc && s.dispatched[i].seqno in all {
      HistoryEntry(s, i);
      DispatchedIsAccepted(s, s.dispatched[i].seqno);
    }
    forall n | n in all ensures Occurring(s.dispatched, n) && (n in s.inflight ==> n !in s.retiring + s.finished)
                                && (n in s.retiring ==> n !in s.finished) {
      assert Dispatched(s, n);
      DispatchedIsAccepted(s, n);
    }
    assert s.inflight.Keys !! (s.retiring + s.finished) && s.retiring !! s.finished;
    assert |all| == |s.inflight.Keys| + |s.retiring| + |s.finished|;
    CountDistinct(s.dispatched, all);
  }

  lemma {:induction false} CountDistinct(h: seq<Item>, ns: set<nat>)
    requires Distinct(h)
    requires forall n: nat :: n in ns <==> Occurring(h, n)
    ensures |ns| == |h|
  {
    if h == [] {
      assert ns == {};
    } else {
      var init, last := h[..|h| - 1], h[|h| - 1];
      assert h == init + [last];
      forall n: nat ensures n in ns - {last.seqno} <==> Occurring(init, n) {
        OccurringGrows(init, last, n);
        assert n in ns <==> Occurring(h, n);
      }
      assert Occurring(h, last.seqno);
      CountDistinct(init, ns - {last.seqno});
    }
  }
}
