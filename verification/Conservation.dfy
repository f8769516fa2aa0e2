/** Nothing that was accepted is ever lost sight of or duplicated. */
module Conservation {
  import opened SchedulerTypes
  import opened TaskQueueSpec
  import opened SchedulerSystem
  import D = DependencySpec

  // ----- counting items -----

  /** What to count: the item of a given number, or the table operations of a given table. */
  datatype Probe = Id(n: nat) | Token(t: string)

  function Hit(p: Probe, x: Item): nat {
    match p
    case Id(n) => if x.seqno == n then 1 else 0
    case Token(t) => if x.kind != Load && x.tableId == t then 1 else 0
  }

  ghost function SeqCount(p: Probe, xs: seq<Item>): nat {
    if xs == [] then 0 else Hit(p, xs[0]) + SeqCount(p, xs[1..])
  }

  ghost function MapCount(p: Probe, m: map<string, seq<Item>>): nat
    decreases |m|
  {
    if m == map[] then 0
    else
      var k :| k in m;
      assert k in m.Keys && k !in (m - {k}).Keys;
      SeqCount(p, m[k]) + MapCount(p, m - {k})
  }

  lemma {:induction false} SeqCountConcat(p: Probe, a: seq<Item>, b: seq<Item>)
    ensures SeqCount(p, a + b) == SeqCount(p, a) + SeqCount(p, b)
  {
    if a == [] {
      assert a + b == b;
    } else {
      assert (a + b)[1..] == a[1..] + b;
      SeqCountConcat(p, a[1..], b);
    }
  }

  lemma SeqCountOne(p: Probe, x: Item)
    ensures SeqCount(p, [x]) == Hit(p, x)
  {
    assert [x][1..] == [];
  }

  lemma {:induction false} MapCountRemove(p: Probe, m: map<string, seq<Item>>, k: string)
    requires k in m
    ensures MapCount(p, m) == SeqCount(p, m[k]) + MapCount(p, m - {k})
    decreases |m|
  {
    var j :| j in m && MapCount(p, m) == SeqCount(p, m[j]) + MapCount(p, m - {j});
    if j != k {
      assert j in m.Keys && j !in (m - {j}).Keys && k in m.Keys && k !in (m - {k}).Keys;
      MapCountRemove(p, m - {j}, k);
      MapCountRemove(p, m - {k}, j);
      assert m - {j} - {k} == m - {k} - {j};
    }
  }

  lemma MapCountUpdate(p: Probe, m: map<string, seq<Item>>, k: string, v: seq<Item>)
    ensures MapCount(p, m[k := v]) + SeqCount(p, D.HeapAt(m, k)) == MapCount(p, m) + SeqCount(p, v)
  {
    MapCountRemove(p, m[k := v], k);
    assert m[k := v] - {k} == m - {k};
    if k in m {
      MapCountRemove(p, m, k);
    } else {
      assert m - {k} == m;
    }
  }

  // ----- where the items are -----

  ghost function Queues(tables: map<string, TableQueue>): map<string, seq<Item>> {
    map t | t in tables :: tables[t].queue
  }

  ghost function ParkedCount(p: Probe, dm: D.DepState): nat {
    MapCount(p, dm.waitingFile) + MapCount(p, dm.waitingTable)
  }

  /** How often p is met among all items that the queue object holds or has destroyed. */
  ghost function Held(p: Probe, s: TaskState): nat {
    SeqCount(p, s.loadQueue) + MapCount(p, Queues(s.tables)) + ParkedCount(p, s.dm)
    + SeqCount(p, s.barriers) + SeqCount(p, s.discarded)
  }

  lemma TablesUpdate(p: Probe, tables: map<string, TableQueue>, t: string, tq: TableQueue)
    ensures MapCount(p, Queues(tables[t := tq])) + SeqCount(p, TableAt(tables, t).queue)
         == MapCount(p, Queues(tables)) + SeqCount(p, tq.queue)
  {
    MapCountUpdate(p, Queues(tables), t, tq.queue);
    assert Queues(tables[t := tq]) == Queues(tables)[t := tq.queue];
  }

  // ----- the dependency manager only moves items -----

  lemma {:induction false} InsertCount(p: Probe, heap: seq<Item>, x: Item)
    ensures SeqCount(p, D.InsertBySeq(heap, x)) == SeqCount(p, heap) + Hit(p, x)
  {
    if heap == [] || x.seqno < heap[0].seqno {
      assert ([x] + heap)[1..] == heap;
    } else {
      InsertCount(p, heap[1..], x);
      assert D.InsertBySeq(heap, x)[1..] == D.InsertBySeq(heap[1..], x);
    }
  }

  lemma AddWaitCount(p: Probe, dm: D.DepState, ty: D.DepType, k: string, x: Item)
    ensures ParkedCount(p, D.AddWait(dm, ty, k, x)) == ParkedCount(p, dm) + Hit(p, x)
  {
    var m := D.Waiting(dm, ty);
    InsertCount(p, D.HeapAt(m, k), x);
    MapCountUpdate(p, m, k, D.InsertBySeq(D.HeapAt(m, k), x));
  }

  /** A notification moves a prefix of the heap out, whatever is measured. */
  lemma NotifyCount(p: Probe, dm: D.DepState, ty: D.DepType, k: string, seqno: nat)
    ensures var (dm', ready) := D.NotifyCompleted(dm, ty, k, seqno);
            ParkedCount(p, dm') + SeqCount(p, ready) == ParkedCount(p, dm)
  {
    var m := D.Waiting(dm, ty);
    if seqno >= D.LastCompletedFor(dm, ty, k) && k in m {
      var n := D.ReadyCount(ty, seqno, m[k]);
      SeqCountConcat(p, m[k][..n], m[k][n..]);
      assert m[k] == m[k][..n] + m[k][n..];
      MapCountRemove(p, m, k);
      MapCountUpdate(p, m, k, m[k][n..]);
    }
  }

  lemma {:induction false} NotifyTablesCount(p: Probe, dm: D.DepState, keys: seq<string>, seqno: nat)
    ensures var (dm', ready) := D.NotifyTables(dm, keys, seqno);
            ParkedCount(p, dm') + SeqCount(p, ready) == ParkedCount(p, dm)
    decreases |keys|
  {
    if keys != [] {
      NotifyCount(p, dm, D.Table, keys[0], seqno);
      var (dm1, first) := D.NotifyCompleted(dm, D.Table, keys[0], seqno);
      NotifyTablesCount(p, dm1, keys[1..], seqno);
      var (dm2, others) := D.NotifyTables(dm1, keys[1..], seqno);
      SeqCountConcat(p, first, others);
    }
  }

  // ----- every part of a completion keeps the held items -----

  lemma UpsertHeadHeld(p: Probe, s: TaskState, t: string)
    ensures Held(p, UpsertHead(s, t)) == Held(p, s)
  {
  }

  lemma WithQueueHeld(p: Probe, s: TaskState, t: string, queue: seq<Item>)
    ensures Held(p, WithQueue(s, t, queue)) + SeqCount(p, QueueOf(s, t)) == Held(p, s) + SeqCount(p, queue)
  {
    TablesUpdate(p, s.tables, t, TableAt(s.tables, t).(queue := queue));
  }

  lemma ParkHeld(p: Probe, s: TaskState, where: (D.DepType, string), x: Item)
    ensures Held(p, Park(s, where, x)) == Held(p, s) + Hit(p, x)
  {
    AddWaitCount(p, s.dm, where.0, where.1, x);
  }

  lemma {:induction false} FlagDroppedCount(p: Probe, queue: seq<Item>, seqno: nat)
    ensures SeqCount(p, FlagDropped(queue, seqno)) == SeqCount(p, queue)
  {
    if queue != [] {
      FlagDroppedCount(p, queue[1..], seqno);
      assert FlagDropped(queue, seqno)[1..] == FlagDropped(queue[1..], seqno);
    }
  }

  lemma RegisterTableQueueHeld(p: Probe, s: TaskState, t: string, seqno: nat)
    ensures Held(p, RegisterTableQueue(s, t, seqno)) == Held(p, s)
  {
    var tbl := TableAt(s.tables, t);
    if tbl.registered {
      TablesUpdate(p, s.tables, t, tbl);
    } else {
      var tq := TableQueue(true, seqno, FlagDropped(tbl.queue, seqno));
      TablesUpdate(p, s.tables, t, tq);
      FlagDroppedCount(p, tbl.queue, seqno);
      UpsertHeadHeld(p, s.(tables := s.tables[t := tq]), t);
    }
  }

  lemma PushFrontHeld(p: Probe, s: TaskState, x: Item)
    ensures Held(p, PushFront(s, x)) == Held(p, s) + Hit(p, x)
  {
    var t := x.tableId;
    SeqCountConcat(p, [x], QueueOf(s, t));
    SeqCountOne(p, x);
    WithQueueHeld(p, s, t, [x] + QueueOf(s, t));
    UpsertHeadHeld(p, WithQueue(s, t, [x] + QueueOf(s, t)), t);
  }

  lemma PushLoadHeld(p: Probe, s: TaskState, x: LoadItem)
    ensures Held(p, s.(loadQueue := [x] + s.loadQueue)) == Held(p, s) + Hit(p, x)
  {
    SeqCountConcat(p, [x], s.loadQueue);
    SeqCountOne(p, x);
  }

  lemma WakeFromFileHeld(p: Probe, s: TaskState, x: Item)
    ensures Held(p, WakeFromFile(s, x)) == Held(p, s) + Hit(p, x)
  {
    if x.kind == Load {
      ParkHeld(p, s, (D.Table, x.tableId), x);
      PushLoadHeld(p, s, x);
      PushLoadHeld(p, s, x.(tableId := FileTableName(s, x.depends.filePath)));
    } else {
      PushFrontHeld(p, s, x);
    }
  }

  lemma WakeFromTableHeld(p: Probe, s: TaskState, x: Item)
    ensures Held(p, WakeFromTable(s, x)) == Held(p, s) + Hit(p, x)
  {
    if x.kind == Load {
      PushLoadHeld(p, s, x);
    } else {
      PushFrontHeld(p, s, x);
      if x.kind == CopyTable {
        ParkHeld(p, s, (D.Table, x.tableId), x);
        ParkHeld(p, s, (D.Table, x.depends.newTable), x);
      }
    }
  }

  lemma WakeHeld(p: Probe, s: TaskState, ty: D.DepType, x: Item)
    ensures Held(p, Wake(s, ty, x)) == Held(p, s) + Hit(p, x)
  {
    WakeFromFileHeld(p, s, x);
    WakeFromTableHeld(p, s, x);
  }

  lemma {:induction false} WakeAllHeld(p: Probe, s: TaskState, ty: D.DepType, xs: seq<Item>)
    ensures Held(p, WakeAll(s, ty, xs)) == Held(p, s) + SeqCount(p, xs)
    decreases |xs|
  {
    if xs != [] {
      WakeHeld(p, s, ty, xs[0]);
      WakeAllHeld(p, Wake(s, ty, xs[0]), ty, xs[1..]);
    }
  }

  /** What comes off the wait heaps was in them. */
  lemma UpdateRecordsHeld(p: Probe, s: TaskState, x: Item)
    ensures var (s1, files, tables) := UpdateDependencyRecords(s, x);
            Held(p, s1) + SeqCount(p, files) + SeqCount(p, tables) == Held(p, s)
  {
    var onFile := x.kind == Load || x.kind == Dump;
    var (dm1, files) := if onFile then D.NotifyCompleted(s.dm, D.File, x.depends.filePath, x.seqno) else (s.dm, []);
    if onFile {
      NotifyCount(p, s.dm, D.File, x.depends.filePath, x.seqno);
    }
    NotifyTablesCount(p, dm1, NotifiedTables(x), x.seqno);
    if x.kind == Drop && x.tableId in s.tables {
      TablesUpdate(p, s.tables, x.tableId, s.tables[x.tableId].(registered := false));
    }
  }

  lemma UpdateDepsHeld(p: Probe, s: TaskState, x: Item)
    ensures Held(p, ApplyUpdateDeps(s, x)) == Held(p, s)
  {
    UpdateRecordsHeld(p, s, x);
    var (s1, files, tables) := UpdateDependencyRecords(s, x);
    WakeAllHeld(p, s1, D.File, files);
    WakeAllHeld(p, WakeAll(s1, D.File, files), D.Table, tables);
  }

  lemma {:induction false} ApplyActionsHeld(p: Probe, s: TaskState, actions: seq<Action>, x: Item)
    ensures Held(p, ApplyActions(s, actions, x)) == Held(p, s)
    decreases |actions|
  {
    if actions != [] {
      RegisterTableQueueHeld(p, s, x.tableId, x.seqno);
      if x.kind == CopyTable {
        RegisterTableQueueHeld(p, RegisterTableQueue(s, x.tableId, x.seqno), x.depends.newTable, x.seqno);
      }
      UpdateDepsHeld(p, s, x);
      ApplyActionsHeld(p, if actions[0] == RegisterTable then ApplyRegisterTable(s, x) else ApplyUpdateDeps(s, x),
                       actions[1..], x);
    }
  }

  /** A completion only moves items between the parts of the queue object. */
  lemma OnCompletedHeld(p: Probe, s: TaskState, task: Task)
    ensures Held(p, OnCompleted(s, task)) == Held(p, s)
  {
    ApplyActionsHeld(p, s, task.actions, task.item);
    if task.tableQ.Some? {
      UpsertHeadHeld(p, ApplyActions(s, task.actions, task.item), task.tableQ.value);
    }
  }

  // ----- fetching -----

  ghost function OutcomeHit(p: Probe, outcome: Outcome): nat {
    if outcome.Run? then Hit(p, outcome.task.item) else 0
  }

  ghost function LoadHit(p: Probe, load: Option<LoadItem>): nat {
    if load == None then 0 else Hit(p, load.value)
  }

  lemma TakeLoadHeld(p: Probe, s: TaskState)
    ensures Held(p, TakeLoad(s).0) + LoadHit(p, TakeLoad(s).1) == Held(p, s)
  {
    var (s1, load) := TakeLoad(s);
    if load.Some? {
      SeqCountConcat(p, [load.value], s1.loadQueue);
      SeqCountOne(p, load.value);
    }
  }

  lemma DiscardHeld(p: Probe, s: TaskState, load: Option<LoadItem>)
    ensures Held(p, Discard(s, load)) == Held(p, s) + LoadHit(p, load)
  {
    if load.Some? {
      SeqCountConcat(p, s.discarded, [load.value]);
      SeqCountOne(p, load.value);
    }
  }

  lemma FetchBarrierHeld(p: Probe, s: TaskState)
    ensures var (s', outcome) := FetchBarrier(s); Held(p, s') + OutcomeHit(p, outcome) == Held(p, s)
  {
  }

  lemma TableTurnHeld(p: Probe, s: TaskState, load: Option<LoadItem>, t: string)
    requires QueueOf(s, t) != []
    ensures match TableTurn(s, load, t)
            case Again(s') => Held(p, s') == Held(p, s) + LoadHit(p, load)
            case Done(s', outcome) => Held(p, s') + OutcomeHit(p, outcome) == Held(p, s) + LoadHit(p, load)
  {
    var queue := QueueOf(s, t);
    WithQueueHeld(p, s, t, queue[1..]);
    DiscardHeld(p, WithQueue(s, t, queue[1..]), load);
    var s1 := Discard(WithQueue(s, t, queue[1..]), load);
    var blocker := TableBlocker(s, queue[0]);
    if blocker.Some? {
      ParkHeld(p, s1, blocker.value, queue[0]);
    }
  }

  lemma FetchTurnHeld(p: Probe, s: TaskState)
    ensures match FetchTurn(s)
            case Again(s') => Held(p, s') == Held(p, s)
            case Done(s', outcome) => Held(p, s') + OutcomeHit(p, outcome) == Held(p, s)
  {
    TakeLoadHeld(p, s);
    var (s1, load) := TakeLoad(s);
    PickTableHeld(p, s1);
    var (s2, t) := PickTable(s1);
    if t == None && load == None {
      FetchBarrierHeld(p, s2);
    } else if load.Some? && (t == None || PreferLoad(load.value, QueueOf(s2, t.value)[0])) {
      LoadTurnHeld(p, s2, load.value);
    } else {
      TableTurnHeld(p, s2, load, t.value);
    }
  }

  lemma PickTableHeld(p: Probe, s: TaskState)
    ensures Held(p, PickTable(s).0) == Held(p, s)
  {
  }

  lemma LoadTurnHeld(p: Probe, s: TaskState, x: LoadItem)
    ensures match LoadTurn(s, x)
            case Again(s') => Held(p, s') == Held(p, s) + Hit(p, x)
            case Done(s', outcome) => Held(p, s') + OutcomeHit(p, outcome) == Held(p, s) + Hit(p, x)
  {
    var blocker := LoadBlocker(s, x);
    if blocker.Some? {
      ParkHeld(p, s, blocker.value, x);
    } else {
      DiscardHeld(p, s, Some(x));
    }
  }

  lemma {:induction false} FetchLoopHeld(p: Probe, s: TaskState)
    ensures var (s', outcome) := FetchLoop(s); Held(p, s') + OutcomeHit(p, outcome) == Held(p, s)
    decreases |s.loadQueue| + |s.index.heap|
  {
    FetchTurnHeld(p, s);
    FetchTurnShrinks(s);
    if FetchTurn(s).Again? {
      FetchLoopHeld(p, FetchTurn(s).next);
    }
  }

  /**
    A turn of the fetch loop destroys an item exactly when a LOAD candidate loses
    against a table, or when the LOAD makes classifyActions throw.
  */
  lemma TurnDiscards(s: TaskState)
    ensures var (s1, load) := TakeLoad(s);
            var (s2, t) := PickTable(s1);
            var lost := load.Some? && t.Some? && !PreferLoad(load.value, QueueOf(s2, t.value)[0]);
            var crash := FetchTurn(s).Done? && FetchTurn(s).outcome.Crash?;
            FetchTurn(s).next.discarded == s.discarded + if lost || crash then [load.value] else []
  {
    var (s1, load) := TakeLoad(s);
    var (s2, t) := PickTable(s1);
    if t == None && load == None {
      assert FetchBarrier(s2).0.discarded == s.discarded;
    } else if load.Some? && (t == None || PreferLoad(load.value, QueueOf(s2, t.value)[0])) {
      assert FetchTurn(s) == LoadTurn(s2, load.value);
    } else {
      assert FetchTurn(s) == TableTurn(s2, load, t.value);
    }
  }

  // ----- all runs -----

  function Occurs(n: nat, ns: set<nat>): nat {
    if n in ns then 1 else 0
  }

  /** The places of number n: how often it is held, and whether a worker has or had it. */
  ghost function Places(s: Sys, n: nat): nat {
    Held(Id(n), s.q) + Occurs(n, s.inflight.Keys) + Occurs(n, s.retiring) + Occurs(n, s.finished)
  }

  /** Every accepted number is met exactly once over all places, any other number never. */
  ghost predicate Conserved(s: Sys) {
    && (forall n: nat {:trigger Places(s, n)} {:trigger Held(Id(n), s.q)} ::
          Places(s, n) == Occurs(n, s.acc.Keys))
    && (forall n :: n in s.inflight ==> s.inflight[n].item.seqno == n)
  }

  lemma RegisterHeld(p: Probe, s: TaskState, q: Query, order: seq<string>)
    requires RegisterTask(s, q, order).1.Some?
    ensures Held(p, RegisterTask(s, q, order).0) == Held(p, s) + Hit(p, RegisterTask(s, q, order).1.value)
  {
    var (dm, item) := D.MarkScheduled(s.dm, q, order);
    var s1 := s.(submitted := s.submitted + 1, dm := dm);
    SeqCountOne(p, item);
    assert Held(p, s1) == Held(p, s);
    if IsBarrier(q.kind) {
      SeqCountConcat(p, s1.barriers, [item]);
    } else if q.kind == Load {
      SeqCountConcat(p, s1.loadQueue, [item]);
    } else {
      WithQueueHeld(p, s1, q.tableName, QueueOf(s1, q.tableName) + [item]);
      SeqCountConcat(p, QueueOf(s1, q.tableName), [item]);
    }
  }

  lemma DispatchPlaces(s: Sys, q': TaskState, task: Task, n: nat)
    requires Conserved(s)
    requires forall p :: Held(p, q') + Hit(p, task.item) == Held(p, s.q)
    ensures Places(Dispatch(s, q', task), n) == Places(s, n)
    ensures task.item.seqno !in s.inflight
  {
    var m := task.item.seqno;
    assert Places(s, m) <= 1 && Held(Id(m), s.q) >= 1 by {
      assert Held(Id(m), q') + Hit(Id(m), task.item) == Held(Id(m), s.q);
    }
    assert Held(Id(n), q') + Hit(Id(n), task.item) == Held(Id(n), s.q);
  }

  lemma CompletePlaces(s: Sys, q': TaskState, m: nat, n: nat)
    requires Conserved(s) && m in s.inflight
    requires Held(Id(n), q') == Held(Id(n), s.q)
    ensures Places(s.(q := q', inflight := s.inflight - {m}, retiring := s.retiring + {m}), n) == Places(s, n)
  {
    assert Places(s, m) <= 1;
  }

  lemma FinishPlaces(s: Sys, q': TaskState, m: nat, n: nat)
    requires Conserved(s) && m in s.retiring
    requires Held(Id(n), q') == Held(Id(n), s.q)
    ensures Places(s.(q := q', retiring := s.retiring - {m}, finished := s.finished + {m}), n) == Places(s, n)
  {
    assert Places(s, m) <= 1;
  }

  lemma RegisterConserves(s: Sys, q: Query, order: seq<string>)
    requires Conserved(s) && Enabled(s, Register(q, order))
    ensures Conserved(Step(s, Register(q, order)))
  {
    var s' := Step(s, Register(q, order));
    if RegisterTask(s.q, q, order).1.Some? {
      forall n: nat ensures Places(s', n) == Occurs(n, s'.acc.Keys) {
        RegisterHeld(Id(n), s.q, q, order);
        assert Places(s, n) == Occurs(n, s.acc.Keys);
      }
    }
  }

  lemma DispatchConserves(s: Sys, q': TaskState, task: Task)
    requires Conserved(s)
    requires forall p :: Held(p, q') + Hit(p, task.item) == Held(p, s.q)
    ensures Conserved(Dispatch(s, q', task))
  {
    var s' := Dispatch(s, q', task);
    forall n: nat ensures Places(s', n) == Occurs(n, s'.acc.Keys) {
      DispatchPlaces(s, q', task, n);
      assert Places(s, n) == Occurs(n, s.acc.Keys);
    }
  }

  lemma QueueChangeConserves(s: Sys, q': TaskState)
    requires Conserved(s)
    requires forall p :: Held(p, q') == Held(p, s.q)
    ensures Conserved(s.(q := q'))
    ensures Conserved(s.(q := q', crashed := true))
  {
    forall n: nat ensures Held(Id(n), q') == Held(Id(n), s.q) {
    }
    forall n: nat ensures Places(s.(q := q'), n) == Occurs(n, s.acc.Keys) {
      assert Places(s, n) == Occurs(n, s.acc.Keys);
    }
    forall n: nat ensures Places(s.(q := q', crashed := true), n) == Occurs(n, s.acc.Keys) {
      assert Places(s, n) == Occurs(n, s.acc.Keys);
    }
  }

  lemma FetchConserves(s: Sys)
    requires Conserved(s)
    ensures Conserved(Step(s, Fetch))
  {
    var (q', outcome) := FetchNext(s.q);
    forall p ensures Held(p, q') + OutcomeHit(p, outcome) == Held(p, s.q) {
      FetchLoopHeld(p, s.q);
    }
    if outcome.Run? {
      DispatchConserves(s, q', outcome.task);
    } else {
      QueueChangeConserves(s, q');
    }
  }

  lemma CompleteConserves(s: Sys, m: nat)
    requires Conserved(s) && m in s.inflight
    ensures Conserved(Step(s, Complete(m)))
  {
    var q' := OnCompleted(s.q, s.inflight[m]);
    var s' := s.(q := q', inflight := s.inflight - {m}, retiring := s.retiring + {m});
    forall n: nat ensures Places(s', n) == Occurs(n, s.acc.Keys) {
      OnCompletedHeld(Id(n), s.q, s.inflight[m]);
      CompletePlaces(s, q', m, n);
      assert Places(s, n) == Occurs(n, s.acc.Keys);
    }
  }

  lemma FinishConserves(s: Sys, m: nat)
    requires Conserved(s) && m in s.retiring
    ensures Conserved(Step(s, Finish(m)))
  {
    if s.q.running > 0 {
      var q' := Retire(s.q);
      var s' := s.(q := q', retiring := s.retiring - {m}, finished := s.finished + {m});
      forall n: nat ensures Places(s', n) == Occurs(n, s.acc.Keys) {
        assert Held(Id(n), q') == Held(Id(n), s.q);
        FinishPlaces(s, q', m, n);
        assert Places(s, n) == Occurs(n, s.acc.Keys);
      }
    }
  }

  lemma StepConserves(s: Sys, e: Event)
    requires Conserved(s) && Enabled(s, e)
    ensures Conserved(Step(s, e))
  {
    match e
    case Register(q, order) => RegisterConserves(s, q, order);
    case Ready =>
      forall p ensures Held(p, SetReady(s.q)) == Held(p, s.q) {
      }
      QueueChangeConserves(s, SetReady(s.q));
    case Fetch => FetchConserves(s);
    case Execute(n) =>
      assert forall n :: Places(Step(s, e), n) == Places(s, n);
    case Complete(m) => CompleteConserves(s, m);
    case Finish(m) => FinishConserves(s, m);
  }

  /**
    In every reachable state each accepted item is in exactly one place: the load
    queue, one table queue, one wait heap, the barriers, in flight, done with its
    actions, finished, or discarded.
  */
  lemma {:induction false} AlwaysConserved(names: map<string, string>, es: seq<Event>)
    requires IsRun(names, es)
    ensures Conserved(After(names, es))
    decreases |es|
  {
    if es != [] {
      AlwaysConserved(names, es[..|es| - 1]);
      StepConserves(After(names, es[..|es| - 1]), es[|es| - 1]);
    }
  }
}
