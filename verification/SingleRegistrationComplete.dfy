/** Completing a task keeps the queues of a single-registration workload orderly. */
module SingleRegistrationComplete {
  import opened SchedulerTypes
  import opened TaskQueueSpec
  import opened SchedulerSystem
  import opened WaitingSpec
  import opened Conservation
  import opened TokenSpec
  import opened SchedulerInvariant
  import opened SingleRegistrationSpec
  import opened SingleRegistrationFetch
  import D = DependencySpec

  // ----- the items a completion has in its hand -----

  ghost predicate BelowQueue(q: TaskState, y: Item) {
    forall z :: z in QueueOf(q, y.tableId) ==> y.seqno < z.seqno
  }

  ghost predicate Loose(q: TaskState, hand: seq<Item>, y: Item) {
    (IsParked(q.dm, y) || y in hand) && IsTableKind(y.kind)
  }

  ghost function LooseCount(q: TaskState, hand: seq<Item>, u: string): nat {
    ParkedCount(Token(u), q.dm) + SeqCount(Token(u), hand)
  }

  /**
    Every operation that is parked or in the hand belongs in front of its queue,
    and there is at most one of them per table.
  */
  ghost predicate HandOk(q: TaskState, hand: seq<Item>) {
    && QueuesSorted(q) && HeapsSorted(q.dm)
    && (forall y :: Loose(q, hand, y) ==> BelowQueue(q, y))
    && (forall u :: LooseCount(q, hand, u) <= 1)
  }

  /** All flags are right with respect to what has completed in b. */
  ghost predicate FlagsOf(b: Sys, q: TaskState, hand: seq<Item>) {
    && (forall t, y :: y in QueueOf(q, t) ==> FlagRight(b, y))
    && (forall y :: Loose(q, hand, y) ==> FlagRight(b, y))
  }

  /** No queued number is lost and no table becomes registered. */
  ghost predicate Grown(q: TaskState, q2: TaskState) {
    && (forall u, k :: InQueue(q, u, k) ==> InQueue(q2, u, k))
    && (forall u :: RegisteredIn(q2, u) ==> RegisteredIn(q, u))
  }

  lemma QueueAfterPush(q: TaskState, x: Item, u: string)
    ensures QueueOf(PushFront(q, x), u) == (if u == x.tableId then [x] + QueueOf(q, u) else QueueOf(q, u))
    ensures RegisteredIn(PushFront(q, x), u) == RegisteredIn(q, u)
    ensures PushFront(q, x).dm == q.dm
  {
  }

  lemma LooseElsewhere(q: TaskState, x: Item, rest: seq<Item>, y: Item)
    requires HandOk(q, [x] + rest) && IsTableKind(x.kind) && Loose(q, rest, y)
    ensures y.tableId != x.tableId
  {
    var u := x.tableId;
    SeqCountConcat(Token(u), [x], rest);
    SeqCountOne(Token(u), x);
    assert LooseCount(q, [x] + rest, u) <= 1;
    if y.tableId == u {
      if y in rest {
        SeqCountCounts(Token(u), rest, y);
      } else {
        ParkedCounts(Token(u), q.dm, y);
      }
      assert false;
    }
  }

  lemma PushFrontSorted(q: TaskState, x: Item)
    requires QueuesSorted(q) && BelowQueue(q, x)
    ensures QueuesSorted(PushFront(q, x))
  {
    forall t ensures StrictlySorted(QueueOf(PushFront(q, x), t)) {
      QueueAfterPush(q, x, t);
      assert StrictlySorted(QueueOf(q, t));
      SortedBehind(x, QueueOf(q, x.tableId));
    }
  }

  lemma SortedBehind(x: Item, queue: seq<Item>)
    requires StrictlySorted(queue) && forall z :: z in queue ==> x.seqno < z.seqno
    ensures StrictlySorted([x] + queue)
  {
    forall i | 0 <= i < |queue| ensures x.seqno < queue[i].seqno {
      assert queue[i] in queue;
    }
  }

  lemma PushFrontInQueue(q: TaskState, x: Item, u: string, k: nat)
    requires InQueue(q, u, k)
    ensures InQueue(PushFront(q, x), u, k)
  {
    QueueAfterPush(q, x, u);
    var i :| 0 <= i < |QueueOf(q, u)| && QueueOf(q, u)[i].seqno == k;
    assert QueueOf(PushFront(q, x), u)[if u == x.tableId then i + 1 else i].seqno == k;
  }

  lemma PushFrontGrows(q: TaskState, x: Item)
    ensures Grown(q, PushFront(q, x))
  {
    forall u, k | InQueue(q, u, k) ensures InQueue(PushFront(q, x), u, k) {
      PushFrontInQueue(q, x, u, k);
    }
    forall u ensures RegisteredIn(PushFront(q, x), u) == RegisteredIn(q, u) {
      QueueAfterPush(q, x, u);
    }
  }

  /** The items that remain in the hand belong to other tables. */
  lemma PushFrontLoose(b: Sys, q: TaskState, x: Item, rest: seq<Item>, y: Item)
    requires HandOk(q, [x] + rest) && FlagsOf(b, q, [x] + rest) && IsTableKind(x.kind)
    requires Loose(q, rest, y)
    ensures BelowQueue(PushFront(q, x), y) && FlagRight(b, y)
  {
    assert Loose(q, [x] + rest, y);
    LooseElsewhere(q, x, rest, y);
    QueueAfterPush(q, x, y.tableId);
    assert BelowQueue(q, y);
  }

  lemma PushFrontHand(b: Sys, q: TaskState, x: Item, rest: seq<Item>)
    requires HandOk(q, [x] + rest) && FlagsOf(b, q, [x] + rest) && IsTableKind(x.kind)
    ensures HandOk(PushFront(q, x), rest) && FlagsOf(b, PushFront(q, x), rest) && Grown(q, PushFront(q, x))
  {
    var q2 := PushFront(q, x);
    QueueAfterPush(q, x, "");
    assert x in [x] + rest && Loose(q, [x] + rest, x);
    PushFrontSorted(q, x);
    PushFrontGrows(q, x);
    forall y | Loose(q2, rest, y) ensures BelowQueue(q2, y) && FlagRight(b, y) {
      PushFrontLoose(b, q, x, rest, y);
    }
    forall u ensures LooseCount(q2, rest, u) <= 1 {
      SeqCountConcat(Token(u), [x], rest);
      assert LooseCount(q, [x] + rest, u) <= 1;
    }
    forall t, y | y in QueueOf(q2, t) ensures FlagRight(b, y) {
      QueueAfterPush(q, x, t);
      assert y == x || y in QueueOf(q, t);
    }
  }

  lemma ParkHand(b: Sys, q: TaskState, where: (D.DepType, string), x: Item, rest: seq<Item>)
    requires HandOk(q, [x] + rest) && FlagsOf(b, q, [x] + rest)
    ensures HandOk(Park(q, where, x), rest) && FlagsOf(b, Park(q, where, x), rest) && Grown(q, Park(q, where, x))
  {
    var q2 := Park(q, where, x);
    assert x in [x] + rest;
    forall u ensures QueueOf(q2, u) == QueueOf(q, u) && RegisteredIn(q2, u) == RegisteredIn(q, u) {
    }
    forall t ensures StrictlySorted(QueueOf(q2, t)) {
      assert StrictlySorted(QueueOf(q, t));
    }
    forall y | Loose(q2, rest, y) ensures BelowQueue(q2, y) && FlagRight(b, y) {
      if IsParked(q2.dm, y) {
        ParkedAfterPark(q.dm, where.0, where.1, x, y);
      }
      assert Loose(q, [x] + rest, y);
      assert BelowQueue(q, y);
    }
    forall u ensures LooseCount(q2, rest, u) <= 1 {
      SeqCountConcat(Token(u), [x], rest);
      SeqCountOne(Token(u), x);
      AddWaitCount(Token(u), q.dm, where.0, where.1, x);
      assert LooseCount(q, [x] + rest, u) <= 1;
    }
    ParkSorted(q.dm, where.0, where.1, x);
    forall u, k | InQueue(q, u, k) ensures InQueue(q2, u, k) {
    }
  }

  lemma ParkSorted(dm: D.DepState, ty: D.DepType, k: string, x: Item)
    requires HeapsSorted(dm)
    ensures HeapsSorted(D.AddWait(dm, ty, k, x))
  {
    InsertSorted(D.HeapAt(D.Waiting(dm, ty), k), x);
    var dm' := D.AddWait(dm, ty, k, x);
    forall of, j | j in D.Waiting(dm', of) ensures Sorted(D.Waiting(dm', of)[j]) {
      if !(of == ty && j == k) {
        assert Sorted(D.Waiting(dm, of)[j]);
      }
    }
  }

  lemma LoadHand(b: Sys, q: TaskState, q2: TaskState, x: Item, rest: seq<Item>)
    requires HandOk(q, [x] + rest) && FlagsOf(b, q, [x] + rest) && q2 == q.(loadQueue := q2.loadQueue)
    ensures HandOk(q2, rest) && FlagsOf(b, q2, rest) && Grown(q, q2)
  {
    forall u ensures QueueOf(q2, u) == QueueOf(q, u) && RegisteredIn(q2, u) == RegisteredIn(q, u) {
    }
    forall t ensures StrictlySorted(QueueOf(q2, t)) {
      assert StrictlySorted(QueueOf(q, t));
    }
    forall y | Loose(q2, rest, y) ensures BelowQueue(q2, y) && FlagRight(b, y) {
      assert Loose(q, [x] + rest, y);
      assert BelowQueue(q, y);
    }
    forall u ensures LooseCount(q2, rest, u) <= 1 {
      SeqCountConcat(Token(u), [x], rest);
      assert LooseCount(q, [x] + rest, u) <= 1;
    }
    forall u, k | InQueue(q, u, k) ensures InQueue(q2, u, k) {
    }
  }

  lemma WakeHand(b: Sys, q: TaskState, ty: D.DepType, x: Item, rest: seq<Item>)
    requires HandOk(q, [x] + rest) && FlagsOf(b, q, [x] + rest) && !IsBarrier(x.kind)
    ensures HandOk(Wake(q, ty, x), rest) && FlagsOf(b, Wake(q, ty, x), rest) && Grown(q, Wake(q, ty, x))
  {
    var q2 := Wake(q, ty, x);
    if x.kind == Load {
      if q2 == Park(q, (D.Table, x.tableId), x) {
        ParkHand(b, q, (D.Table, x.tableId), x, rest);
      } else {
        LoadHand(b, q, q2, x, rest);
      }
    } else if q2 == PushFront(q, x) {
      PushFrontHand(b, q, x, rest);
    } else if q2 == Park(q, (D.Table, x.tableId), x) {
      ParkHand(b, q, (D.Table, x.tableId), x, rest);
    } else {
      ParkHand(b, q, (D.Table, x.depends.newTable), x, rest);
    }
  }

  lemma {:induction false} WakeAllHand(acc: Accepted, b: Sys, q: TaskState, ty: D.DepType, xs: seq<Item>,
                                       rest: seq<Item>)
    requires HandOk(q, xs + rest) && FlagsOf(b, q, xs + rest) && ReadyOk(acc, xs)
    ensures var q2 := WakeAll(q, ty, xs); HandOk(q2, rest) && FlagsOf(b, q2, rest) && Grown(q, q2)
    decreases |xs|
  {
    if xs == [] {
      assert xs + rest == rest;
    } else {
      FirstInHand(xs, rest);
      assert xs[0] in xs;
      var q1 := Wake(q, ty, xs[0]);
      WakeHand(b, q, ty, xs[0], xs[1..] + rest);
      WakeAllHand(acc, b, q1, ty, xs[1..], rest);
      GrownFurther(q, q1, WakeAll(q1, ty, xs[1..]));
    }
  }

  lemma FirstInHand(xs: seq<Item>, rest: seq<Item>)
    requires xs != []
    ensures xs + rest == [xs[0]] + (xs[1..] + rest)
  {
  }

  lemma GrownFurther(q: TaskState, q1: TaskState, q2: TaskState)
    requires Grown(q, q1) && Grown(q1, q2)
    ensures Grown(q, q2)
  {
  }

  // ----- notification -----

  lemma NotifyParked(dm: D.DepState, ty: D.DepType, k: string, seqno: nat)
    requires HeapsSorted(dm)
    ensures var (dm', ready) := D.NotifyCompleted(dm, ty, k, seqno);
            && HeapsSorted(dm')
            && (forall y :: IsParked(dm', y) ==> IsParked(dm, y))
            && (forall y :: y in ready ==> IsParked(dm, y))
  {
    var (dm', ready) := D.NotifyCompleted(dm, ty, k, seqno);
    forall of, j | j in D.Waiting(dm', of)
      ensures j in D.Waiting(dm, of) && Sorted(D.Waiting(dm', of)[j])
      ensures forall y :: y in D.Waiting(dm', of)[j] ==> y in D.Waiting(dm, of)[j]
    {
      assert Sorted(D.Waiting(dm, of)[j]);
    }
    forall y | y in ready ensures IsParked(dm, y) {
      assert k in D.Waiting(dm, ty) && y in D.Waiting(dm, ty)[k];
    }
  }

  lemma {:induction false} NotifyTablesParked(dm: D.DepState, keys: seq<string>, seqno: nat)
    requires HeapsSorted(dm)
    ensures var (dm', ready) := D.NotifyTables(dm, keys, seqno);
            && HeapsSorted(dm')
            && (forall y :: IsParked(dm', y) ==> IsParked(dm, y))
            && (forall y :: y in ready ==> IsParked(dm, y))
    decreases |keys|
  {
    if keys != [] {
      NotifyParked(dm, D.Table, keys[0], seqno);
      NotifyTablesParked(D.NotifyCompleted(dm, D.Table, keys[0], seqno).0, keys[1..], seqno);
    }
  }

  lemma UpdateRecordsParked(q: TaskState, x: Item)
    requires HeapsSorted(q.dm)
    ensures var (q2, files, tables) := UpdateDependencyRecords(q, x);
            && HeapsSorted(q2.dm)
            && (forall y :: IsParked(q2.dm, y) ==> IsParked(q.dm, y))
            && (forall y :: y in files + tables ==> IsParked(q.dm, y))
            && (forall u :: QueueOf(q2, u) == QueueOf(q, u) && (RegisteredIn(q2, u) ==> RegisteredIn(q, u)))
  {
    var dm1 :=
      if x.kind == Load || x.kind == Dump then
        D.NotifyCompleted(q.dm, D.File, x.depends.filePath, x.seqno).0
      else q.dm;
    if x.kind == Load || x.kind == Dump {
      NotifyParked(q.dm, D.File, x.depends.filePath, x.seqno);
    }
    NotifyTablesParked(dm1, NotifiedTables(x), x.seqno);
  }

  lemma UpdateRecordsHand(b: Sys, q: TaskState, x: Item)
    requires HandOk(q, []) && FlagsOf(b, q, [])
    ensures var (q2, files, tables) := UpdateDependencyRecords(q, x);
            HandOk(q2, files + tables) && FlagsOf(b, q2, files + tables) && Grown(q, q2)
  {
    var (q2, files, tables) := UpdateDependencyRecords(q, x);
    UpdateRecordsParked(q, x);
    forall t ensures StrictlySorted(QueueOf(q2, t)) {
      assert StrictlySorted(QueueOf(q, t));
    }
    forall y | Loose(q2, files + tables, y) ensures BelowQueue(q2, y) && FlagRight(b, y) {
      assert Loose(q, [], y);
      assert BelowQueue(q, y);
    }
    forall u ensures LooseCount(q2, files + tables, u) <= 1 {
      UpdateRecordsTokens(q, x, u);
      SeqCountConcat(Token(u), files, tables);
      assert LooseCount(q, [], u) <= 1;
      assert q2.waitingTables == q.waitingTables;
    }
    forall u, k | InQueue(q, u, k) ensures InQueue(q2, u, k) {
      assert QueueOf(q2, u) == QueueOf(q, u);
    }
  }

  /** The dependency update of a completion. */
  lemma UpdateDepsHand(acc: Accepted, b: Sys, q: TaskState, x: Item)
    requires Chained(acc) && WellPlaced(acc, q) && HandOk(q, []) && FlagsOf(b, q, [])
    ensures var q2 := ApplyUpdateDeps(q, x); HandOk(q2, []) && FlagsOf(b, q2, []) && Grown(q, q2)
  {
    var (q1, files, tables) := UpdateDependencyRecords(q, x);
    UpdateRecordsPlaced(acc, q, x);
    UpdateRecordsHand(b, q, x);
    WakeAllHand(acc, b, q1, D.File, files, tables);
    var q2 := WakeAll(q1, D.File, files);
    assert tables + [] == tables;
    WakeAllHand(acc, b, q2, D.Table, tables, []);
  }

  // ----- from the system to the queue -----

  /** What is parked is not queued as well, and comes before all that is queued. */
  lemma ParkedComesFirst(s: Sys, y: Item)
    requires Base(s) && LeftInOrder(s) && IsParked(s.q.dm, y) && IsTableKind(y.kind)
    ensures BelowQueue(s.q, y)
  {
    var t, n := y.tableId, y.seqno;
    ParkedKnown(s.acc, s.q.dm, y);
    ParkedIsFresh(s, y);
    assert IsOp(s.acc, n, t);
    assert Places(s, n) == Occurs(n, s.acc.Keys);
    if InQueue(s.q, t, n) {
      var i :| 0 <= i < |QueueOf(s.q, t)| && QueueOf(s.q, t)[i].seqno == n;
      assert t in Queues(s.q.tables) && QueueOf(s.q, t)[i] in Queues(s.q.tables)[t];
      MapCountCounts(Id(n), Queues(s.q.tables), t, QueueOf(s.q, t)[i]);
      ParkedCounts(Id(n), s.q.dm, y);
      assert false;
    }
    LeftComesFirst(s, n, t);
  }

  /** An operation that has left its queue is smaller than all that is still queued. */
  lemma LeftComesFirst(s: Sys, n: nat, t: string)
    requires Base(s) && LeftInOrder(s) && IsOp(s.acc, n, t) && !InQueue(s.q, t, n)
    ensures forall z :: z in QueueOf(s.q, t) ==> n < z.seqno
  {
    forall z | z in QueueOf(s.q, t) ensures n < z.seqno {
      QueueOfOk(s.acc, s.q, t);
      var i :| 0 <= i < |QueueOf(s.q, t)| && QueueOf(s.q, t)[i] == z;
      assert InQueue(s.q, t, z.seqno);
      QueuedIsFresh(s, t, z.seqno);
      assert IsOp(s.acc, z.seqno, t);
    }
  }

  lemma OrderlyHand(s: Sys)
    requires Base(s) && Orderly(s)
    ensures HandOk(s.q, [])
  {
    HeapsOkSorted(s.acc, s.q.dm);
    forall y | Loose(s.q, [], y) ensures BelowQueue(s.q, y) {
      ParkedComesFirst(s, y);
    }
    forall u ensures LooseCount(s.q, [], u) <= 1 {
      assert OneToken(s, u);
    }
  }

  // ----- registration of tables -----

  lemma TableQueueAfter(q: TaskState, t: string, seqno: nat, u: string)
    ensures var q2 := RegisterTableQueue(q, t, seqno);
            && QueueOf(q2, u) ==
                  (if u == t && !RegisteredIn(q, t) then FlagDropped(QueueOf(q, u), seqno) else QueueOf(q, u))
            && (RegisteredIn(q2, u) <==> RegisteredIn(q, u) || u == t)
            && q2.dm == q.dm
  {
  }

  predicate FlaggedFrom(y0: Item, y: Item, seqno: nat) {
    y.seqno == y0.seqno && y.tableId == y0.tableId && (y.droppedFlag <==> y0.droppedFlag || y0.seqno < seqno)
  }

  /** Flagging changes no number and no order. */
  lemma FlaggedQueue(queue: seq<Item>, seqno: nat)
    ensures var f := FlagDropped(queue, seqno);
            && (StrictlySorted(queue) ==> StrictlySorted(f))
            && (forall y :: y in f ==> exists y0 :: y0 in queue && FlaggedFrom(y0, y, seqno))
  {
    var f := FlagDropped(queue, seqno);
    forall y | y in f
      ensures exists y0 :: y0 in queue && FlaggedFrom(y0, y, seqno)
    {
      var i :| 0 <= i < |f| && f[i] == y;
      assert queue[i] in queue && FlaggedFrom(queue[i], y, seqno);
    }
  }

  lemma RegisterTableSorted(q: TaskState, t: string, seqno: nat)
    requires QueuesSorted(q)
    ensures QueuesSorted(RegisterTableQueue(q, t, seqno))
  {
    var q2 := RegisterTableQueue(q, t, seqno);
    forall u ensures StrictlySorted(QueueOf(q2, u)) {
      TableQueueAfter(q, t, seqno, u);
      FlaggedQueue(QueueOf(q, u), seqno);
      assert StrictlySorted(QueueOf(q, u));
    }
  }

  lemma RegisterTableInQueue(q: TaskState, t: string, seqno: nat, u: string, k: nat)
    requires InQueue(q, u, k)
    ensures InQueue(RegisterTableQueue(q, t, seqno), u, k)
  {
    var q2 := RegisterTableQueue(q, t, seqno);
    TableQueueAfter(q, t, seqno, u);
    var i :| 0 <= i < |QueueOf(q, u)| && QueueOf(q, u)[i].seqno == k;
    assert QueueOf(q2, u)[i].seqno == k;
  }

  lemma RegisterTableHand(q: TaskState, t: string, seqno: nat)
    requires HandOk(q, [])
    ensures HandOk(RegisterTableQueue(q, t, seqno), [])
    ensures forall u, k :: InQueue(q, u, k) ==> InQueue(RegisterTableQueue(q, t, seqno), u, k)
  {
    var q2 := RegisterTableQueue(q, t, seqno);
    RegisterTableSorted(q, t, seqno);
    TableQueueAfter(q, t, seqno, t);
    forall y | Loose(q2, [], y) ensures BelowQueue(q2, y) {
      assert Loose(q, [], y) && BelowQueue(q, y);
      TableQueueAfter(q, t, seqno, y.tableId);
      FlaggedQueue(QueueOf(q, y.tableId), seqno);
    }
    forall u ensures LooseCount(q2, [], u) <= 1 {
      assert LooseCount(q, [], u) <= 1;
    }
    forall u, k | InQueue(q, u, k) ensures InQueue(q2, u, k) {
      RegisterTableInQueue(q, t, seqno, u, k);
    }
  }

  /** The queue object after the register action of a task, if it has one. */
  function AfterRegister(q: TaskState, task: Task): TaskState {
    if |task.actions| == 2 then ApplyRegisterTable(q, task.item) else q
  }

  lemma AfterRegisterHand(q: TaskState, task: Task)
    requires HandOk(q, [])
    ensures HandOk(AfterRegister(q, task), [])
    ensures forall u, k :: InQueue(q, u, k) ==> InQueue(AfterRegister(q, task), u, k)
  {
    var x := task.item;
    RegisterTableHand(q, x.tableId, x.seqno);
    if x.kind == CopyTable {
      RegisterTableHand(RegisterTableQueue(q, x.tableId, x.seqno), x.depends.newTable, x.seqno);
    }
  }

  // ----- the completing task -----

  /** Task n of state s, about to complete. */
  ghost predicate Completing(s: Sys, n: nat) {
    Base(s) && Orderly(s) && SingleRegistration(s.acc) && n in s.inflight
  }

  lemma TargetIsNew(s: Sys, n: nat, u: string)
    requires Completing(s, n) && Targets(s.acc[n], u)
    ensures !Opened(s, u) && Tokens(s.q, u) == 0 && !RegisteredIn(s.q, u)
    ensures forall m :: !FlightOp(s, m, u)
    ensures u != s.acc[n].tableId || s.acc[n].kind == Load
  {
    assert OneToken(s, u);
    assert Places(s, n) == Occurs(n, s.acc.Keys);
    assert !IsSelfCopy(s.acc[n]);
    forall z: nat ensures !CompletedTarget(s, z, u) {
      assert z in s.acc && Targets(s.acc[z], u) && Targets(s.acc[n], u) ==> z == n;
    }
  }

  lemma RegisteredByAfter(s: Sys, n: nat, q2: TaskState, u: string)
    requires Completing(s, n)
    ensures var s' := Acted(s, q2, n);
            && RegisteredBy(s', u) == (if Targets(s.acc[n], u) then n else RegisteredBy(s, u))
            && (Opened(s', u) <==> Opened(s, u) || Targets(s.acc[n], u))
  {
    var s' := Acted(s, q2, n);
    assert Places(s, n) == Occurs(n, s.acc.Keys);
    RegisteredByIs(s, u);
    RegisteredByIs(s', u);
    if Targets(s.acc[n], u) {
      assert CompletedTarget(s', n, u);
    } else {
      forall z: nat ensures CompletedTarget(s', z, u) == CompletedTarget(s, z, u) {
      }
      if Opened(s, u) {
        var z: nat :| CompletedTarget(s, z, u);
        assert CompletedTarget(s', z, u);
      }
    }
  }

  /** The item of a task in flight is the accepted one. */
  lemma FlightItem(s: Sys, n: nat)
    requires Completing(s, n)
    ensures var x := s.inflight[n].item;
            && x.seqno == n && n in s.acc && x.kind == s.acc[n].kind && x.tableId == s.acc[n].tableId
            && x.depends == s.acc[n].depends && TaskOk(s.inflight[n])
            && (forall u :: Targets(x, u) == Targets(s.acc[n], u))
            && (x.kind == Load || x.kind == CopyTable <==> |s.inflight[n].actions| == 2)
            && (IsBarrier(x.kind) ==> x.tableId == CONTROL_TABLE && s.inflight[n].tableQ == None)
  {
    var x := s.inflight[n].item;
    assert Known(s.acc, x);
    if x.kind == Load {
      LoadsArePlain(s.acc, n);
    }
  }

  /** The register action flags the queues of its tables, unless they are registered already. */
  predicate Flags(q: TaskState, x: Item, u: string) {
    !RegisteredIn(q, u) && (u == x.tableId || (x.kind == CopyTable && u == x.depends.newTable))
  }

  lemma AfterRegisterQueue(q: TaskState, task: Task, u: string)
    requires |task.actions| == 2 && !IsSelfCopy(task.item)
    ensures var x := task.item;
            QueueOf(AfterRegister(q, task), u) ==
              if Flags(q, x, u) then FlagDropped(QueueOf(q, u), x.seqno) else QueueOf(q, u)
    ensures RegisteredIn(AfterRegister(q, task), u) ==>
              RegisteredIn(q, u) || u == task.item.tableId || Targets(task.item, u)
    ensures AfterRegister(q, task).dm == q.dm
  {
    var x := task.item;
    var q1 := RegisterTableQueue(q, x.tableId, x.seqno);
    TableQueueAfter(q, x.tableId, x.seqno, u);
    if x.kind == CopyTable {
      TableQueueAfter(q, x.tableId, x.seqno, x.depends.newTable);
      TableQueueAfter(q1, x.depends.newTable, x.seqno, u);
    }
  }

  lemma FlaggedRight(s: Sys, n: nat, u: string, y: Item)
    requires Completing(s, n) && y in FlagDropped(QueueOf(s.q, u), n)
    requires Targets(s.acc[n], u) || (IsTableKind(s.acc[n].kind) && s.acc[n].tableId == u)
    ensures y.tableId == u && (y.droppedFlag <==> y.seqno < if Targets(s.acc[n], u) then n else RegisteredBy(s, u))
  {
    QueueOfOk(s.acc, s.q, u);
    RegisteredByIs(s, u);
    FlaggedQueue(QueueOf(s.q, u), n);
    var y0 :| y0 in QueueOf(s.q, u) && FlaggedFrom(y0, y, n);
    assert FlagRight(s, y0);
    if Targets(s.acc[n], u) {
      TargetIsNew(s, n, u);
    } else {
      FlightComesFirst(s, n);
    }
  }

  /** Flags in the queue of table u right after the register action. */
  lemma RegisterFlags(s: Sys, n: nat, u: string, y: Item)
    requires Completing(s, n)
    requires y in QueueOf(AfterRegister(s.q, s.inflight[n]), u)
    ensures y.tableId == u && (y.droppedFlag <==> y.seqno < if Targets(s.acc[n], u) then n else RegisteredBy(s, u))
  {
    var task := s.inflight[n];
    FlightItem(s, n);
    assert !IsSelfCopy(s.acc[n]);
    if |task.actions| == 2 {
      AfterRegisterQueue(s.q, task, u);
    }
    if |task.actions| == 2 && Flags(s.q, task.item, u) {
      FlaggedRight(s, n, u, y);
    } else {
      UnflaggedRight(s, n, u, y);
    }
  }

  lemma UnflaggedRight(s: Sys, n: nat, u: string, y: Item)
    requires Completing(s, n) && y in QueueOf(s.q, u)
    requires !(|s.inflight[n].actions| == 2 && Flags(s.q, s.inflight[n].item, u))
    ensures y.tableId == u && (y.droppedFlag <==> y.seqno < if Targets(s.acc[n], u) then n else RegisteredBy(s, u))
  {
    QueueOfOk(s.acc, s.q, u);
    assert FlagRight(s, y);
    FlightItem(s, n);
    if Targets(s.acc[n], u) {
      TargetIsNew(s, n, u);
    }
  }

  /** The completing operation is smaller than all that is queued for its table. */
  lemma FlightComesFirst(s: Sys, n: nat)
    requires Completing(s, n) && IsTableKind(s.acc[n].kind)
    ensures forall z :: z in QueueOf(s.q, s.acc[n].tableId) ==> n < z.seqno
  {
    var t := s.acc[n].tableId;
    FlightItem(s, n);
    if InQueue(s.q, t, n) {
      QueuedIsFresh(s, t, n);
      assert false;
    }
    LeftComesFirst(s, n, t);
  }

  lemma AfterRegisterFlags(s: Sys, n: nat, q2: TaskState)
    requires Completing(s, n)
    ensures FlagsOf(Acted(s, q2, n), AfterRegister(s.q, s.inflight[n]), [])
  {
    var s' := Acted(s, q2, n);
    var task := s.inflight[n];
    var q1 := AfterRegister(s.q, task);
    forall t, y | y in QueueOf(q1, t) ensures FlagRight(s', y) {
      RegisterFlags(s, n, t, y);
      RegisteredByAfter(s, n, q2, t);
    }
    FlightItem(s, n);
    if |task.actions| == 2 {
      assert !IsSelfCopy(s.acc[n]);
      AfterRegisterQueue(s.q, task, "");
    }
    forall y | Loose(q1, [], y) ensures FlagRight(s', y) {
      ParkedFlag(s, n, q2, y);
    }
  }

  /** A completion does not create the table of a parked operation. */
  lemma ParkedFlag(s: Sys, n: nat, q2: TaskState, y: Item)
    requires Completing(s, n) && IsParked(s.q.dm, y) && IsTableKind(y.kind)
    ensures FlagRight(Acted(s, q2, n), y)
  {
    assert FlagRight(s, y);
    ParkedCounts(Token(y.tableId), s.q.dm, y);
    RegisteredByAfter(s, n, q2, y.tableId);
    if Targets(s.acc[n], y.tableId) {
      TargetIsNew(s, n, y.tableId);
      assert false;
    }
  }

  /** What a completion does to the queues: they stay sorted, keep their numbers and have the right flags. */
  lemma CompletedQueues(s: Sys, n: nat)
    requires Completing(s, n)
    ensures var q2 := OnCompleted(s.q, s.inflight[n]);
            && HandOk(q2, []) && FlagsOf(Acted(s, q2, n), q2, [])
            && (forall u, k :: InQueue(s.q, u, k) ==> InQueue(q2, u, k))
            && (forall u :: RegisteredIn(q2, u) ==>
                  RegisteredIn(s.q, u) || Targets(s.acc[n], u) || FlightOp(s, n, u))
  {
    var task := s.inflight[n];
    var x := task.item;
    var q2 := OnCompleted(s.q, task);
    var s' := Acted(s, q2, n);
    var q1 := AfterRegister(s.q, task);
    FlightItem(s, n);
    OrderlyHand(s);
    AfterRegisterHand(s.q, task);
    AfterRegisterFlags(s, n, q2);
    forall u | RegisteredIn(q1, u) ensures RegisteredIn(s.q, u) || Targets(s.acc[n], u) || FlightOp(s, n, u) {
      if |task.actions| == 2 {
        assert !IsSelfCopy(s.acc[n]);
        AfterRegisterQueue(s.q, task, u);
      }
    }
    if task.actions != [] {
      ActionsUnfold(s.q, task);
      if |task.actions| == 2 {
        RegisterActionPlaced(s.acc, s.q, x);
      }
      UpdateDepsHand(s.acc, s', q1, x);
    }
    UpsertedHand(s', ApplyActions(s.q, task.actions, x), q2);
  }

  lemma UpsertedHand(b: Sys, q: TaskState, q2: TaskState)
    requires HandOk(q, []) && FlagsOf(b, q, []) && q2.tables == q.tables && q2.dm == q.dm
    ensures HandOk(q2, []) && FlagsOf(b, q2, []) && Grown(q, q2)
  {
    forall u ensures QueueOf(q2, u) == QueueOf(q, u) && RegisteredIn(q2, u) == RegisteredIn(q, u) {
    }
    forall t ensures StrictlySorted(QueueOf(q2, t)) {
      assert StrictlySorted(QueueOf(q, t));
    }
    forall y | Loose(q2, [], y) ensures BelowQueue(q2, y) && FlagRight(b, y) {
      assert Loose(q, [], y) && BelowQueue(q, y);
    }
    forall u ensures LooseCount(q2, [], u) <= 1 {
      assert LooseCount(q, [], u) <= 1;
    }
    forall u, k | InQueue(q, u, k) ensures InQueue(q2, u, k) {
    }
  }

  lemma TouchedHadNone(s: Sys, n: nat, u: string)
    requires Completing(s, n) && Touches(s.inflight[n], u)
    ensures Tokens(s.q, u) == 0
    ensures Targets(s.acc[n], u) || FlightOp(s, n, u)
  {
    FlightItem(s, n);
    assert OneToken(s, u);
    if Targets(s.acc[n], u) {
      TargetIsNew(s, n, u);
    } else {
      assert FlightOp(s, n, u);
    }
  }

  lemma CompletedOneToken(s: Sys, n: nat, q2: TaskState, u: string)
    requires Completing(s, n)
    requires IdleTokens(q2, u) <= IdleTokens(s.q, u)
    requires !Touches(s.inflight[n], u) ==> Tokens(q2, u) <= Tokens(s.q, u)
    requires RegisteredIn(q2, u) ==> RegisteredIn(s.q, u) || Targets(s.acc[n], u) || FlightOp(s, n, u)
    ensures OneToken(Acted(s, q2, n), u)
  {
    var s' := Acted(s, q2, n);
    RegisteredByAfter(s, n, q2, u);
    assert OneToken(s, u);
    if Touches(s.inflight[n], u) {
      TouchedHadNone(s, n, u);
    }
    if Targets(s.acc[n], u) {
      TargetIsNew(s, n, u);
    }
    forall m ensures FlightOp(s', m, u) ==> FlightOp(s, m, u) && m != n && !Touches(s.inflight[n], u) {
      if FlightOp(s', m, u) {
        assert FlightOp(s, m, u) && !FlightOp(s, n, u);
      }
    }
  }

  /** A completion keeps every queue orderly. */
  lemma CompleteOrderly(s: Sys, n: nat)
    requires Completing(s, n)
    ensures var q2 := OnCompleted(s.q, s.inflight[n]); IndexOk(q2) && Orderly(Acted(s, q2, n))
  {
    var task := s.inflight[n];
    var q2 := OnCompleted(s.q, task);
    var s' := Acted(s, q2, n);
    FlightItem(s, n);
    CompletedQueues(s, n);
    OnCompletedTokens(s.acc, s.q, task, "");
    forall u ensures OneToken(s', u) {
      OnCompletedTokens(s.acc, s.q, task, u);
      CompletedOneToken(s, n, q2, u);
    }
    CompletedLeft(s, n, q2);
    CompletedFlightFlags(s, n, q2);
    forall y | IsParked(q2.dm, y) && IsTableKind(y.kind) ensures FlagRight(s', y) {
      assert Loose(q2, [], y);
    }
  }

  lemma CompletedLeft(s: Sys, n: nat, q2: TaskState)
    requires LeftInOrder(s) && n in s.inflight && forall u, k :: InQueue(s.q, u, k) ==> InQueue(q2, u, k)
    ensures LeftInOrder(Acted(s, q2, n))
  {
  }

  lemma CompletedFlightFlags(s: Sys, n: nat, q2: TaskState)
    requires Completing(s, n)
    ensures var s' := Acted(s, q2, n);
            forall m :: m in s'.inflight && IsTableKind(s'.inflight[m].item.kind) ==> FlagRight(s', s'.inflight[m].item)
  {
    var s' := Acted(s, q2, n);
    forall m | m in s'.inflight && IsTableKind(s'.inflight[m].item.kind) ensures FlagRight(s', s'.inflight[m].item) {
      var y := s.inflight[m].item;
      assert FlagRight(s, y);
      assert FlightOp(s, m, y.tableId);
      RegisteredByAfter(s, n, q2, y.tableId);
      if Targets(s.acc[n], y.tableId) {
        TargetIsNew(s, n, y.tableId);
        assert false;
      }
    }
  }
}
