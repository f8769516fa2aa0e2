/** Fetching keeps the queues of a single-registration workload orderly. */
module SingleRegistrationFetch {
  import opened SchedulerTypes
  import opened TaskQueueSpec
  import opened SchedulerSystem
  import opened WaitingSpec
  import opened Conservation
  import opened TokenSpec
  import opened SchedulerInvariant
  import opened SingleRegistrationSpec
  import D = DependencySpec

  function QueueAfter(queue: seq<Item>, popped: bool): seq<Item> {
    if popped && queue != [] then queue[1..] else queue
  }

  /** From q to q2 at most the head of one queue has gone, and only that head may be newly parked. */
  ghost predicate ShrunkTo(q: TaskState, q2: TaskState, popped: Option<string>) {
    && (forall u :: QueueOf(q2, u) == QueueAfter(QueueOf(q, u), popped == Some(u)))
    && (forall u :: RegisteredIn(q2, u) == RegisteredIn(q, u))
    && (popped.Some? ==> QueueOf(q, popped.value) != [])
    && (forall y :: IsParked(q2.dm, y) && IsTableKind(y.kind) ==>
          IsParked(q.dm, y) || (popped.Some? && y == QueueOf(q, popped.value)[0]))
  }

  /** Every earlier operation of the popped head's table has completed. */
  ghost predicate HeadIsNext(s: Sys, popped: Option<string>) {
    popped.Some? ==>
      && QueueOf(s.q, popped.value) != []
      && forall m: nat {:trigger IsOp(s.acc, m, popped.value)} ::
           IsOp(s.acc, m, popped.value) && m < QueueOf(s.q, popped.value)[0].seqno ==> m in Completed(s)
  }

  lemma SameCompleted(s: Sys, s': Sys)
    requires s'.acc == s.acc && s'.retiring == s.retiring && s'.finished == s.finished
    ensures Completed(s') == Completed(s)
    ensures forall t :: Opened(s', t) == Opened(s, t)
    ensures SingleRegistration(s.acc) ==> forall t :: RegisteredBy(s', t) == RegisteredBy(s, t)
  {
    forall z: nat, t ensures CompletedTarget(s', z, t) == CompletedTarget(s, z, t) {
    }
    forall t ensures Opened(s', t) == Opened(s, t) {
      if Opened(s, t) {
        var z :| CompletedTarget(s, z, t);
        assert CompletedTarget(s', z, t);
      }
      if Opened(s', t) {
        var z :| CompletedTarget(s', z, t);
        assert CompletedTarget(s, z, t);
      }
    }
    if SingleRegistration(s.acc) {
      forall t ensures RegisteredBy(s', t) == RegisteredBy(s, t) {
        RegisteredByIs(s, t);
        RegisteredByIs(s', t);
      }
    }
  }

  lemma RegisteredByIs(s: Sys, t: string)
    requires SingleRegistration(s.acc)
    ensures forall z: nat :: CompletedTarget(s, z, t) ==> RegisteredBy(s, t) == z
    ensures !Opened(s, t) ==> RegisteredBy(s, t) == 0
  {
    forall z: nat, z2: nat | CompletedTarget(s, z, t) && CompletedTarget(s, z2, t) ensures z == z2 {
      assert Targets(s.acc[z], t) && Targets(s.acc[z2], t);
    }
  }

  lemma ShrinkSorted(q: TaskState, q2: TaskState, popped: Option<string>)
    requires QueuesSorted(q) && ShrunkTo(q, q2, popped)
    ensures QueuesSorted(q2)
  {
    forall t ensures StrictlySorted(QueueOf(q2, t)) {
      assert StrictlySorted(QueueOf(q, t));
    }
  }

  lemma ShrinkLeft(s: Sys, q2: TaskState, popped: Option<string>)
    requires LeftInOrder(s) && ShrunkTo(s.q, q2, popped) && HeadIsNext(s, popped)
    ensures LeftInOrder(s.(q := q2))
  {
    forall m, n, t | IsOp(s.acc, m, t) && IsOp(s.acc, n, t) && m < n && !InQueue(q2, t, n)
      ensures m in Completed(s)
    {
      if InQueue(s.q, t, n) {
        StaysQueued(s.q, q2, popped, t, n);
      }
    }
  }

  /** Only the head of the popped queue leaves. */
  lemma StaysQueued(q: TaskState, q2: TaskState, popped: Option<string>, t: string, n: nat)
    requires ShrunkTo(q, q2, popped) && InQueue(q, t, n)
    ensures InQueue(q2, t, n) || (popped == Some(t) && QueueOf(q, t)[0].seqno == n)
  {
    var i :| 0 <= i < |QueueOf(q, t)| && QueueOf(q, t)[i].seqno == n;
    var j := if popped == Some(t) then i - 1 else i;
    if j >= 0 {
      assert QueueOf(q2, t)[j] == QueueOf(q, t)[i];
    }
  }

  lemma ShrinkFlags(s: Sys, q2: TaskState, popped: Option<string>)
    requires FlagsRight(s) && ShrunkTo(s.q, q2, popped) && SingleRegistration(s.acc)
    ensures FlagsRight(s.(q := q2))
  {
    SameCompleted(s, s.(q := q2));
    forall t, y | y in QueueOf(q2, t) ensures FlagRight(s.(q := q2), y) {
      assert y in QueueOf(s.q, t);
      assert FlagRight(s, y);
    }
    forall y | IsParked(q2.dm, y) && IsTableKind(y.kind) ensures FlagRight(s.(q := q2), y) {
      if !IsParked(s.q.dm, y) {
        assert y in QueueOf(s.q, popped.value);
      }
      assert FlagRight(s, y);
    }
  }

  lemma ShrinkTokens(s: Sys, q2: TaskState, popped: Option<string>)
    requires (forall t :: OneToken(s, t)) && ShrunkTo(s.q, q2, popped)
    requires SingleRegistration(s.acc) && forall u :: Tokens(q2, u) <= Tokens(s.q, u)
    ensures forall t :: OneToken(s.(q := q2), t)
  {
    var s' := s.(q := q2);
    SameCompleted(s, s');
    forall t ensures OneToken(s', t) {
      assert OneToken(s, t);
      assert forall n :: FlightOp(s', n, t) == FlightOp(s, n, t);
      assert Tokens(q2, t) <= Tokens(s.q, t);
    }
  }

  /** A turn that hands out nothing. */
  lemma ShrinkKeeps(s: Sys, q2: TaskState, popped: Option<string>)
    requires Orderly(s) && SingleRegistration(s.acc) && ShrunkTo(s.q, q2, popped) && HeadIsNext(s, popped)
    requires forall u :: Tokens(q2, u) <= Tokens(s.q, u)
    ensures Orderly(s.(q := q2))
  {
    ShrinkSorted(s.q, q2, popped);
    ShrinkLeft(s, q2, popped);
    ShrinkFlags(s, q2, popped);
    ShrinkTokens(s, q2, popped);
  }

  /** A turn that hands out a task. */
  lemma DispatchTokens(s: Sys, q2: TaskState, task: Task, t: string)
    requires OneToken(s, t) && OneToken(s.(q := q2), t) && SingleRegistration(s.acc)
    requires Tokens(q2, t) + (if TakesToken(Run(task), t) then 1 else 0) <= Tokens(s.q, t)
    requires task.item.seqno !in s.inflight
    ensures OneToken(Dispatch(s, q2, task), t)
  {
    var s' := Dispatch(s, q2, task);
    SameCompleted(s, s');
    SameCompleted(s, s.(q := q2));
    forall n | FlightOp(s', n, t) ensures FlightOp(s, n, t) || (n == task.item.seqno && TakesToken(Run(task), t)) {
    }
  }

  lemma DispatchKeepsOrder(s: Sys, q2: TaskState, task: Task, popped: Option<string>)
    requires Orderly(s) && SingleRegistration(s.acc) && ShrunkTo(s.q, q2, popped) && HeadIsNext(s, popped)
    requires forall u :: Tokens(q2, u) + (if TakesToken(Run(task), u) then 1 else 0) <= Tokens(s.q, u)
    requires task.item.seqno !in s.inflight
    requires IsTableKind(task.item.kind) ==> popped.Some? && task.item == QueueOf(s.q, popped.value)[0]
    requires task.item.kind == Load ==> task.actions == [RegisterTable, UpdateDeps]
    ensures Orderly(Dispatch(s, q2, task))
  {
    forall u ensures Tokens(q2, u) <= Tokens(s.q, u) {
      assert Tokens(q2, u) + (if TakesToken(Run(task), u) then 1 else 0) <= Tokens(s.q, u);
    }
    ShrinkKeeps(s, q2, popped);
    var s1, s' := s.(q := q2), Dispatch(s, q2, task);
    SameCompleted(s1, s');
    SameCompleted(s, s1);
    forall t ensures OneToken(s', t) {
      DispatchTokens(s, q2, task, t);
    }
    if IsTableKind(task.item.kind) {
      assert task.item in QueueOf(s.q, popped.value);
      assert FlagRight(s, task.item);
    }
    DispatchFlags(s1, s', task);
  }

  lemma DispatchFlags(s1: Sys, s': Sys, task: Task)
    requires FlagsRight(s1) && LeftInOrder(s1) && LoadsRegister(s1)
    requires s' == Dispatch(s1, s1.q, task)
    requires forall t :: RegisteredBy(s', t) == RegisteredBy(s1, t)
    requires IsTableKind(task.item.kind) ==> FlagRight(s1, task.item)
    requires task.item.kind == Load ==> task.actions == [RegisterTable, UpdateDeps]
    ensures FlagsRight(s') && LeftInOrder(s') && LoadsRegister(s')
  {
    forall y | FlagRight(s1, y) ensures FlagRight(s', y) {
    }
  }

  // ----- the turns of the fetch loop -----

  lemma ParkedAfterPark(dm: D.DepState, ty: D.DepType, k: string, x: Item, y: Item)
    requires HeapsSorted(dm) && IsParked(D.AddWait(dm, ty, k, x), y)
    ensures IsParked(dm, y) || y == x
  {
    var dm' := D.AddWait(dm, ty, k, x);
    var of, j :| j in D.Waiting(dm', of) && y in D.Waiting(dm', of)[j];
    if of == ty && j == k {
      InsertSorted(D.HeapAt(D.Waiting(dm, ty), k), x);
      if y != x {
        assert j in D.Waiting(dm, of) && y in D.Waiting(dm, of)[j];
      }
    } else {
      assert j in D.Waiting(dm, of) && y in D.Waiting(dm, of)[j];
    }
  }

  ghost predicate HeapsSorted(dm: D.DepState) {
    forall ty, k :: k in D.Waiting(dm, ty) ==> Sorted(D.Waiting(dm, ty)[k])
  }

  lemma HeapsOkSorted(acc: Accepted, dm: D.DepState)
    requires HeapsOk(acc, dm)
    ensures HeapsSorted(dm)
  {
    forall ty, k | k in D.Waiting(dm, ty) ensures Sorted(D.Waiting(dm, ty)[k]) {
      assert HeapOk(acc, ty, k, D.LastCompletedFor(dm, ty, k), D.Waiting(dm, ty)[k]);
    }
  }

  lemma PopShape(s: TaskState, s1: TaskState, t: string)
    requires QueueOf(s, t) != [] && s1.tables == WithQueue(s, t, QueueOf(s, t)[1..]).tables
    requires forall y :: IsParked(s1.dm, y) && IsTableKind(y.kind) ==> IsParked(s.dm, y) || y == QueueOf(s, t)[0]
    ensures ShrunkTo(s, s1, Some(t))
  {
  }

  lemma SameTablesShape(s: TaskState, s1: TaskState)
    requires s1.tables == s.tables
    requires forall y :: IsParked(s1.dm, y) && IsTableKind(y.kind) ==> IsParked(s.dm, y)
    ensures ShrunkTo(s, s1, None)
  {
  }

  /** The table whose head a turn takes off its queue. */
  function Popped(s: TaskState): Option<string> {
    var (s1, load) := TakeLoad(s);
    var (s2, t) := PickTable(s1);
    if t == None || (load.Some? && PreferLoad(load.value, QueueOf(s2, t.value)[0])) then None else t
  }

  lemma LoadTurnShape(s: TaskState, x: LoadItem)
    requires HeapsSorted(s.dm)
    ensures ShrunkTo(s, LoadTurn(s, x).next, None)
  {
    var s1 := LoadTurn(s, x).next;
    var blocker := LoadBlocker(s, x);
    forall y | IsParked(s1.dm, y) && IsTableKind(y.kind) ensures IsParked(s.dm, y) {
      if blocker.Some? {
        ParkedAfterPark(s.dm, blocker.value.0, blocker.value.1, x, y);
      }
    }
    SameTablesShape(s, s1);
  }

  lemma TableTurnShape(s: TaskState, load: Option<LoadItem>, t: string)
    requires HeapsSorted(s.dm) && QueueOf(s, t) != []
    ensures ShrunkTo(s, TableTurn(s, load, t).next, Some(t))
    ensures var turn := TableTurn(s, load, t);
            turn.Done? ==> turn.outcome.Run? && turn.outcome.task.item == QueueOf(s, t)[0]
  {
    var s1 := TableTurn(s, load, t).next;
    var x := QueueOf(s, t)[0];
    var blocker := TableBlocker(s, x);
    assert s1.tables == WithQueue(s, t, QueueOf(s, t)[1..]).tables;
    forall y | IsParked(s1.dm, y) && IsTableKind(y.kind) ensures IsParked(s.dm, y) || y == x {
      if blocker.Some? {
        ParkedAfterPark(s.dm, blocker.value.0, blocker.value.1, x, y);
      }
    }
    PopShape(s, s1, t);
  }

  lemma FetchTurnShape(acc: Accepted, s: TaskState)
    requires WellPlaced(acc, s)
    ensures ShrunkTo(s, FetchTurn(s).next, Popped(s))
    ensures var turn := FetchTurn(s);
            turn.Done? && turn.outcome.Run? && IsTableKind(turn.outcome.task.item.kind) ==>
              Popped(s).Some? && turn.outcome.task.item == QueueOf(s, Popped(s).value)[0]
  {
    HeapsOkSorted(acc, s.dm);
    var (s1, load) := TakeLoad(s);
    var (s2, t) := PickTable(s1);
    assert s2.tables == s.tables && s2.dm == s.dm;
    if t == None && load == None {
      BarrierOutcome(acc, s2);
      BarrierShape(s2);
      ShapeFrom(s, s2, FetchTurn(s).next, None);
    } else if load.Some? && (t == None || PreferLoad(load.value, QueueOf(s2, t.value)[0])) {
      LoadTurnShape(s2, load.value);
      ShapeFrom(s, s2, FetchTurn(s).next, None);
    } else {
      TableTurnShape(s2, load, t.value);
      ShapeFrom(s, s2, FetchTurn(s).next, t);
    }
  }

  lemma ShapeFrom(s: TaskState, s2: TaskState, s': TaskState, popped: Option<string>)
    requires s2.tables == s.tables && s2.dm == s.dm && ShrunkTo(s2, s', popped)
    ensures ShrunkTo(s, s', popped)
  {
    forall u ensures QueueOf(s2, u) == QueueOf(s, u) && RegisteredIn(s2, u) == RegisteredIn(s, u) {
    }
  }

  lemma BarrierShape(s: TaskState)
    requires HeapsSorted(s.dm)
    ensures ShrunkTo(s, FetchBarrier(s).0, None)
  {
  }

  lemma PoppedToken(s: TaskState)
    requires IndexOk(s)
    ensures Popped(s).Some? ==>
              && QueueOf(s, Popped(s).value) != []
              && ParkedCount(Token(Popped(s).value), s.dm) + 1 <= Tokens(s, Popped(s).value)
  {
    if Popped(s).Some? {
      var (s1, load) := TakeLoad(s);
      assert Tokens(s1, Popped(s).value) == Tokens(s, Popped(s).value);
      PickTableTokens(s1, Popped(s).value);
    }
  }

  /** The picked table had its one token in the index, so nothing of it is parked or in flight. */
  lemma PickedHeadIsNext(s: Sys)
    requires Base(s) && Orderly(s)
    ensures HeadIsNext(s, Popped(s.q))
  {
    PoppedToken(s.q);
    if Popped(s.q).Some? {
      HeadWithToken(s, Popped(s.q).value);
    }
  }

  lemma HeadWithToken(s: Sys, t: string)
    requires Conserved(s) && WellPlaced(s.acc, s.q) && TasksOk(s) && OneToken(s, t) && QueuesSorted(s.q)
    requires QueueOf(s.q, t) != [] && ParkedCount(Token(t), s.q.dm) + 1 <= Tokens(s.q, t)
    ensures HeadIsNext(s, Some(t))
    ensures Opened(s, t)
  {
    var queue := QueueOf(s.q, t);
    forall m: nat | IsOp(s.acc, m, t) && m < queue[0].seqno ensures m in Completed(s) {
      Located(s, m, t);
      assert StrictlySorted(queue);
      assert !InQueue(s.q, t, m);
    }
  }

  // ----- the whole fetch -----

  ghost predicate Held1(s: Sys, turn: Turn) {
    forall p :: Held(p, turn.next) + (if turn.Done? then OutcomeHit(p, turn.outcome) else 0) == Held(p, s.q)
  }

  lemma TurnHeld(s: Sys)
    ensures Held1(s, FetchTurn(s.q))
  {
    forall p {
      FetchTurnHeld(p, s.q);
    }
  }

  /** An uncompleted LOAD finds its table unregistered, so it registers it and cannot be too late. */
  lemma LoadFindsTableNew(s: Sys, x: LoadItem)
    requires Base(s) && Orderly(s) && SingleRegistration(s.acc) && Known(s.acc, x) && !Dispatched(s, x.seqno)
    ensures !RegisteredIn(s.q, x.tableId) && !Opened(s, x.tableId)
    ensures !LoadTooLate(s.q, x) && ClassifyActions(s.q, x) == [RegisterTable, UpdateDeps]
  {
    LoadsArePlain(s.acc, x.seqno);
    assert OneToken(s, x.tableId);
    if Opened(s, x.tableId) {
      var z :| CompletedTarget(s, z, x.tableId);
      assert Targets(s.acc[z], x.tableId) && Targets(s.acc[x.seqno], x.tableId);
      assert false;
    }
  }

  lemma TurnLoadCandidate(s: Sys)
    requires Base(s)
    ensures var load := TakeLoad(s.q).1; load.Some? ==> Known(s.acc, load.value) && !Dispatched(s, load.value.seqno)
  {
    var load := TakeLoad(s.q).1;
    if load.Some? {
      assert load.value in s.q.loadQueue;
      SeqCountCounts(Id(load.value.seqno), s.q.loadQueue, load.value);
      HeldIsFresh(s, load.value.seqno);
    }
  }

  lemma TurnActions(s: Sys)
    requires Base(s) && Orderly(s) && SingleRegistration(s.acc)
    ensures var turn := FetchTurn(s.q);
            turn.Done? ==>
              && turn.outcome != Crash
              && (turn.outcome.Run? && turn.outcome.task.item.kind == Load ==>
                    turn.outcome.task.actions == [RegisterTable, UpdateDeps])
  {
    TurnLoadCandidate(s);
    var (s1, load) := TakeLoad(s.q);
    var (s2, t) := PickTable(s1);
    assert s2.tables == s.q.tables;
    if t == None && load == None {
      BarrierOutcome(s.acc, s2);
    } else if load.Some? && (t == None || PreferLoad(load.value, QueueOf(s2, t.value)[0])) {
      LoadFindsTableNew(s, load.value);
      assert LoadTooLate(s2, load.value) == LoadTooLate(s.q, load.value);
      assert ClassifyActions(s2, load.value) == ClassifyActions(s.q, load.value);
    } else {
      QueueHead(s.acc, s.q, t.value);
      assert QueueOf(s2, t.value) == QueueOf(s.q, t.value);
    }
  }

  lemma BaseStays(s: Sys, q2: TaskState)
    requires Base(s) && WellPlaced(s.acc, q2) && IndexOk(q2) && forall p :: Held(p, q2) == Held(p, s.q)
    ensures Base(s.(q := q2))
  {
    QueueChangeConserves(s, q2);
  }

  ghost predicate FetchResult(s: Sys, q2: TaskState, outcome: Outcome) {
    match outcome
    case NoTask => Orderly(s.(q := q2))
    case Crash => false
    case Run(task) => Orderly(Dispatch(s, q2, task))
  }

  lemma TurnOrderly(s: Sys)
    requires Base(s) && Orderly(s) && SingleRegistration(s.acc)
    ensures var turn := FetchTurn(s.q);
            && IndexOk(turn.next)
            && (turn.Again? ==> Base(s.(q := turn.next)) && Orderly(s.(q := turn.next)))
            && (turn.Done? ==> FetchResult(s, turn.next, turn.outcome))
  {
    var turn := FetchTurn(s.q);
    TurnHeld(s);
    FetchTurnOk(s.acc, s.q);
    FetchTurnShape(s.acc, s.q);
    PickedHeadIsNext(s);
    TurnActions(s);
    forall u ensures TurnTokens(s.q, turn, u) {
      FetchTurnTokens(s.acc, s.q, u);
    }
    assert TurnTokens(s.q, turn, "");
    TurnResult(s, turn, Popped(s.q));
  }

  lemma TurnResult(s: Sys, turn: Turn, popped: Option<string>)
    requires Base(s) && Orderly(s) && SingleRegistration(s.acc)
    requires Held1(s, turn) && TurnOk(s.acc, s.q, turn) && ShrunkTo(s.q, turn.next, popped) && HeadIsNext(s, popped)
    requires forall u :: TurnTokens(s.q, turn, u)
    requires turn.Done? && turn.outcome.Run? && IsTableKind(turn.outcome.task.item.kind) ==>
               popped.Some? && turn.outcome.task.item == QueueOf(s.q, popped.value)[0]
    requires turn.Done? ==>
               && turn.outcome != Crash
               && (turn.outcome.Run? && turn.outcome.task.item.kind == Load ==>
                     turn.outcome.task.actions == [RegisterTable, UpdateDeps])
    ensures turn.Again? ==> Base(s.(q := turn.next)) && Orderly(s.(q := turn.next))
    ensures turn.Done? ==> FetchResult(s, turn.next, turn.outcome)
  {
    forall u
      ensures Tokens(turn.next, u) + (if turn.Done? && TakesToken(turn.outcome, u) then 1 else 0) <= Tokens(s.q, u) {
      assert TurnTokens(s.q, turn, u);
    }
    if turn.Done? && turn.outcome.Run? {
      var task := turn.outcome.task;
      assert Held(Id(task.item.seqno), turn.next) + OutcomeHit(Id(task.item.seqno), turn.outcome)
          == Held(Id(task.item.seqno), s.q);
      HeldIsFresh(s, task.item.seqno);
      DispatchKeepsOrder(s, turn.next, task, popped);
    } else {
      ShrinkKeeps(s, turn.next, popped);
      if turn.Again? {
        assert TurnTokens(s.q, turn, "");
        BaseStays(s, turn.next);
      }
    }
  }

  /** A fetch keeps every queue orderly and never throws. */
  lemma {:induction false} FetchLoopOrderly(s: Sys)
    requires Base(s) && Orderly(s) && SingleRegistration(s.acc)
    ensures var (q2, outcome) := FetchLoop(s.q); IndexOk(q2) && FetchResult(s, q2, outcome)
    decreases |s.q.loadQueue| + |s.q.index.heap|
  {
    TurnOrderly(s);
    FetchTurnShrinks(s.q);
    if FetchTurn(s.q).Again? {
      var s1 := s.(q := FetchTurn(s.q).next);
      FetchLoopOrderly(s1);
      ResultFrom(s, s1, FetchLoop(s1.q).0, FetchLoop(s1.q).1);
    }
  }

  lemma ResultFrom(s: Sys, s1: Sys, q2: TaskState, outcome: Outcome)
    requires s1 == s.(q := s1.q) && FetchResult(s1, q2, outcome)
    ensures FetchResult(s, q2, outcome)
  {
    match outcome
    case NoTask => assert s1.(q := q2) == s.(q := q2);
    case Crash =>
    case Run(task) => assert Dispatch(s1, q2, task) == Dispatch(s, q2, task);
  }
}
