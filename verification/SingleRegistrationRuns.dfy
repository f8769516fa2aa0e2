/** What holds in every run of a single-registration workload. */
module SingleRegistrationRuns {
  import opened SchedulerTypes
  import opened TaskQueueSpec
  import opened SchedulerSystem
  import opened WaitingSpec
  import opened Conservation
  import opened TokenSpec
  import opened SchedulerInvariant
  import opened SingleRegistrationSpec
  import opened SingleRegistrationFetch
  import opened SingleRegistrationComplete
  import D = DependencySpec

  ghost predicate OrderlyInv(s: Sys) {
    ControlOnly(s.acc) && IndexOk(s.q) && Orderly(s) && !s.crashed
  }

  /** A workload that is single-registration was so before its last query. */
  lemma FewerRegistrations(acc: Accepted, x: Item)
    requires x.seqno !in acc && SingleRegistration(acc[x.seqno := x])
    ensures SingleRegistration(acc)
  {
    var acc' := acc[x.seqno := x];
    forall m, n, t | m in acc && n in acc && Targets(acc[m], t) && Targets(acc[n], t) ensures m == n {
      assert Targets(acc'[m], t) && Targets(acc'[n], t);
    }
    forall n | n in acc ensures !IsSelfCopy(acc[n]) {
      assert !IsSelfCopy(acc'[n]);
    }
    forall m, n | m in acc && n in acc && ShareFile(acc[m], acc[n])
      ensures m < n && acc[m].kind == Dump ==> acc[n].kind != Load
      ensures acc[m].kind == Load && acc[n].kind == Load ==> acc[m].tableId == acc[n].tableId
    {
      assert ShareFile(acc'[m], acc'[n]);
    }
  }

  // ----- registration -----

  /** q2 is q with x appended to its table's queue, if it is a table operation. */
  ghost predicate Appended(q: TaskState, q2: TaskState, x: Item) {
    && q2.index == q.index && q2.waitingTables == q.waitingTables
    && q2.dm.waitingFile == q.dm.waitingFile && q2.dm.waitingTable == q.dm.waitingTable
    && (forall u :: RegisteredIn(q2, u) == RegisteredIn(q, u))
    && (forall u :: QueueOf(q2, u) == QueueOf(q, u) + if IsTableKind(x.kind) && u == x.tableId then [x] else [])
  }

  lemma RegisterAppends(s: TaskState, q: Query, order: seq<string>)
    requires !s.quitFlag
    ensures var (s', item) := RegisterTask(s, q, order);
            && item.Some? && item.value.seqno == q.seqno
            && item.value.kind == q.kind && item.value.tableId == q.tableName
            && (IsTableKind(q.kind) ==> !item.value.droppedFlag)
            && Appended(s, s', item.value)
  {
  }

  /** The system with x accepted. */
  ghost predicate Accepts(s: Sys, s': Sys, x: Item) {
    && s' == s.(q := s'.q, acc := s.acc[x.seqno := x])
    && Appended(s.q, s'.q, x)
    && (forall n :: n in s.acc ==> n < x.seqno)
    && (IsTableKind(x.kind) ==> !x.droppedFlag)
  }

  lemma RegisterTokens(s: Sys, s': Sys, x: Item)
    requires Conserved(s) && (forall t :: OneToken(s, t)) && Accepts(s, s', x)
    ensures forall t :: OneToken(s', t)
  {
    forall t ensures OneToken(s', t) {
      assert OneToken(s, t);
      assert Tokens(s'.q, t) == Tokens(s.q, t);
      assert forall n :: FlightOp(s', n, t) == FlightOp(s, n, t);
      NewTargetsNothing(s, s', t);
    }
  }

  /** What has completed stays the same when a query is registered. */
  lemma NewTargetsNothing(s: Sys, s': Sys, t: string)
    requires Conserved(s) && s'.retiring == s.retiring && s'.finished == s.finished
    requires forall n :: n in s.acc ==> n in s'.acc && s'.acc[n] == s.acc[n]
    ensures forall z: nat :: CompletedTarget(s', z, t) == CompletedTarget(s, z, t)
    ensures Opened(s', t) == Opened(s, t)
  {
    forall z: nat ensures CompletedTarget(s', z, t) == CompletedTarget(s, z, t) {
      if z in Completed(s) {
        DispatchedIsAccepted(s, z);
      }
    }
    if Opened(s, t) {
      var z :| CompletedTarget(s, z, t);
      assert CompletedTarget(s', z, t);
    }
    if Opened(s', t) {
      var z :| CompletedTarget(s', z, t);
      assert CompletedTarget(s, z, t);
    }
  }

  lemma AppendedSorted(s: Sys, s': Sys, x: Item)
    requires WellPlaced(s.acc, s.q) && QueuesSorted(s.q) && Accepts(s, s', x)
    ensures QueuesSorted(s'.q)
  {
    forall t ensures StrictlySorted(QueueOf(s'.q, t)) {
      QueueOfOk(s.acc, s.q, t);
      assert StrictlySorted(QueueOf(s.q, t));
      assert forall i :: 0 <= i < |QueueOf(s.q, t)| ==> QueueOf(s.q, t)[i] in QueueOf(s.q, t);
    }
  }

  lemma AppendedInQueue(q: TaskState, q2: TaskState, x: Item, t: string, n: nat)
    requires Appended(q, q2, x)
    ensures InQueue(q, t, n) ==> InQueue(q2, t, n)
    ensures IsTableKind(x.kind) ==> InQueue(q2, x.tableId, x.seqno)
  {
    if InQueue(q, t, n) {
      var i :| 0 <= i < |QueueOf(q, t)| && QueueOf(q, t)[i].seqno == n;
      assert QueueOf(q2, t)[i].seqno == n;
    }
    if IsTableKind(x.kind) {
      assert QueueOf(q2, x.tableId)[|QueueOf(q, x.tableId)|].seqno == x.seqno;
    }
  }

  lemma AppendedLeft(s: Sys, s': Sys, x: Item)
    requires LeftInOrder(s) && Accepts(s, s', x)
    ensures LeftInOrder(s')
  {
    forall m, n, t | IsOp(s'.acc, m, t) && IsOp(s'.acc, n, t) && m < n && !InQueue(s'.q, t, n)
      ensures m in Completed(s')
    {
      AppendedInQueue(s.q, s'.q, x, t, n);
      assert n != x.seqno && IsOp(s.acc, m, t) && IsOp(s.acc, n, t);
    }
  }

  lemma AppendedFlags(s: Sys, s': Sys, x: Item)
    requires Conserved(s) && FlagsRight(s) && Accepts(s, s', x)
    requires SingleRegistration(s'.acc) && SingleRegistration(s.acc)
    ensures FlagsRight(s')
  {
    forall t ensures RegisteredBy(s', t) == RegisteredBy(s, t) <= x.seqno {
      NewTargetsNothing(s, s', t);
      RegisteredByIs(s, t);
      RegisteredByIs(s', t);
    }
    forall y | FlagRight(s, y) ensures FlagRight(s', y) {
    }
    forall t, y | y in QueueOf(s'.q, t) ensures FlagRight(s', y) {
      if y !in QueueOf(s.q, t) {
        assert y == x;
      }
    }
    forall y | IsParked(s'.q.dm, y) ensures IsParked(s.q.dm, y) {
      var ty, k :| k in D.Waiting(s'.q.dm, ty) && y in D.Waiting(s'.q.dm, ty)[k];
      assert k in D.Waiting(s.q.dm, ty) && y in D.Waiting(s.q.dm, ty)[k];
    }
  }

  lemma AcceptsOrderly(s: Sys, s': Sys, x: Item)
    requires Base(s) && OrderlyInv(s) && Accepts(s, s', x) && SingleRegistration(s'.acc)
    requires IsBarrier(x.kind) ==> x.tableId == CONTROL_TABLE
    ensures OrderlyInv(s')
  {
    FewerRegistrations(s.acc, x);
    RegisterTokens(s, s', x);
    AppendedSorted(s, s', x);
    AppendedLeft(s, s', x);
    AppendedFlags(s, s', x);
  }

  // ----- all events -----

  /** Events that change neither the queues nor what has completed. */
  lemma QuietOrderly(s: Sys, s': Sys)
    requires OrderlyInv(s) && SingleRegistration(s.acc) && s'.acc == s.acc && s'.inflight == s.inflight
    requires Completed(s') == Completed(s) && s'.crashed == s.crashed
    requires s'.q.tables == s.q.tables && s'.q.dm == s.q.dm && s'.q.index == s.q.index
    requires s'.q.waitingTables == s.q.waitingTables
    ensures OrderlyInv(s')
  {
    forall z: nat, t ensures CompletedTarget(s', z, t) == CompletedTarget(s, z, t) {
    }
    forall t ensures Opened(s', t) == Opened(s, t) && RegisteredBy(s', t) == RegisteredBy(s, t) {
      RegisteredByIs(s, t);
      RegisteredByIs(s', t);
      if Opened(s, t) {
        var z: nat :| CompletedTarget(s, z, t);
        assert CompletedTarget(s', z, t);
      }
    }
    forall t ensures OneToken(s', t) && StrictlySorted(QueueOf(s'.q, t)) {
      assert OneToken(s, t) && StrictlySorted(QueueOf(s.q, t));
      assert forall n :: FlightOp(s', n, t) == FlightOp(s, n, t);
    }
    QuietOrder(s, s');
    QuietFlags(s, s');
  }

  lemma QuietOrder(s: Sys, s': Sys)
    requires LeftInOrder(s) && s'.acc == s.acc && Completed(s') == Completed(s) && s'.q.tables == s.q.tables
    ensures LeftInOrder(s')
  {
    forall t, n ensures InQueue(s'.q, t, n) == InQueue(s.q, t, n) {
      assert QueueOf(s'.q, t) == QueueOf(s.q, t);
    }
  }

  lemma QuietFlags(s: Sys, s': Sys)
    requires FlagsRight(s) && s'.q.tables == s.q.tables && s'.q.dm == s.q.dm && s'.inflight == s.inflight
    requires forall t :: RegisteredBy(s', t) == RegisteredBy(s, t)
    ensures FlagsRight(s')
  {
    forall y | FlagRight(s, y) ensures FlagRight(s', y) {
    }
    forall t, y | y in QueueOf(s'.q, t) ensures FlagRight(s', y) {
      assert y in QueueOf(s.q, t);
    }
  }

  lemma FetchOrderly(s: Sys)
    requires Base(s) && OrderlyInv(s) && SingleRegistration(s.acc)
    ensures OrderlyInv(Step(s, Fetch))
  {
    if s.q.readyToFetch {
      FetchLoopOrderly(s);
    } else {
      QuietOrderly(s, Step(s, Fetch));
    }
  }

  lemma RegisterOrderly(s: Sys, q: Query, order: seq<string>)
    requires Base(s) && CountersOk(s) && OrderlyInv(s) && Enabled(s, Register(q, order))
    requires SingleRegistration(Step(s, Register(q, order)).acc)
    ensures OrderlyInv(Step(s, Register(q, order)))
    ensures SingleRegistration(s.acc)
  {
    RegisterAppends(s.q, q, order);
    var (q', item) := RegisterTask(s.q, q, order);
    FewerRegistrations(s.acc, item.value);
    AcceptsOrderly(s, s.(q := q', acc := s.acc[q.seqno := item.value]), item.value);
  }

  lemma RegisterWasSingle(s: Sys, q: Query, order: seq<string>)
    requires CountersOk(s) && Enabled(s, Register(q, order))
    requires SingleRegistration(Step(s, Register(q, order)).acc)
    ensures SingleRegistration(s.acc)
  {
    RegisterAppends(s.q, q, order);
    FewerRegistrations(s.acc, RegisterTask(s.q, q, order).1.value);
  }

  lemma StepOrderly(s: Sys, e: Event)
    requires Base(s) && CountersOk(s) && OrderlyInv(s) && Enabled(s, e) && SingleRegistration(Step(s, e).acc)
    ensures OrderlyInv(Step(s, e))
  {
    match e
    case Register(q, order) => RegisterOrderly(s, q, order);
    case Ready => QuietEventOrderly(s, e);
    case Fetch => FetchKeepsAcc(s); FetchOrderly(s);
    case Execute(n) => QuietEventOrderly(s, e);
    case Complete(n) => CompleteStepOrderly(s, n);
    case Finish(n) => QuietEventOrderly(s, e);
  }

  lemma QuietEventOrderly(s: Sys, e: Event)
    requires OrderlyInv(s) && SingleRegistration(s.acc) && (e.Ready? || e.Execute? || (e.Finish? && e.n in s.retiring))
    ensures OrderlyInv(Step(s, e))
  {
    QuietOrderly(s, Step(s, e));
  }

  lemma CompleteStepOrderly(s: Sys, n: nat)
    requires Base(s) && OrderlyInv(s) && SingleRegistration(s.acc) && n in s.inflight
    ensures OrderlyInv(Step(s, Complete(n)))
  {
    CompleteOrderly(s, n);
    CompleteIsActed(s, n);
  }

  lemma FetchKeepsAcc(s: Sys)
    ensures Step(s, Fetch).acc == s.acc
  {
  }

  lemma InvGivesBase(s: Sys)
    requires Inv(s) && OrderlyInv(s)
    ensures Base(s) && CountersOk(s)
  {
  }

  lemma InitOrderly(names: map<string, string>)
    ensures OrderlyInv(Init(names))
  {
    var s := Init(names);
    assert forall t :: Tokens(s.q, t) == 0;
  }

  lemma {:induction false} AlwaysOrderly(names: map<string, string>, es: seq<Event>)
    requires IsRun(names, es) && SingleRegistration(After(names, es).acc)
    ensures OrderlyInv(After(names, es))
    decreases |es|
  {
    if es == [] {
      InitOrderly(names);
    } else {
      var es0, e := es[..|es| - 1], es[|es| - 1];
      var s := After(names, es0);
      AlwaysInv(names, es0);
      StepWasSingle(s, e);
      AlwaysOrderly(names, es0);
      InvGivesBase(s);
      StepOrderly(s, e);
    }
  }

  lemma StepWasSingle(s: Sys, e: Event)
    requires CountersOk(s) && Enabled(s, e) && SingleRegistration(Step(s, e).acc)
    ensures SingleRegistration(s.acc)
  {
    match e
    case Register(q, order) => RegisterWasSingle(s, q, order);
    case Fetch => FetchKeepsAcc(s);
    case _ =>
  }

  // ----- what it means -----

  /**
    Each table has at most one token, and none while an operation of it is in flight.
    Its operations are dispatched in submission order and one at a time: once one of
    them is dispatched, all earlier ones have completed.  None is
    dispatched before the table's LOAD or COPYTABLE has completed, those submitted
    before it are marked dropped and only those, and no fetch throws.
  */
  lemma TablesOneAtATime(names: map<string, string>, es: seq<Event>)
    requires IsRun(names, es) && SingleRegistration(After(names, es).acc)
    ensures var s := After(names, es);
            && !s.crashed
            && (forall m: nat, n: nat, t :: IsOp(s.acc, m, t) && IsOp(s.acc, n, t) && m < n && Dispatched(s, n) ==>
                  m in Completed(s))
            && (forall m: nat, n: nat, t :: FlightOp(s, m, t) && FlightOp(s, n, t) ==> m == n)
            && (forall n: nat, t :: FlightOp(s, n, t) ==>
                  Tokens(s.q, t) == 0 && Opened(s, t) && (s.inflight[n].item.droppedFlag <==> n < RegisteredBy(s, t)))
            && (forall t :: Tokens(s.q, t) <= 1 && StrictlySorted(QueueOf(s.q, t)))
  {
    AlwaysInv(names, es);
    AlwaysOrderly(names, es);
    OrderlyMeans(After(names, es));
  }

  lemma EarlierCompleted(s: Sys, m: nat, n: nat, t: string)
    requires Conserved(s) && LeftInOrder(s) && IsOp(s.acc, m, t) && IsOp(s.acc, n, t) && m < n && Dispatched(s, n)
    ensures m in Completed(s)
  {
    if InQueue(s.q, t, n) {
      QueuedIsFresh(s, t, n);
      assert false;
    }
  }

  lemma OrderlyMeans(s: Sys)
    requires Conserved(s) && Orderly(s)
    ensures forall m: nat, n: nat, t :: IsOp(s.acc, m, t) && IsOp(s.acc, n, t) && m < n && Dispatched(s, n) ==>
              m in Completed(s)
    ensures forall m: nat, n: nat, t :: FlightOp(s, m, t) && FlightOp(s, n, t) ==> m == n
    ensures forall n: nat, t :: FlightOp(s, n, t) ==>
              Tokens(s.q, t) == 0 && Opened(s, t) && (s.inflight[n].item.droppedFlag <==> n < RegisteredBy(s, t))
    ensures forall t :: Tokens(s.q, t) <= 1 && StrictlySorted(QueueOf(s.q, t))
  {
    forall m: nat, n: nat, t | IsOp(s.acc, m, t) && IsOp(s.acc, n, t) && m < n && Dispatched(s, n)
      ensures m in Completed(s) {
      EarlierCompleted(s, m, n, t);
    }
    forall t ensures Tokens(s.q, t) <= 1 && StrictlySorted(QueueOf(s.q, t)) {
      assert OneToken(s, t);
    }
    forall m: nat, n: nat, t | FlightOp(s, m, t) && FlightOp(s, n, t) ensures m == n {
      assert OneToken(s, t);
    }
    forall n: nat, t | FlightOp(s, n, t)
      ensures Tokens(s.q, t) == 0 && Opened(s, t) && (s.inflight[n].item.droppedFlag <==> n < RegisteredBy(s, t))
    {
      assert OneToken(s, t);
      assert FlagRight(s, s.inflight[n].item);
    }
  }
}
