/**
  Serial equivalence.  Whatever the interleaving of the workers, the database of a
  single-registration workload is the one that running the executed queries one by
  one in submission order gives.
*/
module SerialEquivalence {
  import opened SchedulerTypes
  import opened TaskQueueSpec
  import opened SchedulerSystem
  import opened WaitingSpec
  import opened Conservation
  import opened TokenSpec
  import opened SchedulerInvariant
  import opened SingleRegistrationSpec
  import opened SingleRegistrationFetch
  import opened SingleRegistrationRuns

  /** The tables that exist, with their contents. */
  type Database<TS> = map<string, TS>

  /** What the queries do: the table a LOAD reads, if it succeeds, and the effect of a data query. */
  datatype Effects<!TS> = Effects(load: nat -> Option<TS>, write: (nat, TS) -> TS)

  predicate IsDataWrite(kind: QueryType) {
    kind == Truncate || kind == Insert || kind == Update || kind == Delete || kind == Duplicate
    || kind == Add || kind == Sub || kind == Swap
  }

  /** Executing one query: errors leave the database as it is. */
  function Apply<TS>(fx: Effects<TS>, x: Item, db: Database<TS>): Database<TS> {
    match x.kind
    case Load =>
      if x.tableId in db || fx.load(x.seqno) == None then db else db[x.tableId := fx.load(x.seqno).value]
    case Drop => db - {x.tableId}
    case CopyTable =>
      if x.tableId in db && x.depends.newTable !in db then db[x.depends.newTable := db[x.tableId]] else db
    case _ =>
      if IsDataWrite(x.kind) && x.tableId in db then db[x.tableId := fx.write(x.seqno, db[x.tableId])] else db
  }

  /** What a worker does with a task: a dropped one runs as a null query. */
  function Perform<TS>(fx: Effects<TS>, x: Item, db: Database<TS>): Database<TS> {
    if x.droppedFlag then db else Apply(fx, x, db)
  }

  /** The database after the events es. */
  function DatabaseAfter<TS>(fx: Effects<TS>, names: map<string, string>, es: seq<Event>): Database<TS>
    decreases |es|
  {
    if es == [] then map[]
    else StepDatabase(fx, After(names, es[..|es| - 1]), es[|es| - 1], DatabaseAfter(fx, names, es[..|es| - 1]))
  }

  function StepDatabase<TS>(fx: Effects<TS>, s: Sys, e: Event, db: Database<TS>): Database<TS> {
    if e.Execute? && e.n in s.inflight then Perform(fx, s.inflight[e.n].item, db) else db
  }

  /** Running the queries with numbers in ns up to k one by one, in submission order. */
  function Serial<TS>(fx: Effects<TS>, acc: Accepted, ns: set<nat>, k: nat): Database<TS> {
    if k == 0 then map[]
    else
      var db := Serial(fx, acc, ns, k - 1);
      if k in ns && k in acc then Apply(fx, acc[k], db) else db
  }

  function Get<TS>(db: Database<TS>, t: string): Option<TS> {
    if t in db then Some(db[t]) else None
  }

  // ----- footprints -----

  /** x operates on table t or creates it. */
  predicate Footprint(x: Item, t: string) {
    (IsTableKind(x.kind) && x.tableId == t) || Targets(x, t)
  }

  ghost predicate Apart(a: Item, b: Item) {
    forall t :: Footprint(a, t) ==> !Footprint(b, t)
  }

  /** Tables outside the footprint are untouched. */
  lemma ApplyOutside<TS>(fx: Effects<TS>, x: Item, db: Database<TS>, t: string)
    requires !Footprint(x, t)
    ensures Get(Apply(fx, x, db), t) == Get(db, t)
  {
  }

  /** Inside the footprint the result depends on the footprint only. */
  lemma ApplyInside<TS>(fx: Effects<TS>, x: Item, db: Database<TS>, db2: Database<TS>, t: string)
    requires forall u :: Footprint(x, u) ==> Get(db, u) == Get(db2, u)
    requires Footprint(x, t)
    ensures Get(Apply(fx, x, db), t) == Get(Apply(fx, x, db2), t)
  {
    assert Footprint(x, x.tableId);
    assert Get(db, x.tableId) == Get(db2, x.tableId);
    if x.kind == CopyTable {
      assert Footprint(x, x.depends.newTable);
      assert Get(db, x.depends.newTable) == Get(db2, x.depends.newTable);
    }
  }

  lemma SameDatabase<TS>(a: Database<TS>, b: Database<TS>)
    requires forall t :: Get(a, t) == Get(b, t)
    ensures a == b
  {
    forall t ensures t in a <==> t in b {
      assert Get(a, t) == Get(b, t);
    }
    forall t | t in a ensures a[t] == b[t] {
      assert Get(a, t) == Get(b, t);
    }
  }

  /** Queries with disjoint footprints commute. */
  lemma Commute<TS>(fx: Effects<TS>, x: Item, y: Item, db: Database<TS>)
    requires Apart(x, y)
    ensures Apply(fx, x, Apply(fx, y, db)) == Apply(fx, y, Apply(fx, x, db))
  {
    var a, b := Apply(fx, x, Apply(fx, y, db)), Apply(fx, y, Apply(fx, x, db));
    forall t ensures Get(a, t) == Get(b, t) {
      forall u ensures Footprint(x, u) ==> Get(Apply(fx, y, db), u) == Get(db, u) {
        if Footprint(x, u) { ApplyOutside(fx, y, db, u); }
      }
      forall u ensures Footprint(y, u) ==> Get(Apply(fx, x, db), u) == Get(db, u) {
        if Footprint(y, u) { ApplyOutside(fx, x, db, u); }
      }
      if Footprint(x, t) {
        ApplyInside(fx, x, Apply(fx, y, db), db, t);
        ApplyOutside(fx, y, Apply(fx, x, db), t);
      } else {
        ApplyOutside(fx, x, Apply(fx, y, db), t);
        if Footprint(y, t) {
          ApplyInside(fx, y, Apply(fx, x, db), db, t);
        } else {
          ApplyOutside(fx, y, db, t);
          ApplyOutside(fx, x, db, t);
          ApplyOutside(fx, y, Apply(fx, x, db), t);
        }
      }
    }
    SameDatabase(a, b);
  }

  // ----- the serial run -----

  /** Before its creator a table does not exist. */
  lemma {:induction false} AbsentBeforeCreator<TS>(fx: Effects<TS>, acc: Accepted, ns: set<nat>, k: nat, z: nat,
                                                   t: string)
    requires k < z && OnlyCreator(acc, z, t)
    ensures t !in Serial(fx, acc, ns, k)
  {
    if k > 0 {
      AbsentBeforeCreator(fx, acc, ns, k - 1, z, t);
      assert k in acc ==> !Targets(acc[k], t);
    }
  }

  ghost predicate OnlyCreator(acc: Accepted, z: nat, t: string) {
    forall k: nat {:trigger acc[k]} :: k in acc && Targets(acc[k], t) ==> k == z
  }

  lemma CreatorIsOnly(acc: Accepted, z: nat, t: string)
    requires SingleRegistration(acc) && z in acc && Targets(acc[z], t)
    ensures OnlyCreator(acc, z, t)
  {
    forall k: nat | k in acc && Targets(acc[k], t) ensures k == z {
      assert Targets(acc[k], t) && Targets(acc[z], t);
    }
  }

  /** An operation on a table that does not exist changes nothing. */
  lemma ApplyAbsent<TS>(fx: Effects<TS>, x: Item, db: Database<TS>)
    requires IsTableKind(x.kind) && x.tableId !in db
    ensures Apply(fx, x, db) == db
  {
  }

  /** Query y may join the executed set ns late: it is without effect, or apart from all later ones in ns. */
  ghost predicate MayJoin(acc: Accepted, ns: set<nat>, y: nat, x: Item) {
    && y in acc && y !in ns
    && (if x.droppedFlag && !IsBarrier(x.kind) then
          exists z, t :: z in acc && Targets(acc[z], t) && y < z && IsOp(acc, y, t)
        else forall k: nat {:trigger k in ns} :: k in ns && k in acc && y < k ==> Apart(acc[y], acc[k]))
  }

  predicate SameEffect(a: Item, x: Item) {
    a.seqno == x.seqno && a.kind == x.kind && a.depends == x.depends && a.tableId == x.tableId
  }

  lemma ApplySame<TS>(fx: Effects<TS>, a: Item, x: Item, db: Database<TS>)
    requires SameEffect(a, x)
    ensures Apply(fx, a, db) == Apply(fx, x, db)
  {
  }

  lemma {:induction false} SerialIgnores<TS>(fx: Effects<TS>, acc: Accepted, ns: set<nat>, y: nat, k: nat)
    requires k < y
    ensures Serial(fx, acc, ns + {y}, k) == Serial(fx, acc, ns, k)
  {
    if k > 0 {
      SerialIgnores(fx, acc, ns, y, k - 1);
    }
  }

  /** A query that is dropped finds no table at its place in the order. */
  lemma DroppedFindsNothing<TS>(fx: Effects<TS>, acc: Accepted, ns: set<nat>, y: nat, x: Item)
    requires SingleRegistration(acc) && MayJoin(acc, ns, y, x) && x.droppedFlag && !IsBarrier(x.kind) && y >= 1
    ensures Apply(fx, acc[y], Serial(fx, acc, ns, y - 1)) == Serial(fx, acc, ns, y - 1)
  {
    var z, t :| z in acc && Targets(acc[z], t) && y < z && IsOp(acc, y, t);
    CreatorIsOnly(acc, z, t);
    AbsentBeforeCreator(fx, acc, ns, y - 1, z, t);
    ApplyAbsent(fx, acc[y], Serial(fx, acc, ns, y - 1));
  }

  /** At its own place in the order, x has the effect that it has as a task. */
  lemma JoinsAtItsPlace<TS>(fx: Effects<TS>, acc: Accepted, ns: set<nat>, y: nat, x: Item)
    requires y in acc && y !in ns && SameEffect(acc[y], x) && y >= 1
    requires x.droppedFlag && !IsBarrier(x.kind) ==>
               Apply(fx, acc[y], Serial(fx, acc, ns, y - 1)) == Serial(fx, acc, ns, y - 1)
    ensures Serial(fx, acc, ns + {y}, y) == Perform(fx, x, Serial(fx, acc, ns, y))
  {
    SerialIgnores(fx, acc, ns, y, y - 1);
    ApplySame(fx, acc[y], x, Serial(fx, acc, ns, y - 1));
  }

  lemma PerformCommutes<TS>(fx: Effects<TS>, a: Item, x: Item, b: Item, db: Database<TS>)
    requires SameEffect(a, x) && (x.droppedFlag || Apart(a, b))
    ensures Perform(fx, x, Apply(fx, b, db)) == Apply(fx, b, Perform(fx, x, db))
  {
    if !x.droppedFlag {
      ApplySame(fx, a, x, db);
      ApplySame(fx, a, x, Apply(fx, b, db));
      Commute(fx, a, b, db);
    }
  }

  lemma {:induction false} JoinsLater<TS>(fx: Effects<TS>, acc: Accepted, ns: set<nat>, y: nat, x: Item, k: nat)
    requires y in acc && SameEffect(acc[y], x) && 1 <= y <= k
    requires forall m: nat {:trigger m in ns} :: m in ns && m in acc && y < m ==> x.droppedFlag || Apart(acc[y], acc[m])
    requires Serial(fx, acc, ns + {y}, y) == Perform(fx, x, Serial(fx, acc, ns, y))
    ensures Serial(fx, acc, ns + {y}, k) == Perform(fx, x, Serial(fx, acc, ns, k))
    decreases k
  {
    if k > y {
      JoinsLater(fx, acc, ns, y, x, k - 1);
      if k in ns && k in acc {
        PerformCommutes(fx, acc[y], x, acc[k], Serial(fx, acc, ns, k - 1));
      }
    }
  }

  /** Executing y now gives what executing it at its place in the order would have given. */
  lemma JoinsSerially<TS>(fx: Effects<TS>, acc: Accepted, ns: set<nat>, y: nat, x: Item, k: nat)
    requires SingleRegistration(acc) && MayJoin(acc, ns, y, x) && SameEffect(acc[y], x) && 1 <= y <= k
    ensures Serial(fx, acc, ns + {y}, k) == Perform(fx, x, Serial(fx, acc, ns, k))
  {
    if x.droppedFlag && !IsBarrier(x.kind) {
      DroppedFindsNothing(fx, acc, ns, y, x);
    }
    JoinsAtItsPlace(fx, acc, ns, y, x);
    JoinsLater(fx, acc, ns, y, x, k);
  }

  // ----- what is executed in a run -----

  /** Only dispatched items are executed, and only executed ones complete. */
  ghost predicate ExecOk(s: Sys) {
    && (forall n: nat :: n in s.executed ==> Dispatched(s, n))
    && (forall n: nat :: n in Completed(s) ==> n in s.executed)
  }

  /** Operations are dispatched only once their table has been created. */
  ghost predicate OpsOpened(s: Sys) {
    forall n, t :: IsOp(s.acc, n, t) && Dispatched(s, n) ==> Opened(s, t)
  }

  ghost predicate SerialInv(s: Sys) {
    Inv(s) && OrderlyInv(s) && SingleRegistration(s.acc) && ExecOk(s) && OpsOpened(s)
  }

  /** What one event does to the records of the system. */
  ghost predicate Advances(s: Sys, e: Event, s': Sys) {
    && (forall n :: n in s.acc ==> n in s'.acc && s'.acc[n] == s.acc[n])
    && s'.executed == s.executed + (if e.Execute? then {e.n} else {})
    && (e.Execute? ==> s'.acc == s.acc)
    && (forall n: nat :: n in Completed(s) ==> n in Completed(s'))
    && (forall n: nat :: n in Completed(s') ==> n in Completed(s) || (e == Complete(n) && n in s.inflight))
    && (forall n: nat :: Dispatched(s, n) ==> Dispatched(s', n))
  }

  lemma RegisterAdvances(s: Sys, q: Query, order: seq<string>)
    requires forall n :: n in s.acc ==> n < q.seqno
    ensures Advances(s, Register(q, order), Step(s, Register(q, order)))
  {
    var (q', item) := RegisterTask(s.q, q, order);
    var s' := Step(s, Register(q, order));
    assert s' == s.(q := q') || (item.Some? && s' == s.(q := q', acc := s.acc[q.seqno := item.value]));
  }

  lemma FetchAdvances(s: Sys, q': TaskState, outcome: Outcome)
    ensures Advances(s, Fetch, Fetched(s, q', outcome))
  {
  }

  lemma StepAdvances(s: Sys, e: Event)
    requires Enabled(s, e)
    ensures Advances(s, e, Step(s, e))
  {
    match e
    case Register(q, order) => RegisterAdvances(s, q, order);
    case Fetch => FetchAdvances(s, FetchNext(s.q).0, FetchNext(s.q).1);
    case _ =>
  }

  lemma OpenedStays(s: Sys, e: Event, s': Sys, t: string)
    requires Conserved(s) && Advances(s, e, s') && Opened(s, t)
    ensures Opened(s', t)
  {
    var z :| CompletedTarget(s, z, t);
    assert CompletedTarget(s', z, t);
  }

  lemma StepKeepsOpened(s: Sys, e: Event, s': Sys)
    requires Conserved(s) && Advances(s, e, s') && OpsOpened(s) && TasksOk(s') && Conserved(s')
    requires forall t :: OneToken(s', t)
    ensures OpsOpened(s')
  {
    forall n, t | IsOp(s'.acc, n, t) && Dispatched(s', n) ensures Opened(s', t) {
      if n in s'.inflight {
        assert OneToken(s', t);
        assert FlightOp(s', n, t);
      } else {
        DispatchedIsAccepted(s, n);
        assert IsOp(s.acc, n, t);
        OpenedStays(s, e, s', t);
      }
    }
  }

  lemma StepKeepsExec(s: Sys, e: Event, s': Sys)
    requires ExecOk(s) && Enabled(s, e) && Advances(s, e, s')
    ensures ExecOk(s')
  {
  }

  lemma {:induction false} AlwaysSerial(names: map<string, string>, es: seq<Event>)
    requires IsRun(names, es) && SingleRegistration(After(names, es).acc)
    ensures SerialInv(After(names, es))
    decreases |es|
  {
    AlwaysInv(names, es);
    AlwaysOrderly(names, es);
    if es != [] {
      var es0, e := es[..|es| - 1], es[|es| - 1];
      AlwaysInv(names, es0);
      StepWasSingle(After(names, es0), e);
      AlwaysSerial(names, es0);
      StepAdvances(After(names, es0), e);
      StepKeepsExec(After(names, es0), e, After(names, es));
      StepKeepsOpened(After(names, es0), e, After(names, es));
    }
  }

  // ----- executing a task -----

  /** The query that creates a table has completed before the first operation on it is dispatched. */
  lemma CreatorCompleted(s: Sys, n: nat, k: nat, t: string)
    requires OpsOpened(s) && SingleRegistration(s.acc) && IsOp(s.acc, n, t) && Dispatched(s, n)
    requires k in s.acc && Targets(s.acc[k], t)
    ensures k in Completed(s) && RegisteredBy(s, t) == k
  {
    RegisteredByIs(s, t);
    var z: nat :| CompletedTarget(s, z, t);
    assert Targets(s.acc[k], t) && Targets(s.acc[z], t);
  }

  /** A later query in the executed set shares no table with a task that is about to run. */
  lemma LaterApart(s: Sys, y: nat, k: nat, t: string)
    requires SerialInv(s) && y in s.inflight && y !in s.executed && k in s.executed && y < k
    requires y in s.acc && k in s.acc && (!s.inflight[y].item.droppedFlag || IsBarrier(s.acc[y].kind))
    requires Known(s.acc, s.inflight[y].item) && s.inflight[y].item.seqno == y
    requires Footprint(s.acc[y], t)
    ensures !Footprint(s.acc[k], t)
  {
    DispatchedIsAccepted(s, y);
    assert !(Targets(s.acc[y], t) && Targets(s.acc[k], t));
    if IsOp(s.acc, k, t) {
      if IsOp(s.acc, y, t) {
        EarlierCompleted(s, y, k, t);
      } else {
        CreatorCompleted(s, k, y, t);
      }
      assert false;
    }
    if Targets(s.acc[k], t) {
      assert FlightOp(s, y, t) && FlagRight(s, s.inflight[y].item);
      CreatorCompleted(s, y, k, t);
      assert false;
    }
  }

  /**
    Race-freedom: in a run of a single-registration workload no two tasks that are in
    flight together share a table, so that executing one of them is a single step.
  */
  lemma InFlightApart(names: map<string, string>, es: seq<Event>, m: nat, n: nat)
    requires IsRun(names, es) && SingleRegistration(After(names, es).acc) && m != n
    requires m in After(names, es).inflight && n in After(names, es).inflight
    ensures Apart(After(names, es).inflight[m].item, After(names, es).inflight[n].item)
  {
    AlwaysSerial(names, es);
    var s := After(names, es);
    forall t | Footprint(s.inflight[m].item, t) ensures !Footprint(s.inflight[n].item, t) {
      FlightsApart(s, m, n, t);
    }
  }

  /** A task in flight that touches t is an accepted operation on t, or the accepted creator of t. */
  lemma FlightTouches(s: Sys, n: nat, t: string)
    requires Inv(s) && SingleRegistration(s.acc) && n in s.inflight && Footprint(s.inflight[n].item, t)
    ensures n in s.acc && n !in Completed(s)
    ensures (FlightOp(s, n, t) && IsOp(s.acc, n, t)) || Targets(s.acc[n], t)
  {
    DispatchedIsAccepted(s, n);
    assert Known(s.acc, s.inflight[n].item);
    if s.acc[n].kind == Load {
      LoadsArePlain(s.acc, n);
    }
  }

  lemma FlightsApart(s: Sys, m: nat, n: nat, t: string)
    requires SerialInv(s) && m in s.inflight && n in s.inflight && m != n && Footprint(s.inflight[m].item, t)
    ensures !Footprint(s.inflight[n].item, t)
  {
    FlightTouches(s, m, t);
    if Footprint(s.inflight[n].item, t) {
      FlightTouches(s, n, t);
      assert OneToken(s, t);
      assert !(Targets(s.acc[m], t) && Targets(s.acc[n], t));
      if Targets(s.acc[n], t) {
        CreatorCompleted(s, m, n, t);
      } else if Targets(s.acc[m], t) {
        CreatorCompleted(s, n, m, t);
      }
      assert false;
    }
  }

  lemma ExecuteMayJoin(s: Sys, y: nat)
    requires SerialInv(s) && y in s.inflight && y !in s.executed
    ensures MayJoin(s.acc, s.executed, y, s.inflight[y].item)
    ensures SameEffect(s.acc[y], s.inflight[y].item) && y >= 1
  {
    var x := s.inflight[y].item;
    DispatchedIsAccepted(s, y);
    assert Known(s.acc, x);
    if x.kind == Load {
      LoadsArePlain(s.acc, y);
    }
    if x.droppedFlag && !IsBarrier(x.kind) {
      assert FlagRight(s, x);
      RegisteredByIs(s, x.tableId);
      var z :| CompletedTarget(s, z, x.tableId);
      assert z == RegisteredBy(s, x.tableId);
      assert z in s.acc && Targets(s.acc[z], x.tableId) && y < z && IsOp(s.acc, y, x.tableId);
    } else {
      forall k: nat | k in s.executed && k in s.acc && y < k
        ensures Apart(s.acc[y], s.acc[k])
      {
        forall t | Footprint(s.acc[y], t) ensures !Footprint(s.acc[k], t) {
          LaterApart(s, y, k, t);
        }
      }
    }
  }

  // ----- serial equivalence -----

  lemma {:induction false} SerialOfNone<TS>(fx: Effects<TS>, acc: Accepted, k: nat)
    ensures Serial(fx, acc, {}, k) == map[]
  {
    if k > 0 {
      SerialOfNone(fx, acc, k - 1);
    }
  }

  /** Queries that have not been executed do not matter. */
  lemma {:induction false} SerialSame<TS>(fx: Effects<TS>, acc: Accepted, acc': Accepted, ns: set<nat>, k: nat)
    requires forall n :: n in ns ==> n in acc && n in acc' && acc'[n] == acc[n]
    ensures Serial(fx, acc', ns, k) == Serial(fx, acc, ns, k)
  {
    if k > 0 {
      SerialSame(fx, acc, acc', ns, k - 1);
    }
  }

  lemma ExecutedAccepted(s: Sys, n: nat)
    requires Inv(s) && ExecOk(s) && n in s.executed
    ensures n in s.acc
  {
    DispatchedIsAccepted(s, n);
  }

  /**
    Whatever the interleaving, the database is the one that running the executed
    queries one by one in submission order gives.
  */
  lemma {:induction false} RunsAreSerial<TS>(fx: Effects<TS>, names: map<string, string>, es: seq<Event>, k: nat)
    requires IsRun(names, es) && SingleRegistration(After(names, es).acc)
    requires forall n :: n in After(names, es).executed ==> n <= k
    ensures DatabaseAfter(fx, names, es) == Serial(fx, After(names, es).acc, After(names, es).executed, k)
    decreases |es|
  {
    if es == [] {
      SerialOfNone(fx, Init(names).acc, k);
    } else {
      var es0, e := es[..|es| - 1], es[|es| - 1];
      var s, s' := After(names, es0), After(names, es);
      AlwaysInv(names, es0);
      StepWasSingle(s, e);
      AlwaysSerial(names, es0);
      StepAdvances(s, e);
      RunsAreSerial(fx, names, es0, k);
      StepSerial(fx, s, e, s', k);
    }
  }

  lemma StepSerial<TS>(fx: Effects<TS>, s: Sys, e: Event, s': Sys, k: nat)
    requires SerialInv(s) && Enabled(s, e) && Advances(s, e, s') && (e.Execute? ==> e.n <= k)
    ensures Serial(fx, s'.acc, s'.executed, k) == StepDatabase(fx, s, e, Serial(fx, s.acc, s.executed, k))
  {
    if e.Execute? {
      ExecuteSerial(fx, s, e.n, k);
    } else {
      forall n | n in s.executed ensures n in s.acc {
        ExecutedAccepted(s, n);
      }
      QuietSerial(fx, s, e, s', k);
    }
  }

  lemma QuietSerial<TS>(fx: Effects<TS>, s: Sys, e: Event, s': Sys, k: nat)
    requires Advances(s, e, s') && !e.Execute? && forall n :: n in s.executed ==> n in s.acc
    ensures Serial(fx, s'.acc, s'.executed, k) == Serial(fx, s.acc, s.executed, k)
  {
    assert s'.executed == s.executed;
    SerialSame(fx, s.acc, s'.acc, s.executed, k);
  }

  lemma ExecuteSerial<TS>(fx: Effects<TS>, s: Sys, y: nat, k: nat)
    requires SerialInv(s) && y in s.inflight && y !in s.executed && y <= k
    ensures Serial(fx, s.acc, s.executed + {y}, k) == Perform(fx, s.inflight[y].item, Serial(fx, s.acc, s.executed, k))
  {
    ExecuteMayJoin(s, y);
    JoinsSerially(fx, s.acc, s.executed, y, s.inflight[y].item, k);
  }

  // ----- per table: the state is one that the run in submission order passes through -----

  /** A missing query before an executed one of the same table is an operation submitted before its creation. */
  ghost predicate PrefixClosed(acc: Accepted, ns: set<nat>) {
    && (forall n: nat {:trigger n in ns} :: n in ns ==> n in acc)
    && (forall m: nat, n: nat, t {:trigger Touches(acc, m, t), Touches(acc, n, t)} ::
          Touches(acc, m, t) && Touches(acc, n, t) && m < n && n in ns && m !in ns ==>
          IsOp(acc, m, t) && Targets(acc[n], t) && !IsOp(acc, n, t))
  }

  predicate Touches(acc: Accepted, n: nat, t: string) {
    n in acc && Footprint(acc[n], t)
  }

  lemma ExecutedPrefixClosed(s: Sys)
    requires SerialInv(s)
    ensures PrefixClosed(s.acc, s.executed)
  {
    forall n | n in s.executed ensures n in s.acc {
      ExecutedAccepted(s, n);
    }
    ExecutedInOrder(s);
  }

  lemma ExecutedInOrder(s: Sys)
    requires Conserved(s) && LeftInOrder(s) && OpsOpened(s) && SingleRegistration(s.acc) && ExecOk(s)
    requires forall n :: n in s.executed ==> n in s.acc
    ensures PrefixClosed(s.acc, s.executed)
  {
    forall m: nat, n: nat, t |
      Touches(s.acc, m, t) && Touches(s.acc, n, t) && m < n && n in s.executed && m !in s.executed
      ensures IsOp(s.acc, m, t) && Targets(s.acc[n], t) && !IsOp(s.acc, n, t)
    {
      MissingIsEarlyOp(s, m, n, t);
    }
  }

  lemma MissingIsEarlyOp(s: Sys, m: nat, n: nat, t: string)
    requires Conserved(s) && LeftInOrder(s) && OpsOpened(s) && SingleRegistration(s.acc) && ExecOk(s)
    requires Touches(s.acc, m, t) && Touches(s.acc, n, t) && m < n && n in s.executed && m !in s.executed
    ensures IsOp(s.acc, m, t) && Targets(s.acc[n], t) && !IsOp(s.acc, n, t)
  {
    assert !(Targets(s.acc[m], t) && Targets(s.acc[n], t));
    if IsOp(s.acc, n, t) {
      if IsOp(s.acc, m, t) {
        EarlierCompleted(s, m, n, t);
      } else {
        CreatorCompleted(s, n, m, t);
      }
      assert false;
    }
  }

  /** Up to an executed query of t, the queries that are missing make no difference to t. */
  lemma {:induction false} MissingDoNotMatter<TS>(fx: Effects<TS>, acc: Accepted, ns: set<nat>, k: nat, n: nat,
                                                  t: string)
    requires SingleRegistration(acc) && PrefixClosed(acc, ns)
    requires Touches(acc, n, t) && n in ns && k <= n
    ensures Get(Serial(fx, acc, ns, k), t) == Get(Serial(fx, acc, acc.Keys, k), t)
  {
    if k > 0 {
      MissingDoNotMatter(fx, acc, ns, k - 1, n, t);
      var some, all := Serial(fx, acc, ns, k - 1), Serial(fx, acc, acc.Keys, k - 1);
      if !Touches(acc, k, t) {
        if k in acc {
          ApplyOutside(fx, acc[k], some, t);
          ApplyOutside(fx, acc[k], all, t);
        }
      } else if k in ns {
        forall u ensures Footprint(acc[k], u) ==> Get(some, u) == Get(all, u) {
          if Footprint(acc[k], u) { MissingDoNotMatter(fx, acc, ns, k - 1, k, u); }
        }
        ApplyInside(fx, acc[k], some, all, t);
      } else {
        CreatorIsOnly(acc, n, t);
        AbsentBeforeCreator(fx, acc, acc.Keys, k - 1, n, t);
        ApplyAbsent(fx, acc[k], all);
      }
    }
  }

  lemma {:induction false} NothingLater<TS>(fx: Effects<TS>, acc: Accepted, ns: set<nat>, n: nat, k: nat, t: string)
    requires n <= k && forall m: nat :: m in ns && Touches(acc, m, t) ==> m <= n
    ensures Get(Serial(fx, acc, ns, k), t) == Get(Serial(fx, acc, ns, n), t)
    decreases k
  {
    if n < k {
      NothingLater(fx, acc, ns, n, k - 1, t);
      if k in ns && k in acc {
        assert !Touches(acc, k, t);
        ApplyOutside(fx, acc[k], Serial(fx, acc, ns, k - 1), t);
      }
    }
  }

  /** n is the last executed query that touches t, or 0 if there is none. */
  ghost predicate LastTouch(s: Sys, n: nat, t: string) {
    && (n == 0 || (n in s.executed && Touches(s.acc, n, t)))
    && (forall m: nat :: m in s.executed && Touches(s.acc, m, t) ==> m <= n)
  }

  /**
    Each table is in the state in which running all accepted queries in submission order,
    past any QUIT, leaves it after the last query of that table executed so far; a table
    none of whose queries has been executed does not exist.
  */
  lemma TablesFollowSerialRun<TS>(fx: Effects<TS>, names: map<string, string>, es: seq<Event>, n: nat, t: string)
    requires IsRun(names, es) && SingleRegistration(After(names, es).acc)
    requires LastTouch(After(names, es), n, t)
    ensures var s := After(names, es);
            Get(DatabaseAfter(fx, names, es), t) == Get(Serial(fx, s.acc, s.acc.Keys, n), t)
  {
    var s := After(names, es);
    AlwaysSerial(names, es);
    ExecutedPrefixClosed(s);
    var k := LargestOf(s.executed + {n});
    RunsAreSerial(fx, names, es, k);
    NothingLater(fx, s.acc, s.executed, n, k, t);
    if n > 0 {
      MissingDoNotMatter(fx, s.acc, s.executed, n, n, t);
    }
  }

  ghost function LargestOf(ns: set<nat>): (r: nat)
    ensures forall n :: n in ns ==> n <= r
  {
    if ns == {} then 0
    else
      var m :| m in ns;
      var r := LargestOf(ns - {m});
      assert forall n :: n in ns ==> n == m || n in ns - {m};
      if m > r then m else r
  }

  /** When everything accepted has been executed, the database is that of the run in submission order, past any QUIT. */
  lemma DrainedIsSerial<TS>(fx: Effects<TS>, names: map<string, string>, es: seq<Event>, k: nat)
    requires IsRun(names, es) && SingleRegistration(After(names, es).acc)
    requires After(names, es).executed == After(names, es).acc.Keys
    requires forall n :: n in After(names, es).acc ==> n <= k
    ensures DatabaseAfter(fx, names, es) == Serial(fx, After(names, es).acc, After(names, es).acc.Keys, k)
  {
    RunsAreSerial(fx, names, es, k);
  }
}
