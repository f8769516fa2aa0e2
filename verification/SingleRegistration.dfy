/**
  Workloads in which every table is created at most once.  In them each table has
  at most one token, its queue stays sorted, and its operations are dispatched one
  at a time in submission order.
*/
module SingleRegistrationSpec {
  import opened SchedulerTypes
  import opened TaskQueueSpec
  import opened SchedulerSystem
  import opened WaitingSpec
  import opened Conservation
  import opened TokenSpec
  import opened SchedulerInvariant
  import D = DependencySpec

  /**
    Each table is the target of at most one LOAD or COPYTABLE; no COPYTABLE copies
    onto its source; no LOAD reads a file that an earlier DUMP wrote; LOADs of the
    same file name the same table.
  */
  ghost predicate SingleRegistration(acc: Accepted) {
    && (forall m, n, t {:trigger Targets(acc[m], t), Targets(acc[n], t)} ::
          m in acc && n in acc && Targets(acc[m], t) && Targets(acc[n], t) ==> m == n)
    && (forall n {:trigger IsSelfCopy(acc[n])} :: n in acc ==> !IsSelfCopy(acc[n]))
    && (forall m, n {:trigger ShareFile(acc[m], acc[n])} ::
          m in acc && n in acc && m < n && acc[m].kind == Dump && acc[n].kind == Load ==> !ShareFile(acc[m], acc[n]))
    && (forall m, n {:trigger ShareFile(acc[m], acc[n])} ::
          m in acc && n in acc && acc[m].kind == Load && acc[n].kind == Load && ShareFile(acc[m], acc[n]) ==>
          acc[m].tableId == acc[n].tableId)
  }

  /** In such a workload no LOAD is pending on dropped tables and none is marked dropped. */
  lemma LoadsArePlain(acc: Accepted, n: nat)
    requires SingleRegistration(acc) && Numbered(acc) && FilesChained(acc) && n in acc && acc[n].kind == Load
    ensures acc[n].depends.pendingTable == [] && !acc[n].droppedFlag
  {
    var x := acc[n];
    assert FileDepNamed(acc, x);
    var d := FileDep(x);
    if d in acc {
      assert ShareFile(acc[d], acc[n]) ==> acc[d].kind == Load && Targets(acc[d], x.tableId) && Targets(x, x.tableId);
    }
  }

  predicate IsOp(acc: Accepted, n: nat, t: string) {
    n in acc && IsTableKind(acc[n].kind) && acc[n].tableId == t
  }

  predicate InQueue(s: TaskState, t: string, n: nat) {
    exists i :: 0 <= i < |QueueOf(s, t)| && QueueOf(s, t)[i].seqno == n
  }

  predicate RegisteredIn(s: TaskState, t: string) {
    TableAt(s.tables, t).registered
  }

  predicate CompletedTarget(s: Sys, z: nat, t: string) {
    z in Completed(s) && z in s.acc && Targets(s.acc[z], t)
  }

  ghost predicate Opened(s: Sys, t: string) {
    exists z :: CompletedTarget(s, z, t)
  }

  /** The completed item that created t, or 0. */
  ghost function RegisteredBy(s: Sys, t: string): nat {
    if z: nat :| CompletedTarget(s, z, t) then z else 0
  }

  // ----- the invariant -----

  predicate FlightOp(s: Sys, n: nat, t: string) {
    n in s.inflight && IsTableKind(s.inflight[n].item.kind) && s.inflight[n].item.tableId == t
  }

  /** A table has at most one token; none before it is created or while an operation of it is in flight. */
  ghost predicate OneToken(s: Sys, t: string) {
    && Tokens(s.q, t) <= 1
    && (!Opened(s, t) ==> Tokens(s.q, t) == 0 && !RegisteredIn(s.q, t))
    && (forall n :: FlightOp(s, n, t) ==> Opened(s, t) && Tokens(s.q, t) == 0)
    && (forall m, n :: FlightOp(s, m, t) && FlightOp(s, n, t) ==> m == n)
  }

  ghost predicate StrictlySorted(queue: seq<Item>) {
    forall i, j :: 0 <= i < j < |queue| ==> queue[i].seqno < queue[j].seqno
  }

  ghost predicate QueuesSorted(s: TaskState) {
    forall t :: StrictlySorted(QueueOf(s, t))
  }

  /** Once an operation has left its queue every earlier one of the table has completed. */
  ghost predicate LeftInOrder(s: Sys) {
    forall m, n, t {:trigger IsOp(s.acc, m, t), IsOp(s.acc, n, t)} ::
      IsOp(s.acc, m, t) && IsOp(s.acc, n, t) && m < n && !InQueue(s.q, t, n) ==> m in Completed(s)
  }

  ghost predicate IsParked(dm: D.DepState, y: Item) {
    exists ty, k :: k in D.Waiting(dm, ty) && y in D.Waiting(dm, ty)[k]
  }

  /** A table operation is marked dropped exactly when its table was created after it was submitted. */
  ghost predicate FlagRight(s: Sys, y: Item) {
    y.droppedFlag <==> y.seqno < RegisteredBy(s, y.tableId)
  }

  ghost predicate FlagsRight(s: Sys) {
    && (forall t, y :: y in QueueOf(s.q, t) ==> FlagRight(s, y))
    && (forall y :: IsParked(s.q.dm, y) && IsTableKind(y.kind) ==> FlagRight(s, y))
    && (forall n :: n in s.inflight && IsTableKind(s.inflight[n].item.kind) ==> FlagRight(s, s.inflight[n].item))
  }

  ghost predicate LoadsRegister(s: Sys) {
    forall n :: n in s.inflight && s.inflight[n].item.kind == Load ==>
      s.inflight[n].actions == [RegisterTable, UpdateDeps]
  }

  ghost predicate ControlOnly(acc: Accepted) {
    forall n :: n in acc && IsBarrier(acc[n].kind) ==> acc[n].tableId == CONTROL_TABLE
  }

  ghost predicate Base(s: Sys) {
    && Conserved(s) && Chained(s.acc) && WellPlaced(s.acc, s.q) && TasksOk(s)
    && ControlOnly(s.acc) && IndexOk(s.q)
  }

  ghost predicate Orderly(s: Sys) {
    && (forall t :: OneToken(s, t))
    && QueuesSorted(s.q) && LeftInOrder(s) && FlagsRight(s) && LoadsRegister(s)
  }

  // ----- where an operation can be -----

  lemma {:induction false} SeqCountFinds(p: Probe, xs: seq<Item>)
    ensures SeqCount(p, xs) > 0 ==> exists x :: x in xs && Hit(p, x) > 0
  {
    if xs != [] {
      SeqCountFinds(p, xs[1..]);
      if Hit(p, xs[0]) > 0 {
        assert xs[0] in xs;
      }
    }
  }

  lemma {:induction false} SeqCountCounts(p: Probe, xs: seq<Item>, x: Item)
    requires x in xs
    ensures SeqCount(p, xs) >= Hit(p, x)
  {
    if xs[0] != x {
      SeqCountCounts(p, xs[1..], x);
    }
  }

  lemma {:induction false} MapCountFinds(p: Probe, m: map<string, seq<Item>>)
    ensures MapCount(p, m) > 0 ==> exists k, x :: k in m && x in m[k] && Hit(p, x) > 0
    decreases |m|
  {
    if m != map[] && MapCount(p, m) > 0 {
      var k :| k in m && MapCount(p, m) == SeqCount(p, m[k]) + MapCount(p, m - {k});
      assert k in m.Keys && k !in (m - {k}).Keys;
      SeqCountFinds(p, m[k]);
      MapCountFinds(p, m - {k});
      if SeqCount(p, m[k]) == 0 {
        var j, x :| j in m - {k} && x in (m - {k})[j] && Hit(p, x) > 0;
        assert j in m && x in m[j];
      }
    }
  }

  lemma MapCountCounts(p: Probe, m: map<string, seq<Item>>, k: string, x: Item)
    requires k in m && x in m[k]
    ensures MapCount(p, m) >= Hit(p, x)
  {
    MapCountRemove(p, m, k);
    SeqCountCounts(p, m[k], x);
  }

  lemma ParkedCounts(p: Probe, dm: D.DepState, y: Item)
    requires IsParked(dm, y)
    ensures ParkedCount(p, dm) >= Hit(p, y)
  {
    var ty, k :| k in D.Waiting(dm, ty) && y in D.Waiting(dm, ty)[k];
    MapCountCounts(p, D.Waiting(dm, ty), k, y);
  }

  lemma ParkedFinds(p: Probe, dm: D.DepState)
    requires ParkedCount(p, dm) > 0
    ensures exists y :: IsParked(dm, y) && Hit(p, y) > 0
  {
    if MapCount(p, dm.waitingFile) > 0 {
      MapCountFinds(p, dm.waitingFile);
      var k, x :| k in dm.waitingFile && x in dm.waitingFile[k] && Hit(p, x) > 0;
      assert k in D.Waiting(dm, D.File) && x in D.Waiting(dm, D.File)[k];
    } else {
      MapCountFinds(p, dm.waitingTable);
      var k, x :| k in dm.waitingTable && x in dm.waitingTable[k] && Hit(p, x) > 0;
      assert k in D.Waiting(dm, D.Table) && x in D.Waiting(dm, D.Table)[k];
    }
  }

  lemma ParkedKnown(acc: Accepted, dm: D.DepState, y: Item)
    requires HeapsOk(acc, dm) && IsParked(dm, y)
    ensures Known(acc, y)
  {
    var ty, k :| k in D.Waiting(dm, ty) && y in D.Waiting(dm, ty)[k];
    assert HeapOk(acc, ty, k, D.LastCompletedFor(dm, ty, k), D.Waiting(dm, ty)[k]);
  }

  /** A held table operation is in its queue or parked. */
  lemma HeldOp(acc: Accepted, s: TaskState, n: nat, t: string)
    requires WellPlaced(acc, s) && IsOp(acc, n, t) && Held(Id(n), s) > 0
    ensures InQueue(s, t, n) || ParkedCount(Token(t), s.dm) > 0
  {
    var p := Id(n);
    SeqCountFinds(p, s.loadQueue);
    SeqCountFinds(p, s.barriers);
    SeqCountFinds(p, s.discarded);
    if MapCount(p, Queues(s.tables)) > 0 {
      MapCountFinds(p, Queues(s.tables));
      var k, x :| k in Queues(s.tables) && x in Queues(s.tables)[k] && Hit(p, x) > 0;
      assert QueueOk(acc, k, s.tables[k].queue);
      var i :| 0 <= i < |s.tables[k].queue| && s.tables[k].queue[i] == x;
      assert QueueOf(s, t)[i].seqno == n;
    } else {
      assert ParkedCount(p, s.dm) > 0;
      ParkedFinds(p, s.dm);
      var y :| IsParked(s.dm, y) && Hit(p, y) > 0;
      ParkedKnown(acc, s.dm, y);
      ParkedCounts(Token(t), s.dm, y);
    }
  }

  /** Every accepted table operation is in its queue, parked, in flight or completed. */
  lemma Located(s: Sys, n: nat, t: string)
    requires Conserved(s) && WellPlaced(s.acc, s.q) && TasksOk(s) && IsOp(s.acc, n, t)
    ensures InQueue(s.q, t, n) || ParkedCount(Token(t), s.q.dm) > 0 || FlightOp(s, n, t) || n in Completed(s)
  {
    assert Places(s, n) == Occurs(n, s.acc.Keys);
    if Held(Id(n), s.q) > 0 {
      HeldOp(s.acc, s.q, n, t);
    }
  }

  lemma QueuedIsHeld(s: TaskState, t: string, n: nat)
    requires InQueue(s, t, n)
    ensures Held(Id(n), s) > 0
  {
    var i :| 0 <= i < |QueueOf(s, t)| && QueueOf(s, t)[i].seqno == n;
    assert t in Queues(s.tables) && QueueOf(s, t)[i] in Queues(s.tables)[t];
    MapCountCounts(Id(n), Queues(s.tables), t, QueueOf(s, t)[i]);
  }

  lemma QueuedIsFresh(s: Sys, t: string, n: nat)
    requires Conserved(s) && InQueue(s.q, t, n)
    ensures !Dispatched(s, n)
  {
    QueuedIsHeld(s.q, t, n);
    HeldIsFresh(s, n);
  }

  lemma ParkedIsFresh(s: Sys, y: Item)
    requires Conserved(s) && IsParked(s.q.dm, y)
    ensures !Dispatched(s, y.seqno)
  {
    ParkedCounts(Id(y.seqno), s.q.dm, y);
    HeldIsFresh(s, y.seqno);
  }
}
