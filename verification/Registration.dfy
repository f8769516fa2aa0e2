/** Registering keeps the dependency records chained and the marks current. */
module RegistrationSpec {
  import opened SchedulerTypes
  import opened TaskQueueSpec
  import opened WaitingSpec
  import D = DependencySpec

  /** What the executor guarantees for the next query. */
  ghost predicate NextQuery(acc: Accepted, dm: D.DepState, q: Query, order: seq<string>) {
    && q.seqno >= 1
    && (forall n :: n in acc ==> n < q.seqno)
    && (q.kind == Load && D.IsPending(dm, q) ==> D.Enumerates(order, D.DroppedTables(dm.lastScheduledTable)))
  }

  /** A nonzero recorded dependency of the new item is the current mark of its table, or the item itself. */
  lemma NewDepIsMark(acc: Accepted, dm: D.DepState, q: Query, order: seq<string>, k: string, d: nat)
    requires MarksCurrent(acc, dm) && NextQuery(acc, dm, q, order)
    requires d > 0 && HasTableDep(D.MarkScheduled(dm, q, order).1, k, d)
    ensures d == D.LastMark(dm.lastScheduledTable, k).seqno
         || (d == q.seqno && IsSelfCopy(D.MarkScheduled(dm, q, order).1) && k == q.tableName)
    ensures k in NotifiedTables(D.MarkScheduled(dm, q, order).1)
    ensures D.LastMark(D.MarkScheduled(dm, q, order).0.lastScheduledTable, k).seqno == q.seqno
  {
    var _ := D.LastMark(dm.lastScheduledTable, q.tableName).seqno;
    var _ := D.LastMark(dm.lastScheduledTable, q.newTable).seqno;
  }

  lemma NewItemNamed(acc: Accepted, dm: D.DepState, q: Query, order: seq<string>)
    requires Chained(acc) && MarksCurrent(acc, dm) && NextQuery(acc, dm, q, order)
    ensures var x := D.MarkScheduled(dm, q, order).1;
            FileDepNamed(acc[q.seqno := x], x) && TableDepNamed(acc[q.seqno := x], x) && PendingWaitsForFile(x)
  {
    var x := D.MarkScheduled(dm, q, order).1;
    var acc' := acc[q.seqno := x];
    forall k, d: nat | d > 0 && HasTableDep(x, k, d)
      ensures d in acc' && k in NotifiedTables(acc'[d]) && (d < x.seqno || (d == x.seqno && IsSelfCopy(x)))
    {
      NewDepIsMark(acc, dm, q, order, k, d);
    }
    assert FileDepNamed(acc', x) by {
      var mark := D.LastMark(dm.lastScheduledFile, q.filePath);
      assert MarkOfFile(acc, mark, q.filePath);
    }
  }

  lemma NewItemChained(acc: Accepted, dm: D.DepState, q: Query, order: seq<string>, m: nat)
    requires Chained(acc) && MarksCurrent(acc, dm) && NextQuery(acc, dm, q, order) && m in acc
    ensures var x := D.MarkScheduled(dm, q, order).1; FileChained(acc[m], x) && TableChained(acc[m], x)
  {
    var a, x := acc[m], D.MarkScheduled(dm, q, order).1;
    assert TableDepNamed(acc, a);
    forall k, d: nat, e: nat | d > 0 && HasTableDep(a, k, d) && e > 0 && HasTableDep(x, k, e)
      ensures d <= a.seqno <= e
    {
      NewDepIsMark(acc, dm, q, order, k, e);
    }
    if a.kind == Load || a.kind == Dump {
      assert UsesFile(a, a.depends.filePath);
    }
  }

  lemma RegisterChains(acc: Accepted, dm: D.DepState, q: Query, order: seq<string>)
    requires Chained(acc) && MarksCurrent(acc, dm) && NextQuery(acc, dm, q, order)
    ensures Chained(acc[q.seqno := D.MarkScheduled(dm, q, order).1])
  {
    var x := D.MarkScheduled(dm, q, order).1;
    var acc' := acc[q.seqno := x];
    NewItemNamed(acc, dm, q, order);
    forall n | n in acc'
      ensures FileDepNamed(acc', acc'[n]) && TableDepNamed(acc', acc'[n]) && PendingWaitsForFile(acc'[n]) {
      if n != q.seqno {
        assert FileDepNamed(acc, acc[n]) && TableDepNamed(acc, acc[n]) && PendingWaitsForFile(acc[n]);
      }
    }
    forall m, n | m in acc' && n in acc' ensures FileChained(acc'[m], acc'[n]) && TableChained(acc'[m], acc'[n]) {
      if m in acc && n in acc {
        assert acc'[m] == acc[m] && acc'[n] == acc[n];
      } else if m in acc && n == q.seqno {
        NewItemChained(acc, dm, q, order, m);
      }
    }
  }

  /** Marks are numbers of accepted items, so the next number is above all of them. */
  lemma MarksBelow(acc: Accepted, dm: D.DepState, q: Query, order: seq<string>)
    requires MarksCurrent(acc, dm) && NextQuery(acc, dm, q, order)
    ensures forall f :: D.LastMark(dm.lastScheduledFile, f).seqno < q.seqno
    ensures forall k :: D.LastMark(dm.lastScheduledTable, k).seqno < q.seqno
  {
  }

  lemma MarkedAt(m: map<string, D.Mark>, key: string, seqno: nat, tag: QueryType, k: string)
    requires D.LastMark(m, key).seqno < seqno
    ensures D.LastMark(D.Marked(m, key, seqno, tag), k) == if k == key then D.Mark(tag, seqno) else D.LastMark(m, k)
  {
  }

  lemma FileMarkMoves(dm: D.DepState, q: Query, order: seq<string>, f: string)
    requires D.LastMark(dm.lastScheduledFile, q.filePath).seqno < q.seqno
    ensures var (dm', x) := D.MarkScheduled(dm, q, order);
            D.LastMark(dm'.lastScheduledFile, f) ==
            if UsesFile(x, f) then D.Mark(q.kind, q.seqno) else D.LastMark(dm.lastScheduledFile, f)
  {
    MarkedAt(dm.lastScheduledFile, q.filePath, q.seqno, q.kind, f);
  }

  lemma RegisterMarksFile(acc: Accepted, dm: D.DepState, q: Query, order: seq<string>)
    requires Chained(acc) && MarksCurrent(acc, dm) && NextQuery(acc, dm, q, order)
    ensures var (dm', x) := D.MarkScheduled(dm, q, order);
            var acc' := acc[q.seqno := x];
            && (forall n, f :: n in acc' && UsesFile(acc'[n], f) ==> n <= D.LastMark(dm'.lastScheduledFile, f).seqno)
            && (forall f :: MarkOfFile(acc', D.LastMark(dm'.lastScheduledFile, f), f))
  {
    var (dm', x) := D.MarkScheduled(dm, q, order);
    var acc' := acc[q.seqno := x];
    MarksBelow(acc, dm, q, order);
    forall n, f | n in acc' && UsesFile(acc'[n], f) ensures n <= D.LastMark(dm'.lastScheduledFile, f).seqno {
      FileMarkMoves(dm, q, order, f);
      if n != q.seqno {
        assert UsesFile(acc[n], f);
      }
    }
    forall f ensures MarkOfFile(acc', D.LastMark(dm'.lastScheduledFile, f), f) {
      FileMarkMoves(dm, q, order, f);
      assert MarkOfFile(acc, D.LastMark(dm.lastScheduledFile, f), f);
    }
  }

  /** Only tables that the new item notifies get a new mark. */
  lemma TableMarkMoves(dm: D.DepState, q: Query, order: seq<string>, k: string)
    requires forall k :: D.LastMark(dm.lastScheduledTable, k).seqno < q.seqno
    ensures var (dm', x) := D.MarkScheduled(dm, q, order);
            var after := D.LastMark(dm'.lastScheduledTable, k).seqno;
            after == D.LastMark(dm.lastScheduledTable, k).seqno || (after == q.seqno && k in NotifiedTables(x))
  {
    match q.kind
    case CopyTable =>
      CopyMarkMoves(dm.lastScheduledTable, q, k);
      assert NotifiedTables(D.MarkScheduled(dm, q, order).1) == [q.tableName, q.newTable];
    case Load => LoadMarkMoves(dm, q, order, k);
    case Dump => PlainMarkMoves(dm, q, order, k);
    case Drop => PlainMarkMoves(dm, q, order, k);
    case _ =>
  }

  lemma LoadMarkMoves(dm: D.DepState, q: Query, order: seq<string>, k: string)
    requires q.kind == Load && D.LastMark(dm.lastScheduledTable, q.tableName).seqno < q.seqno
    ensures var (dm', x) := D.MarkScheduled(dm, q, order);
            var after := D.LastMark(dm'.lastScheduledTable, k).seqno;
            after == D.LastMark(dm.lastScheduledTable, k).seqno || (after == q.seqno && k in NotifiedTables(x))
  {
    var (dm', x) := D.MarkScheduled(dm, q, order);
    if D.IsPending(dm, q) {
      assert dm'.lastScheduledTable == D.Renamed(dm.lastScheduledTable, order, q.seqno);
      assert x.depends.pendingTable == order;
      if k in order {
        assert NotifiedTables(x) == order;
      }
    } else {
      MarkedAt(dm.lastScheduledTable, q.tableName, q.seqno, Load, k);
      assert dm'.lastScheduledTable == D.Marked(dm.lastScheduledTable, q.tableName, q.seqno, Load);
      assert NotifiedTables(x) == [q.tableName];
    }
  }

  lemma PlainMarkMoves(dm: D.DepState, q: Query, order: seq<string>, k: string)
    requires (q.kind == Dump || q.kind == Drop) && D.LastMark(dm.lastScheduledTable, q.tableName).seqno < q.seqno
    ensures var (dm', x) := D.MarkScheduled(dm, q, order);
            var after := D.LastMark(dm'.lastScheduledTable, k).seqno;
            after == D.LastMark(dm.lastScheduledTable, k).seqno || (after == q.seqno && k in NotifiedTables(x))
  {
    MarkedAt(dm.lastScheduledTable, q.tableName, q.seqno, q.kind, k);
  }

  lemma CopyMarkMoves(m: map<string, D.Mark>, q: Query, k: string)
    requires forall k :: D.LastMark(m, k).seqno < q.seqno
    ensures var afterSrc := D.Marked(m, q.tableName, q.seqno, CopyTable);
            var after := D.LastMark(D.Marked(afterSrc, q.newTable, q.seqno, CopyTable), k).seqno;
            after == if k == q.tableName || k == q.newTable then q.seqno else D.LastMark(m, k).seqno
  {
    MarkedAt(m, q.tableName, q.seqno, CopyTable, q.newTable);
  }

  lemma RegisterMarksTable(acc: Accepted, dm: D.DepState, q: Query, order: seq<string>)
    requires Chained(acc) && MarksCurrent(acc, dm) && NextQuery(acc, dm, q, order)
    ensures var (dm', x) := D.MarkScheduled(dm, q, order);
            var acc' := acc[q.seqno := x];
            && (forall n, k, d: nat :: n in acc' && d > 0 && HasTableDep(acc'[n], k, d) ==>
                  n <= D.LastMark(dm'.lastScheduledTable, k).seqno)
            && (forall k :: var d := D.LastMark(dm'.lastScheduledTable, k).seqno;
                            d == 0 || (d in acc' && k in NotifiedTables(acc'[d])))
  {
    var (dm', x) := D.MarkScheduled(dm, q, order);
    var acc' := acc[q.seqno := x];
    MarksBelow(acc, dm, q, order);
    forall n, k, d: nat | n in acc' && d > 0 && HasTableDep(acc'[n], k, d)
      ensures n <= D.LastMark(dm'.lastScheduledTable, k).seqno
    {
      if n != q.seqno {
        assert HasTableDep(acc[n], k, d);
        TableMarkMoves(dm, q, order, k);
      } else {
        NewDepIsMark(acc, dm, q, order, k, d);
      }
    }
    forall k
      ensures var d := D.LastMark(dm'.lastScheduledTable, k).seqno;
              d == 0 || (d in acc' && k in NotifiedTables(acc'[d])) {
      TableMarkMoves(dm, q, order, k);
    }
  }

  lemma PlacedStays(acc: Accepted, s: TaskState, y: Item)
    requires y.seqno !in acc && WellPlaced(acc, s)
    ensures WellPlaced(acc[y.seqno := y], s)
  {
    var acc' := acc[y.seqno := y];
    forall t | t in s.tables ensures QueueOk(acc', t, s.tables[t].queue) {
      assert QueueOk(acc, t, s.tables[t].queue);
    }
    forall ty, k | k in D.Waiting(s.dm, ty)
      ensures HeapOk(acc', ty, k, D.LastCompletedFor(s.dm, ty, k), D.Waiting(s.dm, ty)[k])
    {
      assert HeapOk(acc, ty, k, D.LastCompletedFor(s.dm, ty, k), D.Waiting(s.dm, ty)[k]);
    }
  }

  lemma NewHeaps(acc: Accepted, dm: D.DepState, q: Query, order: seq<string>)
    requires HeapsOk(acc, dm)
    ensures HeapsOk(acc, D.MarkScheduled(dm, q, order).0)
  {
    HeapsUnmoved(acc, dm, D.MarkScheduled(dm, q, order).0);
  }

  lemma HeapsUnmoved(acc: Accepted, dm: D.DepState, dm': D.DepState)
    requires HeapsOk(acc, dm)
    requires dm' == dm.(lastScheduledFile := dm'.lastScheduledFile, lastScheduledTable := dm'.lastScheduledTable)
    ensures HeapsOk(acc, dm')
  {
    forall ty, k | k in D.Waiting(dm', ty)
      ensures HeapOk(acc, ty, k, D.LastCompletedFor(dm', ty, k), D.Waiting(dm', ty)[k])
    {
      assert HeapOk(acc, ty, k, D.LastCompletedFor(dm, ty, k), D.Waiting(dm, ty)[k]);
    }
  }

  lemma NewBarrier(acc: Accepted, barriers: seq<Item>, x: Item)
    requires BarriersOk(acc, barriers) && IsBarrier(x.kind) && forall n :: n in acc ==> n < x.seqno
    ensures BarriersOk(acc[x.seqno := x], barriers + [x])
  {
    forall i | 0 <= i < |barriers| ensures barriers[i].seqno < x.seqno {
      assert barriers[i] in barriers;
    }
  }

  /** x has been appended to the queue of its kind and table; all other items are where they were. */
  ghost predicate AppendedTo(s: TaskState, s': TaskState, x: Item) {
    && s'.barriers == (if IsBarrier(x.kind) then s.barriers + [x] else s.barriers)
    && s'.loadQueue == (if x.kind == Load then s.loadQueue + [x] else s.loadQueue)
    && (forall t :: QueueOf(s', t) ==
          if IsTableKind(x.kind) && t == x.tableId then QueueOf(s, t) + [x] else QueueOf(s, t))
    && s'.dm.waitingFile == s.dm.waitingFile && s'.dm.waitingTable == s.dm.waitingTable && s'.discarded == s.discarded
  }

  lemma RegisterAppends(s: TaskState, q: Query, order: seq<string>)
    requires !s.quitFlag
    ensures var (s', x) := RegisterTask(s, q, order); x.Some? && AppendedTo(s, s', x.value)
  {
  }

  lemma RegisterPlaced(acc: Accepted, s: TaskState, q: Query, order: seq<string>)
    requires WellPlaced(acc, s) && NextQuery(acc, s.dm, q, order) && !s.quitFlag
    ensures var (s', x) := RegisterTask(s, q, order);
            && x.Some? && x.value.seqno == q.seqno && WellPlaced(acc[q.seqno := x.value], s')
            && AppendedTo(s, s', x.value)
  {
    RegisterAppends(s, q, order);
    RegisterKeepsPlaced(acc, s, q, order);
  }

  lemma RegisterKeepsPlaced(acc: Accepted, s: TaskState, q: Query, order: seq<string>)
    requires WellPlaced(acc, s) && NextQuery(acc, s.dm, q, order) && !s.quitFlag
    ensures var (s', x) := RegisterTask(s, q, order);
            x.Some? && x.value.seqno == q.seqno && WellPlaced(acc[q.seqno := x.value], s')
  {
    var (dm, x) := D.MarkScheduled(s.dm, q, order);
    var acc' := acc[q.seqno := x];
    PlacedStays(acc, s, x);
    NewHeaps(acc', s.dm, q, order);
    var s1 := s.(submitted := s.submitted + 1, dm := dm);
    if IsBarrier(q.kind) {
      NewBarrier(acc, s1.barriers, x);
    } else if q.kind != Load {
      QueueOfOk(acc', s1, q.tableName);
      WithQueuePlaced(acc', s1, q.tableName, QueueOf(s1, q.tableName) + [x]);
    }
  }

  /** A COPYTABLE depends on itself exactly when it copies a table onto itself. */
  lemma SelfDependency(acc: Accepted, dm: D.DepState, q: Query, order: seq<string>)
    requires MarksCurrent(acc, dm) && NextQuery(acc, dm, q, order) && q.kind == CopyTable
    ensures var x := D.MarkScheduled(dm, q, order).1;
            (exists k :: HasTableDep(x, k, q.seqno)) <==> q.newTable == q.tableName
  {
    var x := D.MarkScheduled(dm, q, order).1;
    MarksBelow(acc, dm, q, order);
    MarkedAt(dm.lastScheduledTable, q.tableName, q.seqno, CopyTable, q.newTable);
    if q.newTable == q.tableName {
      assert HasTableDep(x, q.newTable, q.seqno);
    } else {
      assert x.depends.srcTableDependsOn < q.seqno && x.depends.dstTableDependsOn < q.seqno;
    }
  }
}
