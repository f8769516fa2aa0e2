/**
  Tokens of a table: its live index entry, its occurrences among the tables held
  back by a barrier, and its parked operations.  This file says what each step of
  the queue does to the number of tokens of each table, for any workload.
*/
module TokenSpec {
  import opened SchedulerTypes
  import opened TaskQueueSpec
  import opened WaitingSpec
  import opened Conservation
  import D = DependencySpec
  import G = GlobalIndexSpec

  function Count(ts: seq<string>, t: string): nat {
    if ts == [] then 0 else (if ts[0] == t then 1 else 0) + Count(ts[1..], t)
  }

  ghost function LiveCount(s: TaskState, t: string): nat {
    if t in G.LiveTables(s.index) then 1 else 0
  }

  /** The tokens that are not index entries. */
  ghost function IdleTokens(s: TaskState, t: string): nat {
    Count(s.waitingTables, t) + ParkedCount(Token(t), s.dm)
  }

  ghost function Tokens(s: TaskState, t: string): nat {
    LiveCount(s, t) + IdleTokens(s, t)
  }

  lemma {:induction false} CountConcat(a: seq<string>, b: seq<string>, t: string)
    ensures Count(a + b, t) == Count(a, t) + Count(b, t)
  {
    if a == [] {
      assert a + b == b;
    } else {
      assert (a + b)[1..] == a[1..] + b;
      CountConcat(a[1..], b, t);
    }
  }

  // ----- index -----

  ghost predicate IndexOk(s: TaskState) {
    G.ValidIndex(s.index)
  }

  lemma UpsertHeadLive(s: TaskState, t: string)
    requires IndexOk(s)
    ensures IndexOk(UpsertHead(s, t))
    ensures G.LiveTables(UpsertHead(s, t).index) == G.LiveTables(s.index) + if QueueOf(s, t) == [] then {} else {t}
  {
    var queue := QueueOf(s, t);
    if queue != [] {
      G.UpsertReplaces(s.index, t, queue[0].priority, s.fetchTick, queue[0].seqno);
    }
  }

  // ----- fetching -----

  lemma {:induction false} PickTableTokens(s: TaskState, u: string)
    requires IndexOk(s)
    ensures var (s', t) := PickTable(s);
            IndexOk(s') && Tokens(s', u) + (if t == Some(u) then 1 else 0) <= Tokens(s, u)
    decreases |s.index.heap|
  {
    var (ix, t) := G.PickBest(s.index);
    var s1 := s.(index := ix);
    G.PickBestTables(s.index);
    if t == None {
    } else if QueueOf(s, t.value) == [] {
      PickTableTokens(s1, u);
    } else if s.barriers != [] && QueueOf(s, t.value)[0].seqno > s.barriers[0].seqno {
      CountConcat(s1.waitingTables, [t.value], u);
      assert Count([t.value], u) == if t.value == u then 1 else 0 by {
        assert [t.value][1..] == [];
      }
      PickTableTokens(s1.(waitingTables := s1.waitingTables + [t.value]), u);
    }
  }

  lemma {:induction false} UpsertAllLive(s: TaskState, ts: seq<string>, u: string)
    requires IndexOk(s)
    ensures IndexOk(UpsertAll(s, ts)) && LiveCount(UpsertAll(s, ts), u) <= LiveCount(s, u) + Count(ts, u)
    decreases |ts|
  {
    if ts != [] {
      var s1 := UpsertHead(s, ts[0]);
      UpsertHeadLive(s, ts[0]);
      assert LiveCount(s1, u) <= LiveCount(s, u) + if ts[0] == u then 1 else 0;
      UpsertAllLive(s1, ts[1..], u);
    }
  }

  lemma FetchBarrierTokens(s: TaskState, u: string)
    requires IndexOk(s)
    ensures IndexOk(FetchBarrier(s).0) && Tokens(FetchBarrier(s).0, u) <= Tokens(s, u)
  {
    if s.barriers != [] && s.running == 0 {
      var b := s.barriers[0];
      var s1 := s.(barriers := s.barriers[1..], quitFlag := s.quitFlag || b.kind == Quit);
      UpsertAllLive(Started(s1), s1.waitingTables, u);
    }
  }

  /** The table whose token a dispatched task has taken along. */
  predicate TakesToken(outcome: Outcome, u: string) {
    outcome.Run? && IsTableKind(outcome.task.item.kind) && outcome.task.item.tableId == u
  }

  /** A turn never adds a token; a dispatched table operation takes its table's token along. */
  ghost predicate TurnTokens(s: TaskState, turn: Turn, u: string) {
    && IndexOk(turn.next)
    && Tokens(turn.next, u) + (if turn.Done? && TakesToken(turn.outcome, u) then 1 else 0) <= Tokens(s, u)
  }

  lemma LoadTurnTokens(s: TaskState, x: LoadItem, u: string)
    requires IndexOk(s)
    ensures TurnTokens(s, LoadTurn(s, x), u)
  {
    var blocker := LoadBlocker(s, x);
    var s' := LoadTurn(s, x).next;
    if blocker.Some? {
      ParkTokens(s, blocker.value, x, u);
      assert s' == Park(s, blocker.value, x) && Hit(Token(u), x) == 0;
    } else {
      SameIndexTokens(s, s', u);
    }
  }

  lemma SameIndexTokens(s: TaskState, s': TaskState, u: string)
    requires s'.index == s.index && s'.waitingTables == s.waitingTables && s'.dm == s.dm
    ensures Tokens(s', u) == Tokens(s, u) && (IndexOk(s') <==> IndexOk(s))
  {
  }

  lemma TableTurnTokens(s: TaskState, load: Option<LoadItem>, t: string, u: string)
    requires IndexOk(s) && QueueOf(s, t) != [] && QueueOf(s, t)[0].tableId == t
    ensures var turn := TableTurn(s, load, t);
            && IndexOk(turn.next)
            && Tokens(turn.next, u) + (if turn.Done? && TakesToken(turn.outcome, u) then 1 else 0)
               <= Tokens(s, u) + if t == u then 1 else 0
  {
    var x := QueueOf(s, t)[0];
    var blocker := TableBlocker(s, x);
    if blocker.Some? {
      AddWaitCount(Token(u), s.dm, blocker.value.0, blocker.value.1, x);
    }
  }

  lemma FetchTurnTokens(acc: Accepted, s: TaskState, u: string)
    requires IndexOk(s) && WellPlaced(acc, s)
    ensures TurnTokens(s, FetchTurn(s), u)
  {
    var (s1, load) := TakeLoad(s);
    var (s2, t) := PickTable(s1);
    assert Tokens(s1, u) == Tokens(s, u);
    PickTableTokens(s1, u);
    if t == None && load == None {
      FetchBarrierTokens(s2, u);
      BarrierOutcome(acc, s2);
    } else if load.Some? && (t == None || PreferLoad(load.value, QueueOf(s2, t.value)[0])) {
      LoadTurnTokens(s2, load.value, u);
    } else {
      QueueHead(acc, s, t.value);
      TableTurnTokens(s2, load, t.value, u);
    }
  }

  lemma QueueHead(acc: Accepted, s: TaskState, t: string)
    requires WellPlaced(acc, s) && QueueOf(s, t) != []
    ensures QueueOf(s, t)[0].tableId == t && Known(acc, QueueOf(s, t)[0]) && IsTableKind(QueueOf(s, t)[0].kind)
  {
    QueueOfOk(acc, s, t);
    assert QueueOf(s, t)[0] in QueueOf(s, t);
  }

  lemma BarrierOutcome(acc: Accepted, s: TaskState)
    requires WellPlaced(acc, s)
    ensures FetchBarrier(s).1.Run? ==> IsBarrier(FetchBarrier(s).1.task.item.kind)
  {
    if s.barriers != [] && s.running == 0 {
      TailOfBarriers(acc, s.barriers);
    }
  }

  /** Fetching never adds a token, and a dispatched table operation takes one along. */
  lemma {:induction false} FetchLoopTokens(acc: Accepted, s: TaskState, u: string)
    requires IndexOk(s) && WellPlaced(acc, s)
    ensures var (s', outcome) := FetchLoop(s);
            IndexOk(s') && Tokens(s', u) + (if TakesToken(outcome, u) then 1 else 0) <= Tokens(s, u)
    decreases |s.loadQueue| + |s.index.heap|
  {
    FetchTurnTokens(acc, s, u);
    FetchTurnOk(acc, s);
    FetchTurnShrinks(s);
    if FetchTurn(s).Again? {
      FetchLoopTokens(acc, FetchTurn(s).next, u);
    }
  }

  // ----- completing -----

  /** Tokens in the queue and in the hand of the running completion. */
  ghost function HandTokens(s: TaskState, hand: seq<Item>, u: string): nat {
    Tokens(s, u) + SeqCount(Token(u), hand)
  }

  ghost function IdleHand(s: TaskState, hand: seq<Item>, u: string): nat {
    IdleTokens(s, u) + SeqCount(Token(u), hand)
  }

  /** From s to s' no token appears; live entries stay. */
  ghost predicate NoNewTokens(s: TaskState, hand: seq<Item>, s': TaskState, hand': seq<Item>, u: string) {
    && IndexOk(s')
    && IdleHand(s', hand', u) <= IdleHand(s, hand, u)
    && HandTokens(s', hand', u) <= HandTokens(s, hand, u)
  }

  lemma UpsertHeadTokens(s: TaskState, t: string, u: string)
    requires IndexOk(s)
    ensures var s' := UpsertHead(s, t);
            && IndexOk(s') && IdleTokens(s', u) == IdleTokens(s, u)
            && LiveCount(s, u) <= LiveCount(s', u) <= LiveCount(s, u) + (if u == t then 1 else 0)
  {
    UpsertHeadLive(s, t);
  }

  lemma PushFrontTokens(s: TaskState, x: Item, u: string)
    requires IndexOk(s)
    ensures var s' := PushFront(s, x);
            && IndexOk(s') && IdleTokens(s', u) == IdleTokens(s, u)
            && LiveCount(s', u) <= LiveCount(s, u) + (if u == x.tableId then 1 else 0)
  {
    var s0 := WithQueue(s, x.tableId, [x] + QueueOf(s, x.tableId));
    assert s0.index == s.index && s0.dm == s.dm && s0.waitingTables == s.waitingTables;
    UpsertHeadTokens(s0, x.tableId, u);
  }

  lemma ParkTokens(s: TaskState, where: (D.DepType, string), x: Item, u: string)
    requires IndexOk(s)
    ensures var s' := Park(s, where, x);
            && IndexOk(s') && LiveCount(s', u) == LiveCount(s, u)
            && IdleTokens(s', u) == IdleTokens(s, u) + Hit(Token(u), x)
  {
    AddWaitCount(Token(u), s.dm, where.0, where.1, x);
  }

  /** A woken item goes to the load queue, to the front of its table, or back to a wait heap. */
  lemma WakeShape(s: TaskState, ty: D.DepType, x: Item)
    ensures var s' := Wake(s, ty, x);
            || (x.kind == Load && s' == s.(loadQueue := s'.loadQueue))
            || (x.kind != Load && s' == PushFront(s, x))
            || s' == Park(s, (D.Table, x.tableId), x)
            || (x.kind == CopyTable && s' == Park(s, (D.Table, x.depends.newTable), x))
  {
  }

  lemma WakeTokens(s: TaskState, ty: D.DepType, x: Item, u: string)
    requires IndexOk(s) && !IsBarrier(x.kind)
    ensures NoNewTokens(s, [x], Wake(s, ty, x), [], u)
  {
    SeqCountOne(Token(u), x);
    WakeShape(s, ty, x);
    var s' := Wake(s, ty, x);
    if x.kind == Load && s' == s.(loadQueue := s'.loadQueue) {
      SameIndexTokens(s, s', u);
    } else if s' == Park(s, (D.Table, x.tableId), x) {
      ParkTokens(s, (D.Table, x.tableId), x, u);
    } else if x.kind != Load && s' == PushFront(s, x) {
      PushFrontTokens(s, x, u);
    } else {
      ParkTokens(s, (D.Table, x.depends.newTable), x, u);
    }
  }

  lemma {:induction false} WakeAllTokens(acc: Accepted, s: TaskState, ty: D.DepType, xs: seq<Item>, u: string)
    requires IndexOk(s) && ReadyOk(acc, xs)
    ensures NoNewTokens(s, xs, WakeAll(s, ty, xs), [], u)
    decreases |xs|
  {
    if xs != [] {
      assert xs[0] in xs;
      WakeTokens(s, ty, xs[0], u);
      SeqCountOne(Token(u), xs[0]);
      WakeAllTokens(acc, Wake(s, ty, xs[0]), ty, xs[1..], u);
    }
  }

  lemma UpdateRecordsTokens(s: TaskState, x: Item, u: string)
    ensures var (s1, files, tables) := UpdateDependencyRecords(s, x);
            && s1.index == s.index && s1.waitingTables == s.waitingTables
            && IdleTokens(s1, u) + SeqCount(Token(u), files) + SeqCount(Token(u), tables) == IdleTokens(s, u)
  {
    var dm1 :=
      if x.kind == Load || x.kind == Dump then
        D.NotifyCompleted(s.dm, D.File, x.depends.filePath, x.seqno).0
      else s.dm;
    if x.kind == Load || x.kind == Dump {
      NotifyCount(Token(u), s.dm, D.File, x.depends.filePath, x.seqno);
    }
    NotifyTablesCount(Token(u), dm1, NotifiedTables(x), x.seqno);
  }

  lemma UpdateDepsTokens(acc: Accepted, s: TaskState, x: Item, u: string)
    requires IndexOk(s) && Chained(acc) && WellPlaced(acc, s)
    ensures NoNewTokens(s, [], ApplyUpdateDeps(s, x), [], u)
  {
    UpdateRecordsTokens(s, x, u);
    UpdateRecordsPlaced(acc, s, x);
    var (s1, files, tables) := UpdateDependencyRecords(s, x);
    WakeAllTokens(acc, s1, D.File, files, u);
    WakeAllTokens(acc, WakeAll(s1, D.File, files), D.Table, tables, u);
  }

  lemma RegisterTableTokens(s: TaskState, t: string, seqno: nat, u: string)
    requires IndexOk(s)
    ensures var s' := RegisterTableQueue(s, t, seqno);
            IndexOk(s') && IdleTokens(s', u) == IdleTokens(s, u) && (u != t ==> LiveCount(s', u) == LiveCount(s, u))
  {
    var tbl := TableAt(s.tables, t);
    if !tbl.registered {
      FlaggedTokens(s, s.tables[t := TableQueue(true, seqno, FlagDropped(tbl.queue, seqno))], t, u);
    } else {
      SameIndexTokens(s, RegisterTableQueue(s, t, seqno), u);
    }
  }

  /** Indexing the head of t once its queue has been replaced. */
  lemma FlaggedTokens(s: TaskState, tables: map<string, TableQueue>, t: string, u: string)
    requires IndexOk(s)
    ensures var s' := UpsertHead(s.(tables := tables), t);
            && IndexOk(s') && IdleTokens(s', u) == IdleTokens(s, u)
            && (u != t ==> LiveCount(s', u) == LiveCount(s, u))
  {
    SameIndexTokens(s, s.(tables := tables), u);
    UpsertHeadTokens(s.(tables := tables), t, u);
  }

  /** The tables whose head a completion puts into the index itself. */
  predicate Touches(task: Task, u: string) {
    task.tableQ == Some(u) || Registers(task, u)
  }

  lemma RegisterActionTokens(s: TaskState, x: Item, u: string)
    requires IndexOk(s)
    ensures var s' := ApplyRegisterTable(s, x);
            && IndexOk(s') && IdleTokens(s', u) == IdleTokens(s, u)
            && (u != x.tableId && !(x.kind == CopyTable && x.depends.newTable == u) ==>
                  LiveCount(s', u) == LiveCount(s, u))
  {
    RegisterTableTokens(s, x.tableId, x.seqno, u);
    if x.kind == CopyTable {
      RegisterTableTokens(RegisterTableQueue(s, x.tableId, x.seqno), x.depends.newTable, x.seqno, u);
    }
  }

  /**
    A completion gives at most one token to each table it puts into the index
    itself, and none to any other table.
  */
  lemma OnCompletedTokens(acc: Accepted, s: TaskState, task: Task, u: string)
    requires IndexOk(s) && Chained(acc) && WellPlaced(acc, s) && TaskOk(task)
    ensures var s' := OnCompleted(s, task);
            && IndexOk(s')
            && IdleTokens(s', u) <= IdleTokens(s, u)
            && (!Touches(task, u) ==> Tokens(s', u) <= Tokens(s, u))
  {
    ActionsTokens(acc, s, task, u);
    if task.tableQ.Some? {
      UpsertHeadTokens(ApplyActions(s, task.actions, task.item), task.tableQ.value, u);
    }
  }

  /** The tables whose head the register action puts into the index. */
  predicate Registers(task: Task, u: string) {
    |task.actions| == 2 && (task.item.tableId == u || (task.item.kind == CopyTable && task.item.depends.newTable == u))
  }

  lemma ActionsTokens(acc: Accepted, s: TaskState, task: Task, u: string)
    requires IndexOk(s) && Chained(acc) && WellPlaced(acc, s) && TaskOk(task)
    ensures var s' := ApplyActions(s, task.actions, task.item);
            && IndexOk(s') && IdleTokens(s', u) <= IdleTokens(s, u)
            && (!Registers(task, u) ==> Tokens(s', u) <= Tokens(s, u))
  {
    var x := task.item;
    var s1 := if |task.actions| == 2 then ApplyRegisterTable(s, x) else s;
    if |task.actions| == 2 {
      RegisterActionTokens(s, x, u);
      RegisterActionPlaced(acc, s, x);
    }
    if task.actions != [] {
      ActionsUnfold(s, task);
      UpdateDepsTokens(acc, s1, x, u);
    }
  }
}
