/**
  The priority index in every run of the scheduler.  The trace of a run lists the upserts
  and picks that its events make, in order; what holds of all lists of index operations
  then holds of all runs.
*/
module PriorityRuns {
  import opened SchedulerTypes
  import opened TaskQueueSpec
  import opened SchedulerSystem
  import D = DependencySpec
  import G = GlobalIndexSpec

  type Trace = seq<G.IndexOp>

  // ----- the index operations of each step -----

  function HeadOps(s: TaskState, t: string): Trace {
    var queue := QueueOf(s, t);
    if queue == [] then [] else [G.Put(t, queue[0].priority, s.fetchTick, queue[0].seqno)]
  }

  function HeadsOps(s: TaskState, ts: seq<string>): Trace
    decreases |ts|
  {
    if ts == [] then [] else HeadOps(s, ts[0]) + HeadsOps(UpsertHead(s, ts[0]), ts[1..])
  }

  /** One pick for each round of the loop in getFetched. */
  function PickOps(s: TaskState): Trace
    decreases |s.index.heap|
  {
    var (ix, t) := G.PickBest(s.index);
    var s1 := s.(index := ix);
    if t == None then [G.Pick]
    else if QueueOf(s, t.value) == [] then [G.Pick] + PickOps(s1)
    else if s.barriers != [] && QueueOf(s, t.value)[0].seqno > s.barriers[0].seqno then
      [G.Pick] + PickOps(s1.(waitingTables := s1.waitingTables + [t.value]))
    else [G.Pick]
  }

  function BarrierOps(s: TaskState): Trace {
    if s.barriers == [] || s.running > 0 then []
    else
      var s1 := s.(barriers := s.barriers[1..], quitFlag := s.quitFlag || s.barriers[0].kind == Quit);
      HeadsOps(Started(s1), s1.waitingTables)
  }

  function TurnOps(s: TaskState): Trace {
    var (s1, load) := TakeLoad(s);
    var (s2, t) := PickTable(s1);
    PickOps(s1) + if t == None && load == None then BarrierOps(s2) else []
  }

  function LoopOps(s: TaskState): Trace
    decreases |s.loadQueue| + |s.index.heap|
  {
    FetchTurnShrinks(s);
    match FetchTurn(s)
    case Done(_, _) => TurnOps(s)
    case Again(s') => TurnOps(s) + LoopOps(s')
  }

  function PushFrontOps(s: TaskState, x: Item): Trace {
    HeadOps(WithQueue(s, x.tableId, [x] + QueueOf(s, x.tableId)), x.tableId)
  }

  /** Only an item that goes back to its table's queue is indexed. */
  function WakeOps(s: TaskState, ty: D.DepType, x: Item): Trace {
    if x.kind != Load && Wake(s, ty, x) == PushFront(s, x) then PushFrontOps(s, x) else []
  }

  function WakeAllOps(s: TaskState, ty: D.DepType, xs: seq<Item>): Trace
    decreases |xs|
  {
    if xs == [] then [] else WakeOps(s, ty, xs[0]) + WakeAllOps(Wake(s, ty, xs[0]), ty, xs[1..])
  }

  function RegisterOps(s: TaskState, t: string, seqno: nat): Trace {
    var tbl := TableAt(s.tables, t);
    if tbl.registered then []
    else HeadOps(s.(tables := s.tables[t := TableQueue(true, seqno, FlagDropped(tbl.queue, seqno))]), t)
  }

  function RegisterActionOps(s: TaskState, x: Item): Trace {
    RegisterOps(s, x.tableId, x.seqno)
    + if x.kind == CopyTable then
        RegisterOps(RegisterTableQueue(s, x.tableId, x.seqno), x.depends.newTable, x.seqno)
      else []
  }

  function UpdateDepsOps(s: TaskState, x: Item): Trace {
    var (s1, files, tables) := UpdateDependencyRecords(s, x);
    WakeAllOps(s1, D.File, files) + WakeAllOps(WakeAll(s1, D.File, files), D.Table, tables)
  }

  function ActionsOps(s: TaskState, actions: seq<Action>, x: Item): Trace
    decreases |actions|
  {
    if actions == [] then []
    else if actions[0] == RegisterTable then
      RegisterActionOps(s, x) + ActionsOps(ApplyRegisterTable(s, x), actions[1..], x)
    else UpdateDepsOps(s, x) + ActionsOps(ApplyUpdateDeps(s, x), actions[1..], x)
  }

  function CompletedOps(s: TaskState, task: Task): Trace {
    ActionsOps(s, task.actions, task.item)
    + if task.tableQ == None then [] else HeadOps(ApplyActions(s, task.actions, task.item), task.tableQ.value)
  }

  function StepOps(s: Sys, e: Event): Trace {
    match e
    case Fetch => if s.q.readyToFetch then LoopOps(s.q) else []
    case Complete(n) => if n in s.inflight then CompletedOps(s.q, s.inflight[n]) else []
    case _ => []
  }

  /** The index operations of the events from number j on. */
  function TraceFrom(names: map<string, string>, es: seq<Event>, j: nat): Trace
    decreases |es|
  {
    if |es| <= j then []
    else TraceFrom(names, es[..|es| - 1], j) + StepOps(After(names, es[..|es| - 1]), es[|es| - 1])
  }

  // ----- the traces are right -----

  /** The operations ops lead from s to s', and each upsert bears the tick of its moment. */
  ghost predicate Follows(s: TaskState, ops: Trace, s': TaskState) {
    && s'.index == G.Replay(s.index, ops, |ops|)
    && s.fetchTick <= s'.fetchTick && G.TicksIn(ops, s.fetchTick, s'.fetchTick)
  }

  lemma FollowsChain(s: TaskState, a: Trace, s1: TaskState, b: Trace, s2: TaskState)
    requires Follows(s, a, s1) && Follows(s1, b, s2)
    ensures Follows(s, a + b, s2)
  {
    G.FoldConcat(G.OPERATE, s.index, a, b, |b|);
  }

  lemma FollowsNone(s: TaskState, s': TaskState)
    requires s'.index == s.index && s.fetchTick <= s'.fetchTick
    ensures Follows(s, [], s')
  {
  }

  lemma FollowsOne(s: TaskState, op: G.IndexOp, s': TaskState)
    requires s'.index == G.Operate(s.index, op) && s'.fetchTick == s.fetchTick
    requires op.Put? ==> op.tick == s.fetchTick
    ensures Follows(s, [op], s')
  {
    assert G.Fold(G.OPERATE, s.index, [op], 1) == G.OPERATE(G.Fold(G.OPERATE, s.index, [op], 0), op);
  }

  /** Other fields do not matter. */
  lemma FollowsFrom(s0: TaskState, s: TaskState, ops: Trace, s': TaskState)
    requires Follows(s, ops, s') && s0.index == s.index && s0.fetchTick <= s.fetchTick
    ensures Follows(s0, ops, s')
  {
  }

  lemma FollowsTo(s: TaskState, ops: Trace, s': TaskState, s1: TaskState)
    requires Follows(s, ops, s') && s1.index == s'.index && s'.fetchTick <= s1.fetchTick
    ensures Follows(s, ops, s1)
  {
  }

  lemma HeadFollows(s: TaskState, t: string)
    ensures Follows(s, HeadOps(s, t), UpsertHead(s, t))
  {
    if QueueOf(s, t) == [] {
      FollowsNone(s, s);
    } else {
      FollowsOne(s, HeadOps(s, t)[0], UpsertHead(s, t));
    }
  }

  lemma {:induction false} HeadsFollow(s: TaskState, ts: seq<string>)
    ensures Follows(s, HeadsOps(s, ts), UpsertAll(s, ts))
    decreases |ts|
  {
    if ts == [] {
      FollowsNone(s, s);
    } else {
      var s1 := UpsertHead(s, ts[0]);
      HeadFollows(s, ts[0]);
      HeadsFollow(s1, ts[1..]);
      FollowsChain(s, HeadOps(s, ts[0]), s1, HeadsOps(s1, ts[1..]), UpsertAll(s, ts));
    }
  }

  lemma {:induction false} PicksFollow(s: TaskState)
    ensures Follows(s, PickOps(s), PickTable(s).0)
    decreases |s.index.heap|
  {
    var (ix, t) := G.PickBest(s.index);
    var s1 := s.(index := ix);
    FollowsOne(s, G.Pick, s1);
    if t == None {
    } else if QueueOf(s, t.value) == [] {
      PicksFollow(s1);
      FollowsChain(s, [G.Pick], s1, PickOps(s1), PickTable(s1).0);
    } else if s.barriers != [] && QueueOf(s, t.value)[0].seqno > s.barriers[0].seqno {
      var s2 := s1.(waitingTables := s1.waitingTables + [t.value]);
      PicksFollow(s2);
      FollowsTo(s, [G.Pick], s1, s2);
      FollowsChain(s, [G.Pick], s2, PickOps(s2), PickTable(s2).0);
    }
  }

  lemma BarrierFollows(s: TaskState)
    ensures Follows(s, BarrierOps(s), FetchBarrier(s).0)
  {
    if s.barriers == [] || s.running > 0 {
      FollowsNone(s, s);
    } else {
      var s1 := s.(barriers := s.barriers[1..], quitFlag := s.quitFlag || s.barriers[0].kind == Quit);
      HeadsFollow(Started(s1), s1.waitingTables);
      FollowsFrom(s, Started(s1), BarrierOps(s), UpsertAll(Started(s1), s1.waitingTables));
      FollowsTo(s, BarrierOps(s), UpsertAll(Started(s1), s1.waitingTables), FetchBarrier(s).0);
    }
  }

  lemma TurnFollows(s: TaskState)
    ensures Follows(s, TurnOps(s), FetchTurn(s).next)
  {
    var (s1, load) := TakeLoad(s);
    var (s2, t) := PickTable(s1);
    PicksFollow(s1);
    FollowsFrom(s, s1, PickOps(s1), s2);
    if t == None && load == None {
      BarrierFollows(s2);
      FollowsChain(s, PickOps(s1), s2, BarrierOps(s2), FetchBarrier(s2).0);
    } else {
      assert PickOps(s1) + [] == PickOps(s1);
      if load.Some? && (t == None || PreferLoad(load.value, QueueOf(s2, t.value)[0])) {
        FollowsTo(s, PickOps(s1), s2, LoadTurn(s2, load.value).next);
      } else {
        FollowsTo(s, PickOps(s1), s2, TableTurn(s2, load, t.value).next);
      }
    }
  }

  lemma {:induction false} LoopFollows(s: TaskState)
    ensures Follows(s, LoopOps(s), FetchLoop(s).0)
    decreases |s.loadQueue| + |s.index.heap|
  {
    TurnFollows(s);
    FetchTurnShrinks(s);
    var turn := FetchTurn(s);
    if turn.Again? {
      LoopFollows(turn.next);
      FollowsChain(s, TurnOps(s), turn.next, LoopOps(turn.next), FetchLoop(turn.next).0);
    }
  }

  lemma PushFrontFollows(s: TaskState, x: Item)
    ensures Follows(s, PushFrontOps(s, x), PushFront(s, x))
  {
    var s1 := WithQueue(s, x.tableId, [x] + QueueOf(s, x.tableId));
    HeadFollows(s1, x.tableId);
    FollowsFrom(s, s1, PushFrontOps(s, x), PushFront(s, x));
  }

  /** A woken item goes to the front of its table, or the index stays as it is. */
  lemma WakeShape(s: TaskState, ty: D.DepType, x: Item)
    ensures (x.kind != Load && Wake(s, ty, x) == PushFront(s, x)) || Wake(s, ty, x).index == s.index
    ensures Wake(s, ty, x).fetchTick == s.fetchTick
  {
  }

  lemma WakeFollows(s: TaskState, ty: D.DepType, x: Item)
    ensures Follows(s, WakeOps(s, ty, x), Wake(s, ty, x))
  {
    WakeShape(s, ty, x);
    if x.kind != Load && Wake(s, ty, x) == PushFront(s, x) {
      PushFrontFollows(s, x);
    } else {
      FollowsNone(s, Wake(s, ty, x));
    }
  }

  lemma {:induction false} WakeAllFollows(s: TaskState, ty: D.DepType, xs: seq<Item>)
    ensures Follows(s, WakeAllOps(s, ty, xs), WakeAll(s, ty, xs))
    decreases |xs|
  {
    if xs == [] {
      FollowsNone(s, s);
    } else {
      var s1 := Wake(s, ty, xs[0]);
      WakeFollows(s, ty, xs[0]);
      WakeAllFollows(s1, ty, xs[1..]);
      FollowsChain(s, WakeOps(s, ty, xs[0]), s1, WakeAllOps(s1, ty, xs[1..]), WakeAll(s, ty, xs));
    }
  }

  lemma RegisterFollows(s: TaskState, t: string, seqno: nat)
    ensures Follows(s, RegisterOps(s, t, seqno), RegisterTableQueue(s, t, seqno))
  {
    var tbl := TableAt(s.tables, t);
    if tbl.registered {
      FollowsNone(s, RegisterTableQueue(s, t, seqno));
    } else {
      var s1 := s.(tables := s.tables[t := TableQueue(true, seqno, FlagDropped(tbl.queue, seqno))]);
      HeadFollows(s1, t);
      FollowsFrom(s, s1, HeadOps(s1, t), UpsertHead(s1, t));
    }
  }

  lemma RegisterActionFollows(s: TaskState, x: Item)
    ensures Follows(s, RegisterActionOps(s, x), ApplyRegisterTable(s, x))
  {
    var s1 := RegisterTableQueue(s, x.tableId, x.seqno);
    RegisterFollows(s, x.tableId, x.seqno);
    if x.kind == CopyTable {
      RegisterFollows(s1, x.depends.newTable, x.seqno);
      FollowsChain(s, RegisterOps(s, x.tableId, x.seqno), s1,
                   RegisterOps(s1, x.depends.newTable, x.seqno), ApplyRegisterTable(s, x));
    } else {
      assert RegisterOps(s, x.tableId, x.seqno) + [] == RegisterOps(s, x.tableId, x.seqno);
    }
  }

  lemma RecordsLeaveIndex(s: TaskState, x: Item)
    ensures var s1 := UpdateDependencyRecords(s, x).0; s1.index == s.index && s1.fetchTick == s.fetchTick
  {
  }

  lemma WakesFollow(s: TaskState, s1: TaskState, files: seq<Item>, tables: seq<Item>)
    requires s1.index == s.index && s1.fetchTick == s.fetchTick
    ensures var s2 := WakeAll(s1, D.File, files);
            Follows(s, WakeAllOps(s1, D.File, files) + WakeAllOps(s2, D.Table, tables), WakeAll(s2, D.Table, tables))
  {
    var s2 := WakeAll(s1, D.File, files);
    WakeAllFollows(s1, D.File, files);
    WakeAllFollows(s2, D.Table, tables);
    FollowsFrom(s, s1, WakeAllOps(s1, D.File, files), s2);
    FollowsChain(s, WakeAllOps(s1, D.File, files), s2, WakeAllOps(s2, D.Table, tables), WakeAll(s2, D.Table, tables));
  }

  lemma UpdateDepsFollows(s: TaskState, x: Item)
    ensures Follows(s, UpdateDepsOps(s, x), ApplyUpdateDeps(s, x))
  {
    var (s1, files, tables) := UpdateDependencyRecords(s, x);
    RecordsLeaveIndex(s, x);
    WakesFollow(s, s1, files, tables);
  }

  lemma {:induction false} ActionsFollow(s: TaskState, actions: seq<Action>, x: Item)
    ensures Follows(s, ActionsOps(s, actions, x), ApplyActions(s, actions, x))
    decreases |actions|
  {
    if actions == [] {
      FollowsNone(s, s);
    } else if actions[0] == RegisterTable {
      var s1 := ApplyRegisterTable(s, x);
      RegisterActionFollows(s, x);
      ActionsFollow(s1, actions[1..], x);
      FollowsChain(s, RegisterActionOps(s, x), s1, ActionsOps(s1, actions[1..], x), ApplyActions(s, actions, x));
    } else {
      var s1 := ApplyUpdateDeps(s, x);
      UpdateDepsFollows(s, x);
      ActionsFollow(s1, actions[1..], x);
      FollowsChain(s, UpdateDepsOps(s, x), s1, ActionsOps(s1, actions[1..], x), ApplyActions(s, actions, x));
    }
  }

  lemma CompletedFollows(s: TaskState, task: Task)
    ensures Follows(s, CompletedOps(s, task), OnCompleted(s, task))
  {
    var ops, s1 := ActionsOps(s, task.actions, task.item), ApplyActions(s, task.actions, task.item);
    ActionsFollow(s, task.actions, task.item);
    if task.tableQ == None {
      assert ops + [] == ops;
    } else {
      HeadFollows(s1, task.tableQ.value);
      FollowsChain(s, ops, s1, HeadOps(s1, task.tableQ.value), OnCompleted(s, task));
    }
  }

  lemma StepFollows(s: Sys, e: Event)
    ensures Follows(s.q, StepOps(s, e), Step(s, e).q)
  {
    match e
    case Register(q, order) => RegisterFollowsNone(s, q, order);
    case Ready => FollowsNone(s.q, Step(s, e).q);
    case Fetch => FetchFollows(s);
    case Execute(n) => FollowsNone(s.q, Step(s, e).q);
    case Complete(n) => CompleteFollows(s, n);
    case Finish(n) => FollowsNone(s.q, Step(s, e).q);
  }

  lemma RegisterFollowsNone(s: Sys, q: Query, order: seq<string>)
    ensures Follows(s.q, [], Step(s, Register(q, order)).q)
  {
    FollowsNone(s.q, RegisterTask(s.q, q, order).0);
  }

  lemma FetchedQueue(s: Sys, q': TaskState, outcome: Outcome)
    ensures Fetched(s, q', outcome).q == q'
  {
  }

  lemma FetchFollows(s: Sys)
    ensures Follows(s.q, StepOps(s, Fetch), Step(s, Fetch).q)
  {
    FetchedQueue(s, FetchNext(s.q).0, FetchNext(s.q).1);
    if s.q.readyToFetch {
      LoopFollows(s.q);
    } else {
      FollowsNone(s.q, s.q);
    }
  }

  lemma CompleteFollows(s: Sys, n: nat)
    ensures Follows(s.q, StepOps(s, Complete(n)), Step(s, Complete(n)).q)
  {
    if n in s.inflight {
      CompletedFollows(s.q, s.inflight[n]);
    } else {
      FollowsNone(s.q, s.q);
    }
  }

  lemma {:induction false} TraceFollows(names: map<string, string>, es: seq<Event>, j: nat)
    requires j <= |es|
    ensures Follows(After(names, es[..j]).q, TraceFrom(names, es, j), After(names, es).q)
    decreases |es|
  {
    if j == |es| {
      assert es[..j] == es;
      FollowsNone(After(names, es).q, After(names, es).q);
    } else {
      var es0, e := es[..|es| - 1], es[|es| - 1];
      assert es0[..j] == es[..j];
      TraceFollows(names, es0, j);
      StepFollows(After(names, es0), e);
      FollowsChain(After(names, es[..j]).q, TraceFrom(names, es0, j), After(names, es0).q,
                   StepOps(After(names, es0), e), After(names, es).q);
    }
  }

  // ----- what holds in every run -----

  lemma AlwaysValid(names: map<string, string>, es: seq<Event>)
    ensures G.ValidIndex(After(names, es).q.index)
  {
    TraceFollows(names, es, 0);
    assert es[..0] == [];
    G.ReplayValid(Init(names).q.index, TraceFrom(names, es, 0), |TraceFrom(names, es, 0)|);
  }

  /**
    In every reachable state of every run, although the comparator is not transitive:
    pickBest reports empty exactly when no entry is live, and else takes out one live
    entry than which no live entry has a better priority class.
  */
  lemma PicksBestClass(names: map<string, string>, es: seq<Event>)
    ensures var ix := After(names, es).q.index;
            var (ix', t) := G.PickBest(ix);
            && (t == None <==> G.Live(ix) == {})
            && (t.Some? ==>
                  exists k :: k in G.Live(ix) && k.tbl == t.value && G.Live(ix') == G.Live(ix) - {k}
                              && forall l :: l in G.Live(ix) ==> k.pri <= l.pri)
  {
    AlwaysValid(names, es);
    G.PickBestPicks(After(names, es).q.index);
  }

  /** In the trace of every stretch of every run there is an upsert of a table between two picks of it. */
  lemma PutBetweenPicks(names: map<string, string>, es: seq<Event>, from: nat, i: nat, j: nat, t: string)
    requires from <= |es| && i < j
    requires var ix, ops := After(names, es[..from]).q.index, TraceFrom(names, es, from);
             G.PicksAt(ix, ops, i, t) && G.PicksAt(ix, ops, j, t)
    ensures G.PutWithin(TraceFrom(names, es, from), i + 1, j, t)
  {
    AlwaysValid(names, es[..from]);
    G.PutBetweenPicks(After(names, es[..from]).q.index, TraceFrom(names, es, from), i, j, t);
  }

  /** A table that is not live in some state of a run is not picked later on before it is upserted. */
  lemma NotPickedUnlessPut(names: map<string, string>, es: seq<Event>, from: nat, j: nat, t: string)
    requires from <= |es| && t !in G.LiveTables(After(names, es[..from]).q.index)
    requires G.PicksAt(After(names, es[..from]).q.index, TraceFrom(names, es, from), j, t)
    ensures G.PutWithin(TraceFrom(names, es, from), 0, j, t)
  {
    AlwaysValid(names, es[..from]);
    G.NotPickedUnlessPut(After(names, es[..from]).q.index, TraceFrom(names, es, from), 0, j, t);
  }

  // ----- the exact pick -----

  /** At most n ticks have passed since the state after j events, in which the heap was empty. */
  ghost predicate Stretch(names: map<string, string>, es: seq<Event>, j: nat, n: nat) {
    && IsRun(names, es) && j <= |es|
    && After(names, es[..j]).q.index.heap == []
    && After(names, es).q.fetchTick <= After(names, es[..j]).q.fetchTick + n
  }

  /**
    While fewer than 64 ticks have passed since the index was last empty, every pick takes
    out a live entry that is least by (priority, headSeq): each one within the stretch
    and the one that would come next.
  */
  lemma StretchPicksLeast(names: map<string, string>, es: seq<Event>, j: nat, i: nat)
    requires Stretch(names, es, j, G.FAIRNESS_QUANTUM - 1) && i <= |TraceFrom(names, es, j)|
    ensures G.PicksLeast(G.Replay(After(names, es[..j]).q.index, TraceFrom(names, es, j), i))
    ensures G.PicksLeast(After(names, es).q.index)
  {
    var s, s' := After(names, es[..j]).q, After(names, es).q;
    var ops := TraceFrom(names, es, j);
    AlwaysValid(names, es[..j]);
    TraceFollows(names, es, j);
    G.StretchIsExact(s.index, ops, i, s.fetchTick, s'.fetchTick);
    G.StretchIsExact(s.index, ops, |ops|, s.fetchTick, s'.fetchTick);
    G.SoundPicksLeast(G.Replay(s.index, ops, i));
    G.SoundPicksLeast(G.Replay(s.index, ops, |ops|));
  }
}
