/**
  The fairness window is exact.  A run of one worker: LOAD b, 64 TRUNCATEs of b and an
  INSERT into b, LOAD a and an INSERT into a.  Both LOADs are fetched before the first
  completes.  While the TRUNCATEs run one by one, a's entry keeps its stamp; when b's
  INSERT is indexed 64 ticks later, pickBest prefers a although b's head is earlier.
*/
module FairnessWindow {
  import opened SchedulerTypes
  import opened TaskQueueSpec
  import opened SchedulerSystem
  import opened ExampleRuns
  import opened PriorityRuns
  import D = DependencySpec
  import G = GlobalIndexSpec

  const ROUNDS: nat := 64

  function LoadQueryB(w: Setup): Query {
    Query(1, 1, w.b, Load, w.f, "")
  }

  function LoadQueryA(w: Setup): Query {
    Query(67, 1, w.a, Load, w.g, "")
  }

  function InsertQueryA(w: Setup): Query {
    Query(68, 2, w.a, Insert, "", "")
  }

  function LoadedB(w: Setup): LoadItem {
    RawItem(1, 1, w.b, Load, LoadDeps(0, 0, w.f, []), false)
  }

  function LoadedA(w: Setup): LoadItem {
    RawItem(67, 1, w.a, Load, LoadDeps(0, 0, w.g, []), false)
  }

  function InsertedA(w: Setup): Item {
    RawItem(68, 2, w.a, Insert, NoDeps, false)
  }

  function Class(i: nat): nat {
    if i < ROUNDS then 1 else 2
  }

  /** The queries on b: 64 TRUNCATEs and an INSERT. */
  function QueryB(w: Setup, i: nat): Query {
    Query(2 + i, Class(i), w.b, if i < ROUNDS then Truncate else Insert, "", "")
  }

  function ItemB(w: Setup, i: nat): Item {
    RawItem(2 + i, Class(i), w.b, if i < ROUNDS then Truncate else Insert, NoDeps, false)
  }

  function QueueB(w: Setup, n: nat): (r: seq<Item>)
    ensures |r| == n && forall i :: 0 <= i < n ==> r[i] == ItemB(w, i)
  {
    seq(n, i requires i >= 0 => ItemB(w, i))
  }

  // ----- registration -----

  /** Nothing is registered, indexed, parked or held back, and the queues are as given. */
  ghost predicate Queued(w: Setup, q: TaskState, loads: seq<LoadItem>, b: seq<Item>, a: seq<Item>) {
    && q.loadQueue == loads && QueueOf(q, w.b) == b && QueueOf(q, w.a) == a
    && !TableAt(q.tables, w.a).registered && !TableAt(q.tables, w.b).registered
    && q.index == G.Index([], map[]) && q.fetchTick == 0 && !q.quitFlag
    && Calm(q)
  }

  ghost predicate Calm(q: TaskState) {
    q.barriers == [] && !q.loadBlocked && Unwaited(q.dm)
  }

  /** Only LOAD b is recorded as scheduled. */
  ghost predicate OnlyB(w: Setup, dm: D.DepState) {
    dm.lastScheduledFile.Keys == {w.f} && dm.lastScheduledTable.Keys == {w.b}
  }

  lemma FirstRegistered(w: Setup, names: map<string, string>) returns (es: seq<Event>)
    ensures IsRun(names, es)
    ensures var s := After(names, es);
            Fresh(s) && Queued(w, s.q, [LoadedB(w)], [], []) && OnlyB(w, s.q.dm) && s.acc.Keys == {1}
  {
    var q := InitialState(names);
    RegisterFirstLoad(q, LoadQueryB(w));
    es := RegisterOne(names, [], LoadQueryB(w), RegisterTask(q, LoadQueryB(w), []).0, LoadedB(w));
  }

  lemma QueueBGrows(w: Setup, q: TaskState, n: nat)
    requires Queued(w, q, [LoadedB(w)], QueueB(w, n), []) && OnlyB(w, q.dm)
    ensures var (q', item) := RegisterTask(q, QueryB(w, n), []);
            item == Some(ItemB(w, n)) && Queued(w, q', [LoadedB(w)], QueueB(w, n + 1), []) && OnlyB(w, q'.dm)
  {
    RegisterPlain(q, QueryB(w, n));
    AppendB(w, q, n);
  }

  lemma AppendB(w: Setup, q: TaskState, n: nat)
    requires Queued(w, q, [LoadedB(w)], QueueB(w, n), [])
    ensures var q' := WithQueue(q.(submitted := q.submitted + 1), w.b, QueueOf(q, w.b) + [ItemB(w, n)]);
            Queued(w, q', [LoadedB(w)], QueueB(w, n + 1), [])
  {
    assert QueueB(w, n + 1) == QueueB(w, n) + [ItemB(w, n)];
  }

  /** LOAD b and n queries on b are registered. */
  ghost predicate RegisteredB(w: Setup, s: Sys, n: nat) {
    && Fresh(s) && Queued(w, s.q, [LoadedB(w)], QueueB(w, n), []) && OnlyB(w, s.q.dm)
    && (forall k :: k in s.acc ==> k <= 1 + n)
  }

  lemma {:induction false} BRegistered(w: Setup, names: map<string, string>, n: nat) returns (es: seq<Event>)
    ensures IsRun(names, es) && RegisteredB(w, After(names, es), n)
  {
    if n == 0 {
      es := FirstRegistered(w, names);
    } else {
      var es0 := BRegistered(w, names, n - 1);
      es := NextRegistered(w, names, es0, n - 1);
    }
  }

  lemma NextRegistered(w: Setup, names: map<string, string>, es: seq<Event>, n: nat) returns (more: seq<Event>)
    requires IsRun(names, es) && RegisteredB(w, After(names, es), n)
    ensures IsRun(names, more) && RegisteredB(w, After(names, more), n + 1)
  {
    var q := After(names, es).q;
    QueueBGrows(w, q, n);
    more := RegisterOne(names, es, QueryB(w, n), RegisterTask(q, QueryB(w, n), []).0, ItemB(w, n));
  }

  lemma AQueued(w: Setup, q: TaskState)
    requires Queued(w, q, [LoadedB(w)], QueueB(w, ROUNDS + 1), []) && OnlyB(w, q.dm)
    ensures var (q1, load) := RegisterTask(q, LoadQueryA(w), []);
            var (q2, item) := RegisterTask(q1, InsertQueryA(w), []);
            && load == Some(LoadedA(w)) && item == Some(InsertedA(w)) && !D.IsPending(q.dm, LoadQueryA(w))
            && Queued(w, q2, [LoadedB(w), LoadedA(w)], QueueB(w, ROUNDS + 1), [InsertedA(w)])
  {
    RegisterFirstLoad(q, LoadQueryA(w));
    RegisterPlain(RegisterTask(q, LoadQueryA(w), []).0, InsertQueryA(w));
    assert [] + [InsertedA(w)] == [InsertedA(w)] && [LoadedB(w)] + [LoadedA(w)] == [LoadedB(w), LoadedA(w)];
  }

  lemma AllRegistered(w: Setup, names: map<string, string>) returns (es: seq<Event>)
    ensures IsRun(names, es)
    ensures var s := After(names, es);
            Fresh(s) && Queued(w, s.q, [LoadedB(w), LoadedA(w)], QueueB(w, ROUNDS + 1), [InsertedA(w)])
  {
    es := BRegistered(w, names, ROUNDS + 1);
    var q := After(names, es).q;
    AQueued(w, q);
    var q1 := RegisterTask(q, LoadQueryA(w), []).0;
    es := RegisterOne(names, es, LoadQueryA(w), q1, LoadedA(w));
    es := RegisterOne(names, es, InsertQueryA(w), RegisterTask(q1, InsertQueryA(w), []).0, InsertedA(w));
  }

  // ----- both LOADs are fetched -----

  function TaskOfB(w: Setup): Task {
    Task(LoadedB(w), [RegisterTable, UpdateDeps], Some(w.b))
  }

  function TaskOfA(w: Setup): Task {
    Task(LoadedA(w), [RegisterTable, UpdateDeps], Some(w.a))
  }

  /** Both LOADs have been fetched, the index is empty, and two ticks have passed. */
  ghost predicate BothFetched(w: Setup, q: TaskState) {
    && q.readyToFetch && q.loadQueue == [] && Calm(q) && q.index == G.Index([], map[]) && q.fetchTick == 2
    && QueueOf(q, w.b) == QueueB(w, ROUNDS + 1) && QueueOf(q, w.a) == [InsertedA(w)]
    && !TableAt(q.tables, w.a).registered && !TableAt(q.tables, w.b).registered
  }

  lemma FetchBoth(w: Setup, q: TaskState)
    requires Queued(w, q, [LoadedB(w), LoadedA(w)], QueueB(w, ROUNDS + 1), [InsertedA(w)]) && q.readyToFetch
    ensures var (q1, outcome) := FetchNext(q);
            var (q2, outcome2) := FetchNext(q1);
            outcome == Run(TaskOfB(w)) && outcome2 == Run(TaskOfA(w)) && BothFetched(w, q2)
  {
    FetchLoad(q);
    var q1 := q.(loadQueue := [LoadedB(w), LoadedA(w)][1..]);
    assert BuildExecutable(q1, LoadedB(w)) == TaskOfB(w);
    var q2 := Started(q1);
    assert q2.loadQueue == [LoadedA(w)];
    FetchLoad(q2);
    assert BuildExecutable(q2.(loadQueue := [LoadedA(w)][1..]), LoadedA(w)) == TaskOfA(w);
  }

  lemma TheFetches(w: Setup, names: map<string, string>) returns (es: seq<Event>)
    ensures IsRun(names, es)
    ensures InFlight(After(names, es), TaskOfB(w), TaskOfA(w)) && BothFetched(w, After(names, es).q)
  {
    es := AllRegistered(w, names);
    es := Extended(names, es, Ready);
    var q := After(names, es).q;
    FetchBoth(w, q);
    var q1 := FetchNext(q).0;
    es := FetchOne(names, es, q1, TaskOfB(w));
    es := FetchOne(names, es, FetchNext(q1).0, TaskOfA(w));
    assert After(names, es).inflight == map[1 := TaskOfB(w), 67 := TaskOfA(w)];
  }

  // ----- the index from then on -----

  /** Entries of b carry their head as stamp; those of a keep the stamp 2. */
  predicate Shaped(w: Setup, k: G.Key) {
    || (k.tbl == w.a && k.pri == 2 && k.stamp == 2 && k.headSeq == 68)
    || (k.tbl == w.b && k.headSeq == k.stamp && 2 <= k.stamp <= 66 && k.pri == Class(k.stamp - 2))
  }

  ghost predicate AllShaped(w: Setup, h: seq<G.Key>) {
    forall k :: k in h ==> Shaped(w, k)
  }

  /** With such entries the comparator goes by age. */
  lemma ShapedAgrees(w: Setup, h: seq<G.Key>)
    requires AllShaped(w, h)
    ensures G.Agrees(G.ByAge, h)
  {
    forall k, l | k in h && l in h && k.pri == l.pri && k.stamp < l.stamp < k.stamp + G.FAIRNESS_QUANTUM
      ensures k.headSeq < l.headSeq
    {
      assert Shaped(w, k) && Shaped(w, l);
    }
  }

  ghost predicate AgeSound(w: Setup, ix: G.Index) {
    G.Sound(G.ByAge, ix) && AllShaped(w, ix.heap)
  }

  lemma PutShaped(w: Setup, ix: G.Index, t: string, pri: nat, tick: nat, headSeq: nat)
    requires AgeSound(w, ix) && Shaped(w, G.Key(pri, tick, headSeq, t, G.Version(ix, t) + 1))
    ensures var ix', k := G.Upsert(ix, t, pri, tick, headSeq), G.Key(pri, tick, headSeq, t, G.Version(ix, t) + 1);
            AgeSound(w, ix') && G.Live(ix') == G.Others(G.Live(ix), t) + {k}
  {
    var k := G.Key(pri, tick, headSeq, t, G.Version(ix, t) + 1);
    ShapedAgrees(w, ix.heap + [k]);
    G.UpsertSound(G.ByAge, ix, t, pri, tick, headSeq);
    G.UpsertReplaces(ix, t, pri, tick, headSeq);
    G.PushContents(ix.heap, k);
    forall l | l in G.Push(ix.heap, k) ensures Shaped(w, l) {
      assert l in multiset(G.Push(ix.heap, k));
    }
  }

  /** After i rounds the head of b is its i-th query, indexed at that tick; a waits since tick 2. */
  ghost predicate Indexed(w: Setup, ix: G.Index, i: nat, kb: G.Key, ka: G.Key) {
    && AgeSound(w, ix) && G.Live(ix) == {kb, ka}
    && kb.tbl == w.b && kb.stamp == kb.headSeq == 2 + i && kb.pri == Class(i)
    && ka.tbl == w.a && ka.pri == 2 && ka.stamp == 2 && ka.headSeq == 68
  }

  /** The pick takes out the least live entry by age: b's, until the last round. */
  lemma PickByAge(w: Setup, ix: G.Index, i: nat, kb: G.Key, ka: G.Key)
    requires Indexed(w, ix, i, kb, ka) && i <= ROUNDS
    ensures var (ix', t) := G.PickBest(ix);
            var k := if i < ROUNDS then kb else ka;
            t == Some(k.tbl) && G.Picked(ix) == Some(k) && AgeSound(w, ix') && G.Live(ix') == {kb, ka} - {k}
  {
    G.PickBestPicks(ix);
    G.PickBestLeast(G.ByAge, ix);
    var p := G.Picked(ix).value;
    assert p in {kb, ka};
    assert ka in G.Live(ix) && kb in G.Live(ix);
    assert G.Before(G.ByAge, p, kb) && G.Before(G.ByAge, p, ka);
  }

  /** In the last round a is picked although b's head has the lower number. */
  lemma LastPickIsNotLeast(w: Setup, ix: G.Index, kb: G.Key, ka: G.Key)
    requires Indexed(w, ix, ROUNDS, kb, ka)
    ensures !G.PicksLeast(ix)
  {
    PickByAge(w, ix, ROUNDS, kb, ka);
    assert kb in G.Live(ix) && !G.Before(G.Exact, ka, kb);
  }

  ghost predicate WaitingA(w: Setup, ka: G.Key) {
    ka.tbl == w.a && ka.pri == 2 && ka.stamp == 2 && ka.headSeq == 68
  }

  // ----- both LOADs complete -----

  lemma PutTwice(w: Setup, q: TaskState, dm: D.DepState, t: string, pri: nat, headSeq: nat) returns (k: G.Key)
    requires AgeSound(w, q.index) && QueueOf(q, t) != []
    requires QueueOf(q, t)[0].priority == pri && QueueOf(q, t)[0].seqno == headSeq
    requires forall v: nat :: Shaped(w, G.Key(pri, q.fetchTick, headSeq, t, v))
    ensures var ix := UpsertHead(UpsertHead(q, t).(dm := dm), t).index;
            && AgeSound(w, ix) && G.Live(ix) == G.Others(G.Live(q.index), t) + {k}
            && k == G.Key(pri, q.fetchTick, headSeq, t, k.version)
  {
    PutShaped(w, q.index, t, pri, q.fetchTick, headSeq);
    var ix1 := UpsertHead(q, t).index;
    PutShaped(w, ix1, t, pri, q.fetchTick, headSeq);
    k := G.Key(pri, q.fetchTick, headSeq, t, G.Version(ix1, t) + 1);
    assert G.Others(G.Live(ix1), t) == G.Others(G.Live(q.index), t);
  }

  /** LOAD b has completed. */
  ghost predicate BLoaded(w: Setup, q: TaskState) {
    && q.readyToFetch && q.loadQueue == [] && Calm(q) && q.fetchTick == 2
    && QueueOf(q, w.b) == QueueB(w, ROUNDS + 1) && QueueOf(q, w.a) == [InsertedA(w)]
    && !TableAt(q.tables, w.a).registered
    && AgeSound(w, q.index) && exists kb :: HeadB(w, kb) && G.Live(q.index) == {kb}
  }

  /** The entry of b's first TRUNCATE. */
  ghost predicate HeadB(w: Setup, kb: G.Key) {
    kb.tbl == w.b && kb.pri == 1 && kb.stamp == 2 && kb.headSeq == 2
  }

  lemma LoadB(w: Setup, q: TaskState)
    requires BothFetched(w, q)
    ensures BLoaded(w, OnCompleted(q, TaskOfB(w)))
  {
    CompleteLoad(q, LoadedB(w));
    BIndexedFirst(w, q, OnCompleted(q, TaskOfB(w)).dm);
  }

  lemma BIndexedFirst(w: Setup, q: TaskState, dm: D.DepState)
    requires BothFetched(w, q) && Unwaited(dm)
    ensures var q1 := q.(tables := q.tables[w.b := TableQueue(true, 1, QueueOf(q, w.b))]);
            BLoaded(w, UpsertHead(UpsertHead(q1, w.b).(dm := dm), w.b))
  {
    assert QueueB(w, ROUNDS + 1)[0] == ItemB(w, 0);
    IndexB(w, q.(tables := q.tables[w.b := TableQueue(true, 1, QueueOf(q, w.b))]), dm);
  }

  lemma IndexB(w: Setup, q: TaskState, dm: D.DepState)
    requires q.index == G.Index([], map[]) && q.fetchTick == 2 && QueueOf(q, w.b) != []
    requires QueueOf(q, w.b)[0] == ItemB(w, 0)
    ensures var ix := UpsertHead(UpsertHead(q, w.b).(dm := dm), w.b).index;
            AgeSound(w, ix) && exists kb :: HeadB(w, kb) && G.Live(ix) == {kb}
  {
    var kb := PutTwice(w, q, dm, w.b, 1, 2);
    assert G.Live(q.index) == {} && G.Others({}, w.b) + {kb} == {kb};
    assert HeadB(w, kb);
  }

  lemma LoadA(w: Setup, q: TaskState)
    requires BLoaded(w, q)
    ensures Round(w, OnCompleted(q, TaskOfA(w)), 0)
  {
    CompleteLoad(q, LoadedA(w));
    AIndexed(w, q, OnCompleted(q, TaskOfA(w)).dm);
  }

  lemma AIndexed(w: Setup, q: TaskState, dm: D.DepState)
    requires BLoaded(w, q) && Unwaited(dm)
    ensures var q1 := q.(tables := q.tables[w.a := TableQueue(true, 67, QueueOf(q, w.a))]);
            Round(w, UpsertHead(UpsertHead(q1, w.a).(dm := dm), w.a), 0)
  {
    var q1 := q.(tables := q.tables[w.a := TableQueue(true, 67, QueueOf(q, w.a))]);
    var q' := UpsertHead(UpsertHead(q1, w.a).(dm := dm), w.a);
    var ka := PutTwice(w, q1, dm, w.a, 2, 68);
    FirstIndexed(w, q.index, q'.index, ka);
    assert QueueB(w, ROUNDS + 1)[0..] == QueueB(w, ROUNDS + 1);
  }

  lemma FirstIndexed(w: Setup, ix: G.Index, ix': G.Index, ka: G.Key)
    requires exists kb :: HeadB(w, kb) && G.Live(ix) == {kb}
    requires AgeSound(w, ix') && WaitingA(w, ka) && G.Live(ix') == G.Others(G.Live(ix), w.a) + {ka}
    ensures exists kb, ka :: Indexed(w, ix', 0, kb, ka)
  {
    var kb :| HeadB(w, kb) && G.Live(ix) == {kb};
    assert G.Others({kb}, w.a) == {kb} && {kb} + {ka} == {kb, ka};
    assert Indexed(w, ix', 0, kb, ka);
  }

  // ----- the rounds -----

  /** i TRUNCATEs of b are done. */
  ghost predicate Round(w: Setup, q: TaskState, i: nat) {
    && q.readyToFetch && q.loadQueue == [] && Calm(q) && q.fetchTick == 2 + i
    && i <= ROUNDS && QueueOf(q, w.b) == QueueB(w, ROUNDS + 1)[i..] && QueueOf(q, w.a) == [InsertedA(w)]
    && exists kb, ka :: Indexed(w, q.index, i, kb, ka)
  }

  /** TRUNCATE number i of b has been taken, only a is indexed. */
  ghost predicate InRound(w: Setup, q: TaskState, i: nat) {
    && q.readyToFetch && q.loadQueue == [] && Calm(q) && q.fetchTick == 3 + i
    && i < ROUNDS && QueueOf(q, w.b) == QueueB(w, ROUNDS + 1)[i + 1..] && QueueOf(q, w.a) == [InsertedA(w)]
    && AgeSound(w, q.index) && exists ka :: WaitingA(w, ka) && G.Live(q.index) == {ka}
  }

  function TaskB(w: Setup, i: nat): Task {
    Task(ItemB(w, i), [UpdateDeps], Some(w.b))
  }

  lemma FetchB(w: Setup, q: TaskState, i: nat, ix: G.Index)
    requires G.PickBest(q.index) == (ix, Some(w.b)) && q.readyToFetch && q.loadQueue == [] && q.barriers == []
    requires i < ROUNDS && QueueOf(q, w.b) == QueueB(w, ROUNDS + 1)[i..]
    ensures FetchNext(q) == (Started(WithQueue(q.(index := ix), w.b, QueueOf(q, w.b)[1..])), Run(TaskB(w, i)))
  {
    assert QueueOf(q, w.b)[0] == ItemB(w, i);
    FetchTable(q, w.b);
    assert BuildExecutable(q.(index := ix), ItemB(w, i)) == TaskB(w, i);
  }

  lemma FetchRound(w: Setup, q: TaskState, i: nat)
    requires Round(w, q, i) && i < ROUNDS
    ensures FetchNext(q).1 == Run(TaskB(w, i)) && InRound(w, FetchNext(q).0, i)
  {
    var ix, ka := RoundPick(w, q, i);
    FetchB(w, q, i, ix);
  }

  lemma RoundPick(w: Setup, q: TaskState, i: nat) returns (ix: G.Index, ka: G.Key)
    requires Round(w, q, i) && i < ROUNDS
    ensures G.PickBest(q.index) == (ix, Some(w.b))
    ensures InRound(w, Started(WithQueue(q.(index := ix), w.b, QueueOf(q, w.b)[1..])), i)
  {
    ix, ka := PickB(w, q.index, i);
    BTaken(w, q, i, ix, ka);
  }

  lemma PickB(w: Setup, before: G.Index, i: nat) returns (ix: G.Index, ka: G.Key)
    requires (exists kb, ka :: Indexed(w, before, i, kb, ka)) && i < ROUNDS
    ensures G.PickBest(before) == (ix, Some(w.b)) && AgeSound(w, ix) && G.Live(ix) == {ka} && WaitingA(w, ka)
  {
    var kb;
    kb, ka :| Indexed(w, before, i, kb, ka);
    PickByAge(w, before, i, kb, ka);
    ix := G.PickBest(before).0;
    assert {kb, ka} - {kb} == {ka};
  }

  lemma BTaken(w: Setup, q: TaskState, i: nat, ix: G.Index, ka: G.Key)
    requires Round(w, q, i) && i < ROUNDS && AgeSound(w, ix) && G.Live(ix) == {ka} && WaitingA(w, ka)
    ensures InRound(w, Started(WithQueue(q.(index := ix), w.b, QueueOf(q, w.b)[1..])), i)
  {
    assert QueueOf(q, w.b)[1..] == QueueB(w, ROUNDS + 1)[i + 1..];
  }

  /** b is put back with its next head. */
  lemma BIndexed(w: Setup, q: TaskState, i: nat, ka: G.Key)
    requires AgeSound(w, q.index) && G.Live(q.index) == {ka} && WaitingA(w, ka) && i <= ROUNDS
    requires QueueOf(q, w.b) == QueueB(w, ROUNDS + 1)[i..] && q.fetchTick == 2 + i
    ensures exists kb :: Indexed(w, UpsertHead(q, w.b).index, i, kb, ka)
  {
    var k := G.Key(Class(i), 2 + i, 2 + i, w.b, G.Version(q.index, w.b) + 1);
    PutShaped(w, q.index, w.b, Class(i), 2 + i, 2 + i);
    assert G.Others({ka}, w.b) == {ka} && {ka} + {k} == {k, ka};
    assert QueueOf(q, w.b)[0] == ItemB(w, i);
    assert Indexed(w, UpsertHead(q, w.b).index, i, k, ka);
  }

  lemma CompleteRound(w: Setup, q: TaskState, i: nat)
    requires InRound(w, q, i)
    ensures Round(w, OnCompleted(q, TaskB(w, i)), i + 1)
  {
    CompletePlain(q, ItemB(w, i), w.b);
    BPutBack(w, q, i, ApplyUpdateDeps(q, ItemB(w, i)).dm);
  }

  lemma BPutBack(w: Setup, q: TaskState, i: nat, dm: D.DepState)
    requires InRound(w, q, i) && Unwaited(dm)
    ensures Round(w, UpsertHead(q.(dm := dm), w.b), i + 1)
  {
    var ka :| WaitingA(w, ka) && G.Live(q.index) == {ka};
    BIndexed(w, q.(dm := dm), i + 1, ka);
  }

  /** The numbers that have run when i TRUNCATEs are done. */
  ghost predicate Idle(s: Sys, i: nat) {
    s.inflight == map[] && !s.crashed && forall n :: n in s.executed || n in Completed(s) ==> n < 2 + i || n == 67
  }

  /** One TRUNCATE: fetched, executed and completed. */
  lemma OneRound(w: Setup, names: map<string, string>, es: seq<Event>, i: nat) returns (more: seq<Event>)
    requires IsRun(names, es) && Round(w, After(names, es).q, i) && Idle(After(names, es), i) && i < ROUNDS
    ensures IsRun(names, more) && Round(w, After(names, more).q, i + 1) && Idle(After(names, more), i + 1)
    ensures |es| <= |more| && more[..|es|] == es
  {
    var task := TaskB(w, i);
    var q1, q2 := RoundStates(w, After(names, es).q, i, task);
    more := FetchAndRun(names, es, q1, task, q2);
    IdleNext(After(names, es), After(names, more), i);
  }

  lemma RoundStates(w: Setup, q: TaskState, i: nat, task: Task) returns (q1: TaskState, q2: TaskState)
    requires Round(w, q, i) && i < ROUNDS && task == TaskB(w, i)
    ensures (q1, Run(task)) == FetchNext(q) && q2 == OnCompleted(q1, task) && Round(w, q2, i + 1)
  {
    FetchRound(w, q, i);
    q1 := FetchNext(q).0;
    CompleteRound(w, q1, i);
    q2 := OnCompleted(q1, task);
  }

  lemma IdleNext(s: Sys, s': Sys, i: nat)
    requires Idle(s, i) && s'.inflight == map[] && !s'.crashed
    requires s'.executed == s.executed + {2 + i} && Completed(s') == Completed(s) + {2 + i}
    ensures Idle(s', i + 1)
  {
  }

  lemma {:induction false} AllRounds(w: Setup, names: map<string, string>, es: seq<Event>, i: nat)
    returns (more: seq<Event>)
    requires IsRun(names, es) && Round(w, After(names, es).q, i) && Idle(After(names, es), i)
    ensures IsRun(names, more) && Round(w, After(names, more).q, ROUNDS)
    ensures |es| <= |more| && more[..|es|] == es
    decreases ROUNDS - i
  {
    if i == ROUNDS {
      more := es;
    } else {
      var next := OneRound(w, names, es, i);
      more := AllRounds(w, names, next, i + 1);
      assert more[..|es|] == next[..|es|] == es;
    }
  }

  lemma RunLoads(w: Setup, names: map<string, string>, es: seq<Event>) returns (more: seq<Event>)
    requires IsRun(names, es) && InFlight(After(names, es), TaskOfB(w), TaskOfA(w))
    requires BothFetched(w, After(names, es).q)
    ensures IsRun(names, more) && Round(w, After(names, more).q, 0) && Idle(After(names, more), 0)
    ensures |es| <= |more| && more[..|es|] == es
  {
    var x, y := TaskOfB(w), TaskOfA(w);
    LoadBoth(w, After(names, es).q, x, y);
    more := RunBoth(names, es, x, y);
    IdleFirst(After(names, more));
  }

  lemma IdleFirst(s: Sys)
    requires s.inflight == map[] && !s.crashed && s.executed == Completed(s) == {1, 67}
    ensures Idle(s, 0)
  {
  }

  lemma LoadBoth(w: Setup, q: TaskState, x: Task, y: Task)
    requires BothFetched(w, q) && x == TaskOfB(w) && y == TaskOfA(w)
    ensures Round(w, OnCompleted(OnCompleted(q, x), y), 0)
  {
    LoadB(w, q);
    LoadA(w, OnCompleted(q, x));
  }

  /** From the moment when both LOADs are in flight to the 64th TRUNCATE. */
  lemma TheRounds(w: Setup, names: map<string, string>, es: seq<Event>) returns (more: seq<Event>)
    requires IsRun(names, es) && InFlight(After(names, es), TaskOfB(w), TaskOfA(w))
    requires BothFetched(w, After(names, es).q)
    ensures IsRun(names, more) && Round(w, After(names, more).q, ROUNDS)
    ensures |es| <= |more| && more[..|es|] == es
  {
    var loaded := RunLoads(w, names, es);
    more := AllRounds(w, names, loaded, 0);
    assert more[..|es|] == loaded[..|es|];
  }

  /** 64 ticks after the index was empty the pick need not be a least live entry. */
  lemma PickAfter64Ticks(w: Setup, names: map<string, string>) returns (es: seq<Event>, j: nat)
    ensures Stretch(names, es, j, ROUNDS) && !G.PicksLeast(After(names, es).q.index)
  {
    var start := TheFetches(w, names);
    es := TheRounds(w, names, start);
    j := |start|;
    var kb, ka :| Indexed(w, After(names, es).q.index, ROUNDS, kb, ka);
    LastPickIsNotLeast(w, After(names, es).q.index, kb, ka);
  }

  /**
    Every run picks a least live entry by (priority, headSeq) while at most n ticks have
    passed since its index was last empty, if and only if n is less than 64.
  */
  lemma WindowIsExact(names: map<string, string>, n: nat)
    ensures (forall es, j: nat :: Stretch(names, es, j, n) ==> G.PicksLeast(After(names, es).q.index)) <==> n < 64
  {
    if n < 64 {
      forall es, j: nat | Stretch(names, es, j, n) ensures G.PicksLeast(After(names, es).q.index) {
        StretchPicksLeast(names, es, j, 0);
      }
    } else {
      var es, j := PickAfter64Ticks(EXAMPLE, names);
      assert Stretch(names, es, j, n);
    }
  }
}
