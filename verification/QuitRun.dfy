/**
  The threaded mode goes on past QUIT: LOAD a, QUIT, DROP a.  The single-threaded run
  ends at the QUIT with table a in the database; a threaded run drops the table.
*/
module QuitRun {
  import opened SchedulerTypes
  import opened TaskQueueSpec
  import opened SchedulerSystem
  import opened ExampleRuns
  import opened WaitingSpec
  import opened SingleRegistrationSpec
  import opened SerialEquivalence
  import opened SingleThreadedRuns
  import D = DependencySpec
  import G = GlobalIndexSpec

  const QUIT := Query(2, 0, CONTROL_TABLE, Quit, "", "")
  const QUIT_ITEM: Item := RawItem(2, 0, CONTROL_TABLE, Quit, NoDeps, false)

  function AcceptedItems(w: Setup): Accepted {
    map[1 := LoadOf(w), 2 := QUIT_ITEM, 3 := DropOf(w, 3)]
  }

  lemma RegisterQuit(w: Setup, names: map<string, string>) returns (es: seq<Event>)
    ensures IsRun(names, es)
    ensures var s := After(names, es);
            && Fresh(s) && Unloaded(w, s.q, []) && s.q.loadQueue == [LoadOf(w)] && s.q.barriers == [QUIT_ITEM]
            && s.acc == map[1 := LoadOf(w), 2 := QUIT_ITEM] && s.q.dm.lastScheduledTable == map[w.a := D.Mark(Load, 1)]
  {
    es := RegisterFirst(w, names);
    var q := After(names, es).q;
    RegisterBarrier(q, QUIT);
    es := RegisterOne(names, es, QUIT, RegisterTask(q, QUIT, []).0, QUIT_ITEM);
  }

  lemma RegisterAll(w: Setup, names: map<string, string>) returns (es: seq<Event>)
    ensures IsRun(names, es)
    ensures var s := After(names, es);
            && Fresh(s) && Unloaded(w, s.q, [DropOf(w, 3)]) && s.q.loadQueue == [LoadOf(w)]
            && s.q.barriers == [QUIT_ITEM] && s.acc == AcceptedItems(w)
  {
    es := RegisterQuit(w, names);
    var q := After(names, es).q;
    DropQueued(w, q, 3);
    es := RegisterOne(names, es, DropQueryOf(w, 3), RegisterTask(q, DropQueryOf(w, 3), []).0, DropOf(w, 3));
  }

  const QUIT_TASK := Task(QUIT_ITEM, [UpdateDeps], None)

  /** The DROP is held back by the QUIT. */
  lemma HoldBack(w: Setup, q: TaskState) returns (q': TaskState)
    requires OnlyLive(q.index, w.a) && QueueOf(q, w.a) == [DropOf(w, 3)] && q.barriers == [QUIT_ITEM]
    requires q.waitingTables == []
    ensures PickTable(q) == (q', None) && q' == q.(index := q'.index, waitingTables := [w.a])
    ensures G.ValidIndex(q'.index) && G.LiveTables(q'.index) == {}
  {
    PickOnly(q.index, w.a);
    var q1 := q.(index := G.PickBest(q.index).0, waitingTables := [w.a]);
    PickNothing(q1.index);
    q' := q1.(index := G.PickBest(q1.index).0);
    assert [] + [w.a] == [w.a];
    assert PickTable(q1) == (q', None);
    assert PickTable(q) == PickTable(q1);
  }

  /** The QUIT is fetched; then the DROP is indexed again. */
  lemma FetchQuit(w: Setup, q: TaskState)
    requires Loaded(w, q, 3) && q.barriers == [QUIT_ITEM] && q.loadQueue == [] && q.readyToFetch && q.running == 0
    requires q.waitingTables == []
    ensures var (q', outcome) := FetchNext(q);
            && outcome == Run(QUIT_TASK) && Loaded(w, q', 3)
            && q'.barriers == [] && q'.loadQueue == [] && q'.readyToFetch
  {
    assert TakeLoad(q) == (q, None);
    var q2 := HoldBack(w, q);
    BarrierFetched(w, q2);
    assert FetchTurn(q) == Done(FetchBarrier(q2).0, FetchBarrier(q2).1);
  }

  lemma BarrierFetched(w: Setup, q: TaskState)
    requires q.barriers == [QUIT_ITEM] && q.running == 0 && q.waitingTables == [w.a]
    requires QueueOf(q, w.a) == [DropOf(w, 3)] && G.ValidIndex(q.index) && G.LiveTables(q.index) == {}
    ensures var (q', outcome) := FetchBarrier(q);
            && outcome == Run(QUIT_TASK) && OnlyLive(q'.index, w.a) && QueueOf(q', w.a) == [DropOf(w, 3)]
            && q'.barriers == [] && q'.dm == q.dm && q'.loadQueue == q.loadQueue && q'.readyToFetch == q.readyToFetch
  {
    var q1 := Started(q.(barriers := q.barriers[1..], quitFlag := true));
    PutOnly(q1, w.a);
    assert [w.a][1..] == [];
    assert UpsertAll(q1, [w.a]) == UpsertAll(UpsertHead(q1, w.a), []) == UpsertHead(q1, w.a);
  }

  lemma FetchDrop(w: Setup, q: TaskState)
    requires Loaded(w, q, 3) && q.barriers == [] && q.loadQueue == [] && q.readyToFetch
    ensures FetchNext(q).1.Run? && FetchNext(q).1.task.item == DropOf(w, 3)
  {
    PickOnly(q.index, w.a);
    FetchTable(q, w.a);
  }

  /** LOAD a has run and finished. */
  ghost predicate Finished(w: Setup, s: Sys) {
    && s.inflight == map[] && s.executed == {1} && !s.crashed && s.acc == AcceptedItems(w)
    && Loaded(w, s.q, 3) && s.q.barriers == [QUIT_ITEM] && s.q.loadQueue == [] && s.q.readyToFetch
    && s.q.running == 0 && s.q.waitingTables == []
  }

  lemma RunLoad(w: Setup, names: map<string, string>) returns (es: seq<Event>)
    ensures IsRun(names, es) && Finished(w, After(names, es))
  {
    es := RegisterAll(w, names);
    es := Extended(names, es, Ready);
    es := RunFirst(w, names, es, 3, []);
    es := Extended(names, es, Event.Finish(1));
  }

  /** The QUIT has been executed, the DROP is next. */
  ghost predicate QuitExecuted(w: Setup, s: Sys) {
    && s.inflight.Keys == {2} && s.executed == {1, 2} && !s.crashed && s.acc == AcceptedItems(w)
    && Loaded(w, s.q, 3) && s.q.barriers == [] && s.q.loadQueue == [] && s.q.readyToFetch
  }

  lemma RunQuit(w: Setup, names: map<string, string>, es: seq<Event>) returns (more: seq<Event>)
    requires IsRun(names, es) && Finished(w, After(names, es))
    ensures IsRun(names, more) && QuitExecuted(w, After(names, more))
  {
    var s := After(names, es);
    FetchQuit(w, s.q);
    var q' := FetchNext(s.q).0;
    more := FetchOne(names, es, q', QUIT_TASK);
    QuitInFlight(w, s, q');
    more := Extended(names, more, Execute(2));
  }

  lemma QuitInFlight(w: Setup, s: Sys, q': TaskState)
    requires Finished(w, s) && Loaded(w, q', 3) && q'.barriers == [] && q'.loadQueue == [] && q'.readyToFetch
    ensures var s' := Dispatch(s, q', QUIT_TASK);
            s'.inflight.Keys == {2} && 2 !in s'.executed && QuitExecuted(w, s'.(executed := s'.executed + {2}))
  {
  }

  lemma RunDrop(w: Setup, names: map<string, string>, es: seq<Event>) returns (more: seq<Event>)
    requires IsRun(names, es) && QuitExecuted(w, After(names, es))
    ensures IsRun(names, more) && After(names, more).acc == AcceptedItems(w) && After(names, more).executed == {1, 2, 3}
  {
    var s := After(names, es);
    FetchDrop(w, s.q);
    more := FetchOne(names, es, FetchNext(s.q).0, FetchNext(s.q).1.task);
    more := Extended(names, more, Execute(3));
  }

  lemma CreatedOnce(w: Setup)
    ensures SingleRegistration(AcceptedItems(w))
  {
    var acc := AcceptedItems(w);
    forall m, n, t | m in acc && n in acc && Targets(acc[m], t) && Targets(acc[n], t) ensures m == n == 1 {
      OnlyLoadTargets(w, m, t);
      OnlyLoadTargets(w, n, t);
    }
  }

  lemma OnlyLoadTargets(w: Setup, n: nat, t: string)
    requires n in AcceptedItems(w) && Targets(AcceptedItems(w)[n], t)
    ensures n == 1
  {
  }

  lemma Databases<TS>(w: Setup, fx: Effects<TS>)
    requires fx.load(1).Some?
    ensures Serial(fx, AcceptedItems(w), {1, 2, 3}, 3) == map[]
    ensures SingleThreaded(fx, AcceptedItems(w), 3) == map[w.a := fx.load(1).value]
  {
    var acc := AcceptedItems(w);
    var loaded := map[w.a := fx.load(1).value];
    assert Serial(fx, acc, {1, 2, 3}, 1) == loaded;
    assert Serial(fx, acc, {1, 2, 3}, 2) == loaded;
    StopsWithTable(w, fx, acc, loaded);
  }

  lemma StopsWithTable<TS>(w: Setup, fx: Effects<TS>, acc: Accepted, loaded: Database<TS>)
    requires acc == AcceptedItems(w) && fx.load(1).Some? && loaded == map[w.a := fx.load(1).value]
    ensures SingleThreaded(fx, acc, 3) == loaded
  {
    assert !IsQuit(acc, 1) && IsQuit(acc, 2);
    assert Running(acc, 0) && Running(acc, 1) && !Running(acc, 2) && !Running(acc, 3);
    assert SingleThreaded(fx, acc, 0) == map[];
    assert SingleThreaded(fx, acc, 1) == loaded;
    assert SingleThreaded(fx, acc, 2) == loaded;
  }

  /**
    There is a run of LOAD a, QUIT, DROP a in which everything is executed and the table
    is gone, while the single-threaded run ends with it.
  */
  lemma QuitIsPassed<TS>(fx: Effects<TS>, names: map<string, string>)
    requires fx.load(1).Some?
    ensures exists es, w :: IsRun(names, es) && PassesQuit(fx, names, es, w)
  {
    var es := Example(fx, names, EXAMPLE);
  }

  lemma Example<TS>(fx: Effects<TS>, names: map<string, string>, w: Setup) returns (es: seq<Event>)
    requires fx.load(1).Some?
    ensures IsRun(names, es) && PassesQuit(fx, names, es, w)
  {
    es := RunLoad(w, names);
    es := RunQuit(w, names, es);
    es := RunDrop(w, names, es);
    DropsTheTable(fx, names, es, w);
  }

  lemma DropsTheTable<TS>(fx: Effects<TS>, names: map<string, string>, es: seq<Event>, w: Setup)
    requires IsRun(names, es) && fx.load(1).Some?
    requires After(names, es).acc == AcceptedItems(w) && After(names, es).executed == {1, 2, 3}
    ensures PassesQuit(fx, names, es, w)
  {
    CreatedOnce(w);
    RunsAreSerial(fx, names, es, 3);
    Databases(w, fx);
  }

  ghost predicate PassesQuit<TS>(fx: Effects<TS>, names: map<string, string>, es: seq<Event>, w: Setup) {
    && After(names, es).acc == AcceptedItems(w) && After(names, es).executed == {1, 2, 3}
    && DatabaseAfter(fx, names, es) == map[] && fx.load(1).Some?
    && SingleThreaded(fx, AcceptedItems(w), 3) == map[w.a := fx.load(1).value]
  }
}
