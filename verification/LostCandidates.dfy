/**
  Unconditional conservation is not a property of the code.  A run in which an
  accepted LOAD is taken from its queue, loses against a table candidate and is
  destroyed: LOAD a, DROP a, LOAD b, with one worker that fetches again after the
  first LOAD has completed.
*/
module LostCandidates {
  import opened SchedulerTypes
  import opened TaskQueueSpec
  import opened SchedulerSystem
  import opened ExampleRuns
  import D = DependencySpec
  import G = GlobalIndexSpec

  function QueryB(w: Setup): Query {
    Query(3, 1, w.b, Load, w.g, "")
  }

  function LoadB(w: Setup): LoadItem {
    RawItem(3, 1, w.b, Load, LoadDeps(0, 0, w.g, []), false)
  }

  /** Both LOADs are in the load queue, the DROP in a's queue. */
  ghost predicate Registered(w: Setup, s: Sys) {
    && Fresh(s) && Unloaded(w, s.q, [DropOf(w, 2)]) && s.q.loadQueue == [LoadOf(w), LoadB(w)] && s.q.barriers == []
    && 3 in s.acc && s.acc[3] == LoadB(w)
  }

  lemma RegisterTwo(w: Setup, names: map<string, string>) returns (es: seq<Event>)
    ensures IsRun(names, es)
    ensures var s := After(names, es);
            && Fresh(s) && Unloaded(w, s.q, [DropOf(w, 2)]) && s.q.loadQueue == [LoadOf(w)] && s.q.barriers == []
            && s.acc.Keys == {1, 2} && Untouched(s.q, w.g, w.b)
  {
    es := RegisterFirst(w, names);
    var q := After(names, es).q;
    var q' := QueueDrop(w, q);
    es := RegisterOne(names, es, DropQueryOf(w, 2), q', DropOf(w, 2));
  }

  lemma QueueDrop(w: Setup, q: TaskState) returns (q': TaskState)
    requires Unloaded(w, q, []) && q.loadQueue == [LoadOf(w)] && q.barriers == []
    requires q.dm.lastScheduledFile.Keys == {w.f} && q.dm.lastScheduledTable == map[w.a := D.Mark(Load, 1)]
    ensures (q', Some(DropOf(w, 2))) == RegisterTask(q, DropQueryOf(w, 2), [])
    ensures Unloaded(w, q', [DropOf(w, 2)]) && q'.loadQueue == [LoadOf(w)] && q'.barriers == []
    ensures Untouched(q', w.g, w.b)
  {
    DropQueued(w, q, 2);
    q' := RegisterTask(q, DropQueryOf(w, 2), []).0;
  }

  lemma RegisterAll(w: Setup, names: map<string, string>) returns (es: seq<Event>)
    ensures IsRun(names, es) && Registered(w, After(names, es))
  {
    es := RegisterTwo(w, names);
    var q := After(names, es).q;
    RegisterFirstLoad(q, QueryB(w));
    assert [LoadOf(w)] + [LoadB(w)] == [LoadOf(w), LoadB(w)];
    es := RegisterOne(names, es, QueryB(w), RegisterTask(q, QueryB(w), []).0, LoadB(w));
  }

  /** The DROP and the second LOAD are both candidates, and the LOAD is destroyed. */
  lemma FetchLosesB(w: Setup, q: TaskState)
    requires Loaded(w, q, 2) && q.loadQueue == [LoadB(w)] && q.readyToFetch
    requires q.barriers == [] && !q.loadBlocked && q.discarded == []
    ensures var (q', outcome) := FetchNext(q);
            outcome.Run? && outcome.task.item == DropOf(w, 2) && q'.loadQueue == [] && q'.discarded == [LoadB(w)]
  {
    var q1 := q.(loadQueue := []);
    assert TakeLoad(q) == (q1, Some(LoadB(w)));
    PickOnly(q.index, w.a);
    var q2 := q1.(index := G.PickBest(q.index).0);
    assert PickTable(q1) == (q2, Some(w.a));
    assert !PreferLoad(LoadB(w), DropOf(w, 2));
    assert TableBlocker(q2, DropOf(w, 2)) == None;
    assert FetchTurn(q) == TableTurn(q2, Some(LoadB(w)), w.a);
  }

  /** An accepted LOAD is lost: it was never dispatched and is in none of the queues. */
  ghost predicate LosesB(w: Setup, s: Sys) {
    && 3 in s.acc && s.acc[3] == LoadB(w) && s.q.discarded == [LoadB(w)]
    && s.q.loadQueue == [] && 3 !in s.inflight && 3 !in Completed(s)
  }

  lemma DropDispatched(w: Setup, s: Sys, q': TaskState, task: Task)
    requires s.inflight == map[] && Completed(s) == {1} && 3 in s.acc && s.acc[3] == LoadB(w) && task.item.seqno == 2
    requires q'.loadQueue == [] && q'.discarded == [LoadB(w)]
    ensures LosesB(w, Dispatch(s, q', task))
  {
  }

  lemma LoseB(w: Setup, names: map<string, string>, es: seq<Event>, before: Sys) returns (more: seq<Event>)
    requires IsRun(names, es) && RanLoad(w, before, After(names, es), 2, [LoadB(w)])
    requires before.q.readyToFetch && before.q.barriers == [] && !before.q.loadBlocked && before.q.discarded == []
    requires 3 in before.acc && before.acc[3] == LoadB(w)
    ensures IsRun(names, more) && LosesB(w, After(names, more))
  {
    var s := After(names, es);
    FetchLosesB(w, s.q);
    var (q', outcome) := FetchNext(s.q);
    DropDispatched(w, s, q', outcome.task);
    more := FetchOne(names, es, q', outcome.task);
  }

  lemma Example(w: Setup, names: map<string, string>) returns (es: seq<Event>)
    ensures IsRun(names, es) && LosesB(w, After(names, es))
  {
    es := RegisterAll(w, names);
    es := Extended(names, es, Ready);
    var s := After(names, es);
    es := RunFirst(w, names, es, 2, [LoadB(w)]);
    es := LoseB(w, names, es, s);
  }

  /** There is a run of three accepted queries, two LOADs and a DROP, that loses a LOAD. */
  lemma ALoadCanBeLost(names: map<string, string>)
    ensures exists es, w :: IsRun(names, es) && LosesB(w, After(names, es))
  {
    var es := Example(EXAMPLE, names);
  }
}
