/**
  The queue together with its workers.  A run is any list of enabled events, so it
  covers every number of workers and every interleaving: a worker fetches a task,
  executes it, runs its completion actions under the mutex and then updates the
  counters.
*/
module SchedulerSystem {
  import opened SchedulerTypes
  import opened TaskQueueSpec
  import D = DependencySpec

  datatype Sys = Sys(
    q: TaskState,
    acc: map<nat, Item>,       // every accepted item, as it was registered
    inflight: map<nat, Task>,  // dispatched, completion actions still to come
    executed: set<nat>,        // dispatched and executed
    retiring: set<nat>,        // completion actions done, counters not yet updated
    finished: set<nat>,
    dispatched: seq<Item>,     // everything ever dispatched, in order
    crashed: bool)

  datatype Event =
    | Register(query: Query, order: seq<string>)
    | Ready
    | Fetch
    | Execute(n: nat)
    | Complete(n: nat)
    | Finish(n: nat)

  function Init(names: map<string, string>): Sys {
    Sys(InitialState(names), map[], map[], {}, {}, {}, [], false)
  }

  /** The items whose completion actions have been applied. */
  function Completed(s: Sys): set<nat> {
    s.retiring + s.finished
  }

  /**
    Sequence numbers start at 1 and increase, all registration precedes the first
    fetch, and barriers have no table of their own; this is how the query executor
    and the runtime drive the queue.
  */
  ghost predicate Enabled(s: Sys, e: Event) {
    && !s.crashed
    && match e
       case Register(q, order) =>
         && !s.q.readyToFetch
         && (IsBarrier(q.kind) ==> q.tableName == CONTROL_TABLE)
         && q.seqno >= 1 && (forall n :: n in s.acc ==> n < q.seqno)
         && (q.kind == Load && D.IsPending(s.q.dm, q) ==>
               D.Enumerates(order, D.DroppedTables(s.q.dm.lastScheduledTable)))
       case Ready => true
       case Fetch => true
       case Execute(n) => n in s.inflight && n !in s.executed
       case Complete(n) => n in s.inflight && n in s.executed
       case Finish(n) => n in s.retiring
  }

  function Dispatch(s: Sys, q': TaskState, task: Task): Sys {
    s.(q := q', inflight := s.inflight[task.item.seqno := task], dispatched := s.dispatched + [task.item])
  }

  function Fetched(s: Sys, q': TaskState, outcome: Outcome): Sys {
    match outcome
    case NoTask => s.(q := q')
    case Run(task) => Dispatch(s, q', task)
    case Crash => s.(q := q', crashed := true)
  }

  function Step(s: Sys, e: Event): Sys {
    match e
    case Register(q, order) =>
      var (q', item) := RegisterTask(s.q, q, order);
      if item == None then s.(q := q') else s.(q := q', acc := s.acc[q.seqno := item.value])
    case Ready => s.(q := SetReady(s.q))
    case Fetch =>
      var (q', outcome) := FetchNext(s.q);
      Fetched(s, q', outcome)
    case Execute(n) => s.(executed := s.executed + {n})
    case Complete(n) =>
      if n !in s.inflight then s
      else s.(q := OnCompleted(s.q, s.inflight[n]), inflight := s.inflight - {n}, retiring := s.retiring + {n})
    case Finish(n) =>
      if n !in s.retiring || s.q.running == 0 then s
      else s.(q := TaskQueueSpec.Retire(s.q), retiring := s.retiring - {n}, finished := s.finished + {n})
  }

  /** The state after the events es, oldest first. */
  function After(names: map<string, string>, es: seq<Event>): Sys
    decreases |es|
  {
    if es == [] then Init(names) else Step(After(names, es[..|es| - 1]), es[|es| - 1])
  }

  /** Every event is enabled in the state it is applied to. */
  ghost predicate IsRun(names: map<string, string>, es: seq<Event>)
    decreases |es|
  {
    es == [] || (IsRun(names, es[..|es| - 1]) && Enabled(After(names, es[..|es| - 1]), es[|es| - 1]))
  }
}
