/** Reader/writer locks of tables, as the lock manager keeps them. */
module TableLocks {

  datatype Mode = Shared | Exclusive

  /** The state of a std::shared_mutex. */
  datatype Rw = Rw(readers: nat, writer: bool)

  function RwAt(entries: map<string, Rw>, id: string): Rw {
    if id in entries then entries[id] else Rw(0, false)
  }

  /** Whether a blocking lock call would return now. */
  predicate Grantable(entries: map<string, Rw>, id: string, mode: Mode) {
    !RwAt(entries, id).writer && (mode == Exclusive ==> RwAt(entries, id).readers == 0)
  }

  function Locked(entries: map<string, Rw>, id: string, mode: Mode): map<string, Rw> {
    var e := RwAt(entries, id);
    entries[id := if mode == Shared then e.(readers := e.readers + 1) else e.(writer := true)]
  }

  function Unlocked(entries: map<string, Rw>, id: string, mode: Mode): map<string, Rw> {
    var e := RwAt(entries, id);
    entries[id := if mode == Exclusive then e.(writer := false)
                  else e.(readers := if e.readers > 0 then e.readers - 1 else 0)]
  }
}

module LockManagerObject {
  import opened TableLocks

  class LockManager {
    var entries: map<string, Rw>

    constructor ()
      ensures entries == map[]
    {
      entries := map[];
    }

    /** Looks an entry up, creating it on first use. */
    method Entry(id: string) returns (e: Rw)
      modifies this
      ensures e == RwAt(old(entries), id) && entries == old(entries)[id := e]
    {
      if id !in entries {
        entries := entries[id := Rw(0, false)];
      }
      e := entries[id];
    }

    /** False means that the caller stays blocked. */
    method LockS(id: string) returns (granted: bool)
      modifies this
      ensures granted <==> Grantable(old(entries), id, Shared)
      ensures entries ==
              if granted then Locked(old(entries), id, Shared) else old(entries)[id := RwAt(old(entries), id)]
    {
      var e := Entry(id);
      if e.writer {
        return false;
      }
      entries := entries[id := e.(readers := e.readers + 1)];
      return true;
    }

    method UnlockS(id: string)
      requires RwAt(entries, id).readers > 0
      modifies this
      ensures entries == Unlocked(old(entries), id, Shared)
    {
      var e := Entry(id);
      entries := entries[id := e.(readers := e.readers - 1)];
    }

    /** False means that the caller stays blocked. */
    method LockX(id: string) returns (granted: bool)
      modifies this
      ensures granted <==> Grantable(old(entries), id, Exclusive)
      ensures entries ==
              if granted then Locked(old(entries), id, Exclusive) else old(entries)[id := RwAt(old(entries), id)]
    {
      var e := Entry(id);
      if e.writer || e.readers > 0 {
        return false;
      }
      entries := entries[id := e.(writer := true)];
      return true;
    }

    method UnlockX(id: string)
      requires RwAt(entries, id).writer
      modifies this
      ensures entries == Unlocked(old(entries), id, Exclusive)
    {
      var e := Entry(id);
      entries := entries[id := e.(writer := false)];
    }
  }
}

/**
  The workers of the thread pool as a state machine over single lock operations:
  fetching batches, the local queue, table guards, the completion closure.
*/
module Workers {
  import opened SchedulerTypes
  import opened TableLocks

  const FETCH_BATCH_SIZE := 16

  datatype Mutex = Mu | DatabaseMutex | MapMutex | LocalMutex

  datatype QueryKind = Read | Write | Null

  function KindOf(kind: QueryType): QueryKind {
    match kind
    case Dump => Read
    case List => Read
    case PrintTable => Read
    case Select => Read
    case Count => Read
    case Sum => Read
    case Min => Read
    case Max => Read
    case Quit => Null
    case Listen => Null
    case Nop => Null
    case _ => Write
  }

  datatype Job = Job(id: nat, kind: QueryType, table: string)

  predicate NeedsLock(job: Job) {
    KindOf(job.kind) != Null
  }

  function ModeOf(job: Job): Mode {
    if KindOf(job.kind) == Write then Exclusive else Shared
  }

  /** Where a worker is; In... points hold a mutex. */
  datatype Point =
    | Idle
    | InLocal(refilled: bool)
    | Fetching(batch: seq<Job>)
    | InFetch(batch: seq<Job>)
    | Refilling(batch: seq<Job>)
    | Starting(job: Job)
    | InEntry(job: Job)
    | AtTable(job: Job)
    | Running(job: Job)
    | InDatabase(job: Job)
    | Executed(job: Job)
    | InMu(job: Job)
    | InMuDatabase(job: Job)
    | Leaving(job: Job)
    | InExit(job: Job)
    | Unlocking(job: Job)

  datatype Action =
    | Quiet
    | Acquire(m: Mutex)
    | Release(m: Mutex)
    | LockTable(t: string, mode: Mode)
    | UnlockTable(t: string, mode: Mode)

  /** What the code decides from data that is not modelled here. */
  datatype Choice = Go | Got(job: Job) | NotReady | TouchDatabase | Throw

  datatype Event = Event(w: nat, c: Choice)

  datatype Move = Move(action: Action, point: Point, queue: seq<Job>)

  /** The next thing a worker at p does, given the local queue. */
  function Next(p: Point, queue: seq<Job>, c: Choice): Move {
    match p
    case Idle => Move(Acquire(LocalMutex), InLocal(false), queue)
    case InLocal(refilled) =>
      if queue != [] then Move(Release(LocalMutex), Starting(queue[0]), queue[1..])
      else Move(Release(LocalMutex), if refilled then Idle else Fetching([]), queue)
    case Fetching(batch) =>
      if |batch| >= FETCH_BATCH_SIZE || c == NotReady then Move(Quiet, Refilling(batch), queue)
      else Move(Acquire(Mu), InFetch(batch), queue)
    case InFetch(batch) => Move(Release(Mu), if c.Got? then Fetching(batch + [c.job]) else Refilling(batch), queue)
    case Refilling(batch) => Move(Acquire(LocalMutex), InLocal(true), queue + batch)
    case Starting(job) =>
      if NeedsLock(job) then Move(Acquire(MapMutex), InEntry(job), queue) else Move(Quiet, Running(job), queue)
    case InEntry(job) => Move(Release(MapMutex), AtTable(job), queue)
    case AtTable(job) => Move(LockTable(job.table, ModeOf(job)), Running(job), queue)
    case Running(job) =>
      if c == TouchDatabase then Move(Acquire(DatabaseMutex), InDatabase(job), queue)
      else Move(Quiet, Executed(job), queue)
    case InDatabase(job) => Move(Release(DatabaseMutex), if c == Throw then Executed(job) else Running(job), queue)
    case Executed(job) => Move(Acquire(Mu), InMu(job), queue)
    case InMu(job) =>
      if c == TouchDatabase then Move(Acquire(DatabaseMutex), InMuDatabase(job), queue)
      else Move(Release(Mu), Leaving(job), queue)
    case InMuDatabase(job) => Move(Release(DatabaseMutex), InMu(job), queue)
    case Leaving(job) =>
      if NeedsLock(job) then Move(Acquire(MapMutex), InExit(job), queue) else Move(Quiet, Idle, queue)
    case InExit(job) => Move(Release(MapMutex), Unlocking(job), queue)
    case Unlocking(job) => Move(UnlockTable(job.table, ModeOf(job)), Idle, queue)
  }

  datatype Pool = Pool(
    points: map<nat, Point>,      // the workers
    entries: map<string, Rw>,     // the table locks
    owner: map<Mutex, nat>,       // who holds which mutex
    queue: seq<Job>,              // the local queue
    fetched: set<nat>,            // jobs handed out by the task queue so far
    done: set<nat>)               // jobs whose worker has finished with them

  predicate Granted(s: Pool, a: Action) {
    match a
    case Acquire(m) => m !in s.owner
    case LockTable(t, mode) => Grantable(s.entries, t, mode)
    case _ => true
  }

  predicate Fetches(p: Point, c: Choice) {
    p.InFetch? && c.Got?
  }

  /** The task queue hands out every job once. */
  predicate Enabled(s: Pool, w: nat, c: Choice) {
    w in s.points && Granted(s, Next(s.points[w], s.queue, c).action)
    && (Fetches(s.points[w], c) ==> c.job.id !in s.fetched)
  }

  function Finishes(p: Point, p': Point): set<nat> {
    if p' == Idle && (p.Leaving? || p.Unlocking?) then {p.job.id} else {}
  }

  function Step(s: Pool, e: Event): Pool {
    if e.w in s.points then Moved(s, e.w, e.c) else s
  }

  function Moved(s: Pool, w: nat, c: Choice): Pool
    requires w in s.points
  {
    var p := s.points[w];
    var move := Next(p, s.queue, c);
    Pool(s.points[w := move.point],
         match move.action
         case LockTable(t, mode) => Locked(s.entries, t, mode)
         case UnlockTable(t, mode) => Unlocked(s.entries, t, mode)
         case _ => s.entries,
         match move.action
         case Acquire(m) => s.owner[m := w]
         case Release(m) => s.owner - {m}
         case _ => s.owner,
         move.queue,
         s.fetched + if Fetches(p, c) then {c.job.id} else {},
         s.done + Finishes(p, move.point))
  }

  function Start(workers: set<nat>): Pool {
    Pool(map w | w in workers :: Idle, map[], map[], [], {}, {})
  }

  /** The state after the events es, oldest first. */
  function After(workers: set<nat>, es: seq<Event>): Pool
    decreases |es|
  {
    if es == [] then Start(workers) else Step(After(workers, es[..|es| - 1]), es[|es| - 1])
  }

  ghost predicate IsRun(workers: set<nat>, es: seq<Event>)
    decreases |es|
  {
    es == [] || (IsRun(workers, es[..|es| - 1])
                 && Enabled(After(workers, es[..|es| - 1]), es[|es| - 1].w, es[|es| - 1].c))
  }

  // ----- what a worker holds -----

  predicate HoldsMutex(p: Point, m: Mutex) {
    match m
    case LocalMutex => p.InLocal?
    case Mu => p.InFetch? || p.InMu? || p.InMuDatabase?
    case DatabaseMutex => p.InDatabase? || p.InMuDatabase?
    case MapMutex => p.InEntry? || p.InExit?
  }

  /** A guard lives from the moment the lock is granted until it is released, also when the query throws. */
  predicate Guarded(p: Point) {
    p.Running? || p.InDatabase? || p.Executed? || p.InMu? || p.InMuDatabase? || p.Leaving? || p.InExit? || p.Unlocking?
  }

  predicate HoldsTable(p: Point, t: string, mode: Mode) {
    Guarded(p) && NeedsLock(p.job) && p.job.table == t && ModeOf(p.job) == mode
  }

  ghost function Holders(s: Pool, t: string, mode: Mode): set<nat> {
    set w | w in s.points && HoldsTable(s.points[w], t, mode)
  }

  // ----- the invariant -----

  ghost predicate MutexesRight(s: Pool) {
    forall m, w {:trigger Owns(s, m, w)} :: Owns(s, m, w) <==> w in s.points && HoldsMutex(s.points[w], m)
  }

  predicate Owns(s: Pool, m: Mutex, w: nat) {
    m in s.owner && s.owner[m] == w
  }

  /** A lock's state counts the guards that are alive: some readers, or one writer. */
  ghost predicate LockRight(s: Pool, t: string) {
    && RwAt(s.entries, t).readers == |Holders(s, t, Shared)|
    && |Holders(s, t, Exclusive)| == (if RwAt(s.entries, t).writer then 1 else 0)
    && (RwAt(s.entries, t).writer ==> RwAt(s.entries, t).readers == 0)
  }

  /** Jobs without a table lock take the other branch. */
  predicate Sensible(p: Point) {
    p.InEntry? || p.AtTable? || p.InExit? || p.Unlocking? ==> NeedsLock(p.job)
  }

  ghost predicate Inv(s: Pool) {
    && (forall w :: w in s.points ==> Sensible(s.points[w]))
    && MutexesRight(s)
    && (forall t :: LockRight(s, t))
  }

  lemma HoldersStep(s: Pool, s': Pool, w: nat, p: Point, t: string, mode: Mode)
    requires w in s.points && s'.points == s.points[w := p]
    ensures Holders(s', t, mode) ==
              if HoldsTable(p, t, mode) then Holders(s, t, mode) + {w} else Holders(s, t, mode) - {w}
    ensures w in Holders(s, t, mode) <==> HoldsTable(s.points[w], t, mode)
  {
  }

  /** A worker's table guard changes exactly with its lock actions. */
  lemma GuardsFollowActions(p: Point, queue: seq<Job>, c: Choice, t: string, mode: Mode)
    requires Sensible(p)
    ensures var move := Next(p, queue, c);
            && Sensible(move.point)
            && (HoldsTable(move.point, t, mode) <==>
                  move.action == LockTable(t, mode) || (HoldsTable(p, t, mode) && move.action != UnlockTable(t, mode)))
            && (move.action == LockTable(t, mode) ==> !HoldsTable(p, t, mode))
            && (move.action == UnlockTable(t, mode) ==> HoldsTable(p, t, mode))
  {
  }

  lemma HolderCount(s: Pool, w: nat, c: Choice, t: string, mode: Mode)
    requires w in s.points && Sensible(s.points[w])
    ensures var a := Next(s.points[w], s.queue, c).action;
            |Holders(Moved(s, w, c), t, mode)| == |Holders(s, t, mode)|
              + (if a == LockTable(t, mode) then 1 else 0) - (if a == UnlockTable(t, mode) then 1 else 0)
  {
    var s', move := Moved(s, w, c), Next(s.points[w], s.queue, c);
    HoldersStep(s, s', w, move.point, t, mode);
    GuardsFollowActions(s.points[w], s.queue, c, t, mode);
    var before, after := Holders(s, t, mode), Holders(s', t, mode);
    if move.action == LockTable(t, mode) {
      assert w !in before;
    } else if move.action == UnlockTable(t, mode) {
      assert w in before;
    } else {
      assert after == before;
    }
  }

  lemma EntryStep(s: Pool, w: nat, c: Choice, t: string)
    requires w in s.points
    ensures var a := Next(s.points[w], s.queue, c).action;
            var e := RwAt(s.entries, t);
            RwAt(Moved(s, w, c).entries, t) ==
              if a == LockTable(t, Shared) then e.(readers := e.readers + 1)
              else if a == LockTable(t, Exclusive) then e.(writer := true)
              else if a == UnlockTable(t, Shared) then e.(readers := if e.readers > 0 then e.readers - 1 else 0)
              else if a == UnlockTable(t, Exclusive) then e.(writer := false)
              else e
  {
  }

  lemma StepKeepsLock(s: Pool, w: nat, c: Choice, t: string)
    requires LockRight(s, t) && Enabled(s, w, c) && Sensible(s.points[w])
    ensures LockRight(Moved(s, w, c), t)
  {
    HolderCount(s, w, c, t, Shared);
    HolderCount(s, w, c, t, Exclusive);
    EntryStep(s, w, c, t);
  }

  lemma MutexesFollowActions(p: Point, queue: seq<Job>, c: Choice, m: Mutex)
    ensures var move := Next(p, queue, c);
            && (HoldsMutex(move.point, m) <==>
                  move.action == Acquire(m) || (HoldsMutex(p, m) && move.action != Release(m)))
            && (move.action == Release(m) ==> HoldsMutex(p, m))
  {
  }

  lemma StepKeepsMutexes(s: Pool, w: nat, c: Choice)
    requires MutexesRight(s) && Enabled(s, w, c)
    ensures MutexesRight(Moved(s, w, c))
  {
    var s' := Moved(s, w, c);
    forall m, v ensures Owns(s', m, v) <==> v in s'.points && HoldsMutex(s'.points[v], m) {
      MutexesFollowActions(s.points[w], s.queue, c, m);
      assert Owns(s, m, v) <==> v in s.points && HoldsMutex(s.points[v], m);
      assert Owns(s, m, w) <==> HoldsMutex(s.points[w], m);
    }
  }

  lemma StepKeeps(s: Pool, e: Event)
    requires Inv(s) && Enabled(s, e.w, e.c)
    ensures Inv(Step(s, e))
  {
    GuardsFollowActions(s.points[e.w], s.queue, e.c, "", Shared);
    StepKeepsMutexes(s, e.w, e.c);
    forall t ensures LockRight(Step(s, e), t) {
      StepKeepsLock(s, e.w, e.c, t);
    }
  }

  lemma {:induction false} AlwaysInv(workers: set<nat>, es: seq<Event>)
    requires IsRun(workers, es)
    ensures Inv(After(workers, es)) && After(workers, es).points.Keys == workers
    decreases |es|
  {
    if es == [] {
      var s := Start(workers);
      assert forall t, mode :: Holders(s, t, mode) == {};
    } else {
      AlwaysInv(workers, es[..|es| - 1]);
      StepKeeps(After(workers, es[..|es| - 1]), es[|es| - 1]);
    }
  }

  // ----- what it means -----

  /** Worker v is inside the execution of a query that reads or writes table t. */
  predicate ExecutesOn(s: Pool, v: nat, t: string) {
    && v in s.points && (s.points[v].Running? || s.points[v].InDatabase?)
    && NeedsLock(s.points[v].job) && s.points[v].job.table == t
  }

  /** Workers that execute queries on the same table at the same time all read. */
  lemma OneWriterOrReaders(workers: set<nat>, es: seq<Event>, v: nat, w: nat, t: string)
    requires IsRun(workers, es) && v != w
    requires ExecutesOn(After(workers, es), v, t) && ExecutesOn(After(workers, es), w, t)
    ensures KindOf(After(workers, es).points[v].job.kind) == KindOf(After(workers, es).points[w].job.kind) == Read
  {
    AlwaysInv(workers, es);
    ReadersShare(After(workers, es), v, w, t);
  }

  lemma ReadersShare(s: Pool, v: nat, w: nat, t: string)
    requires LockRight(s, t) && v != w && ExecutesOn(s, v, t) && ExecutesOn(s, w, t)
    ensures KindOf(s.points[v].job.kind) == KindOf(s.points[w].job.kind) == Read
  {
    var m, n := ModeOf(s.points[v].job), ModeOf(s.points[w].job);
    assert v in Holders(s, t, m) && w in Holders(s, t, n);
    if m == Exclusive && n == Exclusive {
      SubsetSize({v, w}, Holders(s, t, Exclusive));
      assert false;
    }
  }

  lemma {:induction false} SubsetSize(a: set<nat>, b: set<nat>)
    requires a <= b
    ensures |a| <= |b|
  {
    assert b == a + (b - a);
  }

  function Rank(m: Mutex): nat {
    match m
    case Mu => 1
    case DatabaseMutex => 2
    case MapMutex => 3
    case LocalMutex => 3
  }

  function WantedRank(a: Action): nat {
    if a.Acquire? then Rank(a.m) else 0
  }

  /** Worker v, deciding c, waits for a lock that w holds. */
  predicate Blocks(s: Pool, v: nat, c: Choice, w: nat) {
    && v in s.points && w in s.points
    && match Next(s.points[v], s.queue, c).action
       case Acquire(m) => HoldsMutex(s.points[w], m)
       case LockTable(t, mode) =>
         HoldsTable(s.points[w], t, Exclusive) || (mode == Exclusive && HoldsTable(s.points[w], t, Shared))
       case _ => false
  }

  /** A worker asks only for locks that rank above those it holds; a table lock it asks for with empty hands. */
  lemma LocksInRankOrder(p: Point, queue: seq<Job>, c: Choice)
    ensures var a := Next(p, queue, c).action;
            && (a.Acquire? ==> (forall m :: HoldsMutex(p, m) ==> Rank(m) < Rank(a.m)))
            && (a.LockTable? ==> !Guarded(p) && forall m :: !HoldsMutex(p, m))
  {
  }

  ghost predicate CircularWait(s: Pool, ws: seq<nat>, cs: seq<Choice>) {
    && ws != [] && |cs| == |ws|
    && forall i :: 0 <= i < |ws| ==> Blocks(s, ws[i], cs[i], ws[if i + 1 < |ws| then i + 1 else 0])
  }

  /** If v waits for w and w waits, w waits for a lock of higher rank. */
  lemma WaitsRankHigher(s: Pool, v: nat, c: Choice, w: nat, d: Choice, u: nat)
    requires Blocks(s, v, c, w) && Blocks(s, w, d, u)
    ensures WantedRank(Next(s.points[v], s.queue, c).action) < WantedRank(Next(s.points[w], s.queue, d).action)
  {
    LocksInRankOrder(s.points[w], s.queue, d);
  }

  lemma {:induction false} RanksClimb(s: Pool, ws: seq<nat>, cs: seq<Choice>, i: nat)
    requires CircularWait(s, ws, cs) && i < |ws|
    ensures ws[0] in s.points && ws[i] in s.points
    ensures WantedRank(Next(s.points[ws[0]], s.queue, cs[0]).action) + i <=
            WantedRank(Next(s.points[ws[i]], s.queue, cs[i]).action)
  {
    assert Blocks(s, ws[0], cs[0], ws[if 1 < |ws| then 1 else 0]);
    assert Blocks(s, ws[i], cs[i], ws[if i + 1 < |ws| then i + 1 else 0]);
    if i > 0 {
      RanksClimb(s, ws, cs, i - 1);
      assert Blocks(s, ws[i - 1], cs[i - 1], ws[i]);
      WaitsRankHigher(s, ws[i - 1], cs[i - 1], ws[i], cs[i], ws[if i + 1 < |ws| then i + 1 else 0]);
    }
  }

  /** No set of workers can wait for each other in a circle. */
  lemma NoCircularWait(s: Pool, ws: seq<nat>, cs: seq<Choice>)
    ensures !CircularWait(s, ws, cs)
  {
    if CircularWait(s, ws, cs) {
      var last := |ws| - 1;
      RanksClimb(s, ws, cs, last);
      assert Blocks(s, ws[last], cs[last], ws[0]);
      assert Blocks(s, ws[0], cs[0], ws[if 1 < |ws| then 1 else 0]);
      WaitsRankHigher(s, ws[last], cs[last], ws[0], cs[0], ws[if 1 < |ws| then 1 else 0]);
    }
  }

  /** The lock that a worker cannot get is held by another one, which therefore blocks it. */
  lemma BlockedByAnother(s: Pool, v: nat, c: Choice)
    requires Inv(s) && v in s.points && !Granted(s, Next(s.points[v], s.queue, c).action)
    ensures exists w :: w != v && Blocks(s, v, c, w)
  {
    var a := Next(s.points[v], s.queue, c).action;
    LocksInRankOrder(s.points[v], s.queue, c);
    if a.Acquire? {
      var w := s.owner[a.m];
      assert Owns(s, a.m, w);
      assert Blocks(s, v, c, w);
    } else {
      assert LockRight(s, a.t);
      var mode := if RwAt(s.entries, a.t).writer then Exclusive else Shared;
      assert |Holders(s, a.t, mode)| > 0;
      var w :| w in Holders(s, a.t, mode);
      assert Blocks(s, v, c, w);
    }
  }

  /** v waits for w along a chain of n blocked workers; a worker waits for itself along the empty chain. */
  ghost predicate WaitsThrough(s: Pool, v: nat, w: nat, n: nat)
    decreases n
  {
    if n == 0 then v == w else exists u :: Blocks(s, v, Go, u) && WaitsThrough(s, u, w, n - 1)
  }

  /**
    In every reachable state each worker can take a step, or waits along a chain of at
    most four blocked workers for one that can.
  */
  lemma SomeWorkerMoves(workers: set<nat>, es: seq<Event>, v: nat)
    requires IsRun(workers, es) && v in workers
    ensures exists w, n: nat ::
              n <= 4 && WaitsThrough(After(workers, es), v, w, n) && Enabled(After(workers, es), w, Go)
  {
    AlwaysInv(workers, es);
    var w, n := MoverBehind(After(workers, es), v);
  }

  /** Follow the holder of the missing lock until someone is not blocked; the rank bounds the search. */
  lemma {:induction false} MoverBehind(s: Pool, v: nat) returns (w: nat, n: nat)
    requires Inv(s) && v in s.points
    ensures Enabled(s, w, Go) && WaitsThrough(s, v, w, n)
    ensures n + WantedRank(Next(s.points[v], s.queue, Go).action) <= 4
    decreases 3 - WantedRank(Next(s.points[v], s.queue, Go).action)
  {
    if Granted(s, Next(s.points[v], s.queue, Go).action) {
      w, n := v, 0;
    } else {
      BlockedByAnother(s, v, Go);
      var u :| u != v && Blocks(s, v, Go, u);
      if Granted(s, Next(s.points[u], s.queue, Go).action) {
        assert WaitsThrough(s, u, u, 0);
        w, n := u, 1;
      } else {
        BlockedByAnother(s, u, Go);
        var t :| t != u && Blocks(s, u, Go, t);
        WaitsRankHigher(s, v, Go, u, Go, t);
        w, n := MoverBehind(s, u);
        n := n + 1;
      }
    }
  }

  // ----- every fetched job is executed once -----

  function Ids(jobs: seq<Job>): set<nat> {
    set job | job in jobs :: job.id
  }

  /** The jobs in a worker's hands. */
  function Carried(p: Point): seq<Job> {
    match p
    case Idle => []
    case InLocal(_) => []
    case Fetching(batch) => batch
    case InFetch(batch) => batch
    case Refilling(batch) => batch
    case _ => [p.job]
  }

  ghost predicate NoRepeats(jobs: seq<Job>) {
    forall i, j :: 0 <= i < j < |jobs| ==> jobs[i].id != jobs[j].id
  }

  predicate CarriedBy(s: Pool, w: nat, n: nat) {
    w in s.points && n in Ids(Carried(s.points[w]))
  }

  /** Every fetched job is with exactly one worker, once in the local queue, or done. */
  ghost predicate JobsKept(s: Pool) {
    && NoRepeats(s.queue) && (forall w :: w in s.points ==> NoRepeats(Carried(s.points[w])))
    && (forall v, w, n :: CarriedBy(s, v, n) && CarriedBy(s, w, n) ==> v == w)
    && (forall w, n :: CarriedBy(s, w, n) ==> n !in Ids(s.queue) && n !in s.done && n in s.fetched)
    && (forall n :: n in s.queue ==> n.id !in s.done && n.id in s.fetched)
    && s.done <= s.fetched
    && (forall n :: n in s.fetched ==> n in s.done || n in Ids(s.queue) || exists w :: CarriedBy(s, w, n))
  }

  /** One of the five ways in which a step moves jobs. */
  predicate JobsMoved(s: Pool, s': Pool, p: Point, p': Point, c: Choice) {
    || (s'.queue == s.queue && Carried(p') == Carried(p) && s'.done == s.done && s'.fetched == s.fetched)
    || (s.queue != [] && Carried(p) == [] && Carried(p') == [s.queue[0]] && s'.queue == s.queue[1..]
        && s'.done == s.done && s'.fetched == s.fetched)
    || (Carried(p') == [] && s'.queue == s.queue + Carried(p) && s'.done == s.done && s'.fetched == s.fetched)
    || (c.Got? && Fetches(p, c) && Carried(p') == Carried(p) + [c.job] && s'.queue == s.queue
        && s'.done == s.done && s'.fetched == s.fetched + {c.job.id})
    || (|Carried(p)| == 1 && Carried(p') == [] && s'.queue == s.queue
        && s'.done == s.done + {Carried(p)[0].id} && s'.fetched == s.fetched)
  }

  predicate HasJob(p: Point) {
    !(p.Idle? || p.InLocal? || p.Fetching? || p.InFetch? || p.Refilling?)
  }

  lemma JobsMoveFetching(s: Pool, w: nat, c: Choice)
    requires w in s.points && !HasJob(s.points[w])
    ensures JobsMoved(s, Moved(s, w, c), s.points[w], Moved(s, w, c).points[w], c)
  {
  }

  lemma JobsMoveExecuting(s: Pool, w: nat, c: Choice)
    requires w in s.points && HasJob(s.points[w])
    ensures JobsMoved(s, Moved(s, w, c), s.points[w], Moved(s, w, c).points[w], c)
  {
    var p' := Moved(s, w, c).points[w];
    assert (p' == Idle && (s.points[w].Leaving? || s.points[w].Unlocking?)) ||
           (HasJob(p') && p'.job == s.points[w].job);
  }

  /** One step moves jobs between the worker, the queue and the two records. */
  lemma JobsMove(s: Pool, w: nat, c: Choice)
    requires w in s.points
    ensures JobsMoved(s, Moved(s, w, c), s.points[w], Moved(s, w, c).points[w], c)
  {
    if HasJob(s.points[w]) {
      JobsMoveExecuting(s, w, c);
    } else {
      JobsMoveFetching(s, w, c);
    }
  }

  // The five ways in which a step can move jobs; p' is what worker w carries afterwards.

  lemma KeepJobs(s: Pool, s': Pool, w: nat)
    requires JobsKept(s) && w in s.points && s'.points.Keys == s.points.Keys
    requires forall v :: v in s.points ==> Carried(s'.points[v]) == Carried(s.points[v])
    requires s'.queue == s.queue && s'.done == s.done && s'.fetched == s.fetched
    ensures JobsKept(s')
  {
    forall v, n ensures CarriedBy(s', v, n) == CarriedBy(s, v, n) {
    }
    forall n | n in s'.fetched ensures n in s'.done || n in Ids(s'.queue) || exists v :: CarriedBy(s', v, n) {
      if v :| CarriedBy(s, v, n) {
        assert CarriedBy(s', v, n);
      }
    }
  }

  lemma TakeJob(s: Pool, s': Pool, w: nat)
    requires JobsKept(s) && w in s.points && s'.points.Keys == s.points.Keys
    requires forall v :: v in s.points && v != w ==> s'.points[v] == s.points[v]
    requires s.queue != [] && Carried(s.points[w]) == [] && Carried(s'.points[w]) == [s.queue[0]]
    requires s'.queue == s.queue[1..]
    requires s'.done == s.done && s'.fetched == s.fetched
    ensures JobsKept(s')
  {
    var id := s.queue[0].id;
    forall v, n ensures CarriedBy(s', v, n) == if v == w then n == id else CarriedBy(s, v, n) {
    }
    assert s.queue[0] in s.queue;
    assert Ids(s'.queue) == Ids(s.queue) - {id} by {
      forall i | 0 < i < |s.queue| ensures s.queue[i].id != id {
      }
    }
    forall n | n in s'.fetched ensures n in s'.done || n in Ids(s'.queue) || exists v :: CarriedBy(s', v, n) {
      if n == id {
        assert CarriedBy(s', w, n);
      } else if v :| CarriedBy(s, v, n) {
        assert CarriedBy(s', v, n);
      }
    }
  }

  lemma PushBatch(s: Pool, s': Pool, w: nat)
    requires JobsKept(s) && w in s.points && s'.points.Keys == s.points.Keys
    requires forall v :: v in s.points && v != w ==> s'.points[v] == s.points[v]
    requires Carried(s'.points[w]) == [] && s'.queue == s.queue + Carried(s.points[w])
    requires s'.done == s.done && s'.fetched == s.fetched
    ensures JobsKept(s')
  {
    var batch := Carried(s.points[w]);
    forall v, n ensures CarriedBy(s', v, n) == (v != w && CarriedBy(s, v, n)) {
    }
    assert Ids(s'.queue) == Ids(s.queue) + Ids(batch);
    forall n | n in Ids(batch) ensures CarriedBy(s, w, n) {
    }
    assert NoRepeats(s'.queue) by {
      forall i, j | 0 <= i < |s.queue| && 0 <= j < |batch| ensures s.queue[i].id != batch[j].id {
        assert batch[j].id in Ids(batch) && s.queue[i].id in Ids(s.queue);
      }
    }
    forall n | n in s'.queue ensures n.id !in s'.done && n.id in s'.fetched {
      assert n in s.queue || n.id in Ids(batch);
    }
    forall n | n in s'.fetched ensures n in s'.done || n in Ids(s'.queue) || exists v :: CarriedBy(s', v, n) {
      if v :| CarriedBy(s, v, n) {
        assert v == w || CarriedBy(s', v, n);
      }
    }
  }

  lemma FetchJob(s: Pool, s': Pool, w: nat, job: Job)
    requires JobsKept(s) && w in s.points && s'.points.Keys == s.points.Keys && job.id !in s.fetched
    requires forall v :: v in s.points && v != w ==> s'.points[v] == s.points[v]
    requires Carried(s'.points[w]) == Carried(s.points[w]) + [job] && s'.queue == s.queue
    requires s'.done == s.done && s'.fetched == s.fetched + {job.id}
    ensures JobsKept(s')
  {
    var batch := Carried(s.points[w]);
    assert Ids(batch + [job]) == Ids(batch) + {job.id};
    forall v, n ensures CarriedBy(s', v, n) == (CarriedBy(s, v, n) || (v == w && n == job.id)) {
    }
    assert NoRepeats(batch + [job]) by {
      forall i | 0 <= i < |batch| ensures batch[i].id != job.id {
        assert CarriedBy(s, w, batch[i].id);
      }
    }
    forall n | n in Ids(s'.queue) ensures n != job.id {
    }
    forall n | n in s'.fetched ensures n in s'.done || n in Ids(s'.queue) || exists v :: CarriedBy(s', v, n) {
      if n == job.id {
        assert CarriedBy(s', w, n);
      } else if v :| CarriedBy(s, v, n) {
        assert CarriedBy(s', v, n);
      }
    }
  }

  lemma FinishJob(s: Pool, s': Pool, w: nat)
    requires JobsKept(s) && w in s.points && s'.points.Keys == s.points.Keys
    requires forall v :: v in s.points && v != w ==> s'.points[v] == s.points[v]
    requires |Carried(s.points[w])| == 1 && Carried(s'.points[w]) == [] && s'.queue == s.queue
    requires s'.done == s.done + {Carried(s.points[w])[0].id} && s'.fetched == s.fetched
    ensures JobsKept(s')
  {
    var id := Carried(s.points[w])[0].id;
    assert Ids(Carried(s.points[w])) == {id};
    forall v, n ensures CarriedBy(s', v, n) == (v != w && CarriedBy(s, v, n)) {
    }
    assert CarriedBy(s, w, id);
    forall n | n in s'.queue ensures n.id != id {
      assert n.id in Ids(s.queue);
    }
    forall n | n in s'.fetched ensures n in s'.done || n in Ids(s'.queue) || exists v :: CarriedBy(s', v, n) {
      if v :| CarriedBy(s, v, n) {
        assert v == w || CarriedBy(s', v, n);
      }
    }
  }

  lemma StepKeepsJobs(s: Pool, e: Event)
    requires JobsKept(s) && Enabled(s, e.w, e.c)
    ensures JobsKept(Step(s, e))
  {
    var s', w := Step(s, e), e.w;
    var p, p' := s.points[w], s'.points[w];
    JobsMove(s, w, e.c);
    if s'.fetched != s.fetched {
      FetchJob(s, s', w, e.c.job);
    } else if s'.done != s.done {
      FinishJob(s, s', w);
    } else if s'.queue == s.queue && Carried(p') == Carried(p) {
      KeepJobs(s, s', w);
    } else if s.queue != [] && Carried(p) == [] && Carried(p') == [s.queue[0]] && s'.queue == s.queue[1..] {
      TakeJob(s, s', w);
    } else if Carried(p') == [] && s'.queue == s.queue + Carried(p) {
      PushBatch(s, s', w);
    } else {
      FinishJob(s, s', w);
    }
  }

  /** In every run each fetched job is at any time in one place, and once done it never comes back. */
  lemma {:induction false} JobsExecutedOnce(workers: set<nat>, es: seq<Event>)
    requires IsRun(workers, es)
    ensures JobsKept(After(workers, es))
    decreases |es|
  {
    if es == [] {
      var s := Start(workers);
      assert forall w, n :: !CarriedBy(s, w, n);
    } else {
      JobsExecutedOnce(workers, es[..|es| - 1]);
      StepKeepsJobs(After(workers, es[..|es| - 1]), es[|es| - 1]);
    }
  }
}
