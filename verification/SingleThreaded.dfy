/**
  The single-threaded mode and QUIT.  Executing a QUIT throws, so the single-threaded
  loop ends there; the queue of the threaded mode goes on past it.
*/
module SingleThreadedRuns {
  import opened SchedulerTypes
  import opened TaskQueueSpec
  import opened SchedulerSystem
  import opened WaitingSpec
  import opened SchedulerInvariant
  import opened SingleRegistrationSpec
  import opened SerialEquivalence

  predicate IsQuit(acc: Accepted, n: nat) {
    n >= 1 && n in acc && acc[n].kind == Quit
  }

  predicate QuitBefore(acc: Accepted, k: nat) {
    exists m: nat :: m < k && IsQuit(acc, m)
  }

  /** The single-threaded loop still runs after number k: no QUIT has thrown. */
  predicate Running(acc: Accepted, k: nat) {
    k == 0 || (Running(acc, k - 1) && !IsQuit(acc, k))
  }

  /** The database of the single-threaded loop after number k. */
  function SingleThreaded<TS>(fx: Effects<TS>, acc: Accepted, k: nat): Database<TS> {
    if k == 0 then map[]
    else
      var db := SingleThreaded(fx, acc, k - 1);
      if Running(acc, k) && k in acc then Apply(fx, acc[k], db) else db
  }

  lemma QuitBeforeNext(acc: Accepted, k: nat)
    ensures QuitBefore(acc, k + 1) <==> QuitBefore(acc, k) || IsQuit(acc, k)
  {
  }

  lemma {:induction false} RunsUntilQuit(acc: Accepted, k: nat)
    ensures Running(acc, k) <==> !QuitBefore(acc, k + 1)
  {
    QuitBeforeNext(acc, k);
    if k > 0 {
      RunsUntilQuit(acc, k - 1);
    }
  }

  function BeforeQuit(acc: Accepted): set<nat> {
    set n | n in acc && !QuitBefore(acc, n + 1)
  }

  /** The loop executes just the queries before the first QUIT. */
  lemma {:induction false} StopsAtQuit<TS>(fx: Effects<TS>, acc: Accepted, k: nat)
    ensures SingleThreaded(fx, acc, k) == Serial(fx, acc, BeforeQuit(acc), k)
  {
    if k > 0 {
      StopsAtQuit(fx, acc, k - 1);
      RunsUntilQuit(acc, k);
    }
  }

  /** Up to the first QUIT it agrees with the run in submission order. */
  lemma {:induction false} SameBeforeQuit<TS>(fx: Effects<TS>, acc: Accepted, k: nat)
    requires !QuitBefore(acc, k)
    ensures SingleThreaded(fx, acc, k) == Serial(fx, acc, acc.Keys, k)
  {
    if k > 0 {
      SameBeforeQuit(fx, acc, k - 1);
      RunsUntilQuit(acc, k - 1);
    }
  }

  // ----- when it makes a difference -----

  /** At its place in the submission order query k changes the database. */
  predicate Effective<TS(==)>(fx: Effects<TS>, acc: Accepted, k: nat) {
    k >= 1 && k in acc && Apply(fx, acc[k], Serial(fx, acc, acc.Keys, k - 1)) != Serial(fx, acc, acc.Keys, k - 1)
  }

  /** After the first QUIT the loop's database does not change. */
  lemma StoppedStays<TS>(fx: Effects<TS>, acc: Accepted, k: nat)
    requires k >= 1 && QuitBefore(acc, k)
    ensures SingleThreaded(fx, acc, k) == SingleThreaded(fx, acc, k - 1)
  {
    RunsUntilQuit(acc, k - 1);
  }

  lemma {:induction false} IneffectiveAfterQuit<TS>(fx: Effects<TS>, acc: Accepted, k: nat)
    requires NoEffectAfterQuit(fx, acc)
    ensures SingleThreaded(fx, acc, k) == Serial(fx, acc, acc.Keys, k)
  {
    if k > 0 {
      IneffectiveAfterQuit(fx, acc, k - 1);
      if QuitBefore(acc, k) {
        StoppedStays(fx, acc, k);
        assert !Effective(fx, acc, k);
      } else {
        SameBeforeQuit(fx, acc, k);
      }
    }
  }

  /** The single-threaded run and the run in submission order agree at every place. */
  ghost predicate Agree<TS>(fx: Effects<TS>, acc: Accepted) {
    forall k: nat :: SingleThreaded(fx, acc, k) == Serial(fx, acc, acc.Keys, k)
  }

  ghost predicate NoEffectAfterQuit<TS>(fx: Effects<TS>, acc: Accepted) {
    forall n: nat :: QuitBefore(acc, n) ==> !Effective(fx, acc, n)
  }

  /** They agree at every place exactly when no query after the first QUIT is effective. */
  lemma AgreeUnlessEffective<TS>(fx: Effects<TS>, acc: Accepted)
    ensures Agree(fx, acc) <==> NoEffectAfterQuit(fx, acc)
  {
    if NoEffectAfterQuit(fx, acc) {
      forall k: nat ensures SingleThreaded(fx, acc, k) == Serial(fx, acc, acc.Keys, k) {
        IneffectiveAfterQuit(fx, acc, k);
      }
    }
    if Agree(fx, acc) {
      forall n: nat | QuitBefore(acc, n) ensures !Effective(fx, acc, n) {
        AgreeingIsIneffective(fx, acc, n);
      }
    }
  }

  lemma AgreeingIsIneffective<TS>(fx: Effects<TS>, acc: Accepted, n: nat)
    requires Agree(fx, acc) && QuitBefore(acc, n)
    ensures !Effective(fx, acc, n)
  {
    if n >= 1 {
      StoppedStays(fx, acc, n);
      assert SingleThreaded(fx, acc, n - 1) == Serial(fx, acc, acc.Keys, n - 1);
      assert SingleThreaded(fx, acc, n) == Serial(fx, acc, acc.Keys, n);
    }
  }

  // ----- the same from the queries alone -----

  /** The tables that can exist after number k, whatever the LOADs read. */
  function Tables(acc: Accepted, k: nat): set<string> {
    if k == 0 then {}
    else
      var before := Tables(acc, k - 1);
      if k !in acc then before
      else
        match acc[k].kind
        case Load => before + {acc[k].tableId}
        case Drop => before - {acc[k].tableId}
        case CopyTable => if acc[k].tableId in before then before + {acc[k].depends.newTable} else before
        case _ => before
  }

  /** Query k can change a database: a LOAD, or a DROP, COPYTABLE or data query of a table that can exist. */
  predicate MayChange(acc: Accepted, k: nat) {
    && k >= 1 && k in acc
    && (acc[k].kind == Load
        || ((acc[k].kind == Drop || acc[k].kind == CopyTable || IsDataWrite(acc[k].kind))
            && acc[k].tableId in Tables(acc, k - 1)))
  }

  lemma {:induction false} TablesBound<TS>(fx: Effects<TS>, acc: Accepted, k: nat)
    ensures Serial(fx, acc, acc.Keys, k).Keys <= Tables(acc, k)
  {
    if k > 0 {
      TablesBound(fx, acc, k - 1);
    }
  }

  function LoadZero(n: nat): Option<nat> {
    Some(0)
  }

  function CountUp(n: nat, x: nat): nat {
    x + 1
  }

  /** Every LOAD succeeds, and every data query counts up. */
  const FREE: Effects<nat> := Effects(LoadZero, CountUp)

  lemma {:induction false} TablesExact(acc: Accepted, k: nat)
    ensures Serial(FREE, acc, acc.Keys, k).Keys == Tables(acc, k)
  {
    if k > 0 {
      TablesExact(acc, k - 1);
    }
  }

  lemma EffectiveMayChange<TS>(fx: Effects<TS>, acc: Accepted, k: nat)
    requires Effective(fx, acc, k)
    ensures MayChange(acc, k)
  {
    TablesBound(fx, acc, k - 1);
  }

  /** Before the query that creates a table the table is absent. */
  lemma NotYetCreated<TS>(fx: Effects<TS>, acc: Accepted, k: nat, t: string)
    requires SingleRegistration(acc) && k >= 1 && k in acc && Targets(acc[k], t)
    ensures t !in Serial(fx, acc, acc.Keys, k - 1)
  {
    CreatorIsOnly(acc, k, t);
    AbsentBeforeCreator(fx, acc, acc.Keys, k - 1, k, t);
  }

  /** Where its table exists and the table it creates does not, a query has an effect. */
  lemma ChangesSomething(x: Item, db: Database<nat>)
    requires x.kind == Load ==> x.tableId !in db
    requires x.kind == CopyTable ==> x.tableId in db && x.depends.newTable !in db
    requires x.kind == Drop || IsDataWrite(x.kind) ==> x.tableId in db
    requires x.kind == Load || x.kind == CopyTable || x.kind == Drop || IsDataWrite(x.kind)
    ensures Apply(FREE, x, db) != db
  {
    var t := if x.kind == CopyTable then x.depends.newTable else x.tableId;
    assert Get(Apply(FREE, x, db), t) != Get(db, t);
  }

  lemma MayChangeEffective(acc: Accepted, k: nat)
    requires SingleRegistration(acc) && MayChange(acc, k)
    ensures Effective(FREE, acc, k)
  {
    var x := acc[k];
    TablesExact(acc, k - 1);
    if x.kind == Load {
      NotYetCreated(FREE, acc, k, x.tableId);
    }
    if x.kind == CopyTable {
      NotYetCreated(FREE, acc, k, x.depends.newTable);
    }
    ChangesSomething(x, Serial(FREE, acc, acc.Keys, k - 1));
  }

  /** After the first QUIT no query can change anything. */
  ghost predicate NothingAfterQuit(acc: Accepted) {
    forall n: nat :: QuitBefore(acc, n) ==> !MayChange(acc, n)
  }

  lemma NothingIsEffective<TS>(fx: Effects<TS>, acc: Accepted)
    requires NothingAfterQuit(acc)
    ensures NoEffectAfterQuit(fx, acc)
  {
    forall n: nat | QuitBefore(acc, n) ensures !Effective(fx, acc, n) {
      if Effective(fx, acc, n) {
        EffectiveMayChange(fx, acc, n);
      }
    }
  }

  /**
    For a workload in which each table is created at most once: the two agree at every
    place, whatever the files hold and the data queries do, exactly when no query after
    the first QUIT can change a database.
  */
  lemma AgreeForAllEffects(acc: Accepted)
    requires SingleRegistration(acc)
    ensures (forall fx: Effects<nat> :: Agree(fx, acc)) <==> NothingAfterQuit(acc)
  {
    if NothingAfterQuit(acc) {
      forall fx: Effects<nat> ensures Agree(fx, acc) {
        NothingIsEffective(fx, acc);
        AgreeUnlessEffective(fx, acc);
      }
    }
    if Agree(FREE, acc) {
      AgreeUnlessEffective(FREE, acc);
      forall n: nat | QuitBefore(acc, n) ensures !MayChange(acc, n) {
        if MayChange(acc, n) {
          MayChangeEffective(acc, n);
        }
      }
    }
  }

  // ----- the threaded run and the single-threaded run -----

  /**
    When everything accepted has been executed, the database is that of the run in
    submission order; it is that of the single-threaded run if no query after the first
    QUIT is effective.
  */
  lemma DrainedIsSingleThreaded<TS>(fx: Effects<TS>, names: map<string, string>, es: seq<Event>, k: nat)
    requires IsRun(names, es) && SingleRegistration(After(names, es).acc)
    requires After(names, es).executed == After(names, es).acc.Keys
    requires forall n :: n in After(names, es).acc ==> n <= k
    requires NoEffectAfterQuit(fx, After(names, es).acc)
    ensures DatabaseAfter(fx, names, es) == SingleThreaded(fx, After(names, es).acc, k)
  {
    DrainedIsSerial(fx, names, es, k);
    IneffectiveAfterQuit(fx, After(names, es).acc, k);
  }

  /**
    Each table is in a state in which the single-threaded run leaves it, as long as the
    last query of it executed so far is not behind a QUIT, or no query behind the first
    QUIT is effective.
  */
  lemma TablesFollowSingleThreaded<TS>(fx: Effects<TS>, names: map<string, string>, es: seq<Event>, n: nat, t: string)
    requires IsRun(names, es) && SingleRegistration(After(names, es).acc)
    requires LastTouch(After(names, es), n, t)
    requires !QuitBefore(After(names, es).acc, n) || NoEffectAfterQuit(fx, After(names, es).acc)
    ensures Get(DatabaseAfter(fx, names, es), t) == Get(SingleThreaded(fx, After(names, es).acc, n), t)
  {
    TablesFollowSerialRun(fx, names, es, n, t);
    if QuitBefore(After(names, es).acc, n) {
      IneffectiveAfterQuit(fx, After(names, es).acc, n);
    } else {
      SameBeforeQuit(fx, After(names, es).acc, n);
    }
  }

  /** A first QUIT has just been dispatched, and everything before it has been executed. */
  ghost predicate AtFirstQuit(s: Sys, q: nat) {
    && s.dispatched != [] && s.dispatched[|s.dispatched| - 1].seqno == q
    && IsQuit(s.acc, q) && !QuitBefore(s.acc, q)
    && forall n :: n in s.acc && n < q ==> n in s.executed
  }

  /** Nothing behind the QUIT has been executed. */
  lemma ExecutedUpToQuit(s: Sys, q: nat, n: nat)
    requires HistoryOk(s) && ExecOk(s) && AtFirstQuit(s, q) && n in s.executed
    ensures n <= q
  {
    var last := |s.dispatched| - 1;
    assert Known(s.acc, s.dispatched[last]);
    assert Occurring(s.dispatched, n);
    var i :| 0 <= i < |s.dispatched| && s.dispatched[i].seqno == n;
    if i < last {
      assert s.dispatched[i].seqno < s.dispatched[last].seqno;
    }
  }

  lemma BeforeQuitMeans(acc: Accepted, q: nat, n: nat)
    requires IsQuit(acc, q) && !QuitBefore(acc, q)
    ensures n in BeforeQuit(acc) <==> n in acc && n < q
  {
    if n >= q {
      assert QuitBefore(acc, n + 1);
    }
  }

  /** What has been executed is what precedes the QUIT, and perhaps the QUIT. */
  lemma ExecutedAtQuit(s: Sys, q: nat)
    requires HistoryOk(s) && ExecOk(s) && AtFirstQuit(s, q)
    requires forall n :: n in s.executed ==> n in s.acc
    ensures s.executed - {q} == BeforeQuit(s.acc)
  {
    forall n: nat ensures n in s.executed - {q} <==> n in BeforeQuit(s.acc) {
      BeforeQuitMeans(s.acc, q, n);
      if n in s.executed {
        ExecutedUpToQuit(s, q, n);
      }
    }
  }

  lemma {:induction false} QuitDoesNothing<TS>(fx: Effects<TS>, acc: Accepted, ns: set<nat>, q: nat, k: nat)
    requires IsQuit(acc, q)
    ensures Serial(fx, acc, ns, k) == Serial(fx, acc, ns - {q}, k)
  {
    if k > 0 {
      QuitDoesNothing(fx, acc, ns, q, k - 1);
    }
  }

  /**
    When the first QUIT is dispatched and everything before it has been executed, the
    database is the one in which the single-threaded run ends.
  */
  lemma QuitFindsSingleThreaded<TS>(fx: Effects<TS>, names: map<string, string>, es: seq<Event>, q: nat, k: nat)
    requires IsRun(names, es) && SingleRegistration(After(names, es).acc)
    requires AtFirstQuit(After(names, es), q) && q <= k
    ensures DatabaseAfter(fx, names, es) == SingleThreaded(fx, After(names, es).acc, k)
  {
    var s := After(names, es);
    AlwaysInv(names, es);
    AlwaysSerial(names, es);
    forall n | n in s.executed ensures n in s.acc && n <= k {
      ExecutedAccepted(s, n);
      ExecutedUpToQuit(s, q, n);
    }
    ExecutedAtQuit(s, q);
    RunsAreSerial(fx, names, es, k);
    QuitDoesNothing(fx, s.acc, s.executed, q, k);
    StopsAtQuit(fx, s.acc, k);
  }
}
