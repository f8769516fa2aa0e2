/**
  The cross-table priority index: a binary heap ordered by KeyCmp plus a version
  number per table.  An upsert pushes a new entry and so makes older entries of
  the same table stale; pickBest pops until it meets an entry that is not stale.
*/
module GlobalIndexSpec {
  import opened SchedulerTypes

  const FAIRNESS_QUANTUM: nat := 64

  datatype Key = Key(pri: nat, stamp: nat, headSeq: nat, tbl: string, version: nat)

  /** True when l has to come out after r. */
  predicate KeyCmp(l: Key, r: Key) {
    if l.pri != r.pri then l.pri > r.pri
    else
      var diff := if l.stamp > r.stamp then l.stamp - r.stamp else r.stamp - l.stamp;
      if diff >= FAIRNESS_QUANTUM then l.stamp > r.stamp else l.headSeq > r.headSeq
  }

  // ----- the array heap -----

  function Swapped(h: seq<Key>, i: nat, j: nat): (r: seq<Key>)
    requires i < |h| && j < |h|
    ensures |r| == |h|
  {
    h[i := h[j]][j := h[i]]
  }

  function Parent(i: nat): (p: nat)
    requires i > 0
    ensures p < i && (i == 2 * p + 1 || i == 2 * p + 2)
  {
    (i - 1) / 2
  }

  function SiftUp(h: seq<Key>, i: nat): (r: seq<Key>)
    requires i < |h|
    ensures |r| == |h|
    decreases i
  {
    if i == 0 then h
    else
      var p := Parent(i);
      if KeyCmp(h[p], h[i]) then SiftUp(Swapped(h, p, i), p) else h
  }

  /** The child of i that has to come out first. */
  function FirstChild(h: seq<Key>, i: nat): (c: nat)
    requires 2 * i + 1 < |h|
    ensures c < |h| && (c == 2 * i + 1 || c == 2 * i + 2)
  {
    var l := 2 * i + 1;
    if l + 1 < |h| && KeyCmp(h[l], h[l + 1]) then l + 1 else l
  }

  function SiftDown(h: seq<Key>, i: nat): (r: seq<Key>)
    requires i < |h|
    ensures |r| == |h|
    decreases |h| - i
  {
    if 2 * i + 1 >= |h| then h
    else
      var c := FirstChild(h, i);
      if KeyCmp(h[i], h[c]) then SiftDown(Swapped(h, i, c), c) else h
  }

  function Push(h: seq<Key>, k: Key): (r: seq<Key>)
    ensures |r| == |h| + 1
  {
    SiftUp(h + [k], |h|)
  }

  function Pop(h: seq<Key>): (r: seq<Key>)
    requires h != []
    ensures |r| == |h| - 1
  {
    if |h| == 1 then [] else SiftDown(h[..|h| - 1][0 := h[|h| - 1]], 0)
  }

  // ----- contents are kept -----

  lemma SwappedSame(h: seq<Key>, i: nat, j: nat)
    requires i < |h| && j < |h|
    ensures multiset(Swapped(h, i, j)) == multiset(h)
  {
  }

  lemma {:induction false} SiftUpSame(h: seq<Key>, i: nat)
    requires i < |h|
    ensures multiset(SiftUp(h, i)) == multiset(h)
    decreases i
  {
    if i > 0 {
      var p := Parent(i);
      if KeyCmp(h[p], h[i]) {
        SwappedSame(h, p, i);
        SiftUpSame(Swapped(h, p, i), p);
      }
    }
  }

  lemma {:induction false} SiftDownSame(h: seq<Key>, i: nat)
    requires i < |h|
    ensures multiset(SiftDown(h, i)) == multiset(h)
    decreases |h| - i
  {
    if 2 * i + 1 < |h| {
      var c := FirstChild(h, i);
      if KeyCmp(h[i], h[c]) {
        SwappedSame(h, i, c);
        SiftDownSame(Swapped(h, i, c), c);
      }
    }
  }

  /** A push adds exactly the new entry. */
  lemma PushContents(h: seq<Key>, k: Key)
    ensures multiset(Push(h, k)) == multiset(h) + multiset{k}
  {
    SiftUpSame(h + [k], |h|);
  }

  /** A pop removes exactly the top entry. */
  lemma PopContents(h: seq<Key>)
    requires h != []
    ensures multiset(Pop(h)) + multiset{h[0]} == multiset(h)
  {
    var n := |h| - 1;
    assert h == h[..n] + [h[n]];
    if n > 0 {
      var g := h[..n][0 := h[n]];
      SiftDownSame(g, 0);
      assert h[..n] == [h[0]] + h[1..n];
      assert g == [h[n]] + h[1..n];
    }
  }

  // ----- heap order, for the orders that KeyCmp can agree with -----

  /**
    Three total preorders on entries.  ByClass compares priority classes only, Exact
    compares (priority, headSeq) and ByAge compares (priority, stamp) lexicographically.
  */
  datatype Order = ByClass | Exact | ByAge

  predicate Before(o: Order, a: Key, b: Key) {
    match o
    case ByClass => a.pri <= b.pri
    case Exact => a.pri < b.pri || (a.pri == b.pri && a.headSeq <= b.headSeq)
    case ByAge => a.pri < b.pri || (a.pri == b.pri && a.stamp <= b.stamp)
  }

  /** The entry at j does not come out before its parent. */
  ghost predicate Edge(o: Order, h: seq<Key>, j: nat)
    requires 0 < j < |h|
  {
    Before(o, h[Parent(j)], h[j])
  }

  ghost predicate HeapOrdered(o: Order, h: seq<Key>) {
    forall j: nat :: 0 < j < |h| ==> Edge(o, h, j)
  }

  /** All stamps in the heap lie within one fairness window. */
  ghost predicate WithinWindow(h: seq<Key>) {
    forall a, b :: a in h && b in h ==> a.stamp < b.stamp + FAIRNESS_QUANTUM
  }

  /** Entries of one class that are less than a window apart have their head numbers in the order of their stamps. */
  ghost predicate AgeFollowsHeads(h: seq<Key>) {
    forall a, b :: a in h && b in h && a.pri == b.pri && a.stamp < b.stamp < a.stamp + FAIRNESS_QUANTUM ==>
      a.headSeq < b.headSeq
  }

  /** On the entries of h the comparator decides exactly as the order o does. */
  ghost predicate Agrees(o: Order, h: seq<Key>) {
    match o
    case ByClass => true
    case Exact => WithinWindow(h)
    case ByAge => AgeFollowsHeads(h)
  }

  lemma CmpAgrees(o: Order, h: seq<Key>, a: Key, b: Key)
    requires Agrees(o, h) && a in h && b in h
    ensures KeyCmp(a, b) ==> Before(o, b, a)
    ensures !KeyCmp(a, b) ==> Before(o, a, b)
  {
  }

  lemma AgreesSame(o: Order, h: seq<Key>, g: seq<Key>)
    requires Agrees(o, h) && multiset(g) == multiset(h)
    ensures Agrees(o, g)
  {
    forall k | k in g ensures k in h {
      assert k in multiset(g);
    }
  }

  /** The children of i do not come out before the parent of i. */
  ghost predicate Bridged(o: Order, h: seq<Key>, i: nat)
    requires i < |h|
  {
    i > 0 ==> forall j: nat {:trigger Edge(o, h, j)} ::
      0 < j < |h| && Parent(j) == i ==> Before(o, h[Parent(i)], h[j])
  }

  lemma {:induction false} SiftUpOrdered(o: Order, h: seq<Key>, i: nat)
    requires i < |h| && Agrees(o, h)
    requires forall j: nat :: 0 < j < |h| && j != i ==> Edge(o, h, j)
    requires Bridged(o, h, i)
    ensures HeapOrdered(o, SiftUp(h, i))
    decreases i
  {
    if i > 0 {
      var p := Parent(i);
      CmpAgrees(o, h, h[p], h[i]);
      if KeyCmp(h[p], h[i]) {
        var g := Swapped(h, p, i);
        SwappedSame(h, p, i);
        AgreesSame(o, h, g);
        forall j: nat | 0 < j < |g| && j != p ensures Edge(o, g, j) {
          if j != i {
            assert Edge(o, h, j);
          }
        }
        forall j: nat | p > 0 && 0 < j < |g| && Parent(j) == p ensures Before(o, g[Parent(p)], g[j]) {
          assert Edge(o, h, p);
          if j != i {
            assert Edge(o, h, j);
          }
        }
        SiftUpOrdered(o, g, p);
      } else {
        assert Edge(o, h, i);
      }
    }
  }

  /** Sifting stops at i: i does not come out after its first child c, nor c after its sibling. */
  lemma StopsOrdered(o: Order, h: seq<Key>, i: nat, c: nat)
    requires i < |h| && 2 * i + 1 < |h| && c == FirstChild(h, i) && Before(o, h[i], h[c])
    requires 2 * i + 2 < |h| ==> Before(o, h[c], h[2 * i + 1]) && Before(o, h[c], h[2 * i + 2])
    requires forall j: nat :: 0 < j < |h| && Parent(j) != i ==> Edge(o, h, j)
    ensures HeapOrdered(o, h)
  {
    forall j: nat | 0 < j < |h| ensures Edge(o, h, j) {
      if Parent(j) == i {
        assert j == 2 * i + 1 || j == 2 * i + 2;
      }
    }
  }

  /** After i has changed places with its first child c, only the edges below c are open. */
  lemma SwapsDown(o: Order, h: seq<Key>, i: nat, c: nat)
    requires i < |h| && 2 * i + 1 < |h| && c == FirstChild(h, i) && Before(o, h[c], h[i])
    requires 2 * i + 2 < |h| ==> Before(o, h[c], h[2 * i + 1]) && Before(o, h[c], h[2 * i + 2])
    requires forall j: nat :: 0 < j < |h| && Parent(j) != i ==> Edge(o, h, j)
    requires Bridged(o, h, i)
    ensures forall j: nat :: 0 < j < |h| && Parent(j) != c ==> Edge(o, Swapped(h, i, c), j)
    ensures Bridged(o, Swapped(h, i, c), c)
  {
    var g := Swapped(h, i, c);
    forall j: nat | 0 < j < |g| && Parent(j) != c ensures Edge(o, g, j) {
      if Parent(j) != i {
        assert Edge(o, h, j);
      }
      if j == i {
        assert Edge(o, h, c) || Before(o, h[Parent(i)], h[c]);
      }
    }
    forall j: nat | 0 < j < |g| && Parent(j) == c ensures Before(o, g[Parent(c)], g[j]) {
      assert Edge(o, h, j);
    }
  }

  lemma {:induction false} SiftDownOrdered(o: Order, h: seq<Key>, i: nat)
    requires i < |h| && Agrees(o, h)
    requires forall j: nat :: 0 < j < |h| && Parent(j) != i ==> Edge(o, h, j)
    requires Bridged(o, h, i)
    ensures HeapOrdered(o, SiftDown(h, i))
    decreases |h| - i
  {
    if 2 * i + 1 < |h| {
      var c := FirstChild(h, i);
      CmpAgrees(o, h, h[i], h[c]);
      if 2 * i + 2 < |h| {
        CmpAgrees(o, h, h[2 * i + 1], h[2 * i + 2]);
      }
      if KeyCmp(h[i], h[c]) {
        SwappedSame(h, i, c);
        AgreesSame(o, h, Swapped(h, i, c));
        SwapsDown(o, h, i, c);
        SiftDownOrdered(o, Swapped(h, i, c), c);
      } else {
        StopsOrdered(o, h, i, c);
      }
    }
  }

  lemma PushOrdered(o: Order, h: seq<Key>, k: Key)
    requires HeapOrdered(o, h) && Agrees(o, h + [k])
    ensures HeapOrdered(o, Push(h, k))
  {
    var g := h + [k];
    forall j: nat | 0 < j < |g| && j != |h| ensures Edge(o, g, j) {
      assert Edge(o, h, j);
    }
    forall j: nat | 0 < j < |g| ensures Parent(j) != |h| {
    }
    SiftUpOrdered(o, g, |h|);
  }

  lemma PopOrdered(o: Order, h: seq<Key>)
    requires h != [] && HeapOrdered(o, h) && Agrees(o, h)
    ensures HeapOrdered(o, Pop(h))
  {
    var n := |h| - 1;
    if n > 0 {
      var g := h[..n][0 := h[n]];
      forall k | k in g ensures k in h {
      }
      forall j: nat | 0 < j < |g| && Parent(j) != 0 ensures Edge(o, g, j) {
        assert Edge(o, h, j);
      }
      SiftDownOrdered(o, g, 0);
    }
  }

  lemma {:induction false} TopBeforeAll(o: Order, h: seq<Key>, j: nat)
    requires j < |h| && HeapOrdered(o, h)
    ensures Before(o, h[0], h[j])
  {
    if j > 0 {
      TopBeforeAll(o, h, Parent(j));
      assert Edge(o, h, j);
    }
  }

  /** KeyCmp on its own is not transitive: three entries each behind the next. */
  lemma KeyCmpHasCycle()
    ensures exists a: Key, b: Key, c: Key :: KeyCmp(a, b) && KeyCmp(b, c) && KeyCmp(c, a)
  {
    var a := Key(2, 0, 30, "a", 1);
    var b := Key(2, 40, 20, "b", 1);
    var c := Key(2, 80, 10, "c", 1);
    assert KeyCmp(a, b) && KeyCmp(b, c) && KeyCmp(c, a);
  }

  // ----- lazy deletion -----

  datatype Index = Index(heap: seq<Key>, latestVersion: map<string, nat>)

  function Version(ix: Index, t: string): nat {
    if t in ix.latestVersion then ix.latestVersion[t] else 0
  }

  predicate IsLive(ix: Index, k: Key) {
    Current(ix.latestVersion, k)
  }

  predicate Current(latest: map<string, nat>, k: Key) {
    k.tbl in latest && latest[k.tbl] == k.version
  }

  function Upsert(ix: Index, t: string, pri: nat, tick: nat, headSeq: nat): Index {
    var v := Version(ix, t) + 1;
    Index(Push(ix.heap, Key(pri, tick, headSeq, t, v)), ix.latestVersion[t := v])
  }

  function PickBest(ix: Index): (r: (Index, Option<string>))
    ensures |r.0.heap| <= |ix.heap|
    ensures r.1.Some? ==> |r.0.heap| < |ix.heap|
    decreases |ix.heap|
  {
    if ix.heap == [] then (ix, None)
    else
      var rest := ix.(heap := Pop(ix.heap));
      if IsLive(ix, ix.heap[0]) then (rest, Some(ix.heap[0].tbl)) else PickBest(rest)
  }

  /** No version is above the latest, and a version of a table occurs at most once. */
  ghost predicate ValidBag(bag: multiset<Key>, latest: map<string, nat>) {
    && (forall k :: k in bag ==> k.tbl in latest && k.version <= latest[k.tbl] && bag[k] == 1)
    && (forall k, l :: k in bag && l in bag && k.tbl == l.tbl && k.version == l.version ==> k == l)
  }

  ghost predicate ValidIndex(ix: Index) {
    && ValidBag(multiset(ix.heap), ix.latestVersion)
    && HeapOrdered(ByClass, ix.heap)
  }

  ghost function LiveIn(bag: multiset<Key>, latest: map<string, nat>): set<Key> {
    set k | k in bag && Current(latest, k)
  }

  /** The abstract index: the entries that are not stale. */
  ghost function Live(ix: Index): set<Key> {
    LiveIn(multiset(ix.heap), ix.latestVersion)
  }

  ghost function LiveTables(ix: Index): set<string> {
    set k | k in Live(ix) :: k.tbl
  }

  ghost function Others(s: set<Key>, t: string): set<Key> {
    set k | k in s && k.tbl != t
  }

  /** At most one live entry per table: the abstract index is a map from tables to entries. */
  lemma LiveIsAMap(ix: Index, k: Key, l: Key)
    requires ValidIndex(ix) && k in Live(ix) && l in Live(ix) && k.tbl == l.tbl
    ensures k == l
  {
  }

  lemma PushLive(bag: multiset<Key>, latest: map<string, nat>, k: Key)
    requires ValidBag(bag, latest)
    requires k.version == (if k.tbl in latest then latest[k.tbl] else 0) + 1
    ensures ValidBag(bag + multiset{k}, latest[k.tbl := k.version])
    ensures LiveIn(bag + multiset{k}, latest[k.tbl := k.version]) == Others(LiveIn(bag, latest), k.tbl) + {k}
  {
    assert k !in bag;
  }

  /** An upsert replaces the entry of its table and nothing else. */
  lemma UpsertReplaces(ix: Index, t: string, pri: nat, tick: nat, headSeq: nat)
    requires ValidIndex(ix)
    ensures var ix' := Upsert(ix, t, pri, tick, headSeq);
            && ValidIndex(ix')
            && Live(ix') == Others(Live(ix), t) + {Key(pri, tick, headSeq, t, Version(ix, t) + 1)}
            && LiveTables(ix') == LiveTables(ix) + {t}
  {
    var k := Key(pri, tick, headSeq, t, Version(ix, t) + 1);
    PushContents(ix.heap, k);
    PushOrdered(ByClass, ix.heap, k);
    PushLive(multiset(ix.heap), ix.latestVersion, k);
    var ix' := Upsert(ix, t, pri, tick, headSeq);
    assert multiset(ix'.heap) == multiset(ix.heap) + multiset{k};
    LiveWith(ix, Live(ix'), k);
  }

  lemma LiveWith(ix: Index, live: set<Key>, k: Key)
    requires live == Others(Live(ix), k.tbl) + {k}
    ensures (set l | l in live :: l.tbl) == LiveTables(ix) + {k.tbl}
  {
    forall u | u in LiveTables(ix) && u != k.tbl ensures u in (set l | l in live :: l.tbl) {
      var l :| l in Live(ix) && l.tbl == u;
      assert l in live;
    }
    assert k in live;
  }

  lemma PopValid(ix: Index)
    requires ValidIndex(ix) && ix.heap != []
    ensures var rest := ix.(heap := Pop(ix.heap));
            && ValidIndex(rest)
            && Live(rest) == Live(ix) - {ix.heap[0]}
            && (ix.heap[0] in Live(ix) <==> IsLive(ix, ix.heap[0]))
  {
    PopContents(ix.heap);
    PopOrdered(ByClass, ix.heap);
    var top := ix.heap[0];
    var bag := multiset(ix.heap);
    var rest := multiset(Pop(ix.heap));
    assert top in ix.heap;
    assert rest == bag - multiset{top};
    assert bag[top] == 1;
    assert forall k :: k in rest <==> k in bag && k != top;
    assert forall k :: k in rest ==> rest[k] == bag[k];
  }

  lemma TopIsBest(o: Order, ix: Index)
    requires ix.heap != [] && HeapOrdered(o, ix.heap)
    ensures forall k :: k in Live(ix) ==> Before(o, ix.heap[0], k)
  {
    forall k | k in Live(ix) ensures Before(o, ix.heap[0], k) {
      assert k in ix.heap;
      var j: nat :| j < |ix.heap| && ix.heap[j] == k;
      TopBeforeAll(o, ix.heap, j);
    }
  }

  /** The live entry that pickBest takes out. */
  function Picked(ix: Index): Option<Key>
    decreases |ix.heap|
  {
    if ix.heap == [] then None
    else if IsLive(ix, ix.heap[0]) then Some(ix.heap[0])
    else Picked(ix.(heap := Pop(ix.heap)))
  }

  /**
    pickBest reports empty exactly when no entry is live; otherwise it removes
    one live entry, of the best priority class there is, and returns its table.
  */
  lemma {:induction false} PickBestPicks(ix: Index)
    requires ValidIndex(ix)
    ensures var (ix', t) := PickBest(ix);
            && ValidIndex(ix')
            && (t == None <==> Live(ix) == {})
            && (t == None ==> Live(ix') == {})
            && (t.Some? ==>
                  && Picked(ix).Some? && Picked(ix).value in Live(ix) && Picked(ix).value.tbl == t.value
                  && Live(ix') == Live(ix) - {Picked(ix).value}
                  && forall k :: k in Live(ix) ==> Picked(ix).value.pri <= k.pri)
    decreases |ix.heap|
  {
    if ix.heap != [] {
      var top := ix.heap[0];
      PopValid(ix);
      if IsLive(ix, top) {
        TopIsBest(ByClass, ix);
      } else {
        assert Live(ix) - {top} == Live(ix);
        PickBestPicks(ix.(heap := Pop(ix.heap)));
      }
    }
  }

  /** What a pick does to the set of live tables. */
  lemma PickBestTables(ix: Index)
    requires ValidIndex(ix)
    ensures var (ix', t) := PickBest(ix);
            && ValidIndex(ix')
            && (t == None ==> LiveTables(ix) == LiveTables(ix') == {})
            && (t.Some? ==> t.value in LiveTables(ix) && LiveTables(ix') == LiveTables(ix) - {t.value})
  {
    PickBestPicks(ix);
    var (ix', t) := PickBest(ix);
    if t.Some? {
      LiveWithout(ix, Live(ix'), Picked(ix).value);
    }
  }

  /** Without its entry a table is not live any more, the others are. */
  lemma LiveWithout(ix: Index, live: set<Key>, k: Key)
    requires ValidIndex(ix) && k in Live(ix) && live == Live(ix) - {k}
    ensures (set l | l in live :: l.tbl) == LiveTables(ix) - {k.tbl}
  {
    forall u | u in LiveTables(ix) && u != k.tbl ensures u in (set l | l in live :: l.tbl) {
      var l :| l in Live(ix) && l.tbl == u;
      assert l in live;
    }
    forall l | l in live ensures l.tbl != k.tbl {
      if l.tbl == k.tbl {
        LiveIsAMap(ix, l, k);
      }
    }
  }

  /** The heap is ordered by o, and the comparator agrees with o on its entries. */
  ghost predicate Sound(o: Order, ix: Index) {
    ValidIndex(ix) && Agrees(o, ix.heap) && HeapOrdered(o, ix.heap)
  }

  lemma AgreesWithin(o: Order, h: seq<Key>, g: seq<Key>)
    requires Agrees(o, h) && forall k :: k in g ==> k in h
    ensures Agrees(o, g)
  {
  }

  /**
    When the heap is ordered by o and the comparator agrees with o on its entries, the
    pick is a live entry that is least by o, and the heap stays so.  That all stamps lie
    in one fairness window makes the comparator agree with Exact, but the heap need not
    be ordered by it: see WindowIsNotEnough.
  */
  lemma {:induction false} PickBestLeast(o: Order, ix: Index)
    requires Sound(o, ix)
    ensures var (ix', t) := PickBest(ix);
            && Sound(o, ix')
            && (forall k :: k in ix'.heap ==> k in ix.heap)
            && (t.Some? ==> Picked(ix).Some? && forall k :: k in Live(ix) ==> Before(o, Picked(ix).value, k))
    decreases |ix.heap|
  {
    if ix.heap != [] {
      var rest := ix.(heap := Pop(ix.heap));
      PopValid(ix);
      PopOrdered(o, ix.heap);
      PopContents(ix.heap);
      forall k | k in rest.heap ensures k in ix.heap {
        assert k in multiset(rest.heap) && k in multiset(ix.heap);
      }
      AgreesWithin(o, ix.heap, rest.heap);
      if IsLive(ix, ix.heap[0]) {
        TopIsBest(o, ix);
      } else {
        assert Live(ix) - {ix.heap[0]} == Live(ix);
        PickBestLeast(o, rest);
      }
    }
  }

  /** An upsert keeps the order if the comparator agrees with it on the new entry, too. */
  lemma UpsertSound(o: Order, ix: Index, t: string, pri: nat, tick: nat, headSeq: nat)
    requires Sound(o, ix)
    requires Agrees(o, ix.heap + [Key(pri, tick, headSeq, t, Version(ix, t) + 1)])
    ensures Sound(o, Upsert(ix, t, pri, tick, headSeq))
  {
    var k := Key(pri, tick, headSeq, t, Version(ix, t) + 1);
    UpsertReplaces(ix, t, pri, tick, headSeq);
    PushContents(ix.heap, k);
    assert multiset(ix.heap + [k]) == multiset(ix.heap) + multiset{k};
    AgreesSame(o, ix.heap + [k], Push(ix.heap, k));
    PushOrdered(o, ix.heap, k);
  }

  // ----- lists of index operations -----

  datatype IndexOp = Put(tbl: string, pri: nat, tick: nat, headSeq: nat) | Pick

  function Operate(ix: Index, op: IndexOp): Index {
    match op
    case Put(t, pri, tick, headSeq) => Upsert(ix, t, pri, tick, headSeq)
    case Pick => PickBest(ix).0
  }

  /** The state after the first n operations. */
  function Fold<S, O>(step: (S, O) -> S, s: S, ops: seq<O>, n: nat): S
    requires n <= |ops|
  {
    if n == 0 then s else step(Fold(step, s, ops, n - 1), ops[n - 1])
  }

  lemma {:induction false} FoldPrefix<S, O>(step: (S, O) -> S, s: S, a: seq<O>, b: seq<O>, n: nat)
    requires n <= |a|
    ensures Fold(step, s, a + b, n) == Fold(step, s, a, n)
  {
    if n > 0 {
      FoldPrefix(step, s, a, b, n - 1);
    }
  }

  lemma {:induction false} FoldConcat<S, O>(step: (S, O) -> S, s: S, a: seq<O>, b: seq<O>, n: nat)
    requires n <= |b|
    ensures Fold(step, s, a + b, |a| + n) == Fold(step, Fold(step, s, a, |a|), b, n)
  {
    if n > 0 {
      FoldConcat(step, s, a, b, n - 1);
      assert (a + b)[|a| + n - 1] == b[n - 1];
    } else {
      FoldPrefix(step, s, a, b, |a|);
    }
  }

  const OPERATE: (Index, IndexOp) -> Index := (ix: Index, op: IndexOp) => Operate(ix, op)

  /** The index after the first n operations. */
  function Replay(ix: Index, ops: seq<IndexOp>, n: nat): Index
    requires n <= |ops|
  {
    Fold(OPERATE, ix, ops, n)
  }

  /** Operation i is a pick and yields table t. */
  predicate PicksAt(ix: Index, ops: seq<IndexOp>, i: nat, t: string) {
    i < |ops| && ops[i] == Pick && PickBest(Replay(ix, ops, i)).1 == Some(t)
  }

  predicate PutsAt(ops: seq<IndexOp>, i: nat, t: string) {
    i < |ops| && ops[i].Put? && ops[i].tbl == t
  }

  lemma OperateValid(ix: Index, op: IndexOp)
    requires ValidIndex(ix)
    ensures ValidIndex(Operate(ix, op))
    ensures forall t :: t in LiveTables(Operate(ix, op)) ==> t in LiveTables(ix) || (op.Put? && op.tbl == t)
  {
    match op
    case Put(t, pri, tick, headSeq) => UpsertReplaces(ix, t, pri, tick, headSeq);
    case Pick => PickBestTables(ix);
  }

  lemma {:induction false} ReplayValid(ix: Index, ops: seq<IndexOp>, n: nat)
    requires ValidIndex(ix) && n <= |ops|
    ensures ValidIndex(Replay(ix, ops, n))
  {
    if n > 0 {
      ReplayValid(ix, ops, n - 1);
      OperateValid(Replay(ix, ops, n - 1), ops[n - 1]);
    }
  }

  /** A table that is not live at i stays so as long as nothing upserts it. */
  lemma {:induction false} StaysGone(ix: Index, ops: seq<IndexOp>, i: nat, n: nat, t: string)
    requires ValidIndex(ix) && i <= n <= |ops| && t !in LiveTables(Replay(ix, ops, i))
    requires forall k: nat :: i <= k < n ==> !PutsAt(ops, k, t)
    ensures t !in LiveTables(Replay(ix, ops, n))
  {
    if i < n {
      StaysGone(ix, ops, i, n - 1, t);
      ReplayValid(ix, ops, n - 1);
      OperateValid(Replay(ix, ops, n - 1), ops[n - 1]);
      assert !PutsAt(ops, n - 1, t);
    }
  }

  ghost predicate PutWithin(ops: seq<IndexOp>, i: nat, n: nat, t: string) {
    exists k: nat :: i <= k < n && PutsAt(ops, k, t)
  }

  /** A table that is not live at i is not picked at n unless it is upserted in between. */
  lemma NotPickedUnlessPut(ix: Index, ops: seq<IndexOp>, i: nat, n: nat, t: string)
    requires ValidIndex(ix) && i <= n && PicksAt(ix, ops, n, t) && t !in LiveTables(Replay(ix, ops, i))
    ensures PutWithin(ops, i, n, t)
  {
    if !PutWithin(ops, i, n, t) {
      StaysGone(ix, ops, i, n, t);
      ReplayValid(ix, ops, n);
      PickBestTables(Replay(ix, ops, n));
    }
  }

  lemma PickedIsGone(ix: Index, ops: seq<IndexOp>, i: nat, t: string)
    requires ValidIndex(ix) && PicksAt(ix, ops, i, t)
    ensures t !in LiveTables(Replay(ix, ops, i + 1))
  {
    ReplayValid(ix, ops, i);
    PickBestTables(Replay(ix, ops, i));
  }

  /** Between two picks of a table there is an upsert of it. */
  lemma PutBetweenPicks(ix: Index, ops: seq<IndexOp>, i: nat, j: nat, t: string)
    requires ValidIndex(ix) && i < j && PicksAt(ix, ops, i, t) && PicksAt(ix, ops, j, t)
    ensures PutWithin(ops, i + 1, j, t)
  {
    PickedIsGone(ix, ops, i, t);
    NotPickedUnlessPut(ix, ops, i + 1, j, t);
  }

  // ----- the exact pick -----

  /** pickBest takes out a live entry that is least by (priority, headSeq), if any is live. */
  ghost predicate PicksLeast(ix: Index) {
    PickBest(ix).1.Some? ==> Picked(ix).Some? && forall k :: k in Live(ix) ==> Before(Exact, Picked(ix).value, k)
  }

  ghost predicate StampsIn(h: seq<Key>, low: nat, high: nat) {
    forall k :: k in h ==> low <= k.stamp <= high
  }

  ghost predicate TicksIn(ops: seq<IndexOp>, low: nat, high: nat) {
    forall i :: 0 <= i < |ops| && ops[i].Put? ==> low <= ops[i].tick <= high
  }

  /**
    From an empty heap on, as long as all ticks lie in one fairness window, the heap is
    ordered by (priority, headSeq).
  */
  lemma {:induction false} StretchIsExact(ix: Index, ops: seq<IndexOp>, n: nat, low: nat, high: nat)
    requires ValidIndex(ix) && ix.heap == [] && n <= |ops|
    requires TicksIn(ops, low, high) && high < low + FAIRNESS_QUANTUM
    ensures StampsIn(Replay(ix, ops, n).heap, low, high) && Sound(Exact, Replay(ix, ops, n))
  {
    if n > 0 {
      StretchIsExact(ix, ops, n - 1, low, high);
      OperateExact(Replay(ix, ops, n - 1), ops[n - 1], low, high);
    }
  }

  lemma OperateExact(ix: Index, op: IndexOp, low: nat, high: nat)
    requires StampsIn(ix.heap, low, high) && Sound(Exact, ix)
    requires (op.Put? ==> low <= op.tick <= high) && high < low + FAIRNESS_QUANTUM
    ensures StampsIn(Operate(ix, op).heap, low, high) && Sound(Exact, Operate(ix, op))
  {
    match op
    case Put(t, pri, tick, headSeq) =>
      var k := Key(pri, tick, headSeq, t, Version(ix, t) + 1);
      PushContents(ix.heap, k);
      forall l | l in Push(ix.heap, k) ensures l == k || l in ix.heap {
        assert l in multiset(Push(ix.heap, k));
      }
      UpsertSound(Exact, ix, t, pri, tick, headSeq);
    case Pick => PickBestLeast(Exact, ix);
  }

  lemma SoundPicksLeast(ix: Index)
    requires Sound(Exact, ix)
    ensures PicksLeast(ix)
  {
    PickBestLeast(Exact, ix);
  }
}

/**
  A window is not enough.  Seven operations on an empty index, after which all stamps lie
  in one fairness window and the pick is not the least live entry: the comparator, not
  being transitive, had left the heap in another order while an older entry was in it.
*/
module WindowExample {
  import opened SchedulerTypes
  import opened GlobalIndexSpec

  const OPS: seq<IndexOp> :=
    [Put("a", 2, 20, 9), Put("b", 2, 60, 7), Put("c", 2, 100, 5), Put("d", 2, 100, 2), Put("z", 1, 100, 10), Pick,
     Put("e", 2, 120, 12), Pick]

  const A := Key(2, 20, 9, "a", 1)
  const B := Key(2, 60, 7, "b", 1)
  const C := Key(2, 100, 5, "c", 1)
  const D := Key(2, 100, 2, "d", 1)
  const E := Key(2, 120, 12, "e", 1)
  const Z := Key(1, 100, 10, "z", 1)

  lemma PushStays(h: seq<Key>, k: Key)
    requires h != [] ==> !KeyCmp(h[Parent(|h|)], k)
    ensures Push(h, k) == h + [k]
  {
  }

  lemma PushOnce(h: seq<Key>, k: Key)
    requires |h| > 0 && KeyCmp(h[Parent(|h|)], k)
    requires Parent(|h|) > 0 ==> !KeyCmp(h[Parent(Parent(|h|))], k)
    ensures Push(h, k) == Swapped(h + [k], Parent(|h|), |h|)
  {
    var p := Parent(|h|);
    var g := Swapped(h + [k], p, |h|);
    assert SiftUp(h + [k], |h|) == SiftUp(g, p) && g[p] == k;
    assert p > 0 ==> g[Parent(p)] == h[Parent(p)];
  }

  lemma PushTwice(h: seq<Key>, k: Key)
    requires |h| == 4 && KeyCmp(h[1], k) && KeyCmp(h[0], k)
    ensures Push(h, k) == [k, h[0], h[2], h[3], h[1]]
  {
    var g := Swapped(h + [k], 1, 4);
    assert Parent(4) == 1 && Parent(1) == 0;
    assert SiftUp(h + [k], 4) == SiftUp(g, 1) == SiftUp(Swapped(g, 0, 1), 0);
  }

  lemma HeapOfFive()
    ensures Push([], A) == [A] && Push([A], B) == [B, A] && Push([B, A], C) == [C, A, B]
    ensures Push([C, A, B], D) == [C, A, B, D] && Push([C, A, B, D], Z) == [Z, C, B, D, A]
  {
    PushStays([], A);
    assert Parent(1) == 0 && Parent(2) == 0 && Parent(3) == 1;
    PushOnce([A], B);
    PushOnce([B, A], C);
    PushStays([C, A, B], D);
    PushTwice([C, A, B, D], Z);
  }

  lemma PopZ()
    ensures Pop([Z, C, B, D, A]) == [A, C, B, D]
  {
    var h := [Z, C, B, D, A];
    assert h[..4][0 := h[4]] == [A, C, B, D];
    assert FirstChild([A, C, B, D], 0) == 1 && !KeyCmp(A, C);
  }

  lemma PopA()
    ensures Pop([A, C, B, D, E]) == [C, D, B, E]
  {
    var h := [A, C, B, D, E];
    assert h[..4][0 := h[4]] == [E, C, B, D];
    var g := Swapped([E, C, B, D], 0, 1);
    assert FirstChild([E, C, B, D], 0) == 1 && KeyCmp(E, C) && g == [C, E, B, D];
    assert FirstChild(g, 1) == 3 && KeyCmp(E, D) && Swapped(g, 1, 3) == [C, D, B, E];
    assert SiftDown([C, D, B, E], 3) == [C, D, B, E];
    assert SiftDown(g, 1) == SiftDown(Swapped(g, 1, 3), 3);
  }

  lemma OnePut(ix: Index, t: string, pri: nat, tick: nat, headSeq: nat, k: Key, h: seq<Key>)
    requires t !in ix.latestVersion && k == Key(pri, tick, headSeq, t, 1) && Push(ix.heap, k) == h
    ensures Operate(ix, Put(t, pri, tick, headSeq)) == Index(h, ix.latestVersion[t := 1])
  {
  }

  lemma OnePick(ix: Index)
    requires ix.heap != [] && IsLive(ix, ix.heap[0])
    ensures PickBest(ix) == (ix.(heap := Pop(ix.heap)), Some(ix.heap[0].tbl))
    ensures Picked(ix) == Some(ix.heap[0])
  {
  }

  function VersionsOf(tables: seq<string>): map<string, nat> {
    map t | t in tables :: 1
  }

  lemma OperateNext(ix: Index, ops: seq<IndexOp>, n: nat, before: Index, after: Index)
    requires n < |ops| && Replay(ix, ops, n) == before && Operate(before, ops[n]) == after
    ensures Replay(ix, ops, n + 1) == after
  {
  }

  lemma FirstThree() returns (ix: Index)
    ensures Replay(Index([], map[]), OPS, 3) == ix
    ensures ix == Index([C, A, B], VersionsOf(["a", "b", "c"]))
  {
    HeapOfFive();
    var i0 := Index([], map[]);
    var i1 := Index([A], VersionsOf(["a"]));
    var i2 := Index([B, A], VersionsOf(["a", "b"]));
    ix := Index([C, A, B], VersionsOf(["a", "b", "c"]));
    OnePut(i0, "a", 2, 20, 9, A, [A]);
    OperateNext(i0, OPS, 0, i0, i1);
    OnePut(i1, "b", 2, 60, 7, B, [B, A]);
    OperateNext(i0, OPS, 1, i1, i2);
    OnePut(i2, "c", 2, 100, 5, C, [C, A, B]);
    OperateNext(i0, OPS, 2, i2, ix);
  }

  lemma FirstFive() returns (ix: Index)
    ensures Replay(Index([], map[]), OPS, 5) == ix
    ensures ix.heap == [Z, C, B, D, A] && ix.latestVersion == VersionsOf(["a", "b", "c", "d", "z"])
  {
    HeapOfFive();
    var i0 := Index([], map[]);
    var i3 := FirstThree();
    var i4 := Index([C, A, B, D], VersionsOf(["a", "b", "c", "d"]));
    ix := Index([Z, C, B, D, A], VersionsOf(["a", "b", "c", "d", "z"]));
    OnePut(i3, "d", 2, 100, 2, D, [C, A, B, D]);
    OperateNext(i0, OPS, 3, i3, i4);
    OnePut(i4, "z", 1, 100, 10, Z, [Z, C, B, D, A]);
    OperateNext(i0, OPS, 4, i4, ix);
  }

  lemma FirstSeven() returns (ix: Index)
    ensures Replay(Index([], map[]), OPS, 7) == ix
    ensures ix.heap == [A, C, B, D, E] && ix.latestVersion == VersionsOf(["a", "b", "c", "d", "e", "z"])
  {
    var i0 := Index([], map[]);
    var i5 := FirstFive();
    PopZ();
    OnePick(i5);
    var i6 := i5.(heap := [A, C, B, D]);
    OperateNext(i0, OPS, 5, i5, i6);
    assert Parent(4) == 1;
    PushStays([A, C, B, D], E);
    OnePut(i6, "e", 2, 120, 12, E, [A, C, B, D, E]);
    ix := Index([A, C, B, D, E], i6.latestVersion["e" := 1]);
    OperateNext(i0, OPS, 6, i6, ix);
  }

  lemma PicksC(ix: Index)
    requires ix.heap == [C, D, B, E] && ix.latestVersion == VersionsOf(["a", "b", "c", "d", "e", "z"])
    ensures PickBest(ix).1 == Some("c") && D in Live(ix) && WithinWindow(ix.heap) && !PicksLeast(ix)
  {
    OnePick(ix);
    LiveD(ix);
  }

  lemma LiveD(ix: Index)
    requires ix.heap == [C, D, B, E] && ix.latestVersion == VersionsOf(["a", "b", "c", "d", "e", "z"])
    ensures D in Live(ix) && !Before(Exact, C, D)
  {
    assert ix.heap[1] == D && D in multiset(ix.heap) && Current(ix.latestVersion, D);
  }

  lemma PickNext(ix: Index, ops: seq<IndexOp>, n: nat)
    requires n < |ops| && ops[n] == Pick && ValidIndex(ix)
    ensures Replay(ix, ops, n + 1) == PickBest(Replay(ix, ops, n)).0 && ValidIndex(Replay(ix, ops, n + 1))
  {
    ReplayValid(ix, ops, n + 1);
  }

  lemma PicksA(ix: Index)
    requires ix.heap == [A, C, B, D, E] && ix.latestVersion == VersionsOf(["a", "b", "c", "d", "e", "z"])
    ensures PickBest(ix).0.heap == [C, D, B, E] && PickBest(ix).0.latestVersion == ix.latestVersion
  {
    PopA();
    OnePick(ix);
  }

  /** The heap is [c, d, b, e] with stamps from 60 to 120; the pick is c, head 5, while d, head 2, is live. */
  lemma WindowIsNotEnough()
    ensures var ix := Replay(Index([], map[]), OPS, 8);
            ix.heap == [C, D, B, E] && ValidIndex(ix) && WithinWindow(ix.heap) && !PicksLeast(ix)
  {
    var i7 := FirstSeven();
    PicksA(i7);
    PickNext(Index([], map[]), OPS, 7);
    PicksC(PickBest(i7).0);
  }
}

/** The index object itself: std::priority_queue as an array heap, updated in place. */
module GlobalIndexObject {
  import opened SchedulerTypes
  import opened GlobalIndexSpec

  class GlobalIndex {
    var heap: seq<Key>
    var latestVersion: map<string, nat>

    function State(): Index
      reads this
    {
      Index(heap, latestVersion)
    }

    constructor ()
      ensures State() == Index([], map[])
    {
      heap := [];
      latestVersion := map[];
    }

    method Upsert(tableQ: string, priorityLevel: nat, enqueueTick: nat, headSeq: nat)
      modifies this
      ensures State() == GlobalIndexSpec.Upsert(old(State()), tableQ, priorityLevel, enqueueTick, headSeq)
    {
      var ver := 1;
      if tableQ in latestVersion {
        ver := latestVersion[tableQ] + 1;
      }
      latestVersion := latestVersion[tableQ := ver];
      heap := heap + [Key(priorityLevel, enqueueTick, headSeq, tableQ, ver)];
      SiftUpLast();
    }

    /** Moves the last entry up while its parent has to come out after it. */
    method SiftUpLast()
      requires heap != []
      modifies this`heap
      ensures heap == SiftUp(old(heap), |old(heap)| - 1)
    {
      var i := |heap| - 1;
      while i > 0
        invariant 0 <= i < |heap|
        invariant SiftUp(heap, i) == SiftUp(old(heap), |old(heap)| - 1)
      {
        var p := (i - 1) / 2;
        if !KeyCmp(heap[p], heap[i]) {
          return;
        }
        heap := Swapped(heap, p, i);
        i := p;
      }
    }

    method PopTop()
      requires heap != []
      modifies this`heap
      ensures heap == Pop(old(heap))
    {
      var n := |heap| - 1;
      if n == 0 {
        heap := [];
        return;
      }
      heap := heap[..n][0 := heap[n]];
      ghost var start := heap;
      var i := 0;
      while 2 * i + 1 < |heap|
        invariant i < |heap|
        invariant SiftDown(heap, i) == SiftDown(start, 0)
        decreases |heap| - i
      {
        var c := FirstChild(heap, i);
        if !KeyCmp(heap[i], heap[c]) {
          return;
        }
        heap := Swapped(heap, i, c);
        i := c;
      }
    }

    method PickBest() returns (outTableQ: Option<string>)
      modifies this`heap
      ensures (State(), outTableQ) == GlobalIndexSpec.PickBest(old(State()))
    {
      while heap != []
        invariant GlobalIndexSpec.PickBest(State()) == GlobalIndexSpec.PickBest(old(State()))
        decreases |heap|
      {
        var top := heap[0];
        PopTop();
        if Current(latestVersion, top) {
          return Some(top.tbl);
        }
      }
      return None;
    }
  }
}
