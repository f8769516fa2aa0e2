/** ADD and SUB on rows, SUM on columns: 64-bit accumulation, 32-bit results. */
module Arithmetic {
  import opened SchedulerTypes
  import opened TableSpec
  import opened TableObject
  import opened ConditionSpec
  import opened ComplexQueryObject
  import opened RowQueries

  const MAX_OPERANDS := 0x1_0000_0000

  predicate HasFields(datum: seq<int32>, ids: seq<nat>) {
    forall i :: 0 <= i < |ids| ==> ids[i] < |datum|
  }

  /** The true sum of the named columns of a row. */
  function TrueSum(datum: seq<int32>, ids: seq<nat>): int
    requires HasFields(datum, ids)
  {
    if ids == [] then 0 else TrueSum(datum, ids[..|ids| - 1]) + datum[ids[|ids| - 1]]
  }

  lemma {:induction false} SumFitsAccumulator(datum: seq<int32>, ids: seq<nat>)
    requires HasFields(datum, ids)
    ensures -0x8000_0000 * |ids| <= TrueSum(datum, ids) <= 0x7FFF_FFFF * |ids|
  {
    if ids != [] {
      SumFitsAccumulator(datum, ids[..|ids| - 1]);
    }
  }

  datatype Operation = Addition | Subtraction

  /** What the operation stores: source columns ids[..|ids| - 1], destination column last. */
  function TrueResult(op: Operation, datum: seq<int32>, src: seq<nat>): int
    requires src != [] && HasFields(datum, src)
  {
    match op
    case Addition => TrueSum(datum, src)
    case Subtraction => datum[src[0]] - TrueSum(datum, src[1..])
  }

  predicate Computable(r: Row, src: seq<nat>, dst: nat) {
    HasFields(r.datum, src) && dst < |r.datum|
  }

  function Computed(op: Operation, r: Row, src: seq<nat>, dst: nat): Row
    requires src != [] && Computable(r, src, dst)
  {
    r.(datum := r.datum[dst := Wrap32(TrueResult(op, r.datum, src))])
  }

  /** One row before and after. */
  ghost predicate RowUpdated(op: Operation, conds: seq<Condition>, fm: map<string, nat>, src: seq<nat>, dst: nat,
                             r: Row, r': Row)
    requires src != []
  {
    if Satisfies(conds, fm, r) then Computable(r, src, dst) && r' == Computed(op, r, src, dst) else r' == r
  }

  /** The statement throws at this row. */
  ghost predicate RowFails(conds: seq<Condition>, fm: map<string, nat>, src: seq<nat>, dst: nat, r: Row) {
    Throws(conds, fm, r) || (Satisfies(conds, fm, r) && !Computable(r, src, dst))
  }

  /** The first n rows are updated, the others are as before. */
  ghost predicate UpdatedUpTo(op: Operation, conds: seq<Condition>, fm: map<string, nat>, src: seq<nat>, dst: nat,
                              data: seq<Row>, data': seq<Row>, n: nat)
    requires src != []
  {
    && |data'| == |data| && n <= |data|
    && (forall i :: 0 <= i < n ==>
          !RowFails(conds, fm, src, dst, data[i]) && RowUpdated(op, conds, fm, src, dst, data[i], data'[i]))
    && (forall i :: n <= i < |data| ==> data'[i] == data[i])
  }

  ghost function MatchCount(conds: seq<Condition>, fm: map<string, nat>, data: seq<Row>): nat {
    if data == [] then 0
    else MatchCount(conds, fm, data[..|data| - 1]) + if Satisfies(conds, fm, data[|data| - 1]) then 1 else 0
  }

  function FieldIds(fm: map<string, nat>, names: seq<string>): (ids: seq<nat>)
    requires forall f :: f in names ==> f in fm
    ensures |ids| == |names| && forall i :: 0 <= i < |ids| ==> ids[i] == fm[names[i]]
  {
    seq(|names|, i requires 0 <= i < |names| => fm[names[i]])
  }

  /** The accumulate fold: the accumulator is a 64-bit integer throughout. */
  method Accumulate(datum: seq<int32>, ids: seq<nat>) returns (total: Option<int64>)
    requires |ids| < MAX_OPERANDS
    ensures total.Some? <==> HasFields(datum, ids)
    ensures total.Some? ==> total.value == TrueSum(datum, ids)
  {
    var acc: int64 := 0;
    for i := 0 to |ids|
      invariant HasFields(datum, ids[..i]) && acc == TrueSum(datum, ids[..i])
    {
      if ids[i] >= |datum| {
        return None;
      }
      assert ids[..i + 1] == ids[..i] + [ids[i]];
      assert ids[..i + 1][..i] == ids[..i];
      SumFitsAccumulator(datum, ids[..i + 1]);
      acc := acc + datum[ids[i]];
    }
    assert ids[..|ids|] == ids;
    return Some(acc);
  }

  /** The new row, or None for the exception on a missing field. */
  method Compute(op: Operation, r: Row, src: seq<nat>, dst: nat) returns (result: Option<Row>)
    requires 0 < |src| < MAX_OPERANDS
    ensures result.Some? <==> Computable(r, src, dst)
    ensures result.Some? ==> result.value == Computed(op, r, src, dst)
  {
    var stored: int32 := 0;
    if op == Addition {
      var sum := Accumulate(r.datum, src);
      if sum == None { return None; }
      stored := Wrap32(sum.value);
    } else {
      if src[0] >= |r.datum| { return None; }
      var value: int64 := r.datum[src[0]];
      assert src == [src[0]] + src[1..];
      var subSum := Accumulate(r.datum, src[1..]);
      if subSum == None { return None; }
      SumFitsAccumulator(r.datum, src[1..]);
      value := value - subSum.value;
      stored := Wrap32(value);
    }
    if dst >= |r.datum| { return None; }
    return Some(r.(datum := r.datum[dst := stored]));
  }

  predicate OperandsKnown(fm: map<string, nat>, operands: seq<string>) {
    |operands| >= 2 && forall f :: f in operands ==> f in fm
  }

  function Sources(fm: map<string, nat>, operands: seq<string>): seq<nat>
    requires OperandsKnown(fm, operands)
  {
    FieldIds(fm, operands[..|operands| - 1])
  }

  function Destination(fm: map<string, nat>, operands: seq<string>): nat
    requires OperandsKnown(fm, operands)
  {
    fm[operands[|operands| - 1]]
  }

  method ResolveFields(table: Table, names: seq<string>) returns (ids: Option<seq<nat>>)
    ensures ids.Some? <==> forall f :: f in names ==> f in table.fieldMap
    ensures ids.Some? ==> ids.value == FieldIds(table.fieldMap, names)
  {
    var found: seq<nat> := [];
    for i := 0 to |names|
      invariant forall f :: f in names[..i] ==> f in table.fieldMap
      invariant |found| == i
      invariant forall j :: 0 <= j < i ==> names[j] in table.fieldMap && found[j] == table.fieldMap[names[j]]
    {
      var id := table.GetFieldIndex(names[i]);
      if id == None {
        return None;
      }
      found := found + [id.value];
    }
    return Some(found);
  }

  /**
    ADD and SUB.  On success every matching row has its destination column set and
    all else is unchanged; an exception stops at the first row without a field, with
    the rows before it already updated.
  */
  method Execute(op: Operation, q: ComplexQuery, table: Table) returns (answer: Answer, ghost stop: nat)
    requires table.Valid() && |q.operands| <= MAX_OPERANDS
    modifies q`condition, table`data
    ensures table.Valid()
    ensures !OperandsKnown(table.fieldMap, q.operands) || InitFrom(old(q.condition), table.fieldMap, "").Failed? ==>
              answer.ErrorMessage? && table.data == old(table.data)
    ensures OperandsKnown(table.fieldMap, q.operands) && InitFrom(old(q.condition), table.fieldMap, "").Ready? ==>
              var conds, fm := old(q.condition), table.fieldMap;
              var src, dst := Sources(fm, q.operands), Destination(fm, q.operands);
              && OnlyColumnChanges(conds, fm, dst, old(table.data), table.data)
              && (answer.Affected? ==>
                    && UpdatedAll(op, conds, fm, src, dst, old(table.data), table.data)
                    && ResultsStored(op, conds, fm, src, dst, old(table.data), table.data, |table.data|)
                    && answer.count == MatchCount(conds, fm, old(table.data))
                    && (InitFrom(conds, fm, "").satisfiable ==>
                          forall r :: r in old(table.data) ==> !RowFails(conds, fm, src, dst, r)))
              && (!answer.Affected? ==>
                    && answer.ErrorMessage?
                    && StoppedAt(op, conds, fm, src, dst, old(table.data), table.data, stop)
                    && ResultsStored(op, conds, fm, src, dst, old(table.data), table.data, stop))
  {
    if |q.operands| < 2 {
      return ErrorMessage(BadOperands), 0;
    }
    var last := |q.operands| - 1;
    assert q.operands == q.operands[..last] + [q.operands[last]];
    var dstId := table.GetFieldIndex(q.operands[last]);
    if dstId == None {
      return ErrorMessage(TableFieldNotFound), 0;
    }
    var srcId := ResolveFields(table, q.operands[..last]);
    if srcId == None {
      return ErrorMessage(TableFieldNotFound), 0;
    }
    ghost var conds, fm := q.condition, table.fieldMap;
    var condInit := q.InitCondition(table);
    if condInit.Failed? {
      return ErrorMessage(condInit.error), 0;
    }
    if !condInit.satisfiable {
      NothingToUpdate(op, conds, fm, srcId.value, dstId.value, table.data);
      UpdatedMeans(op, conds, fm, srcId.value, dstId.value, table.data, table.data, |table.data|);
      return Affected(0), 0;
    }
    ghost var data := table.data;
    answer, stop := UpdateRows(op, q, table, srcId.value, dstId.value, conds);
    UpdatedMeans(op, conds, fm, srcId.value, dstId.value, data, table.data, if answer.Affected? then |data| else stop);
  }

  ghost predicate UpdatedAll(op: Operation, conds: seq<Condition>, fm: map<string, nat>, src: seq<nat>, dst: nat,
                             data: seq<Row>, data': seq<Row>)
    requires src != []
  {
    |data'| == |data| && forall i :: 0 <= i < |data| ==> RowUpdated(op, conds, fm, src, dst, data[i], data'[i])
  }

  ghost predicate StoppedAt(op: Operation, conds: seq<Condition>, fm: map<string, nat>, src: seq<nat>, dst: nat,
                            data: seq<Row>, data': seq<Row>, n: nat)
    requires src != []
  {
    n < |data| && RowFails(conds, fm, src, dst, data[n]) && UpdatedUpTo(op, conds, fm, src, dst, data, data', n)
  }

  lemma NothingToUpdate(op: Operation, conds: seq<Condition>, fm: map<string, nat>, src: seq<nat>, dst: nat,
                        data: seq<Row>)
    requires src != [] && InitFrom(conds, fm, "").Ready? && !InitFrom(conds, fm, "").satisfiable
    ensures UpdatedAll(op, conds, fm, src, dst, data, data) && MatchCount(conds, fm, data) == 0
  {
    forall r: Row ensures !Satisfies(conds, fm, r) {
      UnsatisfiableMatchesNothing(conds, fm, "", r);
    }
    NoneCounted(conds, fm, data);
  }

  lemma {:induction false} NoneCounted(conds: seq<Condition>, fm: map<string, nat>, data: seq<Row>)
    requires forall r: Row :: !Satisfies(conds, fm, r)
    ensures MatchCount(conds, fm, data) == 0
  {
    if data != [] {
      NoneCounted(conds, fm, data[..|data| - 1]);
    }
  }

  method UpdateRows(op: Operation, q: ComplexQuery, table: Table, src: seq<nat>, dst: nat, ghost conds: seq<Condition>)
    returns (answer: Answer, ghost stop: nat)
    requires table.Valid() && 0 < |src| < MAX_OPERANDS && AllPrepared(conds, q.condition, table.fieldMap)
    modifies table`data
    ensures table.Valid()
    ensures answer.Affected? ==>
              && UpdatedAll(op, conds, table.fieldMap, src, dst, old(table.data), table.data)
              && answer.count == MatchCount(conds, table.fieldMap, old(table.data))
              && (forall r :: r in old(table.data) ==> !RowFails(conds, table.fieldMap, src, dst, r))
    ensures !answer.Affected? ==>
              answer.ErrorMessage? && StoppedAt(op, conds, table.fieldMap, src, dst, old(table.data), table.data, stop)
  {
    ghost var fm, data := table.fieldMap, table.data;
    var counter := 0;
    for i := 0 to |table.data|
      invariant |table.data| == |data| && UpdatedUpTo(op, conds, fm, src, dst, data, table.data, i)
      invariant counter == MatchCount(conds, fm, data[..i])
    {
      var holds, updated := UpdateRow(op, q, table.data[i], src, dst, conds, fm);
      if updated == None {
        KeysKept(op, conds, fm, src, dst, data, table.data, i, table.keyMap);
        return ErrorMessage(TableFieldNotFound), i;
      }
      UpdatedStep(op, conds, fm, src, dst, data, table.data, i, updated.value);
      CountStep(conds, fm, data, i);
      table.data := table.data[i := updated.value];
      counter := counter + if holds then 1 else 0;
    }
    assert data[..|data|] == data;
    UpdatedDone(op, conds, fm, src, dst, data, table.data);
    KeysKept(op, conds, fm, src, dst, data, table.data, |data|, table.keyMap);
    return Affected(counter), 0;
  }

  lemma UpdatedStep(op: Operation, conds: seq<Condition>, fm: map<string, nat>, src: seq<nat>, dst: nat,
                    data: seq<Row>, data': seq<Row>, i: nat, r: Row)
    requires src != [] && i < |data| && UpdatedUpTo(op, conds, fm, src, dst, data, data', i)
    requires !RowFails(conds, fm, src, dst, data[i]) && RowUpdated(op, conds, fm, src, dst, data[i], r)
    ensures UpdatedUpTo(op, conds, fm, src, dst, data, data'[i := r], i + 1)
  {
  }

  lemma CountStep(conds: seq<Condition>, fm: map<string, nat>, data: seq<Row>, i: nat)
    requires i < |data|
    ensures MatchCount(conds, fm, data[..i + 1]) ==
            MatchCount(conds, fm, data[..i]) + if Satisfies(conds, fm, data[i]) then 1 else 0
  {
    assert data[..i + 1][..i] == data[..i];
  }

  lemma UpdatedDone(op: Operation, conds: seq<Condition>, fm: map<string, nat>, src: seq<nat>, dst: nat,
                    data: seq<Row>, data': seq<Row>)
    requires src != [] && UpdatedUpTo(op, conds, fm, src, dst, data, data', |data|)
    ensures UpdatedAll(op, conds, fm, src, dst, data, data')
    ensures forall r :: r in data ==> !RowFails(conds, fm, src, dst, r)
  {
  }

  /** The loop body: evaluate the where-clause, and on a match compute the new row. */
  method UpdateRow(op: Operation, q: ComplexQuery, r: Row, src: seq<nat>, dst: nat, ghost conds: seq<Condition>,
                   ghost fm: map<string, nat>)
    returns (holds: bool, updated: Option<Row>)
    requires 0 < |src| < MAX_OPERANDS && AllPrepared(conds, q.condition, fm)
    ensures updated == None <==> RowFails(conds, fm, src, dst, r)
    ensures updated.Some? ==> (holds <==> Satisfies(conds, fm, r))
    ensures updated.Some? ==> RowUpdated(op, conds, fm, src, dst, r, updated.value)
  {
    var verdict := q.EvalCondition(r, conds, fm);
    if verdict == None {
      return false, None;
    }
    holds := verdict.value;
    updated := Some(r);
    if holds {
      SatisfiedDoesNotThrow(conds, fm, r);
      updated := Compute(op, r, src, dst);
    }
  }

  lemma KeysKept(op: Operation, conds: seq<Condition>, fm: map<string, nat>, src: seq<nat>, dst: nat,
                 data: seq<Row>, data': seq<Row>, n: nat, keyMap: map<string, nat>)
    requires src != [] && UpdatedUpTo(op, conds, fm, src, dst, data, data', n) && Indexed(data, keyMap)
    ensures Indexed(data', keyMap)
  {
    assert forall i :: 0 <= i < |data| ==> data'[i].key == data[i].key;
  }

  // ----- what the results are -----

  /** Only the destination column of matching rows changes, even if it is also a source. */
  ghost predicate OnlyColumnChanges(conds: seq<Condition>, fm: map<string, nat>, dst: nat, data: seq<Row>,
                                    data': seq<Row>) {
    |data'| == |data| && forall i :: 0 <= i < |data| ==> RowKept(conds, fm, dst, data[i], data'[i])
  }

  ghost predicate RowKept(conds: seq<Condition>, fm: map<string, nat>, dst: nat, r: Row, r': Row) {
    && r'.key == r.key && |r'.datum| == |r.datum|
    && forall c :: 0 <= c < |r.datum| && (c != dst || !Satisfies(conds, fm, r)) ==> r'.datum[c] == r.datum[c]
  }

  /** A result in range is stored exactly, any other modulo 2^32. */
  ghost predicate Stored(op: Operation, src: seq<nat>, dst: nat, r: Row, r': Row)
    requires src != []
  {
    && Computable(r, src, dst) && dst < |r'.datum|
    && var exact := TrueResult(op, r.datum, src);
    && (r'.datum[dst] - exact) % 0x1_0000_0000 == 0
    && (-0x8000_0000 <= exact < 0x8000_0000 ==> r'.datum[dst] == exact)
  }

  /** So it is in the first n rows, where they match. */
  ghost predicate ResultsStored(op: Operation, conds: seq<Condition>, fm: map<string, nat>, src: seq<nat>, dst: nat,
                                data: seq<Row>, data': seq<Row>, n: nat)
    requires src != []
  {
    |data'| == |data| && n <= |data|
    && forall i :: 0 <= i < n && Satisfies(conds, fm, data[i]) ==> Stored(op, src, dst, data[i], data'[i])
  }

  lemma UpdatedMeans(op: Operation, conds: seq<Condition>, fm: map<string, nat>, src: seq<nat>, dst: nat,
                     data: seq<Row>, data': seq<Row>, n: nat)
    requires src != [] && |data'| == |data| && n <= |data|
    requires forall i :: 0 <= i < n ==> RowUpdated(op, conds, fm, src, dst, data[i], data'[i])
    requires forall i :: n <= i < |data| ==> data'[i] == data[i]
    ensures OnlyColumnChanges(conds, fm, dst, data, data') && ResultsStored(op, conds, fm, src, dst, data, data', n)
  {
    forall i | 0 <= i < n ensures RowKept(conds, fm, dst, data[i], data'[i]) {
      assert RowUpdated(op, conds, fm, src, dst, data[i], data'[i]);
    }
    forall i | 0 <= i < n && Satisfies(conds, fm, data[i]) ensures Stored(op, src, dst, data[i], data'[i]) {
      assert RowUpdated(op, conds, fm, src, dst, data[i], data'[i]);
    }
  }

  /** The where-clause does not look at column c. */
  predicate Ignores(conds: seq<Condition>, fm: map<string, nat>, c: nat) {
    forall x :: x in conds && x.field != "KEY" && x.field in fm ==> fm[x.field] != c
  }

  lemma IgnoredColumn(conds: seq<Condition>, fm: map<string, nat>, c: nat, r: Row, v: int32)
    requires Ignores(conds, fm, c) && c < |r.datum|
    ensures Satisfies(conds, fm, r.(datum := r.datum[c := v])) <==> Satisfies(conds, fm, r)
  {
    var r' := r.(datum := r.datum[c := v]);
    forall x | x in conds ensures Truth(x, fm, r') == Truth(x, fm, r) {
    }
  }

  lemma WrapCancels(a: int32, b: int32)
    ensures Wrap32(Wrap32(a + b) - b) == a
  {
  }

  /**
    ADD (a b c) followed by SUB (c b c) on the same rows leaves a in c, whatever
    overflowed in between, and changes nothing else.
  */
  lemma AddThenSub(conds: seq<Condition>, fm: map<string, nat>, a: nat, b: nat, c: nat,
                   data: seq<Row>, added: seq<Row>, restored: seq<Row>, i: nat)
    requires Ignores(conds, fm, c) && c != a && c != b
    requires UpdatedAll(Addition, conds, fm, [a, b], c, data, added)
    requires UpdatedAll(Subtraction, conds, fm, [c, b], c, added, restored)
    requires i < |data|
    ensures if Satisfies(conds, fm, data[i])
            then Computable(data[i], [a, b], c) && a < |data[i].datum|
                 && restored[i] == data[i].(datum := data[i].datum[c := data[i].datum[a]])
            else restored[i] == data[i]
  {
    var r, s, t := data[i], added[i], restored[i];
    assert RowUpdated(Addition, conds, fm, [a, b], c, r, s);
    assert RowUpdated(Subtraction, conds, fm, [c, b], c, s, t);
    if Satisfies(conds, fm, r) {
      assert [a, b][0] == a && [a, b][1] == b;
      var x: int, y: int := r.datum[a], r.datum[b];
      var sum := Wrap32(x + y);
      assert [a, b][..1] == [a] && [a][..0] == [];
      assert TrueSum(r.datum, [a, b]) == TrueSum(r.datum, [a]) + r.datum[b];
      assert TrueSum(r.datum, [a]) == r.datum[a];
      IgnoredColumn(conds, fm, c, r, sum);
      assert [c, b][1..] == [b] && [b][..0] == [];
      assert TrueSum(s.datum, [b]) == s.datum[b] == r.datum[b];
      WrapCancels(r.datum[a], r.datum[b]);
      assert t.datum == r.datum[c := r.datum[a]];
    }
  }
}
