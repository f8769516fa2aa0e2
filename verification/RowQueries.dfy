/** DELETE and DUPLICATE: collect the matching keys first, then change the table. */
module RowQueries {
  import opened SchedulerTypes
  import opened TableSpec
  import opened TableObject
  import opened ConditionSpec
  import opened ComplexQueryObject

  datatype Answer =
    | Nothing
    | Affected(count: nat)
    | Message(text: string)
    | Sums(values: seq<int32>)
    | ErrorMessage(error: Error)

  type RowsByKey = map<string, seq<int32>>

  /** The query cannot be answered: its where-clause is ill-formed, or some row lacks a field of it. */
  ghost predicate WhereFails(conds: seq<Condition>, fieldMap: map<string, nat>, data: seq<Row>) {
    var init := InitFrom(conds, fieldMap, "");
    init.Failed? || (init.satisfiable && exists r :: r in data && Throws(conds, fieldMap, r))
  }

  ghost function NotMatching(rows: RowsByKey, conds: seq<Condition>, fieldMap: map<string, nat>): RowsByKey {
    map k | k in rows && !Satisfies(conds, fieldMap, Row(k, rows[k])) :: rows[k]
  }

  /** j is the name of the copy of row k, which matches and has no copy yet. */
  ghost predicate CopyOf(rows: RowsByKey, conds: seq<Condition>, fieldMap: map<string, nat>, k: string, j: string) {
    k in rows && Satisfies(conds, fieldMap, Row(k, rows[k])) && j == k + "_copy" && j !in rows
  }

  /** The rows after DUPLICATE: the old ones, and a copy of each matching row that had none. */
  ghost predicate Duplicated(rows: RowsByKey, conds: seq<Condition>, fieldMap: map<string, nat>, after: RowsByKey) {
    && (forall j :: j in after <==> j in rows || exists k :: CopyOf(rows, conds, fieldMap, k, j))
    && (forall j :: j in rows ==> after[j] == rows[j])
    && (forall k, j :: CopyOf(rows, conds, fieldMap, k, j) ==> after[j] == rows[k])
  }

  /** DELETE removes exactly the matching rows and reports how many there were. */
  method Delete(q: ComplexQuery, table: Table) returns (answer: Answer)
    requires table.Valid()
    modifies q`condition, table`data, table`keyMap
    ensures table.Valid()
    ensures answer.ErrorMessage? <==> WhereFails(old(q.condition), table.fieldMap, old(table.data))
    ensures answer.ErrorMessage? ==> table.data == old(table.data) && table.keyMap == old(table.keyMap)
    ensures !answer.ErrorMessage? ==>
              && table.Rows() == NotMatching(old(table.Rows()), old(q.condition), table.fieldMap)
              && answer.Affected? && answer.count + |table.Rows()| == |old(table.Rows())|
  {
    ghost var conds, fm, rows := q.condition, table.fieldMap, table.Rows();
    var result := q.InitCondition(table);
    if result.Failed? {
      return ErrorMessage(result.error);
    }
    if !result.satisfiable {
      forall k | k in rows ensures !Satisfies(conds, fm, Row(k, rows[k])) {
        UnsatisfiableMatchesNothing(conds, fm, "", Row(k, rows[k]));
      }
      assert NotMatching(rows, conds, fm) == rows;
      return Affected(0);
    }
    var delKeys := KeysToDelete(q, table, conds);
    if delKeys == None {
      return ErrorMessage(TableFieldNotFound);
    }
    var counter := DeleteKeys(table, delKeys.value);
    assert table.Rows() == NotMatching(rows, conds, fm);
    return Affected(counter);
  }

  /** Keys are collected first because rows move while others are deleted. */
  method KeysToDelete(q: ComplexQuery, table: Table, ghost conds: seq<Condition>) returns (delKeys: Option<seq<string>>)
    requires table.Valid() && AllPrepared(conds, q.condition, table.fieldMap)
    ensures delKeys == None <==> exists r :: r in table.data && Throws(conds, table.fieldMap, r)
    ensures delKeys.Some? ==> forall k :: k in table.Rows() ==>
                (k in delKeys.value <==> Satisfies(conds, table.fieldMap, Row(k, table.Rows()[k])))
  {
    var keys: seq<string> := [];
    ghost var fm := table.fieldMap;
    for i := 0 to |table.data|
      invariant forall j :: 0 <= j < i ==> !Throws(conds, fm, table.data[j])
      invariant forall j :: 0 <= j < i ==> (table.data[j].key in keys <==> Satisfies(conds, fm, table.data[j]))
      invariant forall k :: k in keys ==> k in table.keyMap && table.keyMap[k] < i
    {
      var holds := q.EvalCondition(table.data[i], conds, fm);
      if holds == None {
        assert table.data[i] in table.data;
        return None;
      }
      if holds.value {
        keys := keys + [table.data[i].key];
      }
    }
    forall k | k in table.Rows() ensures k in keys <==> Satisfies(conds, fm, Row(k, table.Rows()[k])) {
      assert table.data[table.keyMap[k]].key == k;
    }
    return Some(keys);
  }

  method DeleteKeys(table: Table, delKeys: seq<string>) returns (counter: nat)
    requires table.Valid()
    modifies table`data, table`keyMap
    ensures table.Valid()
    ensures RowsWithout(old(table.Rows()), delKeys, table.Rows())
    ensures counter + |table.Rows()| == |old(table.Rows())|
  {
    counter := 0;
    ghost var rows := table.Rows();
    for i := 0 to |delKeys|
      invariant table.Valid()
      invariant RowsWithout(rows, delKeys[..i], table.Rows())
      invariant counter + |table.Rows()| == |rows|
    {
      OneKeyLess(rows, delKeys, i, table.Rows());
      var deleted := DeleteOne(table, delKeys[i]);
      counter := counter + deleted;
    }
    assert delKeys[..|delKeys|] == delKeys;
  }

  /** What is left of the rows without the given keys. */
  ghost predicate RowsWithout(rows: RowsByKey, keys: seq<string>, left: RowsByKey) {
    && (forall k :: k in left <==> k in rows && k !in keys)
    && (forall k :: k in left ==> left[k] == rows[k])
  }

  lemma OneKeyLess(rows: RowsByKey, keys: seq<string>, i: nat, left: RowsByKey)
    requires i < |keys| && RowsWithout(rows, keys[..i], left)
    ensures RowsWithout(rows, keys[..i + 1], left - {keys[i]})
  {
    assert keys[..i + 1] == keys[..i] + [keys[i]];
  }

  method DeleteOne(table: Table, key: string) returns (deleted: nat)
    requires table.Valid()
    modifies table`data, table`keyMap
    ensures table.Valid() && table.Rows() == old(table.Rows()) - {key}
    ensures deleted + |table.Rows()| == |old(table.Rows())|
  {
    var found := table.DeleteByIndex(key);
    deleted := if found then 1 else 0;
    MapWithout(old(table.Rows()), key);
  }

  lemma MapWithout<V>(m: map<string, V>, key: string)
    ensures |m - {key}| + (if key in m then 1 else 0) == |m|
  {
    assert m.Keys == (m - {key}).Keys + (if key in m then {key} else {});
    assert |m.Keys| == |m| && |(m - {key}).Keys| == |m - {key}|;
  }

  /** The copies still to be made: of every matching row whose copy key is free. */
  ghost predicate ToDuplicate(rows: RowsByKey, conds: seq<Condition>, fieldMap: map<string, nat>,
                              pairs: seq<(string, string)>) {
    && (forall p :: p in pairs ==> CopyOf(rows, conds, fieldMap, p.0, p.1))
    && (forall k, j :: CopyOf(rows, conds, fieldMap, k, j) ==> (k, j) in pairs)
  }

  /** DUPLICATE copies each matching row under its key with "_copy" appended, unless that key is taken. */
  method Duplicate(q: ComplexQuery, table: Table) returns (answer: Answer)
    requires table.Valid()
    modifies q`condition, table`data, table`keyMap
    ensures table.Valid()
    ensures answer.ErrorMessage? <==>
            q.operands != [] || WhereFails(old(q.condition), table.fieldMap, old(table.data))
    ensures answer.ErrorMessage? ==> table.data == old(table.data) && table.keyMap == old(table.keyMap)
    ensures !answer.ErrorMessage? ==>
              && Duplicated(old(table.Rows()), old(q.condition), table.fieldMap, table.Rows())
              && answer.Affected? && |table.Rows()| == |old(table.Rows())| + answer.count
  {
    if q.operands != [] {
      return ErrorMessage(BadOperands);
    }
    ghost var conds, fm, rows := q.condition, table.fieldMap, table.Rows();
    var result := q.InitCondition(table);
    if result.Failed? {
      return ErrorMessage(result.error);
    }
    if !result.satisfiable {
      forall k, j ensures !CopyOf(rows, conds, fm, k, j) {
        if k in rows {
          UnsatisfiableMatchesNothing(conds, fm, "", Row(k, rows[k]));
        }
      }
      return Affected(0);
    }
    var toDuplicate := KeysToDuplicate(q, table, conds);
    if toDuplicate == None {
      return ErrorMessage(TableFieldNotFound);
    }
    var counter := MakeCopies(table, toDuplicate.value, conds, fm);
    return Affected(counter);
  }

  method KeysToDuplicate(q: ComplexQuery, table: Table, ghost conds: seq<Condition>)
    returns (result: Option<seq<(string, string)>>)
    requires table.Valid() && AllPrepared(conds, q.condition, table.fieldMap)
    ensures result == None <==> exists r :: r in table.data && Throws(conds, table.fieldMap, r)
    ensures result.Some? ==> ToDuplicate(table.Rows(), conds, table.fieldMap, result.value)
  {
    ghost var fm, rows := table.fieldMap, table.Rows();
    var pairs: seq<(string, string)> := [];
    for i := 0 to |table.data|
      invariant forall j :: 0 <= j < i ==> !Throws(conds, fm, table.data[j])
      invariant forall p :: p in pairs ==> CopyOf(rows, conds, fm, p.0, p.1)
      invariant forall j, c {:trigger CopyOf(rows, conds, fm, table.data[j].key, c)} ::
                  0 <= j < i && CopyOf(rows, conds, fm, table.data[j].key, c) ==> (table.data[j].key, c) in pairs
    {
      var row := table.data[i];
      assert row == Row(row.key, rows[row.key]);
      var holds := q.EvalCondition(row, conds, fm);
      if holds == None {
        assert row in table.data;
        return None;
      }
      if holds.value {
        var copyKey := row.key + "_copy";
        var at := table.Find(copyKey);
        if at == None {
          pairs := pairs + [(row.key, copyKey)];
        }
      }
    }
    forall k, j | CopyOf(rows, conds, fm, k, j) ensures (k, j) in pairs {
      assert table.data[table.keyMap[k]].key == k;
    }
    return Some(pairs);
  }

  method MakeCopies(table: Table, toDuplicate: seq<(string, string)>, ghost conds: seq<Condition>,
                    ghost fm: map<string, nat>)
    returns (counter: nat)
    requires table.Valid() && ToDuplicate(table.Rows(), conds, fm, toDuplicate)
    modifies table`data, table`keyMap
    ensures table.Valid() && Duplicated(old(table.Rows()), conds, fm, table.Rows())
    ensures |table.Rows()| == |old(table.Rows())| + counter
  {
    ghost var rows := table.Rows();
    counter := 0;
    for i := 0 to |toDuplicate|
      invariant table.Valid()
      invariant CopiesMade(rows, toDuplicate[..i], table.Rows())
      invariant |table.Rows()| == |rows| + counter
    {
      CopiesStep(rows, conds, fm, toDuplicate, i, table.Rows());
      var done := CopyOne(table, toDuplicate[i].0, toDuplicate[i].1);
      counter := counter + done;
    }
    CopiesComplete(rows, conds, fm, toDuplicate, table.Rows());
  }

  function WithCopy(rows: RowsByKey, src: string, dst: string): RowsByKey
    requires src in rows
  {
    if dst in rows then rows else rows[dst := rows[src]]
  }

  lemma CopiesStep(rows: RowsByKey, conds: seq<Condition>, fm: map<string, nat>, pairs: seq<(string, string)>, i: nat,
                   after: RowsByKey)
    requires ToDuplicate(rows, conds, fm, pairs) && i < |pairs| && CopiesMade(rows, pairs[..i], after)
    ensures pairs[i].0 in after && CopiesMade(rows, pairs[..i + 1], WithCopy(after, pairs[i].0, pairs[i].1))
  {
    var (src, dst) := pairs[i];
    assert pairs[i] in pairs && CopyOf(rows, conds, fm, src, dst);
    assert pairs[..i + 1] == pairs[..i] + [pairs[i]];
    if dst in after {
      var p :| p in pairs[..i] && p.1 == dst;
      assert CopyOf(rows, conds, fm, p.0, p.1);
      SameCopySameKey(p.0, src);
    }
    forall p | p in pairs[..i] ensures p in pairs && (p.1 == dst ==> p.0 == src) {
      assert CopyOf(rows, conds, fm, p.0, p.1);
      if p.1 == dst {
        SameCopySameKey(p.0, src);
      }
    }
  }

  lemma CopiesComplete(rows: RowsByKey, conds: seq<Condition>, fm: map<string, nat>, pairs: seq<(string, string)>,
                       after: RowsByKey)
    requires ToDuplicate(rows, conds, fm, pairs) && CopiesMade(rows, pairs[..|pairs|], after)
    ensures Duplicated(rows, conds, fm, after)
  {
    assert pairs[..|pairs|] == pairs;
    forall k, j | CopyOf(rows, conds, fm, k, j) ensures j in after && after[j] == rows[k] {
      assert (k, j) in pairs;
    }
    forall j | j in after && j !in rows ensures exists k :: CopyOf(rows, conds, fm, k, j) {
      var p :| p in pairs && p.1 == j;
      assert CopyOf(rows, conds, fm, p.0, j);
    }
  }

  /** The rows of `rows` and those copied so far. */
  ghost predicate CopiesMade(rows: RowsByKey, pairs: seq<(string, string)>, after: RowsByKey) {
    && (forall k :: k in rows ==> k in after && after[k] == rows[k])
    && (forall j :: j in after ==> j in rows || exists p :: p in pairs && p.1 == j)
    && (forall p :: p in pairs ==> p.0 in rows && p.1 in after && after[p.1] == rows[p.0])
  }

  method CopyOne(table: Table, src: string, dst: string) returns (done: nat)
    requires table.Valid() && src in table.Rows()
    modifies table`data, table`keyMap
    ensures table.Valid()
    ensures table.Rows() == WithCopy(old(table.Rows()), src, dst)
    ensures |table.Rows()| == |old(table.Rows())| + done
  {
    var duplicated := table.DuplicateByKey(src, dst);
    done := if duplicated then 1 else 0;
    MapWithout(table.Rows(), dst);
    MapWithout(old(table.Rows()), dst);
    assert duplicated ==> table.Rows() - {dst} == old(table.Rows());
  }

  lemma SameCopySameKey(k: string, l: string)
    requires k + "_copy" == l + "_copy"
    ensures k == l
  {
    assert k == (k + "_copy")[..|k + "_copy"| - 5];
    assert l == (l + "_copy")[..|l + "_copy"| - 5];
  }
}
