/** SELECT and SUM, and why the storage order of a table cannot be observed through them. */
module Reports {
  import opened SchedulerTypes
  import opened TableSpec
  import opened TableObject
  import opened ConditionSpec
  import opened ComplexQueryObject
  import opened RowQueries
  import A = Arithmetic
  import N = NumberText

  const MAX_ROWS := 0x1_0000_0000

  // ----- the matching rows -----

  /** The rows that meet the where-clause, in storage order. */
  ghost function Matching(conds: seq<Condition>, fm: map<string, nat>, data: seq<Row>): seq<Row> {
    if data == [] then []
    else
      var before := Matching(conds, fm, data[..|data| - 1]);
      if Satisfies(conds, fm, data[|data| - 1]) then before + [data[|data| - 1]] else before
  }

  /** Reading row r throws. */
  ghost predicate RowFails(conds: seq<Condition>, fm: map<string, nat>, ids: seq<nat>, r: Row) {
    Throws(conds, fm, r) || (Satisfies(conds, fm, r) && !A.HasFields(r.datum, ids))
  }

  ghost predicate ScanFails(conds: seq<Condition>, fm: map<string, nat>, ids: seq<nat>, data: seq<Row>) {
    exists r :: r in data && RowFails(conds, fm, ids, r)
  }

  function ValueAt(r: Row, c: nat): int32 {
    if c < |r.datum| then r.datum[c] else 0
  }

  /** The first n values, each after a blank, as `show` prints them. */
  function ValuesText(show: int32 -> string, ids: seq<nat>, r: Row, n: nat): string
    requires n <= |ids|
  {
    if n == 0 then "" else ValuesText(show, ids, r, n - 1) + " " + show(ValueAt(r, ids[n - 1]))
  }

  /** operator<< of an int. */
  const SHOW: int32 -> string := (v: int32) => N.IntText(v)

  /** The line that SELECT prints for a row. */
  function Line(ids: seq<nat>, r: Row): string {
    "( " + r.key + ValuesText(SHOW, ids, r, |ids|) + " )\n"
  }

  function LineOf(ids: seq<nat>): Row -> string {
    r => Line(ids, r)
  }

  function ValueOf(c: nat): Row -> int32 {
    r => ValueAt(r, c)
  }

  // ----- ascending lexical order -----

  predicate LexLeq(a: string, b: string) {
    a == [] || (b != [] && (a[0] < b[0] || (a[0] == b[0] && LexLeq(a[1..], b[1..]))))
  }

  ghost predicate Ascending(lines: seq<string>) {
    forall i, j :: 0 <= i < j < |lines| ==> LexLeq(lines[i], lines[j])
  }

  lemma {:induction false} LexTotal(a: string, b: string)
    ensures LexLeq(a, b) || LexLeq(b, a)
  {
    if a != [] && b != [] && a[0] == b[0] {
      LexTotal(a[1..], b[1..]);
    }
  }

  lemma {:induction false} LexAntisymmetric(a: string, b: string)
    requires LexLeq(a, b) && LexLeq(b, a)
    ensures a == b
  {
    if a != [] {
      LexAntisymmetric(a[1..], b[1..]);
    }
  }

  lemma {:induction false} LexTransitive(a: string, b: string, c: string)
    requires LexLeq(a, b) && LexLeq(b, c)
    ensures LexLeq(a, c)
  {
    if a != [] && a[0] == b[0] == c[0] {
      LexTransitive(a[1..], b[1..], c[1..]);
    }
  }

  function InsertLine(line: string, sorted: seq<string>): seq<string> {
    if sorted == [] || LexLeq(line, sorted[0]) then [line] + sorted else [sorted[0]] + InsertLine(line, sorted[1..])
  }

  /** What std::ranges::sort leaves in the vector. */
  function SortLines(lines: seq<string>): seq<string> {
    if lines == [] then [] else InsertLine(lines[0], SortLines(lines[1..]))
  }

  lemma {:induction false} InsertLineSorts(line: string, sorted: seq<string>)
    requires Ascending(sorted)
    ensures Ascending(InsertLine(line, sorted))
    ensures multiset(InsertLine(line, sorted)) == multiset(sorted) + multiset{line}
  {
    if sorted == [] {
    } else if LexLeq(line, sorted[0]) {
      forall i | 0 <= i < |sorted| ensures LexLeq(line, sorted[i]) {
        if i > 0 { LexTransitive(line, sorted[0], sorted[i]); }
      }
    } else {
      var rest := InsertLine(line, sorted[1..]);
      InsertLineSorts(line, sorted[1..]);
      LexTotal(line, sorted[0]);
      assert sorted == [sorted[0]] + sorted[1..];
      forall i | 0 <= i < |rest| ensures LexLeq(sorted[0], rest[i]) {
        assert rest[i] in multiset(rest);
        if rest[i] != line {
          assert rest[i] in sorted[1..];
        }
      }
    }
  }

  lemma {:induction false} SortLinesSorts(lines: seq<string>)
    ensures Ascending(SortLines(lines)) && multiset(SortLines(lines)) == multiset(lines)
  {
    if lines != [] {
      SortLinesSorts(lines[1..]);
      InsertLineSorts(lines[0], SortLines(lines[1..]));
      assert lines == [lines[0]] + lines[1..];
    }
  }

  lemma SameLeast(a: seq<string>, b: seq<string>)
    requires a != [] && b != [] && Ascending(a) && Ascending(b) && a[0] in b && b[0] in a
    ensures a[0] == b[0]
  {
    var i :| 0 <= i < |b| && b[i] == a[0];
    var j :| 0 <= j < |a| && a[j] == b[0];
    if i > 0 && j > 0 {
      LexAntisymmetric(a[0], b[0]);
    }
  }

  lemma TailsAlike(a: seq<string>, b: seq<string>)
    requires a != [] && b != [] && a[0] == b[0] && multiset(a) == multiset(b)
    ensures multiset(a[1..]) == multiset(b[1..])
  {
    assert a == [a[0]] + a[1..] && b == [b[0]] + b[1..];
    assert multiset(a[1..]) == multiset(a) - multiset{a[0]};
    assert multiset(b[1..]) == multiset(b) - multiset{b[0]};
  }

  /** Sorted sequences of the same lines are equal. */
  lemma {:induction false} SortedUnique(a: seq<string>, b: seq<string>)
    requires Ascending(a) && Ascending(b) && multiset(a) == multiset(b)
    ensures a == b
  {
    assert |a| == |multiset(a)| == |multiset(b)| == |b|;
    if a != [] {
      assert a[0] in multiset(b) && b[0] in multiset(a);
      SameLeast(a, b);
      TailsAlike(a, b);
      SortedUnique(a[1..], b[1..]);
      assert a == [a[0]] + a[1..] && b == [b[0]] + b[1..];
    }
  }

  // ----- permutations -----

  ghost function Mapped<T>(f: Row -> T, rows: seq<Row>): seq<T> {
    if rows == [] then [] else Mapped(f, rows[..|rows| - 1]) + [f(rows[|rows| - 1])]
  }

  lemma {:induction false} MappedConcat<T>(f: Row -> T, a: seq<Row>, b: seq<Row>)
    ensures Mapped(f, a + b) == Mapped(f, a) + Mapped(f, b)
  {
    if b == [] {
      assert a + b == a;
    } else {
      var init, last := b[..|b| - 1], b[|b| - 1];
      assert (a + b)[..|a + b| - 1] == a + init;
      MappedConcat(f, a, init);
    }
  }

  /** In a permutation of a the last element of a stands somewhere among the others. */
  lemma Extract<T>(a: seq<T>, b: seq<T>) returns (front: seq<T>, back: seq<T>)
    requires a != [] && multiset(a) == multiset(b)
    ensures b == front + [a[|a| - 1]] + back && multiset(front + back) == multiset(a[..|a| - 1])
  {
    var init, x := a[..|a| - 1], a[|a| - 1];
    assert a == init + [x];
    assert x in multiset(b);
    var j :| 0 <= j < |b| && b[j] == x;
    front, back := b[..j], b[j + 1..];
    assert b == front + [x] + back;
    assert multiset(front + back) == multiset(b) - multiset{x} == multiset(init);
  }

  /** Mapping a permutation gives a permutation. */
  lemma {:induction false} MappedPermutes<T>(f: Row -> T, a: seq<Row>, b: seq<Row>)
    requires multiset(a) == multiset(b)
    ensures multiset(Mapped(f, a)) == multiset(Mapped(f, b))
  {
    assert |a| == |multiset(a)| == |multiset(b)| == |b|;
    if a != [] {
      var init, x := a[..|a| - 1], a[|a| - 1];
      var front, back := Extract(a, b);
      MappedPermutes(f, init, front + back);
      MappedConcat(f, front + [x], back);
      MappedStep(f, front, x);
      MappedConcat(f, front, back);
    }
  }

  function SumOf(values: seq<int32>): int {
    if values == [] then 0 else SumOf(values[..|values| - 1]) + values[|values| - 1]
  }

  lemma {:induction false} SumConcat(a: seq<int32>, b: seq<int32>)
    ensures SumOf(a + b) == SumOf(a) + SumOf(b)
  {
    if b == [] {
      assert a + b == a;
    } else {
      assert (a + b)[..|a + b| - 1] == a + b[..|b| - 1];
      SumConcat(a, b[..|b| - 1]);
    }
  }

  lemma {:induction false} SumPermutes(a: seq<int32>, b: seq<int32>)
    requires multiset(a) == multiset(b)
    ensures SumOf(a) == SumOf(b)
  {
    assert |a| == |multiset(a)| == |multiset(b)| == |b|;
    if a != [] {
      var init, x := a[..|a| - 1], a[|a| - 1];
      var front, back := Extract(a, b);
      SumPermutes(init, front + back);
      SumConcat(front + [x], back);
      assert (front + [x])[..|front|] == front;
      SumConcat(front, back);
    }
  }

  /** Which rows match does not depend on where they are stored. */
  lemma {:induction false} MatchingCounts(conds: seq<Condition>, fm: map<string, nat>, data: seq<Row>, r: Row)
    ensures multiset(Matching(conds, fm, data))[r] == if Satisfies(conds, fm, r) then multiset(data)[r] else 0
  {
    if data != [] {
      MatchingCounts(conds, fm, data[..|data| - 1], r);
      assert data == data[..|data| - 1] + [data[|data| - 1]];
    }
  }

  lemma MatchingPermutes(conds: seq<Condition>, fm: map<string, nat>, a: seq<Row>, b: seq<Row>)
    requires multiset(a) == multiset(b)
    ensures multiset(Matching(conds, fm, a)) == multiset(Matching(conds, fm, b))
  {
    forall r ensures multiset(Matching(conds, fm, a))[r] == multiset(Matching(conds, fm, b))[r] {
      MatchingCounts(conds, fm, a, r);
      MatchingCounts(conds, fm, b, r);
    }
  }

  lemma ScanFailsPermutes(conds: seq<Condition>, fm: map<string, nat>, ids: seq<nat>, a: seq<Row>, b: seq<Row>)
    requires multiset(a) == multiset(b)
    ensures ScanFails(conds, fm, ids, a) == ScanFails(conds, fm, ids, b)
  {
    forall r ensures r in a <==> r in b {
      assert r in multiset(a) <==> r in multiset(b);
    }
  }

  // ----- the answers -----

  function Concat(lines: seq<string>): string {
    if lines == [] then "" else Concat(lines[..|lines| - 1]) + lines[|lines| - 1]
  }

  ghost function LinesOf(conds: seq<Condition>, fm: map<string, nat>, ids: seq<nat>, data: seq<Row>): seq<string> {
    Mapped(LineOf(ids), Matching(conds, fm, data))
  }

  ghost function SelectText(conds: seq<Condition>, fm: map<string, nat>, ids: seq<nat>, data: seq<Row>): Answer {
    if ScanFails(conds, fm, ids, data) then ErrorMessage(TableFieldNotFound)
    else
      var text := Concat(SortLines(LinesOf(conds, fm, ids, data)));
      if text == "" then Nothing else Message(text[..|text| - 1])
  }

  /** The answer of SELECT on a table with these fields and rows. */
  ghost function SelectAnswer(operands: seq<string>, conds: seq<Condition>, fm: map<string, nat>,
                              data: seq<Row>): Answer {
    if operands == [] || operands[0] != "KEY" then ErrorMessage(BadOperands)
    else
      match InitFrom(conds, fm, "")
      case Failed(error) => ErrorMessage(error)
      case Ready(_, satisfiable) =>
        if !satisfiable then Message("")
        else if exists f :: f in operands[1..] && f !in fm then ErrorMessage(TableFieldNotFound)
        else SelectText(conds, fm, A.FieldIds(fm, operands[1..]), data)
  }

  ghost function ColumnSum(conds: seq<Condition>, fm: map<string, nat>, data: seq<Row>, c: nat): int {
    SumOf(Mapped(ValueOf(c), Matching(conds, fm, data)))
  }

  /** The answer of SUM: the true column sums of the matching rows, reduced to 32 bits. */
  ghost function SumAnswer(operands: seq<string>, conds: seq<Condition>, fm: map<string, nat>, data: seq<Row>): Answer {
    if operands == [] || "KEY" in operands then ErrorMessage(BadOperands)
    else if exists f :: f in operands && f !in fm then ErrorMessage(TableFieldNotFound)
    else
      var ids := A.FieldIds(fm, operands);
      match InitFrom(conds, fm, "")
      case Failed(error) => ErrorMessage(error)
      case Ready(_, satisfiable) =>
        if satisfiable && ScanFails(conds, fm, ids, data) then ErrorMessage(TableFieldNotFound)
        else Sums(seq(|ids|, j requires 0 <= j < |ids| => Wrap32(ColumnSum(conds, fm, data, ids[j]))))
  }

  lemma ColumnSumPermutes(conds: seq<Condition>, fm: map<string, nat>, a: seq<Row>, b: seq<Row>, c: nat)
    requires multiset(a) == multiset(b)
    ensures ColumnSum(conds, fm, a, c) == ColumnSum(conds, fm, b, c)
  {
    MatchingPermutes(conds, fm, a, b);
    var f := ValueOf(c);
    MappedPermutes(f, Matching(conds, fm, a), Matching(conds, fm, b));
    SumPermutes(Mapped(f, Matching(conds, fm, a)), Mapped(f, Matching(conds, fm, b)));
  }

  lemma SelectTextPermutes(conds: seq<Condition>, fm: map<string, nat>, ids: seq<nat>, a: seq<Row>, b: seq<Row>)
    requires multiset(a) == multiset(b)
    ensures SelectText(conds, fm, ids, a) == SelectText(conds, fm, ids, b)
  {
    MatchingPermutes(conds, fm, a, b);
    ScanFailsPermutes(conds, fm, ids, a, b);
    var f := LineOf(ids);
    var la, lb := Mapped(f, Matching(conds, fm, a)), Mapped(f, Matching(conds, fm, b));
    MappedPermutes(f, Matching(conds, fm, a), Matching(conds, fm, b));
    SortLinesSorts(la);
    SortLinesSorts(lb);
    SortedUnique(SortLines(la), SortLines(lb));
  }

  /**
    Two tables with the same fields that stand for the same map answer every SELECT
    and every SUM alike, however their rows are stored.
  */
  lemma StorageOrderUnobservable(operands: seq<string>, conds: seq<Condition>, fm: map<string, nat>,
                                 a: seq<Row>, ka: map<string, nat>, b: seq<Row>, kb: map<string, nat>)
    requires Indexed(a, ka) && Indexed(b, kb) && RowMap(a, ka) == RowMap(b, kb)
    ensures SelectAnswer(operands, conds, fm, a) == SelectAnswer(operands, conds, fm, b)
    ensures SumAnswer(operands, conds, fm, a) == SumAnswer(operands, conds, fm, b)
  {
    SameMapSameRows(a, ka, b, kb);
    forall ids ensures SelectText(conds, fm, ids, a) == SelectText(conds, fm, ids, b) {
      SelectTextPermutes(conds, fm, ids, a, b);
    }
    forall ids ensures ScanFails(conds, fm, ids, a) == ScanFails(conds, fm, ids, b) {
      ScanFailsPermutes(conds, fm, ids, a, b);
    }
    forall c ensures ColumnSum(conds, fm, a, c) == ColumnSum(conds, fm, b, c) {
      ColumnSumPermutes(conds, fm, a, b, c);
    }
    SumAnswerOf(operands, conds, fm, a, b);
  }

  lemma SumAnswerOf(operands: seq<string>, conds: seq<Condition>, fm: map<string, nat>, a: seq<Row>, b: seq<Row>)
    requires forall ids :: ScanFails(conds, fm, ids, a) == ScanFails(conds, fm, ids, b)
    requires forall c :: ColumnSum(conds, fm, a, c) == ColumnSum(conds, fm, b, c)
    ensures SumAnswer(operands, conds, fm, a) == SumAnswer(operands, conds, fm, b)
  {
    var x, y := SumAnswer(operands, conds, fm, a), SumAnswer(operands, conds, fm, b);
    if x.Sums? && y.Sums? {
      assert x.values == y.values;
    }
  }

  // ----- the queries -----

  lemma MatchingStep(conds: seq<Condition>, fm: map<string, nat>, data: seq<Row>, i: nat)
    requires i < |data|
    ensures var before := Matching(conds, fm, data[..i]);
            Matching(conds, fm, data[..i + 1]) == if Satisfies(conds, fm, data[i]) then before + [data[i]] else before
  {
    assert data[..i + 1][..i] == data[..i];
  }

  lemma MappedStep<T>(f: Row -> T, rows: seq<Row>, r: Row)
    ensures Mapped(f, rows + [r]) == Mapped(f, rows) + [f(r)]
  {
    assert (rows + [r])[..|rows|] == rows;
  }

  method Select(q: ComplexQuery, table: Table) returns (answer: Answer)
    requires table.Valid()
    modifies q`condition
    ensures answer == SelectAnswer(q.operands, old(q.condition), table.fieldMap, table.data)
  {
    if |q.operands| < 1 || q.operands[0] != "KEY" {
      return ErrorMessage(BadOperands);
    }
    ghost var conds := q.condition;
    var result := q.InitCondition(table);
    if result.Failed? {
      return ErrorMessage(result.error);
    }
    if !result.satisfiable {
      return Message("");
    }
    var ids := A.ResolveFields(table, q.operands[1..]);
    if ids == None {
      return ErrorMessage(TableFieldNotFound);
    }
    var lines := CollectLines(q, table, ids.value, conds);
    if lines == None {
      return ErrorMessage(TableFieldNotFound);
    }
    var msg := Joined(SortLines(lines.value));
    return if msg == "" then Nothing else Message(msg[..|msg| - 1]);
  }

  method Joined(lines: seq<string>) returns (msg: string)
    ensures msg == Concat(lines)
  {
    msg := "";
    for i := 0 to |lines|
      invariant msg == Concat(lines[..i])
    {
      assert lines[..i + 1][..i] == lines[..i];
      msg := msg + lines[i];
    }
    assert lines[..|lines|] == lines;
  }

  lemma LinesStep(conds: seq<Condition>, fm: map<string, nat>, ids: seq<nat>, data: seq<Row>, i: nat)
    requires i < |data|
    ensures var before := LinesOf(conds, fm, ids, data[..i]);
            LinesOf(conds, fm, ids, data[..i + 1]) ==
              if Satisfies(conds, fm, data[i]) then before + [Line(ids, data[i])] else before
  {
    MatchingStep(conds, fm, data, i);
    MappedStep(LineOf(ids), Matching(conds, fm, data[..i]), data[i]);
  }

  method CollectLines(q: ComplexQuery, table: Table, ids: seq<nat>, ghost conds: seq<Condition>)
    returns (lines: Option<seq<string>>)
    requires AllPrepared(conds, q.condition, table.fieldMap)
    ensures lines == None <==> ScanFails(conds, table.fieldMap, ids, table.data)
    ensures lines.Some? ==> lines.value == LinesOf(conds, table.fieldMap, ids, table.data)
  {
    ghost var fm := table.fieldMap;
    var data := table.data;
    lines := Some([]);
    for i := 0 to |data|
      invariant lines.Some? && !ScanFails(conds, fm, ids, data[..i])
      invariant lines.value == LinesOf(conds, fm, ids, data[..i])
    {
      lines := CollectRow(q, data, i, ids, conds, fm, lines.value);
      if lines == None {
        return;
      }
    }
    assert data[..|data|] == data;
  }

  /** The loop body: adds the line of row i if it matches. */
  method CollectRow(q: ComplexQuery, data: seq<Row>, i: nat, ids: seq<nat>,
                    ghost conds: seq<Condition>, ghost fm: map<string, nat>, collected: seq<string>)
    returns (lines: Option<seq<string>>)
    requires AllPrepared(conds, q.condition, fm) && i < |data| && !ScanFails(conds, fm, ids, data[..i])
    requires collected == LinesOf(conds, fm, ids, data[..i])
    ensures lines == None ==> ScanFails(conds, fm, ids, data)
    ensures lines.Some? ==> !ScanFails(conds, fm, ids, data[..i + 1])
    ensures lines.Some? ==> lines.value == LinesOf(conds, fm, ids, data[..i + 1])
  {
    LinesStep(conds, fm, ids, data, i);
    ScanFailsStep(conds, fm, ids, data, i);
    var fails, line := LineIfMatching(q, data[i], ids, conds, fm);
    lines := if fails then None else if line.Some? then Some(collected + [line.value]) else Some(collected);
  }

  lemma ScanFailsStep(conds: seq<Condition>, fm: map<string, nat>, ids: seq<nat>, data: seq<Row>, i: nat)
    requires i < |data|
    ensures ScanFails(conds, fm, ids, data[..i + 1]) <==>
            ScanFails(conds, fm, ids, data[..i]) || RowFails(conds, fm, ids, data[i])
    ensures RowFails(conds, fm, ids, data[i]) ==> ScanFails(conds, fm, ids, data)
  {
    assert data[..i + 1] == data[..i] + [data[i]];
    assert data[i] in data;
  }

  method LineIfMatching(q: ComplexQuery, row: Row, ids: seq<nat>, ghost conds: seq<Condition>,
                        ghost fm: map<string, nat>)
    returns (fails: bool, line: Option<string>)
    requires AllPrepared(conds, q.condition, fm)
    ensures fails <==> RowFails(conds, fm, ids, row)
    ensures !fails ==> line == if Satisfies(conds, fm, row) then Some(Line(ids, row)) else None
  {
    var holds := q.EvalCondition(row, conds, fm);
    if holds == None {
      return true, None;
    }
    if !holds.value {
      return false, None;
    }
    SatisfiedDoesNotThrow(conds, fm, row);
    line := RenderLine(row, ids);
    fails := line == None;
  }

  method RenderLine(row: Row, ids: seq<nat>) returns (line: Option<string>)
    ensures line.Some? <==> A.HasFields(row.datum, ids)
    ensures line.Some? ==> line.value == Line(ids, row)
  {
    var text := RenderValues(row, ids, SHOW);
    if text == None {
      return None;
    }
    return Some("( " + row.key + text.value + " )\n");
  }

  method RenderValues(row: Row, ids: seq<nat>, show: int32 -> string) returns (text: Option<string>)
    ensures text.Some? <==> A.HasFields(row.datum, ids)
    ensures text.Some? ==> text.value == ValuesText(show, ids, row, |ids|)
  {
    var line := "";
    for i := 0 to |ids|
      invariant (forall j :: 0 <= j < i ==> ids[j] < |row.datum|) && line == ValuesText(show, ids, row, i)
    {
      if ids[i] >= |row.datum| {
        return None;
      }
      line := line + " " + show(row.datum[ids[i]]);
    }
    return Some(line);
  }

  lemma {:induction false} ColumnFits(values: seq<int32>)
    ensures -0x8000_0000 * |values| <= SumOf(values) <= 0x7FFF_FFFF * |values|
  {
    if values != [] {
      ColumnFits(values[..|values| - 1]);
    }
  }

  lemma {:induction false} MatchingFewer(conds: seq<Condition>, fm: map<string, nat>, data: seq<Row>, c: nat)
    ensures |Mapped(ValueOf(c), Matching(conds, fm, data))| <= |data|
  {
    if data != [] {
      MatchingFewer(conds, fm, data[..|data| - 1], c);
      MappedStep(ValueOf(c), Matching(conds, fm, data[..|data| - 1]), data[|data| - 1]);
    }
  }

  lemma ColumnSumStep(conds: seq<Condition>, fm: map<string, nat>, data: seq<Row>, i: nat, c: nat)
    requires i < |data|
    ensures ColumnSum(conds, fm, data[..i + 1], c) ==
            ColumnSum(conds, fm, data[..i], c) + if Satisfies(conds, fm, data[i]) then ValueAt(data[i], c) else 0
    ensures -0x8000_0000 * i <= ColumnSum(conds, fm, data[..i], c) <= 0x7FFF_FFFF * i
  {
    MatchingStep(conds, fm, data, i);
    MappedStep(ValueOf(c), Matching(conds, fm, data[..i]), data[i]);
    MatchingFewer(conds, fm, data[..i], c);
    var values := Mapped(ValueOf(c), Matching(conds, fm, data[..i]));
    ColumnFits(values);
    assert (values + [ValueAt(data[i], c)])[..|values|] == values;
  }

  /** SUM; below 2^32 rows the 64-bit accumulators cannot overflow. */
  method Sum(q: ComplexQuery, table: Table) returns (answer: Answer)
    requires table.Valid() && |table.data| < MAX_ROWS
    modifies q`condition
    ensures answer == SumAnswer(q.operands, old(q.condition), table.fieldMap, table.data)
  {
    if q.operands == [] || "KEY" in q.operands {
      return ErrorMessage(BadOperands);
    }
    var ids := A.ResolveFields(table, q.operands);
    if ids == None {
      return ErrorMessage(TableFieldNotFound);
    }
    ghost var conds, fm := q.condition, table.fieldMap;
    var result := q.InitCondition(table);
    if result.Failed? {
      return ErrorMessage(result.error);
    }
    var sums := seq(|ids.value|, j => 0);
    if result.satisfiable {
      var scanned := SumRows(q, table, ids.value, conds);
      if scanned == None {
        return ErrorMessage(TableFieldNotFound);
      }
      sums := scanned.value;
    } else {
      forall c ensures ColumnSum(conds, fm, table.data, c) == 0 {
        forall r: Row ensures !Satisfies(conds, fm, r) {
          UnsatisfiableMatchesNothing(conds, fm, "", r);
        }
        NothingMatches(conds, fm, table.data);
      }
    }
    return Sums(seq(|sums|, j requires 0 <= j < |sums| => Wrap32(sums[j])));
  }

  lemma {:induction false} NothingMatches(conds: seq<Condition>, fm: map<string, nat>, data: seq<Row>)
    requires forall r: Row :: !Satisfies(conds, fm, r)
    ensures Matching(conds, fm, data) == []
  {
    if data != [] {
      NothingMatches(conds, fm, data[..|data| - 1]);
    }
  }

  method SumRows(q: ComplexQuery, table: Table, ids: seq<nat>, ghost conds: seq<Condition>)
    returns (result: Option<seq<int64>>)
    requires AllPrepared(conds, q.condition, table.fieldMap) && |table.data| < MAX_ROWS
    ensures result == None <==> ScanFails(conds, table.fieldMap, ids, table.data)
    ensures result.Some? ==> |result.value| == |ids|
    ensures result.Some? ==> forall j :: 0 <= j < |ids| ==>
              result.value[j] == ColumnSum(conds, table.fieldMap, table.data, ids[j])
  {
    ghost var fm := table.fieldMap;
    var data := table.data;
    result := Some(seq(|ids|, j => 0));
    for i := 0 to |data|
      invariant result.Some? && !ScanFails(conds, fm, ids, data[..i])
      invariant SumsUpTo(conds, fm, ids, data, i, result.value)
    {
      result := SumRow(q, data, i, ids, conds, fm, result.value);
      if result == None {
        return;
      }
    }
    assert data[..|data|] == data;
  }

  /** The accumulators hold the sums over the first i rows. */
  ghost predicate SumsUpTo(conds: seq<Condition>, fm: map<string, nat>, ids: seq<nat>, data: seq<Row>, i: nat,
                           sums: seq<int64>)
    requires i <= |data|
  {
    |sums| == |ids| && forall j :: 0 <= j < |ids| ==> sums[j] == ColumnSum(conds, fm, data[..i], ids[j])
  }

  /** The loop body: adds row i if it matches. */
  method SumRow(q: ComplexQuery, data: seq<Row>, i: nat, ids: seq<nat>,
                ghost conds: seq<Condition>, ghost fm: map<string, nat>, sums: seq<int64>)
    returns (result: Option<seq<int64>>)
    requires AllPrepared(conds, q.condition, fm) && i < |data| < MAX_ROWS && !ScanFails(conds, fm, ids, data[..i])
    requires SumsUpTo(conds, fm, ids, data, i, sums)
    ensures result == None ==> ScanFails(conds, fm, ids, data)
    ensures result.Some? ==> !ScanFails(conds, fm, ids, data[..i + 1])
    ensures result.Some? ==> SumsUpTo(conds, fm, ids, data, i + 1, result.value)
  {
    ScanFailsStep(conds, fm, ids, data, i);
    forall j | 0 <= j < |ids|
      ensures -0x8000_0000 * i <= sums[j] <= 0x7FFF_FFFF * i
      ensures ColumnSum(conds, fm, data[..i + 1], ids[j]) ==
              sums[j] + if Satisfies(conds, fm, data[i]) then ValueAt(data[i], ids[j]) else 0
    {
      ColumnSumStep(conds, fm, data, i, ids[j]);
    }
    var holds := q.EvalCondition(data[i], conds, fm);
    if holds == None {
      return None;
    }
    if holds.value {
      SatisfiedDoesNotThrow(conds, fm, data[i]);
      result := AddRow(sums, data[i], ids, i);
    } else {
      result := Some(sums);
    }
  }

  /** The pairwise transform: each column's value is added to its accumulator. */
  method AddRow(sums: seq<int64>, row: Row, ids: seq<nat>, ghost n: nat) returns (result: Option<seq<int64>>)
    requires |sums| == |ids| && n < MAX_ROWS - 1
    requires forall j :: 0 <= j < |sums| ==> -0x8000_0000 * n <= sums[j] <= 0x7FFF_FFFF * n
    ensures result.Some? <==> A.HasFields(row.datum, ids)
    ensures result.Some? ==> |result.value| == |ids|
    ensures result.Some? ==> forall j :: 0 <= j < |ids| ==> result.value[j] == sums[j] + ValueAt(row, ids[j])
  {
    var out: seq<int64> := sums;
    for j := 0 to |ids|
      invariant |out| == |sums| && A.HasFields(row.datum, ids[..j])
      invariant forall k :: 0 <= k < |ids| ==> out[k] == if k < j then sums[k] + ValueAt(row, ids[k]) else sums[k]
    {
      if ids[j] >= |row.datum| {
        return None;
      }
      out := out[j := out[j] + row.datum[ids[j]]];
    }
    return Some(out);
  }
}
