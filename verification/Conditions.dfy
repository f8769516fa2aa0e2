/** The where-clause of a query: what it means, how it is prepared and evaluated. */
module ConditionSpec {
  import opened SchedulerTypes
  import opened TableSpec
  import N = NumberText

  datatype Comparison = Unset | Greater | Less | Equal | GreaterEqual | LessEqual

  /** A condition; fieldId, comp and valueParsed are filled in by initCondition. */
  datatype Condition = Condition(field: string, fieldId: nat, op: string, comp: Comparison,
                                 value: string, valueParsed: int32)

  datatype Error = TableNameNotFound | TableFieldNotFound | IllFormedCondition | BadOperands

  function OperatorOf(op: string): Comparison {
    if op == ">" then Greater
    else if op == "<" then Less
    else if op == "=" then Equal
    else if op == ">=" then GreaterEqual
    else if op == "<=" then LessEqual
    else Unset
  }

  predicate Compare(comp: Comparison, x: int32, y: int32) {
    match comp
    case Unset => false
    case Greater => x > y
    case Less => x < y
    case Equal => x == y
    case GreaterEqual => x >= y
    case LessEqual => x <= y
  }

  // ----- what a condition says about a row -----

  /** None stands for the exception on a row without the field. */
  function Truth(c: Condition, fieldMap: map<string, nat>, r: Row): Option<bool> {
    if c.field == "KEY" then Some(r.key == c.value)
    else if c.field !in fieldMap || fieldMap[c.field] >= |r.datum| then None
    else Some(Compare(OperatorOf(c.op), r.datum[fieldMap[c.field]], Wrap32(N.Strtol(c.value))))
  }

  /** The row meets all conditions. */
  ghost predicate Satisfies(conds: seq<Condition>, fieldMap: map<string, nat>, r: Row) {
    forall c :: c in conds ==> Truth(c, fieldMap, r) == Some(true)
  }

  /** Evaluation from left to right runs into a missing field before any condition is false. */
  predicate Throws(conds: seq<Condition>, fieldMap: map<string, nat>, r: Row) {
    conds != [] && (Truth(conds[0], fieldMap, r) == None
                    || (Truth(conds[0], fieldMap, r) == Some(true) && Throws(conds[1..], fieldMap, r)))
  }

  // ----- preparing -----

  datatype Init = Failed(error: Error) | Ready(key: string, satisfiable: bool)

  function PrepareOne(c: Condition, fieldMap: map<string, nat>): Condition
    requires c.field in fieldMap
  {
    c.(fieldId := fieldMap[c.field], valueParsed := Wrap32(N.Strtol(c.value)), comp := OperatorOf(c.op))
  }

  function InitFrom(conds: seq<Condition>, fieldMap: map<string, nat>, key: string): Init {
    if conds == [] then Ready(key, true)
    else if conds[0].field == "KEY" then
      if conds[0].op != "=" then Failed(IllFormedCondition)
      else if key == "" then InitFrom(conds[1..], fieldMap, conds[0].value)
      else if key != conds[0].value then Ready(key, false)
      else InitFrom(conds[1..], fieldMap, key)
    else if conds[0].field !in fieldMap then Failed(TableFieldNotFound)
    else if OperatorOf(conds[0].op) == Unset then Failed(IllFormedCondition)
    else InitFrom(conds[1..], fieldMap, key)
  }

  /** The prepared form of a condition carries what Truth looks up. */
  ghost predicate Prepared(c: Condition, p: Condition, fieldMap: map<string, nat>) {
    if c.field == "KEY" then p == c && c.op == "=" else c.field in fieldMap && p == PrepareOne(c, fieldMap)
  }

  ghost predicate AllPrepared(conds: seq<Condition>, prepared: seq<Condition>, fieldMap: map<string, nat>) {
    |conds| == |prepared| && forall i :: 0 <= i < |conds| ==> Prepared(conds[i], prepared[i], fieldMap)
  }

  /** Preparing continues with the next condition unless the current one ends it. */
  lemma InitAt(conds: seq<Condition>, fieldMap: map<string, nat>, key: string, i: nat)
    requires i < |conds|
    ensures var c := conds[i];
            InitFrom(conds[i..], fieldMap, key) ==
              if c.field == "KEY" then
                if c.op != "=" then Failed(IllFormedCondition)
                else if key != "" && key != c.value then Ready(key, false)
                else InitFrom(conds[i + 1..], fieldMap, c.value)
              else if c.field !in fieldMap then Failed(TableFieldNotFound)
              else if OperatorOf(c.op) == Unset then Failed(IllFormedCondition)
              else InitFrom(conds[i + 1..], fieldMap, key)
  {
    assert conds[i..][1..] == conds[i + 1..];
  }

  // ----- what the key is good for -----

  /** If preparing reports that nothing can match, nothing matches. */
  lemma {:induction false} UnsatisfiableMatchesNothing(conds: seq<Condition>, fieldMap: map<string, nat>, key: string,
                                                       r: Row)
    requires InitFrom(conds, fieldMap, key).Ready? && !InitFrom(conds, fieldMap, key).satisfiable
    requires key != "" ==> r.key == key
    ensures !Satisfies(conds, fieldMap, r)
  {
    if Satisfies(conds, fieldMap, r) {
      var c := conds[0];
      assert Truth(c, fieldMap, r) == Some(true);
      var key' := if c.field == "KEY" && key == "" then c.value else key;
      assert InitFrom(conds, fieldMap, key) == InitFrom(conds[1..], fieldMap, key');
      UnsatisfiableMatchesNothing(conds[1..], fieldMap, key', r);
      assert Satisfies(conds[1..], fieldMap, r);
    }
  }

  /** If preparing reports a key, only the row with this key can match. */
  lemma {:induction false} KeyedMatchesOnlyKey(conds: seq<Condition>, fieldMap: map<string, nat>, key: string, r: Row)
    requires InitFrom(conds, fieldMap, key).Ready? && InitFrom(conds, fieldMap, key).satisfiable
    requires Satisfies(conds, fieldMap, r) && (key != "" ==> r.key == key)
    ensures InitFrom(conds, fieldMap, key).key != "" ==> r.key == InitFrom(conds, fieldMap, key).key
  {
    if conds != [] {
      var c := conds[0];
      assert Truth(c, fieldMap, r) == Some(true);
      var key' := if c.field == "KEY" && key == "" then c.value else key;
      assert InitFrom(conds, fieldMap, key) == InitFrom(conds[1..], fieldMap, key');
      KeyedMatchesOnlyKey(conds[1..], fieldMap, key', r);
    }
  }

  lemma {:induction false} SatisfiedDoesNotThrow(conds: seq<Condition>, fieldMap: map<string, nat>, r: Row)
    requires Satisfies(conds, fieldMap, r)
    ensures !Throws(conds, fieldMap, r)
  {
    if conds != [] {
      assert conds[0] in conds;
      SatisfiedDoesNotThrow(conds[1..], fieldMap, r);
    }
  }

  /** On rows of full width evaluation never runs into a missing field. */
  lemma {:induction false} FullRowsDoNotThrow(conds: seq<Condition>, prepared: seq<Condition>, fields: seq<string>,
                                              fieldMap: map<string, nat>, r: Row)
    requires AllPrepared(conds, prepared, fieldMap) && FieldsIndexed(fields, fieldMap) && |fields| <= |r.datum|
    ensures !Throws(conds, fieldMap, r)
  {
    if conds != [] {
      assert Prepared(conds[0], prepared[0], fieldMap);
      assert AllPrepared(conds[1..], prepared[1..], fieldMap) by {
        forall i | 0 <= i < |conds| - 1 ensures Prepared(conds[1..][i], prepared[1..][i], fieldMap) {
          assert Prepared(conds[i + 1], prepared[i + 1], fieldMap);
        }
      }
      FullRowsDoNotThrow(conds[1..], prepared[1..], fields, fieldMap, r);
    }
  }

  /** Evaluating from left to right yields true exactly on the rows that meet all conditions. */
  lemma {:induction false} SatisfiesSplit(conds: seq<Condition>, fieldMap: map<string, nat>, r: Row, i: nat)
    requires i < |conds|
    ensures Satisfies(conds[..i + 1], fieldMap, r) <==>
            Satisfies(conds[..i], fieldMap, r) && Truth(conds[i], fieldMap, r) == Some(true)
  {
    assert conds[..i + 1] == conds[..i] + [conds[i]];
  }

  lemma {:induction false} ThrowsAt(conds: seq<Condition>, fieldMap: map<string, nat>, r: Row, i: nat)
    requires i < |conds| && Satisfies(conds[..i], fieldMap, r) && Truth(conds[i], fieldMap, r) == None
    ensures Throws(conds, fieldMap, r)
  {
    if i > 0 {
      assert conds[0] in conds[..i];
      assert conds[1..][..i - 1] == conds[..i][1..];
      ThrowsAt(conds[1..], fieldMap, r, i - 1);
    }
  }

  lemma {:induction false} FalseDoesNotThrow(conds: seq<Condition>, fieldMap: map<string, nat>, r: Row, i: nat)
    requires i < |conds| && Satisfies(conds[..i], fieldMap, r) && Truth(conds[i], fieldMap, r) == Some(false)
    ensures !Throws(conds, fieldMap, r)
  {
    if i > 0 {
      assert conds[0] in conds[..i];
      assert conds[1..][..i - 1] == conds[..i][1..];
      FalseDoesNotThrow(conds[1..], fieldMap, r, i - 1);
    }
  }
}

module ComplexQueryObject {
  import opened SchedulerTypes
  import opened TableSpec
  import opened TableObject
  import opened ConditionSpec
  import N = NumberText

  datatype KeyTest = Failure(error: Error) | NotKeyed | Answer(found: Option<nat>)

  class ComplexQuery {
    var operands: seq<string>
    var condition: seq<Condition>

    constructor (operands: seq<string>, condition: seq<Condition>)
      ensures this.operands == operands && this.condition == condition
    {
      this.operands := operands;
      this.condition := condition;
    }

    method InitCondition(table: Table) returns (result: Init)
      requires table.Valid()
      modifies this`condition
      ensures result == InitFrom(old(condition), table.fieldMap, "")
      ensures result.Ready? && result.satisfiable ==> AllPrepared(old(condition), condition, table.fieldMap)
    {
      var key := "";
      ghost var conds := condition;
      assert conds[0..] == conds;
      var i := 0;
      while i < |condition|
        invariant i <= |condition| == |conds|
        invariant forall j :: i <= j < |condition| ==> condition[j] == conds[j]
        invariant forall j :: 0 <= j < i ==> Prepared(conds[j], condition[j], table.fieldMap)
        invariant InitFrom(conds[i..], table.fieldMap, key) == InitFrom(conds, table.fieldMap, "")
      {
        var cond := condition[i];
        InitAt(conds, table.fieldMap, key, i);
        if cond.field == "KEY" {
          if cond.op != "=" {
            return Failed(IllFormedCondition);
          }
          if key == "" {
            key := cond.value;
          } else if key != cond.value {
            return Ready(key, false);
          }
        } else {
          var id := table.GetFieldIndex(cond.field);
          if id == None {
            return Failed(TableFieldNotFound);
          }
          var oper := OperatorOf(cond.op);
          if oper == Unset {
            return Failed(IllFormedCondition);
          }
          condition := condition[i := cond.(fieldId := id.value,
                                   valueParsed := Wrap32(N.Strtol(cond.value)), comp := oper)];
        }
        i := i + 1;
      }
      return Ready(key, true);
    }

    /** None stands for the exception on a row without the field. */
    method EvalCondition(r: Row, ghost conds: seq<Condition>, ghost fieldMap: map<string, nat>)
      returns (ret: Option<bool>)
      requires AllPrepared(conds, condition, fieldMap)
      ensures ret == None <==> Throws(conds, fieldMap, r)
      ensures ret == Some(true) <==> Satisfies(conds, fieldMap, r)
    {
      var holds := true;
      var i := 0;
      while i < |condition|
        invariant i <= |condition|
        invariant holds <==> Satisfies(conds[..i], fieldMap, r)
        invariant !holds ==> !Satisfies(conds, fieldMap, r) && !Throws(conds, fieldMap, r)
      {
        var cond := condition[i];
        assert Prepared(conds[i], cond, fieldMap);
        SatisfiesSplit(conds, fieldMap, r, i);
        if holds {
          if cond.field != "KEY" {
            if cond.fieldId >= |r.datum| {
              ThrowsAt(conds, fieldMap, r, i);
              assert conds[i] in conds;
              return None;
            }
            holds := Compare(cond.comp, r.datum[cond.fieldId], cond.valueParsed);
          } else {
            holds := r.key == cond.value;
          }
          if !holds {
            FalseDoesNotThrow(conds, fieldMap, r, i);
            assert conds[i] in conds;
          }
        }
        i := i + 1;
      }
      assert conds[..i] == conds;
      if holds {
        SatisfiedDoesNotThrow(conds, fieldMap, r);
      }
      return Some(holds);
    }

    /**
      The keyed fast path.  When it gives an answer, the answer is what a scan of all
      rows would find; when evaluation throws there, so would the scan.
    */
    method TestKeyCondition(table: Table) returns (result: KeyTest)
      requires table.Valid()
      modifies this`condition
      ensures result.NotKeyed? ==> InitFrom(old(condition), table.fieldMap, "") == Ready("", true)
      ensures result.Answer? ==>
                forall i: nat {:trigger table.data[i]} :: i < |table.data| ==>
                  (result.found == Some(i) <==> Satisfies(old(condition), table.fieldMap, table.data[i]))
      ensures result.Failure? ==>
                || InitFrom(old(condition), table.fieldMap, "") == Failed(result.error)
                || (exists r :: r in table.data && Throws(old(condition), table.fieldMap, r))
    {
      var conds, fieldMap := condition, table.fieldMap;
      var init := InitCondition(table);
      if init.Failed? {
        return Failure(init.error);
      }
      if !init.satisfiable {
        forall i: nat | i < |table.data| ensures !Satisfies(conds, fieldMap, table.data[i]) {
          UnsatisfiableMatchesNothing(conds, fieldMap, "", table.data[i]);
        }
        return Answer(None);
      }
      if init.key == "" {
        return NotKeyed;
      }
      forall i: nat | i < |table.data| && Satisfies(conds, fieldMap, table.data[i])
        ensures table.data[i].key == init.key && table.keyMap[init.key] == i
      {
        KeyedMatchesOnlyKey(conds, fieldMap, "", table.data[i]);
      }
      var at := table.Find(init.key);
      if at == None {
        return Answer(None);
      }
      assert table.data[at.value].key == init.key;
      var holds := EvalCondition(table.data[at.value], conds, fieldMap);
      if holds == None {
        assert table.data[at.value] in table.data;
        return Failure(TableFieldNotFound);
      }
      return Answer(if holds.value then at else None);
    }
  }
}
