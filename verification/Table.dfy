/** Rows with a hash index over them, and the finite map that the two together stand for. */
module TableSpec {

  type int32 = x: int | -0x8000_0000 <= x < 0x8000_0000

  type int64 = x: int | -0x8000_0000_0000_0000 <= x < 0x8000_0000_0000_0000

  /** static_cast<int> of a wider integer. */
  function Wrap32(x: int): (r: int32)
    ensures (r - x) % 0x1_0000_0000 == 0
    ensures -0x8000_0000 <= x < 0x8000_0000 ==> r == x
  {
    (x + 0x8000_0000) % 0x1_0000_0000 - 0x8000_0000
  }

  datatype Row = Row(key: string, datum: seq<int32>)

  /** The index names the position of every row, and nothing else. */
  ghost predicate Indexed(data: seq<Row>, keyMap: map<string, nat>) {
    && (forall k {:trigger k in keyMap} :: k in keyMap ==> keyMap[k] < |data| && data[keyMap[k]].key == k)
    && (forall i {:trigger data[i]} :: 0 <= i < |data| ==> data[i].key in keyMap && keyMap[data[i].key] == i)
  }

  ghost function RowMap(data: seq<Row>, keyMap: map<string, nat>): map<string, seq<int32>>
    requires Indexed(data, keyMap)
  {
    map k | k in keyMap :: data[keyMap[k]].datum
  }

  ghost predicate DistinctKeys(data: seq<Row>) {
    forall i, j :: 0 <= i < j < |data| ==> data[i].key != data[j].key
  }

  /** Fields are found under their names; of two equal names the first one counts. */
  ghost predicate FieldsIndexed(fields: seq<string>, fieldMap: map<string, nat>) {
    && (forall f {:trigger f in fieldMap} :: f in fieldMap ==> fieldMap[f] < |fields| && fields[fieldMap[f]] == f)
    && (forall i {:trigger fields[i]} :: 0 <= i < |fields| ==> fields[i] in fieldMap && fieldMap[fields[i]] <= i)
    && "KEY" !in fields
  }

  ghost predicate FullWidth(data: seq<Row>, width: nat) {
    forall r :: r in data ==> |r.datum| == width
  }

  /** The rows after taking out row i: the last row takes its place. */
  function RemovedAt(data: seq<Row>, i: nat): seq<Row>
    requires i < |data|
  {
    var last := |data| - 1;
    if i == last then data[..last] else data[..last][i := data[last]]
  }

  /** There are as many rows as there are keys. */
  lemma RowCount(data: seq<Row>, keyMap: map<string, nat>)
    requires Indexed(data, keyMap)
    ensures |data| == |keyMap| == |RowMap(data, keyMap)|
  {
    ImageSize(data, keyMap, |data|);
    assert keyMap.Keys == set i | 0 <= i < |data| :: data[i].key;
    assert RowMap(data, keyMap).Keys == keyMap.Keys;
    assert |keyMap| == |keyMap.Keys| && |RowMap(data, keyMap)| == |RowMap(data, keyMap).Keys|;
  }

  lemma {:induction false} ImageSize(data: seq<Row>, keyMap: map<string, nat>, n: nat)
    requires Indexed(data, keyMap) && n <= |data|
    ensures |set i | 0 <= i < n :: data[i].key| == n
  {
    var keys := set i | 0 <= i < n :: data[i].key;
    if n > 0 {
      ImageSize(data, keyMap, n - 1);
      var fewer := set i | 0 <= i < n - 1 :: data[i].key;
      assert keys == fewer + {data[n - 1].key};
      assert data[n - 1].key !in fewer;
    } else {
      assert keys == {};
    }
  }

  lemma IndexedDistinct(data: seq<Row>, keyMap: map<string, nat>)
    requires Indexed(data, keyMap)
    ensures DistinctKeys(data)
  {
  }

  lemma {:induction false} DistinctOnce(data: seq<Row>, r: Row)
    requires DistinctKeys(data)
    ensures multiset(data)[r] == if r in data then 1 else 0
  {
    if data != [] {
      var init := data[..|data| - 1];
      assert data == init + [data[|data| - 1]];
      DistinctOnce(init, r);
    }
  }

  /** Two tables that stand for the same map hold the same rows, in some order. */
  lemma SameMapSameRows(a: seq<Row>, ka: map<string, nat>, b: seq<Row>, kb: map<string, nat>)
    requires Indexed(a, ka) && Indexed(b, kb) && RowMap(a, ka) == RowMap(b, kb)
    ensures multiset(a) == multiset(b)
  {
    forall r ensures multiset(a)[r] == multiset(b)[r] {
      InMap(a, ka, r);
      InMap(b, kb, r);
      IndexedDistinct(a, ka);
      IndexedDistinct(b, kb);
      DistinctOnce(a, r);
      DistinctOnce(b, r);
    }
  }

  lemma InMap(a: seq<Row>, ka: map<string, nat>, r: Row)
    requires Indexed(a, ka)
    ensures r in a <==> r.key in RowMap(a, ka) && RowMap(a, ka)[r.key] == r.datum
  {
    if r in a {
      var i :| 0 <= i < |a| && a[i] == r;
      assert ka[a[i].key] == i;
    }
    if r.key in ka && a[ka[r.key]].datum == r.datum {
      assert a[ka[r.key]] == r;
    }
  }

  /** The index after renaming row i: erase, then emplace, which does not overwrite. */
  function RenamedIndex(keyMap: map<string, nat>, was: string, key: string): map<string, nat>
    requires was in keyMap
  {
    var erased := keyMap - {was};
    if key in erased then erased else erased[key := keyMap[was]]
  }

  /** Renaming keeps the index right exactly when the new key is fresh or the row's own. */
  lemma RenameIndexed(data: seq<Row>, keyMap: map<string, nat>, i: nat, key: string)
    requires Indexed(data, keyMap) && i < |data| && data[i].key in keyMap
    ensures var was, renamed := data[i].key, data[i := Row(key, data[i].datum)];
            var index := RenamedIndex(keyMap, was, key);
            && (Indexed(renamed, index) <==> key !in keyMap || key == was)
            && (Indexed(renamed, index) ==>
                  RowMap(renamed, index) == (RowMap(data, keyMap) - {was})[key := data[i].datum])
  {
    var was, renamed := data[i].key, data[i := Row(key, data[i].datum)];
    var index := RenamedIndex(keyMap, was, key);
    if key !in keyMap || key == was {
      forall k | k in index ensures index[k] < |renamed| && renamed[index[k]].key == k {
        assert k == key || data[keyMap[k]].key == k;
      }
      forall j | 0 <= j < |renamed| ensures renamed[j].key in index && index[renamed[j].key] == j {
        assert data[j].key in keyMap && (j != i ==> data[j].key != was);
      }
    } else {
      assert data[keyMap[key]].key == key;
      assert renamed[i].key == key && index[key] != i;
    }
  }

  lemma DeleteIndexed(data: seq<Row>, keyMap: map<string, nat>, key: string)
    requires Indexed(data, keyMap) && key in keyMap
    ensures var i := keyMap[key];
            var last := |data| - 1;
            var moved := if i == last then keyMap else keyMap[data[last].key := i];
            && Indexed(RemovedAt(data, i), moved - {key})
            && RowMap(RemovedAt(data, i), moved - {key}) == RowMap(data, keyMap) - {key}
  {
    var i := keyMap[key];
    var last := |data| - 1;
    var moved := if i == last then keyMap else keyMap[data[last].key := i];
    var rest := RemovedAt(data, i);
    assert data[i].key == key && data[last].key in keyMap;
    forall k | k in moved - {key} ensures moved[k] < |rest| && rest[moved[k]] == data[keyMap[k]] {
    }
    forall j | 0 <= j < |rest| ensures rest[j].key in moved - {key} && moved[rest[j].key] == j {
      assert rest[j] == if j == i then data[last] else data[j];
    }
  }
}

module TableObject {
  import opened TableSpec
  import opened SchedulerTypes

  class Table {
    var fields: seq<string>
    var fieldMap: map<string, nat>
    var data: seq<Row>
    var keyMap: map<string, nat>
    var tableName: string

    ghost predicate Valid()
      reads this
    {
      Indexed(data, keyMap) && FieldsIndexed(fields, fieldMap)
    }

    /** The finite map that the table stands for. */
    ghost function Rows(): map<string, seq<int32>>
      reads this
      requires Valid()
    {
      RowMap(data, keyMap)
    }

    constructor Named(name: string)
      ensures Valid() && tableName == name && fields == [] && data == [] && Rows() == map[]
    {
      fields, fieldMap, data, keyMap, tableName := [], map[], [], map[], name;
    }

    constructor Copy(name: string, origin: Table)
      requires origin.Valid()
      ensures Valid() && tableName == name && fields == origin.fields && fieldMap == origin.fieldMap
      ensures data == origin.data && Rows() == origin.Rows()
    {
      fields, fieldMap, data, keyMap, tableName := origin.fields, origin.fieldMap, origin.data, origin.keyMap, name;
    }

    constructor WithFields(name: string, fields: seq<string>)
      requires "KEY" !in fields
      ensures Valid() && tableName == name && this.fields == fields && data == [] && Rows() == map[]
    {
      var names: map<string, nat> := map[];
      for i := 0 to |fields|
        invariant forall f {:trigger f in names} :: f in names ==> names[f] < i && fields[names[f]] == f
        invariant forall j {:trigger fields[j]} :: 0 <= j < i ==> fields[j] in names && names[fields[j]] <= j
      {
        if fields[i] !in names {
          names := names[fields[i] := i];
        }
      }
      this.fields, fieldMap, data, keyMap, tableName := fields, names, [], map[], name;
    }

    /** The constructor that throws on a field called KEY; null stands for the exception. */
    static method Create(name: string, fields: seq<string>) returns (t: Table?)
      ensures t == null <==> "KEY" in fields
      ensures t != null ==> fresh(t) && t.Valid() && t.tableName == name && t.fields == fields && t.data == []
    {
      if i :| 0 <= i < |fields| && fields[i] == "KEY" {
        return null;
      }
      t := new Table.WithFields(name, fields);
    }

    method GetFieldIndex(field: string) returns (index: Option<nat>)
      ensures index == if field in fieldMap then Some(fieldMap[field]) else None
    {
      index := if field in fieldMap then Some(fieldMap[field]) else None;
    }

    /** False stands for the ConflictingKey exception. */
    method InsertByIndex(key: string, datum: seq<int32>) returns (inserted: bool)
      requires Valid()
      modifies this`data, this`keyMap
      ensures Valid()
      ensures inserted <==> key !in old(Rows())
      ensures Rows() == if inserted then old(Rows())[key := datum] else old(Rows())
      ensures data == if inserted then old(data) + [Row(key, datum)] else old(data)
    {
      if key in keyMap {
        return false;
      }
      keyMap := keyMap[key := |data|];
      data := data + [Row(key, datum)];
      return true;
    }

    method DeleteByIndex(key: string) returns (deleted: bool)
      requires Valid()
      modifies this`data, this`keyMap
      ensures Valid()
      ensures deleted <==> key in old(Rows())
      ensures Rows() == old(Rows()) - {key}
    {
      if key !in keyMap {
        return false;
      }
      var del, last := keyMap[key], |data| - 1;
      DeleteIndexed(data, keyMap, key);
      if del != last {
        data := data[del := data[last]][last := data[del]];
        keyMap := keyMap[data[del].key := del];
      }
      data := data[..last];
      keyMap := keyMap - {key};
      assert data == RemovedAt(old(data), del);
      return true;
    }

    method DuplicateByKey(src: string, dst: string) returns (duplicated: bool)
      requires Valid()
      modifies this`data, this`keyMap
      ensures Valid()
      ensures duplicated <==> src in old(Rows()) && dst !in old(Rows())
      ensures Rows() == if duplicated then old(Rows())[dst := old(Rows())[src]] else old(Rows())
    {
      if dst in keyMap || src !in keyMap {
        return false;
      }
      var values := data[keyMap[src]].datum;
      duplicated := InsertByIndex(dst, values);
    }

    /** operator[]: the position of the row, if there is one. */
    method Find(key: string) returns (index: Option<nat>)
      requires Valid()
      ensures index.Some? <==> key in Rows()
      ensures index.Some? ==> index.value < |data| && data[index.value] == Row(key, Rows()[key])
    {
      if key !in keyMap {
        return None;
      }
      index := Some(keyMap[key]);
      assert data[index.value].key == key;
    }

    /**
      Renaming a row.  The table stays consistent exactly when the new key is fresh
      or the row's own; otherwise emplace leaves the other row's entry in place.
    */
    method SetKey(i: nat, key: string)
      requires Valid() && i < |data|
      modifies this`data, this`keyMap
      ensures data == old(data)[i := Row(key, old(data)[i].datum)]
      ensures Valid() <==> key !in old(Rows()) || key == old(data)[i].key
      ensures Valid() ==> Rows() == (old(Rows()) - {old(data)[i].key})[key := old(data)[i].datum]
    {
      var was := data[i].key;
      RenameIndexed(data, keyMap, i, key);
      var position := keyMap[was];
      keyMap := keyMap - {was};
      if key !in keyMap {
        keyMap := keyMap[key := position];
      }
      data := data[i := Row(key, data[i].datum)];
    }

    method Clear() returns (removed: nat)
      requires Valid()
      modifies this`data, this`keyMap
      ensures Valid() && Rows() == map[] && data == []
      ensures removed == |old(Rows())|
    {
      RowCount(data, keyMap);
      removed := |keyMap|;
      data := [];
      keyMap := map[];
    }
  }
}
