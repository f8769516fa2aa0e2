/** The loops that print a table to a stream and read one from a stream. */
module TableStreams {
  import opened SchedulerTypes
  import opened TableSpec
  import opened TableObject
  import opened DumpLoad
  import opened NumberText

  lemma PaddedStep(text: string, words: seq<string>, i: nat)
    requires i < |words|
    ensures text + Padded(words[i..]) == text + Pad(words[i]) + Padded(words[i + 1..])
  {
    assert words[i..][1..] == words[i + 1..];
  }

  method PrintPadded(start: string, words: seq<string>) returns (text: string)
    ensures text == start + Padded(words)
  {
    text := start;
    assert words[0..] == words;
    for i := 0 to |words|
      invariant text + Padded(words[i..]) == start + Padded(words)
    {
      PaddedStep(text, words, i);
      text := text + Pad(words[i]);
    }
    assert text + "" == text;
  }

  lemma RowsTextStep(text: string, rows: seq<Row>, i: nat, width: nat)
    requires i < |rows| && forall r :: r in rows ==> width <= |r.datum|
    ensures text + RowsText(rows[i..], width) == text + RowLine(rows[i], width) + "\n" + RowsText(rows[i + 1..], width)
  {
    var line, more := RowLine(rows[i], width), RowsText(rows[i + 1..], width);
    RowsTextFrom(rows, i, width);
    Reassociate(text, line, more);
  }

  lemma RowsTextFrom(rows: seq<Row>, i: nat, width: nat)
    requires i < |rows| && forall r :: r in rows ==> width <= |r.datum|
    ensures RowsText(rows[i..], width) == RowLine(rows[i], width) + "\n" + RowsText(rows[i + 1..], width)
  {
    assert rows[i..][1..] == rows[i + 1..];
  }

  lemma Reassociate(text: string, line: string, more: string)
    ensures text + (line + "\n" + more) == text + line + "\n" + more
  {
  }

  /** operator<<; the printing loop reads every row up to the number of fields. */
  method Print(table: Table) returns (text: string)
    requires forall r :: r in table.data ==> |table.fields| <= |r.datum|
    ensures text == DumpText(table.tableName, table.fields, table.data)
  {
    var rows, width := table.data, |table.fields|;
    var header := table.tableName + "\t" + NatText(width + 1) + "\n";
    var body := PrintPadded(Pad("KEY"), table.fields);
    body := body + "\n";
    ghost var start := body;
    assert rows[0..] == rows;
    for i := 0 to |rows|
      invariant body + RowsText(rows[i..], width) == start + RowsText(rows, width)
    {
      RowsTextStep(body, rows, i, width);
      var line := PrintPadded(Pad(rows[i].key), Texts(rows[i].datum[..width]));
      assert body + (line + "\n") == body + line + "\n";
      body := body + (line + "\n");
    }
    assert body + "" == body;
    text := header + body;
  }

  function Append<T>(front: seq<T>, rest: Option<seq<T>>): Option<seq<T>> {
    if rest == None then None else Some(front + rest.value)
  }

  lemma AppendStep<T>(front: seq<T>, x: T, rest: Option<seq<T>>)
    ensures Append(front, Append([x], rest)) == Append(front + [x], rest)
  {
    if rest.Some? {
      assert front + ([x] + rest.value) == front + [x] + rest.value;
    }
  }

  /** Reading n more things starts with reading one. */
  lemma ReadFrom<T>(read: string -> Option<(T, string)>, front: seq<T>, stream: string, n: nat)
    requires n > 0
    ensures var first := read(stream);
            Append(front, ReadMany(read, stream, n)) ==
              if first == None then None else Append(front + [first.value.0], ReadMany(read, first.value.1, n - 1))
  {
    var first := read(stream);
    if first.Some? {
      AppendStep(front, first.value.0, ReadMany(read, first.value.1, n - 1));
    }
  }

  /** The loop over the field names, or over the values of a row. */
  method ReadEach<T>(read: string -> Option<(T, string)>, text: string, count: nat) returns (values: Option<seq<T>>)
    ensures values == ReadMany(read, text, count)
  {
    var tuple: seq<T> := [];
    var stream := text;
    ghost var all := ReadMany(read, text, count);
    assert all.Some? ==> [] + all.value == all.value;
    for i := 0 to count
      invariant all == Append(tuple, ReadMany(read, stream, count - i))
    {
      var value := read(stream);
      ReadFrom(read, tuple, stream, count - i);
      if value == None {
        return None;
      }
      tuple := tuple + [value.value.0];
      stream := value.value.1;
    }
    assert tuple + [] == tuple;
    return Some(tuple);
  }

  function AppendRows(front: seq<Row>, rest: RowsResult): RowsResult {
    match rest
    case RowsError(e) => RowsError(e)
    case Rows(rows) => Rows(front + rows)
  }

  lemma AppendRowsStep(front: seq<Row>, r: Row, rest: RowsResult)
    ensures AppendRows(front, AppendRows([r], rest)) == AppendRows(front + [r], rest)
  {
    if rest.Rows? {
      assert front + ([r] + rest.rows) == front + [r] + rest.rows;
    }
  }

  method ReadTableRow(line: string, width: nat) returns (row: Option<Row>)
    ensures row == ReadRow(line, width)
  {
    var key := ReadWord(line);
    if key == None {
      return None;
    }
    var tuple := ReadEach(INT, key.value.1, width);
    row := if tuple == None then None else Some(Row(key.value.0, tuple.value));
  }

  /** Where the loop over the lines stands: rows read so far, text still to come. */
  ghost function Reading(rows: seq<Row>, keys: set<string>, stream: string, width: nat): RowsResult {
    AppendRows(rows, ReadRows(stream, width, keys))
  }

  lemma ReadingStep(rows: seq<Row>, keys: set<string>, stream: string, width: nat)
    ensures var line := GetLine(stream);
            if line == None || line.value.0 == "" then Reading(rows, keys, stream, width) == Rows(rows)
            else
              var r := ReadRow(line.value.0, width);
              if r == None then Reading(rows, keys, stream, width) == RowsError(BadRow)
              else if r.value.key in keys then Reading(rows, keys, stream, width) == RowsError(ConflictingKey)
              else Reading(rows, keys, stream, width) ==
                    Reading(rows + [r.value], keys + {r.value.key}, line.value.1, width)
  {
    var line := GetLine(stream);
    if line == None || line.value.0 == "" {
      assert rows + [] == rows;
    } else {
      var r := ReadRow(line.value.0, width);
      ReadRowsCons(stream, line.value.0, line.value.1, width, keys);
      if r.Some? && r.value.key !in keys {
        AppendRowsStep(rows, r.value, ReadRows(line.value.1, width, keys + {r.value.key}));
      }
    }
  }

  /** Fills a new table line by line. */
  method ReadTableRows(table: Table, input: string, width: nat) returns (error: Option<LoadError>)
    requires table.Valid() && table.data == []
    modifies table`data, table`keyMap
    ensures table.Valid()
    ensures ReadRows(input, width, {}) == if error == None then Rows(table.data) else RowsError(error.value)
  {
    var stream := input;
    ghost var all := ReadRows(input, width, {});
    assert all.Rows? ==> [] + all.rows == all.rows;
    assert table.Rows().Keys == {};
    while true
      invariant table.Valid()
      invariant all == Reading(table.data, table.Rows().Keys, stream, width)
      decreases |stream|
    {
      ReadingStep(table.data, table.Rows().Keys, stream, width);
      var line := GetLine(stream);
      if line == None || line.value.0 == "" {
        return None;
      }
      var row := ReadTableRow(line.value.0, width);
      if row == None {
        return Some(BadRow);
      }
      ghost var keys := table.Rows().Keys;
      var inserted := table.InsertByIndex(row.value.key, row.value.datum);
      if !inserted {
        return Some(ConflictingKey);
      }
      assert table.Rows().Keys == keys + {row.value.key};
      stream := line.value.1;
    }
  }

  lemma LoadAfterHeader(input: string, tables: set<string>)
    requires GetLine(input).Some? && ReadWord(GetLine(input).value.0).Some?
    ensures var (line, rest) := GetLine(input).value;
            var (name, after) := ReadWord(line).value;
            var count := ReadSize(after);
            LoadText(input, tables) ==
              if count == None then Refused(BadMetadata)
              else if name in tables then Refused(NameTaken)
              else
                match GetLine(rest)
                case None => Refused(BadFields)
                case Some(second) =>
                  match ReadWords(second.0, count.value)
                  case None => Refused(BadFields)
                  case Some(fields) => LoadFields(name, fields, second.1)
  {
  }

  /** loadTableFromStream up to the registration of the table; null stands for an exception. */
  method LoadTableFromStream(input: string, tables: set<string>) returns (table: Table?, ghost result: Loading)
    ensures result == LoadText(input, tables)
    ensures table != null <==> result.Loaded?
    ensures table != null ==>
              fresh(table) && table.Valid()
              && table.tableName == result.name && table.fields == result.fields && table.data == result.rows
  {
    table := null;
    result := LoadText(input, tables);
    var first := GetLine(input);
    if first == None { return; }
    var name := ReadWord(first.value.0);
    if name == None { return; }
    LoadAfterHeader(input, tables);
    var fieldCount := ReadSize(name.value.1);
    if fieldCount == None || name.value.0 in tables { return; }
    var second := GetLine(first.value.1);
    if second == None { return; }
    var fields := ReadEach(WORD, second.value.0, fieldCount.value);
    if fields == None { return; }
    table := BuildTable(name.value.0, fields.value, second.value.1);
  }

  method BuildTable(name: string, fields: seq<string>, input: string) returns (table: Table?)
    ensures var result := LoadFields(name, fields, input);
            && (table != null <==> result.Loaded?)
            && (table != null ==>
                  fresh(table) && table.Valid()
                  && table.tableName == result.name && table.fields == result.fields && table.data == result.rows)
  {
    if fields == [] || fields[0] != "KEY" {
      return null;
    }
    LoadFieldsByRows(name, fields, input, ReadRows(input, |fields| - 1, {}));
    var loaded := Table.Create(name, fields[1..]);
    if loaded == null {
      return null;
    }
    var error := ReadTableRows(loaded, input, |fields| - 1);
    table := if error == None then loaded else null;
  }

  lemma LoadFieldsByRows(name: string, fields: seq<string>, input: string, rows: RowsResult)
    requires fields != [] && fields[0] == "KEY" && rows == ReadRows(input, |fields| - 1, {})
    ensures LoadFields(name, fields, input) ==
              if "KEY" in fields[1..] then Refused(MultipleKey)
              else if rows.RowsError? then Refused(rows.error)
              else Loaded(name, fields[1..], rows.rows)
  {
  }

  /** Tables that can be printed and read back. */
  ghost predicate Dumpable(table: Table)
    reads table
  {
    && IsWord(table.tableName) && AllWords(table.fields) && |table.fields| + 1 < SIZE_LIMIT
    && FullWidth(table.data, |table.fields|) && KeysAreWords(table.data)
    && AllShort(table.fields) && AllFit(table.data)
  }

  /** DUMP followed by LOAD under a free name makes an equal table: same fields, same rows in order, same index. */
  method DumpAndLoad(table: Table, tables: set<string>) returns (copy: Table)
    requires table.Valid() && Dumpable(table) && table.tableName !in tables
    ensures fresh(copy) && copy.Valid()
    ensures copy.tableName == table.tableName && copy.fields == table.fields && copy.data == table.data
    ensures copy.keyMap == table.keyMap && copy.fieldMap == table.fieldMap
  {
    var text := Print(table);
    IndexedDistinct(table.data, table.keyMap);
    DumpThenLoad(table.tableName, table.fields, table.data, tables);
    ghost var result;
    var loaded;
    loaded, result := LoadTableFromStream(text, tables);
    copy := loaded;
    IndexIsUnique(copy.data, copy.keyMap, table.keyMap);
    FieldIndexIsUnique(copy.fields, copy.fieldMap, table.fieldMap);
  }

  lemma IndexIsUnique(data: seq<Row>, a: map<string, nat>, b: map<string, nat>)
    requires Indexed(data, a) && Indexed(data, b)
    ensures a == b
  {
    forall k | k in a ensures k in b && a[k] == b[k] {
      assert data[a[k]].key == k;
    }
    forall k | k in b ensures k in a {
      assert data[b[k]].key == k;
    }
  }

  lemma FieldIndexIsUnique(fields: seq<string>, a: map<string, nat>, b: map<string, nat>)
    requires FieldsIndexed(fields, a) && FieldsIndexed(fields, b)
    ensures a == b
  {
    forall f | f in a ensures f in b && a[f] == b[f] {
      assert fields[a[f]] == f;
      assert fields[b[f]] == f;
    }
    forall f | f in b ensures f in a {
      assert fields[b[f]] == f;
    }
  }
}
