/** The text that DUMP writes, the text that LOAD reads, and when the one is the inverse of the other. */
module DumpLoad {
  import opened SchedulerTypes
  import opened TableSpec
  import opened NumberText

  const WIDTH := 10
  const SIZE_LIMIT := 0x1_0000_0000_0000_0000

  // ----- printing -----

  function Spaces(n: nat): (s: string)
    ensures |s| == n && forall i :: 0 <= i < n ==> s[i] == ' '
  {
    seq(n, _ => ' ')
  }

  /** std::setw: padded on the left, never cut. */
  function Pad(word: string): string {
    Spaces(if |word| < WIDTH then WIDTH - |word| else 0) + word
  }

  function Padded(words: seq<string>): string {
    if words == [] then "" else Pad(words[0]) + Padded(words[1..])
  }

  function Texts(values: seq<int32>): (r: seq<string>)
    ensures |r| == |values| && forall i :: 0 <= i < |r| ==> r[i] == IntText(values[i])
  {
    seq(|values|, i requires 0 <= i < |values| => IntText(values[i]))
  }

  function RowLine(r: Row, width: nat): string
    requires width <= |r.datum|
  {
    Pad(r.key) + Padded(Texts(r.datum[..width]))
  }

  function RowsText(rows: seq<Row>, width: nat): string
    requires forall r :: r in rows ==> width <= |r.datum|
  {
    if rows == [] then "" else RowLine(rows[0], width) + "\n" + RowsText(rows[1..], width)
  }

  function DumpText(name: string, fields: seq<string>, rows: seq<Row>): string
    requires forall r :: r in rows ==> |fields| <= |r.datum|
  {
    name + "\t" + NatText(|fields| + 1) + "\n" + (Pad("KEY") + Padded(fields) + "\n" + RowsText(rows, |fields|))
  }

  // ----- reading from streams -----

  function LineRun(s: string): (n: nat)
    ensures n <= |s|
  {
    if s == [] || s[0] == '\n' then 0 else 1 + LineRun(s[1..])
  }

  /** std::getline: the line and what is left after its newline. */
  function GetLine(s: string): (r: Option<(string, string)>)
    ensures r.Some? ==> |r.value.1| < |s|
  {
    if s == [] then None
    else
      var n := LineRun(s);
      Some((s[..n], if n < |s| then s[n + 1..] else ""))
  }

  function WordRun(s: string): (n: nat)
    ensures n <= |s|
  {
    if s == [] || IsSpace(s[0]) then 0 else 1 + WordRun(s[1..])
  }

  /** operator>> of a string. */
  function ReadWord(s: string): Option<(string, string)> {
    var t := SkipSpace(s);
    var n := WordRun(t);
    if n == 0 then None else Some((t[..n], t[n..]))
  }

  function ReadDigits(s: string): Option<(nat, string)> {
    var n := DigitRun(s);
    if n == 0 then None else Some((Value(s[..n]), s[n..]))
  }

  function WithSign(negative: bool, r: Option<(nat, string)>): Option<(int, string)> {
    if r == None then None
    else
      var magnitude: int := r.value.0;
      Some((if negative then -magnitude else magnitude, r.value.1))
  }

  /** The signed number at the front of the stream, of any size. */
  function ReadNumber(s: string): Option<(int, string)> {
    var t := SkipSpace(s);
    if HasSign(t) then WithSign(t[0] == '-', ReadDigits(t[1..])) else WithSign(false, ReadDigits(t))
  }

  /** operator>> of an int: fails when there is no number or it is out of range. */
  function ReadInt(s: string): Option<(int32, string)> {
    var r := ReadNumber(s);
    if r == None || r.value.0 < -0x8000_0000 || r.value.0 >= 0x8000_0000 then None
    else Some((r.value.0, r.value.1))
  }

  /** operator>> of a size_t: a negative number wraps around. */
  function ReadSize(s: string): Option<nat> {
    var r := ReadNumber(s);
    if r == None || r.value.0 <= -SIZE_LIMIT || r.value.0 >= SIZE_LIMIT then None
    else Some(if r.value.0 < 0 then r.value.0 + SIZE_LIMIT else r.value.0)
  }

  /** n things read one after the other, or None if one of them cannot be read. */
  function ReadMany<T>(read: string -> Option<(T, string)>, s: string, n: nat): Option<seq<T>>
    decreases n
  {
    if n == 0 then Some([])
    else
      var first := read(s);
      if first == None then None
      else
        var others := ReadMany(read, first.value.1, n - 1);
        if others == None then None else Some([first.value.0] + others.value)
  }

  const WORD: string -> Option<(string, string)> := (s: string) => ReadWord(s)

  const INT: string -> Option<(int32, string)> := (s: string) => ReadInt(s)

  function ReadWords(s: string, n: nat): Option<seq<string>> {
    ReadMany(WORD, s, n)
  }

  function ReadInts(s: string, n: nat): Option<seq<int32>> {
    ReadMany(INT, s, n)
  }

  function ReadRow(line: string, width: nat): Option<Row> {
    var key := ReadWord(line);
    if key == None then None
    else
      var values := ReadInts(key.value.1, width);
      if values == None then None else Some(Row(key.value.0, values.value))
  }

  datatype LoadError = BadMetadata | NameTaken | BadFields | MissingKey | MultipleKey | BadRow | ConflictingKey

  datatype RowsResult = Rows(rows: seq<Row>) | RowsError(error: LoadError)

  /** Rows up to an empty line or the end, each with a key not seen before. */
  function ReadRows(s: string, width: nat, taken: set<string>): RowsResult
    decreases |s|
  {
    var line := GetLine(s);
    if line == None || line.value.0 == "" then Rows([])
    else
      var r := ReadRow(line.value.0, width);
      if r == None then RowsError(BadRow)
      else if r.value.key in taken then RowsError(ConflictingKey)
      else
        match ReadRows(line.value.1, width, taken + {r.value.key})
        case RowsError(e) => RowsError(e)
        case Rows(rows) => Rows([r.value] + rows)
  }

  /** NoFields: a count of zero makes the program look at the front of an empty deque. */
  datatype Loading = Loaded(name: string, fields: seq<string>, rows: seq<Row>) | Refused(error: LoadError) | NoFields

  function LoadFields(name: string, fields: seq<string>, rest: string): Loading {
    if fields == [] then NoFields
    else if fields[0] != "KEY" then Refused(MissingKey)
    else if "KEY" in fields[1..] then Refused(MultipleKey)
    else
      match ReadRows(rest, |fields| - 1, {})
      case RowsError(e) => Refused(e)
      case Rows(rows) => Loaded(name, fields[1..], rows)
  }

  /** What loadTableFromStream makes of a text when the tables named in `tables` exist. */
  function LoadText(s: string, tables: set<string>): Loading {
    var first := GetLine(s);
    if first == None then Refused(BadMetadata)
    else
      var name := ReadWord(first.value.0);
      var count := if name == None then None else ReadSize(name.value.1);
      if count == None then Refused(BadMetadata)
      else if name.value.0 in tables then Refused(NameTaken)
      else
        var second := GetLine(first.value.1);
        if second == None then Refused(BadFields)
        else
          var fields := ReadWords(second.value.0, count.value);
          if fields == None then Refused(BadFields)
          else LoadFields(name.value.0, fields.value, second.value.1)
  }

  // ----- reading back one word or number -----

  /** Not empty and without white space. */
  ghost predicate IsWord(s: string) {
    s != [] && forall i :: 0 <= i < |s| ==> !IsSpace(s[i])
  }

  lemma {:induction false} WordRunOf(w: string, rest: string)
    requires forall i :: 0 <= i < |w| ==> !IsSpace(w[i])
    ensures WordRun(w + rest) == |w| + WordRun(rest)
  {
    if w == [] {
      assert w + rest == rest;
    } else {
      assert (w + rest)[1..] == w[1..] + rest;
      WordRunOf(w[1..], rest);
    }
  }

  lemma ReadWordAt(s: string, t: string, n: nat)
    requires SkipSpace(s) == t && WordRun(t) == n > 0
    ensures ReadWord(s) == Some((t[..n], t[n..]))
  {
  }

  lemma SplitAt(a: string, b: string, k: nat)
    requires k <= |b|
    ensures (a + b)[..|a| + k] == a + b[..k] && (a + b)[|a| + k..] == b[k..]
  {
  }

  /** A word is read back exactly when what follows does not continue it. */
  lemma WordReadBack(spaces: string, w: string, rest: string)
    requires IsWord(w) && forall i :: 0 <= i < |spaces| ==> IsSpace(spaces[i])
    ensures ReadWord(spaces + (w + rest)).Some?
    ensures rest == [] || IsSpace(rest[0]) ==> ReadWord(spaces + (w + rest)) == Some((w, rest))
    ensures rest != [] && !IsSpace(rest[0]) ==> ReadWord(spaces + (w + rest)).value.0 != w
  {
    var n := WordRun(rest);
    SkipsSpaces(spaces, w + rest);
    WordRunOf(w, rest);
    ReadWordAt(spaces + (w + rest), w + rest, |w| + n);
    SplitAt(w, rest, n);
    if n == 0 {
      assert w + rest[..n] == w;
    } else {
      assert |w + rest[..n]| > |w|;
    }
  }

  lemma DigitsReadBack(n: nat, rest: string)
    ensures ReadDigits(NatText(n) + rest).Some?
    ensures ReadDigits(NatText(n) + rest) == Some((n, rest)) <==> rest == [] || !IsDigit(rest[0])
    ensures rest != [] && IsDigit(rest[0]) && rest[0] != '0' ==> ReadDigits(NatText(n) + rest).value.0 > n
  {
    var digits, more := NatText(n), DigitRun(rest);
    DigitRunOf(digits, rest);
    SplitAt(digits, rest, more);
    ValueOfNatText(n);
    if more == 0 {
      assert digits + rest[..more] == digits;
    } else if rest[0] != '0' {
      MoreDigitsMoreValue(digits, rest[..more]);
    }
  }

  lemma ReadNumberAt(s: string, negative: bool, digits: string)
    requires digits != [] && IsDigit(digits[0])
    requires SkipSpace(s) == if negative then "-" + digits else digits
    ensures ReadNumber(s) == WithSign(negative, ReadDigits(digits))
  {
    if negative {
      assert ("-" + digits)[1..] == digits;
    }
  }

  /**
    A printed number is read back, with nothing of what follows it, exactly when no
    further digit follows; a digit other than zero changes its value.
  */
  lemma NumberReadBack(spaces: string, x: int, rest: string)
    requires forall i :: 0 <= i < |spaces| ==> IsSpace(spaces[i])
    ensures ReadNumber(spaces + (IntText(x) + rest)).Some?
    ensures ReadNumber(spaces + (IntText(x) + rest)) == Some((x, rest)) <==> rest == [] || !IsDigit(rest[0])
    ensures rest != [] && IsDigit(rest[0]) && rest[0] != '0' ==>
              ReadNumber(spaces + (IntText(x) + rest)).value.0 != x
  {
    var magnitude: nat := if x < 0 then -x else x;
    var digits := NatText(magnitude) + rest;
    var t := IntText(x) + rest;
    assert t == if x < 0 then "-" + digits else digits;
    SkipsSpaces(spaces, t);
    ReadNumberAt(spaces + t, x < 0, digits);
    DigitsReadBack(magnitude, rest);
  }

  // ----- reading back lines -----

  /** The text of a later value ends the one before it. */
  predicate Separates(text: string) {
    |text| < WIDTH || text[0] == '-'
  }

  ghost predicate AllShort(words: seq<string>) {
    forall i :: 0 <= i < |words| ==> |words[i]| < WIDTH
  }

  ghost predicate AllWords(words: seq<string>) {
    forall i :: 0 <= i < |words| ==> IsWord(words[i])
  }

  lemma PaddedStarts(words: seq<string>)
    requires words != [] && AllWords(words)
    ensures Padded(words) != []
    ensures |words[0]| < WIDTH ==> Padded(words)[0] == ' '
    ensures |words[0]| >= WIDTH ==> Padded(words)[0] == words[0][0] && !IsSpace(Padded(words)[0])
  {
  }

  lemma PadSplits(words: seq<string>)
    requires words != []
    ensures Padded(words) == PadOf(words[0]) + (words[0] + Padded(words[1..]))
  {
  }

  function PadOf(word: string): (s: string)
    ensures forall i :: 0 <= i < |s| ==> IsSpace(s[i])
  {
    Spaces(if |word| < WIDTH then WIDTH - |word| else 0)
  }

  /** If the first thing is read back, all are exactly when the others are. */
  lemma ReadManyCons<T>(read: string -> Option<(T, string)>, s: string, values: seq<T>, rest: string)
    requires values != [] && read(s) == Some((values[0], rest))
    ensures ReadMany(read, s, |values|) == Some(values) <==> ReadMany(read, rest, |values| - 1) == Some(values[1..])
  {
    var others := ReadMany(read, rest, |values| - 1);
    assert values == [values[0]] + values[1..];
    if others.Some? {
      assert ([values[0]] + others.value)[1..] == others.value;
    }
  }

  lemma ReadManyFirst<T>(read: string -> Option<(T, string)>, s: string, values: seq<T>)
    requires values != [] && ReadMany(read, s, |values|) == Some(values)
    ensures read(s).Some? && read(s).value.0 == values[0]
  {
  }

  lemma AllShortCons(words: seq<string>)
    requires words != []
    ensures AllShort(words) <==> |words[0]| < WIDTH && AllShort(words[1..])
  {
    assert words == [words[0]] + words[1..];
  }

  /** Header words are read back exactly when all but the first are shorter than the column. */
  lemma {:induction false} WordsReadBack(words: seq<string>)
    requires words != [] && AllWords(words)
    ensures ReadWords(Padded(words), |words|) == Some(words) <==> AllShort(words[1..])
  {
    var rest := words[1..];
    var after := Padded(rest);
    PadSplits(words);
    WordReadBack(PadOf(words[0]), words[0], after);
    if rest == [] {
      ReadManyCons(WORD, Padded(words), words, after);
    } else {
      PaddedStarts(rest);
      AllShortCons(rest);
      if |rest[0]| < WIDTH {
        WordsReadBack(rest);
        ReadManyCons(WORD, Padded(words), words, after);
      } else if ReadWords(Padded(words), |words|) == Some(words) {
        ReadManyFirst(WORD, Padded(words), words);
        assert false;
      }
    }
  }

  // ----- rows -----

  lemma IntTextStarts(x: int)
    ensures IsWord(IntText(x))
    ensures IntText(x)[0] == '-' || IsDigit(IntText(x)[0])
    ensures |IntText(x)| > 1 ==> IntText(x)[0] != '0'
  {
    if x > 0 {
      LeadingDigit(x);
    }
  }

  ghost predicate AllSeparate(texts: seq<string>) {
    forall i :: 0 <= i < |texts| ==> texts[i] != "" && Separates(texts[i])
  }

  lemma AllSeparateCons(texts: seq<string>)
    requires texts != [] && texts[0] != ""
    ensures AllSeparate(texts) <==> Separates(texts[0]) && AllSeparate(texts[1..])
  {
    assert texts == [texts[0]] + texts[1..];
  }

  /** The values of a row are read back exactly when each but the first separates itself from its predecessor. */
  lemma {:induction false} IntsReadBack(values: seq<int32>)
    requires values != []
    ensures ReadInts(Padded(Texts(values)), |values|) == Some(values) <==> AllSeparate(Texts(values)[1..])
  {
    var texts, rest := Texts(values), values[1..];
    var after := Padded(texts[1..]);
    assert texts[1..] == Texts(rest);
    PadSplits(texts);
    NumberReadBack(PadOf(texts[0]), values[0], after);
    if rest == [] {
      ReadManyCons(INT, Padded(texts), values, after);
    } else {
      IntTextStarts(rest[0]);
      FirstStarts(texts[1..]);
      AllSeparateCons(texts[1..]);
      if Separates(texts[1]) {
        IntsReadBack(rest);
        ReadManyCons(INT, Padded(texts), values, after);
      } else if ReadInts(Padded(texts), |values|) == Some(values) {
        ReadManyFirst(INT, Padded(texts), values);
        assert false;
      }
    }
  }

  lemma FirstStarts(words: seq<string>)
    requires words != [] && words[0] != ""
    ensures Padded(words) != []
    ensures Padded(words)[0] == if |words[0]| < WIDTH then ' ' else words[0][0]
  {
  }

  /** The line of a row can be read back. */
  ghost predicate RowFits(r: Row) {
    var texts := Texts(r.datum);
    texts == [] || (|texts[0]| < WIDTH && AllSeparate(texts[1..]))
  }

  lemma ReadRowKey(line: string, key: string, rest: string, width: nat)
    requires ReadWord(line) == Some((key, rest))
    ensures ReadRow(line, width) ==
              match ReadInts(rest, width)
              case None => None
              case Some(values) => Some(Row(key, values))
  {
  }

  lemma RowReadBack(r: Row)
    requires IsWord(r.key)
    ensures ReadRow(RowLine(r, |r.datum|), |r.datum|) == Some(r) <==> RowFits(r)
  {
    var texts := Texts(r.datum);
    assert r.datum[..|r.datum|] == r.datum;
    var after := Padded(texts);
    assert RowLine(r, |r.datum|) == PadOf(r.key) + (r.key + after);
    WordReadBack(PadOf(r.key), r.key, after);
    if texts == [] {
      ReadRowKey(RowLine(r, |r.datum|), r.key, after, |r.datum|);
    } else {
      IntTextStarts(r.datum[0]);
      FirstStarts(texts);
      if |texts[0]| < WIDTH {
        ReadRowKey(RowLine(r, |r.datum|), r.key, after, |r.datum|);
        IntsReadBack(r.datum);
      } else {
        assert !IsSpace(after[0]);
      }
    }
  }

  // ----- lines -----

  ghost predicate OneLine(s: string) {
    forall i :: 0 <= i < |s| ==> s[i] != '\n'
  }

  lemma {:induction false} LineRunOf(line: string, rest: string)
    requires OneLine(line)
    ensures LineRun(line + ("\n" + rest)) == |line|
  {
    if line != [] {
      assert (line + ("\n" + rest))[1..] == line[1..] + ("\n" + rest);
      LineRunOf(line[1..], rest);
    }
  }

  lemma GetLineOf(line: string, rest: string)
    requires OneLine(line)
    ensures GetLine(line + "\n" + rest) == Some((line, rest))
  {
    LineRunOf(line, rest);
    var s := line + ("\n" + rest);
    assert line + "\n" + rest == s;
    assert s[..|line|] == line && s[|line| + 1..] == rest;
  }

  lemma {:induction false} PaddedOneLine(words: seq<string>)
    requires AllWords(words)
    ensures OneLine(Padded(words))
  {
    if words != [] {
      PaddedOneLine(words[1..]);
      assert OneLine(words[0]) by {
        assert IsWord(words[0]);
      }
    }
  }

  lemma RowOneLine(r: Row)
    requires IsWord(r.key)
    ensures OneLine(RowLine(r, |r.datum|)) && RowLine(r, |r.datum|) != ""
  {
    assert r.datum[..|r.datum|] == r.datum;
    var texts := Texts(r.datum);
    forall i | 0 <= i < |texts| ensures IsWord(texts[i]) {
      IntTextStarts(r.datum[i]);
    }
    PaddedOneLine(texts);
  }

  ghost predicate KeysAreWords(rows: seq<Row>) {
    forall i :: 0 <= i < |rows| ==> IsWord(rows[i].key)
  }

  ghost predicate AllFit(rows: seq<Row>) {
    forall i :: 0 <= i < |rows| ==> RowFits(rows[i])
  }

  lemma ReadRowsCons(s: string, line: string, rest: string, width: nat, taken: set<string>)
    requires GetLine(s) == Some((line, rest)) && line != ""
    ensures ReadRows(s, width, taken) ==
              match ReadRow(line, width)
              case None => RowsError(BadRow)
              case Some(r) =>
                if r.key in taken then RowsError(ConflictingKey)
                else
                  match ReadRows(rest, width, taken + {r.key})
                  case RowsError(e) => RowsError(e)
                  case Rows(rows) => Rows([r] + rows)
  {
  }

  /** The rows are read back exactly when each of them can be. */
  lemma {:induction false} RowsReadBack(rows: seq<Row>, width: nat, taken: set<string>)
    requires FullWidth(rows, width) && KeysAreWords(rows) && DistinctKeys(rows)
    requires forall i :: 0 <= i < |rows| ==> rows[i].key !in taken
    ensures ReadRows(RowsText(rows, width), width, taken) == Rows(rows) <==> AllFit(rows)
  {
    if rows != [] {
      var r, rest := rows[0], rows[1..];
      assert rows == [r] + rest;
      assert r in rows;
      RowReadBack(r);
      RowOneLine(r);
      var line, more := RowLine(r, width), RowsText(rest, width);
      GetLineOf(line, more);
      ReadRowsCons(RowsText(rows, width), line, more, width, taken);
      RowsReadBack(rest, width, taken + {r.key});
      var got := ReadRow(line, width);
      assert AllFit(rows) <==> RowFits(r) && AllFit(rest);
      if got == Some(r) {
        var others := ReadRows(more, width, taken + {r.key});
        if others.Rows? {
          assert ([r] + others.rows)[1..] == others.rows;
        }
      } else if got.Some? {
        assert forall others: seq<Row> :: ([got.value] + others)[0] != r;
      }
    }
  }

  // ----- the whole text -----

  lemma HeaderReadBack(name: string, count: nat)
    requires IsWord(name) && count < SIZE_LIMIT
    ensures var line := name + "\t" + NatText(count);
            && OneLine(line)
            && ReadWord(line) == Some((name, "\t" + NatText(count)))
            && ReadSize("\t" + NatText(count)) == Some(count)
  {
    var line, after := name + "\t" + NatText(count), "\t" + NatText(count);
    assert line == "" + (name + after);
    WordReadBack("", name, after);
    assert after == "\t" + (IntText(count) + "");
    NumberReadBack("\t", count, "");
  }

  /**
    Loading a dumped table gives it back exactly when no field name fills its column
    and in every row the first value does not fill its column and every later one
    either does not or is negative.
  */
  lemma DumpThenLoad(name: string, fields: seq<string>, rows: seq<Row>, tables: set<string>)
    requires IsWord(name) && name !in tables && AllWords(fields) && "KEY" !in fields && |fields| + 1 < SIZE_LIMIT
    requires FullWidth(rows, |fields|) && KeysAreWords(rows) && DistinctKeys(rows)
    ensures LoadText(DumpText(name, fields, rows), tables) == Loaded(name, fields, rows) <==>
            AllShort(fields) && AllFit(rows)
  {
    var header := name + "\t" + NatText(|fields| + 1);
    var words := ["KEY"] + fields;
    var names, body := Padded(words), RowsText(rows, |fields|);
    assert words[1..] == fields;
    HeaderReadBack(name, |fields| + 1);
    GetLineOf(header, names + "\n" + body);
    assert DumpText(name, fields, rows) == header + "\n" + (names + "\n" + body);
    forall i | 0 <= i < |words| ensures IsWord(words[i]) {
    }
    PaddedOneLine(words);
    GetLineOf(names, body);
    WordsReadBack(words);
    RowsReadBack(rows, |fields|, {});
    LoadsAs(DumpText(name, fields, rows), tables, header, names, body, name, |words|);
    FieldsAndRows(name, fields, rows, ReadWords(names, |words|), body);
  }

  /** The table comes out right exactly when both the header and the rows do. */
  lemma FieldsAndRows(name: string, fields: seq<string>, rows: seq<Row>, got: Option<seq<string>>, body: string)
    requires "KEY" !in fields
    ensures got.Some? ==> (LoadFields(name, got.value, body) == Loaded(name, fields, rows) <==>
                             got.value == ["KEY"] + fields && ReadRows(body, |fields|, {}) == Rows(rows))
  {
    if got.Some? && got.value != [] {
      assert got.value == [got.value[0]] + got.value[1..];
    }
  }

  lemma LoadsAs(s: string, tables: set<string>, header: string, names: string, body: string, name: string, count: nat)
    requires GetLine(s) == Some((header, names + "\n" + body)) && GetLine(names + "\n" + body) == Some((names, body))
    requires ReadWord(header).Some? && ReadWord(header).value.0 == name && name !in tables
    requires ReadSize(ReadWord(header).value.1) == Some(count)
    ensures LoadText(s, tables) ==
              match ReadWords(names, count)
              case None => Refused(BadFields)
              case Some(fields) => LoadFields(name, fields, body)
  {
  }
}
