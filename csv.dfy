/** `DataLoader.parseCSVLine` and `DataLoader.parseCSV` (data-validator.js):
    a quote-aware splitter for one line, and the record parser that turns a
    whole CSV text into header-keyed rows. */
module Csv {
  import opened Wrappers
  import opened Strings

  /** One accepted data line: header name to cell text. */
  type Row = map<string, string>

  /** The exception `parseCSV` throws: the trimmed text has no data line. */
  datatype CsvError = TooFewLines

  // ---------------------------------------------------------------------------
  // The line splitter

  /** The scanner's variables after a prefix of the line: the fields already
      pushed to `result`, the field being built (`current`) and `inQuotes`. */
  datatype ScanState = ScanState(fields: seq<string>, current: string, inQuotes: bool)

  /** What the scanner does with one character: a `"` toggles `inQuotes` and
      is dropped, a `,` outside quotes ends the current field, anything else
      is appended to the current field. */
  function Step(st: ScanState, c: char): ScanState {
    if c == '"' then st.(inQuotes := !st.inQuotes)
    else if c == ',' && !st.inQuotes then ScanState(st.fields + [st.current], [], st.inQuotes)
    else st.(current := st.current + [c])
  }

  /** The scanner state after reading all of `s`. */
  function Scan(s: string): ScanState {
    if s == [] then ScanState([], [], false) else Step(Scan(s[..|s| - 1]), s[|s| - 1])
  }

  /** The fields of a line: those pushed during the scan, then the last one. */
  function SplitLine(line: string): (r: seq<string>)
    ensures |r| >= 1
  {
    var st := Scan(line);
    st.fields + [st.current]
  }

  /** `parseCSVLine(line)`. */
  method ParseLine(line: string) returns (result: seq<string>)
    ensures result == SplitLine(line)
  {
    result := [];
    var current := "";
    var inQuotes := false;
    for i := 0 to |line|
      invariant ScanState(result, current, inQuotes) == Scan(line[..i])
    {
      assert line[..i + 1][..i] == line[..i];
      var c := line[i];
      if c == '"' {
        inQuotes := !inQuotes;
      } else if c == ',' && !inQuotes {
        result := result + [current];
        current := "";
      } else {
        current := current + [c];
      }
    }
    assert line[..|line|] == line;
    result := result + [current];
  }

  /** After reading `s`, the scanner is inside quotes exactly when `s` holds
      an odd number of `"`. */
  lemma {:induction false} ScanInQuotes(s: string)
    ensures Scan(s).inQuotes <==> multiset(s)['"'] % 2 == 1
  {
    if s != [] {
      var p := s[..|s| - 1];
      ScanInQuotes(p);
      assert s == p + [s[|s| - 1]];
    }
  }

  /** No field the scanner produces contains a `"`. */
  lemma {:induction false} SplitLineNoQuotes(s: string)
    ensures forall i :: 0 <= i < |SplitLine(s)| ==> '"' !in SplitLine(s)[i]
  {
    ScanNoQuotes(s);
  }

  lemma {:induction false} ScanNoQuotes(s: string)
    ensures forall i :: 0 <= i < |Scan(s).fields| ==> '"' !in Scan(s).fields[i]
    ensures '"' !in Scan(s).current
  {
    if s != [] {
      ScanNoQuotes(s[..|s| - 1]);
    }
  }

  /** Joining the fields with `,` gives back the line with every `"`
      removed: the scanner loses the quotes and nothing else. */
  lemma {:induction false} SplitLineJoin(s: string)
    ensures Join(SplitLine(s), ',') == RemoveQuotes(s)
  {
    if s != [] {
      var p := s[..|s| - 1];
      var c := s[|s| - 1];
      SplitLineJoin(p);
      JoinStep(Scan(p), c);
      assert s[..|s| - 1] == p;
      assert RemoveQuotes(s) == RemoveQuotes(p) + (if c == '"' then [] else [c]);
    }
  }

  /** One scanner step adds to the joined fields exactly the character read,
      unless it is a `"`. */
  lemma JoinStep(st: ScanState, c: char)
    ensures Join(Step(st, c).fields + [Step(st, c).current], ',')
         == Join(st.fields + [st.current], ',') + (if c == '"' then [] else [c])
  {
    if c == '"' {
    } else if c == ',' && !st.inQuotes {
      JoinSnoc(st.fields + [st.current], [], ',');
    } else if st.fields == [] {
      assert Step(st, c).fields + [Step(st, c).current] == [st.current + [c]];
    } else {
      JoinSnoc(st.fields, st.current + [c], ',');
      JoinSnoc(st.fields, st.current, ',');
      AppendAssoc(Join(st.fields, ',') + [','], st.current, [c]);
    }
  }

  /** The commas of `s` that split fields: those preceded by an even number
      of `"`, i.e. met while `inQuotes` is false. */
  function OpenCommas(s: string): nat {
    if s == [] then 0
    else
      var p := s[..|s| - 1];
      OpenCommas(p) + (if s[|s| - 1] == ',' && multiset(p)['"'] % 2 == 0 then 1 else 0)
  }

  /** The number of fields is one more than the number of splitting commas. */
  lemma {:induction false} SplitLineCount(s: string)
    ensures |SplitLine(s)| == OpenCommas(s) + 1
  {
    ScanFieldCount(s);
  }

  lemma {:induction false} ScanFieldCount(s: string)
    ensures |Scan(s).fields| == OpenCommas(s)
  {
    if s != [] {
      var p := s[..|s| - 1];
      ScanFieldCount(p);
      ScanInQuotes(p);
    }
  }

  /** A line without `"` splits exactly as `line.split(",")` does. */
  lemma {:induction false} SplitLineUnquoted(s: string)
    requires '"' !in s
    ensures SplitLine(s) == Split(s, ',')
  {
    ScanUnquoted(s);
    SplitLineJoin(s);
    SplitJoin(SplitLine(s), ',');
    JoinSplit(s, ',');
  }

  lemma {:induction false} ScanUnquoted(s: string)
    requires '"' !in s
    ensures !Scan(s).inQuotes
    ensures forall i :: 0 <= i < |Scan(s).fields| ==> ',' !in Scan(s).fields[i]
    ensures ',' !in Scan(s).current
  {
    if s != [] {
      ScanUnquoted(s[..|s| - 1]);
    }
  }

  /** A field wrapped in quotes is one field, whatever commas it holds. */
  lemma QuotedField(a: string)
    requires '"' !in a
    ensures SplitLine(['"'] + a + ['"']) == [a]
  {
    QuotedScan(a);
    assert (['"'] + a + ['"'])[..|a| + 1] == ['"'] + a;
  }

  lemma {:induction false} QuotedScan(a: string)
    requires '"' !in a
    ensures Scan(['"'] + a) == ScanState([], a, true)
  {
    if a == [] {
      assert (['"'] + a)[..0] == [];
    } else {
      var n := |a| - 1;
      assert (['"'] + a)[..n + 1] == ['"'] + a[..n];
      QuotedScan(a[..n]);
      assert a[..n] + [a[n]] == a;
    }
  }

  // ---------------------------------------------------------------------------
  // The record parser

  /** The header names: the header line split on every comma (the split is
      not quote-aware), each with every `"` removed and then trimmed. */
  function Headers(line: string): (r: seq<string>)
    ensures |r| == |Split(line, ',')|
    ensures forall i :: 0 <= i < |r| ==> r[i] == Trim(RemoveQuotes(Split(line, ',')[i]))
    ensures forall i :: 0 <= i < |r| ==> '"' !in r[i]
    ensures forall i :: 0 <= i < |r| ==> r[i] == [] || (!IsWhitespace(r[i][0]) && !IsWhitespace(r[i][|r[i]| - 1]))
  {
    var raw := Split(line, ',');
    var r := seq(|raw|, i requires 0 <= i < |raw| => Trim(RemoveQuotes(raw[i])));
    assert forall i :: 0 <= i < |r| ==> '"' !in r[i] by {
      forall i | 0 <= i < |r| ensures '"' !in r[i] {
        TrimSubset(RemoveQuotes(raw[i]), '"');
      }
    }
    r
  }

  /** The text stored for one field: trimmed with every `"` removed, or `""`
      for an empty field. */
  function Cell(v: string): (r: string)
    ensures v != [] ==> r == Trim(RemoveQuotes(v))
    ensures v == [] ==> r == []
    ensures '"' !in r
    ensures r == [] || (!IsWhitespace(r[0]) && !IsWhitespace(r[|r| - 1]))
  {
    if v != [] then
      var r := Trim(RemoveQuotes(v));
      TrimSubset(RemoveQuotes(v), '"');
      r
    else []
  }

  /** The row for a data line whose fields are `values`: `row[header] =
      cell` for each header in order, so a repeated header keeps its last
      cell. */
  function RowOf(headers: seq<string>, values: seq<string>): Row
    requires |headers| <= |values|
  {
    if headers == [] then map[]
    else
      var n := |headers| - 1;
      RowOf(headers[..n], values)[headers[n] := Cell(values[n])]
  }

  /** `headers.forEach((header, index) => row[header] = …)`. */
  method BuildRow(headers: seq<string>, values: seq<string>) returns (row: Row)
    requires |headers| <= |values|
    ensures row == RowOf(headers, values)
  {
    row := map[];
    for index := 0 to |headers|
      invariant row == RowOf(headers[..index], values)
    {
      assert headers[..index + 1][..index] == headers[..index];
      var cell := if values[index] != [] then Trim(RemoveQuotes(values[index])) else [];
      row := row[headers[index] := cell];
    }
    assert headers[..|headers|] == headers;
  }

  /** A row's keys are exactly the header names. */
  lemma {:induction false} RowKeys(headers: seq<string>, values: seq<string>)
    requires |headers| <= |values|
    ensures forall k :: k in RowOf(headers, values) <==> k in headers
  {
    if headers != [] {
      var n := |headers| - 1;
      RowKeys(headers[..n], values);
      assert headers == headers[..n] + [headers[n]];
    }
  }

  /** The value under a header is the cell at that header's last position. */
  lemma {:induction false} RowValue(headers: seq<string>, values: seq<string>, i: nat)
    requires |headers| <= |values| && i < |headers|
    requires forall j :: i < j < |headers| ==> headers[j] != headers[i]
    ensures headers[i] in RowOf(headers, values)
    ensures RowOf(headers, values)[headers[i]] == Cell(values[i])
  {
    var n := |headers| - 1;
    if i < n {
      RowValue(headers[..n], values, i);
    }
  }

  /** Fields past the header count are ignored. */
  lemma {:induction false} RowIgnoresExtra(headers: seq<string>, values: seq<string>)
    requires |headers| <= |values|
    ensures RowOf(headers, values) == RowOf(headers, values[..|headers|])
  {
    if headers != [] {
      var n := |headers| - 1;
      RowIgnoresExtra(headers[..n], values);
      RowIgnoresExtra(headers[..n], values[..|headers|]);
      assert values[..|headers|][..n] == values[..n];
    }
  }

  /** Is a data line kept: does it have at least as many fields as there
      are headers? */
  predicate Accepts(headers: seq<string>, line: string) {
    |SplitLine(line)| >= |headers|
  }

  /** The rows for the data lines, in order, dropping the short lines. */
  function DataRows(headers: seq<string>, lines: seq<string>): (rows: seq<Row>)
    ensures |rows| <= |lines|
  {
    if lines == [] then []
    else
      var last := lines[|lines| - 1];
      DataRows(headers, lines[..|lines| - 1])
        + (if Accepts(headers, last) then [RowOf(headers, SplitLine(last))] else [])
  }

  /** One more data line adds its row, when it is long enough, at the end. */
  lemma DataRowsStep(headers: seq<string>, lines: seq<string>, i: nat)
    requires 1 <= i < |lines|
    ensures DataRows(headers, lines[1..i + 1])
            == DataRows(headers, lines[1..i])
               + (if Accepts(headers, lines[i]) then [RowOf(headers, SplitLine(lines[i]))] else [])
  {
    assert lines[1..i + 1][..i - 1] == lines[1..i];
  }

  /** The rows of two consecutive blocks of lines are the rows of the first
      block followed by those of the second. */
  lemma {:induction false} DataRowsAppend(headers: seq<string>, a: seq<string>, b: seq<string>)
    ensures DataRows(headers, a + b) == DataRows(headers, a) + DataRows(headers, b)
    decreases |b|
  {
    if b == [] {
      assert a + b == a;
    } else {
      var n := |b| - 1;
      assert (a + b)[..|a + b| - 1] == a + b[..n];
      DataRowsAppend(headers, a, b[..n]);
    }
  }

  /** One line gives its row when it is accepted, and nothing otherwise. */
  lemma DataRowsSingle(headers: seq<string>, line: string)
    ensures DataRows(headers, [line])
            == if Accepts(headers, line) then [RowOf(headers, SplitLine(line))] else []
  {
    assert [line][..0] == [];
  }

  /** Every row has exactly the header names as keys. */
  lemma {:induction false} DataRowsKeys(headers: seq<string>, lines: seq<string>)
    ensures forall r, k :: r in DataRows(headers, lines) ==> (k in r <==> k in headers)
  {
    if lines != [] {
      DataRowsKeys(headers, lines[..|lines| - 1]);
      var last := lines[|lines| - 1];
      if Accepts(headers, last) {
        RowKeys(headers, SplitLine(last));
      }
    }
  }

  /** The lines of the trimmed text. */
  function Lines(text: string): (lines: seq<string>)
    ensures |lines| >= 1
  {
    Split(Trim(text), '\n')
  }

  /** `parseCSV(text)`, as a value: the header comes from the first line, the
      rows from the others. */
  function Parse(text: string): (r: Result<seq<Row>, CsvError>)
    ensures r.Failure? <==> |Lines(text)| < 2
    ensures r.Failure? ==> r.error == TooFewLines
    ensures r.Success? ==> |r.value| <= |Lines(text)| - 1
  {
    var lines := Lines(text);
    if |lines| < 2 then Failure(TooFewLines)
    else Success(DataRows(Headers(lines[0]), lines[1..]))
  }

  /** `parseCSV(text)`. */
  method ParseCsv(text: string) returns (r: Result<seq<Row>, CsvError>)
    ensures r == Parse(text)
  {
    var lines := Split(Trim(text), '\n');
    if |lines| < 2 {
      return Failure(TooFewLines);
    }
    var headers := Headers(lines[0]);
    var data := [];
    for i := 1 to |lines|
      invariant data == DataRows(headers, lines[1..i])
    {
      DataRowsStep(headers, lines, i);
      var values := ParseLine(lines[i]);
      if |values| >= |headers| {
        var row := BuildRow(headers, values);
        data := data + [row];
      }
    }
    assert lines[1..|lines|] == lines[1..];
    return Success(data);
  }

  /** Parsing fails exactly when the trimmed text is one line, i.e. holds no
      line break; the empty and the all-blank text fail. */
  lemma ParseFails(text: string)
    ensures Parse(text).Failure? <==> '\n' !in Trim(text)
  {
    SplitCount(Trim(text), '\n');
  }

  /** On success there is at most one row per data line, and every row has
      the header names as keys. */
  lemma ParseRows(text: string)
    requires Parse(text).Success?
    ensures |Parse(text).value| <= |Lines(text)| - 1
    ensures forall r, k :: r in Parse(text).value ==> (k in r <==> k in Headers(Lines(text)[0]))
  {
    var lines := Lines(text);
    DataRowsKeys(Headers(lines[0]), lines[1..]);
  }
}
