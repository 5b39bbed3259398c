/** The command-line driver's CSV reader and writer: a quote-toggling line
    scanner that turns each non-blank line after the header into an object
    keyed by the header names, and the writer of the matched pairs. */
module RunMatching {
  import opened Strings
  import opened Census

  /** One parsed data line: header name to trimmed value. */
  type CsvRow = map<string, string>

  // ---------------------------------------------------------------------
  // Lines and header
  // ---------------------------------------------------------------------

  /** Drops one trailing carriage return. */
  function DropCR(s: string): string {
    if |s| > 0 && s[|s| - 1] == '\r' then s[..|s| - 1] else s
  }

  /** `content.split(/\r?\n/)`: the pieces between line feeds, each losing the
      carriage return just before its line feed; the last piece has no line
      feed after it and keeps any. */
  function SplitLines(content: string): seq<string> {
    var pieces := Split(content, '\n');
    seq(|pieces|, i requires 0 <= i < |pieces| => if i < |pieces| - 1 then DropCR(pieces[i]) else pieces[i])
  }

  /** Lines hold no line feed, and without carriage returns in the content
      they are exactly the pieces between line feeds. */
  lemma SplitLinesFacts(content: string)
    ensures |SplitLines(content)| == |Split(content, '\n')|
    ensures forall i :: 0 <= i < |SplitLines(content)| ==> '\n' !in SplitLines(content)[i]
    ensures '\r' !in content ==> SplitLines(content) == Split(content, '\n')
  {
    var pieces := Split(content, '\n');
    var lines := SplitLines(content);
    forall i | 0 <= i < |lines|
      ensures '\n' !in lines[i]
    {
      assert '\n' !in pieces[i];
    }
    if '\r' !in content {
      forall i | 0 <= i < |pieces|
        ensures lines[i] == pieces[i]
      {
        if |pieces[i]| > 0 && pieces[i][|pieces[i]| - 1] == '\r' {
          JoinHas(pieces, i);
        }
      }
    }
  }

  /** A character of a piece is a character of the joined text. */
  lemma JoinHas(pieces: seq<string>, i: nat)
    requires i < |pieces| && |pieces[i]| > 0
    ensures pieces[i][|pieces[i]| - 1] in Join("\n", pieces)
    decreases |pieces|
  {
    if i == 0 {
      if |pieces| > 1 {
        assert Join("\n", pieces) == pieces[0] + "\n" + Join("\n", pieces[1..]);
      }
    } else {
      JoinHas(pieces[1..], i - 1);
      assert Join("\n", pieces) == pieces[0] + "\n" + Join("\n", pieces[1..]);
    }
  }

  /** `lines[0].split(',').map(h => h.trim())` */
  function Headers(first: string): (hs: seq<string>)
    ensures |hs| == |Split(first, ',')|
  {
    var ps := Split(first, ',');
    seq(|ps|, i requires 0 <= i < |ps| => Trim(ps[i]))
  }

  // ---------------------------------------------------------------------
  // The line scanner
  // ---------------------------------------------------------------------

  /** The scanner's state: the fields closed so far (their number is
      `colIndex`), `currentVal` and `insideQuote`. */
  datatype Scan = Scan(fields: seq<string>, current: string, inQuote: bool)

  const Start := Scan([], "", false)

  /** One character: a quote toggles the quote state and is dropped, a comma
      outside quotes closes the field, anything else joins the current value. */
  function Step(st: Scan, c: char): Scan {
    if c == '"' then st.(inQuote := !st.inQuote)
    else if c == ',' && !st.inQuote then Scan(st.fields + [st.current], "", st.inQuote)
    else st.(current := st.current + [c])
  }

  /** The state after scanning `s` from `st`. */
  function ScanFrom(st: Scan, s: string): Scan {
    if s == [] then st else Step(ScanFrom(st, s[..|s| - 1]), s[|s| - 1])
  }

  /** The raw values of a line: the closed fields and the last one. */
  function Tokens(line: string): seq<string> {
    var st := ScanFrom(Start, line);
    st.fields + [st.current]
  }

  lemma {:induction false} ScanFromAppend(st: Scan, a: string, b: string)
    ensures ScanFrom(st, a + b) == ScanFrom(ScanFrom(st, a), b)
    decreases |b|
  {
    if b == [] {
      assert a + b == a;
    } else {
      assert (a + b)[..|a + b| - 1] == a + b[..|b| - 1];
      ScanFromAppend(st, a, b[..|b| - 1]);
    }
  }

  function Count(s: string, c: char): nat {
    if s == [] then 0 else Count(s[..|s| - 1], c) + (if s[|s| - 1] == c then 1 else 0)
  }

  /** The commas of `s` with an even number of quotes before them. */
  function UnquotedCommas(s: string): nat {
    if s == [] then 0
    else UnquotedCommas(s[..|s| - 1]) + (if s[|s| - 1] == ',' && Count(s[..|s| - 1], '"') % 2 == 0 then 1 else 0)
  }

  /** `s` without its double quotes. */
  function RemoveQuotes(s: string): string {
    if s == [] then [] else RemoveQuotes(s[..|s| - 1]) + (if s[|s| - 1] == '"' then [] else [s[|s| - 1]])
  }

  /** What the scanner knows after any prefix: it is inside quotes exactly
      after an odd number of quotes, it has closed one field per comma outside
      quotes, no value holds a quote, and the values joined by commas give back
      the text without its quotes. */
  lemma {:induction false} ScanInvariant(s: string)
    ensures ScanFrom(Start, s).inQuote <==> Count(s, '"') % 2 == 1
    ensures |ScanFrom(Start, s).fields| == UnquotedCommas(s)
    ensures '"' !in ScanFrom(Start, s).current
    ensures forall k :: 0 <= k < |ScanFrom(Start, s).fields| ==> '"' !in ScanFrom(Start, s).fields[k]
    ensures Join(",", Tokens(s)) == RemoveQuotes(s)
  {
    if s != [] {
      var init, c := s[..|s| - 1], s[|s| - 1];
      ScanInvariant(init);
      var st := ScanFrom(Start, init);
      var fs := st.fields + [st.current];
      if c == '"' {
      } else if c == ',' && !st.inQuote {
        assert Tokens(s) == fs + [""];
        JoinSnoc(",", fs, "");
      } else {
        assert Tokens(s) == st.fields + [st.current + [c]];
        if st.fields == [] {
          assert Join(",", Tokens(s)) == st.current + [c];
        } else {
          JoinSnoc(",", st.fields, st.current);
          JoinSnoc(",", st.fields, st.current + [c]);
        }
      }
    }
  }

  /** The line's values: one more than its commas outside quotes, none holding
      a quote, and together (joined by commas) the line without its quotes. */
  lemma TokensFacts(line: string)
    ensures |Tokens(line)| == UnquotedCommas(line) + 1
    ensures forall k :: 0 <= k < |Tokens(line)| ==> '"' !in Tokens(line)[k]
    ensures Join(",", Tokens(line)) == RemoveQuotes(line)
  {
    ScanInvariant(line);
  }

  /** The object built from the values: value `k`, trimmed, under header `k`,
      for the values that have a header. */
  function RowOf(headers: seq<string>, values: seq<string>): CsvRow {
    if values == [] then map[]
    else
      var n := |values| - 1;
      var r := RowOf(headers, values[..n]);
      if n < |headers| then r[headers[n] := Trim(values[n])] else r
  }

  function Min(a: nat, b: nat): nat {
    if a < b then a else b
  }

  /** The first `m` headers. */
  function HeaderSet(headers: seq<string>, m: nat): set<string>
    requires m <= |headers|
  {
    set k | 0 <= k < m :: headers[k]
  }

  lemma HeaderSetSnoc(headers: seq<string>, m: nat)
    requires m < |headers|
    ensures HeaderSet(headers, m + 1) == HeaderSet(headers, m) + {headers[m]}
  {
    forall x | x in HeaderSet(headers, m + 1) ensures x in HeaderSet(headers, m) || x == headers[m] {
      var k :| 0 <= k < m + 1 && x == headers[k];
      if k < m { assert x in HeaderSet(headers, m); }
    }
    assert headers[m] in HeaderSet(headers, m + 1);
  }

  /** The keys are the headers of the values present: values beyond the
      header count are dropped, missing trailing values are absent. */
  lemma {:induction false} RowOfKeys(headers: seq<string>, values: seq<string>)
    ensures RowOf(headers, values).Keys == HeaderSet(headers, Min(|headers|, |values|))
  {
    if values != [] {
      var n := |values| - 1;
      RowOfKeys(headers, values[..n]);
      if n < |headers| {
        HeaderSetSnoc(headers, n);
      } else {
        assert Min(|headers|, |values|) == Min(|headers|, n);
      }
    } else {
      assert HeaderSet(headers, 0) == {};
    }
  }

  /** With distinct headers each value present is found, trimmed, under its
      header. */
  lemma {:induction false} RowOfValues(headers: seq<string>, values: seq<string>)
    requires NoDup(headers)
    ensures forall k :: 0 <= k < Min(|headers|, |values|) ==>
      headers[k] in RowOf(headers, values) && RowOf(headers, values)[headers[k]] == Trim(values[k])
  {
    if values != [] {
      var n := |values| - 1;
      var init := values[..n];
      var r := RowOf(headers, init);
      RowOfValues(headers, init);
      if n < |headers| {
        assert RowOf(headers, values) == r[headers[n] := Trim(values[n])];
        forall k | 0 <= k < n ensures headers[k] in r && r[headers[k]] == Trim(values[k]) && headers[k] != headers[n] {
          assert init[k] == values[k];
        }
      } else {
        assert RowOf(headers, values) == r;
        forall k | 0 <= k < Min(|headers|, |values|) ensures headers[k] in r && r[headers[k]] == Trim(values[k]) {
          assert init[k] == values[k];
        }
      }
    }
  }

  /** The keys are the headers of the values present: values beyond the
      header count are dropped, missing trailing values are absent; with
      distinct headers each value is found, trimmed, under its header. */
  lemma RowOfFacts(headers: seq<string>, values: seq<string>)
    ensures RowOf(headers, values).Keys == set k | 0 <= k < Min(|headers|, |values|) :: headers[k]
    ensures NoDup(headers) ==>
      forall k :: 0 <= k < Min(|headers|, |values|) ==> RowOf(headers, values)[headers[k]] == Trim(values[k])
  {
    RowOfKeys(headers, values);
    if NoDup(headers) {
      RowOfValues(headers, values);
    }
  }

  predicate NoDup(xs: seq<string>) {
    forall i, j :: 0 <= i < j < |xs| ==> xs[i] != xs[j]
  }

  /** `row` for one data line under the given headers. */
  function ParseRow(headers: seq<string>, line: string): CsvRow {
    RowOf(headers, Tokens(line))
  }

  /** The inner loop of `parseCSV`: one line, character by character. */
  method ParseLine(headers: seq<string>, line: string) returns (row: CsvRow)
    ensures row == ParseRow(headers, line)
  {
    row := map[];
    var currentVal := "";
    var insideQuote := false;
    var colIndex := 0;
    ghost var fields: seq<string> := [];
    for j := 0 to |line|
      invariant ScanFrom(Start, line[..j]) == Scan(fields, currentVal, insideQuote)
      invariant colIndex == |fields|
      invariant row == RowOf(headers, fields)
    {
      assert line[..j + 1][..j] == line[..j];
      var c := line[j];
      if c == '"' {
        insideQuote := !insideQuote;
      } else if c == ',' && !insideQuote {
        assert (fields + [currentVal])[..colIndex] == fields;
        if colIndex < |headers| {
          row := row[headers[colIndex] := Trim(currentVal)];
        }
        fields := fields + [currentVal];
        colIndex := colIndex + 1;
        currentVal := "";
      } else {
        currentVal := currentVal + [c];
      }
    }
    assert line[..|line|] == line;
    assert (fields + [currentVal])[..colIndex] == fields;
    if colIndex < |headers| {
      row := row[headers[colIndex] := Trim(currentVal)];
    }
  }

  // ---------------------------------------------------------------------
  // parseCSV
  // ---------------------------------------------------------------------

  /** The lines `parseCSV` reads: the non-blank ones. */
  function ContentLines(content: string): seq<string> {
    NonBlank(SplitLines(content))
  }

  /** One object per data line, in order. */
  function ParseRows(headers: seq<string>, lines: seq<string>): (rows: seq<CsvRow>)
    ensures |rows| == |lines|
  {
    MapEach(lines, l => ParseRow(headers, l))
  }

  /** `parseCSV(content)`: `None` where the code fails on a missing header
      line, otherwise one object per non-blank line after the first. */
  function ParseCsv(content: string): Option<seq<CsvRow>> {
    var lines := ContentLines(content);
    if |lines| == 0 then None
    else Some(ParseRows(Headers(lines[0]), lines[1..]))
  }

  /** The `k`-th object is the `k`-th data line parsed against the header. */
  lemma ParseRowsIndex(headers: seq<string>, lines: seq<string>)
    ensures forall k :: 0 <= k < |lines| ==> ParseRows(headers, lines)[k] == ParseRow(headers, lines[k])
  {
    MapEachIndex(lines, l => ParseRow(headers, l));
  }

  /** A content with no non-blank line has no header and fails; otherwise
      there is one object per non-blank line after the header, each a line
      that `trim` does not empty. */
  lemma ParseCsvShape(content: string)
    ensures ParseCsv(content).None? <==> forall l :: l in SplitLines(content) ==> Trim(l) == ""
    ensures ParseCsv(content).Some? ==> |ParseCsv(content).value| == |ContentLines(content)| - 1
    ensures forall k :: 0 <= k < |ContentLines(content)| ==> Trim(ContentLines(content)[k]) != ""
  {
    var lines := SplitLines(content);
    if ParseCsv(content).None? {
      forall l | l in lines
        ensures Trim(l) == ""
      {
        var k :| 0 <= k < |lines| && lines[k] == l;
      }
    } else {
      assert ContentLines(content)[0] in lines;
    }
  }

  /** The loop of `parseCSV` over the data lines. */
  method ParseDataLines(headers: seq<string>, lines: seq<string>) returns (rows: seq<CsvRow>)
    ensures rows == ParseRows(headers, lines)
  {
    rows := [];
    assert lines[..0] == [];
    for i := 0 to |lines|
      invariant rows == ParseRows(headers, lines[..i])
    {
      assert lines[..i + 1][..i] == lines[..i];
      var row := ParseLine(headers, lines[i]);
      rows := rows + [row];
    }
    assert lines[..|lines|] == lines;
  }

  /** `parseCSV(content)` */
  method ParseCSV(content: string) returns (data: Option<seq<CsvRow>>)
    ensures data == ParseCsv(content)
  {
    var lines := ContentLines(content);
    if |lines| == 0 {
      return None;
    }
    var headers := Headers(lines[0]);
    var rows := ParseDataLines(headers, lines[1..]);
    return Some(rows);
  }

  // ---------------------------------------------------------------------
  // objectToCSV
  // ---------------------------------------------------------------------

  /** The written columns, in order. */
  const Columns: seq<string> := [
    "score", "tier", "details",
    "line_1870", "full_name_1870", "age_1870", "birth_year_1870",
    "line_1880", "full_name_1880", "age_1880", "birth_year_1880"
  ]

  /** `String(val || '')` for a number: "" for 0. */
  function NumberText(n: int): (r: string)
    ensures r == "" <==> n == 0
  {
    if n == 0 then "" else IntToString(n)
  }

  /** The values of one pair, column by column: score, tier, details, then
      line, full name, age and birth year of the earlier row and of the later one. */
  function Values(item: Candidate): (vs: seq<string>)
    ensures |vs| == |Columns|
  {
    [NumberText(item.score), NumberText(item.tier), item.details,
     item.r70.line, item.r70.fullName, item.r70.age, item.r70.birthYear,
     item.r80.line, item.r80.fullName, item.r80.age, item.r80.birthYear]
  }

  /** A value holding a comma is wrapped in double quotes, with nothing inside escaped. */
  function Cell(v: string): string {
    if ',' in v then "\"" + v + "\"" else v
  }

  function Cells(vs: seq<string>): (cs: seq<string>)
    ensures |cs| == |vs|
  {
    seq(|vs|, k requires 0 <= k < |vs| => Cell(vs[k]))
  }

  /** One written line. */
  function RowLine(item: Candidate): string {
    Join(",", Cells(Values(item)))
  }

  /** The header line: the column names joined by commas. */
  const HeaderLine := "score,tier,details,line_1870,full_name_1870,age_1870,birth_year_1870,"
    + "line_1880,full_name_1880,age_1880,birth_year_1880"

  /** `objectToCSV(data)`: "" for no pairs, otherwise the header line and one
      line per pair, joined by line feeds. */
  function ObjectToCsv(data: seq<Candidate>): (r: string)
    ensures data == [] ==> r == ""
  {
    if data == [] then ""
    else Join("\n", [HeaderLine] + seq(|data|, i requires 0 <= i < |data| => RowLine(data[i])))
  }

  /** The written text is the header line followed, line by line, by the pairs. */
  lemma {:induction false} ObjectToCsvShape(data: seq<Candidate>)
    requires data != []
    ensures ObjectToCsv(data) == HeaderLine + "\n" + Join("\n", seq(|data|, i requires 0 <= i < |data| => RowLine(data[i])))
  {
    var lines := seq(|data|, i requires 0 <= i < |data| => RowLine(data[i]));
    assert ([HeaderLine] + lines)[1..] == lines;
  }

  /** A score or tier of 0 is written as an empty cell. */
  lemma ZeroIsBlank(item: Candidate)
    ensures Values(item)[0] == "" <==> item.score == 0
    ensures Values(item)[1] == "" <==> item.tier == 0
  {
  }

  // ---------------------------------------------------------------------
  // The reader reads back what the writer writes
  // ---------------------------------------------------------------------

  /** Characters that are neither a quote nor (outside quotes) a comma just
      join the current value. */
  lemma {:induction false} ScanPlain(st: Scan, v: string)
    requires '"' !in v
    requires st.inQuote || ',' !in v
    ensures ScanFrom(st, v) == st.(current := st.current + v)
    decreases |v|
  {
    if v == [] {
      assert st.current + v == st.current;
    } else {
      var init := v[..|v| - 1];
      assert '"' !in init && (st.inQuote || ',' !in init) by {
        assert forall i :: 0 <= i < |init| ==> init[i] == v[i];
      }
      ScanPlain(st, init);
      assert st.current + init + [v[|v| - 1]] == st.current + v;
    }
  }

  /** A written cell without quotes in its value scans back to the value. */
  lemma ScanCell(fs: seq<string>, v: string)
    requires '"' !in v
    ensures ScanFrom(Scan(fs, "", false), Cell(v)) == Scan(fs, v, false)
  {
    var st := Scan(fs, "", false);
    if ',' in v {
      var q := "\"";
      ScanFromAppend(st, q + v, q);
      ScanFromAppend(st, q, v);
      assert ScanFrom(st, q) == st.(inQuote := true) by {
        assert q[..0] == [];
      }
      ScanPlain(st.(inQuote := true), v);
      assert ScanFrom(Scan(fs, v, true), q) == Scan(fs, v, false) by {
        assert q[..0] == [];
      }
      assert Cell(v) == q + v + q;
    } else {
      ScanPlain(st, v);
      assert "" + v == v;
    }
  }

  /** A cell and the comma after it close one field holding the cell's value. */
  lemma ScanCellComma(fs: seq<string>, v: string, more: string)
    requires '"' !in v
    ensures ScanFrom(Scan(fs, "", false), Cell(v) + "," + more) == ScanFrom(Scan(fs + [v], "", false), more)
  {
    var st := Scan(fs, "", false);
    ScanFromAppend(st, Cell(v) + ",", more);
    ScanFromAppend(st, Cell(v), ",");
    ScanCell(fs, v);
    assert ScanFrom(Scan(fs, v, false), ",") == Scan(fs + [v], "", false) by {
      assert ","[..0] == [];
    }
  }

  /** Scanning cells joined by commas closes one field per cell but the last. */
  lemma {:induction false} ScanCells(fs: seq<string>, vs: seq<string>)
    requires vs != []
    requires forall k :: 0 <= k < |vs| ==> '"' !in vs[k]
    ensures ScanFrom(Scan(fs, "", false), Join(",", Cells(vs))) == Scan(fs + vs[..|vs| - 1], vs[|vs| - 1], false)
    decreases |vs|
  {
    var cells := Cells(vs);
    if |vs| == 1 {
      assert Join(",", cells) == Cell(vs[0]);
      ScanCell(fs, vs[0]);
    } else {
      var rest := vs[1..];
      assert Join(",", cells) == Cell(vs[0]) + "," + Join(",", Cells(rest)) by {
        assert cells[1..] == Cells(rest);
      }
      ScanCellComma(fs, vs[0], Join(",", Cells(rest)));
      ScanCells(fs + [vs[0]], rest);
      assert fs + [vs[0]] + rest[..|rest| - 1] == fs + vs[..|vs| - 1];
    }
  }

  /** Reading written cells back: when no value holds a double quote, the
      scanner recovers the values, in order. */
  lemma CellsRoundTrip(vs: seq<string>)
    requires vs != []
    requires forall k :: 0 <= k < |vs| ==> '"' !in vs[k]
    ensures Tokens(Join(",", Cells(vs))) == vs
  {
    ScanCells([], vs);
    assert [] + vs[..|vs| - 1] + [vs[|vs| - 1]] == vs;
  }

  /** Reading a written line back: when no value holds a double quote, the
      scanner recovers the values of the pair, in column order, and each can
      be found, trimmed, under its column name in the object `parseCSV`
      builds from the line. */
  lemma RowLineParses(item: Candidate)
    requires forall k :: 0 <= k < |Columns| ==> '"' !in Values(item)[k]
    ensures Tokens(RowLine(item)) == Values(item)
    ensures forall k :: 0 <= k < |Columns| ==>
      Columns[k] in ParseRow(Columns, RowLine(item)) && ParseRow(Columns, RowLine(item))[Columns[k]] == Trim(Values(item)[k])
  {
    var vs := Values(item);
    CellsRoundTrip(vs);
    ColumnsDistinct();
    RowOfFacts(Columns, vs);
    assert Min(|Columns|, |vs|) == |Columns|;
  }

  lemma ColumnsDistinct()
    ensures NoDup(Columns)
  {
  }
}
