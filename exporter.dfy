/**
 * The CSV export of exporter.js: `;`-separated fields, a field quoted when it
 * holds a quote, a comma, a semicolon or a line feed (quotes inside doubled,
 * as in section 2 of RFC 4180), one line per row, every line ended by "\n".
 * A reader for that format is the partner of the writer: reading an export
 * gives back the header names and every cell.
 */
module Exporter {
  import opened Base
  import opened Tally
  import opened Datastore

  /** A row as `toCSV` sees it: `r[h]`, with absent keys standing for `undefined` and `null`. */
  type Row = map<string, string>

  /** `String(v ?? '')`. */
  function Cell(row: Row, h: string): (c: string)
    ensures h !in row ==> c == ""
  {
    if h in row then row[h] else ""
  }

  predicate NeedsQuotes(s: string)
  {
    '"' in s || ',' in s || ';' in s || '\n' in s
  }

  /** How one character of a field is written inside quotes. */
  function QuoteHead(c: char): string
  {
    if c == '"' then "\"\"" else [c]
  }

  /** `s.replace(/"/g, '""')`. */
  function DoubleQuotes(s: string): (r: string)
  {
    if s == [] then []
    else QuoteHead(s[0]) + DoubleQuotes(s[1..])
  }

  /** `esc`. */
  function Escape(s: string): (r: string)
  {
    if NeedsQuotes(s) then "\"" + DoubleQuotes(s) + "\"" else s
  }

  /** `join(sep)`. */
  function Join(parts: seq<string>, sep: char): string
  {
    if |parts| == 0 then ""
    else if |parts| == 1 then parts[0]
    else parts[0] + [sep] + Join(parts[1..], sep)
  }

  function EscapeAll(fields: seq<string>): (r: seq<string>)
  {
    seq(|fields|, i requires 0 <= i < |fields| => Escape(fields[i]))
  }

  /** The cells of one row, in header order. */
  function Cells(row: Row, headers: seq<string>): (r: seq<string>)
  {
    seq(|headers|, j requires 0 <= j < |headers| => Cell(row, headers[j]))
  }

  function HeaderLine(headers: seq<string>): string
  {
    Join(EscapeAll(headers), ';')
  }

  function RowLine(row: Row, headers: seq<string>): string
  {
    Join(EscapeAll(Cells(row, headers)), ';')
  }

  function RowLines(rows: seq<Row>, headers: seq<string>): (r: seq<string>)
  {
    seq(|rows|, i requires 0 <= i < |rows| => RowLine(rows[i], headers))
  }

  /** `toCSV(rows, headers)`. */
  function ToCsv(rows: seq<Row>, headers: seq<string>): (csv: string)
    ensures |csv| >= 1 && csv[|csv| - 1] == '\n'
    ensures StartsWith(csv, HeaderLine(headers) + "\n")
    ensures rows == [] ==> csv == HeaderLine(headers) + "\n\n"
  {
    HeaderLine(headers) + "\n" + Join(RowLines(rows, headers), '\n') + "\n"
  }

  // ---------------------------------------------------------------------
  // A reader for the format
  // ---------------------------------------------------------------------

  /** A field read from the front of a text, and the text after it. */
  datatype Scan = Scan(field: string, rest: string)

  /** The inside of a quoted field, after its opening quote; `""` is one quote. */
  function ReadQuoted(s: string): (r: Option<Scan>)
    ensures r.Some? ==> |r.value.rest| < |s|
  {
    if s == [] then None
    else if s[0] == '"' then
      if |s| > 1 && s[1] == '"' then
        match ReadQuoted(s[2..])
        case None => None
        case Some(sc) => Some(Scan("\"" + sc.field, sc.rest))
      else Some(Scan([], s[1..]))
    else
      match ReadQuoted(s[1..])
      case None => None
      case Some(sc) => Some(Scan([s[0]] + sc.field, sc.rest))
  }

  /** An unquoted field: everything up to the next `;` or line feed. */
  function ReadPlain(s: string): (r: Scan)
    ensures |r.rest| <= |s|
  {
    if s == [] || s[0] == ';' || s[0] == '\n' then Scan([], s)
    else
      var sc := ReadPlain(s[1..]);
      Scan([s[0]] + sc.field, sc.rest)
  }

  function ReadField(s: string): (r: Option<Scan>)
    ensures r.Some? ==> |r.value.rest| <= |s|
  {
    if s != [] && s[0] == '"' then ReadQuoted(s[1..]) else Some(ReadPlain(s))
  }

  /** The fields of one line, and the text after its line feed. */
  function ReadLine(s: string): (r: Option<(seq<string>, string)>)
    ensures r.Some? ==> |r.value.1| < |s|
    decreases |s|
  {
    match ReadField(s)
    case None => None
    case Some(sc) =>
      if sc.rest == [] then None
      else if sc.rest[0] == ';' then
        match ReadLine(sc.rest[1..])
        case None => None
        case Some(line) => Some(([sc.field] + line.0, line.1))
      else if sc.rest[0] == '\n' then Some(([sc.field], sc.rest[1..]))
      else None
  }

  /** All lines of a text that ends in a line feed. */
  function ReadRows(s: string): (r: Option<seq<seq<string>>>)
    decreases |s|
  {
    if s == [] then Some([])
    else
      match ReadLine(s)
      case None => None
      case Some(line) =>
        match ReadRows(line.1)
        case None => None
        case Some(more) => Some([line.0] + more)
  }

  /** Lines each followed by a line feed. */
  function Terminated(lines: seq<string>): string
  {
    if lines == [] then "" else lines[0] + "\n" + Terminated(lines[1..])
  }

  // ---------------------------------------------------------------------
  // The reader undoes the writer
  // ---------------------------------------------------------------------

  /** `f` put in front of the field of a successful read. */
  function Prefixed(f: string, r: Option<Scan>): Option<Scan>
  {
    if r.None? then None else Some(Scan(f + r.value.field, r.value.rest))
  }

  /** Doubled quotes and other characters in a quoted field read back as themselves. */
  lemma {:induction false} ReadQuotedDoubled(f: string, t: string)
    ensures ReadQuoted(DoubleQuotes(f) + t) == Prefixed(f, ReadQuoted(t))
  {
    if f == [] {
      assert DoubleQuotes(f) + t == t;
      if ReadQuoted(t).Some? {
        assert f + ReadQuoted(t).value.field == ReadQuoted(t).value.field;
      }
    } else {
      ReadQuotedDoubled(f[1..], t);
      ReadQuotedStep(f, t);
    }
  }

  lemma ReadQuotedStep(f: string, t: string)
    requires f != []
    requires ReadQuoted(DoubleQuotes(f[1..]) + t) == Prefixed(f[1..], ReadQuoted(t))
    ensures ReadQuoted(DoubleQuotes(f) + t) == Prefixed(f, ReadQuoted(t))
  {
    var tail := DoubleQuotes(f[1..]) + t;
    DoubleQuotesCons(f, t);
    QuoteHeadRead(f[0], tail);
    PrefixedTwice([f[0]], f[1..], ReadQuoted(t));
    assert [f[0]] + f[1..] == f;
  }

  lemma DoubleQuotesCons(f: string, t: string)
    requires f != []
    ensures DoubleQuotes(f) + t == QuoteHead(f[0]) + (DoubleQuotes(f[1..]) + t)
  {
    assert DoubleQuotes(f) == QuoteHead(f[0]) + DoubleQuotes(f[1..]);
    AppendAssoc(QuoteHead(f[0]), DoubleQuotes(f[1..]), t);
  }

  lemma AppendAssoc(a: string, b: string, c: string)
    ensures (a + b) + c == a + (b + c)
  {
  }

  lemma QuoteHeadRead(c: char, tail: string)
    ensures ReadQuoted(QuoteHead(c) + tail) == Prefixed([c], ReadQuoted(tail))
  {
    if c == '"' {
      ReadQuotedPair(tail);
    } else {
      ReadQuotedOther(c, tail);
    }
  }

  lemma ReadQuotedPair(tail: string)
    ensures ReadQuoted("\"\"" + tail) == Prefixed("\"", ReadQuoted(tail))
  {
    assert ("\"\"" + tail)[2..] == tail;
  }

  lemma ReadQuotedOther(c: char, tail: string)
    requires c != '"'
    ensures ReadQuoted([c] + tail) == Prefixed([c], ReadQuoted(tail))
  {
    assert ([c] + tail)[1..] == tail;
  }

  lemma PrefixedTwice(a: string, b: string, r: Option<Scan>)
    ensures Prefixed(a, Prefixed(b, r)) == Prefixed(a + b, r)
  {
    if r.Some? {
      assert a + (b + r.value.field) == (a + b) + r.value.field;
    }
  }

  lemma {:induction false} ReadPlainUnquoted(f: string, rest: string)
    requires ';' !in f && '\n' !in f
    requires rest == [] || rest[0] == ';' || rest[0] == '\n'
    ensures ReadPlain(f + rest) == Scan(f, rest)
  {
    if f == [] {
      assert f + rest == rest;
    } else {
      assert (f + rest)[1..] == f[1..] + rest;
      ReadPlainUnquoted(f[1..], rest);
      assert [f[0]] + f[1..] == f;
    }
  }

  /** Reading an escaped field followed by a separator, a line feed or nothing gives the field back. */
  lemma ReadEscaped(f: string, rest: string)
    requires rest == [] || rest[0] == ';' || rest[0] == '\n'
    ensures ReadField(Escape(f) + rest) == Some(Scan(f, rest))
  {
    if NeedsQuotes(f) {
      ReadEscapedQuoted(f, rest);
    } else {
      ReadPlainUnquoted(f, rest);
    }
  }

  lemma ReadEscapedQuoted(f: string, rest: string)
    requires NeedsQuotes(f)
    requires rest == [] || rest[0] == ';' || rest[0] == '\n'
    ensures ReadField(Escape(f) + rest) == Some(Scan(f, rest))
  {
    var close := "\"" + rest;
    ReadFieldOpening(DoubleQuotes(f) + close);
    assert Escape(f) + rest == "\"" + (DoubleQuotes(f) + close);
    ReadQuotedDoubled(f, close);
    ReadQuotedClosing(rest);
    assert f + [] == f;
  }

  lemma ReadFieldOpening(inner: string)
    ensures ReadField("\"" + inner) == ReadQuoted(inner)
  {
    assert ("\"" + inner)[1..] == inner;
  }

  lemma ReadQuotedClosing(rest: string)
    requires rest == [] || rest[0] == ';' || rest[0] == '\n'
    ensures ReadQuoted("\"" + rest) == Some(Scan([], rest))
  {
    assert ("\"" + rest)[1..] == rest;
  }

  /** Reading a joined line of escaped fields gives the fields back. */
  lemma {:induction false} ReadJoinedLine(fields: seq<string>, rest: string)
    requires |fields| >= 1
    ensures ReadLine(Join(EscapeAll(fields), ';') + "\n" + rest) == Some((fields, rest))
    decreases |fields|
  {
    var e := EscapeAll(fields);
    if |fields| == 1 {
      assert Join(e, ';') + "\n" + rest == Escape(fields[0]) + ("\n" + rest);
      ReadEscaped(fields[0], "\n" + rest);
      assert ("\n" + rest)[1..] == rest;
      assert [fields[0]] == fields;
    } else {
      var tail := Join(EscapeAll(fields[1..]), ';') + "\n" + rest;
      assert e[1..] == EscapeAll(fields[1..]);
      assert Join(e, ';') + "\n" + rest == Escape(fields[0]) + (";" + tail);
      ReadEscaped(fields[0], ";" + tail);
      assert (";" + tail)[1..] == tail;
      ReadJoinedLine(fields[1..], rest);
      assert [fields[0]] + fields[1..] == fields;
    }
  }

  /** Reading lines of escaped fields gives every line's fields back. */
  lemma {:induction false} ReadTerminated(table: seq<seq<string>>)
    requires forall i :: 0 <= i < |table| ==> |table[i]| >= 1
    ensures ReadRows(Terminated(seq(|table|, i requires 0 <= i < |table| => Join(EscapeAll(table[i]), ';')))) == Some(table)
    decreases |table|
  {
    var lines := seq(|table|, i requires 0 <= i < |table| => Join(EscapeAll(table[i]), ';'));
    if table != [] {
      var tail := seq(|table| - 1, i requires 0 <= i < |table| - 1 => Join(EscapeAll(table[1..][i]), ';'));
      assert lines[1..] == tail;
      ReadJoinedLine(table[0], Terminated(tail));
      ReadTerminated(table[1..]);
      assert [table[0]] + table[1..] == table;
    }
  }

  lemma {:induction false} JoinLines(lines: seq<string>)
    requires |lines| >= 1
    ensures Join(lines, '\n') + "\n" == Terminated(lines)
  {
    if |lines| > 1 {
      JoinLines(lines[1..]);
    }
  }

  /** The table an export stands for: one line of cells per row, in header order. */
  function Table(rows: seq<Row>, headers: seq<string>): seq<seq<string>>
  {
    seq(|rows|, i requires 0 <= i < |rows| => Cells(rows[i], headers))
  }

  /**
   * With at least one row and one column, reading the export gives the header
   * names and then, for every row in order, its cells in header order.
   */
  lemma CsvRoundTrip(rows: seq<Row>, headers: seq<string>)
    requires |rows| >= 1 && |headers| >= 1
    ensures ReadRows(ToCsv(rows, headers)) == Some([headers] + Table(rows, headers))
  {
    var table := [headers] + Table(rows, headers);
    var lines := seq(|table|, i requires 0 <= i < |table| => Join(EscapeAll(table[i]), ';'));
    assert lines == [HeaderLine(headers)] + RowLines(rows, headers);
    JoinLines(RowLines(rows, headers));
    assert ToCsv(rows, headers) == Terminated(lines);
    ReadTerminated(table);
  }

  // ---------------------------------------------------------------------
  // exportAll and exportTotals
  // ---------------------------------------------------------------------

  const AllColumns: seq<string> := ["account", "champion", "mastery", "updatedAt"]
  const TotalsColumns: seq<string> := ["champion", "mastery"]

  /**
   * `String(v ?? '')` of a JSON value. Whole numbers print in decimal;
   * fractional numbers, arrays and objects are not rendered by this model and
   * give the empty text.
   */
  function JsonText(j: Json): (s: string)
    ensures j.JStr? ==> s == j.s
    ensures j.JNum? && j.n == j.n.Floor as real ==> NumberOf(s) == Num(j.n)
  {
    match j
    case JNull => ""
    case JBool(b) => if b then "true" else "false"
    case JNum(n) =>
      if n == n.Floor as real then
        NumberOfDecimal(n.Floor);
        Decimal(n.Floor)
      else ""
    case JStr(s) => s
    case JArr(_) => ""
    case JObj(_) => ""
  }

  function RecordRow(r: Record): Row
  {
    map["account" := r.account, "champion" := r.champion, "mastery" := JsonText(r.mastery), "updatedAt" := r.updatedAt]
  }

  function TotalRow(b: Bucket<string>): Row
  {
    map["champion" := b.key, "mastery" := JsonText(JNum(b.total))]
  }

  /** The text `exportAll` writes to data/export_all.csv. */
  function ExportAll(f: StoreFile): (csv: string)
    ensures StartsWith(csv, HeaderLine(AllColumns) + "\n")
    ensures ReadAll(f) == [] ==> csv == HeaderLine(AllColumns) + "\n\n"
  {
    var list := ReadAll(f);
    ToCsv(seq(|list|, i requires 0 <= i < |list| => RecordRow(list[i])), AllColumns)
  }

  /** The text `exportTotals` writes to data/export_totals.csv. */
  function ExportTotals(f: StoreFile): (csv: string)
    ensures StartsWith(csv, HeaderLine(TotalsColumns) + "\n")
    ensures TotalsByChampion(f) == [] ==> csv == HeaderLine(TotalsColumns) + "\n\n"
  {
    var t := TotalsByChampion(f);
    ToCsv(seq(|t|, i requires 0 <= i < |t| => TotalRow(t[i])), TotalsColumns)
  }

  datatype ExportFile = ExportFile(path: string, csv: string)

  /** The command line: `totals` exports the sums, anything else every record. */
  function Export(cmd: Option<string>, f: StoreFile): (out: ExportFile)
    ensures cmd == Some("totals") ==> out == ExportFile("data/export_totals.csv", ExportTotals(f))
    ensures cmd != Some("totals") ==> out == ExportFile("data/export_all.csv", ExportAll(f))
  {
    if cmd == Some("totals") then ExportFile("data/export_totals.csv", ExportTotals(f))
    else ExportFile("data/export_all.csv", ExportAll(f))
  }

  /** The cells `exportAll` writes for one record. */
  function RecordCells(r: Record): seq<string>
  {
    [r.account, r.champion, JsonText(r.mastery), r.updatedAt]
  }

  /** The cells `exportTotals` writes for one champion. */
  function TotalCells(b: Bucket<string>): seq<string>
  {
    [b.key, JsonText(JNum(b.total))]
  }

  lemma RecordRowCells(r: Record)
    ensures Cells(RecordRow(r), AllColumns) == RecordCells(r)
  {
    var row := RecordRow(r);
    assert Cell(row, "account") == r.account;
    assert Cell(row, "champion") == r.champion;
    assert Cell(row, "mastery") == JsonText(r.mastery);
    assert Cell(row, "updatedAt") == r.updatedAt;
  }

  lemma TotalRowCells(b: Bucket<string>)
    ensures Cells(TotalRow(b), TotalsColumns) == TotalCells(b)
  {
    var row := TotalRow(b);
    assert Cell(row, "champion") == b.key;
    assert Cell(row, "mastery") == JsonText(JNum(b.total));
  }

  /** Every stored record comes back as one line, in file order: account, champion, mastery, time stamp. */
  lemma ExportAllRoundTrip(f: StoreFile)
    requires ReadAll(f) != []
    ensures var list := ReadAll(f);
      ReadRows(ExportAll(f)) == Some([AllColumns] + seq(|list|, i requires 0 <= i < |list| => RecordCells(list[i])))
  {
    var list := ReadAll(f);
    var rows := seq(|list|, i requires 0 <= i < |list| => RecordRow(list[i]));
    CsvRoundTrip(rows, AllColumns);
    forall i | 0 <= i < |list|
      ensures Table(rows, AllColumns)[i] == RecordCells(list[i])
    {
      RecordRowCells(list[i]);
    }
    assert Table(rows, AllColumns) == seq(|list|, i requires 0 <= i < |list| => RecordCells(list[i]));
  }

  /** Any non-empty list of totals reads back one bucket per line, in order. */
  lemma TotalsCsvRoundTrip(t: seq<Bucket<string>>)
    requires t != []
    ensures ReadRows(ToCsv(seq(|t|, i requires 0 <= i < |t| => TotalRow(t[i])), TotalsColumns))
            == Some([TotalsColumns] + seq(|t|, i requires 0 <= i < |t| => TotalCells(t[i])))
  {
    var rows := seq(|t|, i requires 0 <= i < |t| => TotalRow(t[i]));
    CsvRoundTrip(rows, TotalsColumns);
    forall i | 0 <= i < |t|
      ensures Table(rows, TotalsColumns)[i] == TotalCells(t[i])
    {
      TotalRowCells(t[i]);
    }
    assert Table(rows, TotalsColumns) == seq(|t|, i requires 0 <= i < |t| => TotalCells(t[i]));
  }

  /** The totals come back one champion per line, in the order `totalsByChampion` gives. */
  lemma ExportTotalsRoundTrip(f: StoreFile)
    requires TotalsByChampion(f) != []
    ensures var t := TotalsByChampion(f);
      ReadRows(ExportTotals(f)) == Some([TotalsColumns] + seq(|t|, i requires 0 <= i < |t| => TotalCells(t[i])))
  {
    TotalsCsvRoundTrip(TotalsByChampion(f));
  }
}
