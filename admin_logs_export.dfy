/** The CSV export of app/api/admin/export/admin-logs/route.ts: the newest
    1000 admin log entries, one line each, every cell quoted with embedded
    quotes doubled, as in section 2, rule 7 of RFC 4180. The reader defined
    here follows the same rule and reads every exported row back cell for
    cell. */
module AdminLogsExport {
  import opened Base
  import opened Text
  import opened Json
  import opened Records

  const MAX_LOGS: nat := 1000

  const HEADERS: seq<string> := ["ID", "Admin ID", "Action", "Target Type", "Target ID", "Metadata", "Created At"]

  /** `items.join(sep)`. */
  function Join(items: seq<string>, sep: string): string
  {
    if items == [] then ""
    else if |items| == 1 then items[0]
    else items[0] + sep + Join(items[1..], sep)
  }

  /** `String(cell).replace(/"/g, '""')`. */
  function DoubleQuotes(s: string): (r: string)
    ensures |r| >= |s|
  {
    if s == [] then ""
    else (if s[0] == '"' then "\"\"" else [s[0]]) + DoubleQuotes(s[1..])
  }

  /** One quoted cell. */
  function Quote(cell: string): (q: string)
    ensures |q| >= |cell| + 2 && q[0] == '"' && q[|q| - 1] == '"'
  {
    "\"" + DoubleQuotes(cell) + "\""
  }

  /** `row.map(quote).join(',')`. */
  function QuotedRow(cells: seq<string>): string
  {
    if cells == [] then ""
    else if |cells| == 1 then Quote(cells[0])
    else Quote(cells[0]) + "," + QuotedRow(cells[1..])
  }

  /** `JSON.stringify(log.metadata || {})`: the object each admin action logs. */
  function MetadataText(m: LogMetadata): (t: string)
    ensures |t| >= 2 && t[0] == '{' && t[|t| - 1] == '}'
  {
    match m
    case NoMetadata => "{}"
    case CreditsGiven(c) => "{\"credits\":" + Stringify(JInt(c)) + "}"
    case BanReason(r) => "{\"reason\":" + Stringify(JStr(r)) + "}"
    case NewValue(v) => "{\"newValue\":" + Stringify(v) + "}"
  }

  /** The seven cells of a log line; `iso` formats a timestamp as `toISOString` does. */
  function LogCells(log: AdminLog, iso: int -> string): (cells: seq<string>)
    ensures |cells| == |HEADERS|
    ensures cells[3] == OrElse(log.targetType, "") && cells[4] == OrElse(log.targetId, "")
    ensures log.metadata.NoMetadata? ==> cells[5] == "{}"
  {
    [log.id, log.adminId, log.action, OrElse(log.targetType, ""), OrElse(log.targetId, ""),
     MetadataText(log.metadata), iso(log.createdAt)]
  }

  /** The entries `findMany` returns: newest first (the log is appended to in
      time order), at most 1000. */
  function Newest(logs: seq<AdminLog>): (r: seq<AdminLog>)
    ensures |r| == if |logs| < MAX_LOGS then |logs| else MAX_LOGS
    ensures forall i :: 0 <= i < |r| ==> r[i] == logs[|logs| - 1 - i]
  {
    var n := if |logs| < MAX_LOGS then |logs| else MAX_LOGS;
    seq(n, i requires 0 <= i < n => logs[|logs| - 1 - i])
  }

  /** The data lines of the export, joined by line breaks. */
  function DataLines(rows: seq<seq<string>>): string
  {
    if rows == [] then ""
    else if |rows| == 1 then QuotedRow(rows[0])
    else QuotedRow(rows[0]) + "\n" + DataLines(rows[1..])
  }

  /** The cells of every selected entry. */
  function Cells(logs: seq<AdminLog>, iso: int -> string): (rows: seq<seq<string>>)
    ensures |rows| == |logs|
    ensures forall i :: 0 <= i < |logs| ==> rows[i] == LogCells(logs[i], iso)
  {
    seq(|logs|, i requires 0 <= i < |logs| => LogCells(logs[i], iso))
  }

  /** The whole export for the stored log: the header line, then the data lines. */
  function Csv(adminLogs: seq<AdminLog>, iso: int -> string): (c: string)
    ensures Join(HEADERS, ",") <= c
    ensures adminLogs == [] ==> c == Join(HEADERS, ",")
  {
    var data := Cells(Newest(adminLogs), iso);
    Join(HEADERS, ",") + (if data == [] then "" else "\n" + DataLines(data))
  }

  /** Reading the rest of a quoted cell after its opening quote: `""` stands
      for one quote, a lone quote closes the cell. Gives the cell and what
      follows its closing quote. */
  function ReadCellBody(s: string): (r: Option<(string, string)>)
    ensures r.Some? ==> |r.value.1| < |s|
  {
    if s == [] then None
    else if s[0] == '"' then
      if |s| > 1 && s[1] == '"' then
        match ReadCellBody(s[2..])
        case None => None
        case Some((cell, rest)) => Some(("\"" + cell, rest))
      else Some(("", s[1..]))
    else
      match ReadCellBody(s[1..])
      case None => None
      case Some((cell, rest)) => Some(([s[0]] + cell, rest))
  }

  /** Reading one line of quoted cells separated by commas; gives the cells
      and what follows the line (nothing, or a line break and more). */
  function ReadRow(s: string): (r: Option<(seq<string>, string)>)
    ensures r.Some? ==> |r.value.1| < |s|
    decreases |s|
  {
    if s == [] || s[0] != '"' then None
    else
      match ReadCellBody(s[1..])
      case None => None
      case Some((cell, rest)) =>
        if rest != [] && rest[0] == ',' then
          match ReadRow(rest[1..])
          case None => None
          case Some((cells, after)) => Some(([cell] + cells, after))
        else if rest == [] || rest[0] == '\n' then Some(([cell], rest))
        else None
  }

  /** Reading lines of quoted cells separated by line breaks. */
  function ReadRows(s: string): Option<seq<seq<string>>>
    decreases |s|
  {
    if s == [] then Some([])
    else
      match ReadRow(s)
      case None => None
      case Some((cells, rest)) =>
        if rest == [] then Some([cells])
        else
          match ReadRows(rest[1..])
          case None => None
          case Some(rows) => Some([cells] + rows)
  }

  /** A doubled cell followed by a closing quote reads back as the cell. */
  lemma {:induction false} ReadDoubled(cell: string, rest: string)
    requires rest == [] || rest[0] != '"'
    ensures ReadCellBody(DoubleQuotes(cell) + "\"" + rest) == Some((cell, rest))
    decreases |cell|
  {
    if cell == [] {
      assert DoubleQuotes(cell) + "\"" + rest == "\"" + rest;
    } else {
      ReadDoubled(cell[1..], rest);
      var tail := DoubleQuotes(cell[1..]) + "\"" + rest;
      if cell[0] == '"' {
        assert DoubleQuotes(cell) + "\"" + rest == "\"\"" + tail;
        assert ("\"\"" + tail)[2..] == tail;
      } else {
        assert DoubleQuotes(cell) + "\"" + rest == [cell[0]] + tail;
        assert ([cell[0]] + tail)[1..] == tail;
      }
      assert [cell[0]] + cell[1..] == cell;
    }
  }

  /** Stripping the outer quotes of a quoted cell and collapsing `""` gives the cell back. */
  lemma QuoteRoundTrip(cell: string)
    ensures ReadCellBody(Quote(cell)[1..]) == Some((cell, ""))
  {
    ReadDoubled(cell, "");
    assert Quote(cell)[1..] == DoubleQuotes(cell) + "\"" + "";
  }

  /** The first cell of a line is read, then what follows it decides. */
  lemma ReadRowHead(cell: string, after: string)
    requires after == [] || after[0] == ',' || after[0] == '\n'
    ensures after == [] || after[0] == '\n' ==> ReadRow(Quote(cell) + after) == Some(([cell], after))
    ensures after != [] && after[0] == ',' ==>
      (ReadRow(Quote(cell) + after) ==
         match ReadRow(after[1..])
         case None => None
         case Some((cells, rest)) => Some(([cell] + cells, rest)))
  {
    var s := Quote(cell) + after;
    assert s[1..] == DoubleQuotes(cell) + "\"" + after;
    ReadDoubled(cell, after);
  }

  /** A line of quoted cells reads back as its cells. */
  lemma {:induction false} ReadQuotedRow(cells: seq<string>, rest: string)
    requires |cells| > 0
    requires rest == [] || rest[0] == '\n'
    ensures ReadRow(QuotedRow(cells) + rest) == Some((cells, rest))
    decreases |cells|
  {
    if |cells| > 1 {
      var after := "," + QuotedRow(cells[1..]) + rest;
      assert QuotedRow(cells) + rest == Quote(cells[0]) + after;
      ReadRowHead(cells[0], after);
      assert after[1..] == QuotedRow(cells[1..]) + rest;
      ReadQuotedRow(cells[1..], rest);
      assert [cells[0]] + cells[1..] == cells;
    } else {
      ReadRowHead(cells[0], rest);
      assert [cells[0]] == cells;
    }
  }

  /** The data lines read back as the cells they were written from: one row
      per line, each with exactly its cells. */
  lemma {:induction false} ReadDataLines(rows: seq<seq<string>>)
    requires forall i :: 0 <= i < |rows| ==> |rows[i]| > 0
    ensures ReadRows(DataLines(rows)) == Some(rows)
    decreases |rows|
  {
    if |rows| == 1 {
      ReadQuotedRow(rows[0], "");
      assert DataLines(rows) == QuotedRow(rows[0]) + "";
      assert [rows[0]] == rows;
    } else if |rows| > 1 {
      var rest := "\n" + DataLines(rows[1..]);
      assert DataLines(rows) == QuotedRow(rows[0]) + rest;
      ReadQuotedRow(rows[0], rest);
      ReadDataLines(rows[1..]);
      assert rest[1..] == DataLines(rows[1..]);
      assert [rows[0]] + rows[1..] == rows;
    }
  }

  /** The header line is followed by one line per selected entry, newest
      first, each reading back as that entry's seven cells. */
  lemma ExportReadsBack(adminLogs: seq<AdminLog>, iso: int -> string)
    requires |adminLogs| > 0
    ensures var csv := Csv(adminLogs, iso);
      var header := Join(HEADERS, ",");
      && header + "\n" <= csv
      && ReadRows(csv[|header| + 1..]) == Some(Cells(Newest(adminLogs), iso))
  {
    var rows := Cells(Newest(adminLogs), iso);
    ReadDataLines(rows);
    var header := Join(HEADERS, ",");
    assert Csv(adminLogs, iso) == header + "\n" + DataLines(rows);
    assert (header + "\n" + DataLines(rows))[|header| + 1..] == DataLines(rows);
  }
}
