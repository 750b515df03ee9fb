/**
 * The analytics export: field escaping, table assembly, the three-section
 * document, and the "recent" lists. A small CSV reader (ParseField,
 * ParseRecord, ParseTable) is the partner that proves the output decodable.
 */
module AnalyticsCsv {
  import opened Wrappers
  import opened Domain
  import Text

  /** A field is quoted when it holds a comma, a double quote or a line feed (a lone CR does not count). */
  predicate NeedsQuoting(s: string) {
    ',' in s || '"' in s || '\n' in s
  }

  /** `str.replace(/"/g, '""')`. */
  function DoubleQuotes(s: string): (r: string)
    ensures |r| >= |s|
  {
    if s == [] then []
    else (if s[0] == '"' then "\"\"" else [s[0]]) + DoubleQuotes(s[1..])
  }

  /** `escapeCsv`: a field is emitted unchanged unless it needs quoting; then it is wrapped in quotes with inner quotes doubled. */
  function EscapeCsv(s: string): (r: string)
    ensures !NeedsQuoting(s) ==> r == s
    ensures NeedsQuoting(s) ==> |r| >= 2 && r[0] == '"' && r[|r| - 1] == '"' && r[1..|r| - 1] == DoubleQuotes(s)
  {
    if NeedsQuoting(s) then "\"" + DoubleQuotes(s) + "\"" else s
  }

  /** A carriage return alone is emitted unquoted. */
  lemma CarriageReturnNotQuoted()
    ensures EscapeCsv("a\rb") == "a\rb"
  {
    assert !NeedsQuoting("a\rb");
  }

  /** A row: every field escaped, joined by commas. */
  function EncodeRow(fields: seq<string>): string {
    Text.Join(seq(|fields|, i requires 0 <= i < |fields| => EscapeCsv(fields[i])), ",")
  }

  function EncodeRows(rows: seq<seq<string>>): (r: seq<string>)
    ensures |r| == |rows|
    ensures forall i :: 0 <= i < |rows| ==> r[i] == EncodeRow(rows[i])
  {
    seq(|rows|, i requires 0 <= i < |rows| => EncodeRow(rows[i]))
  }

  /** `csvToString`: the header row, a line feed, then the data rows joined by line feeds. */
  function CsvToString(headers: seq<string>, rows: seq<seq<string>>): string {
    EncodeRow(headers) + "\n" + Text.Join(EncodeRows(rows), "\n")
  }

  // ----- The reader -----

  /** Reads the body of a quoted field up to its closing quote; `""` stands for one quote. */
  function ParseQuoted(s: string): (r: Option<(string, string)>)
    ensures r.Some? ==> |r.value.1| < |s|
    decreases |s|
  {
    if s == [] then None
    else if s[0] == '"' then
      if |s| >= 2 && s[1] == '"' then
        match ParseQuoted(s[2..])
        case None => None
        case Some((c, rest)) => Some(("\"" + c, rest))
      else Some(("", s[1..]))
    else
      match ParseQuoted(s[1..])
      case None => None
      case Some((c, rest)) => Some(([s[0]] + c, rest))
  }

  /** Reads an unquoted field up to the next comma or line feed. */
  function ParsePlain(s: string): (r: (string, string))
    ensures |r.1| <= |s|
    decreases |s|
  {
    if s == [] || s[0] == ',' || s[0] == '\n' then ("", s)
    else
      var (c, rest) := ParsePlain(s[1..]);
      ([s[0]] + c, rest)
  }

  function ParseField(s: string): (r: Option<(string, string)>)
    ensures r.Some? ==> |r.value.1| <= |s|
  {
    if s != [] && s[0] == '"' then ParseQuoted(s[1..]) else Some(ParsePlain(s))
  }

  /** Reads comma-separated fields up to a line feed or the end. */
  function ParseRecord(s: string): (r: Option<(seq<string>, string)>)
    ensures r.Some? ==> |r.value.1| <= |s|
    decreases |s|
  {
    match ParseField(s)
    case None => None
    case Some((f, rest)) =>
      if rest != [] && rest[0] == ',' then
        match ParseRecord(rest[1..])
        case None => None
        case Some((fs, rest')) => Some(([f] + fs, rest'))
      else Some(([f], rest))
  }

  /** Reads line-feed-separated records to the end of the text. */
  function ParseTable(s: string): Option<seq<seq<string>>>
    decreases |s|
  {
    match ParseRecord(s)
    case None => None
    case Some((fs, rest)) =>
      if rest == [] then Some([fs])
      else if rest[0] == '\n' then
        match ParseTable(rest[1..])
        case None => None
        case Some(t) => Some([fs] + t)
      else None
  }

  // ----- Round trips -----

  lemma {:induction false} ParseQuotedDoubled(f: string, t: string)
    requires t == [] || t[0] != '"'
    ensures ParseQuoted(DoubleQuotes(f) + "\"" + t) == Some((f, t))
    decreases |f|
  {
    var s := DoubleQuotes(f) + "\"" + t;
    if f == [] {
      assert s == "\"" + t;
      assert s[1..] == t;
    } else if f[0] == '"' {
      ParseQuotedDoubled(f[1..], t);
      assert s == "\"\"" + (DoubleQuotes(f[1..]) + "\"" + t);
      assert s[2..] == DoubleQuotes(f[1..]) + "\"" + t;
      assert "\"" + f[1..] == f;
    } else {
      ParseQuotedDoubled(f[1..], t);
      assert s == [f[0]] + (DoubleQuotes(f[1..]) + "\"" + t);
      assert s[1..] == DoubleQuotes(f[1..]) + "\"" + t;
      assert [f[0]] + f[1..] == f;
    }
  }

  lemma {:induction false} ParsePlainField(f: string, t: string)
    requires !NeedsQuoting(f)
    requires t == [] || t[0] == ',' || t[0] == '\n'
    ensures ParsePlain(f + t) == (f, t)
    decreases |f|
  {
    if f == [] {
      assert f + t == t;
    } else {
      assert f[0] in f;
      assert (f + t)[0] == f[0];
      assert (f + t)[1..] == f[1..] + t;
      assert forall c :: c in f[1..] ==> c in f;
      ParsePlainField(f[1..], t);
      assert [f[0]] + f[1..] == f;
    }
  }

  /** A quoted field reads back through the quoted-body reader. */
  lemma QuotedFieldRoundTrip(f: string, t: string)
    requires NeedsQuoting(f)
    requires t == [] || t[0] == ',' || t[0] == '\n'
    ensures ParseField(EscapeCsv(f) + t) == Some((f, t))
  {
    var d := DoubleQuotes(f);
    var body := d + "\"" + t;
    assert EscapeCsv(f) == "\"" + d + "\"";
    var s := EscapeCsv(f) + t;
    assert s[0] == '"';
    assert s[1..] == body by {
      assert |s[1..]| == |body|;
      assert forall i :: 0 <= i < |body| ==> s[1..][i] == body[i];
    }
    ParseQuotedDoubled(f, t);
  }

  /** A field with nothing to quote reads back through the plain reader. */
  lemma PlainFieldRoundTrip(f: string, t: string)
    requires !NeedsQuoting(f)
    requires t == [] || t[0] == ',' || t[0] == '\n'
    ensures ParseField(EscapeCsv(f) + t) == Some((f, t))
  {
    ParsePlainField(f, t);
    if f != [] {
      assert f[0] in f;
      assert (f + t)[0] == f[0];
    } else {
      assert f + t == t;
    }
  }

  /** Decodability of one field: reading an escaped field gives back the original text and stops at the delimiter. */
  lemma FieldRoundTrip(f: string, t: string)
    requires t == [] || t[0] == ',' || t[0] == '\n'
    ensures ParseField(EscapeCsv(f) + t) == Some((f, t))
  {
    if NeedsQuoting(f) {
      QuotedFieldRoundTrip(f, t);
    } else {
      PlainFieldRoundTrip(f, t);
    }
  }

  /** A field followed by a comma: the record reader goes on after the comma. */
  lemma ParseRecordComma(s: string, f: string, r: string, fs: seq<string>, rest: string)
    requires ParseField(s) == Some((f, "," + r))
    requires ParseRecord(r) == Some((fs, rest))
    ensures ParseRecord(s) == Some(([f] + fs, rest))
  {
    assert ("," + r)[1..] == r;
  }

  lemma EncodeRowCons(fields: seq<string>)
    requires |fields| > 1
    ensures EncodeRow(fields) == EscapeCsv(fields[0]) + "," + EncodeRow(fields[1..])
  {
    var escaped := seq(|fields|, i requires 0 <= i < |fields| => EscapeCsv(fields[i]));
    var tail := fields[1..];
    assert escaped[1..] == seq(|tail|, i requires 0 <= i < |tail| => EscapeCsv(tail[i]));
  }

  lemma EncodeRowSingle(fields: seq<string>)
    requires |fields| == 1
    ensures EncodeRow(fields) == EscapeCsv(fields[0])
  {
    var escaped := seq(|fields|, i requires 0 <= i < |fields| => EscapeCsv(fields[i]));
    assert escaped == [EscapeCsv(fields[0])];
  }

  /** A one-field row reads back as that field. */
  lemma RecordSingle(fields: seq<string>, t: string)
    requires |fields| == 1
    requires t == [] || t[0] == '\n'
    ensures ParseRecord(EncodeRow(fields) + t) == Some((fields, t))
  {
    EncodeRowSingle(fields);
    FieldRoundTrip(fields[0], t);
    assert [fields[0]] == fields;
  }

  /** The text of a wider row: the first escaped field, a comma, then the tail's text. */
  lemma EncodeRowConsText(fields: seq<string>, t: string)
    requires |fields| > 1
    ensures EncodeRow(fields) + t == EscapeCsv(fields[0]) + ("," + (EncodeRow(fields[1..]) + t))
  {
    EncodeRowCons(fields);
  }

  /** A wider row reads back as its first field followed by whatever its tail reads back as. */
  lemma RecordStep(fields: seq<string>, t: string)
    requires |fields| > 1
    requires ParseRecord(EncodeRow(fields[1..]) + t) == Some((fields[1..], t))
    ensures ParseRecord(EncodeRow(fields) + t) == Some((fields, t))
  {
    var body := EncodeRow(fields[1..]) + t;
    EncodeRowConsText(fields, t);
    FieldRoundTrip(fields[0], "," + body);
    ParseRecordComma(EncodeRow(fields) + t, fields[0], body, fields[1..], t);
    assert [fields[0]] + fields[1..] == fields;
  }

  lemma {:induction false} RecordRoundTrip(fields: seq<string>, t: string)
    requires |fields| > 0
    requires t == [] || t[0] == '\n'
    ensures ParseRecord(EncodeRow(fields) + t) == Some((fields, t))
    decreases |fields|
  {
    if |fields| == 1 {
      RecordSingle(fields, t);
    } else {
      RecordRoundTrip(fields[1..], t);
      RecordStep(fields, t);
    }
  }

  /** A header record followed by a line feed: the rest of the text is read as further records. */
  lemma TableAfterRecord(fields: seq<string>, body: string)
    requires |fields| > 0
    ensures ParseTable(EncodeRow(fields) + "\n" + body) ==
      match ParseTable(body)
      case None => None
      case Some(t) => Some([fields] + t)
  {
    var rest := "\n" + body;
    assert EncodeRow(fields) + "\n" + body == EncodeRow(fields) + rest;
    RecordRoundTrip(fields, rest);
    assert rest[1..] == body;
  }

  lemma JoinCons(p: string, rest: seq<string>, sep: string)
    requires |rest| > 0
    ensures Text.Join([p] + rest, sep) == p + sep + Text.Join(rest, sep)
  {
    assert ([p] + rest)[1..] == rest;
  }

  lemma {:induction false} RowsRoundTrip(rows: seq<seq<string>>)
    requires |rows| > 0
    requires forall i :: 0 <= i < |rows| ==> |rows[i]| > 0
    ensures ParseTable(Text.Join(EncodeRows(rows), "\n")) == Some(rows)
    decreases |rows|
  {
    var lines := EncodeRows(rows);
    if |rows| == 1 {
      assert Text.Join(lines, "\n") == EncodeRow(rows[0]) + "";
      RecordRoundTrip(rows[0], "");
      assert EncodeRow(rows[0]) + "" == EncodeRow(rows[0]);
      assert [rows[0]] == rows;
    } else {
      assert lines == [EncodeRow(rows[0])] + EncodeRows(rows[1..]);
      JoinCons(EncodeRow(rows[0]), EncodeRows(rows[1..]), "\n");
      TableAfterRecord(rows[0], Text.Join(EncodeRows(rows[1..]), "\n"));
      RowsRoundTrip(rows[1..]);
      assert [rows[0]] + rows[1..] == rows;
    }
  }

  /**
   * Decodability of a table: reading the text back gives the header row and
   * then the data rows; with no data rows the trailing line feed reads as one
   * empty record.
   */
  lemma TableRoundTrip(headers: seq<string>, rows: seq<seq<string>>)
    requires |headers| > 0
    requires forall i :: 0 <= i < |rows| ==> |rows[i]| > 0
    ensures |rows| > 0 ==> ParseTable(CsvToString(headers, rows)) == Some([headers] + rows)
    ensures |rows| == 0 ==> ParseTable(CsvToString(headers, rows)) == Some([headers, [""]])
  {
    TableAfterRecord(headers, Text.Join(EncodeRows(rows), "\n"));
    if |rows| > 0 {
      RowsRoundTrip(rows);
    } else {
      assert Text.Join(EncodeRows(rows), "\n") == "";
      assert ParsePlain("") == ("", "");
      assert ParseRecord("") == Some(([""], ""));
      assert ParseTable("") == Some([[""]]);
      assert [headers] + [[""]] == [headers, [""]];
    }
  }

  // ----- The export document -----

  const VisitsHeaders: seq<string> := ["Visit ID", "Page", "Browser", "Device", "Location", "Session ID", "Timestamp"]
  const DownloadsHeaders: seq<string> := ["Download ID", "Browser", "Device", "Platform", "Version", "Location", "Session ID", "Timestamp"]
  const SummaryHeaders: seq<string> := ["Metric", "Count"]
  const SummaryMarker := "=== SUMMARY ==="
  const VisitsMarker := "=== VISITS ==="
  const InstallsMarker := "=== PWA INSTALLS ==="

  /** One visit's row; `formatTime` stands for the locale rendering of the timestamp. */
  function VisitRow(v: Visit, formatTime: int -> string): seq<string> {
    [Text.NatToString(v.id), v.page, v.browser, v.device, v.location, v.sessionId, formatTime(v.timestamp)]
  }

  function DownloadRow(d: Download, formatTime: int -> string): seq<string> {
    [Text.NatToString(d.id), d.browser, d.device, d.platform, d.version, d.location, d.sessionId, formatTime(d.timestamp)]
  }

  /** One data row per visit, in input order, each as wide as the header. */
  function VisitRows(visits: seq<Visit>, formatTime: int -> string): (rows: seq<seq<string>>)
    ensures |rows| == |visits|
    ensures forall i :: 0 <= i < |visits| ==> rows[i] == VisitRow(visits[i], formatTime) && |rows[i]| == |VisitsHeaders|
  {
    seq(|visits|, i requires 0 <= i < |visits| => VisitRow(visits[i], formatTime))
  }

  function DownloadRows(downloads: seq<Download>, formatTime: int -> string): (rows: seq<seq<string>>)
    ensures |rows| == |downloads|
    ensures forall i :: 0 <= i < |downloads| ==> rows[i] == DownloadRow(downloads[i], formatTime) && |rows[i]| == |DownloadsHeaders|
  {
    seq(|downloads|, i requires 0 <= i < |downloads| => DownloadRow(downloads[i], formatTime))
  }

  function SummaryRows(visitCount: nat, downloadCount: nat, exportDate: string): seq<seq<string>> {
    [["Total Visits", Text.NatToString(visitCount)],
     ["Total PWA Installs", Text.NatToString(downloadCount)],
     ["Export Date", exportDate]]
  }

  /** The identifier column of a row is never quoted and reads back as the identifier. */
  lemma IdCellPlain(v: Visit, formatTime: int -> string)
    ensures EscapeCsv(VisitRow(v, formatTime)[0]) == Text.NatToString(v.id)
    ensures Text.DecimalValue(VisitRow(v, formatTime)[0]) == v.id
  {
    Text.NatToStringPlain(v.id);
    Text.NatToStringValue(v.id);
  }

  /** The whole export: three marked tables separated by blank lines. */
  function ExportDocument(visitCount: nat, downloadCount: nat, exportDate: string,
                          visits: seq<Visit>, downloads: seq<Download>, formatTime: int -> string): string
  {
    Text.Join([
      SummaryMarker,
      CsvToString(SummaryHeaders, SummaryRows(visitCount, downloadCount, exportDate)),
      "",
      VisitsMarker,
      CsvToString(VisitsHeaders, VisitRows(visits, formatTime)),
      "",
      InstallsMarker,
      CsvToString(DownloadsHeaders, DownloadRows(downloads, formatTime))], "\n")
  }

  /** Joining the eight parts of the document with line feeds. */
  lemma JoinSections(a: string, b: string, c: string, d: string, e: string, f: string)
    ensures Text.Join([a, b, "", c, d, "", e, f], "\n") ==
      a + "\n" + b + "\n\n" + c + "\n" + d + "\n\n" + e + "\n" + f
  {
    var x := a + "\n" + b;
    assert Text.Join([a, b], "\n") == x by {
      Text.JoinSnoc([a], b, "\n");
      assert [a] + [b] == [a, b];
    }
    var y := x + "\n\n" + c;
    assert Text.Join([a, b, "", c], "\n") == y by {
      Text.JoinSnoc([a, b], "", "\n");
      assert [a, b] + [""] == [a, b, ""];
      Text.JoinSnoc([a, b, ""], c, "\n");
      assert [a, b, ""] + [c] == [a, b, "", c];
      assert x + "\n" + "" + "\n" == x + "\n\n";
    }
    var z := y + "\n" + d + "\n\n" + e;
    assert Text.Join([a, b, "", c, d, "", e], "\n") == z by {
      Text.JoinSnoc([a, b, "", c], d, "\n");
      assert [a, b, "", c] + [d] == [a, b, "", c, d];
      Text.JoinSnoc([a, b, "", c, d], "", "\n");
      assert [a, b, "", c, d] + [""] == [a, b, "", c, d, ""];
      Text.JoinSnoc([a, b, "", c, d, ""], e, "\n");
      assert [a, b, "", c, d, ""] + [e] == [a, b, "", c, d, "", e];
      assert y + "\n" + d + "\n" + "" + "\n" == y + "\n" + d + "\n\n";
    }
    Text.JoinSnoc([a, b, "", c, d, "", e], f, "\n");
    assert [a, b, "", c, d, "", e] + [f] == [a, b, "", c, d, "", e, f];
  }

  /** The document's layout written out: marker, table, blank line, in the order SUMMARY, VISITS, PWA INSTALLS. */
  lemma ExportDocumentLayout(visitCount: nat, downloadCount: nat, exportDate: string,
                             visits: seq<Visit>, downloads: seq<Download>, formatTime: int -> string)
    ensures ExportDocument(visitCount, downloadCount, exportDate, visits, downloads, formatTime) ==
      SummaryMarker + "\n" + CsvToString(SummaryHeaders, SummaryRows(visitCount, downloadCount, exportDate)) +
      "\n\n" + VisitsMarker + "\n" + CsvToString(VisitsHeaders, VisitRows(visits, formatTime)) +
      "\n\n" + InstallsMarker + "\n" + CsvToString(DownloadsHeaders, DownloadRows(downloads, formatTime))
  {
    var summary := CsvToString(SummaryHeaders, SummaryRows(visitCount, downloadCount, exportDate));
    var visitsCsv := CsvToString(VisitsHeaders, VisitRows(visits, formatTime));
    var downloadsCsv := CsvToString(DownloadsHeaders, DownloadRows(downloads, formatTime));
    JoinSections(SummaryMarker, summary, VisitsMarker, visitsCsv, InstallsMarker, downloadsCsv);
  }

  /** The visits table inside the export reads back as its header and one row per visit. */
  lemma VisitsTableDecodes(visits: seq<Visit>, formatTime: int -> string)
    requires |visits| > 0
    ensures ParseTable(CsvToString(VisitsHeaders, VisitRows(visits, formatTime))) ==
      Some([VisitsHeaders] + VisitRows(visits, formatTime))
  {
    TableRoundTrip(VisitsHeaders, VisitRows(visits, formatTime));
  }

  /**
   * The download's file name, from an ISO-8601 timestamp: the text before its
   * first `T` (the calendar date) between a fixed prefix and the `.csv` suffix.
   */
  function ExportFileName(isoNow: string): (name: string)
    ensures exists k ::
              && 0 <= k <= |isoNow| && 'T' !in isoNow[..k] && (k < |isoNow| ==> isoNow[k] == 'T')
              && name == "aurelie-analytics-" + isoNow[..k] + ".csv"
  {
    Text.SplitHead(isoNow, 'T');
    "aurelie-analytics-" + Text.Split(isoNow, 'T')[0] + ".csv"
  }

  /** `items.slice(-10).reverse()`: the last ten or fewer, newest first. */
  function RecentFirst<T>(items: seq<T>): (r: seq<T>)
    ensures |r| == if |items| < 10 then |items| else 10
    ensures forall i :: 0 <= i < |r| ==> r[i] == items[|items| - 1 - i]
  {
    var start := if |items| < 10 then 0 else |items| - 10;
    var last := items[start..];
    seq(|last|, i requires 0 <= i < |last| => last[|last| - 1 - i])
  }
}
