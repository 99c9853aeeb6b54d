/** The CSV printer of lib/tax-reporting.ts and a reader that follows section 2 of RFC 4180, with LF line ends. */
module Csv {
  import opened Common
  import opened JsText

  // ---------- Printing ----------

  predicate IsSpecial(c: char) { c == '"' || c == ',' || c == '\n' || c == '\r' }

  predicate IsPlain(text: string) { forall i :: 0 <= i < |text| ==> !IsSpecial(text[i]) }

  function Doubled(text: string): string {
    if text == "" then ""
    else if text[0] == '"' then "\"\"" + Doubled(text[1..])
    else [text[0]] + Doubled(text[1..])
  }

  function CsvCell(text: string): string {
    if IsPlain(text) then text else "\"" + Doubled(text) + "\""
  }

  function Cells(row: seq<string>): seq<string> {
    if row == [] then [] else [CsvCell(row[0])] + Cells(row[1..])
  }

  function Lines(rows: seq<seq<string>>): seq<string> {
    if rows == [] then [] else [Join(Cells(rows[0]), ',')] + Lines(rows[1..])
  }

  /** `csv`: the headers are printed as they are, and the text ends with a line feed. */
  function Print(headers: seq<string>, rows: seq<seq<string>>): string {
    Join([Join(headers, ',')] + Lines(rows) + [""], '\n')
  }

  const SPECIALS := ['"', ',', '\n', '\r']

  /** A cell is printed as it is exactly when it has no comma, quote or line break, and otherwise between quotes. */
  lemma CellText(text: string)
    ensures CsvCell(text) == text <==> forall c :: c in text ==> c !in SPECIALS
    ensures CsvCell(text) != text ==>
              |CsvCell(text)| >= |text| + 2 && CsvCell(text)[0] == '"' && CsvCell(text)[|CsvCell(text)| - 1] == '"'
  {
    DoubledIsLonger(text);
    forall i | 0 <= i < |text| ensures IsSpecial(text[i]) <==> text[i] in SPECIALS {
      assert SPECIALS[0] == '"' && SPECIALS[1] == ',' && SPECIALS[2] == '\n' && SPECIALS[3] == '\r';
    }
    assert !IsPlain(text) ==> exists i :: 0 <= i < |text| && IsSpecial(text[i]) && text[i] in text;
  }

  lemma {:induction false} DoubledIsLonger(text: string)
    ensures |Doubled(text)| >= |text|
  {
    if text != "" {
      DoubledIsLonger(text[1..]);
    }
  }

  // ---------- Reading ----------

  /** A cell and what follows it. */
  datatype Scan<T> = Malformed | Scanned(value: T, rest: string)

  /** The inside of a quoted field, up to its closing quote. */
  function ReadQuoted(s: string): (r: Scan<string>)
    ensures r.Scanned? ==> |r.rest| < |s|
  {
    if s == "" then Malformed
    else if s[0] != '"' then
      match ReadQuoted(s[1..])
      case Malformed => Malformed
      case Scanned(v, rest) => Scanned([s[0]] + v, rest)
    else if |s| > 1 && s[1] == '"' then
      match ReadQuoted(s[2..])
      case Malformed => Malformed
      case Scanned(v, rest) => Scanned("\"" + v, rest)
    else Scanned("", s[1..])
  }

  function ReadPlain(s: string): (r: Scan<string>)
    ensures r.Scanned? ==> |r.rest| <= |s|
  {
    if s == "" || s[0] == ',' || s[0] == '\n' then Scanned("", s)
    else if IsSpecial(s[0]) then Malformed
    else
      match ReadPlain(s[1..])
      case Malformed => Malformed
      case Scanned(v, rest) => Scanned([s[0]] + v, rest)
  }

  function ReadCell(s: string): (r: Scan<string>)
    ensures r.Scanned? ==> |r.rest| <= |s|
  {
    if s != "" && s[0] == '"' then ReadQuoted(s[1..]) else ReadPlain(s)
  }

  /** The fields of one record; the line feed that ends it is consumed. */
  function ReadRecord(s: string): (r: Scan<seq<string>>)
    ensures r.Scanned? ==> |r.rest| <= |s| && (s != "" ==> |r.rest| < |s|)
    decreases |s|
  {
    match ReadCell(s)
    case Malformed => Malformed
    case Scanned(cell, rest) =>
      if rest == "" then Scanned([cell], "")
      else if rest[0] == '\n' then Scanned([cell], rest[1..])
      else if rest[0] == ',' then
        match ReadRecord(rest[1..])
        case Malformed => Malformed
        case Scanned(cells, after) => Scanned([cell] + cells, after)
      else Malformed
  }

  function ReadTable(s: string): Option<seq<seq<string>>>
    decreases |s|
  {
    if s == "" then Some([])
    else
      match ReadRecord(s)
      case Malformed => None
      case Scanned(record, rest) =>
        match ReadTable(rest)
        case None => None
        case Some(records) => Some([record] + records)
  }

  // ---------- Round trip ----------

  /** What may follow a field. */
  predicate EndsField(rest: string) { rest == "" || rest[0] == ',' || rest[0] == '\n' }

  lemma {:induction false} QuotedRoundTrip(text: string, rest: string)
    requires EndsField(rest)
    ensures ReadQuoted(Doubled(text) + "\"" + rest) == Scanned(text, rest)
  {
    var s := Doubled(text) + "\"" + rest;
    if text == "" {
      assert s == "\"" + rest;
    } else {
      QuotedRoundTrip(text[1..], rest);
      var tail := Doubled(text[1..]) + "\"" + rest;
      assert text == [text[0]] + text[1..];
      if text[0] == '"' {
        assert Doubled(text) == ['"', '"'] + Doubled(text[1..]);
        assert s == ['"', '"'] + tail && s[2..] == tail;
      } else {
        assert Doubled(text) == [text[0]] + Doubled(text[1..]);
        assert s == [text[0]] + tail && s[1..] == tail;
      }
    }
  }

  lemma {:induction false} PlainRoundTrip(text: string, rest: string)
    requires IsPlain(text) && EndsField(rest)
    ensures ReadPlain(text + rest) == Scanned(text, rest)
  {
    if text == "" {
      assert text + rest == rest;
    } else {
      PlainRoundTrip(text[1..], rest);
      assert text == [text[0]] + text[1..];
      assert (text + rest)[1..] == text[1..] + rest;
    }
  }

  lemma CellRoundTrip(text: string, rest: string)
    requires EndsField(rest)
    ensures ReadCell(CsvCell(text) + rest) == Scanned(text, rest)
  {
    if IsPlain(text) {
      PlainCellRead(text, rest);
    } else {
      QuotedCellRead(text, rest);
    }
  }

  lemma QuotedCellRead(text: string, rest: string)
    requires EndsField(rest)
    ensures ReadCell("\"" + Doubled(text) + "\"" + rest) == Scanned(text, rest)
  {
    QuotedRoundTrip(text, rest);
    var inner := Doubled(text) + "\"" + rest;
    assert "\"" + Doubled(text) + "\"" + rest == ['"'] + inner && (['"'] + inner)[1..] == inner;
  }

  lemma PlainCellRead(text: string, rest: string)
    requires IsPlain(text) && EndsField(rest)
    ensures ReadCell(text + rest) == Scanned(text, rest)
  {
    PlainRoundTrip(text, rest);
    if text == "" {
      assert text + rest == rest;
    } else {
      assert (text + rest)[0] == text[0];
    }
  }

  lemma {:induction false} RowRoundTrip(row: seq<string>, rest: string)
    requires row != []
    ensures ReadRecord(Join(Cells(row), ',') + "\n" + rest) == Scanned(row, rest)
  {
    var s := Join(Cells(row), ',') + "\n" + rest;
    if |row| == 1 {
      assert s == CsvCell(row[0]) + ("\n" + rest);
      assert row == [row[0]] && ("\n" + rest)[1..] == rest;
      CellRoundTrip(row[0], "\n" + rest);
    } else {
      var tail := Join(Cells(row[1..]), ',') + "\n" + rest;
      assert s == CsvCell(row[0]) + ("," + tail);
      CellRoundTrip(row[0], "," + tail);
      RowRoundTrip(row[1..], rest);
      assert row == [row[0]] + row[1..];
    }
  }

  /** A row without cells prints like a row with one empty cell. */
  function AsRead(row: seq<string>): seq<string> { if row == [] then [""] else row }

  function AllAsRead(rows: seq<seq<string>>): (r: seq<seq<string>>)
    ensures (forall i :: 0 <= i < |rows| ==> rows[i] != []) ==> r == rows
    ensures r == rows ==> forall i :: 0 <= i < |rows| ==> rows[i] != []
  {
    if rows == [] then []
    else
      var r := [AsRead(rows[0])] + AllAsRead(rows[1..]);
      assert r[1..] == AllAsRead(rows[1..]) && r[0] == AsRead(rows[0]);
      r
  }

  lemma {:induction false} LinesRoundTrip(rows: seq<seq<string>>)
    ensures ReadTable(Join(Lines(rows) + [""], '\n')) == Some(AllAsRead(rows))
  {
    if rows != [] {
      var line := Join(Cells(rows[0]), ',');
      var tail := Join(Lines(rows[1..]) + [""], '\n');
      assert Lines(rows) + [""] == [line] + (Lines(rows[1..]) + [""]);
      assert Join(Lines(rows) + [""], '\n') == line + "\n" + tail;
      if rows[0] == [] {
        assert line + "\n" + tail == Join(Cells([""]), ',') + "\n" + tail;
        RowRoundTrip([""], tail);
      } else {
        RowRoundTrip(rows[0], tail);
      }
      LinesRoundTrip(rows[1..]);
    }
  }

  predicate AllPlain(headers: seq<string>) { forall i :: 0 <= i < |headers| ==> IsPlain(headers[i]) }

  lemma {:induction false} PlainCells(headers: seq<string>)
    requires AllPlain(headers)
    ensures Cells(headers) == headers
  {
    if headers != [] {
      PlainCells(headers[1..]);
    }
  }

  // ---------- Headers are not quoted ----------

  lemma {:induction false} QuotedReadsWhatWasWritten(s: string)
    requires ReadQuoted(s).Scanned?
    ensures s == Doubled(ReadQuoted(s).value) + "\"" + ReadQuoted(s).rest
  {
    if s[0] != '"' {
      QuotedReadsWhatWasWritten(s[1..]);
    } else if |s| > 1 && s[1] == '"' {
      QuotedReadsWhatWasWritten(s[2..]);
    }
  }

  lemma {:induction false} PlainReadsPlain(s: string)
    requires ReadPlain(s).Scanned?
    ensures IsPlain(ReadPlain(s).value)
  {
    if s != "" && !IsSpecial(s[0]) {
      PlainReadsPlain(s[1..]);
    }
  }

  function LeadingQuotes(s: string): nat {
    if s != "" && s[0] == '"' then 1 + LeadingQuotes(s[1..]) else 0
  }

  lemma {:induction false} LeadingQuotesStop(u: string, c: char, t: string)
    requires c != '"'
    ensures LeadingQuotes(u + [c] + t) == LeadingQuotes(u)
  {
    if u != "" {
      LeadingQuotesStop(u[1..], c, t);
      assert (u + [c] + t)[1..] == u[1..] + [c] + t;
    }
  }

  lemma {:induction false} LeadingQuotesDouble(u: string, x: string)
    ensures LeadingQuotes(Doubled(u) + x) >= 2 * LeadingQuotes(u)
  {
    if u != "" && u[0] == '"' {
      LeadingQuotesDouble(u[1..], x);
      var tail := Doubled(u[1..]) + x;
      assert Doubled(u) + x == "\"\"" + tail;
      assert (Doubled(u) + x)[1..] == "\"" + tail && ("\"" + tail)[1..] == tail;
    }
  }

  /** A header printed raw is read back as itself only if it is plain. */
  lemma RawCellReadBack(h: string, c: char, t: string)
    requires c != '"' && ReadCell(h + [c] + t).Scanned? && ReadCell(h + [c] + t).value == h
    ensures IsPlain(h)
  {
    var s := h + [c] + t;
    if s[0] == '"' {
      assert LeadingQuotes(s) == 1 + LeadingQuotes(s[1..]);
      QuotedReadsWhatWasWritten(s[1..]);
      var rest := ReadCell(s).rest;
      assert s[1..] == Doubled(h) + "\"" + rest;
      assert s[1..] == Doubled(h) + ("\"" + rest);
      LeadingQuotesDouble(h, "\"" + rest);
      LeadingQuotesStop(h, c, t);
    } else {
      PlainReadsPlain(s);
    }
  }

  lemma FirstRawHeader(h: string, rest: string, others: seq<string>)
    requires others != []
    requires ReadRecord(h + [','] + rest).Scanned? && ReadRecord(h + [','] + rest).value == [h] + others
    ensures IsPlain(h) && ReadRecord(rest).Scanned? && ReadRecord(rest).value == others
  {
    var s := h + [','] + rest;
    assert ReadCell(s).Scanned? && ReadCell(s).value == ReadRecord(s).value[0];
    RawCellReadBack(h, ',', rest);
    CellRoundTrip(h, [','] + rest);
    assert s == h + ([','] + rest) && ([','] + rest)[1..] == rest;
    assert ReadRecord(s).value[1..] == others;
  }

  lemma {:induction false} RawHeadersReadBack(headers: seq<string>, tail: string)
    requires headers != [] && ReadRecord(Join(headers, ',') + "\n" + tail).Scanned?
    requires ReadRecord(Join(headers, ',') + "\n" + tail).value == headers
    ensures AllPlain(headers)
  {
    var s := Join(headers, ',') + "\n" + tail;
    if |headers| == 1 {
      assert s == headers[0] + ['\n'] + tail;
      RawCellReadBack(headers[0], '\n', tail);
    } else {
      var rest := Join(headers[1..], ',') + "\n" + tail;
      assert s == headers[0] + [','] + rest;
      FirstRawHeader(headers[0], rest, headers[1..]);
      RawHeadersReadBack(headers[1..], tail);
    }
  }

  // ---------- The table ----------

  /**
   * Reading a printed table gives back its headers and rows, whatever the cells, exactly when no header holds a
   * comma, a quote or a line break.
   */
  lemma PrintRoundTrip(headers: seq<string>, rows: seq<seq<string>>)
    requires headers != []
    ensures ReadTable(Print(headers, rows)) == Some([headers] + AllAsRead(rows)) <==> AllPlain(headers)
  {
    if AllPlain(headers) {
      PlainCells(headers);
      LinesRoundTrip([headers] + rows);
      assert ([headers] + rows)[1..] == rows;
      assert Lines([headers] + rows) == [Join(headers, ',')] + Lines(rows);
      assert AllAsRead([headers] + rows) == [headers] + AllAsRead(rows);
    } else if ReadTable(Print(headers, rows)) == Some([headers] + AllAsRead(rows)) {
      assert ([Join(headers, ',')] + Lines(rows) + [""])[1..] == Lines(rows) + [""];
      var (s, tail) := (Print(headers, rows), Join(Lines(rows) + [""], '\n'));
      var records := [headers] + AllAsRead(rows);
      assert records[0] == headers && ReadRecord(s).value == records[0];
      RawHeadersReadBack(headers, tail);
    }
  }

  /** Two tables with plain headers and no empty row print the same text only if they are the same, headers and all. */
  lemma PrintInjective(headers: seq<string>, rows: seq<seq<string>>, headers': seq<string>, rows': seq<seq<string>>)
    requires headers != [] && AllPlain(headers) && headers' != [] && AllPlain(headers')
    requires (forall i :: 0 <= i < |rows| ==> rows[i] != []) && (forall i :: 0 <= i < |rows'| ==> rows'[i] != [])
    requires Print(headers, rows) == Print(headers', rows')
    ensures headers == headers' && rows == rows'
  {
    PrintRoundTrip(headers, rows);
    PrintRoundTrip(headers', rows');
    assert ([headers] + rows)[0] == headers && ([headers'] + rows')[0] == headers';
    assert ([headers] + rows)[1..] == rows && ([headers'] + rows')[1..] == rows';
  }
}
