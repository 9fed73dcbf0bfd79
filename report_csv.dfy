// The CSV text of the report export in book-store-app/src/pages/ReportPage.jsx:
// every field wrapped in double quotes with inner quotes doubled (section 2,
// rule 7 of RFC 4180), fields joined by ',' and rows by '\n'. A reader for
// that text is given alongside, and reading the export back yields its rows.
module ReportCsv {
  import opened Wrappers
  import opened Text

  /** `.replace(/"/g, '""')`: every double quote doubled. */
  function Escape(v: string): (r: string)
    ensures |r| == |v| + Count(v, '"')
  {
    if v == [] then "" else (if v[0] == '"' then "\"\"" else [v[0]]) + Escape(v[1..])
  }

  /** A field as written: the escaped text between double quotes. */
  function Quote(v: string): string {
    "\"" + Escape(v) + "\""
  }

  function QuoteAll(row: seq<string>): (r: seq<string>)
    ensures |r| == |row|
  {
    if row == [] then [] else [Quote(row[0])] + QuoteAll(row[1..])
  }

  /** One CSV line: the quoted fields joined by ','. */
  function Line(row: seq<string>): string {
    Join(QuoteAll(row), ',')
  }

  function Lines(rows: seq<seq<string>>): (r: seq<string>)
    ensures |r| == |rows|
  {
    if rows == [] then [] else [Line(rows[0])] + Lines(rows[1..])
  }

  /** The whole export: the lines joined by '\n'. */
  function Csv(rows: seq<seq<string>>): string {
    Join(Lines(rows), '\n')
  }

  /**
   * Reads the inside of a quoted field up to its closing quote, turning each
   * doubled quote back into one; returns the text and what follows the
   * closing quote, or `None` when the closing quote is missing.
   */
  function Unescape(s: string): (r: Option<(string, string)>)
    ensures r.Some? ==> |r.value.1| < |s|
  {
    if s == [] then None
    else if s[0] == '"' then
      if |s| >= 2 && s[1] == '"' then
        match Unescape(s[2..])
        case None => None
        case Some((f, rest)) => Some(("\"" + f, rest))
      else Some(("", s[1..]))
    else
      match Unescape(s[1..])
      case None => None
      case Some((f, rest)) => Some(([s[0]] + f, rest))
  }

  /** Reads one quoted field from the front of `s`. */
  function Unquote(s: string): (r: Option<(string, string)>)
    ensures r.Some? ==> |r.value.1| < |s|
  {
    if s != [] && s[0] == '"' then Unescape(s[1..]) else None
  }

  /** Reads the ','-separated quoted fields of one line. */
  function Fields(s: string): (r: Option<(seq<string>, string)>)
    ensures r.Some? ==> |r.value.1| < |s|
    decreases |s|
  {
    match Unquote(s)
    case None => None
    case Some((f, rest)) =>
      if rest != [] && rest[0] == ',' then
        match Fields(rest[1..])
        case None => None
        case Some((fs, rest')) => Some(([f] + fs, rest'))
      else Some(([f], rest))
  }

  /** Reads one line: no fields when it is empty. */
  function ReadLine(s: string): (r: Option<(seq<string>, string)>)
    ensures r.Some? ==> |r.value.1| <= |s|
  {
    if s == [] || s[0] == '\n' then Some(([], s)) else Fields(s)
  }

  /** Reads the '\n'-separated lines of a whole text. */
  function ReadCsv(s: string): Option<seq<seq<string>>>
    decreases |s|
  {
    match ReadLine(s)
    case None => None
    case Some((row, rest)) =>
      if rest == [] then Some([row])
      else if rest[0] == '\n' then
        match ReadCsv(rest[1..])
        case None => None
        case Some(rows) => Some([row] + rows)
      else None
  }

  /** How `Escape` writes one character: a quote doubled, anything else as itself. */
  function EscapeChar(c: char): string {
    if c == '"' then "\"\"" else [c]
  }

  lemma {:induction false} EscapeFirst(v: string, rest: string)
    requires v != []
    ensures Escape(v) + "\"" + rest == EscapeChar(v[0]) + (Escape(v[1..]) + "\"" + rest)
  {
  }

  /** A written character reads back as itself in front of what follows it. */
  lemma {:induction false} UnescapeChar(c: char, tail: string, f: string, rest: string)
    requires Unescape(tail) == Some((f, rest))
    ensures Unescape(EscapeChar(c) + tail) == Some(([c] + f, rest))
  {
    var s := EscapeChar(c) + tail;
    if c == '"' {
      assert s[0] == '"' && s[1] == '"' && s[2..] == tail;
    } else {
      assert s[0] == c && s[1..] == tail;
    }
  }

  /** The closing quote alone ends an empty field. */
  lemma {:induction false} UnescapeClosing(rest: string)
    requires rest == [] || rest[0] != '"'
    ensures Unescape(Escape([]) + "\"" + rest) == Some(([], rest))
  {
    var s := "\"" + rest;
    assert Escape([]) + "\"" + rest == s;
    assert s[1..] == rest;
  }

  /** The escaped text followed by a closing quote reads back as the text. */
  lemma {:induction false} UnescapeEscape(v: string, rest: string)
    requires rest == [] || rest[0] != '"'
    ensures Unescape(Escape(v) + "\"" + rest) == Some((v, rest))
    decreases |v|
  {
    if v == [] {
      UnescapeClosing(rest);
    } else {
      UnescapeEscape(v[1..], rest);
      EscapeFirst(v, rest);
      UnescapeChar(v[0], Escape(v[1..]) + "\"" + rest, v[1..], rest);
      assert [v[0]] + v[1..] == v;
    }
  }

  /** Unquoting a quoted field recovers the original string. */
  lemma {:induction false} UnquoteQuote(v: string, rest: string)
    requires rest == [] || rest[0] != '"'
    ensures Unquote(Quote(v) + rest) == Some((v, rest))
  {
    var s := Quote(v) + rest;
    assert s[1..] == Escape(v) + "\"" + rest;
    UnescapeEscape(v, rest);
  }

  /** A line of two or more fields is the first field, a comma and the line of the others. */
  lemma {:induction false} LineSplit(row: seq<string>)
    requires |row| > 1
    ensures Line(row) == Quote(row[0]) + "," + Line(row[1..])
  {
    assert QuoteAll(row)[1..] == QuoteAll(row[1..]);
  }

  /** The last field of a line reads back alone. */
  lemma {:induction false} FieldsLast(v: string, rest: string)
    requires rest == [] || rest[0] == '\n'
    ensures Fields(Quote(v) + rest) == Some(([v], rest))
  {
    UnquoteQuote(v, rest);
  }

  /** A field followed by a comma reads back in front of the fields after the comma. */
  lemma {:induction false} FieldsNext(v: string, tail: string, fs: seq<string>, rest: string)
    requires Fields(tail) == Some((fs, rest))
    ensures Fields(Quote(v) + ("," + tail)) == Some(([v] + fs, rest))
  {
    UnquoteQuote(v, "," + tail);
    assert ("," + tail)[0] == ',' && ("," + tail)[1..] == tail;
  }

  /** A line of one field reads back as that field. */
  lemma {:induction false} FieldsOne(row: seq<string>, rest: string)
    requires |row| == 1
    requires rest == [] || rest[0] == '\n'
    ensures Fields(Line(row) + rest) == Some((row, rest))
  {
    assert Line(row) == Quote(row[0]);
    FieldsLast(row[0], rest);
    assert [row[0]] == row;
  }

  /** A line of two or more fields, and what follows it, split after the first field's comma. */
  lemma {:induction false} LineRestSplit(row: seq<string>, rest: string)
    requires |row| > 1
    ensures Line(row) + rest == Quote(row[0]) + ("," + (Line(row[1..]) + rest))
  {
    LineSplit(row);
  }

  /** A line of one or more fields followed by a line break or the end reads back as its fields. */
  lemma {:induction false} FieldsLine(row: seq<string>, rest: string)
    requires |row| >= 1
    requires rest == [] || rest[0] == '\n'
    ensures Fields(Line(row) + rest) == Some((row, rest))
    decreases |row|
  {
    if |row| == 1 {
      FieldsOne(row, rest);
    } else {
      FieldsLine(row[1..], rest);
      LineRestSplit(row, rest);
      FieldsNext(row[0], Line(row[1..]) + rest, row[1..], rest);
      assert [row[0]] + row[1..] == row;
    }
  }

  /** A line of one or more fields starts with the first field's opening quote. */
  lemma {:induction false} LineStart(row: seq<string>)
    requires row != []
    ensures Line(row) != [] && Line(row)[0] == '"'
  {
    var q := QuoteAll(row);
    assert q[0] == Quote(row[0]);
    if |row| > 1 {
      assert Line(row) == q[0] + [','] + Join(q[1..], ',');
    }
  }

  /** A written line, an empty one included, reads back as its row. */
  lemma {:induction false} ReadLineLine(row: seq<string>, rest: string)
    requires rest == [] || rest[0] == '\n'
    ensures ReadLine(Line(row) + rest) == Some((row, rest))
  {
    if row == [] {
      assert Line(row) + rest == rest;
    } else {
      LineStart(row);
      var s := Line(row) + rest;
      assert s[0] == '"';
      FieldsLine(row, rest);
    }
  }

  /** An export of two or more rows is the first line, a line break and the export of the others. */
  lemma {:induction false} CsvSplit(rows: seq<seq<string>>)
    requires |rows| > 1
    ensures Csv(rows) == Line(rows[0]) + ("\n" + Csv(rows[1..]))
  {
    assert Lines(rows)[1..] == Lines(rows[1..]);
  }

  /** A line followed by a line break reads back in front of the rows after it. */
  lemma {:induction false} ReadCsvNext(row: seq<string>, tail: string, rows: seq<seq<string>>)
    requires ReadCsv(tail) == Some(rows)
    ensures ReadCsv(Line(row) + ("\n" + tail)) == Some([row] + rows)
  {
    ReadLineLine(row, "\n" + tail);
    assert ("\n" + tail)[0] == '\n' && ("\n" + tail)[1..] == tail;
  }

  /** Reading the export back yields exactly its rows (an export always has a row). */
  lemma {:induction false} CsvRoundTrip(rows: seq<seq<string>>)
    requires |rows| >= 1
    ensures ReadCsv(Csv(rows)) == Some(rows)
    decreases |rows|
  {
    if |rows| == 1 {
      assert Csv(rows) == Line(rows[0]) + "";
      ReadLineLine(rows[0], "");
      assert [rows[0]] == rows;
    } else {
      CsvSplit(rows);
      CsvRoundTrip(rows[1..]);
      ReadCsvNext(rows[0], Csv(rows[1..]), rows[1..]);
      assert [rows[0]] + rows[1..] == rows;
    }
  }

  /** A written field starts and ends with a quote, and holds no quote that is not doubled. */
  lemma {:induction false} QuoteShape(v: string)
    ensures Quote(v)[0] == '"' && Quote(v)[|Quote(v)| - 1] == '"'
    ensures |Quote(v)| == |v| + Count(v, '"') + 2
    ensures '"' !in v ==> Quote(v) == "\"" + v + "\""
  {
    if '"' !in v {
      EscapeNoQuote(v);
    }
  }

  lemma {:induction false} EscapeNoQuote(v: string)
    requires '"' !in v
    ensures Escape(v) == v
    decreases |v|
  {
    if v != [] {
      assert forall c :: c in v[1..] ==> c in v;
      EscapeNoQuote(v[1..]);
      assert [v[0]] + v[1..] == v;
    }
  }
}
