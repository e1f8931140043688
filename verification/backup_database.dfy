/**
 * The backup script: the timestamp it puts in the file names, the encoding of
 * one column value as a T-SQL literal, the INSERT line per Vendor row, the
 * layout of the SQL script, and which resources are released on each path.
 * The JSON file is `JSON.stringify` of the rows and is not modelled.
 */
module BackupDatabase {
  import opened Wrappers
  import opened JsText
  import opened JsValue

  // ---------------------------------------------------------------------
  // The timestamp in the file names
  // ---------------------------------------------------------------------

  /** `.replace(/[:.]/g, '-')`. */
  function SanitizeChar(c: char): char {
    if c == ':' || c == '.' then '-' else c
  }

  function SanitizeTimestamp(iso: string): (r: string)
    ensures |r| == |iso|
    ensures forall i :: 0 <= i < |iso| ==> r[i] == SanitizeChar(iso[i])
  {
    seq(|iso|, i requires 0 <= i < |iso| => SanitizeChar(iso[i]))
  }

  /** No ':' or '.' is left, and every other character stays where it was. */
  lemma SanitizeFacts(iso: string)
    ensures var r := SanitizeTimestamp(iso);
            && (forall i :: 0 <= i < |r| ==> r[i] != ':' && r[i] != '.')
            && (forall i :: 0 <= i < |iso| && iso[i] != ':' && iso[i] != '.' ==> r[i] == iso[i])
            && SanitizeTimestamp(r) == r
  {
  }

  /** An ISO timestamp keeps its date and loses the separators of its time. */
  lemma SanitizeExample()
    ensures SanitizeTimestamp("2024-01-02T03:04:05.678Z") == "2024-01-02T03-04-05-678Z"
  {
  }

  /** `vendor-backup-${timestamp}.json` and `.sql`. */
  function BackupFileName(timestamp: string, extension: string): string {
    "vendor-backup-" + timestamp + "." + extension
  }

  // ---------------------------------------------------------------------
  // Quote doubling
  // ---------------------------------------------------------------------

  /** The number of occurrences of `c` in `s`. */
  function Occurrences(s: string, c: char): nat {
    if |s| == 0 then 0 else (if s[0] == c then 1 else 0) + Occurrences(s[1..], c)
  }

  /** `s.replace(/'/g, "''")`. */
  function Escape(s: string): (r: string)
    ensures |r| == |s| + Occurrences(s, '\'')
  {
    if |s| == 0 then ""
    else (if s[0] == '\'' then "''" else [s[0]]) + Escape(s[1..])
  }

  /** Undoubling: each `''` reads as one quote; a lone quote is not allowed. */
  function Unescape(t: string): Option<string>
    decreases |t|
  {
    if |t| == 0 then Some("")
    else if t[0] == '\'' then
      if |t| >= 2 && t[1] == '\'' then
        match Unescape(t[2..])
        case None => None
        case Some(u) => Some("'" + u)
      else None
    else
      match Unescape(t[1..])
      case None => None
      case Some(u) => Some([t[0]] + u)
  }

  /** Undoubling the doubled text gives the original back. */
  lemma {:induction false} UnescapeEscape(s: string)
    ensures Unescape(Escape(s)) == Some(s)
    decreases |s|
  {
    if |s| > 0 {
      UnescapeEscape(s[1..]);
      var rest := Escape(s[1..]);
      if s[0] == '\'' {
        assert Escape(s) == "''" + rest;
        assert ("''" + rest)[2..] == rest;
      } else {
        assert Escape(s) == [s[0]] + rest;
        assert ([s[0]] + rest)[1..] == rest;
      }
      assert s == [s[0]] + s[1..];
    }
  }

  /** Different texts never double to the same text. */
  lemma EscapeInjective(a: string, b: string)
    requires Escape(a) == Escape(b)
    ensures a == b
  {
    UnescapeEscape(a);
    UnescapeEscape(b);
  }

  /** How T-SQL reads a string literal after its opening quote: `''` is a
      quote in the value, a lone `'` ends it.  The result is the value and
      the number of characters consumed, closing quote included. */
  function ScanQuoted(t: string): Option<(string, nat)>
    decreases |t|
  {
    if |t| == 0 then None
    else if t[0] == '\'' then
      if |t| >= 2 && t[1] == '\'' then
        match ScanQuoted(t[2..])
        case None => None
        case Some((u, n)) => Some(("'" + u, n + 2))
      else Some(("", 1))
    else
      match ScanQuoted(t[1..])
      case None => None
      case Some((u, n)) => Some(([t[0]] + u, n + 1))
  }

  /** A doubled text followed by a quote reads back as the original value,
      and the literal ends exactly at that quote: nothing after it, such as
      the next value, can become part of the string. */
  lemma ScanEscaped(s: string, rest: string)
    requires |rest| == 0 || rest[0] != '\''
    ensures ScanQuoted(Escape(s) + "'" + rest) == Some((s, |Escape(s)| + 1))
  {
    var t := "'" + rest;
    assert ScanQuoted(t) == Some(("", 1));
    ScanAfterEscape(s, t, "", 1);
    assert Escape(s) + "'" + rest == Escape(s) + t;
    assert s + "" == s;
  }

  /** Scanning a doubled text reads the original value and passes on to what
      follows. */
  lemma {:induction false} ScanAfterEscape(s: string, t: string, u: string, n: nat)
    requires ScanQuoted(t) == Some((u, n))
    ensures ScanQuoted(Escape(s) + t) == Some((s + u, |Escape(s)| + n))
    decreases |s|
  {
    if |s| == 0 {
      assert Escape(s) + t == t;
      assert s + u == u;
    } else {
      ScanAfterEscape(s[1..], t, u, n);
      if s[0] == '\'' {
        ScanQuoteStep(s, t, u, n);
      } else {
        ScanPlainStep(s, t, u, n);
      }
    }
  }

  lemma ScanQuoteStep(s: string, t: string, u: string, n: nat)
    requires |s| > 0 && s[0] == '\''
    requires ScanQuoted(Escape(s[1..]) + t) == Some((s[1..] + u, |Escape(s[1..])| + n))
    ensures ScanQuoted(Escape(s) + t) == Some((s + u, |Escape(s)| + n))
  {
    EscapeAppend(s, t);
    ScanPair(Escape(s[1..]) + t, s[1..] + u, |Escape(s[1..])| + n);
    assert "'" + (s[1..] + u) == s + u;
  }

  lemma ScanPlainStep(s: string, t: string, u: string, n: nat)
    requires |s| > 0 && s[0] != '\''
    requires ScanQuoted(Escape(s[1..]) + t) == Some((s[1..] + u, |Escape(s[1..])| + n))
    ensures ScanQuoted(Escape(s) + t) == Some((s + u, |Escape(s)| + n))
  {
    EscapeAppend(s, t);
    ScanPlain(s[0], Escape(s[1..]) + t, s[1..] + u, |Escape(s[1..])| + n);
    assert [s[0]] + (s[1..] + u) == s + u;
  }

  /** The first character's doubling, then the rest. */
  lemma EscapeAppend(s: string, t: string)
    requires |s| > 0
    ensures var h := if s[0] == '\'' then "''" else [s[0]];
            && Escape(s) + t == h + (Escape(s[1..]) + t)
            && |Escape(s)| == |h| + |Escape(s[1..])|
  {
  }

  lemma ScanPair(tail: string, u: string, n: nat)
    requires ScanQuoted(tail) == Some((u, n))
    ensures ScanQuoted("''" + tail) == Some(("'" + u, n + 2))
  {
    assert ("''" + tail)[2..] == tail;
  }

  lemma ScanPlain(c: char, tail: string, u: string, n: nat)
    requires c != '\'' && ScanQuoted(tail) == Some((u, n))
    ensures ScanQuoted([c] + tail) == Some(([c] + u, n + 1))
  {
    assert ([c] + tail)[1..] == tail;
  }

  // ---------------------------------------------------------------------
  // Column values as literals
  // ---------------------------------------------------------------------

  /** A value of `recordset`: a JSON-like value, or a `Date` with its `toISOString()`. */
  datatype ColumnValue = Plain(v: Value) | DateValue(iso: string)

  /** What counts as a T-SQL literal here: `NULL`, a quoted string that ends
      at its last character, or an optionally negative run of digits. */
  predicate IsSqlLiteral(t: string) {
    || t == "NULL"
    || (|t| >= 2 && t[0] == '\'' && ScanQuoted(t[1..]).Some? && ScanQuoted(t[1..]).value.1 == |t| - 1)
    || (|t| >= 1 && AllDigits(t))
    || (|t| >= 2 && t[0] == '-' && AllDigits(t[1..]))
  }

  /** The mapping callback as written: null, strings and dates are encoded,
      anything else is returned as it is and printed by `join`. */
  function EncodeAsWritten(c: ColumnValue): (r: string)
    ensures c.Plain? && c.v.Null? ==> r == "NULL"
    ensures c.Plain? && c.v.Str? ==> r == "'" + Escape(c.v.s) + "'"
    ensures c.DateValue? ==> r == "'" + c.iso + "'"
    ensures c.Plain? && c.v.Bool? ==> r == (if c.v.b then "true" else "false")
    ensures c.Plain? && c.v.Num? ==> r == IntToDecimal(c.v.n)
  {
    match c
    case Plain(Null) => "NULL"
    case Plain(Str(s)) => "'" + Escape(s) + "'"
    case DateValue(iso) => "'" + iso + "'"
    case Plain(v) => ToText(v)
  }

  /** A `bit` column arrives as a boolean and is printed as `true`, which
      T-SQL reads as a column name, not a value. */
  lemma BooleanIsNotALiteral()
    ensures EncodeAsWritten(Plain(Bool(true))) == "true"
    ensures !IsSqlLiteral(EncodeAsWritten(Plain(Bool(true))))
  {
  }

  /** The corrected encoder: booleans are written as the `bit` literals 1
      and 0, every other value as the script writes it. */
  function Encode(c: ColumnValue): (r: string)
    ensures c.Plain? && c.v.Str? ==> r == "'" + Escape(c.v.s) + "'"
    ensures c.Plain? && c.v.Null? ==> r == "NULL"
    ensures c.DateValue? ==> r == "'" + c.iso + "'"
    ensures c.Plain? && c.v.Bool? ==> r == (if c.v.b then "1" else "0")
    ensures !(c.Plain? && c.v.Bool?) ==> r == EncodeAsWritten(c)
  {
    match c
    case Plain(Bool(b)) => if b then "1" else "0"
    case _ => EncodeAsWritten(c)
  }

  /** Every value encodes as a literal (a date's ISO text holds no quote). */
  lemma {:induction false} EncodeIsLiteral(c: ColumnValue)
    requires c.DateValue? ==> '\'' !in c.iso
    ensures IsSqlLiteral(Encode(c))
  {
    match c
    case Plain(Str(s)) =>
      var t := Encode(c);
      ScanEscaped(s, "");
      assert t[1..] == Escape(s) + "'" + "";
    case DateValue(iso) =>
      var t := Encode(c);
      NoQuoteEscape(iso);
      ScanEscaped(iso, "");
      assert t[1..] == Escape(iso) + "'" + "";
    case Plain(Num(n)) =>
      if n < 0 {
        assert IntToDecimal(n)[1..] == NatToDecimal(-n);
      }
    case Plain(Bool(b)) =>
    case Plain(Null) =>
  }

  /** A text without quotes doubles to itself. */
  lemma {:induction false} NoQuoteEscape(s: string)
    requires '\'' !in s
    ensures Escape(s) == s
    decreases |s|
  {
    if |s| > 0 {
      assert '\'' !in s[1..] by {
        assert forall i :: 0 <= i < |s[1..]| ==> s[1..][i] == s[i + 1];
      }
      NoQuoteEscape(s[1..]);
      assert s == [s[0]] + s[1..];
    }
  }

  /** A string value reads back from its literal, whatever quotes it holds. */
  lemma StringRoundTrip(s: string)
    ensures var t := EncodeAsWritten(Plain(Str(s)));
            t[0] == '\'' && ScanQuoted(t[1..]) == Some((s, |t| - 1))
  {
    ScanEscaped(s, "");
    assert EncodeAsWritten(Plain(Str(s)))[1..] == Escape(s) + "'" + "";
  }

  // ---------------------------------------------------------------------
  // The script
  // ---------------------------------------------------------------------

  /** `Object.values(row).map(...).join(', ')`, with the callback as written. */
  function ValuesList(row: seq<ColumnValue>): string {
    Join(seq(|row|, i requires 0 <= i < |row| => EncodeAsWritten(row[i])), ", ")
  }

  function InsertLine(row: seq<ColumnValue>): string {
    "INSERT INTO Vendor VALUES (" + ValuesList(row) + ");\n"
  }

  /** The INSERT lines of the rows, in recordset order. */
  function Inserts(rows: seq<seq<ColumnValue>>): string {
    if |rows| == 0 then "" else InsertLine(rows[0]) + Inserts(rows[1..])
  }

  /** The first header comment. */
  function CreatedLine(createdOn: string): string {
    "-- Database backup created on " + createdOn + "\n"
  }

  /** The second header comment and the blank line; an unset variable is
      interpolated as `undefined`. */
  function DatabaseLine(database: Option<string>): string {
    "-- Database: " + database.GetOr("undefined") + "\n\n"
  }

  const TableSection := "-- Vendor table backup\nDELETE FROM Vendor;\n"

  /** The two header comments, a blank line, the table comment and the DELETE. */
  function ScriptHeader(createdOn: string, database: Option<string>): string {
    CreatedLine(createdOn) + (DatabaseLine(database) + TableSection)
  }

  function Script(createdOn: string, database: Option<string>, rows: seq<seq<ColumnValue>>): string {
    ScriptHeader(createdOn, database) + Inserts(rows)
  }

  /** The script is the header followed by exactly one INSERT line per row,
      in order: backing up two batches of rows appends their lines. */
  lemma {:induction false} InsertsAppend(a: seq<seq<ColumnValue>>, b: seq<seq<ColumnValue>>)
    ensures Inserts(a + b) == Inserts(a) + Inserts(b)
    decreases |a|
  {
    if |a| == 0 {
      assert a + b == b;
    } else {
      assert (a + b)[0] == a[0];
      assert (a + b)[1..] == a[1..] + b;
      InsertsAppend(a[1..], b);
    }
  }

  lemma ScriptStart(createdOn: string, database: Option<string>, rows: seq<seq<ColumnValue>>)
    ensures StartsWith(Script(createdOn, database, rows), CreatedLine(createdOn))
    ensures Script(createdOn, database, []) == ScriptHeader(createdOn, database)
  {
    var p := CreatedLine(createdOn);
    var w := (DatabaseLine(database) + TableSection) + Inserts(rows);
    assert Script(createdOn, database, rows) == p + w;
    assert (p + w)[..|p|] == p;
  }

  lemma ScriptAppend(createdOn: string, database: Option<string>, rows: seq<seq<ColumnValue>>, row: seq<ColumnValue>)
    ensures Script(createdOn, database, rows + [row]) == Script(createdOn, database, rows) + InsertLine(row)
  {
    InsertsAppend(rows, [row]);
    assert Inserts([row]) == InsertLine(row) + Inserts([]);
    var h := ScriptHeader(createdOn, database);
    assert h + (Inserts(rows) + InsertLine(row)) == (h + Inserts(rows)) + InsertLine(row);
  }

  /** The values of a row appear in column order, separated by ", ". */
  lemma ValuesListOrder(a: ColumnValue, rest: seq<ColumnValue>)
    requires |rest| > 0
    ensures ValuesList([a] + rest) == EncodeAsWritten(a) + ", " + ValuesList(rest)
  {
    var xs := seq(|[a] + rest|, i requires 0 <= i < |[a] + rest| => EncodeAsWritten(([a] + rest)[i]));
    assert xs[1..] == seq(|rest|, i requires 0 <= i < |rest| => EncodeAsWritten(rest[i]));
  }

  /** As written, a row holding a `bit` column backs up as an INSERT whose
      value is the bare word `true`. */
  lemma BooleanRowAsWritten()
    ensures InsertLine([Plain(Bool(true))]) == "INSERT INTO Vendor VALUES (true);\n"
  {
    assert seq(1, i requires 0 <= i < 1 => EncodeAsWritten([Plain(Bool(true))][i])) == ["true"];
  }

  // ---------------------------------------------------------------------
  // The run
  // ---------------------------------------------------------------------

  /** The step at which the run stops: connecting, reading the table, writing
      either file, or none. */
  datatype Failure = ConnectFailed | QueryFailed | JsonWriteFailed | SqlWriteFailed | NoFailure

  /** What the run leaves behind. */
  datatype RunResult = RunResult(exitCode: Option<int>, jsonWritten: bool, sqlWritten: bool, poolClosed: bool)

  /** The `catch` calls `process.exit(1)`, which ends the process at once, so
      the `finally` that closes the pool runs only on success. */
  function Run(failure: Failure): (r: RunResult)
    ensures r.exitCode.None? <==> failure == NoFailure
  {
    match failure
    case ConnectFailed => RunResult(Some(1), false, false, false)
    case QueryFailed => RunResult(Some(1), false, false, false)
    case JsonWriteFailed => RunResult(Some(1), false, false, false)
    case SqlWriteFailed => RunResult(Some(1), true, false, false)
    case NoFailure => RunResult(None, true, true, true)
  }

  /** The pool is closed exactly on success; the SQL script is only written
      after the JSON file. */
  lemma RunOutcomes(failure: Failure)
    ensures Run(failure).poolClosed <==> failure == NoFailure
    ensures Run(failure).sqlWritten ==> Run(failure).jsonWritten
    ensures Run(failure).exitCode.Some? ==> Run(failure).exitCode == Some(1)
  {
  }
}
