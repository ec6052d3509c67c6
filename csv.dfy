/**
 * The CSV export: a byte-order mark, a header line of the first row's keys, then one line per row
 * with each value quoted as in section 2 (rules 6 and 7) of RFC 4180, lines joined by CR LF.
 * Values reach the serialiser already rendered by `String(v)`; null and undefined are `None`.
 */
module Csv {
  import opened Common
  import opened JsText

  /** One property of a row object, in the object's key order. */
  datatype Field = Field(key: string, value: Option<string>)

  type Row = seq<Field>

  const BOM: string := "\U{FEFF}"
  const CRLF: string := "\r\n"

  /** `r[h]`: the value under a key; a key the object does not have reads as undefined. */
  function Lookup(row: Row, key: string): Option<string>
    decreases |row|
  {
    if row == [] then None
    else if row[0].key == key then row[0].value
    else Lookup(row[1..], key)
  }

  /** `Object.keys(row)`. A row's values may be null, so a row is not a list of query parameters
      and this projection is kept apart from the one over parameters. */
  function Keys(row: Row): (ks: seq<string>)
    ensures |ks| == |row|
    ensures forall k :: 0 <= k < |row| ==> ks[k] == row[k].key
  {
    seq(|row|, k requires 0 <= k < |row| => row[k].key)
  }

  /** `String(v ?? "")`. */
  function Cell(v: Option<string>): string {
    v.GetOr("")
  }

  /** The characters that force a value into quotes. A carriage return is not one of them. */
  predicate NeedsQuoting(s: string) {
    ',' in s || '"' in s || '\n' in s
  }

  /** `s.replace(/"/g, '""')`. */
  function DoubleQuotes(s: string): (r: string)
    ensures |r| >= |s|
    decreases |s|
  {
    if s == [] then []
    else (if s[0] == '"' then "\"\"" else [s[0]]) + DoubleQuotes(s[1..])
  }

  /** `escape`: a value that needs quoting is wrapped in quotes with its quotes doubled; any
      other value is written as it is. */
  function Escape(s: string): (r: string)
    ensures !NeedsQuoting(s) ==> r == s
    ensures NeedsQuoting(s) ==> |r| >= 2 && r[0] == '"' && r[|r| - 1] == '"'
  {
    if NeedsQuoting(s) then "\"" + DoubleQuotes(s) + "\"" else s
  }

  /** The cells of one row under the header keys: a missing key or a null value gives "". */
  function CellsOf(headers: seq<string>, row: Row): (cells: seq<string>)
    ensures |cells| == |headers|
    ensures forall k :: 0 <= k < |headers| ==> cells[k] == Cell(Lookup(row, headers[k]))
  {
    seq(|headers|, k requires 0 <= k < |headers| => Cell(Lookup(row, headers[k])))
  }

  function EscapeAll(cells: seq<string>): (r: seq<string>)
    ensures |r| == |cells|
    ensures forall k :: 0 <= k < |cells| ==> r[k] == Escape(cells[k])
  {
    seq(|cells|, k requires 0 <= k < |cells| => Escape(cells[k]))
  }

  function RowLine(headers: seq<string>, row: Row): string {
    Join(EscapeAll(CellsOf(headers, row)), ",")
  }

  /** The header line followed by one line per row. */
  function Lines(rows: seq<Row>): (lines: seq<string>)
    requires rows != []
    ensures |lines| == |rows| + 1
    ensures lines[0] == Join(Keys(rows[0]), ",")
    ensures forall k :: 0 <= k < |rows| ==> lines[k + 1] == RowLine(Keys(rows[0]), rows[k])
  {
    var headers := Keys(rows[0]);
    [Join(headers, ",")] + seq(|rows|, k requires 0 <= k < |rows| => RowLine(headers, rows[k]))
  }

  /** `toCsv`. */
  function ToCsv(rows: seq<Row>): (r: string)
    ensures |r| >= 1 && r[0] == BOM[0] && r[..1] == BOM
    ensures rows == [] <==> r == BOM
    ensures rows != [] ==> r == BOM + Join(Lines(rows), CRLF)
  {
    if rows == [] then BOM else BOM + Join(Lines(rows), CRLF)
  }

  // ---------------------------------------------------------------------------------------------
  // Reading one line back, as section 2 of RFC 4180 reads a record.

  /** Where the field at the start of `s` ends: at the first comma, or at the end of `s`. */
  function FieldEnd(s: string): (i: nat)
    ensures i <= |s|
    ensures forall k :: 0 <= k < i ==> s[k] != ','
    ensures i == |s| || s[i] == ','
    decreases |s|
  {
    if s == [] || s[0] == ',' then 0
    else
      var i := FieldEnd(s[1..]);
      assert forall k :: 1 <= k < i + 1 ==> s[k] == s[1..][k - 1];
      i + 1
  }

  /** An unquoted field runs up to the next comma. */
  function ParseUnquoted(s: string): (r: (string, string))
    ensures r.0 + r.1 == s
    ensures ',' !in r.0
    ensures r.1 == [] || r.1[0] == ','
  {
    var i := FieldEnd(s);
    (s[..i], s[i..])
  }

  /** The inside of a quoted field, after its opening quote: a doubled quote stands for one quote,
      a single quote closes the field. */
  function ParseQuoted(s: string): (r: Option<(string, string)>)
    ensures r.Some? ==> |r.value.1| < |s|
    decreases |s|
  {
    if s == [] then None
    else if s[0] == '"' then
      if |s| > 1 && s[1] == '"' then
        match ParseQuoted(s[2..])
        case None => None
        case Some((f, rest)) => Some(("\"" + f, rest))
      else Some(([], s[1..]))
    else
      match ParseQuoted(s[1..])
      case None => None
      case Some((f, rest)) => Some(([s[0]] + f, rest))
  }

  function ParseField(s: string): (r: Option<(string, string)>)
    ensures r.Some? ==> |r.value.1| <= |s|
  {
    if s != [] && s[0] == '"' then ParseQuoted(s[1..]) else Some(ParseUnquoted(s))
  }

  /** The fields of a line separated by commas; None when a quoted field is not followed by a comma
      or the end. */
  function ParseFields(s: string): Option<seq<string>>
    decreases |s|
  {
    match ParseField(s)
    case None => None
    case Some((f, rest)) =>
      if rest == [] then Some([f])
      else if rest[0] != ',' then None
      else
        match ParseFields(rest[1..])
        case None => None
        case Some(fs) => Some([f] + fs)
  }

  // ---------------------------------------------------------------------------------------------

  /** A quoted field reads back its value, whatever follows its closing quote unless a quote. */
  lemma {:induction false} ParseQuotedOfDoubled(v: string, rest: string)
    requires rest == [] || rest[0] != '"'
    ensures ParseQuoted(DoubleQuotes(v) + "\"" + rest) == Some((v, rest))
    decreases |v|
  {
    if v == [] {
      assert DoubleQuotes(v) + "\"" + rest == "\"" + rest;
    } else {
      ParseQuotedOfDoubled(v[1..], rest);
      var tail := DoubleQuotes(v[1..]) + "\"" + rest;
      DoubleQuotesOfFirst(v, rest);
      if v[0] == '"' {
        ParseQuotedOfPair(tail, v, rest);
      } else {
        ParseQuotedOfChar(tail, v, rest);
      }
    }
  }

  /** The escaped text of a value, split after its first character. */
  lemma DoubleQuotesOfFirst(v: string, rest: string)
    requires v != []
    ensures DoubleQuotes(v) + "\"" + rest ==
      (if v[0] == '"' then "\"\"" else [v[0]]) + (DoubleQuotes(v[1..]) + "\"" + rest)
  {
  }

  /** A doubled quote inside a quoted field reads as one quote. */
  lemma ParseQuotedOfPair(tail: string, v: string, rest: string)
    requires v != [] && v[0] == '"'
    requires ParseQuoted(tail) == Some((v[1..], rest))
    ensures ParseQuoted("\"\"" + tail) == Some((v, rest))
  {
    assert ("\"\"" + tail)[2..] == tail;
    assert "\"" + v[1..] == v;
  }

  /** Any other character inside a quoted field reads as itself. */
  lemma ParseQuotedOfChar(tail: string, v: string, rest: string)
    requires v != [] && v[0] != '"'
    requires ParseQuoted(tail) == Some((v[1..], rest))
    ensures ParseQuoted([v[0]] + tail) == Some((v, rest))
  {
    assert ([v[0]] + tail)[1..] == tail;
    assert [v[0]] + v[1..] == v;
  }

  lemma ParseUnquotedOf(v: string, rest: string)
    requires ',' !in v
    requires rest == [] || rest[0] == ','
    ensures ParseUnquoted(v + rest) == (v, rest)
  {
    var s := v + rest;
    assert forall k :: 0 <= k < |v| ==> s[k] == v[k] && s[k] != ',';
    assert |v| == |s| || s[|v|] == ',';
    assert FieldEnd(s) == |v|;
    assert s[..|v|] == v && s[|v|..] == rest;
  }


  /** Every escaped value reads back as itself when a comma or the end of the line follows it. */
  lemma ParseFieldOfEscape(v: string, rest: string)
    requires rest == [] || rest[0] == ','
    ensures ParseField(Escape(v) + rest) == Some((v, rest))
  {
    if NeedsQuoting(v) {
      ParseQuotedOfDoubled(v, rest);
      assert Escape(v) + rest == "\"" + (DoubleQuotes(v) + "\"" + rest);
    } else {
      ParseUnquotedOf(v, rest);
      assert v != [] ==> v[0] != '"';
    }
  }

  /** Joining escaped values with commas and reading the line back gives the values again. */
  lemma {:induction false} ParseFieldsOfEscaped(cells: seq<string>)
    requires cells != []
    ensures ParseFields(Join(EscapeAll(cells), ",")) == Some(cells)
    decreases |cells|
  {
    if |cells| == 1 {
      assert cells == [cells[0]];
      ParseFieldsOfEscapedOne(cells[0]);
    } else {
      ParseFieldsOfEscaped(cells[1..]);
      ParseFieldsOfEscapedStep(cells);
    }
  }

  /** A line of one escaped value reads back as that value. */
  lemma ParseFieldsOfEscapedOne(v: string)
    ensures ParseFields(Join(EscapeAll([v]), ",")) == Some([v])
  {
    ParseFieldOfEscape(v, []);
    assert Escape(v) + [] == Escape(v);
    assert EscapeAll([v]) == [Escape(v)];
  }

  /** An escaped value, a comma and a line that reads back as the other values reads back as all
      of them. */
  lemma ParseFieldsOfEscapedStep(cells: seq<string>)
    requires |cells| >= 2
    requires ParseFields(Join(EscapeAll(cells[1..]), ",")) == Some(cells[1..])
    ensures ParseFields(Join(EscapeAll(cells), ",")) == Some(cells)
  {
    var escaped := EscapeAll(cells);
    var tail := Join(escaped[1..], ",");
    assert EscapeAll(cells[1..]) == escaped[1..];
    ParseFieldOfEscape(cells[0], "," + tail);
    assert Join(escaped, ",") == Escape(cells[0]) + ("," + tail);
    ParseFieldsOfFirst(Join(escaped, ","), cells[0], tail, cells[1..]);
    assert [cells[0]] + cells[1..] == cells;
  }

  /** A field followed by a comma and a line of fields reads as that field followed by those. */
  lemma ParseFieldsOfFirst(s: string, v: string, tail: string, vs: seq<string>)
    requires ParseField(s) == Some((v, "," + tail))
    requires ParseFields(tail) == Some(vs)
    ensures ParseFields(s) == Some([v] + vs)
  {
    assert ("," + tail)[1..] == tail;
  }

  /** Every row line reads back as the row's cells under the header keys, with "" for a key the row
      lacks or a null value. */
  lemma RowLineReadsBack(headers: seq<string>, row: Row)
    requires headers != []
    ensures ParseFields(RowLine(headers, row)) == Some(CellsOf(headers, row))
  {
    ParseFieldsOfEscaped(CellsOf(headers, row));
  }

  /** The lines after the header read back, one per row, as the rows' cells under the first row's
      keys; when the first row has no keys every line is empty. */
  lemma LinesReadBack(rows: seq<Row>)
    requires rows != []
    ensures Keys(rows[0]) != [] ==>
      forall k :: 0 <= k < |rows| ==> ParseFields(Lines(rows)[k + 1]) == Some(CellsOf(Keys(rows[0]), rows[k]))
    ensures Keys(rows[0]) == [] ==> forall k :: 0 <= k < |Lines(rows)| ==> Lines(rows)[k] == ""
  {
    var headers := Keys(rows[0]);
    if headers != [] {
      forall k | 0 <= k < |rows|
        ensures ParseFields(Lines(rows)[k + 1]) == Some(CellsOf(headers, rows[k]))
      {
        RowLineReadsBack(headers, rows[k]);
      }
    } else {
      forall k | 0 <= k < |rows| ensures RowLine(headers, rows[k]) == "" {
        assert EscapeAll(CellsOf(headers, rows[k])) == [];
      }
    }
  }

  /** The header line is written without escaping: it reads back as the keys when no key needs
      quoting. */
  lemma HeaderReadsBack(rows: seq<Row>)
    requires rows != [] && Keys(rows[0]) != []
    requires forall k :: 0 <= k < |rows[0]| ==> !NeedsQuoting(rows[0][k].key)
    ensures ParseFields(Lines(rows)[0]) == Some(Keys(rows[0]))
  {
    var headers := Keys(rows[0]);
    assert EscapeAll(headers) == headers;
    ParseFieldsOfEscaped(headers);
  }

  /** A value that needs no quoting but holds a carriage return is written as it is. */
  lemma CarriageReturnNotQuoted()
    ensures Escape("a\rb") == "a\rb"
  {
  }

  /** A value with quotes is quoted with each quote doubled. */
  lemma QuoteIsDoubled()
    ensures Escape("a\"") == "\"a\"\"\""
  {
    assert "a\""[1] == '"';
    assert DoubleQuotes("\"") == "\"\"";
    assert DoubleQuotes("a\"") == "a" + DoubleQuotes("\"");
  }
}
