/**
 * `escapeCSV` (Support/Utilities.swift) and a reader for the records it builds. The reader follows
 * the quoting of RFC 4180, section 2, rule 7, but does not enforce rules 5 and 6: it accepts a
 * double quote inside an unquoted field, and line breaks anywhere.
 */
module Csv {
  import opened Common
  import opened Text

  /** How many times `c` occurs in `s`. */
  function Count(s: string, c: char): nat
  {
    if s == [] then 0 else (if s[0] == c then 1 else 0) + Count(s[1..], c)
  }

  /** `replacingOccurrences(of: "\"", with: "\"\"")`: every double quote doubled. */
  function DoubleQuotes(s: string): (r: string)
    ensures |r| == |s| + Count(s, '"')
  {
    if s == [] then [] else (if s[0] == '"' then "\"\"" else [s[0]]) + DoubleQuotes(s[1..])
  }

  /** Rule 7 read backwards: every doubled double quote becomes one. */
  function CollapseQuotes(t: string): string
  {
    if t == [] then []
    else if |t| >= 2 && t[0] == '"' && t[1] == '"' then "\"" + CollapseQuotes(t[2..])
    else [t[0]] + CollapseQuotes(t[1..])
  }

  /** Collapsing undoes doubling. */
  lemma {:induction false} CollapseDoubled(s: string)
    ensures CollapseQuotes(DoubleQuotes(s)) == s
  {
    if s != [] {
      CollapseDoubled(s[1..]);
      if s[0] == '"' {
        assert DoubleQuotes(s)[2..] == DoubleQuotes(s[1..]);
      } else {
        assert DoubleQuotes(s)[1..] == DoubleQuotes(s[1..]);
      }
      assert s == [s[0]] + s[1..];
    }
  }

  /**
   * The test `escapeCSV` applies. Its middle disjunct `s.contains("")` looks for an empty literal,
   * and what it answers depends on which `contains` overload Swift picks, so it is the parameter
   * `containsEmpty`.
   */
  predicate NeedsQuoting(s: string, containsEmpty: string -> bool)
  {
    Contains(s, ",") || containsEmpty(s) || Contains(s, "\"")
  }

  /** `escapeCSV(s)`: quote the field when it needs quoting, doubling the quotes inside it. */
  function EscapeCsv(s: string, containsEmpty: string -> bool): (r: string)
    ensures |r| >= |s|
  {
    if NeedsQuoting(s, containsEmpty) then "\"" + DoubleQuotes(s) + "\"" else s
  }

  /**
   * What `escapeCSV` promises: the input comes back unchanged exactly when it needs no quoting,
   * a comma or a double quote always forces quoting, and a quoted result is one longer at each end
   * than the input plus its double quotes, and collapsing its inside recovers the input.
   */
  lemma EscapeCsvShape(s: string, containsEmpty: string -> bool)
    ensures EscapeCsv(s, containsEmpty) == s <==> !NeedsQuoting(s, containsEmpty)
    ensures (',' in s || '"' in s) ==> NeedsQuoting(s, containsEmpty)
    ensures NeedsQuoting(s, containsEmpty) ==>
      var r := EscapeCsv(s, containsEmpty);
      |r| == |s| + 2 + Count(s, '"') && r[0] == '"' && r[|r| - 1] == '"'
      && CollapseQuotes(r[1..|r| - 1]) == s
  {
    ContainsChar(s, ',');
    ContainsChar(s, '"');
    if NeedsQuoting(s, containsEmpty) {
      var r := "\"" + DoubleQuotes(s) + "\"";
      assert r[1..|r| - 1] == DoubleQuotes(s);
      CollapseDoubled(s);
    }
  }

  /** The rest of a quoted field after its opening quote: the field's value and what follows the closing quote. */
  function ReadQuoted(s: string): (r: Option<(string, string)>)
    ensures r.Some? ==> |r.value.1| < |s|
  {
    if s == [] then None
    else if s[0] == '"' then
      if |s| > 1 && s[1] == '"' then
        match ReadQuoted(s[2..])
        case None => None
        case Some(p) => Some(("\"" + p.0, p.1))
      else Some(([], s[1..]))
    else
      match ReadQuoted(s[1..])
      case None => None
      case Some(p) => Some(([s[0]] + p.0, p.1))
  }

  /** An unquoted field runs up to the next comma. */
  function ReadUnquoted(s: string): (r: (string, string))
    ensures |r.1| <= |s|
    ensures r.1 == [] || r.1[0] == ','
  {
    if s == [] || s[0] == ',' then ([], s)
    else
      var p := ReadUnquoted(s[1..]);
      ([s[0]] + p.0, p.1)
  }

  function ReadField(s: string): (r: Option<(string, string)>)
    ensures r.Some? ==> |r.value.1| <= |s|
  {
    if s != [] && s[0] == '"' then ReadQuoted(s[1..]) else Some(ReadUnquoted(s))
  }

  /** A reader for one record of comma-separated fields, each bare or quoted with doubled quotes inside. */
  function ParseRecord(s: string): Option<seq<string>>
    decreases |s|
  {
    match ReadField(s)
    case None => None
    case Some(p) =>
      if p.1 == [] then Some([p.0])
      else if p.1[0] != ',' then None
      else
        match ParseRecord(p.1[1..])
        case None => None
        case Some(vs) => Some([p.0] + vs)
  }

  /**
   * A cell this reader reads back as `value`: quoted with its quotes doubled, or bare when `value`
   * has no comma and no double quote (a bare line break is allowed, unlike in RFC 4180).
   */
  predicate Encodes(cell: string, value: string)
  {
    cell == "\"" + DoubleQuotes(value) + "\"" || (cell == value && ',' !in value && '"' !in value)
  }

  /** Whatever `escapeCSV` returns encodes its input. */
  lemma EscapeEncodes(s: string, containsEmpty: string -> bool)
    ensures Encodes(EscapeCsv(s, containsEmpty), s)
  {
    ContainsChar(s, ',');
    ContainsChar(s, '"');
  }

  lemma {:induction false} QuotedRead(v: string, t: string)
    requires t == [] || t[0] != '"'
    ensures ReadQuoted(DoubleQuotes(v) + "\"" + t) == Some((v, t))
  {
    var s := DoubleQuotes(v) + "\"" + t;
    if v == [] {
      assert s == "\"" + t;
      assert s[1..] == t;
    } else if v[0] == '"' {
      assert s[2..] == DoubleQuotes(v[1..]) + "\"" + t;
      QuotedRead(v[1..], t);
      assert v == "\"" + v[1..];
    } else {
      assert s[1..] == DoubleQuotes(v[1..]) + "\"" + t;
      QuotedRead(v[1..], t);
      assert v == [v[0]] + v[1..];
    }
  }

  lemma {:induction false} UnquotedRead(v: string, t: string)
    requires ',' !in v
    requires t == [] || t[0] == ','
    ensures ReadUnquoted(v + t) == (v, t)
  {
    if v == [] {
      assert v + t == t;
    } else {
      assert (v + t)[1..] == v[1..] + t;
      UnquotedRead(v[1..], t);
      assert v == [v[0]] + v[1..];
    }
  }

  lemma FieldRead(cell: string, value: string, t: string)
    requires Encodes(cell, value)
    requires t == [] || t[0] == ','
    ensures ReadField(cell + t) == Some((value, t))
  {
    if cell == "\"" + DoubleQuotes(value) + "\"" {
      assert (cell + t)[1..] == DoubleQuotes(value) + "\"" + t;
      QuotedRead(value, t);
    } else {
      UnquotedRead(value, t);
      if value != [] {
        assert (cell + t)[0] == value[0];
      }
    }
  }

  /** Reading back a record of encoded cells joined by commas gives the values. */
  lemma {:induction false} RecordRoundTrip(cells: seq<string>, values: seq<string>)
    requires |cells| == |values| >= 1
    requires forall k :: 0 <= k < |cells| ==> Encodes(cells[k], values[k])
    ensures ParseRecord(Join(cells, ",")) == Some(values)
    decreases |cells|
  {
    if |cells| == 1 {
      FieldRead(cells[0], values[0], []);
      assert cells[0] + [] == cells[0];
      assert [values[0]] == values;
    } else {
      var rest := Join(cells[1..], ",");
      assert Join(cells, ",") == cells[0] + ("," + rest);
      FieldRead(cells[0], values[0], "," + rest);
      assert ("," + rest)[1..] == rest;
      RecordRoundTrip(cells[1..], values[1..]);
      assert [values[0]] + values[1..] == values;
    }
  }
}
