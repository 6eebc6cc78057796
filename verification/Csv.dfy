/**
 The CSV writer of the exports, and a parser for what it writes.

 The writer quotes a field only when it must.  The parser follows the grammar of
 section 2 of RFC 4180 with a line feed alone ending a record, so that a carriage
 return is an ordinary character.
 */
module Csv {
  import opened Base

  // -- writing ---------------------------------------------------------------

  predicate Special(c: char) { c == '"' || c == ',' || c == '\n' }

  predicate NeedsQuotes(s: string) {
    exists i :: 0 <= i < |s| && Special(s[i])
  }

  /** Every quote written twice. */
  function Doubled(s: string): string {
    if s == "" then ""
    else Piece(s[0]) + Doubled(s[1..])
  }

  function Piece(c: char): string { if c == '"' then "\"\"" else [c] }

  function Escape(s: string): string {
    if NeedsQuotes(s) then "\"" + Doubled(s) + "\"" else s
  }

  function Join(row: seq<string>): string {
    if row == [] then ""
    else if |row| == 1 then Escape(row[0])
    else Escape(row[0]) + ("," + Join(row[1..]))
  }

  function Line(row: seq<string>): string {
    Join(row) + "\n"
  }

  function Print(rows: seq<seq<string>>): string {
    if rows == [] then "" else Line(rows[0]) + Print(rows[1..])
  }

  // -- parsing ---------------------------------------------------------------

  /** A piece read from the front, and what is left. */
  datatype Read<T> = Read(got: T, left: string) | Malformed

  /** After an opening quote: up to the closing one. */
  function Quoted(s: string): (r: Read<string>)
    ensures r.Read? ==> |r.left| < |s|
    decreases |s|
  {
    if s == "" then Malformed
    else if s[0] != '"' then Consed(s[0], Quoted(s[1..]))
    else if |s| > 1 && s[1] == '"' then Consed('"', Quoted(s[2..]))
    else Read("", s[1..])
  }

  function Plain(s: string): (r: Read<string>)
    ensures r.Read? ==> |r.left| <= |s|
  {
    if s == "" || s[0] == ',' || s[0] == '\n' then Read("", s)
    else if s[0] == '"' then Malformed
    else Consed(s[0], Plain(s[1..]))
  }

  function Consed(c: char, r: Read<string>): Read<string> {
    if r.Read? then Read([c] + r.got, r.left) else Malformed
  }

  function Field(s: string): (r: Read<string>)
    ensures r.Read? ==> |r.left| <= |s|
  {
    if s != "" && s[0] == '"' then Quoted(s[1..]) else Plain(s)
  }

  function Record(s: string): (r: Read<seq<string>>)
    ensures r.Read? ==> |r.left| < |s|
    decreases |s|
  {
    var first := Field(s);
    if first.Malformed? || first.left == "" then Malformed
    else if first.left[0] == '\n' then Read([first.got], first.left[1..])
    else if first.left[0] != ',' then Malformed
    else
      var others := Record(first.left[1..]);
      if others.Malformed? then Malformed else Read([first.got] + others.got, others.left)
  }

  function Parse(s: string): Option<seq<seq<string>>>
    decreases |s|
  {
    if s == "" then Some([])
    else
      var first := Record(s);
      if first.Malformed? then None
      else
        var others := Parse(first.left);
        if others.None? then None else Some([first.got] + others.value)
  }

  // -- parsing undoes writing ------------------------------------------------

  /** One character of a quoted field, doubled if it is a quote. */
  lemma QuotedStep(c: char, v: string, tail: string, rest: string)
    requires Quoted(tail) == Read(v, rest)
    ensures Quoted(Piece(c) + tail) == Read([c] + v, rest)
  {
    if c == '"' {
      assert ("\"\"" + tail)[2..] == tail;
    } else {
      assert ([c] + tail)[1..] == tail;
    }
  }

  lemma {:induction false} QuotedBack(v: string, close: string, rest: string)
    requires Quoted(close) == Read("", rest)
    ensures Quoted(Doubled(v) + close) == Read(v, rest)
  {
    if v == "" {
      assert Doubled(v) + close == close;
    } else {
      var tail := Doubled(v[1..]) + close;
      QuotedBack(v[1..], close, rest);
      QuotedStep(v[0], v[1..], tail, rest);
      assert Doubled(v) + close == Piece(v[0]) + tail;
      assert [v[0]] + v[1..] == v;
    }
  }

  lemma {:induction false} PlainBack(v: string, rest: string)
    requires !NeedsQuotes(v) && Plain(rest) == Read("", rest)
    ensures Plain(v + rest) == Read(v, rest)
  {
    if v == "" {
      assert v + rest == rest;
    } else {
      assert !Special(v[0]);
      assert forall i :: 0 <= i < |v| - 1 ==> v[1..][i] == v[i + 1];
      PlainBack(v[1..], rest);
      assert (v + rest)[1..] == v[1..] + rest;
      assert [v[0]] + v[1..] == v;
    }
  }

  lemma OpenQuote(inner: string)
    ensures Field("\"" + inner) == Quoted(inner)
  {
    assert ("\"" + inner)[1..] == inner;
  }

  lemma Regroup(v: string, rest: string)
    ensures "\"" + Doubled(v) + "\"" + rest == "\"" + (Doubled(v) + ("\"" + rest))
  {

  }

  /** A closing quote is one that no other quote follows. */
  lemma CloseQuote(rest: string)
    requires rest == "" || rest[0] != '"'
    ensures Quoted("\"" + rest) == Read("", rest)
  {
    assert ("\"" + rest)[1..] == rest;
  }

  lemma FieldBack(v: string, rest: string)
    requires rest != "" && (rest[0] == ',' || rest[0] == '\n')
    ensures Field(Escape(v) + rest) == Read(v, rest)
  {
    if NeedsQuotes(v) {
      CloseQuote(rest);
      QuotedBack(v, "\"" + rest, rest);
      OpenQuote(Doubled(v) + ("\"" + rest));
      Regroup(v, rest);
    } else {
      PlainBack(v, rest);
      assert v != "" ==> !Special(v[0]);
    }
  }

  lemma LastField(v: string, rest: string)
    ensures Record(Escape(v) + ("\n" + rest)) == Read([v], rest)
  {
    FieldBack(v, "\n" + rest);
    assert ("\n" + rest)[1..] == rest;
  }

  lemma NextField(v: string, s: string, others: seq<string>, rest: string)
    requires Record(s) == Read(others, rest)
    ensures Record(Escape(v) + ("," + s)) == Read([v] + others, rest)
  {
    FieldBack(v, "," + s);
    assert ("," + s)[1..] == s;
  }

  lemma LineCons(row: seq<string>, rest: string)
    requires |row| > 1
    ensures Line(row) + rest == Escape(row[0]) + ("," + (Line(row[1..]) + rest))
  {
    var e, j, l := Escape(row[0]), Join(row[1..]), Line(row[1..]);

  }

  lemma LineOne(v: string, rest: string)
    ensures Line([v]) + rest == Escape(v) + ("\n" + rest)
  {
  }

  lemma {:induction false} RecordBack(row: seq<string>, rest: string)
    requires row != []
    ensures Record(Line(row) + rest) == Read(row, rest)
  {
    if |row| == 1 {
      LastField(row[0], rest);
      LineOne(row[0], rest);
      assert row == [row[0]];
    } else {
      RecordBack(row[1..], rest);
      NextField(row[0], Line(row[1..]) + rest, row[1..], rest);
      LineCons(row, rest);
      assert row == [row[0]] + row[1..];
    }
  }

  /** A row without fields is written like a row with one empty field. */
  function AsWritten(row: seq<string>): seq<string> {
    if row == [] then [""] else row
  }

  function AllAsWritten(rows: seq<seq<string>>): (r: seq<seq<string>>)
    ensures |r| == |rows| && forall i :: 0 <= i < |rows| ==> r[i] == AsWritten(rows[i])
  {
    seq(|rows|, i requires 0 <= i < |rows| => AsWritten(rows[i]))
  }

  lemma {:induction false} ParsePrint(rows: seq<seq<string>>)
    ensures Parse(Print(rows)) == Some(AllAsWritten(rows))
  {
    if rows != [] {
      var rest := Print(rows[1..]);
      ParsePrint(rows[1..]);
      var row := AsWritten(rows[0]);
      assert Line(rows[0]) == Line(row);
      RecordBack(row, rest);
      assert [row] + AllAsWritten(rows[1..]) == AllAsWritten(rows);
    }
  }

  /** Parsing gives back exactly the rows that were printed if and only if none of them is empty. */
  lemma RoundTrip(rows: seq<seq<string>>)
    ensures Parse(Print(rows)) == Some(rows) <==> [] !in rows
  {
    ParsePrint(rows);
    if [] in rows {
      var i :| 0 <= i < |rows| && rows[i] == [];
      assert AllAsWritten(rows)[i] != rows[i];
    } else {
      assert AllAsWritten(rows) == rows;
    }
  }

  /** So two exports with the same text have the same rows. */
  lemma PrintIsInjective(a: seq<seq<string>>, b: seq<seq<string>>)
    requires [] !in a && [] !in b
    ensures Print(a) == Print(b) <==> a == b
  {
    RoundTrip(a);
    RoundTrip(b);
  }

  /** Text written piece by piece is the text of the pieces together. */
  lemma {:induction false} PrintConcat(a: seq<seq<string>>, b: seq<seq<string>>)
    ensures Print(a + b) == Print(a) + Print(b)
  {
    if a == [] {
      assert a + b == b;
    } else {
      PrintConcat(a[1..], b);
      assert (a + b)[1..] == a[1..] + b;
    }
  }
}
