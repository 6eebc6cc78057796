/**
 The two streamed exports: a table is read 500 rows at a time behind a cursor and
 every row is written as one CSV line.

 A table is a list of rows in any order; the ids of its rows are what the pages
 are ordered by.  Nothing else writes to it while an export runs.
 */
module Export {
  import opened Base
  import opened Csv

  type Id = nat

  datatype Row<T> = Row(id: Id, data: T)

  const PAGE_SIZE := 500

  // -- the query -------------------------------------------------------------

  function Filter<T>(table: seq<Row<T>>, matches: T -> bool): seq<Row<T>> {
    if table == [] then []
    else if matches(table[0].data) then [table[0]] + Filter(table[1..], matches)
    else Filter(table[1..], matches)
  }

  function Insert<T>(row: Row<T>, rows: seq<Row<T>>): seq<Row<T>> {
    if rows == [] || row.id < rows[0].id then [row] + rows
    else [rows[0]] + Insert(row, rows[1..])
  }

  /** ORDER BY id ASC. */
  function Sorted<T>(rows: seq<Row<T>>): seq<Row<T>> {
    if rows == [] then [] else Insert(rows[0], Sorted(rows[1..]))
  }

  /** Every matching row at once, the list the pages are pages of. */
  function Unpaged<T>(table: seq<Row<T>>, matches: T -> bool): seq<Row<T>> {
    Sorted(Filter(table, matches))
  }

  function From<T>(rows: seq<Row<T>>, cursor: Id): seq<Row<T>> {
    if rows == [] then []
    else if rows[0].id >= cursor then [rows[0]] + From(rows[1..], cursor)
    else From(rows[1..], cursor)
  }

  function Take<T>(rows: seq<Row<T>>, n: nat): seq<Row<T>> {
    if |rows| <= n then rows else rows[..n]
  }

  function Drop<T>(rows: seq<Row<T>>, n: nat): seq<Row<T>> {
    if |rows| <= n then [] else rows[n..]
  }

  /** With a cursor, the rows from its id on, less the first. */
  function Behind<T>(rows: seq<Row<T>>, cursor: Option<Id>): seq<Row<T>> {
    match cursor
    case None => rows
    case Some(id) => Drop(From(rows, id), 1)
  }

  /** One page. */
  function FindMany<T>(table: seq<Row<T>>, matches: T -> bool, cursor: Option<Id>, take: nat): seq<Row<T>> {
    Take(Behind(Unpaged(table, matches), cursor), take)
  }

  // -- what the unpaged list is ----------------------------------------------

  ghost predicate DistinctIds<T>(rows: seq<Row<T>>) {
    forall i, j :: 0 <= i < j < |rows| ==> rows[i].id != rows[j].id
  }

  ghost predicate Ascending<T>(rows: seq<Row<T>>) {
    forall i, j :: 0 <= i < j < |rows| ==> rows[i].id < rows[j].id
  }

  lemma {:induction false} FilterHolds<T>(table: seq<Row<T>>, matches: T -> bool, row: Row<T>)
    ensures row in Filter(table, matches) <==> row in table && matches(row.data)
  {
    if table != [] {
      FilterHolds(table[1..], matches, row);
      assert table == [table[0]] + table[1..];
    }
  }

  /** No row behind the first has its id. */
  ghost predicate Alone<T>(id: Id, rest: seq<Row<T>>) {
    forall i :: 0 <= i < |rest| ==> rest[i].id != id
  }

  ghost predicate Below<T>(id: Id, rest: seq<Row<T>>) {
    forall i :: 0 <= i < |rest| ==> id < rest[i].id
  }

  lemma {:induction false} FilterDistinct<T>(table: seq<Row<T>>, matches: T -> bool)
    requires DistinctIds(table)
    ensures DistinctIds(Filter(table, matches))
  {
    if table != [] {
      var rest := Filter(table[1..], matches);
      FilterDistinct(table[1..], matches);
      forall i | 0 <= i < |rest| ensures rest[i].id != table[0].id {
        FilterHolds(table[1..], matches, rest[i]);
        var k :| 0 <= k < |table| - 1 && table[1..][k] == rest[i];
      }
    }
  }

  lemma {:induction false} InsertHolds<T>(row: Row<T>, rows: seq<Row<T>>, r: Row<T>)
    ensures r in Insert(row, rows) <==> r == row || r in rows
  {
    if rows != [] && row.id >= rows[0].id {
      InsertHolds(row, rows[1..], r);
      assert rows == [rows[0]] + rows[1..];
    }
  }

  lemma {:induction false} InsertAscends<T>(row: Row<T>, rows: seq<Row<T>>)
    requires Ascending(rows) && Alone(row.id, rows)
    ensures Ascending(Insert(row, rows))
    ensures forall id: Id :: Below(id, rows) && id < row.id ==> Below(id, Insert(row, rows))
  {
    if rows != [] && row.id >= rows[0].id {
      InsertAscends(row, rows[1..]);
      assert Below(rows[0].id, rows[1..]);
    }
  }

  lemma {:induction false} SortedHolds<T>(rows: seq<Row<T>>, r: Row<T>)
    ensures r in Sorted(rows) <==> r in rows
  {
    if rows != [] {
      SortedHolds(rows[1..], r);
      InsertHolds(rows[0], Sorted(rows[1..]), r);
      assert rows == [rows[0]] + rows[1..];
    }
  }

  lemma {:induction false} SortedAscends<T>(rows: seq<Row<T>>)
    requires DistinctIds(rows)
    ensures Ascending(Sorted(rows))
  {
    if rows != [] {
      var rest := Sorted(rows[1..]);
      SortedAscends(rows[1..]);
      forall i | 0 <= i < |rest| ensures rest[i].id != rows[0].id {
        SortedHolds(rows[1..], rest[i]);
        var k :| 0 <= k < |rows| - 1 && rows[1..][k] == rest[i];
      }
      InsertAscends(rows[0], rest);
    }
  }

  lemma UnpagedAscends<T>(table: seq<Row<T>>, matches: T -> bool)
    requires DistinctIds(table)
    ensures Ascending(Unpaged(table, matches))
  {
    FilterDistinct(table, matches);
    SortedAscends(Filter(table, matches));
  }

  /** Exactly the matching rows, in strictly ascending order of id and so each once. */
  lemma UnpagedIs<T>(table: seq<Row<T>>, matches: T -> bool, row: Row<T>)
    requires DistinctIds(table)
    ensures Ascending(Unpaged(table, matches))
    ensures row in Unpaged(table, matches) <==> row in table && matches(row.data)
  {
    UnpagedAscends(table, matches);
    FilterHolds(table, matches, row);
    SortedHolds(Filter(table, matches), row);
  }

  // -- pages -----------------------------------------------------------------

  lemma {:induction false} FromAll<T>(rows: seq<Row<T>>, cursor: Id)
    requires forall i :: 0 <= i < |rows| ==> rows[i].id >= cursor
    ensures From(rows, cursor) == rows
  {
    if rows != [] { FromAll(rows[1..], cursor); }
  }

  lemma {:induction false} FromAt<T>(rows: seq<Row<T>>, n: nat)
    requires Ascending(rows) && n < |rows|
    ensures From(rows, rows[n].id) == rows[n..]
  {
    if n == 0 {
      FromAll(rows, rows[0].id);
    } else {
      FromAt(rows[1..], n - 1);
      assert rows[1..][n - 1..] == rows[n..];
    }
  }

  /** The cursor after n rows. */
  function CursorAt<T>(rows: seq<Row<T>>, n: nat): Option<Id>
    requires n <= |rows|
  {
    if n == 0 then None else Some(rows[n - 1].id)
  }

  lemma BehindIs<T>(rows: seq<Row<T>>, n: nat)
    requires Ascending(rows) && n <= |rows|
    ensures Behind(rows, CursorAt(rows, n)) == rows[n..]
  {
    if n > 0 {
      FromAt(rows, n - 1);
      assert Drop(rows[n - 1..], 1) == rows[n..];
    }
  }

  /** The page behind the n-th row is the next slice of the whole list. */
  lemma PageIs<T>(table: seq<Row<T>>, matches: T -> bool, n: nat, take: nat)
    requires DistinctIds(table) && n <= |Unpaged(table, matches)|
    ensures var all := Unpaged(table, matches);
      FindMany(table, matches, CursorAt(all, n), take) == all[n..if n + take <= |all| then n + take else |all|]
  {
    var all := Unpaged(table, matches);
    UnpagedAscends(table, matches);
    BehindIs(all, n);
  }

  // -- the export ------------------------------------------------------------

  function Rendered<T>(rows: seq<Row<T>>, render: T -> seq<string>): (r: seq<seq<string>>)
    ensures |r| == |rows|
  {
    seq(|rows|, i requires 0 <= i < |rows| => render(rows[i].data))
  }

  /** The whole text of an export. */
  function Document<T>(header: seq<string>, rows: seq<Row<T>>, render: T -> seq<string>): string {
    Line(header) + Print(Rendered(rows, render))
  }

  lemma DocumentConcat<T>(header: seq<string>, a: seq<Row<T>>, b: seq<Row<T>>, render: T -> seq<string>)
    ensures Document(header, a + b, render) == Document(header, a, render) + Print(Rendered(b, render))
  {
    assert Rendered(a + b, render) == Rendered(a, render) + Rendered(b, render);
    PrintConcat(Rendered(a, render), Rendered(b, render));
  }

  /** The lines of one page. */
  method WriteRows<T>(rows: seq<Row<T>>, render: T -> seq<string>) returns (text: string)
    ensures text == Print(Rendered(rows, render))
  {
    text := "";
    for i := 0 to |rows|
      invariant text == Print(Rendered(rows[..i], render))
    {
      var line := render(rows[i].data);
      PrintConcat(Rendered(rows[..i], render), [line]);
      assert Rendered(rows[..i + 1], render) == Rendered(rows[..i], render) + [line];
      assert Print([line]) == Line(line);
      text := text + Line(line);
    }
    assert rows[..|rows|] == rows;
  }

  lemma SlicesJoin<T>(all: seq<Row<T>>, n: nat, m: nat)
    requires n <= m <= |all|
    ensures all[..n] + all[n..m] == all[..m]
  {
  }

  /** What a slice adds to the text of the rows before it. */
  lemma SliceWritten<T>(header: seq<string>, all: seq<Row<T>>, n: nat, m: nat, render: T -> seq<string>)
    requires n <= m <= |all|
    ensures Document(header, all[..m], render) == Document(header, all[..n], render) + Print(Rendered(all[n..m], render))
  {
    SlicesJoin(all, n, m);
    DocumentConcat(header, all[..n], all[n..m], render);
  }

  lemma AllWritten<T>(header: seq<string>, all: seq<Row<T>>, n: nat, render: T -> seq<string>)
    requires n == |all|
    ensures Document(header, all[..n], render) == Document(header, all, render)
  {
    assert all[..n] == all;
  }

  /** A page too short is the last, and was preceded by full ones. */
  lemma QueryCount(rows: nat, queries: nat)
    requires queries * PAGE_SIZE <= rows < (queries + 1) * PAGE_SIZE
    ensures rows / PAGE_SIZE == queries
  {
  }

  /** What one page adds: the next rows behind the others, and the cursor behind them; a short page is the last. */
  lemma PageTurn<T>(
    table: seq<Row<T>>, matches: T -> bool, header: seq<string>, render: T -> seq<string>, n: nat, rows: seq<Row<T>>)
    requires DistinctIds(table) && n <= |Unpaged(table, matches)|
    requires rows == FindMany(table, matches, CursorAt(Unpaged(table, matches), n), PAGE_SIZE)
    ensures var all, m := Unpaged(table, matches), n + |rows|;
      && m <= |all| && |rows| <= PAGE_SIZE && (|rows| < PAGE_SIZE ==> m == |all|)
      && Document(header, all[..m], render) == Document(header, all[..n], render) + Print(Rendered(rows, render))
      && (rows != [] ==> CursorAt(all, m) == Some(rows[|rows| - 1].id))
  {
    PageIs(table, matches, n, PAGE_SIZE);
    SliceWritten(header, Unpaged(table, matches), n, n + |rows|, render);
  }

  /**
   Pages until a short or an empty one.  What is written is the document of the
   unpaged list, and a page more is asked for than there are full ones.
   */
  method Stream<T>(table: seq<Row<T>>, matches: T -> bool, header: seq<string>, render: T -> seq<string>)
    returns (output: string, queries: nat)
    requires DistinctIds(table)
    ensures output == Document(header, Unpaged(table, matches), render)
    ensures queries == |Unpaged(table, matches)| / PAGE_SIZE + 1
  {
    ghost var all := Unpaged(table, matches);
    ghost var n := 0;
    output := Line(header);
    queries := 0;
    assert output == Document(header, all[..0], render);
    var cursor: Option<Id> := None;
    while true
      invariant 0 <= n <= |all| && n == queries * PAGE_SIZE
      invariant cursor == CursorAt(all, n)
      invariant output == Document(header, all[..n], render)
      decreases |all| - n
    {
      var rows := FindMany(table, matches, cursor, PAGE_SIZE);
      PageTurn(table, matches, header, render, n, rows);
      queries := queries + 1;
      if |rows| == 0 {
        QueryCount(|all|, queries - 1);
        break;
      }
      var text := WriteRows(rows, render);
      output := output + text;
      n := n + |rows|;
      if |rows| < PAGE_SIZE {
        QueryCount(|all|, queries - 1);
        break;
      }
      cursor := Some(rows[|rows| - 1].id);
    }
    AllWritten(header, all, n, render);
  }

  /** What a reader of the file gets: the header and one record a matching row. */
  lemma DocumentParses<T>(header: seq<string>, rows: seq<Row<T>>, render: T -> seq<string>)
    requires header != [] && forall i :: 0 <= i < |rows| ==> render(rows[i].data) != []
    ensures Parse(Document(header, rows, render)) == Some([header] + Rendered(rows, render))
  {
    var written := [header] + Rendered(rows, render);
    assert Print(written) == Document(header, rows, render) by {
      assert written[1..] == Rendered(rows, render);
    }
    RoundTrip(written);
  }

  // -- the two exports -------------------------------------------------------

  /** An optional value is written as nothing. */
  function OrEmpty(s: Option<string>): string {
    if s.Some? then s.value else ""
  }

  datatype LedgerEntry = LedgerEntry(
    transactionId: string, status: string, amount: string, currency: string, paidAt: Option<string>,
    createdAt: string, payer: string, email: string, request: Option<(string, string)>,
    refund: Option<(string, string)>)

  const LEDGER_HEADER :=
    ["transactionId", "status", "amount", "currency", "paidAt", "createdAt", "payer", "email", "reference",
     "serviceType", "refundStatus", "refundAmount"]

  function LedgerFields(e: LedgerEntry): seq<string> {
    [e.transactionId, e.status, e.amount, e.currency, OrEmpty(e.paidAt), e.createdAt, e.payer, e.email,
     if e.request.Some? then e.request.value.0 else "", if e.request.Some? then e.request.value.1 else "",
     if e.refund.Some? then e.refund.value.0 else "", if e.refund.Some? then e.refund.value.1 else ""]
  }

  datatype ComplaintEntry = ComplaintEntry(
    trackingId: string, title: string, status: string, priority: string, category: string, wardNumber: string,
    wardName: string, createdAt: string, slaDueAt: string, resolvedAt: Option<string>, isEscalated: bool)

  const COMPLAINT_HEADER :=
    ["trackingId", "title", "status", "priority", "category", "ward", "createdAt", "slaDueAt", "resolvedAt",
     "escalated"]

  function ComplaintFields(e: ComplaintEntry): seq<string> {
    [e.trackingId, e.title, e.status, e.priority, e.category, e.wardNumber + " - " + e.wardName, e.createdAt,
     e.slaDueAt, OrEmpty(e.resolvedAt), if e.isEscalated then "true" else "false"]
  }

  /** A record read under a header: each column with its value. */
  function Labelled(header: seq<string>, fields: seq<string>): seq<(string, string)>
    requires |header| == |fields|
  {
    seq(|header|, i requires 0 <= i < |header| => (header[i], fields[i]))
  }

  /** What the ledger says of a payment. */
  function PaymentCells(e: LedgerEntry): seq<(string, string)> {
    [("transactionId", e.transactionId), ("status", e.status), ("amount", e.amount), ("currency", e.currency),
     ("paidAt", match e.paidAt case None => "" case Some(at) => at), ("createdAt", e.createdAt),
     ("payer", e.payer), ("email", e.email),
     ("reference", match e.request case None => "" case Some((reference, _)) => reference),
     ("serviceType", match e.request case None => "" case Some((_, serviceType)) => serviceType),
     ("refundStatus", match e.refund case None => "" case Some((status, _)) => status),
     ("refundAmount", match e.refund case None => "" case Some((_, amount)) => amount)]
  }

  /** What the complaint export says of a complaint. */
  function ComplaintCells(e: ComplaintEntry): seq<(string, string)> {
    [("trackingId", e.trackingId), ("title", e.title), ("status", e.status), ("priority", e.priority),
     ("category", e.category), ("ward", e.wardNumber + " - " + e.wardName), ("createdAt", e.createdAt),
     ("slaDueAt", e.slaDueAt), ("resolvedAt", match e.resolvedAt case None => "" case Some(at) => at),
     ("escalated", if e.isEscalated then "true" else "false")]
  }

  /** The columns line up with the header. */
  lemma LedgerColumns(e: LedgerEntry)
    ensures Labelled(LEDGER_HEADER, LedgerFields(e)) == PaymentCells(e)
  {
  }

  /** A file read back whose first record is the header and the others say the rows, in their order. */
  ghost predicate Tells<T>(text: string, header: seq<string>, rows: seq<Row<T>>, says: T -> seq<(string, string)>) {
    var parsed := Parse(text);
    && parsed.Some? && |parsed.value| == 1 + |rows| && parsed.value[0] == header
    && forall k :: 0 <= k < |rows| ==>
      |parsed.value[k + 1]| == |header| && Labelled(header, parsed.value[k + 1]) == says(rows[k].data)
  }

  lemma LedgerTold(text: string, rows: seq<Row<LedgerEntry>>)
    requires Parse(text) == Some([LEDGER_HEADER] + Rendered(rows, LedgerFields))
    ensures Tells(text, LEDGER_HEADER, rows, PaymentCells)
  {
    forall k | 0 <= k < |rows| ensures Labelled(LEDGER_HEADER, LedgerFields(rows[k].data)) == PaymentCells(rows[k].data) {
      LedgerColumns(rows[k].data);
    }
  }

  lemma ComplaintsTold(text: string, rows: seq<Row<ComplaintEntry>>)
    requires Parse(text) == Some([COMPLAINT_HEADER] + Rendered(rows, ComplaintFields))
    ensures Tells(text, COMPLAINT_HEADER, rows, ComplaintCells)
  {
    forall k | 0 <= k < |rows|
      ensures Labelled(COMPLAINT_HEADER, ComplaintFields(rows[k].data)) == ComplaintCells(rows[k].data)
    {
    }
  }

  /** End to end: read back, the file says every matching payment, once, in order of id, under the right columns. */
  method StreamLedgerCsv(payments: seq<Row<LedgerEntry>>, matches: LedgerEntry -> bool)
    returns (output: string, queries: nat)
    requires DistinctIds(payments)
    ensures Tells(output, LEDGER_HEADER, Unpaged(payments, matches), PaymentCells)
    ensures queries == |Unpaged(payments, matches)| / PAGE_SIZE + 1
  {
    output, queries := Stream(payments, matches, LEDGER_HEADER, LedgerFields);
    DocumentParses(LEDGER_HEADER, Unpaged(payments, matches), LedgerFields);
    LedgerTold(output, Unpaged(payments, matches));
  }

  method StreamComplaintsCsv(complaints: seq<Row<ComplaintEntry>>, matches: ComplaintEntry -> bool)
    returns (output: string, queries: nat)
    requires DistinctIds(complaints)
    ensures Tells(output, COMPLAINT_HEADER, Unpaged(complaints, matches), ComplaintCells)
    ensures queries == |Unpaged(complaints, matches)| / PAGE_SIZE + 1
  {
    output, queries := Stream(complaints, matches, COMPLAINT_HEADER, ComplaintFields);
    DocumentParses(COMPLAINT_HEADER, Unpaged(complaints, matches), ComplaintFields);
    ComplaintsTold(output, Unpaged(complaints, matches));
  }
}
