/** What a query means: nested loops over all relations, every filter and predicate applied to every combination, and the
    selected columns summed up. */
module NaiveQuery {
  import opened QueryText
  import opened JoinPlan
  import opened Operators

  /** Every row extended by every tuple up to k of binding b. */
  function Extend(rows: seq<Row>, b: nat, k: nat): seq<Row> {
    if k == 0 then []
    else Extend(rows, b, k - 1) + seq(|rows|, i requires 0 <= i < |rows| => rows[i][b := k - 1])
  }

  /** The cross product of the first n bindings. */
  function AllRows(tables: seq<Relation>, n: nat): seq<Row>
    requires n <= |tables|
  {
    if n == 0 then [map[]] else Extend(AllRows(tables, n - 1), n - 1, tables[n - 1].size)
  }

  predicate Accepts(tables: seq<Relation>, q: Query, row: Row) {
    (forall f :: f in q.filters ==> Passes(tables, row, f)) && forall p :: p in q.predicates ==> Matches(tables, row, p)
  }

  function Accepted(tables: seq<Relation>, q: Query, rows: seq<Row>): seq<Row> {
    if rows == [] then []
    else
      var last := rows[|rows| - 1];
      Accepted(tables, q, rows[..|rows| - 1]) + (if Accepts(tables, q, last) then [last] else [])
  }

  /** The result of the query. */
  function NaiveRows(tables: seq<Relation>, q: Query): seq<Row> {
    Accepted(tables, q, AllRows(tables, |tables|))
  }

  /** What is printed for one selection. */
  function SumText(tables: seq<Relation>, rows: seq<Row>, s: SelectInfo): string {
    if rows == [] then "NULL" else ToString(Total(tables, rows, s) % ULONG)
  }

  /** The line printed for a result. */
  function ResultText(tables: seq<Relation>, rows: seq<Row>, selections: seq<SelectInfo>): string {
    JoinTexts(Texts(s => SumText(tables, rows, s), selections), ' ') + "\n"
  }

  /** The line printed for the query. */
  function NaiveResult(tables: seq<Relation>, q: Query): string {
    ResultText(tables, NaiveRows(tables, q), q.selections)
  }

  // ---------------------------------------------------------------- the cross product

  function AllBindings(n: nat): (bindings: set<nat>)
    ensures forall b: nat :: b in bindings <==> b < n
  {
    if n == 0 then {} else AllBindings(n - 1) + {n - 1}
  }

  lemma {:induction false} InExtend(rows: seq<Row>, b: nat, k: nat, row: Row)
    requires forall r :: r in rows ==> b !in r
    ensures row in Extend(rows, b, k) <==> b in row && row[b] < k && row - {b} in rows
  {
    if k > 0 {
      InExtend(rows, b, k - 1, row);
      var added := seq(|rows|, i requires 0 <= i < |rows| => rows[i][b := k - 1]);
      if row in added {
        var i :| 0 <= i < |added| && added[i] == row;
        assert row - {b} == rows[i];
      }
      if b in row && row[b] == k - 1 && row - {b} in rows {
        var i :| 0 <= i < |rows| && rows[i] == row - {b};
        assert added[i] == row;
      }
    }
  }

  lemma {:induction false} ExtendDistinct(rows: seq<Row>, b: nat, k: nat)
    requires NoDuplicates(rows) && forall r :: r in rows ==> b !in r
    ensures NoDuplicates(Extend(rows, b, k))
  {
    if k > 0 {
      ExtendDistinct(rows, b, k - 1);
      var before := Extend(rows, b, k - 1);
      var added := seq(|rows|, i requires 0 <= i < |rows| => rows[i][b := k - 1]);
      forall i, j | 0 <= i < j < |added| ensures added[i] != added[j] {
        assert added[i] - {b} == rows[i] && added[j] - {b} == rows[j];
      }
      forall i, j | 0 <= i < |before| && 0 <= j < |added| ensures before[i] != added[j] {
        InExtend(rows, b, k - 1, before[i]);
        assert before[i] in before && added[j][b] == k - 1;
      }
    }
  }

  lemma {:induction false} AllRowsAre(tables: seq<Relation>, n: nat)
    requires n <= |tables|
    ensures NoDuplicates(AllRows(tables, n))
    ensures forall row :: row in AllRows(tables, n) <==> row.Keys == AllBindings(n) && RowOk(tables, row)
  {
    if n == 0 {
      forall row: Row | row.Keys == AllBindings(0) ensures row == map[] {}
    } else {
      AllRowsAre(tables, n - 1);
      var rows, b := AllRows(tables, n - 1), n - 1;
      ExtendDistinct(rows, b, tables[b].size);
      forall row ensures row in AllRows(tables, n) <==> row.Keys == AllBindings(n) && RowOk(tables, row) {
        InExtend(rows, b, tables[b].size, row);
        var rest := row - {b};
        if b in row {
          assert rest.Keys == AllBindings(n - 1) <==> row.Keys == AllBindings(n) by { SplitBindings(row, n); }
          RowOkSplit(tables, row, b);
        }
      }
    }
  }

  lemma RowOkSplit(tables: seq<Relation>, row: Row, b: nat)
    requires b in row && b < |tables|
    ensures RowOk(tables, row) <==> RowOk(tables, row - {b}) && row[b] < tables[b].size
  {
    var rest := row - {b};
    assert forall x :: x in rest ==> x in row && rest[x] == row[x];
    assert forall x :: x in row && x != b ==> x in rest;
  }

  lemma SplitBindings(row: Row, n: nat)
    requires n > 0 && n - 1 in row
    ensures (row - {n - 1}).Keys == AllBindings(n - 1) <==> row.Keys == AllBindings(n)
  {
    assert (row - {n - 1}).Keys == row.Keys - {n - 1};
    if (row - {n - 1}).Keys == AllBindings(n - 1) {
      assert row.Keys == (row.Keys - {n - 1}) + {n - 1};
    }
  }

  lemma {:induction false} AcceptedAre(tables: seq<Relation>, q: Query, rows: seq<Row>)
    requires NoDuplicates(rows)
    ensures NoDuplicates(Accepted(tables, q, rows))
    ensures forall row :: row in Accepted(tables, q, rows) <==> row in rows && Accepts(tables, q, row)
  {
    if rows != [] {
      var before, last := rows[..|rows| - 1], rows[|rows| - 1];
      AcceptedAre(tables, q, before);
      assert rows == before + [last];
      forall i | 0 <= i < |Accepted(tables, q, before)| ensures Accepted(tables, q, before)[i] != last {
        assert Accepted(tables, q, before)[i] in before;
      }
    }
  }

  /** The naive result is the selection of all bindings by all filters and predicates, each row once. */
  lemma NaiveRowsAre(tables: seq<Relation>, q: Query)
    ensures NoDuplicates(NaiveRows(tables, q))
    ensures forall row :: row in NaiveRows(tables, q) <==>
              Selected(tables, row, AllBindings(|tables|), set f | f in q.filters, set p | p in q.predicates)
  {
    AllRowsAre(tables, |tables|);
    AcceptedAre(tables, q, AllRows(tables, |tables|));
  }

  // ---------------------------------------------------------------- sums do not depend on the order of rows

  lemma {:induction false} TotalWithout(tables: seq<Relation>, rows: seq<Row>, j: nat, s: SelectInfo)
    requires j < |rows|
    ensures Total(tables, rows, s) == Total(tables, rows[..j] + rows[j + 1..], s) + Cell(tables, rows[j], s)
  {
    var n := |rows| - 1;
    var rest := rows[..j] + rows[j + 1..];
    if j == n {
      assert rest == rows[..n];
    } else {
      TotalWithout(tables, rows[..n], j, s);
      assert rest[..|rest| - 1] == rows[..n][..j] + rows[..n][j + 1..];
      assert rest[|rest| - 1] == rows[n];
    }
  }

  /** Two lists of the same rows, each without repetition, have the same length and the same sums. */
  lemma {:induction false} SameRowsSameTotal(tables: seq<Relation>, a: seq<Row>, b: seq<Row>, s: SelectInfo)
    requires NoDuplicates(a) && NoDuplicates(b) && forall row :: row in a <==> row in b
    ensures |a| == |b| && Total(tables, a, s) == Total(tables, b, s)
    decreases |a|
  {
    if a == [] {
      if b != [] { FirstIn(b); }
    } else {
      var n := |a| - 1;
      assert a[n] in b;
      var j :| 0 <= j < |b| && b[j] == a[n];
      var rest := b[..j] + b[j + 1..];
      TotalWithout(tables, b, j, s);
      forall row ensures row in a[..n] <==> row in rest {
        WithoutOne(a, n, row);
        WithoutOne(b, j, row);
        assert a[..n] + a[n + 1..] == a[..n];
      }
      SameRowsSameTotal(tables, a[..n], rest, s);
    }
  }

  lemma FirstIn(rows: seq<Row>)
    requires rows != []
    ensures exists row :: row in rows
  {
    assert rows[0] in rows;
  }

  lemma WithoutOne(rows: seq<Row>, j: nat, row: Row)
    requires NoDuplicates(rows) && j < |rows|
    ensures row in rows[..j] + rows[j + 1..] <==> row in rows && row != rows[j]
  {
    var rest := rows[..j] + rows[j + 1..];
    if row in rows && row != rows[j] {
      var i :| 0 <= i < |rows| && rows[i] == row;
      assert rest[if i < j then i else i - 1] == row;
    }
    if row in rest {
      var i :| 0 <= i < |rest| && rest[i] == row;
      assert row == rows[if i < j then i else i + 1];
    }
  }
}
