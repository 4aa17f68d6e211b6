/** The status table: what request_status.csv means and how it is printed.

    A table is a sequence of rows, oldest first. */
module StatusTable {
  import opened Wrappers
  import opened CText

  /** The status codes "0" to "5" (v4/server/remarks.txt). */
  datatype Status = Queued | Grading | CompileError | RuntimeError | WrongOutput | Passed

  datatype Row = Row(id: int, status: Status)

  type Table = seq<Row>

  /** The request still has to be graded: status "0" or "1". */
  predicate Unfinished(st: Status) {
    st.Queued? || st.Grading?
  }

  function Code(st: Status): (s: string)
    ensures |s| == 1 && IsDigit(s[0])
  {
    match st
    case Queued => "0"
    case Grading => "1"
    case CompileError => "2"
    case RuntimeError => "3"
    case WrongOutput => "4"
    case Passed => "5"
  }

  /** The line "id,status\n". */
  function PrintRow(row: Row): (s: string) {
    Decimal(row.id) + "," + Code(row.status) + "\n"
  }

  /** The lines in full: what each status looks like in the file. */
  lemma RowTexts(id: int)
    ensures PrintRow(Row(id, Queued)) == Decimal(id) + ",0\n"
    ensures PrintRow(Row(id, Grading)) == Decimal(id) + ",1\n"
    ensures PrintRow(Row(id, CompileError)) == Decimal(id) + ",2\n"
    ensures PrintRow(Row(id, RuntimeError)) == Decimal(id) + ",3\n"
    ensures PrintRow(Row(id, WrongOutput)) == Decimal(id) + ",4\n"
    ensures PrintRow(Row(id, Passed)) == Decimal(id) + ",5\n"
  {
  }

  function PrintTable(rows: Table): string {
    if rows == [] then "" else PrintRow(rows[0]) + PrintTable(rows[1..])
  }

  /** The row with its status replaced when it is the request's row. */
  function ReplaceRow(row: Row, id: int, st: Status): Row {
    if row.id == id then Row(id, st) else row
  }

  /** The table with the status of every row of `id` replaced. */
  function Replace(rows: Table, id: int, st: Status): (r: Table)
    ensures |r| == |rows|
    ensures forall k :: 0 <= k < |rows| ==> r[k] == ReplaceRow(rows[k], id, st)
  {
    seq(|rows|, k requires 0 <= k < |rows| => ReplaceRow(rows[k], id, st))
  }

  predicate HasRow(rows: Table, id: int) {
    exists k :: 0 <= k < |rows| && rows[k].id == id
  }

  /** The status in the first row of `id`. */
  function Lookup(rows: Table, id: int): (r: Option<Status>)
    ensures r.Some? <==> HasRow(rows, id)
    ensures r.Some? ==> Row(id, r.value) in rows
  {
    if rows == [] then None
    else if rows[0].id == id then Some(rows[0].status)
    else
      var r := Lookup(rows[1..], id);
      assert r.Some? <==> exists k :: 1 <= k < |rows| && rows[k].id == id by {
        if r.Some? {
          var k :| 0 <= k < |rows[1..]| && rows[1..][k].id == id;
          assert rows[k + 1].id == id;
        }
        if k :| 1 <= k < |rows| && rows[k].id == id {
          assert rows[1..][k - 1].id == id;
        }
      }
      r
  }

  predicate DistinctIds(rows: Table) {
    forall j, k :: 0 <= j < k < |rows| ==> rows[j].id != rows[k].id
  }

  /** The requests that recovery puts back, in the order of the queue it builds: each is
      pushed at the front, so the last row of the file comes first. */
  function Recovered(rows: Table): (ids: seq<int>)
    ensures |ids| <= |rows|
  {
    if rows == [] then []
    else Recovered(rows[1..]) + (if Unfinished(rows[0].status) then [rows[0].id] else [])
  }

  lemma {:induction false} PrintTableSnoc(rows: Table, row: Row)
    ensures PrintTable(rows + [row]) == PrintTable(rows) + PrintRow(row)
  {
    if rows == [] {
      assert rows + [row] == [row];
      assert [row][1..] == [];
    } else {
      assert (rows + [row])[1..] == rows[1..] + [row];
      PrintTableSnoc(rows[1..], row);
    }
  }

  /** A lookup in a table with distinct ids finds exactly the row of the id. */
  lemma {:induction false} LookupAt(rows: Table, k: nat)
    requires DistinctIds(rows) && k < |rows|
    ensures Lookup(rows, rows[k].id) == Some(rows[k].status)
  {
    if k > 0 {
      assert rows[0].id != rows[k].id;
      assert DistinctIds(rows[1..]);
      LookupAt(rows[1..], k - 1);
    }
  }

  /** An update is seen by the lookup of that id and of no other. */
  lemma {:induction false} LookupAfterReplace(rows: Table, id: int, st: Status, other: int)
    ensures Lookup(Replace(rows, id, st), other)
         == if other == id && HasRow(rows, id) then Some(st) else Lookup(rows, other)
  {
    if rows != [] {
      assert Replace(rows, id, st)[1..] == Replace(rows[1..], id, st);
      LookupAfterReplace(rows[1..], id, st, other);
      assert Lookup(rows, id).Some? <==> HasRow(rows, id);
      assert Lookup(rows[1..], id).Some? <==> HasRow(rows[1..], id);
    }
  }

  /** An appended row is seen exactly by the lookups that found nothing before. */
  lemma {:induction false} LookupAfterAppend(rows: Table, row: Row, other: int)
    ensures Lookup(rows + [row], other)
         == if other == row.id && !HasRow(rows, other) then Some(row.status) else Lookup(rows, other)
  {
    if rows == [] {
      assert rows + [row] == [row];
      assert [row][1..] == [];
    } else {
      assert (rows + [row])[1..] == rows[1..] + [row];
      LookupAfterAppend(rows[1..], row, other);
      assert Lookup(rows, other).Some? <==> HasRow(rows, other);
      assert Lookup(rows[1..], other).Some? <==> HasRow(rows[1..], other);
    }
  }

  /** The recovered queue holds exactly the ids of the unfinished rows. */
  lemma {:induction false} RecoveredExactly(rows: Table, id: int)
    ensures id in Recovered(rows) <==> exists k :: 0 <= k < |rows| && rows[k].id == id && Unfinished(rows[k].status)
  {
    if rows != [] {
      RecoveredExactly(rows[1..], id);
      if k :| 0 <= k < |rows[1..]| && rows[1..][k].id == id && Unfinished(rows[1..][k].status) {
        assert rows[k + 1].id == id;
      }
      if k :| 0 <= k < |rows| && rows[k].id == id && Unfinished(rows[k].status) {
        if k > 0 {
          assert rows[1..][k - 1].id == id;
        }
      }
    }
  }

  /** Each unfinished request is put back once. */
  lemma {:induction false} RecoveredOnce(rows: Table, j: nat, k: nat)
    requires DistinctIds(rows) && j < k < |Recovered(rows)|
    ensures Recovered(rows)[j] != Recovered(rows)[k]
  {
    var rest := Recovered(rows[1..]);
    assert DistinctIds(rows[1..]);
    if k < |rest| {
      RecoveredOnce(rows[1..], j, k);
    } else {
      RecoveredExactly(rows[1..], rest[j]);
      assert rest[j] in rest;
      var m :| 0 <= m < |rows[1..]| && rows[1..][m].id == rest[j];
      assert rows[m + 1].id == rest[j];
    }
  }

  /** The queue order: of two unfinished rows, the later one in the file is taken first. */
  lemma {:induction false} RecoveredOrder(rows: Table, a: nat, b: nat)
    requires DistinctIds(rows) && a < b < |rows|
    requires Unfinished(rows[a].status) && Unfinished(rows[b].status)
    ensures exists j, k :: 0 <= j < k < |Recovered(rows)|
                        && Recovered(rows)[j] == rows[b].id && Recovered(rows)[k] == rows[a].id
  {
    assert DistinctIds(rows[1..]);
    if a > 0 {
      RecoveredOrder(rows[1..], a - 1, b - 1);
      var j, k :| 0 <= j < k < |Recovered(rows[1..])|
               && Recovered(rows[1..])[j] == rows[b].id && Recovered(rows[1..])[k] == rows[a].id;
      assert Recovered(rows)[j] == rows[b].id && Recovered(rows)[k] == rows[a].id;
    } else {
      RecoveredExactly(rows[1..], rows[b].id);
      assert rows[1..][b - 1] == rows[b];
      var j :| 0 <= j < |Recovered(rows[1..])| && Recovered(rows[1..])[j] == rows[b].id;
      var k := |Recovered(rows[1..])|;
      assert Recovered(rows)[j] == rows[b].id && Recovered(rows)[k] == rows[a].id;
    }
  }

  lemma {:induction false} PrintConcat(a: Table, b: Table)
    ensures PrintTable(a + b) == PrintTable(a) + PrintTable(b)
  {
    if a == [] {
      assert a + b == b;
    } else {
      assert (a + b)[1..] == a[1..] + b;
      PrintConcat(a[1..], b);
    }
  }

  /** What an update of a request that has row `k` makes of the text. */
  lemma ReplacedText(rows: Table, k: nat, st: Status)
    requires DistinctIds(rows) && k < |rows|
    ensures PrintTable(Replace(rows, rows[k].id, st))
         == PrintTable(rows[..k]) + PrintRow(Row(rows[k].id, st)) + PrintTable(rows[k + 1..])
  {
    var row := Row(rows[k].id, st);
    assert Replace(rows, rows[k].id, st) == rows[..k] + [row] + rows[k + 1..];
    PrintConcat(rows[..k] + [row], rows[k + 1..]);
    PrintTableSnoc(rows[..k], row);
  }
}
