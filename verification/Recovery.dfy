/** faultTolerance of v4/server/server.c: the request queue rebuilt from the status file,
    before any other thread exists. */
module Recovery {
  import opened Wrappers
  import opened CText
  import opened StatusTable
  import opened StatusFile
  import opened Queues

  lemma {:induction false} RecoveredSnoc(rows: Table, row: Row)
    ensures Recovered(rows + [row]) == (if Unfinished(row.status) then [row.id] else []) + Recovered(rows)
  {
    if rows == [] {
      assert rows + [row] == [row];
      assert [row][1..] == [];
    } else {
      assert (rows + [row])[1..] == rows[1..] + [row];
      RecoveredSnoc(rows[1..], row);
    }
  }

  lemma NextRecovered(rows: Table, k: nat)
    requires k < |rows|
    ensures Recovered(rows[..k + 1])
         == if Unfinished(rows[k].status) then [rows[k].id] + Recovered(rows[..k]) else Recovered(rows[..k])
  {
    RecoveredSnoc(rows[..k], rows[k]);
    assert rows[..k + 1] == rows[..k] + [rows[k]];
  }

  /** The id and the status that recovery reads from a row. */
  lemma RowRead(row: Row)
    ensures var first := Strtok(PrintRow(row) + [NUL], 0, ",");
            var second := Strtok(first.buf, first.next, ",");
            && first.start.Some? && Atoi(CStr(first.buf, first.start.value)) == row.id
            && second.start.Some?
            && CutAt(CStr(second.buf, second.start.value), '\n') == Code(row.status)
    ensures Code(row.status) == "0" || Code(row.status) == "1" <==> Unfinished(row.status)
  {
    FirstToken(row);
    AtoiOfDecimal(row.id, []);
    assert Decimal(row.id) + [] == Decimal(row.id);
    RowStatus(row);
    assert Code(row.status)[0] == "0"[0] || Code(row.status)[0] == "1"[0] <==> Unfinished(row.status);
  }

  method FaultTolerance(status: Option<string>, requestQueue: CircularQueue, ghost rows: Table) returns (r: int)
    requires status.Some? ==> Holds(status, rows)
    requires requestQueue.Valid() && requestQueue.items == []
    modifies requestQueue
    ensures requestQueue.Valid()
    ensures status.None? ==> r == -1 && requestQueue.items == []
    ensures status.Some? ==> r == 0 && requestQueue.items == Recovered(rows)
  {
    if status.None? {
      return -1;
    }
    var file := status.value;
    ghost var k := 0;
    assert rows[0..] == rows;
    while file != ""
      invariant 0 <= k <= |rows|
      invariant file == PrintTable(rows[k..])
      invariant requestQueue.Valid()
      invariant requestQueue.items == Recovered(rows[..k])
      decreases |file|
    {
      assert k < |rows|;
      NextRow(rows, k, 0);
      RowRead(rows[k]);
      NextRecovered(rows, k);

      var line := FgetsLine(file, LINE_SIZE);
      file := FgetsRest(file, LINE_SIZE);
      var token := Strtok(line, 0, ",");
      line := token.buf;
      var requestID := Atoi(CStr(line, token.start.value));
      token := Strtok(line, token.next, ",");
      var st := CutAt(CStr(token.buf, token.start.value), '\n');
      if st == "0" || st == "1" {
        var e := requestQueue.Enqueue(requestID, true);
      }
      k := k + 1;
    }
    assert rows[..k] == rows;
    return 0;
  }
}
