/** The update of the status file as the server's machine has it, row by row, against the update on
    the characters of the file. */
module ServerText {
  import opened CText
  import opened StatusTable
  import StatusFile
  import SharedTokens
  import SharedUpdates
  import opened GradingServer
  import opened ServerInvariants
  import opened ServerSafety

  /** Every id of the table on disk is a C int. */
  lemma TableIds(s: Server)
    requires Inv(s)
    ensures StatusFile.IntIds(View(s))
  {
    var rows := View(s);
    forall k | 0 <= k < |rows|
      ensures IsInt32(rows[k].id)
    {
      assert HasRow(rows, rows[k].id);
      assert StatusOf(s, rows[k].id).Some?;
    }
  }

  lemma HasRowSplit(rows: Table, k: nat, id: int)
    requires k <= |rows|
    ensures HasRow(rows, id) <==> HasRow(rows[..k], id) || HasRow(rows[k..], id)
  {
    if j :| 0 <= j < |rows| && rows[j].id == id {
      if j < k {
        assert rows[..k][j].id == id;
      } else {
        assert rows[k..][j - k].id == id;
      }
    }
    if j :| 0 <= j < |rows[k..]| && rows[k..][j].id == id {
      assert rows[k + j].id == id;
    }
  }

  /** The text of the two files in the middle of an update is that of the copying loop after the same
      number of turns. */
  lemma InTheLoop(s: Server, i: nat)
    requires Inv(s) && i < |s.graders| && s.graders[i].Updating? && s.graders[i].phase.Copying?
    ensures var pc, k := s.graders[i], s.graders[i].phase.k;
            && s.status.Some? && s.temp.Some? && k <= |s.status.value| && StatusFile.IntIds(s.status.value)
            && StatusFile.Copying(PrintTable(s.status.value[k..]), PrintTable(s.temp.value),
                                  HasRow(s.status.value[..k], pc.id), s.status.value, k, pc.id, pc.st)
  {
    TableIds(s);
    assert UpdateInv(s, s.graders[i]);
    HasRowSplit(s.status.value, s.graders[i].phase.k, s.graders[i].id);
  }

  /** A turn of the machine is a turn of the loop: `fgets` takes the row, and the line that the worker
      writes for it takes the text of the temporary file to the text of the next one. */
  lemma TurnInText(s: Server, i: nat)
    requires Inv(s) && Enabled(s, Grade(i, CopyLine))
    ensures var pc, k, s' := s.graders[i], s.graders[i].phase.k, Next(s, Grade(i, CopyLine));
            var file := PrintTable(s.status.value[k..]);
            && FgetsLine(file, StatusFile.LINE_SIZE) == PrintRow(s.status.value[k]) + [NUL]
            && FgetsRest(file, StatusFile.LINE_SIZE) == PrintTable(s.status.value[k + 1..])
            && PrintTable(s'.temp.value)
               == PrintTable(s.temp.value) + PrintRow(ReplaceRow(s.status.value[k], pc.id, pc.st))
  {
    var pc, k := s.graders[i], s.graders[i].phase.k;
    InTheLoop(s, i);
    StatusFile.NextRow(s.status.value, k, pc.id);
    PrintTableSnoc(s.temp.value, ReplaceRow(s.status.value[k], pc.id, pc.st));
  }

  lemma LineExactIff(m: SharedTokens.Memory, row: Row, id: int, st: Status, turn: SharedUpdates.Turn)
    requires SharedUpdates.OrdinaryTurn(turn)
    ensures var line := SharedUpdates.LineOf(m, row, id, st, turn).0;
            line.Some? && line.value == PrintRow(ReplaceRow(row, id, st))
            <==> (row.id != id ==> SharedUpdates.Clear(row, SharedTokens.Position(m), turn))
  {
    SharedUpdates.OrdinaryIsOne(turn.before);
    SharedUpdates.LineIs(m, row, id, st, turn);
    if row.id != id {
      SharedUpdates.CopyExactIff(m, row, id, st, turn);
    }
  }

  /** The exact condition under which the source makes that turn, from any memory and with any ordinary
      calls of handlers: the turn is clear, unless the row is the worker's own. */
  lemma TurnExactIff(s: Server, i: nat, m: SharedTokens.Memory, turn: SharedUpdates.Turn)
    requires Inv(s) && Enabled(s, Grade(i, CopyLine)) && SharedUpdates.OrdinaryTurn(turn)
    ensures var pc, row, s' := s.graders[i], s.status.value[s.graders[i].phase.k], Next(s, Grade(i, CopyLine));
            var line := SharedUpdates.LineOf(m, row, pc.id, pc.st, turn).0;
            line.Some? && PrintTable(s.temp.value) + line.value == PrintTable(s'.temp.value)
            <==> (row.id != pc.id ==> SharedUpdates.Clear(row, SharedTokens.Position(m), turn))
  {
    var pc, row := s.graders[i], s.status.value[s.graders[i].phase.k];
    TurnInText(s, i);
    LineExactIff(m, row, pc.id, pc.st, turn);
    var line := SharedUpdates.LineOf(m, row, pc.id, pc.st, turn).0;
    if line.Some? {
      SharedUpdates.SameFront(PrintTable(s.temp.value), line.value, PrintRow(ReplaceRow(row, pc.id, pc.st)));
    }
  }

  /** The machine removes the old file where the source does: when it has been read to its end and
      the temporary file is the printed new table. */
  lemma EndsInText(s: Server, i: nat)
    requires Inv(s) && Enabled(s, Grade(i, Remove))
    ensures var pc, s' := s.graders[i], Next(s, Grade(i, Remove));
            && PrintTable(s.status.value[pc.phase.k..]) == ""
            && PrintTable(s.temp.value) == PrintTable(Replace(s.status.value, pc.id, pc.st)) == PrintTable(View(s'))
  {
    var pc := s.graders[i];
    InTheLoop(s, i);
    StatusFile.CopyingEnds("", PrintTable(s.temp.value), HasRow(s.status.value[..pc.phase.k], pc.id),
                           s.status.value, pc.phase.k, pc.id, pc.st);
  }
}
