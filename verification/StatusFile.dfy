/** The two files of v4/server/utils/file_update.c and the functions on them, at the level of
    characters. A missing file is None; opening, removing, renaming and closing succeed. */
module StatusFile {
  import opened Wrappers
  import opened CText
  import opened StatusTable

  /** sizeof(line) */
  const LINE_SIZE: nat := 256
  /** sizeof(s1) */
  const ID_SIZE: nat := 11

  /** Every id of the table is a C int. */
  predicate IntIds(rows: Table) {
    forall k :: 0 <= k < |rows| ==> IsInt32(rows[k].id)
  }

  /** The file holds exactly this table. */
  predicate Holds(file: Option<string>, rows: Table) {
    file == Some(PrintTable(rows)) && IntIds(rows)
  }

  /** `fgets` on a printed table takes the first row and leaves the others. */
  lemma FgetsRow(rows: Table)
    requires IntIds(rows) && rows != []
    ensures FgetsLine(PrintTable(rows), LINE_SIZE) == PrintRow(rows[0]) + [NUL]
    ensures FgetsRest(PrintTable(rows), LINE_SIZE) == PrintTable(rows[1..])
  {
    var line := Decimal(rows[0].id) + "," + Code(rows[0].status);
    DecimalLength(rows[0].id);
    DecimalChars(rows[0].id);
    assert '\n' !in line;
    FgetsAt(line, PrintTable(rows[1..]), LINE_SIZE);
    assert PrintTable(rows) == line + ['\n'] + PrintTable(rows[1..]);
    assert line + ['\n', NUL] == PrintRow(rows[0]) + [NUL];
  }

  /** The buffer of a row once its comma has been overwritten. */
  function SplitRow(row: Row): string {
    Decimal(row.id) + [NUL] + Code(row.status) + "\n" + [NUL]
  }

  /** The first token of a row is its printed id, which is then also what the buffer prints as. */
  lemma FirstToken(row: Row)
    ensures Strtok(PrintRow(row) + [NUL], 0, ",") == Token(SplitRow(row), Some(0), |Decimal(row.id)| + 1)
    ensures CStr(SplitRow(row), 0) == Decimal(row.id)
  {
    var s, post := Decimal(row.id), Code(row.status) + "\n" + [NUL];
    DecimalChars(row.id);
    StrtokInner("", s, ',', post, ",");
    assert PrintRow(row) + [NUL] == "" + s + [','] + post;
    assert SplitRow(row) == "" + s + [NUL] + post;
  }

  /** The second token of a row is its status code and the newline, whether the call stops at
      spaces (the copying code) or at commas (the reading code). */
  lemma SecondToken(row: Row, delims: string)
    requires delims == " " || delims == ","
    ensures Strtok(SplitRow(row), |Decimal(row.id)| + 1, delims)
         == Token(SplitRow(row), Some(|Decimal(row.id)| + 1), |SplitRow(row)| - 1)
    ensures CStr(SplitRow(row), |Decimal(row.id)| + 1) == Code(row.status) + "\n"
  {
    var pre, s := Decimal(row.id) + [NUL], Code(row.status) + "\n";
    StrtokLast(pre, s, "", delims);
    assert SplitRow(row) == pre + s + [NUL] + "";
  }

  /** The comparison of the first token with the printed request id decides whether the row is
      the request's row. */
  lemma RowMatches(row: Row, requestID: int)
    ensures var token := Strtok(PrintRow(row) + [NUL], 0, ",");
            && token.start.Some?
            && (CStr(token.buf, token.start.value) == Decimal(requestID) <==> row.id == requestID)
  {
    FirstToken(row);
    if Decimal(row.id) == Decimal(requestID) {
      DecimalInjective(row.id, requestID);
    }
  }

  /** A row that is not the request's is printed back byte for byte. */
  lemma RowCopied(row: Row)
    ensures var first := Strtok(PrintRow(row) + [NUL], 0, ",");
            var second := Strtok(first.buf, first.next, " ");
            && second.start.Some?
            && CStr(second.buf, 0) + "," + CStr(second.buf, second.start.value) == PrintRow(row)
  {
    FirstToken(row);
    SecondToken(row, " ");
    assert Decimal(row.id) + "," + (Code(row.status) + "\n") == PrintRow(row);
  }

  /** The status read from a row is its code. */
  lemma RowStatus(row: Row)
    ensures var first := Strtok(PrintRow(row) + [NUL], 0, ",");
            var second := Strtok(first.buf, first.next, ",");
            && second.start.Some?
            && CutAt(CStr(second.buf, second.start.value), '\n') == Code(row.status)
  {
    FirstToken(row);
    SecondToken(row, ",");
    var s := Code(row.status) + "\n";
    assert s[1..] == "\n";
    assert CutAt(s, '\n') == [s[0]] + CutAt(s[1..], '\n');
  }

  /** One turn of a loop over the file: `fgets` takes row `k`. */
  lemma NextRow(rows: Table, k: nat, requestID: int)
    requires IntIds(rows) && k < |rows|
    ensures PrintTable(rows[k..]) != ""
    ensures FgetsLine(PrintTable(rows[k..]), LINE_SIZE) == PrintRow(rows[k]) + [NUL]
    ensures FgetsRest(PrintTable(rows[k..]), LINE_SIZE) == PrintTable(rows[k + 1..])
    ensures Lookup(rows[k..], requestID)
         == if rows[k].id == requestID then Some(rows[k].status) else Lookup(rows[k + 1..], requestID)
  {
    var rest := rows[k..];
    assert rest[0] == rows[k] && rest[1..] == rows[k + 1..];
    FgetsRow(rest);
  }

  /** The printed prefix of the new table grows by the printed form of its row `k`. */
  lemma NextCopy(rows: Table, k: nat, requestID: int, st: Status)
    requires k < |rows|
    ensures PrintTable(Replace(rows, requestID, st)[..k + 1])
         == PrintTable(Replace(rows, requestID, st)[..k]) + PrintRow(ReplaceRow(rows[k], requestID, st))
  {
    var updated := Replace(rows, requestID, st);
    PrintTableSnoc(updated[..k], updated[k]);
    assert updated[..k + 1] == updated[..k] + [updated[k]];
  }

  /** One turn of the copying loop: what becomes of a line. */
  method CopyLine(line: string, requestID: int, newStatus: Status, ghost row: Row) returns (copy: string, found: bool)
    requires line == PrintRow(row) + [NUL]
    requires |Decimal(requestID)| + 1 <= ID_SIZE
    ensures copy == PrintRow(ReplaceRow(row, requestID, newStatus))
    ensures found <==> row.id == requestID
  {
    RowMatches(row, requestID);
    RowCopied(row);
    var token := Strtok(line, 0, ",");
    var s1 := Decimal(requestID);
    found := token.start.Some? && CStr(token.buf, token.start.value) == s1;
    if found {
      copy := s1 + "," + Code(newStatus) + "\n";
    } else {
      token := Strtok(token.buf, token.next, " ");
      copy := CStr(token.buf, 0) + "," + CStr(token.buf, token.start.value);
    }
  }

  /** The loop's invariant: `k` rows are copied, and the flag says whether one of them matched. */
  ghost predicate Copying(file: string, tempFile: string, found: bool, rows: Table, k: nat, requestID: int,
                          st: Status)
  {
    && k <= |rows|
    && file == PrintTable(rows[k..])
    && tempFile == PrintTable(Replace(rows, requestID, st)[..k])
    && (HasRow(rows, requestID) <==> found || HasRow(rows[k..], requestID))
  }

  lemma CopyingStarts(rows: Table, requestID: int, st: Status)
    ensures Copying(PrintTable(rows), "", false, rows, 0, requestID, st)
  {
    assert rows[0..] == rows;
  }

  lemma CopyingGoesOn(file: string, tempFile: string, found: bool, rows: Table, k: nat, requestID: int, st: Status)
    requires Copying(file, tempFile, found, rows, k, requestID, st) && IntIds(rows) && file != ""
    ensures k < |rows| && FgetsLine(file, LINE_SIZE) == PrintRow(rows[k]) + [NUL]
    ensures Copying(FgetsRest(file, LINE_SIZE), tempFile + PrintRow(ReplaceRow(rows[k], requestID, st)),
                    found || rows[k].id == requestID, rows, k + 1, requestID, st)
  {
    NextRow(rows, k, requestID);
    NextCopy(rows, k, requestID, st);
    assert Lookup(rows[k..], requestID).Some? <==> HasRow(rows[k..], requestID);
    assert Lookup(rows[k + 1..], requestID).Some? <==> HasRow(rows[k + 1..], requestID);
  }

  lemma CopyingEnds(file: string, tempFile: string, found: bool, rows: Table, k: nat, requestID: int, st: Status)
    requires Copying(file, tempFile, found, rows, k, requestID, st) && IntIds(rows) && file == ""
    ensures tempFile == PrintTable(Replace(rows, requestID, st))
    ensures found <==> HasRow(rows, requestID)
  {
    if k < |rows| {
      NextRow(rows, k, requestID);
      assert false;
    }
    assert Replace(rows, requestID, st)[..k] == Replace(rows, requestID, st);
  }

  /** The copying loop of updateStatusToFile: from the text of the file, the text of the
      temporary file and the requestFound flag. */
  method CopyRows(contents: string, requestID: int, newStatus: Status, ghost rows: Table)
    returns (tempFile: string, requestFound: bool)
    requires contents == PrintTable(rows) && IntIds(rows)
    requires |Decimal(requestID)| + 1 <= ID_SIZE
    ensures tempFile == PrintTable(Replace(rows, requestID, newStatus))
    ensures requestFound <==> HasRow(rows, requestID)
  {
    var file := contents;
    tempFile, requestFound := "", false;
    ghost var k: nat := 0;
    CopyingStarts(rows, requestID, newStatus);
    while file != ""
      invariant Copying(file, tempFile, requestFound, rows, k, requestID, newStatus)
      decreases |file|
    {
      CopyingGoesOn(file, tempFile, requestFound, rows, k, requestID, newStatus);
      var copy, found := CopyLine(FgetsLine(file, LINE_SIZE), requestID, newStatus, rows[k]);
      file := FgetsRest(file, LINE_SIZE);
      tempFile := tempFile + copy;
      if found {
        requestFound := true;
      }
      k := k + 1;
    }
    CopyingEnds(file, tempFile, requestFound, rows, k, requestID, newStatus);
  }

  /** What reading a status comes to: NULL, a status code, or a printed id that does not fit s1. */
  datatype Reading = Nothing | Found(code: string) | Overrun

  /** A read prints the id once for every row it looks at. */
  predicate Overruns(rows: Table, requestID: int) {
    rows != [] && |Decimal(requestID)| + 1 > ID_SIZE
  }

  /** Exactly which ids do not fit: those of ten digits and a sign. */
  lemma OverrunsIff(rows: Table, requestID: int)
    requires IsInt32(requestID)
    ensures Overruns(rows, requestID) <==> rows != [] && requestID <= -1_000_000_000
  {
    DecimalLength(requestID);
  }

  /** One turn of the reading loop: the code on the line, if the line is the request's. */
  method ReadLine(line: string, requestID: int, ghost row: Row) returns (r: Reading)
    requires line == PrintRow(row) + [NUL]
    ensures r == if |Decimal(requestID)| + 1 > ID_SIZE then Overrun
                 else if row.id == requestID then Found(Code(row.status)) else Nothing
  {
    RowMatches(row, requestID);
    RowStatus(row);
    var token := Strtok(line, 0, ",");
    var s1 := Decimal(requestID);
    if |s1| + 1 > ID_SIZE {
      return Overrun;
    }
    if token.start.Some? && CStr(token.buf, token.start.value) == s1 {
      token := Strtok(token.buf, token.next, ",");
      return Found(CutAt(CStr(token.buf, token.start.value), '\n'));
    }
    return Nothing;
  }

  lemma NewLine(contents: string, requestID: int)
    ensures contents + (Decimal(requestID) + "," + Code(Queued) + "\n") == contents + Decimal(requestID) + ",0\n"
  {
    RowTexts(requestID);
    assert PrintRow(Row(requestID, Queued)) == Decimal(requestID) + "," + Code(Queued) + "\n";
  }

  /** The printed table with row `k` written as `line`. */
  function Lines(rows: Table, k: nat, line: string): Option<string>
    requires k < |rows|
  {
    Some(PrintTable(rows[..k]) + line + PrintTable(rows[k + 1..]))
  }

  class Files {
    /** request_status.csv */
    var status: Option<string>
    /** temp_status.csv */
    var temp: Option<string>

    /** Appends a row; append mode creates a missing file. */
    method WriteStatusToFile(requestID: int, st: Status, ghost rows: Table) returns (r: int)
      requires status.Some? ==> Holds(status, rows)
      requires status.None? ==> rows == []
      modifies this`status
      ensures r == 0
      ensures IsInt32(requestID) ==> Holds(status, rows + [Row(requestID, st)])
      ensures status == Some(PrintTable(rows + [Row(requestID, st)]))
      ensures st == Queued ==>
                status == Some((if old(status).None? then "" else old(status).value) + Decimal(requestID) + ",0\n")
    {
      var contents := if status.None? then "" else status.value;
      status := Some(contents + (Decimal(requestID) + "," + Code(st) + "\n"));
      r := 0;
      PrintTableSnoc(rows, Row(requestID, st));
      NewLine(contents, requestID);
    }

    /** Rewrites the table through the temporary file. The 11 bytes of `s1` must hold the
        printed id and its NUL. */
    method UpdateStatusToFile(requestID: int, newStatus: Status, ghost rows: Table) returns (r: int)
      requires status.Some? ==> Holds(status, rows)
      requires IsInt32(requestID) && |Decimal(requestID)| + 1 <= ID_SIZE
      modifies this
      ensures old(status).None? ==> r == -1 && status == None && temp == old(temp)
      ensures old(status).Some? ==> Holds(status, Replace(rows, requestID, newStatus)) && temp == None
      ensures old(status).Some? ==> r == if HasRow(rows, requestID) then 0 else -1
    {
      if status.None? {
        return -1;
      }
      temp := Some("");
      var tempFile, requestFound := CopyRows(status.value, requestID, newStatus, rows);
      temp := Some(tempFile);
      status := None;
      status, temp := temp, None;
      r := if requestFound then 0 else -1;
    }

    /** Looks a request up: the status code in its first row, if it has one. */
    method ReadStatusFromFile(requestID: int, ghost rows: Table) returns (r: Reading)
      requires status.Some? ==> Holds(status, rows)
      ensures status.None? ==> r == Nothing
      ensures status.Some? ==> (r == Overrun <==> Overruns(rows, requestID))
      ensures status.Some? && !Overruns(rows, requestID) ==>
                r == match Lookup(rows, requestID) case None => Nothing case Some(st) => Found(Code(st))
    {
      if status.None? {
        return Nothing;
      }
      var file := status.value;
      ghost var k: nat := 0;
      assert rows[0..] == rows;
      while file != ""
        invariant k <= |rows|
        invariant file == PrintTable(rows[k..])
        invariant Lookup(rows, requestID) == Lookup(rows[k..], requestID)
        invariant k > 0 ==> !Overruns(rows, requestID)
        decreases |file|
      {
        assert k < |rows|;
        NextRow(rows, k, requestID);
        r := ReadLine(FgetsLine(file, LINE_SIZE), requestID, rows[k]);
        if !r.Nothing? {
          return;
        }
        file := FgetsRest(file, LINE_SIZE);
        k := k + 1;
      }
      if k < |rows| {
        NextRow(rows, k, requestID);
        assert false;
      }
      return Nothing;
    }

    /** An update of a request that has row `k`, and a read after it: the line in the file, and the code
        that is read, in full for each status that an update writes. */
    method UpdateAndRead(requestID: int, newStatus: Status, ghost rows: Table, ghost k: nat) returns (r: Reading)
      requires Holds(status, rows) && DistinctIds(rows) && k < |rows| && rows[k].id == requestID
      requires |Decimal(requestID)| + 1 <= ID_SIZE
      modifies this
      ensures newStatus == Grading ==> r == Found("1") && status == Lines(rows, k, Decimal(requestID) + ",1\n")
      ensures newStatus == CompileError ==> r == Found("2") && status == Lines(rows, k, Decimal(requestID) + ",2\n")
      ensures newStatus == RuntimeError ==> r == Found("3") && status == Lines(rows, k, Decimal(requestID) + ",3\n")
      ensures newStatus == WrongOutput ==> r == Found("4") && status == Lines(rows, k, Decimal(requestID) + ",4\n")
      ensures newStatus == Passed ==> r == Found("5") && status == Lines(rows, k, Decimal(requestID) + ",5\n")
    {
      assert IsInt32(rows[k].id);
      ghost var updated := Replace(rows, requestID, newStatus);
      var done := UpdateStatusToFile(requestID, newStatus, rows);
      r := ReadStatusFromFile(requestID, updated);
      LookupAfterReplace(rows, requestID, newStatus, requestID);
      ReplacedText(rows, k, newStatus);
      RowTexts(requestID);
    }
  }
}
