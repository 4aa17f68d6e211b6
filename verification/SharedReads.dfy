/** What a status query reads, and which id a handler gets from a client's message, when the threads of
    v4/server/server.c share strtok's place. */
module SharedReads {
  import opened Wrappers
  import opened CText
  import opened StatusTable
  import opened Requests
  import opened SharedTokens
  import opened SharedUpdates

  // ------------------------------------------------------------------- a status is read

  /** The status code that readStatusFromFile returns, None for NULL or when its second call returns
      NULL. Rows of other requests need only the first call. */
  function ReadText(m: Memory, rows: Table, id: int, turns: seq<Turn>): Option<string>
    requires |turns| == |rows|
    decreases |rows|
  {
    if rows == [] then None else
    var (token, m1) := CutFirst(RowLine(rows[0]), m, turns[0].before);
    var m2 := PerformAll(m1, turns[0].between);
    if token == Some(Decimal(id)) then
      var (word, m3) := Resume(m2, ",");
      if word.None? then None else Some(CutAt(word.value, '\n'))
    else ReadText(PerformAll(m2, turns[0].after), rows[1..], id, turns[1..])
  }

  /** A query reads the status of its row if the turn is clear, or if the text that other threads leave
      happens to have the same code as its next word. */
  predicate RowRead(row: Row, position: Option<nat>, turn: Turn) {
    Clear(row, position, turn) || WordOf(LeftFor(row, position, turn), ",") == Code(row.status)
  }

  predicate ReadUndisturbed(rows: Table, id: int, position: Option<nat>, turns: seq<Turn>)
    requires |turns| == |rows|
    decreases |rows|
  {
    rows != [] ==>
      if rows[0].id == id then RowRead(rows[0], position, turns[0])
      else ReadUndisturbed(rows[1..], id, NextPosition(rows[0], position, false, turns[0]), turns[1..])
  }

  lemma {:induction false} CutPlain(s: string, rest: string)
    requires '\n' !in s && (rest == "" || rest[0] == '\n')
    ensures CutAt(s + rest, '\n') == s
  {
    if s == "" {
      assert s + rest == rest;
    } else {
      assert (s + rest)[1..] == s[1..] + rest;
      CutPlain(s[1..], rest);
    }
  }

  lemma CutOfPlain(s: string)
    requires '\n' !in s
    ensures CutAt(s, '\n') == s && CutAt(s + "\n", '\n') == s
  {
    CutPlain(s, "");
    assert s + "" == s;
    CutPlain(s, "\n");
  }

  /** A harmless word gives a status code only if it is that code. */
  lemma CutOfHarmless(w: string, st: Status)
    requires Harmless(w)
    ensures CutAt(w, '\n') == Code(st) <==> w == Code(st)
  {
    if '\n' !in w {
      CutOfPlain(w);
    } else {
      var k :| 0 <= k < |w| && w[k] == '\n';
      var front := w[..k];
      assert '\n' !in front;
      CutOfPlain(front);
      assert w == front + "\n";
    }
  }

  /** The query's own row: exactly when its status is read. */
  lemma OwnRowRead(m: Memory, row: Row, turn: Turn)
    requires OrdinaryTurn(turn)
    ensures var (word, m') := Resume(PerformAll(CutFirst(RowLine(row), m, turn.before).1, turn.between), ",");
            (word.Some? && CutAt(word.value, '\n') == Code(row.status)) <==> RowRead(row, Position(m), turn)
  {
    var line := RowLine(row);
    RowIsLine(row);
    OrdinaryIsOne(turn.before);
    FirstCallLeaves(line, m, turn.before);
    var m1 := CutFirst(line, m, turn.before).1;
    PerformText(m1, turn.between, line.head);
    ResumeText(PerformAll(m1, turn.between), ",", line.head);
    LeftInTurn(row, Position(m), turn);
    var left := LeftFor(row, Position(m), turn);
    if Clear(row, Position(m), turn) {
      RestTakenWhole(row.status, ",");
      CutOfPlain(Code(row.status));
    } else {
      HarmlessParts(left, ",");
      CutOfHarmless(WordOf(left, ","), row.status);
    }
  }

  lemma OtherRowPosition(m: Memory, row: Row, turn: Turn)
    requires OrdinaryTurn(turn)
    ensures var m2 := PerformAll(CutFirst(RowLine(row), m, turn.before).1, turn.between);
            Position(PerformAll(m2, turn.after)) == NextPosition(row, Position(m), false, turn)
  {
    OrdinaryIsOne(turn.before);
    OrdinaryIsOne(turn.between);
    OrdinaryIsOne(turn.after);
    PerformBoth(CutFirst(RowLine(row), m, turn.before).1, turn.between, turn.after);
    HasConcat(turn.between, turn.after);
    OneConcat(turn.between, turn.after);
    PositionIn(m, row, turn.before, turn.between + turn.after);
  }

  /** What a query ought to read. */
  function StatusText(rows: Table, id: int): Option<string> {
    match Lookup(rows, id)
    case None => None
    case Some(st) => Some(Code(st))
  }

  /** The exact condition under which a query reads the status of its id, or finds no row, for any
      table, from any memory and with any ordinary calls of other threads. */
  lemma {:induction false} ReadExactIff(m: Memory, rows: Table, id: int, turns: seq<Turn>)
    requires |turns| == |rows| && forall k :: 0 <= k < |turns| ==> OrdinaryTurn(turns[k])
    ensures ReadText(m, rows, id, turns) == StatusText(rows, id) <==> ReadUndisturbed(rows, id, Position(m), turns)
    decreases |rows|
  {
    if rows != [] {
      OrdinaryIsOne(turns[0].before);
      OwnRow(m, rows[0], id, turns[0].before);
      if rows[0].id == id {
        OwnRowRead(m, rows[0], turns[0]);
      } else {
        OtherRowPosition(m, rows[0], turns[0]);
        var m2 := PerformAll(CutFirst(RowLine(rows[0]), m, turns[0].before).1, turns[0].between);
        ReadExactIff(PerformAll(m2, turns[0].after), rows[1..], id, turns[1..]);
      }
    }
  }

  // ---------------------------------------------- the same, told from the last call

  predicate NoSeparator(s: string) {
    ':' !in s && ',' !in s
  }

  /** A call on a text with one separator, or a second call of a handler. */
  predicate OneSeparator(call: Call) {
    match call
    case Start(buffer, delims) => NoSeparator(AfterWord(CStr(buffer, 0), delims))
    case Next(delims) => delims == ":" || delims == ","
    case Refilled(text) => NoSeparator(CStr(text, 0))
  }

  ghost predicate AllOneSeparator(calls: seq<Call>) {
    forall k :: 0 <= k < |calls| ==> OneSeparator(calls[k])
  }

  /** The last call is a first call that leaves this code, as a status message for that number does, or
      a fill that puts it where another thread's first call has left the place. */
  predicate Gives(calls: seq<Call>, code: string) {
    calls != [] &&
    var init := calls[..|calls| - 1];
    match calls[|calls| - 1]
    case Start(buffer, delims) => WordOf(AfterWord(CStr(buffer, 0), delims), ",") == code
    case Next(delims) => false
    case Refilled(text) => if HasStart(init) then WordOf(CStr(text, 0), ",") == code else Gives(init, code)
  }

  lemma {:induction false} LeftSnoc(s: string, inOwn: bool, calls: seq<Call>, call: Call)
    ensures Left(s, inOwn, calls + [call]) == Leaves(Left(s, inOwn, calls), inOwn && !HasStart(calls), call)
    decreases |calls|
  {
    if calls == [] {
      assert calls + [call] == [call] && [call][1..] == [];
    } else {
      HasSplit(calls);
      assert (calls + [call])[1..] == calls[1..] + [call];
      LeftSnoc(Leaves(s, inOwn, calls[0]), inOwn && !calls[0].Start?, calls[1..], call);
    }
  }

  lemma HasLast(init: seq<Call>, call: Call)
    ensures HasStart(init + [call]) <==> HasStart(init) || call.Start?
    ensures HasNext(init + [call]) <==> HasNext(init) || call.Next?
  {
    HasConcat(init, [call]);
    assert [call][0] == call;
  }

  lemma NoSeparatorTaken(s: string, delims: string)
    requires NoSeparator(s) && (delims == ":" || delims == ",")
    ensures AfterWord(s, delims) == "" && (delims == "," ==> WordOf(s, delims) == s)
  {
    TakesWhole(s, delims);
  }

  /** What such calls leave has no separator. After some call of strtok, its next word is a code exactly
      when the last call gives it. */
  lemma {:induction false} LeftByLast(s: string, calls: seq<Call>, code: string)
    requires NoSeparator(s) && AllOneSeparator(calls) && code != ""
    ensures NoSeparator(Left(s, true, calls))
    ensures Quiet(calls) ==> Left(s, true, calls) == s && !Gives(calls, code)
    ensures !Quiet(calls) ==> (WordOf(Left(s, true, calls), ",") == code <==> Gives(calls, code))
    decreases |calls|
  {
    if calls != [] {
      var init, call := calls[..|calls| - 1], calls[|calls| - 1];
      assert calls == init + [call];
      assert forall k :: 0 <= k < |init| ==> init[k] == calls[k];
      LeftByLast(s, init, code);
      LeftSnoc(s, true, init, call);
      HasLast(init, call);
      assert OneSeparator(call);
      if call.Next? {
        NoSeparatorTaken(Left(s, true, init), call.delims);
      }
    }
  }

  /** For calls on texts with one separator: a query reads its row's status exactly when its turn is
      clear or the last call between its two gives that very code. */
  lemma ReadByLastCall(row: Row, position: Option<nat>, turn: Turn)
    requires OrdinaryTurn(turn) && AllOneSeparator(turn.between)
    ensures RowRead(row, position, turn) <==> Clear(row, position, turn) || Gives(turn.between, Code(row.status))
  {
    var s := if Cuts(RowLine(row), position, turn.before) then "" else Code(row.status) + "\n";
    LeftByLast(s, turn.between, Code(row.status));
    if Quiet(turn.between) && s == "" {
      assert WordOf("", ",") == "";
    }
  }

  /** The calls that handlers make on messages of the client program: a status message gives the code
      that it is a query for, and a new request gives none. */
  lemma MessagesGive(id: int, rest: string, code: string)
    requires code != ""
    ensures var query := Start(StatusMessage(id) + [NUL] + rest, ":");
            OneSeparator(query) && (Gives([query], code) <==> Decimal(id) == code)
    ensures var upload := Start("new" + [NUL] + rest, ":");
            OneSeparator(upload) && !Gives([upload], code)
  {
    DecimalChars(id);
    MessageLeaves("status", Decimal(id), rest);
    TakesWhole(Decimal(id), ",");
    BufferText("new", rest);
    TakesWhole("new", ":");
  }

  // -------------------------------------------------------------- a query's own message

  /** A client's status message as it is cut. */
  function MessageLine(id: int): Line {
    Line("status", ':', Decimal(id))
  }

  lemma MessageIsLine(id: int)
    ensures IsLine(MessageLine(id)) && Uncut(MessageLine(id)) == StatusMessage(id) + [NUL]
  {
    DecimalChars(id);
  }

  /** The id that a handler gets from the message, None when its second call returns NULL. */
  function QueryOf(m: Memory, id: int, turn: Turn): Option<int> {
    var m1 := CutFirst(MessageLine(id), m, turn.before).1;
    var (word, m2) := Resume(PerformAll(m1, turn.between), ":");
    if word.None? then None else Some(Atoi(word.value))
  }

  /** For any calls with any texts: the handler gets the number at the start of the text that is left,
      or NULL. */
  lemma QueryIs(m: Memory, id: int, turn: Turn)
    requires AllOne(turn.before)
    ensures var cut := Cuts(MessageLine(id), Position(m), turn.before);
            var w := WordOf(Left(if cut then "" else Decimal(id), true, turn.between), ":");
            QueryOf(m, id, turn) == if w == "" then None else Some(Atoi(w))
  {
    var line := MessageLine(id);
    MessageIsLine(id);
    FirstCallLeaves(line, m, turn.before);
    var m1 := CutFirst(line, m, turn.before).1;
    PerformText(m1, turn.between, line.head);
    ResumeText(PerformAll(m1, turn.between), ":", line.head);
  }

  /** It gets the client's id in a turn that is not disturbed. */
  lemma QueryUndisturbed(m: Memory, id: int, turn: Turn)
    requires AllOne(turn.before) && turn.between == []
    ensures QueryOf(m, id, turn) == if Cuts(MessageLine(id), Position(m), turn.before) then None else Some(id)
  {
    QueryIs(m, id, turn);
    DecimalChars(id);
    TakesWhole(Decimal(id), ":");
    AtoiOfDecimal(id, []);
    assert Decimal(id) + [] == Decimal(id);
  }

  /** A worker's two calls for a row. */
  function CopyCalls(row: Row): seq<Call> {
    [Start(PrintRow(row) + [NUL], ","), Next(" ")]
  }

  lemma CopyCallsLeave(s: string, row: Row)
    ensures Left(s, true, CopyCalls(row)) == ""
  {
    var buffer, rest := PrintRow(row) + [NUL], Code(row.status) + "\n";
    DecimalChars(row.id);
    BufferText(PrintRow(row), "");
    assert buffer + "" == buffer;
    assert PrintRow(row) == Decimal(row.id) + ([','] + rest);
    WordThenRest(Decimal(row.id), ',', rest, ",");
    RestTakenWhole(row.status, " ");
    var first := [Start(buffer, ",")];
    assert CopyCalls(row) == first + [Next(" ")];
    LeftSnoc(s, true, first, Next(" "));
    LeftSnoc(s, true, [], Start(buffer, ","));
    assert [] + [Start(buffer, ",")] == first;
  }

  /** The workers disturb the handlers as well: after a worker's two calls for a row, the handler's
      second call returns NULL. */
  lemma QueryCrossed(m: Memory, id: int, row: Row)
    ensures QueryOf(m, id, Turn([], CopyCalls(row), [])) == None
  {
    QueryIs(m, id, Turn([], CopyCalls(row), []));
    CopyCallsLeave(Decimal(id), row);
  }
}
