/** What a worker copies, and what a query reads, when the threads of v4/server/server.c share
    strtok's place. A turn is the work of the loops of v4/server/utils/file_update.c on one row. */
module SharedUpdates {
  import opened Wrappers
  import opened CText
  import opened StatusTable
  import opened Requests
  import opened SharedTokens

  /** What other threads do in one turn: between `fgets` and the first call for the row, between the
      two calls, and after the last call for the row until the next `fgets`. */
  datatype Turn = Turn(before: seq<Call>, between: seq<Call>, after: seq<Call>)

  /** A row as it is cut. */
  function RowLine(row: Row): Line {
    Line(Decimal(row.id), ',', Code(row.status) + "\n")
  }

  lemma RowIsLine(row: Row)
    ensures IsLine(RowLine(row)) && Uncut(RowLine(row)) == PrintRow(row) + [NUL]
  {
    DecimalChars(row.id);
  }

  // --------------------------------------------------------- one row, any calls

  /** The line that a worker writes in its turn for a row, None when its second call returns NULL; and
      the memory after the turn. Only a row that is not the worker's own needs the second call. */
  function LineOf(m: Memory, row: Row, id: int, st: Status, turn: Turn): (Option<string>, Memory) {
    var (token, m1) := CutFirst(RowLine(row), m, turn.before);
    var m2 := PerformAll(m1, turn.between);
    if token == Some(Decimal(id)) then
      (Some(Decimal(id) + "," + Code(st) + "\n"), PerformAll(m2, turn.after))
    else
      var (word, m3) := Resume(m2, " ");
      (if word.None? then None else Some(CStr(m3.own, 0) + "," + word.value), PerformAll(m3, turn.after))
  }

  /** The text that is left for the second call. */
  function LeftFor(row: Row, position: Option<nat>, turn: Turn): string {
    Left(if Cuts(RowLine(row), position, turn.before) then "" else Code(row.status) + "\n", true, turn.between)
  }

  /** For any calls with any texts: the worker knows its own row, and a copy of another row is that
      row's id and the next word of the text that is left. */
  lemma LineIs(m: Memory, row: Row, id: int, st: Status, turn: Turn)
    requires AllOne(turn.before)
    ensures var w := WordOf(LeftFor(row, Position(m), turn), " ");
            LineOf(m, row, id, st, turn).0
            == if row.id == id then Some(PrintRow(Row(id, st)))
               else if w == "" then None
               else Some(Decimal(row.id) + "," + w)
  {
    var line := RowLine(row);
    RowIsLine(row);
    FirstCallLeaves(line, m, turn.before);
    var m1 := CutFirst(line, m, turn.before).1;
    PerformText(m1, turn.between, line.head);
    var m2 := PerformAll(m1, turn.between);
    ResumeText(m2, " ", line.head);
    OwnText(Resume(m2, " ").1, line.head);
    if Decimal(row.id) == Decimal(id) {
      DecimalInjective(row.id, id);
    }
  }

  // ------------------------------------------------------------- the calls of handlers

  /** A text in which a newline can only be the last character, and no digit stands before it: a
      message as the client program sends it, a line of remarks.txt, or the end of one. */
  predicate Harmless(s: string) {
    forall k :: 0 <= k < |s| && s[k] == '\n' ==> k == |s| - 1 && (k > 0 ==> !IsDigit(s[k - 1]))
  }

  /** What a handler does: it cuts a harmless text, calls strtok(NULL) with one of the program's
      delimiters, or fills its buffer with harmless text. */
  predicate Ordinary(call: Call) {
    match call
    case Start(buffer, delims) => Harmless(CStr(buffer, 0))
    case Next(delims) => OneDelim(call)
    case Refilled(text) => Harmless(CStr(text, 0))
  }

  ghost predicate AllOrdinary(calls: seq<Call>) {
    forall k :: 0 <= k < |calls| ==> Ordinary(calls[k])
  }

  ghost predicate OrdinaryTurn(turn: Turn) {
    AllOrdinary(turn.before) && AllOrdinary(turn.between) && AllOrdinary(turn.after)
  }

  lemma OrdinaryIsOne(calls: seq<Call>)
    requires AllOrdinary(calls)
    ensures AllOne(calls)
    ensures calls != [] ==> Ordinary(calls[0]) && AllOrdinary(calls[1..])
  {
    forall k | 0 <= k < |calls|
      ensures OneDelim(calls[k])
    {
      assert Ordinary(calls[k]);
    }
    if calls != [] {
      assert forall k :: 0 <= k < |calls[1..]| ==> calls[1..][k] == calls[k + 1];
    }
  }

  /** No other thread calls strtok. */
  predicate Quiet(calls: seq<Call>) {
    !HasStart(calls) && !HasNext(calls)
  }

  lemma {:induction false} SkipIsSuffix(s: string, delims: string)
    ensures |SkipText(s, delims)| <= |s| && SkipText(s, delims) == s[|s| - |SkipText(s, delims)|..]
  {
    if s != [] && s[0] in delims {
      SkipIsSuffix(s[1..], delims);
    }
  }

  lemma HarmlessParts(s: string, delims: string)
    requires Harmless(s)
    ensures Harmless(WordOf(s, delims)) && Harmless(AfterWord(s, delims))
  {
    SkipIsSuffix(s, delims);
    var t, n := SkipText(s, delims), |s| - |SkipText(s, delims)|;
    assert forall k :: 0 <= k < |t| ==> t[k] == s[n + k];
    assert Harmless(t);
  }

  lemma {:induction false} HarmlessStays(s: string, inOwn: bool, calls: seq<Call>)
    requires Harmless(s) && AllOrdinary(calls)
    ensures Harmless(Left(s, inOwn, calls))
    decreases |calls|
  {
    if calls != [] {
      OrdinaryIsOne(calls);
      match calls[0] {
        case Start(buffer, delims) => HarmlessParts(CStr(buffer, 0), delims);
        case Next(delims) => HarmlessParts(s, delims);
        case Refilled(text) =>
      }
      HarmlessStays(Leaves(s, inOwn, calls[0]), inOwn && !calls[0].Start?, calls[1..]);
    }
  }

  /** A call that takes the whole text leaves nothing. */
  lemma TakesWhole(s: string, delims: string)
    requires forall c :: c in s ==> c !in delims
    ensures WordOf(s, delims) == s && AfterWord(s, delims) == ""
  {
    SpanWhole(s, delims);
  }

  lemma RestTakenWhole(st: Status, delims: string)
    requires delims == ":" || delims == "," || delims == " "
    ensures WordOf(Code(st) + "\n", delims) == Code(st) + "\n" && AfterWord(Code(st) + "\n", delims) == ""
  {
    TakesWhole(Code(st) + "\n", delims);
  }

  /** Any ordinary call of strtok spoils the rest of a row, and fills of other buffers do not. */
  lemma {:induction false} RestSpoiled(st: Status, calls: seq<Call>)
    requires AllOrdinary(calls)
    ensures Quiet(calls) ==> Left(Code(st) + "\n", true, calls) == Code(st) + "\n"
    ensures !Quiet(calls) ==> Harmless(Left(Code(st) + "\n", true, calls))
    decreases |calls|
  {
    if calls != [] {
      OrdinaryIsOne(calls);
      HasSplit(calls);
      match calls[0] {
        case Start(buffer, delims) =>
          HarmlessParts(CStr(buffer, 0), delims);
          HarmlessStays(AfterWord(CStr(buffer, 0), delims), false, calls[1..]);
        case Next(delims) =>
          RestTakenWhole(st, delims);
          HarmlessStays("", true, calls[1..]);
        case Refilled(text) => RestSpoiled(st, calls[1..]);
      }
    }
  }

  /** The turn for a row of another request is undisturbed: no call of strtok comes between the
      worker's two, and none has cut the row before them. */
  predicate Clear(row: Row, position: Option<nat>, turn: Turn) {
    Quiet(turn.between) && !Cuts(RowLine(row), position, turn.before)
  }

  /** What is left for the second call: the rest of the row in a clear turn, and otherwise a text that
      is harmless. */
  lemma LeftInTurn(row: Row, position: Option<nat>, turn: Turn)
    requires OrdinaryTurn(turn)
    ensures if Clear(row, position, turn) then LeftFor(row, position, turn) == Code(row.status) + "\n"
            else Harmless(LeftFor(row, position, turn))
  {
    if Cuts(RowLine(row), position, turn.before) {
      HarmlessStays("", true, turn.between);
    } else {
      RestSpoiled(row.status, turn.between);
    }
  }

  /** A harmless word after an id is not a row, whatever follows it. */
  lemma SpoiledLine(row: Row, w: string, more: string, rest: string)
    requires w != "" && Harmless(w) && (more == "" || more[0] != '\n')
    ensures (Decimal(row.id) + "," + w) + more != PrintRow(row) + rest
  {
    var n := |Decimal(row.id)|;
    var s, r := (Decimal(row.id) + "," + w) + more, PrintRow(row) + rest;
    assert r[n + 1] == Code(row.status)[0] && r[n + 2] == '\n';
    assert s[n + 1] == w[0];
    if |s| > n + 2 {
      assert s[n + 2] == if |w| > 1 then w[1] else more[0];
    }
  }

  /** The exact condition under which a worker copies a row of another request, in any memory and with
      any ordinary calls. */
  lemma CopyExactIff(m: Memory, row: Row, id: int, st: Status, turn: Turn)
    requires OrdinaryTurn(turn) && row.id != id
    ensures LineOf(m, row, id, st, turn).0 == Some(PrintRow(row)) <==> Clear(row, Position(m), turn)
  {
    OrdinaryIsOne(turn.before);
    LineIs(m, row, id, st, turn);
    LeftInTurn(row, Position(m), turn);
    var left := LeftFor(row, Position(m), turn);
    if Clear(row, Position(m), turn) {
      RestTakenWhole(row.status, " ");
      assert Decimal(row.id) + "," + (Code(row.status) + "\n") == PrintRow(row);
    } else {
      HarmlessParts(left, " ");
      var w := WordOf(left, " ");
      if w != "" {
        SpoiledLine(row, w, "", "");
        assert (Decimal(row.id) + "," + w) + "" == Decimal(row.id) + "," + w;
        assert PrintRow(row) + "" == PrintRow(row);
      }
    }
  }

  // ------------------------------------------------------------------ the whole copy

  /** The temporary file after the turns for all rows, from any memory. */
  function TempText(m: Memory, rows: Table, id: int, st: Status, turns: seq<Turn>): Option<string>
    requires |turns| == |rows|
    decreases |rows|
  {
    if rows == [] then Some("") else
    var (line, m') := LineOf(m, rows[0], id, st, turns[0]);
    var more := TempText(m', rows[1..], id, st, turns[1..]);
    if line.None? || more.None? then None else Some(line.value + more.value)
  }

  /** Where the place is, in the buffer of the thread that we follow, when the next row is read into
      it: elsewhere if another thread has made a first call since this row's; else at the end of this
      row, or of its first token, if any second call was made; else where the first call left it. */
  function NextPosition(row: Row, position: Option<nat>, secondCall: bool, turn: Turn): Option<nat> {
    var cut := Cuts(RowLine(row), position, turn.before);
    if HasStart(turn.between) || HasStart(turn.after) then None
    else if secondCall || HasNext(turn.between) || HasNext(turn.after)
    then Some(if cut then |Decimal(row.id)| else |PrintRow(row)|)
    else Some(if cut then |Decimal(row.id)| else |Decimal(row.id)| + 1)
  }

  /** The turns of an update are undisturbed: those for rows of other requests are clear. */
  predicate Undisturbed(rows: Table, id: int, position: Option<nat>, turns: seq<Turn>)
    requires |turns| == |rows|
    decreases |rows|
  {
    rows != [] ==>
      && (rows[0].id != id ==> Clear(rows[0], position, turns[0]))
      && Undisturbed(rows[1..], id, NextPosition(rows[0], position, rows[0].id != id, turns[0]), turns[1..])
  }

  lemma HasConcat(a: seq<Call>, b: seq<Call>)
    ensures HasStart(a + b) <==> HasStart(a) || HasStart(b)
    ensures HasNext(a + b) <==> HasNext(a) || HasNext(b)
  {
    assert forall k :: 0 <= k < |a| ==> (a + b)[k] == a[k];
    assert forall k :: 0 <= k < |b| ==> (a + b)[|a| + k] == b[k];
  }

  /** Where calls after the first one for a row leave the place. */
  lemma PositionIn(m: Memory, row: Row, before: seq<Call>, calls: seq<Call>)
    requires AllOne(before) && AllOne(calls)
    ensures var cut := Cuts(RowLine(row), Position(m), before);
            Position(PerformAll(CutFirst(RowLine(row), m, before).1, calls))
            == if HasStart(calls) then None
               else if HasNext(calls) then Some(if cut then |Decimal(row.id)| else |PrintRow(row)|)
               else Some(if cut then |Decimal(row.id)| else |Decimal(row.id)| + 1)
  {
    RowIsLine(row);
    PositionInLine(RowLine(row), m, before, calls);
  }

  lemma OneConcat(a: seq<Call>, b: seq<Call>)
    requires AllOne(a) && AllOne(b)
    ensures AllOne(a + b)
  {
  }

  /** The comparison of the first token with the worker's id is right. */
  lemma OwnRow(m: Memory, row: Row, id: int, before: seq<Call>)
    requires AllOne(before)
    ensures CutFirst(RowLine(row), m, before).0 == Some(Decimal(id)) <==> row.id == id
  {
    RowIsLine(row);
    FirstCallLeaves(RowLine(row), m, before);
    if Decimal(row.id) == Decimal(id) {
      DecimalInjective(row.id, id);
    }
  }

  /** All calls of a turn after its first, the worker's second call among them. */
  function LaterCalls(secondCall: bool, turn: Turn): seq<Call> {
    turn.between + (if secondCall then [Next(" ")] else []) + turn.after
  }

  lemma LaterCallsAre(secondCall: bool, turn: Turn)
    requires AllOne(turn.between) && AllOne(turn.after)
    ensures var calls := LaterCalls(secondCall, turn);
            && AllOne(calls)
            && (HasStart(calls) <==> HasStart(turn.between) || HasStart(turn.after))
            && (HasNext(calls) <==> secondCall || HasNext(turn.between) || HasNext(turn.after))
  {
    var second := if secondCall then [Next(" ")] else [];
    HasConcat(turn.between, second);
    HasConcat(turn.between + second, turn.after);
    assert secondCall ==> second[0].Next?;
    assert forall k :: 0 <= k < |second| ==> OneDelim(second[k]);
    OneConcat(turn.between, second);
    OneConcat(turn.between + second, turn.after);
  }

  lemma TurnMemory(m: Memory, row: Row, id: int, st: Status, turn: Turn)
    requires AllOne(turn.before)
    ensures LineOf(m, row, id, st, turn).1
         == PerformAll(CutFirst(RowLine(row), m, turn.before).1, LaterCalls(row.id != id, turn))
  {
    var m1 := CutFirst(RowLine(row), m, turn.before).1;
    OwnRow(m, row, id, turn.before);
    if row.id == id {
      assert turn.between + [] == turn.between;
      PerformBoth(m1, turn.between, turn.after);
    } else {
      var m2 := PerformAll(m1, turn.between);
      assert [Next(" ")][1..] == [];
      assert PerformAll(m2, [Next(" ")]) == Resume(m2, " ").1;
      PerformBoth(m1, turn.between, [Next(" ")]);
      PerformBoth(m1, turn.between + [Next(" ")], turn.after);
    }
  }

  lemma TurnPosition(m: Memory, row: Row, id: int, st: Status, turn: Turn)
    requires OrdinaryTurn(turn)
    ensures Position(LineOf(m, row, id, st, turn).1) == NextPosition(row, Position(m), row.id != id, turn)
  {
    OrdinaryIsOne(turn.before);
    OrdinaryIsOne(turn.between);
    OrdinaryIsOne(turn.after);
    TurnMemory(m, row, id, st, turn);
    LaterCallsAre(row.id != id, turn);
    PositionIn(m, row, turn.before, LaterCalls(row.id != id, turn));
  }

  lemma LineStarts(m: Memory, row: Row, id: int, st: Status, turn: Turn)
    requires AllOne(turn.before)
    ensures var line := LineOf(m, row, id, st, turn).0;
            line.Some? ==> line.value != "" && line.value[0] != '\n'
  {
    LineIs(m, row, id, st, turn);
    var d := Decimal(row.id);
    DecimalChars(row.id);
    assert d[0] in d;
  }

  lemma TextStarts(m: Memory, rows: Table, id: int, st: Status, turns: seq<Turn>)
    requires |turns| == |rows| && (turns != [] ==> AllOne(turns[0].before))
    ensures var t := TempText(m, rows, id, st, turns);
            t.Some? && t.value != "" ==> t.value[0] != '\n'
  {
    if rows != [] {
      LineStarts(m, rows[0], id, st, turns[0]);
    }
  }

  lemma SameFront(a: string, b: string, c: string)
    ensures a + b == a + c <==> b == c
  {
    if a + b == a + c {
      assert b == (a + b)[|a|..];
      assert c == (a + c)[|a|..];
    }
  }

  /** What the first line and the rest say about the whole. */
  lemma FirstLine(m: Memory, row: Row, id: int, st: Status, turn: Turn, more: string, rest: string)
    requires OrdinaryTurn(turn) && (more == "" || more[0] != '\n')
    ensures var line := LineOf(m, row, id, st, turn).0;
            && (line.Some? && line.value + more == PrintRow(ReplaceRow(row, id, st)) + rest
                <==> (row.id != id ==> Clear(row, Position(m), turn)) && more == rest)
  {
    var line := LineOf(m, row, id, st, turn).0;
    OrdinaryIsOne(turn.before);
    LineIs(m, row, id, st, turn);
    if row.id == id || Clear(row, Position(m), turn) {
      if row.id != id {
        CopyExactIff(m, row, id, st, turn);
      }
      SameFront(line.value, more, rest);
    } else {
      LeftInTurn(row, Position(m), turn);
      HarmlessParts(LeftFor(row, Position(m), turn), " ");
      if line.Some? {
        SpoiledLine(row, WordOf(LeftFor(row, Position(m), turn), " "), more, rest);
      }
    }
  }

  lemma ReplaceFirst(rows: Table, id: int, st: Status)
    requires rows != []
    ensures PrintTable(Replace(rows, id, st))
         == PrintRow(ReplaceRow(rows[0], id, st)) + PrintTable(Replace(rows[1..], id, st))
  {
    assert Replace(rows, id, st)[1..] == Replace(rows[1..], id, st);
  }

  /** The text is right if and only if the first row's line is right and the rest is right. */
  lemma FirstRow(m: Memory, rows: Table, id: int, st: Status, turns: seq<Turn>)
    requires |turns| == |rows| > 0 && OrdinaryTurn(turns[0]) && (|turns| > 1 ==> OrdinaryTurn(turns[1]))
    ensures var m' := LineOf(m, rows[0], id, st, turns[0]).1;
            TempText(m, rows, id, st, turns) == Some(PrintTable(Replace(rows, id, st)))
            <==> (rows[0].id != id ==> Clear(rows[0], Position(m), turns[0]))
                 && TempText(m', rows[1..], id, st, turns[1..]) == Some(PrintTable(Replace(rows[1..], id, st)))
  {
    var m' := LineOf(m, rows[0], id, st, turns[0]).1;
    var more, rest := TempText(m', rows[1..], id, st, turns[1..]), PrintTable(Replace(rows[1..], id, st));
    ReplaceFirst(rows, id, st);
    if |turns| > 1 {
      OrdinaryIsOne(turns[1].before);
    }
    TextStarts(m', rows[1..], id, st, turns[1..]);
    if more.Some? {
      FirstLine(m, rows[0], id, st, turns[0], more.value, rest);
    }
  }

  /** The exact condition under which an update writes the replaced table, for any table, from any
      memory and with any ordinary calls of other threads. */
  lemma {:induction false} UpdateExactIff(m: Memory, rows: Table, id: int, st: Status, turns: seq<Turn>)
    requires |turns| == |rows| && forall k :: 0 <= k < |turns| ==> OrdinaryTurn(turns[k])
    ensures TempText(m, rows, id, st, turns) == Some(PrintTable(Replace(rows, id, st)))
       <==> Undisturbed(rows, id, Position(m), turns)
    decreases |rows|
  {
    if rows != [] {
      var m' := LineOf(m, rows[0], id, st, turns[0]).1;
      UpdateExactIff(m', rows[1..], id, st, turns[1..]);
      TurnPosition(m, rows[0], id, st, turns[0]);
      FirstRow(m, rows, id, st, turns);
    }
  }

  // ------------------------------------------------- how it fails before the first call

  /** A turn in which nobody else calls strtok, and one in which a handler goes on with a line of
      remarks.txt after the worker has read the row and before it has cut it. */
  function Alone(): Turn {
    Turn([], [], [])
  }

  function Overlapped(): Turn {
    Turn([Next(",")], [], [])
  }

  lemma TheseAreOrdinary()
    ensures OrdinaryTurn(Alone()) && OrdinaryTurn(Overlapped())
  {
  }

  /** No call comes between any two of the worker's, and yet the second row is lost, whenever its
      number is so long that the place left by the first row's turn is inside it. */
  lemma LongerRowLost(m: Memory, r0: Row, r1: Row, id: int, st: Status)
    requires r1.id != id
    requires |Decimal(r1.id)| > if r0.id == id then |Decimal(r0.id)| + 1 else |PrintRow(r0)|
    ensures TempText(m, [r0, r1], id, st, [Alone(), Overlapped()]) != Some(PrintTable(Replace([r0, r1], id, st)))
    ensures TempText(m, [r0, r1], id, st, [Alone(), Alone()]) == Some(PrintTable(Replace([r0, r1], id, st)))
  {
    TheseAreOrdinary();
    var rows := [r0, r1];
    assert rows[1..] == [r1] && [r1][1..] == [];
    forall turn | turn == Alone() || turn == Overlapped()
      ensures Undisturbed(rows, id, Position(m), [Alone(), turn]) <==> turn == Alone()
    {
      var turns := [Alone(), turn];
      assert turns[1..] == [turn] && [turn][1..] == [];
      var position := NextPosition(r0, Position(m), r0.id != id, Alone());
      assert Undisturbed([r1], id, position, [turn]) <==> Clear(r1, position, turn);
    }
    UpdateExactIff(m, rows, id, st, [Alone(), Overlapped()]);
    UpdateExactIff(m, rows, id, st, [Alone(), Alone()]);
  }

  /** For instance the requests 5123 and 50000123. */
  lemma LengthsApart(st: Status)
    ensures |Decimal(50_000_123)| > |PrintRow(Row(5123, st))|
  {
    assert Pow10(3) == 1000;
    assert Pow10(4) == 10 * Pow10(3);
    assert Pow10(7) == 1000 * Pow10(4);
    DigitsLength(5123, 4);
    DigitsLength(50_000_123, 7);
  }

  // ------------------------------------------------------------------- texts of calls

  lemma BufferText(s: string, rest: string)
    requires NUL !in s
    ensures CStr(s + [NUL] + rest, 0) == s
  {
    CStrAt("", s, rest);
    assert "" + s + [NUL] + rest == s + [NUL] + rest;
  }

  lemma {:induction false} SpanUpTo(a: string, b: string, delims: string)
    requires (forall c :: c in a ==> c !in delims) && b != "" && b[0] in delims
    ensures SpanText(a + b, delims) == a
  {
    if a == "" {
      assert a + b == b;
    } else {
      assert (a + b)[1..] == a[1..] + b;
      SpanUpTo(a[1..], b, delims);
    }
  }

  /** A first word, a delimiter, and what follows. */
  lemma WordThenRest(a: string, d: char, b: string, delims: string)
    requires a != "" && (forall c :: c in a ==> c !in delims) && d in delims
    ensures WordOf(a + ([d] + b), delims) == a && AfterWord(a + ([d] + b), delims) == b
  {
    assert a[0] in a;
    assert (a + ([d] + b))[0] == a[0];
    SpanUpTo(a, [d] + b, delims);
  }

  lemma MessageLeaves(command: string, argument: string, rest: string)
    requires command != "" && ':' !in command && NUL !in command && NUL !in argument
    ensures AfterWord(CStr(command + ":" + argument + [NUL] + rest, 0), ":") == argument
  {
    BufferText(command + ":" + argument, rest);
    assert command + ":" + argument == command + ([':'] + argument);
    WordThenRest(command, ':', argument, ":");
  }

  /** The client program sends only messages without a newline. */
  lemma MessagesAreOrdinary(id: int, rest: string)
    ensures Ordinary(Start(StatusMessage(id) + [NUL] + rest, ":"))
    ensures Ordinary(Start("new" + [NUL] + rest, ":"))
  {
    DecimalChars(id);
    BufferText(StatusMessage(id), rest);
    BufferText("new", rest);
  }

  /** A line of remarks.txt: a status code, a comma and a remark that ends in a letter or a
      parenthesis. */
  lemma RemarksAreOrdinary(st: Status, remark: string, rest: string)
    requires remark != "" && '\n' !in remark && NUL !in remark && !IsDigit(remark[|remark| - 1])
    ensures Ordinary(Start(Code(st) + "," + remark + "\n" + [NUL] + rest, ","))
    ensures Ordinary(Start(Code(st) + "," + remark + [NUL] + rest, ","))
  {
    var s := Code(st) + "," + remark;
    BufferText(s, rest);
    BufferText(s + "\n", rest);
    assert s[|s| - 1] == remark[|remark| - 1];
  }

  // ------------------------------------------------- messages that are not ordinary

  /** A turn with one call, between the worker's two. */
  function Crossed(call: Call): Turn {
    Turn([], [call], [])
  }

  lemma LeftCrossed(row: Row, position: Option<nat>, buffer: string, delims: string)
    ensures LeftFor(row, position, Crossed(Start(buffer, delims))) == AfterWord(CStr(buffer, 0), delims)
  {
    var call := Start(buffer, delims);
    assert [call][1..] == [];
    assert Left(Code(row.status) + "\n", true, [call]) == Left(AfterWord(CStr(buffer, 0), delims), false, []);
  }

  lemma CrossedIsNotClear(m: Memory, row: Row, id: int, st: Status, call: Call)
    requires row.id != id && Ordinary(call) && call.Start?
    ensures LineOf(m, row, id, st, Crossed(call)).0 != Some(PrintRow(row))
  {
    assert [call][0].Start?;
    CopyExactIff(m, row, id, st, Crossed(call));
  }

  /** Either of the client program's messages spoils a copy that it crosses. */
  lemma ClientsDisturb(m: Memory, row: Row, id: int, st: Status, query: int, rest: string)
    requires row.id != id
    ensures LineOf(m, row, id, st, Alone()).0 == Some(PrintRow(row))
    ensures LineOf(m, row, id, st, Crossed(Start(StatusMessage(query) + [NUL] + rest, ":"))).0 != Some(PrintRow(row))
    ensures LineOf(m, row, id, st, Crossed(Start("new" + [NUL] + rest, ":"))).0 != Some(PrintRow(row))
  {
    MessagesAreOrdinary(query, rest);
    TheseAreOrdinary();
    CopyExactIff(m, row, id, st, Alone());
    CrossedIsNotClear(m, row, id, st, Start(StatusMessage(query) + [NUL] + rest, ":"));
    CrossedIsNotClear(m, row, id, st, Start("new" + [NUL] + rest, ":"));
  }

  /** A first call on any message with a command, a colon and something after it: the copy is the
      row's id and the next word of the message. */
  lemma CopyOfMessage(m: Memory, row: Row, id: int, st: Status, command: string, argument: string, rest: string)
    requires row.id != id
    requires command != "" && ':' !in command && NUL !in command && NUL !in argument
    ensures var w := WordOf(argument, " ");
            LineOf(m, row, id, st, Crossed(Start(command + ":" + argument + [NUL] + rest, ":"))).0
            == if w == "" then None else Some(Decimal(row.id) + "," + w)
  {
    var buffer := command + ":" + argument + [NUL] + rest;
    LineIs(m, row, id, st, Crossed(Start(buffer, ":")));
    LeftCrossed(row, Position(m), buffer, ":");
    MessageLeaves(command, argument, rest);
  }

  /** The condition on texts is needed: after a message that ends in a digit and a newline the copy can
      be a row again, the same or with another status. */
  lemma NewlineNeeded(m: Memory, row: Row, id: int, st: Status, code: Status, rest: string)
    requires row.id != id
    ensures LineOf(m, row, id, st, Crossed(Start("status" + ":" + (Code(code) + "\n") + [NUL] + rest, ":"))).0
         == Some(PrintRow(Row(row.id, code)))
  {
    CopyOfMessage(m, row, id, st, "status", Code(code) + "\n", rest);
    RestTakenWhole(code, " ");
    assert Decimal(row.id) + "," + (Code(code) + "\n") == PrintRow(Row(row.id, code));
  }
}
