/** What the threads of the grading server can do when no other thread comes between: each operation,
    from its first step to its last, with every outcome of its receives, sends and commands. */
module ServerScripts {
  import opened Wrappers
  import opened StatusTable
  import opened Names
  import Pool
  import opened GradingServer
  import opened ServerReports

  /** The steps can be taken one after the other, and lead there. */
  predicate Leads(s: Server, steps: seq<Step>, t: Server) {
    Legal(s, steps) && After(s, steps) == t
  }

  lemma LeadsFirst(s: Server, e: Step, rest: seq<Step>, t: Server)
    requires Enabled(s, e) && Leads(Next(s, e), rest, t)
    ensures Leads(s, [e] + rest, t)
  {
    assert ([e] + rest)[1..] == rest;
  }

  lemma LeadsOne(s: Server, e: Step)
    requires Enabled(s, e)
    ensures Leads(s, [e], Next(s, e))
  {
    LeadsFirst(s, e, [], Next(s, e));
    assert [e] + [] == [e];
  }

  lemma LeadsTwo(s: Server, e: Step, t: Server, f: Step, u: Server)
    requires Enabled(s, e) && t == Next(s, e) && Enabled(t, f) && u == Next(t, f)
    ensures Leads(s, [e, f], u)
  {
    LeadsOne(t, f);
    LeadsFirst(s, e, [f], u);
    assert [e] + [f] == [e, f];
  }

  lemma LeadsRest(s: Server, steps: seq<Step>, t: Server) returns (n: Server)
    requires Leads(s, steps, t) && steps != []
    ensures Enabled(s, steps[0]) && n == Next(s, steps[0]) && Leads(n, steps[1..], t)
  {
    n := Next(s, steps[0]);
  }

  lemma LeadsAfter(s: Server, e: Step, n: Server, rest: seq<Step>, t: Server)
    requires Enabled(s, e) && n == Next(s, e) && Leads(n, rest, t)
    ensures Leads(s, [e] + rest, t)
  {
    LeadsFirst(s, e, rest, t);
  }

  lemma {:induction false} LeadsBoth(s: Server, a: seq<Step>, t: Server, b: seq<Step>, u: Server)
    requires Leads(s, a, t) && Leads(t, b, u)
    ensures Leads(s, a + b, u)
    decreases |a|
  {
    if a == [] {
      assert a + b == b;
    } else {
      var n := LeadsRest(s, a, t);
      LeadsBoth(n, a[1..], t, b, u);
      LeadsAfter(s, a[0], n, a[1..] + b, u);
      assert [a[0]] + (a[1..] + b) == a + b;
    }
  }

  // --------------------------------------------------------------------- commands

  /** A command starts: its output files are there, unfinished. */
  function Started(s: Server, i: nat, id: int, run: nat, stage: Stage): Server
    requires i < |s.graders|
  {
    s.(graders := s.graders[i := Executing(id, run, stage)],
       files := Write(s.files, Outputs(stage), id, Partial))
  }

  /** A command from its start to its end. */
  function Ended(s: Server, i: nat, id: int, run: nat, stage: Stage, ok: bool, pc: GraderPc): Server
    requires i < |s.graders|
  {
    s.(graders := s.graders[i := pc], files := Write(s.files, Outputs(stage), id, Written(run, ok)))
  }

  lemma WriteTwice(files: map<(Kind, int), Content>, kinds: set<Kind>, id: int, a: Content, b: Content)
    ensures Write(Write(files, kinds, id, a), kinds, id, b) == Write(files, kinds, id, b)
  {
  }

  /** While a command runs, its output files are unfinished. */
  lemma StartsPartial(s: Server, i: nat, kind: Kind)
    requires s.up && i < |s.graders| && s.graders[i].Ready? && kind in Outputs(s.graders[i].stage)
    ensures Enabled(s, Grade(i, Launch))
    ensures FileIs(Next(s, Grade(i, Launch)), kind, s.graders[i].id, Partial)
  {
  }

  lemma OneCommand(s: Server, i: nat, id: int, run: nat, stage: Stage, ok: bool)
    requires s.up && i < |s.graders| && s.graders[i] == Ready(id, run, stage)
    ensures Leads(s, [Grade(i, Launch), Grade(i, Exit(ok))],
                  Ended(s, i, id, run, stage, ok, AfterExit(Executing(id, run, stage), ok)))
  {
    var t := Next(s, Grade(i, Launch));
    assert t == Started(s, i, id, run, stage);
    WriteTwice(s.files, Outputs(stage), id, Partial, Written(run, ok));
    var u := Ended(s, i, id, run, stage, ok, AfterExit(Executing(id, run, stage), ok));
    assert Next(t, Grade(i, Exit(ok))).graders == u.graders;
    LeadsTwo(s, Grade(i, Launch), t, Grade(i, Exit(ok)), u);
  }

  /** The commands of one grading with their results. */
  function Commands(i: nat, results: seq<bool>): seq<Step> {
    if results == [] then [] else [Grade(i, Launch), Grade(i, Exit(results[0]))] + Commands(i, results[1..])
  }

  lemma CommandsFrom(s: Server, i: nat, id: int, run: nat, stage: Stage, ok: bool, rest: seq<bool>, t: Server)
    requires s.up && i < |s.graders| && s.graders[i] == Ready(id, run, stage)
    requires Leads(Ended(s, i, id, run, stage, ok, AfterExit(Executing(id, run, stage), ok)), Commands(i, rest), t)
    ensures Leads(s, Commands(i, [ok] + rest), t)
  {
    OneCommand(s, i, id, run, stage, ok);
    var u := Ended(s, i, id, run, stage, ok, AfterExit(Executing(id, run, stage), ok));
    LeadsBoth(s, [Grade(i, Launch), Grade(i, Exit(ok))], u, Commands(i, rest), t);
    assert ([ok] + rest)[1..] == rest;
  }

  /** The state after the commands with these results, as grader has it: compilation, run, comparison. */
  function Graded(s: Server, i: nat, id: int, run: nat, results: seq<bool>): Server
    requires i < |s.graders|
  {
    if results == [false] then Ended(s, i, id, run, Compile, false, WantFile(id, run, CompileError)) else
    var s1 := Ended(s, i, id, run, Compile, true, Ready(id, run, Run));
    if results == [true, false] then Ended(s1, i, id, run, Run, false, WantFile(id, run, RuntimeError)) else
    var s2 := Ended(s1, i, id, run, Run, true, Ready(id, run, Check));
    if results == [true, true, false] then Ended(s2, i, id, run, Check, false, WantFile(id, run, WrongOutput))
    else Ended(s2, i, id, run, Check, true, WantFile(id, run, Passed))
  }

  lemma CheckOutcomes(s: Server, i: nat, id: int, run: nat)
    requires s.up && i < |s.graders| && s.graders[i] == Ready(id, run, Run)
    ensures Leads(s, Commands(i, [false]), Ended(s, i, id, run, Run, false, WantFile(id, run, RuntimeError)))
    ensures var s2 := Ended(s, i, id, run, Run, true, Ready(id, run, Check));
            && Leads(s, Commands(i, [true, false]), Ended(s2, i, id, run, Check, false, WantFile(id, run, WrongOutput)))
            && Leads(s, Commands(i, [true, true]), Ended(s2, i, id, run, Check, true, WantFile(id, run, Passed)))
  {
    var s2 := Ended(s, i, id, run, Run, true, Ready(id, run, Check));
    assert [false] + [] == [false] && [true] + [] == [true];
    assert [true] + [false] == [true, false] && [true] + [true] == [true, true];
    CommandsFrom(s, i, id, run, Run, false, [], Ended(s, i, id, run, Run, false, WantFile(id, run, RuntimeError)));
    var wrong := Ended(s2, i, id, run, Check, false, WantFile(id, run, WrongOutput));
    var passed := Ended(s2, i, id, run, Check, true, WantFile(id, run, Passed));
    CommandsFrom(s2, i, id, run, Check, false, [], wrong);
    CommandsFrom(s2, i, id, run, Check, true, [], passed);
    CommandsFrom(s, i, id, run, Run, true, [false], wrong);
    CommandsFrom(s, i, id, run, Run, true, [true], passed);
  }

  /** A worker that is ready to compile can run the commands with each of the four outcomes, and then
      wants to record: a compile error if the first fails, a runtime error if the second does, a wrong
      output if the third does, a pass if none does. */
  lemma GradingOutcomes(s: Server, i: nat, id: int, run: nat)
    requires s.up && i < |s.graders| && s.graders[i] == Ready(id, run, Compile)
    ensures Leads(s, Commands(i, [false]), Graded(s, i, id, run, [false]))
    ensures Leads(s, Commands(i, [true, false]), Graded(s, i, id, run, [true, false]))
    ensures Leads(s, Commands(i, [true, true, false]), Graded(s, i, id, run, [true, true, false]))
    ensures Leads(s, Commands(i, [true, true, true]), Graded(s, i, id, run, [true, true, true]))
  {
    var s1 := Ended(s, i, id, run, Compile, true, Ready(id, run, Run));
    CheckOutcomes(s1, i, id, run);
    CommandsFrom(s, i, id, run, Compile, false, [], Graded(s, i, id, run, [false]));
    assert [false] + [] == [false] && [true] + [false] == [true, false];
    assert [true] + [true, false] == [true, true, false] && [true] + [true, true] == [true, true, true];
    CommandsFrom(s, i, id, run, Compile, true, [false], Graded(s, i, id, run, [true, false]));
    CommandsFrom(s, i, id, run, Compile, true, [true, false], Graded(s, i, id, run, [true, true, false]));
    CommandsFrom(s, i, id, run, Compile, true, [true, true], Graded(s, i, id, run, [true, true, true]));
  }

  // ----------------------------------------------------------------------- updates

  /** In the middle of an update, with `k` rows copied. */
  function CopyingState(s: Server, i: nat, id: int, run: nat, st: Status, rows: Table, k: nat): Server
    requires i < |s.graders| && k <= |rows|
  {
    s.(fileOwner := Some(Grader(i)), temp := Some(Replace(rows, id, st)[..k]),
       graders := s.graders[i := Updating(id, run, st, Copying(k))])
  }

  function Copies(i: nat, n: nat): seq<Step> {
    if n == 0 then [] else [Grade(i, CopyLine)] + Copies(i, n - 1)
  }

  lemma {:induction false} CanCopy(s: Server, i: nat, id: int, run: nat, st: Status, rows: Table, k: nat)
    requires s.up && i < |s.graders| && k <= |rows| && s.status == Some(rows)
    ensures Leads(CopyingState(s, i, id, run, st, rows, k), Copies(i, |rows| - k),
                  CopyingState(s, i, id, run, st, rows, |rows|))
    decreases |rows| - k
  {
    if k < |rows| {
      var updated := Replace(rows, id, st);
      assert updated[..k + 1] == updated[..k] + [updated[k]];
      var now, next := CopyingState(s, i, id, run, st, rows, k), CopyingState(s, i, id, run, st, rows, k + 1);
      assert Next(now, Grade(i, CopyLine)).graders == next.graders;
      assert Next(now, Grade(i, CopyLine)) == next;
      CanCopy(s, i, id, run, st, rows, k + 1);
      LeadsFirst(now, Grade(i, CopyLine), Copies(i, |rows| - k - 1), CopyingState(s, i, id, run, st, rows, |rows|));
    }
  }

  /** All steps of an update of a table with `n` rows, from the lock to the unlock. */
  function UpdateSteps(i: nat, n: nat): seq<Step> {
    [Grade(i, LockForUpdate), Grade(i, Open)]
    + (Copies(i, n) + ([Grade(i, Remove), Grade(i, Rename)] + [Grade(i, EndUpdate)]))
  }

  /** The state after the update: the table with the status of the request replaced, and for a verdict
      the request no longer pending: recorded by this run, or missed if it has no row. */
  function Updated(s: Server, i: nat, id: int, run: nat, st: Status, rows: Table): Server
    requires i < |s.graders|
  {
    var t := s.(status := Some(Replace(rows, id, st)), temp := None,
                graders := s.graders[i := if st == Grading then Ready(id, run, Compile) else Done(id, run)]);
    if Unfinished(st) then t
    else if HasRow(rows, id) then t.(pending := s.pending - {id}, graded := s.graded[id := run])
    else t.(pending := s.pending - {id}, missed := s.missed + {id})
  }

  /** Between the remove and the rename. */
  function RemovedState(s: Server, i: nat, id: int, run: nat, st: Status, rows: Table): Server
    requires i < |s.graders|
  {
    Updated(s, i, id, run, st, rows)
      .(status := None, temp := Some(Replace(rows, id, st)), fileOwner := Some(Grader(i)),
        graders := s.graders[i := Updating(id, run, st, Removed)])
  }

  lemma CanOpen(s: Server, i: nat, id: int, run: nat, st: Status, rows: Table)
    requires s.up && i < |s.graders| && s.status == Some(rows) && s.fileOwner.None?
    requires s.graders[i] == WantFile(id, run, st)
    ensures Leads(s, [Grade(i, LockForUpdate), Grade(i, Open)], CopyingState(s, i, id, run, st, rows, 0))
  {
    var t := Next(s, Grade(i, LockForUpdate));
    var u := CopyingState(s, i, id, run, st, rows, 0);
    assert Replace(rows, id, st)[..0] == [];
    assert Next(t, Grade(i, Open)).graders == u.graders;
    LeadsTwo(s, Grade(i, LockForUpdate), t, Grade(i, Open), u);
  }

  lemma CanRemove(s: Server, i: nat, id: int, run: nat, st: Status, rows: Table)
    requires s.up && i < |s.graders| && s.status == Some(rows) && s.fileOwner.None?
    ensures var now := CopyingState(s, i, id, run, st, rows, |rows|);
            Enabled(now, Grade(i, Remove)) && Next(now, Grade(i, Remove)) == RemovedState(s, i, id, run, st, rows)
  {
    var now := CopyingState(s, i, id, run, st, rows, |rows|);
    assert Replace(rows, id, st)[..|rows|] == Replace(rows, id, st);
    assert Next(now, Grade(i, Remove)).graders == RemovedState(s, i, id, run, st, rows).graders;
  }

  lemma CanRename(s: Server, i: nat, id: int, run: nat, st: Status, rows: Table)
    requires s.up && i < |s.graders| && s.fileOwner.None?
    ensures Leads(RemovedState(s, i, id, run, st, rows), [Grade(i, Rename)] + [Grade(i, EndUpdate)],
                  Updated(s, i, id, run, st, rows))
  {
    var removed := RemovedState(s, i, id, run, st, rows);
    var renamed := Next(removed, Grade(i, Rename));
    assert Next(renamed, Grade(i, EndUpdate)).graders == Updated(s, i, id, run, st, rows).graders;
    LeadsTwo(removed, Grade(i, Rename), renamed, Grade(i, EndUpdate), Updated(s, i, id, run, st, rows));
    assert [Grade(i, Rename)] + [Grade(i, EndUpdate)] == [Grade(i, Rename), Grade(i, EndUpdate)];
  }

  /** A worker that wants to update can do so when fileLock is free. */
  lemma CanUpdate(s: Server, i: nat, id: int, run: nat, st: Status, rows: Table)
    requires s.up && i < |s.graders| && s.status == Some(rows) && s.fileOwner.None?
    requires s.graders[i] == WantFile(id, run, st)
    ensures Leads(s, UpdateSteps(i, |rows|), Updated(s, i, id, run, st, rows))
  {
    var atOpen, copied := CopyingState(s, i, id, run, st, rows, 0), CopyingState(s, i, id, run, st, rows, |rows|);
    var removed, end := RemovedState(s, i, id, run, st, rows), Updated(s, i, id, run, st, rows);
    CanOpen(s, i, id, run, st, rows);
    CanCopy(s, i, id, run, st, rows, 0);
    CanRemove(s, i, id, run, st, rows);
    CanRename(s, i, id, run, st, rows);
    LeadsFirst(copied, Grade(i, Remove), [Grade(i, Rename)] + [Grade(i, EndUpdate)], end);
    assert [Grade(i, Remove)] + ([Grade(i, Rename)] + [Grade(i, EndUpdate)])
        == [Grade(i, Remove), Grade(i, Rename)] + [Grade(i, EndUpdate)];
    LeadsBoth(atOpen, Copies(i, |rows|), copied, [Grade(i, Remove), Grade(i, Rename)] + [Grade(i, EndUpdate)], end);
    LeadsBoth(s, [Grade(i, LockForUpdate), Grade(i, Open)], atOpen,
              Copies(i, |rows|) + ([Grade(i, Remove), Grade(i, Rename)] + [Grade(i, EndUpdate)]), end);
  }

  // ------------------------------------------------------------- a worker's whole turn

  /** A worker takes the request at the front of the queue. */
  function TakeSteps(i: nat): seq<Step> {
    [ReqStep(Pool.Lock(i)), ReqStep(Pool.Dequeue(i))] + [Grade(i, Begin)]
  }

  function Taken(s: Server, i: nat): Server
    requires i < |s.graders| == |s.req.consumers| && s.req.queue != []
  {
    var id := s.req.queue[0];
    s.(req := s.req.(queue := s.req.queue[1..], consumers := s.req.consumers[i := Pool.Serving(id)]),
       graders := s.graders[i := WantFile(id, s.runs, Grading)], runs := s.runs + 1)
  }

  lemma CanTake(s: Server, i: nat)
    requires s.up && i < |s.graders| == |s.req.consumers| && s.req.queue != [] && s.req.owner.None?
    requires s.req.consumers[i].Away? || s.req.consumers[i].Woken?
    ensures Leads(s, TakeSteps(i), Taken(s, i))
  {
    var t := Next(s, ReqStep(Pool.Lock(i)));
    var u := Next(t, ReqStep(Pool.Dequeue(i)));
    LeadsTwo(s, ReqStep(Pool.Lock(i)), t, ReqStep(Pool.Dequeue(i)), u);
    assert Next(u, Grade(i, Begin)).req.consumers == Taken(s, i).req.consumers;
    LeadsOne(u, Grade(i, Begin));
    LeadsBoth(s, [ReqStep(Pool.Lock(i)), ReqStep(Pool.Dequeue(i))], u, [Grade(i, Begin)], Taken(s, i));
  }

  /** A worker that finds no request goes to sleep. */
  lemma CanSleep(s: Server, i: nat)
    requires s.up && i < |s.req.consumers| && s.req.queue == [] && s.req.owner.None?
    requires s.req.consumers[i].Away? || s.req.consumers[i].Woken?
    ensures Leads(s, [ReqStep(Pool.Lock(i)), ReqStep(Pool.Sleep(i))],
                  s.(req := s.req.(consumers := s.req.consumers[i := Pool.Asleep])))
  {
    var t := Next(s, ReqStep(Pool.Lock(i)));
    var u := s.(req := s.req.(consumers := s.req.consumers[i := Pool.Asleep]));
    assert Next(t, ReqStep(Pool.Sleep(i))).req.consumers == u.req.consumers;
    LeadsTwo(s, ReqStep(Pool.Lock(i)), t, ReqStep(Pool.Sleep(i)), u);
  }

  /** The verdict on a grading, by its results. */
  function VerdictOf(results: seq<bool>): Status {
    if results == [false] then CompileError
    else if results == [true, false] then RuntimeError
    else if results == [true, true, false] then WrongOutput
    else Passed
  }

  predicate AreResults(results: seq<bool>) {
    results == [false] || results == [true, false] || results == [true, true, false] || results == [true, true, true]
  }

  /** What steps on the files and in the work of worker `i` leave alone. */
  predicate OnlyWorker(s: Server, t: Server, i: nat, pc: GraderPc)
    requires i < |s.graders|
  {
    && t.graders == s.graders[i := pc]
    && t.up == s.up && t.fileOwner == s.fileOwner && t.req == s.req && t.cli == s.cli && t.handlers == s.handlers
  }

  lemma DoCommands(s: Server, i: nat, id: int, run: nat, results: seq<bool>) returns (t: Server)
    requires s.up && i < |s.graders| && s.graders[i] == Ready(id, run, Compile) && AreResults(results)
    ensures Leads(s, Commands(i, results), t)
    ensures OnlyWorker(s, t, i, WantFile(id, run, VerdictOf(results))) && t.status == s.status
  {
    GradingOutcomes(s, i, id, run);
    t := Graded(s, i, id, run, results);
  }

  lemma DoUpdate(s: Server, i: nat, id: int, run: nat, st: Status, rows: Table) returns (t: Server)
    requires s.up && i < |s.graders| && s.status == Some(rows) && s.fileOwner.None?
    requires s.graders[i] == WantFile(id, run, st)
    ensures Leads(s, UpdateSteps(i, |rows|), t)
    ensures OnlyWorker(s, t, i, if st == Grading then Ready(id, run, Compile) else Done(id, run))
    ensures t.status == Some(Replace(rows, id, st))
  {
    CanUpdate(s, i, id, run, st, rows);
    t := Updated(s, i, id, run, st, rows);
  }

  lemma DoTake(s: Server, i: nat) returns (t: Server)
    requires s.up && i < |s.graders| == |s.req.consumers| && s.req.queue != [] && s.req.owner.None?
    requires s.req.consumers[i].Away? || s.req.consumers[i].Woken?
    ensures Leads(s, TakeSteps(i), t)
    ensures t.graders == s.graders[i := WantFile(s.req.queue[0], s.runs, Grading)] && t.up
    ensures t.req == s.req.(queue := s.req.queue[1..], consumers := s.req.consumers[i := Pool.Serving(s.req.queue[0])])
    ensures t.status == s.status && t.fileOwner == s.fileOwner && t.cli == s.cli && t.handlers == s.handlers
  {
    CanTake(s, i);
    t := Taken(s, i);
  }

  lemma DoEnd(s: Server, i: nat, id: int, run: nat) returns (t: Server)
    requires s.up && i < |s.graders| == |s.req.consumers|
    requires s.graders[i] == Done(id, run) && s.req.consumers[i] == Pool.Serving(id)
    ensures Leads(s, [Grade(i, EndGrading)], t)
    ensures t.graders == s.graders[i := Idle] && t.status == s.status
    ensures t.req == s.req.(consumers := s.req.consumers[i := Pool.Away], finished := s.req.finished + multiset{id})
    ensures t.fileOwner == s.fileOwner && t.cli == s.cli && t.handlers == s.handlers
  {
    LeadsOne(s, Grade(i, EndGrading));
    t := Next(s, Grade(i, EndGrading));
  }

  lemma ReplaceTwice(rows: Table, id: int, a: Status, b: Status)
    ensures Replace(Replace(rows, id, a), id, b) == Replace(rows, id, b)
  {
  }

  /** From a free worker to the request marked "1", to the results, and to the verdict in the table. */
  lemma DoRecord(s: Server, i: nat, id: int, run: nat, rows: Table, results: seq<bool>) returns (t: Server)
    requires s.up && i < |s.graders| == |s.req.consumers| && s.status == Some(rows) && s.fileOwner.None?
    requires s.graders[i] == Ready(id, run, Compile) && AreResults(results)
    ensures Leads(s, Commands(i, results) + UpdateSteps(i, |rows|), t)
    ensures OnlyWorker(s, t, i, Done(id, run)) && t.status == Some(Replace(rows, id, VerdictOf(results)))
  {
    var u := DoCommands(s, i, id, run, results);
    t := DoUpdate(u, i, id, run, VerdictOf(results), rows);
    LeadsBoth(s, Commands(i, results), u, UpdateSteps(i, |rows|), t);
    assert s.graders[i := WantFile(id, run, VerdictOf(results))][i := Done(id, run)] == s.graders[i := Done(id, run)];
  }

  /** All steps of a worker for the request at the front, with `n` rows in the table. */
  function GradeSteps(i: nat, n: nat, results: seq<bool>): seq<Step> {
    TakeSteps(i) + (UpdateSteps(i, n) + ((Commands(i, results) + UpdateSteps(i, n)) + [Grade(i, EndGrading)]))
  }

  /** A worker awake can take the request at the front and grade it, with any results of its commands.
      Then every row of the request has the verdict that the results call for, the other rows are as
      they were, the request is off the queue and done once more, and the worker is back. */
  lemma CanGrade(s: Server, i: nat, rows: Table, results: seq<bool>) returns (t: Server)
    requires s.up && i < |s.graders| == |s.req.consumers| && s.req.queue != [] && s.req.owner.None?
    requires s.req.consumers[i].Away? || s.req.consumers[i].Woken?
    requires s.status == Some(rows) && s.fileOwner.None? && AreResults(results)
    ensures Leads(s, GradeSteps(i, |rows|, results), t)
    ensures t.status == Some(Replace(rows, s.req.queue[0], VerdictOf(results)))
    ensures t.graders == s.graders[i := Idle]
    ensures t.req == s.req.(queue := s.req.queue[1..], consumers := s.req.consumers[i := Pool.Away],
                            finished := s.req.finished + multiset{s.req.queue[0]})
    ensures t.fileOwner.None? && t.handlers == s.handlers && t.cli == s.cli
  {
    var id, run, marked := s.req.queue[0], s.runs, Replace(rows, s.req.queue[0], Grading);
    var s1 := DoTake(s, i);
    var s2 := DoUpdate(s1, i, id, run, Grading, rows);
    var s3 := DoRecord(s2, i, id, run, marked, results);
    t := DoEnd(s3, i, id, run);
    var record := Commands(i, results) + UpdateSteps(i, |rows|);
    LeadsBoth(s2, record, s3, [Grade(i, EndGrading)], t);
    LeadsBoth(s1, UpdateSteps(i, |rows|), s2, record + [Grade(i, EndGrading)], t);
    LeadsBoth(s, TakeSteps(i), s1, UpdateSteps(i, |rows|) + (record + [Grade(i, EndGrading)]), t);
    ReplaceTwice(rows, id, Grading, VerdictOf(results));
    assert t.graders == s.graders[i := Idle];
    assert t.req.consumers == s.req.consumers[i := Pool.Away];
  }
}
