/** What a thread of the grading server says against what it saw: the status that a worker records
    against the results of its commands, and the answer of a handler against the table it read, in
    every run, told from the labels of the steps. */
module ServerHistory {
  import opened Wrappers
  import opened StatusTable
  import opened Names
  import Pool
  import opened GradingServer
  import opened ServerInvariants
  import opened ServerIds
  import opened ServerReports
  import opened ServerSafety
  import opened ServerTheorems

  // ------------------------------------------------------ verdicts and their commands

  /** The results of worker `i`'s commands since it took its request. */
  function ResultsAfter(i: nat, results: seq<bool>, e: Step): seq<bool> {
    if e == Grade(i, Begin) || e.Crash? || e.Restart? then []
    else if e.Grade? && e.i == i && e.act.Exit? then results + [e.act.ok]
    else results
  }

  function Results(i: nat, results: seq<bool>, steps: seq<Step>): seq<bool>
    decreases |steps|
  {
    if steps == [] then results else Results(i, ResultsAfter(i, results, steps[0]), steps[1..])
  }

  /** The status code that results call for: "1" before the first command; "2", "3" or "4" when
      compilation, the run or the comparison has failed; "5" when all have succeeded. */
  function CodeFor(results: seq<bool>): string {
    if results == [] then "1"
    else if results == [false] then "2"
    else if results == [true, false] then "3"
    else if results == [true, true, false] then "4"
    else if results == [true, true, true] then "5"
    else ""
  }

  function Successes(stage: Stage): seq<bool> {
    match stage
    case Compile => []
    case Run => [true]
    case Check => [true, true]
  }

  /** Where a worker stands, told from the results. */
  predicate Follows(pc: GraderPc, results: seq<bool>) {
    match pc
    case Idle => true
    case WantFile(id, run, st) => Code(st) == CodeFor(results)
    case Updating(id, run, st, phase) => Code(st) == CodeFor(results)
    case Ready(id, run, stage) => results == Successes(stage)
    case Executing(id, run, stage) => results == Successes(stage)
    case Done(id, run) => CodeFor(results) in ["2", "3", "4", "5"]
  }

  lemma CodesForResults(results: seq<bool>)
    ensures CodeFor(results) == Code(Grading) <==> results == []
    ensures CodeFor(results) == Code(CompileError) <==> results == [false]
    ensures CodeFor(results) == Code(RuntimeError) <==> results == [true, false]
    ensures CodeFor(results) == Code(WrongOutput) <==> results == [true, true, false]
    ensures CodeFor(results) == Code(Passed) <==> results == [true, true, true]
  {
  }

  lemma FollowsExit(pc: GraderPc, results: seq<bool>, ok: bool)
    requires pc.Executing? && Follows(pc, results)
    ensures Follows(AfterExit(pc, ok), results + [ok])
  {
    assert [] + [ok] == [ok] && [true] + [ok] == [true, ok] && [true, true] + [ok] == [true, true, ok];
    CodesForResults(results + [ok]);
  }

  lemma FollowsEnd(pc: GraderPc, results: seq<bool>)
    requires pc.Updating? && Follows(pc, results) && !pc.st.Queued?
    ensures Follows(if pc.st.Grading? then Ready(pc.id, pc.run, Compile) else Done(pc.id, pc.run), results)
  {
    CodesForResults(results);
  }

  lemma FollowsGrade(s: Server, i: nat, act: GraderAct, results: seq<bool>)
    requires GraderEnabled(s, i, act) && Follows(s.graders[i], results)
    requires act.Open? ==> s.status.Some?
    requires s.graders[i].WantFile? || s.graders[i].Updating? ==> !s.graders[i].st.Queued?
    ensures Follows(GraderNext(s, i, act).graders[i], ResultsAfter(i, results, Grade(i, act)))
  {
    match act {
      case Exit(ok) => FollowsExit(s.graders[i], results, ok);
      case EndUpdate => FollowsEnd(s.graders[i], results);
      case Begin => CodesForResults([]);
      case _ =>
    }
  }

  lemma OthersStay(s: Server, k: nat, act: GraderAct, i: nat)
    requires GraderEnabled(s, k, act) && i != k
    ensures |GraderNext(s, k, act).graders| == |s.graders|
    ensures i < |s.graders| ==> GraderNext(s, k, act).graders[i] == s.graders[i]
  {
  }

  lemma FollowsStep(s: Server, e: Step, i: nat, results: seq<bool>)
    requires TableInv(s) && PendingInv(s) && Enabled(s, e)
    requires i < |s.graders| ==> Follows(s.graders[i], results)
    ensures i < |Next(s, e).graders| ==> Follows(Next(s, e).graders[i], ResultsAfter(i, results, e))
  {
    match e {
      case Grade(k, act) =>
        if k != i {
          OthersStay(s, k, act, i);
        } else {
          assert GraderOk(s, s.graders[i]);
          if act.Open? {
            assert UpdateInv(s, s.graders[i]);
          }
          FollowsGrade(s, i, act, results);
        }
      case Handle(j, task) => HandlerLeaves(s, j, task);
      case _ =>
    }
  }

  lemma {:induction false} FollowsRun(s: Server, steps: seq<Step>, i: nat, results: seq<bool>)
    requires Inv(s) && Legal(s, steps)
    requires i < |s.graders| ==> Follows(s.graders[i], results)
    ensures i < |After(s, steps).graders| ==> Follows(After(s, steps).graders[i], Results(i, results, steps))
    decreases |steps|
  {
    if steps != [] {
      StepKept(s, steps[0]);
      FollowsStep(s, steps[0], i, results);
      FollowsRun(Next(s, steps[0]), steps[1..], i, ResultsAfter(i, results, steps[0]));
    }
  }

  /** In every run from a fresh installation: the status that a worker is about to write, or writes, is
      the one that the results of its own commands for that request call for, by its code in the file. */
  lemma StatusFollowsResults(steps: seq<Step>, i: nat)
    requires Legal(Initial(), steps) && i < |After(Initial(), steps).graders|
    ensures var pc, results := After(Initial(), steps).graders[i], Results(i, [], steps);
            && (pc.WantFile? || pc.Updating? ==> Code(pc.st) == CodeFor(results))
            && (pc.Ready? || pc.Executing? ==>
                  results == match pc.stage case Compile => [] case Run => [true] case Check => [true, true])
  {
    InitialInv();
    FollowsRun(Initial(), steps, i, []);
  }

  /** And when the update has a row to change, that code is what the table says of the request. */
  lemma RecordedCode(steps: seq<Step>, i: nat)
    requires Legal(Initial(), steps) && Enabled(After(Initial(), steps), Grade(i, Remove))
    ensures var s := After(Initial(), steps);
            var id, s' := s.graders[i].id, Next(s, Grade(i, Remove));
            StatusOf(s, id).Some? ==>
              StatusOf(s', id).Some? && Code(StatusOf(s', id).value) == CodeFor(Results(i, [], steps))
  {
    var s := After(Initial(), steps);
    InitialInv();
    RunKept(Initial(), steps);
    StatusFollowsResults(steps, i);
    RemoveShown(s, i);
    assert StatusOf(Next(s, Grade(i, Remove)), s.graders[i].id)
        == if StatusOf(s, s.graders[i].id).Some? then Some(s.graders[i].st) else None;
  }

  /** What a recorded verdict says of the files, kind by kind: the standard error of a failed
      compilation, of a failed run, the difference of a failed or of a successful comparison, each
      complete and from the run that recorded it. */
  lemma VerdictFiles(s: Server, x: int)
    requires Reachable(s) && IsGraded(StatusOf(s, x))
    ensures x in s.graded
    ensures var run := s.graded[x];
            match Code(StatusOf(s, x).value)[0]
            case '2' => FileIs(s, CompileReport, x, Written(run, false))
            case '3' => FileIs(s, RuntimeReport, x, Written(run, false))
            case '4' => FileIs(s, DiffReport, x, Written(run, false))
            case _ => FileIs(s, DiffReport, x, Written(run, true))
  {
    ReachableInv(s);
    assert Backed(s, x);
  }

  /** What a handler sends with a code, by the name of the file: for "2", "3" and "4" the files into
      which the compiler's, the program's and the comparison's redirections go. */
  lemma SentNames(id: int)
    ensures SentFile("2").Some? && Name(SentFile("2").value, id) == "logs/outputs/compiler_err" + CText.Decimal(id)
    ensures SentFile("3").Some? && Name(SentFile("3").value, id) == "logs/outputs/runtime_err" + CText.Decimal(id)
    ensures SentFile("4").Some? && Name(SentFile("4").value, id) == "logs/outputs/output_diff" + CText.Decimal(id)
    ensures forall code :: SentFile(code).Some? ==> code in ["2", "3", "4"]
  {
    NameTexts(id);
  }

  /** The files that each command writes, by name. */
  lemma OutputNames(id: int)
    ensures (set kind | kind in Outputs(Compile) :: Name(kind, id))
         == {"logs/files/prog" + CText.Decimal(id), "logs/outputs/compiler_err" + CText.Decimal(id)}
    ensures (set kind | kind in Outputs(Run) :: Name(kind, id))
         == {"logs/outputs/out" + CText.Decimal(id), "logs/outputs/runtime_err" + CText.Decimal(id)}
    ensures (set kind | kind in Outputs(Check) :: Name(kind, id))
         == {"logs/outputs/output_diff" + CText.Decimal(id)}
  {
    NameTexts(id);
    assert Exec in Outputs(Compile) && CompileReport in Outputs(Compile);
    assert Output in Outputs(Run) && RuntimeReport in Outputs(Run);
    assert DiffReport in Outputs(Check);
  }

  // --------------------------------------------------------- runs and their numbers

  predicate RunBefore(content: Content, runs: nat) {
    content.Written? ==> content.run < runs
  }

  /** Every grading has a number of its own, counted up: no two workers have the same, and what is
      recorded of earlier gradings has smaller numbers than any that is to come. */
  ghost predicate RunsInv(s: Server) {
    && (forall i :: 0 <= i < |s.graders| && !s.graders[i].Idle? ==> s.graders[i].run < s.runs)
    && (forall i, k :: 0 <= i < k < |s.graders| && !s.graders[i].Idle? && !s.graders[k].Idle? ==>
          s.graders[i].run != s.graders[k].run)
    && (forall f :: f in s.files ==> RunBefore(s.files[f], s.runs))
    && (forall x :: x in s.graded ==> s.graded[x] < s.runs)
  }

  lemma RunsMove(s: Server, s': Server, i: nat, pc: GraderPc)
    requires RunsInv(s) && i < |s.graders| && s'.graders == s.graders[i := pc]
    requires if s.graders[i].Idle? then !pc.Idle? ==> pc.run == s.runs && s'.runs == s.runs + 1
             else pc.Idle? || pc.run == s.graders[i].run
    requires s'.runs >= s.runs
    requires forall f :: f in s'.files ==>
               (f in s.files && s'.files[f] == s.files[f]) || RunBefore(s'.files[f], s'.runs)
    requires forall x :: x in s'.graded ==> (x in s.graded && s'.graded[x] == s.graded[x]) || s'.graded[x] < s'.runs
    ensures RunsInv(s')
  {
    forall f | f in s'.files
      ensures RunBefore(s'.files[f], s'.runs)
    {
      assert f in s.files ==> RunBefore(s.files[f], s.runs);
    }
  }

  lemma RunsGrade(s: Server, i: nat, act: GraderAct)
    requires ShapeInv(s) && RunsInv(s) && GraderEnabled(s, i, act)
    ensures RunsInv(GraderNext(s, i, act))
  {
    assert GraderAgrees(s.req.consumers[i], s.graders[i]);
    var s' := GraderNext(s, i, act);
    RunsMove(s, s', i, s'.graders[i]);
  }

  lemma RunsHandle(s: Server, j: nat, task: HandlerAct)
    requires RunsInv(s) && HandlerEnabled(s, j, task)
    ensures RunsInv(HandlerNext(s, j, task))
  {
    HandlerLeaves(s, j, task);
    var s' := HandlerNext(s, j, task);
    forall f | f in s'.files
      ensures RunBefore(s'.files[f], s'.runs)
    {
      assert f in s.files ==> RunBefore(s.files[f], s.runs);
    }
  }

  lemma RunsStep(s: Server, e: Step)
    requires ShapeInv(s) && RunsInv(s) && Enabled(s, e)
    ensures RunsInv(Next(s, e)) && s.runs <= Next(s, e).runs
  {
    match e {
      case Grade(i, act) => RunsGrade(s, i, act);
      case Handle(j, task) => RunsHandle(s, j, task);
      case _ =>
    }
  }

  lemma {:induction false} RunsKept(s: Server, steps: seq<Step>)
    requires Inv(s) && RunsInv(s) && Legal(s, steps)
    ensures RunsInv(After(s, steps)) && s.runs <= After(s, steps).runs
    decreases |steps|
  {
    if steps != [] {
      StepKept(s, steps[0]);
      RunsStep(s, steps[0]);
      RunsKept(Next(s, steps[0]), steps[1..]);
    }
  }

  /** In every reachable state, so that "its own run" says one grading and no other, over all crashes. */
  lemma RunsAreDistinct(s: Server)
    requires Reachable(s)
    ensures RunsInv(s)
  {
    var steps :| Legal(Initial(), steps) && After(Initial(), steps) == s;
    InitialInv();
    RunsKept(Initial(), steps);
  }

  // ------------------------------------------------------ answers and what was read

  /** What handler `j` is at: a new request with the number it was given, or a query for an id, and what
      the table said when the handler read it. */
  datatype Query = NoQuery | Uploading(id: int) | Asked(id: int) | Told(id: int, st: Option<Status>)

  function QueryAfter(s: Server, j: nat, q: Query, e: Step): Query {
    if e.Crash? || e.Restart? then NoQuery
    else if e.Handle? && e.j == j && e.task.StartUpload? then Uploading(e.task.id)
    else if e.Handle? && e.j == j && e.task.StartQuery? then Asked(e.task.id)
    else if e == Handle(j, Read) && q.Asked? then Told(q.id, StatusOf(s, q.id))
    else q
  }

  function QueryIn(s: Server, steps: seq<Step>, j: nat, q: Query): Query
    requires Legal(s, steps)
    decreases |steps|
  {
    if steps == [] then q else QueryIn(Next(s, steps[0]), steps[1..], j, QueryAfter(s, j, q, steps[0]))
  }

  predicate Remembers(pc: HandlerPc, q: Query) {
    && (IsNew(pc) || pc.Appended? ==> q == Uploading(pc.id))
    && (pc.WantRead? || pc.Reading? ==> q == Asked(pc.id))
    && (pc.HaveRead? || pc.Answering? ==> q == Told(pc.id, pc.st))
  }

  lemma RemembersNew(s: Server, j: nat, task: HandlerAct, q: Query)
    requires HandlerEnabled(s, j, task) && Remembers(s.handlers[j], q)
    requires (task.StartUpload? || task.StartQuery? || task.Read?) && (task.Read? ==> s.status.Some?)
    ensures Remembers(HandlerNext(s, j, task).handlers[j], QueryAfter(s, j, q, Handle(j, task)))
  {
  }

  /** Where a handler's other actions lead: on with the same request or query, or to the end. */
  lemma GoesOn(s: Server, j: nat, task: HandlerAct)
    requires HandlerEnabled(s, j, task) && !task.StartUpload? && !task.StartQuery? && !task.Read?
    ensures var pc, pc' := s.handlers[j], HandlerNext(s, j, task).handlers[j];
            && (IsNew(pc') || pc'.Appended? ==> IsNew(pc) && pc'.id == pc.id)
            && (pc'.WantRead? || pc'.Reading? ==> pc.WantRead? && pc'.id == pc.id)
            && !pc'.HaveRead?
            && (pc'.Answering? ==> pc.HaveRead? && pc'.id == pc.id && pc'.st == pc.st)
  {
  }

  lemma RemembersHandle(s: Server, j: nat, task: HandlerAct, q: Query)
    requires HandlerEnabled(s, j, task) && Remembers(s.handlers[j], q)
    requires task.Read? ==> s.status.Some?
    ensures Remembers(HandlerNext(s, j, task).handlers[j], QueryAfter(s, j, q, Handle(j, task)))
  {
    if task.StartUpload? || task.StartQuery? || task.Read? {
      RemembersNew(s, j, task, q);
    } else {
      GoesOn(s, j, task);
    }
  }

  lemma OtherHandlersStay(s: Server, k: nat, task: HandlerAct, j: nat)
    requires HandlerEnabled(s, k, task) && j != k
    ensures |HandlerNext(s, k, task).handlers| == |s.handlers|
    ensures j < |s.handlers| ==> HandlerNext(s, k, task).handlers[j] == s.handlers[j]
  {
  }

  lemma ReaderFindsFile(s: Server, j: nat)
    requires FileLockInv(s) && TableInv(s) && s.up && j < |s.handlers| && s.handlers[j].Reading?
    ensures s.status.Some?
  {
    assert s.fileOwner == Some(Handler(j));
  }

  lemma RemembersStep(s: Server, e: Step, j: nat, q: Query)
    requires FileLockInv(s) && TableInv(s) && Enabled(s, e)
    requires j < |s.handlers| ==> Remembers(s.handlers[j], q)
    ensures j < |Next(s, e).handlers| ==> Remembers(Next(s, e).handlers[j], QueryAfter(s, j, q, e))
  {
    match e {
      case Handle(k, task) =>
        if k != j {
          OtherHandlersStay(s, k, task, j);
        } else {
          if task.Read? {
            ReaderFindsFile(s, j);
          }
          RemembersHandle(s, j, task, q);
        }
      case Grade(i, act) => GraderLeaves(s, i, act);
      case _ =>
    }
  }

  lemma {:induction false} RemembersRun(s: Server, steps: seq<Step>, j: nat, q: Query)
    requires Inv(s) && Legal(s, steps)
    requires j < |s.handlers| ==> Remembers(s.handlers[j], q)
    ensures j < |After(s, steps).handlers| ==> Remembers(After(s, steps).handlers[j], QueryIn(s, steps, j, q))
    decreases |steps|
  {
    if steps != [] {
      StepKept(s, steps[0]);
      RemembersStep(s, steps[0], j, q);
      RemembersRun(Next(s, steps[0]), steps[1..], j, QueryAfter(s, j, q, steps[0]));
    }
  }

  /** In every run from a fresh installation: a handler that answers a query answers for the id that it
      was asked, and with what the table said of that id when it read it: the status, or that there is
      no such request. */
  lemma AnswerIsWhatWasRead(steps: seq<Step>, j: nat)
    requires Legal(Initial(), steps)
    requires j < |After(Initial(), steps).handlers| && After(Initial(), steps).handlers[j].Answering?
    ensures var pc := After(Initial(), steps).handlers[j];
            QueryIn(Initial(), steps, j, NoQuery) == Told(pc.id, pc.st)
  {
    InitialInv();
    RemembersRun(Initial(), steps, j, NoQuery);
  }

  /** A handler that creates a request keeps the number that it was given, up to its row. */
  lemma RequestKeepsItsNumber(steps: seq<Step>, j: nat)
    requires Legal(Initial(), steps) && j < |After(Initial(), steps).handlers|
    ensures var pc := After(Initial(), steps).handlers[j];
            IsNew(pc) || pc.Appended? ==> QueryIn(Initial(), steps, j, NoQuery) == Uploading(pc.id)
  {
    InitialInv();
    RemembersRun(Initial(), steps, j, NoQuery);
  }

  /** That is the number that it hands to the queue, and the number of the row that it writes, with
      status "0", behind all others. */
  lemma NumberIsPassedOn(s: Server, j: nat)
    requires BaseInv(s) && NewInv(s)
    ensures Enabled(s, Handle(j, Confirm(true))) ==>
              Next(s, Handle(j, Confirm(true))).req.producers[j] == Pool.Ready(s.handlers[j].id)
    ensures Enabled(s, Handle(j, Append)) ==>
              View(Next(s, Handle(j, Append))) == View(s) + [Row(s.handlers[j].id, Queued)]
  {
    if Enabled(s, Handle(j, Append)) {
      AppendIsNew(s, Handle(j, Append));
      TableHandle(s, j, Append);
    }
  }
}
