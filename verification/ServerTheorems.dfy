/** What holds in every run of the grading server, however its threads interleave and however
    often it crashes and restarts. */
module ServerTheorems {
  import opened Wrappers
  import opened CText
  import opened StatusTable
  import opened Names
  import Pool
  import StatusFile
  import opened GradingServer
  import opened ServerInvariants
  import opened ServerIds
  import opened ServerReports
  import opened ServerSafety

  /** The states of all runs of a fresh installation. */
  ghost predicate Reachable(s: Server) {
    exists steps :: Legal(Initial(), steps) && After(Initial(), steps) == s
  }

  lemma ReachableInv(s: Server)
    requires Reachable(s)
    ensures Inv(s)
  {
    var steps :| Legal(Initial(), steps) && After(Initial(), steps) == s;
    InitialInv();
    RunKept(Initial(), steps);
  }

  // ---------------------------------------------------------- the file on disk

  /** A worker is between the remove and the rename. */
  predicate InWindow(s: Server) {
    exists i :: 0 <= i < |s.graders| && s.graders[i].Updating? && s.graders[i].phase.Removed?
  }

  /** The many steps of an update, under the lock, are one atomic update of the table: before
      and after any step the status file is the whole table, or it is missing and the temporary
      file is the whole table; the removal changes all of the table at once and no other step
      of an update changes it. */
  lemma UpdatesAreAtomic(s: Server, e: Step)
    requires Reachable(s) && Enabled(s, e)
    ensures View(Next(s, e)) == ViewAfter(s, e)
    ensures s.status == Some(View(s)) || (s.status == None && s.temp == Some(View(s)))
    ensures s.up ==> (s.status.None? <==> InWindow(s))
  {
    ReachableInv(s);
    BaseKept(s, e);
    if s.up && s.status.None? {
      assert s.graders[s.fileOwner.value.i].phase.Removed?;
    }
    if InWindow(s) {
      var i :| 0 <= i < |s.graders| && s.graders[i].Updating? && s.graders[i].phase.Removed?;
      assert UpdateInv(s, s.graders[i]);
    }
  }

  /** Nobody looks for the file while it is missing, so a read of an id that fits the buffer of
      readStatusFromFile returns the table's status. An id that does not fit is one of at most
      -10^9, which only a client can ask for. */
  lemma ReadsSeeTheTable(s: Server, j: nat)
    requires Reachable(s) && j < |s.handlers| && s.handlers[j].Reading?
    ensures s.status.Some? && Enabled(s, Handle(j, Read))
    ensures var id := s.handlers[j].id;
            && (!StatusFile.Overruns(View(s), id) ==>
                  Next(s, Handle(j, Read)).handlers[j] == HaveRead(id, StatusOf(s, id)))
            && (IsInt32(id) ==> (StatusFile.Overruns(View(s), id) <==> View(s) != [] && id <= -1_000_000_000))
  {
    ReachableInv(s);
    assert s.fileOwner == Some(Handler(j));
    var id := s.handlers[j].id;
    if IsInt32(id) {
      StatusFile.OverrunsIff(View(s), id);
    }
  }

  /** The other uses of the file find it too. */
  lemma FileIsThere(s: Server)
    requires Reachable(s)
    ensures forall i :: 0 <= i < |s.graders| && s.graders[i].Updating? && s.graders[i].phase.Opening? ==> s.status.Some?
    ensures forall j :: 0 <= j < |s.handlers| && s.handlers[j].Appending? ==> s.status.Some?
  {
    ReachableInv(s);
    forall i | 0 <= i < |s.graders| && s.graders[i].Updating? && s.graders[i].phase.Opening?
      ensures s.status.Some?
    {
      assert UpdateInv(s, s.graders[i]);
    }
  }

  /** A crash can be recovered from exactly when it does not fall into the window. The table is
      on disk in either case. */
  lemma RecoverableIff(s: Server, n: nat)
    requires Reachable(s) && s.up
    ensures Enabled(Next(s, Crash), Restart(n)) <==> !InWindow(s)
    ensures View(Next(s, Crash)) == View(s)
  {
    UpdatesAreAtomic(s, Crash);
  }

  // ------------------------------------------------------------- status only rises

  /** Absent, "0", "1", graded. */
  function Rank(st: Option<Status>): nat {
    match st
    case None => 0
    case Some(Queued) => 1
    case Some(Grading) => 2
    case Some(_) => 3
  }

  predicate IsGraded(st: Option<Status>) {
    st.Some? && !Unfinished(st.value)
  }

  predicate Rises(before: Option<Status>, after: Option<Status>) {
    Rank(before) <= Rank(after) && (IsGraded(before) ==> after == before)
  }

  lemma RiseOnRemove(s: Server, i: nat, x: int)
    requires StatusInv(s) && PendingInv(s) && GraderEnabled(s, i, Remove) && RemoveShows(s, i)
    ensures Rises(StatusOf(s, x), StatusOf(GraderNext(s, i, Remove), x))
  {
    assert GraderOk(s, s.graders[i]);
    assert StatusOf(GraderNext(s, i, Remove), x)
        == if x == s.graders[i].id && StatusOf(s, x).Some? then Some(s.graders[i].st) else StatusOf(s, x);
  }

  lemma RiseOnAppend(s: Server, j: nat, x: int)
    requires NewInv(s) && HandlerEnabled(s, j, Append) && AppendShows(s, j)
    ensures Rises(StatusOf(s, x), StatusOf(HandlerNext(s, j, Append), x))
  {
    assert NewOk(s, s.handlers[j]);
    assert StatusOf(HandlerNext(s, j, Append), x) == if x == s.handlers[j].id then Some(Queued) else StatusOf(s, x);
  }

  lemma StatusStep(s: Server, e: Step, x: int)
    requires Inv(s) && Enabled(s, e)
    ensures Rises(StatusOf(s, x), StatusOf(Next(s, e), x))
  {
    AppendIsNew(s, e);
    if e.Grade? && e.act.Remove? {
      RemoveShown(s, e.i);
      RiseOnRemove(s, e.i, x);
    } else if e.Handle? && e.task.Append? {
      AppendShown(s, e.j);
      RiseOnAppend(s, e.j, x);
    } else {
      TableKept(s, e);
    }
  }

  /** In every run a row never disappears, its status only rises, and a verdict never changes. */
  lemma {:induction false} StatusOnlyRises(s: Server, steps: seq<Step>, x: int)
    requires Inv(s) && Legal(s, steps)
    ensures Rises(StatusOf(s, x), StatusOf(After(s, steps), x))
    decreases |steps|
  {
    if steps != [] {
      StepKept(s, steps[0]);
      StatusStep(s, steps[0], x);
      StatusOnlyRises(Next(s, steps[0]), steps[1..], x);
    }
  }

  // ------------------------------------------------------- reports behind verdicts

  lemma GradedGrade(s: Server, i: nat, act: GraderAct, x: int)
    requires StatusInv(s) && PendingInv(s) && GraderEnabled(s, i, act) && IsGraded(StatusOf(s, x)) && x in s.graded
    ensures x in GraderNext(s, i, act).graded && GraderNext(s, i, act).graded[x] == s.graded[x]
  {
    if act.Remove? {
      assert GraderOk(s, s.graders[i]);
    } else {
      GraderLeaves(s, i, act);
    }
  }

  lemma GradedStep(s: Server, e: Step, x: int)
    requires BackedInv(s) && StatusInv(s) && PendingInv(s) && Enabled(s, e) && IsGraded(StatusOf(s, x))
    ensures x in s.graded && x in Next(s, e).graded && Next(s, e).graded[x] == s.graded[x]
  {
    assert Backed(s, x);
    if e.Grade? {
      GradedGrade(s, e.i, e.act, x);
    } else if e.Handle? {
      HandlerLeaves(s, e.j, e.task);
    }
  }

  /** Once a verdict is recorded, its report is the complete output of the run that recorded it,
      and it is that same output in every later state of every run. */
  lemma {:induction false} ReportsLast(s: Server, steps: seq<Step>, x: int)
    requires Inv(s) && Legal(s, steps) && IsGraded(StatusOf(s, x))
    ensures var st := StatusOf(s, x).value;
            && StatusOf(After(s, steps), x) == Some(st)
            && x in s.graded
            && FileIs(s, ReportOf(st), x, Written(s.graded[x], st.Passed?))
            && FileIs(After(s, steps), ReportOf(st), x, Written(s.graded[x], st.Passed?))
    decreases |steps|
  {
    assert Backed(s, x);
    if steps != [] {
      StepKept(s, steps[0]);
      StatusStep(s, steps[0], x);
      GradedStep(s, steps[0], x);
      ReportsLast(Next(s, steps[0]), steps[1..], x);
    }
  }

  /** A verdict that a handler has read is still the table's. */
  predicate AnswerOk(s: Server, pc: HandlerPc) {
    (pc.HaveRead? || pc.Answering?) && IsGraded(pc.st) ==> StatusOf(s, pc.id) == pc.st
  }

  ghost predicate AnswerInv(s: Server) {
    forall j :: 0 <= j < |s.handlers| ==> AnswerOk(s, s.handlers[j])
  }

  lemma AnswerSame(s: Server, s': Server)
    requires AnswerInv(s) && s'.handlers == s.handlers
    requires forall x :: Rises(StatusOf(s, x), StatusOf(s', x))
    ensures AnswerInv(s')
  {
    forall j | 0 <= j < |s'.handlers|
      ensures AnswerOk(s', s'.handlers[j])
    {
      assert AnswerOk(s, s.handlers[j]);
    }
  }

  lemma AnswerMove(s: Server, s': Server, j: nat, pc: HandlerPc)
    requires AnswerInv(s) && j < |s.handlers| && s'.handlers == s.handlers[j := pc] && AnswerOk(s', pc)
    requires forall x :: Rises(StatusOf(s, x), StatusOf(s', x))
    ensures AnswerInv(s')
  {
    forall k | 0 <= k < |s'.handlers|
      ensures AnswerOk(s', s'.handlers[k])
    {
      assert AnswerOk(s, s.handlers[k]);
    }
  }

  lemma AnswerHandle(s: Server, j: nat, task: HandlerAct)
    requires AnswerInv(s) && HandlerEnabled(s, j, task)
    requires task.Read? ==> s.status.Some?
    requires forall x :: Rises(StatusOf(s, x), StatusOf(HandlerNext(s, j, task), x))
    ensures AnswerInv(HandlerNext(s, j, task))
  {
    var s' := HandlerNext(s, j, task);
    assert AnswerOk(s, s.handlers[j]);
    AnswerMove(s, s', j, s'.handlers[j]);
  }

  lemma AnswerCases(s: Server, e: Step)
    requires AnswerInv(s) && Enabled(s, e)
    requires e.Handle? && e.task.Read? ==> s.status.Some?
    requires forall x :: Rises(StatusOf(s, x), StatusOf(Next(s, e), x))
    ensures AnswerInv(Next(s, e))
  {
    match e {
      case ReqStep(pe) => AnswerSame(s, Next(s, e));
      case CliStep(pe) => AnswerSame(s, Next(s, e));
      case Grade(i, act) =>
        GraderLeaves(s, i, act);
        AnswerSame(s, Next(s, e));
      case Handle(j, task) => AnswerHandle(s, j, task);
      case _ =>
    }
  }

  lemma AnswerStep(s: Server, e: Step)
    requires Inv(s) && AnswerInv(s) && Enabled(s, e)
    ensures AnswerInv(Next(s, e))
  {
    forall x
      ensures Rises(StatusOf(s, x), StatusOf(Next(s, e), x))
    {
      StatusStep(s, e, x);
    }
    AnswerCases(s, e);
  }

  lemma {:induction false} AnswerRun(s: Server, steps: seq<Step>)
    requires Inv(s) && AnswerInv(s) && Legal(s, steps)
    ensures AnswerInv(After(s, steps))
    decreases |steps|
  {
    if steps != [] {
      StepKept(s, steps[0]);
      AnswerStep(s, steps[0]);
      AnswerRun(Next(s, steps[0]), steps[1..]);
    }
  }

  /** The file that checkStatusRequest sends after a status code, as its chain of strcmp calls
      decides. */
  function SentFile(code: string): Option<Kind> {
    if code == "2" then Some(CompileReport)
    else if code == "3" then Some(RuntimeReport)
    else if code == "4" then Some(DiffReport)
    else None
  }

  /** The chain decides by the status: a failed command has its own report sent, and no other
      status has a file. */
  lemma SentFileIs(st: Status)
    ensures SentFile(Code(st)) == if Unfinished(st) || st.Passed? then None else Some(ReportOf(st))
  {
  }

  lemma AnswersHold(s: Server)
    requires Reachable(s)
    ensures Inv(s) && AnswerInv(s)
  {
    var steps :| Legal(Initial(), steps) && After(Initial(), steps) == s;
    InitialInv();
    RunKept(Initial(), steps);
    AnswerRun(Initial(), steps);
  }

  /** When a client is answered with a code that has a file sent (2, 3 or 4), that file is the
      complete output of the failed command, from the run of that request that recorded the
      status; and it stays so while it is being sent. */
  lemma AnswersAreBacked(s: Server, j: nat, steps: seq<Step>)
    requires Reachable(s) && j < |s.handlers| && s.handlers[j].Answering? && Legal(s, steps)
    requires s.handlers[j].st.Some? && SentFile(Code(s.handlers[j].st.value)).Some?
    ensures var pc := s.handlers[j];
            && pc.id in s.graded
            && FileIs(After(s, steps), SentFile(Code(pc.st.value)).value, pc.id, Written(s.graded[pc.id], false))
  {
    AnswersHold(s);
    SentFileIs(s.handlers[j].st.value);
    assert AnswerOk(s, s.handlers[j]);
    ReportsLast(s, steps, s.handlers[j].id);
  }

  /** A command that is running has its input complete: the uploaded program for the compiler, the
      executable that this very run compiled for the run, and its output for the comparison. */
  lemma CommandsReadComplete(s: Server, i: nat)
    requires Reachable(s) && i < |s.graders| && s.graders[i].Executing?
    ensures var pc := s.graders[i];
            && (pc.stage.Compile? ==> FileIs(s, Program, pc.id, Uploaded))
            && (pc.stage.Run? ==> FileIs(s, Exec, pc.id, Written(pc.run, true)))
            && (pc.stage.Check? ==> FileIs(s, Output, pc.id, Written(pc.run, true)))
  {
    ReachableInv(s);
    HeldOnce(s, i);
    assert RunOk(s, s.graders[i]);
  }

  // -------------------------------------------------------- who grades a request

  /** Some thread still has the final update of this request to do: it is with the handler that
      enqueues it, queued, or with a worker before its last change to the status file. */
  ghost predicate Responsible(s: Server, x: int) {
    || x in s.req.queue
    || (exists j :: 0 <= j < |s.req.producers| && Pool.ProducerHas(s.req.producers[j], x) == 1)
    || (exists i :: 0 <= i < |s.req.consumers| && s.req.consumers[i] == Pool.Took(x))
    || (exists i :: 0 <= i < |s.graders| && !s.graders[i].Idle? && s.graders[i].id == x && !Settled(s.graders[i]))
  }

  /** The history set `pending` is exactly the set of requests somebody is responsible for. */
  lemma PendingIff(s: Server, x: int)
    requires Inv(s)
    ensures x in s.pending <==> Responsible(s, x)
  {
    if x in s.pending {
      assert Pool.Live(s.req, x) + s.req.finished[x] == s.req.entered[x];
      Pool.LiveSomewhere(s.req, x);
      if i :| 0 <= i < |s.req.consumers| && Pool.ConsumerHas(s.req.consumers[i], x) == 1 {
        assert GraderAgrees(s.req.consumers[i], s.graders[i]);
        assert GraderOk(s, s.graders[i]);
      }
    }
    if i :| 0 <= i < |s.graders| && !s.graders[i].Idle? && s.graders[i].id == x && !Settled(s.graders[i]) {
      assert GraderOk(s, s.graders[i]);
    }
  }

  /** While the server runs, every unfinished row is some thread's responsibility; the only
      exception is a row still at "0" whose worker made its last update before the row was
      written. Nobody is responsible for a graded row. */
  lemma EveryRowAccountedFor(s: Server, x: int)
    requires Reachable(s) && s.up && StatusOf(s, x).Some?
    ensures Unfinished(StatusOf(s, x).value) ==>
              Responsible(s, x) || (x in s.missed && StatusOf(s, x) == Some(Queued))
    ensures Responsible(s, x) ==> Unfinished(StatusOf(s, x).value)
    ensures x in s.missed ==> !Responsible(s, x) && StatusOf(s, x) == Some(Queued)
  {
    ReachableInv(s);
    PendingIff(s, x);
  }

  /** A restart makes exactly the unfinished rows somebody's responsibility again, the missed
      ones included. */
  lemma RestartTakesAll(s: Server, n: nat, x: int)
    requires Reachable(s) && Enabled(s, Restart(n))
    ensures var s' := Next(s, Restart(n));
            && (x in s'.req.queue <==> StatusOf(s, x).Some? && Unfinished(StatusOf(s, x).value))
            && (Responsible(s', x) <==> x in s'.req.queue)
            && s'.missed == {}
  {
    ReachableInv(s);
    RecoveredMeaning(s.status.value, x);
    StepKept(s, Restart(n));
    PendingIff(Next(s, Restart(n)), x);
  }

  /** The final update of a grading is recorded exactly when the request's row is already there;
      otherwise it is lost, and the row, once written, says "0" with nobody responsible. */
  lemma VerdictRecordedIff(s: Server, i: nat)
    requires Reachable(s) && Enabled(s, Grade(i, Remove)) && !Unfinished(s.graders[i].st)
    ensures var id, st, s' := s.graders[i].id, s.graders[i].st, Next(s, Grade(i, Remove));
            && (StatusOf(s', id) == Some(st) <==> StatusOf(s, id).Some?)
            && (StatusOf(s, id).None? ==> StatusOf(s', id).None? && id in s'.missed)
            && !Responsible(s', id)
  {
    ReachableInv(s);
    RemoveShown(s, i);
    var s' := Next(s, Grade(i, Remove));
    StepKept(s, Grade(i, Remove));
    PendingIff(s', s.graders[i].id);
    assert HasRow(s.status.value, s.graders[i].id) <==> StatusOf(s, s.graders[i].id).Some?;
  }

  predicate NoCrash(steps: seq<Step>) {
    forall k :: 0 <= k < |steps| ==> !steps[k].Crash?
  }

  lemma NoCrashTail(steps: seq<Step>)
    requires NoCrash(steps) && steps != []
    ensures !steps[0].Crash? && NoCrash(steps[1..])
  {
    assert forall k :: 0 <= k < |steps[1..]| ==> steps[1..][k] == steps[k + 1];
  }

  lemma MissedStep(s: Server, e: Step, x: int)
    requires Enabled(s, e) && s.up && !e.Crash? && x in s.missed
    ensures Next(s, e).up && x in Next(s, e).missed
  {
    if e.Grade? {
      GraderLeaves(s, e.i, e.act);
    } else if e.Handle? {
      HandlerLeaves(s, e.j, e.task);
    }
  }

  /** A request whose final update was lost is out of reach until the next crash: whatever
      happens, nobody becomes responsible for it, and its row, once written, says "0". */
  lemma {:induction false} MissedUntilCrash(s: Server, steps: seq<Step>, x: int)
    requires Inv(s) && s.up && x in s.missed && Legal(s, steps) && NoCrash(steps)
    ensures !Responsible(After(s, steps), x)
    ensures StatusOf(After(s, steps), x) in [None, Some(Queued)]
    decreases |steps|
  {
    if steps == [] {
      PendingIff(s, x);
    } else {
      NoCrashTail(steps);
      StepKept(s, steps[0]);
      MissedStep(s, steps[0], x);
      MissedUntilCrash(Next(s, steps[0]), steps[1..], x);
    }
  }

  // ------------------------------------------------- what a crash leaves of a request

  /** The request was given its number, has no row, and no handler is left to write one. */
  ghost predicate Forsaken(s: Server, x: int) {
    && x in s.issued && StatusOf(s, x).None?
    && forall j :: 0 <= j < |s.handlers| && IsNew(s.handlers[j]) ==> s.handlers[j].id != x
  }

  lemma ForsakenHandle(s: Server, j: nat, task: HandlerAct, x: int)
    requires HandlerEnabled(s, j, task) && Forsaken(s, x)
    ensures x in HandlerNext(s, j, task).issued
    ensures x in HandlerNext(s, j, task).pending ==> x in s.pending
    ensures forall k :: 0 <= k < |s.handlers| && IsNew(HandlerNext(s, j, task).handlers[k]) ==>
              HandlerNext(s, j, task).handlers[k].id != x
  {
  }

  lemma ForsakenGrade(s: Server, i: nat, act: GraderAct, x: int)
    requires GraderEnabled(s, i, act)
    ensures x in GraderNext(s, i, act).pending ==> x in s.pending
  {
    if !act.Remove? {
      GraderLeaves(s, i, act);
    }
  }

  lemma ForsakenRestart(s: Server, n: nat, x: int)
    requires TableInv(s) && Enabled(s, Restart(n)) && Forsaken(s, x)
    ensures x !in Next(s, Restart(n)).pending && Next(s, Restart(n)).issued == s.issued
    ensures forall j :: 0 <= j < |Next(s, Restart(n)).handlers| ==> Next(s, Restart(n)).handlers[j].Free?
  {
    RestartShown(s, n);
  }

  /** What a step does to the threads and ids around a forsaken request. */
  lemma ForsakenThreads(s: Server, e: Step, x: int)
    requires TableInv(s) && Enabled(s, e) && Forsaken(s, x)
    ensures x in Next(s, e).pending ==> x in s.pending
    ensures x in Next(s, e).issued
    ensures forall j :: 0 <= j < |Next(s, e).handlers| && IsNew(Next(s, e).handlers[j]) ==>
              Next(s, e).handlers[j].id != x
  {
    match e {
      case Grade(i, act) =>
        GraderLeaves(s, i, act);
        ForsakenGrade(s, i, act, x);
      case Handle(j, task) => ForsakenHandle(s, j, task, x);
      case Restart(n) => ForsakenRestart(s, n, x);
      case _ =>
    }
  }

  lemma ForsakenTable(s: Server, e: Step, x: int)
    requires Inv(s) && Enabled(s, e) && Forsaken(s, x)
    ensures StatusOf(Next(s, e), x).None?
  {
    AppendIsNew(s, e);
    if e.Grade? && e.act.Remove? {
      RemoveShown(s, e.i);
    } else if e.Handle? && e.task.Append? {
      AppendShown(s, e.j);
    } else {
      TableKept(s, e);
    }
  }

  lemma ForsakenStep(s: Server, e: Step, x: int)
    requires Inv(s) && Enabled(s, e) && Forsaken(s, x)
    ensures Forsaken(Next(s, e), x)
    ensures x in Next(s, e).pending ==> x in s.pending
  {
    ForsakenTable(s, e, x);
    ForsakenThreads(s, e, x);
  }

  /** A forsaken request never gets a row; and once nobody is responsible for it, nobody ever is
      again. */
  lemma {:induction false} ForsakenForGood(s: Server, steps: seq<Step>, x: int)
    requires Inv(s) && Legal(s, steps) && Forsaken(s, x)
    ensures Forsaken(After(s, steps), x)
    ensures Responsible(After(s, steps), x) ==> Responsible(s, x)
    decreases |steps|
  {
    PendingIff(s, x);
    if steps != [] {
      StepKept(s, steps[0]);
      ForsakenStep(s, steps[0], x);
      PendingIff(Next(s, steps[0]), x);
      ForsakenForGood(Next(s, steps[0]), steps[1..], x);
    }
  }

  lemma NewReply(s: Server, j: nat)
    requires NewInv(s) && NewIdsInv(s) && HandlerEnabled(s, j, Reply(false))
    ensures s.handlers[j].id in s.issued && StatusOf(s, s.handlers[j].id).None?
    ensures forall k :: 0 <= k < |s.handlers| && k != j && IsNew(s.handlers[k]) ==> s.handlers[k].id != s.handlers[j].id
  {
    assert NewOk(s, s.handlers[j]);
  }

  /** A client that cannot be told its number is forsaken, although its program is graded. */
  lemma FailedReply(s: Server, j: nat)
    requires Inv(s) && Enabled(s, Handle(j, Reply(false)))
    ensures Forsaken(Next(s, Handle(j, Reply(false))), s.handlers[j].id)
  {
    NewReply(s, j);
    assert View(Next(s, Handle(j, Reply(false)))) == View(s);
  }

  lemma MissedGrade(s: Server, i: nat, act: GraderAct, x: int)
    requires TableInv(s) && s.up && GraderEnabled(s, i, act) && StatusOf(s, x).Some?
    ensures x in GraderNext(s, i, act).missed ==> x in s.missed
  {
    if act.Remove? {
      assert UpdateInv(s, s.graders[i]);
      assert HasRow(s.status.value, x) <==> StatusOf(s, x).Some?;
    } else {
      GraderLeaves(s, i, act);
    }
  }

  /** A request that has a row is not missed later. */
  lemma MissedOnlyBefore(s: Server, e: Step, x: int)
    requires TableInv(s) && Enabled(s, e) && StatusOf(s, x).Some?
    ensures x in Next(s, e).missed ==> x in s.missed
  {
    match e {
      case Grade(i, act) => MissedGrade(s, i, act, x);
      case Handle(j, task) => HandlerLeaves(s, j, task);
      case _ =>
    }
  }

  lemma RowStays(s: Server, e: Step, x: int)
    requires Inv(s) && Enabled(s, e) && StatusOf(s, x).Some? && x !in s.missed
    ensures StatusOf(Next(s, e), x).Some? && x !in Next(s, e).missed
  {
    StatusStep(s, e, x);
    MissedOnlyBefore(s, e, x);
  }

  lemma {:induction false} RowStaysForGood(s: Server, steps: seq<Step>, x: int)
    requires Inv(s) && Legal(s, steps) && StatusOf(s, x).Some? && x !in s.missed
    ensures StatusOf(After(s, steps), x).Some? && x !in After(s, steps).missed
    decreases |steps|
  {
    if steps != [] {
      StepKept(s, steps[0]);
      RowStays(s, steps[0], x);
      RowStaysForGood(Next(s, steps[0]), steps[1..], x);
    }
  }

  /** Which requests survive a crash: exactly those that have a row. Without one, the request never
      gets a row and nobody is ever responsible for it, in all that follows; with one, in every
      later state in which the server is up it is graded or somebody's responsibility. */
  lemma CrashSurvivors(s: Server, steps: seq<Step>, x: int)
    requires Reachable(s) && s.up && x in s.issued && Legal(Next(s, Crash), steps)
    ensures var end := After(Next(s, Crash), steps);
            if StatusOf(s, x).None? then StatusOf(end, x).None? && !Responsible(end, x)
            else StatusOf(end, x).Some? && (end.up ==> IsGraded(StatusOf(end, x)) || Responsible(end, x))
  {
    ReachableInv(s);
    var s' := Next(s, Crash);
    StepKept(s, Crash);
    TableKept(s, Crash);
    RunKept(s', steps);
    if StatusOf(s, x).None? {
      PendingIff(s', x);
      ForsakenForGood(s', steps, x);
    } else {
      RowStaysForGood(s', steps, x);
      PendingIff(After(s', steps), x);
    }
  }

  // ------------------------------------------------------------------ one at a time

  /** No request is ever queued or held by workers more than once in total: two workers never
      grade the same request at the same time. */
  lemma GradedByOne(s: Server, x: int)
    requires Reachable(s)
    ensures Pool.Live(s.req, x) <= 1
    ensures forall i, k :: 0 <= i < k < |s.graders| && !s.graders[i].Idle? && !s.graders[k].Idle? ==>
              s.graders[i].id != s.graders[k].id
    ensures forall i :: 0 <= i < |s.graders| && !s.graders[i].Idle? ==> s.graders[i].id !in s.req.queue
  {
    ReachableInv(s);
    assert Pool.Live(s.req, x) + s.req.finished[x] == s.req.entered[x];
    forall i | 0 <= i < |s.graders| && !s.graders[i].Idle?
      ensures OnlyHolder(s, i)
    {
      HeldOnce(s, i);
    }
  }

  /** A worker never dequeues a negative number, so it never takes dequeue's result for an
      error. */
  lemma QueuedIdsAreValid(s: Server)
    requires Reachable(s)
    ensures forall x :: x in s.req.queue ==> 0 <= x <= 999_999_999
  {
    ReachableInv(s);
    forall x | x in s.req.queue
      ensures 0 <= x <= 999_999_999
    {
      assert x in s.pending;
      assert s.req.entered[x] == 1;
    }
  }
}
