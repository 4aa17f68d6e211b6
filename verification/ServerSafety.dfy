/** The invariant of the grading server over every run, and what it says about statuses,
    reports, responsibility for requests, and locks. */
module ServerSafety {
  import opened Wrappers
  import opened StatusTable
  import Pool
  import opened GradingServer
  import opened ServerInvariants
  import opened ServerIds
  import opened ServerReports

  ghost predicate Inv(s: Server) {
    BaseInv(s) && IdInv(s) && ReportInv(s)
  }

  // ---------------------------------------------------------- crash and restart

  /** Whatever was going on, a crash leaves the table, the reports and the sources. */
  lemma CrashIds(s: Server)
    requires IssuedInv(s) && s.up
    ensures IdInv(Next(s, Crash))
  {
    assert SameStatuses(s, Next(s, Crash));
  }

  lemma CrashReports(s: Server)
    requires ReportInv(s) && s.up
    ensures ReportInv(Next(s, Crash))
  {
    var s' := Next(s, Crash);
    assert SameStatuses(s, s');
    BackedSame(s, s');
    assert forall x :: StatusOf(s', x) == StatusOf(s, x);
  }

  lemma {:induction false} DistinctCount(q: seq<int>, x: int)
    requires forall j, k :: 0 <= j < k < |q| ==> q[j] != q[k]
    ensures multiset(q)[x] <= 1
  {
    if q != [] {
      Pool.PopCount(q, x);
      DistinctCount(q[1..], x);
      if q[0] == x {
        assert x !in q[1..];
      }
    }
  }

  /** The recovered queue against the table: an id is queued exactly when its row is
      unfinished, and then once. */
  lemma RecoveredMeaning(rows: Table, x: int)
    requires DistinctIds(rows)
    ensures x in Recovered(rows) <==> Lookup(rows, x).Some? && Unfinished(Lookup(rows, x).value)
    ensures multiset(Recovered(rows))[x] == if x in Recovered(rows) then 1 else 0
  {
    RecoveredExactly(rows, x);
    forall k | 0 <= k < |rows| && rows[k].id == x
      ensures Lookup(rows, x) == Some(rows[k].status)
    {
      LookupAt(rows, k);
    }
    if Lookup(rows, x).Some? {
      var k :| 0 <= k < |rows| && rows[k].id == x;
    }
    forall j, k | 0 <= j < k < |Recovered(rows)|
      ensures Recovered(rows)[j] != Recovered(rows)[k]
    {
      RecoveredOnce(rows, j, k);
    }
    DistinctCount(Recovered(rows), x);
  }

  /** What a restart makes of the table: every unfinished request enters the queue once, and
      is pending. */
  ghost predicate RestartShows(s: Server, s': Server) {
    forall x ::
      && StatusOf(s', x) == StatusOf(s, x)
      && (x in s'.pending <==> StatusOf(s, x).Some? && Unfinished(StatusOf(s, x).value))
      && s'.req.entered[x] == if x in s'.pending then 1 else 0
  }

  lemma RestartShown(s: Server, n: nat)
    requires TableInv(s) && !s.up && s.status.Some?
    ensures RestartShows(s, Next(s, Restart(n)))
  {
    forall x {
      RecoveredMeaning(s.status.value, x);
    }
  }

  lemma BootPending(s: Server, queue: seq<int>, n: nat)
    requires forall x :: x in queue ==> multiset(queue)[x] == 1
    ensures PendingInv(Boot(s, queue, n))
  {
  }

  /** With no thread at work yet, the ids are right if the recovered queue is. */
  lemma BootIds(s: Server, s': Server)
    requires IssuedInv(s) && RestartShows(s, s') && s'.issued == s.issued
    requires s'.missed == {} && (forall j :: 0 <= j < |s'.handlers| ==> s'.handlers[j].Free?)
    ensures IssuedInv(s') && StatusInv(s') && NewInv(s') && NewIdsInv(s')
  {
    assert forall x :: StatusOf(s', x) == StatusOf(s, x);
  }

  lemma RestartIds(s: Server, n: nat)
    requires IssuedInv(s) && !s.up && s.status.Some? && RestartShows(s, Next(s, Restart(n)))
    ensures IdInv(Next(s, Restart(n)))
  {
    var s', queue := Next(s, Restart(n)), Recovered(s.status.value);
    forall x | x in queue
      ensures multiset(queue)[x] == 1
    {
      assert x in s'.pending;
      assert s'.req.entered[x] == 1;
    }
    BootPending(s, queue, n);
    BootIds(s, s');
  }

  lemma RestartReports(s: Server, n: nat)
    requires ReportInv(s) && !s.up && s.status.Some? && RestartShows(s, Next(s, Restart(n)))
    ensures ReportInv(Next(s, Restart(n)))
  {
    var s' := Next(s, Restart(n));
    assert forall x :: StatusOf(s', x) == StatusOf(s, x);
    BackedSame(s, s');
  }

  // -------------------------------------------------------------------- the step

  lemma PoolsGrade(s: Server, i: nat, act: GraderAct)
    requires Pool.Inv(s.req) && Pool.Inv(s.cli) && GraderEnabled(s, i, act)
    ensures Pool.Inv(GraderNext(s, i, act).req) && Pool.Inv(GraderNext(s, i, act).cli)
  {
    if act.Begin? {
      Pool.StepInv(s.req, Pool.Unlock(i));
    } else if act.EndGrading? {
      Pool.StepInv(s.req, Pool.Finish(i));
    } else {
      assert GraderNext(s, i, act).req == s.req;
    }
    assert GraderNext(s, i, act).cli == s.cli;
  }

  lemma PoolsHandle(s: Server, j: nat, task: HandlerAct)
    requires Pool.Inv(s.req) && Pool.Inv(s.cli) && HandlerEnabled(s, j, task)
    ensures Pool.Inv(HandlerNext(s, j, task).req) && Pool.Inv(HandlerNext(s, j, task).cli)
  {
    if task.TakeConnection? {
      Pool.StepInv(s.cli, Pool.Unlock(j));
    } else if task.Close? {
      Pool.StepInv(s.cli, Pool.Finish(j));
    } else {
      assert HandlerNext(s, j, task).cli == s.cli;
    }
    if task == Confirm(true) {
      Pool.StepInv(s.req, Pool.Enter(j, s.handlers[j].id));
    } else if task.EndSubmit? {
      Pool.StepInv(s.req, Pool.UnlockAfterSignal(j));
    } else {
      assert HandlerNext(s, j, task).req == s.req;
    }
  }

  lemma PoolsKept(s: Server, e: Step)
    requires Pool.Inv(s.req) && Pool.Inv(s.cli) && Enabled(s, e)
    ensures Pool.Inv(Next(s, e).req) && Pool.Inv(Next(s, e).cli)
  {
    match e {
      case ReqStep(pe) => Pool.StepInv(s.req, pe);
      case CliStep(pe) => Pool.StepInv(s.cli, pe);
      case Grade(i, act) => PoolsGrade(s, i, act);
      case Handle(j, task) => PoolsHandle(s, j, task);
      case Crash => Pool.StartInv([], 0, 0);
      case Restart(n) =>
        Pool.StartInv(Recovered(s.status.value), n, n);
        Pool.StartInv([], n, 1);
    }
  }

  lemma AppendIsNew(s: Server, e: Step)
    requires NewInv(s) && Enabled(s, e)
    ensures e.Handle? && e.task.Append? ==> StatusOf(s, s.handlers[e.j].id).None?
  {
    if e.Handle? && e.task.Append? {
      assert NewOk(s, s.handlers[e.j]);
    }
  }

  lemma BaseKept(s: Server, e: Step)
    requires BaseInv(s) && NewInv(s) && Enabled(s, e)
    ensures BaseInv(Next(s, e))
    ensures View(Next(s, e)) == ViewAfter(s, e)
  {
    PoolsKept(s, e);
    ShapeKept(s, e);
    FileLockKept(s, e);
    AppendIsNew(s, e);
    TableKept(s, e);
  }

  lemma ReportPool(s: Server, s': Server)
    requires ReportInv(s) && View(s') == View(s)
    requires s'.files == s.files && s'.graded == s.graded && s'.graders == s.graders && s'.handlers == s.handlers
    requires s'.req.entered == s.req.entered
    ensures ReportInv(s')
  {
    assert SameStatuses(s, s');
    BackedSame(s, s');
    RunSame(s, s');
    SourceSame(s, s');
  }

  lemma IdKept(s: Server, e: Step)
    requires BaseInv(s) && IdInv(s) && Enabled(s, e)
    ensures IdInv(Next(s, e))
  {
    match e {
      case ReqStep(pe) => IdReq(s, pe);
      case CliStep(pe) => IdCli(s, pe);
      case Grade(i, act) => IdGrade(s, i, act);
      case Handle(j, task) => IdHandle(s, j, task);
      case Crash => CrashIds(s);
      case Restart(n) =>
        RestartShown(s, n);
        RestartIds(s, n);
    }
  }

  lemma ReportKept(s: Server, e: Step)
    requires BaseInv(s) && IdInv(s) && ReportInv(s) && Enabled(s, e)
    ensures ReportInv(Next(s, e))
  {
    match e {
      case ReqStep(pe) => ReportPool(s, s.(req := Pool.Next(s.req, pe)));
      case CliStep(pe) => ReportPool(s, s.(cli := Pool.Next(s.cli, pe)));
      case Grade(i, act) => ReportGrade(s, i, act);
      case Handle(j, task) => ReportHandle(s, j, task);
      case Crash => CrashReports(s);
      case Restart(n) =>
        RestartShown(s, n);
        RestartReports(s, n);
    }
  }

  /** Every step keeps the invariant. */
  lemma StepKept(s: Server, e: Step)
    requires Inv(s) && Enabled(s, e)
    ensures Inv(Next(s, e))
  {
    BaseKept(s, e);
    IdKept(s, e);
    ReportKept(s, e);
  }

  lemma InitialInv()
    ensures Inv(Initial())
  {
    Pool.StartInv([], 0, 0);
    assert View(Initial()) == [];
    assert BaseInv(Initial());
    assert forall x :: StatusOf(Initial(), x) == None;
  }

  lemma {:induction false} RunKept(s: Server, steps: seq<Step>)
    requires Inv(s) && Legal(s, steps)
    ensures Inv(After(s, steps))
    decreases |steps|
  {
    if steps != [] {
      StepKept(s, steps[0]);
      RunKept(Next(s, steps[0]), steps[1..]);
    }
  }
}
