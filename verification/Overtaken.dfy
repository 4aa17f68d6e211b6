/** Runs of the grading server in which something goes wrong: a graded request is left at "0", an
    acknowledged request is lost, the server cannot be restarted, a status query is for an id that
    does not fit its buffer, and a handler can call strtok between a worker's two calls. */
module Overtaken {
  import opened Wrappers
  import opened StatusTable
  import Pool
  import StatusFile
  import opened CText
  import Requests
  import SharedTokens
  import SharedUpdates
  import opened GradingServer
  import opened ServerTheorems
  import ServerScripts

  lemma First(s: Server, e: Step, rest: seq<Step>)
    requires Enabled(s, e) && Legal(Next(s, e), rest)
    ensures Legal(s, [e] + rest) && After(s, [e] + rest) == After(Next(s, e), rest)
  {
    assert ([e] + rest)[1..] == rest;
  }

  lemma {:induction false} Last(s: Server, steps: seq<Step>, e: Step)
    requires Legal(s, steps) && Enabled(After(s, steps), e)
    ensures Legal(s, steps + [e]) && After(s, steps + [e]) == Next(After(s, steps), e)
    decreases |steps|
  {
    if steps == [] {
      First(s, e, []);
      assert [] + [e] == [e] + [];
    } else {
      Last(Next(s, steps[0]), steps[1..], e);
      First(s, steps[0], steps[1..] + [e]);
      assert [steps[0]] + (steps[1..] + [e]) == steps + [e];
    }
  }

  /** One more step of a run. */
  lemma Take(s: Server, e: Step) returns (s': Server)
    requires Reachable(s) && Enabled(s, e)
    ensures s' == Next(s, e) && Reachable(s')
  {
    var steps :| Legal(Initial(), steps) && After(Initial(), steps) == s;
    Last(Initial(), steps, e);
    s' := Next(s, e);
  }

  lemma TakeReq(s: Server, pe: Pool.Step) returns (s': Server)
    requires Reachable(s) && Enabled(s, ReqStep(pe))
    ensures s' == s.(req := Pool.Next(s.req, pe)) && Reachable(s')
  {
    s' := Take(s, ReqStep(pe));
  }

  lemma TakeCli(s: Server, pe: Pool.Step) returns (s': Server)
    requires Reachable(s) && Enabled(s, CliStep(pe))
    ensures s' == s.(cli := Pool.Next(s.cli, pe)) && Reachable(s')
  {
    s' := Take(s, CliStep(pe));
  }

  lemma Work(s: Server, act: GraderAct) returns (s': Server)
    requires Reachable(s) && s.up && GraderEnabled(s, 0, act)
    ensures s' == GraderNext(s, 0, act) && Reachable(s')
  {
    s' := Take(s, Grade(0, act));
  }

  lemma Serve(s: Server, task: HandlerAct) returns (s': Server)
    requires Reachable(s) && s.up && HandlerEnabled(s, 0, task)
    ensures s' == HandlerNext(s, 0, task) && Reachable(s')
  {
    s' := Take(s, Handle(0, task));
  }

  /** A running server with one worker and one handler, and nobody in the files. */
  predicate At(s: Server, worker: GraderPc, handler: HandlerPc, req: Pool.Pool, rows: Table, missed: set<int>) {
    && s.up && s.fileOwner == None
    && s.graders == [worker] && s.handlers == [handler] && s.req == req
    && s.status == Some(rows) && s.missed == missed
  }

  /** The request queue `q` and a request handed to it, in two stages. */
  function Offered(q: seq<int>, id: int): Pool.Pool {
    Pool.Pool(q, None, [Pool.Away], [Pool.Ready(id)], multiset(q) + multiset{id}, multiset{})
  }

  function Waiting(q: seq<int>, id: int): Pool.Pool {
    Pool.Pool([id] + q, None, [Pool.Away], [Pool.Resting], multiset(q) + multiset{id}, multiset{})
  }

  /** The request queue with one request that is being graded, and was. */
  function InWork(): Pool.Pool {
    Pool.Pool([], None, [Pool.Serving(5)], [Pool.Resting], multiset{5}, multiset{})
  }

  function Over(): Pool.Pool {
    Pool.Pool([], None, [Pool.Away], [Pool.Resting], multiset{5}, multiset{5})
  }

  /** The same, just started: no client has come yet. */
  predicate Fresh(s: Server, req: Pool.Pool, rows: Table) {
    At(s, Idle, Free, req, rows, {}) && s.cli == Pool.Start([], 1, 1)
  }

  lemma StartUp(s0: Server, rows: Table) returns (s: Server)
    requires Reachable(s0) && !s0.up && s0.status == Some(rows) && s0.fileOwner == None
    ensures Reachable(s) && Fresh(s, Pool.Start(Recovered(rows), 1, 1), rows) && s.issued == s0.issued
  {
    s := Take(s0, Restart(1));
    assert seq(1, _ => Idle) == [Idle] && seq(1, _ => Free) == [Free];
  }

  lemma Accept(s0: Server, req: Pool.Pool, rows: Table) returns (s: Server)
    requires Reachable(s0) && Fresh(s0, req, rows)
    ensures Reachable(s) && At(s, Idle, Free, req, rows, {}) && s.issued == s0.issued
    ensures s.cli.consumers == [Pool.Away] && s.cli.producers == [Pool.Locked(0)]
    ensures s.cli.queue == [] && s.cli.owner == Some(Pool.Producer(0))
  {
    Pool.StartEmpty(1, 1);
    assert s0.cli.consumers == [Pool.Away] && s0.cli.producers == [Pool.Resting];
    s := TakeCli(s0, Pool.Enter(0, 0));
    s := TakeCli(s, Pool.LockToEnqueue(0));
  }

  lemma HandOver(s0: Server, req: Pool.Pool, rows: Table) returns (s: Server)
    requires Reachable(s0) && Fresh(s0, req, rows)
    ensures Reachable(s) && At(s, Idle, Free, req, rows, {}) && s.issued == s0.issued
    ensures s.cli.consumers == [Pool.Away] && s.cli.queue == [0] && s.cli.owner == None
  {
    s := Accept(s0, req, rows);
    s := TakeCli(s, Pool.Enqueue(0));
    s := TakeCli(s, Pool.Signal(0, None));
    s := TakeCli(s, Pool.UnlockAfterSignal(0));
  }

  lemma Connect(s0: Server, req: Pool.Pool, rows: Table) returns (s: Server)
    requires Reachable(s0) && Fresh(s0, req, rows)
    ensures Reachable(s) && At(s, Idle, Greeting, req, rows, {}) && s.issued == s0.issued
  {
    s := HandOver(s0, req, rows);
    s := TakeCli(s, Pool.Lock(0));
    s := TakeCli(s, Pool.Dequeue(0));
    s := Serve(s, TakeConnection);
  }

  lemma Upload(s0: Server, q: seq<int>, rows: Table, id: int) returns (s: Server)
    requires Reachable(s0) && Fresh(s0, Pool.Start(q, 1, 1), rows)
    requires id !in s0.issued && 0 <= id <= 999_999_999
    ensures Reachable(s) && At(s, Idle, Submitting(id), Offered(q, id), rows, {}) && s.issued == s0.issued + {id}
  {
    s := Connect(s0, Pool.Start(q, 1, 1), rows);
    s := Serve(s, StartUpload(id));
    s := Serve(s, EndUpload(true));
    s := Serve(s, Confirm(true));
  }

  lemma Submit(s0: Server, q: seq<int>, rows: Table, id: int) returns (s: Server)
    requires Reachable(s0) && Fresh(s0, Pool.Start(q, 1, 1), rows)
    requires id !in s0.issued && 0 <= id <= 999_999_999
    ensures Reachable(s) && At(s, Idle, Replying(id), Waiting(q, id), rows, {}) && s.issued == s0.issued + {id}
  {
    s := Upload(s0, q, rows, id);
    s := TakeReq(s, Pool.LockToEnqueue(0));
    s := TakeReq(s, Pool.Enqueue(0));
    s := TakeReq(s, Pool.Signal(0, None));
    s := Serve(s, EndSubmit);
  }

  lemma First5() returns (s: Server)
    ensures Reachable(s) && At(s, Idle, Replying(5), Waiting([], 5), [], {}) && s.issued == {5}
  {
    assert Legal(Initial(), []) && After(Initial(), []) == Initial();
    s := StartUp(Initial(), []);
    s := Submit(s, [], [], 5);
  }

  lemma Assign() returns (s: Server, run: nat)
    ensures Reachable(s) && At(s, WantFile(5, run, Grading), Replying(5), InWork(), [], {}) && s.issued == {5}
  {
    s := First5();
    s := TakeReq(s, Pool.Lock(0));
    s := TakeReq(s, Pool.Dequeue(0));
    run := s.runs;
    s := Work(s, Begin);
    assert multiset([]) + multiset{5} == multiset{5};
  }

  /** An update of the still empty table: no row is found. */
  lemma UpdateNothing(s: Server, run: nat, st: Status) returns (s': Server)
    requires Reachable(s) && At(s, WantFile(5, run, st), Replying(5), InWork(), [], {}) && !st.Queued?
    ensures Reachable(s') && s'.issued == s.issued
    ensures At(s', if st.Grading? then Ready(5, run, Compile) else Done(5, run), Replying(5), InWork(), [],
               if st.Grading? then {} else {5})
  {
    s' := Work(s, LockForUpdate);
    s' := Work(s', Open);
    s' := Work(s', Remove);
    s' := Work(s', Rename);
    s' := Work(s', EndUpdate);
  }

  lemma FailCompilation() returns (s: Server, run: nat)
    ensures Reachable(s) && At(s, WantFile(5, run, CompileError), Replying(5), InWork(), [], {}) && s.issued == {5}
  {
    s, run := Assign();
    s := UpdateNothing(s, run, Grading);
    s := Work(s, Launch);
    s := Work(s, Exit(false));
  }

  lemma GradeUnseen() returns (s: Server)
    ensures Reachable(s) && At(s, Idle, Replying(5), Over(), [], {5}) && s.issued == {5}
  {
    var run: nat;
    s, run := FailCompilation();
    s := UpdateNothing(s, run, CompileError);
    s := Work(s, EndGrading);
  }

  /** The request was graded, and its client is told its number and can ask for its status: it
      will be told "0", in a server where no thread will ever look at the request again. */
  lemma LeftAtZero() returns (s: Server)
    ensures Reachable(s) && At(s, Idle, Closing, Over(), [Row(5, Queued)], {5}) && s.issued == {5}
    ensures StatusOf(s, 5) == Some(Queued) && !Responsible(s, 5)
  {
    s := GradeUnseen();
    s := Serve(s, Reply(true));
    s := Serve(s, LockForAppend);
    s := Serve(s, Append);
    s := Serve(s, EndAppend);
    assert View(s) == [Row(5, Queued)];
    EveryRowAccountedFor(s, 5);
  }

  /** A worker is between the remove and the rename when the server crashes, and no restart is
      possible. */
  lemma NoRestart() returns (s: Server)
    ensures Reachable(s) && !s.up && forall n :: !Enabled(s, Restart(n))
  {
    var run: nat;
    s, run := Assign();
    s := Work(s, LockForUpdate);
    s := Work(s, Open);
    s := Work(s, Remove);
    s := Take(s, Crash);
  }

  /** The client has been told its number when the server crashes, and the request is lost for
      good: whatever follows, it has no row and nobody is responsible for it. */
  lemma AcknowledgedAndLost() returns (s: Server)
    ensures Reachable(s) && Enabled(s, Crash) && s.handlers == [WantAppend(5)]
    ensures forall steps | Legal(Next(s, Crash), steps) ::
              StatusOf(After(Next(s, Crash), steps), 5).None? && !Responsible(After(Next(s, Crash), steps), 5)
  {
    s := First5();
    s := Serve(s, Reply(true));
    assert View(s) == [];
    forall steps | Legal(Next(s, Crash), steps)
      ensures StatusOf(After(Next(s, Crash), steps), 5).None? && !Responsible(After(Next(s, Crash), steps), 5)
    {
      CrashSurvivors(s, steps, 5);
    }
  }

  /** A client's message names an id whose printed form does not fit s1, and a handler is about to
      read the table for it. */
  lemma QueryOverruns(rest: string) returns (s: Server)
    ensures Requests.ParseRequest(Requests.StatusMessage(-1_000_000_000) + ['\0'] + rest)
         == Requests.StatusOf(-1_000_000_000)
    ensures Reachable(s) && s.handlers == [Reading(-1_000_000_000)]
    ensures StatusFile.Overruns(View(s), -1_000_000_000)
  {
    Requests.StatusRoundTrip(-1_000_000_000, rest);
    s := LeftAtZero();
    s := Take(s, Crash);
    var rows := [Row(5, Queued)];
    s := StartUp(s, rows);
    s := Connect(s, Pool.Start(Recovered(rows), 1, 1), rows);
    s := Serve(s, StartQuery(-1_000_000_000));
    s := Serve(s, LockForRead);
    StatusFile.OverrunsIff(View(s), -1_000_000_000);
  }

  /** Two requests have their rows after two uptimes. */
  lemma TwoRows() returns (s: Server)
    ensures Reachable(s) && !s.up && s.fileOwner == None && s.status == Some([Row(5, Queued), Row(6, Queued)])
  {
    s := LeftAtZero();
    s := Take(s, Crash);
    var rows := [Row(5, Queued)];
    assert rows[1..] == [];
    s := StartUp(s, rows);
    s := Submit(s, [5], rows, 6);
    s := Serve(s, Reply(true));
    s := Serve(s, LockForAppend);
    s := Serve(s, Append);
    s := Serve(s, EndAppend);
    s := Take(s, Crash);
    assert rows + [Row(6, Queued)] == [Row(5, Queued), Row(6, Queued)];
  }

  lemma UpdateBegins() returns (s: Server, run: nat)
    ensures Reachable(s) && s.up && s.handlers == [Greeting]
    ensures s.status == Some([Row(5, Queued), Row(6, Queued)]) && s.temp == Some([])
    ensures s.graders == [Updating(6, run, Grading, Copying(0))]
  {
    var rows := [Row(5, Queued), Row(6, Queued)];
    assert rows[1..] == [Row(6, Queued)] && rows[1..][1..] == [];
    assert Recovered(rows) == [6, 5];
    s := TwoRows();
    s := StartUp(s, rows);
    s := Connect(s, Pool.Start([6, 5], 1, 1), rows);
    s := TakeReq(s, Pool.Lock(0));
    s := TakeReq(s, Pool.Dequeue(0));
    run := s.runs;
    s := Work(s, Begin);
    s := Work(s, LockForUpdate);
    s := Work(s, Open);
  }

  lemma AboutToCopy() returns (s: Server)
    ensures Reachable(s) && s.up && s.handlers == [Greeting] && Enabled(s, Grade(0, CopyLine))
    ensures Next(s, Grade(0, CopyLine)).temp == Some([Row(5, Queued)])
  {
    var run: nat;
    s, run := UpdateBegins();
    assert [] + [Row(5, Queued)] == [Row(5, Queued)];
    assert Next(s, Grade(0, CopyLine)).temp == Some([] + [ReplaceRow(Row(5, Queued), 6, Grading)]);
  }

  /** The line that the worker of request 6 writes for the row of request 5. */
  function Copied(m: SharedTokens.Memory, turn: SharedUpdates.Turn): Option<string> {
    SharedUpdates.LineOf(m, Row(5, Queued), 6, Grading, turn).0
  }

  /** A worker is in its turn for another request's row while a handler is about to cut a client's
      message, which spoils the line whether it is a status query or a new request. */
  lemma CopyDisturbed(m: SharedTokens.Memory, id: int, rest: string) returns (s: Server)
    ensures Reachable(s) && s.handlers == [Greeting] && Enabled(s, Handle(0, StartQuery(id)))
    ensures Enabled(s, Grade(0, CopyLine)) && Next(s, Grade(0, CopyLine)).temp == Some([Row(5, Queued)])
    ensures Copied(m, SharedUpdates.Alone()) == Some(PrintRow(Row(5, Queued)))
    ensures Copied(m, SharedUpdates.Crossed(SharedTokens.Start(Requests.StatusMessage(id) + [NUL] + rest, ":")))
         != Some(PrintRow(Row(5, Queued)))
    ensures Copied(m, SharedUpdates.Crossed(SharedTokens.Start("new" + [NUL] + rest, ":")))
         != Some(PrintRow(Row(5, Queued)))
  {
    s := AboutToCopy();
    SharedUpdates.ClientsDisturb(m, Row(5, Queued), 6, Grading, id, rest);
  }

  lemma LedThere(s: Server, steps: seq<Step>, t: Server)
    requires Reachable(s) && ServerScripts.Leads(s, steps, t)
    ensures Reachable(t)
  {
    var before :| Legal(Initial(), before) && After(Initial(), before) == s;
    ServerScripts.LeadsBoth(Initial(), before, s, steps, t);
  }

  /** Every verdict is reached: whatever the results of the commands, the row of request 6 gets the
      verdict they call for, and the other row stays. */
  lemma EveryVerdict(results: seq<bool>) returns (s: Server)
    requires ServerScripts.AreResults(results)
    ensures Reachable(s) && s.status == Some([Row(5, Queued), Row(6, ServerScripts.VerdictOf(results))])
  {
    var rows := [Row(5, Queued), Row(6, Queued)];
    assert rows[1..] == [Row(6, Queued)] && rows[1..][1..] == [];
    assert Recovered(rows) == [6, 5];
    s := TwoRows();
    s := StartUp(s, rows);
    var t := ServerScripts.CanGrade(s, 0, rows, results);
    LedThere(s, ServerScripts.GradeSteps(0, |rows|, results), t);
    var st := ServerScripts.VerdictOf(results);
    assert Replace(rows, 6, st) == [Row(5, Queued), Row(6, st)];
    s := t;
  }
}
