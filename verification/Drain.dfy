/** What the grading workers do with the requests that a restart puts back, when no client
    arrives and nothing crashes: under every schedule they grade each request once, and they
    stop only when all are graded. */
module Drain {
  import opened Wrappers
  import opened StatusTable
  import Pool
  import opened GradingServer
  import opened ServerInvariants
  import opened ServerIds
  import opened ServerSafety
  import opened ServerTheorems
  import opened ServerLocks

  predicate IsWorkerStep(e: Step) {
    e.Grade? || (e.ReqStep? && (e.e.Lock? || e.e.Sleep? || e.e.WakeSpuriously? || e.e.Dequeue?))
  }

  predicate IsSpurious(e: Step) {
    e.ReqStep? && e.e.WakeSpuriously?
  }

  predicate OnlyWorkers(steps: seq<Step>) {
    forall k :: 0 <= k < |steps| ==> IsWorkerStep(steps[k])
  }

  /** The workers of a server whose handlers have nothing to do. */
  ghost predicate Alone(s: Server) {
    && s.up
    && (forall j :: 0 <= j < |s.handlers| ==> s.handlers[j].Free?)
    && (forall x :: x in s.pending ==> StatusOf(s, x).Some?)
    && s.missed == {}
  }

  lemma AloneRemove(s: Server, i: nat)
    requires PendingInv(s) && Alone(s) && GraderEnabled(s, i, Remove) && RemoveShows(s, i)
    ensures Alone(GraderNext(s, i, Remove))
  {
    assert GraderOk(s, s.graders[i]);
    assert HasRow(s.status.value, s.graders[i].id) <==> StatusOf(s, s.graders[i].id).Some?;
  }

  lemma AloneGrade(s: Server, i: nat, act: GraderAct)
    requires Inv(s) && Alone(s) && GraderEnabled(s, i, act)
    ensures Alone(GraderNext(s, i, act))
  {
    GraderLeaves(s, i, act);
    if act.Remove? {
      RemoveShown(s, i);
      AloneRemove(s, i);
    } else {
      TableGrade(s, i, act);
      assert SameStatuses(s, GraderNext(s, i, act));
    }
  }

  lemma AloneKept(s: Server, e: Step)
    requires Inv(s) && Alone(s) && Enabled(s, e) && IsWorkerStep(e)
    ensures Alone(Next(s, e))
    ensures |View(Next(s, e))| == |View(s)|
  {
    BaseKept(s, e);
    if e.Grade? {
      AloneGrade(s, e.i, e.act);
    } else {
      assert SameStatuses(s, Next(s, e));
    }
  }

  lemma WorkerStepKept(s: Server, e: Step)
    requires Inv(s) && Alone(s) && Enabled(s, e) && IsWorkerStep(e)
    ensures Inv(Next(s, e)) && Alone(Next(s, e)) && |View(Next(s, e))| == |View(s)|
  {
    StepKept(s, e);
    AloneKept(s, e);
  }

  lemma Tail(steps: seq<Step>)
    requires OnlyWorkers(steps) && steps != []
    ensures IsWorkerStep(steps[0]) && OnlyWorkers(steps[1..])
  {
    assert forall k :: 0 <= k < |steps[1..]| ==> steps[1..][k] == steps[k + 1];
  }

  // ------------------------------------------------------- exactly three key steps

  /** 1 if the step is one of those that count, for a request among `ids`: its dequeue, or one of
      the two updates of its status. */
  function KeyOf(s: Server, e: Step, ids: iset<int>): nat
    requires Enabled(s, e)
  {
    if e.ReqStep? && e.e.Dequeue? && s.req.queue[0] in ids then 1
    else if e.Grade? && e.act.Remove? && s.graders[e.i].id in ids then 1
    else 0
  }

  /** The key steps of a run for the requests among `ids`. */
  function KeySteps(s: Server, steps: seq<Step>, ids: iset<int>): nat
    requires Legal(s, steps)
    decreases |steps|
  {
    if steps == [] then 0 else KeyOf(s, steps[0], ids) + KeySteps(Next(s, steps[0]), steps[1..], ids)
  }

  predicate IsUnfinished(st: Option<Status>) {
    st.Some? && Unfinished(st.value)
  }

  /** How many of the queued requests are among `ids`. */
  function Among(queue: seq<int>, ids: iset<int>): nat {
    if queue == [] then 0 else (if queue[0] in ids then 1 else 0) + Among(queue[1..], ids)
  }

  lemma {:induction false} AmongAll(queue: seq<int>, ids: iset<int>)
    requires forall k :: 0 <= k < |queue| ==> queue[k] in ids
    ensures Among(queue, ids) == |queue|
  {
    if queue != [] {
      AmongAll(queue[1..], ids);
    }
  }

  lemma {:induction false} AmongOne(queue: seq<int>, x: int)
    ensures Among(queue, iset{x}) == multiset(queue)[x]
  {
    if queue != [] {
      Pool.PopCount(queue, x);
      AmongOne(queue[1..], x);
    }
  }

  /** How many key steps a worker still has to do on its request. */
  function KeysOf(c: Pool.ConsumerPc, pc: GraderPc, ids: iset<int>): nat {
    if c.Took? then (if c.item in ids then 2 else 0)
    else if pc.Idle? || pc.id !in ids then 0
    else match pc
         case Idle => 0
         case WantFile(id, run, st) => if Unfinished(st) then 2 else 1
         case Updating(id, run, st, phase) =>
           (if Unfinished(st) then 1 else 0) + (if phase.Removed? || phase.Finished? then 0 else 1)
         case Ready(id, run, stage) => 1
         case Executing(id, run, stage) => 1
         case Done(id, run) => 0
  }

  function KeysLeft(consumers: seq<Pool.ConsumerPc>, graders: seq<GraderPc>, ids: iset<int>): nat
    requires |consumers| == |graders|
  {
    if graders == [] then 0 else KeysOf(consumers[0], graders[0], ids) + KeysLeft(consumers[1..], graders[1..], ids)
  }

  lemma {:induction false} KeysUpdate(consumers: seq<Pool.ConsumerPc>, graders: seq<GraderPc>,
                                      i: nat, c: Pool.ConsumerPc, pc: GraderPc, ids: iset<int>)
    requires i < |consumers| == |graders|
    ensures KeysLeft(consumers[i := c], graders[i := pc], ids) + KeysOf(consumers[i], graders[i], ids)
         == KeysLeft(consumers, graders, ids) + KeysOf(c, pc, ids)
  {
    if i == 0 {
      assert consumers[0 := c][1..] == consumers[1..] && graders[0 := pc][1..] == graders[1..];
    } else {
      assert consumers[i := c][1..] == consumers[1..][i - 1 := c];
      assert graders[i := pc][1..] == graders[1..][i - 1 := pc];
      KeysUpdate(consumers[1..], graders[1..], i - 1, c, pc, ids);
    }
  }

  /** Three for every queued request, and what the workers have left, among `ids`. */
  function Work(s: Server, ids: iset<int>): nat
    requires |s.req.consumers| == |s.graders|
  {
    3 * Among(s.req.queue, ids) + KeysLeft(s.req.consumers, s.graders, ids)
  }

  /** The worker that takes the step, before and after. */
  lemma KeysGrade(s: Server, i: nat, act: GraderAct, ids: iset<int>)
    requires ShapeInv(s) && s.up && GraderEnabled(s, i, act) && GraderOk(s, s.graders[i])
    requires act.Open? ==> s.status.Some?
    ensures |GraderNext(s, i, act).graders| == |s.graders| && |GraderNext(s, i, act).req.consumers| == |s.graders|
    ensures KeysOf(s.req.consumers[i], s.graders[i], ids)
         == KeysOf(GraderNext(s, i, act).req.consumers[i], GraderNext(s, i, act).graders[i], ids)
            + if act.Remove? && s.graders[i].id in ids then 1 else 0
  {
    assert GraderAgrees(s.req.consumers[i], s.graders[i]);
  }

  /** Only that worker changes. */
  lemma OneWorker(s: Server, i: nat, act: GraderAct)
    requires ShapeInv(s) && GraderEnabled(s, i, act)
    ensures var s' := GraderNext(s, i, act);
            && |s'.graders| == |s.graders| == |s'.req.consumers|
            && s'.graders == s.graders[i := s'.graders[i]]
            && s'.req.consumers == s.req.consumers[i := s'.req.consumers[i]]
            && s'.req.queue == s.req.queue
  {
  }

  lemma WorkGrade(s: Server, i: nat, act: GraderAct, ids: iset<int>)
    requires ShapeInv(s) && TableInv(s) && PendingInv(s) && s.up && GraderEnabled(s, i, act)
    ensures |GraderNext(s, i, act).req.consumers| == |GraderNext(s, i, act).graders|
    ensures Work(s, ids) == Work(GraderNext(s, i, act), ids) + if act.Remove? && s.graders[i].id in ids then 1 else 0
  {
    var s' := GraderNext(s, i, act);
    if act.Open? {
      assert UpdateInv(s, s.graders[i]);
    }
    KeysGrade(s, i, act, ids);
    OneWorker(s, i, act);
    KeysUpdate(s.req.consumers, s.graders, i, s'.req.consumers[i], s'.graders[i], ids);
  }

  lemma WorkReq(s: Server, pe: Pool.Step, ids: iset<int>)
    requires ShapeInv(s) && Pool.Enabled(s.req, pe) && IsWorkerStep(ReqStep(pe))
    ensures |Pool.Next(s.req, pe).consumers| == |s.graders|
    ensures Work(s, ids)
         == Work(s.(req := Pool.Next(s.req, pe)), ids) + if pe.Dequeue? && s.req.queue[0] in ids then 1 else 0
  {
    var p' := Pool.Next(s.req, pe);
    assert GraderAgrees(s.req.consumers[pe.i], s.graders[pe.i]);
    KeysUpdate(s.req.consumers, s.graders, pe.i, p'.consumers[pe.i], s.graders[pe.i], ids);
    assert s.graders[pe.i := s.graders[pe.i]] == s.graders;
  }

  /** Every key step does one unit of the work, and no other step of a worker does any. */
  lemma WorkStep(s: Server, e: Step, ids: iset<int>)
    requires ShapeInv(s) && TableInv(s) && PendingInv(s) && Enabled(s, e) && IsWorkerStep(e)
    ensures |Next(s, e).req.consumers| == |Next(s, e).graders|
    ensures Work(s, ids) == Work(Next(s, e), ids) + KeyOf(s, e, ids)
  {
    if e.Grade? {
      WorkGrade(s, e.i, e.act, ids);
    } else {
      WorkReq(s, e.e, ids);
    }
  }

  /** Under every schedule of the workers the key steps taken and the work left add up, for any set of
      requests. */
  lemma {:induction false} WorkRun(s: Server, steps: seq<Step>, ids: iset<int>)
    requires Inv(s) && Alone(s) && Legal(s, steps) && OnlyWorkers(steps)
    ensures Inv(After(s, steps)) && Alone(After(s, steps))
    ensures Work(s, ids) == KeySteps(s, steps, ids) + Work(After(s, steps), ids)
    decreases |steps|
  {
    if steps != [] {
      Tail(steps);
      WorkerStepKept(s, steps[0]);
      WorkStep(s, steps[0], ids);
      WorkRun(Next(s, steps[0]), steps[1..], ids);
    }
  }

  /** The id that a step takes from the request queue. */
  function Taken(s: Server, e: Step): seq<int>
    requires Enabled(s, e)
  {
    if e.ReqStep? && e.e.Dequeue? then [s.req.queue[0]] else []
  }

  /** The ids that a run takes from the request queue, in order. */
  function Dequeued(s: Server, steps: seq<Step>): seq<int>
    requires Legal(s, steps)
    decreases |steps|
  {
    if steps == [] then [] else Taken(s, steps[0]) + Dequeued(Next(s, steps[0]), steps[1..])
  }

  lemma QueueGrade(s: Server, i: nat, act: GraderAct)
    requires GraderEnabled(s, i, act)
    ensures GraderNext(s, i, act).req.queue == s.req.queue
  {
  }

  lemma QueueStep(s: Server, e: Step)
    requires Enabled(s, e) && IsWorkerStep(e)
    ensures Taken(s, e) + Next(s, e).req.queue == s.req.queue
  {
    if e.Grade? {
      QueueGrade(s, e.i, e.act);
    }
  }

  /** Requests are taken in the order of the queue: after a restart, from the last unfinished row
      of the file to the first. */
  lemma {:induction false} TakenInOrder(s: Server, steps: seq<Step>)
    requires Legal(s, steps) && OnlyWorkers(steps)
    ensures Dequeued(s, steps) + After(s, steps).req.queue == s.req.queue
    decreases |steps|
  {
    if steps != [] {
      Tail(steps);
      QueueStep(s, steps[0]);
      TakenInOrder(Next(s, steps[0]), steps[1..]);
      Associative(Taken(s, steps[0]), Dequeued(Next(s, steps[0]), steps[1..]), After(s, steps).req.queue);
    }
  }

  // ------------------------------------------------------------------ termination

  function StagesAfter(stage: Stage): nat {
    match stage
    case Compile => 2
    case Run => 1
    case Check => 0
  }

  function AfterUpdate(st: Status, lines: nat): nat {
    if st.Grading? then lines + 14 else 3
  }

  /** A bound on the steps of one worker, for a table of `lines` rows: six for the three
      commands, `lines` + 5 for each update, and what the queue asks for. */
  function StepsOf(c: Pool.ConsumerPc, pc: GraderPc, lines: nat): nat {
    match c
    case Asleep => 0
    case Checking => 1
    case Away => 2
    case Woken => 2
    case Took(x) => 2 * lines + 20
    case Serving(x) =>
      match pc
      case Idle => 0
      case WantFile(id, run, st) => lines + 5 + AfterUpdate(st, lines)
      case Updating(id, run, st, phase) =>
        (match phase
         case Opening => lines + 4
         case Copying(k) => if k <= lines then lines - k + 3 else 3
         case Removed => 2
         case Finished => 1) + AfterUpdate(st, lines)
      case Ready(id, run, stage) => lines + 10 + 2 * StagesAfter(stage)
      case Executing(id, run, stage) => lines + 9 + 2 * StagesAfter(stage)
      case Done(id, run) => 3
  }

  function AllSteps(consumers: seq<Pool.ConsumerPc>, graders: seq<GraderPc>, lines: nat): nat
    requires |consumers| == |graders|
  {
    if graders == [] then 0
    else StepsOf(consumers[0], graders[0], lines) + AllSteps(consumers[1..], graders[1..], lines)
  }

  lemma {:induction false} StepsUpdate(consumers: seq<Pool.ConsumerPc>, graders: seq<GraderPc>,
                                       i: nat, c: Pool.ConsumerPc, pc: GraderPc, lines: nat)
    requires i < |consumers| == |graders|
    ensures AllSteps(consumers[i := c], graders[i := pc], lines) + StepsOf(consumers[i], graders[i], lines)
         == AllSteps(consumers, graders, lines) + StepsOf(c, pc, lines)
  {
    if i == 0 {
      assert consumers[0 := c][1..] == consumers[1..] && graders[0 := pc][1..] == graders[1..];
    } else {
      assert consumers[i := c][1..] == consumers[1..][i - 1 := c];
      assert graders[i := pc][1..] == graders[1..][i - 1 := pc];
      StepsUpdate(consumers[1..], graders[1..], i - 1, c, pc, lines);
    }
  }

  /** A bound on the steps of the workers, for a table of at most `lines` rows. */
  function Cost(s: Server, lines: nat): nat
    requires |s.req.consumers| == |s.graders|
  {
    |s.req.queue| * (2 * lines + 20) + AllSteps(s.req.consumers, s.graders, lines)
  }

  lemma StepsUpdating(s: Server, i: nat, act: GraderAct, lines: nat)
    requires ShapeInv(s) && TableInv(s) && s.up && GraderEnabled(s, i, act) && GraderOk(s, s.graders[i])
    requires s.graders[i].Updating? && |View(s)| <= lines
    ensures |GraderNext(s, i, act).graders| == |s.graders| && |GraderNext(s, i, act).req.consumers| == |s.graders|
    ensures StepsOf(GraderNext(s, i, act).req.consumers[i], GraderNext(s, i, act).graders[i], lines)
          < StepsOf(s.req.consumers[i], s.graders[i], lines)
  {
    assert GraderAgrees(s.req.consumers[i], s.graders[i]);
    assert UpdateInv(s, s.graders[i]);
  }

  lemma StepsGrade(s: Server, i: nat, act: GraderAct, lines: nat)
    requires ShapeInv(s) && TableInv(s) && s.up && GraderEnabled(s, i, act) && GraderOk(s, s.graders[i])
    requires |View(s)| <= lines
    ensures |GraderNext(s, i, act).graders| == |s.graders| && |GraderNext(s, i, act).req.consumers| == |s.graders|
    ensures StepsOf(GraderNext(s, i, act).req.consumers[i], GraderNext(s, i, act).graders[i], lines)
          < StepsOf(s.req.consumers[i], s.graders[i], lines)
  {
    assert GraderAgrees(s.req.consumers[i], s.graders[i]);
    if s.graders[i].Updating? {
      StepsUpdating(s, i, act, lines);
    }
  }

  lemma CostGrade(s: Server, i: nat, act: GraderAct, lines: nat)
    requires ShapeInv(s) && TableInv(s) && PendingInv(s) && s.up && GraderEnabled(s, i, act) && |View(s)| <= lines
    ensures |GraderNext(s, i, act).req.consumers| == |GraderNext(s, i, act).graders|
    ensures Cost(GraderNext(s, i, act), lines) < Cost(s, lines)
  {
    var s' := GraderNext(s, i, act);
    assert GraderOk(s, s.graders[i]);
    StepsGrade(s, i, act, lines);
    OneWorker(s, i, act);
    StepsUpdate(s.req.consumers, s.graders, i, s'.req.consumers[i], s'.graders[i], lines);
  }

  lemma OneLess(n: nat, m: nat)
    requires n > 0
    ensures n * m == (n - 1) * m + m
  {
  }

  lemma CostDequeue(s: Server, i: nat, lines: nat)
    requires ShapeInv(s) && Pool.Enabled(s.req, Pool.Dequeue(i))
    ensures |Pool.Next(s.req, Pool.Dequeue(i)).consumers| == |s.graders|
    ensures Cost(s.(req := Pool.Next(s.req, Pool.Dequeue(i))), lines) == Cost(s, lines) - 1
  {
    var took := Pool.Took(s.req.queue[0]);
    StepsUpdate(s.req.consumers, s.graders, i, took, s.graders[i], lines);
    assert s.graders[i := s.graders[i]] == s.graders;
    OneLess(|s.req.queue|, 2 * lines + 20);
  }

  lemma CostReq(s: Server, pe: Pool.Step, lines: nat)
    requires ShapeInv(s) && Pool.Enabled(s.req, pe) && IsWorkerStep(ReqStep(pe))
    ensures |Pool.Next(s.req, pe).consumers| == |s.graders|
    ensures Cost(s.(req := Pool.Next(s.req, pe)), lines)
         == if pe.WakeSpuriously? then Cost(s, lines) + 2 else Cost(s, lines) - 1
  {
    if pe.Dequeue? {
      CostDequeue(s, pe.i, lines);
    } else {
      var p', i := Pool.Next(s.req, pe), pe.i;
      assert GraderAgrees(s.req.consumers[i], s.graders[i]);
      StepsUpdate(s.req.consumers, s.graders, i, p'.consumers[i], s.graders[i], lines);
      assert s.graders[i := s.graders[i]] == s.graders;
    }
  }

  lemma CostStep(s: Server, e: Step, lines: nat)
    requires Inv(s) && Enabled(s, e) && IsWorkerStep(e) && |View(s)| <= lines
    ensures |Next(s, e).req.consumers| == |Next(s, e).graders|
    ensures if IsSpurious(e) then Cost(Next(s, e), lines) == Cost(s, lines) + 2
            else Cost(Next(s, e), lines) < Cost(s, lines)
  {
    if e.Grade? {
      CostGrade(s, e.i, e.act, lines);
    } else {
      CostReq(s, e.e, lines);
    }
  }

  function Spurious(steps: seq<Step>): nat {
    if steps == [] then 0 else (if IsSpurious(steps[0]) then 1 else 0) + Spurious(steps[1..])
  }

  /** Every schedule of the workers is finite but for spurious wakeups, each of which adds at
      most three steps. */
  lemma {:induction false} WorkersStop(s: Server, steps: seq<Step>, lines: nat)
    requires Inv(s) && Alone(s) && Legal(s, steps) && OnlyWorkers(steps) && |View(s)| <= lines
    ensures |steps| <= Cost(s, lines) + 3 * Spurious(steps)
    decreases |steps|
  {
    if steps != [] {
      Tail(steps);
      WorkerStepKept(s, steps[0]);
      CostStep(s, steps[0], lines);
      WorkersStop(Next(s, steps[0]), steps[1..], lines);
    }
  }

  // --------------------------------------------------------------- where they stop

  /** No worker has anything to do but wake up for nothing. */
  ghost predicate Stopped(s: Server) {
    forall e :: Enabled(s, e) && IsWorkerStep(e) ==> IsSpurious(e)
  }

  lemma FileOwnerWorks(s: Server) returns (e: Step)
    requires Inv(s) && Alone(s) && s.fileOwner.Some?
    ensures Enabled(s, e) && IsWorkerStep(e) && !IsSpurious(e)
  {
    e := FileOwnerGoesOn(s);
  }

  lemma NobodyUpdates(s: Server)
    requires Inv(s) && Alone(s) && Stopped(s)
    ensures s.fileOwner.None?
  {
    if s.fileOwner.Some? {
      var e := FileOwnerWorks(s);
      assert false;
    }
  }

  lemma WorkersIdle(s: Server, i: nat)
    requires ShapeInv(s) && FileLockInv(s) && s.up && Stopped(s) && s.fileOwner.None? && i < |s.graders|
    ensures s.graders[i].Idle?
  {
    assert GraderAgrees(s.req.consumers[i], s.graders[i]);
    assert !Enabled(s, Grade(i, LockForUpdate));
    assert !Enabled(s, Grade(i, Launch));
    assert !Enabled(s, Grade(i, Exit(true)));
    assert !Enabled(s, Grade(i, EndGrading));
  }

  lemma NobodyEnqueues(s: Server)
    requires ShapeInv(s) && Pool.LockInv(s.req) && Alone(s)
    ensures s.req.owner.Some? ==> s.req.owner.value.Consumer?
    ensures forall x, j :: 0 <= j < |s.req.producers| ==> Pool.ProducerHas(s.req.producers[j], x) == 0
  {
    forall j | 0 <= j < |s.req.producers|
      ensures s.req.producers[j].Resting?
    {
      assert SubmitAgrees(s.req.producers[j], s.handlers[j]);
    }
  }

  lemma QueueOwnerWorks(s: Server) returns (e: Step)
    requires Inv(s) && Alone(s) && s.req.owner.Some?
    ensures Enabled(s, e) && IsWorkerStep(e) && !IsSpurious(e)
  {
    NobodyEnqueues(s);
    var pe := Pool.OwnerGoesOn(s.req);
    OnReqEnabled(s, pe);
    e := OnReq(pe);
  }

  lemma NobodyLocksQueue(s: Server)
    requires Inv(s) && Alone(s) && Stopped(s)
    ensures s.req.owner.None?
  {
    if s.req.owner.Some? {
      var e := QueueOwnerWorks(s);
      assert false;
    }
  }

  lemma WorkersAsleep(s: Server, i: nat)
    requires ShapeInv(s) && Pool.LockInv(s.req) && s.up && Stopped(s) && s.req.owner.None?
    requires i < |s.graders| && s.graders[i].Idle?
    ensures s.req.consumers[i].Asleep?
  {
    assert GraderAgrees(s.req.consumers[i], s.graders[i]);
    assert !Enabled(s, ReqStep(Pool.Lock(i)));
  }

  lemma {:induction false} NothingLeft(consumers: seq<Pool.ConsumerPc>, graders: seq<GraderPc>, ids: iset<int>)
    requires |consumers| == |graders|
    requires forall i :: 0 <= i < |graders| ==> consumers[i].Asleep? && graders[i].Idle?
    ensures KeysLeft(consumers, graders, ids) == 0 && Pool.Heading(consumers) == 0
  {
    if graders != [] {
      NothingLeft(consumers[1..], graders[1..], ids);
    }
  }

  /** Workers that have stopped have emptied the queue and done all their work. */
  lemma StoppedMeansDone(s: Server, ids: iset<int>)
    requires Inv(s) && Alone(s) && Stopped(s) && |s.graders| > 0
    ensures s.req.queue == [] && Work(s, ids) == 0
    ensures forall i :: 0 <= i < |s.graders| ==> s.req.consumers[i].Asleep? && s.graders[i].Idle?
  {
    NobodyUpdates(s);
    NobodyLocksQueue(s);
    forall i | 0 <= i < |s.graders|
      ensures s.req.consumers[i].Asleep? && s.graders[i].Idle?
    {
      WorkersIdle(s, i);
      WorkersAsleep(s, i);
    }
    NothingLeft(s.req.consumers, s.graders, ids);
    assert s.req.consumers[0].Asleep?;
  }

  /** With nobody responsible for any request, every row has its verdict. */
  lemma AllGraded(s: Server, x: int)
    requires Inv(s) && Alone(s) && s.req.queue == []
    requires forall i :: 0 <= i < |s.graders| ==> s.req.consumers[i].Asleep? && s.graders[i].Idle?
    ensures StatusOf(s, x).Some? ==> IsGraded(StatusOf(s, x))
  {
    PendingIff(s, x);
    NobodyEnqueues(s);
  }

  lemma {:induction false} FreshWorkers(n: nat, lines: nat, ids: iset<int>)
    ensures KeysLeft(seq(n, _ => Pool.Away), seq(n, _ => Idle), ids) == 0
    ensures AllSteps(seq(n, _ => Pool.Away), seq(n, _ => Idle), lines) == 2 * n
  {
    if n > 0 {
      assert seq(n, _ => Pool.Away)[1..] == seq(n - 1, _ => Pool.Away);
      assert seq(n, _ => Idle)[1..] == seq(n - 1, _ => Idle);
      FreshWorkers(n - 1, lines, ids);
    }
  }

  lemma BootCosts(s: Server, queue: seq<int>, n: nat, ids: iset<int>)
    requires s.status.Some?
    ensures var s' := Boot(s, queue, n);
            && |s'.req.consumers| == |s'.graders| == n
            && Work(s', ids) == 3 * Among(queue, ids)
            && Cost(s', |View(s)|) == |queue| * (2 * |View(s)| + 20) + 2 * n
  {
    var s' := Boot(s, queue, n);
    FreshWorkers(n, |View(s)|, ids);
    assert s'.req.consumers == seq(n, _ => Pool.Away) && s'.graders == seq(n, _ => Idle);
  }

  lemma AloneAtStart(s: Server, s': Server)
    requires RestartShows(s, s') && s'.up && s'.missed == {}
    requires forall j :: 0 <= j < |s'.handlers| ==> s'.handlers[j].Free?
    ensures Alone(s')
  {
  }

  lemma AloneRestart(s: Server, n: nat)
    requires TableInv(s) && !s.up && s.status.Some?
    ensures Alone(Next(s, Restart(n)))
  {
    RestartShown(s, n);
    AloneAtStart(s, Next(s, Restart(n)));
  }

  lemma AfterRestart(s: Server, n: nat)
    requires Inv(s) && Enabled(s, Restart(n))
    ensures Inv(Next(s, Restart(n))) && Alone(Next(s, Restart(n)))
  {
    StepKept(s, Restart(n));
    AloneRestart(s, n);
  }

  lemma {:induction false} WorkerCount(s: Server, steps: seq<Step>)
    requires Legal(s, steps) && OnlyWorkers(steps)
    ensures |After(s, steps).graders| == |s.graders|
    decreases |steps|
  {
    if steps != [] {
      Tail(steps);
      WorkerCount(Next(s, steps[0]), steps[1..]);
    }
  }

  /** After a restart with `n` workers, and until a client or a crash comes: whatever the
      schedule, it is no longer than a bound on the table and the unfinished requests, spurious
      wakeups aside; and when the workers stop, they have taken exactly three key steps for the
      unfinished requests of any set `ids`, the queue is empty, and every row has its verdict. */
  lemma RestartDrains(s: Server, n: nat, steps: seq<Step>, ids: iset<int>)
    requires Reachable(s) && n > 0 && Enabled(s, Restart(n))
    requires Legal(Next(s, Restart(n)), steps) && OnlyWorkers(steps)
    ensures |steps| <= |Recovered(View(s))| * (2 * |View(s)| + 20) + 2 * n + 3 * Spurious(steps)
    ensures KeySteps(Next(s, Restart(n)), steps, ids) <= 3 * Among(Recovered(View(s)), ids)
    ensures Dequeued(Next(s, Restart(n)), steps) + After(Next(s, Restart(n)), steps).req.queue == Recovered(View(s))
    ensures var end := After(Next(s, Restart(n)), steps);
            Stopped(end) ==>
              && KeySteps(Next(s, Restart(n)), steps, ids) == 3 * Among(Recovered(View(s)), ids)
              && end.req.queue == []
              && forall x :: StatusOf(end, x).Some? ==> IsGraded(StatusOf(end, x))
  {
    ReachableInv(s);
    AfterRestart(s, n);
    BootCosts(s, Recovered(View(s)), n, ids);
    var s' := Next(s, Restart(n));
    WorkersStop(s', steps, |View(s)|);
    WorkRun(s', steps, ids);
    WorkerCount(s', steps);
    TakenInOrder(s', steps);
    var end := After(s', steps);
    if Stopped(end) {
      StoppedMeansDone(end, ids);
      forall x
        ensures StatusOf(end, x).Some? ==> IsGraded(StatusOf(end, x))
      {
        AllGraded(end, x);
      }
    }
  }

  lemma AmongRecovered(s: Server, x: int)
    requires Reachable(s)
    ensures Among(Recovered(View(s)), iset{x}) == if IsUnfinished(StatusOf(s, x)) then 1 else 0
  {
    ReachableInv(s);
    AmongOne(Recovered(View(s)), x);
    RecoveredMeaning(View(s), x);
  }

  /** So each unfinished request has its three key steps, and no other request has any. */
  lemma ThreeKeySteps(s: Server, n: nat, steps: seq<Step>, x: int)
    requires Reachable(s) && n > 0 && Enabled(s, Restart(n))
    requires Legal(Next(s, Restart(n)), steps) && OnlyWorkers(steps) && Stopped(After(Next(s, Restart(n)), steps))
    ensures KeySteps(Next(s, Restart(n)), steps, iset{x}) == if IsUnfinished(StatusOf(s, x)) then 3 else 0
  {
    RestartDrains(s, n, steps, iset{x});
    AmongRecovered(s, x);
  }

  /** That makes three for each unfinished row, for any set that has them all. */
  lemma AllKeySteps(s: Server, n: nat, steps: seq<Step>, ids: iset<int>)
    requires Reachable(s) && n > 0 && Enabled(s, Restart(n))
    requires forall k :: 0 <= k < |Recovered(View(s))| ==> Recovered(View(s))[k] in ids
    requires Legal(Next(s, Restart(n)), steps) && OnlyWorkers(steps) && Stopped(After(Next(s, Restart(n)), steps))
    ensures KeySteps(Next(s, Restart(n)), steps, ids) == 3 * |Recovered(View(s))|
  {
    RestartDrains(s, n, steps, ids);
    AmongAll(Recovered(View(s)), ids);
  }
}
