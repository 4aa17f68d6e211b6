/** How long the grading server can go on: a bound on every run without a crash, in terms of the
    clients that come and the spurious wakeups. With what holds at rest, it says that a server that
    is left alone serves every connection and grades every request. */
module ServerBound {
  import opened StatusTable
  import Pool
  import opened GradingServer
  import opened ServerInvariants
  import opened ServerIds
  import opened ServerSafety
  import opened ServerTheorems
  import opened ServerLocks
  import opened Drain

  /** What is counted: the steps still to come, when the table has at most `lines` rows; or the rows
      that may still be appended. */
  datatype Measure = Steps(lines: nat) | Appends

  /** The steps that a queued request stands for. */
  function RequestSteps(lines: nat): nat {
    2 * lines + 20
  }

  /** A signal may wake a worker, which then has two steps more. */
  function SubmitSteps(request: nat, rp: Pool.ProducerPc): nat {
    match rp
    case Resting => 0
    case Ready(x) => request + 13
    case Locked(x) => request + 12
    case Queued(x) => 11
    case Signalled(x) => 8
  }

  function HandlerSteps(request: nat, c: Pool.ConsumerPc, pc: HandlerPc, rp: Pool.ProducerPc): nat {
    match c
    case Asleep => 0
    case Checking => 1
    case Away => 2
    case Woken => 2
    case Took(x) => request + 17
    case Serving(x) =>
      match pc
      case Free => 0
      case Greeting => request + 16
      case Receiving(id) => request + 15
      case Confirming(id) => request + 14
      case Submitting(id) => SubmitSteps(request, rp)
      case Replying(id) => 7
      case WantAppend(id) => 6
      case Appending(id) => 5
      case Appended(id) => 4
      case WantRead(id) => 7
      case Reading(id) => 6
      case HaveRead(id, st) => 5
      case Answering(id, st) => 4
      case Closing => 3
  }

  predicate MayAppend(pc: HandlerPc) {
    pc.Greeting? || IsNew(pc)
  }

  /** What one handler has to come, with its places in the two pools. */
  function HandlerWeight(w: Measure, c: Pool.ConsumerPc, pc: HandlerPc, rp: Pool.ProducerPc): nat {
    match w
    case Steps(lines) => HandlerSteps(RequestSteps(lines), c, pc, rp)
    case Appends => if c.Took? || (c.Serving? && MayAppend(pc)) then 1 else 0
  }

  /** What a queued connection stands for. */
  function ConnectionWeight(w: Measure): nat {
    match w
    case Steps(lines) => RequestSteps(lines) + 17
    case Appends => 1
  }

  /** What the accept loop has to come. */
  function AcceptWeight(w: Measure, pc: Pool.ProducerPc): nat {
    match pc
    case Resting => 0
    case Ready(x) => ConnectionWeight(w) + (if w.Steps? then 6 else 0)
    case Locked(x) => ConnectionWeight(w) + (if w.Steps? then 5 else 0)
    case Queued(x) => if w.Steps? then 4 else 0
    case Signalled(x) => if w.Steps? then 1 else 0
  }

  function HandlersWeight(w: Measure, cs: seq<Pool.ConsumerPc>, pcs: seq<HandlerPc>, rps: seq<Pool.ProducerPc>): nat
    requires |cs| == |pcs| == |rps|
  {
    if pcs == [] then 0
    else HandlerWeight(w, cs[0], pcs[0], rps[0]) + HandlersWeight(w, cs[1..], pcs[1..], rps[1..])
  }

  lemma {:induction false} HandlersUpdate(w: Measure, cs: seq<Pool.ConsumerPc>, pcs: seq<HandlerPc>,
                                          rps: seq<Pool.ProducerPc>, j: nat,
                                          c: Pool.ConsumerPc, pc: HandlerPc, rp: Pool.ProducerPc)
    requires j < |cs| == |pcs| == |rps|
    ensures HandlersWeight(w, cs[j := c], pcs[j := pc], rps[j := rp]) + HandlerWeight(w, cs[j], pcs[j], rps[j])
         == HandlersWeight(w, cs, pcs, rps) + HandlerWeight(w, c, pc, rp)
  {
    if j == 0 {
      assert cs[0 := c][1..] == cs[1..] && pcs[0 := pc][1..] == pcs[1..] && rps[0 := rp][1..] == rps[1..];
    } else {
      assert cs[j := c][1..] == cs[1..][j - 1 := c];
      assert pcs[j := pc][1..] == pcs[1..][j - 1 := pc];
      assert rps[j := rp][1..] == rps[1..][j - 1 := rp];
      HandlersUpdate(w, cs[1..], pcs[1..], rps[1..], j - 1, c, pc, rp);
    }
  }

  /** The lengths agree, as in every reachable state of a running server. */
  predicate Sized(s: Server) {
    && |s.req.consumers| == |s.graders|
    && |s.req.producers| == |s.handlers| == |s.cli.consumers|
    && |s.cli.producers| == 1
  }

  /** The handlers, the queue of connections and the accept loop. */
  function ClientWeight(w: Measure, s: Server): nat
    requires Sized(s)
  {
    HandlersWeight(w, s.cli.consumers, s.handlers, s.req.producers)
    + |s.cli.queue| * ConnectionWeight(w)
    + AcceptWeight(w, s.cli.producers[0])
  }

  /** All steps still to come, but for new clients and spurious wakeups. */
  function StepsLeft(s: Server, lines: nat): nat
    requires Sized(s)
  {
    Cost(s, lines) + ClientWeight(Steps(lines), s)
  }

  /** The most rows that the table can get from the connections there are. */
  function RowsLeft(s: Server): nat
    requires Sized(s)
  {
    |View(s)| + ClientWeight(Appends, s)
  }

  // ----------------------------------------------------------- actions of handlers

  /** Only handler `j` and its places change. */
  predicate OnlyHandler(s: Server, s': Server, j: nat)
    requires Sized(s) && Sized(s') && j < |s.handlers| == |s'.handlers|
  {
    && s'.cli.consumers == s.cli.consumers[j := s'.cli.consumers[j]]
    && s'.handlers == s.handlers[j := s'.handlers[j]]
    && s'.req.producers == s.req.producers[j := s'.req.producers[j]]
  }

  function WeightOf(w: Measure, s: Server, j: nat): nat
    requires Sized(s) && j < |s.handlers|
  {
    HandlerWeight(w, s.cli.consumers[j], s.handlers[j], s.req.producers[j])
  }

  lemma OneHandler(w: Measure, s: Server, s': Server, j: nat)
    requires Sized(s) && Sized(s') && j < |s.handlers| == |s'.handlers| && OnlyHandler(s, s', j)
    requires |s'.cli.queue| == |s.cli.queue| && s'.cli.producers == s.cli.producers
    ensures ClientWeight(w, s') + WeightOf(w, s, j) == ClientWeight(w, s) + WeightOf(w, s', j)
  {
    HandlersUpdate(w, s.cli.consumers, s.handlers, s.req.producers, j,
                   s'.cli.consumers[j], s'.handlers[j], s'.req.producers[j]);
  }

  lemma HandleLeavesQueues(s: Server, j: nat, task: HandlerAct)
    requires ShapeInv(s) && s.up && HandlerEnabled(s, j, task)
    ensures var s' := HandlerNext(s, j, task);
            && |s'.handlers| == |s.handlers| && |s'.req.producers| == |s.handlers|
            && |s'.cli.consumers| == |s.handlers| && s'.graders == s.graders
            && s'.cli.queue == s.cli.queue && s'.cli.producers == s.cli.producers
            && s'.req.queue == s.req.queue && s'.req.consumers == s.req.consumers
  {
  }

  lemma HandleLeavesOthers(s: Server, j: nat, task: HandlerAct)
    requires ShapeInv(s) && s.up && HandlerEnabled(s, j, task) && Sized(s) && Sized(HandlerNext(s, j, task))
    requires |HandlerNext(s, j, task).handlers| == |s.handlers|
    ensures OnlyHandler(s, HandlerNext(s, j, task), j)
  {
  }

  lemma HandleLeaves(s: Server, j: nat, task: HandlerAct)
    requires ShapeInv(s) && s.up && HandlerEnabled(s, j, task)
    ensures var s' := HandlerNext(s, j, task);
            && Sized(s) && Sized(s') && |s'.handlers| == |s.handlers| && OnlyHandler(s, s', j)
            && s'.cli.queue == s.cli.queue && s'.cli.producers == s.cli.producers
            && s'.req.queue == s.req.queue && s'.req.consumers == s.req.consumers && s'.graders == s.graders
  {
    HandleLeavesQueues(s, j, task);
    HandleLeavesOthers(s, j, task);
  }

  lemma HandleSteps(s: Server, j: nat, task: HandlerAct, lines: nat)
    requires ShapeInv(s) && s.up && HandlerEnabled(s, j, task)
    requires Sized(s) && Sized(HandlerNext(s, j, task)) && |HandlerNext(s, j, task).handlers| == |s.handlers|
    ensures WeightOf(Steps(lines), HandlerNext(s, j, task), j) < WeightOf(Steps(lines), s, j)
  {
    assert HandlerAgrees(s.cli.consumers[j], s.handlers[j]);
    assert SubmitAgrees(s.req.producers[j], s.handlers[j]);
  }

  lemma HandleAppends(s: Server, j: nat, task: HandlerAct)
    requires ShapeInv(s) && s.up && HandlerEnabled(s, j, task)
    requires Sized(s) && Sized(HandlerNext(s, j, task)) && |HandlerNext(s, j, task).handlers| == |s.handlers|
    ensures WeightOf(Appends, HandlerNext(s, j, task), j) + (if task.Append? then 1 else 0) <= WeightOf(Appends, s, j)
  {
    assert HandlerAgrees(s.cli.consumers[j], s.handlers[j]);
  }

  lemma BoundHandle(s: Server, j: nat, task: HandlerAct, lines: nat)
    requires ShapeInv(s) && FileLockInv(s) && TableInv(s) && s.up && HandlerEnabled(s, j, task)
    requires task.Append? ==> StatusOf(s, s.handlers[j].id).None?
    ensures Sized(s) && Sized(HandlerNext(s, j, task))
    ensures StepsLeft(HandlerNext(s, j, task), lines) < StepsLeft(s, lines)
    ensures RowsLeft(HandlerNext(s, j, task)) <= RowsLeft(s)
  {
    var s' := HandlerNext(s, j, task);
    HandleLeaves(s, j, task);
    HandleSteps(s, j, task, lines);
    HandleAppends(s, j, task);
    OneHandler(Steps(lines), s, s', j);
    OneHandler(Appends, s, s', j);
    TableHandle(s, j, task);
  }

  // ----------------------------------------------------------- steps on the queues

  /** A connection is taken from its queue, or a thread waits for one. */
  lemma BoundClient(s: Server, pe: Pool.Step, lines: nat)
    requires ShapeInv(s) && s.up && Pool.Enabled(s.cli, pe)
    requires pe.Lock? || pe.Sleep? || pe.WakeSpuriously? || pe.Dequeue?
    ensures Sized(s) && Sized(s.(cli := Pool.Next(s.cli, pe)))
    ensures ClientWeight(Steps(lines), s.(cli := Pool.Next(s.cli, pe)))
         == if pe.WakeSpuriously? then ClientWeight(Steps(lines), s) + 2 else ClientWeight(Steps(lines), s) - 1
    ensures ClientWeight(Appends, s.(cli := Pool.Next(s.cli, pe))) == ClientWeight(Appends, s)
  {
    var s', j := s.(cli := Pool.Next(s.cli, pe)), pe.i;
    assert HandlerAgrees(s.cli.consumers[j], s.handlers[j]);
    assert s.handlers[j := s.handlers[j]] == s.handlers;
    assert s.req.producers[j := s.req.producers[j]] == s.req.producers;
    HandlersUpdate(Steps(lines), s.cli.consumers, s.handlers, s.req.producers, j,
                   s'.cli.consumers[j], s.handlers[j], s.req.producers[j]);
    HandlersUpdate(Appends, s.cli.consumers, s.handlers, s.req.producers, j,
                   s'.cli.consumers[j], s.handlers[j], s.req.producers[j]);
    if pe.Dequeue? {
      OneLess(|s.cli.queue|, ConnectionWeight(Steps(lines)));
      OneLess(|s.cli.queue|, ConnectionWeight(Appends));
    }
  }

  lemma OneMore(n: nat, m: nat)
    ensures (n + 1) * m == n * m + m
  {
  }

  /** The accept loop's signal wakes a handler, or nobody. */
  lemma BoundSignal(w: Measure, s: Server, pe: Pool.Step)
    requires ShapeInv(s) && s.up && Pool.Enabled(s.cli, pe) && pe.Signal?
    ensures Sized(s) && Sized(s.(cli := Pool.Next(s.cli, pe)))
    ensures var after, before := ClientWeight(w, s.(cli := Pool.Next(s.cli, pe))), ClientWeight(w, s);
            if w.Steps? then after < before else after == before
  {
    if pe.woken.Some? {
      var i := pe.woken.value;
      assert HandlerAgrees(s.cli.consumers[i], s.handlers[i]);
      assert s.handlers[i := s.handlers[i]] == s.handlers;
      assert s.req.producers[i := s.req.producers[i]] == s.req.producers;
      HandlersUpdate(w, s.cli.consumers, s.handlers, s.req.producers, i,
                     Pool.Woken, s.handlers[i], s.req.producers[i]);
    }
  }

  /** The accept loop goes on; a client that comes is the only increase. */
  lemma BoundAccept(w: Measure, s: Server, pe: Pool.Step)
    requires ShapeInv(s) && s.up && Pool.Enabled(s.cli, pe)
    requires pe.LockToEnqueue? || pe.Enqueue? || pe.Signal? || pe.UnlockAfterSignal? || pe.Enter?
    ensures Sized(s) && Sized(s.(cli := Pool.Next(s.cli, pe)))
    ensures var after, before := ClientWeight(w, s.(cli := Pool.Next(s.cli, pe))), ClientWeight(w, s);
            if pe.Enter? then after == before + ConnectionWeight(w) + (if w.Steps? then 6 else 0)
            else if w.Steps? then after < before
            else after == before
  {
    if pe.Signal? {
      BoundSignal(w, s, pe);
    } else {
      OneMore(|s.cli.queue|, ConnectionWeight(w));
    }
  }

  /** A handler hands a request over. */
  lemma BoundSubmit(s: Server, pe: Pool.Step, lines: nat)
    requires ShapeInv(s) && s.up && Pool.Enabled(s.req, pe) && (pe.LockToEnqueue? || pe.Enqueue? || pe.Signal?)
    ensures Sized(s) && Sized(s.(req := Pool.Next(s.req, pe)))
    ensures StepsLeft(s.(req := Pool.Next(s.req, pe)), lines) < StepsLeft(s, lines)
    ensures ClientWeight(Appends, s.(req := Pool.Next(s.req, pe))) == ClientWeight(Appends, s)
  {
    var s', j := s.(req := Pool.Next(s.req, pe)), pe.j;
    assert HandlerAgrees(s.cli.consumers[j], s.handlers[j]);
    assert SubmitAgrees(s.req.producers[j], s.handlers[j]);
    assert s.handlers[j := s.handlers[j]] == s.handlers;
    assert s.cli.consumers[j := s.cli.consumers[j]] == s.cli.consumers;
    OneHandler(Steps(lines), s, s', j);
    OneHandler(Appends, s, s', j);
    OneMore(|s.req.queue|, RequestSteps(lines));
    if pe.Signal? && pe.woken.Some? {
      var i := pe.woken.value;
      StepsUpdate(s.req.consumers, s.graders, i, Pool.Woken, s.graders[i], lines);
      assert s.graders[i := s.graders[i]] == s.graders;
    }
  }

  /** A grading worker takes a step on the request queue. */
  lemma BoundWorker(s: Server, pe: Pool.Step, lines: nat)
    requires ShapeInv(s) && s.up && Pool.Enabled(s.req, pe) && IsWorkerStep(ReqStep(pe))
    ensures Sized(s) && Sized(s.(req := Pool.Next(s.req, pe)))
    ensures StepsLeft(s.(req := Pool.Next(s.req, pe)), lines)
         == if pe.WakeSpuriously? then StepsLeft(s, lines) + 2 else StepsLeft(s, lines) - 1
    ensures ClientWeight(Appends, s.(req := Pool.Next(s.req, pe))) == ClientWeight(Appends, s)
  {
    CostReq(s, pe, lines);
  }

  lemma GradeLeaves(s: Server, i: nat, act: GraderAct)
    requires ShapeInv(s) && s.up && GraderEnabled(s, i, act)
    ensures Sized(s) && Sized(GraderNext(s, i, act))
    ensures GraderNext(s, i, act).req.producers == s.req.producers
  {
  }

  lemma BoundGrade(s: Server, i: nat, act: GraderAct, lines: nat)
    requires ShapeInv(s) && FileLockInv(s) && TableInv(s) && PendingInv(s) && s.up && GraderEnabled(s, i, act)
    requires |View(s)| <= lines
    ensures Sized(s) && Sized(GraderNext(s, i, act))
    ensures StepsLeft(GraderNext(s, i, act), lines) < StepsLeft(s, lines)
    ensures RowsLeft(GraderNext(s, i, act)) == RowsLeft(s)
  {
    GradeLeaves(s, i, act);
    GraderLeaves(s, i, act);
    CostGrade(s, i, act, lines);
    TableGrade(s, i, act);
  }

  // ------------------------------------------------------------------------ the run

  predicate IsArrival(e: Step) {
    e.CliStep? && e.e.Enter?
  }

  predicate IsWakeup(e: Step) {
    (e.CliStep? || e.ReqStep?) && e.e.WakeSpuriously?
  }

  function Arrivals(steps: seq<Step>): nat {
    if steps == [] then 0 else (if IsArrival(steps[0]) then 1 else 0) + Arrivals(steps[1..])
  }

  function Wakeups(steps: seq<Step>): nat {
    if steps == [] then 0 else (if IsWakeup(steps[0]) then 1 else 0) + Wakeups(steps[1..])
  }

  lemma BoundReq(s: Server, pe: Pool.Step, lines: nat)
    requires ShapeInv(s) && Enabled(s, ReqStep(pe))
    ensures Sized(s) && Sized(Next(s, ReqStep(pe)))
    ensures if pe.WakeSpuriously? then StepsLeft(Next(s, ReqStep(pe)), lines) == StepsLeft(s, lines) + 2
            else StepsLeft(Next(s, ReqStep(pe)), lines) < StepsLeft(s, lines)
    ensures RowsLeft(Next(s, ReqStep(pe))) == RowsLeft(s)
  {
    if IsWorkerStep(ReqStep(pe)) {
      BoundWorker(s, pe, lines);
    } else {
      BoundSubmit(s, pe, lines);
    }
  }

  lemma BoundCli(s: Server, pe: Pool.Step, lines: nat)
    requires ShapeInv(s) && Enabled(s, CliStep(pe))
    ensures Sized(s) && Sized(Next(s, CliStep(pe)))
    ensures var s' := Next(s, CliStep(pe));
            if pe.WakeSpuriously? then StepsLeft(s', lines) == StepsLeft(s, lines) + 2
            else if pe.Enter? then StepsLeft(s', lines) == StepsLeft(s, lines) + 2 * lines + 43
            else StepsLeft(s', lines) < StepsLeft(s, lines)
    ensures RowsLeft(Next(s, CliStep(pe))) == RowsLeft(s) + if pe.Enter? then 1 else 0
  {
    if pe.Lock? || pe.Sleep? || pe.WakeSpuriously? || pe.Dequeue? {
      BoundClient(s, pe, lines);
    } else {
      BoundAccept(Steps(lines), s, pe);
      BoundAccept(Appends, s, pe);
    }
  }

  /** Every step takes something off, but for new clients and spurious wakeups. */
  lemma BoundStep(s: Server, e: Step, lines: nat)
    requires Inv(s) && s.up && Enabled(s, e) && !e.Crash? && |View(s)| <= lines
    ensures Sized(s) && Sized(Next(s, e))
    ensures if IsWakeup(e) then StepsLeft(Next(s, e), lines) == StepsLeft(s, lines) + 2
            else if IsArrival(e) then StepsLeft(Next(s, e), lines) == StepsLeft(s, lines) + 2 * lines + 43
            else StepsLeft(Next(s, e), lines) < StepsLeft(s, lines)
    ensures RowsLeft(Next(s, e)) <= RowsLeft(s) + if IsArrival(e) then 1 else 0
  {
    match e {
      case ReqStep(pe) => BoundReq(s, pe, lines);
      case CliStep(pe) => BoundCli(s, pe, lines);
      case Grade(i, act) => BoundGrade(s, i, act, lines);
      case Handle(j, task) =>
        AppendIsNew(s, e);
        BoundHandle(s, j, task, lines);
      case _ =>
    }
  }

  /** What is known of a running server. */
  ghost predicate Running(s: Server) {
    Inv(s) && s.up && Sized(s)
  }

  lemma RunningStep(s: Server, e: Step, lines: nat)
    requires Running(s) && Enabled(s, e) && !e.Crash? && |View(s)| <= lines
    ensures Running(Next(s, e))
    ensures StepsLeft(Next(s, e), lines) + 1
         <= StepsLeft(s, lines) + (if IsWakeup(e) then 3 else 0) + (if IsArrival(e) then 2 * lines + 44 else 0)
    ensures RowsLeft(Next(s, e)) <= RowsLeft(s) + if IsArrival(e) then 1 else 0
  {
    BoundStep(s, e, lines);
    StillUp(s, e);
  }

  lemma ViewFits(s: Server)
    requires Sized(s)
    ensures |View(s)| <= RowsLeft(s)
  {
  }

  /** The bound on a run: the steps that are left at its start, and what wakeups and clients bring. */
  function Bound(left: nat, lines: nat, steps: seq<Step>): nat {
    left + 3 * Wakeups(steps) + (2 * lines + 44) * Arrivals(steps)
  }

  lemma BoundTail(left: nat, left': nat, lines: nat, steps: seq<Step>)
    requires steps != []
    requires left' + 1
          <= left + (if IsWakeup(steps[0]) then 3 else 0) + (if IsArrival(steps[0]) then 2 * lines + 44 else 0)
    ensures Bound(left', lines, steps[1..]) + 1 <= Bound(left, lines, steps)
  {
    OneMore(Arrivals(steps[1..]), 2 * lines + 44);
  }

  lemma {:induction false} RunBound(s: Server, steps: seq<Step>, lines: nat)
    requires Running(s) && Legal(s, steps) && NoCrash(steps)
    requires RowsLeft(s) + Arrivals(steps) <= lines
    ensures |steps| <= Bound(StepsLeft(s, lines), lines, steps)
    decreases |steps|
  {
    if steps != [] {
      NoCrashTail(steps);
      ViewFits(s);
      RunningStep(s, steps[0], lines);
      RunBound(Next(s, steps[0]), steps[1..], lines);
      BoundTail(StepsLeft(s, lines), StepsLeft(Next(s, steps[0]), lines), lines, steps);
    }
  }

  lemma ReachableIsRunning(s: Server)
    requires Reachable(s) && s.up
    ensures Running(s)
  {
    ReachableInv(s);
  }

  /** Every run without a crash is finite, but for new clients and spurious wakeups: each client brings a
      number of steps that depends on the size of the table, and each wakeup three. The table never
      has more than `lines` rows. */
  lemma EveryRunIsBounded(s: Server, steps: seq<Step>, lines: nat)
    requires Reachable(s) && s.up && Sized(s) && Legal(s, steps) && NoCrash(steps)
    requires lines == RowsLeft(s) + Arrivals(steps)
    ensures |steps| <= Bound(StepsLeft(s, lines), lines, steps)
  {
    ReachableIsRunning(s);
    RunBound(s, steps, lines);
  }

  lemma {:induction false} FreshHandlers(n: nat, w: Measure)
    ensures HandlersWeight(w, seq(n, _ => Pool.Away), seq(n, _ => Free), seq(n, _ => Pool.Resting))
         == if w.Steps? then 2 * n else 0
  {
    if n > 0 {
      assert seq(n, _ => Pool.Away)[1..] == seq(n - 1, _ => Pool.Away);
      assert seq(n, _ => Free)[1..] == seq(n - 1, _ => Free);
      assert seq(n, _ => Pool.Resting)[1..] == seq(n - 1, _ => Pool.Resting);
      FreshHandlers(n - 1, w);
    }
  }

  /** The steps that a restart has before it, with `unfinished` rows and `n` threads in each pool. */
  function RestartSteps(unfinished: nat, n: nat, lines: nat): nat {
    unfinished * (2 * lines + 20) + 4 * n
  }

  lemma BootBound(s: Server, queue: seq<int>, n: nat, lines: nat)
    requires s.status.Some?
    ensures var s' := Boot(s, queue, n);
            && Sized(s') && RowsLeft(s') == |View(s)|
            && StepsLeft(s', lines) == RestartSteps(|queue|, n, lines)
  {
    var s' := Boot(s, queue, n);
    FreshHandlers(n, Steps(lines));
    FreshHandlers(n, Appends);
    FreshWorkers(n, lines, iset{});
    assert s'.req.consumers == seq(n, _ => Pool.Away) && s'.graders == seq(n, _ => Idle);
    assert s'.cli.consumers == seq(n, _ => Pool.Away) && s'.handlers == seq(n, _ => Free);
    assert s'.req.producers == seq(n, _ => Pool.Resting);
  }

  lemma RestartNumbers(s: Server, n: nat, lines: nat)
    requires Enabled(s, Restart(n))
    ensures var s' := Next(s, Restart(n));
            && Sized(s') && RowsLeft(s') == |View(s)|
            && StepsLeft(s', lines) == RestartSteps(|Recovered(View(s))|, n, lines)
  {
    BootBound(s, Recovered(View(s)), n, lines);
  }

  /** The bound for a running server whose numbers are known. */
  lemma BoundFrom(s: Server, steps: seq<Step>, rows: nat, left: nat, lines: nat)
    requires Inv(s) && s.up && Sized(s) && Legal(s, steps) && NoCrash(steps)
    requires RowsLeft(s) == rows && StepsLeft(s, lines) == left && lines == rows + Arrivals(steps)
    ensures |steps| <= Bound(left, lines, steps)
  {
    RunBound(s, steps, lines);
  }

  lemma RestartKept(s: Server, n: nat)
    requires Reachable(s) && Enabled(s, Restart(n))
    ensures Inv(Next(s, Restart(n)))
  {
    ReachableInv(s);
    StepKept(s, Restart(n));
  }

  /** After a restart with `n` threads in each pool: the bound in the terms of the status file. */
  lemma RestartBound(s: Server, n: nat, steps: seq<Step>, lines: nat)
    requires Reachable(s) && Enabled(s, Restart(n)) && Legal(Next(s, Restart(n)), steps) && NoCrash(steps)
    requires lines == |View(s)| + Arrivals(steps)
    ensures |steps| <= Bound(RestartSteps(|Recovered(View(s))|, n, lines), lines, steps)
  {
    RestartKept(s, n);
    RestartNumbers(s, n, lines);
    BoundFrom(Next(s, Restart(n)), steps, |View(s)|, RestartSteps(|Recovered(View(s))|, n, lines), lines);
  }
}
