/** The locks, the wakeups and the connections of the grading server, in every run. */
module ServerLocks {
  import opened Wrappers
  import Pool
  import opened GradingServer
  import opened ServerInvariants
  import opened ServerIds
  import opened ServerSafety
  import opened ServerTheorems

  // --------------------------------------------------------------------- the locks

  lemma WorkerLocks(s: Server, i: nat)
    requires BaseInv(s) && i < |s.graders|
    ensures !(s.fileOwner == Some(Grader(i)) && s.req.owner == Some(Pool.Consumer(i)))
  {
    assert GraderAgrees(s.req.consumers[i], s.graders[i]);
  }

  lemma HandlerLocks(s: Server, j: nat)
    requires BaseInv(s) && j < |s.handlers|
    ensures !(s.fileOwner == Some(Handler(j)) && s.req.owner == Some(Pool.Producer(j)))
    ensures !(s.fileOwner == Some(Handler(j)) && s.cli.owner == Some(Pool.Consumer(j)))
    ensures !(s.req.owner == Some(Pool.Producer(j)) && s.cli.owner == Some(Pool.Consumer(j)))
  {
    assert HandlerAgrees(s.cli.consumers[j], s.handlers[j]) && SubmitAgrees(s.req.producers[j], s.handlers[j]);
  }

  /** Every thread holds at most one of the three locks. */
  lemma OneLockEach(s: Server)
    requires Reachable(s)
    ensures forall i :: 0 <= i < |s.graders| ==>
              !(s.fileOwner == Some(Grader(i)) && s.req.owner == Some(Pool.Consumer(i)))
    ensures forall j :: 0 <= j < |s.handlers| ==>
              && !(s.fileOwner == Some(Handler(j)) && s.req.owner == Some(Pool.Producer(j)))
              && !(s.fileOwner == Some(Handler(j)) && s.cli.owner == Some(Pool.Consumer(j)))
              && !(s.req.owner == Some(Pool.Producer(j)) && s.cli.owner == Some(Pool.Consumer(j)))
  {
    ReachableInv(s);
    forall i | 0 <= i < |s.graders| {
      WorkerLocks(s, i);
    }
    forall j | 0 <= j < |s.handlers| {
      HandlerLocks(s, j);
    }
  }

  /** The steps by which a thread waits for a lock. */
  predicate IsLockStep(e: Step) {
    || ((e.ReqStep? || e.CliStep?) && (e.e.Lock? || e.e.LockToEnqueue?))
    || (e.Grade? && e.act.LockForUpdate?)
    || (e.Handle? && (e.task.LockForAppend? || e.task.LockForRead?))
  }

  /** The thread that owns fileLock can go on without waiting for a lock; no cycle of threads that
      wait for each other's locks is reachable. */
  lemma FileOwnerGoesOn(s: Server) returns (e: Step)
    requires Inv(s) && s.up && s.fileOwner.Some?
    ensures Enabled(s, e) && !IsLockStep(e)
    ensures match s.fileOwner.value
            case Grader(i) => e.Grade? && e.i == i
            case Handler(j) => e.Handle? && e.j == j
  {
    match s.fileOwner.value {
      case Grader(i) =>
        var pc := s.graders[i];
        assert UpdateInv(s, pc);
        e := Grade(i, match pc.phase
                      case Opening => Open
                      case Copying(k) => if k < |s.status.value| then CopyLine else Remove
                      case Removed => Rename
                      case Finished => EndUpdate);
      case Handler(j) =>
        var pc := s.handlers[j];
        e := Handle(j, if pc.Appending? then Append
                       else if pc.Appended? then EndAppend
                       else if pc.Reading? then Read
                       else EndRead);
    }
  }

  /** The server's form of a step on the request queue. */
  function OnReq(pe: Pool.Step): Step {
    if pe.Unlock? then Grade(pe.i, Begin)
    else if pe.UnlockAfterSignal? then Handle(pe.j, EndSubmit)
    else ReqStep(pe)
  }

  lemma OnReqEnabled(s: Server, pe: Pool.Step)
    requires ShapeInv(s) && s.up && Pool.Enabled(s.req, pe)
    requires pe.Sleep? || pe.Dequeue? || pe.Unlock? || pe.Enqueue? || pe.Signal? || pe.UnlockAfterSignal?
    ensures Enabled(s, OnReq(pe)) && !IsLockStep(OnReq(pe))
  {
    if pe.UnlockAfterSignal? {
      assert SubmitAgrees(s.req.producers[pe.j], s.handlers[pe.j]);
    }
  }

  /** The same for the owner of requestQueueLock, a worker or a handler that enqueues. */
  lemma ReqOwnerGoesOn(s: Server) returns (pe: Pool.Step)
    requires Inv(s) && s.up && s.req.owner.Some?
    ensures Enabled(s, OnReq(pe)) && !IsLockStep(OnReq(pe)) && Pool.StepOf(pe) == s.req.owner.value
    ensures !pe.WakeSpuriously? && !pe.Enter?
  {
    pe := Pool.OwnerGoesOn(s.req);
    OnReqEnabled(s, pe);
  }

  /** The server's form of a step on the client queue. */
  function OnCli(pe: Pool.Step): Step {
    if pe.Unlock? then Handle(pe.i, TakeConnection) else CliStep(pe)
  }

  /** The same for the owner of clientQueueLock, a handler or the accept loop. */
  lemma CliOwnerGoesOn(s: Server) returns (pe: Pool.Step)
    requires Inv(s) && s.up && s.cli.owner.Some?
    ensures Enabled(s, OnCli(pe)) && !IsLockStep(OnCli(pe)) && Pool.StepOf(pe) == s.cli.owner.value
    ensures !pe.WakeSpuriously? && !pe.Enter?
  {
    pe := Pool.OwnerGoesOn(s.cli);
  }

  // --------------------------------------------------------- locks are given back

  datatype Mutex = FileLock | RequestQueueLock | ClientQueueLock

  /** How many steps the owner of fileLock has to take before it unlocks; 0 when it is free. */
  function FileHold(s: Server): nat {
    match s.fileOwner
    case None => 0
    case Some(Grader(i)) =>
      if i < |s.graders| && s.graders[i].Updating? then
        match s.graders[i].phase
        case Opening => |View(s)| + 4
        case Copying(k) => if k <= |View(s)| then |View(s)| - k + 3 else 3
        case Removed => 2
        case Finished => 1
      else 1
    case Some(Handler(j)) =>
      if j < |s.handlers| && (s.handlers[j].Appending? || s.handlers[j].Reading?) then 2 else 1
  }

  function Hold(s: Server, m: Mutex): nat {
    match m
    case FileLock => FileHold(s)
    case RequestQueueLock => Pool.Hold(s.req)
    case ClientQueueLock => Pool.Hold(s.cli)
  }

  /** The part of a step that is a step on the request queue. */
  function ReqPart(s: Server, e: Step): Option<Pool.Step>
    requires Enabled(s, e)
  {
    match e
    case ReqStep(pe) => Some(pe)
    case Grade(i, act) =>
      if act.Begin? then Some(Pool.Unlock(i)) else if act.EndGrading? then Some(Pool.Finish(i)) else None
    case Handle(j, task) =>
      if task == Confirm(true) then Some(Pool.Enter(j, s.handlers[j].id))
      else if task.EndSubmit? then Some(Pool.UnlockAfterSignal(j))
      else None
    case _ => None
  }

  /** The part of a step that is a step on the client queue. */
  function CliPart(s: Server, e: Step): Option<Pool.Step>
    requires Enabled(s, e)
  {
    match e
    case CliStep(pe) => Some(pe)
    case Handle(j, task) =>
      if task.TakeConnection? then Some(Pool.Unlock(j)) else if task.Close? then Some(Pool.Finish(j)) else None
    case _ => None
  }

  /** The step is one of the thread that owns the lock. */
  predicate OwnerMoves(s: Server, e: Step, m: Mutex)
    requires Enabled(s, e)
  {
    match m
    case FileLock => (e.Grade? && s.fileOwner == Some(Grader(e.i))) || (e.Handle? && s.fileOwner == Some(Handler(e.j)))
    case RequestQueueLock => ReqPart(s, e).Some? && s.req.owner == Some(Pool.StepOf(ReqPart(s, e).value))
    case ClientQueueLock => CliPart(s, e).Some? && s.cli.owner == Some(Pool.StepOf(CliPart(s, e).value))
  }

  /** FileHold looks only at the owner and the size of the table. */
  lemma FileHoldSame(s: Server, s': Server)
    requires s.fileOwner.Some? && s'.fileOwner == s.fileOwner && |View(s')| == |View(s)|
    requires match s.fileOwner.value
             case Grader(k) => k < |s.graders| == |s'.graders| && s'.graders[k] == s.graders[k]
             case Handler(k) => k < |s.handlers| == |s'.handlers| && s'.handlers[k] == s.handlers[k]
    ensures FileHold(s') == FileHold(s)
  {
  }

  lemma OwnerUpdates(s: Server, i: nat, act: GraderAct)
    requires ShapeInv(s) && FileLockInv(s) && TableInv(s) && s.up && GraderEnabled(s, i, act)
    requires s.fileOwner == Some(Grader(i))
    ensures FileHold(GraderNext(s, i, act)) < FileHold(s)
  {
    TableGrade(s, i, act);
    assert |View(GraderNext(s, i, act))| == |View(s)|;
    assert GraderAgrees(s.req.consumers[i], s.graders[i]);
    assert UpdateInv(s, s.graders[i]);
  }

  lemma OthersGrade(s: Server, i: nat, act: GraderAct)
    requires ShapeInv(s) && FileLockInv(s) && TableInv(s) && s.up && GraderEnabled(s, i, act)
    requires s.fileOwner.Some? && s.fileOwner != Some(Grader(i))
    ensures FileHold(GraderNext(s, i, act)) == FileHold(s)
  {
    TableRest(s, i, act);
    GraderLeaves(s, i, act);
    FileHoldSame(s, GraderNext(s, i, act));
  }

  lemma OwnerHandles(s: Server, j: nat, task: HandlerAct)
    requires ShapeInv(s) && FileLockInv(s) && s.up && HandlerEnabled(s, j, task)
    requires s.fileOwner == Some(Handler(j))
    ensures FileHold(HandlerNext(s, j, task)) < FileHold(s)
  {
    assert HandlerAgrees(s.cli.consumers[j], s.handlers[j]);
  }

  lemma OthersHandle(s: Server, j: nat, task: HandlerAct)
    requires ShapeInv(s) && FileLockInv(s) && TableInv(s) && s.up && HandlerEnabled(s, j, task)
    requires s.fileOwner.Some? && s.fileOwner != Some(Handler(j))
    ensures FileHold(HandlerNext(s, j, task)) == FileHold(s)
  {
    TableQuiet(s, j, task);
    HandlerLeaves(s, j, task);
    FileHoldSame(s, HandlerNext(s, j, task));
  }

  lemma FileHoldStep(s: Server, e: Step)
    requires ShapeInv(s) && FileLockInv(s) && TableInv(s) && s.up && Enabled(s, e) && !e.Crash? && s.fileOwner.Some?
    ensures if OwnerMoves(s, e, FileLock) then FileHold(Next(s, e)) < FileHold(s)
            else FileHold(Next(s, e)) == FileHold(s)
  {
    match e {
      case Grade(i, act) =>
        if s.fileOwner == Some(Grader(i)) {
          OwnerUpdates(s, i, act);
        } else {
          OthersGrade(s, i, act);
        }
      case Handle(j, task) =>
        if s.fileOwner == Some(Handler(j)) {
          OwnerHandles(s, j, task);
        } else {
          OthersHandle(s, j, task);
        }
      case ReqStep(pe) => FileHoldSame(s, Next(s, e));
      case CliStep(pe) => FileHoldSame(s, Next(s, e));
      case _ =>
    }
  }

  lemma ReqPartStep(s: Server, e: Step)
    requires Enabled(s, e) && s.up && !e.Crash?
    ensures ReqPart(s, e).None? ==> Next(s, e).req == s.req
    ensures ReqPart(s, e).Some? ==>
              Pool.Enabled(s.req, ReqPart(s, e).value) && Next(s, e).req == Pool.Next(s.req, ReqPart(s, e).value)
  {
  }

  lemma CliPartStep(s: Server, e: Step)
    requires Enabled(s, e) && s.up && !e.Crash?
    ensures CliPart(s, e).None? ==> Next(s, e).cli == s.cli
    ensures CliPart(s, e).Some? ==>
              Pool.Enabled(s.cli, CliPart(s, e).value) && Next(s, e).cli == Pool.Next(s.cli, CliPart(s, e).value)
  {
  }

  lemma ReqHoldStep(s: Server, e: Step)
    requires Pool.LockInv(s.req) && s.up && Enabled(s, e) && !e.Crash? && s.req.owner.Some?
    ensures if OwnerMoves(s, e, RequestQueueLock) then Pool.Hold(Next(s, e).req) < Pool.Hold(s.req)
            else Pool.Hold(Next(s, e).req) == Pool.Hold(s.req)
  {
    ReqPartStep(s, e);
    if ReqPart(s, e).Some? {
      Pool.HoldStep(s.req, ReqPart(s, e).value);
    }
  }

  lemma CliHoldStep(s: Server, e: Step)
    requires Pool.LockInv(s.cli) && s.up && Enabled(s, e) && !e.Crash? && s.cli.owner.Some?
    ensures if OwnerMoves(s, e, ClientQueueLock) then Pool.Hold(Next(s, e).cli) < Pool.Hold(s.cli)
            else Pool.Hold(Next(s, e).cli) == Pool.Hold(s.cli)
  {
    CliPartStep(s, e);
    if CliPart(s, e).Some? {
      Pool.HoldStep(s.cli, CliPart(s, e).value);
    }
  }

  /** Every step of the owner brings the unlock nearer, and no other step puts it off. */
  lemma HoldStep(s: Server, e: Step, m: Mutex)
    requires Inv(s) && s.up && Enabled(s, e) && !e.Crash? && Hold(s, m) > 0
    ensures if OwnerMoves(s, e, m) then Hold(Next(s, e), m) < Hold(s, m) else Hold(Next(s, e), m) == Hold(s, m)
  {
    match m {
      case FileLock => FileHoldStep(s, e);
      case RequestQueueLock => ReqHoldStep(s, e);
      case ClientQueueLock => CliHoldStep(s, e);
    }
  }

  /** How many steps of a run are the lock owner's. */
  function OwnerSteps(s: Server, steps: seq<Step>, m: Mutex): nat
    requires Legal(s, steps)
    decreases |steps|
  {
    if steps == [] then 0
    else (if OwnerMoves(s, steps[0], m) then 1 else 0) + OwnerSteps(Next(s, steps[0]), steps[1..], m)
  }

  /** The lock is owned in every state of the run. */
  predicate HeldThroughout(s: Server, steps: seq<Step>, m: Mutex)
    requires Legal(s, steps)
    decreases |steps|
  {
    Hold(s, m) > 0 && (steps != [] ==> HeldThroughout(Next(s, steps[0]), steps[1..], m))
  }

  /** Hold counts down from these numbers, and is 0 exactly when nobody owns the lock. */
  lemma HoldBounds(s: Server, m: Mutex)
    ensures Hold(s, m) <= if m.FileLock? then |View(s)| + 4 else 3
    ensures Hold(s, m) == 0 <==>
              match m
              case FileLock => s.fileOwner.None?
              case RequestQueueLock => s.req.owner.None?
              case ClientQueueLock => s.cli.owner.None?
  {
  }

  lemma StillUp(s: Server, e: Step)
    requires Inv(s) && s.up && Enabled(s, e) && !e.Crash?
    ensures Inv(Next(s, e)) && Next(s, e).up
  {
    StepKept(s, e);
    match e {
      case Grade(i, act) => GraderLeaves(s, i, act);
      case Handle(j, task) => HandlerLeaves(s, j, task);
      case _ =>
    }
  }

  /** Every lock is given back: whatever the other threads do, its owner comes to the unlock before
      it has taken `|View(s)| + 4` steps with fileLock, or three with a queue's lock. */
  lemma {:induction false} LocksAreReleased(s: Server, steps: seq<Step>, m: Mutex)
    requires Inv(s) && s.up && Legal(s, steps) && NoCrash(steps) && HeldThroughout(s, steps, m)
    ensures OwnerSteps(s, steps, m) < Hold(s, m)
    ensures Hold(s, m) <= if m.FileLock? then |View(s)| + 4 else 3
    decreases |steps|
  {
    HoldBounds(s, m);
    if steps != [] {
      NoCrashTail(steps);
      StillUp(s, steps[0]);
      HoldStep(s, steps[0], m);
      LocksAreReleased(Next(s, steps[0]), steps[1..], m);
    }
  }

  // ------------------------------------------------------ wakeups and connections

  /** No wakeup is lost, in either pool. */
  lemma WaitersAreWoken(s: Server)
    requires Reachable(s)
    ensures Pool.WakeInv(s.req) && Pool.WakeInv(s.cli)
  {
    ReachableInv(s);
  }

  lemma ConnectionStep(s: Server, e: Step)
    requires Enabled(s, e) && Pool.LiveOnce(s.cli)
    ensures Pool.LiveOnce(Next(s, e).cli)
  {
    Pool.StartEmpty(0, 0);
    match e {
      case CliStep(pe) => Pool.LiveOnceKept(s.cli, pe);
      case Grade(i, act) => GraderLeaves(s, i, act);
      case Handle(j, task) =>
        CliPartStep(s, e);
        if CliPart(s, e).Some? {
          Pool.LiveOnceKept(s.cli, CliPart(s, e).value);
        }
      case Restart(n) => Pool.StartEmpty(n, 1);
      case _ =>
    }
  }

  lemma {:induction false} ConnectionRun(s: Server, steps: seq<Step>)
    requires Legal(s, steps) && Pool.LiveOnce(s.cli)
    ensures Pool.LiveOnce(After(s, steps).cli)
    decreases |steps|
  {
    if steps != [] {
      ConnectionStep(s, steps[0]);
      ConnectionRun(Next(s, steps[0]), steps[1..]);
    }
  }

  /** In every reachable state a connection that is open is in exactly one place: with the accept
      loop, queued, or with its handler; and as often as a number was returned by accept since the
      server started, it is in such a place or was closed. */
  lemma ConnectionsInOnePlace(s: Server, c: int)
    requires Reachable(s)
    ensures Pool.LiveOnce(s.cli)
    ensures Pool.Live(s.cli, c) <= 1
    ensures Pool.Live(s.cli, c) + s.cli.finished[c] == s.cli.entered[c]
  {
    var steps :| Legal(Initial(), steps) && After(Initial(), steps) == s;
    ReachableInv(s);
    Pool.StartEmpty(0, 0);
    ConnectionRun(Initial(), steps);
  }

  /** A handler that closes a connection is the only thread to have it, and then nobody has it:
      every accepted connection is closed once. */
  lemma ConnectionsClosedOnce(s: Server, j: nat)
    requires Reachable(s) && Enabled(s, Handle(j, Close))
    ensures var c, s' := s.cli.consumers[j].item, Next(s, Handle(j, Close));
            && Pool.Live(s.cli, c) == 1 && Pool.Live(s'.cli, c) == 0
            && s'.cli.finished[c] == s.cli.finished[c] + 1 == s'.cli.entered[c]
            && c !in s.cli.queue
            && forall k :: 0 <= k < |s.cli.consumers| && k != j ==> Pool.ConsumerHas(s.cli.consumers[k], c) == 0
  {
    var c := s.cli.consumers[j].item;
    ConnectionsInOnePlace(s, c);
    Pool.FinishedOnce(s.cli, j);
  }
}
