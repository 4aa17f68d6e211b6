/** What every reachable state of the grading server satisfies. */
module ServerInvariants {
  import opened Wrappers
  import opened StatusTable
  import Pool
  import opened GradingServer

  // ------------------------------------------- threads, their queues and the locks

  predicate GraderAgrees(c: Pool.ConsumerPc, pc: GraderPc) {
    if pc.Idle? then !c.Serving? else c == Pool.Serving(pc.id)
  }

  predicate HandlerAgrees(c: Pool.ConsumerPc, pc: HandlerPc) {
    pc.Free? <==> !c.Serving?
  }

  predicate SubmitAgrees(p: Pool.ProducerPc, pc: HandlerPc) {
    if pc.Submitting? then !p.Resting? && p.item == pc.id else p.Resting?
  }

  /** Each thread's own program counter agrees with its place in the two pools. */
  ghost predicate ShapeInv(s: Server) {
    && |s.req.consumers| == |s.graders|
    && |s.req.producers| == |s.handlers| == |s.cli.consumers|
    && |s.cli.producers| == (if s.up then 1 else 0)
    && (!s.up ==> s.graders == [] && s.handlers == [])
    && (forall i :: 0 <= i < |s.graders| ==> GraderAgrees(s.req.consumers[i], s.graders[i]))
    && (forall j :: 0 <= j < |s.handlers| ==> HandlerAgrees(s.cli.consumers[j], s.handlers[j]))
    && (forall j :: 0 <= j < |s.handlers| ==> SubmitAgrees(s.req.producers[j], s.handlers[j]))
  }

  predicate HoldsFile(pc: HandlerPc) {
    pc.Appending? || pc.Appended? || pc.Reading? || pc.HaveRead?
  }

  /** fileLock is owned by exactly the thread between its lock and its unlock. */
  ghost predicate FileLockInv(s: Server) {
    && (s.fileOwner.Some? ==>
          match s.fileOwner.value
          case Grader(i) => i < |s.graders| && s.graders[i].Updating?
          case Handler(j) => j < |s.handlers| && HoldsFile(s.handlers[j]))
    && (forall i :: 0 <= i < |s.graders| && s.graders[i].Updating? ==> s.fileOwner == Some(Grader(i)))
    && (forall j :: 0 <= j < |s.handlers| && HoldsFile(s.handlers[j]) ==> s.fileOwner == Some(Handler(j)))
  }

  lemma ShapeReq(s: Server, pe: Pool.Step)
    requires ShapeInv(s) && OnlyReq(pe) && Pool.Enabled(s.req, pe)
    ensures ShapeInv(s.(req := Pool.Next(s.req, pe)))
  {
  }

  lemma ShapeCli(s: Server, pe: Pool.Step)
    requires ShapeInv(s) && OnlyCli(pe) && Pool.Enabled(s.cli, pe)
    ensures ShapeInv(s.(cli := Pool.Next(s.cli, pe)))
  {
  }

  /** Most actions of a worker leave its place in the pool as it is. */
  lemma ShapeWorker(s: Server, s': Server, i: nat, pc: GraderPc)
    requires ShapeInv(s) && s.up && i < |s.graders| && GraderAgrees(s.req.consumers[i], pc)
    requires s'.req == s.req && s'.cli == s.cli && s'.up == s.up
    requires s'.graders == s.graders[i := pc] && s'.handlers == s.handlers
    ensures ShapeInv(s')
  {
  }

  lemma ShapeGrade(s: Server, i: nat, act: GraderAct)
    requires ShapeInv(s) && s.up && GraderEnabled(s, i, act)
    ensures ShapeInv(GraderNext(s, i, act))
  {
    var s' := GraderNext(s, i, act);
    assert GraderAgrees(s.req.consumers[i], s.graders[i]);
    if !act.Begin? && !act.EndGrading? {
      ShapeWorker(s, s', i, s'.graders[i]);
    }
  }

  lemma ShapeHandler(s: Server, s': Server, j: nat, pc: HandlerPc)
    requires ShapeInv(s) && s.up && j < |s.handlers|
    requires HandlerAgrees(s.cli.consumers[j], pc) && SubmitAgrees(s.req.producers[j], pc)
    requires s'.req == s.req && s'.cli == s.cli && s'.up == s.up
    requires s'.graders == s.graders && s'.handlers == s.handlers[j := pc]
    ensures ShapeInv(s')
  {
  }

  lemma ShapeHandle(s: Server, j: nat, task: HandlerAct)
    requires ShapeInv(s) && s.up && HandlerEnabled(s, j, task)
    ensures ShapeInv(HandlerNext(s, j, task))
  {
    var s' := HandlerNext(s, j, task);
    assert HandlerAgrees(s.cli.consumers[j], s.handlers[j]);
    assert SubmitAgrees(s.req.producers[j], s.handlers[j]);
    if !task.TakeConnection? && !task.Close? && task != Confirm(true) && !task.EndSubmit? {
      ShapeHandler(s, s', j, s'.handlers[j]);
    }
  }

  lemma ShapeKept(s: Server, e: Step)
    requires ShapeInv(s) && Enabled(s, e)
    ensures ShapeInv(Next(s, e))
  {
    match e {
      case ReqStep(pe) => ShapeReq(s, pe);
      case CliStep(pe) => ShapeCli(s, pe);
      case Grade(i, act) => ShapeGrade(s, i, act);
      case Handle(j, task) => ShapeHandle(s, j, task);
      case _ =>
    }
  }

  /** A thread takes the lock, gives it back, or does neither. */
  predicate LockMoves(before: Option<FileUser>, after: Option<FileUser>, t: FileUser, held: bool, holds: bool) {
    || (after == before && holds == held)
    || (before.None? && after == Some(t) && holds)
    || (after.None? && held && !holds)
  }

  lemma FileLockWorker(s: Server, s': Server, i: nat, pc: GraderPc)
    requires FileLockInv(s) && i < |s.graders|
    requires s'.graders == s.graders[i := pc] && s'.handlers == s.handlers
    requires LockMoves(s.fileOwner, s'.fileOwner, Grader(i), s.graders[i].Updating?, pc.Updating?)
    ensures FileLockInv(s')
  {
  }

  lemma FileLockGrade(s: Server, i: nat, act: GraderAct)
    requires ShapeInv(s) && FileLockInv(s) && GraderEnabled(s, i, act)
    ensures FileLockInv(GraderNext(s, i, act))
  {
    var s' := GraderNext(s, i, act);
    assert GraderAgrees(s.req.consumers[i], s.graders[i]);
    FileLockWorker(s, s', i, s'.graders[i]);
  }

  lemma FileLockHandler(s: Server, s': Server, j: nat, pc: HandlerPc)
    requires FileLockInv(s) && j < |s.handlers|
    requires s'.graders == s.graders && s'.handlers == s.handlers[j := pc]
    requires LockMoves(s.fileOwner, s'.fileOwner, Handler(j), HoldsFile(s.handlers[j]), HoldsFile(pc))
    ensures FileLockInv(s')
  {
  }

  lemma FileLockHandle(s: Server, j: nat, task: HandlerAct)
    requires ShapeInv(s) && FileLockInv(s) && HandlerEnabled(s, j, task)
    ensures FileLockInv(HandlerNext(s, j, task))
  {
    var s' := HandlerNext(s, j, task);
    assert HandlerAgrees(s.cli.consumers[j], s.handlers[j]);
    FileLockHandler(s, s', j, s'.handlers[j]);
  }

  lemma FileLockKept(s: Server, e: Step)
    requires ShapeInv(s) && FileLockInv(s) && Enabled(s, e)
    ensures FileLockInv(Next(s, e))
  {
    match e {
      case Grade(i, act) => FileLockGrade(s, i, act);
      case Handle(j, task) => FileLockHandle(s, j, task);
      case _ =>
    }
  }

  /** What the actions of workers leave alone. */
  lemma GraderLeaves(s: Server, i: nat, act: GraderAct)
    requires GraderEnabled(s, i, act)
    ensures var s' := GraderNext(s, i, act);
            s'.handlers == s.handlers && s'.cli == s.cli && s'.issued == s.issued && s'.up == s.up
    ensures !act.Remove? ==> var s' := GraderNext(s, i, act);
            s'.pending == s.pending && s'.missed == s.missed && s'.graded == s.graded
  {
  }

  /** What the actions of handlers leave alone. */
  lemma HandlerLeaves(s: Server, j: nat, task: HandlerAct)
    requires HandlerEnabled(s, j, task)
    ensures var s' := HandlerNext(s, j, task);
            && s'.graders == s.graders && s'.graded == s.graded && s'.runs == s.runs
            && s'.missed == s.missed && s'.temp == s.temp && s'.up == s.up
  {
  }

  // --------------------------------------------------------------- the two files

  /** A running update, as the files show it. */
  predicate UpdateInv(s: Server, pc: GraderPc)
    requires pc.Updating?
  {
    match pc.phase
    case Opening => s.status.Some?
    case Copying(k) =>
      && s.status.Some? && s.temp.Some? && k <= |s.status.value|
      && s.temp.value == Replace(s.status.value, pc.id, pc.st)[..k]
    case Removed => s.status.None? && s.temp.Some?
    case Finished => s.status.Some?
  }

  /** request_status.csv is there, except between the remove and the rename of an update. */
  ghost predicate TableInv(s: Server) {
    && (s.status.Some? || s.temp.Some?)
    && (s.up && s.status.None? ==>
          s.fileOwner.Some? && s.fileOwner.value.Grader? && s.fileOwner.value.i < |s.graders|
          && s.graders[s.fileOwner.value.i].Updating? && s.graders[s.fileOwner.value.i].phase.Removed?)
    && (forall i :: 0 <= i < |s.graders| && s.graders[i].Updating? ==> UpdateInv(s, s.graders[i]))
    && DistinctIds(View(s))
  }

  /** What an action does to the table on disk: removing the old file puts the whole update in
      place at once, an append adds its row, and nothing else changes the table. */
  function ViewAfter(s: Server, e: Step): Table
    requires Enabled(s, e)
  {
    if e.Grade? && e.act.Remove? then Replace(View(s), s.graders[e.i].id, s.graders[e.i].st)
    else if e.Handle? && e.task.Append? then View(s) + [Row(s.handlers[e.j].id, Queued)]
    else View(s)
  }

  /** While a worker holds the lock, the files are its own. */
  lemma TableWorker(s: Server, s': Server, i: nat, pc: GraderPc)
    requires FileLockInv(s) && TableInv(s) && s.up && i < |s.graders| && s.graders[i].Updating?
    requires pc.Updating? && s'.graders == s.graders[i := pc] && s'.fileOwner == s.fileOwner
    requires UpdateInv(s', pc) && DistinctIds(View(s'))
    ensures TableInv(s')
  {
  }

  lemma TableOpen(s: Server, i: nat, act: GraderAct)
    requires FileLockInv(s) && TableInv(s) && s.up && GraderEnabled(s, i, act)
    requires act.Open? || act.CopyLine? || act.Remove? || act.Rename?
    ensures TableInv(GraderNext(s, i, act))
    ensures View(GraderNext(s, i, act)) == ViewAfter(s, Grade(i, act))
  {
    var s', pc := GraderNext(s, i, act), s.graders[i];
    assert UpdateInv(s, pc);
    if act.Remove? {
      var rows := s.status.value;
      assert Replace(rows, pc.id, pc.st)[..|rows|] == Replace(rows, pc.id, pc.st);
    }
    if act.CopyLine? {
      var updated, k := Replace(s.status.value, pc.id, pc.st), pc.phase.k;
      assert updated[..k + 1] == updated[..k] + [updated[k]];
    }
    TableWorker(s, s', i, s'.graders[i]);
  }

  lemma TableRest(s: Server, i: nat, act: GraderAct)
    requires ShapeInv(s) && FileLockInv(s) && TableInv(s) && s.up && GraderEnabled(s, i, act)
    requires !act.Open? && !act.CopyLine? && !act.Remove? && !act.Rename?
    ensures TableInv(GraderNext(s, i, act))
    ensures View(GraderNext(s, i, act)) == View(s)
  {
    assert GraderAgrees(s.req.consumers[i], s.graders[i]);
    if act.EndUpdate? {
      assert UpdateInv(s, s.graders[i]);
    }
  }

  lemma TableGrade(s: Server, i: nat, act: GraderAct)
    requires ShapeInv(s) && FileLockInv(s) && TableInv(s) && s.up && GraderEnabled(s, i, act)
    ensures TableInv(GraderNext(s, i, act))
    ensures View(GraderNext(s, i, act)) == ViewAfter(s, Grade(i, act))
  {
    if act.Open? || act.CopyLine? || act.Remove? || act.Rename? {
      TableOpen(s, i, act);
    } else {
      TableRest(s, i, act);
    }
  }

  lemma TableQuiet(s: Server, j: nat, task: HandlerAct)
    requires ShapeInv(s) && FileLockInv(s) && TableInv(s) && s.up && HandlerEnabled(s, j, task) && !task.Append?
    ensures TableInv(HandlerNext(s, j, task))
    ensures View(HandlerNext(s, j, task)) == View(s)
  {
    HandlerLeaves(s, j, task);
    assert HandlerNext(s, j, task).status == s.status;
  }

  lemma TableHandle(s: Server, j: nat, task: HandlerAct)
    requires ShapeInv(s) && FileLockInv(s) && TableInv(s) && s.up && HandlerEnabled(s, j, task)
    requires task.Append? ==> StatusOf(s, s.handlers[j].id).None?
    ensures TableInv(HandlerNext(s, j, task))
    ensures View(HandlerNext(s, j, task)) == ViewAfter(s, Handle(j, task))
  {
    HandlerLeaves(s, j, task);
    if task.Append? {
      assert s.status.Some?;
      assert !HasRow(View(s), s.handlers[j].id);
    } else {
      TableQuiet(s, j, task);
    }
  }

  lemma TableKept(s: Server, e: Step)
    requires ShapeInv(s) && FileLockInv(s) && TableInv(s) && Enabled(s, e)
    requires e.Handle? && e.task.Append? ==> StatusOf(s, s.handlers[e.j].id).None?
    ensures TableInv(Next(s, e))
    ensures View(Next(s, e)) == ViewAfter(s, e)
  {
    match e {
      case Grade(i, act) => TableGrade(s, i, act);
      case Handle(j, task) => TableHandle(s, j, task);
      case _ =>
    }
  }
}
