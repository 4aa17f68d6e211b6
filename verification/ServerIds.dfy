/** Who is responsible for each request id, in every reachable state. */
module ServerIds {
  import opened Wrappers
  import opened StatusTable
  import Pool
  import opened GradingServer
  import opened ServerInvariants

  /** The worker has made its last change to the status file. */
  predicate Settled(pc: GraderPc) {
    pc.Done? || (pc.Updating? && !Unfinished(pc.st) && (pc.phase.Removed? || pc.phase.Finished?))
  }

  predicate IsSubmitted(pc: HandlerPc) {
    pc.Submitting? || pc.Replying? || pc.WantAppend? || pc.Appending?
  }

  /** The handler of a new request, before its row is written. */
  predicate IsNew(pc: HandlerPc) {
    pc.Receiving? || pc.Confirming? || IsSubmitted(pc)
  }

  /** The ids in use: each was issued, and each enters the request queue at most once. */
  ghost predicate IssuedInv(s: Server) {
    && (forall x :: x in s.issued ==> 0 <= x <= 999_999_999)
    && (forall x :: StatusOf(s, x).Some? ==> x in s.issued)
    && (forall x :: s.req.entered[x] <= 1 && (s.req.entered[x] > 0 ==> x in s.issued))
  }

  predicate GraderOk(s: Server, pc: GraderPc) {
    && (!pc.Idle? ==> (pc.id in s.pending <==> !Settled(pc)))
    && (pc.WantFile? || pc.Updating? ==> !pc.st.Queued?)
  }

  /** What is queued or worked on is pending, until its last status update. */
  ghost predicate PendingInv(s: Server) {
    && (forall x :: x in s.req.queue ==> x in s.pending)
    && (forall i :: 0 <= i < |s.req.consumers| && s.req.consumers[i].Took? ==> s.req.consumers[i].item in s.pending)
    && (forall j :: 0 <= j < |s.req.producers| && (s.req.producers[j].Ready? || s.req.producers[j].Locked?)
                    ==> s.req.producers[j].item in s.pending)
    && (forall i :: 0 <= i < |s.graders| ==> GraderOk(s, s.graders[i]))
    && (forall x :: x in s.pending ==> s.req.entered[x] == 1 && s.req.finished[x] == 0)
    && (forall x :: x in s.missed ==> s.req.entered[x] == 1 && x !in s.pending)
  }

  /** How responsibility shows in the table. */
  ghost predicate StatusInv(s: Server) {
    && (forall x :: x in s.pending && StatusOf(s, x).Some? ==> Unfinished(StatusOf(s, x).value))
    && (forall x :: x in s.missed && StatusOf(s, x).Some? ==> StatusOf(s, x).value.Queued?)
    && (s.up ==> forall x :: StatusOf(s, x).Some? && Unfinished(StatusOf(s, x).value) ==>
                   x in s.pending || x in s.missed)
  }

  /** A request that a handler is creating has no row yet; until it is handed to the queue it
      has not been there; afterwards it is pending or its final update has missed its row. */
  predicate NewOk(s: Server, pc: HandlerPc) {
    && (IsNew(pc) ==> StatusOf(s, pc.id).None?)
    && (pc.Receiving? || pc.Confirming? ==> s.req.entered[pc.id] == 0)
    && (IsSubmitted(pc) ==> s.req.entered[pc.id] == 1 && (pc.id in s.pending || pc.id in s.missed))
  }

  ghost predicate NewInv(s: Server) {
    forall j :: 0 <= j < |s.handlers| ==> NewOk(s, s.handlers[j])
  }

  /** Each of them has an id of its own. */
  ghost predicate NewIdsInv(s: Server) {
    && (forall j :: 0 <= j < |s.handlers| && IsNew(s.handlers[j]) ==> s.handlers[j].id in s.issued)
    && (forall j, k :: 0 <= j < k < |s.handlers| && IsNew(s.handlers[j]) && IsNew(s.handlers[k]) ==>
          s.handlers[j].id != s.handlers[k].id)
  }

  ghost predicate IdInv(s: Server) {
    IssuedInv(s) && PendingInv(s) && StatusInv(s) && NewInv(s) && NewIdsInv(s)
  }

  /** The invariants of the queues, the locks and the files. */
  ghost predicate BaseInv(s: Server) {
    Pool.Inv(s.req) && Pool.Inv(s.cli) && ShapeInv(s) && FileLockInv(s) && TableInv(s)
  }

  // --------------------------------------------------------------- queue steps

  /** Four of the invariants only look at the table, the ids and the handlers. */
  lemma SameView(s: Server, s': Server)
    requires IssuedInv(s) && StatusInv(s) && NewInv(s) && NewIdsInv(s)
    requires View(s') == View(s) && s'.up == s.up && s'.issued == s.issued && s'.handlers == s.handlers
    requires s'.pending == s.pending && s'.missed == s.missed && s'.req.entered == s.req.entered
    ensures IssuedInv(s') && StatusInv(s') && NewInv(s') && NewIdsInv(s')
  {
    assert forall x :: StatusOf(s', x) == StatusOf(s, x);
  }

  lemma PendingSame(s: Server, s': Server)
    requires PendingInv(s)
    requires s'.graders == s.graders && s'.pending == s.pending && s'.missed == s.missed
    requires s'.req.queue == s.req.queue && s'.req.consumers == s.req.consumers
    requires s'.req.entered == s.req.entered && s'.req.finished == s.req.finished
    requires |s'.req.producers| == |s.req.producers|
    requires forall j :: 0 <= j < |s.req.producers| ==>
               s'.req.producers[j] == s.req.producers[j] || s'.req.producers[j].Resting?
    ensures PendingInv(s')
  {
    forall k | 0 <= k < |s'.graders|
      ensures GraderOk(s', s'.graders[k])
    {
      assert GraderOk(s, s.graders[k]);
    }
  }

  lemma PendingReq(s: Server, pe: Pool.Step)
    requires ShapeInv(s) && PendingInv(s) && OnlyReq(pe) && Pool.Enabled(s.req, pe)
    ensures PendingInv(s.(req := Pool.Next(s.req, pe)))
  {
    if pe.Dequeue? {
      assert forall x :: x in s.req.queue[1..] ==> x in s.req.queue;
      assert s.req.queue[0] in s.req.queue;
    }
  }

  lemma IdReq(s: Server, pe: Pool.Step)
    requires ShapeInv(s) && IdInv(s) && OnlyReq(pe) && Pool.Enabled(s.req, pe)
    ensures IdInv(s.(req := Pool.Next(s.req, pe)))
  {
    PendingReq(s, pe);
    SameView(s, s.(req := Pool.Next(s.req, pe)));
  }

  lemma IdCli(s: Server, pe: Pool.Step)
    requires IdInv(s) && OnlyCli(pe) && Pool.Enabled(s.cli, pe)
    ensures IdInv(s.(cli := Pool.Next(s.cli, pe)))
  {
    PendingSame(s, s.(cli := Pool.Next(s.cli, pe)));
    SameView(s, s.(cli := Pool.Next(s.cli, pe)));
  }

  // ------------------------------------------------------------ worker actions

  /** No other thread holds the id of worker `i`, and it is not queued. */
  ghost predicate OnlyHolder(s: Server, i: nat)
    requires i < |s.graders| == |s.req.consumers| && !s.graders[i].Idle?
  {
    && s.graders[i].id !in s.req.queue
    && (forall k :: 0 <= k < |s.graders| && k != i && !s.graders[k].Idle? ==> s.graders[k].id != s.graders[i].id)
    && (forall k :: 0 <= k < |s.req.consumers| && s.req.consumers[k].Took? ==>
          s.req.consumers[k].item != s.graders[i].id)
    && (forall j :: 0 <= j < |s.req.producers| && (s.req.producers[j].Ready? || s.req.producers[j].Locked?) ==>
          s.req.producers[j].item != s.graders[i].id)
  }

  lemma HeldOnce(s: Server, i: nat)
    requires Pool.Conserved(s.req) && ShapeInv(s) && IssuedInv(s) && i < |s.graders| && !s.graders[i].Idle?
    ensures OnlyHolder(s, i)
    ensures s.req.entered[s.graders[i].id] == 1 && s.req.finished[s.graders[i].id] == 0
  {
    var x := s.graders[i].id;
    assert GraderAgrees(s.req.consumers[i], s.graders[i]);
    assert Pool.Live(s.req, x) + s.req.finished[x] == s.req.entered[x] <= 1;
    Pool.Exclusive(s.req, i, x);
    forall k | 0 <= k < |s.graders| && k != i
      ensures !s.graders[k].Idle? ==> s.graders[k].id != x
      ensures s.req.consumers[k].Took? ==> s.req.consumers[k].item != x
    {
      assert GraderAgrees(s.req.consumers[k], s.graders[k]);
      assert Pool.ConsumerHas(s.req.consumers[k], x) == 0;
    }
    forall j | 0 <= j < |s.req.producers| && (s.req.producers[j].Ready? || s.req.producers[j].Locked?)
      ensures s.req.producers[j].item != x
    {
      assert Pool.ProducerHas(s.req.producers[j], x) == 0;
    }
  }

  /** Most actions of a worker only move its program counter. */
  lemma PendingMove(s: Server, s': Server, i: nat, pc: GraderPc)
    requires PendingInv(s) && i < |s.graders| && GraderOk(s, pc)
    requires s'.graders == s.graders[i := pc]
    requires s'.req == s.req && s'.pending == s.pending && s'.missed == s.missed
    ensures PendingInv(s')
  {
    forall k | 0 <= k < |s'.graders|
      ensures GraderOk(s', s'.graders[k])
    {
      assert GraderOk(s, s.graders[k]);
    }
  }

  lemma PendingBegin(s: Server, i: nat)
    requires ShapeInv(s) && PendingInv(s) && GraderEnabled(s, i, Begin)
    ensures PendingInv(GraderNext(s, i, Begin))
  {
    var x := s.req.consumers[i].item;
    assert x in s.pending;
    var t := s.(req := Pool.Next(s.req, Pool.Unlock(i)));
    assert PendingInv(t);
    PendingMove(t, GraderNext(s, i, Begin), i, WantFile(x, s.runs, Grading));
  }

  lemma PendingEnd(s: Server, i: nat)
    requires ShapeInv(s) && PendingInv(s) && GraderEnabled(s, i, EndGrading)
    ensures PendingInv(GraderNext(s, i, EndGrading))
  {
    assert GraderAgrees(s.req.consumers[i], s.graders[i]);
    assert s.graders[i].id !in s.pending;
    var t := s.(req := Pool.Next(s.req, Pool.Finish(i)));
    assert PendingInv(t);
    PendingMove(t, GraderNext(s, i, EndGrading), i, Idle);
  }

  lemma PendingGrade(s: Server, i: nat, act: GraderAct)
    requires ShapeInv(s) && PendingInv(s) && GraderEnabled(s, i, act) && !act.Remove?
    requires act.Open? ==> s.status.Some?
    ensures PendingInv(GraderNext(s, i, act))
  {
    if act.Begin? {
      PendingBegin(s, i);
    } else if act.EndGrading? {
      PendingEnd(s, i);
    } else {
      assert GraderOk(s, s.graders[i]);
      var s' := GraderNext(s, i, act);
      PendingMove(s, s', i, s'.graders[i]);
    }
  }

  lemma PendingLess(s: Server, s': Server, i: nat, pc: GraderPc)
    requires |s.req.consumers| == |s.graders| && PendingInv(s)
    requires i < |s.graders| && !s.graders[i].Idle? && OnlyHolder(s, i)
    requires !pc.Idle? && pc.id == s.graders[i].id && Settled(pc) && (pc.Updating? ==> !pc.st.Queued?)
    requires s.req.entered[pc.id] == 1
    requires s'.graders == s.graders[i := pc] && s'.req == s.req
    requires s'.pending == s.pending - {pc.id}
    requires s'.missed == s.missed || s'.missed == s.missed + {pc.id}
    ensures PendingInv(s')
  {
    forall k | 0 <= k < |s'.graders|
      ensures GraderOk(s', s'.graders[k])
    {
      assert GraderOk(s, s.graders[k]);
    }
  }

  /** After its last update the worker's id is no longer pending, and nobody else's was. */
  lemma PendingRemove(s: Server, i: nat)
    requires ShapeInv(s) && PendingInv(s) && GraderEnabled(s, i, Remove) && OnlyHolder(s, i)
    requires s.req.entered[s.graders[i].id] == 1
    ensures PendingInv(GraderNext(s, i, Remove))
    ensures s.graders[i].id in s.pending
    ensures forall x :: x in GraderNext(s, i, Remove).pending
                   <==> x in s.pending && (x == s.graders[i].id ==> s.graders[i].st.Grading?)
  {
    var s', pc := GraderNext(s, i, Remove), s.graders[i];
    assert GraderOk(s, pc);
    if Unfinished(pc.st) {
      PendingMove(s, s', i, s'.graders[i]);
    } else {
      PendingLess(s, s', i, s'.graders[i]);
    }
  }

  /** The table as the removal by worker `i` leaves it, id by id. */
  ghost predicate RemoveShows(s: Server, i: nat)
    requires GraderEnabled(s, i, Remove)
  {
    forall x :: StatusOf(GraderNext(s, i, Remove), x)
             == if x == s.graders[i].id && StatusOf(s, x).Some? then Some(s.graders[i].st) else StatusOf(s, x)
  }

  lemma RemoveShown(s: Server, i: nat)
    requires ShapeInv(s) && FileLockInv(s) && TableInv(s) && s.up && GraderEnabled(s, i, Remove)
    ensures RemoveShows(s, i)
  {
    TableGrade(s, i, Remove);
    forall x {
      LookupAfterReplace(View(s), s.graders[i].id, s.graders[i].st, x);
    }
  }

  lemma IssuedRemove(s: Server, i: nat)
    requires IssuedInv(s) && GraderEnabled(s, i, Remove) && RemoveShows(s, i)
    ensures IssuedInv(GraderNext(s, i, Remove))
  {
  }

  lemma StatusRemove(s: Server, i: nat)
    requires StatusInv(s) && PendingInv(s) && GraderEnabled(s, i, Remove) && RemoveShows(s, i)
    ensures StatusInv(GraderNext(s, i, Remove))
  {
    var id := s.graders[i].id;
    assert id in s.pending;
    assert HasRow(s.status.value, id) <==> StatusOf(s, id).Some?;
  }

  lemma NewRemove(s: Server, i: nat)
    requires NewInv(s) && NewIdsInv(s) && GraderEnabled(s, i, Remove) && RemoveShows(s, i)
    ensures NewInv(GraderNext(s, i, Remove)) && NewIdsInv(GraderNext(s, i, Remove))
  {
    var s', id := GraderNext(s, i, Remove), s.graders[i].id;
    assert HasRow(s.status.value, id) <==> StatusOf(s, id).Some?;
    forall k | 0 <= k < |s'.handlers|
      ensures NewOk(s', s'.handlers[k])
    {
      assert NewOk(s, s.handlers[k]);
    }
  }

  lemma IdRemove(s: Server, i: nat)
    requires BaseInv(s) && IdInv(s) && s.up && GraderEnabled(s, i, Remove)
    ensures IdInv(GraderNext(s, i, Remove))
  {
    HeldOnce(s, i);
    PendingRemove(s, i);
    RemoveShown(s, i);
    IssuedRemove(s, i);
    StatusRemove(s, i);
    NewRemove(s, i);
  }

  lemma EnteredSame(s: Server, i: nat, act: GraderAct)
    requires GraderEnabled(s, i, act)
    ensures GraderNext(s, i, act).req.entered == s.req.entered
  {
  }

  lemma IdGrade(s: Server, i: nat, act: GraderAct)
    requires BaseInv(s) && IdInv(s) && s.up && GraderEnabled(s, i, act)
    ensures IdInv(GraderNext(s, i, act))
  {
    if act.Remove? {
      IdRemove(s, i);
    } else {
      PendingGrade(s, i, act);
      TableGrade(s, i, act);
      GraderLeaves(s, i, act);
      EnteredSame(s, i, act);
      SameView(s, GraderNext(s, i, act));
    }
  }

  // ----------------------------------------------------------- handler actions

  /** A worker's id has entered the request queue, so it is not one that is about to. */
  lemma HeldEntered(s: Server)
    requires Pool.Conserved(s.req) && ShapeInv(s) && IssuedInv(s)
    ensures forall i :: 0 <= i < |s.graders| && !s.graders[i].Idle? ==> s.req.entered[s.graders[i].id] == 1
    ensures forall x :: s.req.entered[x] == 0 ==> s.req.finished[x] == 0
  {
    forall i | 0 <= i < |s.graders| && !s.graders[i].Idle?
      ensures s.req.entered[s.graders[i].id] == 1
    {
      HeldOnce(s, i);
    }
    forall x | s.req.entered[x] == 0
      ensures s.req.finished[x] == 0
    {
      assert Pool.Live(s.req, x) + s.req.finished[x] == s.req.entered[x];
    }
  }

  lemma PendingConfirm(s: Server, j: nat)
    requires ShapeInv(s) && PendingInv(s) && NewInv(s) && HandlerEnabled(s, j, Confirm(true))
    requires forall i :: 0 <= i < |s.graders| && !s.graders[i].Idle? ==> s.req.entered[s.graders[i].id] == 1
    requires forall x :: s.req.entered[x] == 0 ==> s.req.finished[x] == 0
    ensures PendingInv(HandlerNext(s, j, Confirm(true)))
  {
    var s', id := HandlerNext(s, j, Confirm(true)), s.handlers[j].id;
    assert NewOk(s, s.handlers[j]);
    assert s.req.entered[id] == 0;
    forall k | 0 <= k < |s'.graders|
      ensures GraderOk(s', s'.graders[k])
    {
      assert GraderOk(s, s.graders[k]);
    }
  }

  lemma PendingHandle(s: Server, j: nat, task: HandlerAct)
    requires ShapeInv(s) && PendingInv(s) && NewInv(s) && HandlerEnabled(s, j, task)
    requires forall i :: 0 <= i < |s.graders| && !s.graders[i].Idle? ==> s.req.entered[s.graders[i].id] == 1
    requires forall x :: s.req.entered[x] == 0 ==> s.req.finished[x] == 0
    ensures PendingInv(HandlerNext(s, j, task))
  {
    if task == Confirm(true) {
      PendingConfirm(s, j);
    } else {
      PendingSame(s, HandlerNext(s, j, task));
    }
  }

  /** An action other than Append leaves the table as it is. */
  ghost predicate SameStatuses(s: Server, s': Server) {
    forall x :: StatusOf(s', x) == StatusOf(s, x)
  }

  lemma IssuedHandle(s: Server, j: nat, task: HandlerAct)
    requires IssuedInv(s) && NewInv(s) && NewIdsInv(s) && HandlerEnabled(s, j, task)
    requires SameStatuses(s, HandlerNext(s, j, task))
    ensures IssuedInv(HandlerNext(s, j, task))
  {
  }

  lemma StatusHandle(s: Server, j: nat, task: HandlerAct)
    requires StatusInv(s) && NewInv(s) && HandlerEnabled(s, j, task)
    requires SameStatuses(s, HandlerNext(s, j, task))
    ensures StatusInv(HandlerNext(s, j, task))
  {
  }

  lemma NewIdsMove(s: Server, s': Server, j: nat, pc: HandlerPc)
    requires NewIdsInv(s) && j < |s.handlers|
    requires s'.handlers == s.handlers[j := pc] && s.issued <= s'.issued
    requires IsNew(pc) ==> if IsNew(s.handlers[j]) then pc.id == s.handlers[j].id
                           else pc.id !in s.issued && pc.id in s'.issued
    ensures NewIdsInv(s')
  {
  }

  lemma NewIdsHandle(s: Server, j: nat, task: HandlerAct)
    requires NewIdsInv(s) && HandlerEnabled(s, j, task)
    ensures NewIdsInv(HandlerNext(s, j, task))
  {
    var s' := HandlerNext(s, j, task);
    NewIdsMove(s, s', j, s'.handlers[j]);
  }

  lemma NewMove(s: Server, s': Server, j: nat, pc: HandlerPc)
    requires NewInv(s) && NewIdsInv(s) && j < |s.handlers|
    requires s'.handlers == s.handlers[j := pc] && NewOk(s', pc) && SameStatuses(s, s')
    requires s.pending <= s'.pending && s'.missed == s.missed
    requires forall x :: s'.req.entered[x] == s.req.entered[x] || (IsNew(s.handlers[j]) && x == s.handlers[j].id)
    ensures NewInv(s')
  {
    forall k | 0 <= k < |s'.handlers|
      ensures NewOk(s', s'.handlers[k])
    {
      assert NewOk(s, s.handlers[k]);
    }
  }

  lemma NewOkMove(s: Server, s': Server, pc: HandlerPc, pc': HandlerPc)
    requires NewOk(s, pc) && SameStatuses(s, s')
    requires s'.req.entered == s.req.entered && s'.pending == s.pending && s'.missed == s.missed
    requires IsNew(pc') ==> IsNew(pc) && pc'.id == pc.id && IsSubmitted(pc') == IsSubmitted(pc)
    ensures NewOk(s', pc')
  {
  }

  lemma NewOkConfirm(s: Server, j: nat)
    requires NewInv(s) && HandlerEnabled(s, j, Confirm(true))
    requires SameStatuses(s, HandlerNext(s, j, Confirm(true)))
    ensures NewOk(HandlerNext(s, j, Confirm(true)), Submitting(s.handlers[j].id))
  {
    assert NewOk(s, s.handlers[j]);
  }

  /** The program counter that an action leaves its handler. */
  lemma NewOkHandle(s: Server, j: nat, task: HandlerAct)
    requires IssuedInv(s) && NewInv(s) && HandlerEnabled(s, j, task)
    requires SameStatuses(s, HandlerNext(s, j, task))
    ensures NewOk(HandlerNext(s, j, task), HandlerNext(s, j, task).handlers[j])
  {
    var s' := HandlerNext(s, j, task);
    if task.StartUpload? {
      assert StatusOf(s, task.id).None? && s.req.entered[task.id] == 0;
    } else if task == Confirm(true) {
      NewOkConfirm(s, j);
    } else {
      NewOkMove(s, s', s.handlers[j], s'.handlers[j]);
    }
  }

  lemma NewHandle(s: Server, j: nat, task: HandlerAct)
    requires IssuedInv(s) && NewInv(s) && NewIdsInv(s) && HandlerEnabled(s, j, task)
    requires SameStatuses(s, HandlerNext(s, j, task))
    ensures NewInv(HandlerNext(s, j, task))
  {
    var s' := HandlerNext(s, j, task);
    NewOkHandle(s, j, task);
    NewMove(s, s', j, s'.handlers[j]);
  }

  /** The table as the append by handler `j` leaves it, id by id. */
  ghost predicate AppendShows(s: Server, j: nat)
    requires HandlerEnabled(s, j, Append)
  {
    forall x :: StatusOf(HandlerNext(s, j, Append), x)
             == if x == s.handlers[j].id then Some(Queued) else StatusOf(s, x)
  }

  lemma AppendShown(s: Server, j: nat)
    requires ShapeInv(s) && FileLockInv(s) && TableInv(s) && s.up && HandlerEnabled(s, j, Append)
    requires StatusOf(s, s.handlers[j].id).None?
    ensures AppendShows(s, j)
  {
    TableHandle(s, j, Append);
    forall x {
      LookupAfterAppend(View(s), Row(s.handlers[j].id, Queued), x);
    }
  }

  lemma IdAppend(s: Server, j: nat)
    requires IssuedInv(s) && StatusInv(s) && NewInv(s) && NewIdsInv(s)
    requires HandlerEnabled(s, j, Append) && AppendShows(s, j)
    ensures IssuedInv(HandlerNext(s, j, Append))
    ensures StatusInv(HandlerNext(s, j, Append))
    ensures NewInv(HandlerNext(s, j, Append))
  {
  }

  lemma IdHandle(s: Server, j: nat, task: HandlerAct)
    requires BaseInv(s) && IdInv(s) && s.up && HandlerEnabled(s, j, task)
    ensures IdInv(HandlerNext(s, j, task))
  {
    HeldEntered(s);
    PendingHandle(s, j, task);
    NewIdsHandle(s, j, task);
    TableHandle(s, j, task);
    if task.Append? {
      AppendShown(s, j);
      IdAppend(s, j);
    } else {
      IssuedHandle(s, j, task);
      StatusHandle(s, j, task);
      NewHandle(s, j, task);
    }
  }
}
