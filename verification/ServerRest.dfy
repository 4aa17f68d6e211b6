/** Where the grading server comes to rest: what is left undone when no thread can do anything but
    accept a client or wake up for nothing. */
module ServerRest {
  import opened Wrappers
  import opened StatusTable
  import Pool
  import opened GradingServer
  import opened ServerInvariants
  import opened ServerSafety
  import opened ServerTheorems
  import opened ServerLocks

  /** The steps that a server at rest can take: a client connects, a thread wakes up for nothing, or
      the server crashes. */
  predicate IsIdleStep(e: Step) {
    || e.Crash?
    || (e.CliStep? && (e.e.Enter? || e.e.WakeSpuriously?))
    || (e.ReqStep? && e.e.WakeSpuriously?)
  }

  ghost predicate AtRest(s: Server) {
    forall e :: Enabled(s, e) ==> IsIdleStep(e)
  }

  lemma QueueStepIsReal(pe: Pool.Step)
    requires !pe.WakeSpuriously? && !pe.Enter?
    ensures !IsIdleStep(OnReq(pe)) && !IsIdleStep(OnCli(pe))
  {
  }

  lemma RequestOwnerActs(s: Server) returns (e: Step)
    requires Inv(s) && s.up && s.req.owner.Some?
    ensures Enabled(s, e) && !IsIdleStep(e)
  {
    var pe := ReqOwnerGoesOn(s);
    QueueStepIsReal(pe);
    e := OnReq(pe);
  }

  lemma ClientOwnerActs(s: Server) returns (e: Step)
    requires Inv(s) && s.up && s.cli.owner.Some?
    ensures Enabled(s, e) && !IsIdleStep(e)
  {
    var pe := CliOwnerGoesOn(s);
    QueueStepIsReal(pe);
    e := OnCli(pe);
  }

  lemma NoLockOwned(s: Server)
    requires Inv(s) && s.up && AtRest(s)
    ensures s.fileOwner.None? && s.req.owner.None? && s.cli.owner.None?
  {
    var e: Step;
    if s.fileOwner.Some? {
      e := FileOwnerGoesOn(s);
      assert false;
    } else if s.req.owner.Some? {
      e := RequestOwnerActs(s);
      assert false;
    } else if s.cli.owner.Some? {
      e := ClientOwnerActs(s);
      assert false;
    }
  }

  lemma GraderIdle(s: Server, i: nat)
    requires ShapeInv(s) && FileLockInv(s) && s.up && AtRest(s) && s.fileOwner.None? && i < |s.graders|
    ensures s.graders[i].Idle?
  {
    assert GraderAgrees(s.req.consumers[i], s.graders[i]);
    assert !Enabled(s, Grade(i, LockForUpdate));
    assert !Enabled(s, Grade(i, Launch));
    assert !Enabled(s, Grade(i, Exit(true)));
    assert !Enabled(s, Grade(i, EndGrading));
  }

  /** A handler that is enqueueing a request goes on too, when the lock is free. */
  lemma NobodySubmits(s: Server, j: nat)
    requires ShapeInv(s) && Pool.LockInv(s.req) && s.up && AtRest(s) && s.req.owner.None? && j < |s.handlers|
    ensures !s.handlers[j].Submitting?
  {
    assert SubmitAgrees(s.req.producers[j], s.handlers[j]);
    assert !Enabled(s, ReqStep(Pool.LockToEnqueue(j)));
  }

  lemma HandlerFree(s: Server, j: nat)
    requires ShapeInv(s) && FileLockInv(s) && s.up && AtRest(s) && s.fileOwner.None? && j < |s.handlers|
    requires !s.handlers[j].Submitting?
    ensures s.handlers[j].Free?
  {
    assert HandlerAgrees(s.cli.consumers[j], s.handlers[j]);
    assert !Enabled(s, Handle(j, Reject));
    assert !Enabled(s, Handle(j, EndUpload(false)));
    assert !Enabled(s, Handle(j, Confirm(false)));
    assert !Enabled(s, Handle(j, Reply(false)));
    assert !Enabled(s, Handle(j, LockForAppend));
    assert !Enabled(s, Handle(j, LockForRead));
    assert !Enabled(s, Handle(j, Answer));
    assert !Enabled(s, Handle(j, Close));
  }

  lemma ReqStepIdle(s: Server, pe: Pool.Step)
    requires s.up && AtRest(s) && OnlyReq(pe) && Pool.Enabled(s.req, pe)
    ensures pe.WakeSpuriously?
  {
    assert Enabled(s, ReqStep(pe));
  }

  lemma CliStepIdle(s: Server, pe: Pool.Step)
    requires s.up && AtRest(s) && OnlyCli(pe) && !pe.Enter? && Pool.Enabled(s.cli, pe)
    ensures pe.WakeSpuriously?
  {
    assert Enabled(s, CliStep(pe));
  }

  lemma ReqAtRest(s: Server)
    requires ShapeInv(s) && Pool.LockInv(s.req) && s.up && AtRest(s) && s.req.owner.None?
    requires forall i :: 0 <= i < |s.graders| ==> s.graders[i].Idle?
    ensures Pool.AtRest(s.req)
  {
    forall pe | Pool.Enabled(s.req, pe)
      ensures pe.Enter? || pe.WakeSpuriously?
    {
      if OnlyReq(pe) {
        ReqStepIdle(s, pe);
      }
    }
  }

  lemma CliAtRest(s: Server)
    requires ShapeInv(s) && Pool.LockInv(s.cli) && s.up && AtRest(s) && s.cli.owner.None?
    requires forall j :: 0 <= j < |s.handlers| ==> s.handlers[j].Free?
    ensures Pool.AtRest(s.cli)
  {
    forall pe | Pool.Enabled(s.cli, pe)
      ensures pe.Enter? || pe.WakeSpuriously?
    {
      if OnlyCli(pe) && !pe.Enter? {
        CliStepIdle(s, pe);
      }
    }
  }

  /** The threads and the queues of a server at rest. */
  lemma RestIsEmpty(s: Server)
    requires Inv(s) && s.up && AtRest(s) && |s.graders| > 0 && |s.handlers| > 0
    ensures forall i :: 0 <= i < |s.graders| ==> s.graders[i].Idle?
    ensures forall j :: 0 <= j < |s.handlers| ==> s.handlers[j].Free?
    ensures s.req.queue == [] && s.cli.queue == []
    ensures forall x :: Pool.Live(s.req, x) == 0 && Pool.Live(s.cli, x) == 0
  {
    NoLockOwned(s);
    forall i | 0 <= i < |s.graders| {
      GraderIdle(s, i);
    }
    forall j | 0 <= j < |s.handlers|
      ensures s.handlers[j].Free?
    {
      NobodySubmits(s, j);
      HandlerFree(s, j);
    }
    ReqAtRest(s);
    Pool.RestIsEmpty(s.req);
    CliAtRest(s);
    Pool.RestIsEmpty(s.cli);
  }

  /** Nobody is responsible for a request that is in no place. */
  lemma NobodyResponsible(s: Server, x: int)
    requires Inv(s) && Pool.Live(s.req, x) == 0
    ensures !Responsible(s, x)
  {
    PendingIff(s, x);
    assert Pool.Live(s.req, x) + s.req.finished[x] == s.req.entered[x];
  }

  /** A running server with workers and handlers comes to rest only when it has served and closed
      every connection and graded every request that has a row, except for those whose row its
      worker overtook: they are left at "0". */
  lemma RestMeansGraded(s: Server, c: int, x: int)
    requires Reachable(s) && s.up && AtRest(s) && |s.graders| > 0 && |s.handlers| > 0
    ensures s.req.queue == [] && s.cli.queue == []
    ensures Pool.Live(s.cli, c) == 0 && s.cli.finished[c] == s.cli.entered[c]
    ensures StatusOf(s, x).Some? ==> IsGraded(StatusOf(s, x)) || (x in s.missed && StatusOf(s, x) == Some(Queued))
  {
    ReachableInv(s);
    RestIsEmpty(s);
    assert Pool.Live(s.req, x) == 0 && Pool.Live(s.cli, c) == 0;
    assert Pool.Live(s.cli, c) + s.cli.finished[c] == s.cli.entered[c];
    NobodyResponsible(s, x);
    if StatusOf(s, x).Some? {
      EveryRowAccountedFor(s, x);
    }
  }
}
