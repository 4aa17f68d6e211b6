/** What the per-request files hold, in every reachable state. */
module ServerReports {
  import opened Wrappers
  import opened StatusTable
  import opened Names
  import opened GradingServer
  import opened ServerInvariants
  import opened ServerIds

  /** The files that the three commands of a grading write are the files whose names are disjoint
      from those of any other grading. */
  lemma OutputsAreGradingFiles(id: int)
    ensures GradingFiles(id) == set stage: Stage, kind: Kind | kind in Outputs(stage) :: Name(kind, id)
  {
    var written := set stage: Stage, kind: Kind | kind in Outputs(stage) :: Name(kind, id);
    forall name | name in GradingFiles(id)
      ensures name in written
    {
      var kind: Kind :| kind != Program && name == Name(kind, id);
      var stage := match kind
                   case CompileReport => Compile
                   case Exec => Compile
                   case DiffReport => Check
                   case _ => Run;
      assert kind in Outputs(stage);
    }
  }

  predicate FileIs(s: Server, kind: Kind, id: int, content: Content) {
    (kind, id) in s.files && s.files[(kind, id)] == content
  }

  /** A recorded verdict has its report: the complete output of the stage that gave it, from
      the run that recorded it. */
  predicate Backed(s: Server, x: int) {
    StatusOf(s, x).Some? && !Unfinished(StatusOf(s, x).value) ==>
      && x in s.graded
      && FileIs(s, ReportOf(StatusOf(s, x).value), x, Written(s.graded[x], StatusOf(s, x).value.Passed?))
  }

  /** A worker about to record a verdict has the report for it; one past a stage works with
      that stage's complete output, from its own run. */
  predicate RunOk(s: Server, pc: GraderPc) {
    && ((pc.WantFile? || (pc.Updating? && !Settled(pc))) && !Unfinished(pc.st) ==>
          FileIs(s, ReportOf(pc.st), pc.id, Written(pc.run, pc.st.Passed?)))
    && ((pc.Ready? || pc.Executing?) && !pc.stage.Compile? ==> FileIs(s, Exec, pc.id, Written(pc.run, true)))
    && ((pc.Ready? || pc.Executing?) && pc.stage.Check? ==> FileIs(s, Output, pc.id, Written(pc.run, true)))
  }

  ghost predicate BackedInv(s: Server) {
    forall x :: Backed(s, x)
  }

  ghost predicate RunInv(s: Server) {
    forall i :: 0 <= i < |s.graders| ==> RunOk(s, s.graders[i])
  }

  /** The source file of a request is complete before anyone can grade it. */
  ghost predicate SourceInv(s: Server) {
    && (forall x :: s.req.entered[x] > 0 || StatusOf(s, x).Some? ==> FileIs(s, Program, x, Uploaded))
    && (forall j :: 0 <= j < |s.handlers| && s.handlers[j].Confirming? ==>
          FileIs(s, Program, s.handlers[j].id, Uploaded))
  }

  ghost predicate ReportInv(s: Server) {
    BackedInv(s) && RunInv(s) && SourceInv(s)
  }

  /** Only files of these kinds and of this id differ. */
  ghost predicate OnlyWrites(s: Server, s': Server, kinds: set<Kind>, id: int) {
    forall k: Kind, x: int :: k !in kinds || x != id ==>
      ((k, x) in s.files <==> (k, x) in s'.files) && ((k, x) in s.files ==> s.files[(k, x)] == s'.files[(k, x)])
  }

  lemma WriteOnly(s: Server, s': Server, kinds: set<Kind>, id: int, content: Content)
    requires s'.files == Write(s.files, kinds, id, content)
    ensures OnlyWrites(s, s', kinds, id)
    ensures forall k :: k in kinds ==> FileIs(s', k, id, content)
  {
  }

  // ------------------------------------------------------------ worker actions

  /** The files of an id that is pending back no verdict. */
  lemma BackedWrite(s: Server, s': Server, kinds: set<Kind>, id: int)
    requires BackedInv(s) && StatusInv(s) && id in s.pending
    requires OnlyWrites(s, s', kinds, id) && SameStatuses(s, s') && s'.graded == s.graded
    ensures BackedInv(s')
  {
    forall x
      ensures Backed(s', x)
    {
      assert Backed(s, x);
      assert StatusOf(s', x) == StatusOf(s, x);
    }
  }

  lemma RunWrite(s: Server, s': Server, kinds: set<Kind>, i: nat, pc: GraderPc)
    requires RunInv(s) && i < |s.graders| == |s.req.consumers| && !s.graders[i].Idle? && OnlyHolder(s, i)
    requires OnlyWrites(s, s', kinds, s.graders[i].id) && s'.graders == s.graders[i := pc]
    requires RunOk(s', pc)
    ensures RunInv(s')
  {
    forall k | 0 <= k < |s'.graders|
      ensures RunOk(s', s'.graders[k])
    {
      assert RunOk(s, s.graders[k]);
    }
  }

  lemma SourceWrite(s: Server, s': Server, kinds: set<Kind>, id: int)
    requires SourceInv(s) && Program !in kinds
    requires OnlyWrites(s, s', kinds, id) && SameStatuses(s, s')
    requires s'.req.entered == s.req.entered && s'.handlers == s.handlers
    ensures SourceInv(s')
  {
    assert forall x :: StatusOf(s', x) == StatusOf(s, x);
  }

  lemma RunOkLaunch(s: Server, s': Server, pc: GraderPc)
    requires pc.Ready? && RunOk(s, pc) && OnlyWrites(s, s', Outputs(pc.stage), pc.id)
    ensures RunOk(s', Executing(pc.id, pc.run, pc.stage))
  {
  }

  lemma RunOkExit(s: Server, s': Server, pc: GraderPc, ok: bool)
    requires pc.Executing? && RunOk(s, pc) && OnlyWrites(s, s', Outputs(pc.stage), pc.id)
    requires forall k :: k in Outputs(pc.stage) ==> FileIs(s', k, pc.id, Written(pc.run, ok))
    ensures RunOk(s', AfterExit(pc, ok))
  {
    assert ReportOf(Verdict(pc.stage)) in Outputs(pc.stage);
    if pc.stage.Compile? {
      assert Exec in Outputs(pc.stage);
    } else if pc.stage.Run? {
      assert Output in Outputs(pc.stage);
    } else {
      assert DiffReport in Outputs(pc.stage);
    }
  }

  /** The start and the end of a command write that command's files and no others. */
  lemma ReportCommand(s: Server, i: nat, act: GraderAct)
    requires ReportInv(s) && StatusInv(s) && PendingInv(s) && GraderEnabled(s, i, act)
    requires act.Launch? || act.Exit?
    requires |s.graders| == |s.req.consumers| && OnlyHolder(s, i) && SameStatuses(s, GraderNext(s, i, act))
    ensures ReportInv(GraderNext(s, i, act))
    ensures OnlyWrites(s, GraderNext(s, i, act), Outputs(s.graders[i].stage), s.graders[i].id)
    ensures StatusOf(s, s.graders[i].id).Some? ==> Unfinished(StatusOf(s, s.graders[i].id).value)
  {
    var s', pc := GraderNext(s, i, act), s.graders[i];
    var kinds := Outputs(pc.stage);
    assert RunOk(s, pc);
    assert GraderOk(s, pc);
    WriteOnly(s, s', kinds, pc.id, if act.Launch? then Partial else Written(pc.run, act.ok));
    BackedWrite(s, s', kinds, pc.id);
    SourceWrite(s, s', kinds, pc.id);
    if act.Launch? {
      RunOkLaunch(s, s', pc);
    } else {
      RunOkExit(s, s', pc, act.ok);
    }
    RunWrite(s, s', kinds, i, s'.graders[i]);
  }

  lemma RunMove(s: Server, s': Server, i: nat, pc: GraderPc)
    requires RunInv(s) && i < |s.graders| && RunOk(s', pc)
    requires s'.graders == s.graders[i := pc] && s'.files == s.files
    ensures RunInv(s')
  {
    forall k | 0 <= k < |s'.graders|
      ensures RunOk(s', s'.graders[k])
    {
      assert RunOk(s, s.graders[k]);
    }
  }

  lemma BackedSame(s: Server, s': Server)
    requires BackedInv(s) && SameStatuses(s, s') && s'.files == s.files && s'.graded == s.graded
    ensures BackedInv(s')
  {
    forall x
      ensures Backed(s', x)
    {
      assert Backed(s, x);
      assert StatusOf(s', x) == StatusOf(s, x);
    }
  }

  lemma SourceSame(s: Server, s': Server)
    requires SourceInv(s) && SameStatuses(s, s') && s'.files == s.files
    requires s'.req.entered == s.req.entered && s'.handlers == s.handlers
    ensures SourceInv(s')
  {
    assert forall x :: StatusOf(s', x) == StatusOf(s, x);
  }

  /** The verdict that a removal records is backed by the worker's report. */
  lemma BackedRemove(s: Server, i: nat)
    requires BackedInv(s) && GraderEnabled(s, i, Remove) && RemoveShows(s, i) && RunOk(s, s.graders[i])
    ensures BackedInv(GraderNext(s, i, Remove))
  {
    var s', pc := GraderNext(s, i, Remove), s.graders[i];
    assert HasRow(s.status.value, pc.id) <==> StatusOf(s, pc.id).Some?;
    forall x
      ensures Backed(s', x)
    {
      assert Backed(s, x);
      assert StatusOf(s', x) == if x == pc.id && StatusOf(s, x).Some? then Some(pc.st) else StatusOf(s, x);
    }
  }

  lemma SourceRemove(s: Server, i: nat)
    requires SourceInv(s) && GraderEnabled(s, i, Remove) && RemoveShows(s, i)
    ensures SourceInv(GraderNext(s, i, Remove))
  {
    var s' := GraderNext(s, i, Remove);
    assert s'.files == s.files && s'.handlers == s.handlers && s'.req == s.req;
    forall x | s'.req.entered[x] > 0 || StatusOf(s', x).Some?
      ensures FileIs(s', Program, x, Uploaded)
    {
      assert StatusOf(s', x).Some? ==> StatusOf(s, x).Some?;
      assert FileIs(s, Program, x, Uploaded);
    }
  }

  lemma RunRemove(s: Server, i: nat)
    requires RunInv(s) && GraderEnabled(s, i, Remove)
    ensures RunInv(GraderNext(s, i, Remove))
  {
    var s' := GraderNext(s, i, Remove);
    assert RunOk(s, s.graders[i]);
    RunMove(s, s', i, s'.graders[i]);
  }

  lemma ReportRemove(s: Server, i: nat)
    requires ReportInv(s) && GraderEnabled(s, i, Remove) && RemoveShows(s, i)
    ensures ReportInv(GraderNext(s, i, Remove))
  {
    assert RunOk(s, s.graders[i]);
    BackedRemove(s, i);
    SourceRemove(s, i);
    RunRemove(s, i);
  }

  lemma ReportMove(s: Server, i: nat, act: GraderAct)
    requires ReportInv(s) && GraderEnabled(s, i, act) && !act.Remove? && !act.Launch? && !act.Exit?
    requires SameStatuses(s, GraderNext(s, i, act))
    ensures ReportInv(GraderNext(s, i, act))
  {
    var s' := GraderNext(s, i, act);
    assert RunOk(s, s.graders[i]);
    RunMove(s, s', i, s'.graders[i]);
    BackedSame(s, s');
    SourceSame(s, s');
  }

  lemma ReportGrade(s: Server, i: nat, act: GraderAct)
    requires BaseInv(s) && IdInv(s) && ReportInv(s) && s.up && GraderEnabled(s, i, act)
    ensures ReportInv(GraderNext(s, i, act))
  {
    if act.Launch? || act.Exit? {
      HeldOnce(s, i);
      TableGrade(s, i, act);
      ReportCommand(s, i, act);
    } else if act.Remove? {
      RemoveShown(s, i);
      ReportRemove(s, i);
    } else {
      TableGrade(s, i, act);
      ReportMove(s, i, act);
    }
  }

  // ----------------------------------------------------------- handler actions

  /** A source file is no report. */
  lemma ProgramWrite(s: Server, s': Server, id: int)
    requires BackedInv(s) && RunInv(s) && OnlyWrites(s, s', {Program}, id) && SameStatuses(s, s')
    requires s'.graded == s.graded && s'.graders == s.graders
    ensures BackedInv(s') && RunInv(s')
  {
    forall x
      ensures Backed(s', x)
    {
      assert Backed(s, x);
      assert StatusOf(s', x) == StatusOf(s, x);
    }
    forall k | 0 <= k < |s'.graders|
      ensures RunOk(s', s'.graders[k])
    {
      assert RunOk(s, s.graders[k]);
    }
  }

  lemma SourceStart(s: Server, j: nat, id: int)
    requires SourceInv(s) && IssuedInv(s) && NewIdsInv(s) && HandlerEnabled(s, j, StartUpload(id))
    requires SameStatuses(s, HandlerNext(s, j, StartUpload(id)))
    ensures SourceInv(HandlerNext(s, j, StartUpload(id)))
  {
    var s' := HandlerNext(s, j, StartUpload(id));
    assert forall x :: StatusOf(s', x) == StatusOf(s, x);
  }

  lemma SourceEnd(s: Server, j: nat, ok: bool)
    requires SourceInv(s) && HandlerEnabled(s, j, EndUpload(ok))
    requires SameStatuses(s, HandlerNext(s, j, EndUpload(ok)))
    ensures SourceInv(HandlerNext(s, j, EndUpload(ok)))
  {
    var s' := HandlerNext(s, j, EndUpload(ok));
    assert forall x :: StatusOf(s', x) == StatusOf(s, x);
  }

  lemma SourceConfirm(s: Server, j: nat)
    requires SourceInv(s) && HandlerEnabled(s, j, Confirm(true))
    requires SameStatuses(s, HandlerNext(s, j, Confirm(true)))
    ensures SourceInv(HandlerNext(s, j, Confirm(true)))
  {
    var s' := HandlerNext(s, j, Confirm(true));
    assert forall x :: StatusOf(s', x) == StatusOf(s, x);
  }

  lemma SourceAppend(s: Server, j: nat)
    requires SourceInv(s) && NewInv(s) && HandlerEnabled(s, j, Append) && AppendShows(s, j)
    ensures SourceInv(HandlerNext(s, j, Append))
  {
    assert NewOk(s, s.handlers[j]);
    var s' := HandlerNext(s, j, Append);
    assert forall x :: StatusOf(s', x) == if x == s.handlers[j].id then Some(Queued) else StatusOf(s, x);
  }

  lemma BackedAppend(s: Server, j: nat)
    requires BackedInv(s) && HandlerEnabled(s, j, Append) && AppendShows(s, j)
    ensures BackedInv(HandlerNext(s, j, Append))
  {
    var s' := HandlerNext(s, j, Append);
    forall x
      ensures Backed(s', x)
    {
      assert Backed(s, x);
      assert StatusOf(s', x) == if x == s.handlers[j].id then Some(Queued) else StatusOf(s, x);
    }
  }

  lemma RunSame(s: Server, s': Server)
    requires RunInv(s) && s'.graders == s.graders && s'.files == s.files
    ensures RunInv(s')
  {
    forall k | 0 <= k < |s'.graders|
      ensures RunOk(s', s'.graders[k])
    {
      assert RunOk(s, s.graders[k]);
    }
  }

  /** The other actions of a handler touch none of these files. */
  lemma SourceMove(s: Server, s': Server, j: nat, pc: HandlerPc)
    requires SourceInv(s) && j < |s.handlers| && s'.handlers == s.handlers[j := pc] && !pc.Confirming?
    requires SameStatuses(s, s') && s'.files == s.files && s'.req.entered == s.req.entered
    ensures SourceInv(s')
  {
    assert forall x :: StatusOf(s', x) == StatusOf(s, x);
  }

  lemma ReportUpload(s: Server, j: nat, task: HandlerAct)
    requires IdInv(s) && ReportInv(s) && HandlerEnabled(s, j, task) && (task.StartUpload? || task.EndUpload?)
    requires SameStatuses(s, HandlerNext(s, j, task))
    ensures ReportInv(HandlerNext(s, j, task))
  {
    var s' := HandlerNext(s, j, task);
    if task.StartUpload? {
      ProgramWrite(s, s', task.id);
      SourceStart(s, j, task.id);
    } else {
      ProgramWrite(s, s', s.handlers[j].id);
      SourceEnd(s, j, task.ok);
    }
  }

  lemma ReportTalk(s: Server, j: nat, task: HandlerAct)
    requires ReportInv(s) && HandlerEnabled(s, j, task) && !task.StartUpload? && !task.EndUpload? && !task.Append?
    requires SameStatuses(s, HandlerNext(s, j, task))
    ensures ReportInv(HandlerNext(s, j, task))
  {
    var s' := HandlerNext(s, j, task);
    BackedSame(s, s');
    RunSame(s, s');
    if task == Confirm(true) {
      SourceConfirm(s, j);
    } else {
      SourceMove(s, s', j, s'.handlers[j]);
    }
  }

  lemma ReportHandle(s: Server, j: nat, task: HandlerAct)
    requires BaseInv(s) && IdInv(s) && ReportInv(s) && s.up && HandlerEnabled(s, j, task)
    ensures ReportInv(HandlerNext(s, j, task))
  {
    if task.Append? {
      assert NewOk(s, s.handlers[j]);
      AppendShown(s, j);
      BackedAppend(s, j);
      RunSame(s, HandlerNext(s, j, task));
      SourceAppend(s, j);
    } else {
      TableHandle(s, j, task);
      if task.StartUpload? || task.EndUpload? {
        ReportUpload(s, j, task);
      } else {
        ReportTalk(s, j, task);
      }
    }
  }
}
