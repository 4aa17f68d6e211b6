/** The grading server, v4/server/server.c, as a machine whose steps are the atomic actions of
    its threads: N grading workers (handleRequests), N client handlers (handleClients) and the
    accept loop of main, which share two queues and the status file under three mutexes, and
    which a crash can stop at any point. */
module GradingServer {
  import opened Wrappers
  import opened StatusTable
  import opened Names
  import Pool

  // ------------------------------------------------------------------- the state

  /** The three commands of grader. */
  datatype Stage = Compile | Run | Check

  /** The status that a failing stage records. */
  function Verdict(stage: Stage): Status {
    match stage
    case Compile => CompileError
    case Run => RuntimeError
    case Check => WrongOutput
  }

  /** The files a stage writes: the redirection targets of its command, and g++'s output. */
  function Outputs(stage: Stage): set<Kind> {
    match stage
    case Compile => {CompileReport, Exec}
    case Run => {Output, RuntimeReport}
    case Check => {DiffReport}
  }

  /** The file whose contents a status stands for. */
  function ReportOf(st: Status): Kind {
    match st
    case CompileError => CompileReport
    case RuntimeError => RuntimeReport
    case _ => DiffReport
  }

  /** What a per-request file holds: an unfinished write, the client's upload, or the complete
      output of a command of a grading run, with the command's success. */
  datatype Content = Partial | Uploaded | Written(run: nat, ok: bool)

  /** How far updateStatusToFile has got: about to open the files, `k` lines copied, the old
      file removed, or about to return. */
  datatype Phase = Opening | Copying(k: nat) | Removed | Finished

  /** A grading worker between its dequeue and its next loop turn. */
  datatype GraderPc =
    | Idle
    | WantFile(id: int, run: nat, st: Status)
    | Updating(id: int, run: nat, st: Status, phase: Phase)
    | Ready(id: int, run: nat, stage: Stage)
    | Executing(id: int, run: nat, stage: Stage)
    | Done(id: int, run: nat)

  /** A client handler between its dequeue and its next loop turn. */
  datatype HandlerPc =
    | Free
    | Greeting
    | Receiving(id: int)
    | Confirming(id: int)
    | Submitting(id: int)
    | Replying(id: int)
    | WantAppend(id: int)
    | Appending(id: int)
    | Appended(id: int)
    | WantRead(id: int)
    | Reading(id: int)
    | HaveRead(id: int, st: Option<Status>)
    | Answering(id: int, st: Option<Status>)
    | Closing

  datatype FileUser = Grader(i: nat) | Handler(j: nat)

  /** Grading worker `i` is consumer `i` of the request queue; client handler `j` is producer `j`
      of the request queue and consumer `j` of the client queue; the accept loop is producer 0
      of the client queue.

      The last five fields record history: the ids issued so far, the number of grading runs,
      the ids handed to the request queue whose final status update is still to come, the ids
      whose final update found no row to change, and the run that gave each recorded verdict. */
  datatype Server = Server(
    up: bool,
    status: Option<Table>,
    temp: Option<Table>,
    files: map<(Kind, int), Content>,
    fileOwner: Option<FileUser>,
    req: Pool.Pool,
    cli: Pool.Pool,
    graders: seq<GraderPc>,
    handlers: seq<HandlerPc>,
    issued: set<int>,
    runs: nat,
    pending: set<int>,
    missed: set<int>,
    graded: map<int, nat>)

  /** The table on disk: request_status.csv, or temp_status.csv while the former is missing. */
  function View(s: Server): Table {
    if s.status.Some? then s.status.value else if s.temp.Some? then s.temp.value else []
  }

  function StatusOf(s: Server, id: int): Option<Status> {
    Lookup(View(s), id)
  }

  /** A fresh installation: an empty status file, and the server not running. */
  function Initial(): Server {
    Server(false, Some([]), None, map[], None, Pool.Start([], 0, 0), Pool.Start([], 0, 0), [], [],
           {}, 0, {}, {}, map[])
  }

  // ------------------------------------------------------------------- the steps

  /** What a grading worker does next. */
  datatype GraderAct =
    | Begin                 // the unlock after the dequeue
    | LockForUpdate
    | Open
    | CopyLine              // its turn clear of other threads' strtok: see SharedUpdates
    | Remove                // closes the temporary file, removes the old one
    | Rename
    | EndUpdate
    | Launch
    | Exit(ok: bool)
    | EndGrading

  /** What a client handler does next; `ok` is the outcome of a receive or a send. */
  datatype HandlerAct =
    | TakeConnection        // the unlock after the dequeue
    | Reject                // receive error, or a command that is not new or status
    | StartUpload(id: int)
    | EndUpload(ok: bool)
    | Confirm(ok: bool)
    | EndSubmit             // the unlock after enqueue and signal
    | Reply(ok: bool)
    | LockForAppend
    | Append
    | EndAppend
    | StartQuery(id: int)
    | LockForRead
    | Read
    | EndRead
    | Answer
    | Close

  datatype Step =
    | ReqStep(e: Pool.Step) // a queue step that changes nothing else
    | CliStep(e: Pool.Step)
    | Grade(i: nat, act: GraderAct)
    | Handle(j: nat, task: HandlerAct)
    | Crash
    | Restart(n: nat)

  /** The steps on the request queue that are not part of another step. */
  predicate OnlyReq(e: Pool.Step) {
    e.Lock? || e.Sleep? || e.WakeSpuriously? || e.Dequeue? || e.LockToEnqueue? || e.Enqueue? || e.Signal?
  }

  predicate OnlyCli(e: Pool.Step) {
    OnlyReq(e) || e.Enter? || e.UnlockAfterSignal?
  }

  predicate GraderEnabled(s: Server, i: nat, act: GraderAct) {
    && i < |s.graders|
    && var pc := s.graders[i];
       match act
       case Begin => Pool.Enabled(s.req, Pool.Unlock(i))
       case LockForUpdate => pc.WantFile? && s.fileOwner.None?
       case Open => pc.Updating? && pc.phase.Opening?
       case CopyLine => pc.Updating? && pc.phase.Copying? && s.status.Some? && s.temp.Some?
                        && pc.phase.k < |s.status.value|
       case Remove => pc.Updating? && pc.phase.Copying? && s.status.Some? && pc.phase.k == |s.status.value|
       case Rename => pc.Updating? && pc.phase.Removed?
       case EndUpdate => pc.Updating? && pc.phase.Finished?
       case Launch => pc.Ready?
       case Exit(ok) => pc.Executing?
       case EndGrading => pc.Done? && Pool.Enabled(s.req, Pool.Finish(i))
  }

  predicate HandlerEnabled(s: Server, j: nat, task: HandlerAct) {
    && j < |s.handlers|
    && var pc := s.handlers[j];
       match task
       case TakeConnection => Pool.Enabled(s.cli, Pool.Unlock(j))
       case Reject => pc.Greeting?
       case StartUpload(id) => pc.Greeting? && id !in s.issued && 0 <= id <= 999_999_999
       case EndUpload(ok) => pc.Receiving?
       case Confirm(ok) => pc.Confirming? && (ok ==> Pool.Enabled(s.req, Pool.Enter(j, pc.id)))
       case EndSubmit => pc.Submitting? && Pool.Enabled(s.req, Pool.UnlockAfterSignal(j))
       case Reply(ok) => pc.Replying?
       case LockForAppend => pc.WantAppend? && s.fileOwner.None?
       case Append => pc.Appending?
       case EndAppend => pc.Appended?
       case StartQuery(id) => pc.Greeting?
       case LockForRead => pc.WantRead? && s.fileOwner.None?
       case Read => pc.Reading?
       case EndRead => pc.HaveRead?
       case Answer => pc.Answering?
       case Close => pc.Closing? && Pool.Enabled(s.cli, Pool.Finish(j))
  }

  /** Ids are fresh over the whole run, and accept does not return the number of a connection that
      is still open. A server that finds no status file gives up: faultTolerance fails. */
  predicate Enabled(s: Server, e: Step) {
    match e
    case ReqStep(pe) => s.up && OnlyReq(pe) && Pool.Enabled(s.req, pe)
    case CliStep(pe) => s.up && OnlyCli(pe) && Pool.Enabled(s.cli, pe)
                        && (pe.Enter? ==> Pool.Live(s.cli, pe.item) == 0)
    case Grade(i, act) => s.up && GraderEnabled(s, i, act)
    case Handle(j, task) => s.up && HandlerEnabled(s, j, task)
    case Crash => s.up
    case Restart(n) => !s.up && s.status.Some?
  }

  /** The files after `content` is written to the outputs of a stage. */
  function Write(files: map<(Kind, int), Content>, kinds: set<Kind>, id: int, content: Content)
    : map<(Kind, int), Content>
  {
    files + map kind | kind in kinds :: (kind, id) := content
  }

  /** Where the worker goes when a command has ended. */
  function AfterExit(pc: GraderPc, ok: bool): GraderPc
    requires pc.Executing?
  {
    if !ok then WantFile(pc.id, pc.run, Verdict(pc.stage))
    else match pc.stage
         case Compile => Ready(pc.id, pc.run, Run)
         case Run => Ready(pc.id, pc.run, Check)
         case Check => WantFile(pc.id, pc.run, Passed)
  }

  function SetGrader(s: Server, i: nat, pc: GraderPc): Server
    requires i < |s.graders|
  {
    s.(graders := s.graders[i := pc])
  }

  function SetHandler(s: Server, j: nat, pc: HandlerPc): Server
    requires j < |s.handlers|
  {
    s.(handlers := s.handlers[j := pc])
  }

  function GraderNext(s: Server, i: nat, act: GraderAct): Server
    requires GraderEnabled(s, i, act)
  {
    var pc := s.graders[i];
    match act
    case Begin =>
      SetGrader(s, i, WantFile(s.req.consumers[i].item, s.runs, Grading))
        .(req := Pool.Next(s.req, Pool.Unlock(i)), runs := s.runs + 1)
    case LockForUpdate =>
      SetGrader(s, i, Updating(pc.id, pc.run, pc.st, Opening)).(fileOwner := Some(Grader(i)))
    case Open =>
      if s.status.None? then SetGrader(s, i, Updating(pc.id, pc.run, pc.st, Finished))
      else SetGrader(s, i, Updating(pc.id, pc.run, pc.st, Copying(0))).(temp := Some([]))
    case CopyLine =>
      SetGrader(s, i, Updating(pc.id, pc.run, pc.st, Copying(pc.phase.k + 1)))
        .(temp := Some(s.temp.value + [ReplaceRow(s.status.value[pc.phase.k], pc.id, pc.st)]))
    case Remove =>
      var s' := SetGrader(s, i, Updating(pc.id, pc.run, pc.st, Removed)).(status := None);
      if Unfinished(pc.st) then s'
      else if HasRow(s.status.value, pc.id)
      then s'.(pending := s.pending - {pc.id}, graded := s.graded[pc.id := pc.run])
      else s'.(pending := s.pending - {pc.id}, missed := s.missed + {pc.id})
    case Rename =>
      SetGrader(s, i, Updating(pc.id, pc.run, pc.st, Finished)).(status := s.temp, temp := None)
    case EndUpdate =>
      SetGrader(s, i, if pc.st.Grading? then Ready(pc.id, pc.run, Compile) else Done(pc.id, pc.run))
        .(fileOwner := None)
    case Launch =>
      SetGrader(s, i, Executing(pc.id, pc.run, pc.stage))
        .(files := Write(s.files, Outputs(pc.stage), pc.id, Partial))
    case Exit(ok) =>
      SetGrader(s, i, AfterExit(pc, ok))
        .(files := Write(s.files, Outputs(pc.stage), pc.id, Written(pc.run, ok)))
    case EndGrading =>
      SetGrader(s, i, Idle).(req := Pool.Next(s.req, Pool.Finish(i)))
  }

  function HandlerNext(s: Server, j: nat, task: HandlerAct): Server
    requires HandlerEnabled(s, j, task)
  {
    var pc := s.handlers[j];
    match task
    case TakeConnection => SetHandler(s, j, Greeting).(cli := Pool.Next(s.cli, Pool.Unlock(j)))
    case Reject => SetHandler(s, j, Closing)
    case StartUpload(id) =>
      SetHandler(s, j, Receiving(id)).(issued := s.issued + {id}, files := s.files[(Program, id) := Partial])
    case EndUpload(ok) =>
      if ok then SetHandler(s, j, Confirming(pc.id)).(files := s.files[(Program, pc.id) := Uploaded])
      else SetHandler(s, j, Closing)
    case Confirm(ok) =>
      if ok
      then SetHandler(s, j, Submitting(pc.id))
             .(req := Pool.Next(s.req, Pool.Enter(j, pc.id)), pending := s.pending + {pc.id})
      else SetHandler(s, j, Closing)
    case EndSubmit => SetHandler(s, j, Replying(pc.id)).(req := Pool.Next(s.req, Pool.UnlockAfterSignal(j)))
    case Reply(ok) => SetHandler(s, j, if ok then WantAppend(pc.id) else Closing)
    case LockForAppend => SetHandler(s, j, Appending(pc.id)).(fileOwner := Some(Handler(j)))
    case Append =>
      var rows := if s.status.Some? then s.status.value else [];
      SetHandler(s, j, Appended(pc.id)).(status := Some(rows + [Row(pc.id, Queued)]))
    case EndAppend => SetHandler(s, j, Closing).(fileOwner := None)
    case StartQuery(id) => SetHandler(s, j, WantRead(id))
    case LockForRead => SetHandler(s, j, Reading(pc.id)).(fileOwner := Some(Handler(j)))
    case Read =>
      SetHandler(s, j, HaveRead(pc.id, if s.status.Some? then Lookup(s.status.value, pc.id) else None))
    case EndRead => SetHandler(s, j, Answering(pc.id, pc.st)).(fileOwner := None)
    case Answer => SetHandler(s, j, Closing)
    case Close => SetHandler(s, j, Free).(cli := Pool.Next(s.cli, Pool.Finish(j)))
  }

  /** The threads of a server that starts with `n` workers and `n` handlers. */
  function Boot(s: Server, queue: seq<int>, n: nat): Server {
    s.(up := true, req := Pool.Start(queue, n, n), cli := Pool.Start([], n, 1),
       graders := seq(n, _ => Idle), handlers := seq(n, _ => Free),
       pending := (set id | id in queue), missed := {})
  }

  function Next(s: Server, e: Step): Server
    requires Enabled(s, e)
  {
    match e
    case ReqStep(pe) => s.(req := Pool.Next(s.req, pe))
    case CliStep(pe) => s.(cli := Pool.Next(s.cli, pe))
    case Grade(i, act) => GraderNext(s, i, act)
    case Handle(j, task) => HandlerNext(s, j, task)
    case Crash =>
      s.(up := false, fileOwner := None, req := Pool.Start([], 0, 0), cli := Pool.Start([], 0, 0),
         graders := [], handlers := [], pending := {}, missed := {})
    case Restart(n) => Boot(s, Recovered(s.status.value), n)
  }

  // --------------------------------------------------------------------- runs

  /** Every step of the sequence is enabled where it is taken. */
  predicate Legal(s: Server, steps: seq<Step>)
    decreases |steps|
  {
    steps == [] || (Enabled(s, steps[0]) && Legal(Next(s, steps[0]), steps[1..]))
  }

  function After(s: Server, steps: seq<Step>): Server
    requires Legal(s, steps)
    decreases |steps|
  {
    if steps == [] then s else After(Next(s, steps[0]), steps[1..])
  }
}
