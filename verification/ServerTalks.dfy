/** What a handler and the accept loop of the grading server can do for a client when no other thread
    comes between: from the connection to its close, on every branch. */
module ServerTalks {
  import opened Wrappers
  import opened StatusTable
  import opened Names
  import Pool
  import ThreadPool
  import StatusFile
  import opened GradingServer
  import opened ServerReports
  import opened ServerTheorems
  import opened ServerScripts

  // ------------------------------------------------------------------- connections

  function OnClients(steps: seq<Pool.Step>): seq<Step> {
    if steps == [] then [] else [CliStep(steps[0])] + OnClients(steps[1..])
  }

  /** The accept loop does with the queue of clients what that of the thread-pool server does. */
  lemma {:induction false} LikeThePool(s: Server, steps: seq<Pool.Step>, p: Pool.Pool)
    requires s.up && ThreadPool.Leads(s.cli, steps, p)
    requires forall k :: 0 <= k < |steps| ==> OnlyCli(steps[k])
    ensures Leads(s, OnClients(steps), s.(cli := p))
    decreases |steps|
  {
    if steps != [] {
      var t := s.(cli := Pool.Next(s.cli, steps[0]));
      assert OnlyCli(steps[0]);
      assert forall k :: 0 <= k < |steps[1..]| ==> steps[1..][k] == steps[k + 1];
      LikeThePool(t, steps[1..], p);
      LeadsAfter(s, CliStep(steps[0]), t, OnClients(steps[1..]), s.(cli := p));
    }
  }

  /** Any connection can be accepted and queued when the accept loop is free to. */
  lemma CanConnect(s: Server, c: int, woken: Option<nat>) returns (t: Server)
    requires s.up && |s.cli.producers| == 1 && s.cli.producers[0].Resting? && s.cli.owner.None?
    requires Pool.Live(s.cli, c) == 0
    requires match woken
             case None => Pool.NobodySleeps(s.cli)
             case Some(i) => i < |s.cli.consumers| && s.cli.consumers[i].Asleep?
    ensures Leads(s, OnClients(ThreadPool.AcceptSteps(c, woken)), t)
    ensures t == s.(cli := s.cli.(
              queue := [c] + s.cli.queue,
              entered := s.cli.entered + multiset{c},
              consumers := match woken
                           case None => s.cli.consumers
                           case Some(i) => s.cli.consumers[i := Pool.Woken]))
  {
    ThreadPool.CanAccept(s.cli, c, woken);
    t := s.(cli := s.cli.(
           queue := [c] + s.cli.queue,
           entered := s.cli.entered + multiset{c},
           consumers := match woken
                        case None => s.cli.consumers
                        case Some(i) => s.cli.consumers[i := Pool.Woken]));
    LikeThePool(s, ThreadPool.AcceptSteps(c, woken), t.cli);
  }

  /** A handler takes the connection at the front. */
  lemma CanPickUp(s: Server, j: nat) returns (t: Server)
    requires s.up && j < |s.handlers| == |s.cli.consumers| && s.cli.queue != [] && s.cli.owner.None?
    requires s.cli.consumers[j].Away? || s.cli.consumers[j].Woken?
    ensures Leads(s, [CliStep(Pool.Lock(j)), CliStep(Pool.Dequeue(j))] + [Handle(j, TakeConnection)], t)
    ensures t == s.(handlers := s.handlers[j := Greeting],
                    cli := s.cli.(queue := s.cli.queue[1..],
                                  consumers := s.cli.consumers[j := Pool.Serving(s.cli.queue[0])]))
  {
    var locked := Next(s, CliStep(Pool.Lock(j)));
    var took := Next(locked, CliStep(Pool.Dequeue(j)));
    LeadsTwo(s, CliStep(Pool.Lock(j)), locked, CliStep(Pool.Dequeue(j)), took);
    t := Next(took, Handle(j, TakeConnection));
    assert t.cli.consumers == s.cli.consumers[j := Pool.Serving(s.cli.queue[0])];
    LeadsOne(took, Handle(j, TakeConnection));
    LeadsBoth(s, [CliStep(Pool.Lock(j)), CliStep(Pool.Dequeue(j))], took, [Handle(j, TakeConnection)], t);
  }

  /** And closes it at the end. */
  lemma CanClose(s: Server, j: nat, c: int) returns (t: Server)
    requires s.up && j < |s.handlers| == |s.cli.consumers|
    requires s.handlers[j] == Closing && s.cli.consumers[j] == Pool.Serving(c)
    ensures Leads(s, [Handle(j, Close)], t)
    ensures t == s.(handlers := s.handlers[j := Free],
                    cli := s.cli.(consumers := s.cli.consumers[j := Pool.Away],
                                  finished := s.cli.finished + multiset{c}))
  {
    LeadsOne(s, Handle(j, Close));
    t := Next(s, Handle(j, Close));
  }

  /** A client that asks for neither is turned away. */
  lemma CanReject(s: Server, j: nat) returns (t: Server)
    requires s.up && j < |s.handlers| && s.handlers[j] == Greeting
    ensures Leads(s, [Handle(j, Reject)], t)
    ensures t == s.(handlers := s.handlers[j := Closing])
  {
    LeadsOne(s, Handle(j, Reject));
    t := Next(s, Handle(j, Reject));
  }

  // ------------------------------------------------------------------------ queries

  lemma FileWhenFree(s: Server)
    requires Reachable(s) && s.up && s.fileOwner.None?
    ensures s.status == Some(View(s))
  {
    ReachableInv(s);
  }

  lemma CanRead(s: Server, j: nat, id: int) returns (t: Server)
    requires s.up && j < |s.handlers| && s.handlers[j] == WantRead(id) && s.fileOwner.None? && s.status.Some?
    ensures Leads(s, [Handle(j, LockForRead), Handle(j, Read)] + [Handle(j, EndRead)], t)
    ensures t == s.(handlers := s.handlers[j := Answering(id, StatusOf(s, id))])
  {
    var locked := Next(s, Handle(j, LockForRead));
    var read := Next(locked, Handle(j, Read));
    LeadsTwo(s, Handle(j, LockForRead), locked, Handle(j, Read), read);
    LeadsOne(read, Handle(j, EndRead));
    t := Next(read, Handle(j, EndRead));
    assert t.handlers == s.handlers[j := Answering(id, StatusOf(s, id))];
    LeadsBoth(s, [Handle(j, LockForRead), Handle(j, Read)], read, [Handle(j, EndRead)], t);
  }

  lemma CanAsk(s: Server, j: nat, id: int) returns (t: Server)
    requires s.up && j < |s.handlers| && s.handlers[j] == Greeting
    ensures Leads(s, [Handle(j, StartQuery(id))], t)
    ensures t == s.(handlers := s.handlers[j := WantRead(id)])
  {
    LeadsOne(s, Handle(j, StartQuery(id)));
    t := Next(s, Handle(j, StartQuery(id)));
  }

  /** A query for an id that fits s1 can be read when fileLock is free, and is answered with the status
      that the table has for that id, or that there is none. Nothing else changes. */
  lemma QueryIsAnswered(s: Server, j: nat, id: int) returns (t: Server)
    requires Reachable(s) && s.up && j < |s.handlers| && s.handlers[j] == Greeting && s.fileOwner.None?
    requires !StatusFile.Overruns(View(s), id)
    ensures Leads(s, [Handle(j, StartQuery(id)), Handle(j, LockForRead), Handle(j, Read), Handle(j, EndRead)], t)
    ensures t == s.(handlers := s.handlers[j := Answering(id, StatusOf(s, id))])
  {
    FileWhenFree(s);
    var u := CanAsk(s, j, id);
    t := CanRead(u, j, id);
    LeadsBoth(s, [Handle(j, StartQuery(id))], u,
              [Handle(j, LockForRead), Handle(j, Read)] + [Handle(j, EndRead)], t);
    assert [Handle(j, StartQuery(id))] + ([Handle(j, LockForRead), Handle(j, Read)] + [Handle(j, EndRead)])
        == [Handle(j, StartQuery(id)), Handle(j, LockForRead), Handle(j, Read), Handle(j, EndRead)];
    assert s.handlers[j := WantRead(id)][j := Answering(id, StatusOf(s, id))]
        == s.handlers[j := Answering(id, StatusOf(s, id))];
  }

  /** The answer is sent, and the connection is about to be closed. */
  lemma CanAnswer(s: Server, j: nat) returns (t: Server)
    requires s.up && j < |s.handlers| && s.handlers[j].Answering?
    ensures Leads(s, [Handle(j, Answer)], t)
    ensures t == s.(handlers := s.handlers[j := Closing])
  {
    LeadsOne(s, Handle(j, Answer));
    t := Next(s, Handle(j, Answer));
  }

  // ------------------------------------------------------------------- new requests

  /** A program is received and confirmed, and the request is about to be queued. */
  lemma CanUpload(s: Server, j: nat, id: int) returns (t: Server)
    requires s.up && j < |s.handlers| == |s.req.producers| && s.handlers[j] == Greeting && s.req.producers[j].Resting?
    requires id !in s.issued && 0 <= id <= 999_999_999
    ensures Leads(s, [Handle(j, StartUpload(id)), Handle(j, EndUpload(true))] + [Handle(j, Confirm(true))], t)
    ensures t == s.(handlers := s.handlers[j := Submitting(id)], issued := s.issued + {id},
                    files := s.files[(Program, id) := Uploaded], pending := s.pending + {id},
                    req := s.req.(producers := s.req.producers[j := Pool.Ready(id)],
                                  entered := s.req.entered + multiset{id}))
  {
    var started := Next(s, Handle(j, StartUpload(id)));
    var received := Next(started, Handle(j, EndUpload(true)));
    LeadsTwo(s, Handle(j, StartUpload(id)), started, Handle(j, EndUpload(true)), received);
    LeadsOne(received, Handle(j, Confirm(true)));
    t := Next(received, Handle(j, Confirm(true)));
    assert t.handlers == s.handlers[j := Submitting(id)];
    assert t.files == s.files[(Program, id) := Uploaded];
    LeadsBoth(s, [Handle(j, StartUpload(id)), Handle(j, EndUpload(true))], received, [Handle(j, Confirm(true))], t);
  }

  /** While it is received the file is unfinished, and a failed receive ends the request. */
  lemma CanFailUpload(s: Server, j: nat, id: int)
    requires s.up && j < |s.handlers| && s.handlers[j] == Greeting && id !in s.issued && 0 <= id <= 999_999_999
    ensures Enabled(s, Handle(j, StartUpload(id)))
    ensures FileIs(Next(s, Handle(j, StartUpload(id))), Program, id, Partial)
    ensures Leads(s, [Handle(j, StartUpload(id)), Handle(j, EndUpload(false))],
                  s.(handlers := s.handlers[j := Closing], issued := s.issued + {id},
                     files := s.files[(Program, id) := Partial]))
  {
    var started := Next(s, Handle(j, StartUpload(id)));
    var failed := Next(started, Handle(j, EndUpload(false)));
    LeadsTwo(s, Handle(j, StartUpload(id)), started, Handle(j, EndUpload(false)), failed);
    assert failed.handlers == s.handlers[j := Closing];
  }

  /** A client that cannot be sent the confirmation ends the request before it is queued. */
  lemma CanFailConfirmation(s: Server, j: nat, id: int)
    requires s.up && j < |s.handlers| && s.handlers[j] == Confirming(id)
    ensures Leads(s, [Handle(j, Confirm(false))], s.(handlers := s.handlers[j := Closing]))
  {
    LeadsOne(s, Handle(j, Confirm(false)));
  }

  /** The steps by which a handler puts its request in the queue and wakes a worker. */
  function SubmitSteps(j: nat, woken: Option<nat>): seq<Step> {
    [ReqStep(Pool.LockToEnqueue(j)), ReqStep(Pool.Enqueue(j))]
    + [ReqStep(Pool.Signal(j, woken)), Handle(j, EndSubmit)]
  }

  lemma CanEnqueue(s: Server, j: nat, id: int) returns (t: Server)
    requires s.up && j < |s.req.producers| && s.req.producers[j] == Pool.Ready(id) && s.req.owner.None?
    ensures Leads(s, [ReqStep(Pool.LockToEnqueue(j)), ReqStep(Pool.Enqueue(j))], t)
    ensures t == s.(req := s.req.(owner := Some(Pool.Producer(j)), queue := [id] + s.req.queue,
                                  producers := s.req.producers[j := Pool.Queued(id)]))
  {
    var locked := Next(s, ReqStep(Pool.LockToEnqueue(j)));
    t := Next(locked, ReqStep(Pool.Enqueue(j)));
    assert t.req.producers == s.req.producers[j := Pool.Queued(id)];
    LeadsTwo(s, ReqStep(Pool.LockToEnqueue(j)), locked, ReqStep(Pool.Enqueue(j)), t);
  }

  /** The workers after a signal. */
  function Signalled(consumers: seq<Pool.ConsumerPc>, woken: Option<nat>): seq<Pool.ConsumerPc> {
    match woken
    case None => consumers
    case Some(i) => if i < |consumers| then consumers[i := Pool.Woken] else consumers
  }

  /** A signal can wake this thread: it sleeps; or nobody, if nobody sleeps. */
  predicate Wakes(p: Pool.Pool, woken: Option<nat>) {
    match woken
    case None => Pool.NobodySleeps(p)
    case Some(i) => i < |p.consumers| && p.consumers[i].Asleep?
  }

  lemma CanSignal(s: Server, j: nat, id: int, woken: Option<nat>) returns (t: Server)
    requires s.up && j < |s.handlers| == |s.req.producers| && s.handlers[j] == Submitting(id)
    requires s.req.producers[j] == Pool.Queued(id) && Wakes(s.req, woken)
    ensures Leads(s, [ReqStep(Pool.Signal(j, woken)), Handle(j, EndSubmit)], t)
    ensures t == s.(handlers := s.handlers[j := Replying(id)],
                    req := s.req.(owner := None, producers := s.req.producers[j := Pool.Resting],
                                  consumers := Signalled(s.req.consumers, woken)))
  {
    var signalled := Next(s, ReqStep(Pool.Signal(j, woken)));
    t := Next(signalled, Handle(j, EndSubmit));
    assert t.req.producers == s.req.producers[j := Pool.Resting];
    LeadsTwo(s, ReqStep(Pool.Signal(j, woken)), signalled, Handle(j, EndSubmit), t);
  }

  lemma CanSubmit(s: Server, j: nat, id: int, woken: Option<nat>) returns (t: Server)
    requires s.up && j < |s.handlers| == |s.req.producers| && s.handlers[j] == Submitting(id)
    requires s.req.producers[j] == Pool.Ready(id) && s.req.owner.None? && Wakes(s.req, woken)
    ensures Leads(s, SubmitSteps(j, woken), t)
    ensures t == s.(handlers := s.handlers[j := Replying(id)],
                    req := s.req.(queue := [id] + s.req.queue, producers := s.req.producers[j := Pool.Resting],
                                  consumers := Signalled(s.req.consumers, woken)))
  {
    var queued := CanEnqueue(s, j, id);
    t := CanSignal(queued, j, id, woken);
    LeadsBoth(s, [ReqStep(Pool.LockToEnqueue(j)), ReqStep(Pool.Enqueue(j))], queued,
              [ReqStep(Pool.Signal(j, woken)), Handle(j, EndSubmit)], t);
    assert s.req.producers[j := Pool.Queued(id)][j := Pool.Resting] == s.req.producers[j := Pool.Resting];
  }

  lemma CanTell(s: Server, j: nat, id: int) returns (t: Server)
    requires s.up && j < |s.handlers| && s.handlers[j] == Replying(id) && s.fileOwner.None?
    ensures Leads(s, [Handle(j, Reply(true)), Handle(j, LockForAppend)], t)
    ensures t == s.(handlers := s.handlers[j := Appending(id)], fileOwner := Some(Handler(j)))
  {
    var replied := Next(s, Handle(j, Reply(true)));
    t := Next(replied, Handle(j, LockForAppend));
    assert t.handlers == s.handlers[j := Appending(id)];
    LeadsTwo(s, Handle(j, Reply(true)), replied, Handle(j, LockForAppend), t);
  }

  lemma CanAppend(s: Server, j: nat, id: int, rows: Table) returns (t: Server)
    requires s.up && j < |s.handlers| && s.handlers[j] == Appending(id) && s.status == Some(rows)
    ensures Leads(s, [Handle(j, Append), Handle(j, EndAppend)], t)
    ensures t == s.(handlers := s.handlers[j := Closing], status := Some(rows + [Row(id, Queued)]), fileOwner := None)
  {
    var appended := Next(s, Handle(j, Append));
    t := Next(appended, Handle(j, EndAppend));
    assert t.handlers == s.handlers[j := Closing];
    LeadsTwo(s, Handle(j, Append), appended, Handle(j, EndAppend), t);
  }

  /** The client is told its number, and the row is written behind the others with status "0". */
  lemma CanReply(s: Server, j: nat, id: int, rows: Table) returns (t: Server)
    requires s.up && j < |s.handlers| && s.handlers[j] == Replying(id) && s.fileOwner.None? && s.status == Some(rows)
    ensures Leads(s, [Handle(j, Reply(true)), Handle(j, LockForAppend)] + [Handle(j, Append), Handle(j, EndAppend)], t)
    ensures t == s.(handlers := s.handlers[j := Closing], status := Some(rows + [Row(id, Queued)]))
  {
    var locked := CanTell(s, j, id);
    t := CanAppend(locked, j, id, rows);
    LeadsBoth(s, [Handle(j, Reply(true)), Handle(j, LockForAppend)], locked,
              [Handle(j, Append), Handle(j, EndAppend)], t);
    assert s.handlers[j := Appending(id)][j := Closing] == s.handlers[j := Closing];
  }

  /** A client that cannot be told its number gets no row. */
  lemma CanFailReply(s: Server, j: nat, id: int)
    requires s.up && j < |s.handlers| && s.handlers[j] == Replying(id)
    ensures Leads(s, [Handle(j, Reply(false))], s.(handlers := s.handlers[j := Closing]))
  {
    LeadsOne(s, Handle(j, Reply(false)));
  }

  /** All steps of createNewRequest. */
  function NewRequestSteps(j: nat, id: int, woken: Option<nat>): seq<Step> {
    ([Handle(j, StartUpload(id)), Handle(j, EndUpload(true))] + [Handle(j, Confirm(true))])
    + (SubmitSteps(j, woken)
       + ([Handle(j, Reply(true)), Handle(j, LockForAppend)] + [Handle(j, Append), Handle(j, EndAppend)]))
  }

  /** A new request can be created with any fresh number when the locks are free: its program is then
      stored, it is at the front of the queue, and its row says "0". */
  lemma CanCreate(s: Server, j: nat, id: int, woken: Option<nat>, rows: Table) returns (t: Server)
    requires s.up && j < |s.handlers| == |s.req.producers| && s.handlers[j] == Greeting && s.req.producers[j].Resting?
    requires id !in s.issued && 0 <= id <= 999_999_999
    requires s.req.owner.None? && s.fileOwner.None? && s.status == Some(rows)
    requires Wakes(s.req, woken)
    ensures Leads(s, NewRequestSteps(j, id, woken), t)
    ensures t.req.queue == [id] + s.req.queue && t.status == Some(rows + [Row(id, Queued)])
    ensures t.files == s.files[(Program, id) := Uploaded] && t.issued == s.issued + {id}
    ensures t.handlers == s.handlers[j := Closing] && t.graders == s.graders && t.cli == s.cli
  {
    var uploaded := CanUpload(s, j, id);
    var queued := CanSubmit(uploaded, j, id, woken);
    t := CanReply(queued, j, id, rows);
    var submit := SubmitSteps(j, woken);
    var reply := [Handle(j, Reply(true)), Handle(j, LockForAppend)] + [Handle(j, Append), Handle(j, EndAppend)];
    LeadsBoth(uploaded, submit, queued, reply, t);
    LeadsBoth(s, [Handle(j, StartUpload(id)), Handle(j, EndUpload(true))] + [Handle(j, Confirm(true))],
              uploaded, submit + reply, t);
    assert t.handlers == s.handlers[j := Closing];
  }
}
