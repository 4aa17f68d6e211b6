/** The thread-pool server, v3/server/server.c: one accept loop hands connections to `n`
    workers through one queue, and a worker grades the file it receives on a connection and
    closes it. */
module ThreadPool {
  import opened Wrappers
  import opened Pool
  import Queues

  function Initial(n: nat): Pool {
    Start([], n, 1)
  }

  /** Connections are file descriptors: accept does not return the number of one that is still
      open, and may return that of one that was closed. */
  predicate Legal(p: Pool, steps: seq<Step>)
    decreases |steps|
  {
    steps == []
    || (&& Enabled(p, steps[0])
        && (steps[0].Enter? ==> Live(p, steps[0].item) == 0)
        && Legal(Next(p, steps[0]), steps[1..]))
  }

  function After(p: Pool, steps: seq<Step>): Pool
    requires Legal(p, steps)
    decreases |steps|
  {
    if steps == [] then p else After(Next(p, steps[0]), steps[1..])
  }

  ghost predicate Good(p: Pool) {
    Inv(p) && LiveOnce(p)
  }

  lemma StepGood(p: Pool, e: Step)
    requires Good(p) && Enabled(p, e) && (e.Enter? ==> Live(p, e.item) == 0)
    ensures Good(Next(p, e))
    ensures |Next(p, e).consumers| == |p.consumers|
  {
    StepInv(p, e);
    LiveOnceKept(p, e);
  }

  lemma {:induction false} RunGood(p: Pool, steps: seq<Step>)
    requires Good(p) && Legal(p, steps)
    ensures Good(After(p, steps)) && |After(p, steps).consumers| == |p.consumers|
    decreases |steps|
  {
    if steps != [] {
      StepGood(p, steps[0]);
      RunGood(Next(p, steps[0]), steps[1..]);
    }
  }

  lemma RunKept(n: nat, steps: seq<Step>)
    requires Legal(Initial(n), steps)
    ensures Good(After(Initial(n), steps)) && |After(Initial(n), steps).consumers| == n
  {
    StartInv([], n, 1);
    StartEmpty(n, 1);
    RunGood(Initial(n), steps);
  }

  /** In every state of every run a connection that is open is in exactly one place: with the
      accept loop, queued, or with a worker; and as often as a number was returned by accept, it
      is in such a place or was closed. */
  lemma OnePlaceEach(n: nat, steps: seq<Step>, c: int)
    requires Legal(Initial(n), steps)
    ensures var p := After(Initial(n), steps);
            && Live(p, c) <= 1
            && HeldByProducers(p.producers, c) + multiset(p.queue)[c] + HeldByConsumers(p.consumers, c) + p.finished[c]
               == p.entered[c]
  {
    RunKept(n, steps);
    var p := After(Initial(n), steps);
    assert Live(p, c) + p.finished[c] == p.entered[c];
  }

  /** A worker that closes a connection is the only one to have it, and then nobody has it: every
      accepted connection is closed once. */
  lemma ClosedOnce(n: nat, steps: seq<Step>, i: nat)
    requires Legal(Initial(n), steps) && Enabled(After(Initial(n), steps), Finish(i))
    ensures var p := After(Initial(n), steps);
            var c, p' := p.consumers[i].item, Next(p, Finish(i));
            && Live(p, c) == 1 && Live(p', c) == 0
            && p'.finished[c] == p.finished[c] + 1 == p'.entered[c]
            && c !in p.queue
            && forall k :: 0 <= k < |p.consumers| && k != i ==> ConsumerHas(p.consumers[k], c) == 0
  {
    RunKept(n, steps);
    var p := After(Initial(n), steps);
    FinishedOnce(p, i);
    ConservedKept(p, Finish(i));
    assert Live(Next(p, Finish(i)), p.consumers[i].item) == 0;
  }

  /** In every state of every run: while a worker sleeps, every queued connection has a woken
      worker coming for it, or its signal is still to come. */
  lemma NoLostWakeup(n: nat, steps: seq<Step>)
    requires Legal(Initial(n), steps)
    ensures var p := After(Initial(n), steps);
            && (NobodySleeps(p) || |p.queue| <= Heading(p.consumers) + Unsignalled(p))
            && (p.owner.None? && p.queue != [] && !NobodySleeps(p) ==>
                  exists i :: 0 <= i < |p.consumers| && p.consumers[i].Woken? && Enabled(p, Lock(i)))
  {
    RunKept(n, steps);
    var p := After(Initial(n), steps);
    if p.owner.None? && p.queue != [] && !NobodySleeps(p) {
      SomeoneComes(p);
    }
  }

  /** A server with workers is at rest only when every accepted connection has been served and
      closed. */
  lemma RestMeansServed(n: nat, steps: seq<Step>, c: int)
    requires n > 0 && Legal(Initial(n), steps) && AtRest(After(Initial(n), steps))
    ensures var p := After(Initial(n), steps);
            p.queue == [] && p.finished[c] == p.entered[c]
  {
    RunKept(n, steps);
    var p := After(Initial(n), steps);
    RestIsEmpty(p);
    OnePlaceEach(n, steps, c);
  }

  // ------------------------------------------------------- what the threads can do

  predicate Allowed(p: Pool, e: Step) {
    Enabled(p, e) && (e.Enter? ==> Live(p, e.item) == 0)
  }

  /** The steps can be taken one after the other, and lead there. */
  predicate Leads(p: Pool, steps: seq<Step>, q: Pool) {
    Legal(p, steps) && After(p, steps) == q
  }

  lemma LeadsFirst(p: Pool, e: Step, rest: seq<Step>, q: Pool)
    requires Allowed(p, e) && Leads(Next(p, e), rest, q)
    ensures Leads(p, [e] + rest, q)
  {
    assert ([e] + rest)[1..] == rest;
  }

  lemma {:induction false} LeadsBoth(p: Pool, a: seq<Step>, q: Pool, b: seq<Step>, r: Pool)
    requires Leads(p, a, q) && Leads(q, b, r)
    ensures Leads(p, a + b, r)
    decreases |a|
  {
    if a == [] {
      assert a + b == b;
    } else {
      LeadsBoth(Next(p, a[0]), a[1..], q, b, r);
      LeadsFirst(p, a[0], a[1..] + b, r);
      assert [a[0]] + (a[1..] + b) == a + b;
    }
  }

  lemma LeadsTwo(p: Pool, e: Step, f: Step)
    requires Allowed(p, e) && Allowed(Next(p, e), f)
    ensures Leads(p, [e, f], Next(Next(p, e), f))
  {
    LeadsFirst(Next(p, e), f, [], Next(Next(p, e), f));
    assert [f] + [] == [f];
    LeadsFirst(p, e, [f], Next(Next(p, e), f));
    assert [e] + [f] == [e, f];
  }

  /** The accept loop takes a connection and waits for the lock, then hands it over: `woken` is the
      worker that its signal wakes, if one sleeps. */
  function AcceptSteps(c: int, woken: Option<nat>): seq<Step> {
    [Enter(0, c), LockToEnqueue(0)] + ([Enqueue(0), Signal(0, woken)] + [UnlockAfterSignal(0)])
  }

  lemma CanAccept(p: Pool, c: int, woken: Option<nat>)
    requires |p.producers| == 1 && p.producers[0].Resting? && p.owner.None? && Live(p, c) == 0
    requires match woken
             case None => NobodySleeps(p)
             case Some(i) => i < |p.consumers| && p.consumers[i].Asleep?
    ensures Leads(p, AcceptSteps(c, woken), p.(
              queue := [c] + p.queue,
              entered := p.entered + multiset{c},
              consumers := match woken case None => p.consumers case Some(i) => p.consumers[i := Woken]))
  {
    LeadsTwo(p, Enter(0, c), LockToEnqueue(0));
    var q := Next(Next(p, Enter(0, c)), LockToEnqueue(0));
    LeadsTwo(q, Enqueue(0), Signal(0, woken));
    var r := Next(Next(q, Enqueue(0)), Signal(0, woken));
    var end := Next(r, UnlockAfterSignal(0));
    assert end.producers == p.producers;
    LeadsFirst(r, UnlockAfterSignal(0), [], end);
    assert [UnlockAfterSignal(0)] + [] == [UnlockAfterSignal(0)];
    LeadsBoth(q, [Enqueue(0), Signal(0, woken)], r, [UnlockAfterSignal(0)], end);
    LeadsBoth(p, [Enter(0, c), LockToEnqueue(0)], q, [Enqueue(0), Signal(0, woken)] + [UnlockAfterSignal(0)], end);
  }

  /** A worker takes the connection at the front, serves it and closes it. */
  function ServeSteps(i: nat): seq<Step> {
    [Lock(i), Dequeue(i)] + [Unlock(i), Finish(i)]
  }

  lemma CanServe(p: Pool, i: nat)
    requires i < |p.consumers| && (p.consumers[i].Away? || p.consumers[i].Woken?) && p.owner.None? && p.queue != []
    ensures Leads(p, ServeSteps(i), p.(
              queue := p.queue[1..],
              consumers := p.consumers[i := Away],
              finished := p.finished + multiset{p.queue[0]}))
  {
    LeadsTwo(p, Lock(i), Dequeue(i));
    var q := Next(Next(p, Lock(i)), Dequeue(i));
    LeadsTwo(q, Unlock(i), Finish(i));
    LeadsBoth(p, [Lock(i), Dequeue(i)], q, [Unlock(i), Finish(i)], Next(Next(q, Unlock(i)), Finish(i)));
  }

  /** A worker that finds the queue empty goes to sleep, and may wake up for nothing. */
  lemma CanSleep(p: Pool, i: nat)
    requires i < |p.consumers| && (p.consumers[i].Away? || p.consumers[i].Woken?) && p.owner.None? && p.queue == []
    ensures var q := p.(consumers := p.consumers[i := Asleep]);
            Leads(p, [Lock(i), Sleep(i)], q) && Allowed(q, WakeSpuriously(i))
  {
    LeadsTwo(p, Lock(i), Sleep(i));
    assert Next(Next(p, Lock(i)), Sleep(i)).consumers == p.consumers[i := Asleep];
  }

  lemma AnyCanBeWoken(n: nat, i: nat, c: int)
    requires i < n
    ensures Leads(Initial(n), [Lock(i), Sleep(i)] + (AcceptSteps(c, Some(i)) + ServeSteps(i)),
                  Initial(n).(entered := multiset{c}, finished := multiset{c}))
  {
    var start := Initial(n);
    var end := start.(entered := multiset{c}, finished := multiset{c});
    var asleep := start.(consumers := start.consumers[i := Asleep]);
    var p := start.(queue := [c], entered := multiset{c}, consumers := start.consumers[i := Woken]);
    assert [c] + [] == [c] && [c][1..] == [] && multiset{} + multiset{c} == multiset{c};
    assert asleep.consumers[i := Woken] == p.consumers && p.consumers[i := Away] == start.consumers;
    CanSleep(start, i);
    forall k | 0 <= k < n
      ensures ConsumerHas(asleep.consumers[k], c) == 0
    {
    }
    NobodyHolds(asleep.consumers, asleep.producers, c);
    CanAccept(asleep, c, Some(i));
    CanServe(p, i);
    LeadsBoth(asleep, AcceptSteps(c, Some(i)), p, ServeSteps(i), end);
    LeadsBoth(start, [Lock(i), Sleep(i)], asleep, AcceptSteps(c, Some(i)) + ServeSteps(i), end);
  }

  /** From the start, any connection can be accepted and then be served and closed by any worker, awake
      or woken from its sleep. */
  lemma AnyCanBeServed(n: nat, i: nat, c: int)
    requires i < n
    ensures var end := Initial(n).(entered := multiset{c}, finished := multiset{c});
            && Leads(Initial(n), AcceptSteps(c, None) + ServeSteps(i), end)
            && Leads(Initial(n), [Lock(i), Sleep(i)] + (AcceptSteps(c, Some(i)) + ServeSteps(i)), end)
  {
    var start := Initial(n);
    var end := start.(entered := multiset{c}, finished := multiset{c});
    StartEmpty(n, 1);
    var p := start.(queue := [c], entered := multiset{c});
    assert [c] + [] == [c] && [c][1..] == [] && multiset{} + multiset{c} == multiset{c};
    assert start.consumers[i := Away] == start.consumers;
    CanAccept(start, c, None);
    CanServe(p, i);
    LeadsBoth(start, AcceptSteps(c, None), p, ServeSteps(i), end);
    AnyCanBeWoken(n, i, c);
  }

  // ------------------------------------------------------------ the queue is the list

  /** The uses of the queue in a run: what the accept loop puts in, and what the workers take out. */
  function UseOf(p: Pool, e: Step): seq<Queues.Use>
    requires Enabled(p, e)
  {
    match e
    case Enqueue(j) => [Queues.In(p.producers[j].item)]
    case Dequeue(i) => [Queues.Out]
    case _ => []
  }

  function Uses(p: Pool, steps: seq<Step>): seq<Queues.Use>
    requires Legal(p, steps)
    decreases |steps|
  {
    if steps == [] then [] else UseOf(p, steps[0]) + Uses(Next(p, steps[0]), steps[1..])
  }

  /** What the workers take, in order. */
  function TakenBy(p: Pool, e: Step): seq<int>
    requires Enabled(p, e)
  {
    if e.Dequeue? && Next(p, e).consumers[e.i].Took? then [Next(p, e).consumers[e.i].item] else []
  }

  function Taken(p: Pool, steps: seq<Step>): seq<int>
    requires Legal(p, steps)
    decreases |steps|
  {
    if steps == [] then [] else TakenBy(p, steps[0]) + Taken(Next(p, steps[0]), steps[1..])
  }

  lemma StackStep(prior: seq<Queues.Use>, p: Pool, e: Step)
    requires Enabled(p, e) && Queues.StackAfter(prior) == p.queue
    ensures Queues.StackAfter(prior + UseOf(p, e)) == Next(p, e).queue
    ensures Queues.Outs(prior + UseOf(p, e)) == Queues.Outs(prior) + TakenBy(p, e)
  {
    match e {
      case Enqueue(j) => Queues.UsesSnoc(prior, Queues.In(p.producers[j].item));
      case Dequeue(i) => Queues.UsesSnoc(prior, Queues.Out);
      case _ =>
        assert prior + [] == prior;
        assert Queues.Outs(prior) + [] == Queues.Outs(prior);
    }
  }

  lemma {:induction false} StackRun(prior: seq<Queues.Use>, p: Pool, steps: seq<Step>)
    requires Legal(p, steps) && Queues.StackAfter(prior) == p.queue
    ensures Queues.StackAfter(prior + Uses(p, steps)) == After(p, steps).queue
    ensures Queues.Outs(prior + Uses(p, steps)) == Queues.Outs(prior) + Taken(p, steps)
    decreases |steps|
  {
    if steps == [] {
      assert prior + [] == prior;
      assert Queues.Outs(prior) + [] == Queues.Outs(prior);
    } else {
      var use, rest := UseOf(p, steps[0]), Uses(Next(p, steps[0]), steps[1..]);
      StackStep(prior, p, steps[0]);
      StackRun(prior + use, Next(p, steps[0]), steps[1..]);
      Associative(prior, use, rest);
      Associative(Queues.Outs(prior), TakenBy(p, steps[0]), Taken(Next(p, steps[0]), steps[1..]));
    }
  }

  /** In every run the machine's queue is what the linked list holds after the same uses, and the
      workers take what its dequeues return. */
  lemma QueueIsTheList(n: nat, steps: seq<Step>)
    requires Legal(Initial(n), steps)
    ensures After(Initial(n), steps).queue == Queues.StackAfter(Uses(Initial(n), steps))
    ensures Taken(Initial(n), steps) == Queues.Outs(Uses(Initial(n), steps))
  {
    StackRun([], Initial(n), steps);
    EmptyFront(Uses(Initial(n), steps));
    EmptyFront(Taken(Initial(n), steps));
  }
}
