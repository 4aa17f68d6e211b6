/** A queue shared by producers and consumers under one mutex and one condition variable: the
    accept loop and the workers of v3/server/server.c, and both pools of v4/server/server.c.

    Every step of one thread that touches the queue, the mutex or the condition variable is a
    step of the machine; threads interleave freely. Items are connections (v3, and v4's client
    queue) or request ids (v4's request queue). */
module Pool {
  import opened Wrappers

  datatype Thread = Consumer(i: nat) | Producer(j: nat)

  /** Where a worker stands. Away: it has no item and not the lock. Checking: it holds the lock
      before the isEmpty test. Asleep: in pthread_cond_wait. Woken: on the way back from it,
      without the lock. Took: it holds the lock and a dequeued item. Serving: working on the
      item. */
  datatype ConsumerPc = Away | Checking | Asleep | Woken | Took(item: int) | Serving(item: int)

  /** Where an enqueuer stands. Ready: about to lock. Locked: about to enqueue. Queued: about to
      signal. Signalled: about to unlock. */
  datatype ProducerPc = Resting | Ready(item: int) | Locked(item: int) | Queued(item: int) | Signalled(item: int)

  /** `queue` is front first. `entered` and `finished` record history: every item that was
      handed to a producer or was in the queue at the start, and every item served. */
  datatype Pool = Pool(
    queue: seq<int>,
    owner: Option<Thread>,
    consumers: seq<ConsumerPc>,
    producers: seq<ProducerPc>,
    entered: multiset<int>,
    finished: multiset<int>)

  /** The pool as its threads are created: `queue` is what initialisation put there. */
  function Start(queue: seq<int>, consumers: nat, producers: nat): Pool {
    Pool(queue, None, seq(consumers, _ => Away), seq(producers, _ => Resting), multiset(queue), multiset{})
  }

  datatype Step =
    | Lock(i: nat)               // pthread_mutex_lock, or its half of pthread_cond_wait
    | Sleep(i: nat)              // the queue is empty: pthread_cond_wait
    | WakeSpuriously(i: nat)
    | Dequeue(i: nat)
    | Unlock(i: nat)
    | Finish(i: nat)             // the item is served: its socket is closed
    | Enter(j: nat, item: int)   // an accepted connection, or a stored request
    | LockToEnqueue(j: nat)
    | Enqueue(j: nat)
    | Signal(j: nat, woken: Option<nat>)
    | UnlockAfterSignal(j: nat)

  predicate NobodySleeps(p: Pool) {
    forall i :: 0 <= i < |p.consumers| ==> !p.consumers[i].Asleep?
  }

  predicate Enabled(p: Pool, e: Step) {
    match e
    case Lock(i) => i < |p.consumers| && (p.consumers[i].Away? || p.consumers[i].Woken?) && p.owner.None?
    case Sleep(i) => i < |p.consumers| && p.consumers[i].Checking? && p.queue == []
    case WakeSpuriously(i) => i < |p.consumers| && p.consumers[i].Asleep?
    case Dequeue(i) => i < |p.consumers| && p.consumers[i].Checking? && p.queue != []
    case Unlock(i) => i < |p.consumers| && p.consumers[i].Took?
    case Finish(i) => i < |p.consumers| && p.consumers[i].Serving?
    case Enter(j, item) => j < |p.producers| && p.producers[j].Resting?
    case LockToEnqueue(j) => j < |p.producers| && p.producers[j].Ready? && p.owner.None?
    case Enqueue(j) => j < |p.producers| && p.producers[j].Locked?
    case Signal(j, woken) =>
      && j < |p.producers| && p.producers[j].Queued?
      && (match woken
          case None => NobodySleeps(p)
          case Some(i) => i < |p.consumers| && p.consumers[i].Asleep?)
    case UnlockAfterSignal(j) => j < |p.producers| && p.producers[j].Signalled?
  }

  function Next(p: Pool, e: Step): Pool
    requires Enabled(p, e)
  {
    match e
    case Lock(i) => p.(owner := Some(Consumer(i)), consumers := p.consumers[i := Checking])
    case Sleep(i) => p.(owner := None, consumers := p.consumers[i := Asleep])
    case WakeSpuriously(i) => p.(consumers := p.consumers[i := Woken])
    case Dequeue(i) => p.(queue := p.queue[1..], consumers := p.consumers[i := Took(p.queue[0])])
    case Unlock(i) => p.(owner := None, consumers := p.consumers[i := Serving(p.consumers[i].item)])
    case Finish(i) =>
      p.(consumers := p.consumers[i := Away], finished := p.finished + multiset{p.consumers[i].item})
    case Enter(j, item) => p.(producers := p.producers[j := Ready(item)], entered := p.entered + multiset{item})
    case LockToEnqueue(j) =>
      p.(owner := Some(Producer(j)), producers := p.producers[j := Locked(p.producers[j].item)])
    case Enqueue(j) =>
      p.(queue := [p.producers[j].item] + p.queue, producers := p.producers[j := Queued(p.producers[j].item)])
    case Signal(j, woken) =>
      p.(producers := p.producers[j := Signalled(p.producers[j].item)],
         consumers := match woken case None => p.consumers case Some(i) => p.consumers[i := Woken])
    case UnlockAfterSignal(j) => p.(owner := None, producers := p.producers[j := Resting])
  }

  // ----------------------------------------------------------------- the lock

  predicate ConsumerHolds(pc: ConsumerPc) {
    pc.Checking? || pc.Took?
  }

  predicate ProducerHolds(pc: ProducerPc) {
    pc.Locked? || pc.Queued? || pc.Signalled?
  }

  /** The mutex is owned by exactly the thread that is between its lock and its unlock. */
  ghost predicate LockInv(p: Pool) {
    && (p.owner.Some? ==>
          match p.owner.value
          case Consumer(i) => i < |p.consumers| && ConsumerHolds(p.consumers[i])
          case Producer(j) => j < |p.producers| && ProducerHolds(p.producers[j]))
    && (forall i :: 0 <= i < |p.consumers| && ConsumerHolds(p.consumers[i]) ==> p.owner == Some(Consumer(i)))
    && (forall j :: 0 <= j < |p.producers| && ProducerHolds(p.producers[j]) ==> p.owner == Some(Producer(j)))
  }

  lemma LockKept(p: Pool, e: Step)
    requires LockInv(p) && Enabled(p, e)
    ensures LockInv(Next(p, e))
  {
  }

  predicate IsConsumerStep(e: Step) {
    e.Lock? || e.Sleep? || e.WakeSpuriously? || e.Dequeue? || e.Unlock? || e.Finish?
  }

  /** Whose step it is. */
  function StepOf(e: Step): Thread {
    if IsConsumerStep(e) then Consumer(e.i) else Producer(e.j)
  }

  /** The owner of the mutex can take a step of its own that does not wait for it. */
  lemma OwnerGoesOn(p: Pool) returns (e: Step)
    requires LockInv(p) && p.owner.Some?
    ensures Enabled(p, e) && StepOf(e) == p.owner.value
    ensures e.Sleep? || e.Dequeue? || e.Unlock? || e.Enqueue? || e.Signal? || e.UnlockAfterSignal?
  {
    match p.owner.value {
      case Consumer(i) =>
        e := if p.consumers[i].Took? then Unlock(i) else if p.queue == [] then Sleep(i) else Dequeue(i);
      case Producer(j) =>
        if p.producers[j].Locked? {
          e := Enqueue(j);
        } else if p.producers[j].Signalled? {
          e := UnlockAfterSignal(j);
        } else if NobodySleeps(p) {
          e := Signal(j, None);
        } else {
          var i :| 0 <= i < |p.consumers| && p.consumers[i].Asleep?;
          e := Signal(j, Some(i));
        }
    }
  }

  /** How many steps the owner has to take before it gives the mutex back; 0 when it is free. */
  function Hold(p: Pool): nat {
    match p.owner
    case None => 0
    case Some(Consumer(i)) => if i < |p.consumers| && p.consumers[i].Took? then 1 else 2
    case Some(Producer(j)) =>
      if j < |p.producers| && p.producers[j].Locked? then 3
      else if j < |p.producers| && p.producers[j].Queued? then 2
      else 1
  }

  /** With every step of its own the owner comes closer to giving the mutex back, and no step of
      another thread changes where it stands. */
  lemma HoldStep(p: Pool, e: Step)
    requires LockInv(p) && Enabled(p, e) && p.owner.Some?
    ensures 0 < Hold(p) <= 3
    ensures StepOf(e) == p.owner.value ==> Hold(Next(p, e)) < Hold(p)
    ensures StepOf(e) != p.owner.value ==> Next(p, e).owner == p.owner && Hold(Next(p, e)) == Hold(p)
  {
  }

  // ------------------------------------------------------------ no lost wakeup

  predicate HeadsForQueue(pc: ConsumerPc) {
    pc.Woken? || pc.Checking?
  }

  /** How many consumers are awake on their way to the isEmpty test. */
  function Heading(consumers: seq<ConsumerPc>): nat {
    if consumers == [] then 0
    else (if HeadsForQueue(consumers[0]) then 1 else 0) + Heading(consumers[1..])
  }

  lemma {:induction false} HeadingUpdate(consumers: seq<ConsumerPc>, i: nat, pc: ConsumerPc)
    requires i < |consumers|
    ensures Heading(consumers[i := pc])
         == Heading(consumers) + (if HeadsForQueue(pc) then 1 else 0) - (if HeadsForQueue(consumers[i]) then 1 else 0)
  {
    if i == 0 {
      assert consumers[0 := pc][1..] == consumers[1..];
    } else {
      assert consumers[i := pc][1..] == consumers[1..][i - 1 := pc];
      HeadingUpdate(consumers[1..], i - 1, pc);
    }
  }

  lemma {:induction false} HeadingSome(consumers: seq<ConsumerPc>)
    ensures Heading(consumers) > 0 <==> exists i :: 0 <= i < |consumers| && HeadsForQueue(consumers[i])
  {
    if consumers != [] {
      HeadingSome(consumers[1..]);
      if i :| 0 <= i < |consumers| && HeadsForQueue(consumers[i]) {
        if i > 0 {
          assert HeadsForQueue(consumers[1..][i - 1]);
        }
      }
      if i :| 0 <= i < |consumers[1..]| && HeadsForQueue(consumers[1..][i]) {
        assert HeadsForQueue(consumers[i + 1]);
      }
    }
  }

  /** 1 while an enqueuer is between its enqueue and its signal. */
  function Unsignalled(p: Pool): nat {
    if p.owner.Some? && p.owner.value.Producer? && p.owner.value.j < |p.producers|
       && p.producers[p.owner.value.j].Queued? then 1 else 0
  }

  /** While anyone sleeps, every queued item has an awake worker coming for it, or its signal
      is still to come. */
  ghost predicate WakeInv(p: Pool) {
    NobodySleeps(p) || |p.queue| <= Heading(p.consumers) + Unsignalled(p)
  }

  /** So a sleeping worker and a waiting item never face each other alone: when the lock is
      free, some worker that has been woken can take it. */
  lemma SomeoneComes(p: Pool)
    requires LockInv(p) && WakeInv(p) && p.owner.None? && p.queue != [] && !NobodySleeps(p)
    ensures exists i :: 0 <= i < |p.consumers| && p.consumers[i].Woken? && Enabled(p, Lock(i))
  {
    HeadingSome(p.consumers);
    var i :| 0 <= i < |p.consumers| && HeadsForQueue(p.consumers[i]);
    assert p.consumers[i].Woken?;
  }

  lemma WakeKept(p: Pool, e: Step)
    requires LockInv(p) && WakeInv(p) && Enabled(p, e)
    ensures WakeInv(Next(p, e))
  {
    match e {
      case Lock(i) => HeadingUpdate(p.consumers, i, Checking);
      case Sleep(i) => HeadingUpdate(p.consumers, i, Asleep);
      case WakeSpuriously(i) => HeadingUpdate(p.consumers, i, Woken);
      case Dequeue(i) => HeadingUpdate(p.consumers, i, Took(p.queue[0]));
      case Unlock(i) => HeadingUpdate(p.consumers, i, Serving(p.consumers[i].item));
      case Finish(i) => HeadingUpdate(p.consumers, i, Away);
      case Signal(j, woken) =>
        if woken.Some? {
          HeadingUpdate(p.consumers, woken.value, Woken);
        }
      case _ =>
    }
  }

  // -------------------------------------------------------------- conservation

  function ConsumerHas(pc: ConsumerPc, x: int): nat {
    if (pc.Took? || pc.Serving?) && pc.item == x then 1 else 0
  }

  /** After the enqueue the item is the queue's. */
  function ProducerHas(pc: ProducerPc, x: int): nat {
    if (pc.Ready? || pc.Locked?) && pc.item == x then 1 else 0
  }

  function HeldByConsumers(consumers: seq<ConsumerPc>, x: int): nat {
    if consumers == [] then 0 else ConsumerHas(consumers[0], x) + HeldByConsumers(consumers[1..], x)
  }

  function HeldByProducers(producers: seq<ProducerPc>, x: int): nat {
    if producers == [] then 0 else ProducerHas(producers[0], x) + HeldByProducers(producers[1..], x)
  }

  /** How often an item is queued or held by some thread. */
  function Live(p: Pool, x: int): nat {
    HeldByProducers(p.producers, x) + multiset(p.queue)[x] + HeldByConsumers(p.consumers, x)
  }

  /** Every item that entered is in exactly one place: with its producer, queued, with its
      consumer, or finished. */
  ghost predicate Conserved(p: Pool) {
    forall x :: Live(p, x) + p.finished[x] == p.entered[x]
  }

  lemma {:induction false} ConsumerUpdate(consumers: seq<ConsumerPc>, i: nat, pc: ConsumerPc, x: int)
    requires i < |consumers|
    ensures HeldByConsumers(consumers[i := pc], x) + ConsumerHas(consumers[i], x)
         == HeldByConsumers(consumers, x) + ConsumerHas(pc, x)
  {
    if i == 0 {
      assert consumers[0 := pc][1..] == consumers[1..];
    } else {
      assert consumers[i := pc][1..] == consumers[1..][i - 1 := pc];
      ConsumerUpdate(consumers[1..], i - 1, pc, x);
    }
  }

  lemma {:induction false} ProducerUpdate(producers: seq<ProducerPc>, j: nat, pc: ProducerPc, x: int)
    requires j < |producers|
    ensures HeldByProducers(producers[j := pc], x) + ProducerHas(producers[j], x)
         == HeldByProducers(producers, x) + ProducerHas(pc, x)
  {
    if j == 0 {
      assert producers[0 := pc][1..] == producers[1..];
    } else {
      assert producers[j := pc][1..] == producers[1..][j - 1 := pc];
      ProducerUpdate(producers[1..], j - 1, pc, x);
    }
  }

  lemma PushCount(item: int, queue: seq<int>, x: int)
    ensures multiset([item] + queue)[x] == multiset(queue)[x] + if item == x then 1 else 0
  {
  }

  lemma PopCount(queue: seq<int>, x: int)
    requires queue != []
    ensures multiset(queue)[x] == multiset(queue[1..])[x] + if queue[0] == x then 1 else 0
  {
    assert queue == [queue[0]] + queue[1..];
    PushCount(queue[0], queue[1..], x);
  }

  lemma LiveConsumerStep(p: Pool, e: Step, x: int)
    requires Enabled(p, e) && IsConsumerStep(e)
    ensures Live(Next(p, e), x) + (if e.Finish? then ConsumerHas(p.consumers[e.i], x) else 0) == Live(p, x)
  {
    ConsumerUpdate(p.consumers, e.i, Next(p, e).consumers[e.i], x);
    if e.Dequeue? {
      PopCount(p.queue, x);
    }
  }

  lemma LiveProducerStep(p: Pool, e: Step, x: int)
    requires Enabled(p, e) && !IsConsumerStep(e)
    ensures Live(Next(p, e), x) == Live(p, x) + if e.Enter? && e.item == x then 1 else 0
  {
    ProducerUpdate(p.producers, e.j, Next(p, e).producers[e.j], x);
    if e.Enqueue? {
      PushCount(p.producers[e.j].item, p.queue, x);
    }
    if e.Signal? && e.woken.Some? {
      ConsumerUpdate(p.consumers, e.woken.value, Woken, x);
    }
  }

  /** A step moves items from place to place; Enter adds one and Finish takes one away. */
  lemma LiveStep(p: Pool, e: Step, x: int)
    requires Enabled(p, e)
    ensures Live(Next(p, e), x) + (if e.Finish? then ConsumerHas(p.consumers[e.i], x) else 0)
         == Live(p, x) + (if e.Enter? && e.item == x then 1 else 0)
  {
    if IsConsumerStep(e) {
      LiveConsumerStep(p, e, x);
    } else {
      LiveProducerStep(p, e, x);
    }
  }

  lemma ConservedKept(p: Pool, e: Step)
    requires Conserved(p) && Enabled(p, e)
    ensures Conserved(Next(p, e))
  {
    forall x
      ensures Live(Next(p, e), x) + Next(p, e).finished[x] == Next(p, e).entered[x]
    {
      LiveStep(p, e, x);
      assert Live(p, x) + p.finished[x] == p.entered[x];
    }
  }

  /** What a consumer holds is live. */
  lemma {:induction false} HeldCounts(consumers: seq<ConsumerPc>, i: nat, x: int)
    requires i < |consumers| && ConsumerHas(consumers[i], x) == 1
    ensures HeldByConsumers(consumers, x) >= 1
  {
    if i > 0 {
      HeldCounts(consumers[1..], i - 1, x);
    }
  }

  lemma {:induction false} HeldByOne(consumers: seq<ConsumerPc>, x: int)
    requires HeldByConsumers(consumers, x) > 0
    ensures exists i :: 0 <= i < |consumers| && ConsumerHas(consumers[i], x) == 1
  {
    if ConsumerHas(consumers[0], x) == 0 {
      HeldByOne(consumers[1..], x);
      var i :| 0 <= i < |consumers[1..]| && ConsumerHas(consumers[1..][i], x) == 1;
      assert ConsumerHas(consumers[i + 1], x) == 1;
    }
  }

  lemma {:induction false} HeldByProducer(producers: seq<ProducerPc>, x: int)
    requires HeldByProducers(producers, x) > 0
    ensures exists j :: 0 <= j < |producers| && ProducerHas(producers[j], x) == 1
  {
    if ProducerHas(producers[0], x) == 0 {
      HeldByProducer(producers[1..], x);
      var j :| 0 <= j < |producers[1..]| && ProducerHas(producers[1..][j], x) == 1;
      assert ProducerHas(producers[j + 1], x) == 1;
    }
  }

  /** A live item is somewhere. */
  lemma LiveSomewhere(p: Pool, x: int)
    requires Live(p, x) > 0
    ensures x in p.queue
         || (exists i :: 0 <= i < |p.consumers| && ConsumerHas(p.consumers[i], x) == 1)
         || (exists j :: 0 <= j < |p.producers| && ProducerHas(p.producers[j], x) == 1)
  {
    if HeldByConsumers(p.consumers, x) > 0 {
      HeldByOne(p.consumers, x);
    } else if HeldByProducers(p.producers, x) > 0 {
      HeldByProducer(p.producers, x);
    }
  }

  /** An item that is live once is in one place: the consumer that holds it is the only one, and
      it is not queued. */
  lemma Exclusive(p: Pool, i: nat, x: int)
    requires Live(p, x) <= 1
    requires i < |p.consumers| && ConsumerHas(p.consumers[i], x) == 1
    ensures Live(p, x) == 1
    ensures x !in p.queue
    ensures forall k :: 0 <= k < |p.consumers| && k != i ==> ConsumerHas(p.consumers[k], x) == 0
    ensures forall j :: 0 <= j < |p.producers| ==> ProducerHas(p.producers[j], x) == 0
  {
    HeldCounts(p.consumers, i, x);
    forall k | 0 <= k < |p.consumers| && k != i
      ensures ConsumerHas(p.consumers[k], x) == 0
    {
      if ConsumerHas(p.consumers[k], x) == 1 {
        ConsumerUpdate(p.consumers, i, Away, x);
        HeldCounts(p.consumers[i := Away], k, x);
      }
    }
    forall j | 0 <= j < |p.producers|
      ensures ProducerHas(p.producers[j], x) == 0
    {
      if ProducerHas(p.producers[j], x) == 1 {
        ProducerUpdate(p.producers, j, Resting, x);
      }
    }
  }

  /** No item is in two places. An item may come back once it is finished, as the number of a
      closed connection does. */
  ghost predicate LiveOnce(p: Pool) {
    forall x :: Live(p, x) <= 1
  }

  lemma LiveOnceKept(p: Pool, e: Step)
    requires LiveOnce(p) && Enabled(p, e) && (e.Enter? ==> Live(p, e.item) == 0)
    ensures LiveOnce(Next(p, e))
  {
    forall x
      ensures Live(Next(p, e), x) <= 1
    {
      LiveStep(p, e, x);
      assert Live(p, x) <= 1;
    }
  }

  /** The item of a consumer that finishes was with this consumer alone, and is then nowhere and
      finished once more. */
  lemma FinishedOnce(p: Pool, i: nat)
    requires LiveOnce(p) && Enabled(p, Finish(i))
    ensures var c, p' := p.consumers[i].item, Next(p, Finish(i));
            && Live(p, c) == 1 && Live(p', c) == 0
            && p'.finished == p.finished[c := p.finished[c] + 1]
            && c !in p.queue
            && (forall k :: 0 <= k < |p.consumers| && k != i ==> ConsumerHas(p.consumers[k], c) == 0)
            && forall j :: 0 <= j < |p.producers| ==> ProducerHas(p.producers[j], c) == 0
  {
    var c := p.consumers[i].item;
    assert Live(p, c) <= 1;
    Exclusive(p, i, c);
    LiveStep(p, Finish(i), c);
  }

  // ------------------------------------------------------------------ the pool

  ghost predicate Inv(p: Pool) {
    LockInv(p) && WakeInv(p) && Conserved(p)
  }

  lemma {:induction false} NobodyHolds(consumers: seq<ConsumerPc>, producers: seq<ProducerPc>, x: int)
    requires forall i :: 0 <= i < |consumers| ==> ConsumerHas(consumers[i], x) == 0
    requires forall j :: 0 <= j < |producers| ==> ProducerHas(producers[j], x) == 0
    ensures HeldByConsumers(consumers, x) == 0 && HeldByProducers(producers, x) == 0
  {
    if consumers != [] {
      NobodyHolds(consumers[1..], producers, x);
    } else if producers != [] {
      NobodyHolds(consumers, producers[1..], x);
    }
  }

  lemma StartInv(queue: seq<int>, consumers: nat, producers: nat)
    ensures Inv(Start(queue, consumers, producers))
  {
    var p := Start(queue, consumers, producers);
    forall x
      ensures Live(p, x) + p.finished[x] == p.entered[x]
    {
      NobodyHolds(p.consumers, p.producers, x);
    }
  }

  lemma StartEmpty(consumers: nat, producers: nat)
    ensures LiveOnce(Start([], consumers, producers))
    ensures forall x :: Live(Start([], consumers, producers), x) == 0
  {
    var p := Start([], consumers, producers);
    forall x
      ensures Live(p, x) == 0
    {
      NobodyHolds(p.consumers, p.producers, x);
    }
  }

  lemma StepInv(p: Pool, e: Step)
    requires Inv(p) && Enabled(p, e)
    ensures Inv(Next(p, e))
  {
    LockKept(p, e);
    WakeKept(p, e);
    ConservedKept(p, e);
  }

  // ------------------------------------------------------------------- at rest

  /** Nothing can happen but a new item or a spurious wakeup. */
  ghost predicate AtRest(p: Pool) {
    forall e :: Enabled(p, e) ==> e.Enter? || e.WakeSpuriously?
  }

  lemma AllAsleep(p: Pool)
    requires LockInv(p) && AtRest(p)
    ensures p.owner.None?
    ensures forall i :: 0 <= i < |p.consumers| ==> p.consumers[i].Asleep?
    ensures forall j :: 0 <= j < |p.producers| ==> p.producers[j].Resting?
  {
    if p.owner.Some? {
      var e := OwnerGoesOn(p);
      assert false;
    }
    forall i | 0 <= i < |p.consumers|
      ensures p.consumers[i].Asleep?
    {
      assert !Enabled(p, Lock(i)) && !Enabled(p, Finish(i));
    }
    forall j | 0 <= j < |p.producers|
      ensures p.producers[j].Resting?
    {
      assert !Enabled(p, LockToEnqueue(j));
    }
  }

  /** A pool with consumers is at rest only when it has nothing left. */
  lemma RestIsEmpty(p: Pool)
    requires LockInv(p) && WakeInv(p) && AtRest(p) && |p.consumers| > 0
    ensures p.queue == [] && forall x :: Live(p, x) == 0
  {
    AllAsleep(p);
    HeadingSome(p.consumers);
    assert p.consumers[0].Asleep?;
    forall x
      ensures Live(p, x) == 0
    {
      NobodyHolds(p.consumers, p.producers, x);
    }
  }
}
