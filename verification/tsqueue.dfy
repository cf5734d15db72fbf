/**
 The thread-safe queue between the network thread and the message loop, as interleaved steps of
 any number of producers in `push_back` and of the one consumer in `Update`. Locking, unlocking,
 waiting and notifying are separate steps. Models `olc::net::tsqueue` and `Update`.
 */
module TsQueues {
  import opened Options

  datatype Thread = Producer(index: nat) | Consumer

  /** Where a producer stands in `push_back`. */
  datatype ProducerPc<T> =
    | Idle
    | NeedQueue(msg: T)   // about to lock muxQueue
    | InQueue(msg: T)     // holds muxQueue, about to emplace
    | NeedWait            // holds muxQueue, has emplaced, about to lock muxWait
    | NeedNotify          // holds both, about to notify
    | HasNotified         // holds both, about to unlock muxWait
    | Leaving             // holds muxQueue, about to unlock it

  /** Where the consumer stands in `Update`, in the order of the code. */
  datatype ConsumerPc<T> =
    | Resting                     // between two calls of Update
    | WaitEnter                   // wait(): about to lock muxWait
    | WaitNeedQueue               // holds muxWait; empty(): about to lock muxQueue
    | WaitInQueue                 // holds both, about to look at the deque
    | WaitSaw(sawEmpty: bool)     // holds both, about to unlock muxQueue
    | WaitChecked(wasEmpty: bool) // holds muxWait, about to sleep or to leave wait()
    | Asleep(notified: bool)      // inside cv.wait, holds nothing
    | LoopTest                    // the loop condition: compares MsgCount
    | LoopNeedQueue               // the loop condition: empty(), about to lock muxQueue
    | LoopInQueue                 // holds muxQueue
    | LoopSaw(loopEmpty: bool)    // holds muxQueue, about to unlock it
    | PopNeedQueue                // pop_front: about to lock muxQueue
    | PopInQueue                  // holds muxQueue
    | Popped(taken: T)            // holds muxQueue, about to unlock it
    | Handling(current: T)        // OnMessage

  /**
   `pushed` and `handled` record all messages ever emplaced and ever handled; `base` is the number
   handled before the current call of Update.
   */
  datatype State<T> = State(
    queue: seq<T>, queueOwner: Option<Thread>, waitOwner: Option<Thread>,
    producers: seq<ProducerPc<T>>, consumer: ConsumerPc<T>,
    max: nat, count: nat, pushed: seq<T>, handled: seq<T>, base: nat)

  datatype Step<T> =
    | Call(caller: nat, msg: T)              // a producer calls push_back
    | Produce(index: nat)                    // a producer goes on
    | Consume                                // the consumer goes on
    | StartUpdate(nMax: nat, lowCpu: bool)   // the message loop calls Update
    | SpuriousWakeup                         // cv.wait may return unasked

  function Init<T>(n: nat): State<T> {
    State([], None, None, seq(n, _ => Idle), Resting, 0, 0, [], [], 0)
  }

  predicate CanProduce<T>(s: State<T>, i: nat) {
    i < |s.producers| &&
    match s.producers[i]
    case Idle => false
    case NeedQueue(_) => s.queueOwner == None
    case NeedWait => s.waitOwner == None
    case _ => true
  }

  predicate CanConsume<T>(s: State<T>) {
    match s.consumer
    case Resting => false
    case WaitEnter => s.waitOwner == None
    case Asleep(notified) => notified && s.waitOwner == None
    case WaitNeedQueue => s.queueOwner == None
    case LoopNeedQueue => s.queueOwner == None
    case PopNeedQueue => s.queueOwner == None
    case PopInQueue => s.queue != []   // front() of an empty deque is undefined
    case _ => true
  }

  predicate Enabled<T>(s: State<T>, step: Step<T>) {
    match step
    case Call(i, _) => i < |s.producers| && s.producers[i].Idle?
    case Produce(i) => CanProduce(s, i)
    case Consume => CanConsume(s)
    case StartUpdate(_, _) => s.consumer.Resting?
    case SpuriousWakeup => s.consumer.Asleep?
  }

  function At<T>(s: State<T>, i: nat, pc: ProducerPc<T>): State<T>
    requires i < |s.producers|
  {
    s.(producers := s.producers[i := pc])
  }

  function ProduceStep<T>(s: State<T>, i: nat): State<T>
    requires CanProduce(s, i)
  {
    match s.producers[i]
    case NeedQueue(msg) => At(s, i, InQueue(msg)).(queueOwner := Some(Producer(i)))
    case InQueue(msg) => At(s, i, NeedWait).(queue := s.queue + [msg], pushed := s.pushed + [msg])
    case NeedWait => At(s, i, NeedNotify).(waitOwner := Some(Producer(i)))
    case NeedNotify =>
      At(s, i, HasNotified).(consumer := if s.consumer.Asleep? then Asleep(true) else s.consumer)
    case HasNotified => At(s, i, Leaving).(waitOwner := None)
    case Leaving => At(s, i, Idle).(queueOwner := None)
  }

  function ConsumeStep<T>(s: State<T>): State<T>
    requires CanConsume(s)
  {
    match s.consumer
    case WaitEnter => s.(consumer := WaitNeedQueue, waitOwner := Some(Consumer))
    case WaitNeedQueue => s.(consumer := WaitInQueue, queueOwner := Some(Consumer))
    case WaitInQueue => s.(consumer := WaitSaw(|s.queue| == 0))
    case WaitSaw(empty) => s.(consumer := WaitChecked(empty), queueOwner := None)
    case WaitChecked(empty) => s.(consumer := if empty then Asleep(false) else LoopTest, waitOwner := None)
    case Asleep(_) => s.(consumer := WaitNeedQueue, waitOwner := Some(Consumer))
    case LoopTest => s.(consumer := if s.count < s.max then LoopNeedQueue else Resting)
    case LoopNeedQueue => s.(consumer := LoopInQueue, queueOwner := Some(Consumer))
    case LoopInQueue => s.(consumer := LoopSaw(|s.queue| == 0))
    case LoopSaw(empty) => s.(consumer := if empty then Resting else PopNeedQueue, queueOwner := None)
    case PopNeedQueue => s.(consumer := PopInQueue, queueOwner := Some(Consumer))
    case PopInQueue => s.(consumer := Popped(s.queue[0]), queue := s.queue[1..])
    case Popped(msg) => s.(consumer := Handling(msg), queueOwner := None)
    case Handling(msg) => s.(consumer := LoopTest, handled := s.handled + [msg], count := s.count + 1)
  }

  function Next<T>(s: State<T>, step: Step<T>): State<T>
    requires Enabled(s, step)
  {
    match step
    case Call(i, msg) => At(s, i, NeedQueue(msg))
    case Produce(i) => ProduceStep(s, i)
    case Consume => ConsumeStep(s)
    case StartUpdate(nMax, lowCpu) =>
      s.(consumer := if lowCpu then WaitEnter else LoopTest, max := nMax, count := 0, base := |s.handled|)
    case SpuriousWakeup => s.(consumer := Asleep(true))
  }

  predicate Run<T>(s: State<T>, steps: seq<Step<T>>)
    decreases steps
  {
    steps == [] || (Enabled(s, steps[0]) && Run(Next(s, steps[0]), steps[1..]))
  }

  function After<T>(s: State<T>, steps: seq<Step<T>>): State<T>
    requires Run(s, steps)
    decreases steps
  {
    if steps == [] then s else After(Next(s, steps[0]), steps[1..])
  }

  // ---- The invariant ----

  predicate ProducerHoldsQueue<T>(pc: ProducerPc<T>) {
    !pc.Idle? && !pc.NeedQueue?
  }

  predicate ProducerHoldsWait<T>(pc: ProducerPc<T>) {
    pc.NeedNotify? || pc.HasNotified?
  }

  predicate ConsumerHoldsQueue<T>(pc: ConsumerPc<T>) {
    pc.WaitInQueue? || pc.WaitSaw? || pc.LoopInQueue? || pc.LoopSaw? || pc.PopInQueue? || pc.Popped?
  }

  predicate ConsumerHoldsWait<T>(pc: ConsumerPc<T>) {
    pc.WaitNeedQueue? || pc.WaitInQueue? || pc.WaitSaw? || pc.WaitChecked?
  }

  /** The owner recorded in a mutex is the one thread whose position says it holds it. */
  predicate Ownership<T>(s: State<T>) {
    && (s.queueOwner == Some(Consumer) <==> ConsumerHoldsQueue(s.consumer))
    && (s.waitOwner == Some(Consumer) <==> ConsumerHoldsWait(s.consumer))
    && (forall i :: 0 <= i < |s.producers| ==>
          (s.queueOwner == Some(Producer(i)) <==> ProducerHoldsQueue(s.producers[i])))
    && (forall i :: 0 <= i < |s.producers| ==>
          (s.waitOwner == Some(Producer(i)) <==> ProducerHoldsWait(s.producers[i])))
    && (s.queueOwner.Some? && s.queueOwner.value.Producer? ==> s.queueOwner.value.index < |s.producers|)
    && (s.waitOwner.Some? && s.waitOwner.value.Producer? ==> s.waitOwner.value.index < |s.producers|)
  }

  /** A producer that has emplaced and not yet notified; it still holds muxQueue. */
  predicate Announcing<T>(s: State<T>) {
    && s.queueOwner.Some? && s.queueOwner.value.Producer?
    && s.queueOwner.value.index < |s.producers|
    && var pc := s.producers[s.queueOwner.value.index];
    (pc.NeedWait? || pc.NeedNotify?)
  }

  /** The message between the deque and the log of handled ones. */
  function InFlight<T>(s: State<T>): seq<T> {
    match s.consumer
    case Popped(msg) => [msg]
    case Handling(msg) => [msg]
    case _ => []
  }

  predicate Inv<T(==)>(s: State<T>) {
    Ownership(s) && Observed(s) && Accounted(s)
  }

  /** What the consumer has seen of the deque is still true, or a producer is about to tell it. */
  predicate Observed<T(==)>(s: State<T>) {
    && (s.consumer.WaitSaw? ==> (s.consumer.sawEmpty <==> s.queue == []))
    && (s.consumer.LoopSaw? ==> (s.consumer.loopEmpty <==> s.queue == []))
    && (s.consumer == WaitChecked(false) || s.consumer.PopNeedQueue? || s.consumer.PopInQueue? ==>
          s.queue != [])
    && (s.consumer == WaitChecked(true) || s.consumer == Asleep(false) ==>
          s.queue == [] || Announcing(s))
  }

  predicate Accounted<T(==)>(s: State<T>) {
    && s.pushed == s.handled + InFlight(s) + s.queue
    && |s.handled| == s.base + s.count
    && (s.consumer.Resting? || s.consumer.LoopTest? || !InUpdateLoop(s.consumer) || s.count < s.max)
    && s.count <= s.max
  }

  predicate InUpdateLoop<T>(pc: ConsumerPc<T>) {
    && !pc.Resting? && !pc.WaitEnter? && !pc.WaitNeedQueue? && !pc.WaitInQueue?
    && !pc.WaitSaw? && !pc.WaitChecked? && !pc.Asleep?
  }

  lemma ProduceKeepsOwnership<T>(s: State<T>, i: nat)
    requires Ownership(s) && CanProduce(s, i)
    ensures Ownership(ProduceStep(s, i))
  {
  }

  lemma ProduceKeepsInv<T>(s: State<T>, i: nat)
    requires Inv(s) && CanProduce(s, i)
    ensures Inv(ProduceStep(s, i))
  {
    ProduceKeepsOwnership(s, i);
    assert s.queueOwner == Some(Producer(i)) <==> ProducerHoldsQueue(s.producers[i]);
    assert Accounted(ProduceStep(s, i)) by {
      if s.producers[i].InQueue? {
        var msg := s.producers[i].msg;
        assert s.handled + InFlight(s) + (s.queue + [msg]) == s.pushed + [msg];
      }
    }
  }

  lemma ConsumeKeepsOwnership<T>(s: State<T>)
    requires Ownership(s) && CanConsume(s)
    ensures Ownership(ConsumeStep(s))
  {
  }

  lemma ConsumeKeepsAccounts<T>(s: State<T>)
    requires Accounted(s) && CanConsume(s)
    ensures Accounted(ConsumeStep(s))
  {
    match s.consumer
    case PopInQueue => assert s.handled + [s.queue[0]] + s.queue[1..] == s.handled + [] + s.queue;
    case Handling(msg) => assert s.handled + [msg] + s.queue == (s.handled + [msg]) + [] + s.queue;
    case _ =>
  }

  lemma ConsumeKeepsInv<T>(s: State<T>)
    requires Inv(s) && CanConsume(s)
    ensures Inv(ConsumeStep(s))
  {
    ConsumeKeepsOwnership(s);
    ConsumeKeepsAccounts(s);
    hide Ownership, Accounted;
  }

  lemma NextKeepsInv<T>(s: State<T>, step: Step<T>)
    requires Inv(s) && Enabled(s, step)
    ensures Inv(Next(s, step))
  {
    match step
    case Produce(i) => ProduceKeepsInv(s, i);
    case Consume => ConsumeKeepsInv(s);
    case _ =>
  }

  lemma {:induction false} RunKeepsInv<T>(s: State<T>, steps: seq<Step<T>>)
    requires Inv(s) && Run(s, steps)
    ensures Inv(After(s, steps))
    decreases steps
  {
    if steps != [] {
      NextKeepsInv(s, steps[0]);
      RunKeepsInv(Next(s, steps[0]), steps[1..]);
    }
  }

  // ---- Results over every run from the initial state ----

  /**
   No lost wakeup: whenever the consumer sleeps un-notified and the deque is not empty, some
   producer is between its emplace and its notify and still holds muxQueue.
   */
  lemma NoLostWakeup<T>(n: nat, steps: seq<Step<T>>)
    requires Run(Init(n), steps)
    ensures var s := After(Init<T>(n), steps);
      s.consumer == Asleep(false) && s.queue != [] ==>
        exists i :: 0 <= i < |s.producers| && s.queueOwner == Some(Producer(i))
          && (s.producers[i].NeedWait? || s.producers[i].NeedNotify?)
  {
    RunKeepsInv(Init(n), steps);
    var s := After(Init<T>(n), steps);
    if s.consumer == Asleep(false) && s.queue != [] {
      assert Announcing(s);
      assert s.queueOwner == Some(Producer(s.queueOwner.value.index));
    }
  }

  /** Mutual exclusion: whoever is inside one of the two critical regions is there alone. */
  lemma MutualExclusion<T>(n: nat, steps: seq<Step<T>>, i: nat, j: nat)
    requires Run(Init(n), steps)
    ensures var s := After(Init<T>(n), steps);
      i < |s.producers| && j < |s.producers| && i != j ==>
        && !(ProducerHoldsQueue(s.producers[i]) && ProducerHoldsQueue(s.producers[j]))
        && !(ProducerHoldsQueue(s.producers[i]) && ConsumerHoldsQueue(s.consumer))
        && !(ProducerHoldsWait(s.producers[i]) && ProducerHoldsWait(s.producers[j]))
        && !(ProducerHoldsWait(s.producers[i]) && ConsumerHoldsWait(s.consumer))
  {
    RunKeepsInv(Init(n), steps);
  }

  /**
   Linearity: the messages handled, the one in hand and the ones queued are, in this order, exactly
   the messages pushed; the deque is never popped while empty; one Update handles at most nMax.
   */
  lemma QueueIsLinear<T>(n: nat, steps: seq<Step<T>>)
    requires Run(Init(n), steps)
    ensures var s := After(Init<T>(n), steps);
      && s.pushed == s.handled + InFlight(s) + s.queue
      && (s.consumer.PopInQueue? ==> s.queue != [])
      && |s.handled| - s.base == s.count <= s.max
  {
    RunKeepsInv(Init(n), steps);
  }

  // ---- Stuck states ----

  /** No thread can go on by itself; a new call of push_back may still come from outside. */
  predicate Stuck<T>(s: State<T>) {
    && !s.consumer.Resting? && !CanConsume(s)
    && forall i :: 0 <= i < |s.producers| ==> !CanProduce(s, i)
  }

  /** Nothing to do: the consumer sleeps on an empty queue and every producer is idle. */
  predicate Quiescent<T(==)>(s: State<T>) {
    && s.consumer == Asleep(false) && s.queue == []
    && forall i :: 0 <= i < |s.producers| ==> s.producers[i].Idle?
  }

  /** The consumer holds muxWait and needs muxQueue; producer i holds muxQueue and needs muxWait. */
  predicate CrossedLocks<T>(s: State<T>, i: nat) {
    && i < |s.producers|
    && s.consumer.WaitNeedQueue? && s.waitOwner == Some(Consumer)
    && s.producers[i].NeedWait? && s.queueOwner == Some(Producer(i))
  }

  ghost predicate Deadlocked<T>(s: State<T>) {
    exists i :: CrossedLocks(s, i)
  }

  /** A reachable state is stuck exactly when it is quiescent or deadlocked by the crossed lock order. */
  lemma StuckIff<T>(n: nat, steps: seq<Step<T>>)
    requires Run(Init(n), steps)
    ensures var s := After(Init<T>(n), steps);
      Stuck(s) <==> Quiescent(s) || Deadlocked(s)
  {
    RunKeepsInv(Init(n), steps);
    var s := After(Init<T>(n), steps);
    if Stuck(s) {
      StuckIsQuiescentOrDeadlocked(s);
    }
  }

  /** A producer that holds muxWait holds muxQueue as well, so that it can go on. */
  lemma WaitOwnerRuns<T>(s: State<T>)
    requires Ownership(s)
    ensures s.waitOwner.Some? && s.waitOwner.value.Producer? ==>
        exists i :: 0 <= i < |s.producers| && CanProduce(s, i)
  {
    if s.waitOwner.Some? && s.waitOwner.value.Producer? {
      var j := s.waitOwner.value.index;
      assert s.waitOwner == Some(Producer(j));
      assert ProducerHoldsWait(s.producers[j]);
      assert s.queueOwner == Some(Producer(j));
      assert CanProduce(s, j);
    }
  }

  lemma StuckIsQuiescentOrDeadlocked<T>(s: State<T>)
    requires Inv(s) && Stuck(s)
    ensures Quiescent(s) || Deadlocked(s)
  {
    WaitOwnerRuns(s);
    if s.queueOwner.Some? && s.queueOwner.value.Producer? {
      var i := s.queueOwner.value.index;
      assert s.queueOwner == Some(Producer(i));
      assert !CanProduce(s, i) && s.producers[i].NeedWait?;
      assert CrossedLocks(s, i);
    } else {
      assert !ConsumerHoldsQueue(s.consumer);
      assert s.queueOwner == None;
      forall i | 0 <= i < |s.producers| ensures s.producers[i].Idle? {
        assert !CanProduce(s, i);
      }
    }
  }

  /** The deadlock does occur, with any producers at all and one call of Update that waits. */
  lemma DeadlockReachable<T>(n: nat, msg: T)
    requires n > 0
    ensures exists steps :: Run(Init(n), steps) && Deadlocked(After<T>(Init(n), steps))
  {
    var s0 := Init<T>(n);
    var s1 := Next(s0, StartUpdate(1, true));
    var s2 := Next(s1, Consume);
    var s3 := Next(s2, Call(0, msg));
    var s4 := Next(s3, Produce(0));
    var s5 := Next(s4, Produce(0));
    assert CrossedLocks(s5, 0);
    RunOneMore(s4, Produce(0), []);
    RunOneMore(s3, Produce(0), [Produce(0)]);
    RunOneMore(s2, Call(0, msg), [Produce(0), Produce(0)]);
    RunOneMore(s1, Consume, [Call(0, msg), Produce(0), Produce(0)]);
    RunOneMore(s0, StartUpdate(1, true), [Consume, Call(0, msg), Produce(0), Produce(0)]);
  }

  lemma RunOneMore<T>(s: State<T>, step: Step<T>, steps: seq<Step<T>>)
    requires Enabled(s, step) && Run(Next(s, step), steps)
    ensures Run(s, [step] + steps) && After(s, [step] + steps) == After(Next(s, step), steps)
  {
    assert ([step] + steps)[1..] == steps;
  }

  /** It is final: later calls of push_back only add blocked producers, and nothing is ever handled. */
  lemma {:induction false} DeadlockIsFinal<T>(s: State<T>, steps: seq<Step<T>>)
    requires Inv(s) && Deadlocked(s) && Run(s, steps)
    ensures Deadlocked(After(s, steps))
    ensures After(s, steps).handled == s.handled && After(s, steps).queue == s.queue
    decreases steps
  {
    if steps != [] {
      var i :| CrossedLocks(s, i);
      assert forall j :: 0 <= j < |s.producers| && j != i ==> s.producers[j].Idle? || s.producers[j].NeedQueue?;
      assert steps[0].Call?;
      NextKeepsInv(s, steps[0]);
      assert CrossedLocks(Next(s, steps[0]), i);
      DeadlockIsFinal(Next(s, steps[0]), steps[1..]);
    }
  }

  /** No call of Update waits. */
  predicate NeverWaits<T>(steps: seq<Step<T>>) {
    forall i :: 0 <= i < |steps| && steps[i].StartUpdate? ==> !steps[i].lowCpu
  }

  lemma {:induction false} StaysOutOfWait<T>(s: State<T>, steps: seq<Step<T>>)
    requires Run(s, steps) && NeverWaits(steps) && (s.consumer.Resting? || InUpdateLoop(s.consumer))
    ensures var pc := After(s, steps).consumer;
      pc.Resting? || InUpdateLoop(pc)
    decreases steps
  {
    if steps != [] {
      StaysOutOfWait(Next(s, steps[0]), steps[1..]);
    }
  }

  /** A message loop that polls instead of waiting can always go on. */
  lemma PollingNeverStuck<T>(n: nat, steps: seq<Step<T>>)
    requires Run(Init(n), steps) && NeverWaits(steps)
    ensures !Stuck(After<T>(Init(n), steps))
  {
    StaysOutOfWait(Init<T>(n), steps);
    StuckIff(n, steps);
  }

  /** Threads neither come nor go. */
  lemma {:induction false} RunKeepsThreads<T>(s: State<T>, steps: seq<Step<T>>)
    requires Run(s, steps)
    ensures |After(s, steps).producers| == |s.producers|
    decreases steps
  {
    if steps != [] {
      RunKeepsThreads(Next(s, steps[0]), steps[1..]);
    }
  }

  /** A run of n producers, with waiting calls of Update only if they are allowed, that ends in the deadlock. */
  ghost predicate RunDeadlocks<T>(n: nat, waiting: bool, steps: seq<Step<T>>) {
    && Run(Init(n), steps) && (waiting || NeverWaits(steps))
    && Deadlocked(After<T>(Init(n), steps))
  }

  /** Exactly when the program can deadlock: if there is a producer and Update may wait. */
  lemma DeadlockPossibleIff<T(!new)>(n: nat, waiting: bool, msg: T)
    ensures (exists steps: seq<Step<T>> :: RunDeadlocks(n, waiting, steps)) <==> n > 0 && waiting
  {
    if n > 0 && waiting {
      DeadlockReachable(n, msg);
      var steps :| Run(Init(n), steps) && Deadlocked(After<T>(Init(n), steps));
      assert RunDeadlocks(n, waiting, steps);
    }
    forall steps: seq<Step<T>> | RunDeadlocks(n, waiting, steps) ensures n > 0 && waiting {
      RunKeepsThreads(Init<T>(n), steps);
      StuckIff(n, steps);
      if NeverWaits(steps) {
        PollingNeverStuck(n, steps);
      }
    }
  }
}
