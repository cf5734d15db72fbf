/**
 Progress of the queue: exactly from which reachable states all that has been pushed can still be
 handled. The point of no return lies before the deadlock itself.
 */
module QueueProgress {
  import opened Options
  import opened TsQueues

  /** The consumer holds muxWait and needs muxQueue; producer i holds muxQueue and has yet to ask for muxWait. */
  predicate Crossing<T>(s: State<T>, i: nat) {
    && i < |s.producers| && s.consumer.WaitNeedQueue?
    && (s.producers[i].InQueue? || s.producers[i].NeedWait?)
  }

  ghost predicate Doomed<T>(s: State<T>) {
    exists i :: Crossing(s, i)
  }

  /** Every call of push_back has returned, and every message has been handled. */
  predicate Finished<T(==)>(s: State<T>) {
    s.handled == s.pushed && forall i :: 0 <= i < |s.producers| ==> s.producers[i].Idle?
  }

  /** Steps without a new call of push_back and without luck; the message loop keeps calling Update its way. */
  predicate OwnStep<T>(step: Step<T>, waiting: bool) {
    step.Produce? || step.Consume? || (step.StartUpdate? && step.lowCpu == waiting)
  }

  predicate OwnRun<T>(s: State<T>, steps: seq<Step<T>>, waiting: bool) {
    Run(s, steps) && forall i :: 0 <= i < |steps| ==> OwnStep(steps[i], waiting)
  }

  // ---- Past the point of no return ----

  lemma DoomedStep<T>(s: State<T>, step: Step<T>, i: nat)
    requires Inv(s) && Crossing(s, i) && Enabled(s, step)
    ensures Crossing(Next(s, step), i) && Next(s, step).handled == s.handled
  {
    assert ProducerHoldsQueue(s.producers[i]) && s.queueOwner == Some(Producer(i));
    assert s.waitOwner == Some(Consumer);
    assert forall j :: 0 <= j < |s.producers| && j != i ==> !ProducerHoldsQueue(s.producers[j]);
  }

  /** No continuation leads back, new calls included, and nothing is ever handled again. */
  lemma {:induction false} DoomIsFinal<T>(s: State<T>, steps: seq<Step<T>>)
    requires Inv(s) && Doomed(s) && Run(s, steps)
    ensures Doomed(After(s, steps)) && After(s, steps).handled == s.handled
    decreases steps
  {
    if steps != [] {
      var i :| Crossing(s, i);
      DoomedStep(s, steps[0], i);
      NextKeepsInv(s, steps[0]);
      DoomIsFinal(Next(s, steps[0]), steps[1..]);
    }
  }

  // ---- Before it ----

  /** Steps left in push_back. */
  function PcWork<T>(pc: ProducerPc<T>): nat {
    match pc
    case Idle => 0
    case NeedQueue(_) => 6
    case InQueue(_) => 5
    case NeedWait => 4
    case NeedNotify => 3
    case HasNotified => 2
    case Leaving => 1
  }

  function ProducersWork<T>(producers: seq<ProducerPc<T>>, n: nat): nat
    requires n <= |producers|
  {
    if n == 0 then 0 else ProducersWork(producers, n - 1) + PcWork(producers[n - 1])
  }

  lemma {:induction false} WorkUpdate<T>(producers: seq<ProducerPc<T>>, n: nat, i: nat, pc: ProducerPc<T>)
    requires n <= |producers| && i < |producers|
    ensures ProducersWork(producers[i := pc], n) ==
      ProducersWork(producers, n) + if i < n then PcWork(pc) - PcWork(producers[i]) else 0
  {
    if n > 0 {
      WorkUpdate(producers, n - 1, i, pc);
    }
  }

  function PushWork<T>(s: State<T>): nat {
    ProducersWork(s.producers, |s.producers|)
  }

  function Items<T>(s: State<T>): nat {
    |InFlight(s)| + |s.queue|
  }

  /** How far the consumer is from its next message; a call of Update that may take no more starts over. */
  function Rank<T>(s: State<T>): nat {
    var full := if s.count >= s.max then 20 else 0;
    var nothing := if |s.queue| == 0 then 30 else 0;
    match s.consumer
    case Resting => 19
    case WaitEnter => 18 + full
    case Asleep(notified) => if notified then 18 + full else 0
    case WaitNeedQueue => 17 + full
    case WaitInQueue => 16 + full
    case WaitSaw(_) => 15 + full
    case WaitChecked(_) => 14 + full
    case LoopTest => 13 + full
    case LoopNeedQueue => 12 + nothing
    case LoopInQueue => 11 + nothing
    case LoopSaw(_) => 10 + nothing
    case PopNeedQueue => 9
    case PopInQueue => 8
    case Popped(_) => 7
    case Handling(_) => 6
  }

  ghost predicate Closer<T>(s: State<T>, next: State<T>) {
    (PushWork(s), Items(s), Rank(s) decreases to PushWork(next), Items(next), Rank(next))
  }

  /** A producer that can go on, other than into the crossing, brings the end closer. */
  lemma ProduceCloser<T>(s: State<T>, i: nat)
    requires Inv(s) && !Doomed(s) && CanProduce(s, i)
    requires s.producers[i].NeedQueue? ==> !s.consumer.WaitNeedQueue?
    ensures !Doomed(ProduceStep(s, i)) && Closer(s, ProduceStep(s, i))
  {
    var next := ProduceStep(s, i);
    WorkUpdate(s.producers, |s.producers|, i, next.producers[i]);
    forall j: nat ensures !Crossing(next, j) {
      assert !Crossing(s, j) && !Crossing(s, i);
    }
  }

  /** The consumer goes on where it owns muxQueue, or where no producer does. */
  lemma ConsumeCloser<T>(s: State<T>)
    requires Inv(s) && !Finished(s) && CanConsume(s)
    requires ConsumerHoldsQueue(s.consumer) || s.consumer.WaitNeedQueue? || s.consumer.WaitChecked?
      || forall i :: 0 <= i < |s.producers| ==> s.producers[i].Idle?
    ensures !Doomed(ConsumeStep(s)) && Closer(s, ConsumeStep(s))
  {
    var next := ConsumeStep(s);
    forall i: nat ensures !Crossing(next, i) {
      assert i < |s.producers| && ProducerHoldsQueue(s.producers[i]) ==> s.queueOwner == Some(Producer(i));
    }
    assert s.queue == [] && InFlight(s) == [] ==> s.handled == s.pushed;
    hide Ownership, PushWork;
  }

  /** While some producer holds muxQueue it can go on, or the consumer can let go of muxWait. */
  lemma StepUnderProducer<T>(s: State<T>, i: nat) returns (step: Step<T>)
    requires Inv(s) && !Doomed(s) && !Finished(s) && s.queueOwner == Some(Producer(i))
    ensures (step == Produce(i) || step == Consume) && Enabled(s, step)
    ensures !Doomed(Next(s, step)) && Closer(s, Next(s, step))
  {
    assert i < |s.producers| && ProducerHoldsQueue(s.producers[i]);
    if CanProduce(s, i) {
      step := Produce(i);
      ProduceCloser(s, i);
    } else {
      assert !Crossing(s, i);
      WaitOwnerRuns(s);
      assert s.waitOwner == Some(Consumer);
      step := Consume;
      ConsumeCloser(s);
    }
  }

  /** While nobody holds muxQueue and no producer is at work, the consumer goes on or is called again. */
  lemma StepAlone<T>(s: State<T>, waiting: bool) returns (step: Step<T>)
    requires Inv(s) && !Doomed(s) && !Finished(s) && s.queueOwner == None
    requires forall i :: 0 <= i < |s.producers| ==> s.producers[i].Idle?
    ensures OwnStep(step, waiting) && Enabled(s, step)
    ensures !Doomed(Next(s, step)) && Closer(s, Next(s, step))
  {
    WaitOwnerRuns(s);
    assert s.waitOwner == None || s.waitOwner == Some(Consumer);
    if s.consumer.Resting? {
      step := StartUpdate(1, waiting);
      var next := Next(s, step);
      assert forall i :: !Crossing(next, i);
    } else {
      assert s.queue == [] && InFlight(s) == [] ==> s.handled == s.pushed;
      step := Consume;
      ConsumeCloser(s);
    }
  }

  /** Before the point of no return there is always a step that brings the end closer and stays before it. */
  lemma StepTowardsEnd<T>(s: State<T>, waiting: bool) returns (step: Step<T>)
    requires Inv(s) && !Doomed(s) && !Finished(s)
    ensures OwnStep(step, waiting) && Enabled(s, step)
    ensures Inv(Next(s, step)) && !Doomed(Next(s, step)) && Closer(s, Next(s, step))
  {
    if s.queueOwner.Some? && s.queueOwner.value.Producer? {
      step := StepUnderProducer(s, s.queueOwner.value.index);
    } else if ConsumerHoldsQueue(s.consumer) || s.consumer.WaitNeedQueue? {
      step := Consume;
      ConsumeCloser(s);
    } else if i :| 0 <= i < |s.producers| && !s.producers[i].Idle? {
      step := Produce(i);
      ProduceCloser(s, i);
    } else {
      step := StepAlone(s, waiting);
    }
    NextKeepsInv(s, step);
  }

  lemma OwnRunOneMore<T>(s: State<T>, step: Step<T>, steps: seq<Step<T>>, waiting: bool)
    requires OwnStep(step, waiting) && Enabled(s, step) && OwnRun(Next(s, step), steps, waiting)
    ensures OwnRun(s, [step] + steps, waiting) && After(s, [step] + steps) == After(Next(s, step), steps)
  {
    hide OwnStep, Enabled, Next;
    RunOneMore(s, step, steps);
  }

  ghost predicate Finishes<T>(s: State<T>, steps: seq<Step<T>>, waiting: bool) {
    OwnRun(s, steps, waiting) && Finished(After(s, steps))
  }

  lemma {:induction false} FinishReachable<T(!new)>(s: State<T>, waiting: bool)
    requires Inv(s) && !Doomed(s)
    ensures exists steps: seq<Step<T>> :: Finishes(s, steps, waiting)
    decreases PushWork(s), Items(s), Rank(s)
  {
    hide Inv, Doomed, Finished, PushWork, Items, Rank, Next, Enabled, OwnStep;
    if Finished(s) {
      assert Finishes(s, [], waiting);
    } else {
      var step := StepTowardsEnd(s, waiting);
      FinishReachable(Next(s, step), waiting);
      var steps: seq<Step<T>> :| Finishes(Next(s, step), steps, waiting);
      OwnRunOneMore(s, step, steps, waiting);
      assert Finishes(s, [step] + steps, waiting);
    }
  }

  /**
   Exactly from which reachable states the program can finish: some continuation without new calls of
   push_back, whichever way Update is called, lets every call return and every message be handled
   if and only if no crossing has begun.
   */
  lemma FinishableIff<T(!new)>(n: nat, steps: seq<Step<T>>, waiting: bool)
    requires Run(Init(n), steps)
    ensures var s := After<T>(Init(n), steps);
      (exists more: seq<Step<T>> :: Finishes(s, more, waiting)) <==> !Doomed(s)
  {
    RunKeepsInv(Init<T>(n), steps);
    var s := After<T>(Init(n), steps);
    if Doomed(s) {
      forall more: seq<Step<T>> ensures !Finishes(s, more, waiting) {
        if Run(s, more) {
          DoomIsFinal(s, more);
        }
      }
    } else {
      FinishReachable(s, waiting);
    }
  }

  // ---- What one call of Update does ----

  /** The consumer's next step ends the call of Update. */
  predicate Returning<T>(s: State<T>) {
    CanConsume(s) && ConsumeStep(s).consumer.Resting?
  }

  predicate InWait<T>(pc: ConsumerPc<T>) {
    !pc.Resting? && !InUpdateLoop(pc)
  }

  /** Update returns only when it has handled as many messages as it may, or has found the deque empty. */
  lemma ReturnsOnlyWhenDone<T>(n: nat, steps: seq<Step<T>>)
    requires Run(Init(n), steps)
    ensures var s := After<T>(Init(n), steps);
      Returning(s) ==> s.count == s.max || s.queue == []
  {
    RunKeepsInv(Init<T>(n), steps);
  }

  /** wait() returns only when there is something in the deque. */
  lemma WaitEndsWithMessage<T>(n: nat, steps: seq<Step<T>>)
    requires Run(Init(n), steps)
    ensures var s := After<T>(Init(n), steps);
      InWait(s.consumer) && CanConsume(s) && !InWait(ConsumeStep(s).consumer) ==> s.queue != []
  {
    RunKeepsInv(Init<T>(n), steps);
  }

  /** Within one call of Update. */
  predicate OneCall<T>(steps: seq<Step<T>>) {
    forall i :: 0 <= i < |steps| ==> !steps[i].StartUpdate?
  }

  lemma StepWithinCall<T>(s: State<T>, step: Step<T>)
    requires Enabled(s, step) && !step.StartUpdate?
    ensures var t := Next(s, step);
      s.handled <= t.handled && s.pushed <= t.pushed && t.base == s.base && t.max == s.max
  {
  }

  lemma {:induction false} RunWithinCall<T>(s: State<T>, steps: seq<Step<T>>)
    requires Run(s, steps) && OneCall(steps)
    ensures var t := After(s, steps);
      s.handled <= t.handled && s.pushed <= t.pushed && t.base == s.base && t.max == s.max
    decreases steps
  {
    if steps != [] {
      hide Enabled, Next;
      StepWithinCall(s, steps[0]);
      RunWithinCall(Next(s, steps[0]), steps[1..]);
    }
  }

  /**
   One call of Update, whatever the producers do meanwhile: at every moment it has handled, in order,
   the first `count` of the messages queued before and pushed since, never more than nMax; and when it
   returns it has handled nMax of them, or has left none.
   */
  lemma UpdateHandles<T>(n: nat, steps: seq<Step<T>>, nMax: nat, waiting: bool, more: seq<Step<T>>)
    requires Run(Init(n), steps) && After<T>(Init(n), steps).consumer.Resting?
    requires Run(Next(After<T>(Init(n), steps), StartUpdate(nMax, waiting)), more) && OneCall(more)
    ensures var s := After<T>(Init(n), steps);
      var t := After(Next(s, StartUpdate(nMax, waiting)), more);
      && s.pushed <= t.pushed
      && var offered := s.queue + t.pushed[|s.pushed|..];
      && t.count <= nMax && t.count <= |offered| && t.handled == s.handled + offered[..t.count]
      && (Returning(t) ==> t.count == nMax || t.count == |offered|)
  {
    var s := After<T>(Init(n), steps);
    var started := Next(s, StartUpdate(nMax, waiting));
    RunKeepsInv(Init<T>(n), steps);
    NextKeepsInv(s, StartUpdate(nMax, waiting));
    RunKeepsInv(started, more);
    RunWithinCall(started, more);
    var t := After(started, more);
    CallAccounts(s, started, t);
  }

  lemma CallAccounts<T>(s: State<T>, started: State<T>, t: State<T>)
    requires Inv(s) && s.consumer.Resting? && Inv(t)
    requires started.pushed == s.pushed && started.handled == s.handled && started.base == |s.handled|
    requires started.handled <= t.handled && started.pushed <= t.pushed
    requires t.base == started.base && t.max == started.max
    ensures var offered := s.queue + t.pushed[|s.pushed|..];
      && t.count <= t.max && t.count <= |offered| && t.handled == s.handled + offered[..t.count]
      && (Returning(t) ==> t.count == t.max || t.count == |offered|)
  {
    hide Ownership, Observed, Returning, ConsumeStep, CanConsume;
    var offered := s.queue + t.pushed[|s.pushed|..];
    assert s.pushed == s.handled + s.queue by {
      assert s.handled + [] + s.queue == s.handled + s.queue;
    }
    assert t.pushed == s.pushed + t.pushed[|s.pushed|..];
    assert s.handled + offered == (s.handled + s.queue) + t.pushed[|s.pushed|..];
    assert t.handled + (InFlight(t) + t.queue) == t.handled + InFlight(t) + t.queue;
    TakenInOrder(s.handled, offered, t.handled, InFlight(t) + t.queue);
    if Returning(t) {
      ReturningMeans(t);
    }
  }

  lemma TakenInOrder<T>(before: seq<T>, offered: seq<T>, after: seq<T>, left: seq<T>)
    requires before <= after && after + left == before + offered
    ensures var n := |after| - |before|;
      && n <= |offered| && after == before + offered[..n]
      && (left == [] ==> n == |offered|)
  {
    var n := |after| - |before|;
    assert after == (after + left)[..|after|] == (before + offered)[..|before| + n];
  }

  /** A call that waits is still before its first message, with one to come, or has handled one. */
  predicate WaitPays<T(==)>(s: State<T>) {
    s.max > 0 && (InWait(s.consumer) || s.count > 0 || (InUpdateLoop(s.consumer) && InFlight(s) + s.queue != []))
  }

  lemma StepKeepsWaitPays<T>(s: State<T>, step: Step<T>)
    requires Inv(s) && WaitPays(s) && Enabled(s, step) && !step.StartUpdate?
    ensures WaitPays(Next(s, step))
  {
  }

  lemma {:induction false} RunKeepsWaitPays<T>(s: State<T>, steps: seq<Step<T>>)
    requires Inv(s) && WaitPays(s) && Run(s, steps) && OneCall(steps)
    ensures WaitPays(After(s, steps))
    decreases steps
  {
    if steps != [] {
      hide Enabled, Next, Inv, WaitPays;
      StepKeepsWaitPays(s, steps[0]);
      NextKeepsInv(s, steps[0]);
      RunKeepsWaitPays(Next(s, steps[0]), steps[1..]);
    }
  }

  /** A call of Update that waits, and may handle any, does not return empty-handed, spurious wake-ups or not. */
  lemma WaitingUpdateHandles<T>(n: nat, steps: seq<Step<T>>, nMax: nat, more: seq<Step<T>>)
    requires Run(Init(n), steps) && After<T>(Init(n), steps).consumer.Resting? && nMax > 0
    requires Run(Next(After<T>(Init(n), steps), StartUpdate(nMax, true)), more) && OneCall(more)
    ensures var t := After(Next(After<T>(Init(n), steps), StartUpdate(nMax, true)), more);
      t.consumer.Resting? || Returning(t) ==> t.count > 0
  {
    var s := After<T>(Init(n), steps);
    var started := Next(s, StartUpdate(nMax, true));
    RunKeepsInv(Init<T>(n), steps);
    NextKeepsInv(s, StartUpdate(nMax, true));
    RunKeepsInv(started, more);
    RunKeepsWaitPays(started, more);
    var t := After(started, more);
    hide After, Run, Inv;
    if Returning(t) {
      ReturningMeans(t);
    }
  }

  lemma ReturningMeans<T>(s: State<T>)
    requires Inv(s) && Returning(s)
    ensures InUpdateLoop(s.consumer) && InFlight(s) == [] && (s.count == s.max || s.queue == [])
  {
  }

  /** n steps of the consumer. */
  function Consumes<T>(n: nat): (steps: seq<Step<T>>)
    ensures |steps| == n
  {
    seq(n, _ => Consume)
  }

  /** No producer is at work, and the consumer is about to compare MsgCount. */
  predicate Polling<T(==)>(s: State<T>) {
    && Inv(s) && s.consumer.LoopTest? && s.queueOwner == None
    && forall i :: 0 <= i < |s.producers| ==> s.producers[i].Idle?
  }

  /** Four steps of the consumer, each possible after the one before. */
  lemma FourSteps<T>(s: State<T>)
    requires CanConsume(s) && CanConsume(ConsumeStep(s)) && CanConsume(ConsumeStep(ConsumeStep(s)))
    requires CanConsume(ConsumeStep(ConsumeStep(ConsumeStep(s))))
    ensures Run(s, Consumes(4))
    ensures After(s, Consumes(4)) == ConsumeStep(ConsumeStep(ConsumeStep(ConsumeStep(s))))
  {
    hide CanConsume, ConsumeStep, Consumes, Run, After;
    var s1 := ConsumeStep(s);
    var s2 := ConsumeStep(s1);
    var s3 := ConsumeStep(s2);
    NoConsumes(ConsumeStep(s3));
    ConsumeOneMore(s3, 0);
    ConsumeOneMore(s2, 1);
    ConsumeOneMore(s1, 2);
    ConsumeOneMore(s, 3);
  }

  /** The loop condition finds a message. */
  lemma SeesMessage<T>(s: State<T>)
    requires s.consumer.LoopTest? && s.queueOwner == None && s.count < s.max && s.queue != []
    ensures Run(s, Consumes(4)) && After(s, Consumes(4)) == s.(consumer := PopNeedQueue)
  {
    hide Run, After, Consumes;
    FourSteps(s);
  }

  /** It is popped and handled. */
  lemma HandlesMessage<T>(s: State<T>)
    requires s.consumer.PopNeedQueue? && s.queueOwner == None && s.queue != []
    ensures Run(s, Consumes(4))
    ensures After(s, Consumes(4)) == s.(consumer := LoopTest, queue := s.queue[1..],
      handled := s.handled + [s.queue[0]], count := s.count + 1)
  {
    hide Run, After, Consumes;
    FourSteps(s);
  }

  /** Eight steps handle one message. */
  lemma OneMessage<T>(s: State<T>)
    requires Polling(s) && s.count < s.max && s.queue != []
    ensures Run(s, Consumes(8))
    ensures After(s, Consumes(8)) ==
      s.(queue := s.queue[1..], handled := s.handled + [s.queue[0]], count := s.count + 1)
    ensures Polling(After(s, Consumes(8)))
  {
    RunKeepsInvIf(s, 8);
    hide Inv, Run, After, Consumes;
    SeesMessage(s);
    HandlesMessage(s.(consumer := PopNeedQueue));
    ConsumeOn(s, 4, 4);
  }

  lemma RunKeepsInvIf<T>(s: State<T>, n: nat)
    requires Inv(s)
    ensures Run(s, Consumes(n)) ==> Inv(After(s, Consumes(n)))
  {
    if Run(s, Consumes(n)) {
      RunKeepsInv(s, Consumes(n));
    }
  }

  lemma NoConsumes<T>(s: State<T>)
    ensures Run(s, Consumes(0)) && After(s, Consumes(0)) == s
  {
  }

  lemma ConsumeOneMore<T>(s: State<T>, n: nat)
    requires CanConsume(s) && Run(ConsumeStep(s), Consumes(n))
    ensures Run(s, Consumes(n + 1)) && After(s, Consumes(n + 1)) == After(ConsumeStep(s), Consumes(n))
  {
    assert Consumes<T>(n + 1)[0] == Consume && Consumes<T>(n + 1)[1..] == Consumes(n);
    hide CanConsume, ConsumeStep;
  }

  /** The last round of the loop finds MsgCount used up or the deque empty. */
  lemma LastRound<T>(s: State<T>) returns (k: nat)
    requires Polling(s) && (s.count == s.max || s.queue == [])
    ensures Run(s, Consumes(k)) && After(s, Consumes(k)) == s.(consumer := Resting)
  {
    assert s.count <= s.max;
    hide Inv, Run, After, Consumes;
    if s.count == s.max {
      NoConsumes(ConsumeStep(s));
      ConsumeOneMore(s, 0);
      k := 1;
    } else {
      FourSteps(s);
      k := 4;
    }
  }

  lemma {:induction false} ConsumeOn<T>(s: State<T>, j: nat, k: nat)
    requires Run(s, Consumes(j)) && Run(After(s, Consumes(j)), Consumes(k))
    ensures Run(s, Consumes(j + k)) && After(s, Consumes(j + k)) == After(After(s, Consumes(j)), Consumes(k))
    decreases j
  {
    if j > 0 {
      assert Consumes<T>(j)[1..] == Consumes(j - 1) && Consumes<T>(j + k)[1..] == Consumes(j - 1 + k);
      hide Enabled, Next;
      ConsumeOn(Next(s, Consume), j - 1, k);
    }
  }

  function Least(a: nat, b: nat): nat {
    if a <= b then a else b
  }

  /** The state after the call has handled what it may and returned. */
  function Drained<T>(s: State<T>): State<T>
    requires s.count <= s.max
  {
    var m := Least(s.max - s.count, |s.queue|);
    s.(consumer := Resting, queue := s.queue[m..], handled := s.handled + s.queue[..m], count := s.count + m)
  }

  /** Handling one message and then draining is draining. */
  lemma OneThenDrained<T>(s: State<T>)
    requires s.count < s.max && s.queue != []
    ensures Drained(s.(queue := s.queue[1..], handled := s.handled + [s.queue[0]], count := s.count + 1)) == Drained(s)
  {
    var t := s.(queue := s.queue[1..], handled := s.handled + [s.queue[0]], count := s.count + 1);
    var m := Least(t.max - t.count, |t.queue|);
    assert t.queue[m..] == s.queue[m + 1..];
    assert t.handled + t.queue[..m] == s.handled + s.queue[..m + 1];
  }

  lemma NothingThenDrained<T>(s: State<T>)
    requires s.count == s.max || s.queue == []
    requires s.count <= s.max
    ensures Drained(s) == s.(consumer := Resting)
  {
    assert s.queue[0..] == s.queue && s.handled + s.queue[..0] == s.handled;
  }

  lemma {:induction false} PollDrains<T>(s: State<T>) returns (k: nat)
    requires Polling(s) && s.count <= s.max
    ensures Run(s, Consumes(k)) && After(s, Consumes(k)) == Drained(s)
    decreases |s.queue|
  {
    hide Polling, Run, After, Consumes, Drained;
    if s.count == s.max || s.queue == [] {
      NothingThenDrained(s);
      k := LastRound(s);
    } else {
      OneMessage(s);
      OneThenDrained(s);
      var rest := PollDrains(After(s, Consumes(8)));
      ConsumeOn(s, 8, rest);
      k := 8 + rest;
    }
  }

  /** muxQueue is free, or the consumer's, or some producer holds it. */
  lemma OwnerHoldsQueue<T>(s: State<T>)
    requires Ownership(s)
    ensures s.queueOwner == None || s.queueOwner == Some(Consumer)
      || exists i :: 0 <= i < |s.producers| && ProducerHoldsQueue(s.producers[i])
  {
    match s.queueOwner
    case None =>
    case Some(owner) =>
      match owner {
        case Consumer =>
        case Producer(i) => assert s.queueOwner == Some(Producer(i)) && ProducerHoldsQueue(s.producers[i]);
      }
  }

  lemma StartsPolling<T>(s: State<T>, nMax: nat)
    requires Inv(s) && s.consumer.Resting? && forall i :: 0 <= i < |s.producers| ==> s.producers[i].Idle?
    ensures Polling(Next(s, StartUpdate(nMax, false)))
  {
    NextKeepsInv(s, StartUpdate(nMax, false));
    OwnerHoldsQueue(s);
  }

  /**
   One polling Update over idle producers: left to itself it returns, having handled exactly the first
   nMax queued messages, or all if there are fewer.
   */
  lemma PollingUpdate<T>(n: nat, steps: seq<Step<T>>, nMax: nat) returns (k: nat)
    requires Run(Init(n), steps) && After<T>(Init(n), steps).consumer.Resting?
    requires forall p :: p in After<T>(Init(n), steps).producers ==> p.Idle?
    ensures var s := After<T>(Init(n), steps);
      var started := Next(s, StartUpdate(nMax, false));
      && Run(started, Consumes(k))
      && var t := After(started, Consumes(k));
      && t.consumer.Resting?
      && var m := if nMax <= |s.queue| then nMax else |s.queue|;
      t.handled == s.handled + s.queue[..m] && t.queue == s.queue[m..] && t.count == m
  {
    var s := After<T>(Init(n), steps);
    RunKeepsInv(Init<T>(n), steps);
    forall i | 0 <= i < |s.producers| ensures s.producers[i].Idle? {
      assert s.producers[i] in s.producers;
    }
    StartsPolling(s, nMax);
    hide Polling, Run, After, Consumes;
    k := PollDrains(Next(s, StartUpdate(nMax, false)));
  }
}
