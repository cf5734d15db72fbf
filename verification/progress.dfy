/**
 Progress of a joined pair of connections: while both sockets are open and nothing fails or is
 posted, the remaining work runs out, and where it has run out everything sent has been read.
 */
module Progress {
  import opened Bytes
  import opened Messages
  import opened Framing
  import opened Connections
  import opened Links
  import opened Handshake
  import opened Delivery

  /** An open connection always reads, except while a client hands over its code. */
  predicate Working(s: System) {
    ServerWorks(s.server) && ClientWorks(s.client)
  }

  /** A reachable state before any failure. */
  predicate Healthy(s: System) {
    SystemInv(s) && Working(s) && s.server.open && s.client.open
  }

  /** What goes on by itself: posted handlers, transfers of at least a byte, completions, whole reads. */
  predicate Quiet(a: Action) {
    || a.Posted? || (a.Move? && a.count > 0) || a.Written?
    || (a.Read? && a.count == CODE_SIZE)
  }

  predicate QuietRun(s: System, steps: seq<Step>) {
    Run(s, steps) && forall i :: 0 <= i < |steps| ==> Quiet(steps[i].action)
  }

  // ---- Reading goes on ----

  predicate ServerWorks(e: Endpoint) {
    e.owner == Server && (e.open ==> e.r.op != NoRead)
  }

  predicate ClientWorks(e: Endpoint) {
    e.owner == Client && (e.open ==> e.r.op != NoRead || WritingCode(e.w))
  }

  lemma ActKeepsServerAtWork(n: End, a: Action)
    requires ServerWorks(n.e) && Enabled(n.e, n.incoming, a)
    ensures ServerWorks(Act(n, a).e)
  {
    hide Resize, CodeFromShortRead, HeaderBytes;
  }

  lemma ActKeepsClientAtWork(n: End, a: Action)
    requires ClientWorks(n.e) && Enabled(n.e, n.incoming, a)
    requires n.e.r.op == ReadCode ==> n.e.w.writes == []
    ensures ClientWorks(Act(n, a).e)
  {
    hide Resize, CodeFromShortRead, HeaderBytes;
  }

  lemma NextKeepsWorking(s: System, step: Step)
    requires SystemInv(s) && Working(s) && StepEnabled(s, step)
    ensures Working(Next(s, step))
  {
    assert s.server.owner == Server && s.client.owner == Client;
    assert s.client.r.op == ReadCode ==> s.client.w.writes == [];
    hide SystemInv, Act, Enabled, WritingCode;
    match step.side
    case AtServer => ActKeepsServerAtWork(Near(s, AtServer), step.action);
    case AtClient => ActKeepsClientAtWork(Near(s, AtClient), step.action);
  }

  lemma {:induction false} RunKeepsWorking(s: System, steps: seq<Step>)
    requires SystemInv(s) && Working(s) && Run(s, steps)
    ensures SystemInv(After(s, steps)) && Working(After(s, steps))
    decreases steps
  {
    hide SystemInv, Working, Next;
    if steps != [] {
      NextKeepsInv(s, steps[0]);
      NextKeepsWorking(s, steps[0]);
      RunKeepsWorking(Next(s, steps[0]), steps[1..]);
    }
  }

  /** The server's read of the code finds the answer it expects. */
  lemma AnswerAccepted(s: System)
    requires SystemInv(s) && StepEnabled(s, Step(AtServer, Read(CODE_SIZE))) && s.server.r.op == ReadCode
    ensures Next(s, Step(AtServer, Read(CODE_SIZE))).server.open == s.server.open
  {
    hide SystemInv, CodeFromShortRead, HeaderArrived, BodyArrived, Scramble;
    ServerReadsAnswer(s);
    assert s.up.stream[0..CODE_SIZE] == s.up.stream[..CODE_SIZE];
  }

  lemma QuietActKeepsOpen(n: End, a: Action)
    requires Enabled(n.e, n.incoming, a) && Quiet(a)
    requires !(n.e.owner == Server && a.Read? && n.e.r.op == ReadCode)
    ensures Act(n, a).e.open == n.e.open
  {
  }

  /** Quiet steps close no socket: the one that could finds the code it expects. */
  lemma QuietKeepsOpen(s: System, step: Step)
    requires SystemInv(s) && StepEnabled(s, step) && Quiet(step.action)
    ensures Next(s, step).server.open == s.server.open && Next(s, step).client.open == s.client.open
  {
    assert s.client.owner == Client;
    hide SystemInv, Act, Enabled;
    if step.side == AtServer && step.action.Read? && s.server.r.op == ReadCode {
      AnswerAccepted(s);
    } else {
      QuietActKeepsOpen(Near(s, step.side), step.action);
    }
  }

  lemma QuietKeepsHealthy(s: System, step: Step)
    requires Healthy(s) && StepEnabled(s, step) && Quiet(step.action)
    ensures Polite(s, step) && Healthy(Next(s, step))
  {
    hide SystemInv, Working, Act;
    NextKeepsInv(s, step);
    NextKeepsWorking(s, step);
    QuietKeepsOpen(s, step);
  }

  // ---- The work that is left ----

  /** Bytes count twice: until they are on the stream, and until they are read. */
  function BytesLeft(w: Writer, c: Channel): int {
    2 * (CODE_SIZE + |Frames(Sent(w))|) - |c.stream| - c.taken
  }

  /** The completions to come for the queued messages and the code. */
  function WritesLeft(w: Writer): nat {
    var frameWrites := FrameWrites(w);
    2 * |w.out| + (if WritingCode(w) then 1 else 0)
    + if frameWrites != [] && frameWrites[0].kind == WriteBody then 0 else 1
  }

  function WriterWork(w: Writer): nat {
    3 * |w.posted| + WritesLeft(w)
  }

  function Work(s: System): int {
    WriterWork(s.server.w) + BytesLeft(s.server.w, s.down) + WriterWork(s.client.w) + BytesLeft(s.client.w, s.up)
  }

  lemma BytesLeftNatural(w: Writer, r: Reader, c: Channel)
    requires DirectionInv(w, r, c)
    ensures BytesLeft(w, c) >= 0
  {
    FramesAppend(w.popped + w.out, w.posted);
  }

  lemma WorkNatural(s: System)
    requires SystemInv(s)
    ensures Work(s) >= 0
  {
    BothDirections(s, AtServer);
    BothDirections(s, AtClient);
    BytesLeftNatural(s.server.w, s.client.r, s.down);
    BytesLeftNatural(s.client.w, s.server.r, s.up);
  }

  lemma PostedReducesWork(w: Writer)
    requires PumpShape(w) && w.posted != []
    ensures WriterWork(RunPosted(w)) < WriterWork(w)
  {
    var after := RunPosted(w);
    if w.out == [] {
      assert FrameWrites(w) == [] || w.failed;
      assert w.writes == [] ==> after.writes[0].kind == WriteHead;
      assert WritingCode(after) == WritingCode(w);
    }
  }

  lemma MoveReducesWork(w: Writer, i: nat, k: nat)
    requires i < |w.writes| && k <= |w.writes[i].rest|
    ensures WriterWork(MoveBytes(w, i, k)) == WriterWork(w)
  {
    var after := MoveBytes(w, i, k);
    assert forall j :: 0 <= j < |w.writes| ==> after.writes[j].kind == w.writes[j].kind;
    assert |FrameWrites(after)| == |FrameWrites(w)|;
    assert forall j :: 0 <= j < |FrameWrites(w)| ==> FrameWrites(after)[j].kind == FrameWrites(w)[j].kind;
  }

  lemma WrittenReducesWork(w: Writer)
    requires PumpShape(w) && CanFinishWrite(w)
    ensures WriterWork(FinishWrite(w)) < WriterWork(w)
  {
    var after := FinishWrite(w);
    if w.writes[0].kind == WriteCode {
      assert after.writes == FrameWrites(w);
      assert !WritingCode(after);
    } else {
      assert w.writes == FrameWrites(w) == [w.writes[0]];
      assert w.writes[1..] == [];
    }
  }

  /** A read hands nothing to the socket but a client's code, and takes at least a byte. */
  lemma ReadReducesWork(n: End)
    requires PumpShape(n.e.w) && ReaderInv(n.e.r, n.incoming) && Enabled(n.e, n.incoming, Read(CODE_SIZE))
    requires n.e.r.op == ReadCode && n.e.owner == Client ==> n.e.w.greeting == []
    ensures var after := Act(n, Read(CODE_SIZE));
      WriterWork(after.e.w) - after.incoming.taken < WriterWork(n.e.w) - n.incoming.taken
  {
    hide Parse, Resize, CodeFromShortRead, HeaderBytes;
  }

  /** One quiet action: what is sent stays the same, and work gets less at its end or on the way to it. */
  lemma QuietActReducesWork(n: End, a: Action)
    requires PumpShape(n.e.w) && ReaderInv(n.e.r, n.incoming) && Enabled(n.e, n.incoming, a) && Quiet(a)
    requires n.e.r.op == ReadCode && n.e.owner == Client ==> n.e.w.greeting == []
    ensures var after := Act(n, a);
      && Sent(after.e.w) == Sent(n.e.w)
      && WriterWork(after.e.w) - |after.outgoing| - after.incoming.taken
         < WriterWork(n.e.w) - |n.outgoing| - n.incoming.taken
  {
    ActSent(n, a);
    assert Sent(n.e.w) + [] == Sent(n.e.w);
    hide PumpShape, ReaderInv, Sent, WriterWork, RunPosted, MoveBytes, FinishWrite;
    match a
    case Posted => PostedReducesWork(n.e.w);
    case Move(i, k) => MoveReducesWork(n.e.w, i, k);
    case Written => WrittenReducesWork(n.e.w);
    case Read(_) => ReadReducesWork(n);
    case _ =>
  }

  lemma QuietStepReducesWork(s: System, step: Step)
    requires Healthy(s) && StepEnabled(s, step) && Quiet(step.action)
    ensures Work(Next(s, step)) < Work(s)
  {
    var near := Near(s, step.side);
    hide Parse, PumpShape, PumpStream;
    OutgoingGrows(near, step.action);
    QuietActReducesWork(near, step.action);
    hide Act, ReaderInv, WriterWork, Sent, Frames;
  }

  /** However the pair goes on by itself, it stops: no quiet run has more steps than there is work. */
  lemma {:induction false} QuietRunEnds(s: System, steps: seq<Step>)
    requires Healthy(s) && QuietRun(s, steps)
    ensures Healthy(After(s, steps)) && |steps| + Work(After(s, steps)) <= Work(s)
    ensures 0 <= Work(After(s, steps))
    decreases steps
  {
    hide Healthy, Next, Work, Quiet;
    if steps == [] {
      assert SystemInv(s) by { HealthyInv(s); }
      WorkNatural(s);
    } else {
      QuietKeepsHealthy(s, steps[0]);
      QuietStepReducesWork(s, steps[0]);
      QuietRunEnds(Next(s, steps[0]), steps[1..]);
    }
  }

  lemma HealthyInv(s: System)
    requires Healthy(s)
    ensures SystemInv(s)
  {
  }

  // ---- Where it stops ----

  /** What an unfinished writer does next. */
  function WriteAction(w: Writer): Action
    requires w.posted != [] || w.writes != []
  {
    if w.posted != [] then Posted
    else if w.writes[0].rest == [] then Written
    else Move(0, |w.writes[0].rest|)
  }

  lemma WriterGoesOn(e: Endpoint, incoming: Channel)
    requires PumpShape(e.w) && e.open && !e.w.failed && (e.w.posted != [] || e.w.writes != [])
    ensures Enabled(e, incoming, WriteAction(e.w)) && Quiet(WriteAction(e.w))
  {
    assert e.w.writes != [] && e.w.writes[0].kind != WriteCode ==> FrameWrites(e.w) == e.w.writes;
  }

  predicate Idle(w: Writer) {
    w.posted == [] && w.writes == []
  }

  lemma IdleHasWritten(w: Writer, stream: seq<byte>)
    requires PumpShape(w) && PumpStream(w, stream) && Idle(w) && !w.broken
    ensures w.out == [] && stream == w.greeting + Frames(Sent(w))
  {
    assert FrameWrites(w) == [];
    assert w.popped + [] + [] == w.popped;
    assert stream + [] == w.greeting + Frames(w.popped) + [] == w.greeting + Frames(w.popped);
  }

  /** A reader that has not read all of a well-formed stream has what its next read asks for. */
  lemma ReaderGoesOn(carry: seq<byte>, heard: seq<byte>, more: seq<byte>)
    requires Parse(carry, heard + more).rest == [] && more != []
    ensures var p := Parse(carry, heard);
      && (p.rest == [] ==> HEADER_SIZE <= |more|)
      && (|p.rest| == HEADER_SIZE ==> AnnouncedSize(p.rest) <= |more|)
  {
    var p := Parse(carry, heard);
    ParseAppend(carry, heard, more);
    assert Complete(p.rest + more);
    if |p.rest| == HEADER_SIZE {
      assert (p.rest + more)[4..8] == p.rest[4..8];
    }
  }

  lemma HeardAndMore(c: Channel, greeting: seq<byte>, all: seq<byte>)
    requires c.stream == greeting + all && |greeting| == CODE_SIZE <= c.taken <= |c.stream|
    ensures Heard(c) + c.stream[c.taken..] == all
  {
    assert c.stream[CODE_SIZE..] == all;
    assert c.stream[CODE_SIZE..] == c.stream[CODE_SIZE..c.taken] + c.stream[c.taken..];
  }

  lemma ReadGoesOn(w: Writer, r: Reader, c: Channel)
    requires DirectionInv(w, r, c) && w.greeting != [] && Idle(w) && !w.broken
    requires AllWellFormed(Sent(w)) && r.op != NoRead && c.taken < |c.stream|
    ensures c.taken + ReadLength(r, CODE_SIZE) <= |c.stream|
  {
    IdleHasWritten(w, c.stream);
    hide Parse, Frames, HeaderBytes, PumpShape, PumpStream, Sent;
    if r.op != ReadCode {
      HeardAndMore(c, w.greeting, Frames(Sent(w)));
      ParseFrames([], Sent(w));
      ReaderGoesOn([], Heard(c), c.stream[c.taken..]);
      if r.op == ReadBody {
        HeaderAnnounces(r.buff.id, r.buff.size);
      }
    }
  }

  lemma HeaderAnnounces(id: u32, size: u32)
    ensures AnnouncedSize(HeaderBytes(id, size)) == size
  {
    U32RoundTrip(size);
    assert HeaderBytes(id, size)[4..8] == U32Bytes(size);
  }

  /** Something can go on by itself. */
  ghost predicate CanGoOn(s: System) {
    exists step :: StepEnabled(s, step) && Quiet(step.action)
  }

  lemma WriteGoesOn(s: System, side: Side)
    requires Healthy(s) && !Idle(Near(s, side).e.w)
    ensures CanGoOn(s)
  {
    var near := Near(s, side);
    hide Parse, PumpStream, ReaderInv, HandshakeInv;
    WriterGoesOn(near.e, near.incoming);
    assert StepEnabled(s, Step(side, WriteAction(near.e.w)));
  }

  /** A client whose server is done writing can read the code. */
  lemma ClientReadsCode(s: System)
    requires Healthy(s) && Idle(s.server.w) && Idle(s.client.w) && s.client.w.greeting == []
    ensures CanGoOn(s)
  {
    hide Parse, HeaderBytes;
    IdleHasWritten(s.server.w, s.down.stream);
    hide PumpStream, PumpShape;
    assert s.client.r.op == ReadCode;
    assert StepEnabled(s, Step(AtClient, Read(CODE_SIZE)));
  }

  /**
   As long as what one side sends is well-formed and its direction is not drained, something can go
   on by itself.
   */
  lemma DrainedOrGoesOn(s: System, side: Side)
    requires Healthy(s) && AllWellFormed(Sent(Near(s, side).e.w))
    requires !Drained(Near(s, side).e.w, Near(s, Other(side)).incoming)
    ensures CanGoOn(s)
  {
    var w, far := Near(s, side).e.w, Near(s, Other(side));
    if !Idle(s.server.w) {
      WriteGoesOn(s, AtServer);
    } else if !Idle(s.client.w) {
      WriteGoesOn(s, AtClient);
    } else if s.client.w.greeting == [] {
      ClientReadsCode(s);
    } else {
      BothDirections(s, side);
      assert w.greeting != [] && !w.broken && far.e.r.op != NoRead;
      assert far.incoming.taken <= |far.incoming.stream|;
      hide SystemInv, Working;
      ReadAtOther(s, side);
    }
  }

  lemma ReadAtOther(s: System, side: Side)
    requires var w, far := Near(s, side).e.w, Near(s, Other(side));
      && DirectionInv(w, far.e.r, far.incoming) && w.greeting != [] && Idle(w) && !w.broken
      && AllWellFormed(Sent(w)) && far.e.r.op != NoRead && !Drained(w, far.incoming)
    ensures CanGoOn(s)
  {
    var w, far := Near(s, side).e.w, Near(s, Other(side));
    IdleHasWritten(w, far.incoming.stream);
    assert far.incoming.taken < |far.incoming.stream|;
    hide PumpStream, PumpShape, StandsAt;
    ReadGoesOn(w, far.e.r, far.incoming);
    hide DirectionInv;
    assert StepEnabled(s, Step(Other(side), Read(CODE_SIZE)));
  }

  // ---- Delivery is always possible ----

  /** Every side in the set has a drained direction. */
  predicate AllDrained(s: System, sides: set<Side>) {
    forall side :: side in sides ==> Drained(Near(s, side).e.w, Near(s, Other(side)).incoming)
  }

  predicate AllSendWellFormed(s: System, sides: set<Side>) {
    forall side :: side in sides ==> AllWellFormed(Sent(Near(s, side).e.w))
  }

  lemma QuietKeepsSent(s: System, step: Step, side: Side)
    requires StepEnabled(s, step) && Quiet(step.action)
    ensures Sent(Near(Next(s, step), side).e.w) == Sent(Near(s, side).e.w)
  {
    StepSent(s, step, side);
    assert Posts([step], side) == [];
  }

  lemma QuietOneMore(s: System, step: Step, steps: seq<Step>)
    requires StepEnabled(s, step) && Polite(s, step) && Quiet(step.action) && QuietRun(Next(s, step), steps)
    ensures QuietRun(s, [step] + steps) && After(s, [step] + steps) == After(Next(s, step), steps)
  {
    hide Quiet, Next, Polite, StepEnabled;
    assert ([step] + steps)[1..] == steps;
  }

  lemma StepTowards(s: System, sides: set<Side>) returns (step: Step)
    requires Healthy(s) && AllSendWellFormed(s, sides) && !AllDrained(s, sides)
    ensures StepEnabled(s, step) && Polite(s, step) && Quiet(step.action)
    ensures Healthy(Next(s, step)) && AllSendWellFormed(Next(s, step), sides) && Work(Next(s, step)) < Work(s)
  {
    hide Healthy, Work, Quiet, Next, StepEnabled, Drained, Near, AllWellFormed;
    var side :| side in sides && !Drained(Near(s, side).e.w, Near(s, Other(side)).incoming);
    DrainedOrGoesOn(s, side);
    step :| StepEnabled(s, step) && Quiet(step.action);
    QuietKeepsHealthy(s, step);
    QuietStepReducesWork(s, step);
    forall other | other in sides ensures AllWellFormed(Sent(Near(Next(s, step), other).e.w)) {
      QuietKeepsSent(s, step, other);
    }
  }

  /** From every such state the pair can go on by itself until all well-formed directions are drained. */
  lemma {:induction false} DrainReachable(s: System, sides: set<Side>)
    requires Healthy(s) && AllSendWellFormed(s, sides)
    ensures exists steps :: QuietRun(s, steps) && AllDrained(After(s, steps), sides)
    decreases Work(s)
  {
    hide Healthy, Work, Quiet, Next, StepEnabled, AllDrained, AllSendWellFormed, Polite;
    HealthyInv(s);
    WorkNatural(s);
    if AllDrained(s, sides) {
      assert QuietRun(s, []) && After(s, []) == s;
    } else {
      var step := StepTowards(s, sides);
      DrainReachable(Next(s, step), sides);
      var steps :| QuietRun(Next(s, step), steps) && AllDrained(After(Next(s, step), steps), sides);
      QuietOneMore(s, step, steps);
    }
  }

  // ---- From any reachable state ----

  lemma HealthyWhileOpen(clock: Code, uid: u32, first: Message, steps: seq<Step>)
    requires Run(Accepted(clock, uid, first), steps)
    ensures var s := After(Accepted(clock, uid, first), steps);
      s.server.open && s.client.open ==> Healthy(s)
  {
    AcceptedInv(clock, uid, first);
    assert Working(Accepted(clock, uid, first));
    hide Working, SystemInv, Accepted;
    RunKeepsWorking(Accepted(clock, uid, first), steps);
  }

  lemma {:induction false} RunOn(s: System, steps: seq<Step>, more: seq<Step>)
    requires Run(s, steps) && Run(After(s, steps), more)
    ensures Run(s, steps + more) && After(s, steps + more) == After(After(s, steps), more)
    decreases steps
  {
    if steps == [] {
      assert steps + more == more;
    } else {
      hide StepEnabled, Next, Polite;
      RunOn(Next(s, steps[0]), steps[1..], more);
      assert (steps + more)[0] == steps[0] && (steps + more)[1..] == steps[1..] + more;
    }
  }

  lemma {:induction false} QuietPostsNothing(steps: seq<Step>, more: seq<Step>, side: Side)
    requires forall i :: 0 <= i < |more| ==> Quiet(more[i].action)
    ensures Posts(steps + more, side) == Posts(steps, side)
    decreases |steps| + |more|
  {
    if steps != [] {
      QuietPostsNothing(steps[1..], more, side);
      assert (steps + more)[0] == steps[0] && (steps + more)[1..] == steps[1..] + more;
    } else if more != [] {
      QuietPostsNothing([], more[1..], side);
      assert [] + more == more && [] + more[1..] == more[1..];
    } else {
      assert steps + more == [];
    }
  }

  /** The other side has enqueued the carry fold of everything this side has sent. */
  predicate AllDelivered(first: Message, steps: seq<Step>, s: System, side: Side) {
    Near(s, Other(side)).e.r.delivered == CarryFold([], SentBy(first, steps, side))
  }

  /** Going on by itself with these steps, the pair delivers all that these sides have sent. */
  predicate DeliversAll(s: System, first: Message, steps: seq<Step>, more: seq<Step>, sides: set<Side>) {
    QuietRun(s, more) && forall side :: side in sides ==> AllDelivered(first, steps, After(s, more), side)
  }

  lemma DrainedIsDelivered(
    clock: Code, uid: u32, first: Message, steps: seq<Step>, more: seq<Step>, side: Side)
    requires Run(Accepted(clock, uid, first), steps) && QuietRun(After(Accepted(clock, uid, first), steps), more)
    requires AllWellFormed(SentBy(first, steps, side))
    ensures var s := After(After(Accepted(clock, uid, first), steps), more);
      Drained(Near(s, side).e.w, Near(s, Other(side)).incoming) ==> AllDelivered(first, steps, s, side)
  {
    hide Accepted, Drained, CarryFold, Quiet, AllWellFormed;
    RunOn(Accepted(clock, uid, first), steps, more);
    QuietPostsNothing(steps, more, side);
    EndToEndDrained(clock, uid, first, steps + more, side);
  }

  /**
   Delivery is inevitable: from every reachable state with both sockets open, however the pair goes
   on by itself, it stops after boundedly many steps, and where it stops the other side has enqueued
   the carry fold of all a side has sent, if that was well-formed.
   */
  lemma QuietRunDelivers(
    clock: Code, uid: u32, first: Message, steps: seq<Step>, more: seq<Step>, side: Side)
    requires Run(Accepted(clock, uid, first), steps)
    requires var s := After(Accepted(clock, uid, first), steps);
      s.server.open && s.client.open && QuietRun(s, more)
    requires AllWellFormed(SentBy(first, steps, side))
    ensures var s := After(Accepted(clock, uid, first), steps);
      && |more| <= Work(s)
      && (!CanGoOn(After(s, more)) ==> AllDelivered(first, steps, After(s, more), side))
  {
    hide Accepted, Healthy, Work, Quiet, CanGoOn, AllDelivered, Drained, AllWellFormed;
    var s := After(Accepted(clock, uid, first), steps);
    HealthyWhileOpen(clock, uid, first, steps);
    QuietRunEnds(s, more);
    RunOn(Accepted(clock, uid, first), steps, more);
    QuietPostsNothing(steps, more, side);
    AllAccountedFor(clock, uid, first, steps + more, side);
    var end := After(s, more);
    if !CanGoOn(end) && !Drained(Near(end, side).e.w, Near(end, Other(side)).incoming) {
      DrainedOrGoesOn(end, side);
    }
    DrainedIsDelivered(clock, uid, first, steps, more, side);
  }

  /** Delivery is always possible: some such continuation delivers everything well-formed sides have sent. */
  lemma DeliveryReachable(clock: Code, uid: u32, first: Message, steps: seq<Step>, sides: set<Side>)
    requires Run(Accepted(clock, uid, first), steps)
    requires var s := After(Accepted(clock, uid, first), steps);
      s.server.open && s.client.open
    requires forall side :: side in sides ==> AllWellFormed(SentBy(first, steps, side))
    ensures exists more :: DeliversAll(After(Accepted(clock, uid, first), steps), first, steps, more, sides)
  {
    hide Accepted, Healthy, Quiet, AllDelivered, Drained, AllWellFormed, SentBy, Near;
    var s := After(Accepted(clock, uid, first), steps);
    HealthyWhileOpen(clock, uid, first, steps);
    forall side | side in sides ensures AllWellFormed(Sent(Near(s, side).e.w)) {
      AllAccountedFor(clock, uid, first, steps, side);
    }
    DrainReachable(s, sides);
    var more :| QuietRun(s, more) && AllDrained(After(s, more), sides);
    forall side | side in sides ensures AllDelivered(first, steps, After(s, more), side) {
      DrainedIsDelivered(clock, uid, first, steps, more, side);
    }
    assert DeliversAll(s, first, steps, more, sides);
  }
}
