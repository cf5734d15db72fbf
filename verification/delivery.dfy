/**
 The results about whole runs of a joined pair of connections, and about a server-side
 connection facing an arbitrary peer.
 */
module Delivery {
  import opened Bytes
  import opened Messages
  import opened Framing
  import opened Connections
  import opened Links
  import opened Handshake

  // ---- End to end, in one direction ----

  lemma HeardIsFramed(w: Writer, c: Channel)
    requires PumpStream(w, c.stream) && |w.greeting| == CODE_SIZE && c.taken <= |c.stream|
    ensures Heard(c) <= Frames(w.popped + w.out)
  {
    var whole := w.greeting + Frames(w.popped + w.out);
    assert whole[CODE_SIZE..] == Frames(w.popped + w.out);
    if CODE_SIZE <= c.taken {
      assert c.stream == whole[..|c.stream|];
      assert Heard(c) == whole[CODE_SIZE..c.taken] == whole[CODE_SIZE..][..c.taken - CODE_SIZE];
    }
  }

  lemma DeliveredIsPrefix(w: Writer, r: Reader, c: Channel)
    requires PumpStream(w, c.stream) && |w.greeting| == CODE_SIZE && ReaderInv(r, c)
    requires AllWellFormed(Sent(w))
    ensures r.delivered <= CarryFold([], Sent(w))
  {
    var written := w.popped + w.out;
    HeardIsFramed(w, c);
    ParsePrefix([], Heard(c), Frames(written));
    assert AllWellFormed(written) by {
      assert forall i :: 0 <= i < |written| ==> written[i] == Sent(w)[i];
    }
    ParseFrames([], written);
    CarryFoldPrefix([], written, Sent(w));
  }

  /** Nothing is left to post, write or read in this direction. */
  predicate Drained(w: Writer, c: Channel) {
    && w.greeting != [] && !w.broken
    && w.posted == [] && w.out == [] && w.writes == []
    && c.taken == |c.stream|
  }

  lemma DeliveredIsAll(w: Writer, r: Reader, c: Channel)
    requires PumpStream(w, c.stream) && |w.greeting| == CODE_SIZE && ReaderInv(r, c)
    requires AllWellFormed(Sent(w)) && Drained(w, c)
    ensures r.delivered == CarryFold([], Sent(w))
  {
    HeardWhenDrained(w, c);
    ParseFrames([], Sent(w));
  }

  // ---- What was sent ----

  /** The messages Send was called with at one side during a run. */
  function Posts(steps: seq<Step>, side: Side): seq<Message> {
    if steps == [] then []
    else
      (if steps[0].side == side && steps[0].action.Post? then [steps[0].action.msg] else [])
      + Posts(steps[1..], side)
  }

  lemma ActSent(n: End, a: Action)
    requires Enabled(n.e, n.incoming, a)
    ensures Sent(Act(n, a).e.w) == Sent(n.e.w) + if a.Post? then [a.msg] else []
  {
    hide HeaderBytes, Resize, CodeFromShortRead;
    var w := n.e.w;
    match a
    case Post(m) => assert w.popped + w.out + (w.posted + [m]) == Sent(w) + [m];
    case Posted => assert w.popped + (w.out + [w.posted[0]]) + w.posted[1..] == Sent(w);
    case Written =>
      if w.out != [] {
        assert (w.popped + [w.out[0]]) + w.out[1..] + w.posted == Sent(w);
      }
    case _ =>
  }

  lemma StepSent(s: System, step: Step, side: Side)
    requires StepEnabled(s, step)
    ensures Sent(Near(Next(s, step), side).e.w) == Sent(Near(s, side).e.w) + Posts([step], side)
  {
    assert Posts([step], side) == if step.side == side && step.action.Post? then [step.action.msg] else [];
    ActSent(Near(s, step.side), step.action);
  }

  lemma {:induction false} RunSent(s: System, steps: seq<Step>, side: Side)
    requires Run(s, steps)
    ensures Sent(Near(After(s, steps), side).e.w) == Sent(Near(s, side).e.w) + Posts(steps, side)
    decreases steps
  {
    if steps != [] {
      StepSent(s, steps[0], side);
      RunSent(Next(s, steps[0]), steps[1..], side);
      assert Posts([steps[0]], side) + Posts(steps[1..], side) == Posts(steps, side);
    }
  }

  /** What one side sends in a run: the server's accept handler has posted the first message. */
  function SentBy(first: Message, steps: seq<Step>, side: Side): seq<Message> {
    (if side == AtServer then [first] else []) + Posts(steps, side)
  }

  function Other(side: Side): Side {
    if side == AtServer then AtClient else AtServer
  }

  lemma RunFromAccept(clock: Code, uid: u32, first: Message, steps: seq<Step>)
    requires Run(Accepted(clock, uid, first), steps)
    ensures SystemInv(After(Accepted(clock, uid, first), steps))
  {
    hide SystemInv, Accepted;
    AcceptedInv(clock, uid, first);
    RunKeepsInv(Accepted(clock, uid, first), steps);
  }

  /** popped, queued and posted messages are together exactly those sent, in order. */
  lemma AllAccountedFor(clock: Code, uid: u32, first: Message, steps: seq<Step>, side: Side)
    requires Run(Accepted(clock, uid, first), steps)
    ensures Sent(Near(After(Accepted(clock, uid, first), steps), side).e.w) == SentBy(first, steps, side)
  {
    var start := Accepted(clock, uid, first);
    assert Sent(start.server.w) == [first] && Sent(start.client.w) == [];
    hide Accepted;
    RunSent(start, steps, side);
  }

  /** Both ends of the direction in which a side sends. */
  predicate DirectionInv(w: Writer, r: Reader, c: Channel) {
    PumpShape(w) && PumpStream(w, c.stream) && ReaderInv(r, c) && (w.greeting == [] || |w.greeting| == CODE_SIZE)
  }

  lemma BothDirections(s: System, side: Side)
    requires SystemInv(s)
    ensures DirectionInv(Near(s, side).e.w, Near(s, Other(side)).e.r, Near(s, Other(side)).incoming)
  {
    hide PumpShape, PumpStream, ReaderInv;
  }

  /** Before its code is handed to the socket nothing of a side has reached the other. */
  lemma SilentSide(w: Writer, r: Reader, c: Channel)
    requires DirectionInv(w, r, c) && w.greeting == []
    ensures c.stream == [] && r.delivered == []
  {
    assert w.popped + w.out == [] && w.greeting + Frames([]) == [];
  }

  /**
   Safety of delivery: in every reachable state, failures and closing included, what the other side
   has enqueued is a prefix of the carry fold of exactly the messages this side sent.
   */
  lemma EndToEndPrefix(clock: Code, uid: u32, first: Message, steps: seq<Step>, side: Side)
    requires Run(Accepted(clock, uid, first), steps) && AllWellFormed(SentBy(first, steps, side))
    ensures Near(After(Accepted(clock, uid, first), steps), Other(side)).e.r.delivered
         <= CarryFold([], SentBy(first, steps, side))
  {
    hide Parse, SystemInv, Accepted, After, Run, CarryFold;
    var s := After(Accepted(clock, uid, first), steps);
    var w, far := Near(s, side).e.w, Near(s, Other(side));
    RunFromAccept(clock, uid, first, steps);
    AllAccountedFor(clock, uid, first, steps, side);
    BothDirections(s, side);
    if w.greeting == [] {
      SilentSide(w, far.e.r, far.incoming);
    } else {
      DeliveredIsPrefix(w, far.e.r, far.incoming);
    }
  }

  /** Completeness: a drained direction has delivered the whole fold. */
  lemma EndToEndDrained(clock: Code, uid: u32, first: Message, steps: seq<Step>, side: Side)
    requires Run(Accepted(clock, uid, first), steps) && AllWellFormed(SentBy(first, steps, side))
    ensures var s := After(Accepted(clock, uid, first), steps);
      var far := Near(s, Other(side));
      Drained(Near(s, side).e.w, far.incoming) ==> far.e.r.delivered == CarryFold([], SentBy(first, steps, side))
  {
    hide Parse, SystemInv, Accepted, After, Run, CarryFold;
    var s := After(Accepted(clock, uid, first), steps);
    var w, far := Near(s, side).e.w, Near(s, Other(side));
    RunFromAccept(clock, uid, first, steps);
    AllAccountedFor(clock, uid, first, steps, side);
    BothDirections(s, side);
    if Drained(w, far.incoming) {
      DeliveredIsAll(w, far.e.r, far.incoming);
    }
  }

  /** Everything this side sent has been read, and the other side's reader is still at work. */
  predicate ReadOut(s: System, side: Side) {
    var far := Near(s, Other(side));
    Drained(Near(s, side).e.w, far.incoming) && far.e.r.op != NoRead
  }

  /** A reader that is at work on a drained direction has parsed all frames. */
  lemma ReadOutIsParsed(clock: Code, uid: u32, first: Message, steps: seq<Step>, side: Side)
    requires Run(Accepted(clock, uid, first), steps) && ReadOut(After(Accepted(clock, uid, first), steps), side)
    ensures var p := Parse([], Frames(SentBy(first, steps, side)));
      var r := Near(After(Accepted(clock, uid, first), steps), Other(side)).e.r;
      r.delivered == p.msgs && (r.op == ReadHead <==> p.rest == [])
  {
    hide Parse, SystemInv, Accepted, After, Run;
    var s := After(Accepted(clock, uid, first), steps);
    RunFromAccept(clock, uid, first, steps);
    AllAccountedFor(clock, uid, first, steps, side);
    BothDirections(s, side);
    HeardWhenDrained(Near(s, side).e.w, Near(s, Other(side)).incoming);
  }

  /**
   Exactly when a drained direction was read as it was written, whatever was sent: the other side has
   delivered the carry fold and awaits a header if and only if every message announced its own body.
   */
  lemma DrainedFaithfulIff(clock: Code, uid: u32, first: Message, steps: seq<Step>, side: Side)
    requires Run(Accepted(clock, uid, first), steps) && ReadOut(After(Accepted(clock, uid, first), steps), side)
    ensures var r := Near(After(Accepted(clock, uid, first), steps), Other(side)).e.r;
      var sent := SentBy(first, steps, side);
      r.delivered == CarryFold([], sent) && r.op == ReadHead <==> AllWellFormed(sent)
  {
    hide *;
    ReadOutIsParsed(clock, uid, first, steps, side);
    FramingFaithfulIff([], SentBy(first, steps, side));
  }

  /**
   Exactly when a drained direction delivered what was sent: the other side has enqueued the very
   messages of this side and awaits a header if and only if every message announced its own body
   and no empty one followed a non-empty one.
   */
  lemma DeliveredAsSentIff(clock: Code, uid: u32, first: Message, steps: seq<Step>, side: Side)
    requires Run(Accepted(clock, uid, first), steps) && ReadOut(After(Accepted(clock, uid, first), steps), side)
    ensures var r := Near(After(Accepted(clock, uid, first), steps), Other(side)).e.r;
      var sent := SentBy(first, steps, side);
      r.delivered == sent && r.op == ReadHead <==> AllWellFormed(sent) && NoEmptyAfterNonEmpty(sent)
  {
    ReadOutIsParsed(clock, uid, first, steps, side);
    ArrivesAsSentIff([], SentBy(first, steps, side));
    hide Parse, Frames, SentBy, Accepted, After, Run, AllWellFormed, NoEmptyAfterNonEmpty, ReadOut;
  }

  lemma HeardWhenDrained(w: Writer, c: Channel)
    requires PumpStream(w, c.stream) && |w.greeting| == CODE_SIZE && Drained(w, c)
    ensures CODE_SIZE <= c.taken && Heard(c) == Frames(Sent(w))
  {
    assert c.stream + [] == c.stream;
    assert w.greeting + Frames(w.popped) + [] == w.greeting + Frames(w.popped);
    assert Heard(c) == Frames(w.popped);
    assert Sent(w) == w.popped + [] + [] == w.popped;
  }

  /**
   Frame boundaries: whenever either reader awaits a header, the bytes it has read are the code and
   whole frames, as many as the delivered messages announce.
   */
  lemma FrameBoundary(clock: Code, uid: u32, first: Message, steps: seq<Step>, side: Side)
    requires Run(Accepted(clock, uid, first), steps)
    ensures var n := Near(After(Accepted(clock, uid, first), steps), side);
      n.e.r.op == ReadHead ==> n.incoming.taken == CODE_SIZE + Announced(n.e.r.delivered)
  {
    hide Parse, Announced, SystemInv, Accepted, After, Run, PumpShape, PumpStream;
    var s := After(Accepted(clock, uid, first), steps);
    RunFromAccept(clock, uid, first, steps);
    BothDirections(s, Other(side));
    ParseConsumes([], Heard(Near(s, side).incoming));
  }

  /**
   Whatever else is sent, the first message a client enqueues is the one posted by the accept
   handler, and the connection bears the id it was accepted under.
   */
  lemma FirstMessageIsAccept(clock: Code, uid: u32, first: Message, steps: seq<Step>)
    requires Run(Accepted(clock, uid, first), steps) && WellFormed(first)
    ensures var s := After(Accepted(clock, uid, first), steps);
      s.server.id == uid && (s.client.r.delivered != [] ==> s.client.r.delivered[0] == first)
  {
    hide Parse, SystemInv, DirectionInv, Accepted, After, Run;
    var s := After(Accepted(clock, uid, first), steps);
    RunKeepsId(Accepted(clock, uid, first), steps);
    AcceptedUnder(clock, uid, first);
    RunFromAccept(clock, uid, first, steps);
    AllAccountedFor(clock, uid, first, steps, AtServer);
    BothDirections(s, AtServer);
    FirstDelivered(s.server.w, s.client.r, s.down, first);
  }

  lemma AcceptedUnder(clock: Code, uid: u32, first: Message)
    ensures Accepted(clock, uid, first).server.id == uid
  {
  }

  lemma FirstDelivered(w: Writer, r: Reader, c: Channel, first: Message)
    requires DirectionInv(w, r, c) && Sent(w) != [] && Sent(w)[0] == first && WellFormed(first)
    ensures r.delivered != [] ==> r.delivered[0] == first
  {
    hide Parse, PumpShape, Frames;
    if w.greeting == [] {
      SilentSide(w, r, c);
    } else {
      HeardIsFramed(w, c);
      ParsePrefix([], Heard(c), Frames(w.popped + w.out));
      if w.popped + w.out == [] {
        NothingFramed(w.popped + w.out);
      } else {
        assert (w.popped + w.out)[0] == Sent(w)[0];
        FirstFrameParsed(w.popped + w.out);
      }
    }
  }

  lemma NothingFramed(ms: seq<Message>)
    requires ms == []
    ensures Parse([], Frames(ms)).msgs == []
  {
  }

  lemma FirstFrameParsed(ms: seq<Message>)
    requires ms != [] && WellFormed(ms[0])
    ensures Parse([], Frames(ms)).msgs != [] && Parse([], Frames(ms)).msgs[0] == ms[0]
  {
    ParseFrame([], ms[0]);
    ParseAppend([], Frame(ms[0]), Frames(ms[1..]));
    hide Parse, Frame;
    assert Delivered(ms[0], []) == ms[0];
  }

  /**
   An honest client always passes: whenever the server's read of the code completes in a run, the
   server goes on to read messages and its socket is as open as before.
   */
  lemma HonestClientPasses(clock: Code, uid: u32, first: Message, steps: seq<Step>)
    requires Run(Accepted(clock, uid, first), steps)
    ensures var s := After(Accepted(clock, uid, first), steps);
      var read := Step(AtServer, Read(CODE_SIZE));
      s.server.r.op == ReadCode && StepEnabled(s, read) ==>
        Next(s, read).server.r.op == ReadHead && Next(s, read).server.open == s.server.open
  {
    hide Parse, PumpShape, PumpStream, SystemInv, Accepted, After, Run, CodeFromShortRead;
    var s := After(Accepted(clock, uid, first), steps);
    RunFromAccept(clock, uid, first, steps);
    if s.server.r.op == ReadCode && StepEnabled(s, Step(AtServer, Read(CODE_SIZE))) {
      ServerReadsAnswer(s);
      assert s.up.stream[0..CODE_SIZE] == s.up.stream[..CODE_SIZE];
    }
  }

  lemma {:induction false} RunKeepsId(s: System, steps: seq<Step>)
    requires Run(s, steps)
    ensures After(s, steps).server.id == s.server.id
    decreases steps
  {
    if steps != [] {
      RunKeepsId(Next(s, steps[0]), steps[1..]);
    }
  }

  // ---- The write pump over whole runs ----

  /**
   In every reachable state at most one frame write is outstanding, before any failure one is
   exactly when the queue is not empty, and the stream plus what the socket still owes is the
   greeting, the popped frames, and the front's header or whole frame as the phase says.
   */
  lemma WritePump(clock: Code, uid: u32, first: Message, steps: seq<Step>, side: Side)
    requires Run(Accepted(clock, uid, first), steps)
    ensures var n := Near(After(Accepted(clock, uid, first), steps), side);
      var w := n.e.w;
      && |FrameWrites(w)| <= 1
      && (FrameWrites(w) != [] ==> w.out != [])
      && (!w.failed ==> (|FrameWrites(w)| == 1 <==> w.out != []))
      && (w.failed ==> FrameWrites(w) == [])
      && (!w.broken && w.out == [] ==> n.outgoing + Pending(w.writes) == w.greeting + Frames(w.popped))
      && (!w.broken && FrameWrites(w) != [] ==>
            n.outgoing + Pending(w.writes) == w.greeting + Frames(w.popped) +
              if FrameWrites(w)[0].kind == WriteHead then HeaderBytes(w.out[0].id, w.out[0].size)
              else Frame(w.out[0]))
  {
    hide Parse, Accepted;
    RunFromAccept(clock, uid, first, steps);
    var w := Near(After(Accepted(clock, uid, first), steps), side).e.w;
    assert w.greeting + Frames(w.popped) + [] == w.greeting + Frames(w.popped);
  }

  /** Closed after a failed frame write, with nothing of the queue handed to the socket. */
  predicate Dead(n: End) {
    n.e.w.failed && !n.e.open && n.e.w.out != [] && FrameWrites(n.e.w) == [] && PumpShape(n.e.w)
  }

  lemma ActKeepsDead(n: End, a: Action)
    requires Dead(n) && Enabled(n.e, n.incoming, a)
    requires a.Read? && n.e.r.op == ReadCode && n.e.owner == Client ==> n.e.w.greeting == []
    ensures Dead(Act(n, a))
    ensures Act(n, a).outgoing == n.outgoing && Act(n, a).e.w.popped == n.e.w.popped
  {
    assert n.e.w.greeting != [];
  }

  /** After a failed header or body write no frame write ever starts again and nothing more is written. */
  lemma {:induction false} FailureIsFinal(s: System, steps: seq<Step>, side: Side)
    requires SystemInv(s) && Run(s, steps) && Near(s, side).e.w.failed
    ensures var before, after := Near(s, side), Near(After(s, steps), side);
      && after.e.w.failed && !after.e.open && FrameWrites(after.e.w) == []
      && after.outgoing == before.outgoing && after.e.w.popped == before.e.w.popped
    decreases steps
  {
    if steps != [] {
      NextKeepsInv(s, steps[0]);
      StepKeepsDead(s, steps[0], side);
      FailureIsFinal(Next(s, steps[0]), steps[1..], side);
    }
  }

  lemma StepKeepsDead(s: System, step: Step, side: Side)
    requires SystemInv(s) && StepEnabled(s, step) && Near(s, side).e.w.failed
    ensures var before, after := Near(s, side), Near(Next(s, step), side);
      && Dead(after)
      && after.outgoing == before.outgoing && after.e.w.popped == before.e.w.popped
  {
    hide Parse, PumpStream;
    assert Dead(Near(s, side));
    if step.side == side {
      ActKeepsDead(Near(s, side), step.action);
    }
  }

  /** The server reads something else than the answer it expects. */
  predicate IsWrongAnswer(n: End, a: Action)
    requires Enabled(n.e, n.incoming, a)
  {
    && a.Read? && n.e.owner == Server && n.e.r.op == ReadCode
    && CodeFromShortRead(n.incoming.stream[n.incoming.taken..n.incoming.taken + a.count]) != n.e.codeSum
  }

  /** Disconnecting, a failed read or write, and a wrong answer to the code close the socket. */
  lemma ClosingCloses(n: End, a: Action)
    requires Enabled(n.e, n.incoming, a)
    ensures a == Disconnect || a == ReadError || a == WriteError ==> !Act(n, a).e.open
    ensures a == ReadError ==> Act(n, a).e.r.op == NoRead
    ensures IsWrongAnswer(n, a) ==> !Act(n, a).e.open && Act(n, a).e.r.op == NoRead
  {
    hide HeaderBytes, Resize, CodeFromShortRead;
  }

  /** A closed socket stays closed, and not a byte more goes out, whatever is posted or initiated. */
  lemma {:induction false} ClosedForGood(n: End, actions: seq<Action>)
    requires ActRun(n, actions) && !n.e.open
    ensures !ActAfter(n, actions).e.open && ActAfter(n, actions).outgoing == n.outgoing
    decreases actions
  {
    if actions != [] {
      ActKeepsClosed(n, actions[0]);
      ClosedForGood(Act(n, actions[0]), actions[1..]);
    }
  }

  lemma ActKeepsClosed(n: End, a: Action)
    requires Enabled(n.e, n.incoming, a) && !n.e.open
    ensures !Act(n, a).e.open && Act(n, a).outgoing == n.outgoing
  {
    hide HeaderBytes, Resize, CodeFromShortRead;
  }

  // ---- A server-side connection facing an arbitrary peer ----

  predicate ActRun(n: End, actions: seq<Action>)
    decreases actions
  {
    actions == [] ||
    (Enabled(n.e, n.incoming, actions[0]) && ActRun(Act(n, actions[0]), actions[1..]))
  }

  function ActAfter(n: End, actions: seq<Action>): End
    requires ActRun(n, actions)
    decreases actions
  {
    if actions == [] then n else ActAfter(Act(n, actions[0]), actions[1..])
  }

  /** The first k bytes of the peer, completed with zeros, are the expected answer. */
  predicate AnsweredIn(code: Code, stream: seq<byte>, k: nat) {
    1 <= k <= CODE_SIZE && k <= |stream| && CodeFromShortRead(stream[..k]) == Scramble(code)
  }

  ghost predicate Answered(code: Code, stream: seq<byte>, whole: bool) {
    exists k :: AnsweredIn(code, stream, k) && (whole ==> k == CODE_SIZE)
  }

  /** Reads of the code return all eight bytes; other reads do not depend on the count. */
  predicate ReadsWhole(actions: seq<Action>) {
    forall i :: 0 <= i < |actions| && actions[i].Read? ==> actions[i].count == CODE_SIZE
  }

  ghost predicate GateInv(n: End, whole: bool) {
    && n.e.owner == Server && n.e.codeSum == Scramble(n.e.codeOut)
    && (n.e.r.op == ReadCode ==> n.incoming.taken == 0 && n.e.r.delivered == [])
    && (n.e.r.op == ReadHead || n.e.r.op == ReadBody || n.e.r.delivered != [] ==>
          Answered(n.e.codeOut, n.incoming.stream, whole))
  }

  lemma ActKeepsGate(n: End, a: Action, whole: bool)
    requires GateInv(n, whole) && Enabled(n.e, n.incoming, a)
    requires whole && a.Read? ==> a.count == CODE_SIZE
    ensures GateInv(Act(n, a), whole) && Act(n, a).incoming.stream == n.incoming.stream
    ensures Act(n, a).e.codeOut == n.e.codeOut
  {
    if a.Read? && n.e.r.op == ReadCode && Act(n, a).e.r.op == ReadHead {
      assert n.incoming.stream[0..a.count] == n.incoming.stream[..a.count];
      assert AnsweredIn(n.e.codeOut, n.incoming.stream, a.count);
    }
  }

  lemma {:induction false} ActRunKeepsGate(n: End, actions: seq<Action>, whole: bool)
    requires GateInv(n, whole) && ActRun(n, actions) && (whole ==> ReadsWhole(actions))
    ensures var after := ActAfter(n, actions);
      && GateInv(after, whole) && after.incoming.stream == n.incoming.stream
      && after.e.codeOut == n.e.codeOut
    decreases actions
  {
    if actions != [] {
      ActKeepsGate(n, actions[0], whole);
      ActRunKeepsGate(Act(n, actions[0]), actions[1..], whole);
    }
  }

  /** A server-side connection after its accept handler, before an arbitrary peer. */
  function Facing(clock: Code, uid: u32, first: Message, peer: seq<byte>): End {
    End(Accepted(clock, uid, first).server, [], Channel(peer, 0))
  }

  /**
   Whatever bytes a peer sends and however the reads are cut, a server-side connection enqueues
   a message only if the peer's bytes began with the scrambled form of its own code; with whole
   reads of the code, only if its first eight bytes are exactly that.
   */
  lemma GatedByCode(clock: Code, uid: u32, first: Message, peer: seq<byte>, actions: seq<Action>)
    requires ActRun(Facing(clock, uid, first, peer), actions)
    ensures var n := ActAfter(Facing(clock, uid, first, peer), actions);
      && (n.e.r.delivered != [] ==> Answered(clock, peer, false))
      && (n.e.r.delivered != [] && ReadsWhole(actions) ==> Scramble(clock) <= peer)
  {
    var start := Facing(clock, uid, first, peer);
    ActRunKeepsGate(start, actions, false);
    if ReadsWhole(actions) {
      ActRunKeepsGate(start, actions, true);
      if ActAfter(start, actions).e.r.delivered != [] {
        assert AnsweredIn(clock, peer, CODE_SIZE);
        WholeCode(peer[..CODE_SIZE]);
      }
    }
  }

  // ---- What such a peer can have heard ----

  lemma {:induction false} ActRunKeepsReader(n: End, actions: seq<Action>)
    requires n.e.owner == Server && ReaderInv(n.e.r, n.incoming) && ActRun(n, actions) && ReadsWhole(actions)
    ensures ReaderInv(ActAfter(n, actions).e.r, ActAfter(n, actions).incoming)
    decreases actions
  {
    if actions != [] {
      hide ReaderInv, Act, Enabled;
      ActKeepsOwner(n, actions[0]);
      ActKeepsReader(n, actions[0]);
      ActRunKeepsReader(Act(n, actions[0]), actions[1..]);
    }
  }

  lemma ActKeepsOwner(n: End, a: Action)
    requires Enabled(n.e, n.incoming, a)
    ensures Act(n, a).e.owner == n.e.owner
  {
  }

  /** The messages in what a peer sends: those behind the right answer, and none without it. */
  function Audible(clock: Code, peer: seq<byte>): seq<Message> {
    if Scramble(clock) <= peer then Parse([], peer[CODE_SIZE..]).msgs else []
  }

  /** Whatever a peer sends, a server-side connection that reads codes whole enqueues a prefix of these. */
  lemma HeardIsAudible(clock: Code, uid: u32, first: Message, peer: seq<byte>, actions: seq<Action>)
    requires ActRun(Facing(clock, uid, first, peer), actions) && ReadsWhole(actions)
    ensures ActAfter(Facing(clock, uid, first, peer), actions).e.r.delivered <= Audible(clock, peer)
  {
    hide Parse, Scramble, CodeFromShortRead;
    var start := Facing(clock, uid, first, peer);
    var n := ActAfter(start, actions);
    GatedByCode(clock, uid, first, peer, actions);
    assert ReaderInv(start.e.r, start.incoming) by {
      NothingFramed([]);
      assert Heard(start.incoming) == [];
      SilentReader(start.e.r);
    }
    ActRunKeepsReader(start, actions);
    ActRunKeepsGate(start, actions, false);
    if n.e.r.delivered != [] {
      HeardOfPeer(n.incoming);
      ParsePrefix([], Heard(n.incoming), peer[CODE_SIZE..]);
    }
  }

  lemma SilentReader(r: Reader)
    requires r.delivered == [] && r.op != ReadHead && r.op != ReadBody
    ensures StandsAt(r, Parse([], []))
  {
  }

  lemma HeardOfPeer(c: Channel)
    requires CODE_SIZE <= |c.stream| && c.taken <= |c.stream|
    ensures Heard(c) <= c.stream[CODE_SIZE..]
  {
    if CODE_SIZE <= c.taken {
      assert Heard(c) == c.stream[CODE_SIZE..][..c.taken - CODE_SIZE];
    }
  }

  /** A run of whole reads in which something is enqueued. */
  ghost predicate HearsBy(start: End, actions: seq<Action>) {
    ActRun(start, actions) && ReadsWhole(actions) && ActAfter(start, actions).e.r.delivered != []
  }

  /** Exactly which peers can make themselves heard. */
  lemma CanBeHeardIff(clock: Code, uid: u32, first: Message, peer: seq<byte>)
    ensures (exists actions :: HearsBy(Facing(clock, uid, first, peer), actions)) <==> Audible(clock, peer) != []
  {
    var start := Facing(clock, uid, first, peer);
    hide Audible, Facing, ActAfter, ActRun;
    forall actions | HearsBy(start, actions) ensures Audible(clock, peer) != [] {
      HeardIsAudible(clock, uid, first, peer, actions);
    }
    if Audible(clock, peer) != [] {
      var actions := HearFirst(clock, uid, first, peer);
    }
  }

  /** The whole of the right answer opens the way to messages. */
  lemma CodeIsRead(clock: Code, uid: u32, first: Message, peer: seq<byte>)
    requires Scramble(clock) <= peer
    ensures var start := Facing(clock, uid, first, peer);
      && Enabled(start.e, start.incoming, Read(CODE_SIZE))
      && var coded := Act(start, Read(CODE_SIZE));
      coded.e.r.op == ReadHead && coded.incoming == Channel(peer, CODE_SIZE)
  {
    WholeCode(peer[..CODE_SIZE]);
    assert peer[0..CODE_SIZE] == peer[..CODE_SIZE] == Scramble(clock);
    hide CodeFromShortRead, Scramble;
  }

  /** A header, and the body it announces, if any, make up a message. */
  lemma HeaderIsRead(n: End)
    requires n.e.r.op == ReadHead && n.incoming.taken == CODE_SIZE && CODE_SIZE <= |n.incoming.stream|
    requires Complete(n.incoming.stream[CODE_SIZE..])
    ensures Enabled(n.e, n.incoming, Read(CODE_SIZE))
    ensures var headed := Act(n, Read(CODE_SIZE));
      || headed.e.r.delivered != []
      || (headed.e.r.op == ReadBody && Enabled(headed.e, headed.incoming, Read(CODE_SIZE)))
  {
    var stream := n.incoming.stream;
    assert stream[CODE_SIZE..2 * CODE_SIZE][4..] == stream[CODE_SIZE..][4..8];
    hide U32FromBytes;
  }

  /** Read the code, a header, and the body it announces, if any. */
  lemma HearFirst(clock: Code, uid: u32, first: Message, peer: seq<byte>) returns (actions: seq<Action>)
    requires Audible(clock, peer) != []
    ensures HearsBy(Facing(clock, uid, first, peer), actions)
  {
    var start := Facing(clock, uid, first, peer);
    var read := Read(CODE_SIZE);
    assert Complete(peer[CODE_SIZE..]);
    CodeIsRead(clock, uid, first, peer);
    hide Audible, Parse, Scramble, Facing, Complete, Enabled, Act, ActRun, ActAfter;
    var coded := Act(start, read);
    HeaderIsRead(coded);
    var headed := Act(coded, read);
    if headed.e.r.delivered != [] {
      ActRunOne(headed);
      ActRunCons(coded, read, []);
      ActRunCons(start, read, [read] + []);
      actions := [read] + ([read] + []);
    } else {
      var done := Act(headed, read);
      ActRunOne(done);
      ActRunCons(headed, read, []);
      ActRunCons(coded, read, [read] + []);
      ActRunCons(start, read, [read] + ([read] + []));
      actions := [read] + ([read] + ([read] + []));
      BodyIsEnqueued(headed);
    }
  }

  lemma BodyIsEnqueued(n: End)
    requires n.e.r.op == ReadBody && Enabled(n.e, n.incoming, Read(CODE_SIZE))
    ensures Act(n, Read(CODE_SIZE)).e.r.delivered != []
  {
  }

  lemma ActRunOne(n: End)
    ensures ActRun(n, []) && ActAfter(n, []) == n
  {
  }

  lemma ActRunCons(n: End, a: Action, actions: seq<Action>)
    requires Enabled(n.e, n.incoming, a) && ActRun(Act(n, a), actions)
    ensures ActRun(n, [a] + actions) && ActAfter(n, [a] + actions) == ActAfter(Act(n, a), actions)
  {
    assert ([a] + actions)[1..] == actions;
  }

  /**
   A client that calls Send before it has answered writes a frame first: nothing it sends is ever
   enqueued, unless the header of that first frame happens to be the expected answer.
   */
  lemma EarlySendIsRefused(
    clock: Code, uid: u32, first: Message, early: Message, later: seq<byte>, actions: seq<Action>)
    requires ActRun(Facing(clock, uid, first, Frame(early) + later), actions) && ReadsWhole(actions)
    requires HeaderBytes(early.id, early.size) != Scramble(clock)
    ensures ActAfter(Facing(clock, uid, first, Frame(early) + later), actions).e.r.delivered == []
  {
    var peer := Frame(early) + later;
    GatedByCode(clock, uid, first, peer, actions);
    assert peer[..CODE_SIZE] == HeaderBytes(early.id, early.size);
  }

  /**
   Exactly when such a client can be heard at all: if the header of that first frame is the expected
   answer and a whole message follows it, cut as if the stream began with the frame's body.
   */
  lemma EarlySenderHeardIff(clock: Code, uid: u32, first: Message, early: Message, later: seq<byte>)
    ensures (exists actions :: HearsBy(Facing(clock, uid, first, Frame(early) + later), actions)) <==>
      HeaderBytes(early.id, early.size) == Scramble(clock) && Parse([], early.body + later).msgs != []
  {
    hide Parse, Scramble, HeaderBytes, HearsBy, Facing;
    var peer := Frame(early) + later;
    CanBeHeardIff(clock, uid, first, peer);
    assert peer[..CODE_SIZE] == HeaderBytes(early.id, early.size);
    assert peer[CODE_SIZE..] == early.body + later;
  }

  /**
   A read of the code that returns only k bytes accepts an honest answer if and only if all the
   bytes it missed are zero; a whole read always does.
   */
  lemma ShortReadAcceptsIff(code: Code, k: nat)
    requires 1 <= k <= CODE_SIZE
    ensures CodeFromShortRead(Scramble(code)[..k]) == Scramble(code) <==>
      forall i :: k <= i < CODE_SIZE ==> Scramble(code)[i] == 0
  {
    var answer := Scramble(code);
    var read := CodeFromShortRead(answer[..k]);
    assert read[..k] == answer[..k];
    assert forall i :: k <= i < CODE_SIZE ==> read[i] == 0;
  }

  /**
   A short read as a step: a server that waits for the code and gets only k bytes of the right answer
   goes on to messages with its socket open if and only if the bytes it missed are zero.
   */
  lemma ShortReadOpensIff(clock: Code, uid: u32, first: Message, k: nat)
    requires 1 <= k <= CODE_SIZE
    ensures var start := Facing(clock, uid, first, Scramble(clock));
      && Enabled(start.e, start.incoming, Read(k))
      && var after := Act(start, Read(k)).e;
      after.open && after.r.op == ReadHead <==> forall i :: k <= i < CODE_SIZE ==> Scramble(clock)[i] == 0
  {
    ShortReadAcceptsIff(clock, k);
    assert Scramble(clock)[0..k] == Scramble(clock)[..k];
    hide Scramble, CodeFromShortRead;
  }
}
