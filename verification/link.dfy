/**
 A server-side and a client-side connection joined by two byte streams, as a state machine:
 posts, partial transfers, completions, failures and closing interleave freely.
 */
module Links {
  import opened Bytes
  import opened Messages
  import opened Framing
  import opened Connections

  /** All bytes ever moved in one direction, and how many of them the receiver has read. */
  datatype Channel = Channel(stream: seq<byte>, taken: nat)

  /** What an event loop may do next at one end. */
  datatype Action =
    | Post(msg: Message)       // the program calls Send
    | Posted                   // the oldest posted handler runs
    | Move(op: nat, count: nat) // the socket takes bytes of an initiated write
    | Written                  // the oldest write completes
    | WriteError               // the oldest write fails
    | Read(count: nat)         // the initiated read completes; count matters for the code only
    | ReadError
    | Disconnect

  /** The number of bytes the initiated read completes with. */
  function ReadLength(r: Reader, count: nat): nat {
    match r.op
    case NoRead => 0
    case ReadCode => count
    case ReadHead => HEADER_SIZE
    case ReadBody => |r.buff.body|
  }

  predicate Enabled(e: Endpoint, incoming: Channel, a: Action) {
    match a
    case Post(_) => true
    case Posted => e.w.posted != []
    case Move(i, k) => e.open && Moving(e.w, i) && k <= |e.w.writes[i].rest|
    case Written => CanFinishWrite(e.w)
    case WriteError => e.w.writes != [] && e.w.writes[0].rest != []
    case Read(count) =>
      && e.r.op != NoRead
      && (e.r.op == ReadCode ==> 1 <= count <= 8)
      && incoming.taken + ReadLength(e.r, count) <= |incoming.stream|
    case ReadError => e.r.op != NoRead
    case Disconnect => true
  }

  function Arrive(e: Endpoint, bytes: seq<byte>): Endpoint
    requires e.r.op == ReadCode ==> |bytes| <= 8
    requires e.r.op == ReadHead ==> |bytes| == HEADER_SIZE
  {
    match e.r.op
    case NoRead => e
    case ReadCode => CodeArrived(e, bytes)
    case ReadHead => e.(r := HeaderArrived(e.r, bytes))
    case ReadBody => e.(r := BodyArrived(e.r, bytes))
  }

  /** One action at one end: its endpoint, the stream it writes and the stream it reads. */
  datatype End = End(e: Endpoint, outgoing: seq<byte>, incoming: Channel)

  function Act(s: End, a: Action): End
    requires Enabled(s.e, s.incoming, a)
  {
    var e := s.e;
    match a
    case Post(m) => s.(e := e.(w := e.w.(posted := e.w.posted + [m])))
    case Posted => s.(e := e.(w := RunPosted(e.w)))
    case Move(i, k) =>
      s.(e := e.(w := MoveBytes(e.w, i, k)), outgoing := s.outgoing + e.w.writes[i].rest[..k])
    case Written => s.(e := WriteFinished(e))
    case WriteError => s.(e := e.(open := false, w := FailWrite(e.w)))
    case Read(count) =>
      var n := ReadLength(e.r, count);
      var next := s.incoming.taken + n;
      s.(e := Arrive(e, s.incoming.stream[s.incoming.taken..next]), incoming := s.incoming.(taken := next))
    case ReadError => s.(e := CloseAndStop(e))
    case Disconnect => s.(e := e.(open := false))
  }

  datatype System = System(server: Endpoint, client: Endpoint, down: Channel, up: Channel)

  datatype Side = AtServer | AtClient

  datatype Step = Step(side: Side, action: Action)

  function Near(s: System, side: Side): End {
    match side
    case AtServer => End(s.server, s.down.stream, s.up)
    case AtClient => End(s.client, s.up.stream, s.down)
  }

  function WithNear(s: System, side: Side, n: End): System {
    match side
    case AtServer => System(n.e, s.client, s.down.(stream := n.outgoing), n.incoming)
    case AtClient => System(s.server, n.e, n.incoming, s.up.(stream := n.outgoing))
  }

  predicate StepEnabled(s: System, step: Step) {
    var near := Near(s, step.side);
    Enabled(near.e, near.incoming, step.action)
  }

  function Next(s: System, step: Step): System
    requires StepEnabled(s, step)
  {
    WithNear(s, step.side, Act(Near(s, step.side), step.action))
  }

  /**
   What the handshake relies on: the code arrives in one piece, and a client calls Send only
   after its own code has been handed to the socket.
   */
  predicate Polite(s: System, step: Step) {
    && (step.action.Read? && Near(s, step.side).e.r.op == ReadCode ==> step.action.count == 8)
    && (step.side == AtClient && step.action.Post? ==> s.client.w.greeting != [])
  }

  predicate Run(s: System, steps: seq<Step>)
    decreases steps
  {
    steps == [] ||
    (StepEnabled(s, steps[0]) && Polite(s, steps[0]) && Run(Next(s, steps[0]), steps[1..]))
  }

  function After(s: System, steps: seq<Step>): System
    requires Run(s, steps)
    decreases steps
  {
    if steps == [] then s else After(Next(s, steps[0]), steps[1..])
  }

  /** The state after the accept handler: the first message is posted, then the handshake starts. */
  function Accepted(clock: Code, uid: u32, first: Message): System {
    var made := New(Server, clock);
    var server := Connected(made.(w := made.w.(posted := [first])), uid);
    System(server, Connected(New(Client, NO_CODE), 0), Channel([], 0), Channel([], 0))
  }

  // ---- The write pump ----

  /** Everything Send was ever called with, in order. */
  function Sent(w: Writer): seq<Message> {
    w.popped + w.out + w.posted
  }

  predicate WritingCode(w: Writer) {
    w.writes != [] && w.writes[0].kind == WriteCode
  }

  /** The outstanding header and body writes. */
  function FrameWrites(w: Writer): seq<WriteOp> {
    if WritingCode(w) then w.writes[1..] else w.writes
  }

  /** The bytes of initiated writes that the socket has not taken. */
  function Pending(writes: seq<WriteOp>): seq<byte> {
    if writes == [] then [] else writes[0].rest + Pending(writes[1..])
  }

  /** The part of the front frame that has been handed to the socket. */
  function Begun(w: Writer): seq<byte> {
    var frameWrites := FrameWrites(w);
    if w.out == [] || frameWrites == [] then []
    else if frameWrites[0].kind == WriteHead then HeaderBytes(w.out[0].id, w.out[0].size)
    else Frame(w.out[0])
  }

  /** At most one frame write is outstanding; one is, before any failure, exactly when the queue is not empty. */
  predicate PumpShape(w: Writer) {
    var frameWrites := FrameWrites(w);
    && |frameWrites| <= 1
    && (forall i :: 0 <= i < |frameWrites| ==> frameWrites[i].kind != WriteCode)
    && (!w.failed ==> (frameWrites != [] <==> w.out != []))
    && (w.failed ==> frameWrites == [] && w.out != [] && w.broken)
    && (frameWrites != [] && frameWrites[0].kind == WriteBody ==> w.out[0].body != [])
    && (w.greeting == [] ==> w.writes == [] && Sent(w) == [] && !w.broken)
  }

  /** What the stream holds: exactly the greeting, the popped frames and the begun part of the front. */
  predicate PumpStream(w: Writer, stream: seq<byte>) {
    && stream <= w.greeting + Frames(w.popped + w.out)
    && (!w.broken ==> stream + Pending(w.writes) == w.greeting + Frames(w.popped) + Begun(w))
  }

  predicate PumpInv(e: Endpoint, stream: seq<byte>) {
    PumpShape(e.w) && PumpStream(e.w, stream) && (e.w.broken ==> !e.open)
  }

  lemma {:induction false} PendingAppend(a: seq<WriteOp>, b: seq<WriteOp>)
    ensures Pending(a + b) == Pending(a) + Pending(b)
  {
    if a == [] {
      assert a + b == b;
    } else {
      assert (a + b)[1..] == a[1..] + b;
      PendingAppend(a[1..], b);
    }
  }

  lemma PendingOne(op: WriteOp)
    ensures Pending([op]) == op.rest
  {
    assert Pending([op]) == op.rest + Pending([]);
  }

  lemma FramesOne(m: Message)
    ensures Frames([m]) == Frame(m)
  {
    assert Frames([m]) == Frame(m) + Frames([]);
  }

  /** Moving bytes of the oldest busy write takes them off the front of what is pending. */
  lemma {:induction false} PendingMove(writes: seq<WriteOp>, i: nat, k: nat)
    requires i < |writes| && k <= |writes[i].rest|
    requires forall j :: 0 <= j < i ==> writes[j].rest == []
    ensures Pending(writes) ==
      writes[i].rest[..k] + Pending(writes[i := writes[i].(rest := writes[i].rest[k..])])
  {
    var op := writes[i];
    var moved := op.(rest := op.rest[k..]);
    if i == 0 {
      assert writes[0 := moved] == [moved] + writes[1..];
      assert op.rest == op.rest[..k] + op.rest[k..];
    } else {
      PendingMove(writes[1..], i - 1, k);
      assert writes[i := moved][1..] == writes[1..][i - 1 := moved];
    }
  }

  lemma InitiateKeeps(w: Writer, op: WriteOp)
    ensures Pending(w.writes + [op]) == Pending(w.writes) + op.rest
    ensures w.writes != [] ==> (w.writes + [op])[1..] == w.writes[1..] + [op]
  {
    PendingAppend(w.writes, [op]);
    PendingOne(op);
  }

  lemma QueueGrows(w: Writer, m: Message)
    ensures w.greeting + Frames(w.popped + w.out) <= w.greeting + Frames(w.popped + (w.out + [m]))
  {
    assert w.popped + (w.out + [m]) == (w.popped + w.out) + [m];
    FramesAppend(w.popped + w.out, [m]);
  }

  lemma StartHeaderKeepsStream(w: Writer, stream: seq<byte>, m: Message)
    requires w.out == [] && FrameWrites(w) == []
    requires stream + Pending(w.writes) == w.greeting + Frames(w.popped)
    ensures var after := StartHeader(w.(out := [m]));
      stream + Pending(after.writes) == w.greeting + Frames(w.popped) + HeaderBytes(m.id, m.size)
  {
    var head := HeaderBytes(m.id, m.size);
    InitiateKeeps(w, WriteOp(WriteHead, head));
    assert stream + (Pending(w.writes) + head) == (stream + Pending(w.writes)) + head;
  }

  lemma PostedKeepsPump(w: Writer, stream: seq<byte>)
    requires PumpShape(w) && PumpStream(w, stream) && w.posted != []
    ensures PumpShape(RunPosted(w)) && PumpStream(RunPosted(w), stream)
    ensures RunPosted(w).broken == w.broken
  {
    hide HeaderBytes, Frames;
    var m, after := w.posted[0], RunPosted(w);
    assert Sent(w) != [];
    QueueGrows(w, m);
    if w.out == [] {
      var op := WriteOp(WriteHead, HeaderBytes(m.id, m.size));
      InitiateKeeps(w, op);
      assert w.out + [m] == [m] && FrameWrites(after) == [op];
      assert Begun(w) == [] && Begun(after) == op.rest;
      if !w.broken {
        assert w.greeting + Frames(w.popped) + [] == w.greeting + Frames(w.popped);
        StartHeaderKeepsStream(w, stream, m);
      }
    } else {
      assert after.out[0] == w.out[0];
    }
  }

  lemma MoveKeepsPump(e: Endpoint, stream: seq<byte>, i: nat, k: nat)
    requires PumpInv(e, stream) && e.open && Moving(e.w, i) && k <= |e.w.writes[i].rest|
    ensures PumpInv(e.(w := MoveBytes(e.w, i, k)), stream + e.w.writes[i].rest[..k])
  {
    var w, moved := e.w, e.w.writes[i].rest[..k];
    var after := MoveBytes(w, i, k);
    PendingMove(w.writes, i, k);
    assert stream + Pending(w.writes) == (stream + moved) + Pending(after.writes);
    assert |FrameWrites(after)| == |FrameWrites(w)|;
    assert forall j :: 0 <= j < |FrameWrites(w)| ==> FrameWrites(after)[j].kind == FrameWrites(w)[j].kind;
    assert Begun(after) == Begun(w);
    BegunIsPrefix(w);
    assert stream + moved <= w.greeting + Frames(w.popped) + Begun(w);
  }

  /** What has been begun never runs past the frames of the queue. */
  lemma BegunIsPrefix(w: Writer)
    ensures w.greeting + Frames(w.popped) + Begun(w) <= w.greeting + Frames(w.popped + w.out)
  {
    FramesAppend(w.popped, w.out);
    assert w.greeting + Frames(w.popped + w.out) == w.greeting + Frames(w.popped) + Frames(w.out);
    assert Begun(w) <= Frames(w.out);
  }

  /** After a pop exactly the next header is both begun and pending. */
  lemma PopFrameStartsNext(w: Writer)
    requires w.out != [] && w.writes == [] && !w.failed && w.greeting != []
    ensures PumpShape(PopFrame(w)) && Pending(PopFrame(w).writes) == Begun(PopFrame(w))
  {
    hide HeaderBytes;
    var after := PopFrame(w);
    if after.out != [] {
      assert after.writes == [after.writes[0]];
      PendingOne(after.writes[0]);
    }
  }

  lemma PopFrameKeepsPump(w: Writer, stream: seq<byte>)
    requires w.out != [] && w.writes == [] && !w.failed && w.greeting != []
    requires stream <= w.greeting + Frames(w.popped + w.out)
    requires !w.broken ==> stream == w.greeting + Frames(w.popped) + Frame(w.out[0])
    ensures PumpShape(PopFrame(w)) && PumpStream(PopFrame(w), stream)
  {
    var m, after := w.out[0], PopFrame(w);
    PopFrameStartsNext(w);
    assert after.popped == w.popped + [m] && after.popped + after.out == w.popped + w.out;
    FramesAppend(w.popped, [m]);
    FramesOne(m);
    hide Frame, Frames, HeaderBytes, PumpShape, Pending, Begun, PopFrame;
    assert w.greeting + (Frames(w.popped) + Frame(m)) == w.greeting + Frames(w.popped) + Frame(m);
  }

  /** The front's header is out; its body is handed to the socket next. */
  lemma StartBodyKeepsPump(w: Writer, stream: seq<byte>)
    requires w.out != [] && w.out[0].body != [] && w.writes == [] && !w.failed && w.greeting != []
    requires stream <= w.greeting + Frames(w.popped + w.out)
    requires !w.broken ==>
      stream == w.greeting + Frames(w.popped) + HeaderBytes(w.out[0].id, w.out[0].size)
    ensures var after := Initiate(w, WriteBody, w.out[0].body);
      PumpShape(after) && PumpStream(after, stream)
  {
    var m := w.out[0];
    var after := Initiate(w, WriteBody, m.body);
    assert after.writes == [WriteOp(WriteBody, m.body)];
    PendingOne(after.writes[0]);
    assert w.greeting + Frames(w.popped) + HeaderBytes(m.id, m.size) + m.body
        == w.greeting + Frames(w.popped) + Frame(m);
  }

  lemma WrittenKeepsPump(e: Endpoint, stream: seq<byte>)
    requires PumpInv(e, stream) && CanFinishWrite(e.w)
    ensures PumpInv(WriteFinished(e), stream)
  {
    if e.w.writes[0].kind == WriteCode {
      CodeWritten(e.w, stream);
    } else {
      FrameWritten(e.w, stream);
    }
  }

  lemma CodeWritten(w: Writer, stream: seq<byte>)
    requires PumpShape(w) && PumpStream(w, stream) && CanFinishWrite(w)
    requires w.writes[0].kind == WriteCode
    ensures PumpShape(FinishWrite(w)) && PumpStream(FinishWrite(w), stream)
    ensures FinishWrite(w).broken == w.broken
  {
    var done := FinishWrite(w);
    assert Pending(w.writes) == [] + Pending(done.writes);
    assert FrameWrites(done) == FrameWrites(w);
    assert Begun(done) == Begun(w);
  }

  lemma FrameWritten(w: Writer, stream: seq<byte>)
    requires PumpShape(w) && PumpStream(w, stream) && CanFinishWrite(w)
    requires w.writes[0].kind != WriteCode
    ensures PumpShape(FinishWrite(w)) && PumpStream(FinishWrite(w), stream)
    ensures FinishWrite(w).broken == w.broken
  {
    var op := w.writes[0];
    var done := w.(writes := []);
    assert FrameWrites(w) == w.writes == [op] && w.writes[1..] == [];
    PendingOne(op);
    assert stream + [] == stream;
    if op.kind == WriteHead && w.out[0].body != [] {
      StartBodyKeepsPump(done, stream);
    } else {
      assert w.out[0].body == [] ==> Frame(w.out[0]) == HeaderBytes(w.out[0].id, w.out[0].size);
      PopFrameKeepsPump(done, stream);
    }
  }

  lemma WriteErrorKeepsPump(e: Endpoint, stream: seq<byte>)
    requires PumpInv(e, stream) && e.w.writes != []
    ensures PumpInv(e.(open := false, w := FailWrite(e.w)), stream)
  {
    var after := FailWrite(e.w);
    if e.w.writes[0].kind == WriteCode {
      assert FrameWrites(after) == FrameWrites(e.w);
    } else {
      assert after.writes == [];
    }
  }

  lemma StartCodeKeepsPump(e: Endpoint, stream: seq<byte>)
    requires PumpInv(e, stream) && e.w.greeting == []
    ensures PumpInv(StartCode(e), stream)
  {
    var after := StartCode(e).w;
    assert e.w.popped == [] && e.w.out == [] && e.w.posted == [];
    PendingOne(after.writes[0]);
    assert after.writes == [WriteOp(WriteCode, after.greeting)];
  }
}
