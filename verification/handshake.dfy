/**
 What every polite run of two joined connections keeps, and what follows for the messages:
 end-to-end delivery, the handshake, and the first message a client ever enqueues.
 */
module Handshake {
  import opened Bytes
  import opened Messages
  import opened Framing
  import opened Connections
  import opened Links

  const CODE_SIZE: nat := 8

  /** The bytes read after the validation code. */
  function Heard(c: Channel): seq<byte>
    requires c.taken <= |c.stream|
  {
    if c.taken < CODE_SIZE then [] else c.stream[CODE_SIZE..c.taken]
  }

  /** The reader has delivered the parsed messages and is about to read what the parse is missing. */
  predicate StandsAt(r: Reader, p: Parsed) {
    && r.delivered == p.msgs
    && (r.op == ReadHead ==> p.rest == [] && p.carry == r.buff.body)
    && (r.op == ReadBody ==>
          p.rest == HeaderBytes(r.buff.id, r.buff.size) && 0 < r.buff.size == |r.buff.body|)
  }

  /** The reader stands exactly where parsing the bytes read so far stands. */
  predicate ReaderInv(r: Reader, c: Channel) {
    Placed(r, c) && StandsAt(r, Parse([], Heard(c)))
  }

  predicate Placed(r: Reader, c: Channel) {
    && c.taken <= |c.stream|
    && (c.taken == 0 || CODE_SIZE <= c.taken)
    && (r.op == ReadCode ==> c.taken == 0)
    && (r.op == ReadHead || r.op == ReadBody ==> CODE_SIZE <= c.taken)
    && (c.taken <= CODE_SIZE ==> r.buff.body == [])
  }

  predicate HandshakeInv(s: System) {
    && s.server.owner == Server && s.client.owner == Client
    && s.server.codeSum == Scramble(s.server.codeOut)
    && s.server.w.greeting == s.server.codeOut
    && (s.client.w.greeting == [] ==> s.down.taken == 0)
    && (s.client.w.greeting != [] ==>
          CODE_SIZE <= s.down.taken && s.client.w.greeting == Scramble(s.server.codeOut))
    && (WritingCode(s.client.w) ==> s.client.r.op == NoRead && s.down.taken == CODE_SIZE)
  }

  predicate SystemInv(s: System) {
    && PumpInv(s.server, s.down.stream) && PumpInv(s.client, s.up.stream)
    && ReaderInv(s.server.r, s.up) && ReaderInv(s.client.r, s.down)
    && HandshakeInv(s)
  }

  // ---- The reader ----

  lemma HeaderSplit(bytes: seq<byte>)
    requires |bytes| == HEADER_SIZE
    ensures HeaderBytes(U32FromBytes(bytes[..4]), U32FromBytes(bytes[4..])) == bytes
  {
    assert bytes == bytes[..4] + bytes[4..];
  }

  /** A header alone parses to an empty message if it announces none, and to nothing otherwise. */
  lemma ParseHeader(carry: seq<byte>, bytes: seq<byte>)
    requires |bytes| == HEADER_SIZE
    ensures var id, size := U32FromBytes(bytes[..4]), U32FromBytes(bytes[4..]);
      Parse(carry, bytes) ==
        if size > 0 then Parsed([], carry, bytes) else Parsed([Message(id, 0, carry)], carry, [])
  {
    assert bytes[4..8] == bytes[4..];
    if U32FromBytes(bytes[4..]) == 0 {
      HeaderSplit(bytes);
      var m := Message(U32FromBytes(bytes[..4]), 0, []);
      assert Frame(m) == bytes;
      ParseFrame(carry, m);
    }
  }

  lemma HearMore(c: Channel, n: nat)
    requires CODE_SIZE <= c.taken && c.taken + n <= |c.stream|
    ensures Heard(c.(taken := c.taken + n)) == Heard(c) + c.stream[c.taken..c.taken + n]
  {
  }

  lemma HeaderKeepsPlace(r: Reader, p: Parsed, bytes: seq<byte>)
    requires StandsAt(r, p) && r.op == ReadHead && |bytes| == HEADER_SIZE
    ensures StandsAt(HeaderArrived(r, bytes), ParseOn(p, bytes))
  {
    hide Parse, HeaderBytes, U32Bytes, U32FromBytes;
    if p.rest == [] {
      assert p.rest + bytes == bytes;
    }
    ParseHeader(p.carry, bytes);
    HeaderSplit(bytes);
  }

  lemma BodyKeepsPlace(r: Reader, p: Parsed, bytes: seq<byte>)
    requires StandsAt(r, p) && r.op == ReadBody && |bytes| == |r.buff.body|
    ensures StandsAt(BodyArrived(r, bytes), ParseOn(p, bytes))
  {
    var m := r.buff.(body := bytes);
    assert p.rest + bytes == Frame(m);
    ParseFrame(p.carry, m);
  }

  lemma ParseOnHeard(c: Channel, n: nat)
    requires CODE_SIZE <= c.taken && c.taken + n <= |c.stream|
    ensures Parse([], Heard(c.(taken := c.taken + n)))
      == ParseOn(Parse([], Heard(c)), c.stream[c.taken..c.taken + n])
  {
    HearMore(c, n);
    ParseAppend([], Heard(c), c.stream[c.taken..c.taken + n]);
  }

  lemma HeaderKeepsReader(r: Reader, c: Channel)
    requires ReaderInv(r, c) && r.op == ReadHead && c.taken + HEADER_SIZE <= |c.stream|
    ensures ReaderInv(HeaderArrived(r, c.stream[c.taken..c.taken + HEADER_SIZE]),
                      c.(taken := c.taken + HEADER_SIZE))
  {
    hide Parse;
    var bytes := c.stream[c.taken..c.taken + HEADER_SIZE];
    assert StandsAt(HeaderArrived(r, bytes), Parse([], Heard(c.(taken := c.taken + HEADER_SIZE)))) by {
      HeaderKeepsPlace(r, Parse([], Heard(c)), bytes);
      ParseOnHeard(c, HEADER_SIZE);
    }
  }

  lemma BodyKeepsReader(r: Reader, c: Channel)
    requires ReaderInv(r, c) && r.op == ReadBody && c.taken + |r.buff.body| <= |c.stream|
    ensures ReaderInv(BodyArrived(r, c.stream[c.taken..c.taken + |r.buff.body|]),
                      c.(taken := c.taken + |r.buff.body|))
  {
    hide Parse;
    var n := |r.buff.body|;
    var bytes := c.stream[c.taken..c.taken + n];
    assert StandsAt(BodyArrived(r, bytes), Parse([], Heard(c.(taken := c.taken + n)))) by {
      BodyKeepsPlace(r, Parse([], Heard(c)), bytes);
      ParseOnHeard(c, n);
    }
  }

  lemma StreamGrows(r: Reader, c: Channel, stream: seq<byte>)
    requires ReaderInv(r, c) && c.stream <= stream
    ensures ReaderInv(r, c.(stream := stream))
  {
    assert Heard(c.(stream := stream)) == Heard(c);
  }

  // ---- One action at one end ----

  /** A read starts no write, except that a client answers the code. */
  lemma ArriveKeepsPump(e: Endpoint, bytes: seq<byte>, stream: seq<byte>)
    requires PumpInv(e, stream)
    requires e.r.op == ReadCode ==> |bytes| <= CODE_SIZE
    requires e.r.op == ReadHead ==> |bytes| == HEADER_SIZE
    requires e.r.op == ReadCode && e.owner == Client ==> e.w.greeting == []
    ensures PumpInv(Arrive(e, bytes), stream)
  {
    hide PumpShape, PumpStream;
    if e.r.op == ReadCode && e.owner == Client {
      var code := CodeFromShortRead(bytes);
      StartCodeKeepsPump(e.(r := e.r.(codeIn := code, op := NoRead), codeOut := Scramble(code)), stream);
    }
  }

  lemma PostKeepsPump(e: Endpoint, stream: seq<byte>, m: Message)
    requires PumpInv(e, stream) && e.w.greeting != []
    ensures PumpInv(e.(w := e.w.(posted := e.w.posted + [m])), stream)
  {
    assert Begun(e.w.(posted := e.w.posted + [m])) == Begun(e.w);
  }

  /** The actions that touch the write side only. */
  lemma WriteActKeepsPump(n: End, a: Action)
    requires PumpInv(n.e, n.outgoing) && Enabled(n.e, n.incoming, a)
    requires a.Posted? || a.Move? || a.Written? || a.WriteError?
    ensures PumpInv(Act(n, a).e, Act(n, a).outgoing)
  {
    match a
    case Posted => PostedKeepsPump(n.e.w, n.outgoing);
    case Move(i, k) => MoveKeepsPump(n.e, n.outgoing, i, k);
    case Written => WrittenKeepsPump(n.e, n.outgoing);
    case WriteError => WriteErrorKeepsPump(n.e, n.outgoing);
  }

  lemma ReadKeepsPump(n: End, count: nat)
    requires PumpInv(n.e, n.outgoing) && Enabled(n.e, n.incoming, Read(count))
    requires n.e.r.op == ReadCode && n.e.owner == Client ==> n.e.w.greeting == []
    ensures PumpInv(Act(n, Read(count)).e, n.outgoing)
  {
    hide PumpInv, Arrive;
    var next := n.incoming.taken + ReadLength(n.e.r, count);
    ArriveKeepsPump(n.e, n.incoming.stream[n.incoming.taken..next], n.outgoing);
  }

  lemma ActKeepsPump(n: End, a: Action)
    requires PumpInv(n.e, n.outgoing) && Enabled(n.e, n.incoming, a)
    requires a.Post? ==> n.e.w.greeting != []
    requires a.Read? && n.e.r.op == ReadCode && n.e.owner == Client ==> n.e.w.greeting == []
    ensures PumpInv(Act(n, a).e, Act(n, a).outgoing)
  {
    hide PumpShape, PumpStream;
    match a
    case Post(m) => PostKeepsPump(n.e, n.outgoing, m);
    case Read(count) => ReadKeepsPump(n, count);
    case ReadError =>
    case Disconnect =>
    case _ => WriteActKeepsPump(n, a);
  }

  lemma CodeReadKeepsReader(e: Endpoint, c: Channel)
    requires ReaderInv(e.r, c) && e.r.op == ReadCode && CODE_SIZE <= |c.stream|
    ensures ReaderInv(CodeArrived(e, c.stream[..CODE_SIZE]).r, c.(taken := CODE_SIZE))
  {
    assert Heard(c.(taken := CODE_SIZE)) == [] == Heard(c);
  }

  lemma ArriveKeepsReader(e: Endpoint, c: Channel, n: nat)
    requires ReaderInv(e.r, c) && c.taken + n <= |c.stream|
    requires e.r.op != NoRead && n == ReadLength(e.r, CODE_SIZE)
    ensures ReaderInv(Arrive(e, c.stream[c.taken..c.taken + n]).r, c.(taken := c.taken + n))
  {
    hide Parse, HeaderArrived, BodyArrived;
    match e.r.op
    case ReadCode => CodeReadKeepsReader(e, c);
    case ReadHead => HeaderKeepsReader(e.r, c);
    case ReadBody => BodyKeepsReader(e.r, c);
  }

  lemma ActKeepsReader(n: End, a: Action)
    requires ReaderInv(n.e.r, n.incoming) && Enabled(n.e, n.incoming, a)
    requires a.Read? && n.e.r.op == ReadCode ==> a.count == CODE_SIZE
    requires a == Written && n.e.owner == Client && WritingCode(n.e.w) ==>
      n.e.r.op == NoRead && n.incoming.taken == CODE_SIZE
    ensures ReaderInv(Act(n, a).e.r, Act(n, a).incoming)
  {
    hide Parse, Arrive;
    if a.Read? {
      ArriveKeepsReader(n.e, n.incoming, ReadLength(n.e.r, a.count));
    } else if a == Written {
      WrittenKeepsReader(n.e, n.incoming);
    } else if a != ReadError {
      assert Act(n, a).e.r == n.e.r && Act(n, a).incoming == n.incoming;
    }
  }

  lemma WrittenKeepsReader(e: Endpoint, c: Channel)
    requires ReaderInv(e.r, c) && CanFinishWrite(e.w)
    requires e.owner == Client && WritingCode(e.w) ==> e.r.op == NoRead && c.taken == CODE_SIZE
    ensures ReaderInv(WriteFinished(e).r, c)
  {
    assert c.taken == CODE_SIZE ==> Heard(c) == [];
  }

  // ---- The handshake ----

  /** The first eight bytes of a stream are the sender's greeting. */
  lemma StreamStartsWithGreeting(w: Writer, stream: seq<byte>)
    requires PumpShape(w) && PumpStream(w, stream) && CODE_SIZE <= |stream|
    requires |w.greeting| == CODE_SIZE || w.greeting == []
    ensures |w.greeting| == CODE_SIZE && stream[..CODE_SIZE] == w.greeting
  {
    var whole := w.greeting + Frames(w.popped + w.out);
    assert w.greeting == [] ==> w.popped + w.out == [] && whole == [];
    assert stream[..CODE_SIZE] == whole[..CODE_SIZE];
  }

  lemma WholeCode(bytes: seq<byte>)
    requires |bytes| == CODE_SIZE
    ensures CodeFromShortRead(bytes) == bytes
  {
    assert bytes + Zeros(0) == bytes;
  }

  /** The code a client reads is the server's own. */
  lemma ClientReadsServerCode(s: System)
    requires SystemInv(s) && s.client.r.op == ReadCode && CODE_SIZE <= |s.down.stream|
    ensures CodeFromShortRead(s.down.stream[..CODE_SIZE]) == s.server.codeOut
  {
    StreamStartsWithGreeting(s.server.w, s.down.stream);
    WholeCode(s.down.stream[..CODE_SIZE]);
  }

  /** The server reads exactly the answer it expects. */
  lemma ServerReadsAnswer(s: System)
    requires SystemInv(s) && s.server.r.op == ReadCode && CODE_SIZE <= |s.up.stream|
    ensures s.up.taken == 0 && s.server.owner == Server
    ensures CodeFromShortRead(s.up.stream[..CODE_SIZE]) == s.server.codeSum
  {
    hide Parse;
    StreamStartsWithGreeting(s.client.w, s.up.stream);
    WholeCode(s.up.stream[..CODE_SIZE]);
  }

  // ---- Every step of every polite run ----

  lemma ServerKeepsHandshake(s: System, a: Action)
    requires HandshakeInv(s) && StepEnabled(s, Step(AtServer, a))
    ensures HandshakeInv(Next(s, Step(AtServer, a)))
  {
  }

  lemma ClientKeepsHandshake(s: System, a: Action)
    requires HandshakeInv(s) && StepEnabled(s, Step(AtClient, a)) && Polite(s, Step(AtClient, a))
    requires PumpShape(s.client.w) && Placed(s.client.r, s.down)
    requires a.Read? && s.client.r.op == ReadCode ==>
      CodeFromShortRead(s.down.stream[..CODE_SIZE]) == s.server.codeOut
    ensures HandshakeInv(Next(s, Step(AtClient, a)))
  {
    hide HeaderBytes, Resize, CodeFromShortRead, U32FromBytes;
    if a == Written {
      assert !WritingCode(FinishWrite(s.client.w));
    }
  }

  lemma OutgoingGrows(n: End, a: Action)
    requires Enabled(n.e, n.incoming, a)
    ensures n.outgoing <= Act(n, a).outgoing && Act(n, a).incoming.stream == n.incoming.stream
  {
  }

  lemma NextKeepsInv(s: System, step: Step)
    requires SystemInv(s) && StepEnabled(s, step) && Polite(s, step)
    ensures SystemInv(Next(s, step))
  {
    hide Parse, PumpStream, Act;
    var near := Near(s, step.side);
    OutgoingGrows(near, step.action);
    ActKeepsPump(near, step.action);
    ActKeepsReader(near, step.action);
    match step.side
    case AtServer =>
      ServerKeepsHandshake(s, step.action);
      StreamGrows(s.client.r, s.down, Act(near, step.action).outgoing);
    case AtClient =>
      if step.action.Read? && s.client.r.op == ReadCode {
        ClientReadsServerCode(s);
      }
      ClientKeepsHandshake(s, step.action);
      StreamGrows(s.server.r, s.up, Act(near, step.action).outgoing);
  }

  lemma AcceptedInv(clock: Code, uid: u32, first: Message)
    ensures SystemInv(Accepted(clock, uid, first))
  {
    var w := Accepted(clock, uid, first).server.w;
    assert w.writes == [WriteOp(WriteCode, w.greeting)];
    PendingOne(w.writes[0]);
  }

  lemma {:induction false} RunKeepsInv(s: System, steps: seq<Step>)
    requires SystemInv(s) && Run(s, steps)
    ensures SystemInv(After(s, steps))
    decreases steps
  {
    if steps != [] {
      NextKeepsInv(s, steps[0]);
      RunKeepsInv(Next(s, steps[0]), steps[1..]);
    }
  }
}
