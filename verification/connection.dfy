/**
 One end of a connection: the validation handshake, the write pump and the message reader,
 as completion handlers of a single-threaded event loop. Models `olc::net::connection`.

 `Endpoint` is the state of a connection and the functions on it say what each handler does;
 class `Connection` is the object whose handlers do it, one field assignment at a time.
 */
module Connections {
  import opened Bytes
  import opened Messages
  import opened Framing

  datatype Owner = Server | Client

  datatype WriteKind = WriteCode | WriteHead | WriteBody

  /** An initiated `async_write`: the bytes of its buffer that the socket has not taken yet. */
  datatype WriteOp = WriteOp(kind: WriteKind, rest: seq<byte>)

  /** The initiated read, if any. */
  datatype ReadOp = NoRead | ReadCode | ReadHead | ReadBody

  /**
   The sending side. `posted` holds the messages of `asio::post`ed Send handlers that have not run.
   `greeting`, `popped`, `broken` and `failed` record history: the validation bytes handed to the
   socket, the messages written in full, and whether any write or any header or body write failed.
   */
  datatype Writer = Writer(
    greeting: seq<byte>, posted: seq<Message>, out: seq<Message>, popped: seq<Message>,
    writes: seq<WriteOp>, broken: bool, failed: bool)

  /** The receiving side; `delivered` records everything put on the incoming queue. */
  datatype Reader = Reader(op: ReadOp, codeIn: Code, buff: Message, delivered: seq<Message>)

  datatype Endpoint = Endpoint(
    owner: Owner, id: u32, codeOut: Code, codeSum: Code, open: bool, w: Writer, r: Reader)

  /** Exclusive or with 0xdfca, which touches the two lowest bytes. */
  function Scramble(code: Code): Code {
    [code[0] ^ 0xca, code[1] ^ 0xdf] + code[2..]
  }

  /** On numbers that is the server's formula; it is its own inverse and never answers a code with itself. */
  lemma ScrambleIsXor(v: bv64)
    ensures Scramble(CodeOf(v)) == CodeOf(v ^ 0xdfca)
  {
  }

  lemma ScrambleInvolution(code: Code)
    ensures Scramble(Scramble(code)) == code && Scramble(code) != code
  {
    assert Scramble(code)[0] == code[0] ^ 0xca != code[0];
    assert Scramble(code)[2..] == code[2..];
    assert Scramble(Scramble(code)) == [code[0], code[1]] + code[2..];
  }

  const NO_CODE: Code := Zeros(8)

  const IDLE_WRITER := Writer([], [], [], [], [], false, false)
  const IDLE_READER := Reader(NoRead, NO_CODE, Message(0, 0, []), [])

  function New(owner: Owner, code: Code): Endpoint {
    Endpoint(owner, 0,
             if owner == Server then code else NO_CODE,
             if owner == Server then Scramble(code) else NO_CODE,
             true, IDLE_WRITER, IDLE_READER)
  }

  // ---- Write side ----

  function Initiate(w: Writer, kind: WriteKind, bytes: seq<byte>): Writer {
    w.(writes := w.writes + [WriteOp(kind, bytes)])
  }

  function StartHeader(w: Writer): Writer
    requires w.out != []
  {
    Initiate(w, WriteHead, HeaderBytes(w.out[0].id, w.out[0].size))
  }

  function StartCode(e: Endpoint): Endpoint {
    e.(w := Initiate(e.w, WriteCode, e.codeOut).(greeting := e.codeOut))
  }

  /** The posted handler of Send: start the pump if it was idle. */
  function RunPosted(w: Writer): Writer
    requires w.posted != []
  {
    var queued := w.(posted := w.posted[1..], out := w.out + [w.posted[0]]);
    if w.out == [] then StartHeader(queued) else queued
  }

  /** The front frame is written; go on with the next one. */
  function PopFrame(w: Writer): Writer
    requires w.out != []
  {
    var popped := w.(out := w.out[1..], popped := w.popped + [w.out[0]]);
    if popped.out == [] then popped else StartHeader(popped)
  }

  /** The oldest write has moved its whole buffer. The front of an empty queue is never well defined. */
  predicate CanFinishWrite(w: Writer) {
    && w.writes != [] && w.writes[0].rest == []
    && (w.writes[0].kind != WriteCode ==> w.out != [])
  }

  function FinishWrite(w: Writer): Writer
    requires CanFinishWrite(w)
  {
    var done := w.(writes := w.writes[1..]);
    match w.writes[0].kind
    case WriteCode => done
    case WriteHead =>
      if |w.out[0].body| > 0 then Initiate(done, WriteBody, w.out[0].body) else PopFrame(done)
    case WriteBody => PopFrame(done)
  }

  function FailWrite(w: Writer): Writer
    requires w.writes != []
  {
    w.(writes := w.writes[1..], broken := true, failed := w.failed || w.writes[0].kind != WriteCode)
  }

  /** Op i is the oldest one with bytes left: buffers move in initiation order. */
  predicate Moving(w: Writer, i: nat) {
    i < |w.writes| && w.writes[i].rest != [] && forall j :: 0 <= j < i ==> w.writes[j].rest == []
  }

  function MoveBytes(w: Writer, i: nat, k: nat): Writer
    requires i < |w.writes| && k <= |w.writes[i].rest|
  {
    var op := w.writes[i];
    w.(writes := w.writes[i := op.(rest := op.rest[k..])])
  }

  // ---- Read side ----

  function Resize(s: seq<byte>, n: nat): (r: seq<byte>)
    ensures |r| == n
  {
    if n <= |s| then s[..n] else s + Zeros(n - |s|)
  }

  /** Enqueue a copy of the buffer and read the next header. */
  function Enqueue(r: Reader): Reader {
    r.(delivered := r.delivered + [r.buff], op := ReadHead)
  }

  function HeaderArrived(r: Reader, bytes: seq<byte>): Reader
    requires |bytes| == HEADER_SIZE
  {
    var size := U32FromBytes(bytes[4..]);
    var buff := r.buff.(id := U32FromBytes(bytes[..4]), size := size);
    if size > 0 then r.(buff := buff.(body := Resize(buff.body, size)), op := ReadBody)
    else Enqueue(r.(buff := buff))
  }

  function BodyArrived(r: Reader, bytes: seq<byte>): Reader {
    Enqueue(r.(buff := r.buff.(body := bytes)))
  }

  /** The code variable was zero, and the first bytes of it have been overwritten. */
  function CodeFromShortRead(bytes: seq<byte>): Code
    requires |bytes| <= 8
  {
    bytes + Zeros(8 - |bytes|)
  }

  function CodeArrived(e: Endpoint, bytes: seq<byte>): Endpoint
    requires |bytes| <= 8
  {
    var code := CodeFromShortRead(bytes);
    var read := e.(r := e.r.(codeIn := code, op := NoRead));
    match e.owner
    case Server =>
      if code == e.codeSum then read.(r := read.r.(op := ReadHead)) else read.(open := false)
    case Client =>
      StartCode(read.(codeOut := Scramble(code)))
  }

  function CloseAndStop(e: Endpoint): Endpoint {
    e.(open := false, r := e.r.(op := NoRead))
  }

  /** A completed write of the code lets a client start reading messages. */
  function WriteFinished(e: Endpoint): Endpoint
    requires CanFinishWrite(e.w)
  {
    var done := e.(w := FinishWrite(e.w));
    if e.owner == Client && e.w.writes[0].kind == WriteCode then done.(r := e.r.(op := ReadHead)) else done
  }

  function Connected(e: Endpoint, uid: u32): Endpoint {
    match e.owner
    case Server =>
      if e.open then
        var named := StartCode(e.(id := uid));
        named.(r := named.r.(op := ReadCode))
      else e
    case Client => e.(r := e.r.(op := ReadCode))
  }

  // ---- The object ----

  class Connection {
    const owner: Owner
    var id: u32
    var codeOut: Code
    var codeIn: Code
    var codeSum: Code
    var open: bool
    var greeting: seq<byte>
    var posted: seq<Message>
    var out: seq<Message>
    var popped: seq<Message>
    var writes: seq<WriteOp>
    var broken: bool
    var failed: bool
    var reading: ReadOp
    var buff: Message
    var delivered: seq<Message>

    function Writing(): Writer
      reads this
    {
      Writer(greeting, posted, out, popped, writes, broken, failed)
    }

    function State(): Endpoint
      reads this
    {
      Endpoint(owner, id, codeOut, codeSum, open, Writing(), Reader(reading, codeIn, buff, delivered))
    }

    constructor (parent: Owner, clock: Code)
      ensures State() == New(parent, clock)
    {
      owner := parent;
      id, open := 0, true;
      codeIn, codeOut, codeSum := NO_CODE, NO_CODE, NO_CODE;
      greeting, posted, out, popped, writes := [], [], [], [], [];
      broken, failed := false, false;
      reading, buff, delivered := NoRead, Message(0, 0, []), [];
      if parent == Server {
        codeOut := clock;
        codeSum := Scramble(clock);
      }
    }

    /** Server side of a new connection: take the id, then start both halves of the handshake. */
    method ConnectToClient(uid: u32)
      requires owner == Server
      modifies this
      ensures State() == Connected(old(State()), uid)
    {
      if open {
        id := uid;
        StartWriteCode();
        reading := ReadCode;
      }
    }

    /** Client side, once the socket is connected: wait for the server's code. */
    method ConnectToServer()
      requires owner == Client
      modifies this
      ensures State() == Connected(old(State()), 0)
    {
      reading := ReadCode;
    }

    method Send(msg: Message)
      modifies this
      ensures var e := old(State());
        State() == e.(w := e.w.(posted := e.w.posted + [msg]))
    {
      posted := posted + [msg];
    }

    /** The handler that Send posts. */
    method OnPosted()
      requires posted != []
      modifies this
      ensures var e := old(State());
        State() == e.(w := RunPosted(e.w))
    {
      var msg := posted[0];
      posted := posted[1..];
      var writing := out != [];
      out := out + [msg];
      if !writing {
        StartWriteHeader();
      }
    }

    method StartWriteHeader()
      requires out != []
      modifies this
      ensures var e := old(State());
        State() == e.(w := StartHeader(e.w))
    {
      writes := writes + [WriteOp(WriteHead, HeaderBytes(out[0].id, out[0].size))];
    }

    method StartWriteBody()
      requires out != []
      modifies this
      ensures var e := old(State());
        State() == e.(w := Initiate(e.w, WriteBody, e.w.out[0].body))
    {
      writes := writes + [WriteOp(WriteBody, out[0].body)];
    }

    method StartWriteCode()
      modifies this
      ensures State() == StartCode(old(State()))
    {
      greeting := codeOut;
      writes := writes + [WriteOp(WriteCode, greeting)];
    }

    method PopWritten()
      requires out != []
      modifies this
      ensures var e := old(State());
        State() == e.(w := PopFrame(e.w))
    {
      popped := popped + [out[0]];
      out := out[1..];
      if out != [] {
        StartWriteHeader();
      }
    }

    /** Completion handler of the oldest write. */
    method OnWritten(error: bool)
      requires if error then writes != [] else CanFinishWrite(Writing())
      modifies this
      ensures var e := old(State());
        State() == if error then e.(open := false, w := FailWrite(e.w)) else WriteFinished(e)
    {
      hide HeaderBytes;
      var kind := writes[0].kind;
      writes := writes[1..];
      if error {
        open := false;
        broken, failed := true, failed || kind != WriteCode;
      } else {
        match kind
        case WriteCode =>
          if owner == Client {
            reading := ReadHead;
          }
        case WriteHead =>
          if |out[0].body| > 0 {
            StartWriteBody();
          } else {
            PopWritten();
          }
        case WriteBody =>
          PopWritten();
      }
    }

    method AddToIncoming()
      modifies this
      ensures var e := old(State());
        State() == e.(r := Enqueue(e.r))
    {
      delivered := delivered + [buff];
      reading := ReadHead;
    }

    method OnHeaderRead(bytes: seq<byte>)
      requires |bytes| == HEADER_SIZE
      modifies this
      ensures var e := old(State());
        State() == e.(r := HeaderArrived(e.r, bytes))
    {
      buff := buff.(id := U32FromBytes(bytes[..4]), size := U32FromBytes(bytes[4..]));
      if buff.size > 0 {
        buff := buff.(body := Resize(buff.body, buff.size));
        reading := ReadBody;
      } else {
        AddToIncoming();
      }
    }

    method OnBodyRead(bytes: seq<byte>)
      requires |bytes| == |buff.body|
      modifies this
      ensures var e := old(State());
        State() == e.(r := BodyArrived(e.r, bytes))
    {
      buff := buff.(body := bytes);
      AddToIncoming();
    }

    /** Completion handler of `async_read_some` on the code: one to eight bytes arrived. */
    method OnCodeRead(bytes: seq<byte>)
      requires |bytes| <= 8
      modifies this
      ensures State() == CodeArrived(old(State()), bytes)
    {
      hide CodeFromShortRead, Scramble;
      codeIn := CodeFromShortRead(bytes);
      reading := NoRead;
      if owner == Server {
        if codeIn == codeSum {
          reading := ReadHead;
        } else {
          open := false;
        }
      } else {
        codeOut := Scramble(codeIn);
        StartWriteCode();
      }
    }

    method OnReadFailed()
      modifies this
      ensures State() == CloseAndStop(old(State()))
    {
      open := false;
      reading := NoRead;
    }

    /** The posted handler of Disconnect. A read in progress stays until it fails. */
    method OnDisconnect()
      modifies this
      ensures State() == old(State()).(open := false)
    {
      open := false;
    }
  }
}
