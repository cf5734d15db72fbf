/**
 Buffered writing to a socket that accepts as little as it likes. Models the put side of
 `asio::basic_socket_streambuf`: overflow, sync, setbuf and init_buffers.
 */
module SocketStreamBufs {
  import opened Bytes
  import opened Options

  const BUFFER_SIZE: nat := 512

  /** How one round of the send loop goes. */
  datatype Round =
    | Took(count: nat)        // send reports so many bytes
    | NotReady(polled: bool)  // would block; polled says whether waiting for the socket succeeds
    | Broken                  // any other error, or the expiry time has passed

  /** How many of n bytes the socket accepts before the loop ends; a schedule that runs out expires. */
  function Accepted(n: nat, rounds: seq<Round>): (k: nat)
    ensures k <= n
    decreases rounds
  {
    if n == 0 || rounds == [] then 0
    else
      match rounds[0]
      case Took(count) =>
        if count == 0 then 0
        else if n <= count then n
        else count + Accepted(n - count, rounds[1..])
      case NotReady(polled) => if polled then Accepted(n, rounds[1..]) else 0
      case Broken => 0
  }

  /** Bytes the socket has accepted, bytes in the put area, and the size of the put buffer. */
  datatype Out = Out(wire: seq<byte>, pending: seq<byte>, room: nat)

  function Fresh(): Out {
    Out([], [], BUFFER_SIZE)
  }

  /** All bytes the buffer is responsible for, in order. */
  function Stream(o: Out): seq<byte> {
    o.wire + o.pending
  }

  function Optional(c: Option<byte>): seq<byte> {
    match c
    case None => []
    case Some(b) => [b]
  }

  /** `overflow`; without a put buffer the byte itself is sent. False is the end-of-file result. */
  function Overflowed(o: Out, c: Option<byte>, rounds: seq<Round>): (Out, bool) {
    if o.room == 0 then
      if Accepted(|Optional(c)|, rounds) == |Optional(c)| then (o.(wire := o.wire + Optional(c)), true)
      else (o, false)
    else
      var k := Accepted(|o.pending|, rounds);
      if k < |o.pending| then (o.(wire := o.wire + o.pending[..k]), false)
      else (o.(wire := o.wire + o.pending, pending := Optional(c)), true)
  }

  datatype Op =
    | PutByte(c: byte)
    | Sync
    | SetBuf(noArray: bool, size: nat)

  function Step(o: Out, op: Op, rounds: seq<Round>): (Out, bool) {
    match op
    case PutByte(c) =>
      if |o.pending| < o.room then (o.(pending := o.pending + [c]), true)
      else Overflowed(o, Some(c), rounds)
    case Sync => Overflowed(o, None, rounds)
    case SetBuf(noArray, size) =>
      (if o.pending == [] && noArray && size == 0 then o.(room := 0) else o, true)
  }

  class SocketStreamBuf {
    var putBuffer: array<byte>
    var pptr: nat
    var epptr: nat
    var wire: seq<byte>

    ghost predicate Valid()
      reads this
    {
      pptr <= epptr == putBuffer.Length
    }

    function State(): Out
      requires Valid()
      reads this, putBuffer
    {
      Out(wire, putBuffer[..pptr], putBuffer.Length)
    }

    /** A new buffer with its put area set up by init_buffers. */
    constructor ()
      ensures Valid() && fresh(putBuffer)
      ensures State() == Fresh()
    {
      putBuffer := new byte[BUFFER_SIZE](_ => 0);
      pptr, epptr, wire := 0, BUFFER_SIZE, [];
    }

    /** The send loop: each round advances the buffer that is left to send, waits, or gives up. */
    method SendAll(bytes: seq<byte>, rounds: seq<Round>) returns (ok: bool)
      requires Valid()
      modifies this`wire
      ensures wire == old(wire) + bytes[..Accepted(|bytes|, rounds)]
      ensures ok <==> Accepted(|bytes|, rounds) == |bytes|
    {
      var output, i := bytes, 0;
      while |output| > 0
        invariant i <= |rounds| && |output| <= |bytes|
        invariant output == bytes[|bytes| - |output|..]
        invariant wire == old(wire) + bytes[..|bytes| - |output|]
        invariant Accepted(|bytes|, rounds) == |bytes| - |output| + Accepted(|output|, rounds[i..])
        decreases |rounds| - i
      {
        if i == |rounds| {
          return false;
        }
        var round := rounds[i];
        assert rounds[i..][1..] == rounds[i + 1..];
        i := i + 1;
        match round
        case Took(count) =>
          if count == 0 {
            return false;
          }
          var n := if count <= |output| then count else |output|;
          wire := wire + output[..n];
          output := output[n..];
        case NotReady(polled) =>
          if !polled {
            return false;
          }
        case Broken =>
          return false;
      }
      ok := true;
    }

    method Overflow(c: Option<byte>, rounds: seq<Round>) returns (ok: bool)
      requires Valid()
      modifies this, putBuffer
      ensures Valid() && putBuffer == old(putBuffer)
      ensures (State(), ok) == Overflowed(old(State()), c, rounds)
    {
      var output: seq<byte>;
      if putBuffer.Length == 0 {
        if c.None? {
          assert wire + [] == wire;
          return true;
        }
        output := [c.value];
      } else {
        output := putBuffer[..pptr];
      }
      ok := SendAll(output, rounds);
      assert output[..|output|] == output && output[..0] == [];
      if !ok {
        assert putBuffer.Length == 0 ==> wire == old(wire);
        return;
      }
      if putBuffer.Length != 0 {
        pptr, epptr := 0, putBuffer.Length;
        if c.Some? {
          putBuffer[pptr] := c.value;
          pptr := pptr + 1;
        }
        assert putBuffer[..pptr] == Optional(c);
      }
    }

    /** `sputc` of the base class: store into the put area, or overflow. */
    method Put(c: byte, rounds: seq<Round>) returns (ok: bool)
      requires Valid()
      modifies this, putBuffer
      ensures Valid() && putBuffer == old(putBuffer)
      ensures (State(), ok) == Step(old(State()), PutByte(c), rounds)
    {
      if pptr < epptr {
        putBuffer[pptr] := c;
        pptr := pptr + 1;
        assert putBuffer[..pptr] == old(putBuffer[..pptr]) + [c];
        ok := true;
      } else {
        ok := Overflow(Some(c), rounds);
      }
    }

    method SyncAll(rounds: seq<Round>) returns (ok: bool)
      requires Valid()
      modifies this, putBuffer
      ensures Valid() && putBuffer == old(putBuffer)
      ensures (State(), ok) == Step(old(State()), Sync, rounds)
    {
      ok := Overflow(None, rounds);
    }

    /** `setbuf(0, 0)` on an empty put area drops the put buffer; anything else is refused. */
    method SetBuffer(noArray: bool, size: nat) returns (done: bool)
      requires Valid()
      modifies this, putBuffer
      ensures Valid() && (putBuffer == old(putBuffer) || fresh(putBuffer))
      ensures State() == Step(old(State()), SetBuf(noArray, size), []).0
      ensures done <==> old(pptr) == 0 && noArray && size == 0
    {
      done := false;
      if pptr == 0 && noArray && size == 0 {
        putBuffer := new byte[0];
        pptr, epptr := 0, 0;
        var _ := SyncAll([]);
        done := true;
      }
    }
  }

  // ---- Whole runs ----

  /** The bytes an operation writes. */
  function Written(op: Op): seq<byte> {
    match op
    case PutByte(c) => [c]
    case _ => []
  }

  function AllWritten(ops: seq<Op>): seq<byte> {
    if ops == [] then [] else Written(ops[0]) + AllWritten(ops[1..])
  }

  /** A run against a schedule for each operation; it ends at the first failing overflow. */
  function Run(o: Out, ops: seq<Op>, schedule: seq<seq<Round>>): (Out, bool)
    requires |schedule| == |ops|
    decreases ops
  {
    if ops == [] then (o, true)
    else
      var (next, ok) := Step(o, ops[0], schedule[0]);
      if ok then Run(next, ops[1..], schedule[1..]) else (next, false)
  }

  lemma StepKeepsStream(o: Out, op: Op, rounds: seq<Round>)
    requires Step(o, op, rounds).1 && (o.room == 0 ==> o.pending == [])
    ensures var next := Step(o, op, rounds).0;
      Stream(next) == Stream(o) + Written(op) && (next.room == 0 ==> next.pending == [])
  {
    match op
    case PutByte(c) =>
      assert o.wire + (o.pending + [c]) == (o.wire + o.pending) + [c];
      assert o.wire + [] == o.wire;
    case Sync =>
    case SetBuf(_, _) =>
  }

  lemma Regroup(a: seq<byte>, b: seq<byte>, c: seq<byte>)
    ensures (a + b) + c == a + (b + c)
  {
  }

  /**
   Nothing is lost, repeated or reordered: for any operations and any schedule of short sends and
   waits without a failing overflow, what the socket has accepted followed by what is pending is
   exactly what was written.
   */
  lemma {:induction false} NothingLost(o: Out, ops: seq<Op>, schedule: seq<seq<Round>>)
    requires |schedule| == |ops| && (o.room == 0 ==> o.pending == [])
    requires Run(o, ops, schedule).1
    ensures Stream(Run(o, ops, schedule).0) == Stream(o) + AllWritten(ops)
    decreases ops
  {
    if ops == [] {
      assert Stream(o) + [] == Stream(o);
    } else {
      hide Step, Stream, Written;
      var next := Step(o, ops[0], schedule[0]).0;
      StepKeepsStream(o, ops[0], schedule[0]);
      NothingLost(next, ops[1..], schedule[1..]);
      Regroup(Stream(o), Written(ops[0]), AllWritten(ops[1..]));
    }
  }

  /**
   The first failing overflow: the put area is kept as it was, so the stream is still what was
   written before if and only if the socket accepted nothing in that call; otherwise the accepted
   bytes would be sent again.
   */
  lemma FailureRepeatsIff(o: Out, op: Op, rounds: seq<Round>)
    requires !Step(o, op, rounds).1 && (o.room == 0 ==> o.pending == [])
    ensures var next := Step(o, op, rounds).0;
      && next.pending == o.pending
      && next.wire == o.wire + o.pending[..Accepted(|o.pending|, rounds)]
      && (Stream(next) == Stream(o) <==> Accepted(|o.pending|, rounds) == 0)
  {
    var next := Step(o, op, rounds).0;
    assert o.wire + [] == o.wire;
    assert |Stream(next)| == |Stream(o)| + Accepted(|o.pending|, rounds);
  }

  /** The repetition on the wire: after one of two bytes was accepted, a retried sync sends the first one again. */
  lemma RetrySendsTwice(x: byte, y: byte)
    ensures var o := Out([], [x, y], BUFFER_SIZE);
      var failed := Out([x], [x, y], BUFFER_SIZE);
      && Step(o, Sync, [Took(1), Broken]) == (failed, false)
      && Step(failed, Sync, [Took(2)]) == (Out([x, x, y], [], BUFFER_SIZE), true)
  {
    assert [Took(1), Broken][1..] == [Broken];
    assert Accepted(2, [Took(1), Broken]) == 1 + Accepted(1, [Broken]) == 1;
    assert [] + [x, y][..1] == [x] && [x] + [x, y] == [x, x, y];
    assert Accepted(2, [Took(2)]) == 2;
  }

  // ---- What a schedule of rounds amounts to ----

  /** Rounds that keep the loop going: some bytes go out, or waiting succeeds. */
  predicate Steady(rounds: seq<Round>) {
    forall i :: 0 <= i < |rounds| ==>
      (rounds[i].Took? && rounds[i].count > 0) || rounds[i] == NotReady(true)
  }

  /** The round that ends the loop, if there is one left: nothing goes out, waiting fails, or an error. */
  predicate Stops(rounds: seq<Round>) {
    rounds != [] ==> rounds[0] == Took(0) || rounds[0] == NotReady(false) || rounds[0] == Broken
  }

  /** All the bytes the socket has taken in these rounds. */
  function Total(rounds: seq<Round>): nat {
    if rounds == [] then 0
    else Total(rounds[..|rounds| - 1]) + if rounds[|rounds| - 1].Took? then rounds[|rounds| - 1].count else 0
  }

  lemma {:induction false} TotalFromFront(rounds: seq<Round>)
    requires rounds != []
    ensures Total(rounds) == (if rounds[0].Took? then rounds[0].count else 0) + Total(rounds[1..])
  {
    var n := |rounds| - 1;
    if n > 0 {
      TotalFromFront(rounds[..n]);
      assert rounds[..n][1..] == rounds[1..][..n - 1];
    } else {
      assert rounds[..0] == rounds[1..] == [];
    }
  }

  /** Every schedule is steady up to where it stops. */
  lemma {:induction false} SteadyThenStops(rounds: seq<Round>) returns (good: seq<Round>, rest: seq<Round>)
    ensures rounds == good + rest && Steady(good) && Stops(rest)
  {
    if rounds == [] || Stops(rounds) {
      good, rest := [], rounds;
    } else {
      var later, end := SteadyThenStops(rounds[1..]);
      good, rest := [rounds[0]] + later, end;
    }
  }

  /** The socket accepts what the steady rounds offer, up to all there is. */
  lemma {:induction false} AcceptedIsOffered(n: nat, good: seq<Round>, rest: seq<Round>)
    requires Steady(good) && Stops(rest)
    ensures Accepted(n, good + rest) == if n <= Total(good) then n else Total(good)
    decreases good
  {
    if good == [] {
      assert [] + rest == rest;
    } else if n > 0 {
      assert (good + rest)[0] == good[0] && (good + rest)[1..] == good[1..] + rest;
      TotalFromFront(good);
      if good[0].NotReady? {
        AcceptedIsOffered(n, good[1..], rest);
      } else if good[0].count < n {
        AcceptedIsOffered(n - good[0].count, good[1..], rest);
      }
    }
  }

  /**
   The send loop in full, for every schedule: a sync, and a put into a full area, send the pending
   bytes piece by piece; they succeed exactly if the rounds before the loop stops take them all, and
   otherwise those taken are on the wire and all stay pending.
   */
  lemma FlushSends(o: Out, c: byte, good: seq<Round>, rest: seq<Round>)
    requires Steady(good) && Stops(rest) && o.room > 0
    ensures Step(o, Sync, good + rest) ==
      if |o.pending| <= Total(good) then (Out(o.wire + o.pending, [], o.room), true)
      else (Out(o.wire + o.pending[..Total(good)], o.pending, o.room), false)
    ensures |o.pending| >= o.room ==>
      (Step(o, PutByte(c), good + rest) ==
       if |o.pending| <= Total(good) then (Out(o.wire + o.pending, [c], o.room), true)
       else (Out(o.wire + o.pending[..Total(good)], o.pending, o.room), false))
  {
    AcceptedIsOffered(|o.pending|, good, rest);
  }

  /** While there is room a put sends nothing; without a buffer it sends its byte at once or nothing. */
  lemma PutSends(o: Out, c: byte, good: seq<Round>, rest: seq<Round>)
    requires Steady(good) && Stops(rest)
    ensures |o.pending| < o.room ==>
      Step(o, PutByte(c), good + rest) == (o.(pending := o.pending + [c]), true)
    ensures o.room == 0 ==>
      (Step(o, PutByte(c), good + rest) ==
       if 1 <= Total(good) then (o.(wire := o.wire + [c]), true) else (o, false))
  {
    AcceptedIsOffered(1, good, rest);
  }

  /** setbuf(0, 0) on an empty put area makes every later put unbuffered; otherwise it changes nothing. */
  lemma SetBufUnbuffers(o: Out, noArray: bool, size: nat, rounds: seq<Round>)
    ensures var next := Step(o, SetBuf(noArray, size), rounds).0;
      next == if o.pending == [] && noArray && size == 0 then Out(o.wire, [], 0) else o
  {
  }

  function Puts(bytes: seq<byte>): (ops: seq<Op>)
    ensures |ops| == |bytes|
  {
    seq(|bytes|, i requires 0 <= i < |bytes| => PutByte(bytes[i]))
  }

  /** The first 512 bytes put into a new buffer stay in it, whatever the socket would do. */
  lemma {:induction false} BuffersFirst(o: Out, bytes: seq<byte>, schedule: seq<seq<Round>>)
    requires |schedule| == |bytes| && |o.pending| + |bytes| <= o.room
    ensures Run(o, Puts(bytes), schedule) == (o.(pending := o.pending + bytes), true)
    decreases bytes
  {
    if bytes == [] {
      assert o.pending + [] == o.pending;
    } else {
      var next := o.(pending := o.pending + [bytes[0]]);
      assert Puts(bytes)[1..] == Puts(bytes[1..]);
      BuffersFirst(next, bytes[1..], schedule[1..]);
      assert next.pending + bytes[1..] == o.pending + bytes;
    }
  }
}
