/**
 The growable stream buffer: one vector with get and put offsets, compacted and resized on demand,
 refining a bounded first-in first-out queue of bytes. Models `asio::basic_streambuf`.
 */
module StreamBufs {
  import opened Bytes
  import opened Options

  const BUFFER_DELTA: nat := 128

  function Min(a: nat, b: nat): nat {
    if a <= b then a else b
  }

  function Max(a: nat, b: nat): nat {
    if a <= b then b else a
  }

  function Head(q: seq<byte>): Option<byte> {
    if q == [] then None else Some(q[0])
  }

  /**
   What a failed reserve leaves readable: the unread bytes c have been copied to the start of the
   buffer, but the read position still lies g bytes further on.
   */
  function Smeared(c: seq<byte>, g: nat): (r: seq<byte>)
    ensures |r| == |c|
  {
    seq(|c|, i requires 0 <= i < |c| => if g + i < |c| then c[g + i] else c[i])
  }

  /** A failed reserve leaves every content of length n intact if and only if the copy did not overlap it. */
  lemma SmearedIntactIff(n: nat, g: nat)
    ensures (forall c: seq<byte> :: |c| == n ==> Smeared(c, g) == c) <==> g == 0 || n <= g
  {
    if 0 < g < n {
      var c: seq<byte> := seq(n, i => if i == 0 then 1 else 0);
      assert Smeared(c, g)[0] == 0 != c[0];
    } else {
      assert forall c: seq<byte> :: |c| == n ==> Smeared(c, g) == c;
    }
  }

  lemma SmearedFromStart(c: seq<byte>)
    ensures Smeared(c, 0) == c
  {
  }

  /** Copying the bytes from g to p to the start of the vector leaves them there, and smears what lies at g. */
  lemma ShiftSmears(before: seq<byte>, after: seq<byte>, g: nat, p: nat)
    requires g <= p <= |before| == |after|
    requires forall i :: 0 <= i < p - g ==> after[i] == before[g + i]
    requires forall i :: p - g <= i < |after| ==> after[i] == before[i]
    ensures after[..p - g] == before[g..p]
    ensures after[g..p] == Smeared(before[g..p], g)
    ensures after[p..] == before[p..]
  {
    var data := before[g..p];
    forall i | 0 <= i < p - g ensures after[g..p][i] == Smeared(data, g)[i] {
      if g + i < p - g {
        assert after[g + i] == before[g + (g + i)] == data[g + i];
      } else {
        assert after[g + i] == before[g + i] == data[i];
      }
    }
  }

  /** The input sequence and the output sequence behind it. */
  datatype Queue = Queue(data: seq<byte>, area: seq<byte>)

  /** Moving the put position k bytes on moves the first k bytes of the output to the end of the input. */
  lemma SplitArea(vector: array<byte>, g: nat, p: nat, k: nat, e: nat)
    requires g <= p <= p + k <= e <= vector.Length
    ensures vector[g..p + k] == vector[g..p] + vector[p..e][..k]
    ensures vector[p + k..e] == vector[p..e][k..]
  {
    var v := vector[..];
    assert vector[g..p + k] == v[g..p + k] && vector[g..p] == v[g..p];
    assert vector[p..e] == v[p..e] && vector[p + k..e] == v[p + k..e];
    SplitSequence(v, g, p, k, e);
  }

  lemma SplitSequence(v: seq<byte>, g: nat, p: nat, k: nat, e: nat)
    requires g <= p <= p + k <= e <= |v|
    ensures v[g..p + k] == v[g..p] + v[p..e][..k]
    ensures v[p + k..e] == v[p..e][k..]
  {
    assert v[p..e][..k] == v[p..p + k];
  }

  class StreamBuf {
    const maxSize: nat
    var buffer: array<byte>
    var capacity: nat
    var gptr: nat
    var egptr: nat
    var pptr: nat
    var epptr: nat

    ghost predicate Valid()
      reads this
    {
      && gptr <= egptr <= pptr <= epptr <= maxSize
      && buffer.Length == Max(epptr, 1) && buffer.Length <= capacity
    }

    /** The input sequence. */
    function Data(): seq<byte>
      requires Valid()
      reads this, buffer
    {
      buffer[gptr..pptr]
    }

    /** The output sequence: the bytes from the put position to the end of the put area. */
    function Output(): seq<byte>
      requires Valid()
      reads this, buffer
    {
      buffer[pptr..epptr]
    }

    function State(): Queue
      requires Valid()
      reads this, buffer
    {
      Queue(Data(), Output())
    }

    lemma FitsLimit()
      requires Valid()
      ensures Fits(maxSize, State())
    {
    }

    lemma Lengths()
      requires Valid()
      ensures |Data()| == pptr - gptr && |Output()| == epptr - pptr && epptr <= maxSize
    {
    }

    constructor (maximum: nat)
      ensures Valid() && fresh(buffer)
      ensures maxSize == maximum && Data() == [] && |Output()| == Min(maximum, BUFFER_DELTA)
    {
      var pend := Min(maximum, BUFFER_DELTA);
      maxSize := maximum;
      buffer := new byte[Max(pend, 1)](_ => 0);
      capacity := Max(pend, 1);
      gptr, egptr, pptr, epptr := 0, 0, 0, pend;
    }

    method Size() returns (n: nat)
      requires Valid()
      ensures n == |Data()|
    {
      n := pptr - gptr;
    }

    /** `vector::resize`: the new size may need new storage, of any capacity that is large enough. */
    method Resize(size: nat)
      requires Valid() && buffer.Length <= size
      modifies this`buffer, this`capacity
      ensures buffer.Length == size <= capacity && old(capacity) <= capacity
      ensures buffer == old(buffer) || fresh(buffer)
      ensures buffer[..old(buffer.Length)] == old(buffer[..])
    {
      if buffer.Length < size {
        var was := buffer;
        buffer := new byte[size](i requires 0 <= i < size reads was => if i < was.Length then was[i] else 0);
        if capacity < size {
          var grown: nat :| size <= grown;
          capacity := grown;
        }
        assert buffer[..was.Length] == was[..];
      }
    }

    /** The memmove of reserve: copy the unread bytes to the start of the vector. The offsets stay. */
    method MoveUnread()
      requires Valid()
      modifies buffer
      ensures buffer[..pptr - gptr] == old(Data())
      ensures Data() == Smeared(old(Data()), gptr) && buffer[pptr..] == old(buffer[pptr..])
    {
      if gptr > 0 {
        forall i | 0 <= i < pptr - gptr {
          buffer[i] := buffer[gptr + i];
        }
      }
      ShiftSmears(old(buffer[..]), buffer[..], gptr, pptr);
    }

    /** Make room for n bytes after the unread ones; false is `length_error`. */
    method Reserve(n: nat) returns (ok: bool)
      requires Valid()
      modifies this, buffer
      ensures Valid() && (buffer == old(buffer) || fresh(buffer))
      ensures ok <==> |old(Data())| + n <= maxSize
      ensures ok ==> Data() == old(Data()) && n <= |Output()|
      ensures ok && n <= |old(Output())| ==> Output() == old(Output())
      ensures !ok ==> Data() == Smeared(old(Data()), old(gptr)) && Output() == old(Output())
      ensures !ok ==> unchanged(this)
    {
      hide Smeared;
      var gnext, pnext, pend := gptr, pptr, epptr;
      if n <= pend - pnext {
        return true;
      }
      pnext := pnext - gnext;
      MoveUnread();
      if n > pend - pnext {
        if n <= maxSize && pnext <= maxSize - n {
          pend := pnext + n;
          Resize(Max(pend, 1));
          assert buffer[..pnext] == old(Data());
        } else {
          assert Output() == buffer[pptr..][..epptr - pptr];
          return false;
        }
      }
      gptr, egptr, pptr, epptr := 0, pnext, pnext, pend;
      ok := true;
    }

    /** `prepare`: on success the output sequence behind the unread bytes has at least n bytes. */
    method Prepare(n: nat) returns (ok: bool)
      requires Valid()
      modifies this, buffer
      ensures Valid() && (buffer == old(buffer) || fresh(buffer))
      ensures ok <==> |old(Data())| + n <= maxSize
      ensures ok ==> Data() == old(Data()) && n <= |Output()|
      ensures ok && n <= |old(Output())| ==> Output() == old(Output())
      ensures !ok ==> Data() == Smeared(old(Data()), old(gptr)) && Output() == old(Output())
      ensures !ok ==> unchanged(this)
    {
      ok := Reserve(n);
    }

    /** The caller writes to the start of the output sequence that prepare returned, as far as it goes. */
    method FillOutput(bytes: seq<byte>)
      requires Valid()
      modifies buffer
      ensures Valid() && Data() == old(Data()) && Output() == Filled(old(Output()), bytes)
    {
      forall i | 0 <= i < |bytes| && i < epptr - pptr {
        buffer[pptr + i] := bytes[i];
      }
    }

    /** `commit`: the first n bytes of the output sequence, or all of it, become readable. */
    method Commit(n: nat)
      requires Valid()
      modifies this`pptr, this`egptr
      ensures Valid()
      ensures Data() == old(Data()) + old(Output())[..Min(n, |old(Output())|)]
      ensures Output() == old(Output())[Min(n, |old(Output())|)..]
    {
      SplitArea(buffer, gptr, pptr, Min(n, epptr - pptr), epptr);
      pptr := pptr + Min(n, epptr - pptr);
      egptr := pptr;
    }

    /** `consume`: drop n unread bytes, or all of them. */
    method Consume(n: nat)
      requires Valid()
      modifies this`gptr, this`egptr
      ensures Valid() && Output() == old(Output())
      ensures Data() == old(Data())[Min(n, |old(Data())|)..]
    {
      if egptr < pptr {
        egptr := pptr;
      }
      var count := n;
      if gptr + count > pptr {
        count := pptr - gptr;
      }
      gptr := gptr + count;
    }

    /** `underflow`: let the get area catch up with the put position and look at its first byte. */
    method Underflow() returns (c: Option<byte>)
      requires Valid()
      modifies this`egptr
      ensures Valid() && State() == old(State())
      ensures c == Head(Data())
      ensures c.Some? ==> gptr < egptr
    {
      if gptr < pptr {
        egptr := pptr;
        c := Some(buffer[gptr]);
      } else {
        c := None;
      }
    }

    /** `sbumpc` of the base class: take a byte from the get area, after underflow if it is empty. */
    method Get() returns (c: Option<byte>)
      requires Valid()
      modifies this`gptr, this`egptr
      ensures Valid() && Output() == old(Output())
      ensures c == Head(old(Data())) && Data() == old(Data())[Min(1, |old(Data())|)..]
    {
      if gptr < egptr {
        c := Some(buffer[gptr]);
      } else {
        c := Underflow();
      }
      if c.Some? {
        gptr := gptr + 1;
      }
    }

    /** `*pptr() = c; pbump(1)` */
    method Store(c: byte)
      requires Valid() && pptr < epptr
      modifies this`pptr, buffer
      ensures Valid() && Data() == old(Data()) + [c] && Output() == old(Output())[1..]
    {
      buffer[pptr] := c;
      pptr := pptr + 1;
      assert buffer[gptr..pptr] == buffer[gptr..pptr - 1] + [c];
      assert buffer[gptr..pptr - 1] == old(buffer[gptr..pptr]);
    }

    /** `overflow`: append a byte, making room if there is none; None is the end-of-file value. */
    method Overflow(c: Option<byte>) returns (ok: bool)
      requires Valid()
      modifies this, buffer
      ensures Valid() && (buffer == old(buffer) || fresh(buffer))
      ensures ok <==> c.None? || |old(Data())| < maxSize
      ensures ok ==> Data() == old(Data()) + if c.Some? then [c.value] else []
      ensures c.Some? && old(Output()) != [] ==> Output() == old(Output())[1..]
      ensures c.None? || !ok ==> State() == old(State())
    {
      if c.None? {
        return true;
      }
      hide Smeared, StreamBuf.Data, StreamBuf.Output, StreamBuf.Valid;
      Lengths();
      if pptr == epptr {
        var size := pptr - gptr;
        if size < maxSize && maxSize - size < BUFFER_DELTA {
          ok := Reserve(maxSize - size);
        } else {
          ok := Reserve(BUFFER_DELTA);
        }
        if !ok {
          SmearedFromStart(old(Data()));
          return;
        }
        Lengths();
      }
      Store(c.value);
      ok := true;
    }

    /** `sputc` of the base class: store into the put area, or overflow. */
    method Put(c: byte) returns (ok: bool)
      requires Valid()
      modifies this, buffer
      ensures Valid() && (buffer == old(buffer) || fresh(buffer))
      ensures ok <==> |old(Data())| < maxSize
      ensures ok ==> Data() == old(Data()) + [c]
      ensures old(Output()) != [] ==> Output() == old(Output())[1..]
      ensures !ok ==> State() == old(State())
    {
      if pptr < epptr {
        Store(c);
        ok := true;
      } else {
        ok := Overflow(Some(c));
      }
    }

    /** `read_size_helper`: how much to read next. */
    method ReadSizeHelper(limit: nat) returns (n: nat)
      requires Valid()
      ensures n <= limit && |Data()| + n <= maxSize
      ensures limit > 0 && |Data()| < maxSize ==> n > 0
      ensures n < Min(limit, maxSize - |Data()|) ==> n >= 512 && n >= capacity - |Data()|
    {
      var size := Size();
      n := Min(Max(512, capacity - size), Min(limit, maxSize - size));
    }

    /** Preparing what the helper proposes never throws. */
    method PrepareForRead(limit: nat) returns (n: nat, ok: bool)
      requires Valid()
      modifies this, buffer
      ensures Valid() && (buffer == old(buffer) || fresh(buffer))
      ensures ok && n <= limit && Data() == old(Data()) && n <= |Output()|
    {
      n := ReadSizeHelper(limit);
      ok := Prepare(n);
    }
  }

  // ---- Any sequence of operations ----

  datatype Op =
    | PutByte(c: byte)
    | GetByte
    | PeekByte
    | Prepare(room: nat)
    | Fill(bytes: seq<byte>)   // the caller writes to the start of the output sequence, as far as it goes
    | Commit(count: nat)
    | Drop(count: nat)

  /** What the caller sees of one operation. */
  datatype Seen = Nothing | Read(c: Option<byte>) | LengthError

  /** The area after its start has been overwritten. */
  function Filled(area: seq<byte>, bytes: seq<byte>): (r: seq<byte>)
    ensures |r| == |area|
  {
    var n := Min(|bytes|, |area|);
    bytes[..n] + area[n..]
  }

  /**
   The simple form: a queue of at most max bytes with an output area behind it. Only where the area
   was too small for what is asked is the new one left open; a failed prepare may smear the queue.
   */
  ghost predicate QueueStep(max: nat, q: Queue, op: Op, after: Queue, seen: Seen) {
    match op
    case PutByte(c) =>
      if |q.data| < max then
        seen == Nothing && after.data == q.data + [c] && (q.area != [] ==> after.area == q.area[1..])
      else
        seen == LengthError && after == q
    case GetByte => seen == Read(Head(q.data)) && after == q.(data := q.data[Min(1, |q.data|)..])
    case PeekByte => seen == Read(Head(q.data)) && after == q
    case Prepare(room) =>
      if |q.data| + room <= max then
        && seen == Nothing && after.data == q.data && room <= |after.area|
        && (room <= |q.area| ==> after.area == q.area)
      else
        && seen == LengthError && after.area == q.area
        && exists g: nat :: after.data == Smeared(q.data, g)
    case Fill(bytes) => seen == Nothing && after == q.(area := Filled(q.area, bytes))
    case Commit(count) =>
      var n := Min(count, |q.area|);
      seen == Nothing && after == Queue(q.data + q.area[..n], q.area[n..])
    case Drop(count) => seen == Nothing && after == q.(data := q.data[Min(count, |q.data|)..])
  }

  /** A run of the queue: the states it passes through and what is seen on the way. */
  ghost predicate QueueRun(max: nat, states: seq<Queue>, ops: seq<Op>, seen: seq<Seen>) {
    && |seen| == |ops| && |states| == |ops| + 1
    && forall i :: 0 <= i < |ops| ==> QueueStep(max, states[i], ops[i], states[i + 1], seen[i])
  }

  predicate Fits(max: nat, q: Queue) {
    |q.data| + |q.area| <= max
  }

  /** The bytes an operation brings into the queue, and those it takes out of it. */
  function Entering(max: nat, q: Queue, op: Op): seq<byte> {
    match op
    case PutByte(c) => if |q.data| < max then [c] else []
    case Commit(count) => q.area[..Min(count, |q.area|)]
    case _ => []
  }

  function Leaving(q: Queue, op: Op): seq<byte> {
    match op
    case GetByte => q.data[..Min(1, |q.data|)]
    case Drop(count) => q.data[..Min(count, |q.data|)]
    case _ => []
  }

  function AllEntering(max: nat, states: seq<Queue>, ops: seq<Op>): seq<byte>
    requires |states| == |ops| + 1
    decreases ops
  {
    if ops == [] then []
    else Entering(max, states[0], ops[0]) + AllEntering(max, states[1..], ops[1..])
  }

  function AllLeaving(states: seq<Queue>, ops: seq<Op>): seq<byte>
    requires |states| == |ops| + 1
    decreases ops
  {
    if ops == [] then [] else Leaving(states[0], ops[0]) + AllLeaving(states[1..], ops[1..])
  }

  /** No prepare asks for more than fits. */
  predicate NoOverrun(max: nat, q: Queue, op: Op) {
    op.Prepare? ==> |q.data| + op.room <= max
  }

  lemma StepConserves(max: nat, q: Queue, op: Op, after: Queue, seen: Seen)
    requires QueueStep(max, q, op, after, seen) && NoOverrun(max, q, op)
    ensures q.data + Entering(max, q, op) == Leaving(q, op) + after.data
    ensures op.GetByte? ==> seen == Read(Head(Leaving(q, op)))
  {
  }

  /**
   First in, first out: as long as no prepare overruns the limit, the bytes that left, in order,
   followed by those still queued are the bytes first queued followed by those that came in.
   */
  lemma {:induction false} QueueConserves(max: nat, states: seq<Queue>, ops: seq<Op>, seen: seq<Seen>)
    requires QueueRun(max, states, ops, seen)
    requires forall i :: 0 <= i < |ops| ==> NoOverrun(max, states[i], ops[i])
    ensures states[0].data + AllEntering(max, states, ops) == AllLeaving(states, ops) + states[|ops|].data
    decreases ops
  {
    if ops == [] {
      assert states[0].data + [] == [] + states[0].data;
    } else {
      var later, rest := states[1..], ops[1..];
      forall i | 0 <= i < |rest|
        ensures QueueStep(max, later[i], rest[i], later[i + 1], seen[1..][i]) && NoOverrun(max, later[i], rest[i])
      {
        var j := i + 1;
        assert QueueStep(max, states[j], ops[j], states[j + 1], seen[j]) && NoOverrun(max, states[j], ops[j]);
      }
      StepConserves(max, states[0], ops[0], states[1], seen[0]);
      QueueConserves(max, later, rest, seen[1..]);
      ConserveOn(states[0].data, Entering(max, states[0], ops[0]), AllEntering(max, later, rest),
                 Leaving(states[0], ops[0]), states[1].data, AllLeaving(later, rest), states[|ops|].data);
    }
  }

  lemma ConserveOn(
    q: seq<byte>, entering: seq<byte>, later: seq<byte>, leaving: seq<byte>, next: seq<byte>,
    leavingLater: seq<byte>, last: seq<byte>)
    requires q + entering == leaving + next && next + later == leavingLater + last
    ensures q + (entering + later) == (leaving + leavingLater) + last
  {
    calc {
      q + (entering + later);
      (q + entering) + later;
      (leaving + next) + later;
      leaving + (next + later);
      (leaving + leavingLater) + last;
    }
  }

  /** Reading between prepare and commit: gets, peeks and consumes leave the output area alone. */
  predicate OnlyReads(op: Op) {
    op.GetByte? || op.PeekByte? || op.Drop?
  }

  lemma {:induction false} AreaSurvivesReads(
    max: nat, states: seq<Queue>, ops: seq<Op>, seen: seq<Seen>, i: nat, k: nat)
    requires QueueRun(max, states, ops, seen) && i <= k <= |ops|
    requires forall j :: i <= j < k ==> OnlyReads(ops[j])
    ensures states[k].area == states[i].area
    decreases k
  {
    if i < k {
      AreaSurvivesReads(max, states, ops, seen, i, k - 1);
      StepAt(max, states, ops, seen, k - 1);
    }
  }

  lemma StepAt(max: nat, states: seq<Queue>, ops: seq<Op>, seen: seq<Seen>, i: nat)
    requires QueueRun(max, states, ops, seen) && i < |ops|
    ensures QueueStep(max, states[i], ops[i], states[i + 1], seen[i])
  {
  }

  /**
   Appending: a prepare that fits, bytes written to what it returned, and a commit of as many bytes
   append exactly these bytes; reads in between do no harm, though the documentation rules them out.
   */
  lemma PreparedBytesAppended(
    max: nat, states: seq<Queue>, room: nat, bytes: seq<byte>, between: seq<Op>, seen: seq<Seen>)
    requires QueueRun(max, states, [Prepare(room), Fill(bytes)] + between + [Commit(|bytes|)], seen)
    requires |bytes| <= room && |states[0].data| + room <= max
    requires forall i :: 0 <= i < |between| ==> OnlyReads(between[i])
    ensures states[|between| + 3].data == states[|between| + 2].data + bytes
  {
    var ops := [Prepare(room), Fill(bytes)] + between + [Commit(|bytes|)];
    var n := |between| + 2;
    assert ops[0] == Prepare(room) && ops[1] == Fill(bytes) && ops[n] == Commit(|bytes|);
    assert forall j :: 2 <= j < n ==> ops[j] == between[j - 2];
    StepAt(max, states, ops, seen, 0);
    StepAt(max, states, ops, seen, 1);
    StepAt(max, states, ops, seen, n);
    AreaSurvivesReads(max, states, ops, seen, 2, n);
    hide QueueRun;
    assert states[n].area[..|bytes|] == bytes;
  }

  /** The operations on the output sequence. */
  predicate OnOutput(op: Op) {
    op.Prepare? || op.Fill? || op.Commit?
  }

  method PerformOutput(b: StreamBuf, op: Op) returns (seen: Seen)
    requires b.Valid() && OnOutput(op)
    modifies b, b.buffer
    ensures b.Valid() && (b.buffer == old(b.buffer) || fresh(b.buffer))
    ensures QueueStep(b.maxSize, old(b.State()), op, b.State(), seen)
  {
    hide Smeared, Filled, Min, StreamBuf.Data, StreamBuf.Output;
    seen := Nothing;
    match op
    case Prepare(room) =>
      var ok := b.Prepare(room);
      if !ok {
        seen := LengthError;
      }
    case Fill(bytes) =>
      b.FillOutput(bytes);
    case Commit(count) =>
      b.Commit(count);
  }

  method PerformInput(b: StreamBuf, op: Op) returns (seen: Seen)
    requires b.Valid() && !OnOutput(op)
    modifies b, b.buffer
    ensures b.Valid() && (b.buffer == old(b.buffer) || fresh(b.buffer))
    ensures QueueStep(b.maxSize, old(b.State()), op, b.State(), seen)
  {
    hide Smeared, Head, Min, StreamBuf.Data, StreamBuf.Output;
    seen := Nothing;
    match op
    case PutByte(c) =>
      var ok := b.Put(c);
      if !ok {
        seen := LengthError;
      }
    case GetByte =>
      var c := b.Get();
      seen := Read(c);
    case PeekByte =>
      var c := b.Underflow();
      seen := Read(c);
    case Drop(count) =>
      b.Consume(count);
  }

  /** One operation of the buffer is one operation of the queue. */
  method Perform(b: StreamBuf, op: Op) returns (seen: Seen)
    requires b.Valid()
    modifies b, b.buffer
    ensures b.Valid() && (b.buffer == old(b.buffer) || fresh(b.buffer))
    ensures QueueStep(b.maxSize, old(b.State()), op, b.State(), seen)
  {
    hide QueueStep;
    if OnOutput(op) {
      seen := PerformOutput(b, op);
    } else {
      seen := PerformInput(b, op);
    }
  }

  lemma NoRun(max: nat, q: Queue)
    ensures QueueRun(max, [q], [], [])
  {
  }

  lemma RunOneMore(max: nat, states: seq<Queue>, ops: seq<Op>, seen: seq<Seen>, after: Queue, last: Seen)
    requires ops != [] && QueueRun(max, states, ops[..|ops| - 1], seen)
    requires QueueStep(max, states[|ops| - 1], ops[|ops| - 1], after, last)
    ensures QueueRun(max, states + [after], ops, seen + [last])
  {
    hide QueueStep;
  }

  /**
   Refinement: under any sequence of operations, failing ones included, what the caller of the
   stream buffer sees is what a caller of the bounded queue can see, and the buffer holds what the
   queue holds; the states of that run of the queue are returned for reasoning only.
   */
  method Execute(b: StreamBuf, ops: seq<Op>) returns (seen: seq<Seen>, ghost states: seq<Queue>)
    requires b.Valid()
    modifies b, b.buffer
    ensures b.Valid() && (b.buffer == old(b.buffer) || fresh(b.buffer))
    ensures |states| == |ops| + 1 && QueueRun(b.maxSize, states, ops, seen)
    ensures states[0] == old(b.State()) && states[|ops|] == b.State()
    ensures forall i :: 0 <= i < |states| ==> Fits(b.maxSize, states[i])
    decreases |ops|
  {
    hide QueueStep, QueueRun;
    b.FitsLimit();
    NoRun(b.maxSize, b.State());
    seen, states := [], [b.State()];
    if ops != [] {
      var n := |ops| - 1;
      seen, states := Execute(b, ops[..n]);
      var last := Perform(b, ops[n]);
      b.FitsLimit();
      RunOneMore(b.maxSize, states, ops, seen, b.State(), last);
      seen, states := seen + [last], states + [b.State()];
    }
  }

  lemma SmearedPair(b: byte, c: byte)
    ensures Smeared([b, c], 1) == [c, c]
  {
  }

  /** The failed reserve in a concrete run: of three bytes one is read, and asking for two more smears the rest. */
  method FailedPrepareSmears(a: byte, b: byte, c: byte)
    returns (fitted: bool, before: seq<byte>, after: seq<byte>)
    ensures !fitted && before == [b, c] && after == [c, c]
  {
    hide StreamBuf.Data, StreamBuf.Output, StreamBuf.Valid, Smeared;
    var buf := new StreamBuf(3);
    var _ := buf.Put(a);
    var _ := buf.Put(b);
    var _ := buf.Put(c);
    assert buf.Data() == [a, b, c];
    buf.Lengths();
    var _ := buf.Get();
    before := buf.Data();
    assert before == [a, b, c][1..] == [b, c];
    buf.Lengths();
    assert buf.gptr == 1;
    fitted := buf.Prepare(2);
    after := buf.Data();
    SmearedPair(b, c);
  }
}
