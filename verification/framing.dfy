/**
 The byte stream between two connections: how messages are laid out on the wire, how the
 reader cuts a byte stream back into messages, and exactly when the two agree.
 */
module Framing {
  import opened Bytes
  import opened Messages

  const HEADER_SIZE: nat := 8

  function HeaderBytes(id: u32, size: u32): (bs: seq<byte>)
    ensures |bs| == HEADER_SIZE
  {
    U32Bytes(id) + U32Bytes(size)
  }

  /** The header is written as it stands, then the whole body, whatever the header announces. */
  function Frame(m: Message): seq<byte> {
    HeaderBytes(m.id, m.size) + m.body
  }

  function Frames(ms: seq<Message>): seq<byte> {
    if ms == [] then [] else Frame(ms[0]) + Frames(ms[1..])
  }

  /** What a reader makes of a byte stream: messages, the body left in its buffer, undigested bytes. */
  datatype Parsed = Parsed(msgs: seq<Message>, carry: seq<byte>, rest: seq<byte>)

  /** An empty message is delivered with the body the buffer held before it. */
  function Delivered(m: Message, carry: seq<byte>): Message {
    m.(body := if m.size > 0 then m.body else carry)
  }

  /** The body length announced by the header at the start of the stream. */
  function AnnouncedSize(bs: seq<byte>): u32
    requires HEADER_SIZE <= |bs|
  {
    U32FromBytes(bs[4..8])
  }

  /** A whole frame has arrived. */
  predicate Complete(bs: seq<byte>) {
    HEADER_SIZE <= |bs| && HEADER_SIZE + AnnouncedSize(bs) <= |bs|
  }

  function FrameLength(bs: seq<byte>): (n: nat)
    requires Complete(bs)
    ensures HEADER_SIZE <= n <= |bs|
  {
    HEADER_SIZE + AnnouncedSize(bs)
  }

  function FirstMessage(carry: seq<byte>, bs: seq<byte>): (m: Message)
    requires Complete(bs)
  {
    Delivered(Message(U32FromBytes(bs[..4]), AnnouncedSize(bs), bs[HEADER_SIZE..FrameLength(bs)]), carry)
  }

  function Parse(carry: seq<byte>, bs: seq<byte>): Parsed
    decreases |bs|
  {
    if !Complete(bs) then Parsed([], carry, bs)
    else
      var m := FirstMessage(carry, bs);
      var p := Parse(m.body, bs[FrameLength(bs)..]);
      p.(msgs := [m] + p.msgs)
  }

  /** The sent messages as the reader's buffer turns them into delivered ones. */
  function CarryFold(carry: seq<byte>, ms: seq<Message>): (r: seq<Message>)
    ensures |r| == |ms|
    decreases ms
  {
    if ms == [] then []
    else
      var m := Delivered(ms[0], carry);
      [m] + CarryFold(m.body, ms[1..])
  }

  predicate AllWellFormed(ms: seq<Message>) {
    forall i :: 0 <= i < |ms| ==> WellFormed(ms[i])
  }

  /** The wire format: four bytes of type, four of body length, least significant first, and the body. */
  lemma FrameLayout(m: Message, i: nat)
    requires i < 4
    ensures |Frame(m)| == 8 + |m.body| && Frame(m)[8..] == m.body
    ensures Frame(m)[i] as nat == m.id / Pow256(i) % 256
    ensures Frame(m)[4 + i] as nat == m.size / Pow256(i) % 256
  {
    LittleEndianAt(m.id, 4, i);
    LittleEndianAt(m.size, 4, i);
  }

  // ---- Concatenation laws ----

  lemma {:induction false} FramesAppend(a: seq<Message>, b: seq<Message>)
    ensures Frames(a + b) == Frames(a) + Frames(b)
  {
    if a == [] {
      assert a + b == b;
    } else {
      assert (a + b)[0] == a[0] && (a + b)[1..] == a[1..] + b;
      FramesAppend(a[1..], b);
    }
  }

  lemma {:induction false} CarryFoldPrefix(carry: seq<byte>, a: seq<Message>, b: seq<Message>)
    requires a <= b
    ensures CarryFold(carry, a) <= CarryFold(carry, b)
    decreases a
  {
    if a != [] {
      CarryFoldPrefix(Delivered(a[0], carry).body, a[1..], b[1..]);
    }
  }

  lemma CompleteAppend(carry: seq<byte>, a: seq<byte>, b: seq<byte>)
    requires Complete(a)
    ensures Complete(a + b) && FrameLength(a + b) == FrameLength(a)
    ensures FirstMessage(carry, a + b) == FirstMessage(carry, a)
    ensures (a + b)[FrameLength(a)..] == a[FrameLength(a)..] + b
  {
    assert (a + b)[..4] == a[..4] && (a + b)[4..8] == a[4..8];
    assert (a + b)[HEADER_SIZE..FrameLength(a)] == a[HEADER_SIZE..FrameLength(a)];
  }

  /** The result of parsing on where an earlier parse stopped. */
  function ParseOn(p: Parsed, b: seq<byte>): Parsed {
    var q := Parse(p.carry, p.rest + b);
    Parsed(p.msgs + q.msgs, q.carry, q.rest)
  }

  lemma ParseOnAfter(m: Message, p: Parsed, b: seq<byte>)
    ensures ParseOn(p.(msgs := [m] + p.msgs), b) ==
      ParseOn(p, b).(msgs := [m] + ParseOn(p, b).msgs)
  {
    var q := Parse(p.carry, p.rest + b);
    assert ([m] + p.msgs) + q.msgs == [m] + (p.msgs + q.msgs);
  }

  /** Parsing can stop anywhere and go on later from the buffer and the undigested bytes. */
  lemma {:induction false} ParseAppend(carry: seq<byte>, a: seq<byte>, b: seq<byte>)
    ensures Parse(carry, a + b) == ParseOn(Parse(carry, a), b)
    decreases |a|
  {
    if Complete(a) {
      var m, tail := FirstMessage(carry, a), a[FrameLength(a)..];
      CompleteAppend(carry, a, b);
      ParseAppend(m.body, tail, b);
      ParseOnAfter(m, Parse(m.body, tail), b);
    } else {
      var q := Parse(carry, a + b);
      assert [] + q.msgs == q.msgs;
    }
  }

  lemma ParsePrefix(carry: seq<byte>, a: seq<byte>, b: seq<byte>)
    requires a <= b
    ensures Parse(carry, a).msgs <= Parse(carry, b).msgs
  {
    ParseAppend(carry, a, b[|a|..]);
    assert a + b[|a|..] == b;
  }

  /** One whole well-formed frame parses to its message, as delivered. */
  lemma ParseFrame(carry: seq<byte>, m: Message)
    requires WellFormed(m)
    ensures Parse(carry, Frame(m)) == Parsed([Delivered(m, carry)], Delivered(m, carry).body, [])
  {
    var bs := Frame(m);
    U32RoundTrip(m.id);
    U32RoundTrip(m.size);
    assert bs[..4] == U32Bytes(m.id) && bs[4..8] == U32Bytes(m.size);
    assert bs[HEADER_SIZE..FrameLength(bs)] == m.body;
    assert bs[FrameLength(bs)..] == [];
  }

  /** A stream of well-formed frames parses to the carry fold of its messages, with nothing left over. */
  lemma {:induction false} ParseFrames(carry: seq<byte>, ms: seq<Message>)
    requires AllWellFormed(ms)
    ensures Parse(carry, Frames(ms)).msgs == CarryFold(carry, ms)
    ensures Parse(carry, Frames(ms)).rest == []
    decreases ms
  {
    if ms != [] {
      var m := ms[0];
      ParseFrame(carry, m);
      ParseAppend(carry, Frame(m), Frames(ms[1..]));
      var body := Delivered(m, carry).body;
      assert [] + Frames(ms[1..]) == Frames(ms[1..]);
      ParseFrames(body, ms[1..]);
    }
  }

  // ---- Exactly when framing is faithful ----

  /** The bytes the headers announce. */
  function Announced(ms: seq<Message>): nat {
    if ms == [] then 0 else HEADER_SIZE + ms[0].size + Announced(ms[1..])
  }

  lemma {:induction false} ParseConsumes(carry: seq<byte>, bs: seq<byte>)
    ensures var p := Parse(carry, bs);
      && Announced(p.msgs) + |p.rest| == |bs|
      && forall i :: 0 <= i < |p.msgs| && p.msgs[i].size > 0 ==> WellFormed(p.msgs[i])
    decreases |bs|
  {
    if Complete(bs) {
      ParseConsumes(FirstMessage(carry, bs).body, bs[FrameLength(bs)..]);
    }
  }

  lemma {:induction false} CarryFoldAt(carry: seq<byte>, ms: seq<Message>)
    ensures Announced(CarryFold(carry, ms)) == Announced(ms)
    ensures forall i :: 0 <= i < |ms| ==> CarryFold(carry, ms)[i].size == ms[i].size
    ensures forall i :: 0 <= i < |ms| && ms[i].size > 0 ==> CarryFold(carry, ms)[i] == ms[i]
    decreases ms
  {
    if ms != [] {
      CarryFoldAt(Delivered(ms[0], carry).body, ms[1..]);
    }
  }

  lemma {:induction false} AnnouncedVersusWritten(ms: seq<Message>)
    requires forall i :: 0 <= i < |ms| && ms[i].size > 0 ==> WellFormed(ms[i])
    ensures Announced(ms) <= |Frames(ms)|
    ensures Announced(ms) == |Frames(ms)| ==> AllWellFormed(ms)
  {
    if ms != [] {
      AnnouncedVersusWritten(ms[1..]);
    }
  }

  /**
   A written list of messages is delivered as its carry fold, with no bytes left over,
   if and only if every header announced its own body.
   */
  lemma FramingFaithfulIff(carry: seq<byte>, ms: seq<Message>)
    ensures var p := Parse(carry, Frames(ms));
      p.msgs == CarryFold(carry, ms) && p.rest == [] <==> AllWellFormed(ms)
  {
    var p := Parse(carry, Frames(ms));
    if AllWellFormed(ms) {
      ParseFrames(carry, ms);
    }
    if p.msgs == CarryFold(carry, ms) && p.rest == [] {
      ParseConsumes(carry, Frames(ms));
      CarryFoldAt(carry, ms);
      AnnouncedVersusWritten(ms);
    }
  }

  // ---- Exactly when messages arrive as they were sent ----


  /** No empty message comes after a non-empty one. */
  predicate NoEmptyAfterNonEmpty(ms: seq<Message>) {
    forall i, j :: 0 <= i < j < |ms| && ms[j].size == 0 ==> ms[i].size == 0
  }

  /** No empty message meets a buffer that holds a body. */
  predicate NothingStale(carry: seq<byte>, ms: seq<Message>) {
    NoEmptyAfterNonEmpty(ms) && (carry != [] ==> forall i :: 0 <= i < |ms| ==> ms[i].size > 0)
  }

  lemma {:induction false} FoldWellFormedIff(carry: seq<byte>, ms: seq<Message>)
    requires AllWellFormed(ms)
    ensures AllWellFormed(CarryFold(carry, ms)) <==> NothingStale(carry, ms)
    decreases ms
  {
    if ms != [] {
      var m := Delivered(ms[0], carry);
      var fold, tail := CarryFold(carry, ms), ms[1..];
      assert fold[0] == m && fold[1..] == CarryFold(m.body, tail);
      FoldWellFormedIff(m.body, tail);
      assert AllWellFormed(fold) <==> WellFormed(m) && AllWellFormed(fold[1..]) by {
        assert forall i :: 1 <= i < |fold| ==> fold[i] == fold[1..][i - 1];
        assert forall i :: 0 <= i < |fold[1..]| ==> fold[1..][i] == fold[i + 1];
      }
      assert forall i :: 1 <= i < |ms| ==> ms[i] == tail[i - 1];
      assert forall i :: 0 <= i < |tail| ==> tail[i] == ms[i + 1];
    }
  }

  lemma {:induction false} FoldKeepsIds(carry: seq<byte>, ms: seq<Message>)
    ensures forall i :: 0 <= i < |ms| ==> CarryFold(carry, ms)[i].id == ms[i].id
    decreases ms
  {
    if ms != [] {
      FoldKeepsIds(Delivered(ms[0], carry).body, ms[1..]);
    }
  }

  /** A fold of well-formed messages changes nothing if and only if no stale body gets in. */
  lemma FoldIsIdentityIff(carry: seq<byte>, ms: seq<Message>)
    requires AllWellFormed(ms)
    ensures CarryFold(carry, ms) == ms <==> NothingStale(carry, ms)
  {
    FoldWellFormedIff(carry, ms);
    CarryFoldAt(carry, ms);
    FoldKeepsIds(carry, ms);
    var fold := CarryFold(carry, ms);
    hide CarryFold;
    if NothingStale(carry, ms) {
      forall i | 0 <= i < |ms| ensures fold[i] == ms[i] {
        assert WellFormed(fold[i]) && WellFormed(ms[i]);
      }
    }
  }

  /**
   What arrives is what was sent, message for message and with no bytes left over, if and only if
   every header announced its own body and no empty message followed a non-empty one.
   */
  lemma ArrivesAsSentIff(carry: seq<byte>, ms: seq<Message>)
    ensures var p := Parse(carry, Frames(ms));
      p.msgs == ms && p.rest == [] <==> AllWellFormed(ms) && NothingStale(carry, ms)
  {
    var p := Parse(carry, Frames(ms));
    if p.msgs == ms && p.rest == [] {
      ParseConsumes(carry, Frames(ms));
      AnnouncedVersusWritten(ms);
    }
    if AllWellFormed(ms) {
      ParseFrames(carry, ms);
      FoldIsIdentityIff(carry, ms);
    }
  }

  // ---- Relaying: the server sends delivered messages on ----

  /**
   A relay that forwards every message exactly as its reader delivered it is itself read back
   faithfully if and only if no empty message ever followed a non-empty one.
   */
  lemma RelayFaithfulIff(ms: seq<Message>)
    requires AllWellFormed(ms)
    ensures var relayed := Parse([], Frames(ms)).msgs;
      var p := Parse([], Frames(relayed));
      p.msgs == CarryFold([], relayed) && p.rest == [] <==> NoEmptyAfterNonEmpty(ms)
  {
    ParseFrames([], ms);
    FoldWellFormedIff([], ms);
    FramingFaithfulIff([], CarryFold([], ms));
  }

  /** The stale body in a concrete run: an empty message after a one-byte message arrives with that byte. */
  lemma EmptyMessageArrivesWithStaleBody(id: u32, b: byte)
    ensures var sent := [Message(id, 1, [b]), Message(id, 0, [])];
      && Parse([], Frames(sent)).msgs == [Message(id, 1, [b]), Message(id, 0, [b])]
      && !WellFormed(Parse([], Frames(sent)).msgs[1])
  {
    var sent := [Message(id, 1, [b]), Message(id, 0, [])];
    ParseFrames([], sent);
    assert CarryFold([b], sent[1..]) == [Message(id, 0, [b])];
  }
}
