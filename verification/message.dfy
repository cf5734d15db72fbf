/**
 Messages: a header (type id and body size) and a body that is used as a stack of bytes.
 Models `olc::net::message` with its typed push and pop operators.
 */
module Messages {
  import opened Bytes
  import opened Options

  /** A message as it is copied into queues and onto the wire. */
  datatype Message = Message(id: u32, size: u32, body: seq<byte>)

  /** The header announces exactly the body that follows it. */
  predicate WellFormed(m: Message) {
    m.size == |m.body|
  }

  /** What one `<<` pushes: the bytes of a standard-layout object, or a string. */
  datatype Item = Fixed(repr: seq<byte>) | Text(chars: seq<byte>)

  /** What one `>>` expects: an object of a given width, or a string. */
  datatype Kind = FixedKind(width: nat) | TextKind

  function KindOf(item: Item): Kind {
    match item
    case Fixed(repr) => FixedKind(|repr|)
    case Text(_) => TextKind
  }

  /** A string length is a `size_t`. */
  predicate Representable(item: Item) {
    item.Text? ==> |item.chars| < TWO_64
  }

  /** The bytes a push leaves on top of the body; a string is followed by its length. */
  function Encode(item: Item): seq<byte> {
    match item
    case Fixed(repr) => repr
    case Text(chars) => chars + LittleEndian(|chars|, 8)
  }

  function DropLast(s: seq<byte>, n: nat): (r: seq<byte>)
    requires n <= |s|
    ensures s == r + TakeLast(s, n)
  {
    s[..|s| - n]
  }

  function TakeLast(s: seq<byte>, n: nat): (r: seq<byte>)
    requires n <= |s|
    ensures |r| == n
  {
    s[|s| - n..]
  }

  /** The value on top of the body, and the body below it; None where the bytes are too few. */
  function PopItem(body: seq<byte>, kind: Kind): Option<(Item, seq<byte>)> {
    match kind
    case FixedKind(width) =>
      if |body| < width then None else Some((Fixed(TakeLast(body, width)), DropLast(body, width)))
    case TextKind =>
      if |body| < 8 then None
      else
        var below := DropLast(body, 8);
        var length := FromLittleEndian(TakeLast(body, 8));
        if |below| < length then None
        else Some((Text(TakeLast(below, length)), DropLast(below, length)))
  }

  /** The `uint32_t` on top of the body. */
  function TopNumber(m: Message): u32
    requires 4 <= |m.body|
  {
    U32FromBytes(TakeLast(m.body, 4))
  }

  function PushAll(body: seq<byte>, items: seq<Item>): seq<byte> {
    if items == [] then body else PushAll(body, items[..|items| - 1]) + Encode(items[|items| - 1])
  }

  function PopAll(body: seq<byte>, kinds: seq<Kind>): Option<(seq<Item>, seq<byte>)>
    decreases kinds
  {
    if kinds == [] then Some(([], body))
    else
      match PopItem(body, kinds[0])
      case None => None
      case Some((item, below)) =>
        match PopAll(below, kinds[1..])
        case None => None
        case Some((items, rest)) => Some(([item] + items, rest))
  }

  function Reversed<T>(s: seq<T>): (r: seq<T>)
    ensures |r| == |s|
  {
    if s == [] then [] else [s[|s| - 1]] + Reversed(s[..|s| - 1])
  }

  function Kinds(items: seq<Item>): (r: seq<Kind>)
    ensures |r| == |items|
  {
    seq(|items|, i requires 0 <= i < |items| => KindOf(items[i]))
  }

  lemma PopAfterPush(body: seq<byte>, item: Item)
    requires Representable(item)
    ensures PopItem(body + Encode(item), KindOf(item)) == Some((item, body))
  {
    hide LittleEndian, FromLittleEndian, Pow256;
    var all := body + Encode(item);
    match item
    case Fixed(repr) =>
      assert TakeLast(all, |repr|) == repr && DropLast(all, |repr|) == body;
    case Text(chars) =>
      Pow256Values();
      LittleEndianRoundTrip(|chars|, 8);
      var below := body + chars;
      assert TakeLast(all, 8) == LittleEndian(|chars|, 8) && DropLast(all, 8) == below;
      assert TakeLast(below, |chars|) == chars && DropLast(below, |chars|) == body;
  }

  /** A string lies in the body as its characters, then their count as eight bytes, least significant first. */
  lemma TextLayout(body: seq<byte>, chars: seq<byte>, i: nat)
    requires i < 8
    ensures var pushed := body + Encode(Text(chars));
      && |pushed| == |body| + |chars| + 8
      && pushed[..|body|] == body && pushed[|body|..|body| + |chars|] == chars
      && pushed[|body| + |chars| + i] as nat == |chars| / Pow256(i) % 256
  {
    LittleEndianAt(|chars|, 8, i);
  }

  /** A pop that succeeds took off exactly what pushing the value puts back. */
  lemma PushAfterPop(body: seq<byte>, kind: Kind)
    requires PopItem(body, kind).Some?
    ensures var (item, below) := PopItem(body, kind).value;
      KindOf(item) == kind && Representable(item) && below + Encode(item) == body
  {
    match kind
    case FixedKind(_) =>
    case TextKind =>
      var (item, below) := PopItem(body, kind).value;
      var tail := TakeLast(body, 8);
      assert below + item.chars == DropLast(body, 8);
      Pow256Values();
      LittleEndianInverse(tail);
      assert LittleEndian(|item.chars|, 8) == tail;
      assert below + (item.chars + tail) == DropLast(body, 8) + tail;
  }

  /**
   Codec round trip: popping the matching types in reverse order of the pushes returns every
   value and leaves the body as it was before the first push.
   */
  lemma {:induction false} CodecRoundTrip(body: seq<byte>, items: seq<Item>)
    requires forall i :: 0 <= i < |items| ==> Representable(items[i])
    ensures PopAll(PushAll(body, items), Reversed(Kinds(items))) == Some((Reversed(items), body))
  {
    if items != [] {
      var n := |items| - 1;
      var init, last := items[..n], items[n];
      CodecRoundTrip(body, init);
      PopAfterPush(PushAll(body, init), last);
      assert Kinds(items)[..n] == Kinds(init);
      assert Reversed(Kinds(items))[1..] == Reversed(Kinds(init));
    }
  }

  /** The message object itself; its operators change body and header in place. */
  class MessageObject {
    var id: u32
    var size: u32
    var body: seq<byte>

    function Value(): Message
      reads this
    {
      Message(id, size, body)
    }

    constructor (id: u32)
      ensures Value() == Message(id, 0, [])
    {
      this.id, this.size, this.body := id, 0, [];
    }

    constructor Copy(m: Message)
      ensures Value() == m
    {
      id, size, body := m.id, m.size, m.body;
    }

    /** `msg.header.size = msg.size()`: the 64-bit length is cut to 32 bits. */
    method UpdateSize()
      modifies this`size
      ensures size == |body| % TWO_32
    {
      size := |body| % TWO_32;
    }

    /** Grow the body and copy the bytes into the new part. */
    method Append(bytes: seq<byte>)
      modifies this`body
      ensures body == old(body) + bytes
    {
      var i := |body|;
      body := body + Zeros(|bytes|);
      body := body[..i] + bytes + body[i + |bytes|..];
    }

    /** `operator<<` for a standard-layout object with the given object representation. */
    method PushFixed(repr: seq<byte>)
      modifies this
      ensures id == old(id) && size == |body| % TWO_32
      ensures body == old(body) + Encode(Fixed(repr))
    {
      Append(repr);
      UpdateSize();
    }

    /** `operator>>` for a standard-layout object; a shorter body is undefined behaviour. */
    method PopFixed(width: nat) returns (repr: seq<byte>)
      requires width <= |body|
      modifies this
      ensures id == old(id) && size == |body| % TWO_32
      ensures PopItem(old(body), FixedKind(width)) == Some((Fixed(repr), body))
    {
      var i := |body| - width;
      repr := body[i..];
      body := body[..i];
      UpdateSize();
    }

    /** `operator<<` for a string: the characters, then their count as a `size_t`. */
    method PushText(chars: seq<byte>)
      requires |chars| < TWO_64
      modifies this
      ensures id == old(id) && size == |body| % TWO_32
      ensures body == old(body) + Encode(Text(chars))
    {
      hide LittleEndian, PopItem;
      Append(chars);
      UpdateSize();
      PushFixed(LittleEndian(|chars|, 8));
      assert (old(body) + chars) + LittleEndian(|chars|, 8) == old(body) + Encode(Text(chars));
    }

    /** `operator>>` for a string: the popped characters are appended to the target. */
    method PopText(target: seq<byte>) returns (data: seq<byte>)
      requires PopItem(body, TextKind).Some?
      modifies this
      ensures id == old(id) && size == |body| % TWO_32
      ensures target <= data
      ensures PopItem(old(body), TextKind) == Some((Text(data[|target|..]), body))
    {
      var width := PopFixed(8);
      var length := FromLittleEndian(width);
      var i := |body| - length;
      data := target + body[i..];
      body := body[..i];
      UpdateSize();
      assert data[|target|..] == old(TakeLast(DropLast(body, 8), length));
    }
  }
}
