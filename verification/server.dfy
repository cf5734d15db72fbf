/**
 The pairing server: the roster of connections, the map of who talks to whom, and the message
 loop's handler. Models `olc::net::server_interface` and `CustomServer`.

 Connections are named by the order in which they were accepted. `ServerState` and the functions
 on it say what each operation does; class `ChatServer` is the object that does it with its loops.
 */
module Server {
  import opened Bytes
  import opened Messages
  import opened Options

  const SERVER_ACCEPT: u32 := 0
  const SERVER_PING: u32 := 2
  const MESSAGE_ALL: u32 := 3
  const SERVER_MESSAGE: u32 := 4
  const CLIENT_LIST: u32 := 5
  const REQUEST_TO_CLIENT: u32 := 6
  const TEXT_CLIENT: u32 := 7
  const REQUEST_ANSWER: u32 := 8
  const CLOSE_CLIENT: u32 := 9

  const FIRST_ID: nat := 10000

  /** A connection object, by order of acceptance. */
  type Conn = nat

  /** One call of Send. */
  datatype Sent = Sent(to: Conn, msg: Message)

  /**
   `ids` holds GetID of every connection ever accepted and `open` the connected ones; `sent` and
   `reported` record every Send and every call of OnClientDisconnect, in order.
   */
  datatype ServerState = ServerState(
    ids: seq<u32>, open: set<Conn>, roster: seq<Option<Conn>>, nextId: u32,
    pairs: map<u32, u32>, sent: seq<Sent>, reported: seq<Conn>)

  /** Throws: `unordered_map::at` found no entry. Undefined: the code runs into undefined behaviour. */
  datatype Outcome = Done | Throws | Undefined

  const INITIAL := ServerState([], {}, [], FIRST_ID, map[], [], [])

  /** A message whose body is one `uint32_t`. */
  function NumberMessage(kind: u32, n: u32): Message {
    Message(kind, 4, U32Bytes(n))
  }

  lemma NumberMessageTop(kind: u32, n: u32)
    ensures TopNumber(NumberMessage(kind, n)) == n
  {
    U32RoundTrip(n);
    assert TakeLast(U32Bytes(n), 4) == U32Bytes(n);
  }

  // ---- Pairs ----

  predicate CanConnect(pairs: map<u32, u32>, a: u32, b: u32) {
    a !in pairs && b !in pairs && a != b
  }

  function Connect(pairs: map<u32, u32>, a: u32, b: u32): map<u32, u32> {
    if CanConnect(pairs, a, b) then pairs[a := b][b := a] else pairs
  }

  /** Both finds of DisconnectClients hit; erasing a missed find is undefined. */
  predicate CanDisconnect(pairs: map<u32, u32>, a: u32, b: u32) {
    a in pairs && b in pairs && a != b
  }

  function Disconnect(pairs: map<u32, u32>, a: u32, b: u32): map<u32, u32> {
    pairs - {a, b}
  }

  // ---- The roster ----

  predicate NoNulls(roster: seq<Option<Conn>>) {
    forall i :: 0 <= i < |roster| ==> roster[i].Some?
  }

  predicate IsLive(member: Option<Conn>, open: set<Conn>) {
    member.Some? && member.value in open
  }

  /** Among the first n members those that are connected, or those that are not, in order. */
  function SelectUpTo(roster: seq<Option<Conn>>, open: set<Conn>, connected: bool, n: nat): seq<Conn>
    requires n <= |roster|
  {
    if n == 0 then []
    else
      var before := SelectUpTo(roster, open, connected, n - 1);
      var member := roster[n - 1];
      if member.Some? && (member.value in open <==> connected) then before + [member.value] else before
  }

  function Live(roster: seq<Option<Conn>>, open: set<Conn>): seq<Conn> {
    SelectUpTo(roster, open, true, |roster|)
  }

  function Gone(roster: seq<Option<Conn>>, open: set<Conn>): seq<Conn> {
    SelectUpTo(roster, open, false, |roster|)
  }

  /** `erase(remove(begin, end, nullptr), end)` */
  function EraseNulls(roster: seq<Option<Conn>>): seq<Option<Conn>> {
    NonNullUpTo(roster, |roster|)
  }

  function NonNullUpTo(roster: seq<Option<Conn>>, n: nat): seq<Option<Conn>>
    requires n <= |roster|
  {
    if n == 0 then []
    else NonNullUpTo(roster, n - 1) + if roster[n - 1].Some? then [roster[n - 1]] else []
  }

  function Entries(conns: seq<Conn>): (r: seq<Option<Conn>>)
    ensures |r| == |conns|
  {
    seq(|conns|, i requires 0 <= i < |conns| => Some(conns[i]))
  }

  /** GetID of a connection; 0 until it is named. */
  function IdOf(ids: seq<u32>, c: Conn): u32 {
    if c < |ids| then ids[c] else 0
  }

  function IdsOf(ids: seq<u32>, conns: seq<Conn>): (r: seq<u32>)
    ensures |r| == |conns|
  {
    seq(|conns|, i requires 0 <= i < |conns| => IdOf(ids, conns[i]))
  }

  /** The body built by pushing each id in turn. */
  function PushIds(list: seq<u32>): seq<byte> {
    if list == [] then [] else PushIds(list[..|list| - 1]) + U32Bytes(list[|list| - 1])
  }

  lemma {:induction false} PushIdsLength(list: seq<u32>)
    ensures |PushIds(list)| == 4 * |list|
  {
    if list != [] {
      PushIdsLength(list[..|list| - 1]);
    }
  }

  /** One message to each connected one among the first n members, except the ignored one. */
  function BroadcastUpTo(roster: seq<Option<Conn>>, open: set<Conn>, n: nat, ignore: Conn, msg: Message): seq<Sent>
    requires n <= |roster|
  {
    if n == 0 then []
    else if IsLive(roster[n - 1], open) && roster[n - 1].value != ignore then
      BroadcastUpTo(roster, open, n - 1, ignore, msg) + [Sent(roster[n - 1].value, msg)]
    else BroadcastUpTo(roster, open, n - 1, ignore, msg)
  }

  /** The members with the given id, in roster order. */
  function Hits(s: ServerState, id: u32): seq<Conn>
    requires WellPlaced(s)
  {
    HitsIn(s.roster, s.ids, id)
  }

  function HitsIn(roster: seq<Option<Conn>>, ids: seq<u32>, id: u32): seq<Conn>
    requires forall i :: 0 <= i < |roster| ==> roster[i].Some? && roster[i].value < |ids|
  {
    if roster == [] then []
    else (if ids[roster[0].value] == id then [roster[0].value] else []) + HitsIn(roster[1..], ids, id)
  }

  /** The roster holds no nulls and only accepted connections. */
  predicate WellPlaced(s: ServerState) {
    forall i :: 0 <= i < |s.roster| ==> s.roster[i].Some? && s.roster[i].value < |s.ids|
  }

  // ---- Operations ----

  function Send(s: ServerState, to: Conn, msg: Message): ServerState {
    s.(sent := s.sent + [Sent(to, msg)])
  }

  /** Drop and report the members whose connection is gone. */
  function Sweep(s: ServerState): ServerState {
    s.(roster := Entries(Live(s.roster, s.open)), reported := s.reported + Gone(s.roster, s.open))
  }

  /** The accept handler: greet with the id to be given, enter the roster, take the id. */
  function Accept(s: ServerState): ServerState {
    var c := |s.ids|;
    var greeted := Send(s, c, NumberMessage(SERVER_ACCEPT, s.nextId));
    greeted.(ids := s.ids + [s.nextId], open := s.open + {c}, roster := s.roster + [Some(c)],
             nextId := (s.nextId + 1) % TWO_32)
  }

  function EchoPing(s: ServerState, c: Conn, m: Message): ServerState {
    Send(s, c, m)
  }

  function MessageAll(s: ServerState, c: Conn): ServerState
    requires c < |s.ids|
  {
    var msg := NumberMessage(SERVER_MESSAGE, s.ids[c]);
    Sweep(s).(sent := s.sent + BroadcastUpTo(s.roster, s.open, |s.roster|, c, msg))
  }

  function ClientList(s: ServerState, c: Conn): ServerState
  {
    var body := PushIds(IdsOf(s.ids, Live(s.roster, s.open)));
    Send(Sweep(s), c, Message(CLIENT_LIST, |body| % TWO_32, body))
  }

  /** Code 0: no such client. Code 1: one of the two is busy, or they are the same. */
  function RequestPair(s: ServerState, c: Conn, m: Message): (ServerState, Outcome)
    requires WellPlaced(s) && c < |s.ids|
  {
    if |m.body| < 4 then (s, Undefined)
    else
      var me, id := s.ids[c], TopNumber(m);
      var hits := Hits(s, id);
      if hits == [] then (Send(s, c, NumberMessage(REQUEST_TO_CLIENT, 0)), Done)
      else if CanConnect(s.pairs, me, id) then
        (Send(s, hits[0], NumberMessage(REQUEST_TO_CLIENT, me)).(pairs := Connect(s.pairs, me, id)), Done)
      else (Send(s, c, NumberMessage(REQUEST_TO_CLIENT, 1)), Done)
  }

  /**
   Forward to the partner; if its connection is gone, dissolve the pair and tell the sender.
   The loop goes on after dissolving, so a second member with the partner's id is undefined.
   */
  function ForwardText(s: ServerState, c: Conn, m: Message): (ServerState, Outcome)
    requires WellPlaced(s) && c < |s.ids|
  {
    var me := s.ids[c];
    if me !in s.pairs then (s, Throws)
    else
      var partner := s.pairs[me];
      var hits := Hits(s, partner);
      if hits == [] then (s, Done)
      else if hits[0] in s.open then (Send(s, hits[0], m), Done)
      else if !CanDisconnect(s.pairs, partner, me) || |hits| > 1 then (s, Undefined)
      else
        (Send(s, c, Message(CLOSE_CLIENT, 0, [])).(pairs := Disconnect(s.pairs, partner, me)), Done)
  }

  function ForwardAnswer(s: ServerState, c: Conn, m: Message): (ServerState, Outcome)
    requires WellPlaced(s) && c < |s.ids|
  {
    var me := s.ids[c];
    if me !in s.pairs then (s, Throws)
    else
      var hits := Hits(s, s.pairs[me]);
      (if hits == [] then s else Send(s, hits[0], m), Done)
  }

  function ClosePair(s: ServerState, c: Conn): (ServerState, Outcome)
    requires WellPlaced(s) && c < |s.ids|
  {
    var me := s.ids[c];
    if me !in s.pairs then (s, Throws)
    else
      var partner := s.pairs[me];
      var hits := Hits(s, partner);
      if !CanDisconnect(s.pairs, me, partner) then (s, Undefined)
      else
        var told := if hits == [] then s else Send(s, hits[0], Message(CLOSE_CLIENT, 0, []));
        (told.(pairs := Disconnect(s.pairs, me, partner)), Done)
  }

  /** OnMessage. Message types without a case are ignored. */
  function Handle(s: ServerState, c: Conn, m: Message): (ServerState, Outcome)
    requires WellPlaced(s) && c < |s.ids|
  {
    if m.id == SERVER_PING then (EchoPing(s, c, m), Done)
    else if m.id == MESSAGE_ALL then (MessageAll(s, c), Done)
    else if m.id == CLIENT_LIST then (ClientList(s, c), Done)
    else if m.id == REQUEST_TO_CLIENT then RequestPair(s, c, m)
    else if m.id == TEXT_CLIENT then ForwardText(s, c, m)
    else if m.id == REQUEST_ANSWER then ForwardAnswer(s, c, m)
    else if m.id == CLOSE_CLIENT then ClosePair(s, c)
    else (s, Done)
  }

  // ---- Facts the loops need ----

  lemma {:induction false} HitsSkip(roster: seq<Option<Conn>>, ids: seq<u32>, id: u32, n: nat)
    requires forall i :: 0 <= i < |roster| ==> roster[i].Some? && roster[i].value < |ids|
    requires n <= |roster| && forall i :: 0 <= i < n ==> ids[roster[i].value] != id
    ensures HitsIn(roster, ids, id) == HitsIn(roster[n..], ids, id)
    decreases n
  {
    if n == 0 {
      assert roster[0..] == roster;
    } else {
      HitsSkip(roster[1..], ids, id, n - 1);
      assert roster[1..][n - 1..] == roster[n..];
    }
  }

  /** The roster after the loop has reset the members whose connection is gone. */
  function Reset(roster: seq<Option<Conn>>, open: set<Conn>): (r: seq<Option<Conn>>)
    ensures |r| == |roster|
  {
    seq(|roster|, i requires 0 <= i < |roster| =>
      if roster[i].Some? && roster[i].value in open then roster[i] else None)
  }

  lemma {:induction false} ErasingReset(roster: seq<Option<Conn>>, open: set<Conn>, n: nat)
    requires n <= |roster|
    ensures NonNullUpTo(Reset(roster, open), n) == Entries(SelectUpTo(roster, open, true, n))
  {
    if n > 0 {
      ErasingReset(roster, open, n - 1);
    }
  }

  lemma {:induction false} NothingToErase(roster: seq<Option<Conn>>, n: nat)
    requires NoNulls(roster) && n <= |roster|
    ensures NonNullUpTo(roster, n) == roster[..n]
  {
    if n > 0 {
      NothingToErase(roster, n - 1);
    }
  }

  lemma IdsOneMore(ids: seq<u32>, conns: seq<Conn>, c: Conn)
    ensures IdsOf(ids, conns + [c]) == IdsOf(ids, conns) + [IdOf(ids, c)]
  {
  }

  lemma TakeOneMore<T>(s: seq<T>, n: nat)
    requires n < |s|
    ensures s[..n + 1][..n] == s[..n] && s[..n + 1][n] == s[n]
  {
  }

  // ---- The object ----

  class ChatServer {
    var ids: seq<u32>
    var open: set<Conn>
    var roster: seq<Option<Conn>>
    var nextId: u32
    var pairs: map<u32, u32>
    var sent: seq<Sent>
    var reported: seq<Conn>

    function State(): ServerState
      reads this
    {
      ServerState(ids, open, roster, nextId, pairs, sent, reported)
    }

    constructor ()
      ensures State() == INITIAL
    {
      ids, open, roster, nextId := [], {}, [], FIRST_ID;
      pairs, sent, reported := map[], [], [];
    }

    /** A connection's socket is closed by the network thread. */
    method OnSocketClosed(c: Conn)
      modifies this`open
      ensures open == old(open) - {c}
    {
      open := open - {c};
    }

    method SendTo(c: Conn, msg: Message)
      modifies this`sent
      ensures State() == Send(old(State()), c, msg)
    {
      sent := sent + [Sent(c, msg)];
    }

    /** The accept handler with OnClientConnect. */
    method OnAccept()
      modifies this
      ensures State() == Accept(old(State()))
    {
      hide LittleEndian;
      var c := |ids|;
      var msg := new MessageObject(SERVER_ACCEPT);
      msg.PushFixed(U32Bytes(nextId));
      assert msg.body == U32Bytes(nextId);
      SendTo(c, msg.Value());
      roster := roster + [Some(c)];
      open := open + {c};
      ids := ids + [nextId];
      nextId := (nextId + 1) % TWO_32;
    }

    method ConnectClients(a: u32, b: u32) returns (ok: bool)
      modifies this`pairs
      ensures ok == CanConnect(old(pairs), a, b)
      ensures pairs == Connect(old(pairs), a, b)
    {
      ok := false;
      if a !in pairs && b !in pairs && a != b {
        pairs := pairs[a := b];
        pairs := pairs[b := a];
        ok := true;
      }
    }

    method DisconnectClients(a: u32, b: u32)
      requires CanDisconnect(pairs, a, b)
      modifies this`pairs
      ensures pairs == Disconnect(old(pairs), a, b)
    {
      pairs := pairs - {a};
      pairs := pairs - {b};
    }

    /** The end of both sweeps: erase the reset members, if there are any. */
    method EraseInvalid(invalid: bool, ghost was: seq<Option<Conn>>)
      requires roster == Reset(was, open)
      requires !invalid ==> NoNulls(roster)
      modifies this`roster
      ensures roster == Entries(Live(was, open))
    {
      ErasingReset(was, open, |was|);
      if invalid {
        roster := EraseNulls(roster);
      } else {
        NothingToErase(roster, |roster|);
      }
    }

    /** The loop of GetClientList: collect live ids, report and reset the rest, then erase. */
    method GetClientList() returns (list: seq<u32>)
      requires WellPlaced(State())
      modifies this`roster, this`reported
      ensures State() == Sweep(old(State()))
      ensures list == IdsOf(ids, Live(old(roster), open))
    {
      var i, invalid := 0, false;
      list := [];
      ghost var was := roster;
      while i < |roster|
        invariant i <= |roster| == |was|
        invariant forall j :: i <= j < |was| ==> roster[j] == was[j]
        invariant forall j :: 0 <= j < i ==> roster[j] == if IsLive(was[j], open) then was[j] else None
        invariant !invalid ==> roster == was
        invariant reported == old(reported) + SelectUpTo(was, open, false, i)
        invariant list == IdsOf(ids, SelectUpTo(was, open, true, i))
      {
        var c := roster[i].value;
        IdsOneMore(ids, SelectUpTo(was, open, true, i), c);
        if c in open {
          list := list + [IdOf(ids, c)];
        } else {
          reported := reported + [c];
          roster := roster[i := None];
          invalid := true;
        }
        i := i + 1;
      }
      assert roster == Reset(was, open);
      EraseInvalid(invalid, was);
    }

    method MessageAllClient(msg: Message, ignore: Conn)
      requires WellPlaced(State())
      modifies this`roster, this`reported, this`sent
      ensures var s := old(State());
        State() == Sweep(s).(sent := s.sent + BroadcastUpTo(s.roster, s.open, |s.roster|, ignore, msg))
    {
      var i, invalid := 0, false;
      ghost var was := roster;
      while i < |roster|
        invariant i <= |roster| == |was|
        invariant forall j :: i <= j < |was| ==> roster[j] == was[j]
        invariant forall j :: 0 <= j < i ==> roster[j] == if IsLive(was[j], open) then was[j] else None
        invariant !invalid ==> roster == was
        invariant reported == old(reported) + SelectUpTo(was, open, false, i)
        invariant sent == old(sent) + BroadcastUpTo(was, open, i, ignore, msg)
      {
        var c := roster[i].value;
        if c in open {
          if c != ignore {
            sent := sent + [Sent(c, msg)];
          }
        } else {
          reported := reported + [c];
          roster := roster[i := None];
          invalid := true;
        }
        i := i + 1;
      }
      assert roster == Reset(was, open);
      EraseInvalid(invalid, was);
    }

    method OnClientListRequest(c: Conn)
      requires WellPlaced(State()) && c < |ids|
      modifies this
      ensures State() == ClientList(old(State()), c)
    {
      var list := GetClientList();
      var msg := new MessageObject(CLIENT_LIST);
      var i := 0;
      assert list[..0] == [];
      while i < |list|
        modifies msg
        invariant i <= |list|
        invariant msg.id == CLIENT_LIST && msg.size == |msg.body| % TWO_32
        invariant msg.body == PushIds(list[..i])
      {
        TakeOneMore(list, i);
        msg.PushFixed(U32Bytes(list[i]));
        i := i + 1;
      }
      assert list[..i] == list;
      SendTo(c, msg.Value());
    }

    /** The search loop of the RequestToClient case: it stops at the first member with the id. */
    method OnRequest(c: Conn, m: Message) returns (outcome: Outcome)
      requires WellPlaced(State()) && c < |ids| && 4 <= |m.body|
      modifies this
      ensures (State(), outcome) == RequestPair(old(State()), c, m)
    {
      var msg := new MessageObject.Copy(m);
      var repr := msg.PopFixed(4);
      var id := U32FromBytes(repr);
      var found, i := false, 0;
      outcome := Done;
      while i < |roster| && !found
        modifies this`pairs, this`sent
        invariant i <= |roster|
        invariant !found ==> forall j :: 0 <= j < i ==> ids[roster[j].value] != id
        invariant !found ==> State() == old(State())
        invariant found ==> (State(), Done) == RequestPair(old(State()), c, m)
        decreases |roster| - i, !found
      {
        var other := roster[i].value;
        if ids[other] == id {
          found := true;
          HitsSkip(roster, ids, id, i);
          var ok := ConnectClients(ids[c], id);
          if ok {
            SendTo(other, NumberMessage(REQUEST_TO_CLIENT, ids[c]));
          } else {
            SendTo(c, NumberMessage(REQUEST_TO_CLIENT, 1));
          }
        } else {
          i := i + 1;
        }
      }
      if !found {
        HitsSkip(roster, ids, id, |roster|);
        SendTo(c, NumberMessage(REQUEST_TO_CLIENT, 0));
      }
    }

    /** The first member with the id, as the loops of RequestAnswer and CloseClient find it. */
    method FindMember(id: u32) returns (hit: Option<Conn>)
      requires WellPlaced(State())
      ensures var hits := Hits(State(), id);
        hit == if hits == [] then None else Some(hits[0])
    {
      var i := 0;
      while i < |roster|
        invariant i <= |roster|
        invariant forall j :: 0 <= j < i ==> ids[roster[j].value] != id
      {
        if ids[roster[i].value] == id {
          HitsSkip(roster, ids, id, i);
          return roster[i];
        }
        i := i + 1;
      }
      HitsSkip(roster, ids, id, |roster|);
      hit := None;
    }

    /** The TextClient case: its loop breaks after forwarding but goes on after dissolving. */
    method OnText(c: Conn, m: Message) returns (outcome: Outcome)
      requires WellPlaced(State()) && c < |ids|
      requires ForwardText(State(), c, m).1 != Undefined
      modifies this
      ensures (State(), outcome) == ForwardText(old(State()), c, m)
    {
      if ids[c] !in pairs {
        return Throws;
      }
      var partner := pairs[ids[c]];
      var i := 0;
      ghost var hits := Hits(State(), partner);
      ghost var dissolved := false;
      outcome := Done;
      while i < |roster|
        modifies this`pairs, this`sent
        invariant i <= |roster|
        invariant !dissolved ==> State() == old(State())
        invariant !dissolved ==> forall j :: 0 <= j < i ==> ids[roster[j].value] != partner
        invariant dissolved ==> (State(), Done) == ForwardText(old(State()), c, m)
        invariant dissolved ==> HitsIn(roster[i..], ids, partner) == []
      {
        var other := roster[i].value;
        if !dissolved {
          HitsSkip(roster, ids, partner, i);
        }
        assert roster[i..][1..] == roster[i + 1..];
        if ids[other] == partner {
          if ids[c] in pairs && other in open {
            SendTo(other, m);
            return;
          } else {
            DisconnectClients(partner, ids[c]);
            SendTo(c, Message(CLOSE_CLIENT, 0, []));
            dissolved := true;
          }
        }
        i := i + 1;
      }
      if !dissolved {
        HitsSkip(roster, ids, partner, |roster|);
      }
    }

    method OnAnswer(c: Conn, m: Message) returns (outcome: Outcome)
      requires WellPlaced(State()) && c < |ids|
      modifies this
      ensures (State(), outcome) == ForwardAnswer(old(State()), c, m)
    {
      if ids[c] !in pairs {
        return Throws;
      }
      var hit := FindMember(pairs[ids[c]]);
      if hit.Some? {
        SendTo(hit.value, m);
      }
      outcome := Done;
    }

    method OnClose(c: Conn) returns (outcome: Outcome)
      requires WellPlaced(State()) && c < |ids|
      requires ClosePair(State(), c).1 != Undefined
      modifies this
      ensures (State(), outcome) == ClosePair(old(State()), c)
    {
      if ids[c] !in pairs {
        return Throws;
      }
      var partner := pairs[ids[c]];
      var hit := FindMember(partner);
      if hit.Some? {
        SendTo(hit.value, Message(CLOSE_CLIENT, 0, []));
      }
      DisconnectClients(ids[c], partner);
      outcome := Done;
    }

    method OnMessage(c: Conn, m: Message) returns (outcome: Outcome)
      requires WellPlaced(State()) && c < |ids|
      requires Handle(State(), c, m).1 != Undefined
      modifies this
      ensures (State(), outcome) == Handle(old(State()), c, m)
    {
      outcome := Done;
      if m.id == SERVER_PING {
        SendTo(c, m);
      } else if m.id == MESSAGE_ALL {
        MessageAllClient(NumberMessage(SERVER_MESSAGE, ids[c]), c);
      } else if m.id == CLIENT_LIST {
        OnClientListRequest(c);
      } else if m.id == REQUEST_TO_CLIENT {
        outcome := OnRequest(c, m);
      } else if m.id == TEXT_CLIENT {
        outcome := OnText(c, m);
      } else if m.id == REQUEST_ANSWER {
        outcome := OnAnswer(c, m);
      } else if m.id == CLOSE_CLIENT {
        outcome := OnClose(c);
      }
    }
  }
}
