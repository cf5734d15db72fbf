/**
 The client's side of the chat protocol: what it makes of a client list, of a request message and
 of the messages that open and close a conversation. Models `Custom_Client::ExecuteMessages`.
 */
module Client {
  import opened Bytes
  import opened Messages
  import opened Options
  import opened Server
  import opened Matchings
  import opened ServerRuns
  import opened ServerSteps

  /** The two ids a client keeps: its partner, and the peer of a pending request. */
  datatype ClientState = ClientState(connectedTo: u32, requestId: u32)

  datatype RequestNotice = NoSuchClient | ClientBusy | RequestFrom(id: u32)

  /** The three-way switch on the number in a RequestToClient message. */
  function DecodeRequest(id: u32): RequestNotice {
    if id == 0 then NoSuchClient else if id == 1 then ClientBusy else RequestFrom(id)
  }

  /** The effect of one incoming message; types without an effect on the ids leave them alone. */
  function AfterMessage(s: ClientState, m: Message): ClientState
    requires m.id == REQUEST_TO_CLIENT || m.id == REQUEST_ANSWER ==> 4 <= |m.body|
  {
    if m.id == REQUEST_TO_CLIENT then
      match DecodeRequest(TopNumber(m)) {
        case RequestFrom(id) => s.(requestId := id)
        case _ => s.(requestId := 0)
      }
    else if m.id == REQUEST_ANSWER then
      if TopNumber(m) != 0 then ClientState(s.requestId, 0) else s.(requestId := 0)
    else if m.id == CLOSE_CLIENT then ClientState(0, 0)
    else s
  }

  /** Typing ConnectTo sends a request and makes its target the pending one. */
  function AfterConnectTo(s: ClientState, id: u32): (ClientState, Message) {
    (s.(requestId := id), NumberMessage(REQUEST_TO_CLIENT, id))
  }

  /** Typing Accept or Decline answers a pending request, which stays pending. */
  function AfterAnswer(s: ClientState, accept: bool): (ClientState, Option<Message>) {
    if s.requestId < FIRST_ID then (s, None)
    else if accept then (s.(connectedTo := s.requestId), Some(NumberMessage(REQUEST_ANSWER, 1)))
    else (s, Some(NumberMessage(REQUEST_ANSWER, 0)))
  }

  /** Closing a conversation forgets both ids and tells the server. */
  function AfterClose(s: ClientState): (ClientState, Message) {
    (ClientState(0, 0), Message(CLOSE_CLIENT, 0, []))
  }

  /** The message a typed line of chat is sent as. */
  function TextMessage(chars: seq<byte>): Message {
    var body := Encode(Text(chars));
    Message(TEXT_CLIENT, |body| % TWO_32, body)
  }

  /** What the pop loop prints for a list body: a position and an id, from the last to the first. */
  function Listing(body: seq<byte>, n: nat): seq<(nat, u32)>
    requires |body| >= 4 * n
    decreases n
  {
    if n == 0 then [] else [(n, U32FromBytes(TakeLast(body, 4)))] + Listing(DropLast(body, 4), n - 1)
  }

  lemma ListingStep(body: seq<byte>, n: nat)
    requires n > 0 && |body| >= 4 * n
    ensures Listing(body, n) == [(n, U32FromBytes(TakeLast(body, 4)))] + Listing(DropLast(body, 4), n - 1)
  {
  }

  lemma NothingListed(body: seq<byte>)
    ensures Listing(body, 0) == []
  {
  }

  class ChatClient {
    var connectedTo: u32
    var requestId: u32

    function State(): ClientState
      reads this
    {
      ClientState(connectedTo, requestId)
    }

    constructor ()
      ensures State() == ClientState(0, 0)
    {
      connectedTo, requestId := 0, 0;
    }

    /** The ClientList case: pop as many ids as the body holds, counting down. */
    method OnClientList(m: Message) returns (shown: seq<(nat, u32)>, left: seq<byte>)
      ensures shown == Listing(m.body, |m.body| / 4)
      ensures |left| == |m.body| % 4
    {
      hide LittleEndian, Listing;
      var msg := new MessageObject.Copy(m);
      NothingListed(m.body);
      var i := |msg.body| / 4;
      shown := [];
      while i > 0
        modifies msg
        invariant |msg.body| == 4 * i + |m.body| % 4
        invariant shown + Listing(msg.body, i) == Listing(m.body, |m.body| / 4)
      {
        ghost var before := msg.body;
        var repr := msg.PopFixed(4);
        var id := U32FromBytes(repr);
        ListingStep(before, i);
        assert Listing(before, i) == [(i, id)] + Listing(msg.body, i - 1);
        shown := shown + [(i, id)];
        i := i - 1;
      }
      NothingListed(msg.body);
      left := msg.body;
    }

    method ConnectTo(id: u32) returns (sent: Message)
      modifies this
      ensures (State(), sent) == AfterConnectTo(old(State()), id)
    {
      hide LittleEndian;
      var msg := new MessageObject(REQUEST_TO_CLIENT);
      msg.PushFixed(U32Bytes(id));
      assert msg.body == U32Bytes(id);
      sent := msg.Value();
      requestId := id;
    }

    /** Accept, or Decline. */
    method Answer(accept: bool) returns (sent: Option<Message>)
      modifies this
      ensures (State(), sent) == AfterAnswer(old(State()), accept)
    {
      hide LittleEndian;
      if requestId < FIRST_ID {
        return None;
      }
      var msg := new MessageObject(REQUEST_ANSWER);
      var code: u32 := if accept then 1 else 0;
      msg.PushFixed(U32Bytes(code));
      assert msg.body == U32Bytes(code);
      sent := Some(msg.Value());
      if accept {
        connectedTo := requestId;
      }
    }

    /** The CloseClient command. */
    method Close() returns (sent: Message)
      modifies this
      ensures (State(), sent) == AfterClose(old(State()))
    {
      var msg := new MessageObject(CLOSE_CLIENT);
      sent := msg.Value();
      connectedTo := 0;
      requestId := 0;
    }

    /** SendToClient */
    method SendText(chars: seq<byte>) returns (sent: Message)
      requires |chars| < TWO_64
      ensures sent == TextMessage(chars)
    {
      hide LittleEndian;
      var msg := new MessageObject(TEXT_CLIENT);
      msg.PushText(chars);
      assert msg.body == Encode(Text(chars));
      sent := msg.Value();
    }

    /** The cases that change the ids; a shorter body is undefined behaviour. */
    method Execute(m: Message)
      requires m.id == REQUEST_TO_CLIENT || m.id == REQUEST_ANSWER ==> 4 <= |m.body|
      modifies this
      ensures State() == AfterMessage(old(State()), m)
    {
      var msg := new MessageObject.Copy(m);
      if m.id == REQUEST_TO_CLIENT {
        var repr := msg.PopFixed(4);
        var id := U32FromBytes(repr);
        if id == 0 || id == 1 {
          requestId := 0;
        } else {
          requestId := id;
        }
      } else if m.id == REQUEST_ANSWER {
        var repr := msg.PopFixed(4);
        if U32FromBytes(repr) != 0 {
          connectedTo := requestId;
        }
        requestId := 0;
      } else if m.id == CLOSE_CLIENT {
        connectedTo := 0;
        requestId := 0;
      }
    }
  }

  // ---- Agreement with the server ----

  /** Positions and ids of a list, from the last to the first. */
  function FromLast(list: seq<u32>): (r: seq<(nat, u32)>)
    ensures |r| == |list|
    ensures forall k :: 0 <= k < |r| ==> r[k] == (|list| - k, list[|list| - 1 - k])
  {
    if list == [] then [] else [(|list|, list[|list| - 1])] + FromLast(list[..|list| - 1])
  }

  lemma TopOfPushed(body: seq<byte>, id: u32)
    ensures var pushed := body + U32Bytes(id);
      U32FromBytes(TakeLast(pushed, 4)) == id && DropLast(pushed, 4) == body
  {
    U32RoundTrip(id);
    assert TakeLast(body + U32Bytes(id), 4) == U32Bytes(id);
  }

  /**
   For a list of any length the pop loop shows position i with the i-th id the server pushed,
   from the last to the first, and uses up the whole body.
   */
  lemma {:induction false} ListAgreement(list: seq<u32>)
    ensures |PushIds(list)| == 4 * |list|
    ensures Listing(PushIds(list), |list|) == FromLast(list)
  {
    if list != [] {
      var n := |list| - 1;
      ListAgreement(list[..n]);
      TopOfPushed(PushIds(list[..n]), list[n]);
    }
  }

  /** The answer to a client's list request, as that client shows it: the ids of the connected members. */
  lemma ClientListShown(s: ServerState, c: Conn)
    ensures var after := Server.ClientList(s, c);
      var list := IdsOf(s.ids, Live(s.roster, s.open));
      && SentOne(s, after) && TheMessage(s, after).to == c
      && var m := TheMessage(s, after).msg;
      && m.id == CLIENT_LIST && |m.body| / 4 == |list| && |m.body| % 4 == 0
      && Listing(m.body, |m.body| / 4) == FromLast(list)
  {
    ListAgreement(IdsOf(s.ids, Live(s.roster, s.open)));
    hide PushIds, IdsOf, Live, Listing, FromLast;
  }

  /**
   Request outcome: in every reachable state before ids wrap a request with a whole id is answered
   by exactly one message, and decoding it tells which of the three things happened: no member has
   the id, one of the two is busy or they are the same, or the pair was added and the target learns
   who asks.
   */
  lemma RequestDecoded(s: ServerState, c: Conn, m: Message)
    requires Inv(s) && NotWrapped(s) && c < |s.ids| && 4 <= |m.body|
    ensures var after := RequestPair(s, c, m).0;
      var me, id := s.ids[c], TopNumber(m);
      && SentOne(s, after)
      && var x := TheMessage(s, after);
      && x.msg.id == REQUEST_TO_CLIENT && |x.msg.body| == 4
      && var notice := DecodeRequest(TopNumber(x.msg));
      && (notice == NoSuchClient <==> !HasMember(s, id))
      && (notice == ClientBusy <==> HasMember(s, id) && !CanConnect(s.pairs, me, id))
      && (notice.RequestFrom? ==>
            notice.id == me && x.to < |s.ids| && s.ids[x.to] == id && Paired(after, me, id))
      && (!notice.RequestFrom? ==> x.to == c && after.pairs == s.pairs)
  {
    var me := s.ids[c];
    assert me >= FIRST_ID by { IdsIncrease(s); }
    RequestOutcome(s, c, m);
    NumberMessageTop(REQUEST_TO_CLIENT, 0);
    NumberMessageTop(REQUEST_TO_CLIENT, 1);
    NumberMessageTop(REQUEST_TO_CLIENT, me);
    hide RequestPair, HasMember, TopNumber, Inv, NotWrapped, U32Bytes;
  }

  /** The decoding depends on ids staying away from the two codes. */
  lemma DecodesSenderIff(me: u32)
    ensures DecodeRequest(TopNumber(NumberMessage(REQUEST_TO_CLIENT, me))) == RequestFrom(me) <==> me > 1
  {
    NumberMessageTop(REQUEST_TO_CLIENT, me);
  }

  /** The server's answer to a list request, as the client shows it: exactly the connected members' ids. */
  lemma ListAnswerShown(s: ServerState, c: Conn, m: Message)
    requires Inv(s) && c < |s.ids| && m.id == CLIENT_LIST
    ensures var after := Step(s, Received(c, m)).0;
      && SentOne(s, after) && TheMessage(s, after).to == c
      && var body := TheMessage(s, after).msg.body;
      && |body| % 4 == 0
      && exists live :: AreConnected(s, live) && Listing(body, |body| / 4) == FromLast(IdsOf(s.ids, live))
  {
    hide Inv, Step, AreConnected, SentOne, TheMessage, Swept;
    InvParts(s);
    ListStep(s, c, m);
    var body := TheMessage(s, Step(s, Received(c, m)).0).msg.body;
    var live :| AreConnected(s, live) && body == PushIds(IdsOf(s.ids, live));
    ShownAs(body, IdsOf(s.ids, live));
  }

  lemma ShownAs(body: seq<byte>, list: seq<u32>)
    requires body == PushIds(list)
    ensures |body| % 4 == 0 && Listing(body, |body| / 4) == FromLast(list)
  {
    hide Listing, PushIds, FromLast;
    ListAgreement(list);
    assert |body| / 4 == |list|;
  }

  // ---- A request and its answer, from both ends ----

  /**
   What comes of a request that nothing disturbs, with the server in between: a asks for b, b learns
   who asks and types an answer, a learns the answer. `after` is the server at the end.
   */
  ghost predicate Exchange(
    s: ServerState, ca: Conn, cb: Conn, a: ClientState, b: ClientState, accept: bool,
    after: ServerState, a2: ClientState, b2: ClientState)
    requires WellPlaced(s) && ca < |s.ids| && cb < |s.ids|
  {
    var (a1, request) := AfterConnectTo(a, s.ids[cb]);
    var linked := Step(s, Received(ca, request)).0;
    && SentOne(s, linked) && TheMessage(s, linked).to == cb
    && var asked := TheMessage(s, linked).msg;
    && (asked.id == REQUEST_TO_CLIENT || asked.id == REQUEST_ANSWER ==> 4 <= |asked.body|)
    && var (typed, answer) := AfterAnswer(AfterMessage(b, asked), accept);
    && b2 == typed && answer.Some?
    && WellPlaced(linked) && cb < |linked.ids|
    && after == Step(linked, Received(cb, answer.value)).0
    && SentOne(linked, after) && TheMessage(linked, after).to == ca
    && var told := TheMessage(linked, after).msg;
    && (told.id == REQUEST_TO_CLIENT || told.id == REQUEST_ANSWER ==> 4 <= |told.body|)
    && a2 == AfterMessage(a1, told)
  }

  lemma PairUp(s: ServerState, ca: Conn, cb: Conn, request: Message)
    requires Inv(s) && ca < |s.ids| && cb < |s.ids| && IsFirst(s, s.ids[cb], cb)
    requires CanBeMet(s, s.ids[ca], s.ids[cb])
    requires request.id == REQUEST_TO_CLIENT && 4 <= |request.body| && TopNumber(request) == s.ids[cb]
    ensures var linked := Step(s, Received(ca, request)).0;
      && linked.ids == s.ids && linked.roster == s.roster
      && SentOne(s, linked) && TheMessage(s, linked) == Sent(cb, NumberMessage(REQUEST_TO_CLIENT, s.ids[ca]))
      && Paired(linked, s.ids[cb], s.ids[ca]) && Paired(linked, s.ids[ca], s.ids[cb])
  {
    InvParts(s);
    FirstHitIff(s, s.ids[cb], cb);
    TalkingIff(s, s.ids[ca]);
    TalkingIff(s, s.ids[cb]);
    hide IsFirst, HasMember, Talking, Hits, Inv, TopNumber, U32Bytes;
  }

  lemma AnswerBack(s: ServerState, linked: ServerState, ca: Conn, cb: Conn, answer: Message)
    requires Inv(s) && ca < |s.ids| && cb < |s.ids| && IsFirst(s, s.ids[ca], ca)
    requires linked.ids == s.ids && linked.roster == s.roster && Paired(linked, s.ids[cb], s.ids[ca])
    requires answer.id == REQUEST_ANSWER
    ensures WellPlaced(linked)
    ensures var after := Step(linked, Received(cb, answer)).0;
      after.pairs == linked.pairs && SentOne(linked, after) && TheMessage(linked, after) == Sent(ca, answer)
  {
    FirstHitIff(s, s.ids[ca], ca);
    assert Hits(linked, s.ids[ca]) == Hits(s, s.ids[ca]);
    hide IsFirst, HitsIn, RosterInv, Named, PairsInv;
  }

  /** The clients' part: who asks, who is asked, and what the answer makes of them. */
  lemma ClientsAnswer(a: ClientState, b: ClientState, aId: u32, bId: u32, accept: bool)
    requires aId >= FIRST_ID
    ensures var (a1, request) := AfterConnectTo(a, bId);
      var asked := NumberMessage(REQUEST_TO_CLIENT, aId);
      && request.id == REQUEST_TO_CLIENT && |request.body| == 4 && TopNumber(request) == bId
      && asked.id == REQUEST_TO_CLIENT && |asked.body| == 4
      && var (b2, answer) := AfterAnswer(AfterMessage(b, asked), accept);
      && answer.Some? && answer.value.id == REQUEST_ANSWER && |answer.value.body| == 4
      && var a2 := AfterMessage(a1, answer.value);
      && (accept ==> a2 == ClientState(bId, 0) && b2 == ClientState(aId, aId))
      && (!accept ==> a2 == ClientState(a.connectedTo, 0) && b2 == ClientState(b.connectedTo, aId))
  {
    NumberMessageTop(REQUEST_TO_CLIENT, bId);
    NumberMessageTop(REQUEST_TO_CLIENT, aId);
    NumberMessageTop(REQUEST_ANSWER, if accept then 1 else 0);
    hide TopNumber, U32Bytes;
  }

  /**
   An undisturbed request between two free clients that can be found by their ids: on a yes both
   clients and the server agree; on a no neither client is connected through it and yet the server
   keeps the pair, the requester forgets the request, and the other side keeps it pending.
   */
  lemma RequestAnswered(s: ServerState, ca: Conn, cb: Conn, a: ClientState, b: ClientState, accept: bool)
    returns (after: ServerState, a2: ClientState, b2: ClientState)
    requires Inv(s) && ca < |s.ids| && cb < |s.ids|
    requires IsFirst(s, s.ids[ca], ca) && IsFirst(s, s.ids[cb], cb)
    requires CanBeMet(s, s.ids[ca], s.ids[cb]) && s.ids[ca] >= FIRST_ID
    ensures Exchange(s, ca, cb, a, b, accept, after, a2, b2)
    ensures Paired(after, s.ids[ca], s.ids[cb])
    ensures accept ==> a2 == ClientState(s.ids[cb], 0) && b2 == ClientState(s.ids[ca], s.ids[ca])
    ensures !accept ==> a2 == ClientState(a.connectedTo, 0) && b2 == ClientState(b.connectedTo, s.ids[ca])
  {
    hide Step, IsFirst, Inv, TopNumber, NumberMessage, CanBeMet, SentOne, TheMessage;
    var me, id := s.ids[ca], s.ids[cb];
    InvParts(s);
    ClientsAnswer(a, b, me, id, accept);
    var (a1, request) := AfterConnectTo(a, id);
    var b1 := AfterMessage(b, NumberMessage(REQUEST_TO_CLIENT, me));
    var (typed, answer) := AfterAnswer(b1, accept);
    var linked := Step(s, Received(ca, request)).0;
    PairUp(s, ca, cb, request);
    AnswerBack(s, linked, ca, cb, answer.value);
    after := Step(linked, Received(cb, answer.value)).0;
    a2, b2 := AfterMessage(a1, answer.value), typed;
  }

  /**
   A request that cannot be met: the server's answer comes back to the requester, which has nothing
   pending then and the partner it had before, and so nothing to accept or decline.
   */
  lemma RequestTurnedDown(s: ServerState, ca: Conn, a: ClientState, id: u32, accept: bool)
    requires Inv(s) && ca < |s.ids| && !CanBeMet(s, s.ids[ca], id)
    ensures var (a1, request) := AfterConnectTo(a, id);
      var after := Step(s, Received(ca, request)).0;
      && SentOne(s, after) && TheMessage(s, after).to == ca
      && var told := TheMessage(s, after).msg;
      && told.id == REQUEST_TO_CLIENT && |told.body| == 4
      && AfterMessage(a1, told) == ClientState(a.connectedTo, 0)
      && AfterAnswer(AfterMessage(a1, told), accept) == (ClientState(a.connectedTo, 0), None)
  {
    var request := AfterConnectTo(a, id).1;
    NumberMessageTop(REQUEST_TO_CLIENT, id);
    NumberMessageTop(REQUEST_TO_CLIENT, 0);
    NumberMessageTop(REQUEST_TO_CLIENT, 1);
    RequestStep(s, ca, request);
    hide Inv, Step, CanBeMet, HasMember, TopNumber, U32Bytes, Conversations;
  }

  /** Typing close ends the conversation for both: each of the two has no partner and nothing pending then. */
  lemma CloseEndsForBoth(s: ServerState, c: Conn, p: Conn, a: ClientState, b: ClientState)
    requires Inv(s) && c < |s.ids| && s.ids[c] in s.pairs && IsFirst(s, s.pairs[s.ids[c]], p)
    ensures var (a1, close) := AfterClose(a);
      var after := Step(s, Received(c, close)).0;
      && a1 == ClientState(0, 0)
      && SentOne(s, after) && TheMessage(s, after).to == p
      && (var told := TheMessage(s, after).msg;
          told.id == CLOSE_CLIENT && AfterMessage(b, told) == ClientState(0, 0))
      && Conversations(after.pairs) == Conversations(s.pairs) - {{s.ids[c], s.pairs[s.ids[c]]}}
  {
    CloseStep(s, c, AfterClose(a).1, p);
    hide Inv, Step, IsFirst, Conversations;
  }

  /** Typing to a partner whose connection is gone: the sender is told, and has no partner and nothing pending then. */
  lemma GonePartnerIsTold(s: ServerState, c: Conn, p: Conn, a: ClientState, m: Message)
    requires Inv(s) && c < |s.ids| && s.ids[c] in s.pairs && m.id == TEXT_CLIENT
    requires IsFirst(s, s.pairs[s.ids[c]], p) && p !in s.open && !Shared(s, s.pairs[s.ids[c]])
    ensures var after := Step(s, Received(c, m)).0;
      && SentOne(s, after) && TheMessage(s, after).to == c
      && var told := TheMessage(s, after).msg;
      told.id == CLOSE_CLIENT && AfterMessage(a, told) == ClientState(0, 0)
  {
    TextStep(s, c, m, p);
    hide Inv, Step, IsFirst, Shared, Conversations;
  }

  /**
   Who can be answered: whoever asks, the request is pending, but Accept and Decline send something
   if and only if the requester's id is at least 10000, which ids are no more once they have wrapped.
   */
  lemma CanAnswerIff(b: ClientState, aId: u32, accept: bool)
    requires aId > 1
    ensures var asked := AfterMessage(b, NumberMessage(REQUEST_TO_CLIENT, aId));
      && asked == ClientState(b.connectedTo, aId)
      && (AfterAnswer(asked, accept).1.Some? <==> aId >= 10000)
      && (aId < 10000 ==> AfterAnswer(asked, accept).0 == asked)
  {
    NumberMessageTop(REQUEST_TO_CLIENT, aId);
    hide TopNumber, U32Bytes;
  }

  /** No other message type touches the two ids. */
  lemma OthersKeepIds(s: ClientState, m: Message)
    requires m.id != REQUEST_TO_CLIENT && m.id != REQUEST_ANSWER && m.id != CLOSE_CLIENT
    ensures AfterMessage(s, m) == s
  {
  }

  /** As long as the server keeps a pair, every request for either of its clients is turned down as busy. */
  lemma DeclinedStaysBusy(s: ServerState, c: Conn, m: Message)
    requires Inv(s) && c < |s.ids| && m.id == REQUEST_TO_CLIENT && 4 <= |m.body|
    requires Talking(s, TopNumber(m)) && HasMember(s, TopNumber(m))
    ensures Step(s, Received(c, m)).0.sent == s.sent + [Sent(c, NumberMessage(REQUEST_TO_CLIENT, 1))]
    ensures Conversations(Step(s, Received(c, m)).0.pairs) == Conversations(s.pairs)
  {
    RequestStep(s, c, m);
    hide Inv, Step, Talking, HasMember, TopNumber, NumberMessage, Conversations;
  }
}
