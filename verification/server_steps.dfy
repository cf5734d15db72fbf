/**
 What each event does to the server, message type by message type, told from the conversations, the
 members and the messages alone; and what whole runs say about who is open, listed and free.
 */
module ServerSteps {
  import opened Bytes
  import opened Messages
  import opened Options
  import opened Server
  import opened Matchings
  import opened ServerRuns

  // ---- Requests ----

  /** The client is in some conversation. */
  ghost predicate Talking(s: ServerState, id: u32) {
    exists p :: p in Conversations(s.pairs) && id in p
  }

  lemma TalkingIff(s: ServerState, id: u32)
    requires PairsInv(s)
    ensures Talking(s, id) <==> id in s.pairs
  {
    if id in s.pairs {
      InConversation(s.pairs, id);
    }
    forall p | p in Conversations(s.pairs) && id in p ensures id in s.pairs {
      var a :| a in s.pairs && p == {a, s.pairs[a]};
    }
  }

  /** A request can be met: somebody else has the id, and neither of the two is in a conversation. */
  ghost predicate CanBeMet(s: ServerState, me: u32, id: u32) {
    HasMember(s, id) && id != me && !Talking(s, me) && !Talking(s, id)
  }

  /**
   A request with a whole id that can be met adds exactly this one conversation, and the first member
   with the id, and nobody else, is told who asks; any other request changes no conversation, and
   the requester alone is told whether the id exists.
   */
  lemma RequestStep(s: ServerState, c: Conn, m: Message)
    requires Inv(s) && c < |s.ids| && m.id == REQUEST_TO_CLIENT && 4 <= |m.body|
    ensures var (after, outcome) := Step(s, Received(c, m));
      var me, id := s.ids[c], TopNumber(m);
      && outcome == Done && after == s.(sent := after.sent, pairs := after.pairs)
      && if CanBeMet(s, me, id) then
           && Conversations(after.pairs) == Conversations(s.pairs) + {{me, id}}
           && exists p :: IsFirst(s, id, p) && after.sent == s.sent + [Sent(p, NumberMessage(REQUEST_TO_CLIENT, me))]
         else
           && Conversations(after.pairs) == Conversations(s.pairs)
           && after.sent == s.sent + [Sent(c, NumberMessage(REQUEST_TO_CLIENT, if HasMember(s, id) then 1 else 0))]
  {
    var me, id := s.ids[c], TopNumber(m);
    FoundIff(s, id);
    TalkingIff(s, me);
    TalkingIff(s, id);
    if CanBeMet(s, me, id) {
      FirstHitIff(s, id, Hits(s, id)[0]);
      ConversationsConnect(s.pairs, me, id);
    }
    hide Inv, Talking, HasMember, IsFirst, Hits, Conversations, TopNumber, NumberMessage;
  }

  // ---- Everything else ----

  /** Pinging comes back unchanged. */
  lemma PingStep(s: ServerState, c: Conn, m: Message)
    requires Inv(s) && c < |s.ids| && m.id == SERVER_PING
    ensures Step(s, Received(c, m)) == (s.(sent := s.sent + [Sent(c, m)]), Done)
  {
  }

  function Receivers(out: seq<Sent>): (r: seq<Conn>)
    ensures |r| == |out|
  {
    seq(|out|, i requires 0 <= i < |out| => out[i].to)
  }

  /** The members that are gone have left the roster and are reported, in order; the connected ones stay. */
  ghost predicate Swept(s: ServerState, after: ServerState) {
    && after == s.(roster := after.roster, reported := after.reported, sent := after.sent)
    && Increasing(after.roster) && (forall d :: Some(d) in after.roster <==> Some(d) in s.roster && d in s.open)
    && s.reported <= after.reported
    && var gone := after.reported[|s.reported|..];
    Ascending(gone) && forall d :: d in gone <==> Some(d) in s.roster && d !in s.open
  }

  lemma SweepSweeps(s: ServerState, sent: seq<Sent>)
    requires Inv(s)
    ensures Swept(s, Sweep(s).(sent := sent))
  {
    InvParts(s);
    SweepKeepsRoster(s);
    SelectedAscending(s.roster, s.open, false, |s.roster|);
    forall d ensures (Some(d) in Sweep(s).roster <==> Some(d) in s.roster && d in s.open)
      && (d in Gone(s.roster, s.open) <==> Some(d) in s.roster && d !in s.open)
    {
      SweepIff(s, d);
    }
    hide Inv, Live, Gone, WellPlaced, RosterInv;
    assert (s.reported + Gone(s.roster, s.open))[|s.reported|..] == Gone(s.roster, s.open);
  }

  lemma AmongAll(s: ServerState, d: Conn)
    ensures Among(s.roster, |s.roster|, d) <==> Some(d) in s.roster
  {
    var member := Some(d);
    if member in s.roster {
      var j :| 0 <= j < |s.roster| && s.roster[j] == member;
    }
  }

  /** What a hello sends: one message with the sender's id to each connected member but the sender, in order. */
  ghost predicate Greets(s: ServerState, c: Conn, out: seq<Sent>)
    requires c < |s.ids|
  {
    && (forall i :: 0 <= i < |out| ==> out[i].msg == NumberMessage(SERVER_MESSAGE, s.ids[c]))
    && Ascending(Receivers(out))
    && forall d :: d in Receivers(out) <==> Some(d) in s.roster && d in s.open && d != c
  }

  lemma BroadcastGreets(s: ServerState, c: Conn)
    requires Inv(s) && c < |s.ids|
    ensures Greets(s, c, BroadcastUpTo(s.roster, s.open, |s.roster|, c, NumberMessage(SERVER_MESSAGE, s.ids[c])))
  {
    InvParts(s);
    var msg := NumberMessage(SERVER_MESSAGE, s.ids[c]);
    var n := |s.roster|;
    var out := BroadcastUpTo(s.roster, s.open, n, c, msg);
    forall k | 0 <= k < |out| ensures out[k].msg == msg {
      BroadcastKind(s, n, c, msg, k);
    }
    BroadcastExact(s, n, c, msg, 0);
    hide Inv, BroadcastUpTo, NumberMessage, WellPlaced, RosterInv, Increasing;
    forall d ensures d in Receivers(out) <==> Some(d) in s.roster && d in s.open && d != c {
      BroadcastExact(s, n, c, msg, d);
      AmongAll(s, d);
      ReceiverIff(out, msg, d);
    }
  }

  lemma ReceiverIff(out: seq<Sent>, msg: Message, d: Conn)
    requires forall k :: 0 <= k < |out| ==> out[k].msg == msg
    ensures d in Receivers(out) <==> Sent(d, msg) in out
  {
    if d in Receivers(out) {
      var k :| 0 <= k < |out| && Receivers(out)[k] == d;
      assert out[k] == Sent(d, msg);
    }
    if Sent(d, msg) in out {
      var k :| 0 <= k < |out| && out[k] == Sent(d, msg);
      assert Receivers(out)[k] == d;
    }
  }

  /** A hello reaches every connected member but the sender once, and sweeps the roster. */
  lemma HelloStep(s: ServerState, c: Conn, m: Message)
    requires Inv(s) && c < |s.ids| && m.id == MESSAGE_ALL
    ensures var (after, outcome) := Step(s, Received(c, m));
      && outcome == Done && Swept(s, after)
      && s.sent <= after.sent && Greets(s, c, after.sent[|s.sent|..])
  {
    var (after, outcome) := Step(s, Received(c, m));
    var out := BroadcastUpTo(s.roster, s.open, |s.roster|, c, NumberMessage(SERVER_MESSAGE, s.ids[c]));
    SweepSweeps(s, s.sent + out);
    BroadcastGreets(s, c);
    hide Inv, Swept, Greets, Sweep, BroadcastUpTo, NumberMessage;
    assert after == Sweep(s).(sent := s.sent + out);
    assert (s.sent + out)[|s.sent|..] == out;
  }

  /** live are the connected members, in order. */
  ghost predicate AreConnected(s: ServerState, live: seq<Conn>) {
    Ascending(live) && forall d :: d in live <==> Some(d) in s.roster && d in s.open
  }

  lemma LiveAreConnected(s: ServerState)
    requires WellPlaced(s) && RosterInv(s)
    ensures AreConnected(s, Live(s.roster, s.open))
  {
    SelectedAscending(s.roster, s.open, true, |s.roster|);
    forall d ensures d in Live(s.roster, s.open) <==> Some(d) in s.roster && d in s.open {
      SelectedIff(s.roster, s.open, true, |s.roster|, d);
      AmongAll(s, d);
    }
  }

  /** A list request is answered to its sender alone with the ids of the connected members, and sweeps the roster. */
  lemma ListStep(s: ServerState, c: Conn, m: Message)
    requires Inv(s) && c < |s.ids| && m.id == CLIENT_LIST
    ensures var (after, outcome) := Step(s, Received(c, m));
      && outcome == Done && Swept(s, after)
      && SentOne(s, after) && TheMessage(s, after).to == c
      && var list := TheMessage(s, after).msg;
      && list.id == CLIENT_LIST && list.size == |list.body| % TWO_32
      && exists live :: AreConnected(s, live) && list.body == PushIds(IdsOf(s.ids, live))
  {
    var (after, outcome) := Step(s, Received(c, m));
    InvParts(s);
    LiveAreConnected(s);
    SweepSweeps(s, after.sent);
    hide Inv, Swept, AreConnected, Live, Gone, PushIds, IdsOf, WellPlaced, RosterInv;
    assert after == Sweep(s).(sent := after.sent);
  }

  /**
   Text of a paired sender: unchanged to the open first bearer of the partner's id; if that one is gone,
   and the id not shared, the sender alone is told and this one conversation ends; nothing if no
   member has the id.
   */
  lemma TextStep(s: ServerState, c: Conn, m: Message, p: Conn)
    requires Inv(s) && c < |s.ids| && m.id == TEXT_CLIENT && s.ids[c] in s.pairs
    ensures var (after, outcome) := Step(s, Received(c, m));
      var me := s.ids[c];
      var partner := s.pairs[me];
      && (IsFirst(s, partner, p) && p in s.open ==> outcome == Done && after == s.(sent := s.sent + [Sent(p, m)]))
      && (IsFirst(s, partner, p) && p !in s.open && !Shared(s, partner) ==>
            outcome == Done
            && after == s.(sent := s.sent + [Sent(c, Message(CLOSE_CLIENT, 0, []))], pairs := after.pairs)
            && Conversations(after.pairs) == Conversations(s.pairs) - {{me, partner}})
      && (IsFirst(s, partner, p) && p !in s.open && Shared(s, partner) ==> outcome == Undefined)
      && (!HasMember(s, partner) ==> outcome == Done && after == s)
  {
    TextOutcome(s, c, m, p);
    hide Inv, IsFirst, Shared, HasMember, Conversations, ForwardText;
  }

  /** An answer of a paired sender goes unchanged to the first bearer of the partner's id, if there is one. */
  lemma AnswerStep(s: ServerState, c: Conn, m: Message, p: Conn)
    requires Inv(s) && c < |s.ids| && m.id == REQUEST_ANSWER && s.ids[c] in s.pairs
    ensures var partner := s.pairs[s.ids[c]];
      && (IsFirst(s, partner, p) ==> Step(s, Received(c, m)) == (s.(sent := s.sent + [Sent(p, m)]), Done))
      && (!HasMember(s, partner) ==> Step(s, Received(c, m)) == (s, Done))
  {
    AnswerAndCloseOutcome(s, c, m, p);
    assert ForwardAnswer(s, c, m).1 == Done;
    hide Inv, IsFirst, HasMember, Conversations, ForwardAnswer, ClosePair;
  }

  /** A close of a paired sender ends exactly this conversation and tells the first bearer of the partner's id. */
  lemma CloseStep(s: ServerState, c: Conn, m: Message, p: Conn)
    requires Inv(s) && c < |s.ids| && m.id == CLOSE_CLIENT && s.ids[c] in s.pairs
    ensures var (after, outcome) := Step(s, Received(c, m));
      var me := s.ids[c];
      var partner := s.pairs[me];
      && outcome == Done && Conversations(after.pairs) == Conversations(s.pairs) - {{me, partner}}
      && (IsFirst(s, partner, p) ==>
            after == s.(sent := s.sent + [Sent(p, Message(CLOSE_CLIENT, 0, []))], pairs := after.pairs))
      && (!HasMember(s, partner) ==> after == s.(pairs := after.pairs))
  {
    DissolveKeepsPairs(s, s.ids[c]);
    AnswerAndCloseOutcome(s, c, m, p);
    assert ClosePair(s, c).1 == Done;
    hide Inv, IsFirst, HasMember, Conversations, ForwardAnswer, ClosePair;
  }

  /** A message that needs a partner its sender has not throws and does nothing. */
  lemma UnpairedStep(s: ServerState, c: Conn, m: Message)
    requires Inv(s) && c < |s.ids| && NeedsPartner(m.id) && s.ids[c] !in s.pairs
    ensures Step(s, Received(c, m)) == (s, Throws)
  {
  }

  /** Messages of any other type do nothing. */
  lemma OtherStep(s: ServerState, c: Conn, m: Message)
    requires Inv(s) && c < |s.ids|
    requires m.id != SERVER_PING && m.id != MESSAGE_ALL && m.id != CLIENT_LIST && m.id != REQUEST_TO_CLIENT
    requires !NeedsPartner(m.id)
    ensures Step(s, Received(c, m)) == (s, Done)
  {
  }

  // ---- Whole runs ----

  /** Event i linked a with somebody, and nothing before moment k dissolved it. */
  ghost predicate Busy(trace: seq<ServerState>, events: seq<Event>, k: nat, a: u32)
    requires Behavior(trace, events) && k <= |events|
  {
    exists i, b :: 0 <= i < k && LinkedAndUndisturbed(trace, events, i, k, a, b)
  }

  lemma BusyIff(trace: seq<ServerState>, events: seq<Event>, k: nat, a: u32)
    requires Behavior(trace, events) && k <= |events|
    ensures Busy(trace, events, k, a) <==> a in trace[k].pairs
  {
    hide LinkedAndUndisturbed, LinkedBy, DissolvedBy, Step;
    if a in trace[k].pairs {
      var b := trace[k].pairs[a];
      PairedHistory(trace, events, k, a, b);
      assert Paired(trace[k], a, b);
    }
    forall i, b | 0 <= i < k && LinkedAndUndisturbed(trace, events, i, k, a, b) ensures a in trace[k].pairs {
      PairedHistory(trace, events, k, a, b);
    }
  }

  /**
   Two free clients do get linked: in every run a request with a whole id links its sender with the
   id's bearer if and only if a member has the id, it is not the sender's own, and neither of the two
   has been linked by an earlier event whose conversation nothing has dissolved since.
   */
  lemma RequestLinksIff(trace: seq<ServerState>, events: seq<Event>, k: nat)
    requires Behavior(trace, events) && k < |events|
    requires events[k].Received? && events[k].msg.id == REQUEST_TO_CLIENT && 4 <= |events[k].msg.body|
    ensures var s, me, id := trace[k], trace[k].ids[events[k].from], TopNumber(events[k].msg);
      LinkedBy(s, events[k], me, id) && Paired(trace[k + 1], me, id) <==>
        HasMember(s, id) && id != me && !Busy(trace, events, k, me) && !Busy(trace, events, k, id)
  {
    var s, c, m := trace[k], events[k].from, events[k].msg;
    var me, id := s.ids[c], TopNumber(m);
    BehaviorAt(trace, events, k);
    BehaviorInv(trace, events, k);
    BusyIff(trace, events, k, me);
    BusyIff(trace, events, k, id);
    RequestOutcome(s, c, m);
    assert trace[k + 1] == RequestPair(s, c, m).0;
    hide Behavior, Busy, RequestPair, HasMember, Inv, TopNumber, NumberMessage;
    PairedAfterLink(s, trace[k + 1], c, me, id);
  }

  lemma PairedAfterLink(s: ServerState, after: ServerState, c: Conn, me: u32, id: u32)
    requires after.pairs == s.pairs || after.pairs == Connect(s.pairs, me, id)
    ensures CanConnect(s.pairs, me, id) && after.pairs == Connect(s.pairs, me, id) ==> Paired(after, me, id)
    ensures me !in s.pairs && after.pairs == s.pairs ==> !Paired(after, me, id)
  {
  }

  /** Connection c was accepted by event i and its socket has not closed before moment k. */
  predicate AcceptedAndOpen(trace: seq<ServerState>, events: seq<Event>, i: nat, k: nat, c: Conn)
    requires |trace| == |events| + 1 && i < k <= |events|
  {
    events[i] == Accepted && |trace[i].ids| == c && forall j :: i < j < k ==> events[j] != SocketClosed(c)
  }

  lemma OpenStepIff(s: ServerState, ev: Event, c: Conn)
    requires WellPlaced(s) && CanHappen(s, ev)
    ensures c in Step(s, ev).0.open <==>
      (ev == Accepted && |s.ids| == c) || (c in s.open && ev != SocketClosed(c))
  {
    hide HitsIn, NumberMessage, BroadcastUpTo, PushIds, TopNumber, Live, Gone;
  }

  lemma OpenOneMore(trace: seq<ServerState>, events: seq<Event>, i: nat, k: nat, c: Conn)
    requires |trace| == |events| + 1 && i < k < |events|
    ensures AcceptedAndOpen(trace, events, i, k + 1, c) <==>
      AcceptedAndOpen(trace, events, i, k, c) && events[k] != SocketClosed(c)
  {
  }

  /** The open connections are exactly those accepted whose socket has not closed since. */
  lemma {:induction false} OpenHistory(trace: seq<ServerState>, events: seq<Event>, k: nat, c: Conn)
    requires Behavior(trace, events) && k <= |events|
    ensures c in trace[k].open <==> exists i :: 0 <= i < k && AcceptedAndOpen(trace, events, i, k, c)
  {
    BehaviorStarts(trace, events);
    hide Behavior, Step, Inv;
    if k > 0 {
      var last := k - 1;
      BehaviorAt(trace, events, last);
      OpenHistory(trace, events, last, c);
      BehaviorInv(trace, events, last);
      OpenStepIff(trace[last], events[last], c);
      forall i | 0 <= i < last
        ensures AcceptedAndOpen(trace, events, i, k, c) <==>
          AcceptedAndOpen(trace, events, i, last, c) && events[last] != SocketClosed(c)
      {
        OpenOneMore(trace, events, i, last, c);
      }
      assert AcceptedAndOpen(trace, events, last, k, c) <==> events[last] == Accepted && |trace[last].ids| == c;
    }
  }

  /** A member, or reported as gone. */
  predicate Known(s: ServerState, c: Conn) {
    Some(c) in s.roster || c in s.reported
  }

  lemma SweepKeepsKnown(s: ServerState, c: Conn)
    requires WellPlaced(s)
    ensures Known(Sweep(s), c) <==> Known(s, c)
  {
    SweepIff(s, c);
    hide Live, Gone, WellPlaced;
  }

  lemma KnownStepIff(s: ServerState, ev: Event, c: Conn)
    requires WellPlaced(s) && CanHappen(s, ev)
    ensures Known(Step(s, ev).0, c) <==> Known(s, c) || (ev == Accepted && |s.ids| == c)
  {
    SweepKeepsKnown(s, c);
    hide HitsIn, NumberMessage, BroadcastUpTo, PushIds, TopNumber, Sweep;
    if ev == Accepted {
      assert Step(s, ev).0.roster == s.roster + [Some(|s.ids|)];
    }
  }

  /** Nobody is lost: every connection accepted is still a member or has been reported as gone, and no other is. */
  lemma {:induction false} NobodyLost(trace: seq<ServerState>, events: seq<Event>, k: nat, c: Conn)
    requires Behavior(trace, events) && k <= |events|
    ensures Known(trace[k], c) <==> c < |trace[k].ids|
  {
    BehaviorStarts(trace, events);
    hide Behavior, Inv, Step, CanHappen, WellPlaced;
    if k > 0 {
      hide Known;
      BehaviorAt(trace, events, k - 1);
      NobodyLost(trace, events, k - 1, c);
      BehaviorInv(trace, events, k - 1);
      KnownStepIff(trace[k - 1], events[k - 1], c);
      IdsStep(trace[k - 1], events[k - 1]);
    }
  }

  lemma IdsStep(s: ServerState, ev: Event)
    requires WellPlaced(s) && CanHappen(s, ev)
    ensures |Step(s, ev).0.ids| == |s.ids| + if ev == Accepted then 1 else 0
  {
    hide HitsIn, NumberMessage, BroadcastUpTo, PushIds, TopNumber, Live, Gone;
  }
}
