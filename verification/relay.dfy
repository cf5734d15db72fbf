/**
 The chat server between two connections: a line of text on its way from one client, over the
 server's message loop, to the client it is in conversation with.
 */
module Relay {
  import opened Bytes
  import opened Framing
  import opened Messages
  import opened Options
  import opened Server
  import opened ServerRuns
  import opened ServerSteps
  import Client
  import Delivery
  import Links
  import Progress

  /** A run of one connection, from its accept handler on. */
  datatype Hop = Hop(clock: Code, uid: u32, first: Message, steps: seq<Links.Step>)

  predicate Runs(h: Hop) {
    Links.Run(Links.Accepted(h.clock, h.uid, h.first), h.steps)
  }

  function End(h: Hop): Links.System
    requires Runs(h)
  {
    Links.After(Links.Accepted(h.clock, h.uid, h.first), h.steps)
  }

  function SentBy(h: Hop, side: Links.Side): seq<Message> {
    Delivery.SentBy(h.first, h.steps, side)
  }

  /** What the other side of the connection has enqueued. */
  function Heard(s: Links.System, side: Links.Side): seq<Message> {
    Links.Near(s, Delivery.Other(side)).e.r.delivered
  }

  /** The messages the server has sent to one connection. */
  function Outbox(sent: seq<Sent>, p: Conn): seq<Message> {
    if sent == [] then []
    else
      var n := |sent| - 1;
      Outbox(sent[..n], p) + if sent[n].to == p then [sent[n].msg] else []
  }

  lemma {:induction false} OutboxGrows(a: seq<Sent>, b: seq<Sent>, p: Conn)
    requires a <= b
    ensures Outbox(a, p) <= Outbox(b, p)
    decreases |b|
  {
    if a != b {
      var n := |b| - 1;
      OutboxGrows(a, b[..n], p);
    }
  }

  lemma {:induction false} OutboxWellFormed(sent: seq<Sent>, p: Conn)
    requires forall i :: 0 <= i < |sent| ==> WellFormed(sent[i].msg)
    ensures AllWellFormed(Outbox(sent, p))
  {
    if sent != [] {
      var n := |sent| - 1;
      assert forall i :: 0 <= i < n ==> sent[..n][i] == sent[i];
      OutboxWellFormed(sent[..n], p);
    }
  }

  // ---- One hop ----

  /** A non-empty message of a well-formed stream is enqueued as it was sent, in its place. */
  lemma HopKeeps(h: Hop, side: Links.Side, i: nat)
    requires Runs(h) && AllWellFormed(SentBy(h, side)) && i < |Heard(End(h), side)|
    ensures i < |SentBy(h, side)|
    ensures SentBy(h, side)[i].size > 0 ==> Heard(End(h), side)[i] == SentBy(h, side)[i]
  {
    hide CarryFold, AllWellFormed;
    Delivery.EndToEndPrefix(h.clock, h.uid, h.first, h.steps, side);
    CarryFoldAt([], SentBy(h, side));
  }

  /** Left to itself with both sockets open, the connection has enqueued it where it stops. */
  lemma HopDelivers(h: Hop, side: Links.Side, more: seq<Links.Step>, i: nat)
    requires Runs(h) && AllWellFormed(SentBy(h, side)) && i < |SentBy(h, side)|
    requires End(h).server.open && End(h).client.open && Progress.QuietRun(End(h), more)
    requires !Progress.CanGoOn(Links.After(End(h), more)) && SentBy(h, side)[i].size > 0
    ensures var heard := Heard(Links.After(End(h), more), side);
      i < |heard| && heard[i] == SentBy(h, side)[i]
  {
    hide CarryFold, AllWellFormed, Progress.QuietRun, Progress.CanGoOn;
    Progress.QuietRunDelivers(h.clock, h.uid, h.first, h.steps, more, side);
    CarryFoldAt([], SentBy(h, side));
  }

  // ---- Text ----

  lemma TextIsWhole(chars: seq<byte>)
    requires |chars| + 8 < TWO_32
    ensures var m := Client.TextMessage(chars);
      m.size > 0 && WellFormed(m) && PopItem(m.body, TextKind) == Some((Text(chars), []))
  {
    hide LittleEndian, PopItem;
    PopAfterPush([], Text(chars));
    assert [] + Encode(Text(chars)) == Encode(Text(chars));
  }

  /** In event k of a run the server receives this text from a connection and can forward it to p. */
  ghost predicate ForwardsText(
    trace: seq<ServerState>, events: seq<Event>, k: nat, m: Message, p: Conn)
  {
    && Behavior(trace, events) && k < |events| && events[k].Received? && events[k].msg == m
    && m.id == TEXT_CLIENT
    && var s := trace[k];
    var me := s.ids[events[k].from];
    me in s.pairs && IsFirst(s, s.pairs[me], p) && p in s.open
  }

  /** From then on it has its place in what the server sends to p. */
  lemma {:induction false} ForwardedForGood(
    trace: seq<ServerState>, events: seq<Event>, k: nat, m: Message, p: Conn, last: nat)
    requires ForwardsText(trace, events, k, m, p) && k < last <= |events|
    ensures var q := |Outbox(trace[k].sent, p)|;
      q < |Outbox(trace[last].sent, p)| && Outbox(trace[last].sent, p)[q] == m
    decreases last
  {
    BehaviorStarts(trace, events);
    hide Behavior, Step, Inv, Outbox, IsFirst;
    if last == k + 1 {
      ForwardedNow(trace, events, k, m, p);
    } else {
      BehaviorAt(trace, events, last - 1);
      ForwardedForGood(trace, events, k, m, p, last - 1);
      BehaviorInv(trace, events, last - 1);
      StepGrows(trace[last - 1], events[last - 1]);
      OutboxGrows(trace[last - 1].sent, trace[last].sent, p);
    }
  }

  lemma ForwardedNow(trace: seq<ServerState>, events: seq<Event>, k: nat, m: Message, p: Conn)
    requires ForwardsText(trace, events, k, m, p)
    ensures Outbox(trace[k + 1].sent, p) == Outbox(trace[k].sent, p) + [m]
  {
    var s := trace[k];
    BehaviorAt(trace, events, k);
    BehaviorInv(trace, events, k);
    hide Behavior, Inv, IsFirst, Outbox, Step;
    TextStep(s, events[k].from, m, p);
    assert trace[k + 1].sent == s.sent + [Sent(p, m)];
    OutboxOneMore(s.sent, Sent(p, m), p);
  }

  lemma OutboxOneMore(sent: seq<Sent>, x: Sent, p: Conn)
    requires x.to == p
    ensures Outbox(sent + [x], p) == Outbox(sent, p) + [x.msg]
  {
    assert (sent + [x])[..|sent|] == sent;
  }

  lemma OutboxIsFine(trace: seq<ServerState>, events: seq<Event>, p: Conn)
    requires Behavior(trace, events) && ReceivedWellFormed(events) && |trace[|events|].ids| < LONG_LIST
    ensures AllWellFormed(Outbox(trace[|events|].sent, p))
  {
    forall i | 0 <= i < |trace[|events|].sent| ensures WellFormed(trace[|events|].sent[i].msg) {
      SentWellFormed(trace, events, |events|, i);
    }
    hide Behavior, WellFormed;
    OutboxWellFormed(trace[|events|].sent, p);
  }

  /**
   The line typed is the i-th message of the client on the first connection; the server's message loop
   takes what its reader enqueued there in event k; the second connection carries what the server has
   sent to p by the end of the run.
   */
  ghost predicate OnItsWay(
    chars: seq<byte>, up: Hop, i: nat, trace: seq<ServerState>, events: seq<Event>, k: nat, p: Conn, down: Hop)
  {
    && |chars| + 8 < TWO_32
    && Runs(up) && AllWellFormed(SentBy(up, Links.AtClient))
    && i < |SentBy(up, Links.AtClient)| && SentBy(up, Links.AtClient)[i] == Client.TextMessage(chars)
    && i < |Heard(End(up), Links.AtClient)|
    && ForwardsText(trace, events, k, Heard(End(up), Links.AtClient)[i], p)
    && ReceivedWellFormed(events) && |trace[|events|].ids| < LONG_LIST
    && Runs(down) && SentBy(down, Links.AtServer) == Outbox(trace[|events|].sent, p)
  }

  lemma TextOnSecondHop(
    chars: seq<byte>, up: Hop, i: nat, trace: seq<ServerState>, events: seq<Event>, k: nat, p: Conn, down: Hop)
    requires OnItsWay(chars, up, i, trace, events, k, p, down)
    ensures var q := |Outbox(trace[k].sent, p)|;
      && AllWellFormed(SentBy(down, Links.AtServer)) && q < |SentBy(down, Links.AtServer)|
      && SentBy(down, Links.AtServer)[q] == Client.TextMessage(chars)
  {
    hide AllWellFormed, Behavior, Outbox, Client.TextMessage;
    TextIsWhole(chars);
    HopKeeps(up, Links.AtClient, i);
    ForwardedForGood(trace, events, k, Heard(End(up), Links.AtClient)[i], p, |events|);
    OutboxIsFine(trace, events, p);
  }

  /**
   Text arrives unchanged: if the partner has enqueued as many messages, the one in its place is the
   message of that line, and popping its text returns the line.
   */
  lemma TextArrives(
    chars: seq<byte>, up: Hop, i: nat, trace: seq<ServerState>, events: seq<Event>, k: nat, p: Conn, down: Hop)
    requires OnItsWay(chars, up, i, trace, events, k, p, down)
    requires |Outbox(trace[k].sent, p)| < |Heard(End(down), Links.AtServer)|
    ensures var m := Heard(End(down), Links.AtServer)[|Outbox(trace[k].sent, p)|];
      m == Client.TextMessage(chars) && PopItem(m.body, TextKind) == Some((Text(chars), []))
  {
    TextOnSecondHop(chars, up, i, trace, events, k, p, down);
    TextIsWhole(chars);
    hide OnItsWay, AllWellFormed, PopItem, Outbox, Client.TextMessage;
    HopKeeps(down, Links.AtServer, |Outbox(trace[k].sent, p)|);
  }

  /** It does arrive: where the open second connection, left to itself, stops, the partner has enqueued it. */
  lemma TextIsDelivered(
    chars: seq<byte>, up: Hop, i: nat, trace: seq<ServerState>, events: seq<Event>, k: nat, p: Conn, down: Hop,
    more: seq<Links.Step>)
    requires OnItsWay(chars, up, i, trace, events, k, p, down)
    requires End(down).server.open && End(down).client.open
    requires Progress.QuietRun(End(down), more) && !Progress.CanGoOn(Links.After(End(down), more))
    ensures var heard := Heard(Links.After(End(down), more), Links.AtServer);
      var q := |Outbox(trace[k].sent, p)|;
      q < |heard| && heard[q] == Client.TextMessage(chars)
  {
    hide AllWellFormed, Outbox, Client.TextMessage, Progress.QuietRun, Progress.CanGoOn;
    TextOnSecondHop(chars, up, i, trace, events, k, p, down);
    TextIsWhole(chars);
    hide OnItsWay;
    HopDelivers(down, Links.AtServer, more, |Outbox(trace[k].sent, p)|);
  }
}
