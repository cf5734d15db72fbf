/**
 Whole runs of the pairing server: accepts, closing sockets and messages in any order.
 Conversations are a matching, it is exactly the one the requests made, third parties cannot
 touch it, and the sweeps of the roster lose and repeat nothing.
 */
module ServerRuns {
  import opened Bytes
  import opened Messages
  import opened Options
  import opened Server
  import opened Matchings

  datatype Event =
    | Accepted
    | SocketClosed(conn: Conn)
    | Received(from: Conn, msg: Message)

  predicate CanHappen(s: ServerState, ev: Event) {
    ev.Received? ==> ev.from < |s.ids|
  }

  function Step(s: ServerState, ev: Event): (ServerState, Outcome)
    requires WellPlaced(s) && CanHappen(s, ev)
  {
    match ev
    case Accepted => (Accept(s), Done)
    case SocketClosed(c) => (s.(open := s.open - {c}), Done)
    case Received(c, m) => Handle(s, c, m)
  }

  /** A run: the states it passes through, starting from a new server, and the events between them. */
  predicate Behavior(trace: seq<ServerState>, events: seq<Event>) {
    && |trace| == |events| + 1 && trace[0] == INITIAL
    && forall k :: 0 <= k < |events| ==>
         WellPlaced(trace[k]) && CanHappen(trace[k], events[k])
         && trace[k + 1] == Step(trace[k], events[k]).0
  }

  // ---- The invariant ----

  /** Ids are handed out in order from 10000, as 32-bit numbers. */
  predicate Named(s: ServerState) {
    && (forall i :: 0 <= i < |s.ids| ==> s.ids[i] == (FIRST_ID + i) % TWO_32)
    && s.nextId == (FIRST_ID + |s.ids|) % TWO_32
  }

  /** No id has been given twice: there are no more connections than 32-bit numbers. */
  predicate IdsFresh(s: ServerState) {
    |s.ids| <= TWO_32
  }

  /** The id counter has not run into 2^32. */
  predicate NotWrapped(s: ServerState) {
    FIRST_ID + |s.ids| <= TWO_32
  }

  predicate Increasing(roster: seq<Option<Conn>>) {
    && NoNulls(roster)
    && forall i, j :: 0 <= i < j < |roster| ==> roster[i].value < roster[j].value
  }

  predicate Disjoint(roster: seq<Option<Conn>>, reported: seq<Conn>) {
    forall i, j :: 0 <= i < |roster| && 0 <= j < |reported| ==> roster[i] != Some(reported[j])
  }

  predicate NoRepeats(reported: seq<Conn>) {
    forall i, j :: 0 <= i < j < |reported| ==> reported[i] != reported[j]
  }

  /** The roster is in order of acceptance; a connection is reported gone once, and never comes back. */
  predicate RosterInv(s: ServerState) {
    && Increasing(s.roster)
    && Disjoint(s.roster, s.reported) && NoRepeats(s.reported)
    && (forall i :: 0 <= i < |s.reported| ==> s.reported[i] < |s.ids|)
  }

  predicate PairsInv(s: ServerState) {
    Matching(s.pairs) && forall a :: a in s.pairs ==> a in s.ids
  }

  predicate Inv(s: ServerState) {
    WellPlaced(s) && Named(s) && RosterInv(s) && PairsInv(s)
  }

  // ---- Sweeping the roster ----

  /** c is one of the first n members. */
  ghost predicate Among(roster: seq<Option<Conn>>, n: nat, c: Conn) {
    exists j :: 0 <= j < n && j < |roster| && roster[j] == Some(c)
  }

  lemma AmongOneMore(roster: seq<Option<Conn>>, n: nat, c: Conn)
    requires 0 < n <= |roster| && roster[n - 1].Some?
    ensures Among(roster, n, c) <==> Among(roster, n - 1, c) || c == roster[n - 1].value
  {
    if Among(roster, n - 1, c) {
      var j :| 0 <= j < n - 1 && j < |roster| && roster[j] == Some(c);
    } else if c == roster[n - 1].value {
      assert roster[n - 1] == Some(c);
    }
  }

  /** The selected members are exactly the members that qualify. */
  lemma {:induction false} SelectedIff(roster: seq<Option<Conn>>, open: set<Conn>, connected: bool, n: nat, c: Conn)
    requires NoNulls(roster) && n <= |roster|
    ensures c in SelectUpTo(roster, open, connected, n) <==> Among(roster, n, c) && (c in open <==> connected)
  {
    if n > 0 {
      SelectedIff(roster, open, connected, n - 1, c);
      AmongOneMore(roster, n, c);
    }
  }

  predicate Ascending(conns: seq<Conn>) {
    forall k, l :: 0 <= k < l < |conns| ==> conns[k] < conns[l]
  }

  /** The selected members keep the order of the roster. */
  lemma {:induction false} SelectedAscending(roster: seq<Option<Conn>>, open: set<Conn>, connected: bool, n: nat)
    requires Increasing(roster) && n <= |roster|
    ensures var sel := SelectUpTo(roster, open, connected, n);
      && Ascending(sel)
      && forall k, j :: 0 <= k < |sel| && n <= j < |roster| ==> sel[k] < roster[j].value
  {
    if n > 0 {
      SelectedAscending(roster, open, connected, n - 1);
    }
  }

  /** What a sweep keeps and what it reports, member by member. */
  lemma SweepIff(s: ServerState, c: Conn)
    requires NoNulls(s.roster)
    ensures Some(c) in Sweep(s).roster <==> Some(c) in s.roster && c in s.open
    ensures c in Gone(s.roster, s.open) <==> Some(c) in s.roster && c !in s.open
  {
    SelectedIff(s.roster, s.open, true, |s.roster|, c);
    SelectedIff(s.roster, s.open, false, |s.roster|, c);
    var live := Live(s.roster, s.open);
    if c in live {
      var k :| 0 <= k < |live| && live[k] == c;
      assert Sweep(s).roster[k] == Some(c);
    }
  }

  lemma SweepKeepsRoster(s: ServerState)
    requires WellPlaced(s) && RosterInv(s)
    ensures WellPlaced(Sweep(s)) && RosterInv(Sweep(s))
  {
    var live, gone := Live(s.roster, s.open), Gone(s.roster, s.open);
    SelectedAscending(s.roster, s.open, true, |s.roster|);
    SelectedAscending(s.roster, s.open, false, |s.roster|);
    forall i | 0 <= i < |live| ensures Some(live[i]) in s.roster && live[i] in s.open {
      SelectedIff(s.roster, s.open, true, |s.roster|, live[i]);
    }
    forall i | 0 <= i < |gone| ensures Some(gone[i]) in s.roster && gone[i] !in s.open {
      SelectedIff(s.roster, s.open, false, |s.roster|, gone[i]);
    }
    hide Live, Gone;
    SplitKeepsRoster(s, live, gone);
  }

  lemma MemberIsKnown(s: ServerState, c: Conn)
    requires WellPlaced(s) && RosterInv(s) && Some(c) in s.roster
    ensures c < |s.ids| && c !in s.reported
  {
    var member := Some(c);
    var j :| 0 <= j < |s.roster| && s.roster[j] == member;
  }

  /** Keeping some members in order and reporting others once, none of them kept, keeps the roster invariant. */
  lemma SplitKeepsRoster(s: ServerState, live: seq<Conn>, gone: seq<Conn>)
    requires WellPlaced(s) && RosterInv(s) && Ascending(live) && Ascending(gone)
    requires forall i :: 0 <= i < |live| ==> Some(live[i]) in s.roster && live[i] in s.open
    requires forall i :: 0 <= i < |gone| ==> Some(gone[i]) in s.roster && gone[i] !in s.open
    ensures var after := s.(roster := Entries(live), reported := s.reported + gone);
      WellPlaced(after) && RosterInv(after)
  {
    forall i | 0 <= i < |gone| ensures gone[i] < |s.ids| && gone[i] !in s.reported {
      MemberIsKnown(s, gone[i]);
    }
    forall i | 0 <= i < |live| ensures live[i] < |s.ids| && live[i] !in s.reported && live[i] !in gone {
      MemberIsKnown(s, live[i]);
    }
  }

  // ---- Looking up members by id ----

  lemma {:induction false} HitsIff(roster: seq<Option<Conn>>, ids: seq<u32>, id: u32, c: Conn)
    requires forall i :: 0 <= i < |roster| ==> roster[i].Some? && roster[i].value < |ids|
    ensures c in HitsIn(roster, ids, id) <==> Some(c) in roster && c < |ids| && ids[c] == id
  {
    if roster != [] {
      HitsIff(roster[1..], ids, id, c);
      assert roster == [roster[0]] + roster[1..];
    }
  }

  /** Hits come in the order of acceptance. */
  lemma {:induction false} HitsAscending(roster: seq<Option<Conn>>, ids: seq<u32>, id: u32)
    requires forall i :: 0 <= i < |roster| ==> roster[i].Some? && roster[i].value < |ids|
    requires Increasing(roster)
    ensures Ascending(HitsIn(roster, ids, id))
    ensures forall k :: 0 <= k < |HitsIn(roster, ids, id)| ==> roster[0].value <= HitsIn(roster, ids, id)[k]
  {
    if |roster| > 1 {
      HitsAscending(roster[1..], ids, id);
    }
  }

  /** p is a member with the id. */
  predicate IsMember(s: ServerState, id: u32, p: Conn) {
    Some(p) in s.roster && p < |s.ids| && s.ids[p] == id
  }

  ghost predicate HasMember(s: ServerState, id: u32) {
    exists p :: IsMember(s, id, p)
  }

  /** p is the member with the id that was accepted first. */
  ghost predicate IsFirst(s: ServerState, id: u32, p: Conn) {
    IsMember(s, id, p) && forall q :: IsMember(s, id, q) ==> p <= q
  }

  /** Two members have the id. */
  ghost predicate Shared(s: ServerState, id: u32) {
    exists p, q :: p < q && IsMember(s, id, p) && IsMember(s, id, q)
  }

  lemma HitIffMember(s: ServerState, id: u32, p: Conn)
    requires WellPlaced(s)
    ensures p in Hits(s, id) <==> IsMember(s, id, p)
  {
    HitsIff(s.roster, s.ids, id, p);
  }

  /** A lookup by id finds something exactly if a member has the id. */
  lemma FoundIff(s: ServerState, id: u32)
    requires WellPlaced(s)
    ensures Hits(s, id) != [] <==> HasMember(s, id)
    ensures Hits(s, id) != [] ==> IsMember(s, id, Hits(s, id)[0])
  {
    if Hits(s, id) != [] {
      HitIffMember(s, id, Hits(s, id)[0]);
    }
    forall p | IsMember(s, id, p) ensures Hits(s, id) != [] {
      HitIffMember(s, id, p);
    }
  }

  /** What it finds first is the member accepted first. */
  lemma FirstHitIff(s: ServerState, id: u32, p: Conn)
    requires WellPlaced(s) && RosterInv(s)
    ensures IsFirst(s, id, p) <==> Hits(s, id) != [] && Hits(s, id)[0] == p
  {
    var hits := Hits(s, id);
    HitsAscending(s.roster, s.ids, id);
    forall q ensures q in hits <==> IsMember(s, id, q) {
      HitIffMember(s, id, q);
    }
    hide Hits, IsMember;
    if hits != [] {
      assert IsMember(s, id, hits[0]);
      forall q | IsMember(s, id, q) ensures hits[0] <= q {
        assert q in hits;
      }
    }
  }

  /** There is more than one hit exactly if members share the id. */
  lemma SharedIff(s: ServerState, id: u32)
    requires WellPlaced(s) && RosterInv(s)
    ensures Shared(s, id) <==> |Hits(s, id)| > 1
  {
    var hits := Hits(s, id);
    HitsAscending(s.roster, s.ids, id);
    forall q ensures q in hits <==> IsMember(s, id, q) {
      HitIffMember(s, id, q);
    }
    hide Hits, IsMember;
    if |hits| > 1 {
      assert hits[0] < hits[1] && IsMember(s, id, hits[0]) && IsMember(s, id, hits[1]);
    }
    forall p, q | p < q && IsMember(s, id, p) && IsMember(s, id, q) ensures |hits| > 1 {
      assert p in hits && q in hits;
    }
  }

  /** While ids are unique no two members share one, so any member with an id is the first. */
  lemma MembersUnique(s: ServerState, id: u32, p: Conn)
    requires Named(s) && IdsFresh(s)
    ensures !Shared(s, id) && (IsMember(s, id, p) ==> IsFirst(s, id, p))
  {
    IdsUniqueIff(s);
  }

  lemma IdsIncrease(s: ServerState)
    requires Named(s) && NotWrapped(s)
    ensures forall i :: 0 <= i < |s.ids| ==> s.ids[i] == FIRST_ID + i
    ensures forall i, j :: 0 <= i < j < |s.ids| ==> s.ids[i] < s.ids[j]
  {
  }

  /** Ids are unique exactly until 2^32 connections have been accepted. */
  lemma IdsUniqueIff(s: ServerState)
    requires Named(s)
    ensures (forall i, j :: 0 <= i < j < |s.ids| ==> s.ids[i] != s.ids[j]) <==> IdsFresh(s)
  {
    if IdsFresh(s) {
      forall i, j | 0 <= i < j < |s.ids| ensures s.ids[i] != s.ids[j] {
        assert (FIRST_ID + i) / TWO_32 <= 1 && (FIRST_ID + j) / TWO_32 <= 1;
      }
    } else {
      assert s.ids[0] == FIRST_ID == (FIRST_ID + TWO_32) % TWO_32 == s.ids[TWO_32];
    }
  }

  /** No client is given one of the two answer codes exactly until the counter has wrapped and moved on. */
  lemma IdsAboveCodesIff(s: ServerState)
    requires Named(s)
    ensures (forall i :: 0 <= i < |s.ids| ==> s.ids[i] > 1) <==> NotWrapped(s)
  {
    if NotWrapped(s) {
      IdsIncrease(s);
    } else {
      assert s.ids[TWO_32 - FIRST_ID] == 0;
    }
  }

  // ---- One step ----

  lemma SuccessorWraps(x: nat)
    ensures (x % TWO_32 + 1) % TWO_32 == (x + 1) % TWO_32
  {
    var q, r := x / TWO_32, x % TWO_32;
    assert x == q * TWO_32 + r;
    if r + 1 == TWO_32 {
      assert x + 1 == (q + 1) * TWO_32;
    }
  }

  lemma AcceptKeepsNamed(s: ServerState)
    requires Named(s)
    ensures Named(Accept(s))
  {
    hide NumberMessage;
    SuccessorWraps(FIRST_ID + |s.ids|);
    var after := Accept(s);
    forall i | 0 <= i < |after.ids| ensures after.ids[i] == (FIRST_ID + i) % TWO_32 {
      if i < |s.ids| {
        assert after.ids[i] == s.ids[i];
      }
    }
  }

  lemma AcceptKeepsRoster(s: ServerState)
    requires WellPlaced(s) && RosterInv(s)
    ensures WellPlaced(Accept(s)) && RosterInv(Accept(s))
  {
    hide NumberMessage, IsLive;
    assert forall i :: 0 <= i < |s.reported| ==> s.reported[i] != |s.ids|;
  }

  lemma AcceptKeepsInv(s: ServerState)
    requires Inv(s)
    ensures Inv(Accept(s))
  {
    AcceptKeepsNamed(s);
    AcceptKeepsRoster(s);
    assert forall a :: a in s.ids ==> a in s.ids + [s.nextId];
    hide Named, WellPlaced, RosterInv, NumberMessage;
  }

  /** Steps that change neither the roster nor the ids keep the rest as long as the pairs stay a matching of ids. */
  lemma PairsChange(s: ServerState, after: ServerState)
    requires Inv(s) && PairsInv(after)
    requires after.ids == s.ids && after.roster == s.roster && after.nextId == s.nextId
    requires after.reported == s.reported
    ensures Inv(after)
  {
  }

  lemma RequestKeepsInv(s: ServerState, c: Conn, m: Message)
    requires Inv(s) && c < |s.ids|
    ensures Inv(RequestPair(s, c, m).0)
  {
    var after := RequestPair(s, c, m).0;
    if 4 <= |m.body| {
      FoundIff(s, TopNumber(m));
      ConnectKeepsMatching(s.pairs, s.ids[c], TopNumber(m));
    }
    PairsChange(s, after);
  }

  lemma DissolveKeepsPairs(s: ServerState, me: u32)
    requires PairsInv(s) && me in s.pairs
    ensures PairsInv(s.(pairs := Disconnect(s.pairs, me, s.pairs[me])))
    ensures CanDisconnect(s.pairs, me, s.pairs[me]) && CanDisconnect(s.pairs, s.pairs[me], me)
    ensures Disconnect(s.pairs, s.pairs[me], me) == Disconnect(s.pairs, me, s.pairs[me])
  {
    DisconnectKeepsMatching(s.pairs, me);
  }

  lemma PairedMessageKeepsInv(s: ServerState, c: Conn, m: Message)
    requires Inv(s) && c < |s.ids|
    ensures Inv(ForwardText(s, c, m).0) && Inv(ForwardAnswer(s, c, m).0) && Inv(ClosePair(s, c).0)
  {
    var me := s.ids[c];
    if me in s.pairs {
      DissolveKeepsPairs(s, me);
      PairsChange(s, ForwardText(s, c, m).0);
      PairsChange(s, ForwardAnswer(s, c, m).0);
      PairsChange(s, ClosePair(s, c).0);
    }
  }

  lemma StepKeepsInv(s: ServerState, ev: Event)
    requires Inv(s) && CanHappen(s, ev)
    ensures Inv(Step(s, ev).0)
  {
    hide Sweep, RequestPair, ForwardText, ForwardAnswer, ClosePair;
    match ev
    case Accepted => AcceptKeepsInv(s);
    case SocketClosed(c) => PairsChange(s, Step(s, ev).0);
    case Received(c, m) =>
      SweepKeepsInv(s);
      PairsChange(Sweep(s), MessageAll(s, c));
      PairsChange(Sweep(s), ClientList(s, c));
      PairsChange(s, EchoPing(s, c, m));
      RequestKeepsInv(s, c, m);
      PairedMessageKeepsInv(s, c, m);
  }

  lemma SweepKeepsInv(s: ServerState)
    requires Inv(s)
    ensures Inv(Sweep(s))
  {
    SweepKeepsRoster(s);
  }

  lemma InitialInv()
    ensures Inv(INITIAL)
  {
  }

  /** One step of a run, by itself. */
  lemma BehaviorAt(trace: seq<ServerState>, events: seq<Event>, k: nat)
    requires Behavior(trace, events) && k < |events|
    ensures |trace| == |events| + 1
    ensures WellPlaced(trace[k]) && CanHappen(trace[k], events[k]) && trace[k + 1] == Step(trace[k], events[k]).0
  {
    hide Step, WellPlaced, CanHappen;
  }

  lemma BehaviorStarts(trace: seq<ServerState>, events: seq<Event>)
    requires Behavior(trace, events)
    ensures |trace| == |events| + 1 && trace[0] == INITIAL
  {
  }

  lemma {:induction false} BehaviorInv(trace: seq<ServerState>, events: seq<Event>, k: nat)
    requires Behavior(trace, events) && k < |trace|
    ensures Inv(trace[k])
  {
    BehaviorStarts(trace, events);
    hide Behavior, Step, Inv;
    if k == 0 {
      InitialInv();
    } else {
      BehaviorAt(trace, events, k - 1);
      BehaviorInv(trace, events, k - 1);
      StepKeepsInv(trace[k - 1], events[k - 1]);
    }
  }

  /** a's partner is b. */
  predicate Paired(s: ServerState, a: u32, b: u32) {
    a in s.pairs && s.pairs[a] == b
  }

  // ---- Exactly when a message makes the server throw or run into undefined behaviour ----

  /** The connection a lookup of the id finds first is gone. */
  ghost predicate FirstIsGone(s: ServerState, id: u32) {
    exists p :: IsFirst(s, id, p) && p !in s.open
  }

  /** The message types that need a partner. */
  predicate NeedsPartner(kind: u32) {
    kind == TEXT_CLIENT || kind == REQUEST_ANSWER || kind == CLOSE_CLIENT
  }

  /**
   In every reachable state a message is undefined behaviour if and only if it is a request without
   a whole id, or text for a partner whose id two members share, the first of them gone; and it
   throws if and only if it needs a partner its sender has not.
   */
  lemma OutcomeIff(trace: seq<ServerState>, events: seq<Event>, k: nat)
    requires Behavior(trace, events) && k < |events| && events[k].Received?
    ensures var s, me, m := trace[k], trace[k].ids[events[k].from], events[k].msg;
      var outcome := Step(s, events[k]).1;
      && (outcome == Undefined <==>
            || (m.id == REQUEST_TO_CLIENT && |m.body| < 4)
            || (m.id == TEXT_CLIENT && me in s.pairs
                && Shared(s, s.pairs[me]) && FirstIsGone(s, s.pairs[me])))
      && (outcome == Throws <==> NeedsPartner(m.id) && me !in s.pairs)
  {
    BehaviorInv(trace, events, k);
    var s := trace[k];
    var me := s.ids[events[k].from];
    if me in s.pairs {
      DissolveKeepsPairs(s, me);
      FirstGoneIff(s, s.pairs[me]);
      SharedIff(s, s.pairs[me]);
    }
    hide Hits, Shared, FirstIsGone, Inv, Behavior, MessageAll, ClientList, NumberMessage;
  }

  lemma FirstGoneIff(s: ServerState, id: u32)
    requires WellPlaced(s) && RosterInv(s)
    ensures FirstIsGone(s, id) <==> Hits(s, id) != [] && Hits(s, id)[0] !in s.open
  {
    forall p ensures IsFirst(s, id, p) <==> Hits(s, id) != [] && Hits(s, id)[0] == p {
      FirstHitIff(s, id, p);
    }
    hide Hits, IsFirst;
  }

  /** Until ids repeat, a request without a whole id is the only undefined behaviour; both finds always hit. */
  lemma OutcomeWhileFresh(trace: seq<ServerState>, events: seq<Event>, k: nat)
    requires Behavior(trace, events) && k < |events| && events[k].Received? && IdsFresh(trace[k])
    ensures var m := events[k].msg;
      Step(trace[k], events[k]).1 == Undefined <==> m.id == REQUEST_TO_CLIENT && |m.body| < 4
  {
    OutcomeIff(trace, events, k);
    BehaviorInv(trace, events, k);
    var s := trace[k];
    var me := s.ids[events[k].from];
    if me in s.pairs {
      MembersUnique(s, s.pairs[me], 0);
    }
  }

  // ---- The two failures in concrete runs ----

  /** In this run event number k is ev, and its outcome is the given one. */
  predicate Ends(trace: seq<ServerState>, events: seq<Event>, k: nat, ev: Event, outcome: Outcome) {
    && Behavior(trace, events) && k < |events|
    && events[k] == ev && Step(trace[k], ev).1 == outcome
  }

  lemma BehaviorOneMore(trace: seq<ServerState>, events: seq<Event>, ev: Event)
    requires Behavior(trace, events) && CanHappen(trace[|events|], ev)
    ensures WellPlaced(trace[|events|])
    ensures Behavior(trace + [Step(trace[|events|], ev).0], events + [ev])
  {
    var s := trace[|events|];
    BehaviorStarts(trace, events);
    BehaviorInv(trace, events, |events|);
    InvParts(s);
    var t, e := trace + [Step(s, ev).0], events + [ev];
    assert trace + [Step(s, ev).0] == t && t[0] == INITIAL;
    forall k | 0 <= k < |e|
      ensures WellPlaced(t[k]) && CanHappen(t[k], e[k]) && t[k + 1] == Step(t[k], e[k]).0
    {
      hide Behavior, Step, Inv, WellPlaced, CanHappen;
      if k < |events| {
        BehaviorAt(trace, events, k);
      }
    }
    hide Step, Inv, WellPlaced, CanHappen;
  }

  /** The run in which the first client connects and sends one message. */
  lemma FirstMessageRun(m: Message) returns (trace: seq<ServerState>, events: seq<Event>)
    ensures Behavior(trace, events) && events == [Accepted, Received(0, m)]
    ensures trace[1] == Accept(INITIAL)
  {
    var s := Accept(INITIAL);
    assert Behavior([INITIAL], []);
    BehaviorOneMore([INITIAL], [], Accepted);
    BehaviorOneMore([INITIAL, s], [Accepted], Received(0, m));
    assert [INITIAL] + [s] == [INITIAL, s] && [] + [Accepted] == [Accepted];
    trace, events := [INITIAL, s] + [Step(s, Received(0, m)).0], [Accepted] + [Received(0, m)];
  }

  /** The first client's first message throws if it needs a partner. */
  lemma UnpairedThrows(m: Message)
    requires NeedsPartner(m.id)
    ensures exists trace, events :: |events| == 2 && Ends(trace, events, 1, Received(0, m), Throws)
  {
    var trace, events := FirstMessageRun(m);
    assert Ends(trace, events, 1, Received(0, m), Throws);
  }

  /** A request without a whole id from the first client is undefined at once. */
  lemma ShortRequestUndefined(m: Message)
    requires m.id == REQUEST_TO_CLIENT && |m.body| < 4
    ensures exists trace, events :: |events| == 2 && Ends(trace, events, 1, Received(0, m), Undefined)
  {
    var trace, events := FirstMessageRun(m);
    assert Ends(trace, events, 1, Received(0, m), Undefined);
  }

  /** The states of a server that has done nothing but accept n connections. */
  function Crowd(n: nat): (r: seq<ServerState>)
    ensures |r| == n + 1
  {
    if n == 0 then [INITIAL] else Crowd(n - 1) + [Accept(Crowd(n - 1)[n - 1])]
  }

  function Accepts(n: nat): (r: seq<Event>)
    ensures |r| == n
  {
    if n == 0 then [] else Accepts(n - 1) + [Accepted]
  }

  /** All of n connections are members, open, and without a partner. */
  predicate AllThere(s: ServerState, n: nat) {
    && |s.ids| == n == |s.roster| && s.pairs == map[]
    && forall i :: 0 <= i < n ==> s.roster[i] == Some(i) && i in s.open
  }

  lemma OneMoreThere(s: ServerState, n: nat)
    requires AllThere(s, n)
    ensures WellPlaced(s) && AllThere(Step(s, Accepted).0, n + 1)
  {
    hide NumberMessage;
  }

  lemma {:induction false} CrowdIsBehavior(n: nat)
    ensures Behavior(Crowd(n), Accepts(n)) && AllThere(Crowd(n)[n], n)
  {
    if n == 0 {
      assert Crowd(0) == [INITIAL] && Accepts(0) == [];
    } else {
      hide Behavior, AllThere, Accept;
      CrowdIsBehavior(n - 1);
      OneMoreThere(Crowd(n - 1)[n - 1], n - 1);
      BehaviorOneMore(Crowd(n - 1), Accepts(n - 1), Accepted);
    }
  }

  /** After 2^32 + 1 accepts the first id has two bearers. */
  lemma CrowdShares(s: ServerState)
    requires Inv(s) && AllThere(s, TWO_32 + 1)
    ensures s.ids[1] == FIRST_ID + 1 && IsFirst(s, FIRST_ID, 0) && Shared(s, FIRST_ID)
  {
    assert s.roster[0] == Some(0) && s.roster[TWO_32] == Some(TWO_32 as Conn);
    assert s.ids[0] == FIRST_ID && s.ids[TWO_32] == (FIRST_ID + TWO_32) % TWO_32 == FIRST_ID;
    assert IsMember(s, FIRST_ID, 0) && IsMember(s, FIRST_ID, TWO_32);
  }

  /** The second client asks for that id and is linked with its first bearer. */
  lemma FirstBearerLinked(s: ServerState)
    requires WellPlaced(s) && RosterInv(s) && 1 < |s.ids| && s.ids[1] == FIRST_ID + 1 && s.pairs == map[]
    requires IsFirst(s, FIRST_ID, 0)
    ensures var linked := Step(s, Received(1, NumberMessage(REQUEST_TO_CLIENT, FIRST_ID))).0;
      && linked.ids == s.ids && linked.roster == s.roster && linked.open == s.open
      && Paired(linked, FIRST_ID + 1, FIRST_ID)
  {
    hide Hits, IsFirst, TopNumber, RosterInv;
    NumberMessageTop(REQUEST_TO_CLIENT, FIRST_ID);
    FirstHitIff(s, FIRST_ID, 0);
    var m := NumberMessage(REQUEST_TO_CLIENT, FIRST_ID);
    assert m.id == REQUEST_TO_CLIENT && |m.body| == 4;
    hide NumberMessage;
  }

  /** Its socket closes: the id is still shared, and its first bearer gone. */
  lemma FirstBearerGone(s: ServerState, linked: ServerState)
    requires linked.ids == s.ids && linked.roster == s.roster
    requires IsFirst(s, FIRST_ID, 0) && Shared(s, FIRST_ID)
    ensures var gone := linked.(open := linked.open - {0});
      Shared(gone, FIRST_ID) && FirstIsGone(gone, FIRST_ID)
  {
    var gone := linked.(open := linked.open - {0});
    assert forall p :: IsMember(gone, FIRST_ID, p) <==> IsMember(s, FIRST_ID, p);
    hide IsMember;
    assert IsFirst(gone, FIRST_ID, 0);
  }

  lemma UndefinedAfterCrowd(n: nat)
    requires n == TWO_32 + 1
    ensures exists trace, events, k: nat ::
        Ends(trace, events, k, Received(1, Message(TEXT_CLIENT, 0, [])), Undefined)
  {
    hide Crowd, Accepts, Shared, IsFirst, FirstIsGone, Behavior, NumberMessage, Handle, Named;
    var request := Received(1, NumberMessage(REQUEST_TO_CLIENT, FIRST_ID));
    var text := Received(1, Message(TEXT_CLIENT, 0, []));
    var t0, e0 := Crowd(n), Accepts(n);
    CrowdIsBehavior(n);
    BehaviorInv(t0, e0, n);
    CrowdShares(t0[n]);
    FirstBearerLinked(t0[n]);
    FirstBearerGone(t0[n], Step(t0[n], request).0);
    BehaviorOneMore(t0, e0, request);
    var t1, e1 := t0 + [Step(t0[n], request).0], e0 + [request];
    BehaviorOneMore(t1, e1, SocketClosed(0));
    var t2, e2 := t1 + [Step(t1[n + 1], SocketClosed(0)).0], e1 + [SocketClosed(0)];
    BehaviorOneMore(t2, e2, text);
    var t3, e3 := t2 + [Step(t2[n + 2], text).0], e2 + [text];
    assert t3[n + 2] == t2[n + 2] && e3[n + 2] == text;
    OutcomeIff(t3, e3, n + 2);
    assert Ends(t3, e3, n + 2, text, Undefined);
  }

  /** Once an id has been given twice, text for the first of its two bearers, if gone, is undefined. */
  lemma RepeatedIdUndefined()
    ensures exists trace, events, k: nat ::
        Ends(trace, events, k, Received(1, Message(TEXT_CLIENT, 0, [])), Undefined)
  {
    UndefinedAfterCrowd(TWO_32 + 1);
  }

  // ---- Who is talking to whom, told from the messages ----

  /** The step sent exactly one message. */
  predicate SentOne(s: ServerState, after: ServerState) {
    |after.sent| == |s.sent| + 1 && after.sent[..|s.sent|] == s.sent
  }

  function TheMessage(s: ServerState, after: ServerState): Sent
    requires SentOne(s, after)
  {
    after.sent[|s.sent|]
  }

  /** A request by a for b whose one message went to b. */
  predicate LinkedBy(s: ServerState, ev: Event, a: u32, b: u32)
    requires WellPlaced(s) && CanHappen(s, ev)
  {
    && ev.Received? && ev.msg.id == REQUEST_TO_CLIENT && 4 <= |ev.msg.body|
    && s.ids[ev.from] == a && TopNumber(ev.msg) == b && a != b
    && var after := Step(s, ev).0;
    && SentOne(s, after)
    && IdOf(s.ids, TheMessage(s, after).to) == b
  }

  /** One of the two closed the conversation, or wrote and was told that it is closed. */
  predicate DissolvedBy(s: ServerState, ev: Event, a: u32, b: u32)
    requires WellPlaced(s) && CanHappen(s, ev)
  {
    && ev.Received? && (s.ids[ev.from] == a || s.ids[ev.from] == b)
    && var (after, outcome) := Step(s, ev);
    || (ev.msg.id == CLOSE_CLIENT && outcome == Done)
    || (ev.msg.id == TEXT_CLIENT && SentOne(s, after) && TheMessage(s, after).msg.id == CLOSE_CLIENT)
  }

  /** What a request does, in full: one message, to the target exactly if the pair was added. */
  lemma RequestOutcome(s: ServerState, c: Conn, m: Message)
    requires WellPlaced(s) && c < |s.ids| && 4 <= |m.body|
    ensures var (after, outcome) := RequestPair(s, c, m);
      var me, id := s.ids[c], TopNumber(m);
      && outcome == Done && SentOne(s, after)
      && var x := TheMessage(s, after);
      && (HasMember(s, id) && CanConnect(s.pairs, me, id) ==>
            x.to < |s.ids| && s.ids[x.to] == id && x.msg == NumberMessage(REQUEST_TO_CLIENT, me)
            && after.pairs == Connect(s.pairs, me, id))
      && (HasMember(s, id) && !CanConnect(s.pairs, me, id) ==>
            x == Sent(c, NumberMessage(REQUEST_TO_CLIENT, 1)) && after.pairs == s.pairs)
      && (!HasMember(s, id) ==> x == Sent(c, NumberMessage(REQUEST_TO_CLIENT, 0)) && after.pairs == s.pairs)
  {
    FoundIff(s, TopNumber(m));
  }

  lemma RequestLinks(s: ServerState, ev: Event, a: u32, b: u32)
    requires Inv(s) && CanHappen(s, ev) && ev.Received? && ev.msg.id == REQUEST_TO_CLIENT
    ensures Paired(Step(s, ev).0, a, b) <==>
      LinkedBy(s, ev, a, b) || LinkedBy(s, ev, b, a) || Paired(s, a, b)
  {
    if 4 <= |ev.msg.body| {
      RequestOutcome(s, ev.from, ev.msg);
    }
  }

  lemma ClosingDissolves(s: ServerState, ev: Event, a: u32, b: u32)
    requires Inv(s) && CanHappen(s, ev) && ev.Received?
    requires ev.msg.id == CLOSE_CLIENT || ev.msg.id == TEXT_CLIENT
    ensures Paired(Step(s, ev).0, a, b) <==> Paired(s, a, b) && !DissolvedBy(s, ev, a, b)
  {
    var me := s.ids[ev.from];
    if me in s.pairs {
      DissolveKeepsPairs(s, me);
    }
    if Paired(s, a, b) {
      assert s.pairs[b] == a;
    }
  }

  /**
   One step, from its messages alone: two clients are in conversation afterwards if and only if
   the step linked them, or they were before and it did not dissolve their conversation.
   */
  lemma PairedStepIff(s: ServerState, ev: Event, a: u32, b: u32)
    requires Inv(s) && CanHappen(s, ev)
    ensures Paired(Step(s, ev).0, a, b) <==>
      LinkedBy(s, ev, a, b) || LinkedBy(s, ev, b, a) || (Paired(s, a, b) && !DissolvedBy(s, ev, a, b))
  {
    if ev.Received? && ev.msg.id == REQUEST_TO_CLIENT {
      RequestLinks(s, ev, a, b);
    } else if ev.Received? && (ev.msg.id == CLOSE_CLIENT || ev.msg.id == TEXT_CLIENT) {
      ClosingDissolves(s, ev, a, b);
    }
  }

  /** Event i linked a and b, and no later one before moment k dissolved their conversation. */
  predicate LinkedAndUndisturbed(trace: seq<ServerState>, events: seq<Event>, i: nat, k: nat, a: u32, b: u32)
    requires Behavior(trace, events) && i < k <= |events|
  {
    && (LinkedBy(trace[i], events[i], a, b) || LinkedBy(trace[i], events[i], b, a))
    && forall j :: i < j < k ==> !DissolvedBy(trace[j], events[j], a, b)
  }

  lemma UndisturbedOneMore(trace: seq<ServerState>, events: seq<Event>, i: nat, k: nat, a: u32, b: u32)
    requires Behavior(trace, events) && i < k < |events|
    ensures LinkedAndUndisturbed(trace, events, i, k + 1, a, b) <==>
      LinkedAndUndisturbed(trace, events, i, k, a, b) && !DissolvedBy(trace[k], events[k], a, b)
  {
    hide LinkedBy, DissolvedBy, Step;
  }

  /**
   The whole history: after k events a and b are in conversation if and only if some event linked
   them and none since has dissolved it.
   */
  lemma {:induction false} PairedHistory(trace: seq<ServerState>, events: seq<Event>, k: nat, a: u32, b: u32)
    requires Behavior(trace, events) && k <= |events|
    ensures Paired(trace[k], a, b) <==>
      exists i :: 0 <= i < k && LinkedAndUndisturbed(trace, events, i, k, a, b)
  {
    hide LinkedBy, DissolvedBy, Step, Inv;
    if k > 0 {
      var last := k - 1;
      PairedHistory(trace, events, last, a, b);
      BehaviorInv(trace, events, last);
      PairedStepIff(trace[last], events[last], a, b);
      forall i | 0 <= i < last
        ensures LinkedAndUndisturbed(trace, events, i, k, a, b) <==>
          LinkedAndUndisturbed(trace, events, i, last, a, b) && !DissolvedBy(trace[last], events[last], a, b)
      {
        UndisturbedOneMore(trace, events, i, last, a, b);
      }
      assert LinkedAndUndisturbed(trace, events, last, k, a, b) <==>
        LinkedBy(trace[last], events[last], a, b) || LinkedBy(trace[last], events[last], b, a);
    }
  }

  // ---- Third parties ----

  /** The messages of a conversation. */
  predicate Conversational(kind: u32) {
    kind == REQUEST_TO_CLIENT || kind == TEXT_CLIENT || kind == REQUEST_ANSWER || kind == CLOSE_CLIENT
  }

  /** The event is not a message from a or b. */
  predicate ThirdParty(s: ServerState, ev: Event, a: u32, b: u32)
    requires CanHappen(s, ev)
  {
    ev.Received? ==> s.ids[ev.from] != a && s.ids[ev.from] != b
  }

  /** Every conversational message sent since went to an accepted connection with another id. */
  predicate LeftAlone(s: ServerState, after: ServerState, a: u32, b: u32) {
    && s.ids <= after.ids && s.sent <= after.sent
    && forall n :: |s.sent| <= n < |after.sent| && Conversational(after.sent[n].msg.id) ==>
         var to := after.sent[n].to;
         to < |after.ids| && after.ids[to] != a && after.ids[to] != b
  }

  lemma {:induction false} BroadcastKind(s: ServerState, n: nat, ignore: Conn, msg: Message, k: nat)
    requires n <= |s.roster| && k < |BroadcastUpTo(s.roster, s.open, n, ignore, msg)|
    ensures BroadcastUpTo(s.roster, s.open, n, ignore, msg)[k].msg == msg
  {
    if k < |BroadcastUpTo(s.roster, s.open, n - 1, ignore, msg)| {
      BroadcastKind(s, n - 1, ignore, msg, k);
    }
  }

  /** While a and b are in conversation no step of anyone else ends it or reaches them with such a message. */
  lemma ThirdPartyStep(s: ServerState, ev: Event, a: u32, b: u32)
    requires Inv(s) && CanHappen(s, ev)
    requires Paired(s, a, b) && ThirdParty(s, ev, a, b)
    ensures Paired(Step(s, ev).0, a, b) && LeftAlone(s, Step(s, ev).0, a, b)
  {
    assert s.pairs[b] == a;
    match ev
    case Accepted =>
    case SocketClosed(_) =>
    case Received(c, m) =>
      ThirdPartyMessage(s, c, m, a, b);
  }

  lemma LeftAloneByAll(s: ServerState, c: Conn, a: u32, b: u32)
    requires c < |s.ids|
    ensures LeftAlone(s, MessageAll(s, c), a, b)
  {
    var msg := NumberMessage(SERVER_MESSAGE, s.ids[c]);
    var after := MessageAll(s, c);
    forall n | |s.sent| <= n < |after.sent| ensures !Conversational(after.sent[n].msg.id) {
      BroadcastKind(s, |s.roster|, c, msg, n - |s.sent|);
    }
  }

  lemma LeftAloneByRequest(s: ServerState, c: Conn, m: Message, a: u32, b: u32)
    requires Inv(s) && c < |s.ids| && Paired(s, a, b) && s.ids[c] != a && s.ids[c] != b
    ensures LeftAlone(s, RequestPair(s, c, m).0, a, b)
  {
    if 4 <= |m.body| {
      FoundIff(s, TopNumber(m));
      assert s.pairs[b] == a;
    }
  }

  lemma LeftAloneByPartner(s: ServerState, c: Conn, m: Message, a: u32, b: u32)
    requires Inv(s) && c < |s.ids| && Paired(s, a, b) && s.ids[c] != a && s.ids[c] != b
    ensures LeftAlone(s, ForwardText(s, c, m).0, a, b)
    ensures LeftAlone(s, ForwardAnswer(s, c, m).0, a, b)
    ensures LeftAlone(s, ClosePair(s, c).0, a, b)
  {
    var me := s.ids[c];
    if me in s.pairs {
      DissolveKeepsPairs(s, me);
      FoundIff(s, s.pairs[me]);
      assert s.pairs[s.pairs[me]] == me && s.pairs[b] == a;
    }
  }

  lemma ThirdPartyMessage(s: ServerState, c: Conn, m: Message, a: u32, b: u32)
    requires Inv(s) && c < |s.ids| && Paired(s, a, b) && s.ids[c] != a && s.ids[c] != b
    ensures Paired(Handle(s, c, m).0, a, b) && LeftAlone(s, Handle(s, c, m).0, a, b)
  {
    PairedStepIff(s, Received(c, m), a, b);
    LeftAloneByAll(s, c, a, b);
    LeftAloneByRequest(s, c, m, a, b);
    LeftAloneByPartner(s, c, m, a, b);
    hide MessageAll, RequestPair, ForwardText, ForwardAnswer, ClosePair, Inv;
    assert LeftAlone(s, EchoPing(s, c, m), a, b) || m.id != SERVER_PING;
    assert LeftAlone(s, ClientList(s, c), a, b);
  }

  lemma LeftAloneTransitive(s: ServerState, mid: ServerState, after: ServerState, a: u32, b: u32)
    requires LeftAlone(s, mid, a, b) && LeftAlone(mid, after, a, b)
    ensures LeftAlone(s, after, a, b)
  {
    forall n | |s.sent| <= n < |after.sent| && Conversational(after.sent[n].msg.id)
      ensures var to := after.sent[n].to;
        to < |after.ids| && after.ids[to] != a && after.ids[to] != b
    {
      if n < |mid.sent| {
        assert after.sent[n] == mid.sent[n];
      }
    }
  }

  /**
   Non-interference over whole runs: from any moment a and b are in conversation, as long as neither
   of them sends anything, they stay in conversation and are sent no conversational message.
   */
  lemma {:induction false} NonInterference(
    trace: seq<ServerState>, events: seq<Event>, i: nat, k: nat, a: u32, b: u32)
    requires Behavior(trace, events) && i <= k <= |events|
    requires Paired(trace[i], a, b)
    requires forall j :: i <= j < k ==> ThirdParty(trace[j], events[j], a, b)
    ensures Paired(trace[k], a, b) && LeftAlone(trace[i], trace[k], a, b)
    decreases k
  {
    if i < k {
      hide Step, Inv;
      NonInterference(trace, events, i, k - 1, a, b);
      BehaviorInv(trace, events, k - 1);
      ThirdPartyStep(trace[k - 1], events[k - 1], a, b);
      LeftAloneTransitive(trace[i], trace[k - 1], trace[k], a, b);
    }
  }

  // ---- What the sweeps of a reachable server do ----

  /**
   A sweep keeps exactly the connected members, in their order and without nulls, reports exactly
   the others, each for the first time, and the ids it lists are strictly increasing.
   */
  lemma SweepExact(trace: seq<ServerState>, events: seq<Event>, k: nat)
    requires Behavior(trace, events) && k < |trace|
    ensures var s := trace[k];
      var gone := Gone(s.roster, s.open);
      var list := IdsOf(s.ids, Live(s.roster, s.open));
      && Increasing(Sweep(s).roster)
      && (forall c :: Some(c) in Sweep(s).roster <==> Some(c) in s.roster && c in s.open)
      && Sweep(s).reported == s.reported + gone && NoRepeats(s.reported + gone)
      && (forall c :: c in gone <==> Some(c) in s.roster && c !in s.open)
      && (NotWrapped(s) ==> forall i, j :: 0 <= i < j < |list| ==> list[i] < list[j])
  {
    BehaviorInv(trace, events, k);
    var s := trace[k];
    var live := Live(s.roster, s.open);
    SweepKeepsRoster(s);
    forall c ensures (Some(c) in Sweep(s).roster <==> Some(c) in s.roster && c in s.open)
      && (c in Gone(s.roster, s.open) <==> Some(c) in s.roster && c !in s.open)
    {
      SweepIff(s, c);
    }
    if NotWrapped(s) {
      IdsIncrease(s);
      SelectedAscending(s.roster, s.open, true, |s.roster|);
      forall i | 0 <= i < |live| ensures live[i] < |s.ids| {
        assert Sweep(s).roster[i] == Some(live[i]);
      }
      hide SelectUpTo, Live, Gone;
      assert forall i :: 0 <= i < |live| ==> IdsOf(s.ids, live)[i] == s.ids[live[i]];
    }
  }

  /** A broadcast reaches the n first members: each connected one except the ignored once, in order. */
  lemma {:induction false} BroadcastExact(s: ServerState, n: nat, ignore: Conn, msg: Message, c: Conn)
    requires Increasing(s.roster) && n <= |s.roster|
    ensures var out := BroadcastUpTo(s.roster, s.open, n, ignore, msg);
      && (Sent(c, msg) in out <==> Among(s.roster, n, c) && c in s.open && c != ignore)
      && (forall i, j :: 0 <= i < j < |out| ==> out[i].to < out[j].to)
      && (forall i, j :: 0 <= i < |out| && n <= j < |s.roster| ==> out[i].to < s.roster[j].value)
  {
    if n > 0 {
      BroadcastExact(s, n - 1, ignore, msg, c);
      AmongOneMore(s.roster, n, c);
    }
  }

  // ---- What the server ever sends ----

  /** Message types the server sends on as it received them. */
  predicate Forwardable(kind: u32) {
    kind == SERVER_PING || kind == TEXT_CLIENT || kind == REQUEST_ANSWER
  }

  const LONG_LIST: nat := 0x4000_0000

  /** The message is a copy of one received among the first k events. */
  ghost predicate IsCopy(events: seq<Event>, k: nat, m: Message) {
    exists j :: 0 <= j < k && j < |events| && events[j].Received? && events[j].msg == m && Forwardable(m.id)
  }

  lemma {:induction false} SelectedAreFew(roster: seq<Option<Conn>>, open: set<Conn>, connected: bool, n: nat)
    requires n <= |roster|
    ensures |SelectUpTo(roster, open, connected, n)| <= n
  {
    if n > 0 {
      SelectedAreFew(roster, open, connected, n - 1);
    }
  }

  /** An ordered roster is no longer than the list of connections. */
  lemma {:induction false} MemberAtLeast(roster: seq<Option<Conn>>, i: nat)
    requires Increasing(roster) && i < |roster|
    ensures i <= roster[i].value
  {
    if i > 0 {
      MemberAtLeast(roster, i - 1);
    }
  }

  lemma LiveAreFew(s: ServerState)
    requires WellPlaced(s) && RosterInv(s)
    ensures |Live(s.roster, s.open)| <= |s.ids|
  {
    SelectedAreFew(s.roster, s.open, true, |s.roster|);
    if s.roster != [] {
      MemberAtLeast(s.roster, |s.roster| - 1);
    }
  }

  /** Nothing sent is taken back, and no id is lost. */
  lemma StepGrows(s: ServerState, ev: Event)
    requires WellPlaced(s) && CanHappen(s, ev)
    ensures s.sent <= Step(s, ev).0.sent && s.ids <= Step(s, ev).0.ids
  {
    hide HitsIn, Live, Gone, BroadcastUpTo, NumberMessage, PushIds, TopNumber;
  }

  /** What one step sends is well-formed, a copy of what it received, or a list too long for its size field. */
  lemma StepSends(s: ServerState, ev: Event, n: nat)
    requires Inv(s) && CanHappen(s, ev) && |s.sent| <= n < |Step(s, ev).0.sent|
    ensures var m := Step(s, ev).0.sent[n].msg;
      || WellFormed(m)
      || (ev.Received? && m == ev.msg && Forwardable(m.id))
      || (m.id == CLIENT_LIST && LONG_LIST <= |m.body| / 4 <= |s.ids|)
  {
    hide Inv, HitsIn, Live, Gone, PushIds, IdsOf, BroadcastUpTo, TopNumber, Connect, Disconnect, U32Bytes;
    InvParts(s);
    if ev.Received? {
      if ev.msg.id == MESSAGE_ALL {
        BroadcastKind(s, |s.roster|, ev.from, NumberMessage(SERVER_MESSAGE, s.ids[ev.from]), n - |s.sent|);
      } else if ev.msg.id == CLIENT_LIST {
        LiveAreFew(s);
        PushIdsLength(IdsOf(s.ids, Live(s.roster, s.open)));
      } else {
        PairedSends(s, ev.from, ev.msg, n);
      }
    }
  }

  lemma InvParts(s: ServerState)
    requires Inv(s)
    ensures WellPlaced(s) && RosterInv(s)
  {
  }

  lemma PairedSends(s: ServerState, c: Conn, m: Message, n: nat)
    requires WellPlaced(s) && c < |s.ids| && m.id != MESSAGE_ALL && m.id != CLIENT_LIST
    requires |s.sent| <= n < |Handle(s, c, m).0.sent|
    ensures var x := Handle(s, c, m).0.sent[n].msg;
      WellFormed(x) || (x == m && Forwardable(m.id))
  {
    hide HitsIn, TopNumber, Connect, Disconnect, U32Bytes, MessageAll, ClientList;
  }

  /** Everything ever sent is well-formed, or a copy of a received message, or an overlong list. */
  lemma {:induction false} SentIsFine(trace: seq<ServerState>, events: seq<Event>, k: nat, i: nat)
    requires Behavior(trace, events) && k <= |events| && i < |trace[k].sent|
    ensures var m := trace[k].sent[i].msg;
      || WellFormed(m)
      || IsCopy(events, k, m)
      || (m.id == CLIENT_LIST && LONG_LIST <= |m.body| / 4 <= |trace[k].ids|)
    decreases k
  {
    hide Step, Inv, WellFormed;
    if k > 0 {
      BehaviorInv(trace, events, k - 1);
      StepGrows(trace[k - 1], events[k - 1]);
      if i < |trace[k - 1].sent| {
        SentIsFine(trace, events, k - 1, i);
      } else {
        StepSends(trace[k - 1], events[k - 1], i);
      }
    }
  }

  /** What can be forwarded has arrived well-formed. */
  predicate ReceivedWellFormed(events: seq<Event>) {
    forall j :: 0 <= j < |events| && events[j].Received? && Forwardable(events[j].msg.id) ==> WellFormed(events[j].msg)
  }

  /** With well-formed messages to forward and fewer than 2^30 connections all that is sent is well-formed. */
  lemma SentWellFormed(trace: seq<ServerState>, events: seq<Event>, k: nat, i: nat)
    requires Behavior(trace, events) && k <= |events| && i < |trace[k].sent|
    requires ReceivedWellFormed(events) && |trace[k].ids| < LONG_LIST
    ensures WellFormed(trace[k].sent[i].msg)
  {
    hide Behavior, WellFormed;
    SentIsFine(trace, events, k, i);
  }

  // ---- What the messages of a conversation do ----

  /**
   Of a paired sender, text is forwarded unchanged to the partner if its connection, the first with
   the id, is open. If it is gone the sender alone is told and the conversation ends for both,
   unless a second member shares the id; if the partner has left the roster nothing happens at all.
   */
  lemma TextOutcome(s: ServerState, c: Conn, m: Message, p: Conn)
    requires Inv(s) && c < |s.ids| && s.ids[c] in s.pairs
    ensures var me := s.ids[c];
      var partner := s.pairs[me];
      var (after, outcome) := ForwardText(s, c, m);
      && (IsFirst(s, partner, p) && p in s.open ==> outcome == Done && after == Send(s, p, m))
      && (IsFirst(s, partner, p) && p !in s.open && !Shared(s, partner) ==>
            outcome == Done
            && after == Send(s, c, Message(CLOSE_CLIENT, 0, [])).(pairs := after.pairs)
            && Conversations(after.pairs) == Conversations(s.pairs) - {{me, partner}})
      && (IsFirst(s, partner, p) && p !in s.open && Shared(s, partner) ==> outcome == Undefined)
      && (!HasMember(s, partner) ==> outcome == Done && after == s)
  {
    var me := s.ids[c];
    DissolveKeepsPairs(s, me);
    ConversationsDisconnect(s.pairs, me);
    FoundIff(s, s.pairs[me]);
    FirstHitIff(s, s.pairs[me], p);
    SharedIff(s, s.pairs[me]);
    hide Conversations, Hits, Inv, IsFirst, Shared, HasMember;
  }

  /** Of a paired sender, an answer is forwarded unchanged; a close ends the conversation and tells the partner. */
  lemma AnswerAndCloseOutcome(s: ServerState, c: Conn, m: Message, p: Conn)
    requires Inv(s) && c < |s.ids| && s.ids[c] in s.pairs
    ensures var me := s.ids[c];
      var partner := s.pairs[me];
      var (answered, closed) := (ForwardAnswer(s, c, m).0, ClosePair(s, c).0);
      && (IsFirst(s, partner, p) ==>
            answered == Send(s, p, m)
            && closed == Send(s, p, Message(CLOSE_CLIENT, 0, [])).(pairs := closed.pairs))
      && (!HasMember(s, partner) ==> answered == s && closed == s.(pairs := closed.pairs))
      && Conversations(closed.pairs) == Conversations(s.pairs) - {{me, partner}}
  {
    var me := s.ids[c];
    DissolveKeepsPairs(s, me);
    ConversationsDisconnect(s.pairs, me);
    FoundIff(s, s.pairs[me]);
    FirstHitIff(s, s.pairs[me], p);
    hide Conversations, Hits, Inv, IsFirst, HasMember;
  }

  /** Where a conversational message to someone else can come from: the partner, or whoever just linked. */
  predicate FromPartner(s: ServerState, ev: Event, n: nat)
    requires WellPlaced(s) && CanHappen(s, ev) && n < |Step(s, ev).0.sent|
  {
    var x := Step(s, ev).0.sent[n];
    ev.Received? && Conversational(x.msg.id) && x.to != ev.from ==>
      x.to < |s.ids|
      && (Paired(s, s.ids[ev.from], s.ids[x.to]) || LinkedBy(s, ev, s.ids[ev.from], s.ids[x.to]))
  }

  /** Only partners reach each other: the counterpart of non-interference, for every step. */
  lemma OnlyPartnersReach(s: ServerState, ev: Event, n: nat)
    requires Inv(s) && CanHappen(s, ev) && |s.sent| <= n < |Step(s, ev).0.sent|
    ensures FromPartner(s, ev, n)
  {
    if ev.Received? {
      var c, m := ev.from, ev.msg;
      if m.id == MESSAGE_ALL {
        BroadcastKind(s, |s.roster|, c, NumberMessage(SERVER_MESSAGE, s.ids[c]), n - |s.sent|);
      } else if m.id == REQUEST_TO_CLIENT {
        RequestReaches(s, ev, n);
      } else if s.ids[c] in s.pairs {
        FoundIff(s, s.pairs[s.ids[c]]);
      }
    }
  }

  lemma RequestReaches(s: ServerState, ev: Event, n: nat)
    requires Inv(s) && CanHappen(s, ev) && |s.sent| <= n < |Step(s, ev).0.sent|
    requires ev.Received? && ev.msg.id == REQUEST_TO_CLIENT
    ensures FromPartner(s, ev, n)
  {
    if 4 <= |ev.msg.body| {
      RequestOutcome(s, ev.from, ev.msg);
      hide Hits, HasMember, TopNumber, NumberMessage;
    }
  }
}
