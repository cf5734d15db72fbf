/**
 Two-way entries as conversations: the map of partners refines a set of disjoint pairs, and the
 two map operations refine adding and removing one pair.
 */
module Matchings {
  import opened Bytes
  import opened Server

  /** A fixed-point-free involution. */
  predicate Matching(pairs: map<u32, u32>) {
    forall a :: a in pairs ==> pairs[a] in pairs && pairs[a] != a && pairs[pairs[a]] == a
  }

  lemma ConnectKeepsMatching(pairs: map<u32, u32>, a: u32, b: u32)
    requires Matching(pairs)
    ensures Matching(Connect(pairs, a, b))
  {
    if CanConnect(pairs, a, b) {
      var after := Connect(pairs, a, b);
      forall c | c in after ensures after[c] in after && after[c] != c && after[after[c]] == c {
        if c != a && c != b {
          assert c in pairs && pairs[c] in pairs && pairs[pairs[c]] == c;
        }
      }
    }
  }

  lemma DisconnectKeepsMatching(pairs: map<u32, u32>, a: u32)
    requires Matching(pairs) && a in pairs
    ensures CanDisconnect(pairs, a, pairs[a]) && CanDisconnect(pairs, pairs[a], a)
    ensures Matching(Disconnect(pairs, a, pairs[a]))
    ensures Disconnect(pairs, pairs[a], a) == Disconnect(pairs, a, pairs[a])
  {
  }

  /** The conversations as a set of unordered pairs. */
  function Conversations(pairs: map<u32, u32>): set<set<u32>> {
    set a | a in pairs :: {a, pairs[a]}
  }

  /** Conversations have two members each and share none. */
  lemma ConversationsDisjoint(pairs: map<u32, u32>, p: set<u32>, q: set<u32>)
    requires Matching(pairs) && p in Conversations(pairs) && q in Conversations(pairs)
    ensures |p| == 2 && (p == q || p !! q)
  {
    var a :| a in pairs && p == {a, pairs[a]};
    var b :| b in pairs && q == {b, pairs[b]};
    assert p == {a} + {pairs[a]};
  }

  lemma ConversationsConnect(pairs: map<u32, u32>, a: u32, b: u32)
    requires Matching(pairs) && CanConnect(pairs, a, b)
    ensures Conversations(Connect(pairs, a, b)) == Conversations(pairs) + {{a, b}}
    ensures {a, b} !in Conversations(pairs)
  {
    var after := Connect(pairs, a, b);
    assert {a, after[a]} == {b, after[b]} == {a, b};
    forall c | c in pairs ensures {c, after[c]} == {c, pairs[c]} {
    }
    forall p | p in Conversations(after) ensures p in Conversations(pairs) + {{a, b}} {
      var c :| c in after && p == {c, after[c]};
    }
    forall p | p in Conversations(pairs) + {{a, b}} ensures p in Conversations(after) {
      if p == {a, b} {
        assert a in after;
      } else {
        var c :| c in pairs && p == {c, pairs[c]};
        assert c in after;
      }
    }
    forall p | p in Conversations(pairs) ensures p != {a, b} {
      var c :| c in pairs && p == {c, pairs[c]};
      assert c in p && c !in {a, b};
    }
  }

  lemma ConversationsDisconnect(pairs: map<u32, u32>, a: u32)
    requires Matching(pairs) && a in pairs
    ensures Conversations(Disconnect(pairs, a, pairs[a])) == Conversations(pairs) - {{a, pairs[a]}}
  {
    var b := pairs[a];
    var after := Disconnect(pairs, a, b);
    forall p | p in Conversations(after) ensures p in Conversations(pairs) - {{a, b}} {
      var c :| c in after && p == {c, after[c]};
      assert c in pairs && c in p && c !in {a, b};
    }
    forall p | p in Conversations(pairs) - {{a, b}} ensures p in Conversations(after) {
      var c :| c in pairs && p == {c, pairs[c]};
      assert c != b by {
        assert {b, pairs[b]} == {a, b};
      }
      assert c in after && after[c] == pairs[c];
    }
  }

  lemma InConversation(pairs: map<u32, u32>, a: u32)
    requires a in pairs
    ensures {a, pairs[a]} in Conversations(pairs)
  {
  }

  /** Every conversation takes exactly two entries of the map. */
  lemma {:induction false} TwoEntriesEach(pairs: map<u32, u32>)
    requires Matching(pairs)
    ensures |pairs| == 2 * |Conversations(pairs)|
    decreases |pairs|
  {
    if pairs != map[] {
      var a :| a in pairs;
      var b := pairs[a];
      var rest := Disconnect(pairs, a, b);
      hide Conversations;
      DisconnectKeepsMatching(pairs, a);
      ConversationsDisconnect(pairs, a);
      InConversation(pairs, a);
      assert rest.Keys == pairs.Keys - {a, b} && |{a, b}| == 2 by { assert {a, b} == {a} + {b}; }
      assert |pairs.Keys| == |rest.Keys| + |{a, b}| by { assert pairs.Keys == rest.Keys + {a, b}; }
      TwoEntriesEach(rest);
    } else {
      assert Conversations(pairs) == {};
    }
  }
}
