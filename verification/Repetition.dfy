/**
 How often a friend can be in a list when requests may cross: in every run, at
 most as often as it has entries, at most twice, and twice only for as long as
 the connection to its own listening endpoint is tracked.
 */
module Repetition {
  import opened Endpoints
  import opened Protocol
  import opened Network
  import opened Wiring
  import opened Honesty
  import opened Handshake
  import opened Friendship

  function Occurrences(s: seq<Endpoint>, f: Endpoint): nat {
    multiset(s)[f]
  }

  /** The keys under which a node has an entry for `f`. */
  ghost function KeysFor(n: Node, f: Endpoint): set<Endpoint> {
    set e | e in n.clientEndpoints && n.clientEndpoints[e] == f
  }

  ghost predicate FriendCounted(n: Node, f: Endpoint) {
    && Occurrences(n.friendList, f) <= |KeysFor(n, f)|
    && Occurrences(n.friendList, f) <= 2
    && (Occurrences(n.friendList, f) == 2 ==> f in n.clientEndpoints)
  }

  ghost predicate Counted(n: Node) {
    forall f :: FriendCounted(n, f)
  }

  // ----- Sequences -----

  lemma OccursInSnoc(s: seq<Endpoint>, x: Endpoint, f: Endpoint)
    ensures Occurrences(s + [x], f) == Occurrences(s, f) + if f == x then 1 else 0
  {
  }

  lemma OccursIfIn(s: seq<Endpoint>, f: Endpoint)
    ensures Occurrences(s, f) > 0 <==> f in s
  {
    assert f in multiset(s) <==> f in s;
  }

  lemma {:induction false} OccursInWithout(s: seq<Endpoint>, x: Endpoint, f: Endpoint)
    ensures Occurrences(Without(s, x), f) == if f == x then 0 else Occurrences(s, f)
  {
    if s != [] {
      OccursInWithout(s[1..], x, f);
      assert s == [s[0]] + s[1..];
      assert Occurrences(s, f) == Occurrences(s[1..], f) + if f == s[0] then 1 else 0;
    }
  }

  // ----- One step at its node -----

  /** The three ways in which a step changes friends and entries, with what it takes for each. */
  ghost predicate Recounts(n: Node, n': Node, e: Endpoint, peer: Endpoint) {
    || (n'.friendList == n.friendList && n'.clientEndpoints == n.clientEndpoints)
    || (&& n'.friendList == n.friendList + [peer] && n'.clientEndpoints == n.clientEndpoints[e := peer]
        && ((e == peer && e !in n.clientEndpoints) || peer !in n.friendList))
    || (&& n'.clientEndpoints == n.clientEndpoints - {e}
        && (n'.friendList == Without(n.friendList, peer)
            || (n'.friendList == n.friendList && (e in n.clientEndpoints ==> peer !in n.friendList))))
  }

  lemma ActRecounts(n: Node, ev: Event, l: Link, i: Port, ports: set<Port>)
    requires OnLink(ev) && Permitted(n, ev) && Act(n, ev).Turn? && Believable(n, ev, l, i, ports)
    requires ev.Hear? && ev.message.Yes? ==> ev.key !in n.clientEndpoints
    ensures Recounts(n, Act(n, ev).node, ev.key, At(PeerOf(l, i)))
  {
  }

  lemma KeysAfterInsert(n: Node, n': Node, e: Endpoint, peer: Endpoint, f: Endpoint)
    requires n'.clientEndpoints == n.clientEndpoints[e := peer]
    requires e in n.clientEndpoints ==> n.clientEndpoints[e] == peer
    ensures |KeysFor(n', f)| == |KeysFor(n, f)| + if f == peer && e !in n.clientEndpoints then 1 else 0
  {
    if f == peer {
      assert KeysFor(n', f) == KeysFor(n, f) + {e};
    } else {
      assert KeysFor(n', f) == KeysFor(n, f);
    }
  }

  lemma KeysAfterErase(n: Node, n': Node, e: Endpoint, peer: Endpoint, f: Endpoint)
    requires n'.clientEndpoints == n.clientEndpoints - {e}
    requires e in n.clientEndpoints ==> n.clientEndpoints[e] == peer
    ensures f != peer ==> KeysFor(n', f) == KeysFor(n, f)
    ensures e !in n.clientEndpoints ==> n'.clientEndpoints == n.clientEndpoints && KeysFor(n', f) == KeysFor(n, f)
  {
    if e !in n.clientEndpoints {
      assert n'.clientEndpoints == n.clientEndpoints;
    }
  }

  lemma AddingKeepsCounted(n: Node, n': Node, e: Endpoint, peer: Endpoint, f: Endpoint)
    requires FriendCounted(n, f) && (e in n.clientEndpoints ==> n.clientEndpoints[e] == peer)
    requires n'.friendList == n.friendList + [peer] && n'.clientEndpoints == n.clientEndpoints[e := peer]
    requires (e == peer && e !in n.clientEndpoints) || peer !in n.friendList
    ensures FriendCounted(n', f)
  {
    OccursInSnoc(n.friendList, peer, f);
    OccursIfIn(n.friendList, f);
    KeysAfterInsert(n, n', e, peer, f);
    if f == peer && e in n.clientEndpoints {
      assert e in KeysFor(n, f);
    }
  }

  /** An entry under the own key of a friend is one for that friend. */
  ghost predicate OwnKeysNameThemselves(n: Node, f: Endpoint) {
    f in n.clientEndpoints && f in n.friendList ==> n.clientEndpoints[f] == f
  }

  lemma LosingKeepsCounted(n: Node, n': Node, e: Endpoint, peer: Endpoint, f: Endpoint)
    requires FriendCounted(n, f) && OwnKeysNameThemselves(n, f)
    requires e in n.clientEndpoints ==> n.clientEndpoints[e] == peer
    requires n'.clientEndpoints == n.clientEndpoints - {e}
    requires n'.friendList == Without(n.friendList, peer)
             || (n'.friendList == n.friendList && (e in n.clientEndpoints ==> peer !in n.friendList))
    ensures FriendCounted(n', f)
  {
    OccursInWithout(n.friendList, peer, f);
    OccursIfIn(n.friendList, f);
    KeysAfterErase(n, n', e, peer, f);
  }

  lemma RecountsKeepsCounted(n: Node, n': Node, e: Endpoint, peer: Endpoint)
    requires Counted(n) && Recounts(n, n', e, peer)
    requires e in n.clientEndpoints ==> n.clientEndpoints[e] == peer
    requires forall f :: OwnKeysNameThemselves(n, f)
    ensures Counted(n')
  {
    forall f ensures FriendCounted(n', f) {
      assert FriendCounted(n, f) && OwnKeysNameThemselves(n, f);
      if n'.friendList == n.friendList && n'.clientEndpoints == n.clientEndpoints {
        assert KeysFor(n', f) == KeysFor(n, f);
      } else if |n'.friendList| > |n.friendList| {
        AddingKeepsCounted(n, n', e, peer, f);
      } else {
        LosingKeepsCounted(n, n', e, peer, f);
      }
    }
  }

  // ----- One step in the network -----

  lemma OwnKeys(w: Net, i: Port, f: Endpoint)
    requires Honest(w) && i in w.nodes
    ensures OwnKeysNameThemselves(w.nodes[i], f)
  {
    var n := w.nodes[i];
    assert NodeWired(w, i) && NodeHonest(w, i);
    if f in n.clientEndpoints && f in n.friendList {
      FriendsAreReal(w, i);
      assert Real(w.nodes.Keys, f);
      var s := n.connections[f];
      assert LinkWired(w, s);
    }
  }

  lemma StepKeepsCounted(w: Net, i: Port, ev: Event)
    requires Orderly(w) && Possible(w, i, ev) && Counted(w.nodes[i])
    ensures Counted(Act(w.nodes[i], ev).node)
  {
    var n, n' := w.nodes[i], Act(w.nodes[i], ev).node;
    hide Counted;
    if OnLink(ev) {
      EventBelievable(w, i, ev);
      if ev.Hear? && ev.message.Yes? { YesFindsStrangers(w, i, ev); }
      var l := w.links[n.connections[ev.key]];
      ActRecounts(n, ev, l, i, w.nodes.Keys);
      forall f ensures OwnKeysNameThemselves(n, f) { OwnKeys(w, i, f); }
      RecountsKeepsCounted(n, n', ev.key, At(PeerOf(l, i)));
    } else {
      OtherStepsKeepFriends(n, ev);
      SameListsSameCounts(n, n');
    }
  }

  lemma SameListsSameCounts(n: Node, n': Node)
    requires Counted(n) && n'.friendList == n.friendList && n'.clientEndpoints == n.clientEndpoints
    ensures Counted(n')
  {
    forall f ensures FriendCounted(n', f) {
      assert FriendCounted(n, f) && KeysFor(n', f) == KeysFor(n, f);
    }
  }

  // ----- Every run -----

  ghost predicate AllCounted(w: Net) {
    forall i :: i in w.nodes ==> Counted(w.nodes[i])
  }

  lemma {:induction false} RunKeepsCounted(regime: Regime, w: Net, steps: seq<Step>, last: Net)
    requires Orderly(w) && AllCounted(w) && Leads(regime, w, steps, last)
    ensures AllCounted(last)
    decreases |steps|
  {
    hide Orderly, Counted;
    if steps != [] {
      var w1 := After(w, steps[0].actor, steps[0].event);
      StepKeepsOrderly(w, steps[0].actor, steps[0].event);
      StepKeepsCounted(w, steps[0].actor, steps[0].event);
      RunKeepsCounted(regime, w1, steps[1..], last);
    }
  }

  lemma StartIsCounted(w: Net)
    requires Start(w)
    ensures AllCounted(w)
  {
  }

  /** In any run, crossing or not: no friend more often than it has entries, nor more than twice. */
  lemma FriendsAtMostTwice(regime: Regime, w: Net, i: Port, f: Endpoint)
    requires Reachable(regime, w) && i in w.nodes
    ensures Occurrences(w.nodes[i].friendList, f) <= |KeysFor(w.nodes[i], f)|
    ensures Occurrences(w.nodes[i].friendList, f) <= 2
    ensures Occurrences(w.nodes[i].friendList, f) == 2 ==> f in w.nodes[i].clientEndpoints
  {
    var w0, steps :| Start(w0) && Leads(regime, w0, steps, w);
    StartIsOrderly(w0);
    StartIsCounted(w0);
    RunKeepsCounted(regime, w0, steps, w);
    assert FriendCounted(w.nodes[i], f);
  }
}
