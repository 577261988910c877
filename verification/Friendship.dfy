/**
 Runs without crossing: a pair of nodes has at most one link that is not over.
 Then the friends of a node and the entries of `clientEndpoints` are in
 one-to-one correspondence, in every state.
 */
module Friendship {
  import opened Endpoints
  import opened Protocol
  import opened Network
  import opened Wiring
  import opened Honesty
  import opened Handshake

  ghost predicate OneLinkPerPair(w: Net) {
    forall r, s |
      && r in w.links && s in w.links
      && !Over(w.links[r]) && !Over(w.links[s])
      && Between(w.links[r], w.links[s].initiator, w.links[s].acceptor)
      :: r == s
  }

  /** Distinct friends, distinct values, and the same endpoints in both. */
  ghost predicate Matched(n: Node) {
    && NoDuplicates(n.friendList)
    && (forall f :: f in n.friendList <==> f in n.clientEndpoints.Values)
    && (forall e, e' | e in n.clientEndpoints && e' in n.clientEndpoints ::
          n.clientEndpoints[e] == n.clientEndpoints[e'] ==> e == e')
  }

  ghost predicate Faithful(w: Net) {
    && Orderly(w)
    && OneLinkPerPair(w)
    && forall i :: i in w.nodes ==> Matched(w.nodes[i])
  }

  // ----- One step at its node -----

  /** `e` is the only key that can stand for `peer`. */
  ghost predicate OnlyKey(n: Node, e: Endpoint, peer: Endpoint) {
    forall k :: k in n.clientEndpoints && n.clientEndpoints[k] == peer ==> k == e
  }

  /** A step befriends a stranger, drops a friend with its entry, or changes neither. */
  ghost predicate Exchange(n: Node, n': Node, e: Endpoint, peer: Endpoint) {
    || (n'.friendList == n.friendList && n'.clientEndpoints == n.clientEndpoints)
    || (&& e !in n.clientEndpoints && peer !in n.friendList
        && n'.friendList == n.friendList + [peer] && n'.clientEndpoints == n.clientEndpoints[e := peer])
    || (&& e in n.clientEndpoints && n.clientEndpoints[e] == peer
        && n'.friendList == Without(n.friendList, peer) && n'.clientEndpoints == n.clientEndpoints - {e})
  }

  lemma {:induction false} WithoutStranger(s: seq<Endpoint>, x: Endpoint)
    requires x !in s
    ensures Without(s, x) == s
  {
    if s != [] {
      assert s[0] in s;
      assert x !in s[1..];
      WithoutStranger(s[1..], x);
      assert s == [s[0]] + s[1..];
    }
  }

  lemma StrangersAreNoFriends(n: Node, e: Endpoint, peer: Endpoint)
    requires Matched(n) && OnlyKey(n, e, peer) && e !in n.clientEndpoints
    ensures peer !in n.friendList
  {
  }

  lemma ActExchanges(n: Node, ev: Event, l: Link, i: Port, ports: set<Port>)
    requires OnLink(ev) && Permitted(n, ev) && Act(n, ev).Turn?
    requires Believable(n, ev, l, i, ports)
    requires Matched(n) && OnlyKey(n, ev.key, At(PeerOf(l, i)))
    requires ev.Hear? && ev.message.Yes? ==> ev.key !in n.clientEndpoints
    ensures Exchange(n, Act(n, ev).node, ev.key, At(PeerOf(l, i)))
  {
    var peer := At(PeerOf(l, i));
    if ev.key !in n.clientEndpoints {
      StrangersAreNoFriends(n, ev.key, peer);
      WithoutStranger(n.friendList, peer);
      assert n.clientEndpoints - {ev.key} == n.clientEndpoints;
    } else {
      assert n.clientEndpoints[ev.key] in n.clientEndpoints.Values;
    }
  }

  lemma ExchangeKeepsMatched(n: Node, n': Node, e: Endpoint, peer: Endpoint)
    requires Matched(n) && OnlyKey(n, e, peer) && Exchange(n, n', e, peer)
    ensures Matched(n')
  {
    if e in n.clientEndpoints {
      WithoutKeepsDistinct(n.friendList, peer);
    }
    forall f ensures f in n'.friendList <==> f in n'.clientEndpoints.Values {
      if f in n'.friendList && f in n.friendList {
        var k :| k in n.clientEndpoints && n.clientEndpoints[k] == f;
        assert k in n'.clientEndpoints || f == peer;
        if k in n'.clientEndpoints { assert n'.clientEndpoints[k] == f; }
      }
      if f == peer && e in n'.clientEndpoints { assert n'.clientEndpoints[e] in n'.clientEndpoints.Values; }
    }
  }

  // ----- One step in the network -----

  lemma KeysOfOnePeer(w: Net, i: Port, e: Endpoint, e': Endpoint)
    requires Honest(w) && OneLinkPerPair(w) && i in w.nodes
    requires e in w.nodes[i].connections && e' in w.nodes[i].connections
    requires PeerOf(w.links[w.nodes[i].connections[e]], i) == PeerOf(w.links[w.nodes[i].connections[e']], i)
    ensures e == e'
  {
    assert NodeWired(w, i);
    var r, s := w.nodes[i].connections[e], w.nodes[i].connections[e'];
    assert !Over(w.links[r]) && !Over(w.links[s]);
    assert Between(w.links[r], w.links[s].initiator, w.links[s].acceptor);
    KeysDiffer(w, i, e, e');
  }

  lemma PeersHaveOneKey(w: Net, i: Port, e: Endpoint)
    requires Honest(w) && OneLinkPerPair(w) && i in w.nodes && e in w.nodes[i].connections
    ensures w.nodes[i].connections[e] in w.links
    ensures OnlyKey(w.nodes[i], e, At(PeerOf(w.links[w.nodes[i].connections[e]], i)))
  {
    assert NodeWired(w, i) && NodeHonest(w, i);
    var n := w.nodes[i];
    forall k | k in n.clientEndpoints && n.clientEndpoints[k] == At(PeerOf(w.links[n.connections[e]], i))
      ensures k == e
    {
      KeysOfOnePeer(w, i, k, e);
    }
  }

  /** A `Yes` finds the link untracked. */
  lemma YesFindsStrangers(w: Net, i: Port, ev: Event)
    requires Orderly(w) && Possible(w, i, ev) && ev.Hear? && ev.message.Yes?
    ensures ev.key !in w.nodes[i].clientEndpoints
  {
    assert NodeWired(w, i);
    TracksByKey(w, i, ev.key);
    var s := w.nodes[i].connections[ev.key];
    assert ev.message in Incoming(w.links[s], i);
    assert LinkInPhase(w, s) && LinkHonest(w.nodes.Keys, w.links[s]);
    assert Legit(w.nodes.Keys, w.links[s], PeerOf(w.links[s], i), Yes);
  }

  lemma OnLinkExchanges(w: Net, i: Port, ev: Event)
    requires Faithful(w) && Possible(w, i, ev) && OnLink(ev)
    ensures var s := w.nodes[i].connections[ev.key];
            && s in w.links
            && OnlyKey(w.nodes[i], ev.key, At(PeerOf(w.links[s], i)))
            && Exchange(w.nodes[i], After(w, i, ev).nodes[i], ev.key, At(PeerOf(w.links[s], i)))
  {
    EventBelievable(w, i, ev);
    PeersHaveOneKey(w, i, ev.key);
    if ev.Hear? && ev.message.Yes? {
      YesFindsStrangers(w, i, ev);
    }
    ActExchanges(w.nodes[i], ev, w.links[w.nodes[i].connections[ev.key]], i, w.nodes.Keys);
  }

  lemma OtherStepsKeepFriends(n: Node, ev: Event)
    requires Permitted(n, ev) && !OnLink(ev)
    ensures Act(n, ev).Turn?
    ensures Act(n, ev).node.friendList == n.friendList && Act(n, ev).node.clientEndpoints == n.clientEndpoints
  {
  }

  lemma StepKeepsMatched(w: Net, i: Port, ev: Event)
    requires Faithful(w) && Possible(w, i, ev)
    ensures Matched(Act(w.nodes[i], ev).node)
  {
    var n, n' := w.nodes[i], Act(w.nodes[i], ev).node;
    if OnLink(ev) {
      OnLinkExchanges(w, i, ev);
      ExchangeKeepsMatched(n, n', ev.key, At(PeerOf(w.links[n.connections[ev.key]], i)));
    } else {
      OtherStepsKeepFriends(n, ev);
    }
  }

  /** Links keep their ends for ever, and once over they stay over. */
  ghost predicate Persists(l: Link, l': Link) {
    && l'.initiator == l.initiator && l'.acceptor == l.acceptor
    && (Over(l) ==> Over(l'))
  }

  lemma LinksPersist(w: Net, i: Port, ev: Event, r: Port)
    requires Honest(w) && Possible(w, i, ev) && r in w.links
    ensures r in After(w, i, ev).links && Persists(w.links[r], After(w, i, ev).links[r])
  {
    if OnLink(ev) {
      OnLinkMoves(w, i, ev);
      assert NodeWired(w, i);
    } else {
      OtherStepsDisturbNobody(w, i, ev, r);
    }
  }

  lemma StepKeepsOneLinkPerPair(w: Net, i: Port, ev: Event)
    requires Honest(w) && OneLinkPerPair(w) && Possible(w, i, ev) && NoCrossing(w, i, ev)
    ensures OneLinkPerPair(After(w, i, ev))
  {
    var w' := After(w, i, ev);
    forall r, s |
      && r in w'.links && s in w'.links
      && !Over(w'.links[r]) && !Over(w'.links[s])
      && Between(w'.links[r], w'.links[s].initiator, w'.links[s].acceptor)
      ensures r == s
    {
      if r in w.links { LinksPersist(w, i, ev, r); }
      if s in w.links { LinksPersist(w, i, ev, s); }
      if r !in w.links {
        NewLinksAreDialled(w, i, ev, r);
        DialGrows(w, i, ev);
      }
      if s !in w.links {
        NewLinksAreDialled(w, i, ev, s);
        DialGrows(w, i, ev);
      }
    }
  }

  /** A second link between two nodes is what `OneLinkPerPair` forbids. */
  lemma CrossingBreaksPairs(w: Net, i: Port, ev: Event)
    requires Honest(w) && Possible(w, i, ev) && !NoCrossing(w, i, ev)
    ensures !OneLinkPerPair(After(w, i, ev))
  {
    var w', r: Port, j := After(w, i, ev), w.nodes[i].port + 1, w.nodes[i].pendingEndpoints[0].port;
    DialGrows(w, i, ev);
    var s :| s in w.links && Between(w.links[s], i, j) && !Over(w.links[s]);
    assert w'.links[s] == w.links[s] && !Over(w'.links[r]);
    assert Between(w'.links[r], w'.links[s].initiator, w'.links[s].acceptor);
  }

  lemma StepKeepsFaithful(w: Net, i: Port, ev: Event)
    requires Faithful(w) && Possible(w, i, ev) && NoCrossing(w, i, ev)
    ensures Faithful(After(w, i, ev))
  {
    StepKeepsOrderly(w, i, ev);
    StepKeepsOneLinkPerPair(w, i, ev);
    StepKeepsMatched(w, i, ev);
    StepKeepsHonest(w, i, ev);
  }

  // ----- Every run -----

  lemma {:induction false} RunKeepsFaithful(regime: Regime, w: Net, steps: seq<Step>, last: Net)
    requires regime.uncrossed && Faithful(w) && Leads(regime, w, steps, last)
    ensures Faithful(last)
    decreases |steps|
  {
    if steps != [] {
      StepKeepsFaithful(w, steps[0].actor, steps[0].event);
      RunKeepsFaithful(regime, After(w, steps[0].actor, steps[0].event), steps[1..], last);
    }
  }

  lemma StartIsFaithful(w: Net)
    requires Start(w)
    ensures Faithful(w)
  {
    StartIsOrderly(w);
  }

  lemma ReachableIsFaithful(regime: Regime, w: Net)
    requires regime.uncrossed && Reachable(regime, w)
    ensures Faithful(w)
  {
    hide Start, Leads, Orderly, Faithful;
    var w0, steps :| Start(w0) && Leads(regime, w0, steps, w);
    StartIsFaithful(w0);
    RunKeepsFaithful(regime, w0, steps, w);
  }
}
