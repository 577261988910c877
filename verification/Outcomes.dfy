/**
 What the invariants mean for the nodes: where endpoints come from, which
 connections friends have, how client ports name connections, and what a full
 node does when it drops a friend.
 */
module Outcomes {
  import opened Endpoints
  import opened Protocol
  import opened Network
  import opened Wiring
  import opened Honesty
  import opened Handshake
  import opened Friendship
  import opened Accounting

  // ----- Any run of honest nodes, crossing included -----

  /** Endpoints are listening endpoints of nodes of the network, and nobody befriends itself. */
  lemma Provenance(w: Net, i: Port)
    requires Reachable(Free, w) && i in w.nodes
    ensures AllReal(w.nodes.Keys, w.nodes[i].pendingEndpoints)
    ensures AllReal(w.nodes.Keys, w.nodes[i].friendList) && At(i) !in w.nodes[i].friendList
    ensures forall e :: e in w.nodes[i].clientEndpoints ==>
              Real(w.nodes.Keys, w.nodes[i].clientEndpoints[e]) && w.nodes[i].clientEndpoints[e] != At(i)
  {
    ReachableIsOrderly(Free, w);
    assert NodeWired(w, i) && NodeHonest(w, i);
    FriendsAreReal(w, i);
    forall e | e in w.nodes[i].clientEndpoints
      ensures Real(w.nodes.Keys, w.nodes[i].clientEndpoints[e]) && w.nodes[i].clientEndpoints[e] != At(i)
    {
      assert LinkWired(w, w.nodes[i].connections[e]);
    }
  }

  lemma ListsUnderwayAreReal(w: Net, s: Port, list: seq<Endpoint>)
    requires Reachable(Free, w) && s in w.links
    requires Friends(list) in w.links[s].toInitiator || Friends(list) in w.links[s].toAcceptor
    ensures AllReal(w.nodes.Keys, list)
  {
    hide Reachable;
    ReachableIsOrderly(Free, w);
    assert LinkHonest(w.nodes.Keys, w.links[s]);
  }

  /** A friend can always be asked: some live connection is tracked as its own. */
  lemma EveryFriendHasAConnection(w: Net, i: Port, f: Endpoint)
    requires Reachable(Free, w) && i in w.nodes && f in w.nodes[i].friendList
    ensures exists e :: e in w.nodes[i].connections && e in w.nodes[i].clientEndpoints
                        && w.nodes[i].clientEndpoints[e] == f
  {
    ReachableIsOrderly(Free, w);
    assert NodeWired(w, i) && NodeHonest(w, i);
    var e :| e in w.nodes[i].clientEndpoints && w.nodes[i].clientEndpoints[e] == f;
    assert e in w.nodes[i].connections;
  }

  /** An entry of `clientEndpoints` is the peer at the other end of its own connection. */
  lemma EntriesNameTheirPeers(w: Net, i: Port, e: Endpoint)
    requires Reachable(Free, w) && i in w.nodes && e in w.nodes[i].clientEndpoints
    ensures e in w.nodes[i].connections && w.nodes[i].connections[e] in w.links
    ensures var l := w.links[w.nodes[i].connections[e]];
            Joins(l, i) && EndOf(l, i).Live? && w.nodes[i].clientEndpoints[e] == At(PeerOf(l, i)) != At(i)
  {
    ReachableIsOrderly(Free, w);
    assert NodeWired(w, i) && NodeHonest(w, i);
    assert LinkWired(w, w.nodes[i].connections[e]);
  }

  lemma FriendsWithinLimit(w: Net, i: Port)
    requires Reachable(Free, w) && i in w.nodes
    ensures |w.nodes[i].friendList| <= 6
  {
    ReachableIsOrderly(Free, w);
    assert NodeWired(w, i);
  }

  /** No step of a reachable network looks up a key that is not there. */
  lemma NobodyThrows(w: Net, i: Port, ev: Event)
    requires Reachable(Free, w) && Enabled(w, i, ev)
    ensures Act(w.nodes[i], ev).Turn?
  {
    ReachableIsOrderly(Free, w);
    NeverThrows(w, i, ev);
  }

  // ----- Client ports -----

  /** The client ports of a node are its listening port plus 1, 2, 3, … */
  lemma ClientPortsInOrder(w: Net, i: Port)
    requires Reachable(Free, w) && i in w.nodes
    ensures forall s: Port :: (s in w.links && w.links[s].initiator == i) <==> i < s <= w.nodes[i].port
  {
    ReachableIsOrderly(Free, w);
    assert PortsInOrder(w, i);
  }

  lemma OneOutgoingPerTarget(w: Net, r: Port, s: Port)
    requires Reachable(Free, w) && r in w.links && s in w.links
    requires w.links[r].initiator == w.links[s].initiator && w.links[r].acceptor == w.links[s].acceptor
    requires w.links[r].initiatorEnd.Live? && w.links[s].initiatorEnd.Live?
    ensures r == s
  {
    ReachableIsOrderly(Free, w);
    assert LinkWired(w, r) && LinkWired(w, s);
    assert EndWired(w, r, w.links[r].initiator) && EndWired(w, s, w.links[s].initiator);
  }

  /** A client port names one connection for ever. */
  lemma {:induction false} PortsNameOneLink(regime: Regime, w: Net, steps: seq<Step>, last: Net, s: Port)
    requires Orderly(w) && Leads(regime, w, steps, last) && s in w.links
    ensures s in last.links && Persists(w.links[s], last.links[s])
    decreases |steps|
  {
    if steps != [] {
      StepKeepsOrderly(w, steps[0].actor, steps[0].event);
      LinksPersist(w, steps[0].actor, steps[0].event, s);
      PortsNameOneLink(regime, After(w, steps[0].actor, steps[0].event), steps[1..], last, s);
    }
  }

  // ----- A full node -----

  lemma FriendsMatchEntries(w: Net, i: Port)
    requires Reachable(Uncrossed, w) && i in w.nodes
    ensures NoDuplicates(w.nodes[i].friendList)
    ensures |w.nodes[i].friendList| == |w.nodes[i].clientEndpoints|
    ensures Elements(w.nodes[i].friendList) == w.nodes[i].clientEndpoints.Values
  {
    ReachableIsFaithful(Uncrossed, w);
    assert Matched(w.nodes[i]);
    OneEntryPerFriend(w.nodes[i]);
  }

  /** One friend, one entry and one connection less, and the friend is told. */
  ghost predicate LosesOne(n: Node, t: Turn, key: Endpoint)
    requires key in n.clientEndpoints && key in n.connections
  {
    && t.Turn?
    && |t.node.friendList| == |n.friendList| - 1
    && |t.node.clientEndpoints| == |n.clientEndpoints| - 1
    && |t.node.connections| == |n.connections| - 1
    && Elements(t.node.friendList) == Elements(n.friendList) - {n.clientEndpoints[key]}
    && t.node.clientEndpoints == n.clientEndpoints - {key}
    && t.node.connections == n.connections - {key}
    && t.effects == [Sent(n.connections[key], Removed(n.endpoint.port)), Closed(n.connections[key])]
  }

  lemma MatchedDropLosesOne(n: Node, key: Endpoint)
    requires Matched(n) && key in n.clientEndpoints && key in n.connections
    ensures LosesOne(n, Act(n, Drop(key)), key)
  {
    assert n.clientEndpoints[key] in n.clientEndpoints.Values;
    WithoutKeepsDistinct(n.friendList, n.clientEndpoints[key]);
    assert (n.clientEndpoints - {key}).Keys == n.clientEndpoints.Keys - {key};
    assert (n.connections - {key}).Keys == n.connections.Keys - {key};
  }

  /** Dropping a friend costs one friend, one entry and one connection. */
  lemma DropCostsOne(w: Net, i: Port, key: Endpoint)
    requires Reachable(Uncrossed, w) && i in w.nodes && key in w.nodes[i].clientEndpoints
    ensures key in w.nodes[i].connections && LosesOne(w.nodes[i], Act(w.nodes[i], Drop(key)), key)
  {
    ReachableIsFaithful(Uncrossed, w);
    assert NodeWired(w, i) && Matched(w.nodes[i]);
    MatchedDropLosesOne(w.nodes[i], key);
  }

  /** From six friends to five, so that the next stranger who asks is told `Yes`; before, it was told `No`. */
  lemma FullNodeMakesRoom(w: Net, i: Port, key: Endpoint, asker: Endpoint, p: Port)
    requires Reachable(Uncrossed, w) && i in w.nodes && key in w.nodes[i].clientEndpoints
    requires |w.nodes[i].friendList| == 6
    requires asker in w.nodes[i].connections && asker != key
    requires Endpoint(asker.address, p) !in w.nodes[i].clientEndpoints.Values
    ensures var n := w.nodes[i];
            && Act(n, Hear(asker, BeFriends(p))) == Turn(n, [Sent(n.connections[asker], No)])
            && Act(n, Drop(key)).Turn?
            && var n' := Act(n, Drop(key)).node;
               && |n'.friendList| == 5
               && asker in n'.connections
               && Act(n', Hear(asker, BeFriends(p))) == Turn(n', [Sent(n.connections[asker], Yes)])
  {
    DropCostsOne(w, i, key);
    var n, n' := w.nodes[i], Act(w.nodes[i], Drop(key)).node;
    assert forall v :: v in n'.clientEndpoints.Values ==> v in n.clientEndpoints.Values;
  }

  /** Without crossing, `Yes` is said exactly to a node that is not a friend, and only when there is room. */
  lemma YesIsForStrangers(w: Net, i: Port, key: Endpoint, p: Port)
    requires Reachable(Uncrossed, w) && Enabled(w, i, Hear(key, BeFriends(p)))
    ensures var n := w.nodes[i];
            && Act(n, Hear(key, BeFriends(p))).effects ==
                 [Sent(n.connections[key],
                       if |n.friendList| < 6 && At(p) !in n.friendList then Yes else No)]
  {
    ReachableIsFaithful(Uncrossed, w);
    assert NodeWired(w, i) && Matched(w.nodes[i]);
    assert key.address == LOCALHOST;
  }

  /**
   In the network no request is held back by the test that compares the port
   counter with the port of the first node: that port cannot be bound.
   */
  lemma DialsAskWhenThereIsRoom(w: Net, i: Port, ev: Event)
    requires Reachable(Free, w) && Enabled(w, i, ev) && Binds(w.nodes[i], ev)
    ensures var n := w.nodes[i];
            var s := n.port + 1;
            && 0 <= s < 0x1_0000
            && Act(n, ev).Turn?
            && Act(n, ev).effects ==
                 [Dialed(s, n.pendingEndpoints[0])] +
                 if |n.friendList| < 6 then [Sent(s, BeFriends(i))] else []
  {
    ReachableIsOrderly(Free, w);
    TakesOwnNextPort(w, i, ev);
    var n := w.nodes[i];
    ActDials(n, ev, i, n.pendingEndpoints[0].port, n.port + 1);
  }
}
