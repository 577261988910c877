/**
 What nodes that follow the protocol know about each other in every run,
 crossing requests included: whom a key stands for, where endpoints come from,
 and that every friend has a tracked connection.
 */
module Honesty {
  import opened Endpoints
  import opened Protocol
  import opened Network
  import opened Wiring

  /** `ep` is the listening endpoint of one of `ports`. */
  predicate Real(ports: set<Port>, ep: Endpoint) {
    ep.address == LOCALHOST && ep.port in ports
  }

  ghost predicate AllReal(ports: set<Port>, eps: seq<Endpoint>) {
    forall ep :: ep in eps ==> Real(ports, ep)
  }

  /** Each key stands for the peer at the other end of its own link. */
  ghost predicate KeysNamePeers(w: Net, i: Port)
    requires i in w.nodes && NodeWired(w, i)
  {
    var n := w.nodes[i];
    forall e :: e in n.clientEndpoints ==>
      n.clientEndpoints[e] == At(PeerOf(w.links[n.connections[e]], i))
  }

  ghost predicate FriendsTracked(n: Node) {
    forall f :: f in n.friendList ==> f in n.clientEndpoints.Values
  }

  ghost predicate NodeHonest(w: Net, i: Port)
    requires i in w.nodes && NodeWired(w, i)
  {
    && KeysNamePeers(w, i)
    && FriendsTracked(w.nodes[i])
    && AllReal(w.nodes.Keys, w.nodes[i].pendingEndpoints)
  }

  /** What `sender` may say on link `l`: requests and answers have a direction, ports are its own. */
  ghost predicate Legit(ports: set<Port>, l: Link, sender: Port, m: Message) {
    match m
    case BeFriends(p) => sender == l.initiator && p == sender
    case Added(p) => sender == l.initiator && p == sender
    case Yes => sender == l.acceptor
    case No => sender == l.acceptor
    case Confirmed => sender == l.acceptor
    case NotConfirmed => sender == l.acceptor
    case AlreadyFriends => sender == l.acceptor
    case Removed(p) => p == sender
    case SendFriends => true
    case Friends(list) => AllReal(ports, list)
  }

  ghost predicate AllLegit(ports: set<Port>, l: Link, sender: Port, ms: seq<Message>) {
    forall m :: m in ms ==> Legit(ports, l, sender, m)
  }

  ghost predicate LinkHonest(ports: set<Port>, l: Link) {
    && AllLegit(ports, l, l.acceptor, l.toInitiator)
    && AllLegit(ports, l, l.initiator, l.toAcceptor)
  }

  ghost predicate Honest(w: Net) {
    && Wired(w)
    && (forall i :: i in w.nodes ==> NodeHonest(w, i))
    && (forall s :: s in w.links ==> LinkHonest(w.nodes.Keys, w.links[s]))
  }

  // ----- One step at its node -----

  /** The three ways in which a step on the link of `peer` changes what a node tracks. */
  ghost predicate Progress(n: Node, n': Node, e: Endpoint, peer: Endpoint) {
    || (n'.friendList == n.friendList && n'.clientEndpoints == n.clientEndpoints)
    || (n'.friendList == n.friendList + [peer] && n'.clientEndpoints == n.clientEndpoints[e := peer])
    || (&& n'.clientEndpoints == n.clientEndpoints - {e}
        && forall f :: f in n'.friendList ==> f in n.friendList && (e in n.clientEndpoints ==> f != peer))
  }

  ghost predicate Believable(n: Node, ev: Event, l: Link, i: Port, ports: set<Port>)
    requires OnLink(ev)
  {
    && n.endpoint == At(i) && Joins(l, i) && l.initiator != l.acceptor
    && ev.key.address == LOCALHOST
    && (i == l.initiator ==> ev.key == At(l.acceptor))
    && (ev.key in n.clientEndpoints ==> n.clientEndpoints[ev.key] == At(PeerOf(l, i)))
    && (ev.Hear? ==> Legit(ports, l, PeerOf(l, i), ev.message))
  }

  lemma ActProgresses(n: Node, ev: Event, l: Link, i: Port, ports: set<Port>)
    requires OnLink(ev) && Permitted(n, ev) && Act(n, ev).Turn?
    requires Believable(n, ev, l, i, ports)
    ensures var n' := Act(n, ev).node;
            && Progress(n, n', ev.key, At(PeerOf(l, i)))
            && (ev.key in n'.clientEndpoints ==> ev.key in n'.connections)
  {
  }

  lemma ActAnswersHonestly(n: Node, ev: Event, l: Link, i: Port, ports: set<Port>)
    requires OnLink(ev) && Permitted(n, ev) && Act(n, ev).Turn?
    requires Believable(n, ev, l, i, ports) && AllReal(ports, n.friendList) && AllReal(ports, n.pendingEndpoints)
    ensures var t := Act(n, ev);
            && AllReal(ports, t.node.pendingEndpoints)
            && (ReplyOf(t.effects).Says? ==> Legit(ports, l, i, ReplyOf(t.effects).message))
  {
  }

  lemma FriendsAreReal(w: Net, i: Port)
    requires Wired(w) && i in w.nodes && NodeWired(w, i) && KeysNamePeers(w, i) && FriendsTracked(w.nodes[i])
    ensures AllReal(w.nodes.Keys, w.nodes[i].friendList)
    ensures At(i) !in w.nodes[i].friendList
  {
    var n := w.nodes[i];
    forall f | f in n.friendList ensures Real(w.nodes.Keys, f) && f != At(i) {
      var e :| e in n.clientEndpoints && n.clientEndpoints[e] == f;
      assert LinkWired(w, n.connections[e]);
    }
  }

  lemma ProgressKeepsTracked(n: Node, n': Node, e: Endpoint, peer: Endpoint)
    requires FriendsTracked(n) && Progress(n, n', e, peer)
    requires e in n.clientEndpoints ==> n.clientEndpoints[e] == peer
    ensures FriendsTracked(n')
  {
    forall f | f in n'.friendList ensures f in n'.clientEndpoints.Values {
      if f in n.friendList {
        var k :| k in n.clientEndpoints && n.clientEndpoints[k] == f;
        assert k != e || f == peer;
        if k != e { assert k in n'.clientEndpoints && n'.clientEndpoints[k] == f; }
      }
      if f == peer && e in n'.clientEndpoints { assert n'.clientEndpoints[e] == peer; }
    }
  }

  // ----- One step in the network -----

  lemma EventBelievable(w: Net, i: Port, ev: Event)
    requires Honest(w) && Possible(w, i, ev) && OnLink(ev)
    ensures w.nodes[i].connections[ev.key] in w.links
    ensures Believable(w.nodes[i], ev, w.links[w.nodes[i].connections[ev.key]], i, w.nodes.Keys)
  {
    assert NodeWired(w, i) && NodeHonest(w, i);
    var s := w.nodes[i].connections[ev.key];
    assert LinkWired(w, s) && LinkHonest(w.nodes.Keys, w.links[s]);
    if ev.Hear? { assert ev.message in Incoming(w.links[s], i); }
  }

  lemma SettleHonest(ports: set<Port>, l: Link, i: Port, took: bool, reply: Reply, hangup: bool)
    requires LinkHonest(ports, l) && Joins(l, i) && l.initiator != l.acceptor
    requires took ==> Incoming(l, i) != []
    requires reply.Says? ==> Legit(ports, l, i, reply.message)
    ensures LinkHonest(ports, Settle(l, i, took, reply, hangup))
  {
    var l' := Settle(l, i, took, reply, hangup);
    forall m | m in l'.toInitiator ensures Legit(ports, l', l'.acceptor, m) {
      assert m in l.toInitiator || (reply.Says? && m == reply.message && i == l.acceptor);
    }
    forall m | m in l'.toAcceptor ensures Legit(ports, l', l'.initiator, m) {
      assert m in l.toAcceptor || (reply.Says? && m == reply.message && i == l.initiator);
    }
  }

  lemma MoveKeepsKeysNamePeers(w: Net, w': Net, i: Port, e: Endpoint, j: Port)
    requires Moves(w, w', i, e) && j in w.nodes
    requires NodeWired(w, j) && NodeWired(w', j) && KeysNamePeers(w, j)
    requires Progress(w.nodes[i], w'.nodes[i], e, At(PeerOf(w.links[w.nodes[i].connections[e]], i)))
    ensures KeysNamePeers(w', j)
  {
    var n' := w'.nodes[j];
    forall k | k in n'.clientEndpoints
      ensures n'.clientEndpoints[k] == At(PeerOf(w'.links[n'.connections[k]], j))
    {
      assert n'.connections[k] == w.nodes[j].connections[k];
    }
  }

  lemma MoveKeepsNodesHonest(w: Net, w': Net, i: Port, e: Endpoint)
    requires Honest(w) && Wired(w') && Moves(w, w', i, e)
    requires Progress(w.nodes[i], w'.nodes[i], e, At(PeerOf(w.links[w.nodes[i].connections[e]], i)))
    requires AllReal(w.nodes.Keys, w'.nodes[i].pendingEndpoints)
    ensures forall j :: j in w.nodes ==> NodeHonest(w', j)
  {
    assert NodeWired(w, i) && NodeHonest(w, i);
    ProgressKeepsTracked(w.nodes[i], w'.nodes[i], e, At(PeerOf(w.links[w.nodes[i].connections[e]], i)));
    forall j | j in w.nodes ensures NodeHonest(w', j) {
      assert NodeWired(w, j) && NodeWired(w', j) && NodeHonest(w, j);
      MoveKeepsKeysNamePeers(w, w', i, e, j);
    }
  }

  lemma OnLinkActsHonestly(w: Net, i: Port, ev: Event)
    requires Honest(w) && Possible(w, i, ev) && OnLink(ev)
    ensures var n, t := w.nodes[i], Act(w.nodes[i], ev);
            var s := n.connections[ev.key];
            && s in w.links
            && Progress(n, t.node, ev.key, At(PeerOf(w.links[s], i)))
            && AllReal(w.nodes.Keys, t.node.pendingEndpoints)
            && (ReplyOf(t.effects).Says? ==> Legit(w.nodes.Keys, w.links[s], i, ReplyOf(t.effects).message))
  {
    var n := w.nodes[i];
    assert NodeWired(w, i) && NodeHonest(w, i);
    EventBelievable(w, i, ev);
    FriendsAreReal(w, i);
    ActProgresses(n, ev, w.links[n.connections[ev.key]], i, w.nodes.Keys);
    ActAnswersHonestly(n, ev, w.links[n.connections[ev.key]], i, w.nodes.Keys);
  }

  lemma OnLinkKeepsNodesHonest(w: Net, i: Port, ev: Event)
    requires Honest(w) && Possible(w, i, ev) && OnLink(ev)
    ensures Wired(After(w, i, ev))
    ensures forall j :: j in w.nodes ==> NodeHonest(After(w, i, ev), j)
  {
    OnLinkMoves(w, i, ev);
    MoveKeepsWired(w, After(w, i, ev), i, ev.key);
    OnLinkActsHonestly(w, i, ev);
    MoveKeepsNodesHonest(w, After(w, i, ev), i, ev.key);
  }

  lemma SettledLinkKeepsHonest(w: Net, w': Net, i: Port, s: Port, took: bool, reply: Reply, hangup: bool)
    requires Honest(w) && s in w.links && Joins(w.links[s], i)
    requires took ==> Incoming(w.links[s], i) != []
    requires reply.Says? ==> Legit(w.nodes.Keys, w.links[s], i, reply.message)
    requires w'.links == w.links[s := Settle(w.links[s], i, took, reply, hangup)]
    ensures forall r :: r in w'.links ==> LinkHonest(w.nodes.Keys, w'.links[r])
  {
    assert LinkHonest(w.nodes.Keys, w.links[s]) && LinkWired(w, s);
    SettleHonest(w.nodes.Keys, w.links[s], i, took, reply, hangup);
  }

  lemma OnLinkKeepsLinksHonest(w: Net, i: Port, ev: Event)
    requires Honest(w) && Possible(w, i, ev) && OnLink(ev)
    ensures var w' := After(w, i, ev);
            forall r :: r in w'.links ==> LinkHonest(w.nodes.Keys, w'.links[r])
  {
    var t := Act(w.nodes[i], ev);
    assert NodeWired(w, i);
    OnLinkActsHonestly(w, i, ev);
    StepIsLocal(w, i, ev);
    SettledLinkKeepsHonest(w, After(w, i, ev), i, w.nodes[i].connections[ev.key],
                           ev.Hear?, ReplyOf(t.effects), HangsUp(t.effects));
  }

  lemma OnLinkKeepsHonest(w: Net, i: Port, ev: Event)
    requires Honest(w) && Possible(w, i, ev) && OnLink(ev)
    ensures Honest(After(w, i, ev))
  {
    OnLinkKeepsNodesHonest(w, i, ev);
    OnLinkKeepsLinksHonest(w, i, ev);
    assert After(w, i, ev).nodes.Keys == w.nodes.Keys;
  }

  // ----- Steps that are not on a known link -----

  ghost predicate Opens(w: Net, w': Net, i: Port, s: Port) {
    && i in w.nodes && s in w.links && w.links[s].acceptor == i && w.links[s].acceptorEnd.Waiting?
    && At(s) !in w.nodes[i].connections
    && w' == Net(w.nodes[i := w.nodes[i].(connections := w.nodes[i].connections[At(s) := s])],
                 w.links[s := w.links[s].(acceptorEnd := Live)])
  }

  lemma AcceptOpens(w: Net, i: Port, ev: Event)
    requires Wired(w) && Possible(w, i, ev) && ev.Accept?
    ensures Opens(w, After(w, i, ev), i, ev.socket)
  {
    var n := w.nodes[i];
    var s := ev.socket;
    assert NodeWired(w, i) && LinkWired(w, s);
  }

  lemma OpensKeepsNode(w: Net, w': Net, i: Port, s: Port, j: Port)
    requires Opens(w, w', i, s) && w.links[s].initiator != i
    requires j in w.nodes && NodeWired(w, j) && NodeHonest(w, j)
    ensures NodeWired(w', j) && NodeHonest(w', j)
  {
  }

  lemma OpensKeepsPorts(w: Net, w': Net, i: Port, s: Port, j: Port)
    requires Opens(w, w', i, s) && j in w.nodes && PortsInOrder(w, j)
    ensures PortsInOrder(w', j)
  {
  }

  lemma OpensKeepsEnd(w: Net, w': Net, i: Port, s: Port, r: Port, j: Port)
    requires Opens(w, w', i, s) && w.links[s].initiator != i
    requires r in w.links && Joins(w.links[r], j) && w.links[r].initiator != w.links[r].acceptor && EndWired(w, r, j)
    ensures EndWired(w', r, j)
  {
  }

  lemma OpensKeepsLink(w: Net, w': Net, i: Port, s: Port, r: Port)
    requires Wired(w) && Opens(w, w', i, s) && r in w.links
    ensures LinkWired(w', r)
  {
    assert LinkWired(w, r) && LinkWired(w, s);
    OpensKeepsEnd(w, w', i, s, r, w.links[r].initiator);
    OpensKeepsEnd(w, w', i, s, r, w.links[r].acceptor);
  }

  lemma SameTalkSameHonesty(ports: set<Port>, l: Link, l': Link)
    requires LinkHonest(ports, l)
    requires l'.initiator == l.initiator && l'.acceptor == l.acceptor
    requires l'.toInitiator == l.toInitiator && l'.toAcceptor == l.toAcceptor
    ensures LinkHonest(ports, l')
  {
  }

  lemma OpensKeepsWired(w: Net, w': Net, i: Port, s: Port)
    requires Honest(w) && Opens(w, w', i, s)
    ensures Wired(w')
  {
    assert LinkWired(w, s);
    forall j | j in w'.nodes ensures NodeWired(w', j) && PortsInOrder(w', j) {
      OpensKeepsNode(w, w', i, s, j);
      OpensKeepsPorts(w, w', i, s, j);
    }
    forall r | r in w'.links ensures LinkWired(w', r) {
      OpensKeepsLink(w, w', i, s, r);
    }
  }

  lemma OpensKeepsNodesHonest(w: Net, w': Net, i: Port, s: Port)
    requires Honest(w) && Opens(w, w', i, s) && Wired(w')
    ensures forall j :: j in w'.nodes ==> NodeHonest(w', j)
  {
    assert LinkWired(w, s);
    forall j | j in w'.nodes ensures NodeHonest(w', j) {
      OpensKeepsNode(w, w', i, s, j);
    }
  }

  lemma OpensKeepsLinksHonest(w: Net, w': Net, i: Port, s: Port)
    requires Honest(w) && Opens(w, w', i, s)
    ensures forall r :: r in w'.links ==> LinkHonest(w'.nodes.Keys, w'.links[r])
  {
    assert w'.nodes.Keys == w.nodes.Keys;
    forall r | r in w'.links ensures LinkHonest(w'.nodes.Keys, w'.links[r]) {
      SameTalkSameHonesty(w.nodes.Keys, w.links[r], w'.links[r]);
    }
  }

  lemma OpensKeepsHonest(w: Net, w': Net, i: Port, s: Port)
    requires Honest(w) && Opens(w, w', i, s)
    ensures Honest(w')
  {
    OpensKeepsWired(w, w', i, s);
    OpensKeepsNodesHonest(w, w', i, s);
    OpensKeepsLinksHonest(w, w', i, s);
  }

  /** `w'` differs from `w` at most in what node `i` has pending. */
  ghost predicate Queues(w: Net, w': Net, i: Port) {
    && i in w.nodes && i in w'.nodes && w'.links == w.links
    && w'.nodes == w.nodes[i := w.nodes[i].(pendingEndpoints := w'.nodes[i].pendingEndpoints)]
    && AllReal(w.nodes.Keys, w'.nodes[i].pendingEndpoints)
  }

  lemma PendingKeepsNode(w: Net, w': Net, i: Port, j: Port)
    requires Queues(w, w', i) && j in w.nodes
    requires NodeWired(w, j) && PortsInOrder(w, j) && NodeHonest(w, j)
    ensures NodeWired(w', j) && PortsInOrder(w', j) && NodeHonest(w', j)
  {
  }

  lemma PendingKeepsLink(w: Net, w': Net, i: Port, r: Port)
    requires Queues(w, w', i) && r in w.links && LinkWired(w, r)
    ensures LinkWired(w', r)
  {
  }

  lemma PendingKeepsHonest(w: Net, w': Net, i: Port)
    requires Honest(w) && Queues(w, w', i)
    ensures Honest(w')
  {
    hide NodeWired, NodeHonest, PortsInOrder, LinkWired, LinkHonest, AllReal;
    assert w'.nodes.Keys == w.nodes.Keys;
    forall j | j in w'.nodes ensures NodeWired(w', j) && PortsInOrder(w', j) && NodeHonest(w', j) {
      PendingKeepsNode(w, w', i, j);
    }
    forall r | r in w'.links ensures LinkWired(w', r) && LinkHonest(w'.nodes.Keys, w'.links[r]) {
      PendingKeepsLink(w, w', i, r);
    }
  }

  /** A link as the dialling node leaves it. */
  function Fresh(i: Port, j: Port, asks: bool): Link {
    Link(i, j, Live, Waiting, [], if asks then [BeFriends(i)] else [])
  }

  predicate Asks(n: Node) {
    |n.friendList| < FRIENDS_LIMIT && n.port + 1 != FIRST_ENDPOINT.port
  }

  function Dialling(n: Node, j: Port, s: Port): Node
    requires n.pendingEndpoints != []
  {
    n.(pendingEndpoints := n.pendingEndpoints[1..], port := s, connections := n.connections[At(j) := s])
  }

  /** Node `i` dials `j` from the next client port `s`. */
  ghost predicate Grows(w: Net, w': Net, i: Port, j: Port, s: Port) {
    && i in w.nodes && j in w.nodes && j != i
    && s !in w.links && s !in w.nodes
    && var n := w.nodes[i];
    && s == n.port + 1
    && n.pendingEndpoints != [] && At(j) == n.pendingEndpoints[0] && At(j) !in n.connections
    && w' == Net(w.nodes[i := Dialling(n, j, s)], w.links[s := Fresh(i, j, Asks(n))])
  }

  lemma PostDials(links: map<Port, Link>, i: Port, j: Port, s: Port, asks: bool)
    ensures var es := [Dialed(s, At(j))] + if asks then [Sent(s, BeFriends(i))] else [];
            PostAll(links, i, es) == links[s := Fresh(i, j, asks)]
  {
    var es := [Dialed(s, At(j))] + if asks then [Sent(s, BeFriends(i))] else [];
    var links1 := Post(links, i, es[0]);
    assert links1 == links[s := Fresh(i, j, false)];
    if asks {
      assert es[1..] == [Sent(s, BeFriends(i))] && es[1..][1..] == [];
      assert Put(links1[s], i, BeFriends(i)) == Fresh(i, j, true);
      assert PostAll(links1, i, es[1..]) == Post(links1, i, es[1]);
    } else {
      assert es[1..] == [];
    }
  }

  lemma ActDials(n: Node, ev: Event, i: Port, j: Port, s: Port)
    requires Binds(n, ev) && n.endpoint == At(i) && s == n.port + 1 && n.pendingEndpoints[0] == At(j)
    ensures Act(n, ev) == Turn(Dialling(n, j, s), [Dialed(s, At(j))] + if Asks(n) then [Sent(s, BeFriends(i))] else [])
  {
  }

  lemma TakesOwnNextPort(w: Net, i: Port, ev: Event)
    requires Honest(w) && Enabled(w, i, ev) && Binds(w.nodes[i], ev)
    ensures var n := w.nodes[i];
            var j := n.pendingEndpoints[0].port;
            && n.endpoint == At(i) && n.pendingEndpoints[0] == At(j) && j in w.nodes && j != i
            && 0 <= n.port + 1 < 0x1_0000 && n.port + 1 !in w.links && n.port + 1 !in w.nodes
  {
    var n := w.nodes[i];
    assert NodeWired(w, i) && NodeHonest(w, i);
    assert n.pendingEndpoints[0] in n.pendingEndpoints;
    assert PortFree(w, n);
  }

  lemma DialGrows(w: Net, i: Port, ev: Event)
    requires Honest(w) && Possible(w, i, ev) && Binds(w.nodes[i], ev)
    ensures var n := w.nodes[i];
            && 0 <= n.port + 1 < 0x1_0000
            && Grows(w, After(w, i, ev), i, n.pendingEndpoints[0].port, n.port + 1)
  {
    var n := w.nodes[i];
    TakesOwnNextPort(w, i, ev);
    var j: Port, s: Port := n.pendingEndpoints[0].port, n.port + 1;
    ActDials(n, ev, i, j, s);
    PostDials(w.links, i, j, s, Asks(n));
  }

  lemma GrowthKeepsNode(w: Net, w': Net, i: Port, j: Port, s: Port, k: Port)
    requires Grows(w, w', i, j, s) && k in w.nodes && NodeWired(w, k) && NodeHonest(w, k)
    ensures NodeWired(w', k) && NodeHonest(w', k)
  {
    var queue := w.nodes[i].pendingEndpoints;
    assert forall ep :: ep in queue[1..] ==> ep in queue;
  }

  lemma GrowthKeepsPorts(w: Net, w': Net, i: Port, j: Port, s: Port, k: Port)
    requires Grows(w, w', i, j, s) && k in w.nodes && PortsInOrder(w, k)
    ensures PortsInOrder(w', k)
  {
  }

  lemma GrowthKeepsEnd(w: Net, w': Net, i: Port, j: Port, s: Port, r: Port, k: Port)
    requires Grows(w, w', i, j, s) && r in w.links && EndWired(w, r, k)
    ensures EndWired(w', r, k)
  {
  }

  lemma GrowthKeepsLink(w: Net, w': Net, i: Port, j: Port, s: Port, r: Port)
    requires Grows(w, w', i, j, s) && r in w'.links
    requires r in w.links ==> LinkWired(w, r) && LinkHonest(w.nodes.Keys, w.links[r])
    ensures LinkWired(w', r) && LinkHonest(w.nodes.Keys, w'.links[r])
  {
    if r in w.links {
      GrowthKeepsEnd(w, w', i, j, s, r, w.links[r].initiator);
      GrowthKeepsEnd(w, w', i, j, s, r, w.links[r].acceptor);
    }
  }

  lemma GrowthKeepsHonest(w: Net, w': Net, i: Port, j: Port, s: Port)
    requires Honest(w) && Grows(w, w', i, j, s)
    ensures Honest(w')
  {
    assert w'.nodes.Keys == w.nodes.Keys;
    forall k | k in w.nodes ensures NodeWired(w', k) && NodeHonest(w', k) && PortsInOrder(w', k) {
      GrowthKeepsNode(w, w', i, j, s, k);
      GrowthKeepsPorts(w, w', i, j, s, k);
    }
    forall r | r in w'.links ensures LinkWired(w', r) && LinkHonest(w.nodes.Keys, w'.links[r]) {
      GrowthKeepsLink(w, w', i, j, s, r);
    }
  }

  /** Queueing an endpoint, or taking one that needs no connection. */
  lemma QueueingKeepsHonest(w: Net, i: Port, ev: Event)
    requires Honest(w) && Possible(w, i, ev) && (ev.Prime? || (ev.Dial? && !Binds(w.nodes[i], ev)))
    ensures Honest(After(w, i, ev))
  {
    assert NodeHonest(w, i);
    var queue := w.nodes[i].pendingEndpoints;
    assert AllReal(w.nodes.Keys, After(w, i, ev).nodes[i].pendingEndpoints) by {
      assert ev.Dial? ==> forall ep :: ep in queue[1..] ==> ep in queue;
    }
    PendingKeepsHonest(w, After(w, i, ev), i);
  }

  lemma StepKeepsHonest(w: Net, i: Port, ev: Event)
    requires Honest(w) && Possible(w, i, ev)
    ensures Honest(After(w, i, ev))
    ensures After(w, i, ev).nodes.Keys == w.nodes.Keys
  {
    if OnLink(ev) {
      OnLinkKeepsHonest(w, i, ev);
    } else if ev.Accept? {
      AcceptOpens(w, i, ev);
      OpensKeepsHonest(w, After(w, i, ev), i, ev.socket);
    } else if Binds(w.nodes[i], ev) {
      DialGrows(w, i, ev);
      GrowthKeepsHonest(w, After(w, i, ev), i, w.nodes[i].pendingEndpoints[0].port, w.nodes[i].port + 1);
    } else {
      QueueingKeepsHonest(w, i, ev);
    }
  }
}
