/**
 How the maps of the nodes and the links of the network fit together in every
 run: each key of `connections` names one link whose end is live, and each live
 end is in the map of its node.
 */
module Wiring {
  import opened Endpoints
  import opened Protocol
  import opened Network

  ghost predicate NodeWired(w: Net, i: Port)
    requires i in w.nodes
  {
    var n := w.nodes[i];
    && n.endpoint == At(i)
    && Sound(n)
    && forall e :: e in n.connections ==>
         var s := n.connections[e];
         && s in w.links
         && Joins(w.links[s], i)
         && EndOf(w.links[s], i).Live?
         && e == KeyOf(w.links[s], s, i)
  }

  ghost predicate EndWired(w: Net, s: Port, i: Port)
    requires s in w.links
  {
    var l := w.links[s];
    && i in w.nodes
    && (EndOf(l, i).Live? ==>
          && KeyOf(l, s, i) in w.nodes[i].connections
          && w.nodes[i].connections[KeyOf(l, s, i)] == s)
    && (EndOf(l, i).Shut? ==> Incoming(l, i) == [])
  }

  ghost predicate LinkWired(w: Net, s: Port)
    requires s in w.links
  {
    var l := w.links[s];
    && l.initiator != l.acceptor
    && s !in w.nodes
    && !l.initiatorEnd.Waiting?
    && EndWired(w, s, l.initiator)
    && EndWired(w, s, l.acceptor)
  }

  /** The client ports of node `i` are its listening port plus 1, 2, 3, … */
  ghost predicate PortsInOrder(w: Net, i: Port)
    requires i in w.nodes
  {
    && i <= w.nodes[i].port
    && (forall s :: s in w.links && w.links[s].initiator == i ==> i < s <= w.nodes[i].port)
    && (forall s: Port :: i < s <= w.nodes[i].port ==> s in w.links && w.links[s].initiator == i)
  }

  ghost predicate Wired(w: Net) {
    && FIRST_ENDPOINT.port in w.nodes
    && (forall i :: i in w.nodes ==> NodeWired(w, i) && PortsInOrder(w, i))
    && (forall s :: s in w.links ==> LinkWired(w, s))
  }

  /** Everything that moves in a step on the link that `i` has under `e`. */
  ghost predicate Moves(w: Net, w': Net, i: Port, e: Endpoint) {
    && i in w.nodes
    && e in w.nodes[i].connections
    && w.nodes[i].connections[e] in w.links
    && w'.nodes.Keys == w.nodes.Keys
    && w'.links.Keys == w.links.Keys
    && var n, n' := w.nodes[i], w'.nodes[i];
       var s := n.connections[e];
       var l, l' := w.links[s], w'.links[s];
    && w'.nodes == w.nodes[i := n']
    && w'.links == w.links[s := l']
    && n'.endpoint == n.endpoint && n'.port == n.port && Sound(n')
    && l'.initiator == l.initiator && l'.acceptor == l.acceptor
    && EndOf(l', PeerOf(l, i)) == EndOf(l, PeerOf(l, i))
    && (EndOf(l, PeerOf(l, i)).Shut? ==> Incoming(l', PeerOf(l, i)) == Incoming(l, PeerOf(l, i)))
    && if EndOf(l', i).Shut? then
         n'.connections == n.connections - {e} && Incoming(l', i) == []
       else
         n'.connections == n.connections && EndOf(l', i) == EndOf(l, i)
  }

  lemma SettleMoves(l: Link, i: Port, took: bool, reply: Reply, hangup: bool)
    requires Joins(l, i) && l.initiator != l.acceptor && EndOf(l, i).Live?
    requires took ==> Incoming(l, i) != []
    ensures var l' := Settle(l, i, took, reply, hangup);
            var j := PeerOf(l, i);
            && l'.initiator == l.initiator && l'.acceptor == l.acceptor
            && EndOf(l', j) == EndOf(l, j)
            && (EndOf(l, j).Shut? ==> Incoming(l', j) == Incoming(l, j))
            && (if hangup then EndOf(l', i).Shut? && Incoming(l', i) == [] else EndOf(l', i).Live?)
  {
  }

  lemma SettledLinkMoves(w: Net, w': Net, i: Port, e: Endpoint, n': Node, took: bool, reply: Reply, hangup: bool)
    requires i in w.nodes && NodeWired(w, i) && e in w.nodes[i].connections
    requires w.links[w.nodes[i].connections[e]].initiator != w.links[w.nodes[i].connections[e]].acceptor
    requires took ==> Incoming(w.links[w.nodes[i].connections[e]], i) != []
    requires Sound(n') && n'.endpoint == w.nodes[i].endpoint && n'.port == w.nodes[i].port
    requires n'.connections == if hangup then w.nodes[i].connections - {e} else w.nodes[i].connections
    requires var s := w.nodes[i].connections[e];
             w' == Net(w.nodes[i := n'], w.links[s := Settle(w.links[s], i, took, reply, hangup)])
    ensures Moves(w, w', i, e)
  {
    SettleMoves(w.links[w.nodes[i].connections[e]], i, took, reply, hangup);
  }

  lemma OnLinkMoves(w: Net, i: Port, ev: Event)
    requires Wired(w) && Possible(w, i, ev) && OnLink(ev)
    ensures Moves(w, After(w, i, ev), i, ev.key)
  {
    var n, t := w.nodes[i], Act(w.nodes[i], ev);
    assert NodeWired(w, i);
    assert LinkWired(w, n.connections[ev.key]);
    StepKeepsSound(n, ev);
    StepIsLocal(w, i, ev);
    ActsOnOwnLink(n, ev);
    SettledLinkMoves(w, After(w, i, ev), i, ev.key, t.node, ev.Hear?, ReplyOf(t.effects), HangsUp(t.effects));
  }

  /** Two keys of a node never share a link. */
  lemma KeysDiffer(w: Net, i: Port, e: Endpoint, e': Endpoint)
    requires i in w.nodes && NodeWired(w, i)
    requires e in w.nodes[i].connections && e' in w.nodes[i].connections
    requires w.nodes[i].connections[e] == w.nodes[i].connections[e']
    ensures e == e'
  {
  }

  lemma MoveKeepsNode(w: Net, w': Net, i: Port, e: Endpoint, j: Port)
    requires Moves(w, w', i, e) && NodeWired(w, i) && j in w.nodes && NodeWired(w, j)
    requires w.links[w.nodes[i].connections[e]].initiator != w.links[w.nodes[i].connections[e]].acceptor
    ensures NodeWired(w', j)
  {
    var s := w.nodes[i].connections[e];
    forall e' | e' in w'.nodes[j].connections
      ensures var s' := w'.nodes[j].connections[e'];
              && s' in w'.links && Joins(w'.links[s'], j) && EndOf(w'.links[s'], j).Live?
              && e' == KeyOf(w'.links[s'], s', j)
    {
      assert e' in w.nodes[j].connections;
      if j == i && w.nodes[i].connections[e'] == s {
        KeysDiffer(w, i, e, e');
      }
    }
  }

  lemma MoveKeepsPorts(w: Net, w': Net, i: Port, e: Endpoint, j: Port)
    requires Moves(w, w', i, e) && j in w.nodes && PortsInOrder(w, j)
    ensures PortsInOrder(w', j)
  {
  }

  lemma MoveKeepsNodes(w: Net, w': Net, i: Port, e: Endpoint)
    requires Wired(w) && Moves(w, w', i, e)
    ensures forall j :: j in w'.nodes ==> NodeWired(w', j) && PortsInOrder(w', j)
  {
    assert w'.nodes.Keys == w.nodes.Keys && w.nodes[i].connections[e] in w.links;
    assert LinkWired(w, w.nodes[i].connections[e]);
    hide NodeWired, PortsInOrder, Moves;
    forall j | j in w.nodes ensures NodeWired(w', j) && PortsInOrder(w', j) {
      MoveKeepsNode(w, w', i, e, j);
      MoveKeepsPorts(w, w', i, e, j);
    }
  }

  lemma MoveKeepsEnd(w: Net, w': Net, i: Port, e: Endpoint, s: Port, j: Port)
    requires Moves(w, w', i, e) && NodeWired(w, i)
    requires s in w.links && Joins(w.links[s], j) && EndWired(w, s, j)
    requires w.links[s].initiator != w.links[s].acceptor
    ensures EndWired(w', s, j)
  {
    if j == i && s == w.nodes[i].connections[e] {
      assert e == KeyOf(w.links[s], s, i);
    }
  }

  lemma MoveKeepsLinks(w: Net, w': Net, i: Port, e: Endpoint)
    requires Wired(w) && Moves(w, w', i, e)
    ensures forall s :: s in w'.links ==> LinkWired(w', s)
  {
    assert NodeWired(w, i);
    forall s | s in w'.links ensures LinkWired(w', s) {
      assert LinkWired(w, s);
      MoveKeepsEnd(w, w', i, e, s, w.links[s].initiator);
      MoveKeepsEnd(w, w', i, e, s, w.links[s].acceptor);
    }
  }

  lemma MoveKeepsWired(w: Net, w': Net, i: Port, e: Endpoint)
    requires Wired(w) && Moves(w, w', i, e)
    ensures Wired(w')
  {
    MoveKeepsNodes(w, w', i, e);
    MoveKeepsLinks(w, w', i, e);
  }
}
