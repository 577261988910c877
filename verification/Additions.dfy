/**
 Runs without crossing: an initiator says `Added` once on a link, the acceptor
 reads it before anything else and is still a stranger then. So nobody ever
 says `Already friends`, however impatient the reapers are.
 */
module Additions {
  import opened Endpoints
  import opened Protocol
  import opened Network
  import opened Wiring
  import opened Honesty
  import opened Handshake
  import opened Friendship
  import opened Agreement

  /** At most one `Added`, next for an acceptor that does not track the link yet, and no `Already friends`. */
  ghost predicate AddedOnce(l: Link, acceptorTracks: bool) {
    && AlreadyFriends !in l.toInitiator
    && (forall k :: 0 <= k < |l.toAcceptor| && l.toAcceptor[k].Added? ==> k == 0 && !acceptorTracks)
  }

  ghost predicate LinkAddedOnce(w: Net, s: Port)
    requires s in w.links
  {
    AddedOnce(w.links[s], Tracks(w, s, w.links[s].acceptor))
  }

  ghost predicate Plain(w: Net) {
    && Faithful(w)
    && forall s :: s in w.links ==> LinkAddedOnce(w, s)
  }

  // ----- One step at its link -----

  lemma InitiatorAddsOnce(n: Node, ev: Event, l: Link, i: Port, ports: set<Port>, acceptorTracks: bool)
    requires OnLink(ev) && i == l.initiator && StepOf(n, ev, l, i, ports, ev.key in n.clientEndpoints)
    requires InPhase(l, ev.key in n.clientEndpoints, acceptorTracks) && AddedOnce(l, acceptorTracks)
    ensures var t := Act(n, ev);
            AddedOnce(Settle(l, i, ev.Hear?, ReplyOf(t.effects), HangsUp(t.effects)), acceptorTracks)
  {
    if ev.Hear? { assert ev.message in l.toInitiator; }
  }

  lemma AcceptorAddsNone(n: Node, ev: Event, l: Link, i: Port, ports: set<Port>)
    requires OnLink(ev) && i == l.acceptor && StepOf(n, ev, l, i, ports, ev.key in n.clientEndpoints)
    requires AddedOnce(l, ev.key in n.clientEndpoints)
    requires ev.key !in n.clientEndpoints ==> At(l.initiator) !in n.friendList
    ensures var t := Act(n, ev);
            AddedOnce(Settle(l, i, ev.Hear?, ReplyOf(t.effects), HangsUp(t.effects)), ev.key in t.node.clientEndpoints)
  {
  }

  // ----- One step in the network -----

  lemma OnLinkAddsOnce(w: Net, i: Port, ev: Event)
    requires Plain(w) && Possible(w, i, ev) && OnLink(ev)
    ensures var s := w.nodes[i].connections[ev.key];
            s in After(w, i, ev).links && LinkAddedOnce(After(w, i, ev), s)
  {
    var n := w.nodes[i];
    var s := n.connections[ev.key];
    OnLinkFindsStep(w, i, ev);
    StepOnLink(w, i, ev);
    var l := w.links[s];
    assert LinkInPhase(w, s) && LinkAddedOnce(w, s);
    SettleKeepsEnds(l, i, ev.Hear?, ReplyOf(Act(n, ev).effects), HangsUp(Act(n, ev).effects));
    if i == l.initiator {
      InitiatorAddsOnce(n, ev, l, i, w.nodes.Keys, Tracks(w, s, l.acceptor));
    } else {
      AcceptorAddsNone(n, ev, l, i, w.nodes.Keys);
    }
  }

  lemma OthersAddOnce(w: Net, i: Port, ev: Event, r: Port)
    requires Plain(w) && Possible(w, i, ev) && OnLink(ev)
    requires r in w.links && r != w.nodes[i].connections[ev.key]
    ensures r in After(w, i, ev).links && LinkAddedOnce(After(w, i, ev), r)
  {
    assert LinkAddedOnce(w, r);
    OnLinkProgresses(w, i, ev);
    OthersTrackAlike(w, After(w, i, ev), i, ev.key, r, w.links[r].acceptor);
  }

  lemma StepAddsOnce(w: Net, i: Port, ev: Event, r: Port)
    requires Plain(w) && Possible(w, i, ev) && r in After(w, i, ev).links
    ensures LinkAddedOnce(After(w, i, ev), r)
  {
    if r !in w.links {
      NewLinksAreDialled(w, i, ev, r);
      FreshIsCourting(w, i, ev);
    } else if !OnLink(ev) {
      assert LinkAddedOnce(w, r);
      OtherStepsDisturbNobody(w, i, ev, r);
    } else if r == w.nodes[i].connections[ev.key] {
      OnLinkAddsOnce(w, i, ev);
    } else {
      OthersAddOnce(w, i, ev, r);
    }
  }

  lemma StepKeepsPlain(w: Net, i: Port, ev: Event)
    requires Plain(w) && Possible(w, i, ev) && NoCrossing(w, i, ev)
    ensures Plain(After(w, i, ev))
  {
    StepKeepsFaithful(w, i, ev);
    forall r | r in After(w, i, ev).links ensures LinkAddedOnce(After(w, i, ev), r) {
      StepAddsOnce(w, i, ev, r);
    }
  }

  // ----- Every run -----

  lemma {:induction false} RunKeepsPlain(regime: Regime, w: Net, steps: seq<Step>, last: Net)
    requires regime.uncrossed && Plain(w) && Leads(regime, w, steps, last)
    ensures Plain(last)
    decreases |steps|
  {
    if steps != [] {
      StepKeepsPlain(w, steps[0].actor, steps[0].event);
      RunKeepsPlain(regime, After(w, steps[0].actor, steps[0].event), steps[1..], last);
    }
  }

  lemma StartIsPlain(w: Net)
    requires Start(w)
    ensures Plain(w)
  {
    StartIsOrderly(w);
  }

  lemma ReachableIsPlain(regime: Regime, w: Net)
    requires regime.uncrossed && Reachable(regime, w)
    ensures Plain(w)
  {
    hide Start, Leads, Orderly, Plain;
    var w0, steps :| Start(w0) && Leads(regime, w0, steps, w);
    StartIsPlain(w0);
    RunKeepsPlain(regime, w0, steps, w);
  }

  /** `Already friends` is never said, so the dispatcher never has to read it. */
  lemma AlreadyFriendsIsNeverSaid(regime: Regime, w: Net, s: Port)
    requires regime.uncrossed && Reachable(regime, w) && s in w.links
    ensures AlreadyFriends !in w.links[s].toInitiator && AlreadyFriends !in w.links[s].toAcceptor
  {
    ReachableIsPlain(regime, w);
    assert LinkAddedOnce(w, s) && LinkHonest(w.nodes.Keys, w.links[s]) && LinkWired(w, s);
    forall m | m in w.links[s].toAcceptor ensures !m.AlreadyFriends? {
      assert Legit(w.nodes.Keys, w.links[s], w.links[s].initiator, m);
    }
  }
}
