/**
 The handshake on one link, in every run. Until the initiator has answered a
 `Yes`, at most one message is on its way and neither end tracks the other;
 from then on the initiator tracks the link for as long as its end is live.
 */
module Handshake {
  import opened Endpoints
  import opened Protocol
  import opened Network
  import opened Wiring
  import opened Honesty

  /** Node `i` tracks link `s`: its end is live and the key of the link is in `clientEndpoints`. */
  ghost predicate Tracks(w: Net, s: Port, i: Port)
    requires s in w.links
  {
    && i in w.nodes
    && EndOf(w.links[s], i).Live?
    && KeyOf(w.links[s], s, i) in w.nodes[i].clientEndpoints
  }

  /** Requests and refusals: one message at a time, nobody tracks anything. */
  ghost predicate Courting(l: Link, initiatorTracks: bool, acceptorTracks: bool) {
    && !initiatorTracks && !acceptorTracks
    && |l.toInitiator| + |l.toAcceptor| <= 1
    && (forall m :: m in l.toAcceptor ==> m.BeFriends? || m.SendFriends?)
    && (forall m :: m in l.toInitiator ==> m.Yes? || m.No? || m.Friends?)
  }

  /** The request has been made, answered and acted on. */
  ghost predicate Engaged(l: Link, initiatorTracks: bool) {
    && (l.initiatorEnd.Live? ==> initiatorTracks)
    && (forall m :: m in l.toAcceptor ==> !m.BeFriends?)
    && (forall m :: m in l.toInitiator ==> !m.Yes? && !m.No?)
  }

  ghost predicate InPhase(l: Link, initiatorTracks: bool, acceptorTracks: bool) {
    Courting(l, initiatorTracks, acceptorTracks) || Engaged(l, initiatorTracks)
  }

  ghost predicate LinkInPhase(w: Net, s: Port)
    requires s in w.links
  {
    InPhase(w.links[s], Tracks(w, s, w.links[s].initiator), Tracks(w, s, w.links[s].acceptor))
  }

  ghost predicate Orderly(w: Net) {
    && Honest(w)
    && forall s :: s in w.links ==> LinkInPhase(w, s)
  }

  // ----- One step at its link -----

  lemma OnlyTheEngagedAreRefused(l: Link, i: Port, ports: set<Port>, initiatorTracks: bool, acceptorTracks: bool)
    requires Joins(l, i) && LinkHonest(ports, l) && EndOf(l, i).Live? && NotConfirmed in Incoming(l, i)
    requires InPhase(l, initiatorTracks, acceptorTracks)
    ensures i == l.initiator && initiatorTracks
  {
    assert Legit(ports, l, PeerOf(l, i), NotConfirmed);
  }

  /** No message makes a node look up a key it does not have. */
  lemma NeverThrows(w: Net, i: Port, ev: Event)
    requires Orderly(w) && Enabled(w, i, ev)
    ensures Possible(w, i, ev)
  {
    assert NodeWired(w, i);
    StepKeepsSound(w.nodes[i], ev);
    if ev.Hear? && ev.message.NotConfirmed? {
      var s := w.nodes[i].connections[ev.key];
      var l := w.links[s];
      assert LinkWired(w, s) && LinkHonest(w.nodes.Keys, l) && LinkInPhase(w, s);
      OnlyTheEngagedAreRefused(l, i, w.nodes.Keys, Tracks(w, s, l.initiator), Tracks(w, s, l.acceptor));
    }
  }

  /** Taking a message leaves messages that were there. */
  lemma SettleTalks(l: Link, i: Port, took: bool, reply: Reply, hangup: bool)
    requires Joins(l, i) && l.initiator != l.acceptor
    requires took ==> Incoming(l, i) != []
    ensures var l' := Settle(l, i, took, reply, hangup);
            && (forall m :: m in l'.toAcceptor ==>
                  m in l.toAcceptor || (i == l.initiator && reply == Says(m)))
            && (forall m :: m in l'.toInitiator ==>
                  m in l.toInitiator || (i != l.initiator && reply == Says(m)))
            && |Incoming(l', i)| <= |Incoming(l, i)| - (if took then 1 else 0)
            && |Incoming(l', PeerOf(l, i))| <= |Incoming(l, PeerOf(l, i))| + (if reply.Says? then 1 else 0)
  {
  }

  /** What a step of an end says and tracks, by phase. */
  lemma CourtingStep(n: Node, ev: Event, l: Link, i: Port, ports: set<Port>)
    requires OnLink(ev) && Permitted(n, ev) && Act(n, ev).Turn?
    requires Believable(n, ev, l, i, ports) && EndOf(l, i).Live?
    requires ev.key !in n.clientEndpoints
    requires ev.Hear? ==> Incoming(l, i) == [ev.message] && Incoming(l, PeerOf(l, i)) == []
    requires Courting(l, false, false)
    ensures var t := Act(n, ev);
            var l' := Settle(l, i, ev.Hear?, ReplyOf(t.effects), HangsUp(t.effects));
            var tracks := ev.key in t.node.clientEndpoints;
            if ev.Hear? && ev.message.Yes? && |n.friendList| != FRIENDS_LIMIT then
              && tracks && !HangsUp(t.effects) && i == l.initiator && l'.initiatorEnd.Live? && l'.toInitiator == []
              && l'.toAcceptor == if l.acceptorEnd.Shut? then [] else [Added(i)]
            else
              !tracks && Courting(l', false, false)
  {
  }

  lemma EngagedStep(n: Node, ev: Event, l: Link, i: Port, ports: set<Port>)
    requires OnLink(ev) && Permitted(n, ev) && Act(n, ev).Turn?
    requires Believable(n, ev, l, i, ports) && EndOf(l, i).Live?
    requires Engaged(l, i == l.initiator ==> ev.key in n.clientEndpoints)
    requires ev.Hear? ==> Incoming(l, i) != [] && Incoming(l, i)[0] == ev.message
    ensures var t := Act(n, ev);
            var l' := Settle(l, i, ev.Hear?, ReplyOf(t.effects), HangsUp(t.effects));
            Engaged(l', i == l.initiator ==> ev.key in t.node.clientEndpoints)
  {
    var t := Act(n, ev);
    if ev.Hear? { assert ev.message in Incoming(l, i); }
    SettleTalks(l, i, ev.Hear?, ReplyOf(t.effects), HangsUp(t.effects));
  }

  // ----- One step in the network -----

  lemma OtherEndTracksAlike(w: Net, w': Net, i: Port, e: Endpoint, r: Port, j: Port)
    requires Moves(w, w', i, e) && NodeWired(w, i)
    requires Progress(w.nodes[i], w'.nodes[i], e, At(PeerOf(w.links[w.nodes[i].connections[e]], i)))
    requires r in w.links && Joins(w.links[r], j) && (r != w.nodes[i].connections[e] || j != i)
    requires w.links[r].initiator != w.links[r].acceptor && EndWired(w, r, j)
    ensures Tracks(w', r, j) == Tracks(w, r, j)
  {
  }

  lemma OthersTrackAlike(w: Net, w': Net, i: Port, e: Endpoint, r: Port, j: Port)
    requires Wired(w) && Moves(w, w', i, e)
    requires Progress(w.nodes[i], w'.nodes[i], e, At(PeerOf(w.links[w.nodes[i].connections[e]], i)))
    requires r in w.links && Joins(w.links[r], j) && (r != w.nodes[i].connections[e] || j != i)
    ensures Tracks(w', r, j) == Tracks(w, r, j)
  {
    assert LinkWired(w, r) && NodeWired(w, i);
    OtherEndTracksAlike(w, w', i, e, r, j);
  }

  lemma OnLinkProgresses(w: Net, i: Port, ev: Event)
    requires Honest(w) && Possible(w, i, ev) && OnLink(ev)
    ensures var n := w.nodes[i];
            var s := n.connections[ev.key];
            && s in w.links
            && Believable(n, ev, w.links[s], i, w.nodes.Keys)
            && Moves(w, After(w, i, ev), i, ev.key)
            && Progress(n, After(w, i, ev).nodes[i], ev.key, At(PeerOf(w.links[s], i)))
  {
    EventBelievable(w, i, ev);
    var n := w.nodes[i];
    ActProgresses(n, ev, w.links[n.connections[ev.key]], i, w.nodes.Keys);
    OnLinkMoves(w, i, ev);
  }

  /** At its own live end, a node tracks a link exactly when the key of the step is tracked. */
  lemma TracksByKey(w: Net, i: Port, e: Endpoint)
    requires Wired(w) && i in w.nodes && e in w.nodes[i].connections
    ensures var s := w.nodes[i].connections[e];
            && s in w.links && EndOf(w.links[s], i).Live? && e == KeyOf(w.links[s], s, i)
            && (Tracks(w, s, i) <==> e in w.nodes[i].clientEndpoints)
  {
    assert NodeWired(w, i);
  }

  lemma TracksAfter(w: Net, i: Port, ev: Event)
    requires Honest(w) && Possible(w, i, ev) && OnLink(ev)
    ensures var s := w.nodes[i].connections[ev.key];
            var w' := After(w, i, ev);
            && s in w.links && s in w'.links
            && (Tracks(w', s, i) <==> ev.key in w'.nodes[i].clientEndpoints)
            && Tracks(w', s, PeerOf(w.links[s], i)) == Tracks(w, s, PeerOf(w.links[s], i))
  {
    var w' := After(w, i, ev);
    var s := w.nodes[i].connections[ev.key];
    OnLinkProgresses(w, i, ev);
    TracksByKey(w, i, ev.key);
    assert NodeWired(w, i) && LinkWired(w, s);
    assert Sound(w'.nodes[i]);
    OthersTrackAlike(w, w', i, ev.key, s, PeerOf(w.links[s], i));
  }

  lemma PhaseStep(n: Node, ev: Event, l: Link, i: Port, ports: set<Port>, initiatorTracks: bool, acceptorTracks: bool)
    requires OnLink(ev) && Permitted(n, ev) && Act(n, ev).Turn?
    requires Believable(n, ev, l, i, ports) && EndOf(l, i).Live?
    requires (if i == l.initiator then initiatorTracks else acceptorTracks) == (ev.key in n.clientEndpoints)
    requires ev.Hear? ==> Incoming(l, i) != [] && Incoming(l, i)[0] == ev.message
    requires InPhase(l, initiatorTracks, acceptorTracks)
    ensures var t := Act(n, ev);
            var tracks := ev.key in t.node.clientEndpoints;
            InPhase(Settle(l, i, ev.Hear?, ReplyOf(t.effects), HangsUp(t.effects)),
                    if i == l.initiator then tracks else initiatorTracks,
                    if i == l.initiator then acceptorTracks else tracks)
  {
    if Courting(l, initiatorTracks, acceptorTracks) {
      CourtingStep(n, ev, l, i, ports);
    } else {
      EngagedStep(n, ev, l, i, ports);
    }
  }

  /** What a step on a link finds: the hypotheses of the lemmas about its node and its link. */
  lemma StepOnLink(w: Net, i: Port, ev: Event)
    requires Honest(w) && Possible(w, i, ev) && OnLink(ev)
    ensures var n := w.nodes[i];
            var s := n.connections[ev.key];
            var w' := After(w, i, ev);
            var t := Act(n, ev);
            && s in w.links && s in w'.links
            && Believable(n, ev, w.links[s], i, w.nodes.Keys)
            && EndOf(w.links[s], i).Live?
            && (Tracks(w, s, i) <==> ev.key in n.clientEndpoints)
            && (Tracks(w', s, i) <==> ev.key in t.node.clientEndpoints)
            && Tracks(w', s, PeerOf(w.links[s], i)) == Tracks(w, s, PeerOf(w.links[s], i))
            && w'.links[s] == Settle(w.links[s], i, ev.Hear?, ReplyOf(t.effects), HangsUp(t.effects))
  {
    OnLinkProgresses(w, i, ev);
    TracksByKey(w, i, ev.key);
    TracksAfter(w, i, ev);
    assert NodeWired(w, i);
    StepIsLocal(w, i, ev);
  }

  lemma SettleKeepsEnds(l: Link, i: Port, took: bool, reply: Reply, hangup: bool)
    requires took ==> Incoming(l, i) != []
    ensures Settle(l, i, took, reply, hangup).initiator == l.initiator
    ensures Settle(l, i, took, reply, hangup).acceptor == l.acceptor
  {
  }

  lemma OnLinkKeepsPhase(w: Net, i: Port, ev: Event)
    requires Orderly(w) && Possible(w, i, ev) && OnLink(ev)
    ensures var s := w.nodes[i].connections[ev.key];
            s in After(w, i, ev).links && LinkInPhase(After(w, i, ev), s)
  {
    var s := w.nodes[i].connections[ev.key];
    StepOnLink(w, i, ev);
    var l := w.links[s];
    var t := Act(w.nodes[i], ev);
    assert LinkInPhase(w, s);
    SettleKeepsEnds(l, i, ev.Hear?, ReplyOf(t.effects), HangsUp(t.effects));
    PhaseStep(w.nodes[i], ev, l, i, w.nodes.Keys, Tracks(w, s, l.initiator), Tracks(w, s, l.acceptor));
  }

  lemma OthersKeepPhase(w: Net, i: Port, ev: Event, r: Port)
    requires Orderly(w) && Possible(w, i, ev) && OnLink(ev)
    requires r in w.links && r != w.nodes[i].connections[ev.key]
    ensures r in After(w, i, ev).links && LinkInPhase(After(w, i, ev), r)
  {
    assert LinkInPhase(w, r);
    OnLinkProgresses(w, i, ev);
    OthersTrackAlike(w, After(w, i, ev), i, ev.key, r, w.links[r].initiator);
    OthersTrackAlike(w, After(w, i, ev), i, ev.key, r, w.links[r].acceptor);
  }

  /** Steps that only open, dial or queue leave every tracked end and every message as it was. */
  ghost predicate Undisturbed(w: Net, w': Net, r: Port)
    requires r in w.links
  {
    && r in w'.links
    && var l, l' := w.links[r], w'.links[r];
    && l'.initiator == l.initiator && l'.acceptor == l.acceptor
    && l'.toInitiator == l.toInitiator && l'.toAcceptor == l.toAcceptor
    && l'.initiatorEnd == l.initiatorEnd
    && (l'.acceptorEnd == l.acceptorEnd || (l.acceptorEnd.Waiting? && l'.acceptorEnd.Live?))
    && Tracks(w', r, l.initiator) == Tracks(w, r, l.initiator)
    && Tracks(w', r, l.acceptor) == Tracks(w, r, l.acceptor)
  }

  lemma AcceptDisturbsNobody(w: Net, w': Net, i: Port, s: Port, r: Port)
    requires Wired(w) && Opens(w, w', i, s) && r in w.links
    ensures Undisturbed(w, w', r)
  {
    assert NodeWired(w, i) && LinkWired(w, r) && LinkWired(w, s);
  }

  lemma DialDisturbsNobody(w: Net, i: Port, ev: Event, r: Port)
    requires Honest(w) && Possible(w, i, ev) && Binds(w.nodes[i], ev) && r in w.links
    ensures Undisturbed(w, After(w, i, ev), r)
  {
    assert NodeHonest(w, i) && NodeWired(w, i);
    DialGrows(w, i, ev);
  }

  lemma OtherStepsDisturbNobody(w: Net, i: Port, ev: Event, r: Port)
    requires Honest(w) && Possible(w, i, ev) && !OnLink(ev) && r in w.links
    ensures Undisturbed(w, After(w, i, ev), r)
  {
    if ev.Accept? {
      AcceptOpens(w, i, ev);
      AcceptDisturbsNobody(w, After(w, i, ev), i, ev.socket, r);
    } else if Binds(w.nodes[i], ev) {
      DialDisturbsNobody(w, i, ev, r);
    }
  }

  lemma FreshIsCourting(w: Net, i: Port, ev: Event)
    requires Honest(w) && Possible(w, i, ev) && Binds(w.nodes[i], ev)
    ensures var s := w.nodes[i].port + 1;
            && 0 <= s < 0x1_0000
            && var w' := After(w, i, ev);
               && s in w'.links
               && Courting(w'.links[s], Tracks(w', s, w'.links[s].initiator), Tracks(w', s, w'.links[s].acceptor))
  {
    assert NodeWired(w, i) && NodeHonest(w, i);
    DialGrows(w, i, ev);
  }

  lemma NewLinksAreDialled(w: Net, i: Port, ev: Event, r: Port)
    requires Honest(w) && Possible(w, i, ev) && r in After(w, i, ev).links && r !in w.links
    ensures Binds(w.nodes[i], ev) && r == w.nodes[i].port + 1
  {
    assert NodeWired(w, i) && NodeHonest(w, i);
    if OnLink(ev) {
      OnLinkMoves(w, i, ev);
    } else if ev.Accept? {
      AcceptOpens(w, i, ev);
    } else if Binds(w.nodes[i], ev) {
      DialGrows(w, i, ev);
    }
  }

  lemma UndisturbedKeepsPhase(w: Net, w': Net, r: Port)
    requires r in w.links && LinkInPhase(w, r) && Undisturbed(w, w', r)
    ensures LinkInPhase(w', r)
  {
  }

  lemma StepKeepsPhases(w: Net, i: Port, ev: Event, r: Port)
    requires Orderly(w) && Possible(w, i, ev) && r in After(w, i, ev).links
    ensures LinkInPhase(After(w, i, ev), r)
  {
    if r !in w.links {
      NewLinksAreDialled(w, i, ev, r);
      FreshIsCourting(w, i, ev);
    } else if !OnLink(ev) {
      OtherStepsDisturbNobody(w, i, ev, r);
      UndisturbedKeepsPhase(w, After(w, i, ev), r);
    } else if r == w.nodes[i].connections[ev.key] {
      OnLinkKeepsPhase(w, i, ev);
    } else {
      OthersKeepPhase(w, i, ev, r);
    }
  }

  lemma StepKeepsOrderly(w: Net, i: Port, ev: Event)
    requires Orderly(w) && Possible(w, i, ev)
    ensures Orderly(After(w, i, ev))
  {
    StepKeepsHonest(w, i, ev);
    forall r | r in After(w, i, ev).links ensures LinkInPhase(After(w, i, ev), r) {
      StepKeepsPhases(w, i, ev, r);
    }
  }

  // ----- Every run -----

  lemma StartIsOrderly(w: Net)
    requires Start(w)
    ensures Orderly(w)
  {
  }

  lemma {:induction false} RunKeepsOrderly(regime: Regime, w: Net, steps: seq<Step>, last: Net)
    requires Orderly(w) && Leads(regime, w, steps, last)
    ensures Orderly(last)
    decreases |steps|
  {
    if steps != [] {
      StepKeepsOrderly(w, steps[0].actor, steps[0].event);
      RunKeepsOrderly(regime, After(w, steps[0].actor, steps[0].event), steps[1..], last);
    }
  }

  lemma ReachableIsOrderly(regime: Regime, w: Net)
    requires Reachable(regime, w)
    ensures Orderly(w)
  {
    hide Start, Leads, Orderly;
    var w0, steps :| Start(w0) && Leads(regime, w0, steps, w);
    StartIsOrderly(w0);
    RunKeepsOrderly(regime, w0, steps, w);
  }
}
