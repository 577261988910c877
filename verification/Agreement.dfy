/**
 Runs without crossing in which the reaper is patient: whenever nothing is on
 its way to a live end, two nodes agree on whether they are friends.
 */
module Agreement {
  import opened Endpoints
  import opened Protocol
  import opened Network
  import opened Wiring
  import opened Honesty
  import opened Handshake
  import opened Friendship

  // ----- The life of a link -----

  /** Messages that change nothing between friends. */
  ghost predicate Calm(ms: seq<Message>) {
    forall m :: m in ms ==> m.SendFriends? || m.Friends? || m.Confirmed?
  }

  predicate Farewell(m: Message) {
    m.Removed? || m.NotConfirmed?
  }

  /** What an end still has to read: a farewell closes it exactly when the sender has hung up. */
  ghost predicate Talk(ms: seq<Message>, senderGone: bool) {
    if senderGone then ms != [] && Farewell(ms[|ms| - 1]) && Calm(ms[..|ms| - 1])
    else Calm(ms)
  }

  /** No promise yet, or a `Yes` from an acceptor that is still there. */
  ghost predicate Undecided(l: Link, initiatorTracks: bool, acceptorTracks: bool) {
    && Courting(l, initiatorTracks, acceptorTracks)
    && (Yes in l.toInitiator ==> l.acceptorEnd.Live?)
  }

  /** The initiator has added its friend, and `Added` is the next message of the acceptor. */
  ghost predicate Pledged(l: Link, initiatorTracks: bool, acceptorTracks: bool) {
    && l.acceptorEnd.Live? && !acceptorTracks
    && (initiatorTracks <==> l.initiatorEnd.Live?)
    && l.toInitiator == []
    && l.toAcceptor != [] && l.toAcceptor[0] == Added(l.initiator)
    && Talk(l.toAcceptor[1..], l.initiatorEnd.Shut?)
  }

  /** The acceptor has decided: an end that is live tracks the link. */
  ghost predicate Bonded(l: Link, initiatorTracks: bool, acceptorTracks: bool) {
    && !l.acceptorEnd.Waiting?
    && (initiatorTracks <==> l.initiatorEnd.Live?)
    && (acceptorTracks <==> l.acceptorEnd.Live?)
    && (l.acceptorEnd.Live? ==> Talk(l.toAcceptor, l.initiatorEnd.Shut?))
    && (l.initiatorEnd.Live? ==> Talk(l.toInitiator, l.acceptorEnd.Shut?))
  }

  ghost predicate Settled(l: Link, initiatorTracks: bool, acceptorTracks: bool) {
    || Undecided(l, initiatorTracks, acceptorTracks)
    || Pledged(l, initiatorTracks, acceptorTracks)
    || Bonded(l, initiatorTracks, acceptorTracks)
  }

  ghost predicate LinkSettled(w: Net, s: Port)
    requires s in w.links
  {
    Settled(w.links[s], Tracks(w, s, w.links[s].initiator), Tracks(w, s, w.links[s].acceptor))
  }

  ghost predicate Agreeing(w: Net) {
    && Faithful(w)
    && forall s :: s in w.links ==> LinkSettled(w, s)
  }

  // ----- One step at its link -----

  lemma CalmAppend(ms: seq<Message>, m: Message)
    requires Calm(ms)
    ensures m.SendFriends? || m.Friends? || m.Confirmed? ==> Talk(ms + [m], false)
    ensures Farewell(m) ==> Talk(ms + [m], true)
  {
    assert (ms + [m])[..|ms|] == ms;
  }

  lemma TalkTail(ms: seq<Message>, senderGone: bool)
    requires Talk(ms, senderGone) && ms != []
    ensures if Farewell(ms[0]) then senderGone && ms == [ms[0]]
            else (ms[0].SendFriends? || ms[0].Friends? || ms[0].Confirmed?) && Talk(ms[1..], senderGone)
  {
    if senderGone {
      var k := |ms| - 1;
      if k > 0 {
        assert ms[0] == ms[..k][0] && ms[..k][0] in ms[..k];
        assert ms[1..][..k - 1] == ms[..k][1..];
        assert ms[1..][k - 1] == ms[k];
        assert forall m :: m in ms[..k][1..] ==> m in ms[..k];
      }
    } else {
      assert ms[0] in ms;
      assert forall m :: m in ms[1..] ==> m in ms;
    }
  }

  /** The link as the step leaves it, with what its two ends then track. */
  ghost predicate SettledAfter(n: Node, ev: Event, l: Link, i: Port, initiatorTracks: bool, acceptorTracks: bool)
    requires OnLink(ev) && Permitted(n, ev) && Act(n, ev).Turn?
    requires ev.Hear? ==> Incoming(l, i) != []
  {
    var t := Act(n, ev);
    var tracks := ev.key in t.node.clientEndpoints;
    Settled(Settle(l, i, ev.Hear?, ReplyOf(t.effects), HangsUp(t.effects)),
            if i == l.initiator then tracks else initiatorTracks,
            if i == l.initiator then acceptorTracks else tracks)
  }

  ghost predicate StepOf(n: Node, ev: Event, l: Link, i: Port, ports: set<Port>, tracks: bool) {
    && OnLink(ev) && Permitted(n, ev) && Act(n, ev).Turn?
    && Believable(n, ev, l, i, ports) && EndOf(l, i).Live?
    && tracks == (ev.key in n.clientEndpoints)
    && (ev.Hear? ==> Incoming(l, i) != [] && Incoming(l, i)[0] == ev.message)
  }

  lemma UndecidedStep(n: Node, ev: Event, l: Link, i: Port, ports: set<Port>)
    requires StepOf(n, ev, l, i, ports, false) && Undecided(l, false, false)
    requires ev.Reap? && i == l.acceptor ==> Yes !in l.toInitiator
    ensures SettledAfter(n, ev, l, i, false, false)
  {
    var t := Act(n, ev);
    var l' := Settle(l, i, ev.Hear?, ReplyOf(t.effects), HangsUp(t.effects));
    CourtingStep(n, ev, l, i, ports);
    if ev.Hear? && ev.message.Yes? && |n.friendList| != FRIENDS_LIMIT {
      assert ev.message in l.toInitiator;
      assert Pledged(l', true, false);
    } else {
      assert Undecided(l', false, false);
    }
  }

  lemma PledgedInitiatorStep(n: Node, ev: Event, l: Link, i: Port, ports: set<Port>)
    requires i == l.initiator && StepOf(n, ev, l, i, ports, true) && Pledged(l, true, false)
    ensures SettledAfter(n, ev, l, i, true, false)
  {
    var t := Act(n, ev);
    var l' := Settle(l, i, ev.Hear?, ReplyOf(t.effects), HangsUp(t.effects));
    var m := ReplyOf(t.effects).message;
    assert l'.toAcceptor[1..] == l.toAcceptor[1..] + [m];
    CalmAppend(l.toAcceptor[1..], m);
    assert Pledged(l', ev.Ask?, false);
  }

  lemma PledgedAcceptorStep(n: Node, ev: Event, l: Link, i: Port, ports: set<Port>, initiatorTracks: bool)
    requires i == l.acceptor && StepOf(n, ev, l, i, ports, false) && Pledged(l, initiatorTracks, false)
    requires At(l.initiator) !in n.friendList && l.initiatorEnd != Waiting
    requires ev.Reap? ==> l.initiatorEnd.Shut?
    ensures SettledAfter(n, ev, l, i, initiatorTracks, false)
  {
    var t := Act(n, ev);
    var l' := Settle(l, i, ev.Hear?, ReplyOf(t.effects), HangsUp(t.effects));
    if ev.Hear? {
      CalmAppend([], ReplyOf(t.effects).message);
      if l.initiatorEnd.Live? {
        assert l'.toInitiator == [] + [ReplyOf(t.effects).message];
      }
    }
    assert Bonded(l', initiatorTracks, ev.key in t.node.clientEndpoints);
  }

  lemma BondedStep(n: Node, ev: Event, l: Link, i: Port, ports: set<Port>, initiatorTracks: bool, acceptorTracks: bool)
    requires StepOf(n, ev, l, i, ports, true) && Bonded(l, initiatorTracks, acceptorTracks)
    requires l.initiatorEnd != Waiting
    ensures SettledAfter(n, ev, l, i, initiatorTracks, acceptorTracks)
  {
    var t := Act(n, ev);
    var reply := ReplyOf(t.effects);
    var l' := Settle(l, i, ev.Hear?, reply, HangsUp(t.effects));
    var j := PeerOf(l, i);
    if ev.Hear? {
      TalkTail(Incoming(l, i), EndOf(l, j).Shut?);
    }
    if reply.Says? && EndOf(l, j).Live? {
      CalmAppend(Incoming(l, j), reply.message);
    }
    var tracks := ev.key in t.node.clientEndpoints;
    assert Bonded(l', if i == l.initiator then tracks else initiatorTracks,
                      if i == l.initiator then acceptorTracks else tracks);
  }

  lemma SettledStep(n: Node, ev: Event, l: Link, i: Port, ports: set<Port>, initiatorTracks: bool, acceptorTracks: bool)
    requires StepOf(n, ev, l, i, ports, if i == l.initiator then initiatorTracks else acceptorTracks)
    requires Settled(l, initiatorTracks, acceptorTracks) && l.initiatorEnd != Waiting
    requires ev.Reap? && i == l.acceptor ==> !Promising(l)
    requires ev.key !in n.clientEndpoints ==> At(PeerOf(l, i)) !in n.friendList
    ensures SettledAfter(n, ev, l, i, initiatorTracks, acceptorTracks)
  {
    if Undecided(l, initiatorTracks, acceptorTracks) {
      UndecidedStep(n, ev, l, i, ports);
    } else if Bonded(l, initiatorTracks, acceptorTracks) {
      BondedStep(n, ev, l, i, ports, initiatorTracks, acceptorTracks);
    } else if i == l.initiator {
      PledgedInitiatorStep(n, ev, l, i, ports);
    } else {
      assert Added(l.initiator) in l.toAcceptor;
      PledgedAcceptorStep(n, ev, l, i, ports, initiatorTracks);
    }
  }

  /** A reaper that goes back on a promise leaves the link in none of the three states. */
  lemma HastyReapUnsettles(n: Node, ev: Event, l: Link, i: Port, ports: set<Port>,
                           initiatorTracks: bool, acceptorTracks: bool)
    requires StepOf(n, ev, l, i, ports, if i == l.initiator then initiatorTracks else acceptorTracks)
    requires Settled(l, initiatorTracks, acceptorTracks) && l.initiatorEnd != Waiting
    requires l.initiatorEnd.Shut? ==> l.toInitiator == []
    requires ev.Reap? && i == l.acceptor && Promising(l)
    ensures !SettledAfter(n, ev, l, i, initiatorTracks, acceptorTracks)
  {
    var t := Act(n, ev);
    var l' := Settle(l, i, ev.Hear?, ReplyOf(t.effects), HangsUp(t.effects));
    assert l'.toInitiator == l.toInitiator && l'.acceptorEnd.Shut?;
    if Undecided(l, initiatorTracks, acceptorTracks) {
      assert l.toInitiator[|l.toInitiator| - 1] == Yes;
    } else {
      assert Pledged(l, initiatorTracks, acceptorTracks);
    }
  }

  // ----- One step in the network -----

  lemma OnLinkFindsStep(w: Net, i: Port, ev: Event)
    requires Faithful(w) && Possible(w, i, ev) && OnLink(ev)
    ensures var n := w.nodes[i];
            var s := n.connections[ev.key];
            && s in w.links
            && StepOf(n, ev, w.links[s], i, w.nodes.Keys, Tracks(w, s, i))
            && w.links[s].initiatorEnd != Waiting
            && (ev.key !in n.clientEndpoints ==> At(PeerOf(w.links[s], i)) !in n.friendList)
  {
    StepOnLink(w, i, ev);
    var n := w.nodes[i];
    var s := n.connections[ev.key];
    assert LinkWired(w, s);
    PeersHaveOneKey(w, i, ev.key);
    if ev.key !in n.clientEndpoints {
      StrangersAreNoFriends(n, ev.key, At(PeerOf(w.links[s], i)));
    }
  }

  lemma OnLinkKeepsSettled(w: Net, i: Port, ev: Event)
    requires Agreeing(w) && Possible(w, i, ev) && OnLink(ev) && PatientReaper(w, i, ev)
    ensures var s := w.nodes[i].connections[ev.key];
            s in After(w, i, ev).links && LinkSettled(After(w, i, ev), s)
  {
    var n := w.nodes[i];
    var s := n.connections[ev.key];
    OnLinkFindsStep(w, i, ev);
    var l := w.links[s];
    assert LinkSettled(w, s);
    SettledStep(n, ev, l, i, w.nodes.Keys, Tracks(w, s, l.initiator), Tracks(w, s, l.acceptor));
    StepOnLink(w, i, ev);
    SettleKeepsEnds(l, i, ev.Hear?, ReplyOf(Act(n, ev).effects), HangsUp(Act(n, ev).effects));
  }

  lemma OthersKeepSettled(w: Net, i: Port, ev: Event, r: Port)
    requires Agreeing(w) && Possible(w, i, ev) && OnLink(ev)
    requires r in w.links && r != w.nodes[i].connections[ev.key]
    ensures r in After(w, i, ev).links && LinkSettled(After(w, i, ev), r)
  {
    assert LinkSettled(w, r);
    OnLinkProgresses(w, i, ev);
    OthersTrackAlike(w, After(w, i, ev), i, ev.key, r, w.links[r].initiator);
    OthersTrackAlike(w, After(w, i, ev), i, ev.key, r, w.links[r].acceptor);
  }

  lemma UndisturbedKeepsSettled(w: Net, w': Net, r: Port)
    requires r in w.links && LinkSettled(w, r) && Undisturbed(w, w', r)
    ensures LinkSettled(w', r)
  {
  }

  lemma FreshIsUndecided(w: Net, i: Port, ev: Event)
    requires Honest(w) && Possible(w, i, ev) && Binds(w.nodes[i], ev)
    ensures var s := w.nodes[i].port + 1;
            && 0 <= s < 0x1_0000
            && s in After(w, i, ev).links && LinkSettled(After(w, i, ev), s)
  {
    FreshIsCourting(w, i, ev);
    DialGrows(w, i, ev);
  }

  lemma StepKeepsSettled(w: Net, i: Port, ev: Event, r: Port)
    requires Agreeing(w) && Allowed(Patient, w, i, ev) && r in After(w, i, ev).links
    ensures LinkSettled(After(w, i, ev), r)
  {
    if r !in w.links {
      NewLinksAreDialled(w, i, ev, r);
      FreshIsUndecided(w, i, ev);
    } else if !OnLink(ev) {
      OtherStepsDisturbNobody(w, i, ev, r);
      UndisturbedKeepsSettled(w, After(w, i, ev), r);
    } else if r == w.nodes[i].connections[ev.key] {
      OnLinkKeepsSettled(w, i, ev);
    } else {
      OthersKeepSettled(w, i, ev, r);
    }
  }

  lemma StepKeepsAgreeing(w: Net, i: Port, ev: Event)
    requires Agreeing(w) && Allowed(Patient, w, i, ev)
    ensures Agreeing(After(w, i, ev))
  {
    StepKeepsFaithful(w, i, ev);
    forall r | r in After(w, i, ev).links ensures LinkSettled(After(w, i, ev), r) {
      StepKeepsSettled(w, i, ev, r);
    }
  }

  lemma HastyStepUnsettles(w: Net, i: Port, ev: Event)
    requires Agreeing(w) && Possible(w, i, ev) && !PatientReaper(w, i, ev)
    ensures w.nodes[i].connections[ev.key] in After(w, i, ev).links
    ensures !LinkSettled(After(w, i, ev), w.nodes[i].connections[ev.key])
  {
    var n := w.nodes[i];
    var s := n.connections[ev.key];
    OnLinkFindsStep(w, i, ev);
    var l := w.links[s];
    assert LinkSettled(w, s) && LinkWired(w, s) && EndWired(w, s, l.initiator);
    HastyReapUnsettles(n, ev, l, i, w.nodes.Keys, Tracks(w, s, l.initiator), Tracks(w, s, l.acceptor));
    StepOnLink(w, i, ev);
    SettleKeepsEnds(l, i, ev.Hear?, ReplyOf(Act(n, ev).effects), HangsUp(Act(n, ev).effects));
  }

  /** What is assumed of the steps is exactly what it takes. */
  lemma AgreeingNeedsBoth(w: Net, i: Port, ev: Event)
    requires Agreeing(w) && Possible(w, i, ev)
    ensures Agreeing(After(w, i, ev)) <==> NoCrossing(w, i, ev) && PatientReaper(w, i, ev)
  {
    if !NoCrossing(w, i, ev) {
      CrossingBreaksPairs(w, i, ev);
    } else if PatientReaper(w, i, ev) {
      StepKeepsAgreeing(w, i, ev);
    } else {
      HastyStepUnsettles(w, i, ev);
    }
  }

  // ----- Every run -----

  lemma {:induction false} RunKeepsAgreeing(w: Net, steps: seq<Step>, last: Net)
    requires Agreeing(w) && Leads(Patient, w, steps, last)
    ensures Agreeing(last)
    decreases |steps|
  {
    if steps != [] {
      StepKeepsAgreeing(w, steps[0].actor, steps[0].event);
      RunKeepsAgreeing(After(w, steps[0].actor, steps[0].event), steps[1..], last);
    }
  }

  lemma StartIsAgreeing(w: Net)
    requires Start(w)
    ensures Agreeing(w)
  {
    StartIsOrderly(w);
  }

  lemma ReachableIsAgreeing(w: Net)
    requires Reachable(Patient, w)
    ensures Agreeing(w)
  {
    hide Start, Leads, Orderly, Agreeing;
    var w0, steps :| Start(w0) && Leads(Patient, w0, steps, w);
    StartIsAgreeing(w0);
    RunKeepsAgreeing(w0, steps, w);
  }

  // ----- Main results -----

  /** Nothing is left to read at any live end. */
  ghost predicate Quiet(w: Net) {
    forall s :: s in w.links ==>
      && (w.links[s].initiatorEnd.Live? ==> w.links[s].toInitiator == [])
      && (w.links[s].acceptorEnd.Live? ==> w.links[s].toAcceptor == [])
  }

  /** The news that an end which alone tracks a link has for the other end, or the other end for it. */
  ghost predicate HasNews(l: Link, initiatorTracks: bool, acceptorTracks: bool) {
    && (initiatorTracks && !acceptorTracks ==>
          || (l.acceptorEnd.Live? && Added(l.initiator) in l.toAcceptor)
          || (l.acceptorEnd.Shut? && (NotConfirmed in l.toInitiator || Removed(l.acceptor) in l.toInitiator)))
    && (acceptorTracks && !initiatorTracks ==>
          l.acceptorEnd.Live? && l.initiatorEnd.Shut? && Removed(l.initiator) in l.toAcceptor)
  }

  lemma TalkEndsInFarewell(ports: set<Port>, l: Link, sender: Port, ms: seq<Message>)
    requires Talk(ms, true) && AllLegit(ports, l, sender, ms)
    ensures Removed(sender) in ms || (NotConfirmed in ms && sender == l.acceptor)
  {
    var m := ms[|ms| - 1];
    assert m in ms && Legit(ports, l, sender, m);
  }

  lemma SettledHasNews(ports: set<Port>, l: Link, initiatorTracks: bool, acceptorTracks: bool)
    requires Settled(l, initiatorTracks, acceptorTracks) && LinkHonest(ports, l)
    requires l.initiatorEnd != Waiting && l.initiator != l.acceptor
    ensures HasNews(l, initiatorTracks, acceptorTracks)
  {
    if Bonded(l, initiatorTracks, acceptorTracks) {
      if l.initiatorEnd.Live? && l.acceptorEnd.Shut? {
        TalkEndsInFarewell(ports, l, l.acceptor, l.toInitiator);
      }
      if l.acceptorEnd.Live? && l.initiatorEnd.Shut? {
        TalkEndsInFarewell(ports, l, l.initiator, l.toAcceptor);
      }
    }
  }

  /** An end that tracks a link which the other end does not track has news on its way. */
  lemma OneSidedLinksHaveNews(w: Net, s: Port)
    requires Agreeing(w) && s in w.links
    ensures HasNews(w.links[s], Tracks(w, s, w.links[s].initiator), Tracks(w, s, w.links[s].acceptor))
  {
    var l := w.links[s];
    assert LinkSettled(w, s) && LinkWired(w, s) && LinkHonest(w.nodes.Keys, l);
    SettledHasNews(w.nodes.Keys, l, Tracks(w, s, l.initiator), Tracks(w, s, l.acceptor));
  }

  lemma QuietLinksAreMutual(w: Net, s: Port)
    requires Agreeing(w) && Quiet(w) && s in w.links
    ensures Tracks(w, s, w.links[s].initiator) <==> Tracks(w, s, w.links[s].acceptor)
  {
    OneSidedLinksHaveNews(w, s);
  }

  lemma LinkOfFriend(w: Net, i: Port, j: Port) returns (s: Port)
    requires Faithful(w) && i in w.nodes && At(j) in w.nodes[i].friendList
    ensures s in w.links && Joins(w.links[s], i) && PeerOf(w.links[s], i) == j && Tracks(w, s, i)
  {
    var n := w.nodes[i];
    assert NodeWired(w, i) && NodeHonest(w, i);
    var e :| e in n.clientEndpoints && n.clientEndpoints[e] == At(j);
    TracksByKey(w, i, e);
    s := n.connections[e];
  }

  lemma FriendOfLink(w: Net, i: Port, j: Port, s: Port)
    requires Faithful(w) && i in w.nodes
    requires s in w.links && Joins(w.links[s], i) && PeerOf(w.links[s], i) == j && Tracks(w, s, i)
    ensures At(j) in w.nodes[i].friendList
  {
    var n, e := w.nodes[i], KeyOf(w.links[s], s, i);
    assert NodeWired(w, i) && NodeHonest(w, i) && Matched(n);
    assert LinkWired(w, s) && EndWired(w, s, i);
    assert n.clientEndpoints[e] in n.clientEndpoints.Values;
  }

  /** A friend is a tracked link to it. */
  lemma FriendsAreTrackedLinks(w: Net, i: Port, j: Port)
    requires Faithful(w) && i in w.nodes && j in w.nodes
    ensures At(j) in w.nodes[i].friendList <==>
            exists s :: s in w.links && Joins(w.links[s], i) && PeerOf(w.links[s], i) == j && Tracks(w, s, i)
  {
    if At(j) in w.nodes[i].friendList {
      var s := LinkOfFriend(w, i, j);
    }
    if s :| s in w.links && Joins(w.links[s], i) && PeerOf(w.links[s], i) == j && Tracks(w, s, i) {
      FriendOfLink(w, i, j, s);
    }
  }

  lemma QuietFriendsReturn(w: Net, i: Port, j: Port)
    requires Agreeing(w) && Quiet(w) && i in w.nodes && j in w.nodes
    requires At(j) in w.nodes[i].friendList
    ensures At(i) in w.nodes[j].friendList
  {
    hide Quiet;
    var s := LinkOfFriend(w, i, j);
    QuietLinksAreMutual(w, s);
    assert LinkWired(w, s);
    FriendOfLink(w, j, i, s);
  }

  ghost predicate AllMutual(w: Net) {
    forall i, j :: i in w.nodes && j in w.nodes ==>
      (At(j) in w.nodes[i].friendList <==> At(i) in w.nodes[j].friendList)
  }

  lemma QuietIsMutual(w: Net)
    requires Agreeing(w) && Quiet(w)
    ensures AllMutual(w)
  {
    hide Agreeing, Quiet;
    forall i, j | i in w.nodes && j in w.nodes
      ensures At(j) in w.nodes[i].friendList <==> At(i) in w.nodes[j].friendList
    {
      if At(j) in w.nodes[i].friendList { QuietFriendsReturn(w, i, j); }
      if At(i) in w.nodes[j].friendList { QuietFriendsReturn(w, j, i); }
    }
  }

  /** Friendship is mutual whenever the network is quiet. */
  lemma QuiescentAgreement(w: Net, i: Port, j: Port)
    requires Reachable(Patient, w) && Quiet(w) && i in w.nodes && j in w.nodes
    ensures At(j) in w.nodes[i].friendList <==> At(i) in w.nodes[j].friendList
  {
    ReachableIsAgreeing(w);
    QuietIsMutual(w);
  }
}
