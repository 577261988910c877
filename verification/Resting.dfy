/**
 Where a network comes to rest when its nodes only accept, listen and reap: each
 link is then over or joins two friends, and each connection is a friendship.
 */
module Resting {
  import opened Endpoints
  import opened Protocol
  import opened Network
  import opened Wiring
  import opened Honesty
  import opened Handshake
  import opened Friendship
  import opened Agreement
  import opened Accounting
  import opened Hearing

  // ----- Effort -----

  function EndEffort(e: End): nat {
    match e
    case Waiting => 2
    case Live => 1
    case Shut => 0
  }

  /** What is still to be done on a link: messages to hear, ends to accept and to reap. */
  function LinkEffort(l: Link): nat {
    LinkWeight(l) + EndEffort(l.initiatorEnd) + EndEffort(l.acceptorEnd)
  }

  function NetEffort(w: Net): nat {
    SumBelow(LinkEffort, w.links, 0x1_0000)
  }

  predicate Winds(ev: Event) {
    ev.Accept? || ev.Hear? || ev.Reap?
  }

  lemma SettleSaves(l: Link, i: Port, took: bool, reply: Reply, hangup: bool)
    requires Joins(l, i) && l.initiator != l.acceptor && EndOf(l, i).Live?
    requires if took then Incoming(l, i) != [] && (reply.Says? ==> Weight(reply.message) < Weight(Incoming(l, i)[0]))
             else reply.Silent? && hangup
    ensures LinkEffort(Settle(l, i, took, reply, hangup)) < LinkEffort(l)
  {
    if took {
      SettleLightens(l, i, reply, hangup);
    }
  }

  /** Accepting, hearing and reaping all leave less to be done. */
  lemma WindingSaves(w: Net, i: Port, ev: Event)
    requires Orderly(w) && Possible(w, i, ev) && Winds(ev)
    ensures NetEffort(After(w, i, ev)) < NetEffort(w)
  {
    if ev.Accept? {
      AcceptOpens(w, i, ev);
      OneLinkChanges(LinkEffort, w.links, ev.socket, w.links[ev.socket].(acceptorEnd := Live), 0x1_0000);
    } else {
      assert NodeWired(w, i);
      var s, t := w.nodes[i].connections[ev.key], Act(w.nodes[i], ev);
      assert LinkWired(w, s);
      StepIsLocal(w, i, ev);
      if ev.Hear? { RepliesAreLighter(w.nodes[i], ev.key, ev.message); }
      SettleSaves(w.links[s], i, ev.Hear?, ReplyOf(t.effects), HangsUp(t.effects));
      OneLinkChanges(LinkEffort, w.links, s,
                     Settle(w.links[s], i, ev.Hear?, ReplyOf(t.effects), HangsUp(t.effects)), 0x1_0000);
    }
  }

  ghost predicate OnlyWinds(steps: seq<Step>) {
    forall step :: step in steps ==> Winds(step.event)
  }

  /** A run of such steps, in any order, is no longer than what there was to do. */
  lemma {:induction false} WindingEnds(regime: Regime, w: Net, steps: seq<Step>, last: Net)
    requires Orderly(w) && Leads(regime, w, steps, last) && OnlyWinds(steps)
    ensures |steps| + NetEffort(last) <= NetEffort(w)
    decreases |steps|
  {
    if steps != [] {
      var w1 := After(w, steps[0].actor, steps[0].event);
      assert steps[0] in steps;
      StepKeepsOrderly(w, steps[0].actor, steps[0].event);
      WindingSaves(w, steps[0].actor, steps[0].event);
      assert forall step :: step in steps[1..] ==> step in steps;
      WindingEnds(regime, w1, steps[1..], last);
    }
  }

  // ----- Rest -----

  /** The link is over, or both ends are live and track it and have nothing to read. */
  ghost predicate LinkRests(w: Net, s: Port)
    requires s in w.links
  {
    var l := w.links[s];
    || Over(l)
    || (&& l.initiatorEnd.Live? && l.acceptorEnd.Live? && l.toInitiator == [] && l.toAcceptor == []
        && Tracks(w, s, l.initiator) && Tracks(w, s, l.acceptor))
  }

  ghost predicate Rests(w: Net) {
    forall s :: s in w.links ==> LinkRests(w, s)
  }

  /** An untracked live end of a quiet network can be reaped without breaking a promise. */
  lemma UntrackedCanBeReaped(w: Net, s: Port, i: Port)
    requires Orderly(w) && Quiet(w) && s in w.links && Joins(w.links[s], i) && EndOf(w.links[s], i).Live?
    requires !Tracks(w, s, i)
    ensures Allowed(Patient, w, i, Reap(KeyOf(w.links[s], s, i)))
  {
    assert LinkWired(w, s) && EndWired(w, s, i) && EndWired(w, s, w.links[s].initiator);
    NeverThrows(w, i, Reap(KeyOf(w.links[s], s, i)));
  }

  lemma WaitingCanBeAccepted(w: Net, s: Port)
    requires Orderly(w) && s in w.links && w.links[s].acceptorEnd.Waiting?
    ensures Allowed(Patient, w, w.links[s].acceptor, Accept(s))
  {
    assert LinkWired(w, s) && EndWired(w, s, w.links[s].acceptor);
  }

  /** A quiet agreeing link on which nothing can be accepted or reaped rests. */
  lemma IdleLinkRests(w: Net, s: Port)
    requires Agreeing(w) && Quiet(w) && s in w.links && !w.links[s].acceptorEnd.Waiting?
    requires w.links[s].initiatorEnd.Live? ==> Tracks(w, s, w.links[s].initiator)
    requires w.links[s].acceptorEnd.Live? ==> Tracks(w, s, w.links[s].acceptor)
    ensures LinkRests(w, s)
  {
    assert LinkWired(w, s);
    QuietLinksAreMutual(w, s);
  }

  /** As long as a network does not rest, one of its nodes can accept, hear or reap. */
  lemma CanWind(w: Net) returns (step: Step)
    requires Agreeing(w) && !Rests(w)
    ensures Winds(step.event) && Allowed(Patient, w, step.actor, step.event)
  {
    AgreeingIsOrderly(w);
    var s :| s in w.links && !LinkRests(w, s);
    var l := w.links[s];
    hide Agreeing, Orderly, LinkRests, Allowed, Quiet;
    if l.acceptorEnd.Waiting? {
      WaitingCanBeAccepted(w, s);
      step := Step(l.acceptor, Accept(s));
    } else if !Quiet(w) {
      QuietIsNothingToHear(w);
      var i, key, m :| Allowed(Patient, w, i, Hear(key, m));
      step := Step(i, Hear(key, m));
    } else if l.initiatorEnd.Live? && !Tracks(w, s, l.initiator) {
      UntrackedCanBeReaped(w, s, l.initiator);
      step := Step(l.initiator, Reap(KeyOf(l, s, l.initiator)));
    } else if l.acceptorEnd.Live? && !Tracks(w, s, l.acceptor) {
      LinkHasTwoEnds(w, s);
      UntrackedCanBeReaped(w, s, l.acceptor);
      step := Step(l.acceptor, Reap(KeyOf(l, s, l.acceptor)));
    } else {
      IdleLinkRests(w, s);
      assert false;
    }
  }

  lemma AgreeingIsOrderly(w: Net)
    requires Agreeing(w)
    ensures Orderly(w)
  {
  }

  lemma LinkHasTwoEnds(w: Net, s: Port)
    requires Orderly(w) && s in w.links
    ensures w.links[s].initiator != w.links[s].acceptor
  {
    assert LinkWired(w, s);
  }

  lemma {:induction false} WindingLeadsToRest(w: Net) returns (steps: seq<Step>, last: Net)
    requires Agreeing(w)
    ensures Leads(Patient, w, steps, last) && OnlyWinds(steps) && Agreeing(last) && Rests(last)
    decreases NetEffort(w)
  {
    if Rests(w) {
      return [], w;
    }
    var step := CanWind(w);
    var w1 := After(w, step.actor, step.event);
    AgreeingIsOrderly(w);
    WindingSaves(w, step.actor, step.event);
    StepKeepsAgreeing(w, step.actor, step.event);
    steps, last := WindingLeadsToRest(w1);
    assert ([step] + steps)[1..] == steps;
    steps := [step] + steps;
  }

  // ----- What rest means -----

  /** Every connection is one to a friend, and every friend has its one connection. */
  ghost predicate ConnectionsAreFriendships(n: Node) {
    && n.connections.Keys == n.clientEndpoints.Keys
    && |n.connections| == |n.friendList|
  }

  lemma RestingNode(w: Net, i: Port)
    requires Agreeing(w) && Rests(w) && i in w.nodes
    ensures w.nodes[i].connections.Keys == w.nodes[i].clientEndpoints.Keys
  {
    var n := w.nodes[i];
    assert NodeWired(w, i);
    forall e | e in n.connections ensures e in n.clientEndpoints {
      TracksByKey(w, i, e);
      assert LinkRests(w, n.connections[e]);
    }
  }

  lemma RestIsQuiet(w: Net)
    requires Rests(w)
    ensures Quiet(w)
  {
    forall s | s in w.links
      ensures && (w.links[s].initiatorEnd.Live? ==> w.links[s].toInitiator == [])
              && (w.links[s].acceptorEnd.Live? ==> w.links[s].toAcceptor == [])
    {
      assert LinkRests(w, s);
    }
  }

  lemma RestHasNothingToDo(w: Net, i: Port, ev: Event)
    requires Agreeing(w) && Rests(w) && Winds(ev)
    ensures !Allowed(Patient, w, i, ev)
  {
    if ev.Accept? {
      assert ev.socket in w.links ==> LinkRests(w, ev.socket);
    } else if ev.Hear? {
      RestIsQuiet(w);
      AgreeingIsOrderly(w);
      QuietHasNothingToHear(w, i, ev.key, ev.message);
    } else if i in w.nodes {
      RestingNode(w, i);
    }
  }

  /** A network rests exactly when no node can accept, hear or reap any more. */
  lemma RestIsNothingToDo(w: Net)
    requires Agreeing(w)
    ensures Rests(w) <==> forall i, ev :: Winds(ev) ==> !Allowed(Patient, w, i, ev)
  {
    hide Agreeing, Rests, Allowed, Winds;
    if !Rests(w) {
      var step := CanWind(w);
    }
    forall i, ev | Rests(w) && Winds(ev) ensures !Allowed(Patient, w, i, ev) {
      RestHasNothingToDo(w, i, ev);
    }
  }

  lemma RestingConnections(w: Net, i: Port)
    requires Agreeing(w) && Rests(w) && i in w.nodes
    ensures ConnectionsAreFriendships(w.nodes[i])
  {
    var n := w.nodes[i];
    RestingNode(w, i);
    assert Matched(n);
    OneEntryPerFriend(n);
    assert |n.connections| == |n.connections.Keys| == |n.clientEndpoints.Keys| == |n.clientEndpoints|;
  }

  /**
   Wherever a run without crossing and with a patient reaper has got to: accepting,
   listening and reaping come to an end, in no more steps than there is to do, and
   then every connection of every node is one to a friend who counts it as a friend.
   */
  lemma WindingLeadsToFriendships(w: Net) returns (steps: seq<Step>, last: Net)
    requires Reachable(Patient, w)
    ensures Leads(Patient, w, steps, last) && OnlyWinds(steps) && |steps| <= NetEffort(w)
    ensures Rests(last) && Quiet(last) && AllMutual(last)
    ensures forall i :: i in last.nodes ==> ConnectionsAreFriendships(last.nodes[i])
  {
    ReachableIsAgreeing(w);
    AgreeingIsOrderly(w);
    hide Reachable, Agreeing, Orderly, Rests, Quiet, AllMutual, ConnectionsAreFriendships, Leads;
    steps, last := WindingLeadsToRest(w);
    WindingEnds(Patient, w, steps, last);
    RestIsQuiet(last);
    QuietIsMutual(last);
    forall i | i in last.nodes ensures ConnectionsAreFriendships(last.nodes[i]) {
      RestingConnections(last, i);
    }
  }
}
