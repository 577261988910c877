/**
 Hearing comes to an end: every reply weighs less than the message it answers,
 so nodes that only dispatch messages fall silent, and then agree on who is
 whose friend.
 */
module Hearing {
  import opened Endpoints
  import opened Protocol
  import opened Network
  import opened Wiring
  import opened Handshake
  import opened Agreement

  // ----- Weights -----

  /** A message weighs more than any reply to it. */
  function Weight(m: Message): nat {
    match m
    case BeFriends(_) => 5
    case Yes => 4
    case Added(_) => 3
    case No => 3
    case SendFriends => 2
    case NotConfirmed => 2
    case _ => 1
  }

  function TotalWeight(ms: seq<Message>): nat {
    if ms == [] then 0 else Weight(ms[0]) + TotalWeight(ms[1..])
  }

  function LinkWeight(l: Link): nat {
    TotalWeight(l.toInitiator) + TotalWeight(l.toAcceptor)
  }

  /** The sum of `f` over all links with a name below `k`. */
  function SumBelow(f: Link -> nat, links: map<Port, Link>, k: nat): nat {
    if k == 0 then 0
    else SumBelow(f, links, k - 1) + if k <= 0x1_0000 && k - 1 in links then f(links[k - 1]) else 0
  }

  /** The weight of all messages on their way. */
  function NetWeight(w: Net): nat {
    SumBelow(LinkWeight, w.links, 0x1_0000)
  }

  lemma {:induction false} TotalWeightSnoc(ms: seq<Message>, m: Message)
    ensures TotalWeight(ms + [m]) == TotalWeight(ms) + Weight(m)
  {
    if ms == [] {
      assert ms + [m] == [m];
    } else {
      assert (ms + [m])[1..] == ms[1..] + [m];
      TotalWeightSnoc(ms[1..], m);
    }
  }

  lemma {:induction false} OneLinkChanges(f: Link -> nat, links: map<Port, Link>, s: Port, l: Link, k: nat)
    requires s in links
    ensures SumBelow(f, links[s := l], k) - SumBelow(f, links, k) == if s < k then f(l) - f(links[s]) else 0
  {
    if k > 0 {
      OneLinkChanges(f, links, s, l, k - 1);
    }
  }

  // ----- One message -----

  lemma RepliesAreLighter(n: Node, key: Endpoint, m: Message)
    requires Receive(n, key, m).Turn?
    ensures var reply := ReplyOf(Receive(n, key, m).effects);
            reply.Says? ==> Weight(reply.message) < Weight(m)
  {
  }

  lemma SettleLightens(l: Link, i: Port, reply: Reply, hangup: bool)
    requires Joins(l, i) && l.initiator != l.acceptor && Incoming(l, i) != []
    requires reply.Says? ==> Weight(reply.message) < Weight(Incoming(l, i)[0])
    ensures LinkWeight(Settle(l, i, true, reply, hangup)) < LinkWeight(l)
  {
    if reply.Says? {
      TotalWeightSnoc(Incoming(l, PeerOf(l, i)), reply.message);
    }
  }

  /** Whatever is heard, what is on its way then weighs less. */
  lemma HearingLightens(w: Net, i: Port, ev: Event)
    requires Orderly(w) && Possible(w, i, ev) && ev.Hear?
    ensures NetWeight(After(w, i, ev)) < NetWeight(w)
  {
    assert NodeWired(w, i);
    var s := w.nodes[i].connections[ev.key];
    assert LinkWired(w, s);
    var t := Act(w.nodes[i], ev);
    StepIsLocal(w, i, ev);
    RepliesAreLighter(w.nodes[i], ev.key, ev.message);
    SettleLightens(w.links[s], i, ReplyOf(t.effects), HangsUp(t.effects));
    OneLinkChanges(LinkWeight, w.links, s,
                   Settle(w.links[s], i, true, ReplyOf(t.effects), HangsUp(t.effects)), 0x1_0000);
  }

  // ----- Runs in which nodes only listen -----

  ghost predicate OnlyHears(steps: seq<Step>) {
    forall step :: step in steps ==> step.event.Hear?
  }

  /** Such a run has at most as many steps as its messages weigh. */
  lemma {:induction false} HearingEnds(regime: Regime, w: Net, steps: seq<Step>, last: Net)
    requires Orderly(w) && Leads(regime, w, steps, last) && OnlyHears(steps)
    ensures |steps| + NetWeight(last) <= NetWeight(w)
    decreases |steps|
  {
    if steps != [] {
      var w1 := After(w, steps[0].actor, steps[0].event);
      assert steps[0] in steps;
      StepKeepsOrderly(w, steps[0].actor, steps[0].event);
      HearingLightens(w, steps[0].actor, steps[0].event);
      assert forall step :: step in steps[1..] ==> step in steps;
      HearingEnds(regime, w1, steps[1..], last);
    }
  }

  /** A message for a live end can be heard. */
  lemma EndCanHear(w: Net, s: Port, i: Port)
    requires Orderly(w) && s in w.links && Joins(w.links[s], i) && EndOf(w.links[s], i).Live?
    requires Incoming(w.links[s], i) != []
    ensures Allowed(Patient, w, i, Hear(KeyOf(w.links[s], s, i), Incoming(w.links[s], i)[0]))
  {
    assert LinkWired(w, s) && EndWired(w, s, i);
    NeverThrows(w, i, Hear(KeyOf(w.links[s], s, i), Incoming(w.links[s], i)[0]));
  }

  lemma QuietHasNothingToHear(w: Net, i: Port, key: Endpoint, m: Message)
    requires Orderly(w) && Quiet(w)
    ensures !Allowed(Patient, w, i, Hear(key, m))
  {
    if i in w.nodes {
      assert NodeWired(w, i);
    }
  }

  /** A network is quiet exactly when there is nothing to hear. */
  lemma QuietIsNothingToHear(w: Net)
    requires Orderly(w)
    ensures Quiet(w) <==> forall i, key, m :: !Allowed(Patient, w, i, Hear(key, m))
  {
    forall i, key, m | Quiet(w) ensures !Allowed(Patient, w, i, Hear(key, m)) {
      QuietHasNothingToHear(w, i, key, m);
    }
    if !Quiet(w) {
      var s :| s in w.links && !(&& (w.links[s].initiatorEnd.Live? ==> w.links[s].toInitiator == [])
                                 && (w.links[s].acceptorEnd.Live? ==> w.links[s].toAcceptor == []));
      assert LinkWired(w, s);
      EndCanHear(w, s, if w.links[s].initiatorEnd.Live? && w.links[s].toInitiator != [] then w.links[s].initiator
                       else w.links[s].acceptor);
    }
  }

  /** From any network, nodes that only listen fall silent. */
  lemma {:induction false} HearingLeadsToQuiet(w: Net) returns (steps: seq<Step>, last: Net)
    requires Orderly(w)
    ensures Leads(Patient, w, steps, last) && OnlyHears(steps) && Quiet(last)
    decreases NetWeight(w)
  {
    QuietIsNothingToHear(w);
    if Quiet(w) {
      return [], w;
    }
    var i, key, m :| Allowed(Patient, w, i, Hear(key, m));
    var w1 := After(w, i, Hear(key, m));
    HearingLightens(w, i, Hear(key, m));
    StepKeepsOrderly(w, i, Hear(key, m));
    var rest;
    rest, last := HearingLeadsToQuiet(w1);
    steps := [Step(i, Hear(key, m))] + rest;
    assert steps[1..] == rest;
  }

  lemma {:induction false} LeadsConcatenate(regime: Regime, w: Net, steps: seq<Step>, mid: Net,
                                            steps': seq<Step>, last: Net)
    requires Leads(regime, w, steps, mid) && Leads(regime, mid, steps', last)
    ensures Leads(regime, w, steps + steps', last)
    decreases |steps|
  {
    hide Act, After, NoCrossing, PatientReaper, Enabled;
    if steps == [] {
      assert steps + steps' == steps';
    } else {
      assert (steps + steps')[1..] == steps[1..] + steps';
      LeadsConcatenate(regime, After(w, steps[0].actor, steps[0].event), steps[1..], mid, steps', last);
    }
  }

  lemma ReachableGoesOn(regime: Regime, w: Net, steps: seq<Step>, last: Net)
    requires Reachable(regime, w) && Leads(regime, w, steps, last)
    ensures Reachable(regime, last)
  {
    var w0, before :| Start(w0) && Leads(regime, w0, before, w);
    LeadsConcatenate(regime, w0, before, w, steps, last);
  }

  /**
   Wherever a run without crossing and with a patient reaper has got to, the
   nodes can listen until nothing is left to hear, in no more steps than the
   messages weigh, and then agree on all friendships.
   */
  lemma HearingLeadsToAgreement(w: Net) returns (steps: seq<Step>, last: Net)
    requires Reachable(Patient, w)
    ensures Leads(Patient, w, steps, last) && OnlyHears(steps) && |steps| <= NetWeight(w)
    ensures Quiet(last) && AllMutual(last)
  {
    ReachableIsAgreeing(w);
    steps, last := HearingLeadsToQuiet(w);
    HearingEnds(Patient, w, steps, last);
    RunKeepsAgreeing(w, steps, last);
    QuietIsMutual(last);
  }
}
