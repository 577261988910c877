/**
 What an impatient reaper does. An acceptor that closes a link on which its own
 `Yes` or the `Added` that answers it is on the way leaves the initiator with a
 friend that does not know of it, and no message will ever tell.
 */
module Impatience {
  import opened Endpoints
  import opened Protocol
  import opened Network
  import opened Wiring
  import opened Honesty
  import opened Handshake
  import opened Friendship
  import opened Agreement
  import opened Hearing
  import opened Scenarios

  // ----- In any network -----

  /** The initiator tracks a link whose other end is shut, and there is no news for it. */
  ghost predicate Divided(w: Net, s: Port) {
    && s in w.links && w.links[s].acceptorEnd.Shut?
    && w.links[s].toInitiator == [] && Tracks(w, s, w.links[s].initiator)
  }

  /** Its two nodes disagree. */
  lemma DividedDisagree(w: Net, s: Port)
    requires Faithful(w) && Divided(w, s)
    ensures var l := w.links[s];
            && l.initiator in w.nodes && l.acceptor in w.nodes
            && At(l.acceptor) in w.nodes[l.initiator].friendList
            && At(l.initiator) !in w.nodes[l.acceptor].friendList
  {
    var l := w.links[s];
    assert LinkWired(w, s);
    FriendOfLink(w, l.initiator, l.acceptor, s);
    if At(l.initiator) in w.nodes[l.acceptor].friendList {
      var r := LinkOfFriend(w, l.acceptor, l.initiator);
      assert !Over(w.links[r]) && !Over(l);
      assert Between(w.links[r], l.initiator, l.acceptor);
    }
  }

  lemma HearingKeepsDivided(w: Net, i: Port, ev: Event, s: Port)
    requires Orderly(w) && Possible(w, i, ev) && ev.Hear? && Divided(w, s)
    ensures Divided(After(w, i, ev), s)
  {
    assert NodeWired(w, i) && LinkWired(w, s);
    OnLinkProgresses(w, i, ev);
    OthersTrackAlike(w, After(w, i, ev), i, ev.key, s, w.links[s].initiator);
  }

  /** No message heals it. */
  lemma {:induction false} DividedForGood(w: Net, steps: seq<Step>, last: Net, s: Port)
    requires Faithful(w) && Divided(w, s) && Leads(Patient, w, steps, last) && OnlyHears(steps)
    ensures Faithful(last) && Divided(last, s)
    decreases |steps|
  {
    if steps != [] {
      assert steps[0] in steps;
      HearingKeepsDivided(w, steps[0].actor, steps[0].event, s);
      StepKeepsFaithful(w, steps[0].actor, steps[0].event);
      assert forall step :: step in steps[1..] ==> step in steps;
      DividedForGood(After(w, steps[0].actor, steps[0].event), steps[1..], last, s);
    }
  }

  /** In an agreeing network, `i` reaps link `s` although it has promised something on it. */
  ghost predicate HastyReap(w: Net, i: Port, ev: Event, s: Port) {
    && Possible(w, i, ev) && ev.Reap? && w.nodes[i].connections[ev.key] == s
    && s in w.links && i == w.links[s].acceptor && Promising(w.links[s])
    && Agreeing(w)
  }

  /** From `w` to `w'` the acceptor of link `s` has shut its end, and the initiator has noticed nothing. */
  ghost predicate Abandoned(w: Net, w': Net, s: Port) {
    && s in w.links && s in w'.links
    && w'.links[s] == w.links[s].(acceptorEnd := Shut, toAcceptor := [])
    && var j := w.links[s].initiator;
    && j in w.nodes && j in w'.nodes && w'.nodes[j] == w.nodes[j]
    && Tracks(w', s, j) == Tracks(w, s, j)
  }

  lemma HastyReapFinds(w: Net, i: Port, ev: Event, s: Port)
    requires HastyReap(w, i, ev, s)
    ensures w.links[s].initiator != i && w.links[s].initiator in w.nodes
    ensures LinkSettled(w, s) && w.links[s].acceptorEnd.Live? && !Tracks(w, s, i)
    ensures Sound(w.nodes[i]) && ev.key !in w.nodes[i].clientEndpoints
    ensures Faithful(w) && NoCrossing(w, i, ev)
  {
    assert NodeWired(w, i) && LinkWired(w, s) && EndWired(w, s, w.links[s].initiator) && LinkSettled(w, s);
    TracksByKey(w, i, ev.key);
  }

  lemma HastyReapAbandons(w: Net, i: Port, ev: Event, s: Port)
    requires HastyReap(w, i, ev, s)
    ensures Abandoned(w, After(w, i, ev), s)
  {
    HastyReapFinds(w, i, ev, s);
    TracksAfter(w, i, ev);
    hide After, Act, Agreeing, Tracks, LinkSettled, Faithful;
    ReapShuts(w, i, ev.key);
  }

  /** With `Added` on its way the nodes are divided at once. */
  lemma BreakingAnAddition(w: Net, w': Net, s: Port)
    requires Abandoned(w, w', s) && LinkSettled(w, s) && Promising(w.links[s]) && Yes !in w.links[s].toInitiator
    requires w.links[s].acceptorEnd.Live? && !Tracks(w, s, w.links[s].acceptor)
    ensures Divided(w', s)
  {
  }

  lemma PromisesAreLone(l: Link, initiatorTracks: bool, acceptorTracks: bool)
    requires InPhase(l, initiatorTracks, acceptorTracks) && Yes in l.toInitiator
    ensures l.toInitiator == [Yes]
  {
    assert Courting(l, initiatorTracks, acceptorTracks);
  }

  lemma LonePromise(w: Net, s: Port)
    requires Orderly(w) && s in w.links && Yes in w.links[s].toInitiator
    ensures w.links[s].toInitiator == [Yes] && w.links[s].initiatorEnd.Live?
  {
    var l := w.links[s];
    assert LinkWired(w, s) && EndWired(w, s, l.initiator) && LinkInPhase(w, s);
    hide Orderly, LinkWired, EndWired, LinkInPhase, Tracks;
    PromisesAreLone(l, Tracks(w, s, l.initiator), Tracks(w, s, l.acceptor));
  }

  /** With `Yes` on its way they are as soon as it is read by an initiator that has room. */
  lemma BreakingAPromise(w: Net, s: Port)
    requires Orderly(w) && s in w.links && Yes in w.links[s].toInitiator && w.links[s].acceptorEnd.Shut?
    requires var j := w.links[s].initiator; j in w.nodes && |w.nodes[j].friendList| != FRIENDS_LIMIT
    ensures var j, ev := w.links[s].initiator, Hear(At(w.links[s].acceptor), Yes);
            Allowed(Patient, w, j, ev) && Divided(After(w, j, ev), s)
  {
    hide Orderly;
    LonePromise(w, s);
    EndCanHear(w, s, w.links[s].initiator);
    PromiseIsBelieved(w, w.links[s].initiator, s);
  }

  lemma PromiseIsBelieved(w: Net, j: Port, s: Port)
    requires Orderly(w) && s in w.links && j == w.links[s].initiator && w.links[s].acceptorEnd.Shut?
    requires w.links[s].toInitiator == [Yes] && w.links[s].initiatorEnd.Live?
    requires j in w.nodes && |w.nodes[j].friendList| != FRIENDS_LIMIT
    requires Possible(w, j, Hear(At(w.links[s].acceptor), Yes))
    ensures Divided(After(w, j, Hear(At(w.links[s].acceptor), Yes)), s)
  {
    var ev := Hear(At(w.links[s].acceptor), Yes);
    assert LinkWired(w, s) && EndWired(w, s, j);
    assert w.nodes[j].connections[ev.key] == s;
    StepOnLink(w, j, ev);
    assert Act(w.nodes[j], ev).effects == [Sent(s, Added(j))];
    assert [Yes][1..] == [];
  }

  lemma DividedFallsSilent(w: Net, s: Port) returns (steps: seq<Step>, last: Net)
    requires Faithful(w) && Divided(w, s)
    ensures Leads(Patient, w, steps, last) && OnlyHears(steps) && Quiet(last) && !AllMutual(last)
  {
    steps, last := HearingLeadsToQuiet(w);
    DividedForGood(w, steps, last, s);
    DividedDisagree(last, s);
  }

  /** A full node that drops a friend has room, and the promise is still on its way to it. */
  lemma DroppingMakesRoom(w: Net, s: Port) returns (step: Step)
    requires Faithful(w) && s in w.links && Yes in w.links[s].toInitiator && w.links[s].acceptorEnd.Shut?
    requires var j := w.links[s].initiator; j in w.nodes && |w.nodes[j].friendList| == FRIENDS_LIMIT
    ensures step.event.Drop? && step.actor == w.links[s].initiator && Allowed(Patient, w, step.actor, step.event)
    ensures var w' := After(w, step.actor, step.event);
            && Faithful(w') && s in w'.links && w'.links[s] == w.links[s]
            && step.actor in w'.nodes && |w'.nodes[step.actor].friendList| < FRIENDS_LIMIT
  {
    var j := w.links[s].initiator;
    var n := w.nodes[j];
    assert NodeWired(w, j) && Matched(n);
    var key := DropMakesRoom(n);
    step := Step(j, Drop(key));
    StepKeepsFaithful(w, j, step.event);
    PromisedIsNotTracked(w, s);
    TracksByKey(w, j, key);
    hide Faithful, Matched, After, Allowed, Receive;
    DropStep(w, j, key);
  }

  lemma DropMakesRoom(n: Node) returns (key: Endpoint)
    requires Matched(n) && Sound(n) && |n.friendList| == FRIENDS_LIMIT
    ensures key in n.clientEndpoints && Act(n, Drop(key)).Turn?
    ensures |Act(n, Drop(key)).node.friendList| < FRIENDS_LIMIT
  {
    assert n.friendList[0] in n.clientEndpoints.Values;
    key :| key in n.clientEndpoints && n.clientEndpoints[key] == n.friendList[0];
    WithoutKeepsDistinct(n.friendList, n.friendList[0]);
  }

  lemma PromisedIsNotTracked(w: Net, s: Port)
    requires Orderly(w) && s in w.links && Yes in w.links[s].toInitiator
    ensures !Tracks(w, s, w.links[s].initiator)
  {
    assert LinkInPhase(w, s);
  }

  lemma PromiseSplits(w: Net, s: Port) returns (steps: seq<Step>, last: Net)
    requires Faithful(w) && s in w.links && Yes in w.links[s].toInitiator && w.links[s].acceptorEnd.Shut?
    requires var j := w.links[s].initiator; j in w.nodes && |w.nodes[j].friendList| != FRIENDS_LIMIT
    ensures Leads(Patient, w, steps, last) && OnlyHears(steps) && Quiet(last) && !AllMutual(last)
  {
    hide Faithful, Orderly, After, Act, Quiet, AllMutual;
    FaithfulIsOrderly(w);
    var j, heard := w.links[s].initiator, Hear(At(w.links[s].acceptor), Yes);
    BreakingAPromise(w, s);
    StepKeepsFaithful(w, j, heard);
    steps, last := DividedFallsSilent(After(w, j, heard), s);
    LeadsOn(w, Step(j, heard), steps, last);
    steps := [Step(j, heard)] + steps;
  }

  lemma FaithfulIsOrderly(w: Net)
    requires Faithful(w)
    ensures Orderly(w)
  {
  }

  lemma LeadsOn(w: Net, step: Step, steps: seq<Step>, last: Net)
    requires Allowed(Patient, w, step.actor, step.event)
    requires Leads(Patient, After(w, step.actor, step.event), steps, last)
    ensures Leads(Patient, w, [step] + steps, last)
  {
    assert ([step] + steps)[1..] == steps;
  }

  /**
   Every hasty reap can end in a disagreement that stays: one node counts the other
   as a friend and not the other way round, and nothing is left to hear. A promised
   node that has filled up since has to drop a friend first; all other steps are
   hearing what is on its way.
   */
  lemma HastyReapSplits(w: Net, i: Port, ev: Event, s: Port) returns (steps: seq<Step>, last: Net)
    requires HastyReap(w, i, ev, s)
    ensures Leads(Patient, After(w, i, ev), steps, last) && Quiet(last) && !AllMutual(last)
    ensures OnlyHears(steps) || (steps != [] && steps[0].event.Drop? && OnlyHears(steps[1..]))
    ensures var l := w.links[s];
            (Yes in l.toInitiator && l.initiator in w.nodes ==> |w.nodes[l.initiator].friendList| != FRIENDS_LIMIT)
            ==> OnlyHears(steps)
  {
    HastyReapFinds(w, i, ev, s);
    HastyReapAbandons(w, i, ev, s);
    hide HastyReap, Agreeing, Faithful, Act, After, Leads, Quiet, AllMutual, Tracks, LinkSettled, Allowed;
    StepKeepsFaithful(w, i, ev);
    var w1 := After(w, i, ev);
    if Yes !in w.links[s].toInitiator {
      BreakingAnAddition(w, w1, s);
      steps, last := DividedFallsSilent(w1, s);
    } else if |w1.nodes[w.links[s].initiator].friendList| != FRIENDS_LIMIT {
      steps, last := PromiseSplits(w1, s);
    } else {
      steps, last := FullNodeSplits(w1, s);
    }
  }

  lemma FullNodeSplits(w: Net, s: Port) returns (steps: seq<Step>, last: Net)
    requires Faithful(w) && s in w.links && Yes in w.links[s].toInitiator && w.links[s].acceptorEnd.Shut?
    requires var j := w.links[s].initiator; j in w.nodes && |w.nodes[j].friendList| == FRIENDS_LIMIT
    ensures Leads(Patient, w, steps, last) && Quiet(last) && !AllMutual(last)
    ensures steps != [] && steps[0].event.Drop? && OnlyHears(steps[1..])
  {
    hide Faithful, Act, After, Leads, Quiet, AllMutual;
    var step := DroppingMakesRoom(w, s);
    steps, last := PromiseSplits(After(w, step.actor, step.event), s);
    LeadsOn(w, step, steps, last);
    assert ([step] + steps)[1..] == steps;
    steps := [step] + steps;
  }

  lemma PatienceKeepsAgreement(w: Net, steps: seq<Step>, last: Net)
    requires Agreeing(w) && Leads(Patient, w, steps, last) && Quiet(last)
    ensures AllMutual(last)
  {
    hide Agreeing, Leads, Quiet, AllMutual;
    RunKeepsAgreeing(w, steps, last);
    QuietIsMutual(last);
  }

  /** All quiet networks that can follow agree. */
  ghost predicate AgreesForGood(w: Net) {
    forall steps, last :: Leads(Patient, w, steps, last) && Quiet(last) ==> AllMutual(last)
  }

  /** The patience asked of the reaper is exactly what the agreement of quiet nodes takes. */
  lemma PatienceIsAgreement(w: Net, i: Port, ev: Event)
    requires Agreeing(w) && Possible(w, i, ev) && NoCrossing(w, i, ev)
    ensures PatientReaper(w, i, ev) <==> AgreesForGood(After(w, i, ev))
  {
    hide Agreeing, Act, After, Leads, Quiet, AllMutual;
    if PatientReaper(w, i, ev) {
      StepKeepsAgreeing(w, i, ev);
      forall steps, last | Leads(Patient, After(w, i, ev), steps, last) && Quiet(last) ensures AllMutual(last) {
        PatienceKeepsAgreement(After(w, i, ev), steps, last);
      }
    } else {
      var steps, last := HastyReapSplits(w, i, ev, w.nodes[i].connections[ev.key]);
    }
  }

  // ----- A run that gets there -----

  const A: Port := 20000
  /** Node `A` asks the first node, is told `Yes`, and answers after the first node has reaped the link. */
  function Hasty(): seq<Step> {
    [Step(A, Prime),
     Step(A, Dial),
     Step(FIRST, Accept(A + 1)),
     Step(FIRST, Hear(At(A + 1), BeFriends(A))),
     Step(FIRST, Reap(At(A + 1))),
     Step(A, Hear(At(FIRST), Yes))]
  }

  function Stage(a: Node, z: Node, links: map<Port, Link>): Net {
    Net(map[A := a, FIRST := z], links)
  }

  /** The network before step `k` of that run, and after its last step. */
  function Stages(k: nat): Net {
    var a0 := Initial(A);
    var a2 := a0.(port := A + 1, connections := map[At(FIRST) := A + 1]);
    var z0 := Initial(FIRST);
    var z3 := z0.(connections := map[At(A + 1) := A + 1]);
    if k == 0 then Stage(a0, z0, map[])
    else if k == 1 then Stage(a0.(pendingEndpoints := [At(FIRST)]), z0, map[])
    else if k == 2 then Stage(a2, z0, map[A + 1 := Link(A, FIRST, Live, Waiting, [], [BeFriends(A)])])
    else if k == 3 then Stage(a2, z3, map[A + 1 := Link(A, FIRST, Live, Live, [], [BeFriends(A)])])
    else if k == 4 then Stage(a2, z3, map[A + 1 := Link(A, FIRST, Live, Live, [Yes], [])])
    else if k == 5 then Stage(a2, z0, map[A + 1 := Link(A, FIRST, Live, Shut, [Yes], [])])
    else Stage(a2.(friendList := [At(FIRST)], clientEndpoints := map[At(FIRST) := At(FIRST)]), z0,
               map[A + 1 := Link(A, FIRST, Live, Shut, [], [])])
  }

  ghost predicate Follows(k: nat)
    requires k < 6
  {
    && Allowed(Uncrossed, Stages(k), Hasty()[k].actor, Hasty()[k].event)
    && After(Stages(k), Hasty()[k].actor, Hasty()[k].event) == Stages(k + 1)
  }

  lemma AskingStage()
    ensures Follows(0) && Follows(1)
  {
    var w, ev := Stages(0), Prime;
    assert Act(w.nodes[A], ev).node == Stages(1).nodes[A] by {
      assert [] + [FIRST_ENDPOINT] == [At(FIRST)];
    }
    assert After(w, A, ev).nodes == Stages(1).nodes;
    w, ev := Stages(1), Dial;
    ActDials(w.nodes[A], ev, A, FIRST, A + 1);
    PostDials(w.links, A, FIRST, A + 1, true);
    assert Dialling(w.nodes[A], FIRST, A + 1) == Stages(2).nodes[A] by {
      assert [At(FIRST)][1..] == [];
    }
    assert After(w, A, ev).nodes == Stages(2).nodes && After(w, A, ev).links == Stages(2).links;
  }

  lemma AcceptingStage()
    ensures Follows(2)
  {
    var w, ev := Stages(2), Accept(A + 1);
    assert After(w, FIRST, ev).nodes == Stages(3).nodes && After(w, FIRST, ev).links == Stages(3).links;
  }

  lemma AnsweringStage()
    ensures Follows(3)
  {
    var w, ev := Stages(3), Hear(At(A + 1), BeFriends(A));
    StepIsLocal(w, FIRST, ev);
    assert [BeFriends(A)][1..] == [] && [] + [Yes] == [Yes];
    assert After(w, FIRST, ev).nodes == Stages(4).nodes && After(w, FIRST, ev).links == Stages(4).links;
  }

  lemma ReapingStage()
    ensures Follows(4)
  {
    var w, ev := Stages(4), Reap(At(A + 1));
    StepIsLocal(w, FIRST, ev);
    assert After(w, FIRST, ev).nodes == Stages(5).nodes && After(w, FIRST, ev).links == Stages(5).links;
  }

  lemma AddingStage()
    ensures Follows(5)
  {
    var w, ev := Stages(5), Hear(At(FIRST), Yes);
    StepIsLocal(w, A, ev);
    assert [Yes][1..] == [];
    assert Act(w.nodes[A], ev).node == Stages(6).nodes[A] by {
      assert [] + [At(FIRST)] == [At(FIRST)];
    }
    assert After(w, A, ev).nodes == Stages(6).nodes && After(w, A, ev).links == Stages(6).links;
  }

  lemma HastyLeads(k: nat)
    requires k <= 6
    ensures Leads(Uncrossed, Stages(k), Hasty()[k..], Stages(6))
    decreases 6 - k
  {
    if k < 6 {
      assert Follows(k) by {
        AskingStage();
        AcceptingStage();
        AnsweringStage();
        ReapingStage();
        AddingStage();
      }
      HastyLeads(k + 1);
      assert Hasty()[k..][1..] == Hasty()[k + 1..];
      assert Hasty()[k..][0] == Hasty()[k];
    }
  }

  lemma HastyStarts()
    ensures Start(Stages(0))
  {
  }

  lemma HastyIsReachable()
    ensures Reachable(Uncrossed, Stages(6))
  {
    HastyStarts();
    HastyLeads(0);
    hide Start, Leads, Stages;
    assert Hasty()[0..] == Hasty();
  }

  /** Without crossing, but with a reaper that closes a promised link, quiet nodes can disagree. */
  lemma HastyReaperBreaksAgreement()
    ensures exists w, i: Port, j: Port ::
              && Reachable(Uncrossed, w) && Quiet(w) && i in w.nodes && j in w.nodes
              && At(j) in w.nodes[i].friendList && At(i) !in w.nodes[j].friendList
  {
    HastyIsReachable();
    var w := Stages(6);
    assert Quiet(w) && At(FIRST) in w.nodes[A].friendList && At(A) !in w.nodes[FIRST].friendList;
  }
}
