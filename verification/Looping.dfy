/**
 The rounds of the other loops in the network: dialling what is pending, reaping
 idle connections and asking a friend, uninterrupted, are runs of the network,
 and do to the node and to all links what the round of the node says.
 */
module Looping {
  import opened Endpoints
  import opened Protocol
  import opened Network
  import opened Handshake
  import opened Hearing
  import opened Rounds
  import opened Draining

  /** The network after node `i` has done what `t` says. */
  function AfterTurn(w: Net, i: Port, t: Turn): Net
    requires t.Turn?
  {
    Net(w.nodes[i := t.node], PostAll(w.links, i, t.effects))
  }

  /** Steps of one node that receive nothing. */
  predicate OwnStep(ev: Event) {
    ev.Dial? || ev.Prime? || ev.Reap? || ev.Ask? || ev.Drop?
  }

  lemma OwnStepTurns(w: Net, i: Port, ev: Event)
    requires Possible(w, i, ev) && OwnStep(ev)
    ensures After(w, i, ev) == AfterTurn(w, i, Act(w.nodes[i], ev))
  {
  }

  /** Doing one thing after another. */
  lemma TurnFollows(w: Net, i: Port, t: Turn, t': Turn)
    requires t.Turn? && t'.Turn?
    ensures AfterTurn(AfterTurn(w, i, t), i, t') == AfterTurn(w, i, Following(t.effects, t'))
  {
    PostAllAppends(w.links, i, t.effects, t'.effects);
    assert w.nodes[i := t.node][i := t'.node] == w.nodes[i := t'.node];
  }

  lemma NothingDone(w: Net, i: Port)
    requires i in w.nodes
    ensures AfterTurn(w, i, Turn(w.nodes[i], [])) == w
  {
    assert w.nodes[i := w.nodes[i]] == w.nodes;
  }

  lemma OneMoreStep(regime: Regime, w: Net, steps: seq<Step>, mid: Net, i: Port, ev: Event)
    requires Leads(regime, w, steps, mid) && Allowed(regime, mid, i, ev)
    ensures Leads(regime, w, steps + [Step(i, ev)], After(mid, i, ev))
  {
    LeadsByOne(regime, mid, i, ev);
    LeadsConcatenate(regime, w, steps, mid, [Step(i, ev)], After(mid, i, ev));
  }

  lemma LeadsByOne(regime: Regime, w: Net, i: Port, ev: Event)
    requires Allowed(regime, w, i, ev)
    ensures Leads(regime, w, [Step(i, ev)], After(w, i, ev))
  {
    hide Act, After, Possible;
    assert [Step(i, ev)][1..] == [];
  }

  // ----- Dialling -----

  predicate IsFree(w: Net, p: int) {
    0 <= p < 0x1_0000 && p !in w.links && p !in w.nodes
  }

  /** The next `k` client ports of the node exist and nobody has them. */
  ghost predicate PortsAhead(w: Net, n: Node, k: nat) {
    forall p :: n.port < p <= n.port + k ==> IsFree(w, p)
  }

  ghost predicate DialsOf(i: Port, steps: seq<Step>) {
    forall step :: step in steps ==> step.actor == i && (step.event.Dial? || step.event.Prime?)
  }

  lemma DialIsPossible(w: Net, i: Port)
    requires i in w.nodes && i != FIRST && w.nodes[i].pendingEndpoints != []
    requires PortsAhead(w, w.nodes[i], |w.nodes[i].pendingEndpoints|)
    ensures Possible(w, i, Dial)
  {
    assert IsFree(w, w.nodes[i].port + 1);
  }

  /** A dial takes at most the next port. */
  lemma DialTakesOnePort(w: Net, i: Port)
    requires i in w.nodes && i != FIRST && w.nodes[i].pendingEndpoints != []
    requires PortsAhead(w, w.nodes[i], |w.nodes[i].pendingEndpoints|)
    ensures var t := Act(w.nodes[i], Dial);
            t.Turn? && PortsAhead(AfterTurn(w, i, t), t.node, |t.node.pendingEndpoints|)
  {
    var n := w.nodes[i];
    var t := Act(n, Dial);
    assert IsFree(w, n.port + 1);
    DialPosts(w.links, n, i);
    forall p | t.node.port < p <= t.node.port + |t.node.pendingEndpoints| ensures IsFree(AfterTurn(w, i, t), p) {
      assert IsFree(w, p);
    }
  }

  lemma DialPosts(links: map<Port, Link>, n: Node, i: Port)
    requires n.pendingEndpoints != [] && 0 <= n.port + 1 < 0x1_0000
    ensures var t := Act(n, Dial);
            && t.Turn?
            && |t.node.pendingEndpoints| == |n.pendingEndpoints| - 1
            && (t.node.port == n.port || t.node.port == n.port + 1)
            && (forall s :: s in PostAll(links, i, t.effects) ==> s in links || (s == n.port + 1 == t.node.port))
  {
    var es := Act(n, Dial).effects;
    if es != [] {
      var links1 := Post(links, i, es[0]);
      if |es| == 2 {
        assert es[1..] == [es[1]] && es[1..][1..] == [];
        assert PostAll(links1, i, es[1..]) == Post(links1, i, es[1]);
      } else {
        assert es[1..] == [];
      }
    }
  }

  /** The inner connection loop, when the ports it may need are free. */
  lemma {:induction false} DialsLead(regime: Regime, w: Net, i: Port) returns (steps: seq<Step>)
    requires !regime.uncrossed && i in w.nodes && i != FIRST
    requires PortsAhead(w, w.nodes[i], |w.nodes[i].pendingEndpoints|)
    ensures DialAll(w.nodes[i]).Turn? && DialsOf(i, steps)
    ensures Leads(regime, w, steps, AfterTurn(w, i, DialAll(w.nodes[i])))
    decreases |w.nodes[i].pendingEndpoints|
  {
    var n := w.nodes[i];
    if |n.friendList| == FRIENDS_LIMIT || n.pendingEndpoints == [] {
      NothingDone(w, i);
      return [];
    }
    DialIsPossible(w, i);
    DialTakesOnePort(w, i);
    OwnStepTurns(w, i, Dial);
    var t, w1 := Act(n, Dial), After(w, i, Dial);
    assert Allowed(regime, w, i, Dial) && w1.nodes[i] == t.node && |t.node.pendingEndpoints| < |n.pendingEndpoints|;
    hide Act, After, Possible, Allowed, PostAll, PortsAhead;
    var rest := DialsLead(regime, w1, i);
    TurnFollows(w, i, t, DialAll(t.node));
    steps := [Step(i, Dial)] + rest;
    LeadsByOne(regime, w, i, Dial);
    LeadsConcatenate(regime, w, [Step(i, Dial)], w1, rest, AfterTurn(w1, i, DialAll(t.node)));
  }

  lemma SamePortsAhead(w: Net, n: Node, w': Net, n': Node, k: nat)
    requires PortsAhead(w, n, |n.pendingEndpoints| + 1) && k <= |n.pendingEndpoints| + 1
    requires n'.port == n.port && w'.links == w.links && w'.nodes.Keys == w.nodes.Keys
    ensures PortsAhead(w', n', k)
  {
    forall p | n'.port < p <= n'.port + k ensures IsFree(w', p) {
      assert IsFree(w, p);
    }
  }

  /** A whole pass of the outer connection loop. */
  lemma ConnectionRoundLeads(regime: Regime, w: Net, i: Port) returns (steps: seq<Step>)
    requires !regime.uncrossed && i in w.nodes && i != FIRST
    requires PortsAhead(w, w.nodes[i], |w.nodes[i].pendingEndpoints| + 1)
    ensures DialAll(Primed(w.nodes[i])).Turn? && DialsOf(i, steps)
    ensures Leads(regime, w, steps, AfterTurn(w, i, DialAll(Primed(w.nodes[i]))))
  {
    var n := w.nodes[i];
    if n.pendingEndpoints == [] || FIRST_ENDPOINT in n.friendList {
      assert Possible(w, i, Prime);
      OwnStepTurns(w, i, Prime);
      var t, w1 := Act(n, Prime), After(w, i, Prime);
      assert w1.links == w.links && w1.nodes.Keys == w.nodes.Keys && w1.nodes[i] == t.node;
      SamePortsAhead(w, n, w1, t.node, |t.node.pendingEndpoints|);
      var rest := DialsLead(regime, w1, i);
      TurnFollows(w, i, t, DialAll(t.node));
      assert Following([], DialAll(t.node)) == DialAll(t.node);
      steps := [Step(i, Prime)] + rest;
      LeadsByOne(regime, w, i, Prime);
      LeadsConcatenate(regime, w, [Step(i, Prime)], w1, rest, AfterTurn(w1, i, DialAll(t.node)));
    } else {
      SamePortsAhead(w, n, w, n, |n.pendingEndpoints|);
      steps := DialsLead(regime, w, i);
    }
  }

  // ----- Reaping -----

  ghost predicate IdleKeys(n: Node, keys: seq<Endpoint>) {
    NoDuplicates(keys) && forall k :: k in keys ==> k in n.connections && k !in n.clientEndpoints
  }

  function ReapsOf(i: Port, keys: seq<Endpoint>): seq<Step> {
    seq(|keys|, j requires 0 <= j < |keys| => Step(i, Reap(keys[j])))
  }

  /** Closing sockets leaves all other links as they were. */
  lemma {:induction false} ClosingElsewhere(links: map<Port, Link>, i: Port, es: seq<Effect>, s: Port)
    requires forall ef :: ef in es ==> ef.Closed? && ef.socket != s
    ensures s in PostAll(links, i, es) <==> s in links
    ensures s in links ==> PostAll(links, i, es)[s] == links[s]
    decreases |es|
  {
    if es != [] {
      assert es[0] in es;
      assert forall ef :: ef in es[1..] ==> ef in es;
      ClosingElsewhere(Post(links, i, es[0]), i, es[1..], s);
    }
  }

  /** After idle keys have been reaped, another idle key is as it was. */
  lemma OtherKeyStays(w: Net, i: Port, keys: seq<Endpoint>, e: Endpoint)
    requires Orderly(w) && i in w.nodes && IdleKeys(w.nodes[i], keys) && e !in keys
    requires e in w.nodes[i].connections && e !in w.nodes[i].clientEndpoints
    ensures HangupAll(w.nodes[i], keys).Turn?
    ensures var mid, s := AfterTurn(w, i, HangupAll(w.nodes[i], keys)), w.nodes[i].connections[e];
            && mid.nodes[i].clientEndpoints == w.nodes[i].clientEndpoints
            && e in mid.nodes[i].connections && mid.nodes[i].connections[e] == s
            && (s in mid.links <==> s in w.links) && (s in w.links ==> mid.links[s] == w.links[s])
  {
    var n := w.nodes[i];
    HangupAllCloses(n, keys);
    var es := ClosedSockets(n.connections, keys);
    forall ef | ef in es ensures ef.Closed? && ef.socket != n.connections[e] {
      var j :| 0 <= j < |es| && es[j] == ef;
      assert keys[j] in keys;
      OwnSockets(w, i, keys[j], e);
    }
    ClosingElsewhere(w.links, i, es, n.connections[e]);
  }

  /** Reaping the key goes back on no promise. */
  ghost predicate Unpromised(w: Net, i: Port, e: Endpoint) {
    i in w.nodes && e in w.nodes[i].connections
    && var s := w.nodes[i].connections[e];
       s in w.links && i == w.links[s].acceptor ==> !Promising(w.links[s])
  }

  lemma UnpromisedIsPatient(w: Net, i: Port, e: Endpoint)
    requires Enabled(w, i, Reap(e))
    ensures PatientReaper(w, i, Reap(e)) <==> Unpromised(w, i, e)
  {
  }

  lemma ReapIsAllowed(regime: Regime, w: Net, mid: Net, i: Port, e: Endpoint)
    requires i in w.nodes && i in mid.nodes && e in w.nodes[i].connections && e !in w.nodes[i].clientEndpoints
    requires mid.nodes[i].clientEndpoints == w.nodes[i].clientEndpoints
    requires e in mid.nodes[i].connections && mid.nodes[i].connections[e] == w.nodes[i].connections[e]
    requires var s := w.nodes[i].connections[e];
             (s in mid.links <==> s in w.links) && (s in w.links ==> mid.links[s] == w.links[s])
    requires regime.patient ==> Unpromised(w, i, e)
    ensures Allowed(regime, mid, i, Reap(e))
  {
  }

  lemma ReapAfterReaps(regime: Regime, w: Net, i: Port, front: seq<Endpoint>, e: Endpoint)
    requires Orderly(w) && i in w.nodes && IdleKeys(w.nodes[i], front) && e !in front
    requires e in w.nodes[i].connections && e !in w.nodes[i].clientEndpoints
    requires regime.patient ==> Unpromised(w, i, e)
    ensures HangupAll(w.nodes[i], front).Turn?
    ensures var t := HangupAll(w.nodes[i], front);
            var mid := AfterTurn(w, i, t);
            && Hangup(t.node, e).Turn?
            && Allowed(regime, mid, i, Reap(e))
            && After(mid, i, Reap(e)) == AfterTurn(mid, i, Hangup(t.node, e))
  {
    OtherKeyStays(w, i, front, e);
    var mid := AfterTurn(w, i, HangupAll(w.nodes[i], front));
    ReapIsAllowed(regime, w, mid, i, e);
    OwnStepTurns(mid, i, Reap(e));
  }

  lemma OneMoreReap(regime: Regime, w: Net, i: Port, front: seq<Endpoint>, e: Endpoint)
    requires Orderly(w) && i in w.nodes && IdleKeys(w.nodes[i], front) && e !in front
    requires e in w.nodes[i].connections && e !in w.nodes[i].clientEndpoints
    requires regime.patient ==> Unpromised(w, i, e)
    requires HangupAll(w.nodes[i], front).Turn?
    requires Leads(regime, w, ReapsOf(i, front), AfterTurn(w, i, HangupAll(w.nodes[i], front)))
    ensures HangupAll(w.nodes[i], front + [e]).Turn?
    ensures Leads(regime, w, ReapsOf(i, front + [e]), AfterTurn(w, i, HangupAll(w.nodes[i], front + [e])))
  {
    hide Orderly, Leads, PostAll, Act, After, Allowed, Hangup, AfterTurn, Unpromised, IdleKeys;
    ReapAfterReaps(regime, w, i, front, e);
    var t, keys := HangupAll(w.nodes[i], front), front + [e];
    var mid := AfterTurn(w, i, t);
    assert keys[..|keys| - 1] == front && keys[|keys| - 1] == e;
    OneMoreStep(regime, w, ReapsOf(i, front), mid, i, Reap(e));
    TurnFollows(w, i, t, Hangup(t.node, e));
    assert ReapsOf(i, keys) == ReapsOf(i, front) + [Step(i, Reap(e))];
  }

  /** The keys that a reaping round closes, one after the other. */
  lemma {:induction false} ReapsLead(regime: Regime, w: Net, i: Port, keys: seq<Endpoint>)
    requires Orderly(w) && i in w.nodes && IdleKeys(w.nodes[i], keys)
    requires regime.patient ==> forall k :: k in keys ==> Unpromised(w, i, k)
    ensures HangupAll(w.nodes[i], keys).Turn?
    ensures Leads(regime, w, ReapsOf(i, keys), AfterTurn(w, i, HangupAll(w.nodes[i], keys)))
    decreases |keys|
  {
    hide Orderly, Leads, PostAll, Unpromised, HangupAll;
    if keys == [] {
      NoReaps(regime, w, i);
    } else {
      var front, e := keys[..|keys| - 1], keys[|keys| - 1];
      assert keys == front + [e];
      assert e in keys && forall k :: k in front ==> k in keys;
      ReapsLead(regime, w, i, front);
      OneMoreReap(regime, w, i, front, e);
    }
  }

  lemma NoReaps(regime: Regime, w: Net, i: Port)
    requires i in w.nodes
    ensures HangupAll(w.nodes[i], []).Turn?
    ensures Leads(regime, w, ReapsOf(i, []), AfterTurn(w, i, HangupAll(w.nodes[i], [])))
  {
    NothingDone(w, i);
  }

  // ----- Asking -----

  function AsksOf(i: Port, keys: seq<Endpoint>): seq<Step> {
    seq(|keys|, j requires 0 <= j < |keys| => Step(i, Ask(keys[j])))
  }

  lemma OneMoreAsk(regime: Regime, w: Net, i: Port, front: seq<Endpoint>, e: Endpoint)
    requires i in w.nodes && Sound(w.nodes[i]) && e in w.nodes[i].clientEndpoints
    requires AskAll(w.nodes[i], front).Turn? && AskAll(w.nodes[i], front).node == w.nodes[i]
    requires Leads(regime, w, AsksOf(i, front), AfterTurn(w, i, AskAll(w.nodes[i], front)))
    ensures AskAll(w.nodes[i], front + [e]).Turn? && AskAll(w.nodes[i], front + [e]).node == w.nodes[i]
    ensures Leads(regime, w, AsksOf(i, front + [e]), AfterTurn(w, i, AskAll(w.nodes[i], front + [e])))
  {
    var n, keys := w.nodes[i], front + [e];
    assert keys[..|keys| - 1] == front;
    var t, mid := AskAll(n, front), AfterTurn(w, i, AskAll(n, front));
    assert Allowed(regime, mid, i, Ask(e));
    OwnStepTurns(mid, i, Ask(e));
    assert Act(mid.nodes[i], Ask(e)) == AskForFriends(n, e);
    hide Leads, PostAll, Act, After, Allowed;
    OneMoreStep(regime, w, AsksOf(i, front), mid, i, Ask(e));
    TurnFollows(w, i, t, AskForFriends(n, e));
    assert AsksOf(i, keys) == AsksOf(i, front) + [Step(i, Ask(e))];
  }

  /** The keys of a friend that is asked for its friends, one after the other. */
  lemma {:induction false} AsksLead(regime: Regime, w: Net, i: Port, keys: seq<Endpoint>)
    requires i in w.nodes && Sound(w.nodes[i]) && forall k :: k in keys ==> k in w.nodes[i].clientEndpoints
    ensures AskAll(w.nodes[i], keys).Turn? && AskAll(w.nodes[i], keys).node == w.nodes[i]
    ensures Leads(regime, w, AsksOf(i, keys), AfterTurn(w, i, AskAll(w.nodes[i], keys)))
    decreases |keys|
  {
    hide Leads, PostAll, AskAll, Sound;
    if keys == [] {
      NoAsks(regime, w, i);
    } else {
      var front, e := keys[..|keys| - 1], keys[|keys| - 1];
      assert keys == front + [e] && e in keys;
      AsksLead(regime, w, i, front);
      OneMoreAsk(regime, w, i, front, e);
    }
  }

  lemma NoAsks(regime: Regime, w: Net, i: Port)
    requires i in w.nodes
    ensures AskAll(w.nodes[i], []).Turn? && AskAll(w.nodes[i], []).node == w.nodes[i]
    ensures Leads(regime, w, AsksOf(i, []), AfterTurn(w, i, AskAll(w.nodes[i], [])))
  {
    NothingDone(w, i);
  }
}
