/**
 What the handshake achieves when it is not disturbed, from any network in
 which the request is on its way: the two nodes become friends, a promise that
 cannot be kept is undone without a trace, and a refused node learns of others.
 */
module Scenarios {
  import opened Endpoints
  import opened Protocol
  import opened Network
  import opened Wiring
  import opened Handshake

  /** Link `s` from `a` to `b` is open at both ends, and this is what is on its way. */
  ghost predicate OpenLink(w: Net, s: Port, a: Port, b: Port, toInitiator: seq<Message>, toAcceptor: seq<Message>) {
    && s in w.links && w.links[s] == Link(a, b, Live, Live, toInitiator, toAcceptor)
    && a in w.nodes && b in w.nodes && a != b
    && At(b) in w.nodes[a].connections && w.nodes[a].connections[At(b)] == s
    && At(s) in w.nodes[b].connections && w.nodes[b].connections[At(s)] == s
    && w.nodes[a].endpoint == At(a) && w.nodes[b].endpoint == At(b)
    && Sound(w.nodes[a]) && Sound(w.nodes[b])
  }

  lemma OpenInOrderly(w: Net, s: Port)
    requires Orderly(w) && s in w.links && w.links[s].initiatorEnd.Live? && w.links[s].acceptorEnd.Live?
    ensures var l := w.links[s]; OpenLink(w, s, l.initiator, l.acceptor, l.toInitiator, l.toAcceptor)
  {
    var l := w.links[s];
    assert LinkWired(w, s) && NodeWired(w, l.initiator) && NodeWired(w, l.acceptor);
    assert EndWired(w, s, l.initiator) && EndWired(w, s, l.acceptor);
  }

  /** The network after node `i` has handled the next message on link `s`. */
  function Heard(w: Net, i: Port, n: Node, s: Port, l: Link): Net {
    Net(w.nodes[i := n], w.links[s := l])
  }

  /** The link after end `i` of an open link has read its only message. */
  function Replied(a: Port, b: Port, i: Port, reply: Reply, hangup: bool): Link {
    var said := if reply.Says? then [reply.message] else [];
    var end := if hangup then Shut else Live;
    if i == a then Link(a, b, end, Live, [], said) else Link(a, b, Live, end, said, [])
  }

  lemma SettleReplies(l: Link, i: Port, m: Message, reply: Reply, hangup: bool)
    requires Joins(l, i) && l.initiatorEnd.Live? && l.acceptorEnd.Live? && l.initiator != l.acceptor
    requires Incoming(l, i) == [m] && Incoming(l, PeerOf(l, i)) == []
    ensures Settle(l, i, true, reply, hangup) == Replied(l.initiator, l.acceptor, i, reply, hangup)
  {
    assert [m][1..] == [];
    if reply.Says? { assert [] + [reply.message] == [reply.message]; }
  }

  lemma HearStep(w: Net, s: Port, a: Port, b: Port, i: Port, key: Endpoint, m: Message,
                 n': Node, reply: Reply, hangup: bool)
    requires OpenLink(w, s, a, b, if i == a then [m] else [], if i == a then [] else [m])
    requires (i == a && key == At(b)) || (i == b && key == At(s))
    requires Receive(w.nodes[i], key, m) == Turn(n', EffectsOf(s, reply, hangup))
    ensures Allowed(Patient, w, i, Hear(key, m))
    ensures After(w, i, Hear(key, m)) == Heard(w, i, n', s, Replied(a, b, i, reply, hangup))
  {
    HearingReplies(w, s, w.links[s], i, key, m, n', reply, hangup);
    SettleReplies(w.links[s], i, m, reply, hangup);
  }

  lemma HearingReplies(w: Net, s: Port, l: Link, i: Port, key: Endpoint, m: Message,
                       n': Node, reply: Reply, hangup: bool)
    requires s in w.links && w.links[s] == l && i in w.nodes && Sound(w.nodes[i])
    requires key in w.nodes[i].connections && w.nodes[i].connections[key] == s
    requires Incoming(l, i) != [] && Incoming(l, i)[0] == m
    requires Receive(w.nodes[i], key, m) == Turn(n', EffectsOf(s, reply, hangup))
    ensures Allowed(Patient, w, i, Hear(key, m))
    ensures After(w, i, Hear(key, m)) == Heard(w, i, n', s, Settle(l, i, true, reply, hangup))
  {
    StepIsLocal(w, i, Hear(key, m));
  }

  /** The network after node `i` has dropped the friend it has under `key`. */
  lemma DropStep(w: Net, i: Port, key: Endpoint)
    requires i in w.nodes && Sound(w.nodes[i]) && key in w.nodes[i].clientEndpoints
    requires w.nodes[i].connections[key] in w.links
    ensures var n, s := w.nodes[i], w.nodes[i].connections[key];
            && Allowed(Patient, w, i, Drop(key))
            && After(w, i, Drop(key)) ==
                 Net(w.nodes[i := n.(friendList := Without(n.friendList, n.clientEndpoints[key]),
                                     connections := n.connections - {key},
                                     clientEndpoints := n.clientEndpoints - {key})],
                     w.links[s := ShutEnd(Put(w.links[s], i, Removed(n.endpoint.port)), i)])
  {
    StepIsLocal(w, i, Drop(key));
  }

  /** The network after node `i` has reaped `key`. */
  lemma ReapShuts(w: Net, i: Port, key: Endpoint)
    requires i in w.nodes && Sound(w.nodes[i]) && key in w.nodes[i].connections && key !in w.nodes[i].clientEndpoints
    requires w.nodes[i].connections[key] in w.links
    ensures var n, s := w.nodes[i], w.nodes[i].connections[key];
            && Possible(w, i, Reap(key))
            && After(w, i, Reap(key)) ==
                 Net(w.nodes[i := n.(connections := n.connections - {key})], w.links[s := ShutEnd(w.links[s], i)])
  {
    assert w.nodes[i].clientEndpoints - {key} == w.nodes[i].clientEndpoints;
    StepIsLocal(w, i, Reap(key));
  }

  /** A reap that goes back on no promise is allowed. */
  lemma ReapStep(w: Net, i: Port, key: Endpoint)
    requires i in w.nodes && Sound(w.nodes[i]) && key in w.nodes[i].connections && key !in w.nodes[i].clientEndpoints
    requires var s := w.nodes[i].connections[key]; s in w.links && !Promising(w.links[s])
    ensures var n, s := w.nodes[i], w.nodes[i].connections[key];
            && Allowed(Patient, w, i, Reap(key))
            && After(w, i, Reap(key)) ==
                 Net(w.nodes[i := n.(connections := n.connections - {key})], w.links[s := ShutEnd(w.links[s], i)])
  {
    ReapShuts(w, i, key);
  }

  lemma FollowedBy(w: Net, step: Step, rest: seq<Step>, last: Net)
    requires Allowed(Patient, w, step.actor, step.event)
    requires Leads(Patient, After(w, step.actor, step.event), rest, last)
    ensures Leads(Patient, w, [step] + rest, last)
  {
    assert ([step] + rest)[1..] == rest;
  }

  lemma RequestIsAnswered(w: Net, s: Port, a: Port, b: Port)
    requires OpenLink(w, s, a, b, [], [BeFriends(a)])
    ensures var ev := Hear(At(s), BeFriends(a));
            var welcome := |w.nodes[b].friendList| < FRIENDS_LIMIT && At(a) !in w.nodes[b].clientEndpoints.Values;
            && Allowed(Patient, w, b, ev)
            && After(w, b, ev) == Heard(w, b, w.nodes[b], s, Link(a, b, Live, Live, [if welcome then Yes else No], []))
  {
    var welcome := |w.nodes[b].friendList| < FRIENDS_LIMIT && At(a) !in w.nodes[b].clientEndpoints.Values;
    HearStep(w, s, a, b, b, At(s), BeFriends(a), w.nodes[b], Says(if welcome then Yes else No), false);
  }

  lemma YesIsTaken(w: Net, s: Port, a: Port, b: Port)
    requires OpenLink(w, s, a, b, [Yes], [])
    requires |w.nodes[a].friendList| < FRIENDS_LIMIT && At(b) !in w.nodes[a].clientEndpoints
    ensures var ev := Hear(At(b), Yes);
            var n := w.nodes[a];
            && Allowed(Patient, w, a, ev)
            && After(w, a, ev) == Heard(w, a, n.(friendList := n.friendList + [At(b)],
                                                clientEndpoints := n.clientEndpoints[At(b) := At(b)]),
                                        s, Link(a, b, Live, Live, [], [Added(a)]))
  {
    var n := w.nodes[a];
    HearStep(w, s, a, b, a, At(b), Yes,
             n.(friendList := n.friendList + [At(b)], clientEndpoints := n.clientEndpoints[At(b) := At(b)]),
             Says(Added(a)), false);
  }

  /** A node that has filled up since it asked takes no notice. */
  lemma YesIsIgnored(w: Net, s: Port, a: Port, b: Port)
    requires OpenLink(w, s, a, b, [Yes], []) && |w.nodes[a].friendList| == 6
    ensures var ev := Hear(At(b), Yes);
            && Allowed(Patient, w, a, ev)
            && After(w, a, ev) == Heard(w, a, w.nodes[a], s, Link(a, b, Live, Live, [], []))
  {
    HearStep(w, s, a, b, a, At(b), Yes, w.nodes[a], Silent, false);
  }

  lemma AddedIsConfirmed(w: Net, s: Port, a: Port, b: Port)
    requires OpenLink(w, s, a, b, [], [Added(a)])
    requires |w.nodes[b].friendList| < FRIENDS_LIMIT
    requires At(a) !in w.nodes[b].friendList && At(s) !in w.nodes[b].clientEndpoints
    ensures var ev := Hear(At(s), Added(a));
            var n := w.nodes[b];
            && Allowed(Patient, w, b, ev)
            && After(w, b, ev) == Heard(w, b, n.(friendList := n.friendList + [At(a)],
                                                clientEndpoints := n.clientEndpoints[At(s) := At(a)]),
                                        s, Link(a, b, Live, Live, [Confirmed], []))
  {
    var n := w.nodes[b];
    HearStep(w, s, a, b, b, At(s), Added(a),
             n.(friendList := n.friendList + [At(a)], clientEndpoints := n.clientEndpoints[At(s) := At(a)]),
             Says(Confirmed), false);
  }

  lemma ConfirmationIsDropped(w: Net, s: Port, a: Port, b: Port)
    requires OpenLink(w, s, a, b, [Confirmed], [])
    ensures var ev := Hear(At(b), Confirmed);
            && Allowed(Patient, w, a, ev)
            && After(w, a, ev) == Heard(w, a, w.nodes[a], s, Link(a, b, Live, Live, [], []))
  {
    HearStep(w, s, a, b, a, At(b), Confirmed, w.nodes[a], Silent, false);
  }

  lemma AddedIsRefused(w: Net, s: Port, a: Port, b: Port)
    requires OpenLink(w, s, a, b, [], [Added(a)])
    requires |w.nodes[b].friendList| == FRIENDS_LIMIT
    requires At(a) !in w.nodes[b].friendList && At(s) !in w.nodes[b].clientEndpoints
    ensures var ev := Hear(At(s), Added(a));
            var n := w.nodes[b];
            && Allowed(Patient, w, b, ev)
            && After(w, b, ev) == Heard(w, b, n.(connections := n.connections - {At(s)}),
                                        s, Link(a, b, Live, Shut, [NotConfirmed], []))
  {
    var n := w.nodes[b];
    assert n.clientEndpoints - {At(s)} == n.clientEndpoints;
    HearStep(w, s, a, b, b, At(s), Added(a), n.(connections := n.connections - {At(s)}), Says(NotConfirmed), true);
  }

  lemma RefusalIsGiven(w: Net, s: Port, a: Port, b: Port)
    requires OpenLink(w, s, a, b, [No], [])
    ensures var ev := Hear(At(b), No);
            && Allowed(Patient, w, a, ev)
            && After(w, a, ev) == Heard(w, a, w.nodes[a], s, Link(a, b, Live, Live, [], [SendFriends]))
  {
    HearStep(w, s, a, b, a, At(b), No, w.nodes[a], Says(SendFriends), false);
  }

  lemma ListIsSent(w: Net, s: Port, a: Port, b: Port)
    requires OpenLink(w, s, a, b, [], [SendFriends]) && At(s) !in w.nodes[b].clientEndpoints
    ensures var ev := Hear(At(s), SendFriends);
            var n := w.nodes[b];
            && Allowed(Patient, w, b, ev)
            && After(w, b, ev) == Heard(w, b, n.(connections := n.connections - {At(s)}),
                                        s, Link(a, b, Live, Shut, [Friends(n.friendList)], []))
  {
    var n := w.nodes[b];
    assert n.clientEndpoints - {At(s)} == n.clientEndpoints;
    HearStep(w, s, a, b, b, At(s), SendFriends, n.(connections := n.connections - {At(s)}),
             Says(Friends(n.friendList)), true);
  }

  /** A friend gets the list and stays connected. */
  lemma FriendIsSentList(w: Net, s: Port, a: Port, b: Port)
    requires OpenLink(w, s, a, b, [], [SendFriends]) && At(s) in w.nodes[b].clientEndpoints
    ensures var ev := Hear(At(s), SendFriends);
            && Allowed(Patient, w, b, ev)
            && After(w, b, ev) ==
                 Heard(w, b, w.nodes[b], s, Link(a, b, Live, Live, [Friends(w.nodes[b].friendList)], []))
  {
    HearStep(w, s, a, b, b, At(s), SendFriends, w.nodes[b], Says(Friends(w.nodes[b].friendList)), false);
  }

  /** Whoever says good-bye is forgotten on the spot, without an answer. */
  lemma RemovalIsObeyed(w: Net, s: Port, a: Port, b: Port)
    requires OpenLink(w, s, a, b, [Removed(b)], [])
    ensures var ev := Hear(At(b), Removed(b));
            var n := w.nodes[a];
            && Allowed(Patient, w, a, ev)
            && After(w, a, ev) == Heard(w, a, n.(friendList := Without(n.friendList, At(b)),
                                                connections := n.connections - {At(b)},
                                                clientEndpoints := n.clientEndpoints - {At(b)}),
                                        s, Link(a, b, Shut, Live, [], []))
  {
    var n := w.nodes[a];
    HearStep(w, s, a, b, a, At(b), Removed(b),
             n.(friendList := Without(n.friendList, At(b)), connections := n.connections - {At(b)},
                clientEndpoints := n.clientEndpoints - {At(b)}),
             Silent, true);
  }

  // ----- The last message of a link -----

  /** Only the end of `a` is still open, with one message to read. */
  ghost predicate HalfOpen(w: Net, s: Port, a: Port, b: Port, m: Message) {
    && s in w.links && w.links[s] == Link(a, b, Live, Shut, [m], [])
    && a in w.nodes && a != b && Sound(w.nodes[a])
    && At(b) in w.nodes[a].connections && w.nodes[a].connections[At(b)] == s
    && w.nodes[a].endpoint == At(a)
  }

  lemma LastStep(w: Net, s: Port, a: Port, b: Port, m: Message, n': Node, reply: Reply)
    requires HalfOpen(w, s, a, b, m)
    requires Receive(w.nodes[a], At(b), m) == Turn(n', EffectsOf(s, reply, true))
    ensures Allowed(Patient, w, a, Hear(At(b), m))
    ensures After(w, a, Hear(At(b), m)) == Heard(w, a, n', s, Link(a, b, Shut, Shut, [], []))
  {
    StepIsLocal(w, a, Hear(At(b), m));
  }

  lemma {:induction false} WithoutLast(s: seq<Endpoint>, x: Endpoint)
    requires x !in s
    ensures Without(s + [x], x) == s
  {
    if s == [] {
      assert (s + [x])[1..] == [];
    } else {
      assert (s + [x])[1..] == s[1..] + [x];
      WithoutLast(s[1..], x);
      assert s == [s[0]] + s[1..];
    }
  }

  /** The initiator undoes exactly what `Yes` made it do. */
  lemma PromiseIsUndone(w: Net, s: Port, a: Port, b: Port, before: Node)
    requires HalfOpen(w, s, a, b, NotConfirmed)
    requires At(b) !in before.friendList && At(b) !in before.clientEndpoints
    requires w.nodes[a] == before.(friendList := before.friendList + [At(b)],
                                   clientEndpoints := before.clientEndpoints[At(b) := At(b)])
    ensures var ev := Hear(At(b), NotConfirmed);
            && Allowed(Patient, w, a, ev)
            && After(w, a, ev) == Heard(w, a, before.(connections := before.connections - {At(b)}),
                                        s, Link(a, b, Shut, Shut, [], []))
  {
    WithoutLast(before.friendList, At(b));
    assert before.clientEndpoints[At(b) := At(b)] - {At(b)} == before.clientEndpoints;
    LastStep(w, s, a, b, NotConfirmed, before.(connections := before.connections - {At(b)}), Says(Removed(a)));
  }

  lemma ListIsTaken(w: Net, s: Port, a: Port, b: Port, list: seq<Endpoint>)
    requires HalfOpen(w, s, a, b, Friends(list)) && At(b) !in w.nodes[a].clientEndpoints
    ensures var ev := Hear(At(b), Friends(list));
            var n := w.nodes[a];
            && Allowed(Patient, w, a, ev)
            && After(w, a, ev) == Heard(w, a, n.(pendingEndpoints := n.pendingEndpoints + list,
                                                connections := n.connections - {At(b)}),
                                        s, Link(a, b, Shut, Shut, [], []))
  {
    var n := w.nodes[a];
    assert n.clientEndpoints - {At(b)} == n.clientEndpoints;
    LastStep(w, s, a, b, Friends(list),
             n.(pendingEndpoints := n.pendingEndpoints + list, connections := n.connections - {At(b)}), Silent);
  }

  // ----- The three outcomes of a request -----

  function Befriended(n: Node, key: Endpoint, peer: Endpoint): Node {
    n.(friendList := n.friendList + [peer], clientEndpoints := n.clientEndpoints[key := peer])
  }

  /** Two nodes with room that are strangers to each other become friends. */
  lemma HandshakeCompletes(w: Net, s: Port, a: Port, b: Port) returns (last: Net)
    requires OpenLink(w, s, a, b, [], [BeFriends(a)])
    requires |w.nodes[a].friendList| < FRIENDS_LIMIT && |w.nodes[b].friendList| < FRIENDS_LIMIT
    requires At(b) !in w.nodes[a].clientEndpoints && At(s) !in w.nodes[b].clientEndpoints
    requires At(a) !in w.nodes[b].clientEndpoints.Values && At(a) !in w.nodes[b].friendList
    ensures Leads(Patient, w, [Step(b, Hear(At(s), BeFriends(a))), Step(a, Hear(At(b), Yes)),
                               Step(b, Hear(At(s), Added(a))), Step(a, Hear(At(b), Confirmed))], last)
    ensures last.nodes == w.nodes[a := Befriended(w.nodes[a], At(b), At(b))][b := Befriended(w.nodes[b], At(s), At(a))]
    ensures last.links == w.links[s := Link(a, b, Live, Live, [], [])]
  {
    var s1, s2 := Step(b, Hear(At(s), BeFriends(a))), Step(a, Hear(At(b), Yes));
    var s3, s4 := Step(b, Hear(At(s), Added(a))), Step(a, Hear(At(b), Confirmed));
    RequestIsAnswered(w, s, a, b);
    var w1 := After(w, b, s1.event);
    YesIsTaken(w1, s, a, b);
    var w2 := After(w1, a, s2.event);
    AddedIsConfirmed(w2, s, a, b);
    var w3 := After(w2, b, s3.event);
    ConfirmationIsDropped(w3, s, a, b);
    last := After(w3, a, s4.event);
    FollowedBy(w3, s4, [], last);
    FollowedBy(w2, s3, [s4], last);
    FollowedBy(w1, s2, [s3, s4], last);
    FollowedBy(w, s1, [s2, s3, s4], last);
  }

  function Parted(n: Node, key: Endpoint): Node {
    n.(connections := n.connections - {key})
  }

  /**
   A `Yes` from a node that has filled up since leaves no trace: both nodes have
   the friends and entries they had before, and only the link is gone.
   */
  lemma BrokenPromiseIsUndone(w: Net, s: Port, a: Port, b: Port) returns (last: Net)
    requires OpenLink(w, s, a, b, [Yes], [])
    requires |w.nodes[a].friendList| < FRIENDS_LIMIT == |w.nodes[b].friendList|
    requires At(b) !in w.nodes[a].clientEndpoints && At(b) !in w.nodes[a].friendList
    requires At(s) !in w.nodes[b].clientEndpoints && At(a) !in w.nodes[b].friendList
    ensures Leads(Patient, w, [Step(a, Hear(At(b), Yes)), Step(b, Hear(At(s), Added(a))),
                               Step(a, Hear(At(b), NotConfirmed))], last)
    ensures last.nodes == w.nodes[a := Parted(w.nodes[a], At(b))][b := Parted(w.nodes[b], At(s))]
    ensures last.links == w.links[s := Link(a, b, Shut, Shut, [], [])]
  {
    var s1, s2, s3 := Step(a, Hear(At(b), Yes)), Step(b, Hear(At(s), Added(a))), Step(a, Hear(At(b), NotConfirmed));
    YesIsTaken(w, s, a, b);
    var w1 := After(w, a, s1.event);
    AddedIsRefused(w1, s, a, b);
    var w2 := After(w1, b, s2.event);
    PromiseIsUndone(w2, s, a, b, w.nodes[a]);
    last := After(w2, a, s3.event);
    FollowedBy(w2, s3, [], last);
    FollowedBy(w1, s2, [s3], last);
    FollowedBy(w, s1, [s2, s3], last);
  }

  /** A node that is refused learns all friends of the node that refused it, and the link is over. */
  lemma RefusalTeachesFriends(w: Net, s: Port, a: Port, b: Port) returns (last: Net)
    requires OpenLink(w, s, a, b, [], [BeFriends(a)])
    requires |w.nodes[b].friendList| == FRIENDS_LIMIT
    requires At(b) !in w.nodes[a].clientEndpoints && At(s) !in w.nodes[b].clientEndpoints
    ensures Leads(Patient, w, [Step(b, Hear(At(s), BeFriends(a))), Step(a, Hear(At(b), No)),
                               Step(b, Hear(At(s), SendFriends)),
                               Step(a, Hear(At(b), Friends(w.nodes[b].friendList)))], last)
    ensures var n := w.nodes[a];
            var list := n.pendingEndpoints + w.nodes[b].friendList;
            last.nodes == w.nodes[a := Parted(n, At(b)).(pendingEndpoints := list)]
                                 [b := Parted(w.nodes[b], At(s))]
    ensures last.links == w.links[s := Link(a, b, Shut, Shut, [], [])]
  {
    var list := w.nodes[b].friendList;
    var s1, s2 := Step(b, Hear(At(s), BeFriends(a))), Step(a, Hear(At(b), No));
    var s3, s4 := Step(b, Hear(At(s), SendFriends)), Step(a, Hear(At(b), Friends(list)));
    RequestIsAnswered(w, s, a, b);
    var w1 := After(w, b, s1.event);
    RefusalIsGiven(w1, s, a, b);
    var w2 := After(w1, a, s2.event);
    ListIsSent(w2, s, a, b);
    var w3 := After(w2, b, s3.event);
    ListIsTaken(w3, s, a, b, list);
    last := After(w3, a, s4.event);
    FollowedBy(w3, s4, [], last);
    FollowedBy(w2, s3, [s4], last);
    FollowedBy(w1, s2, [s3, s4], last);
    FollowedBy(w, s1, [s2, s3, s4], last);
  }
}
