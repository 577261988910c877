/**
 What happens when two nodes ask each other at the same time. A friend can get
 into the list twice, an entry can outlive its friend, quiet nodes can disagree,
 and a node can be sent a text that its dispatcher cannot read. Honest nodes get
 there in every network that is large enough; the steps that break the
 correspondence of friends and entries are given exactly.
 */
module Crossing {
  import opened Endpoints
  import opened Protocol
  import opened Network
  import opened Wiring
  import opened Honesty
  import opened Handshake
  import opened Friendship
  import opened Agreement
  import opened Hearing
  import opened Scenarios

  // ----- The step that counts a friend twice -----

  /** connect_friend does not look whether its argument is a friend already. */
  predicate Repeats(n: Node, ev: Event) {
    ev.Hear? && ev.message.Yes? && ev.key in n.friendList && |n.friendList| != FRIENDS_LIMIT
  }

  lemma SnocDistinct(s: seq<Endpoint>, x: Endpoint)
    requires NoDuplicates(s)
    ensures NoDuplicates(s + [x]) <==> x !in s
  {
    if x in s {
      var k :| 0 <= k < |s| && s[k] == x;
      assert (s + [x])[k] == (s + [x])[|s|];
    }
  }

  /** Distinct friends stay distinct in every step but that one, and in that one they do not. */
  lemma DistinctUnlessRepeated(n: Node, ev: Event)
    requires Permitted(n, ev) && Act(n, ev).Turn? && NoDuplicates(n.friendList)
    ensures NoDuplicates(Act(n, ev).node.friendList) <==> !Repeats(n, ev)
  {
    if ev.Hear? && ev.message.Yes? {
      SnocDistinct(n.friendList, ev.key);
    } else if ev.Hear? && ev.message.Added? {
      SnocDistinct(n.friendList, Endpoint(ev.key.address, ev.message.port));
    } else if ev.Hear? && ev.message.Removed? {
      WithoutKeepsDistinct(n.friendList, Endpoint(ev.key.address, ev.message.port));
    } else if (ev.Hear? && ev.message.NotConfirmed?) || ev.Drop? {
      WithoutKeepsDistinct(n.friendList, n.clientEndpoints[ev.key]);
    }
  }

  /** Two links between the same nodes, live at the end of `i`. */
  ghost predicate Crossed(w: Net, i: Port, r: Port, s: Port) {
    && r != s && r in w.links && s in w.links
    && Joins(w.links[r], i) && Joins(w.links[s], i) && PeerOf(w.links[r], i) == PeerOf(w.links[s], i)
    && EndOf(w.links[r], i).Live? && EndOf(w.links[s], i).Live?
  }

  // ----- The step that leaves an entry without a friend -----

  /** An entry whose value is not in the friend list. */
  ghost predicate Orphaned(n: Node, e: Endpoint) {
    e in n.clientEndpoints && n.clientEndpoints[e] !in n.friendList
  }

  /** The steps that take an endpoint out of the friend list, by its value, and one entry, by its key. */
  predicate Loses(ev: Event) {
    ev.Drop? || (ev.Hear? && (ev.message.NotConfirmed? || ev.message.Removed?))
  }

  /** The endpoint that such a step takes out. */
  function Lost(n: Node, ev: Event): Endpoint
    requires Loses(ev) && Permitted(n, ev) && Act(n, ev).Turn?
  {
    if ev.Hear? && ev.message.Removed? then Endpoint(ev.key.address, ev.message.port) else n.clientEndpoints[ev.key]
  }

  /** The endpoint that is taken out has an entry under another key. */
  ghost predicate HasOtherEntry(n: Node, ev: Event)
    requires Loses(ev) && Permitted(n, ev) && Act(n, ev).Turn?
  {
    exists e :: e in n.clientEndpoints && e != ev.key && n.clientEndpoints[e] == Lost(n, ev)
  }

  lemma LostIsOrphaned(n: Node, ev: Event, e: Endpoint)
    requires Sound(n) && Permitted(n, ev) && Act(n, ev).Turn? && Loses(ev)
    requires e in n.clientEndpoints && e != ev.key && n.clientEndpoints[e] == Lost(n, ev)
    ensures Orphaned(Act(n, ev).node, e)
  {
  }

  lemma OrphanWasLost(n: Node, ev: Event, e: Endpoint)
    requires Sound(n) && Permitted(n, ev) && Act(n, ev).Turn? && !Orphaned(n, e)
    requires Orphaned(Act(n, ev).node, e)
    ensures Loses(ev) && e in n.clientEndpoints && e != ev.key && n.clientEndpoints[e] == Lost(n, ev)
  {
  }

  /** A step leaves such an entry exactly when it takes out an endpoint that another key has. */
  lemma EntriesHaveFriendsUnlessLost(n: Node, ev: Event)
    requires Sound(n) && Permitted(n, ev) && Act(n, ev).Turn? && forall e :: !Orphaned(n, e)
    ensures (exists e :: Orphaned(Act(n, ev).node, e)) <==> Loses(ev) && HasOtherEntry(n, ev)
  {
    if e :| Orphaned(Act(n, ev).node, e) {
      OrphanWasLost(n, ev, e);
    }
    if Loses(ev) && HasOtherEntry(n, ev) {
      var e :| e in n.clientEndpoints && e != ev.key && n.clientEndpoints[e] == Lost(n, ev);
      LostIsOrphaned(n, ev, e);
    }
  }

  /** Dropping a friend leaves such an entry exactly when another key has the same friend. */
  lemma DropOrphans(n: Node, key: Endpoint)
    requires Sound(n) && key in n.clientEndpoints && forall e :: !Orphaned(n, e)
    ensures Act(n, Drop(key)).Turn?
    ensures (exists e :: Orphaned(Act(n, Drop(key)).node, e))
       <==> (exists e :: e in n.clientEndpoints && e != key && n.clientEndpoints[e] == n.clientEndpoints[key])
  {
    EntriesHaveFriendsUnlessLost(n, Drop(key));
  }

  // ----- The steps that break the correspondence of friends and entries -----

  /** A `Yes` from a friend, or a `Removed` from a friend on a connection that is not tracked. */
  predicate Mismatches(n: Node, ev: Event) {
    || Repeats(n, ev)
    || (&& ev.Hear? && ev.message.Removed? && ev.key !in n.clientEndpoints
        && Endpoint(ev.key.address, ev.message.port) in n.friendList)
  }

  lemma MismatchUnmatches(n: Node, ev: Event)
    requires Permitted(n, ev) && Act(n, ev).Turn? && Matched(n) && Mismatches(n, ev)
    ensures !Matched(Act(n, ev).node)
  {
    if Repeats(n, ev) {
      DistinctUnlessRepeated(n, ev);
    } else {
      var f, n' := Endpoint(ev.key.address, ev.message.port), Act(n, ev).node;
      var e :| e in n.clientEndpoints && n.clientEndpoints[e] == f;
      assert n'.clientEndpoints[e] in n'.clientEndpoints.Values;
    }
  }

  /** On a second connection to a friend, nothing else changes friends or entries. */
  lemma SecondLinkChangesNothing(n: Node, ev: Event, l: Link, i: Port, ports: set<Port>)
    requires OnLink(ev) && Permitted(n, ev) && Act(n, ev).Turn? && Believable(n, ev, l, i, ports)
    requires ev.key !in n.clientEndpoints && At(PeerOf(l, i)) in n.friendList && !Mismatches(n, ev)
    ensures Act(n, ev).node.friendList == n.friendList && Act(n, ev).node.clientEndpoints == n.clientEndpoints
  {
    assert n.clientEndpoints - {ev.key} == n.clientEndpoints;
  }

  lemma MatchedUnlessMismatched(n: Node, ev: Event, l: Link, i: Port, ports: set<Port>)
    requires OnLink(ev) && Permitted(n, ev) && Act(n, ev).Turn? && Believable(n, ev, l, i, ports) && Matched(n)
    requires ev.Hear? && ev.message.Yes? ==> ev.key !in n.clientEndpoints
    ensures Matched(Act(n, ev).node) <==> !Mismatches(n, ev)
  {
    var peer := At(PeerOf(l, i));
    if Mismatches(n, ev) {
      MismatchUnmatches(n, ev);
    } else if ev.key !in n.clientEndpoints && peer in n.friendList {
      SecondLinkChangesNothing(n, ev, l, i, ports);
    } else {
      NoSecondLink(n, ev.key, peer);
      ActExchanges(n, ev, l, i, ports);
      ExchangeKeepsMatched(n, Act(n, ev).node, ev.key, peer);
    }
  }

  lemma NoSecondLink(n: Node, e: Endpoint, peer: Endpoint)
    requires Matched(n)
    requires if e in n.clientEndpoints then n.clientEndpoints[e] == peer else peer !in n.friendList
    ensures OnlyKey(n, e, peer)
  {
    forall k | k in n.clientEndpoints && n.clientEndpoints[k] == peer ensures k == e {
      assert n.clientEndpoints[k] in n.clientEndpoints.Values;
    }
  }

  /** In any run: friends and entries stay in correspondence in every step but those two, and in those they do not. */
  lemma StepMatchesUnlessCrossed(w: Net, i: Port, ev: Event)
    requires Orderly(w) && Possible(w, i, ev) && Matched(w.nodes[i])
    ensures Matched(After(w, i, ev).nodes[i]) <==> !Mismatches(w.nodes[i], ev)
  {
    hide Matched;
    if OnLink(ev) {
      EventBelievable(w, i, ev);
      if ev.Hear? && ev.message.Yes? { YesFindsStrangers(w, i, ev); }
      MatchedUnlessMismatched(w.nodes[i], ev, w.links[w.nodes[i].connections[ev.key]], i, w.nodes.Keys);
    } else {
      OtherStepsKeepFriends(w.nodes[i], ev);
      MatchedByLists(w.nodes[i], Act(w.nodes[i], ev).node);
    }
  }

  lemma MatchedByLists(n: Node, n': Node)
    requires n'.friendList == n.friendList && n'.clientEndpoints == n.clientEndpoints
    ensures Matched(n') <==> Matched(n)
  {
  }

  /** Both take two links between the same nodes. */
  lemma MismatchesAreCrossed(w: Net, i: Port, ev: Event)
    requires Orderly(w) && Possible(w, i, ev) && Mismatches(w.nodes[i], ev)
    ensures exists r, s :: Crossed(w, i, r, s)
  {
    var n := w.nodes[i];
    assert NodeWired(w, i) && NodeHonest(w, i);
    EventBelievable(w, i, ev);
    if Repeats(n, ev) { YesFindsStrangers(w, i, ev); }
    var s := n.connections[ev.key];
    assert At(PeerOf(w.links[s], i)) in n.friendList;
    var e :| e in n.clientEndpoints && n.clientEndpoints[e] == At(PeerOf(w.links[s], i));
    assert Crossed(w, i, n.connections[e], s);
  }

  // ----- Two requests that cross, in any network -----

  lemma FriendIsAddedAgain(w: Net, s: Port, a: Port, b: Port)
    requires OpenLink(w, s, a, b, [], [Added(a)]) && At(a) in w.nodes[b].friendList
    ensures var ev := Hear(At(s), Added(a));
            && Allowed(Patient, w, b, ev)
            && After(w, b, ev) == Heard(w, b, w.nodes[b], s, Link(a, b, Live, Live, [AlreadyFriends], []))
  {
    HearStep(w, s, a, b, b, At(s), Added(a), w.nodes[b], Says(AlreadyFriends), false);
  }

  ghost predicate Strangers(n: Node, j: Port, s: Port) {
    && At(j) !in n.friendList && At(j) !in n.clientEndpoints && At(j) !in n.clientEndpoints.Values
    && At(s) !in n.clientEndpoints
  }

  /** Each of two strangers has asked the other, on a link of its own. */
  ghost predicate Facing(w: Net, s: Port, r: Port, a: Port, b: Port) {
    && OpenLink(w, s, a, b, [], [BeFriends(a)]) && OpenLink(w, r, b, a, [], [BeFriends(b)])
    && s !in w.nodes && r !in w.nodes && s != r
    && Strangers(w.nodes[a], b, r) && Strangers(w.nodes[b], a, s)
  }

  function AskingSteps(s: Port, r: Port, a: Port, b: Port): seq<Step> {
    [Step(b, Hear(At(s), BeFriends(a))), Step(a, Hear(At(r), BeFriends(b))), Step(b, Hear(At(a), Yes))]
  }

  function AddingSteps(s: Port, r: Port, a: Port, b: Port): seq<Step> {
    [Step(a, Hear(At(r), Added(b))), Step(a, Hear(At(b), Yes)), Step(b, Hear(At(s), Added(a)))]
  }

  /** Both have said `Yes`, and `b` has acted on it. */
  function HalfCrossed(w: Net, s: Port, r: Port, a: Port, b: Port): Net
    requires b in w.nodes
  {
    Net(w.nodes[b := Befriended(w.nodes[b], At(a), At(a))],
        w.links[s := Link(a, b, Live, Live, [Yes], [])][r := Link(b, a, Live, Live, [], [Added(b)])])
  }

  lemma BothSayYes(w: Net, s: Port, r: Port, a: Port, b: Port)
    requires Facing(w, s, r, a, b)
    requires |w.nodes[a].friendList| < FRIENDS_LIMIT && |w.nodes[b].friendList| < FRIENDS_LIMIT
    ensures Leads(Patient, w, AskingSteps(s, r, a, b), HalfCrossed(w, s, r, a, b))
  {
    var steps := AskingSteps(s, r, a, b);
    RequestIsAnswered(w, s, a, b);
    var w1 := After(w, b, steps[0].event);
    RequestIsAnswered(w1, r, b, a);
    var w2 := After(w1, a, steps[1].event);
    YesIsTaken(w2, r, b, a);
    var w3 := After(w2, b, steps[2].event);
    assert w3 == HalfCrossed(w, s, r, a, b);
    FollowedBy(w2, steps[2], [], w3);
    FollowedBy(w1, steps[1], [steps[2]], w3);
    FollowedBy(w, steps[0], [steps[1], steps[2]], w3);
  }

  lemma HalfCrossedIsOpen(w: Net, s: Port, r: Port, a: Port, b: Port)
    requires Facing(w, s, r, a, b) && |w.nodes[b].friendList| < FRIENDS_LIMIT
    ensures OpenLink(HalfCrossed(w, s, r, a, b), s, a, b, [Yes], [])
    ensures OpenLink(HalfCrossed(w, s, r, a, b), r, b, a, [], [Added(b)])
  {
  }

  function Twice(n: Node, b: Port, r: Port): Node {
    n.(friendList := n.friendList + [At(b)] + [At(b)],
       clientEndpoints := n.clientEndpoints[At(r) := At(b)][At(b) := At(b)])
  }

  lemma BothAreAdded(w: Net, s: Port, r: Port, a: Port, b: Port) returns (last: Net)
    requires OpenLink(w, s, a, b, [Yes], []) && OpenLink(w, r, b, a, [], [Added(b)])
    requires s != r && r !in w.nodes && Strangers(w.nodes[a], b, r) && At(a) in w.nodes[b].friendList
    requires |w.nodes[a].friendList| + 1 < FRIENDS_LIMIT
    ensures Leads(Patient, w, AddingSteps(s, r, a, b), last)
    ensures last.nodes == w.nodes[a := Twice(w.nodes[a], b, r)]
    ensures last.links == w.links[s := Link(a, b, Live, Live, [AlreadyFriends], [])]
                                 [r := Link(b, a, Live, Live, [Confirmed], [])]
  {
    var steps := AddingSteps(s, r, a, b);
    AddedIsConfirmed(w, r, b, a);
    var w1 := After(w, a, steps[0].event);
    YesIsTaken(w1, s, a, b);
    var w2 := After(w1, a, steps[1].event);
    FriendIsAddedAgain(w2, s, a, b);
    last := After(w2, b, steps[2].event);
    FollowedBy(w2, steps[2], [], last);
    FollowedBy(w1, steps[1], [steps[2]], last);
    FollowedBy(w, steps[0], [steps[1], steps[2]], last);
  }

  /** From any two requests that cross: node `a` counts `b` twice, and is told `Already friends`. */
  lemma CrossedRequestsRepeat(w: Net, s: Port, r: Port, a: Port, b: Port) returns (last: Net)
    requires Facing(w, s, r, a, b)
    requires |w.nodes[a].friendList| + 1 < FRIENDS_LIMIT && |w.nodes[b].friendList| < FRIENDS_LIMIT
    ensures Leads(Patient, w, AskingSteps(s, r, a, b) + AddingSteps(s, r, a, b), last)
    ensures last.nodes == w.nodes[a := Twice(w.nodes[a], b, r)][b := Befriended(w.nodes[b], At(a), At(a))]
    ensures last.links == w.links[s := Link(a, b, Live, Live, [AlreadyFriends], [])]
                                 [r := Link(b, a, Live, Live, [Confirmed], [])]
  {
    BothSayYes(w, s, r, a, b);
    var mid := HalfCrossed(w, s, r, a, b);
    HalfCrossedIsOpen(w, s, r, a, b);
    hide OpenLink, Leads;
    last := BothAreAdded(mid, s, r, a, b);
    LeadsConcatenate(Patient, w, AskingSteps(s, r, a, b), mid, AddingSteps(s, r, a, b), last);
  }

  // ----- A run that gets there -----

  lemma {:induction false} PatienceAlone(w: Net, steps: seq<Step>, last: Net)
    requires Leads(Patient, w, steps, last)
    ensures Leads(PatientOnly, w, steps, last)
    decreases |steps|
  {
    if steps != [] {
      PatienceAlone(After(w, steps[0].actor, steps[0].event), steps[1..], last);
    }
  }

  lemma StepLeads(w: Net, i: Port, ev: Event)
    requires Possible(w, i, ev) && !ev.Reap?
    ensures Leads(PatientOnly, w, [Step(i, ev)], After(w, i, ev))
  {
    hide Act, After, Possible;
    assert [Step(i, ev)][1..] == [];
  }

  lemma CrossableStep(w: Net, i: Port, ev: Event)
    requires Reachable(PatientOnly, w) && Enabled(w, i, ev) && !ev.Reap?
    ensures Possible(w, i, ev) && Orderly(w) && Orderly(After(w, i, ev)) && Reachable(PatientOnly, After(w, i, ev))
  {
    hide Reachable, Orderly, Leads, Act, After, Enabled;
    ReachableIsOrderly(PatientOnly, w);
    NeverThrows(w, i, ev);
    StepKeepsOrderly(w, i, ev);
    StepLeads(w, i, ev);
    ReachableGoesOn(PatientOnly, w, [Step(i, ev)], After(w, i, ev));
  }

  lemma PatientSteps(w: Net, steps: seq<Step>, last: Net)
    requires Reachable(PatientOnly, w) && Leads(Patient, w, steps, last)
    ensures Reachable(PatientOnly, last)
  {
    PatienceAlone(w, steps, last);
    ReachableGoesOn(PatientOnly, w, steps, last);
  }

  /** Node `a` has `b` next in its queue and may ask it, from the client port `s`. */
  ghost predicate CanAsk(w: Net, a: Port, b: Port, s: Port) {
    && a in w.nodes && a != FIRST_ENDPOINT.port && a != b
    && var n := w.nodes[a];
    && n.pendingEndpoints != [] && n.pendingEndpoints[0] == At(b) && At(b) !in n.connections && At(b) !in n.friendList
    && |n.friendList| < FRIENDS_LIMIT
    && s == n.port + 1 && s !in w.links && s !in w.nodes
  }

  lemma DialStep(w: Net, a: Port, b: Port, s: Port) returns (last: Net)
    requires Reachable(PatientOnly, w) && CanAsk(w, a, b, s)
    ensures Reachable(PatientOnly, last)
    ensures b in w.nodes && last == Net(w.nodes[a := Dialling(w.nodes[a], b, s)], w.links[s := Fresh(a, b, true)])
  {
    ReachableIsOrderly(PatientOnly, w);
    assert NodeWired(w, a);
    CrossableStep(w, a, Dial);
    DialGrows(w, a, Dial);
    last := After(w, a, Dial);
  }

  function Accepting(n: Node, s: Port): Node {
    n.(connections := n.connections[At(s) := s])
  }

  lemma AcceptStep(w: Net, s: Port) returns (last: Net)
    requires Reachable(PatientOnly, w) && s in w.links && w.links[s].acceptorEnd.Waiting?
    ensures Reachable(PatientOnly, last)
    ensures var b := w.links[s].acceptor;
            && b in w.nodes
            && last == Net(w.nodes[b := Accepting(w.nodes[b], s)], w.links[s := w.links[s].(acceptorEnd := Live)])
  {
    hide Reachable;
    ReachableIsOrderly(PatientOnly, w);
    assert LinkWired(w, s);
    var b := w.links[s].acceptor;
    CrossableStep(w, b, Accept(s));
    AcceptOpens(w, b, Accept(s));
    last := After(w, b, Accept(s));
  }

  lemma PrimeStep(w: Net, a: Port) returns (last: Net)
    requires Reachable(PatientOnly, w) && a in w.nodes && a != FIRST_ENDPOINT.port && w.nodes[a].pendingEndpoints == []
    ensures Reachable(PatientOnly, last)
    ensures last == Net(w.nodes[a := w.nodes[a].(pendingEndpoints := [FIRST_ENDPOINT])], w.links)
  {
    hide Reachable;
    CrossableStep(w, a, Prime);
    last := After(w, a, Prime);
    assert [] + [FIRST_ENDPOINT] == [FIRST_ENDPOINT];
  }

  lemma SkipStep(w: Net, a: Port) returns (last: Net)
    requires Reachable(PatientOnly, w) && a in w.nodes && a != FIRST_ENDPOINT.port
    requires w.nodes[a].pendingEndpoints != [] && w.nodes[a].pendingEndpoints[0] == At(a)
    ensures Reachable(PatientOnly, last)
    ensures last == Net(w.nodes[a := w.nodes[a].(pendingEndpoints := w.nodes[a].pendingEndpoints[1..])], w.links)
  {
    ReachableIsOrderly(PatientOnly, w);
    assert NodeWired(w, a);
    CrossableStep(w, a, Dial);
    last := After(w, a, Dial);
  }

  /** A node whose only friend is the first node. */
  function Newcomer(x: Port, s: Port): Node {
    Node(At(x), s, [At(FIRST)], map[At(FIRST) := At(FIRST)], map[At(FIRST) := s], [])
  }

  function Joined(w: Net, x: Port, s: Port): Net
    requires FIRST in w.nodes
  {
    Net(w.nodes[x := Newcomer(x, s)][FIRST := Befriended(Accepting(w.nodes[FIRST], s), At(s), At(x))],
        w.links[s := Link(x, FIRST, Live, Live, [], [])])
  }

  ghost predicate CanJoin(w: Net, x: Port, s: Port) {
    && FIRST in w.nodes && x in w.nodes && x != FIRST && w.nodes[x] == Initial(x)
    && s == x + 1 && s !in w.links && s !in w.nodes
    && |w.nodes[FIRST].friendList| < FRIENDS_LIMIT
    && At(x) !in w.nodes[FIRST].friendList && At(x) !in w.nodes[FIRST].clientEndpoints.Values
    && At(s) !in w.nodes[FIRST].clientEndpoints
  }

  lemma RequestOnItsWay(w: Net, x: Port, s: Port) returns (last: Net)
    requires Reachable(PatientOnly, w) && CanJoin(w, x, s)
    ensures Reachable(PatientOnly, last) && OpenLink(last, s, x, FIRST, [], [BeFriends(x)])
    ensures last.nodes == w.nodes[x := Node(At(x), s, [], map[], map[At(FIRST) := s], [])]
                                 [FIRST := Accepting(w.nodes[FIRST], s)]
    ensures last.links == w.links[s := Link(x, FIRST, Live, Live, [], [BeFriends(x)])]
  {
    hide Reachable, Orderly;
    var primed := PrimeStep(w, x);
    var dialled := DialStep(primed, x, FIRST, s);
    assert [FIRST_ENDPOINT][1..] == [];
    assert dialled.nodes[x] == Node(At(x), s, [], map[], map[At(FIRST) := s], []);
    last := AcceptStep(dialled, s);
    ReachableIsOrderly(PatientOnly, last);
    OpenInOrderly(last, s);
  }

  lemma JoinFirst(w: Net, x: Port, s: Port) returns (last: Net)
    requires Reachable(PatientOnly, w) && CanJoin(w, x, s)
    ensures Reachable(PatientOnly, last) && last == Joined(w, x, s)
  {
    hide Reachable, Orderly, OpenLink;
    var mid := RequestOnItsWay(w, x, s);
    last := HandshakeCompletes(mid, s, x, FIRST);
    PatientSteps(mid, [Step(FIRST, Hear(At(s), BeFriends(x))), Step(x, Hear(At(FIRST), Yes)),
                       Step(FIRST, Hear(At(s), Added(x))), Step(x, Hear(At(FIRST), Confirmed))], last);
    assert [] + [At(FIRST)] == [At(FIRST)];
    assert last.nodes == Joined(w, x, s).nodes;
  }

  // ----- Learning from a friend -----

  lemma FriendsAreAsked(w: Net, s: Port, a: Port, b: Port) returns (last: Net)
    requires OpenLink(w, s, a, b, [], []) && At(b) in w.nodes[a].clientEndpoints && At(s) in w.nodes[b].clientEndpoints
    ensures Leads(Patient, w, [Step(a, Ask(At(b))), Step(b, Hear(At(s), SendFriends)),
                               Step(a, Hear(At(b), Friends(w.nodes[b].friendList)))], last)
    ensures var n := w.nodes[a];
            last.nodes == w.nodes[a := n.(pendingEndpoints := n.pendingEndpoints + w.nodes[b].friendList)]
    ensures last.links == w.links
  {
    var list, n := w.nodes[b].friendList, w.nodes[a];
    var s1, s2, s3 := Step(a, Ask(At(b))), Step(b, Hear(At(s), SendFriends)), Step(a, Hear(At(b), Friends(list)));
    StepIsLocal(w, a, s1.event);
    var w1 := After(w, a, s1.event);
    assert [] + [SendFriends] == [SendFriends];
    assert w1 == Heard(w, a, n, s, Link(a, b, Live, Live, [], [SendFriends]));
    HearStep(w1, s, a, b, b, At(s), SendFriends, w.nodes[b], Says(Friends(list)), false);
    var w2 := After(w1, b, s2.event);
    HearStep(w2, s, a, b, a, At(b), Friends(list), n.(pendingEndpoints := n.pendingEndpoints + list), Silent, false);
    last := After(w2, a, s3.event);
    FollowedBy(w2, s3, [], last);
    FollowedBy(w1, s2, [s3], last);
    FollowedBy(w, s1, [s2, s3], last);
    assert last.links == w.links;
    assert w.nodes[a := n] == w.nodes;
  }

  // ----- The whole run -----

  /** Two nodes besides the first one, whose next two client ports are free. */
  ghost predicate Apart(w: Net, a: Port, b: Port) {
    && a in w.nodes && b in w.nodes && a != b && a != FIRST && b != FIRST
    && a + 2 < 0x1_0000 && b + 2 < 0x1_0000
    && a + 1 !in w.nodes && a + 2 !in w.nodes && b + 1 !in w.nodes && b + 2 !in w.nodes
  }

  ghost predicate BothFriendsOfFirst(w: Net, a: Port, b: Port, pending: seq<Endpoint>) {
    && Apart(w, a, b) && FIRST in w.nodes
    && w.nodes[a] == Newcomer(a, a + 1).(pendingEndpoints := pending)
    && w.nodes[b] == Newcomer(b, b + 1).(pendingEndpoints := pending)
    && w.nodes[FIRST].friendList == [At(b), At(a)]
    && At(a + 1) in w.nodes[FIRST].clientEndpoints && At(b + 1) in w.nodes[FIRST].clientEndpoints
    && w.links == map[b + 1 := Link(b, FIRST, Live, Live, [], []), a + 1 := Link(a, FIRST, Live, Live, [], [])]
  }

  ghost predicate OneFriendOfFirst(w: Net, a: Port, b: Port) {
    && Apart(w, a, b) && FIRST in w.nodes
    && w.nodes[a] == Initial(a) && w.nodes[b] == Newcomer(b, b + 1)
    && w.nodes[FIRST].friendList == [At(b)] && w.nodes[FIRST].clientEndpoints == map[At(b + 1) := At(b)]
    && w.links == map[b + 1 := Link(b, FIRST, Live, Live, [], [])]
  }

  lemma StartCanJoin(w: Net, a: Port, b: Port)
    requires Start(w) && Apart(w, a, b)
    ensures Reachable(PatientOnly, w) && CanJoin(w, b, b + 1)
    ensures w.nodes[a] == Initial(a) && w.nodes[FIRST] == Initial(FIRST) && w.links == map[]
  {
    assert Leads(PatientOnly, w, [], w);
  }

  lemma OneJoins(w: Net, a: Port, b: Port) returns (last: Net)
    requires Start(w) && Apart(w, a, b)
    ensures Reachable(PatientOnly, last) && OneFriendOfFirst(last, a, b)
  {
    StartCanJoin(w, a, b);
    hide Reachable, Start, CanJoin;
    last := JoinFirst(w, b, b + 1);
    assert [] + [At(b)] == [At(b)];
  }

  lemma AnotherJoins(w: Net, a: Port, b: Port) returns (last: Net)
    requires Reachable(PatientOnly, w) && OneFriendOfFirst(w, a, b)
    ensures Reachable(PatientOnly, last) && BothFriendsOfFirst(last, a, b, [])
  {
    hide Reachable;
    last := JoinFirst(w, a, a + 1);
    assert [At(b)] + [At(a)] == [At(b), At(a)];
  }

  lemma OneLearns(w: Net, s: Port, a: Port) returns (last: Net)
    requires Reachable(PatientOnly, w) && FIRST in w.nodes && a in w.nodes
    requires s in w.links && w.links[s] == Link(a, FIRST, Live, Live, [], [])
    requires At(FIRST) in w.nodes[a].clientEndpoints && At(s) in w.nodes[FIRST].clientEndpoints
    requires w.nodes[a].pendingEndpoints == []
    ensures Reachable(PatientOnly, last)
    ensures last == Net(w.nodes[a := w.nodes[a].(pendingEndpoints := w.nodes[FIRST].friendList)], w.links)
  {
    hide Reachable, Orderly, OpenLink;
    ReachableIsOrderly(PatientOnly, w);
    OpenInOrderly(w, s);
    var list := w.nodes[FIRST].friendList;
    last := FriendsAreAsked(w, s, a, FIRST);
    PatientSteps(w, [Step(a, Ask(At(FIRST))), Step(FIRST, Hear(At(s), SendFriends)),
                     Step(a, Hear(At(FIRST), Friends(list)))], last);
    assert [] + list == list;
  }

  lemma BothLearn(w: Net, a: Port, b: Port) returns (last: Net)
    requires Reachable(PatientOnly, w) && BothFriendsOfFirst(w, a, b, [])
    ensures Reachable(PatientOnly, last) && BothFriendsOfFirst(last, a, b, [At(b), At(a)])
  {
    hide Reachable;
    var mid := OneLearns(w, a + 1, a);
    last := OneLearns(mid, b + 1, b);
  }

  lemma BothDial(w: Net, a: Port, b: Port) returns (last: Net)
    requires Reachable(PatientOnly, w) && BothFriendsOfFirst(w, a, b, [At(b), At(a)])
    ensures Reachable(PatientOnly, last) && last.nodes.Keys == w.nodes.Keys
    ensures last.nodes[a] == Newcomer(a, a + 2).(pendingEndpoints := [At(a)],
                                                 connections := map[At(FIRST) := a + 1, At(b) := a + 2])
    ensures last.nodes[b] == Newcomer(b, b + 2).(connections := map[At(FIRST) := b + 1, At(a) := b + 2])
    ensures last.links == w.links[a + 2 := Fresh(a, b, true)][b + 2 := Fresh(b, a, true)]
  {
    hide Reachable;
    assert [At(b), At(a)][1..] == [At(a)] && [At(a)][1..] == [];
    var w1 := DialStep(w, a, b, a + 2);
    var w2 := SkipStep(w1, b);
    last := DialStep(w2, b, a, b + 2);
  }

  lemma BothAccept(w: Net, a: Port, b: Port, s: Port, r: Port) returns (last: Net)
    requires Reachable(PatientOnly, w) && a in w.nodes && b in w.nodes && a != b && s != r
    requires s in w.links && w.links[s] == Fresh(a, b, true) && r in w.links && w.links[r] == Fresh(b, a, true)
    ensures Reachable(PatientOnly, last)
    ensures last.nodes.Keys == w.nodes.Keys
    ensures last.nodes[a] == Accepting(w.nodes[a], r) && last.nodes[b] == Accepting(w.nodes[b], s)
    ensures last.links == w.links[s := Link(a, b, Live, Live, [], [BeFriends(a)])]
                                 [r := Link(b, a, Live, Live, [], [BeFriends(b)])]
  {
    hide Reachable;
    var w1 := AcceptStep(w, s);
    last := AcceptStep(w1, r);
  }

  /** Nothing but the two crossed links has a message on its way. */
  ghost predicate QuietElsewhere(w: Net, s: Port, r: Port) {
    forall t :: t in w.links && t != s && t != r ==> w.links[t].toInitiator == [] && w.links[t].toAcceptor == []
  }

  lemma OnlyFirstIsKnown(n: Node, x: Port, s: Port)
    requires n.friendList == [At(FIRST)] && n.clientEndpoints == map[At(FIRST) := At(FIRST)] && x != FIRST && s != FIRST
    ensures Strangers(n, x, s)
  {
  }

  lemma BothAsk(w: Net, a: Port, b: Port) returns (last: Net)
    requires Reachable(PatientOnly, w) && BothFriendsOfFirst(w, a, b, [At(b), At(a)])
    ensures Reachable(PatientOnly, last) && Facing(last, a + 2, b + 2, a, b)
    ensures last.nodes[a].friendList == [At(FIRST)] == last.nodes[b].friendList
    ensures QuietElsewhere(last, a + 2, b + 2)
  {
    hide Reachable, Orderly, OpenLink, Fresh;
    var w1 := BothDial(w, a, b);
    last := BothAccept(w1, a, b, a + 2, b + 2);
    OnlyFirstIsKnown(last.nodes[a], b, b + 2);
    OnlyFirstIsKnown(last.nodes[b], a, a + 2);
    assert QuietElsewhere(last, a + 2, b + 2);
    hide Strangers, QuietElsewhere, BothFriendsOfFirst;
    ReachableIsOrderly(PatientOnly, last);
    OpenInOrderly(last, a + 2);
    OpenInOrderly(last, b + 2);
  }

  /** Node `a` has `b` twice, under the keys of two live links; `b` has `a` once, and has refused to add it again. */
  ghost predicate Doubled(w: Net, s: Port, r: Port, a: Port, b: Port) {
    && OpenLink(w, s, a, b, [AlreadyFriends], []) && OpenLink(w, r, b, a, [Confirmed], []) && s != r && r != b
    && At(b) in w.nodes[a].friendList && !NoDuplicates(w.nodes[a].friendList)
    && At(b) in w.nodes[a].clientEndpoints && w.nodes[a].clientEndpoints[At(b)] == At(b)
    && At(r) in w.nodes[a].clientEndpoints && w.nodes[a].clientEndpoints[At(r)] == At(b)
    && At(a) in w.nodes[b].friendList
    && At(a) in w.nodes[b].clientEndpoints && w.nodes[b].clientEndpoints[At(a)] == At(a)
    && At(s) !in w.nodes[b].clientEndpoints
  }

  lemma TwiceIsDoubled(w: Net, n: Node, m: Node, s: Port, r: Port, a: Port, b: Port)
    requires Orderly(w) && a in w.nodes && b in w.nodes && a != b && s != r && s !in w.nodes && r !in w.nodes
    requires s in w.links && w.links[s] == Link(a, b, Live, Live, [AlreadyFriends], [])
    requires r in w.links && w.links[r] == Link(b, a, Live, Live, [Confirmed], [])
    requires w.nodes[a] == Twice(n, b, r) && w.nodes[b] == Befriended(m, At(a), At(a))
    requires At(s) !in m.clientEndpoints
    ensures Doubled(w, s, r, a, b)
  {
    hide Orderly, OpenLink, NoDuplicates;
    OpenInOrderly(w, s);
    OpenInOrderly(w, r);
    TwiceRepeats(n, b, r);
    assert w.nodes[b].friendList[|m.friendList|] == At(a);
  }

  lemma TwiceRepeats(n: Node, b: Port, r: Port)
    ensures At(b) in Twice(n, b, r).friendList && !NoDuplicates(Twice(n, b, r).friendList)
  {
    var k, friends := |n.friendList|, Twice(n, b, r).friendList;
    assert friends[k] == At(b) == friends[k + 1];
  }

  /**
   In any network with two nodes that can each make two connections, honest nodes
   can get to a state that no run without crossing reaches: both have joined the
   first node and learned of each other from it, their requests cross, and then
   one counts the other twice and has `Already friends` on its way to it.
   */
  lemma CrossingCountsAFriendTwice(w0: Net, a: Port, b: Port) returns (w: Net)
    requires Start(w0) && Apart(w0, a, b)
    ensures Reachable(PatientOnly, w) && !Reachable(Uncrossed, w)
    ensures Doubled(w, a + 2, b + 2, a, b) && QuietElsewhere(w, a + 2, b + 2)
  {
    hide Reachable, BothFriendsOfFirst, OneFriendOfFirst, Facing;
    var w1 := OneJoins(w0, a, b);
    w1 := AnotherJoins(w1, a, b);
    w1 := BothLearn(w1, a, b);
    w1 := BothAsk(w1, a, b);
    w := FacingDoubles(w1, a + 2, b + 2, a, b);
    DoubledIsNew(w, a + 2, b + 2, a, b);
  }

  lemma FacingDoubles(w: Net, s: Port, r: Port, a: Port, b: Port) returns (last: Net)
    requires Reachable(PatientOnly, w) && Facing(w, s, r, a, b) && QuietElsewhere(w, s, r)
    requires |w.nodes[a].friendList| + 1 < FRIENDS_LIMIT && |w.nodes[b].friendList| < FRIENDS_LIMIT
    ensures Reachable(PatientOnly, last) && Doubled(last, s, r, a, b) && QuietElsewhere(last, s, r)
  {
    hide Reachable, Orderly, Doubled, OpenLink;
    last := CrossedRequestsRepeat(w, s, r, a, b);
    PatientSteps(w, AskingSteps(s, r, a, b) + AddingSteps(s, r, a, b), last);
    ReachableIsOrderly(PatientOnly, last);
    FacingTwo(w, s, r, a, b);
    TwiceIsDoubled(last, w.nodes[a], w.nodes[b], s, r, a, b);
  }

  lemma FacingTwo(w: Net, s: Port, r: Port, a: Port, b: Port)
    requires Facing(w, s, r, a, b)
    ensures a in w.nodes && b in w.nodes && a != b && At(s) !in w.nodes[b].clientEndpoints
  {
  }

  lemma DoubledIsNew(w: Net, s: Port, r: Port, a: Port, b: Port)
    requires Doubled(w, s, r, a, b)
    ensures !Reachable(Uncrossed, w)
  {
    hide Reachable;
    assert !Matched(w.nodes[a]);
    if Reachable(Uncrossed, w) {
      ReachableIsFaithful(Uncrossed, w);
    }
  }

  /** There are such networks. */
  lemma CrossingIsReal() returns (w: Net, s: Port, r: Port, a: Port, b: Port)
    ensures Reachable(PatientOnly, w) && Doubled(w, s, r, a, b)
  {
    hide Reachable;
    a, b, s, r := 20000, 30000, 20002, 30002;
    w := CrossingCountsAFriendTwice(Net(map[a := Initial(a), b := Initial(b), FIRST := Initial(FIRST)], map[]), a, b);
  }

  // ----- What comes of it -----

  /** When `b` drops `a`, node `a` forgets `b` and keeps an entry for it, without having dropped anybody. */
  lemma RemovalOrphans(w: Net, s: Port, r: Port, a: Port, b: Port) returns (last: Net)
    requires Doubled(w, s, r, a, b)
    ensures Leads(Patient, w, [Step(b, Drop(At(a))), Step(a, Hear(At(r), Removed(b)))], last)
    ensures a in last.nodes && Orphaned(last.nodes[a], At(b))
  {
    var s1, s2 := Step(b, Drop(At(a))), Step(a, Hear(At(r), Removed(b)));
    DropStep(w, b, At(a));
    var w1 := After(w, b, s1.event);
    assert w1.links[r] == Link(b, a, Shut, Live, [], [Removed(b)]) by { assert [] + [Removed(b)] == [Removed(b)]; }
    assert w1.nodes[a] == w.nodes[a];
    StepIsLocal(w1, a, s2.event);
    last := After(w1, a, s2.event);
    LostIsOrphaned(w1.nodes[a], s2.event, At(b));
    FollowedBy(w1, s2, [], last);
    FollowedBy(w, s1, [s2], last);
  }

  lemma CrossingOrphansAnEntry(w0: Net, a: Port, b: Port) returns (w: Net)
    requires Start(w0) && Apart(w0, a, b)
    ensures Reachable(PatientOnly, w) && a in w.nodes && Orphaned(w.nodes[a], At(b))
  {
    hide Reachable;
    var w1 := CrossingCountsAFriendTwice(w0, a, b);
    w := RemovalOrphans(w1, a + 2, b + 2, a, b);
    PatientSteps(w1, [Step(b, Drop(At(a))), Step(a, Hear(At(b + 2), Removed(b)))], w);
  }

  function SplittingSteps(s: Port, a: Port, b: Port): seq<Step> {
    [Step(b, Reap(At(s))), Step(a, Drop(At(b))), Step(b, Hear(At(a), Confirmed))]
  }

  /**
   The reaper of `b` closes the link that `b` does not track, patiently, and then
   `a` drops `b` on it: `b` is not told, and `a` has taken `b` out altogether.
   */
  lemma DoubledSplits(w: Net, s: Port, r: Port, a: Port, b: Port) returns (last: Net)
    requires Doubled(w, s, r, a, b)
    ensures Leads(Patient, w, SplittingSteps(s, a, b), last)
    ensures last.nodes.Keys == w.nodes.Keys
    ensures At(b) !in last.nodes[a].friendList && At(a) in last.nodes[b].friendList
    ensures last.links == w.links[s := Link(a, b, Shut, Shut, [], [])][r := Link(b, a, Live, Live, [], [])]
  {
    var steps := SplittingSteps(s, a, b);
    ReapStep(w, b, At(s));
    var w1 := After(w, b, steps[0].event);
    DropStep(w1, a, At(b));
    var w2 := After(w1, a, steps[1].event);
    assert w2.nodes[b] == w1.nodes[b] && w2.links[r] == w.links[r];
    StepIsLocal(w2, b, steps[2].event);
    assert [Confirmed][1..] == [];
    last := After(w2, b, steps[2].event);
    FollowedBy(w2, steps[2], [], last);
    FollowedBy(w1, steps[1], [steps[2]], last);
    FollowedBy(w, steps[0], [steps[1], steps[2]], last);
  }

  /** With the most patient of reapers, quiet nodes can disagree when requests have crossed. */
  lemma CrossingBreaksAgreement(w0: Net, a: Port, b: Port) returns (w: Net)
    requires Start(w0) && Apart(w0, a, b)
    ensures Reachable(PatientOnly, w) && Quiet(w) && !AllMutual(w)
  {
    hide Reachable;
    var w1 := CrossingCountsAFriendTwice(w0, a, b);
    w := DoubledSplits(w1, a + 2, b + 2, a, b);
    PatientSteps(w1, SplittingSteps(a + 2, a, b), w);
    assert a in w.nodes && b in w.nodes;
  }
}
