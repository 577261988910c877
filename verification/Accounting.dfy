/**
 Friendship accounting: the friend lists of a network add up to two for every
 link that both ends track and one for every link that only one end tracks.
 */
module Accounting {
  import opened Endpoints
  import opened Protocol
  import opened Network
  import opened Wiring
  import opened Handshake
  import opened Friendship
  import opened Agreement

  // ----- Counting -----

  lemma {:induction false} InjectiveMapSize<K, V>(m: map<K, V>)
    requires forall k, k' :: k in m && k' in m && m[k] == m[k'] ==> k == k'
    ensures |m.Values| == |m|
  {
    if m != map[] {
      var k :| k in m;
      var rest := m - {k};
      assert rest.Keys == m.Keys - {k};
      InjectiveMapSize(rest);
      assert m.Values == rest.Values + {m[k]} by {
        forall v | v in m.Values ensures v in rest.Values + {m[k]} {
          var x :| x in m && m[x] == v;
          if x != k { assert x in rest; }
        }
      }
    }
  }

  lemma {:induction false} DistinctSize(s: seq<Endpoint>)
    requires NoDuplicates(s)
    ensures |Elements(s)| == |s|
  {
    if s != [] {
      var rest := s[1..];
      DistinctSize(rest);
      assert s[0] !in rest;
      assert Elements(s) == Elements(rest) + {s[0]};
    }
  }

  /** As many friends as entries. */
  lemma OneEntryPerFriend(n: Node)
    requires Matched(n)
    ensures |n.friendList| == |n.clientEndpoints|
    ensures Elements(n.friendList) == n.clientEndpoints.Values
  {
    DistinctSize(n.friendList);
    InjectiveMapSize(n.clientEndpoints);
    assert Elements(n.friendList) == n.clientEndpoints.Values;
  }

  // ----- Tracked links -----

  /** The links that node `i` tracks. */
  ghost function TrackedBy(w: Net, i: Port): set<Port> {
    set s | s in w.links && Joins(w.links[s], i) && Tracks(w, s, i)
  }

  ghost function TrackedByInitiator(w: Net): set<Port> {
    set s | s in w.links && Tracks(w, s, w.links[s].initiator)
  }

  ghost function TrackedByAcceptor(w: Net): set<Port> {
    set s | s in w.links && Tracks(w, s, w.links[s].acceptor)
  }

  ghost function Mutual(w: Net): set<Port> {
    TrackedByInitiator(w) * TrackedByAcceptor(w)
  }

  ghost function OneSided(w: Net): set<Port> {
    (TrackedByInitiator(w) + TrackedByAcceptor(w)) - Mutual(w)
  }

  /** The number of friends of all nodes with a port below `k`. */
  ghost function FriendCount(w: Net, k: nat): nat {
    if k == 0 then 0
    else FriendCount(w, k - 1) + if k <= 0x1_0000 && k - 1 in w.nodes then |w.nodes[k - 1].friendList| else 0
  }

  ghost function SocketsOfFriends(n: Node): map<Endpoint, Port> {
    map e | e in n.clientEndpoints && e in n.connections :: n.connections[e]
  }

  lemma TrackedSockets(w: Net, i: Port)
    requires Wired(w) && i in w.nodes
    ensures SocketsOfFriends(w.nodes[i]).Values == TrackedBy(w, i)
  {
    var n := w.nodes[i];
    var m := SocketsOfFriends(n);
    forall s | s in m.Values ensures s in TrackedBy(w, i) {
      var e :| e in m && m[e] == s;
      TracksByKey(w, i, e);
      assert NodeWired(w, i);
    }
    forall s | s in TrackedBy(w, i) ensures s in m.Values {
      assert LinkWired(w, s) && EndWired(w, s, i);
      assert m[KeyOf(w.links[s], s, i)] == s;
    }
  }

  lemma FriendsCountTrackedLinks(w: Net, i: Port)
    requires Wired(w) && i in w.nodes && Matched(w.nodes[i])
    ensures |w.nodes[i].friendList| == |TrackedBy(w, i)|
  {
    var n := w.nodes[i];
    var m := SocketsOfFriends(n);
    assert NodeWired(w, i);
    OneEntryPerFriend(n);
    assert m.Keys == n.clientEndpoints.Keys;
    assert |m| == |m.Keys| == |n.clientEndpoints.Keys| == |n.clientEndpoints|;
    forall e, e' | e in m && e' in m && m[e] == m[e'] ensures e == e' {
      KeysDiffer(w, i, e, e');
    }
    InjectiveMapSize(m);
    TrackedSockets(w, i);
  }

  /** The links of `tracked` whose initiator is below `k`. */
  ghost function InitiatedBelow(links: map<Port, Link>, tracked: set<Port>, k: nat): set<Port> {
    set s | s in tracked && s in links && links[s].initiator < k
  }

  ghost function AcceptedBelow(links: map<Port, Link>, tracked: set<Port>, k: nat): set<Port> {
    set s | s in tracked && s in links && links[s].acceptor < k
  }

  ghost function InitiatedBy(links: map<Port, Link>, tracked: set<Port>, i: Port): set<Port> {
    set s | s in tracked && s in links && links[s].initiator == i
  }

  ghost function AcceptedBy(links: map<Port, Link>, tracked: set<Port>, i: Port): set<Port> {
    set s | s in tracked && s in links && links[s].acceptor == i
  }

  lemma OneMorePort(links: map<Port, Link>, tracked: set<Port>, i: Port)
    ensures |InitiatedBelow(links, tracked, i + 1)|
         == |InitiatedBelow(links, tracked, i)| + |InitiatedBy(links, tracked, i)|
    ensures |AcceptedBelow(links, tracked, i + 1)|
         == |AcceptedBelow(links, tracked, i)| + |AcceptedBy(links, tracked, i)|
  {
    assert InitiatedBelow(links, tracked, i + 1) == InitiatedBelow(links, tracked, i) + InitiatedBy(links, tracked, i);
    assert InitiatedBelow(links, tracked, i) !! InitiatedBy(links, tracked, i);
    assert AcceptedBelow(links, tracked, i + 1) == AcceptedBelow(links, tracked, i) + AcceptedBy(links, tracked, i);
    assert AcceptedBelow(links, tracked, i) !! AcceptedBy(links, tracked, i);
  }

  lemma NobodyBelowZero(links: map<Port, Link>, tracked: set<Port>)
    ensures InitiatedBelow(links, tracked, 0) == {} == AcceptedBelow(links, tracked, 0)
  {
  }

  /** Node `i` tracks a link either as its initiator or as its acceptor. */
  lemma TrackedBySides(w: Net, i: Port)
    requires forall s :: s in w.links ==> w.links[s].initiator != w.links[s].acceptor
    ensures |TrackedBy(w, i)|
         == |InitiatedBy(w.links, TrackedByInitiator(w), i)| + |AcceptedBy(w.links, TrackedByAcceptor(w), i)|
  {
    var mine, theirs := InitiatedBy(w.links, TrackedByInitiator(w), i), AcceptedBy(w.links, TrackedByAcceptor(w), i);
    assert TrackedBy(w, i) == mine + theirs;
    assert mine !! theirs;
  }

  lemma NodeCounts(w: Net, i: Port)
    requires Faithful(w)
    ensures (if i in w.nodes then |w.nodes[i].friendList| else 0)
         == |InitiatedBy(w.links, TrackedByInitiator(w), i)| + |AcceptedBy(w.links, TrackedByAcceptor(w), i)|
  {
    assert forall s :: s in w.links ==> LinkWired(w, s);
    assert i in w.nodes ==> Wired(w) && Matched(w.nodes[i]);
    hide Faithful, Wired, Matched, InitiatedBy, AcceptedBy;
    TrackedBySides(w, i);
    if i in w.nodes {
      FriendsCountTrackedLinks(w, i);
    } else {
      assert TrackedBy(w, i) == {};
    }
  }

  lemma {:induction false} CountBelow(w: Net, k: nat)
    requires Faithful(w) && k <= 0x1_0000
    ensures FriendCount(w, k)
         == |InitiatedBelow(w.links, TrackedByInitiator(w), k)| + |AcceptedBelow(w.links, TrackedByAcceptor(w), k)|
  {
    hide Faithful, InitiatedBelow, AcceptedBelow, InitiatedBy, AcceptedBy, TrackedByInitiator, TrackedByAcceptor;
    if k == 0 {
      NobodyBelowZero(w.links, TrackedByInitiator(w));
      NobodyBelowZero(w.links, TrackedByAcceptor(w));
    } else {
      CountBelow(w, k - 1);
      OneMorePort(w.links, TrackedByInitiator(w), k - 1);
      OneMorePort(w.links, TrackedByAcceptor(w), k - 1);
      NodeCounts(w, k - 1);
    }
  }

  lemma UnionCounts(a: set<Port>, b: set<Port>)
    ensures |a| + |b| == 2 * |a * b| + |(a + b) - a * b|
  {
    assert |a + b| == |a| + |b| - |a * b|;
    assert a * b <= a + b;
  }

  /** In every run without crossing. */
  lemma FriendsAddUp(w: Net)
    requires Faithful(w)
    ensures FriendCount(w, 0x1_0000) == 2 * |Mutual(w)| + |OneSided(w)|
  {
    CountBelow(w, 0x1_0000);
    assert InitiatedBelow(w.links, TrackedByInitiator(w), 0x1_0000) == TrackedByInitiator(w);
    assert AcceptedBelow(w.links, TrackedByAcceptor(w), 0x1_0000) == TrackedByAcceptor(w);
    UnionCounts(TrackedByInitiator(w), TrackedByAcceptor(w));
  }

  /** `Added`, `Not confirmed` or `Removed` is on its way to a live end. */
  ghost predicate NewsUnderway(l: Link) {
    || (l.acceptorEnd.Live? && (Added(l.initiator) in l.toAcceptor || Removed(l.initiator) in l.toAcceptor))
    || (l.initiatorEnd.Live? && (NotConfirmed in l.toInitiator || Removed(l.acceptor) in l.toInitiator))
  }

  lemma OneSidedHasNewsUnderway(w: Net, s: Port)
    requires Reachable(Patient, w) && s in OneSided(w)
    ensures NewsUnderway(w.links[s])
  {
    ReachableIsAgreeing(w);
    OneSidedLinksHaveNews(w, s);
  }

  lemma QuietHasNoNews(w: Net, s: Port)
    requires Quiet(w) && s in w.links
    ensures !NewsUnderway(w.links[s])
  {
  }

  lemma ReachableAddsUp(w: Net)
    requires Reachable(Patient, w)
    ensures FriendCount(w, 0x1_0000) == 2 * |Mutual(w)| + |OneSided(w)|
  {
    ReachableIsAgreeing(w);
    FriendsAddUp(w);
  }

  /** With a patient reaper, every one-sided link has news on its way, and a quiet network has none. */
  lemma FriendshipAccounting(w: Net)
    requires Reachable(Patient, w)
    ensures FriendCount(w, 0x1_0000) == 2 * |Mutual(w)| + |OneSided(w)|
    ensures forall s :: s in OneSided(w) ==> NewsUnderway(w.links[s])
    ensures Quiet(w) ==> FriendCount(w, 0x1_0000) == 2 * |Mutual(w)|
  {
    hide Reachable, FriendCount;
    ReachableAddsUp(w);
    forall s | s in OneSided(w) ensures NewsUnderway(w.links[s]) && !Quiet(w) {
      OneSidedHasNewsUnderway(w, s);
      if Quiet(w) { QuietHasNoNews(w, s); }
    }
    if OneSided(w) != {} {
      var s :| s in OneSided(w);
      assert !Quiet(w);
    }
  }
}
