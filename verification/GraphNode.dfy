/**
 The GraphNode class: its containers as fields, one method per handler and one
 per round of each loop. What a method does to sockets is recorded in `output`.
 A method that returns `ok == false` has left through an exception or run off a
 text, and the node is gone.
 */
module GraphNodes {
  import opened Endpoints
  import opened Options
  import opened Protocol
  import opened Texts
  import opened Wire
  import opened Rounds
  import opened Reaping

  datatype Action =
    | Connecting(socket: Port, target: Endpoint)
    | Wrote(socket: Port, text: string)
    | ShutDown(socket: Port)

  function Rendered(ef: Effect): Action {
    match ef
    case Dialed(s, target) => Connecting(s, target)
    case Sent(s, m) => Wrote(s, Print(m))
    case Closed(s) => ShutDown(s)
  }

  function AllRendered(es: seq<Effect>): (r: seq<Action>)
    ensures |r| == |es|
  {
    seq(|es|, i requires 0 <= i < |es| => Rendered(es[i]))
  }

  lemma RenderedAppend(es: seq<Effect>, es': seq<Effect>)
    ensures AllRendered(es + es') == AllRendered(es) + AllRendered(es')
  {
  }

  /** What a node writes is what its peer's dispatcher takes for the message, whatever the peer is like. */
  lemma WrittenTextsMeanTheirMessages(archives: Archives, s: Port, m: Message, n: Node, key: Endpoint)
    requires !m.AlreadyFriends?
    ensures Rendered(Sent(s, m)).Wrote? && Rendered(Sent(s, m)).socket == s
    ensures ReceiveText(archives, n, key, Rendered(Sent(s, m)).text) == Receive(n, key, m)
  {
    TextsMeanTheirMessages(archives, n, key, m);
  }

  /** What is done is recorded. */
  lemma RenderedMembers(es: seq<Effect>, before: seq<Action>, after: seq<Action>)
    requires after == before + AllRendered(es)
    ensures forall ef :: ef in es ==> Rendered(ef) in after[|before|..]
  {
    forall ef | ef in es ensures Rendered(ef) in after[|before|..] {
      var j :| 0 <= j < |es| && es[j] == ef;
      assert after[|before|..][j] == Rendered(ef);
    }
  }

  /**
   A pass of the outer connection loop: a full node only queues the first endpoint,
   when it is due. Any other node empties its queue, has a connection to everything
   in it, or a friend, or is it itself, and has dialled what it did not know.
   */
  ghost predicate PassOf(n: Node, n': Node, before: seq<Action>, after: seq<Action>) {
    var first := Endpoint(IPv4(127, 0, 0, 1), 12345);
    var queue := n.pendingEndpoints + if n.pendingEndpoints == [] || first in n.friendList then [first] else [];
    if |n.friendList| == 6 then
      n' == n.(pendingEndpoints := queue) && after == before
    else
      && n' == n.(pendingEndpoints := [], port := n'.port, connections := n'.connections)
      && (forall ep :: ep in queue ==> ep in n'.connections || ep in n.friendList || ep == n.endpoint)
      && (forall k :: k in n.connections ==> k in n'.connections && n'.connections[k] == n.connections[k])
      && |n'.connections| == |n.connections| + (n'.port - n.port)
      && before <= after
      && forall k :: k in n'.connections && k !in n.connections ==>
           && k in queue && k !in n.friendList && k != n.endpoint
           && Connecting(n'.connections[k], k) in after[|before|..]
  }

  /** A node that has nothing pending, has room and does not know the first node calls it. */
  ghost predicate CallsFirst(n: Node, n': Node, before: seq<Action>, after: seq<Action>) {
    var first, socket := Endpoint(IPv4(127, 0, 0, 1), 12345), PortOf(n.port + 1);
    && n.pendingEndpoints == [] && |n.friendList| < 6
    && first !in n.connections && first !in n.friendList && n.endpoint != first
    ==>
      && n' == n.(port := n.port + 1, connections := n.connections[first := socket])
      && after == before + [Connecting(socket, first)] +
           if n.port + 1 != 12345 then [Wrote(socket, "Be friends?:" + DecimalText(n.endpoint.port))] else []
  }

  lemma PrimedQueue(n: Node)
    ensures var first := Endpoint(IPv4(127, 0, 0, 1), 12345);
            Primed(n) == n.(pendingEndpoints := n.pendingEndpoints +
                              if n.pendingEndpoints == [] || first in n.friendList then [first] else [])
  {
    assert n.pendingEndpoints + [] == n.pendingEndpoints;
  }

  lemma PassReaches(n: Node, before: seq<Action>)
    ensures var t := DialAll(Primed(n));
            t.Turn? && PassOf(n, t.node, before, before + AllRendered(t.effects))
  {
    hide DialAll, Primed, AllRendered;
    PrimedQueue(n);
    DialAllReaches(Primed(n));
    var t, after := DialAll(Primed(n)), before + AllRendered(DialAll(Primed(n)).effects);
    RenderedMembers(t.effects, before, after);
    if |n.friendList| == 6 {
      assert AllRendered(t.effects) == [];
    } else {
      forall k | k in t.node.connections && k !in n.connections
        ensures Connecting(t.node.connections[k], k) in after[|before|..]
      {
        assert Rendered(Dialed(t.node.connections[k], k)) in after[|before|..];
      }
    }
  }

  lemma PassCallsFirst(n: Node, before: seq<Action>)
    ensures var t := DialAll(Primed(n));
            t.Turn? && CallsFirst(n, t.node, before, before + AllRendered(t.effects))
  {
    hide DialAll, Primed, AllRendered;
    PrimedQueue(n);
    DialAllReaches(Primed(n));
    assert FIRST_ENDPOINT == Endpoint(IPv4(127, 0, 0, 1), 12345);
    if n.pendingEndpoints == [] && |n.friendList| < 6 && !Reached(n, FIRST_ENDPOINT) {
      assert [] + [FIRST_ENDPOINT] == [FIRST_ENDPOINT];
      FirstIsCalled(Primed(n));
    }
  }

  lemma FirstIsCalled(n: Node)
    requires n.pendingEndpoints == [FIRST_ENDPOINT] && |n.friendList| < 6 && !Reached(n, FIRST_ENDPOINT)
    ensures var socket, t := PortOf(n.port + 1), DialAll(n);
            && t.Turn?
            && t.node == n.(pendingEndpoints := [], port := n.port + 1,
                            connections := n.connections[FIRST_ENDPOINT := socket])
            && AllRendered(t.effects) == [Connecting(socket, FIRST_ENDPOINT)] +
                 if n.port + 1 != 12345 then [Wrote(socket, "Be friends?:" + DecimalText(n.endpoint.port))] else []
  {
    DialReaches(n);
    var t := Act(n, Event.Dial);
    assert DialAll(t.node) == Turn(t.node, []) && t.effects + [] == t.effects;
  }

  lemma FollowingTwice(es: seq<Effect>, es': seq<Effect>, t: Turn)
    ensures Following(es, Following(es', t)) == Following(es + es', t)
  {
    if t.Turn? { assert es + (es' + t.effects) == es + es' + t.effects; }
  }

  lemma DrainsNext(archives: Archives, es: seq<Effect>, n: Node, queue: seq<Letter>, t: Turn)
    requires queue != [] && t == ReceiveText(archives, n, queue[0].0, queue[0].1) && t.Turn?
    ensures Following(es, DrainAll(archives, n, queue))
         == Following(es + t.effects, DrainAll(archives, t.node, queue[1..]))
  {
    FollowingTwice(es, t.effects, DrainAll(archives, t.node, queue[1..]));
  }

  lemma DrainStops(archives: Archives, n: Node, queue: seq<Letter>)
    requires queue != [] && ReceiveText(archives, n, queue[0].0, queue[0].1).Thrown?
    ensures DrainAll(archives, n, queue).Thrown?
  {
  }

  /** The sockets of `keys`, shut down one after the other. */
  ghost function Closings(connections: map<Endpoint, Port>, keys: seq<Endpoint>): seq<Action>
    requires forall e :: e in keys ==> e in connections
  {
    AllRendered(ClosedSockets(connections, keys))
  }

  lemma ClosingsSnoc(connections: map<Endpoint, Port>, keys: seq<Endpoint>, e: Endpoint)
    requires e in connections && forall k :: k in keys ==> k in connections
    ensures Closings(connections, keys + [e]) == Closings(connections, keys) + [ShutDown(connections[e])]
  {
    ClosedSocketsSnoc(connections, keys, e);
  }

  lemma AskAnother(n: Node, asked: seq<Endpoint>, k: Endpoint)
    requires k in n.connections && AskAll(n, asked).Turn? && AskAll(n, asked).node == n
    ensures AskAll(n, asked + [k]) == Turn(n, AskAll(n, asked).effects + [Sent(n.connections[k], Message.SendFriends)])
  {
    assert (asked + [k])[..|asked|] == asked;
  }

  // ----- Parsing -----

  lemma FoldSnoc(s: string, c: char)
    ensures Fold(s + [c]) == Fold(s) * 10 + (Code(c) - '0' as int)
  {
    assert (s + [c])[..|s|] == s;
  }

  /** The loop of get_friend_port stays an int, and is the wrapped value of what it should compute. */
  lemma FoldsOn(s: string, c: char)
    ensures var n := AsInt(AsInt(Fold(s)) * 10 + (Code(c) - '0' as int));
            n == AsInt(Fold(s + [c])) && -INT_LIMIT <= n < INT_LIMIT
  {
    FoldSnoc(s, c);
    AsIntStep(Fold(s), 10, Code(c) - '0' as int);
  }

  lemma FoldStarts()
    ensures AsInt(Fold([])) == 0
  {
  }

  /** Erases characters up to and including the first `c`; gives up at the end of the text. */
  method EraseThrough(text: string, c: char) returns (found: bool, before: string, rest: string)
    ensures found <==> Cut(text, c).Some?
    ensures found ==> Cut(text, c) == Some((before, rest))
  {
    before, rest := "", text;
    while rest != [] && rest[0] != c
      invariant text == before + rest && c !in before
      decreases |rest|
    {
      before := before + [rest[0]];
      rest := rest[1..];
    }
    if rest == [] {
      return false, before, rest;
    }
    assert text == before + [c] + rest[1..];
    CutAtSeparator(before, c, rest[1..]);
    found, rest := true, rest[1..];
  }

  method GetFriendPort(message: string) returns (found: bool, port: int)
    ensures if found then PortIn(message) == Some(port) else PortIn(message).None?
    ensures found ==> -INT_LIMIT <= port < INT_LIMIT
  {
    hide Cut, Fold, AsInt, Code;
    FoldStarts();
    port := 0;
    var skipped, rest;
    found, skipped, rest := EraseThrough(message, ':');
    if !found {
      return;
    }
    ghost var digits, read := rest, "";
    assert digits == read + rest;
    while |rest| != 0
      invariant digits == read + rest && port == AsInt(Fold(read)) && -INT_LIMIT <= port < INT_LIMIT
      decreases |rest|
    {
      FoldsOn(read, rest[0]);
      port := AsInt(port * 10 + (Code(rest[0]) - '0' as int));
      read := read + [rest[0]];
      rest := rest[1..];
    }
    assert read == digits;
  }

  /** The entries read so far, followed by those still to be read. */
  function Onto(eps: seq<Endpoint>, r: Option<seq<Endpoint>>): Option<seq<Endpoint>> {
    match r
    case None => None
    case Some(rest) => Some(eps + rest)
  }

  lemma OntoAnother(eps: seq<Endpoint>, ep: Endpoint, r: Option<seq<Endpoint>>)
    ensures Onto(eps, Onto([ep], r)) == Onto(eps + [ep], r)
  {
    if r.Some? { assert eps + ([ep] + r.value) == eps + [ep] + r.value; }
  }

  /** One pass of the loop of unpack_friends. */
  method ParseEntry(text: string) returns (ok: bool, ep: Endpoint, rest: string)
    requires text != []
    ensures if ok then |rest| < |text| && Entries(text) == Onto([ep], Entries(rest)) else Entries(text).None?
  {
    ep := FIRST_ENDPOINT;
    var address, port;
    ok, address, rest := EraseThrough(text, ':');
    if !ok {
      return;
    }
    ok, port, rest := EraseThrough(rest, ';');
    if !ok {
      return;
    }
    var a, p := ParseAddress(CString(address)), ParsePort(port);
    ok := a.Some? && p.Some?;
    if ok {
      ep := Endpoint(a.value, p.value);
    }
  }

  method ParseFriends(text: string) returns (ok: bool, endpoints: seq<Endpoint>)
    ensures if ok then Unpacked(text) == Some(endpoints) else Unpacked(text).None?
  {
    endpoints := [];
    var before, rest;
    ok, before, rest := EraseThrough(text, '<');
    if !ok {
      return;
    }
    ghost var body := rest;
    assert Entries(rest).Some? ==> [] + Entries(rest).value == Entries(rest).value;
    while |rest| != 0
      invariant Entries(body) == Onto(endpoints, Entries(rest))
      decreases |rest|
    {
      var ep;
      ghost var entry := rest;
      ok, ep, rest := ParseEntry(rest);
      if !ok {
        return;
      }
      OntoAnother(endpoints, ep, Entries(rest));
      endpoints := endpoints + [ep];
    }
    ok := true;
    assert endpoints + [] == endpoints;
  }

  /** Each of `keys`, in order, has been written `Send friends`. */
  ghost predicate AskedEach(connections: map<Endpoint, Port>, keys: seq<Endpoint>,
                            before: seq<Action>, after: seq<Action>) {
    && |after| == |before| + |keys| && before <= after
    && forall i :: 0 <= i < |keys| ==>
         keys[i] in connections && after[|before| + i] == Wrote(connections[keys[i]], "Send friends")
  }

  /** Asking `keys` leaves the node as it is, and this is what it has written. */
  ghost predicate HasAsked(n: Node, keys: seq<Endpoint>, before: seq<Action>, after: seq<Action>) {
    var t := AskAll(n, keys);
    t.Turn? && t.node == n && after == before + AllRendered(t.effects)
  }

  lemma {:induction false} AskAllWrites(n: Node, keys: seq<Endpoint>, before: seq<Action>)
    requires AskAll(n, keys).Turn?
    ensures AskAll(n, keys).node == n
    ensures AskedEach(n.connections, keys, before, before + AllRendered(AskAll(n, keys).effects))
    decreases |keys|
  {
    var es := AskAll(n, keys).effects;
    if keys != [] {
      var front, k := keys[..|keys| - 1], keys[|keys| - 1];
      AskAllWrites(n, front, before);
      RenderedAppend(AskAll(n, front).effects, [Sent(n.connections[k], Message.SendFriends)]);
      var early := before + AllRendered(AskAll(n, front).effects);
      assert before + AllRendered(es) == early + [Wrote(n.connections[k], "Send friends")];
    }
  }

  class GraphNode {
    const endpoint: Endpoint
    const archives: Archives
    var port: int
    var pendingEndpoints: seq<Endpoint>
    var connections: map<Endpoint, Port>
    var messageQueue: seq<Letter>
    var friendList: seq<Endpoint>
    var clientEndpoints: map<Endpoint, Endpoint>
    var output: seq<Action>

    constructor (port: Port, archives: Archives)
      ensures this.archives == archives && State() == Initial(port) && messageQueue == [] && output == []
      ensures endpoint == Endpoint(IPv4(127, 0, 0, 1), port) && this.port == port
      ensures pendingEndpoints == [] == friendList && connections == map[] && clientEndpoints == map[]
    {
      this.port, this.archives := port, archives;
      endpoint := At(port);
      pendingEndpoints, friendList, messageQueue, output := [], [], [], [];
      connections, clientEndpoints := map[], map[];
    }

    /** The containers that the handlers work on. */
    ghost function State(): Node
      reads this
    {
      Node(endpoint, port, friendList, clientEndpoints, connections, pendingEndpoints)
    }

    /** This node has done what `t` says to a node that had the containers `t` started from. */
    twostate predicate Did(t: Turn)
      reads this
    {
      && t.Turn?
      && State() == t.node
      && output == old(output) + AllRendered(t.effects)
      && messageQueue == old(messageQueue)
    }

    // ----- Sockets -----

    method Send(key: Endpoint, m: Message) returns (ok: bool)
      modifies this`output
      ensures var t := Protocol.Send(old(State()), key, m); if ok then Did(t) else t.Thrown?
      ensures ok <==> key in connections
      ensures ok ==> output == old(output) + [Wrote(connections[key], Print(m))]
    {
      ok := key in connections;
      if ok {
        output := output + [Wrote(connections[key], Print(m))];
      }
    }

    /** shutdown, close and erase of a connection that is there. */
    method Close(key: Endpoint)
      requires key in connections
      modifies this`output, this`connections
      ensures connections == old(connections) - {key}
      ensures output == old(output) + [ShutDown(old(connections)[key])]
    {
      output := output + [ShutDown(connections[key])];
      connections := connections - {key};
    }

    // ----- Handlers -----

    method MakeConnection(ep: Endpoint)
      modifies this
      ensures Did(Protocol.MakeConnection(old(State()), ep))
      ensures ep in old(connections) || ep in friendList ==> State() == old(State()) && output == old(output)
      ensures ep !in old(connections) && ep !in friendList ==>
                var socket := PortOf(old(port) + 1);
                && State() == old(State()).(port := old(port) + 1, connections := old(connections)[ep := socket])
                && output == old(output) + [Connecting(socket, ep)] +
                     if |friendList| < 6 && port != 12345
                     then [Wrote(socket, "Be friends?:" + DecimalText(endpoint.port))] else []
    {
      if ep in connections {
        return;
      }
      if ep in friendList {
        return;
      }
      port := port + 1;
      var socket := PortOf(port);
      connections := connections[ep := socket];
      output := output + [Connecting(socket, ep)];
      if |friendList| < FRIENDS_LIMIT && port != FIRST_ENDPOINT.port {
        var _ := Send(ep, BeFriends(endpoint.port));
      }
    }

    method NewMakeConnection(key: Endpoint, remotePort: int) returns (ok: bool)
      modifies this
      ensures var t := Protocol.NewMakeConnection(old(State()), key, PortOf(remotePort));
              if ok then Did(t) else t.Thrown?
      ensures ok <==> key in connections
      ensures ok ==> State() == old(State()) && output == old(output) + [Wrote(connections[key],
                if |friendList| < 6 && Endpoint(key.address, PortOf(remotePort)) !in clientEndpoints.Values
                then "Yes" else "No")]
    {
      var remote := Endpoint(key.address, PortOf(remotePort));
      var message := if |friendList| < FRIENDS_LIMIT then Yes else No;
      var keys := clientEndpoints.Keys;
      ghost var seen: set<Endpoint> := {};
      while keys != {}
        invariant keys + seen == clientEndpoints.Keys
        invariant message == if |friendList| < FRIENDS_LIMIT && (forall k :: k in seen ==> clientEndpoints[k] != remote)
                             then Yes else No
        decreases |keys|
      {
        var k :| k in keys;
        if clientEndpoints[k] == remote {
          message := No;
        }
        keys := keys - {k};
        seen := seen + {k};
      }
      assert remote in clientEndpoints.Values <==> exists k :: k in clientEndpoints && clientEndpoints[k] == remote;
      ok := Send(key, message);
    }

    method AskForFriends(key: Endpoint) returns (ok: bool)
      modifies this`output
      ensures var t := Protocol.AskForFriends(old(State()), key); if ok then Did(t) else t.Thrown?
      ensures ok <==> key in connections
      ensures ok ==> output == old(output) + [Wrote(connections[key], "Send friends")]
    {
      ok := Send(key, SendFriends);
    }

    /** The text of the friend list, built entry by entry. */
    method PackFriends() returns (result: string)
      ensures result == Packed(friendList)
    {
      result := "<";
      var i := 0;
      while i < |friendList|
        invariant 0 <= i <= |friendList|
        invariant result == Packed(friendList[..i])
      {
        PackedSnoc(friendList[..i], friendList[i]);
        assert friendList[..i + 1] == friendList[..i] + [friendList[i]];
        result := result + (EndpointText(friendList[i]) + ";");
        i := i + 1;
      }
      assert friendList[..i] == friendList;
    }

    method NewAskForFriends(key: Endpoint) returns (ok: bool)
      modifies this`output
      ensures var t := Protocol.NewAskForFriends(old(State()), key); if ok then Did(t) else t.Thrown?
      ensures ok <==> key in connections
      ensures ok ==> output == old(output) + [Wrote(connections[key], Packed(friendList))]
    {
      var text := PackFriends();
      ok := key in connections;
      if ok {
        output := output + [Wrote(connections[key], text)];
      }
    }

    method ConnectFriend(key: Endpoint) returns (ok: bool)
      modifies this
      ensures var t := Protocol.ConnectFriend(old(State()), key); if ok then Did(t) else t.Thrown?
      ensures |old(friendList)| == 6 ==> ok && State() == old(State()) && output == old(output)
      ensures |old(friendList)| != 6 ==>
                && (ok <==> key in connections)
                && State() == old(State()).(friendList := old(friendList) + [key], clientEndpoints := clientEndpoints)
                && clientEndpoints == (if key in old(clientEndpoints) then old(clientEndpoints)
                                       else old(clientEndpoints)[key := key])
                && (ok ==> output == old(output) +
                             [Wrote(connections[key], "Added to friends:" + DecimalText(endpoint.port))])
    {
      ok := true;
      if |friendList| != FRIENDS_LIMIT {
        friendList := friendList + [key];
        clientEndpoints := Insert(clientEndpoints, key, key);
        ok := Send(key, Added(endpoint.port));
      }
    }

    method NewConnectFriend(key: Endpoint, port: int) returns (ok: bool)
      modifies this
      ensures var t := Protocol.NewConnectFriend(old(State()), key, PortOf(port)); if ok then Did(t) else t.Thrown?
      ensures ok <==> key in old(connections)
      ensures var original := Endpoint(key.address, PortOf(port));
              ok ==> if original in old(friendList) then
                       State() == old(State()) && output == old(output) + [Wrote(connections[key], "Already friends")]
                     else if |old(friendList)| < 6 then
                       && State() == old(State()).(friendList := old(friendList) + [original],
                                                   clientEndpoints := clientEndpoints)
                       && clientEndpoints == (if key in old(clientEndpoints) then old(clientEndpoints)
                                              else old(clientEndpoints)[key := original])
                       && output == old(output) + [Wrote(connections[key], "Confirmed")]
                     else
                       && State() == old(State()).(connections := old(connections) - {key},
                                                   clientEndpoints := old(clientEndpoints) - {key})
                       && output == old(output) + [Wrote(old(connections)[key], "Not confirmed(friends limit)"),
                                                   ShutDown(old(connections)[key])]
    {
      var original := Endpoint(key.address, PortOf(port));
      if original in friendList {
        ok := Send(key, AlreadyFriends);
        return;
      }
      if |friendList| < FRIENDS_LIMIT {
        friendList := friendList + [original];
        clientEndpoints := Insert(clientEndpoints, key, original);
        ok := Send(key, Confirmed);
      } else {
        ok := Send(key, NotConfirmed);
        if ok {
          Close(key);
          clientEndpoints := clientEndpoints - {key};
        }
      }
    }

    method DisconnectFriend(key: Endpoint, original: Endpoint) returns (ok: bool)
      modifies this
      ensures var t := Protocol.DisconnectFriend(old(State()), key, original); if ok then Did(t) else t.Thrown?
      ensures ok <==> key in old(connections)
      ensures ok ==>
                && State() == old(State()).(friendList := Without(old(friendList), original),
                                            connections := old(connections) - {key},
                                            clientEndpoints := old(clientEndpoints) - {key})
                && output == old(output) + [Wrote(old(connections)[key], "Removed:" + DecimalText(endpoint.port)),
                                            ShutDown(old(connections)[key])]
    {
      friendList := Without(friendList, original);
      ok := Send(key, Removed(endpoint.port));
      if ok {
        Close(key);
        clientEndpoints := clientEndpoints - {key};
      }
    }

    method NewDisconnectFriend(key: Endpoint, friendPort: int)
      modifies this
      ensures Did(Protocol.NewDisconnectFriend(old(State()), key, PortOf(friendPort)))
      ensures var friends := Without(old(friendList), Endpoint(key.address, PortOf(friendPort)));
              if key in old(connections) then
                && State() == old(State()).(friendList := friends, connections := old(connections) - {key},
                                            clientEndpoints := old(clientEndpoints) - {key})
                && output == old(output) + [ShutDown(old(connections)[key])]
              else
                State() == old(State()).(friendList := friends) && output == old(output)
    {
      var removed := Endpoint(key.address, PortOf(friendPort));
      friendList := Without(friendList, removed);
      if key in connections {
        Close(key);
        clientEndpoints := clientEndpoints - {key};
      }
    }

    /** The second loop of unpack_friends: the endpoints read from a friend list become pending. */
    method PushPending(endpoints: seq<Endpoint>)
      modifies this`pendingEndpoints
      ensures pendingEndpoints == old(pendingEndpoints) + endpoints
    {
      var i := 0;
      while i < |endpoints|
        invariant 0 <= i <= |endpoints|
        invariant pendingEndpoints == old(pendingEndpoints) + endpoints[..i]
      {
        assert endpoints[..i + 1] == endpoints[..i] + [endpoints[i]];
        pendingEndpoints := pendingEndpoints + [endpoints[i]];
        i := i + 1;
      }
      assert endpoints[..i] == endpoints;
    }

    /** process_new_accept: the connection is kept under the port that its initiator bound. */
    method ProcessNewAccept(socket: Port)
      modifies this`connections
      ensures Did(Act(old(State()), Accept(socket)))
      ensures var key := Endpoint(IPv4(127, 0, 0, 1), socket);
              connections == if key in old(connections) then old(connections) else old(connections)[key := socket]
    {
      connections := Insert(connections, At(socket), socket);
    }

    // ----- Loops -----

    /** Like `Did`, for a step in the middle of a round that also works on the message queue. */
    twostate predicate DidSoFar(t: Turn)
      reads this
    {
      t.Turn? && State() == t.node && output == old(output) + AllRendered(t.effects)
    }

    /** The dispatcher on `Send friends`: a connection that is not tracked is closed after the answer. */
    method AnswerSendFriends(key: Endpoint) returns (ok: bool)
      modifies this
      ensures var t := Receive(old(State()), key, Message.SendFriends); if ok then Did(t) else t.Thrown?
      ensures ok <==> key in old(connections)
      ensures ok ==>
                var text := Packed(friendList);
                if key in old(clientEndpoints) then
                  State() == old(State()) && output == old(output) + [Wrote(connections[key], text)]
                else
                  && State() == old(State()).(connections := old(connections) - {key})
                  && output == old(output) + [Wrote(old(connections)[key], text), ShutDown(old(connections)[key])]
    {
      ok := NewAskForFriends(key);
      if ok && key !in clientEndpoints {
        assert clientEndpoints - {key} == clientEndpoints;
        Close(key);
      }
    }

    /** The dispatcher on a friend list: a connection that is not tracked has served its purpose. */
    method TakeFriends(key: Endpoint, list: seq<Endpoint>) returns (ok: bool)
      modifies this
      ensures var t := Receive(old(State()), key, Friends(list)); if ok then Did(t) else t.Thrown?
      ensures ok <==> key in old(clientEndpoints) || key in old(connections)
      ensures ok ==>
                var pending := old(pendingEndpoints) + list;
                if key in old(clientEndpoints) then
                  State() == old(State()).(pendingEndpoints := pending) && output == old(output)
                else
                  && State() == old(State()).(pendingEndpoints := pending, connections := old(connections) - {key})
                  && output == old(output) + [ShutDown(old(connections)[key])]
    {
      PushPending(list);
      ok := true;
      if key !in clientEndpoints {
        assert clientEndpoints - {key} == clientEndpoints;
        ok := key in connections;
        if ok {
          Close(key);
        }
      }
    }

    /** One pass through the dispatcher of process_new_message. */
    method Dispatch(key: Endpoint, text: string) returns (ok: bool)
      modifies this
      ensures var t := ReceiveText(archives, old(State()), key, text); if ok then Did(t) else t.Thrown?
    {
      hide Cut, PortIn, Unpacked;
      ok := true;
      if Starts(text, 'B') {
        var remotePort;
        ok, remotePort := GetFriendPort(text);
        if ok {
          ok := NewMakeConnection(key, remotePort);
        }
      } else if Starts(text, 'P') {
        var skipped, archive;
        ok, skipped, archive := EraseThrough(text, '/');
        ok := ok && archives(archive);
      } else if text == "Yes" {
        ok := ConnectFriend(key);
      } else if text == "No" {
        ok := AskForFriends(key);
      } else if text == "Send friends" {
        ok := AnswerSendFriends(key);
      } else if text == "Not confirmed(friends limit)" {
        ok := key in clientEndpoints;
        if ok {
          ok := DisconnectFriend(key, clientEndpoints[key]);
        }
      } else if Starts(text, 'A') {
        var port;
        ok, port := GetFriendPort(text);
        if ok {
          ok := NewConnectFriend(key, port);
        }
      } else if Starts(text, '<') {
        var list;
        ok, list := ParseFriends(text);
        if ok {
          ok := TakeFriends(key, list);
        }
      } else if Starts(text, 'R') {
        var friendPort;
        ok, friendPort := GetFriendPort(text);
        if ok {
          NewDisconnectFriend(key, friendPort);
        }
      }
    }

    /** The first loop of a round of process_new_message: one letter from each connection that has one. */
    method Collect(inbox: map<Endpoint, string>) returns (ghost batch: seq<Letter>)
      modifies this`messageQueue
      ensures messageQueue == old(messageQueue) + batch
      ensures DistinctSenders(batch)
      ensures forall letter :: letter in batch <==>
                letter.0 in connections && letter.0 in inbox && letter.1 == inbox[letter.0]
    {
      batch := [];
      var keys := connections.Keys;
      while keys != {}
        invariant keys <= connections.Keys
        invariant messageQueue == old(messageQueue) + batch
        invariant DistinctSenders(batch)
        invariant forall letter :: letter in batch <==>
                    letter.0 in connections.Keys - keys && letter.0 in inbox && letter.1 == inbox[letter.0]
        decreases |keys|
      {
        var key :| key in keys;
        if key in inbox {
          assert forall i :: 0 <= i < |batch| ==> batch[i] in batch;
          messageQueue := messageQueue + [(key, inbox[key])];
          batch := batch + [(key, inbox[key])];
        }
        keys := keys - {key};
      }
    }

    /** One pass of the second loop, after letters that had the effects `es`. */
    method DrainOne(ghost before: seq<Action>, ghost es: seq<Effect>) returns (ok: bool, ghost es': seq<Effect>)
      requires messageQueue != [] && output == before + AllRendered(es)
      modifies this
      ensures ok ==> messageQueue == old(messageQueue)[1..] && output == before + AllRendered(es')
      ensures var total := Following(es, DrainAll(archives, old(State()), old(messageQueue)));
              if ok then total == Following(es', DrainAll(archives, State(), messageQueue)) else total.Thrown?
    {
      hide ReceiveText;
      ghost var n, queue := State(), messageQueue;
      var (key, text) := messageQueue[0];
      ghost var t := ReceiveText(archives, n, key, text);
      ok := Dispatch(key, text);
      es' := es;
      if !ok {
        DrainStops(archives, n, queue);
        return;
      }
      DrainsNext(archives, es, n, queue, t);
      RenderedAppend(es, t.effects);
      es' := es + t.effects;
      messageQueue := messageQueue[1..];
    }

    /** The second loop: dispatches letters until the queue is empty. */
    method Drain() returns (ok: bool)
      modifies this
      ensures var t := DrainAll(archives, old(State()), old(messageQueue)); if ok then DidSoFar(t) else t.Thrown?
      ensures ok ==> messageQueue == []
    {
      ghost var es: seq<Effect> := [];
      ok := true;
      assert Following([], DrainAll(archives, State(), messageQueue)) == DrainAll(archives, State(), messageQueue);
      while |messageQueue| != 0
        invariant DrainAll(archives, old(State()), old(messageQueue))
               == Following(es, DrainAll(archives, State(), messageQueue))
        invariant output == old(output) + AllRendered(es)
        decreases |messageQueue|
      {
        ok, es := DrainOne(old(output), es);
        if !ok {
          return;
        }
      }
      assert es + [] == es;
    }

    /** A round of process_new_message, with no other thread in between. */
    method MessageRound(inbox: map<Endpoint, string>) returns (ok: bool, ghost batch: seq<Letter>)
      modifies this
      ensures DistinctSenders(batch)
      ensures forall letter :: letter in batch <==>
                letter.0 in old(connections) && letter.0 in inbox && letter.1 == inbox[letter.0]
      ensures var t := DrainAll(archives, old(State()), old(messageQueue) + batch);
              if ok then DidSoFar(t) && messageQueue == [] else t.Thrown?
      ensures var queue := old(messageQueue) + batch;
              && DistinctSenders(queue)
              && (forall letter :: letter in queue ==> Answerable(archives, old(State()), letter))
              ==> ok
    {
      batch := Collect(inbox);
      ghost var n, queue := State(), messageQueue;
      ok := Drain();
      if DistinctSenders(queue) && forall letter :: letter in queue ==> Answerable(archives, n, letter) {
        DrainNeverThrows(archives, n, queue);
      }
    }

    /** One pass of the inner connection loop, after passes that had the effects `es`. */
    method DialOne(ghost before: seq<Action>, ghost es: seq<Effect>) returns (ghost es': seq<Effect>)
      requires |friendList| != FRIENDS_LIMIT && pendingEndpoints != [] && output == before + AllRendered(es)
      modifies this
      ensures Following(es, DialAll(old(State()))) == Following(es', DialAll(State()))
      ensures |pendingEndpoints| < |old(pendingEndpoints)|
      ensures output == before + AllRendered(es') && messageQueue == old(messageQueue)
    {
      ghost var n := State();
      var ep := pendingEndpoints[0];
      pendingEndpoints := pendingEndpoints[1..];
      if endpoint != ep {
        MakeConnection(ep);
      }
      ghost var t := Act(n, Dial);
      FollowingTwice(es, t.effects, DialAll(t.node));
      RenderedAppend(es, t.effects);
      es' := es + t.effects;
    }

    /**
     A pass of the outer connection loop, with no other thread in between. The first
     endpoint is pushed when nothing is pending, or when the first node is a friend.
     */
    method ConnectionRound()
      modifies this
      ensures Did(DialAll(Primed(old(State()))))
      ensures PassOf(old(State()), State(), old(output), output)
      ensures CallsFirst(old(State()), State(), old(output), output)
    {
      if pendingEndpoints == [] || FIRST_ENDPOINT in friendList {
        pendingEndpoints := pendingEndpoints + [FIRST_ENDPOINT];
      }
      ghost var es: seq<Effect> := [];
      assert Following([], DialAll(State())) == DialAll(State());
      while |friendList| != FRIENDS_LIMIT && pendingEndpoints != []
        invariant DialAll(Primed(old(State()))) == Following(es, DialAll(State()))
        invariant output == old(output) + AllRendered(es)
        invariant messageQueue == old(messageQueue)
        decreases |pendingEndpoints|
      {
        es := DialOne(old(output), es);
      }
      assert es + [] == es;
      PassReaches(old(State()), old(output));
      PassCallsFirst(old(State()), old(output));
    }

    /** A pass of run_disconnection_process: a full node drops a friend of its choice. */
    method DisconnectionRound() returns (ok: bool, ghost dropped: set<Endpoint>)
      modifies this
      ensures dropped <= old(clientEndpoints).Keys
      ensures |old(friendList)| == 6 && old(clientEndpoints) != map[] ==>
                exists key :: key in old(clientEndpoints) && dropped == {key} &&
                  var t := Act(old(State()), Event.Drop(key)); if ok then Did(t) else t.Thrown?
      ensures forall key :: key in dropped ==>
                && (ok <==> key in old(connections))
                && (ok ==>
                      && State() == old(State()).(friendList := Without(old(friendList), old(clientEndpoints)[key]),
                                                  connections := old(connections) - {key},
                                                  clientEndpoints := old(clientEndpoints) - {key})
                      && output == old(output) + [Wrote(old(connections)[key], "Removed:" + DecimalText(endpoint.port)),
                                                  ShutDown(old(connections)[key])])
      ensures !(|old(friendList)| == 6 && old(clientEndpoints) != map[]) ==>
                ok && dropped == {} && Did(Turn(old(State()), []))
    {
      ok, dropped := true, {};
      if |friendList| == FRIENDS_LIMIT && |clientEndpoints| != 0 {
        assert clientEndpoints.Keys != {};
        var key :| key in clientEndpoints;
        dropped := {key};
        ok := DisconnectFriend(key, clientEndpoints[key]);
      }
    }

    // ----- The supporting loop -----

    /** The connections that no friend uses. */
    function Idle(): set<Endpoint>
      reads this
    {
      connections.Keys - clientEndpoints.Keys
    }

    /** The first loop of a round of run_supporting_process. */
    method NoteIdle(unused: Ages) returns (ages: Ages)
      ensures ages == Noted(unused, Idle())
    {
      ages := unused;
      var keys := connections.Keys;
      while keys != {}
        invariant keys <= connections.Keys
        invariant forall e :: e in ages <==> e in unused || (e in Idle() && e !in keys)
        invariant forall e :: e in ages ==> ages[e] == if e in unused then unused[e] else 1
        decreases |keys|
      {
        var e :| e in keys;
        if e !in clientEndpoints && e !in ages {
          ages := ages[e := 1];
        }
        keys := keys - {e};
      }
    }

    /** One pass of the second loop, for a key of the given age: it stays listed, is closed, or is in use or gone. */
    method AgeKey(e: Endpoint, age: int) returns (kept: bool, tooOld: bool)
      modifies this`output, this`connections
      ensures kept <==> e in old(Idle()) && age + 1 < LAST_AGE
      ensures tooOld <==> e in old(Idle()) && age + 1 >= LAST_AGE
      ensures if tooOld then
                connections == old(connections) - {e} && output == old(output) + [ShutDown(old(connections)[e])]
              else connections == old(connections) && output == old(output)
    {
      if e !in connections || e in clientEndpoints {
        return false, false;
      }
      if age + 1 >= LAST_AGE {
        Close(e);
        return false, true;
      }
      return true, false;
    }

    /**
     The second loop: ages the keys, forgets those in use or gone, closes those
     that are too old. `tooOld` and `young` are what is to become of the idle keys.
     */
    method CloseOld(noted: Ages, ghost tooOld: set<Endpoint>, ghost young: set<Endpoint>)
      returns (ages: Ages, ghost closed: seq<Endpoint>)
      requires forall k :: k in tooOld <==> k in Idle() && k in noted && noted[k] + 1 >= LAST_AGE
      requires forall k :: k in young <==> k in Idle() && k in noted && noted[k] + 1 < LAST_AGE
      modifies this`output, this`connections
      ensures ages.Keys == young && forall k :: k in young ==> ages[k] == noted[k] + 1
      ensures NoDuplicates(closed) && forall k :: k in closed <==> k in tooOld
      ensures connections == old(connections) - tooOld
      ensures output == old(output) + Closings(old(connections), closed)
    {
      ages, closed := noted, [];
      var keys := noted.Keys;
      ghost var conns := connections;
      while keys != {}
        invariant keys <= noted.Keys
        invariant NoDuplicates(closed) && forall k :: k in closed <==> k in tooOld && k !in keys
        invariant forall k :: k in connections <==> k in conns && (k in tooOld ==> k in keys)
        invariant forall k :: k in connections ==> connections[k] == conns[k]
        invariant output == old(output) + Closings(conns, closed)
        invariant forall k :: k in ages <==> k in keys || k in young
        invariant forall k :: k in ages ==> ages[k] == if k in keys then noted[k] else noted[k] + 1
        decreases |keys|
      {
        var e :| e in keys;
        var kept, expired := AgeKey(e, ages[e]);
        assert expired <==> e in tooOld;
        assert kept <==> e in young;
        if expired {
          ClosingsSnoc(conns, closed, e);
          closed := closed + [e];
        }
        if kept {
          ages := ages[e := ages[e] + 1];
        } else {
          ages := ages - {e};
        }
        keys := keys - {e};
      }
    }

    /** The part of a round of run_supporting_process that reaps; it is a sequence of `Reap` steps. */
    method ReapRound(unused: Ages) returns (ages: Ages, ghost closed: seq<Endpoint>)
      modifies this`output, this`connections
      ensures ages == Aged(unused, old(Idle()))
      ensures NoDuplicates(closed) && Elements(closed) == Reaped(unused, old(Idle()))
      ensures Did(HangupAll(old(State()), closed))
    {
      var noted := NoteIdle(unused);
      ghost var n, before, reaped := State(), output, Reaped(unused, Idle());
      ages, closed := CloseOld(noted, reaped, Aged(unused, Idle()).Keys);
      HangupAllCloses(n, closed);
      assert Elements(closed) == reaped;
      assert output == before + AllRendered(HangupAll(n, closed).effects);
    }

    /** Asks one more connection, after those in `asked`. */
    method AskNext(k: Endpoint, ghost before: seq<Action>, ghost asked: seq<Endpoint>) returns (ok: bool)
      requires HasAsked(State(), asked, before, output)
      modifies this`output
      ensures ok <==> k in connections
      ensures ok ==> HasAsked(State(), asked + [k], before, output)
    {
      ok := AskForFriends(k);
      if ok {
        AskAnother(State(), asked, k);
        RenderedAppend(AskAll(State(), asked).effects, [Sent(connections[k], Message.SendFriends)]);
      }
    }

    /** Asks every connection of a friend for friends; fails only at a tracked key without a connection. */
    method AskFriend(friend: Endpoint) returns (ok: bool, ghost asked: seq<Endpoint>)
      modifies this`output
      ensures ok ==> Did(AskAll(old(State()), asked))
      ensures ok ==> NoDuplicates(asked)
      ensures ok ==> forall k :: k in asked <==> k in clientEndpoints && clientEndpoints[k] == friend
      ensures ok ==> AskedEach(connections, asked, old(output), output)
      ensures !ok ==> exists k :: k in clientEndpoints && k !in connections
    {
      ok, asked := true, [];
      var keys := clientEndpoints.Keys;
      assert AllRendered([]) == [];
      while keys != {}
        invariant keys <= clientEndpoints.Keys
        invariant NoDuplicates(asked)
        invariant forall k :: k in asked <==> k in clientEndpoints && clientEndpoints[k] == friend && k !in keys
        invariant ok && HasAsked(State(), asked, old(output), output)
        decreases |keys|
      {
        hide HasAsked;
        var k :| k in keys;
        if clientEndpoints[k] == friend {
          ok := AskNext(k, old(output), asked);
          if !ok {
            assert k in clientEndpoints && k !in connections;
            return;
          }
          asked := asked + [k];
        }
        keys := keys - {k};
      }
      AskAllWrites(State(), asked, old(output));
    }

    /**
     The end of the round: at every fifth round that finds as many friends as were last
     noted, one friend is asked for its friends. A change in between does not start the count again.
     */
    method AskRound(pick: nat, rounds: int, previous: int)
      returns (ok: bool, rounds': int, previous': int, ghost asked: seq<Endpoint>)
      modifies this`output
      ensures Sound(old(State())) ==> ok
      ensures ok ==> Did(AskAll(old(State()), asked))
      ensures rounds' == if endpoint == FIRST_ENDPOINT || |friendList| != previous || |friendList| == 0 then rounds
                         else if rounds + 1 == 5 then 0 else rounds + 1
      ensures previous' == if endpoint == FIRST_ENDPOINT then previous else |friendList|
      ensures ok ==>
                if rounds' == 0 && rounds == 4 then
                  exists f :: f in friendList
                              && forall k :: k in asked <==> k in clientEndpoints && clientEndpoints[k] == f
                else asked == []
    {
      ok, rounds', previous', asked := true, rounds, previous, [];
      if endpoint == FIRST_ENDPOINT {
        return;
      }
      if |friendList| == previous && |friendList| != 0 {
        rounds' := rounds' + 1;
        if rounds' == 5 {
          var f := friendList[pick % |friendList|];
          ok, asked := AskFriend(f);
          rounds' := 0;
          assert ok ==> f in friendList && forall k :: k in asked <==> k in clientEndpoints && clientEndpoints[k] == f;
        }
      } else {
        previous' := |friendList|;
      }
    }
  }
}
