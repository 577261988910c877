/**
 The friendship protocol of one node, as pure functions on the values of its
 containers. A handler yields the new containers together with what it did to
 its sockets, or `Thrown` where the program would leave through the
 out_of_range exception of `map::at`, which nothing catches.
 */
module Protocol {
  import opened Endpoints

  const FRIENDS_LIMIT := 6

  datatype Message =
    | BeFriends(port: Port)
    | Yes
    | No
    | SendFriends
    | Friends(list: seq<Endpoint>)
    | Added(port: Port)
    | Confirmed
    | NotConfirmed
    | AlreadyFriends
    | Removed(port: Port)

  /**
   `connections` maps each key to its socket. A TCP connection is named by the
   client port its initiator bound, so that port stands for the socket.
   */
  datatype Node = Node(
    endpoint: Endpoint,
    port: int,
    friendList: seq<Endpoint>,
    clientEndpoints: map<Endpoint, Endpoint>,
    connections: map<Endpoint, Port>,
    pendingEndpoints: seq<Endpoint>)

  datatype Effect =
    | Dialed(socket: Port, target: Endpoint)
    | Sent(socket: Port, message: Message)
    | Closed(socket: Port)

  datatype Turn = Turn(node: Node, effects: seq<Effect>) | Thrown

  // ----- Containers -----

  /** std::map::insert keeps the value of a key that is already there. */
  function Insert<K, V>(m: map<K, V>, k: K, v: V): map<K, V> {
    if k in m then m else m[k := v]
  }

  /** The erase-remove idiom: every element equal to `x` goes. */
  function Without(s: seq<Endpoint>, x: Endpoint): (r: seq<Endpoint>)
    ensures |r| <= |s|
    ensures forall y :: y in r <==> y in s && y != x
  {
    if s == [] then []
    else if s[0] == x then Without(s[1..], x)
    else [s[0]] + Without(s[1..], x)
  }

  ghost predicate NoDuplicates(s: seq<Endpoint>) {
    forall i, j :: 0 <= i < j < |s| ==> s[i] != s[j]
  }

  lemma {:induction false} WithoutKeepsDistinct(s: seq<Endpoint>, x: Endpoint)
    requires NoDuplicates(s)
    ensures NoDuplicates(Without(s, x))
    ensures |Without(s, x)| == |s| - (if x in s then 1 else 0)
  {
    if s != [] {
      assert forall i, j :: 0 <= i < j < |s[1..]| ==> s[1..][i] == s[i + 1] && s[1..][j] == s[j + 1];
      WithoutKeepsDistinct(s[1..], x);
      assert s[0] !in s[1..];
      assert x in s <==> x == s[0] || x in s[1..];
      var rest := Without(s[1..], x);
      if s[0] != x {
        assert s[0] !in rest;
        assert Without(s, x) == [s[0]] + rest;
      }
    }
  }

  ghost function Elements(s: seq<Endpoint>): set<Endpoint> {
    set x | x in s
  }

  // ----- Handlers -----

  function Initial(p: Port): Node {
    Node(At(p), p, [], map[], map[], [])
  }

  function Send(n: Node, key: Endpoint, m: Message): Turn {
    if key in n.connections then Turn(n, [Sent(n.connections[key], m)]) else Thrown
  }

  /** Closes the socket of `key` and erases it from both maps. */
  function Hangup(n: Node, key: Endpoint): Turn {
    if key in n.connections then
      Turn(n.(connections := n.connections - {key}, clientEndpoints := n.clientEndpoints - {key}),
           [Closed(n.connections[key])])
    else Thrown
  }

  function SendAndHangup(n: Node, key: Endpoint, m: Message): Turn {
    if key in n.connections then
      Turn(n.(connections := n.connections - {key}, clientEndpoints := n.clientEndpoints - {key}),
           [Sent(n.connections[key], m), Closed(n.connections[key])])
    else Thrown
  }

  function MakeConnection(n: Node, ep: Endpoint): Turn {
    if ep in n.connections || ep in n.friendList then Turn(n, [])
    else
      var socket := PortOf(n.port + 1);
      var n' := n.(port := n.port + 1, connections := n.connections[ep := socket]);
      if |n.friendList| < FRIENDS_LIMIT && n'.port != FIRST_ENDPOINT.port then
        Turn(n', [Dialed(socket, ep), Sent(socket, BeFriends(n.endpoint.port))])
      else
        Turn(n', [Dialed(socket, ep)])
  }

  function NewMakeConnection(n: Node, key: Endpoint, remotePort: Port): Turn {
    var remote := Endpoint(key.address, remotePort);
    Send(n, key, if |n.friendList| < FRIENDS_LIMIT && remote !in n.clientEndpoints.Values then Yes else No)
  }

  function AskForFriends(n: Node, key: Endpoint): Turn {
    Send(n, key, SendFriends)
  }

  function NewAskForFriends(n: Node, key: Endpoint): Turn {
    Send(n, key, Friends(n.friendList))
  }

  function ConnectFriend(n: Node, key: Endpoint): Turn {
    if |n.friendList| != FRIENDS_LIMIT then
      Send(n.(friendList := n.friendList + [key], clientEndpoints := Insert(n.clientEndpoints, key, key)),
           key, Added(n.endpoint.port))
    else
      Turn(n, [])
  }

  function NewConnectFriend(n: Node, key: Endpoint, port: Port): Turn {
    var original := Endpoint(key.address, port);
    if original in n.friendList then
      Send(n, key, AlreadyFriends)
    else if |n.friendList| < FRIENDS_LIMIT then
      Send(n.(friendList := n.friendList + [original], clientEndpoints := Insert(n.clientEndpoints, key, original)),
           key, Confirmed)
    else
      SendAndHangup(n, key, NotConfirmed)
  }

  function DisconnectFriend(n: Node, key: Endpoint, original: Endpoint): Turn {
    SendAndHangup(n.(friendList := Without(n.friendList, original)), key, Removed(n.endpoint.port))
  }

  function NewDisconnectFriend(n: Node, key: Endpoint, port: Port): Turn {
    var n' := n.(friendList := Without(n.friendList, Endpoint(key.address, port)));
    if key in n'.connections then Hangup(n', key) else Turn(n', [])
  }

  /** One pass through the dispatcher of process_new_message. */
  function Receive(n: Node, key: Endpoint, m: Message): Turn {
    match m
    case BeFriends(p) => NewMakeConnection(n, key, p)
    case Yes => ConnectFriend(n, key)
    case No => AskForFriends(n, key)
    case SendFriends =>
      if key in n.clientEndpoints then NewAskForFriends(n, key)
      else SendAndHangup(n, key, Friends(n.friendList))
    case NotConfirmed =>
      if key in n.clientEndpoints then DisconnectFriend(n, key, n.clientEndpoints[key]) else Thrown
    case Added(p) => NewConnectFriend(n, key, p)
    case Friends(list) =>
      var n' := n.(pendingEndpoints := n.pendingEndpoints + list);
      if key in n.clientEndpoints then Turn(n', []) else Hangup(n', key)
    case Removed(p) => NewDisconnectFriend(n, key, p)
    case Confirmed => Turn(n, [])
    case AlreadyFriends => Turn(n, [])
  }

  // ----- Atomic steps -----

  /**
   The atomic steps of the threads of a node: a message is dispatched, a
   connection is accepted, the connection loop takes a pending endpoint or
   pushes the first one, the disconnection loop drops a friend, the supporting
   loop reaps an untracked connection or asks a friend for friends.
   */
  datatype Event =
    | Hear(key: Endpoint, message: Message)
    | Accept(socket: Port)
    | Dial
    | Prime
    | Drop(key: Endpoint)
    | Reap(key: Endpoint)
    | Ask(key: Endpoint)

  /**
   When a step can happen. Only what the step itself looks up is demanded: the
   tests on the number of friends that the loops make before they call a
   handler may be stale by the time it runs.
   */
  predicate Permitted(n: Node, ev: Event) {
    match ev
    case Hear(key, _) => key in n.connections
    case Accept(_) => true
    case Dial => n.pendingEndpoints != []
    case Prime => n.pendingEndpoints == [] || FIRST_ENDPOINT in n.friendList
    case Drop(key) => key in n.clientEndpoints
    case Reap(key) => key in n.connections && key !in n.clientEndpoints
    case Ask(key) => key in n.clientEndpoints
  }

  function Act(n: Node, ev: Event): Turn
    requires Permitted(n, ev)
  {
    match ev
    case Hear(key, m) => Receive(n, key, m)
    case Accept(socket) => Turn(n.(connections := Insert(n.connections, At(socket), socket)), [])
    case Dial =>
      var ep := n.pendingEndpoints[0];
      var n' := n.(pendingEndpoints := n.pendingEndpoints[1..]);
      if ep == n.endpoint then Turn(n', []) else MakeConnection(n', ep)
    case Prime => Turn(n.(pendingEndpoints := n.pendingEndpoints + [FIRST_ENDPOINT]), [])
    case Drop(key) => DisconnectFriend(n, key, n.clientEndpoints[key])
    case Reap(key) => Hangup(n, key)
    case Ask(key) => AskForFriends(n, key)
  }

  // ----- What every run keeps, whatever the peers say -----

  /** Tracked keys are live connections, and the friend list is within its limit. */
  ghost predicate Sound(n: Node) {
    && n.clientEndpoints.Keys <= n.connections.Keys
    && |n.friendList| <= FRIENDS_LIMIT
  }

  /** `evs` is a run from `n` to `last`: every step is permitted and none throws. */
  ghost predicate IsRun(n: Node, evs: seq<Event>, last: Node)
    decreases |evs|
  {
    if evs == [] then n == last
    else
      && Permitted(n, evs[0])
      && Act(n, evs[0]).Turn?
      && IsRun(Act(n, evs[0]).node, evs[1..], last)
  }

  lemma StepKeepsSound(n: Node, ev: Event)
    requires Sound(n) && Permitted(n, ev)
    ensures Act(n, ev).Turn? ==> Sound(Act(n, ev).node)
    ensures Act(n, ev).Thrown? <==> ev.Hear? && ev.message.NotConfirmed? && ev.key !in n.clientEndpoints
  {
  }

  /** Messages of any content, lying ones included, on live connections. */
  lemma {:induction false} RunKeepsSound(n: Node, evs: seq<Event>, last: Node)
    requires Sound(n) && IsRun(n, evs, last)
    ensures Sound(last)
    decreases |evs|
  {
    if evs != [] {
      StepKeepsSound(n, evs[0]);
      RunKeepsSound(Act(n, evs[0]).node, evs[1..], last);
    }
  }
}
