/**
 What the loops of a node do in one uninterrupted round, as folds of the atomic
 steps: draining the message queue, dialling the pending endpoints, reaping and
 asking.
 */
module Rounds {
  import opened Endpoints
  import opened Protocol
  import opened Texts
  import opened Wire

  /** The effects of a turn after effects that happened before it. */
  function Following(es: seq<Effect>, t: Turn): Turn {
    match t
    case Thrown => Thrown
    case Turn(n, es') => Turn(n, es + es')
  }

  // ----- Messages -----

  /** The texts from which boost::archive reads a public key; it throws on all others. */
  type Archives = string -> bool

  /** One pass through the dispatcher, on the text as it was received. */
  function ReceiveText(archives: Archives, n: Node, key: Endpoint, text: string): Turn {
    match Read(text)
    case Handled(m) => Receive(n, key, m)
    case Undefined => Turn(n, [])
    case KeyMaterial(archive) => if archives(archive) then Turn(n, []) else Thrown
    case Faulty => Thrown
  }

  type Letter = (Endpoint, string)

  function DrainAll(archives: Archives, n: Node, queue: seq<Letter>): Turn
    decreases |queue|
  {
    if queue == [] then Turn(n, [])
    else
      match ReceiveText(archives, n, queue[0].0, queue[0].1)
      case Thrown => Thrown
      case Turn(n', es) => Following(es, DrainAll(archives, n', queue[1..]))
  }

  /** What a node says is handled by its peer as the message it means. */
  lemma TextsMeanTheirMessages(archives: Archives, n: Node, key: Endpoint, m: Message)
    requires !m.AlreadyFriends?
    ensures ReceiveText(archives, n, key, Print(m)) == Receive(n, key, m)
  {
    MessageRoundTrip(m);
  }

  /** Every text and what the dispatcher does with it. */
  lemma TextsAreDispatched(archives: Archives, n: Node, key: Endpoint, text: string)
    ensures ReceiveText(archives, n, key, text) ==
            if Starts(text, 'B') then
              match PortIn(text) case None => Thrown case Some(p) => NewMakeConnection(n, key, PortOf(p))
            else if Starts(text, 'P') then
              match Cut(text, '/')
              case None => Thrown
              case Some((_, archive)) => if archives(archive) then Turn(n, []) else Thrown
            else if text == "Yes" then ConnectFriend(n, key)
            else if text == "No" then AskForFriends(n, key)
            else if text == "Send friends" then
              if key in n.clientEndpoints then NewAskForFriends(n, key)
              else SendAndHangup(n, key, Friends(n.friendList))
            else if text == "Not confirmed(friends limit)" then
              if key in n.clientEndpoints then DisconnectFriend(n, key, n.clientEndpoints[key]) else Thrown
            else if Starts(text, 'A') then
              match PortIn(text) case None => Thrown case Some(p) => NewConnectFriend(n, key, PortOf(p))
            else if Starts(text, '<') then
              match Unpacked(text)
              case None => Thrown
              case Some(list) =>
                var n' := n.(pendingEndpoints := n.pendingEndpoints + list);
                if key in n.clientEndpoints then Turn(n', []) else Hangup(n', key)
            else if Starts(text, 'R') then
              match PortIn(text) case None => Thrown case Some(p) => NewDisconnectFriend(n, key, PortOf(p))
            else Turn(n, [])
  {
    hide Cut, PortIn, Unpacked, PortOf;
  }

  /** The letter is from a live connection, its text is readable, and a refusal comes from a tracked key. */
  ghost predicate Answerable(archives: Archives, n: Node, letter: Letter) {
    && letter.0 in n.connections
    && !Read(letter.1).Faulty?
    && (Read(letter.1).KeyMaterial? ==> archives(Read(letter.1).archive))
    && (Read(letter.1) == Handled(NotConfirmed) ==> letter.0 in n.clientEndpoints)
  }

  ghost predicate DistinctSenders(queue: seq<Letter>) {
    forall i, j :: 0 <= i < j < |queue| ==> queue[i].0 != queue[j].0
  }

  /** Handling a message leaves the keys of all other senders as they were. */
  lemma OtherKeysStay(n: Node, key: Endpoint, m: Message, other: Endpoint)
    requires Receive(n, key, m).Turn? && other != key
    ensures other in n.connections <==> other in Receive(n, key, m).node.connections
    ensures other in n.clientEndpoints <==> other in Receive(n, key, m).node.clientEndpoints
  {
  }

  lemma OtherLettersStay(archives: Archives, n: Node, letter: Letter, other: Letter)
    requires ReceiveText(archives, n, letter.0, letter.1).Turn? && other.0 != letter.0
    requires Answerable(archives, n, other)
    ensures Answerable(archives, ReceiveText(archives, n, letter.0, letter.1).node, other)
  {
    if Read(letter.1).Handled? {
      OtherKeysStay(n, letter.0, Read(letter.1).message, other.0);
    }
  }

  lemma AnswerableIsHandled(archives: Archives, n: Node, letter: Letter)
    requires Answerable(archives, n, letter)
    ensures ReceiveText(archives, n, letter.0, letter.1).Turn?
  {
  }

  /** A round of letters from distinct live senders is handled to the end. */
  lemma {:induction false} DrainNeverThrows(archives: Archives, n: Node, queue: seq<Letter>)
    requires DistinctSenders(queue)
    requires forall letter :: letter in queue ==> Answerable(archives, n, letter)
    ensures DrainAll(archives, n, queue).Turn?
    decreases |queue|
  {
    if queue != [] {
      var letter0 := queue[0];
      assert letter0 in queue;
      AnswerableIsHandled(archives, n, letter0);
      var t := ReceiveText(archives, n, letter0.0, letter0.1);
      forall letter | letter in queue[1..] ensures Answerable(archives, t.node, letter) {
        assert letter in queue;
        OtherLettersStay(archives, n, letter0, letter);
      }
      DrainNeverThrows(archives, t.node, queue[1..]);
    }
  }

  // ----- Dialling -----

  /** The inner connection loop: dial what is pending until there are enough friends. */
  function DialAll(n: Node): Turn
    decreases |n.pendingEndpoints|
  {
    if |n.friendList| == FRIENDS_LIMIT || n.pendingEndpoints == [] then Turn(n, [])
    else
      var t := Act(n, Dial);
      Following(t.effects, DialAll(t.node))
  }

  /** The endpoint is connected to, is a friend, or is the node itself. */
  predicate Reached(n: Node, ep: Endpoint) {
    ep in n.connections || ep in n.friendList || ep == n.endpoint
  }

  lemma DialReaches(n: Node)
    requires n.pendingEndpoints != []
    ensures var t, ep := Act(n, Dial), n.pendingEndpoints[0];
            && t.Turn?
            && t.node == n.(pendingEndpoints := n.pendingEndpoints[1..], port := t.node.port,
                            connections := t.node.connections)
            && Reached(t.node, ep)
            && if Reached(n, ep) then
                 t.node.connections == n.connections && t.node.port == n.port && t.effects == []
               else
                 && t.node.port == n.port + 1 && t.node.connections == n.connections[ep := PortOf(n.port + 1)]
                 && t.effects == [Dialed(PortOf(n.port + 1), ep)] +
                      if |n.friendList| < 6 && n.port + 1 != 12345
                      then [Sent(PortOf(n.port + 1), BeFriends(n.endpoint.port))] else []
  {
  }

  /** What changes between `n` and `n'` when some of `eps` are dialled. */
  ghost predicate Dialled(n: Node, n': Node, es: seq<Effect>, eps: seq<Endpoint>) {
    && n' == n.(pendingEndpoints := n'.pendingEndpoints, port := n'.port, connections := n'.connections)
    && (forall k :: k in n.connections ==> k in n'.connections && n'.connections[k] == n.connections[k])
    && (forall k :: k in n'.connections && k !in n.connections ==>
          k in eps && k !in n.friendList && k != n.endpoint && Dialed(n'.connections[k], k) in es)
    && |n'.connections| == |n.connections| + (n'.port - n.port)
  }

  /** A full node dials nothing; any other reaches all that is pending, each by at most one dial. */
  lemma {:induction false} DialAllReaches(n: Node)
    ensures |n.friendList| == 6 ==> DialAll(n) == Turn(n, [])
    ensures |n.friendList| != 6 ==>
              var t := DialAll(n);
              && t.Turn? && t.node.pendingEndpoints == []
              && Dialled(n, t.node, t.effects, n.pendingEndpoints)
              && forall ep :: ep in n.pendingEndpoints ==> Reached(t.node, ep)
    decreases |n.pendingEndpoints|
  {
    if |n.friendList| != 6 && n.pendingEndpoints != [] {
      var t := Act(n, Dial);
      DialReaches(n);
      DialAllReaches(t.node);
      DialledOn(n, t, DialAll(t.node));
      var last := DialAll(n).node;
      forall ep | ep in n.pendingEndpoints ensures Reached(last, ep) {
        assert ep == n.pendingEndpoints[0] || ep in n.pendingEndpoints[1..];
      }
    }
  }

  lemma DialledOn(n: Node, t: Turn, t': Turn)
    requires n.pendingEndpoints != [] && t == Act(n, Dial) && t'.Turn?
    requires Dialled(t.node, t'.node, t'.effects, n.pendingEndpoints[1..])
    ensures Dialled(n, t'.node, t.effects + t'.effects, n.pendingEndpoints)
  {
    DialReaches(n);
    var ep := n.pendingEndpoints[0];
    if !Reached(n, ep) {
      assert t.effects[0] == Dialed(PortOf(n.port + 1), ep);
      assert |t.node.connections| == |n.connections| + 1 by {
        assert t.node.connections.Keys == n.connections.Keys + {ep};
        assert |t.node.connections| == |t.node.connections.Keys| && |n.connections| == |n.connections.Keys|;
      }
    }
    forall k | k in t'.node.connections && k !in n.connections
      ensures k in n.pendingEndpoints && k !in n.friendList && k != n.endpoint
              && Dialed(t'.node.connections[k], k) in t.effects + t'.effects
    {
      if k in t.node.connections {
        assert k == ep && t.effects[0] == Dialed(t'.node.connections[k], k);
      } else {
        assert k in n.pendingEndpoints[1..];
      }
    }
  }

  // ----- Reaping and asking -----

  function HangupAll(n: Node, keys: seq<Endpoint>): Turn
    decreases |keys|
  {
    if keys == [] then Turn(n, [])
    else
      match HangupAll(n, keys[..|keys| - 1])
      case Thrown => Thrown
      case Turn(n', es) => Following(es, Hangup(n', keys[|keys| - 1]))
  }

  ghost function ClosedSockets(connections: map<Endpoint, Port>, keys: seq<Endpoint>): seq<Effect>
    requires forall k :: k in keys ==> k in connections
  {
    seq(|keys|, i requires 0 <= i < |keys| => Closed(connections[keys[i]]))
  }

  lemma ClosedSocketsSnoc(connections: map<Endpoint, Port>, keys: seq<Endpoint>, e: Endpoint)
    requires e in connections && forall k :: k in keys ==> k in connections
    ensures ClosedSockets(connections, keys + [e]) == ClosedSockets(connections, keys) + [Closed(connections[e])]
  {
  }

  /** Reaping idle keys one after the other only takes their connections away. */
  lemma {:induction false} HangupAllCloses(n: Node, keys: seq<Endpoint>)
    requires NoDuplicates(keys)
    requires forall k :: k in keys ==> k in n.connections && k !in n.clientEndpoints
    ensures HangupAll(n, keys) ==
              Turn(n.(connections := n.connections - Elements(keys)), ClosedSockets(n.connections, keys))
    decreases |keys|
  {
    if keys == [] {
      assert n.connections - Elements(keys) == n.connections;
    } else {
      var front, e := keys[..|keys| - 1], keys[|keys| - 1];
      assert keys == front + [e];
      HangupAllCloses(n, front);
      ClosedSocketsSnoc(n.connections, front, e);
      assert e !in front;
      assert n.clientEndpoints - {e} == n.clientEndpoints;
      assert Elements(keys) == Elements(front) + {e};
      assert n.connections - Elements(front) - {e} == n.connections - Elements(keys);
    }
  }

  function AskAll(n: Node, keys: seq<Endpoint>): Turn
    decreases |keys|
  {
    if keys == [] then Turn(n, [])
    else
      match AskAll(n, keys[..|keys| - 1])
      case Thrown => Thrown
      case Turn(n', es) => Following(es, AskForFriends(n', keys[|keys| - 1]))
  }

  /** The pass of the outer connection loop that comes before dialling. */
  function Primed(n: Node): Node {
    if n.pendingEndpoints == [] || FIRST_ENDPOINT in n.friendList then Act(n, Prime).node else n
  }

  // ----- Rounds are runs of atomic steps -----

  lemma {:induction false} RunsConcatenate(n: Node, evs: seq<Event>, mid: Node, evs': seq<Event>, last: Node)
    requires IsRun(n, evs, mid) && IsRun(mid, evs', last)
    ensures IsRun(n, evs + evs', last)
    decreases |evs|
  {
    if evs == [] {
      assert evs + evs' == evs';
    } else {
      assert (evs + evs')[1..] == evs[1..] + evs';
      RunsConcatenate(Act(n, evs[0]).node, evs[1..], mid, evs', last);
    }
  }

  lemma OneStepRun(n: Node, ev: Event)
    requires Permitted(n, ev) && Act(n, ev).Turn?
    ensures IsRun(n, [ev], Act(n, ev).node)
  {
    assert [ev][1..] == [];
  }

  lemma {:induction false} DialAllIsARun(n: Node) returns (evs: seq<Event>)
    ensures DialAll(n).Turn? && IsRun(n, evs, DialAll(n).node)
    ensures forall ev :: ev in evs ==> ev.Dial?
    decreases |n.pendingEndpoints|
  {
    if |n.friendList| == FRIENDS_LIMIT || n.pendingEndpoints == [] {
      evs := [];
    } else {
      var rest := DialAllIsARun(Act(n, Dial).node);
      evs := [Dial] + rest;
      assert evs[1..] == rest;
    }
  }

  /** Closing idle connections is reaping them one by one. */
  lemma {:induction false} HangupAllIsARun(n: Node, keys: seq<Endpoint>) returns (evs: seq<Event>)
    requires NoDuplicates(keys)
    requires forall k :: k in keys ==> k in n.connections && k !in n.clientEndpoints
    ensures |evs| == |keys| && (forall j :: 0 <= j < |keys| ==> evs[j] == Reap(keys[j]))
    ensures HangupAll(n, keys).Turn? && IsRun(n, evs, HangupAll(n, keys).node)
    decreases |keys|
  {
    HangupAllCloses(n, keys);
    if keys == [] {
      evs := [];
    } else {
      var front, e := keys[..|keys| - 1], keys[|keys| - 1];
      assert keys == front + [e];
      evs := HangupAllIsARun(n, front);
      HangupAllCloses(n, front);
      var mid := HangupAll(n, front).node;
      assert e !in front;
      OneStepRun(mid, Reap(e));
      RunsConcatenate(n, evs, mid, [Reap(e)], Act(mid, Reap(e)).node);
      evs := evs + [Reap(e)];
    }
  }

  // ----- One receive is enough -----

  const RECEIVE_SIZE := 1024

  /** Everything a node with at most six friends says fits in one receive. */
  lemma SaysFit(n: Node, ev: Event, socket: Port, m: Message)
    requires Sound(n) && Permitted(n, ev) && Act(n, ev).Turn? && Sent(socket, m) in Act(n, ev).effects
    ensures |Print(m)| <= 133 < RECEIVE_SIZE
  {
    assert m.Friends? ==> m.list == n.friendList;
    MessagesFit(m);
  }
}
