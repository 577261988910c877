/**
 A round of process_new_message in the network: the letters a node collects,
 one from each connection that has one, can all be dispatched unless one is
 `Already friends`, and dispatching them one after the other is a run of the
 network.
 */
module Draining {
  import opened Endpoints
  import opened Protocol
  import opened Network
  import opened Wiring
  import opened Handshake
  import opened Additions
  import opened Crossing
  import opened Wire
  import opened Rounds

  datatype Mail = Mail(key: Endpoint, message: Message)

  function LettersOf(mails: seq<Mail>): (letters: seq<Letter>)
    ensures |letters| == |mails|
  {
    seq(|mails|, i requires 0 <= i < |mails| => (mails[i].key, Print(mails[i].message)))
  }

  function StepsOf(i: Port, mails: seq<Mail>): (steps: seq<Step>)
    ensures |steps| == |mails|
  {
    seq(|mails|, k requires 0 <= k < |mails| => Step(i, Hear(mails[k].key, mails[k].message)))
  }

  ghost predicate DistinctKeys(mails: seq<Mail>) {
    forall j, k :: 0 <= j < k < |mails| ==> mails[j].key != mails[k].key
  }

  /** `mail` is the next message on the connection that node `i` has under its key. */
  ghost predicate NextOf(w: Net, i: Port, mail: Mail) {
    && i in w.nodes && mail.key in w.nodes[i].connections
    && var s := w.nodes[i].connections[mail.key];
    && s in w.links
    && Incoming(w.links[s], i) != [] && Incoming(w.links[s], i)[0] == mail.message
  }

  lemma NextCanBeHeard(w: Net, i: Port, mail: Mail)
    requires Orderly(w) && NextOf(w, i, mail)
    ensures Allowed(Patient, w, i, Hear(mail.key, mail.message))
    ensures Orderly(After(w, i, Hear(mail.key, mail.message)))
  {
    NeverThrows(w, i, Hear(mail.key, mail.message));
    StepKeepsOrderly(w, i, Hear(mail.key, mail.message));
  }

  /** What is next on one connection is still next after a message of another has been handled. */
  lemma OthersStayNext(w: Net, i: Port, mail: Mail, other: Mail)
    requires Orderly(w) && NextOf(w, i, mail) && NextOf(w, i, other) && other.key != mail.key
    requires Possible(w, i, Hear(mail.key, mail.message))
    ensures NextOf(After(w, i, Hear(mail.key, mail.message)), i, other)
    ensures var n' := After(w, i, Hear(mail.key, mail.message)).nodes[i];
            n'.connections[other.key] == w.nodes[i].connections[other.key] != w.nodes[i].connections[mail.key]
  {
    var ev := Hear(mail.key, mail.message);
    assert NodeWired(w, i);
    assert w.nodes[i].connections[other.key] != w.nodes[i].connections[mail.key] by {
      if w.nodes[i].connections[other.key] == w.nodes[i].connections[mail.key] {
        KeysDiffer(w, i, other.key, mail.key);
      }
    }
    OnLinkMoves(w, i, ev);
  }

  lemma NextLead(w: Net, i: Port, mails: seq<Mail>, last: Net)
    requires mails != [] && Allowed(Patient, w, i, Hear(mails[0].key, mails[0].message))
    requires Leads(Patient, After(w, i, Hear(mails[0].key, mails[0].message)), StepsOf(i, mails[1..]), last)
    ensures Leads(Patient, w, StepsOf(i, mails), last)
  {
    assert StepsOf(i, mails)[1..] == StepsOf(i, mails[1..]);
  }

  // ----- The links after a round -----

  ghost predicate CanTake(links: map<Port, Link>, i: Port, sockets: seq<Port>) {
    && (forall s :: s in sockets ==> s in links && Incoming(links[s], i) != [])
    && (forall j, k :: 0 <= j < k < |sockets| ==> sockets[j] != sockets[k])
  }

  /** The links after node `i` has received one message from each of `sockets`. */
  function TakeAll(links: map<Port, Link>, i: Port, sockets: seq<Port>): map<Port, Link>
    requires CanTake(links, i, sockets)
    decreases |sockets|
  {
    if sockets == [] then links
    else TakeAll(links[sockets[0] := Take(links[sockets[0]], i)], i, sockets[1..])
  }

  function SocketsOf(n: Node, mails: seq<Mail>): (sockets: seq<Port>)
    requires forall mail :: mail in mails ==> mail.key in n.connections
    ensures |sockets| == |mails|
  {
    seq(|mails|, k requires 0 <= k < |mails| => n.connections[mails[k].key])
  }

  /** Receiving does not depend on a link that is not received from. */
  lemma {:induction false} TakeAllElsewhere(links: map<Port, Link>, i: Port, sockets: seq<Port>, s: Port, l: Link)
    requires CanTake(links, i, sockets) && s !in sockets
    ensures CanTake(links[s := l], i, sockets)
    ensures TakeAll(links[s := l], i, sockets) == TakeAll(links, i, sockets)[s := l]
    ensures s in links ==> s in TakeAll(links, i, sockets) && TakeAll(links, i, sockets)[s] == links[s]
    decreases |sockets|
  {
    if sockets != [] {
      var r := sockets[0];
      var links1 := links[r := Take(links[r], i)];
      assert links[s := l][r := Take(links[r], i)] == links1[s := l];
      TakeAllElsewhere(links1, i, sockets[1..], s, l);
    }
  }

  lemma {:induction false} PostAllAppends(links: map<Port, Link>, i: Port, es: seq<Effect>, es': seq<Effect>)
    ensures PostAll(links, i, es + es') == PostAll(PostAll(links, i, es), i, es')
    decreases |es|
  {
    if es == [] {
      assert es + es' == es';
    } else {
      assert (es + es')[1..] == es[1..] + es';
      PostAllAppends(Post(links, i, es[0]), i, es[1..], es');
    }
  }

  /** Handling the first message before the others are received makes no difference to the links. */
  lemma FirstIsPosted(links: map<Port, Link>, i: Port, sockets: seq<Port>, reply: Reply, hangup: bool, es: seq<Effect>)
    requires CanTake(links, i, sockets) && sockets != []
    ensures var s := sockets[0];
            var links1 := links[s := Settle(links[s], i, true, reply, hangup)];
            && CanTake(links1, i, sockets[1..])
            && PostAll(TakeAll(links, i, sockets), i, EffectsOf(s, reply, hangup) + es)
                 == PostAll(TakeAll(links1, i, sockets[1..]), i, es)
  {
    var s, rest := sockets[0], sockets[1..];
    var l := Settle(links[s], i, true, reply, hangup);
    assert CanTake(links, i, rest);
    var others := TakeAll(links, i, rest);
    TakeAllElsewhere(links, i, rest, s, l);
    TakeAllElsewhere(links, i, rest, s, Take(links[s], i));
    var received := others[s := Take(links[s], i)];
    assert received == TakeAll(links, i, sockets);
    PostSettles(received, i, s, reply, hangup);
    assert PostAll(received, i, EffectsOf(s, reply, hangup)) == others[s := l];
    PostAllAppends(received, i, EffectsOf(s, reply, hangup), es);
  }

  /** Where `t` ends, `last` is the network after node `i` has received `mails` and then done what `t` says. */
  ghost predicate Done(w: Net, i: Port, mails: seq<Mail>, t: Turn, last: Net) {
    && i in w.nodes && (forall mail :: mail in mails ==> mail.key in w.nodes[i].connections)
    && var sockets := SocketsOf(w.nodes[i], mails);
    && CanTake(w.links, i, sockets)
    && (t.Turn? ==> last == Net(w.nodes[i := t.node], PostAll(TakeAll(w.links, i, sockets), i, t.effects)))
  }

  lemma OwnSockets(w: Net, i: Port, e: Endpoint, e': Endpoint)
    requires Orderly(w) && i in w.nodes && e in w.nodes[i].connections && e' in w.nodes[i].connections && e != e'
    ensures w.nodes[i].connections[e] != w.nodes[i].connections[e']
  {
    assert NodeWired(w, i);
    if w.nodes[i].connections[e] == w.nodes[i].connections[e'] {
      KeysDiffer(w, i, e, e');
    }
  }

  /** The letters of a round: one from each of some connections, and the next there. */
  ghost predicate Round(w: Net, i: Port, mails: seq<Mail>) {
    i in w.nodes && DistinctKeys(mails) && forall mail :: mail in mails ==> NextOf(w, i, mail)
  }

  lemma NextAreTaken(w: Net, i: Port, mails: seq<Mail>)
    requires Orderly(w) && Round(w, i, mails)
    ensures CanTake(w.links, i, SocketsOf(w.nodes[i], mails))
  {
    hide Orderly;
    var sockets := SocketsOf(w.nodes[i], mails);
    forall s | s in sockets ensures s in w.links && Incoming(w.links[s], i) != [] {
      var k :| 0 <= k < |sockets| && sockets[k] == s;
      assert mails[k] in mails;
    }
    forall j, k | 0 <= j < k < |sockets| ensures sockets[j] != sockets[k] {
      assert mails[j] in mails && mails[k] in mails;
      OwnSockets(w, i, mails[j].key, mails[k].key);
    }
  }

  /** After the first letter, the others are a round of their own, from the same sockets. */
  lemma RestIsARound(w: Net, i: Port, mails: seq<Mail>)
    requires Orderly(w) && Round(w, i, mails) && mails != []
    ensures var ev := Hear(mails[0].key, mails[0].message);
            && Allowed(Patient, w, i, ev)
            && Orderly(After(w, i, ev))
            && Round(After(w, i, ev), i, mails[1..])
            && SocketsOf(After(w, i, ev).nodes[i], mails[1..]) == SocketsOf(w.nodes[i], mails)[1..]
  {
    hide Orderly;
    var mail, rest := mails[0], mails[1..];
    assert mail in mails;
    NextCanBeHeard(w, i, mail);
    var w1 := After(w, i, Hear(mail.key, mail.message));
    forall other | other in rest
      ensures NextOf(w1, i, other) && w1.nodes[i].connections[other.key] == w.nodes[i].connections[other.key]
    {
      assert other in mails;
      OthersStayNext(w, i, mail, other);
    }
    forall k | 0 <= k < |rest|
      ensures SocketsOf(w1.nodes[i], rest)[k] == SocketsOf(w.nodes[i], mails)[1..][k]
    {
      assert rest[k] in rest && rest[k] == mails[k + 1];
    }
  }

  /** What hearing the next message does to the node and to the one link. */
  lemma HearIsLocal(w: Net, i: Port, ev: Event)
    requires Orderly(w) && Possible(w, i, ev) && ev.Hear?
    ensures var s := w.nodes[i].connections[ev.key];
            var t := Act(w.nodes[i], ev);
            && s in w.links && Incoming(w.links[s], i) != []
            && t.effects == EffectsOf(s, ReplyOf(t.effects), HangsUp(t.effects))
            && After(w, i, ev) == Net(w.nodes[i := t.node],
                 w.links[s := Settle(w.links[s], i, true, ReplyOf(t.effects), HangsUp(t.effects))])
  {
    assert NodeWired(w, i);
    ActSpeaksOnOwnLink(w.nodes[i], ev);
    StepIsLocal(w, i, ev);
  }

  lemma FirstIsDone(w: Net, i: Port, mails: seq<Mail>, n1: Node, reply: Reply, hangup: bool,
                    w1: Net, t: Turn, last: Net)
    requires i in w.nodes && mails != [] && forall mail :: mail in mails ==> mail.key in w.nodes[i].connections
    requires CanTake(w.links, i, SocketsOf(w.nodes[i], mails))
    requires var s := SocketsOf(w.nodes[i], mails)[0];
             w1 == Net(w.nodes[i := n1], w.links[s := Settle(w.links[s], i, true, reply, hangup)])
    requires Done(w1, i, mails[1..], t, last)
    requires SocketsOf(n1, mails[1..]) == SocketsOf(w.nodes[i], mails)[1..]
    ensures Done(w, i, mails, Following(EffectsOf(SocketsOf(w.nodes[i], mails)[0], reply, hangup), t), last)
  {
    if t.Turn? {
      FirstIsPosted(w.links, i, SocketsOf(w.nodes[i], mails), reply, hangup, t.effects);
      assert w.nodes[i := n1][i := t.node] == w.nodes[i := t.node];
    }
  }

  // ----- A round -----

  /** No letter is the one text the dispatcher cannot read. */
  ghost predicate Readable(mails: seq<Mail>) {
    forall mail :: mail in mails ==> !mail.message.AlreadyFriends?
  }

  lemma FirstLetter(archives: Archives, n: Node, mails: seq<Mail>)
    requires mails != []
    ensures DrainAll(archives, n, LettersOf(mails)) ==
            if mails[0].message.AlreadyFriends? then Thrown
            else
              match Receive(n, mails[0].key, mails[0].message)
              case Thrown => Thrown
              case Turn(n', es) => Following(es, DrainAll(archives, n', LettersOf(mails[1..])))
  {
    var letters := LettersOf(mails);
    assert letters[1..] == LettersOf(mails[1..]);
    assert letters[0] == (mails[0].key, Print(mails[0].message));
    if mails[0].message.AlreadyFriends? {
      AlreadyFriendsIsMisread();
    } else {
      TextsMeanTheirMessages(archives, n, mails[0].key, mails[0].message);
    }
  }

  lemma ReadableInOrder(mails: seq<Mail>)
    requires mails != []
    ensures Readable(mails) <==> !mails[0].message.AlreadyFriends? && Readable(mails[1..])
  {
    assert mails == [mails[0]] + mails[1..];
  }

  lemma EmptyRound(archives: Archives, w: Net, i: Port)
    requires i in w.nodes
    ensures Leads(Patient, w, StepsOf(i, []), w) && Done(w, i, [], DrainAll(archives, w.nodes[i], LettersOf([])), w)
  {
    assert w.nodes[i := w.nodes[i]] == w.nodes;
  }

  lemma RoundGoesOn(archives: Archives, w: Net, i: Port, mails: seq<Mail>, last: Net)
    requires Orderly(w) && Round(w, i, mails) && mails != []
    requires Allowed(Patient, w, i, Hear(mails[0].key, mails[0].message))
    requires var w1 := After(w, i, Hear(mails[0].key, mails[0].message));
             && Leads(Patient, w1, StepsOf(i, mails[1..]), last)
             && Done(w1, i, mails[1..], DrainAll(archives, w1.nodes[i], LettersOf(mails[1..])), last)
             && (DrainAll(archives, w1.nodes[i], LettersOf(mails[1..])).Turn? <==> Readable(mails[1..]))
             && SocketsOf(w1.nodes[i], mails[1..]) == SocketsOf(w.nodes[i], mails)[1..]
    ensures DrainAll(archives, w.nodes[i], LettersOf(mails)).Turn? <==> Readable(mails)
    ensures Leads(Patient, w, StepsOf(i, mails), last)
    ensures Done(w, i, mails, DrainAll(archives, w.nodes[i], LettersOf(mails)), last)
  {
    var n, ev := w.nodes[i], Hear(mails[0].key, mails[0].message);
    var w1, t := After(w, i, ev), Act(n, ev);
    assert t == Receive(n, ev.key, ev.message) && w1.nodes[i] == t.node;
    NextAreTaken(w, i, mails);
    NextLead(w, i, mails, last);
    HearIsLocal(w, i, ev);
    FirstLetter(archives, n, mails);
    ReadableInOrder(mails);
    hide Orderly, Receive, Act, After, Allowed, Leads, Round, Settle, EffectsOf;
    var t1 := DrainAll(archives, w1.nodes[i], LettersOf(mails[1..]));
    FirstIsDone(w, i, mails, t.node, ReplyOf(t.effects), HangsUp(t.effects), w1, t1, last);
  }

  /**
   The node gets through a round exactly when every letter is readable. Then the
   round is a run of the network, and what draining the letters does to the
   containers and the sockets is what that run does.
   */
  lemma {:induction false} RoundIsARun(archives: Archives, w: Net, i: Port, mails: seq<Mail>)
    requires Orderly(w) && Round(w, i, mails)
    ensures DrainAll(archives, w.nodes[i], LettersOf(mails)).Turn? <==> Readable(mails)
    ensures exists last :: Leads(Patient, w, StepsOf(i, mails), last)
                           && Done(w, i, mails, DrainAll(archives, w.nodes[i], LettersOf(mails)), last)
    decreases |mails|
  {
    if mails == [] {
      EmptyRound(archives, w, i);
    } else {
      RestIsARound(w, i, mails);
      var w1 := After(w, i, Hear(mails[0].key, mails[0].message));
      RoundIsARun(archives, w1, i, mails[1..]);
      var last :| Leads(Patient, w1, StepsOf(i, mails[1..]), last)
                  && Done(w1, i, mails[1..], DrainAll(archives, w1.nodes[i], LettersOf(mails[1..])), last);
      RoundGoesOn(archives, w, i, mails, last);
    }
  }

  /** Without crossing a node gets through every round. */
  lemma UncrossedRoundsComplete(archives: Archives, regime: Regime, w: Net, i: Port, mails: seq<Mail>)
    requires regime.uncrossed && Reachable(regime, w) && Round(w, i, mails)
    ensures DrainAll(archives, w.nodes[i], LettersOf(mails)).Turn?
  {
    ReachableIsOrderly(regime, w);
    RoundIsARun(archives, w, i, mails);
    assert NodeWired(w, i);
    forall mail | mail in mails ensures !mail.message.AlreadyFriends? {
      var s := w.nodes[i].connections[mail.key];
      AlreadyFriendsIsNeverSaid(regime, w, s);
      assert mail.message in Incoming(w.links[s], i);
    }
  }

  /** When requests have crossed, honest nodes can reach a state in which a node does not survive the next round. */
  lemma CrossedRoundBreaks(archives: Archives, w0: Net, a: Port, b: Port) returns (w: Net, mails: seq<Mail>)
    requires Start(w0) && Apart(w0, a, b)
    ensures Reachable(PatientOnly, w) && Round(w, a, mails)
    ensures DrainAll(archives, w.nodes[a], LettersOf(mails)).Thrown?
  {
    hide Reachable, Orderly, DrainAll, LettersOf;
    w := CrossingCountsAFriendTwice(w0, a, b);
    ReachableIsOrderly(PatientOnly, w);
    mails := [Mail(At(b), AlreadyFriends)];
    assert NextOf(w, a, mails[0]);
    hide Doubled, QuietElsewhere, NextOf;
    RoundIsARun(archives, w, a, mails);
    assert mails[0] in mails;
  }
}
