/**
 A network of nodes. Every TCP connection is a link between the node that
 dialled it and the node that accepts it, with one reliable FIFO channel each
 way. A link is named by the client port its initiator bound, and it stays in
 the network after both ends are shut, so that its name is never used again.
 */
module Network {
  import opened Endpoints
  import opened Protocol

  datatype End = Waiting | Live | Shut

  datatype Link = Link(
    initiator: Port,
    acceptor: Port,
    initiatorEnd: End,
    acceptorEnd: End,
    toInitiator: seq<Message>,
    toAcceptor: seq<Message>)

  datatype Net = Net(nodes: map<Port, Node>, links: map<Port, Link>)

  // ----- A link seen from one of its ends -----

  predicate Joins(l: Link, i: Port) {
    i == l.initiator || i == l.acceptor
  }

  function EndOf(l: Link, i: Port): End {
    if i == l.initiator then l.initiatorEnd else l.acceptorEnd
  }

  function PeerOf(l: Link, i: Port): Port {
    if i == l.initiator then l.acceptor else l.initiator
  }

  /** The key under which node `i` keeps link `s` in its maps. */
  function KeyOf(l: Link, s: Port, i: Port): Endpoint {
    if i == l.initiator then At(l.acceptor) else At(s)
  }

  function Incoming(l: Link, i: Port): seq<Message> {
    if i == l.initiator then l.toInitiator else l.toAcceptor
  }

  function Take(l: Link, i: Port): Link
    requires Incoming(l, i) != []
  {
    if i == l.initiator then l.(toInitiator := l.toInitiator[1..])
    else l.(toAcceptor := l.toAcceptor[1..])
  }

  /** A message to a shut end is lost. */
  function Put(l: Link, i: Port, m: Message): Link {
    if i == l.initiator then
      if l.acceptorEnd.Shut? then l else l.(toAcceptor := l.toAcceptor + [m])
    else
      if l.initiatorEnd.Shut? then l else l.(toInitiator := l.toInitiator + [m])
  }

  /** What was sent before the end was shut is still delivered; what was not read is lost. */
  function ShutEnd(l: Link, i: Port): Link {
    if i == l.initiator then l.(initiatorEnd := Shut, toInitiator := [])
    else l.(acceptorEnd := Shut, toAcceptor := [])
  }

  // ----- Steps -----

  function Post(links: map<Port, Link>, i: Port, ef: Effect): map<Port, Link> {
    match ef
    case Dialed(s, target) => links[s := Link(i, target.port, Live, Waiting, [], [])]
    case Sent(s, m) => if s in links then links[s := Put(links[s], i, m)] else links
    case Closed(s) => if s in links then links[s := ShutEnd(links[s], i)] else links
  }

  function PostAll(links: map<Port, Link>, i: Port, es: seq<Effect>): map<Port, Link>
    decreases |es|
  {
    if es == [] then links else PostAll(Post(links, i, es[0]), i, es[1..])
  }

  /** Does this step of the connection loop bind a client port? */
  predicate Binds(n: Node, ev: Event) {
    && ev.Dial?
    && n.pendingEndpoints != []
    && var ep := n.pendingEndpoints[0];
       ep != n.endpoint && ep !in n.connections && ep !in n.friendList
  }

  /** The next port of the node exists and nobody has it: otherwise bind throws. */
  predicate PortFree(w: Net, n: Node) {
    && 0 <= n.port + 1 < 0x1_0000
    && n.port + 1 !in w.links
    && n.port + 1 !in w.nodes
  }

  predicate Enabled(w: Net, i: Port, ev: Event) {
    && i in w.nodes
    && var n := w.nodes[i];
    && Permitted(n, ev)
    && match ev
       case Hear(key, m) =>
         var s := n.connections[key];
         s in w.links && Incoming(w.links[s], i) != [] && Incoming(w.links[s], i)[0] == m
       case Accept(s) => s in w.links && w.links[s].acceptor == i && w.links[s].acceptorEnd.Waiting?
       case Dial => i != FIRST_ENDPOINT.port && (Binds(n, ev) ==> PortFree(w, n))
       case Prime => i != FIRST_ENDPOINT.port
       case _ => true
  }

  /** The part of a step that happens on a link before the node handles it. */
  function Fetch(w: Net, i: Port, ev: Event): map<Port, Link>
    requires Enabled(w, i, ev)
  {
    match ev
    case Hear(key, _) => var s := w.nodes[i].connections[key]; w.links[s := Take(w.links[s], i)]
    case Accept(s) => w.links[s := w.links[s].(acceptorEnd := Live)]
    case _ => w.links
  }

  /** A node that throws is gone: its step leads nowhere. */
  predicate Possible(w: Net, i: Port, ev: Event) {
    Enabled(w, i, ev) && Act(w.nodes[i], ev).Turn?
  }

  function After(w: Net, i: Port, ev: Event): Net
    requires Possible(w, i, ev)
  {
    var t := Act(w.nodes[i], ev);
    Net(w.nodes[i := t.node], PostAll(Fetch(w, i, ev), i, t.effects))
  }

  // ----- Runs -----

  datatype Step = Step(actor: Port, event: Event)

  ghost predicate Start(w: Net) {
    && FIRST_ENDPOINT.port in w.nodes
    && w.links == map[]
    && forall i :: i in w.nodes ==> w.nodes[i] == Initial(i)
  }

  /**
   What is assumed of a run. With `uncrossed`, a node dials a peer only when every
   earlier link between the two is shut at both ends. With `patient`, no acceptor
   reaps a link on which its `Yes` is still on the way, or the `Added` that answers
   it and whose sender has not hung up since.
   */
  datatype Regime = Regime(uncrossed: bool, patient: bool)

  const Free := Regime(false, false)
  const Uncrossed := Regime(true, false)
  const PatientOnly := Regime(false, true)
  const Patient := Regime(true, true)

  predicate Over(l: Link) {
    l.initiatorEnd.Shut? && l.acceptorEnd.Shut?
  }

  predicate Between(l: Link, i: Port, j: Port) {
    (l.initiator == i && l.acceptor == j) || (l.initiator == j && l.acceptor == i)
  }

  ghost predicate NoCrossing(w: Net, i: Port, ev: Event)
    requires Enabled(w, i, ev)
  {
    ev.Dial? && Binds(w.nodes[i], ev) ==>
      forall s :: s in w.links && Between(w.links[s], i, w.nodes[i].pendingEndpoints[0].port) ==> Over(w.links[s])
  }

  predicate Promising(l: Link) {
    Yes in l.toInitiator || (l.initiatorEnd.Live? && Added(l.initiator) in l.toAcceptor)
  }

  predicate PatientReaper(w: Net, i: Port, ev: Event)
    requires Enabled(w, i, ev)
  {
    ev.Reap? ==>
      var s := w.nodes[i].connections[ev.key];
      s in w.links && i == w.links[s].acceptor ==> !Promising(w.links[s])
  }

  ghost predicate Allowed(regime: Regime, w: Net, i: Port, ev: Event) {
    && Possible(w, i, ev)
    && (regime.uncrossed ==> NoCrossing(w, i, ev))
    && (regime.patient ==> PatientReaper(w, i, ev))
  }

  /** `steps` leads from `w` to `last` under the given assumptions. */
  ghost predicate Leads(regime: Regime, w: Net, steps: seq<Step>, last: Net)
    decreases |steps|
  {
    if steps == [] then w == last
    else
      && Allowed(regime, w, steps[0].actor, steps[0].event)
      && Leads(regime, After(w, steps[0].actor, steps[0].event), steps[1..], last)
  }

  /** `w` can be reached from a network whose nodes have done nothing yet. */
  ghost predicate Reachable(regime: Regime, w: Net) {
    exists w0, steps :: Start(w0) && Leads(regime, w0, steps, w)
  }

  // ----- What a step does to its link -----

  datatype Reply = Silent | Says(message: Message)

  /** What node `i` does on one link in a step: take a message, answer, hang up. */
  function Settle(l: Link, i: Port, took: bool, reply: Reply, hangup: bool): Link
    requires took ==> Incoming(l, i) != []
  {
    var l1 := if took then Take(l, i) else l;
    var l2 := if reply.Says? then Put(l1, i, reply.message) else l1;
    if hangup then ShutEnd(l2, i) else l2
  }

  /** The steps that concern one link the node already has under a key. */
  predicate OnLink(ev: Event) {
    ev.Hear? || ev.Drop? || ev.Reap? || ev.Ask?
  }

  function EffectsOf(s: Port, reply: Reply, hangup: bool): seq<Effect> {
    (if reply.Says? then [Sent(s, reply.message)] else []) + (if hangup then [Closed(s)] else [])
  }

  function ReplyOf(es: seq<Effect>): Reply {
    if |es| > 0 && es[0].Sent? then Says(es[0].message) else Silent
  }

  predicate HangsUp(es: seq<Effect>) {
    |es| > 0 && es[|es| - 1].Closed?
  }

  lemma PostSettles(links: map<Port, Link>, i: Port, s: Port, reply: Reply, hangup: bool)
    requires s in links
    ensures PostAll(links, i, EffectsOf(s, reply, hangup)) == links[s := Settle(links[s], i, false, reply, hangup)]
  {
    var es := EffectsOf(s, reply, hangup);
    if reply.Says? {
      var links1 := Post(links, i, es[0]);
      assert es[1..] == if hangup then [Closed(s)] else [];
      if hangup {
        assert es[1..][1..] == [];
        assert PostAll(links1, i, es[1..]) == Post(links1, i, Closed(s));
      }
    } else if hangup {
      assert es[1..] == [];
    }
  }

  lemma ActSpeaksOnOwnLink(n: Node, ev: Event)
    requires OnLink(ev) && Permitted(n, ev) && Act(n, ev).Turn? && Sound(n)
    ensures var t := Act(n, ev);
            t.effects == EffectsOf(n.connections[ev.key], ReplyOf(t.effects), HangsUp(t.effects))
  {
  }

  lemma ActsOnOwnLink(n: Node, ev: Event)
    requires OnLink(ev) && Permitted(n, ev) && Act(n, ev).Turn? && Sound(n)
    ensures var t := Act(n, ev);
            && t.node.connections == (if HangsUp(t.effects) then n.connections - {ev.key} else n.connections)
            && t.node.endpoint == n.endpoint && t.node.port == n.port
  {
  }

  /** A step on a link changes its actor and that link, and nothing else. */
  lemma StepIsLocal(w: Net, i: Port, ev: Event)
    requires Possible(w, i, ev) && OnLink(ev) && Sound(w.nodes[i])
    requires w.nodes[i].connections[ev.key] in w.links
    ensures var s := w.nodes[i].connections[ev.key];
            var t := Act(w.nodes[i], ev);
            After(w, i, ev) == Net(w.nodes[i := t.node],
              w.links[s := Settle(w.links[s], i, ev.Hear?, ReplyOf(t.effects), HangsUp(t.effects))])
  {
    var s := w.nodes[i].connections[ev.key];
    var t := Act(w.nodes[i], ev);
    ActSpeaksOnOwnLink(w.nodes[i], ev);
    PostSettles(Fetch(w, i, ev), i, s, ReplyOf(t.effects), HangsUp(t.effects));
  }
}
