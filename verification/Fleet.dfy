/** Any number of peers as they run: each a main task and an event loop that wait for
    each other, with its handlers' effects reaching the network and the disk one by
    one. A loop whose handler is not finished takes no delivery.

    Every run of such a fleet is, seen through what its handlers set out to do, a run
    of the network in which each handler is one step. */
module Fleet {
  import opened Protocol
  import opened Handlers
  import opened SwapNetwork
  import opened NodeMachine

  /** An effect performed by a peer. */
  datatype Deed = Deed(peer: PeerId, effect: Effect)

  /** `log` says what the handlers set out to do, from the moment each starts; `done`
      what has been performed. */
  datatype Fleet = Fleet(
    nodes: map<PeerId, Node>,
    wire: map<RequestId, Envelope>,
    replies: map<RequestId, ReplyBody>,
    log: seq<Entry>,
    done: seq<Deed>)

  datatype Act =
    | At(peer: PeerId, step: NodeMachine.Step)
    | Arrival(id: RequestId)
    | RequestLoss(id: RequestId)
    | ReplyArrival(id: RequestId)
    | ReplyLoss(id: RequestId)
    | FailureNotice(id: RequestId)

  /** What a peer can do by itself: no request or reply comes in. */
  predicate OwnStep(st: NodeMachine.Step) {
    && (st.Issue? ==> ClientShaped(st.command))
    && (st.SwarmReport? ==> Local(st.event))
  }

  /** Peer `p`'s loop can take `e` now. */
  predicate Takes(f: Fleet, p: PeerId, e: SwarmEvent) {
    p in f.nodes && NodeMachine.Enabled(f.nodes[p], SwarmReport(e))
  }

  predicate Possible(f: Fleet, st: Act) {
    match st
    case At(p, s) => p in f.nodes && OwnStep(s) && NodeMachine.Enabled(f.nodes[p], s)
    case Arrival(id) => id in f.wire && Takes(f, f.wire[id].to, ArrivalEvent(id, f.wire[id].payload))
    case RequestLoss(id) => id in f.wire
    case ReplyArrival(id) => id in f.replies && Takes(f, id.from, ReplyEvent(id, f.replies[id]))
    case ReplyLoss(id) => id in f.replies
    case FailureNotice(id) => Takes(f, id.from, FailureEvent(id))
  }

  function Stepped(f: Fleet, p: PeerId, st: NodeMachine.Step): Fleet
    requires p in f.nodes && NodeMachine.Enabled(f.nodes[p], st)
  {
    f.(nodes := f.nodes[p := NodeMachine.Next(f.nodes[p], st)])
  }

  function Noted(f: Fleet, es: seq<Entry>): Fleet { f.(log := f.log + es) }

  /** Peer `p` performs `e`. */
  function Performed(f: Fleet, p: PeerId, e: Effect): Fleet {
    var g := f.(done := f.done + [Deed(p, e)]);
    match e
    case Send(number, to, payload) =>
      g.(wire := f.wire[RequestId(BehaviourOf(payload), p, number) := Envelope(to, payload)])
    case Respond(channel, body) => g.(replies := f.replies[channel := body])
    case _ => g
  }

  function Acted(f: Fleet, st: Act): Fleet
    requires Possible(f, st)
  {
    match st
    case At(p, s) =>
      var g := Stepped(f, p, s);
      var n := f.nodes[p];
      (match s
       case TakeCommand =>
         Noted(g, CommandEntries(n.loop, p, n.main.command, CommandTurn(n.loop, n.main.command).effects))
       case TakeEvent => Performed(g, p, n.todo[0])
       case Work => Performed(g, p, n.todo[0])
       case _ => g)
    case Arrival(id) =>
      var Envelope(p, payload) := f.wire[id];
      var s, e := f.nodes[p].loop, ArrivalEvent(id, payload);
      Noted(Stepped(f, p, SwarmReport(e)).(wire := f.wire - {id}),
            ArrivalEntries(s, p, id, payload, EventTurn(s, e).effects))
    case RequestLoss(id) => Noted(f.(wire := f.wire - {id}), LossEntries(id, f.wire[id]))
    case ReplyArrival(id) =>
      var s, e := f.nodes[id.from].loop, ReplyEvent(id, f.replies[id]);
      Noted(Stepped(f, id.from, SwarmReport(e)).(replies := f.replies - {id}), ToldEntries(id, EventTurn(s, e).effects))
    case ReplyLoss(id) => f.(replies := f.replies - {id})
    case FailureNotice(id) =>
      var s, e := f.nodes[id.from].loop, FailureEvent(id);
      Noted(Stepped(f, id.from, SwarmReport(e)), ToldEntries(id, EventTurn(s, e).effects))
  }

  ghost predicate Fresh(f: Fleet) {
    && (forall p | p in f.nodes :: NodeMachine.Init(f.nodes[p]) && f.nodes[p].loop.config.localPeer == p)
    && f.wire == map[] && f.replies == map[] && f.log == [] && f.done == []
  }

  predicate Run(f: Fleet, steps: seq<Act>)
    decreases |steps|
  {
    steps == [] || (Possible(f, steps[0]) && Run(Acted(f, steps[0]), steps[1..]))
  }

  function End(f: Fleet, steps: seq<Act>): Fleet
    requires Run(f, steps)
    decreases |steps|
  {
    if steps == [] then f else End(Acted(f, steps[0]), steps[1..])
  }

  // ---------- every node keeps its own invariant ----------

  ghost predicate NodesOk(f: Fleet) { forall p | p in f.nodes :: NodeMachine.Inv(f.nodes[p]) }

  /** The step a fleet step is at the node that takes it. */
  function NodeStep(f: Fleet, st: Act): Option<(PeerId, NodeMachine.Step)>
    requires Possible(f, st)
  {
    match st
    case At(p, s) => Some((p, s))
    case Arrival(id) => Some((f.wire[id].to, SwarmReport(ArrivalEvent(id, f.wire[id].payload))))
    case ReplyArrival(id) => Some((id.from, SwarmReport(ReplyEvent(id, f.replies[id]))))
    case FailureNotice(id) => Some((id.from, SwarmReport(FailureEvent(id))))
    case _ => None
  }

  lemma NodesAfter(f: Fleet, st: Act)
    requires Possible(f, st)
    ensures
      var s := NodeStep(f, st);
      if s.None? then Acted(f, st).nodes == f.nodes
      else
        && s.value.0 in f.nodes && NodeMachine.Enabled(f.nodes[s.value.0], s.value.1)
        && Acted(f, st).nodes == f.nodes[s.value.0 := NodeMachine.Next(f.nodes[s.value.0], s.value.1)]
  {
    hide NodeMachine.Next, NodeMachine.Enabled, CommandTurn, EventTurn;
  }

  lemma NextNodesOk(f: Fleet, st: Act)
    requires NodesOk(f) && Possible(f, st)
    ensures NodesOk(Acted(f, st))
  {
    hide Acted, Possible, NodeMachine.Next, NodeMachine.Enabled, NodeMachine.Inv;
    NodesAfter(f, st);
    var s := NodeStep(f, st);
    if s.Some? {
      NodeMachine.StepInv(f.nodes[s.value.0], s.value.1);
    }
  }
}
