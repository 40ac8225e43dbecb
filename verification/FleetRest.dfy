/** Left alone, a fleet comes to rest, and where it rests. */
module FleetRest {
  import opened Protocol
  import opened Handlers
  import opened SwapNetwork
  import opened NodeMachine
  import opened Fleet
  import opened FleetProjection
  import opened Quiescence

  /** What happens without a user, a chat message or a new connection: the two tasks
      of every peer go on, what is on its way arrives, and a swarm reports what it owes. */
  predicate Due(f: Fleet, st: Act) {
    match st
    case At(p, s) => p in f.nodes && NodeMachine.Guaranteed(f.nodes[p], s)
    case Arrival(_) => true
    case ReplyArrival(_) => true
    case FailureNotice(_) => true
    case RequestLoss(_) => false
    case ReplyLoss(_) => false
  }

  ghost predicate AtRest(f: Fleet) { forall st | Due(f, st) :: !Possible(f, st) }

  /** Nobody waits for anything at this peer. */
  predicate Idle(n: Node) { n.main.AtSelect? && n.todo == [] && n.swarm.open == {} }

  // ---------- where it rests ----------

  /** What is due at one node is due in the fleet. */
  function ActFor(p: PeerId, s: NodeMachine.Step): Act {
    match s
    case SwarmReport(OfferFailed(k)) => FailureNotice(RequestId(TradeOffering, p, k))
    case SwarmReport(AnswerFailed(k)) => FailureNotice(RequestId(TradeAnswering, p, k))
    case SwarmReport(DirectFailed(k)) => FailureNotice(RequestId(DirectMessaging, p, k))
    case _ => At(p, s)
  }

  lemma NodeGoesOn(f: Fleet, p: PeerId)
    requires p in f.nodes && NodeMachine.Inv(f.nodes[p])
    requires !Idle(f.nodes[p]) && !CyclicWait(f.nodes[p])
    ensures !AtRest(f)
  {
    hide NodeMachine.Inv;
    var s := GoesOn(f.nodes[p]);
    assert Due(f, ActFor(p, s)) && Possible(f, ActFor(p, s));
  }

  lemma NodeWaits(n: Node, s: NodeMachine.Step)
    requires Idle(n) || CyclicWait(n)
    ensures NodeMachine.Guaranteed(n, s) ==> !NodeMachine.Enabled(n, s)
  {
    if CyclicWait(n) { CyclicWaitIsFinal(n, s); }
  }

  /** A request on the wire can be delivered to nobody. */
  predicate Undeliverable(f: Fleet, id: RequestId) {
    id in f.wire && (f.wire[id].to in f.nodes ==> CyclicWait(f.nodes[f.wire[id].to]))
  }

  /** A reachable fleet is at rest if and only if every peer is idle, with no sender
      parked and nothing owed, or in the cyclic wait, and nothing is on the wire but
      requests to peers in the cyclic wait or outside the fleet. */
  lemma RestExactly(f: Fleet, steps: seq<Act>)
    requires Fresh(f) && Run(f, steps)
    ensures
      var g := End(f, steps);
      AtRest(g) <==>
        && (forall p | p in g.nodes :: Idle(g.nodes[p]) || CyclicWait(g.nodes[p]))
        && (forall id | id in g.wire :: Undeliverable(g, id))
  {
    hide NodeMachine.Inv, Acted, Run, End, Idle, CyclicWait, Projected, AtRest;
    var ns := Projects(f, steps);
    var g := End(f, steps);
    RestsOnlyThere(g);
    if && (forall p | p in g.nodes :: Idle(g.nodes[p]) || CyclicWait(g.nodes[p]))
       && (forall id | id in g.wire :: Undeliverable(g, id)) {
      RestsThere(g);
    }
  }

  lemma RestsOnlyThere(g: Fleet)
    requires NodesOk(g)
    ensures AtRest(g) ==> forall p | p in g.nodes :: Idle(g.nodes[p]) || CyclicWait(g.nodes[p])
    ensures AtRest(g) ==> forall id | id in g.wire :: Undeliverable(g, id)
  {
    hide NodeMachine.Inv;
    if AtRest(g) {
      forall p | p in g.nodes ensures Idle(g.nodes[p]) || CyclicWait(g.nodes[p]) {
        if !Idle(g.nodes[p]) && !CyclicWait(g.nodes[p]) { NodeGoesOn(g, p); }
      }
      forall id | id in g.wire ensures Undeliverable(g, id) {
        assert Due(g, Arrival(id)) && !Possible(g, Arrival(id));
      }
    }
  }

  lemma RestsThere(g: Fleet)
    requires forall p | p in g.nodes :: Idle(g.nodes[p]) || CyclicWait(g.nodes[p])
    requires forall id | id in g.wire :: Undeliverable(g, id)
    ensures AtRest(g)
  {
    forall st | Due(g, st) ensures !Possible(g, st) {
      match st
      case At(p, s) => NodeWaits(g.nodes[p], s);
      case Arrival(id) =>
      case ReplyArrival(id) =>
      case FailureNotice(id) =>
    }
  }

  /** In a fleet at rest, a peer that has a sender parked, or main waiting, is in the
      cyclic wait. */
  lemma WhoWaitsIsBlocked(f: Fleet, steps: seq<Act>, p: PeerId)
    requires Fresh(f) && Run(f, steps) && AtRest(End(f, steps)) && p in End(f, steps).nodes
    ensures
      var n := End(f, steps).nodes[p];
      n.main.Awaiting? || n.loop.pending != NOTHING_PENDING ==> CyclicWait(n)
  {
    hide Acted, Run, End, Projected, AtRest;
    var ns := Projects(f, steps);
    RestExactly(f, steps);
  }

  // ---------- that it comes to rest ----------

  /** Each effect weighs more than all it can set off. */
  function EffectWeight(e: Effect): nat {
    match e
    case Send(_, _, _) => 9
    case GetRecord(_, _) => 3
    case PutRecord(_, _, _) => 3
    case Respond(_, _) => 2
    case Emit(_) => 2
    case _ => 1
  }

  function TodoWeight(es: seq<Effect>): nat {
    if es == [] then 0 else EffectWeight(es[0]) + TodoWeight(es[1..])
  }

  function MainWeight(m: MainTask): nat {
    if m.AtSelect? then 0 else if m.Sending? then 12 else 1
  }

  function NodeWeight(n: Node): nat { MainWeight(n.main) + TodoWeight(n.todo) + 2 * |n.swarm.open| }

  ghost function NodesWeight(nodes: map<PeerId, Node>): nat
    decreases |nodes|
  {
    if nodes == map[] then 0
    else
      var p :| p in nodes;
      RemovalSize(nodes, p);
      NodeWeight(nodes[p]) + NodesWeight(nodes - {p})
  }

  ghost function Weight(f: Fleet): nat { NodesWeight(f.nodes) + 6 * |f.wire| + |f.replies| }

  lemma {:induction false} TakeOut(nodes: map<PeerId, Node>, p: PeerId)
    requires p in nodes
    ensures NodesWeight(nodes) == NodeWeight(nodes[p]) + NodesWeight(nodes - {p})
    decreases |nodes|
  {
    hide NodeWeight;
    var q :| q in nodes && NodesWeight(nodes) == NodeWeight(nodes[q]) + NodesWeight(nodes - {q});
    if q != p {
      RemovalSize(nodes, q);
      RemovalSize(nodes, p);
      TakeOut(nodes - {q}, p);
      TakeOut(nodes - {p}, q);
      assert nodes - {q} - {p} == nodes - {p} - {q};
    }
  }

  lemma OneNodeMoves(nodes: map<PeerId, Node>, p: PeerId, m: Node)
    requires p in nodes
    ensures NodesWeight(nodes[p := m]) + NodeWeight(nodes[p]) == NodesWeight(nodes) + NodeWeight(m)
  {
    TakeOut(nodes, p);
    TakeOut(nodes[p := m], p);
    assert nodes[p := m] - {p} == nodes - {p};
  }

  lemma LightTurns(s: LoopState, c: Command)
    ensures TodoWeight(CommandTurn(s, c).effects) <= 9
  {
    FewWeigh(CommandTurn(s, c).effects);
  }

  lemma FewWeigh(es: seq<Effect>)
    requires |es| <= 2
    ensures TodoWeight(es) == (if |es| >= 1 then EffectWeight(es[0]) else 0)
                            + (if |es| == 2 then EffectWeight(es[1]) else 0)
  {
    if |es| == 1 {
      assert es[1..] == [];
    } else if |es| == 2 {
      assert es[1..] == [es[1]] && es[1..][1..] == [];
    }
  }

  /** A decision sets off next to nothing, an arrival at most a write, a reply and a notice. */
  lemma LightEvents(s: LoopState, e: SwarmEvent)
    ensures Decides(e).Some? ==> TodoWeight(EventTurn(s, e).effects) <= 1
    ensures ChannelOf(e).Some? ==> TodoWeight(EventTurn(s, e).effects) <= 5
  {
    hide EventTurn;
    if Decides(e).Some? { LightDecision(s, e); }
    if ChannelOf(e).Some? { LightArrival(s, e); }
  }

  lemma LightDecision(s: LoopState, e: SwarmEvent)
    requires Decides(e).Some?
    ensures TodoWeight(EventTurn(s, e).effects) <= 1
  {
    FewWeigh(EventTurn(s, e).effects);
  }

  lemma LightArrival(s: LoopState, e: SwarmEvent)
    requires ChannelOf(e).Some?
    ensures TodoWeight(EventTurn(s, e).effects) <= 5
  {
    var es := EventTurn(s, e).effects;
    if |es| == 3 {
      FewWeigh(es[1..]);
    } else {
      FewWeigh(es);
    }
  }

  /** What an effect of weight `w` puts on the network weighs less. */
  lemma NodeLighter(n: Node, s: NodeMachine.Step)
    requires NodeMachine.Guaranteed(n, s) && NodeMachine.Enabled(n, s)
    ensures
      var e := if s.Work? then Some(n.todo[0]) else None;
      NodeWeight(NodeMachine.Next(n, s)) +
        (if e.Some? && e.value.Send? then 6 else if e.Some? && e.value.Respond? then 1 else 0) < NodeWeight(n)
  {
    hide CommandTurn, EventTurn;
    match s
    case TakeCommand => LightTurns(n.loop, n.main.command);
    case SwarmReport(e) => LightEvents(n.loop, e);
    case _ =>
  }

  predicate Loss(st: Act) { st.RequestLoss? || st.ReplyLoss? }

  lemma OwnLighter(f: Fleet, p: PeerId, s: NodeMachine.Step)
    requires Possible(f, At(p, s)) && Due(f, At(p, s))
    ensures
      var g := Acted(f, At(p, s));
      NodeWeight(g.nodes[p]) + 6 * |g.wire| + |g.replies| < NodeWeight(f.nodes[p]) + 6 * |f.wire| + |f.replies|
  {
    hide NodeMachine.Next, CommandTurn, EventTurn, NodeWeight;
    NodeLighter(f.nodes[p], s);
    if s.Work? {
      var e := f.nodes[p].todo[0];
      if e.Send? { UpdateSize(f.wire, NameOf(p, e), Envelope(e.to, e.payload)); }
      if e.Respond? { UpdateSize(f.replies, e.channel, e.body); }
    }
  }

  lemma ArrivalLighter(n: Node, e: SwarmEvent)
    requires NodeMachine.Enabled(n, SwarmReport(e)) && ChannelOf(e).Some?
    ensures NodeWeight(NodeMachine.Next(n, SwarmReport(e))) <= NodeWeight(n) + 5
  {
    hide EventTurn;
    LightEvents(n.loop, e);
  }

  lemma DecisionLighter(n: Node, e: SwarmEvent)
    requires NodeMachine.Enabled(n, SwarmReport(e)) && Decides(e).Some? && Decides(e).value.Request?
    ensures NodeWeight(NodeMachine.Next(n, SwarmReport(e))) < NodeWeight(n)
  {
    hide EventTurn;
    LightEvents(n.loop, e);
  }

  /** One node moves; the rest of the fleet loses more than it gains. */
  lemma MoveLighter(f: Fleet, g: Fleet, p: PeerId, m: Node)
    requires p in f.nodes && g.nodes == f.nodes[p := m]
    requires NodeWeight(m) + 6 * |g.wire| + |g.replies| < NodeWeight(f.nodes[p]) + 6 * |f.wire| + |f.replies|
    ensures Weight(g) < Weight(f)
  {
    hide NodeWeight, NodesWeight;
    OneNodeMoves(f.nodes, p, m);
  }

  lemma ArrivalActLighter(f: Fleet, id: RequestId)
    requires Possible(f, Arrival(id))
    ensures Weight(Acted(f, Arrival(id))) < Weight(f)
  {
    hide NodeMachine.Next, EventTurn, NodeWeight, Weight, ArrivalEntries;
    var g, p, e := Acted(f, Arrival(id)), f.wire[id].to, ArrivalEvent(id, f.wire[id].payload);
    RemovalSize(f.wire, id);
    ArrivalLighter(f.nodes[p], e);
    MoveLighter(f, g, p, NodeMachine.Next(f.nodes[p], SwarmReport(e)));
  }

  lemma ReplyActLighter(f: Fleet, id: RequestId)
    requires Possible(f, ReplyArrival(id))
    ensures Weight(Acted(f, ReplyArrival(id))) < Weight(f)
  {
    hide NodeMachine.Next, EventTurn, NodeWeight, Weight, ToldEntries;
    var e := ReplyEvent(id, f.replies[id]);
    RemovalSize(f.replies, id);
    DecisionLighter(f.nodes[id.from], e);
    MoveLighter(f, Acted(f, ReplyArrival(id)), id.from, NodeMachine.Next(f.nodes[id.from], SwarmReport(e)));
  }

  lemma FailureActLighter(f: Fleet, id: RequestId)
    requires Possible(f, FailureNotice(id))
    ensures Weight(Acted(f, FailureNotice(id))) < Weight(f)
  {
    hide NodeMachine.Next, EventTurn, NodeWeight, Weight, ToldEntries;
    var e := FailureEvent(id);
    DecisionLighter(f.nodes[id.from], e);
    MoveLighter(f, Acted(f, FailureNotice(id)), id.from, NodeMachine.Next(f.nodes[id.from], SwarmReport(e)));
  }

  lemma OwnActLighter(f: Fleet, p: PeerId, s: NodeMachine.Step)
    requires Possible(f, At(p, s)) && Due(f, At(p, s))
    ensures Weight(Acted(f, At(p, s))) < Weight(f)
  {
    hide NodeMachine.Next, CommandTurn, CommandEntries, NodeWeight, Weight;
    OwnLighter(f, p, s);
    MoveLighter(f, Acted(f, At(p, s)), p, NodeMachine.Next(f.nodes[p], s));
  }

  lemma LossLighter(f: Fleet, st: Act)
    requires Possible(f, st) && Loss(st)
    ensures Weight(Acted(f, st)) < Weight(f)
  {
    hide NodesWeight;
    match st
    case RequestLoss(id) => RemovalSize(f.wire, id);
    case ReplyLoss(id) => RemovalSize(f.replies, id);
  }

  lemma ActLighter(f: Fleet, st: Act)
    requires Possible(f, st) && (Due(f, st) || Loss(st))
    ensures Weight(Acted(f, st)) < Weight(f)
  {
    hide Possible, Acted, Due, Weight;
    match st
    case At(p, s) => OwnActLighter(f, p, s);
    case Arrival(id) => ArrivalActLighter(f, id);
    case ReplyArrival(id) => ReplyActLighter(f, id);
    case FailureNotice(id) => FailureActLighter(f, id);
    case RequestLoss(id) => LossLighter(f, st);
    case ReplyLoss(id) => LossLighter(f, st);
  }

  /** Every step of the run is due or a loss. */
  predicate LeftAlone(f: Fleet, steps: seq<Act>)
    requires Run(f, steps)
    decreases |steps|
  {
    steps == [] || ((Due(f, steps[0]) || Loss(steps[0])) && LeftAlone(Acted(f, steps[0]), steps[1..]))
  }

  /** A fleet left alone takes at most as many steps as it weighs. */
  lemma {:induction false} RunsEnd(f: Fleet, steps: seq<Act>)
    requires Run(f, steps) && LeftAlone(f, steps)
    ensures |steps| + Weight(End(f, steps)) <= Weight(f)
    decreases |steps|
  {
    hide Acted, Possible, Due, Weight;
    if steps != [] {
      ActLighter(f, steps[0]);
      RunsEnd(Acted(f, steps[0]), steps[1..]);
    }
  }

  /** And nothing has to be lost for it to come to rest: from any state what is due
      leads there. */
  lemma {:induction false} ComesToRest(f: Fleet) returns (steps: seq<Act>)
    ensures Run(f, steps) && LeftAlone(f, steps) && AtRest(End(f, steps))
    decreases Weight(f)
  {
    hide Acted, Possible, Due, Weight;
    if AtRest(f) {
      steps := [];
    } else {
      var st :| Due(f, st) && Possible(f, st);
      ActLighter(f, st);
      steps := ComesToRest(Acted(f, st));
      steps := [st] + steps;
    }
  }
}
