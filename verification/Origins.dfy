/** Nothing comes from nowhere: whatever a peer's main is told, whatever leaves a peer and
    whatever reply it gives has its origin in what somebody really sent or typed. And a
    direct message is shown once for each request that carried it, before its sender can
    hear that it was delivered. */
module Origins {
  import opened Protocol
  import opened Handlers
  import opened SwapNetwork
  import opened NodeMachine
  import opened Fleet
  import opened Doings

  // ---------- what a single turn can bring about ----------

  /** A user's command `c` asks for message `payload` to `to`. */
  predicate Asks(c: Command, to: PeerId, payload: Payload) {
    match payload
    case OfferPayload(offer) =>
      && c.MakeTradeOffer? && c.peer == to
      && offer == TradeOffer(c.offeredFileName, c.requestedFileName)
    case AnswerPayload(response) =>
      && c.RespondTrade? && c.peer == to
      && response == TradeResponse(c.requestedFileName, c.offeredFileName, c.requestedFileBytes)
    case DirectPayload(message) => c.DirectMessage? && c.peer == to && message == c.message
  }

  /** What a command turn of peer `p` may contain. */
  predicate Ordered(c: Command, p: PeerId, e: Effect) {
    match e
    case Send(_, to, payload) => Asks(c, to, payload) && (c.RespondTrade? || to != p)
    case Publish(message) => c.SendChatMessage? && message == c.message
    case Emit(_) => false
    case Respond(_, _) => false
    case WriteFile(_, _, _) => false
    case _ => true
  }

  lemma CommandOrders(s: LoopState, c: Command)
    ensures forall e | e in CommandTurn(s, c).effects :: Ordered(c, s.config.localPeer, e)
    ensures CommandTurn(s, c).next.config == s.config
  {
  }

  /** What an event turn may tell main, and may reply. */
  predicate Prompted(s: LoopState, ev: SwarmEvent, e: Effect) {
    match e
    case Emit(InboundChat(peer, message)) => ev == ChatReceived(peer, message)
    case Emit(RegistrationRequest(name)) => ev.RoutingUpdated? && name == s.config.username
    case Emit(InboundTradeOffer(offered, peer, requested)) =>
      ev.OfferRequested? && ev.channel.from == peer && ev.offer == TradeOffer(offered, requested)
    case Emit(InboundTradeResponse(peer, offered, requested, accepted)) =>
      && ev.AnswerRequested? && ev.channel.from == peer
      && ev.response.offeredFileName == offered && ev.response.requestedFileName == requested
      && (accepted <==> ev.response.requestedFileBytes.Some?)
    case Emit(InboundDirectMessage(peer, message)) =>
      ev.DirectRequested? && ev.channel.from == peer && ev.message == message
    case Respond(channel, _) => ChannelIs(ev, channel)
    case Send(_, _, _) => false
    case Publish(_) => false
    case _ => true
  }

  predicate ChannelIs(ev: SwarmEvent, channel: RequestId) {
    (ev.OfferRequested? || ev.AnswerRequested? || ev.DirectRequested?) && ev.channel == channel
  }

  lemma EventPrompts(s: LoopState, ev: SwarmEvent)
    ensures forall e | e in EventTurn(s, ev).effects :: Prompted(s, ev, e)
    ensures EventTurn(s, ev).next.config == s.config
  {
  }

  // ---------- origins over runs ----------

  /** Peer `p` has really sent `payload` to `to` as its request `id`. */
  predicate HasSent(f: Fleet, id: RequestId, to: PeerId, payload: Payload) {
    BehaviourOf(payload) == id.behaviour && Send(id.number, to, payload) in DoneBy(f.done, id.from)
  }

  /** Where `e`, done or to be done by peer `q`, comes from: from what another peer has
      really sent to `q`, from gossipsub, from the configuration, or from what `q`'s own
      main was made to ask for. */
  ghost predicate Caused(f0: Fleet, steps: seq<Act>, f: Fleet, q: PeerId, e: Effect) {
    match e
    case Emit(InboundChat(peer, message)) => At(q, SwarmReport(ChatReceived(peer, message))) in steps
    case Emit(RegistrationRequest(name)) => q in f0.nodes && name == f0.nodes[q].loop.config.username
    case Emit(InboundTradeOffer(offered, peer, requested)) =>
      exists id: RequestId :: id.from == peer && HasSent(f, id, q, OfferPayload(TradeOffer(offered, requested)))
    case Emit(InboundTradeResponse(peer, offered, requested, accepted)) =>
      exists id: RequestId, given: Option<Bytes> ::
        && id.from == peer && HasSent(f, id, q, AnswerPayload(TradeResponse(requested, offered, given)))
        && (accepted <==> given.Some?)
    case Emit(InboundDirectMessage(peer, message)) =>
      exists id: RequestId :: id.from == peer && HasSent(f, id, q, DirectPayload(message))
    case Send(_, to, payload) => exists c :: At(q, Issue(c)) in steps && Asks(c, to, payload)
    case Publish(message) => exists c :: At(q, Issue(c)) in steps && c.SendChatMessage? && c.message == message
    case Respond(channel, _) => exists payload :: HasSent(f, channel, q, payload)
    case _ => true
  }

  ghost predicate SameConfigs(f0: Fleet, f: Fleet) {
    && f.nodes.Keys == f0.nodes.Keys
    && (forall p | p in f.nodes :: f.nodes[p].loop.config == f0.nodes[p].loop.config)
  }

  ghost predicate MainsAsked(steps: seq<Act>, f: Fleet) {
    forall p | p in f.nodes && f.nodes[p].main.Sending? :: At(p, Issue(f.nodes[p].main.command)) in steps
  }

  ghost predicate WireSent(f: Fleet) { forall id | id in f.wire :: HasSent(f, id, f.wire[id].to, f.wire[id].payload) }

  ghost predicate AllCaused(f0: Fleet, steps: seq<Act>, f: Fleet) {
    forall q, e | e in DoingsOf(f, q) :: Caused(f0, steps, f, q, e)
  }

  ghost predicate Originated(f0: Fleet, steps: seq<Act>, f: Fleet) {
    SameConfigs(f0, f) && MainsAsked(steps, f) && WireSent(f) && AllCaused(f0, steps, f)
  }

  /** More steps and more deeds leave a cause a cause. */
  lemma StillCaused(f0: Fleet, steps: seq<Act>, f: Fleet, st: Act, g: Fleet, q: PeerId, e: Effect)
    requires Caused(f0, steps, f, q, e) && forall p :: DoneBy(f.done, p) <= DoneBy(g.done, p)
    ensures Caused(f0, steps + [st], g, q, e)
  {
    assert forall x | x in steps :: x in steps + [st];
    forall id, to, payload | HasSent(f, id, to, payload) ensures HasSent(g, id, to, payload) {
      StillSent(f, g, id, to, payload);
    }
  }

  lemma StillSent(f: Fleet, g: Fleet, id: RequestId, to: PeerId, payload: Payload)
    requires HasSent(f, id, to, payload) && DoneBy(f.done, id.from) <= DoneBy(g.done, id.from)
    ensures HasSent(g, id, to, payload)
  {
    var k :| 0 <= k < |DoneBy(f.done, id.from)| && DoneBy(f.done, id.from)[k] == Send(id.number, to, payload);
    assert DoneBy(g.done, id.from)[k] == DoneBy(f.done, id.from)[k];
  }

  lemma ConfigStays(n: Node, s: NodeMachine.Step)
    requires NodeMachine.Enabled(n, s)
    ensures NodeMachine.Next(n, s).loop.config == n.loop.config
  {
    hide CommandTurn, EventTurn;
    match s
    case TakeCommand => CommandOrders(n.loop, n.main.command);
    case SwarmReport(e) => EventPrompts(n.loop, e);
    case _ =>
  }

  lemma ConfigsStay(f0: Fleet, f: Fleet, st: Act)
    requires SameConfigs(f0, f) && Possible(f, st)
    ensures SameConfigs(f0, Acted(f, st))
  {
    hide Acted, Possible, NodeMachine.Enabled, NodeMachine.Next;
    NodesAfter(f, st);
    var s := NodeStep(f, st);
    if s.Some? { ConfigStays(f.nodes[s.value.0], s.value.1); }
  }

  /** A command in main's hands was issued by it. */
  lemma MainsStayAsked(steps: seq<Act>, f: Fleet, st: Act)
    requires MainsAsked(steps, f) && Possible(f, st)
    ensures MainsAsked(steps + [st], Acted(f, st))
  {
    hide Acted, Possible, NodeStep, CommandTurn, EventTurn;
    NodesAfter(f, st);
    var s, g := NodeStep(f, st), Acted(f, st);
    forall p | p in g.nodes && g.nodes[p].main.Sending?
      ensures At(p, Issue(g.nodes[p].main.command)) in steps + [st]
    {
      if s.Some? && s.value.0 == p {
        NewCommand(f, st, p);
      }
    }
  }

  lemma NewCommand(f: Fleet, st: Act, p: PeerId)
    requires Possible(f, st) && NodeStep(f, st).Some? && NodeStep(f, st).value.0 == p
    requires p in Acted(f, st).nodes && Acted(f, st).nodes[p].main.Sending?
    ensures
      || st == At(p, Issue(Acted(f, st).nodes[p].main.command))
      || (p in f.nodes && f.nodes[p].main == Acted(f, st).nodes[p].main)
  {
    hide Acted, CommandTurn, EventTurn;
    NodesAfter(f, st);
  }

  /** Requests on the wire have been sent. */
  lemma WireStaysSent(f: Fleet, st: Act)
    requires WireSent(f) && Possible(f, st)
    ensures WireSent(Acted(f, st))
  {
    hide NodeMachine.Next, NodeMachine.Enabled, CommandTurn, EventTurn, CommandEntries, ArrivalEntries, ToldEntries,
         LossEntries, HasSent, DoneBy, Takes;
    var g, d := Acted(f, st), DeedOf(f, st);
    forall id | id in g.wire ensures HasSent(g, id, g.wire[id].to, g.wire[id].payload) {
      DoneAfter(f, st, id.from);
      if id in f.wire && f.wire[id] == g.wire[id] {
        StillSent(f, g, id, g.wire[id].to, g.wire[id].payload);
      } else {
        NowSent(g, id, d.value.effect);
      }
    }
  }

  lemma NowSent(g: Fleet, id: RequestId, e: Effect)
    requires e.Send? && id.behaviour == BehaviourOf(e.payload) && id.number == e.number
    requires e in DoneBy(g.done, id.from)
    ensures HasSent(g, id, e.to, e.payload)
  {
  }

  /** The effects of a new turn have their causes. */
  lemma CommandCaused(f0: Fleet, steps: seq<Act>, f: Fleet, p: PeerId, e: Effect)
    requires MainsAsked(steps, f) && Possible(f, At(p, TakeCommand))
    requires e in CommandTurn(f.nodes[p].loop, f.nodes[p].main.command).effects
    ensures Caused(f0, steps, f, p, e)
  {
    hide CommandTurn;
    CommandOrders(f.nodes[p].loop, f.nodes[p].main.command);
    assert At(p, Issue(f.nodes[p].main.command)) in steps;
  }

  lemma LocalCaused(f0: Fleet, steps: seq<Act>, f: Fleet, p: PeerId, ev: SwarmEvent, e: Effect)
    requires SameConfigs(f0, f) && p in f.nodes && Local(ev) && e in EventTurn(f.nodes[p].loop, ev).effects
    ensures Caused(f0, steps + [At(p, SwarmReport(ev))], f, p, e)
  {
    hide EventTurn;
    EventPrompts(f.nodes[p].loop, ev);
  }

  lemma ArrivalCaused(f0: Fleet, steps: seq<Act>, f: Fleet, id: RequestId, e: Effect)
    requires WireSent(f) && Possible(f, Arrival(id))
    requires e in EventTurn(f.nodes[f.wire[id].to].loop, ArrivalEvent(id, f.wire[id].payload)).effects
    ensures Caused(f0, steps, f, f.wire[id].to, e)
  {
    hide EventTurn, HasSent;
    var Envelope(q, payload) := f.wire[id];
    EventPrompts(f.nodes[q].loop, ArrivalEvent(id, payload));
    assert HasSent(f, id, q, payload);
  }

  /** An outcome tells main nothing and replies to nobody. */
  lemma OutcomeCaused(f0: Fleet, steps: seq<Act>, f: Fleet, p: PeerId, s: LoopState, ev: SwarmEvent, e: Effect)
    requires Decides(ev).Some? && Decides(ev).value.Request? && e in EventTurn(s, ev).effects
    ensures Caused(f0, steps, f, p, e)
  {
    hide EventTurn;
    EventPrompts(s, ev);
  }

  lemma NewCaused(f0: Fleet, steps: seq<Act>, f: Fleet, st: Act, q: PeerId, e: Effect)
    requires Originated(f0, steps, f) && Possible(f, st) && e in NewDoings(f, st, q)
    ensures Caused(f0, steps + [st], f, q, e)
  {
    hide AllCaused, Caused, CommandTurn, EventTurn, MainsAsked, WireSent, SameConfigs;
    match st
    case At(p, TakeCommand) =>
      CommandCaused(f0, steps, f, p, e);
      StillCaused(f0, steps, f, st, f, q, e);
    case At(p, SwarmReport(ev)) => LocalCaused(f0, steps, f, p, ev, e);
    case Arrival(id) =>
      ArrivalCaused(f0, steps, f, id, e);
      StillCaused(f0, steps, f, st, f, q, e);
    case ReplyArrival(id) =>
      OutcomeCaused(f0, steps + [st], f, q, f.nodes[id.from].loop, ReplyEvent(id, f.replies[id]), e);
    case FailureNotice(id) => OutcomeCaused(f0, steps + [st], f, q, f.nodes[id.from].loop, FailureEvent(id), e);
  }

  lemma AllStayCaused(f0: Fleet, steps: seq<Act>, f: Fleet, st: Act)
    requires Originated(f0, steps, f) && Possible(f, st)
    ensures AllCaused(f0, steps + [st], Acted(f, st))
  {
    hide Caused, Acted, Possible, MainsAsked, WireSent, SameConfigs, NewDoings, DoingsOf;
    var g := Acted(f, st);
    forall p ensures DoneBy(f.done, p) <= DoneBy(g.done, p) { DoingsGrow(f, st, p); }
    forall q, e | e in DoingsOf(g, q) ensures Caused(f0, steps + [st], g, q, e) {
      DoingsGrow(f, st, q);
      if e in DoingsOf(f, q) {
        StillCaused(f0, steps, f, st, g, q, e);
      } else {
        NewCaused(f0, steps, f, st, q, e);
        MoreDone(f0, steps + [st], f, g, q, e);
      }
    }
  }

  lemma MoreDone(f0: Fleet, steps: seq<Act>, f: Fleet, g: Fleet, q: PeerId, e: Effect)
    requires Caused(f0, steps, f, q, e) && forall p :: DoneBy(f.done, p) <= DoneBy(g.done, p)
    ensures Caused(f0, steps, g, q, e)
  {
    forall id, to, payload | HasSent(f, id, to, payload) ensures HasSent(g, id, to, payload) {
      StillSent(f, g, id, to, payload);
    }
  }

  lemma StepOriginated(f0: Fleet, steps: seq<Act>, f: Fleet, st: Act)
    requires Originated(f0, steps, f) && Possible(f, st)
    ensures Originated(f0, steps + [st], Acted(f, st))
  {
    hide SameConfigs, MainsAsked, WireSent, AllCaused, Acted, Possible;
    ConfigsStay(f0, f, st);
    MainsStayAsked(steps, f, st);
    WireStaysSent(f, st);
    AllStayCaused(f0, steps, f, st);
  }

  lemma StartOriginated(f: Fleet)
    requires Fresh(f)
    ensures Originated(f, [], f)
  {
    hide Caused;
    forall q ensures DoingsOf(f, q) == [] { }
  }

  lemma {:induction false} RunOriginated(f0: Fleet, steps: seq<Act>)
    requires Fresh(f0) && Run(f0, steps)
    ensures Originated(f0, steps, End(f0, steps))
    decreases |steps|
  {
    hide Originated, Acted, Possible, Fresh;
    if steps == [] {
      StartOriginated(f0);
    } else {
      LastStep(f0, steps);
      var before := steps[..|steps| - 1];
      RunOriginated(f0, before);
      StepOriginated(f0, before, End(f0, before), steps[|steps| - 1]);
    }
  }

  /** In every run: a notice names somebody who really sent what it shows, or is the chat
      gossipsub delivered, or carries the configured username; what leaves a peer is what
      its own main asked for; and a reply answers a request that was really sent. */
  lemma NothingFromNowhere(f0: Fleet, steps: seq<Act>, q: PeerId, e: Effect)
    requires Fresh(f0) && Run(f0, steps) && e in DoingsOf(End(f0, steps), q)
    ensures Caused(f0, steps, End(f0, steps), q, e)
  {
    hide Caused, SameConfigs, MainsAsked, WireSent;
    RunOriginated(f0, steps);
  }
}
