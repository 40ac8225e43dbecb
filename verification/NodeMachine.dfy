/** One peer as two tasks: the main task, which runs one client call at a time, and
    the event loop, which finishes one handler before it looks at anything else.
    They meet over two channels without room to spare: a command is handed over
    only while the loop is at its select, an event only while main is at its own.
    A handler's remaining effects are performed one by one, so that both tasks
    interleave between them. */
module NodeMachine {
  import opened Protocol
  import opened Handlers

  /** A query or request the swarm has started and not yet decided. */
  datatype Obligation =
    | GetQuery(number: nat)
    | PutQuery(number: nat)
    | Request(behaviour: Behaviour, number: nat)

  /** `registering` holds from the moment main takes a registration request until
      it issues the register command. */
  datatype MainTask =
    | AtSelect
    | Running(registering: bool)
    | Sending(registering: bool, command: Command)
    | Awaiting(registering: bool, ticket: Ticket)

  datatype Swarm = Swarm(open: set<Obligation>, gets: set<nat>)

  datatype Past = Past(
    taken: seq<Ticket>,    // senders the loop accepted, in order
    resolved: seq<Ticket>, // senders used, in order
    requested: nat,        // registration requests main received
    failed: nat,           // registrations that failed
    crashed: bool)         // a lookup or a receiver was missing

  datatype Node = Node(
    loop: LoopState,
    todo: seq<Effect>, // what the running handler has still to do
    main: MainTask,
    nextTicket: nat,
    swarm: Swarm,
    past: Past)

  datatype Step =
    | Issue(command: Command)
    | Return
    | TakeEvent
    | TakeCommand
    | Work
    | SwarmReport(event: SwarmEvent)

  /** The obligation an event decides. */
  function Decides(e: SwarmEvent): Option<Obligation> {
    match e
    case GetRecordProgressed(q, progress) => if progress.OtherProgress? then None else Some(GetQuery(q))
    case PutRecordFinished(q, _) => Some(PutQuery(q))
    case OfferAcknowledged(k) => Some(Request(TradeOffering, k))
    case OfferFailed(k) => Some(Request(TradeOffering, k))
    case AnswerReplied(k, _) => Some(Request(TradeAnswering, k))
    case AnswerFailed(k) => Some(Request(TradeAnswering, k))
    case DirectAcknowledged(k) => Some(Request(DirectMessaging, k))
    case DirectFailed(k) => Some(Request(DirectMessaging, k))
    case _ => None
  }

  function Registering(m: MainTask): bool { !m.AtSelect? && m.registering }

  predicate Enabled(n: Node, st: Step) {
    match st
    case Issue(c) =>
      && (n.main.AtSelect? || n.main.Running?)
      && (TicketOf(c).Some? ==> TicketOf(c).value == n.nextTicket)
      && (c.RegisterUsername? ==> Registering(n.main))
    case Return => n.main.Running?
    case TakeEvent => n.main.AtSelect? && n.todo != [] && n.todo[0].Emit?
    case TakeCommand => n.todo == [] && n.main.Sending?
    case Work => n.todo != [] && !n.todo[0].Emit?
    case SwarmReport(e) =>
      && n.todo == []
      && var d := Decides(e);
         // A get query may report again after it was decided, the others never do.
         d.Some? ==> d.value in n.swarm.open || (d.value.GetQuery? && d.value.number in n.swarm.gets)
  }

  function PerformSwarm(w: Swarm, e: Effect): Swarm {
    match e
    case Send(k, _, payload) => w.(open := w.open + {Request(BehaviourOf(payload), k)})
    case GetRecord(q, _) => Swarm(w.open + {GetQuery(q)}, w.gets + {q})
    case PutRecord(q, _, _) => w.(open := w.open + {PutQuery(q)})
    case _ => w
  }

  function Next(n: Node, st: Step): Node
    requires Enabled(n, st)
  {
    match st
    case Issue(c) =>
      n.(main := Sending(Registering(n.main) && !c.RegisterUsername?, c),
         nextTicket := n.nextTicket + if TicketOf(c).Some? then 1 else 0)
    case Return => n.(main := AtSelect)
    case TakeEvent =>
      var request := n.todo[0].event.RegistrationRequest?;
      n.(main := Running(request), todo := n.todo[1..],
         past := n.past.(requested := n.past.requested + if request then 1 else 0))
    case TakeCommand =>
      var c, reg := n.main.command, n.main.registering;
      var turn := CommandTurn(n.loop, c);
      n.(loop := turn.next, todo := turn.effects,
         main := if TicketOf(c).Some? then Awaiting(reg, TicketOf(c).value) else Running(reg),
         past := n.past.(taken := n.past.taken + if TicketOf(c).Some? then [TicketOf(c).value] else []))
    case Work => Worked(n.(todo := n.todo[1..]), n.todo[0])
    case SwarmReport(e) =>
      var turn := EventTurn(n.loop, e);
      var bad := e.PutRecordFinished? && !e.ok && e.query in n.loop.pending.registerUsername;
      n.(loop := turn.next, todo := turn.effects,
         swarm := if Decides(e).Some? then n.swarm.(open := n.swarm.open - {Decides(e).value}) else n.swarm,
         past := n.past.(failed := n.past.failed + if bad then 1 else 0))
  }

  function Worked(n: Node, e: Effect): Node {
    match e
    case Resolve(t, _) =>
      if n.main.Awaiting? && n.main.ticket == t then
        n.(main := Running(n.main.registering), past := n.past.(resolved := n.past.resolved + [t]))
      else n.(past := n.past.(crashed := true))
    case Panic(_) => n.(past := n.past.(crashed := true))
    case _ => n.(swarm := PerformSwarm(n.swarm, e))
  }

  ghost predicate Init(n: Node) {
    && n.loop == Initial(n.loop.config.codec, n.loop.config.localPeer, n.loop.config.username)
    && n.todo == [] && n.main == AtSelect && n.nextTicket == 0
    && n.swarm == Swarm({}, {}) && n.past == Past([], [], 0, 0, false)
  }

  predicate Legal(n: Node, steps: seq<Step>)
    decreases |steps|
  {
    steps == [] || (Enabled(n, steps[0]) && Legal(Next(n, steps[0]), steps[1..]))
  }

  function After(n: Node, steps: seq<Step>): Node
    requires Legal(n, steps)
    decreases |steps|
  {
    if steps == [] then n else After(Next(n, steps[0]), steps[1..])
  }

  // ---------- what is parked, pledged and promised ----------

  datatype Slot = RegisterSlot | MessageSlot | PeerSlot | NameSlot | OfferSlot | AnswerSlot

  /** The six maps with the one sender `t` parked in `slot` under `k`. */
  function Parked(slot: Slot, k: nat, t: Ticket): Pending {
    match slot
    case RegisterSlot => NOTHING_PENDING.(registerUsername := map[k := t])
    case MessageSlot => NOTHING_PENDING.(requestMessage := map[k := t])
    case PeerSlot => NOTHING_PENDING.(peerIdRequest := map[k := t])
    case NameSlot => NOTHING_PENDING.(usernameRequest := map[k := t])
    case OfferSlot => NOTHING_PENDING.(tradeOfferRequest := map[k := t])
    case AnswerSlot => NOTHING_PENDING.(tradeResponseResponse := map[k := t])
  }

  function ObligationOf(slot: Slot, k: nat): Obligation {
    match slot
    case RegisterSlot => PutQuery(k)
    case MessageSlot => Request(DirectMessaging, k)
    case PeerSlot => GetQuery(k)
    case NameSlot => GetQuery(k)
    case OfferSlot => Request(TradeOffering, k)
    case AnswerSlot => Request(TradeAnswering, k)
  }

  /** The senders a handler will still use. */
  function Resolves(es: seq<Effect>): seq<Ticket> {
    if es == [] then []
    else (if es[0].Resolve? then [es[0].ticket] else []) + Resolves(es[1..])
  }

  /** The obligations a handler will still start. */
  function Pledged(es: seq<Effect>): set<Obligation> {
    if es == [] then {} else PerformSwarm(Swarm({}, {}), es[0]).open + Pledged(es[1..])
  }

  /** The registration requests a handler will still emit. */
  function Announced(es: seq<Effect>): nat {
    if es == [] then 0
    else Announced(es[1..]) + if es[0].Emit? && es[0].event.RegistrationRequest? then 1 else 0
  }

  predicate Owed(n: Node, ob: Obligation) { ob in n.swarm.open || ob in Pledged(n.todo) }

  // ---------- what the handlers do to a lone waiter ----------

  ghost predicate Parks(q: Pending, es: seq<Effect>, t: Ticket, slot: Slot, k: nat) {
    q == Parked(slot, k, t) && Resolves(es) == [] && ObligationOf(slot, k) in Pledged(es)
  }

  lemma TwoResolve(a: Effect, b: Effect)
    ensures Resolves([a]) == if a.Resolve? then [a.ticket] else []
    ensures Resolves([a, b]) == (if a.Resolve? then [a.ticket] else []) + (if b.Resolve? then [b.ticket] else [])
  {
    assert [a][1..] == [] && [a, b][1..] == [b] && [b][1..] == [];
  }

  lemma TwoPledge(a: Effect, b: Effect)
    ensures Pledged([a]) == PerformSwarm(Swarm({}, {}), a).open
    ensures Pledged([a, b]) == PerformSwarm(Swarm({}, {}), a).open + PerformSwarm(Swarm({}, {}), b).open
  {
    hide PerformSwarm;
    assert [a][1..] == [] && [a, b][1..] == [b] && [b][1..] == [];
  }

  lemma TwoAnnounce(a: Effect, b: Effect)
    ensures Announced([a]) == if a.Emit? && a.event.RegistrationRequest? then 1 else 0
    ensures Announced([a, b]) == Announced([a]) + Announced([b])
  {
    assert [a][1..] == [] && [a, b][1..] == [b] && [b][1..] == [];
  }

  lemma Short(es: seq<Effect>)
    requires 1 <= |es| <= 2
    ensures
      var last := es[|es| - 1];
      && Resolves(es) == (if |es| == 2 && es[0].Resolve? then [es[0].ticket] else [])
                       + (if last.Resolve? then [last.ticket] else [])
      && Pledged(es) == PerformSwarm(Swarm({}, {}), es[0]).open + PerformSwarm(Swarm({}, {}), last).open
      && Announced(es) == (if |es| == 2 && es[0].Emit? && es[0].event.RegistrationRequest? then 1 else 0)
                        + (if last.Emit? && last.event.RegistrationRequest? then 1 else 0)
  {
    hide Resolves, Pledged, Announced, PerformSwarm;
    var last := es[|es| - 1];
    assert es == if |es| == 1 then [last] else [es[0], last];
    TwoResolve(es[0], last);
    TwoPledge(es[0], last);
    TwoAnnounce(es[0], last);
    TwoAnnounce(last, last);
  }

  function Tickets(t: Option<Ticket>): seq<Ticket> { if t.Some? then [t.value] else [] }

  function SlotOf(c: Command): Slot {
    match c
    case RegisterUsername(_, _) => RegisterSlot
    case FindPeerId(_, _) => PeerSlot
    case FindPeerUsername(_, _) => NameSlot
    case MakeTradeOffer(_, _, _, _, _, _) => OfferSlot
    case RespondTrade(_, _, _, _, _) => AnswerSlot
    case SendChatMessage(_, _, _) => MessageSlot
    case DirectMessage(_, _, _) => MessageSlot
  }

  function NumberFor(s: LoopState, c: Command): nat {
    match SlotOf(c)
    case MessageSlot => s.counters.messaging
    case OfferSlot => s.counters.offering
    case AnswerSlot => s.counters.answering
    case _ => s.counters.query
  }

  /** The sender is used within the turn itself. */
  predicate Immediate(s: LoopState, c: Command) {
    || c.SendChatMessage?
    || ((c.MakeTradeOffer? || c.DirectMessage?) && c.peer == s.config.localPeer)
    || (c.RespondTrade? &&
         (c.bytesTicket.None?
          || (c.peer, TradeOffer(c.offeredFileName, c.requestedFileName)) !in s.offers.inbound))
  }

  predicate Requests(e: Effect) { e.Emit? && e.event.RegistrationRequest? }

  /** `c`, taken while nothing is parked, uses its sender at once, or parks it, alone,
      under an obligation it pledges. */
  ghost predicate TakesCare(s: LoopState, c: Command) {
    var turn := CommandTurn(s, c);
    && (forall e | e in turn.effects :: !e.Panic? && !Requests(e))
    && turn.next.hasRegisteredUsername == s.hasRegisteredUsername
    && (forall j :: Request(DirectMessaging, j) in Pledged(turn.effects) ==> j in turn.next.pending.requestMessage)
    && if Immediate(s, c)
       then turn.next.pending == NOTHING_PENDING && Resolves(turn.effects) == Tickets(TicketOf(c))
       else TicketOf(c).Some? && Parks(turn.next.pending, turn.effects, TicketOf(c).value, SlotOf(c), NumberFor(s, c))
  }

  lemma RegistrationParks(s: LoopState, c: Command)
    requires s.pending == NOTHING_PENDING && c.RegisterUsername?
    ensures TakesCare(s, c)
  {
    Short(CommandTurn(s, c).effects);
  }

  lemma QueryParks(s: LoopState, c: Command)
    requires s.pending == NOTHING_PENDING && (c.FindPeerId? || c.FindPeerUsername?)
    ensures TakesCare(s, c)
  {
    Short(CommandTurn(s, c).effects);
  }

  lemma OfferParks(s: LoopState, c: Command)
    requires s.pending == NOTHING_PENDING && c.MakeTradeOffer?
    ensures TakesCare(s, c)
  {
    Short(CommandTurn(s, c).effects);
  }

  lemma AnswerParks(s: LoopState, c: Command)
    requires s.pending == NOTHING_PENDING && c.RespondTrade?
    ensures TakesCare(s, c)
  {
    var es := CommandTurn(s, c).effects;
    if es != [] {
      Short(es);
    }
  }

  lemma MessageParks(s: LoopState, c: Command)
    requires s.pending == NOTHING_PENDING && (c.DirectMessage? || c.SendChatMessage?)
    ensures TakesCare(s, c)
  {
    Short(CommandTurn(s, c).effects);
  }

  /** A command taken while nothing is parked either uses its sender at once or
      parks it, alone, under an obligation it pledges. */
  lemma CommandParks(s: LoopState, c: Command)
    requires s.pending == NOTHING_PENDING
    ensures TakesCare(s, c)
  {
    hide TakesCare;
    match c
    case RegisterUsername(_, _) => RegistrationParks(s, c);
    case FindPeerId(_, _) => QueryParks(s, c);
    case FindPeerUsername(_, _) => QueryParks(s, c);
    case MakeTradeOffer(_, _, _, _, _, _) => OfferParks(s, c);
    case RespondTrade(_, _, _, _, _) => AnswerParks(s, c);
    case SendChatMessage(_, _, _) => MessageParks(s, c);
    case DirectMessage(_, _, _) => MessageParks(s, c);
  }

  /** Effects that concern no sender and start nothing. */
  predicate Plain(e: Effect) { e.Emit? || e.Respond? || e.WriteFile? }

  lemma {:induction false} PlainEffects(es: seq<Effect>)
    requires forall e | e in es :: Plain(e)
    ensures Resolves(es) == [] && Pledged(es) == {}
  {
    if es != [] {
      assert es[0] in es;
      PlainEffects(es[1..]);
    }
  }

  lemma {:induction false} NoRequests(es: seq<Effect>)
    requires forall e | e in es :: !Requests(e)
    ensures Announced(es) == 0
  {
    if es != [] {
      assert es[0] in es;
      NoRequests(es[1..]);
    }
  }

  /** The event decides what sender `t` waits for. */
  predicate Answers(e: SwarmEvent, slot: Slot, k: nat) { Decides(e) == Some(ObligationOf(slot, k)) }

  lemma EventDecides(s: LoopState, e: SwarmEvent, slot: Slot, k: nat, t: Ticket)
    requires s.pending == Parked(slot, k, t) && Answers(e, slot, k)
    ensures
      var turn := EventTurn(s, e);
      && (forall x | x in turn.effects :: !x.Panic?) && Pledged(turn.effects) == {}
      && turn.next.pending == NOTHING_PENDING && Resolves(turn.effects) == [t]
  {
    var es := EventTurn(s, e).effects;
    assert |es| == 1 && es[0].Resolve?;
    Short(es);
  }

  lemma EventPasses(s: LoopState, e: SwarmEvent, slot: Slot, k: nat, t: Ticket)
    requires s.pending == Parked(slot, k, t) && !Answers(e, slot, k)
    requires !e.DirectAcknowledged? && !e.DirectFailed?
    ensures
      var turn := EventTurn(s, e);
      && (forall x | x in turn.effects :: !x.Panic?) && Pledged(turn.effects) == {}
      && turn.next.pending == s.pending && Resolves(turn.effects) == []
  {
    PlainEffects(EventTurn(s, e).effects);
  }

  /** Only the event that decides a lone waiter's obligation uses its sender, and it
      does so exactly once; every other event leaves the waiter parked. */
  lemma EventAnswers(s: LoopState, e: SwarmEvent, slot: Slot, k: nat, t: Ticket)
    requires s.pending == Parked(slot, k, t)
    requires e.DirectAcknowledged? || e.DirectFailed? ==> Answers(e, slot, k)
    ensures
      var turn := EventTurn(s, e);
      && (forall x | x in turn.effects :: !x.Panic?)
      && Pledged(turn.effects) == {}
      && if Answers(e, slot, k)
         then turn.next.pending == NOTHING_PENDING && Resolves(turn.effects) == [t]
         else turn.next.pending == s.pending && Resolves(turn.effects) == []
  {
    hide EventTurn, Answers;
    if Answers(e, slot, k) {
      EventDecides(s, e, slot, k, t);
    } else {
      EventPasses(s, e, slot, k, t);
    }
  }

  /** With nothing parked, no event uses a sender. */
  lemma EventIgnored(s: LoopState, e: SwarmEvent)
    requires s.pending == NOTHING_PENDING && !e.DirectAcknowledged? && !e.DirectFailed?
    ensures
      var turn := EventTurn(s, e);
      && turn.next.pending == NOTHING_PENDING
      && Resolves(turn.effects) == [] && Pledged(turn.effects) == {}
      && (forall x | x in turn.effects :: !x.Panic?)
  {
    PlainEffects(EventTurn(s, e).effects);
  }

  // ---------- the invariant ----------

  ghost predicate NoWaiter(n: Node) { n.loop.pending == NOTHING_PENDING && Resolves(n.todo) == [] }

  /** `t` is parked, alone, under an obligation still owed. */
  ghost predicate LoneWaiter(n: Node, t: Ticket, slot: Slot, k: nat) {
    && n.loop.pending == Parked(slot, k, t) && Resolves(n.todo) == [] && Owed(n, ObligationOf(slot, k))
    && (slot.RegisterSlot? ==> !Registering(n.main))
  }

  /** `t` is about to be used, or parked. */
  ghost predicate Waits(n: Node, t: Ticket) {
    || (n.loop.pending == NOTHING_PENDING && Resolves(n.todo) == [t])
    || exists slot, k :: LoneWaiter(n, t, slot, k)
  }

  ghost predicate OneWaiter(n: Node) {
    if n.main.Awaiting? then Waits(n, n.main.ticket) else NoWaiter(n)
  }

  ghost predicate Clean(n: Node) {
    && !n.past.crashed && (forall e | e in n.todo :: !e.Panic?)
    && (forall k :: Owed(n, Request(DirectMessaging, k)) ==> k in n.loop.pending.requestMessage)
  }

  predicate Below(s: seq<Ticket>, bound: nat) { forall i | 0 <= i < |s| :: s[i] < bound }

  predicate Increasing(s: seq<Ticket>) { forall i, j | 0 <= i < j < |s| :: s[i] < s[j] }

  ghost predicate Remembered(n: Node) {
    && n.past.taken == n.past.resolved + (if n.main.Awaiting? then [n.main.ticket] else [])
    && Increasing(n.past.taken) && Below(n.past.taken, n.nextTicket)
    && (n.main.Sending? && TicketOf(n.main.command).Some? ==>
         TicketOf(n.main.command).value < n.nextTicket && Below(n.past.taken, TicketOf(n.main.command).value))
  }

  predicate RegistrationUnderWay(n: Node) {
    || Registering(n.main) || (n.main.Sending? && n.main.command.RegisterUsername?)
    || n.loop.pending.registerUsername != map[] || Announced(n.todo) > 0
  }

  ghost predicate Latched(n: Node) {
    && n.past.requested + Announced(n.todo) == n.past.failed + (if n.loop.hasRegisteredUsername then 1 else 0)
    && (RegistrationUnderWay(n) ==> n.loop.hasRegisteredUsername)
    && (n.main.Sending? && n.main.command.RegisterUsername? ==> !n.main.registering)
  }

  ghost predicate Inv(n: Node) { OneWaiter(n) && Clean(n) && Remembered(n) && Latched(n) }

  lemma InitInv(n: Node)
    requires Init(n)
    ensures Inv(n)
  {
  }

  lemma MainInv(n: Node, st: Step)
    requires Inv(n) && Enabled(n, st) && (st.Issue? || st.Return?)
    ensures Inv(Next(n, st))
  {
  }

  lemma TakeEventInv(n: Node)
    requires Inv(n) && Enabled(n, TakeEvent)
    ensures Inv(Next(n, TakeEvent))
  {
  }

  lemma TakeCommandWaiter(n: Node)
    requires Inv(n) && Enabled(n, TakeCommand)
    ensures OneWaiter(Next(n, TakeCommand)) && Clean(Next(n, TakeCommand))
  {
    hide CommandTurn, Immediate, NumberFor, Remembered;
    var c, m := n.main.command, Next(n, TakeCommand);
    CommandParks(n.loop, c);
    if !Immediate(n.loop, c) {
      assert LoneWaiter(m, TicketOf(c).value, SlotOf(c), NumberFor(n.loop, c));
    }
    assert forall ob :: Owed(m, ob) ==> Owed(n, ob) || ob in Pledged(m.todo);
  }

  lemma TakeCommandRemembered(n: Node)
    requires Remembered(n) && Enabled(n, TakeCommand)
    ensures Remembered(Next(n, TakeCommand))
  {
    hide CommandTurn;
    assert n.past.taken + [] == n.past.taken && n.past.resolved + [] == n.past.resolved == n.past.taken;
  }

  /** A register command is taken with the latch shut; it and nothing else parks in its map. */
  lemma TakeCommandLatched(n: Node)
    requires Inv(n) && Enabled(n, TakeCommand)
    ensures Latched(Next(n, TakeCommand))
  {
    hide CommandTurn, Immediate, NumberFor, Remembered, Clean;
    CommandParks(n.loop, n.main.command);
    NoRequests(CommandTurn(n.loop, n.main.command).effects);
  }

  lemma TakeCommandInv(n: Node)
    requires Inv(n) && Enabled(n, TakeCommand)
    ensures Inv(Next(n, TakeCommand))
  {
    hide OneWaiter, Clean, Remembered, Latched;
    TakeCommandWaiter(n);
    TakeCommandRemembered(n);
    TakeCommandLatched(n);
  }

  /** Performing an effect turns pledges into open obligations, one for one. */
  lemma WorkOwes(n: Node, ob: Obligation)
    requires Enabled(n, Work)
    ensures Owed(Next(n, Work), ob) <==> Owed(n, ob)
  {
  }

  /** A sender used now is the one main waits for. */
  lemma WorkUses(n: Node)
    requires Inv(n) && Enabled(n, Work)
    ensures
      var e, m := n.todo[0], Next(n, Work);
      && !e.Panic?
      && (e.Resolve? ==> n.main.Awaiting? && n.main.ticket == e.ticket
                         && Resolves(n.todo) == [e.ticket] && Resolves(m.todo) == [])
      && (!e.Resolve? ==> Resolves(m.todo) == Resolves(n.todo))
  {
    hide Owed, Latched, Remembered;
    var e, m := n.todo[0], Next(n, Work);
    assert e in n.todo;
    assert Resolves(n.todo) == (if e.Resolve? then [e.ticket] else []) + Resolves(m.todo);
    if e.Resolve? {
      assert Resolves(n.todo)[0] == e.ticket && |Resolves(n.todo)| == 1 + |Resolves(m.todo)|;
    }
  }

  lemma WorkWaiter(n: Node)
    requires Inv(n) && Enabled(n, Work)
    ensures OneWaiter(Next(n, Work)) && Clean(Next(n, Work))
  {
    hide Owed, Latched, Remembered, Resolves;
    var m := Next(n, Work);
    WorkUses(n);
    forall ob ensures Owed(m, ob) <==> Owed(n, ob) { WorkOwes(n, ob); }
    if n.main.Awaiting? && Resolves(n.todo) == [] {
      var slot, k :| LoneWaiter(n, n.main.ticket, slot, k);
      assert LoneWaiter(m, n.main.ticket, slot, k);
    }
  }

  lemma WorkInv(n: Node)
    requires Inv(n) && Enabled(n, Work)
    ensures Inv(Next(n, Work))
  {
    hide OneWaiter, Clean, Resolves;
    WorkUses(n);
    WorkWaiter(n);
  }

  /** Only a routing update announces a registration, and only when the latch is
      open; only the tracked registration's result moves the latch back. */
  lemma EventLatch(s: LoopState, e: SwarmEvent)
    ensures
      var turn := EventTurn(s, e);
      var tracked := e.PutRecordFinished? && e.query in s.pending.registerUsername;
      && turn.next.hasRegisteredUsername ==
           (if tracked then e.ok else s.hasRegisteredUsername || e.RoutingUpdated?)
      && Announced(turn.effects) == if e.RoutingUpdated? && !s.hasRegisteredUsername then 1 else 0
  {
    var es := EventTurn(s, e).effects;
    if e.RoutingUpdated? && !s.hasRegisteredUsername {
      Short(es);
    } else {
      NoRequests(es);
    }
  }

  lemma CommandsNeverPanic(s: LoopState, c: Command)
    ensures forall e | e in CommandTurn(s, c).effects :: !e.Panic?
  {
  }

  /** An event makes its handler panic exactly when it decides a direct message that
      nobody waits for; `ExactlyOnceReplies` shows that this never happens. */
  lemma OnlyUnknownMessagesPanic(s: LoopState, e: SwarmEvent)
    ensures (exists x :: x in EventTurn(s, e).effects && x.Panic?) <==>
              (e.DirectAcknowledged? || e.DirectFailed?) && e.number !in s.pending.requestMessage
  {
    if (e.DirectAcknowledged? || e.DirectFailed?) && e.number !in s.pending.requestMessage {
      assert EventTurn(s, e).effects[0] in EventTurn(s, e).effects;
    }
  }

  lemma DirectDecided(n: Node, e: SwarmEvent)
    requires Inv(n) && Enabled(n, SwarmReport(e)) && (e.DirectAcknowledged? || e.DirectFailed?)
    ensures n.main.Awaiting?
    ensures forall slot, k | LoneWaiter(n, n.main.ticket, slot, k) :: Answers(e, slot, k)
  {
    hide Remembered, Latched, Resolves;
    assert Owed(n, Request(DirectMessaging, e.number));
    assert e.number in n.loop.pending.requestMessage;
  }

  /** A swarm event answers the lone waiter or leaves it parked. */
  lemma SwarmWaiting(n: Node, e: SwarmEvent)
    requires Inv(n) && Enabled(n, SwarmReport(e)) && n.main.Awaiting?
    ensures OneWaiter(Next(n, SwarmReport(e))) && Clean(Next(n, SwarmReport(e)))
  {
    hide EventTurn, Remembered, Latched;
    var m := Next(n, SwarmReport(e));
    if e.DirectAcknowledged? || e.DirectFailed? { DirectDecided(n, e); }
    var slot, k :| LoneWaiter(n, n.main.ticket, slot, k);
    EventAnswers(n.loop, e, slot, k, n.main.ticket);
    assert forall ob :: Owed(m, ob) ==> Owed(n, ob);
    if !Answers(e, slot, k) {
      assert LoneWaiter(m, n.main.ticket, slot, k);
    }
  }

  lemma SwarmIdle(n: Node, e: SwarmEvent)
    requires Inv(n) && Enabled(n, SwarmReport(e)) && !n.main.Awaiting?
    ensures OneWaiter(Next(n, SwarmReport(e))) && Clean(Next(n, SwarmReport(e)))
  {
    hide EventTurn, Remembered, Latched, Resolves, Pledged;
    if e.DirectAcknowledged? || e.DirectFailed? {
      DirectDecided(n, e);
    } else {
      EventIgnored(n.loop, e);
      assert forall ob :: Owed(Next(n, SwarmReport(e)), ob) ==> Owed(n, ob);
    }
  }

  /** The only registration that can end is the one main waits for. */
  lemma SwarmLatched(n: Node, e: SwarmEvent)
    requires Inv(n) && Enabled(n, SwarmReport(e))
    ensures Latched(Next(n, SwarmReport(e)))
  {
    hide EventTurn, Remembered, Pledged;
    EventLatch(n.loop, e);
    if e.DirectAcknowledged? || e.DirectFailed? { DirectDecided(n, e); }
    if n.main.Awaiting? {
      var slot, k :| LoneWaiter(n, n.main.ticket, slot, k);
      EventAnswers(n.loop, e, slot, k, n.main.ticket);
    } else if !e.DirectAcknowledged? && !e.DirectFailed? {
      EventIgnored(n.loop, e);
    }
  }

  lemma SwarmInv(n: Node, e: SwarmEvent)
    requires Inv(n) && Enabled(n, SwarmReport(e))
    ensures Inv(Next(n, SwarmReport(e)))
  {
    hide EventTurn, OneWaiter, Clean, Latched;
    if n.main.Awaiting? {
      SwarmWaiting(n, e);
    } else {
      SwarmIdle(n, e);
    }
    SwarmLatched(n, e);
  }

  lemma StepInv(n: Node, st: Step)
    requires Inv(n) && Enabled(n, st)
    ensures Inv(Next(n, st))
  {
    hide Inv, Next;
    match st
    case Issue(_) => MainInv(n, st);
    case Return => MainInv(n, st);
    case TakeEvent => TakeEventInv(n);
    case TakeCommand => TakeCommandInv(n);
    case Work => WorkInv(n);
    case SwarmReport(e) => SwarmInv(n, e);
  }

  lemma {:induction false} RunInv(n: Node, steps: seq<Step>)
    requires Inv(n) && Legal(n, steps)
    ensures Inv(After(n, steps))
    decreases |steps|
  {
    hide Inv;
    if steps != [] {
      StepInv(n, steps[0]);
      RunInv(Next(n, steps[0]), steps[1..]);
    }
  }

  // ---------- what every run keeps ----------

  lemma Reachable(n: Node, steps: seq<Step>)
    requires Init(n) && Legal(n, steps)
    ensures Inv(After(n, steps))
  {
    InitInv(n);
    RunInv(n, steps);
  }

  /** How many senders the six maps hold. */
  function ParkedSenders(q: Pending): nat {
    |q.registerUsername| + |q.requestMessage| + |q.peerIdRequest| + |q.usernameRequest|
      + |q.tradeOfferRequest| + |q.tradeResponseResponse|
  }

  lemma LoneIsOne(slot: Slot, k: nat, t: Ticket)
    ensures ParkedSenders(Parked(slot, k, t)) == 1
  {
    assert map[k := t].Keys == {k};
  }

  /** In every interleaving at most one sender is parked or about to be used in the
      whole node: the one main is waiting for, if it waits at all. */
  lemma AtMostOneWaiter(n: Node, steps: seq<Step>)
    requires Init(n) && Legal(n, steps)
    ensures
      var m := After(n, steps);
      ParkedSenders(m.loop.pending) + |Resolves(m.todo)| == if m.main.Awaiting? then 1 else 0
  {
    Reachable(n, steps);
    var m := After(n, steps);
    if m.main.Awaiting? && Resolves(m.todo) == [] {
      var slot, k :| LoneWaiter(m, m.main.ticket, slot, k);
      LoneIsOne(slot, k, m.main.ticket);
    }
  }

  /** Every sender the loop ever accepted was used exactly once, in the order they
      were accepted, except the one main still waits for; and no lookup or receiver
      a handler relies on is ever missing. */
  lemma ExactlyOnceReplies(n: Node, steps: seq<Step>)
    requires Init(n) && Legal(n, steps)
    ensures
      var m := After(n, steps);
      && m.past.taken == m.past.resolved + (if m.main.Awaiting? then [m.main.ticket] else [])
      && (forall i, j | 0 <= i < j < |m.past.taken| :: m.past.taken[i] != m.past.taken[j])
      && !m.past.crashed
  {
    Reachable(n, steps);
  }

  /** Main receives at most one registration request more than registrations fail,
      and while one is under way, in main or in the DHT, no other is announced. A routing
      update announces the configured name if and only if every registration requested
      so far has failed, be there none. */
  lemma RegistrationLatch(n: Node, steps: seq<Step>)
    requires Init(n) && Legal(n, steps)
    ensures
      var m := After(n, steps);
      && m.past.requested <= m.past.failed + 1
      && (Registering(m.main) || m.loop.pending.registerUsername != map[] ==>
           m.past.requested + Announced(m.todo) == m.past.failed + 1)
      && (m.todo == [] ==>
           Next(m, SwarmReport(RoutingUpdated)).todo ==
             if m.past.requested == m.past.failed then [Emit(RegistrationRequest(m.loop.config.username))] else [])
  {
    Reachable(n, steps);
  }

  // ---------- blocking ----------

  /** Steps that happen without a user or another peer: the two tasks' own, and the
      decisions the swarm owes. */
  predicate Guaranteed(n: Node, st: Step) {
    match st
    case Issue(_) => false
    case SwarmReport(e) => Decides(e).Some? && Decides(e).value in n.swarm.open
    case _ => true
  }

  ghost predicate Stuck(n: Node) { forall st | Guaranteed(n, st) :: !Enabled(n, st) }

  /** Someone is in the middle of something. */
  predicate Obliged(n: Node) { !n.main.AtSelect? || n.todo != [] }

  /** The loop is inside `event_sender.send` while main is inside a client call. */
  predicate CyclicWait(n: Node) {
    n.todo != [] && n.todo[0].Emit? && (n.main.Sending? || n.main.Awaiting?)
  }

  function DecisionOf(ob: Obligation): (e: SwarmEvent)
    ensures Decides(e) == Some(ob)
  {
    match ob
    case GetQuery(q) => GetRecordProgressed(q, GetError)
    case PutQuery(q) => PutRecordFinished(q, false)
    case Request(b, k) =>
      match b
      case TradeOffering => OfferFailed(k)
      case TradeAnswering => AnswerFailed(k)
      case DirectMessaging => DirectFailed(k)
  }

  /** Unless it is in the cyclic wait, a node with something outstanding, in its tasks
      or at its swarm, can go on. */
  lemma GoesOn(m: Node) returns (st: Step)
    requires Inv(m) && !CyclicWait(m) && (Obliged(m) || m.swarm.open != {})
    ensures Guaranteed(m, st) && Enabled(m, st)
    ensures st.SwarmReport? ==> exists ob :: ob in m.swarm.open && st == SwarmReport(DecisionOf(ob))
  {
    if m.todo != [] {
      st := if m.todo[0].Emit? then (if m.main.AtSelect? then TakeEvent else Return) else Work;
    } else if m.main.Sending? || m.main.Running? {
      st := if m.main.Sending? then TakeCommand else Return;
    } else if m.main.Awaiting? {
      var slot, k :| LoneWaiter(m, m.main.ticket, slot, k);
      st := SwarmReport(DecisionOf(ObligationOf(slot, k)));
    } else {
      var ob :| ob in m.swarm.open;
      st := SwarmReport(DecisionOf(ob));
    }
  }

  /** A reachable node with work outstanding is stuck if and only if it is in the
      cyclic wait; while either task is at its select it is not. */
  lemma BlockedExactly(n: Node, steps: seq<Step>)
    requires Init(n) && Legal(n, steps)
    ensures
      var m := After(n, steps);
      Obliged(m) && Stuck(m) <==> CyclicWait(m)
  {
    Reachable(n, steps);
    var m := After(n, steps);
    if !CyclicWait(m) && Obliged(m) {
      var st := GoesOn(m);
    }
  }

  /** The cyclic wait is final: then no step at all is possible, not even a user's
      or another peer's. */
  lemma CyclicWaitIsFinal(n: Node, st: Step)
    requires CyclicWait(n)
    ensures !Enabled(n, st)
  {
  }

  /** It is also real: a chat message that arrives while main waits for the first
      lookup of any name is enough. */
  lemma CyclicWaitIsReachable(n: Node, name: string, peer: PeerId, message: string) returns (steps: seq<Step>)
    requires Init(n)
    ensures steps == [Issue(FindPeerId(name, 0)), TakeCommand, Work, SwarmReport(ChatReceived(peer, message))]
    ensures Legal(n, steps) && CyclicWait(After(n, steps))
  {
    var c := FindPeerId(name, 0);
    var chat := SwarmReport(ChatReceived(peer, message));
    steps := [Issue(c), TakeCommand, Work, chat];
    var n1 := Next(n, Issue(c));
    var n2 := Next(n1, TakeCommand);
    var n3 := Next(n2, Work);
    var n4 := Next(n3, chat);
    assert n2.main == Awaiting(false, 0) && n3.main == n2.main && n3.todo == [];
    assert steps[1..] == [TakeCommand, Work, chat];
    assert steps[1..][1..] == [Work, chat];
    assert steps[1..][1..][1..] == [chat];
    assert steps[1..][1..][1..][1..] == [];
    assert Legal(n4, []) && After(n4, []) == n4;
    assert Legal(n3, [chat]) && After(n3, [chat]) == n4;
    assert Legal(n2, [Work, chat]) && After(n2, [Work, chat]) == n4;
    assert Legal(n1, [TakeCommand, Work, chat]);
  }
}
