/** What each call hears: in every run of a fleet, exactly the verdict of the first event
    that decides its request or query, and nothing before it and nothing else. */
module Callers {
  import opened Protocol
  import opened Handlers
  import opened SwapNetwork
  import SwapMoves
  import opened NodeMachine
  import opened Fleet
  import opened FleetDeeds
  import opened Doings
  import opened Origins
  import FleetProjection

  /** The caller with ticket `t` at peer `p` is told `o`, or is just about to be. */
  predicate CallerTold(f: Fleet, p: PeerId, t: Ticket, o: Outcome) { Resolve(t, o) in DoingsOf(f, p) }

  /** What a caller is to hear when `e` decides what it waits for. */
  function Verdict(codec: Codec, c: Command, e: SwarmEvent): Outcome {
    match c
    case RegisterUsername(_, _) => Status(e.PutRecordFinished? && e.ok)
    case FindPeerId(_, _) => PeerAnswer(if Finds(e) then codec.parsePeer(e.progress.value) else None)
    case FindPeerUsername(_, _) =>
      NameAnswer(if Finds(e) && codec.parseUtf8(e.progress.value).Some?
                 then Ok(codec.parseUtf8(e.progress.value).value) else Err)
    case MakeTradeOffer(_, _, _, _, _, _) => Status(e.OfferAcknowledged?)
    case RespondTrade(_, _, _, _, _) => BytesAnswer(if e.AnswerReplied? then Ok(e.reply.offeredFileBytes) else Err)
    case SendChatMessage(_, published, _) => Status(published)
    case DirectMessage(_, _, _) => Status(e.DirectAcknowledged?)
  }

  predicate Finds(e: SwarmEvent) { e.GetRecordProgressed? && e.progress.FoundRecord? }

  /** What a caller hears whose command needs no network: gossipsub's verdict, or an error
      for an offer or message to oneself and for an answer to no offer. */
  function AtOnce(c: Command): Outcome {
    if c.SendChatMessage? then Status(c.published)
    else if c.RespondTrade? then BytesAnswer(Err)
    else Status(false)
  }

  /** The first event of the run that decides `ob` at peer `p`. */
  function FirstDecision(f: Fleet, steps: seq<Act>, p: PeerId, ob: Obligation): Option<SwarmEvent>
    requires Run(f, steps)
    decreases |steps|
  {
    if steps == [] then None
    else
      var s := NodeStep(f, steps[0]);
      if s.Some? && s.value.0 == p && s.value.1.SwarmReport? && Decides(s.value.1.event) == Some(ob)
      then Some(s.value.1.event)
      else FirstDecision(Acted(f, steps[0]), steps[1..], p, ob)
  }

  // ---------- tickets that were used ----------

  /** What has been told to callers of peer `p` was told to tickets it remembers as used. */
  ghost predicate UsedKnown(f: Fleet, p: PeerId) {
    forall t, o | Resolve(t, o) in DoneBy(f.done, p) :: p in f.nodes && t in f.nodes[p].past.resolved
  }

  lemma WorkResolves(n: Node)
    requires Inv(n) && NodeMachine.Enabled(n, Work)
    ensures n.todo[0].Resolve? ==> n.todo[0].ticket in NodeMachine.Next(n, Work).past.resolved
  {
    hide Owed, Latched, Remembered, Resolves;
    WorkUses(n);
  }

  lemma ResolvedGrows(n: Node, s: NodeMachine.Step)
    requires NodeMachine.Enabled(n, s)
    ensures n.past.resolved <= NodeMachine.Next(n, s).past.resolved
  {
    hide CommandTurn, EventTurn;
  }

  lemma UsedStaysKnown(f: Fleet, st: Act, p: PeerId)
    requires UsedKnown(f, p) && NodesOk(f) && Possible(f, st)
    ensures UsedKnown(Acted(f, st), p)
  {
    hide Acted, NodeMachine.Next, NodeMachine.Enabled, Inv, DoneBy, Takes;
    var g, s, d := Acted(f, st), NodeStep(f, st), DeedOf(f, st);
    NodesAfter(f, st);
    DoneAfter(f, st, p);
    if s.Some? && s.value.0 == p { ResolvedGrows(f.nodes[p], s.value.1); }
    forall t, o | Resolve(t, o) in DoneBy(g.done, p) ensures p in g.nodes && t in g.nodes[p].past.resolved {
      if Resolve(t, o) !in DoneBy(f.done, p) {
        ResolvedNow(f, st, p, t, o);
      }
    }
  }

  lemma ResolvedNow(f: Fleet, st: Act, p: PeerId, t: Ticket, o: Outcome)
    requires NodesOk(f) && Possible(f, st) && DeedOf(f, st) == Some(Deed(p, Resolve(t, o)))
    ensures p in Acted(f, st).nodes && t in Acted(f, st).nodes[p].past.resolved
  {
    hide Acted, NodeMachine.Next, Inv;
    NodesAfter(f, st);
    WorkResolves(f.nodes[p]);
  }

  lemma {:induction false} RunUsedKnown(f0: Fleet, steps: seq<Act>, p: PeerId)
    requires Fresh(f0) && Run(f0, steps)
    ensures UsedKnown(End(f0, steps), p) && NodesOk(End(f0, steps))
    decreases |steps|
  {
    hide Acted, Possible, NodesOk;
    if steps == [] {
      hide FleetProjection.Projected, SwapMoves.WellFormed, FleetProjection.Shaped;
      FleetProjection.StartProjected(f0);
    } else {
      LastStep(f0, steps);
      var before := steps[..|steps| - 1];
      RunUsedKnown(f0, before, p);
      UsedStaysKnown(End(f0, before), steps[|steps| - 1], p);
      NextNodesOk(End(f0, before), steps[|steps| - 1]);
    }
  }

  lemma {:induction false} InResolves(es: seq<Effect>, t: Ticket)
    ensures t in Resolves(es) <==> exists o :: Resolve(t, o) in es
    decreases |es|
  {
    if es != [] {
      InResolves(es[1..], t);
      assert es == [es[0]] + es[1..];
      if o :| Resolve(t, o) in es {
        assert es[0] == Resolve(t, o) || Resolve(t, o) in es[1..];
      }
      if es[0].Resolve? && es[0].ticket == t { assert Resolve(t, es[0].outcome) in es; }
      if o :| Resolve(t, o) in es[1..] { assert Resolve(t, o) in es; }
    }
  }

  /** A turn that starts uses no ticket that was used before. */
  lemma CommandTickets(n: Node, t: Ticket)
    requires Inv(n) && NodeMachine.Enabled(n, TakeCommand)
    ensures t in Resolves(CommandTurn(n.loop, n.main.command).effects) ==> t !in n.past.taken
  {
    hide CommandTurn, Immediate, Clean, Latched;
    CommandParks(n.loop, n.main.command);
    if t in n.past.taken {
      var i :| 0 <= i < |n.past.taken| && n.past.taken[i] == t;
    }
  }

  lemma EventTickets(n: Node, e: SwarmEvent, t: Ticket)
    requires Inv(n) && NodeMachine.Enabled(n, SwarmReport(e))
    ensures t in Resolves(EventTurn(n.loop, e).effects) ==> t !in n.past.resolved
  {
    hide EventTurn, Clean, Latched;
    if e.DirectAcknowledged? || e.DirectFailed? { DirectDecided(n, e); }
    if n.main.Awaiting? {
      var slot, k :| LoneWaiter(n, n.main.ticket, slot, k);
      EventAnswers(n.loop, e, slot, k, n.main.ticket);
      LastIsNew(n);
    } else {
      EventIgnored(n.loop, e);
    }
  }

  lemma LastIsNew(n: Node)
    requires Remembered(n) && n.main.Awaiting?
    ensures n.main.ticket !in n.past.resolved
  {
    var taken, k := n.past.taken, |n.past.resolved|;
    assert taken[k] == n.main.ticket;
    forall i | 0 <= i < k ensures n.past.resolved[i] != n.main.ticket { assert taken[i] < taken[k]; }
  }

  // ---------- from the turn that decides on ----------

  /** The caller has been told `v`, or is just about to be, and hears nothing else. */
  ghost predicate Settled(f: Fleet, p: PeerId, t: Ticket, v: Outcome) {
    && NodesOk(f) && UsedKnown(f, p) && p in f.nodes && t in f.nodes[p].past.taken
    && (forall o :: CallerTold(f, p, t, o) <==> o == v)
    && (t in f.nodes[p].past.resolved || (f.nodes[p].main.Awaiting? && f.nodes[p].main.ticket == t
                                          && Resolve(t, v) in f.nodes[p].todo))
  }

  /** No turn tells a settled caller anything more. */
  lemma SettledHearsNoMore(f: Fleet, st: Act, p: PeerId, t: Ticket, v: Outcome)
    requires Settled(f, p, t, v) && Possible(f, st)
    ensures forall o :: Resolve(t, o) !in NewDoings(f, st, p)
  {
    hide Inv, CallerTold, CommandTurn, EventTurn;
    if Turns(f, st, p) {
      var n, s := f.nodes[p], NodeStep(f, st).value.1;
      assert n.past.resolved <= n.past.taken by { assert Inv(n); TakenHasResolved(n); }
      if s.TakeCommand? { CommandTickets(n, t); } else { EventTickets(n, s.event, t); }
      InResolves(NewDoings(f, st, p), t);
    }
  }

  lemma TakenHasResolved(n: Node)
    requires Inv(n)
    ensures n.past.resolved <= n.past.taken
  {
  }

  lemma NodeSettled(n: Node, s: NodeMachine.Step, t: Ticket, v: Outcome)
    requires Inv(n) && NodeMachine.Enabled(n, s) && t in n.past.taken
    requires t in n.past.resolved || (n.main.Awaiting? && n.main.ticket == t && Resolve(t, v) in n.todo)
    ensures
      var m := NodeMachine.Next(n, s);
      && t in m.past.taken
      && (t in m.past.resolved || (m.main.Awaiting? && m.main.ticket == t && Resolve(t, v) in m.todo))
  {
    hide CommandTurn, EventTurn, Owed, Latched, Remembered, Resolves;
    ResolvedGrows(n, s);
    if t !in n.past.resolved && s.Work? {
      WorkUses(n);
      assert n.todo == [n.todo[0]] + n.todo[1..];
    }
  }

  lemma StepSettled(f: Fleet, st: Act, p: PeerId, t: Ticket, v: Outcome)
    requires Settled(f, p, t, v) && Possible(f, st)
    ensures Settled(Acted(f, st), p, t, v)
  {
    hide Acted, NodeMachine.Next, NodeMachine.Enabled, Inv, UsedKnown, DoingsOf, NewDoings;
    NodesAfter(f, st);
    NextNodesOk(f, st);
    UsedStaysKnown(f, st, p);
    SettledHearsNoMore(f, st, p, t, v);
    DoingsGrow(f, st, p);
    var s, g := NodeStep(f, st), Acted(f, st);
    forall o ensures CallerTold(g, p, t, o) <==> o == v {
      assert CallerTold(g, p, t, o) <==> CallerTold(f, p, t, o) || Resolve(t, o) in NewDoings(f, st, p);
    }
    if s.Some? && s.value.0 == p { NodeSettled(f.nodes[p], s.value.1, t, v); }
  }

  lemma {:induction false} RunSettled(f: Fleet, steps: seq<Act>, p: PeerId, t: Ticket, v: Outcome)
    requires Settled(f, p, t, v) && Run(f, steps)
    ensures Settled(End(f, steps), p, t, v)
    decreases |steps|
  {
    hide Settled, Acted, Possible;
    if steps != [] {
      StepSettled(f, steps[0], p, t, v);
      RunSettled(Acted(f, steps[0]), steps[1..], p, t, v);
    }
  }

  // ---------- while the call waits ----------

  ghost predicate Awaits(f: Fleet, p: PeerId, c: Command, t: Ticket, k: nat) {
    && NodesOk(f) && UsedKnown(f, p) && p in f.nodes && !c.SendChatMessage?
    && f.nodes[p].main.Awaiting? && f.nodes[p].main.ticket == t && LoneWaiter(f.nodes[p], t, SlotOf(c), k)
  }

  lemma NothingYet(f: Fleet, p: PeerId, c: Command, t: Ticket, k: nat)
    requires Awaits(f, p, c, t, k)
    ensures forall o :: !CallerTold(f, p, t, o)
  {
    hide Owed, Clean, Latched;
    var n := f.nodes[p];
    assert Inv(n);
    LastIsNew(n);
    InResolves(n.todo, t);
    forall o ensures Resolve(t, o) !in DoneBy(f.done, p) && Resolve(t, o) !in TodoOf(f, p) { }
  }

  /** The event that decides a call tells it the verdict, and nothing else happens. */
  lemma DecisionTells(s: LoopState, c: Command, k: nat, t: Ticket, e: SwarmEvent)
    requires s.pending == Parked(SlotOf(c), k, t) && !c.SendChatMessage? && Answers(e, SlotOf(c), k)
    ensures EventTurn(s, e).effects == [Resolve(t, Verdict(s.config.codec, c, e))]
  {
  }

  lemma StillAwaits(n: Node, s: NodeMachine.Step, c: Command, t: Ticket, k: nat)
    requires Inv(n) && NodeMachine.Enabled(n, s) && n.main.Awaiting? && n.main.ticket == t
    requires LoneWaiter(n, t, SlotOf(c), k)
    requires s.SwarmReport? ==> !Answers(s.event, SlotOf(c), k)
    ensures
      var m := NodeMachine.Next(n, s);
      m.main.Awaiting? && m.main.ticket == t && LoneWaiter(m, t, SlotOf(c), k)
  {
    hide CommandTurn, EventTurn, Remembered, Latched, Owed;
    match s
    case Work =>
      WorkUses(n);
      WorkOwes(n, ObligationOf(SlotOf(c), k));
    case SwarmReport(e) =>
      if e.DirectAcknowledged? || e.DirectFailed? { DirectDecided(n, e); }
      EventAnswers(n.loop, e, SlotOf(c), k, t);
      StillOwed(n, e, ObligationOf(SlotOf(c), k));
    case _ =>
  }

  lemma StillOwed(n: Node, e: SwarmEvent, ob: Obligation)
    requires NodeMachine.Enabled(n, SwarmReport(e)) && Owed(n, ob) && Decides(e) != Some(ob)
    ensures Owed(NodeMachine.Next(n, SwarmReport(e)), ob)
  {
    hide EventTurn;
  }

  /** The step is the report that decides `ob` at peer `p`. */
  predicate DecidesNow(f: Fleet, st: Act, p: PeerId, ob: Obligation)
    requires Possible(f, st)
  {
    var s := NodeStep(f, st);
    s.Some? && s.value.0 == p && s.value.1.SwarmReport? && Decides(s.value.1.event) == Some(ob)
  }

  lemma StepAwaits(f: Fleet, st: Act, p: PeerId, c: Command, t: Ticket, k: nat)
    requires Awaits(f, p, c, t, k) && Possible(f, st) && !DecidesNow(f, st, p, ObligationOf(SlotOf(c), k))
    ensures Awaits(Acted(f, st), p, c, t, k)
  {
    hide Acted, NodeMachine.Next, NodeMachine.Enabled, Inv, UsedKnown, LoneWaiter;
    NodesAfter(f, st);
    NextNodesOk(f, st);
    UsedStaysKnown(f, st, p);
    var s := NodeStep(f, st);
    if s.Some? && s.value.0 == p { StillAwaits(f.nodes[p], s.value.1, c, t, k); }
  }

  lemma DecisionSettles(f: Fleet, st: Act, p: PeerId, c: Command, t: Ticket, k: nat)
    requires Awaits(f, p, c, t, k) && Possible(f, st) && DecidesNow(f, st, p, ObligationOf(SlotOf(c), k))
    ensures
      Settled(Acted(f, st), p, t, Verdict(f.nodes[p].loop.config.codec, c, NodeStep(f, st).value.1.event))
  {
    hide Acted, EventTurn, UsedKnown, DoingsOf, Verdict, Owed, Clean, Latched;
    var n, e, g := f.nodes[p], NodeStep(f, st).value.1.event, Acted(f, st);
    NothingYet(f, p, c, t, k);
    NodesAfter(f, st);
    NextNodesOk(f, st);
    UsedStaysKnown(f, st, p);
    DecisionTells(n.loop, c, k, t, e);
    DoingsGrow(f, st, p);
    var v := Verdict(n.loop.config.codec, c, e);
    forall o ensures CallerTold(g, p, t, o) <==> o == v {
      assert CallerTold(g, p, t, o) <==> CallerTold(f, p, t, o) || Resolve(t, o) in [Resolve(t, v)];
    }
    assert n.past.taken[|n.past.resolved|] == t;
  }

  lemma ConfigAt(f: Fleet, st: Act, p: PeerId)
    requires Possible(f, st) && p in f.nodes
    ensures p in Acted(f, st).nodes && Acted(f, st).nodes[p].loop.config == f.nodes[p].loop.config
  {
    hide Acted, Possible;
    ConfigsStay(f, f, st);
  }

  lemma {:induction false} AwaitsHears(f: Fleet, steps: seq<Act>, p: PeerId, c: Command, t: Ticket, k: nat)
    requires Awaits(f, p, c, t, k) && Run(f, steps)
    ensures
      var e := FirstDecision(f, steps, p, ObligationOf(SlotOf(c), k));
      forall o :: CallerTold(End(f, steps), p, t, o) <==>
        e.Some? && o == Verdict(f.nodes[p].loop.config.codec, c, e.value)
    decreases |steps|
  {
    hide Awaits, Acted, Possible, Verdict, CallerTold;
    assert p in f.nodes by { WhoAwaits(f, p, c, t, k); }
    if steps == [] {
      NothingYet(f, p, c, t, k);
    } else {
      var g := Acted(f, steps[0]);
      ConfigAt(f, steps[0], p);
      if DecidesNow(f, steps[0], p, ObligationOf(SlotOf(c), k)) {
        var v := Verdict(f.nodes[p].loop.config.codec, c, NodeStep(f, steps[0]).value.1.event);
        DecisionSettles(f, steps[0], p, c, t, k);
        RunSettled(g, steps[1..], p, t, v);
        assert Settled(End(g, steps[1..]), p, t, v);
      } else {
        StepAwaits(f, steps[0], p, c, t, k);
        AwaitsHears(g, steps[1..], p, c, t, k);
      }
    }
  }

  lemma WhoAwaits(f: Fleet, p: PeerId, c: Command, t: Ticket, k: nat)
    requires Awaits(f, p, c, t, k)
    ensures p in f.nodes
  {
  }

  // ---------- the turn that takes the command ----------

  /** A command that uses its sender at once tells it this, and nothing else. */
  lemma AtOnceTells(s: LoopState, c: Command, t: Ticket)
    requires Immediate(s, c) && TicketOf(c) == Some(t)
    ensures forall o :: Resolve(t, o) in CommandTurn(s, c).effects <==> o == AtOnce(c)
  {
  }

  lemma TakenSettles(f: Fleet, p: PeerId, t: Ticket)
    requires NodesOk(f) && UsedKnown(f, p) && Possible(f, At(p, TakeCommand))
    requires TicketOf(f.nodes[p].main.command) == Some(t) && Immediate(f.nodes[p].loop, f.nodes[p].main.command)
    ensures Settled(Acted(f, At(p, TakeCommand)), p, t, AtOnce(f.nodes[p].main.command))
  {
    hide CommandTurn, UsedKnown, DoneBy, Clean, Latched, AtOnce, Immediate, CommandEntries;
    var n, st := f.nodes[p], At(p, TakeCommand);
    var g, v := Acted(f, st), AtOnce(n.main.command);
    NextNodesOk(f, st);
    UsedStaysKnown(f, st, p);
    AtOnceTells(n.loop, n.main.command, t);
    NewTicketUntold(f, p, t);
    DoingsGrow(f, st, p);
    forall o ensures CallerTold(g, p, t, o) <==> o == v {
      assert CallerTold(g, p, t, o) <==>
        CallerTold(f, p, t, o) || Resolve(t, o) in CommandTurn(n.loop, n.main.command).effects;
    }
  }

  /** A ticket whose command is not taken yet was never used. */
  lemma NewTicketUntold(f: Fleet, p: PeerId, t: Ticket)
    requires NodesOk(f) && UsedKnown(f, p) && p in f.nodes && f.nodes[p].todo == []
    requires f.nodes[p].main.Sending? && TicketOf(f.nodes[p].main.command) == Some(t)
    ensures forall o :: !CallerTold(f, p, t, o)
  {
    hide OneWaiter, Clean, Latched;
    var n := f.nodes[p];
    assert Inv(n) && n.past.taken == n.past.resolved;
    assert t !in n.past.taken;
    forall o ensures Resolve(t, o) !in DoneBy(f.done, p) { }
  }

  lemma TakenAwaits(f: Fleet, p: PeerId, t: Ticket)
    requires NodesOk(f) && UsedKnown(f, p) && Possible(f, At(p, TakeCommand))
    requires TicketOf(f.nodes[p].main.command) == Some(t) && !Immediate(f.nodes[p].loop, f.nodes[p].main.command)
    ensures
      var n := f.nodes[p];
      Awaits(Acted(f, At(p, TakeCommand)), p, n.main.command, t, NumberFor(n.loop, n.main.command))
  {
    hide CommandTurn, UsedKnown, Immediate, NumberFor, CommandEntries, Clean, Remembered;
    var n, st := f.nodes[p], At(p, TakeCommand);
    NextNodesOk(f, st);
    UsedStaysKnown(f, st, p);
    CommandParks(n.loop, n.main.command);
    assert !n.main.command.SendChatMessage? by { ChatIsImmediate(n.loop, n.main.command); }
  }

  lemma ChatIsImmediate(s: LoopState, c: Command)
    ensures c.SendChatMessage? ==> Immediate(s, c)
  {
  }

  /** After run `s` peer `p`'s loop takes `c`, after which the run goes on as `more` and
      ends in `g`. */
  ghost predicate Taken(f0: Fleet, s: seq<Act>, p: PeerId, c: Command, more: seq<Act>, g: Fleet) {
    && Fresh(f0) && Run(f0, s) && Possible(End(f0, s), At(p, TakeCommand))
    && End(f0, s).nodes[p].main.command == c
    && Run(Acted(End(f0, s), At(p, TakeCommand)), more)
    && g == End(Acted(End(f0, s), At(p, TakeCommand)), more)
  }

  /** In every run, what the caller of any command hears, from the moment the loop takes
      the command: at once, if its command needs no network; otherwise the verdict of the
      first event that decides its request or query, and until then nothing. */
  lemma CallersHear(f0: Fleet, s: seq<Act>, p: PeerId, c: Command, t: Ticket, more: seq<Act>, g: Fleet)
    requires Taken(f0, s, p, c, more, g) && TicketOf(c) == Some(t)
    ensures
      var loop := End(f0, s).nodes[p].loop;
      if Immediate(loop, c) then forall o :: CallerTold(g, p, t, o) <==> o == AtOnce(c)
      else
        var f1 := Acted(End(f0, s), At(p, TakeCommand));
        var e := FirstDecision(f1, more, p, ObligationOf(SlotOf(c), NumberFor(loop, c)));
        forall o :: CallerTold(g, p, t, o) <==> e.Some? && o == Verdict(loop.config.codec, c, e.value)
  {
    hide Acted, Awaits, Verdict, AtOnce, CallerTold, Immediate, NumberFor, NodesOk, UsedKnown, FirstDecision;
    var f := End(f0, s);
    var n, f1 := f.nodes[p], Acted(f, At(p, TakeCommand));
    RunUsedKnown(f0, s, p);
    ConfigAt(f, At(p, TakeCommand), p);
    if Immediate(n.loop, c) {
      TakenSettles(f, p, t);
      RunSettled(f1, more, p, t, AtOnce(c));
      assert Settled(End(f1, more), p, t, AtOnce(c));
    } else {
      TakenAwaits(f, p, t);
      AwaitsHears(f1, more, p, c, t, NumberFor(n.loop, c));
    }
  }
}
