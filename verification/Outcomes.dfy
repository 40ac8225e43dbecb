/** What users are told about their offers, direct messages and registrations, and what
    has then really happened. */
module Outcomes {
  import opened Protocol
  import opened Handlers
  import opened SwapNetwork
  import opened NodeMachine
  import opened Fleet
  import opened FleetProjection
  import opened Doings
  import opened Origins
  import opened Letters
  import opened Callers
  import Directory

  // ---------- one outcome for one request ----------

  /** Request `id` was numbered before, and is neither under way nor to be sent. */
  ghost predicate Over(f: Fleet, id: RequestId) {
    && id.from in f.nodes && id.number < Number(f.nodes[id.from].loop.counters, id.behaviour)
    && !Owed(f.nodes[id.from], Request(id.behaviour, id.number))
  }

  lemma {:induction false} PledgedIsSent(es: seq<Effect>, b: Behaviour, k: nat)
    requires Request(b, k) in Pledged(es)
    ensures exists e :: e in es && e.Send? && e.number == k && BehaviourOf(e.payload) == b
  {
    if Request(b, k) in Pledged(es[1..]) {
      PledgedIsSent(es[1..], b, k);
      var e :| e in es[1..] && e.Send? && e.number == k && BehaviourOf(e.payload) == b;
      assert e in es;
    } else {
      assert es[0] in es;
    }
  }

  /** A number that was used is never pledged again. */
  lemma NodeOver(n: Node, s: NodeMachine.Step, b: Behaviour, k: nat)
    requires NodeMachine.Enabled(n, s) && k < Number(n.loop.counters, b) && !Owed(n, Request(b, k))
    ensures
      var m := NodeMachine.Next(n, s);
      k < Number(m.loop.counters, b) && !Owed(m, Request(b, k))
  {
    hide CommandTurn, EventTurn, Pledged;
    match s
    case TakeCommand =>
      CommandNames(n.loop, n.main.command);
      if Request(b, k) in Pledged(NodeMachine.Next(n, s).todo) { PledgedIsSent(NodeMachine.Next(n, s).todo, b, k); }
    case SwarmReport(e) =>
      EventNames(n.loop, e);
      if Request(b, k) in Pledged(NodeMachine.Next(n, s).todo) { PledgedIsSent(NodeMachine.Next(n, s).todo, b, k); }
    case Work => WorkOwes(n, Request(b, k));
    case TakeEvent => FirstPledges(n.todo);
    case _ =>
  }

  lemma FirstPledges(es: seq<Effect>)
    requires es != []
    ensures Pledged(es[1..]) <= Pledged(es)
  {
  }

  lemma StaysOver(f: Fleet, st: Act, id: RequestId)
    requires Over(f, id) && Possible(f, st)
    ensures Over(Acted(f, st), id) && st != ReplyArrival(id) && st != FailureNotice(id)
  {
    hide Acted, NodeMachine.Next, Owed;
    NodesAfter(f, st);
    var s := NodeStep(f, st);
    if s.Some? && s.value.0 == id.from { NodeOver(f.nodes[id.from], s.value.1, id.behaviour, id.number); }
    if st == ReplyArrival(id) || st == FailureNotice(id) { OutcomeOwed(f, st, id); }
  }

  lemma OutcomeOwed(f: Fleet, st: Act, id: RequestId)
    requires Possible(f, st) && (st == ReplyArrival(id) || st == FailureNotice(id))
    ensures id.from in f.nodes && Owed(f.nodes[id.from], Request(id.behaviour, id.number))
  {
  }

  lemma {:induction false} OverForGood(f: Fleet, steps: seq<Act>, id: RequestId)
    requires Over(f, id) && Run(f, steps)
    ensures ReplyArrival(id) !in steps && FailureNotice(id) !in steps
    decreases |steps|
  {
    hide Over, Acted, Possible;
    if steps != [] {
      StaysOver(f, steps[0], id);
      OverForGood(Acted(f, steps[0]), steps[1..], id);
      assert forall x | x in steps :: x == steps[0] || x in steps[1..];
    }
  }

  predicate Numbered(f: Fleet, id: RequestId) {
    id.from in f.nodes && id.number < Number(f.nodes[id.from].loop.counters, id.behaviour)
  }

  lemma StaysNumbered(f: Fleet, st: Act, id: RequestId)
    requires Numbered(f, id) && Possible(f, st)
    ensures Numbered(Acted(f, st), id)
  {
    hide Acted, Possible, TurnOf, NamesNew;
    LoopAfter(f, st, id.from);
    if Turns(f, st, id.from) {
      TurnNames(f, st);
      assert NamesNew(f.nodes[id.from].loop, TurnOf(f, st).value.1);
      NumbersGrow(f.nodes[id.from].loop, TurnOf(f, st).value.1, id.behaviour);
    }
  }

  lemma NumbersGrow(s: LoopState, turn: Turn, b: Behaviour)
    requires NamesNew(s, turn)
    ensures Number(s.counters, b) <= Number(turn.next.counters, b)
  {
  }

  /** Only a reply to a request or a failure notice decides it, and then it is over. */
  lemma DecidedBy(f: Fleet, st: Act, id: RequestId)
    requires Numbered(f, id) && Possible(f, st)
    ensures DecidesNow(f, st, id.from, Request(id.behaviour, id.number)) <==>
              st == ReplyArrival(id) || st == FailureNotice(id)
    ensures st == ReplyArrival(id) ==>
              NodeStep(f, st).value.1.event == ReplyEvent(id, f.replies[id]) != FailureEvent(id)
    ensures st == FailureNotice(id) ==> NodeStep(f, st).value.1.event == FailureEvent(id)
  {
  }

  lemma DecidedIsOver(f: Fleet, st: Act, id: RequestId)
    requires Numbered(f, id) && Possible(f, st) && (st == ReplyArrival(id) || st == FailureNotice(id))
    ensures Over(Acted(f, st), id)
  {
    hide Acted, EventTurn;
    NodesAfter(f, st);
    StaysNumbered(f, st, id);
    var n := f.nodes[id.from];
    var e := if st == FailureNotice(id) then FailureEvent(id) else ReplyEvent(id, f.replies[id]);
    EventNames(n.loop, e);
    if Request(id.behaviour, id.number) in Pledged(EventTurn(n.loop, e).effects) {
      PledgedIsSent(EventTurn(n.loop, e).effects, id.behaviour, id.number);
    }
  }

  /** In a run from here, a request is decided if and only if its reply arrives or its
      failure is reported, and only one of these happens. */
  lemma {:induction false} RequestFate(f: Fleet, steps: seq<Act>, id: RequestId)
    requires Numbered(f, id) && Run(f, steps)
    ensures
      var e := FirstDecision(f, steps, id.from, Request(id.behaviour, id.number));
      && (ReplyArrival(id) in steps <==> e.Some? && e.value != FailureEvent(id))
      && (FailureNotice(id) in steps <==> e.Some? && e.value == FailureEvent(id))
      && (e.Some? ==> Decides(e.value) == Some(Request(id.behaviour, id.number)))
    decreases |steps|
  {
    hide Acted, Possible, Over, Numbered;
    if steps != [] {
      var g := Acted(f, steps[0]);
      DecidedBy(f, steps[0], id);
      assert forall x | x in steps :: x == steps[0] || x in steps[1..];
      if DecidesNow(f, steps[0], id.from, Request(id.behaviour, id.number)) {
        DecidedIsOver(f, steps[0], id);
        OverForGood(g, steps[1..], id);
      } else {
        StaysNumbered(f, steps[0], id);
        RequestFate(g, steps[1..], id);
      }
    }
  }

  // ---------- what a reply stands for ----------

  /** Peer `q` has replied to `id`, as number `w` of what it has done. */
  predicate HasReplied(f: Fleet, q: PeerId, w: nat, id: RequestId) {
    w < |DoneBy(f.done, q)| && RepliesAt(f, q, w, id)
  }

  /** A reply that arrives was really given. */
  lemma {:induction false} ReplyWasGiven(f0: Fleet, steps: seq<Act>, id: RequestId) returns (q: PeerId, w: nat)
    requires Fresh(f0) && Run(f0, steps) && ReplyArrival(id) in steps
    ensures HasReplied(End(f0, steps), q, w, id)
    decreases |steps|
  {
    hide Acted, NodeMachine.Enabled, Fresh, DoneBy;
    LastStep(f0, steps);
    var before, last := steps[..|steps| - 1], steps[|steps| - 1];
    var f := End(f0, before);
    if last == ReplyArrival(id) {
      RunLettered(f0, before);
      assert RepliesDone(f) && id in f.replies;
      q :| Respond(id, f.replies[id]) in DoneBy(f.done, q);
      w :| 0 <= w < |DoneBy(f.done, q)| && DoneBy(f.done, q)[w] == Respond(id, f.replies[id]);
    } else {
      q, w := ReplyWasGiven(f0, before, id);
    }
    DoingsGrow(f, last, q);
  }

  /** Peer `p` gives its requests one name each: two it has sent under one name are one. */
  lemma SameRequest(f: Fleet, id: RequestId, a: PeerId, x: Payload, b: PeerId, y: Payload)
    requires NamedOnce(f, id.from) && HasSent(f, id, b, y)
    requires BehaviourOf(x) == id.behaviour && Send(id.number, a, x) in DoingsOf(f, id.from)
    ensures a == b && x == y
  {
    var ds := DoingsOf(f, id.from);
    var i :| 0 <= i < |ds| && ds[i] == Send(id.number, a, x);
    assert Send(id.number, b, y) in ds;
    var j :| 0 <= j < |ds| && ds[j] == Send(id.number, b, y);
    assert NameOf(id.from, ds[i]) == NameOf(id.from, ds[j]);
  }

  lemma {:induction false} RepliedAfterArrival(f: Fleet, steps: seq<Act>, q: PeerId, w: nat, id: RequestId)
    requires Run(f, steps) && RepliesAt(End(f, steps), q, w, id) && !RepliesAt(f, q, w, id)
    ensures Arrival(id) in steps
    decreases |steps|
  {
    hide Acted, Possible, RepliesAt;
    var g := Acted(f, steps[0]);
    if RepliesAt(g, q, w, id) {
      NewReply(f, steps[0], q, w, id);
    } else {
      RepliedAfterArrival(g, steps[1..], q, w, id);
    }
  }

  // ---------- what users are told ----------

  function WholeRun(s: seq<Act>, p: PeerId, more: seq<Act>): seq<Act> { s + ([At(p, TakeCommand)] + more) }

  lemma TakenRun(f0: Fleet, s: seq<Act>, p: PeerId, c: Command, more: seq<Act>, g: Fleet)
    requires Taken(f0, s, p, c, more, g)
    ensures Run(f0, WholeRun(s, p, more)) && End(f0, WholeRun(s, p, more)) == g
    ensures p in f0.nodes && End(f0, s).nodes[p].loop.config == f0.nodes[p].loop.config
    ensures f0.nodes[p].loop.config.localPeer == p
  {
    hide Acted, MainsAsked, WireSent, AllCaused;
    var rest := [At(p, TakeCommand)] + more;
    assert rest[1..] == more && rest[0] == At(p, TakeCommand);
    RunsJoin(f0, s, rest);
    RunOriginated(f0, s);
  }

  /** What the loop's turn is to send is among what the peer does. */
  lemma TakenDoes(f0: Fleet, s: seq<Act>, p: PeerId, c: Command, more: seq<Act>, g: Fleet, e: Effect)
    requires Taken(f0, s, p, c, more, g) && e in CommandTurn(End(f0, s).nodes[p].loop, c).effects
    ensures e in DoingsOf(g, p)
  {
    hide Acted, Run, End, DoingsOf, CommandTurn;
    var f, st := End(f0, s), At(p, TakeCommand);
    DoingsGrow(f, st, p);
    assert NewDoings(f, st, p) == CommandTurn(f.nodes[p].loop, c).effects;
    DoingsStay(Acted(f, st), more, p);
    var before, added := DoingsOf(f, p), NewDoings(f, st, p);
    var i :| 0 <= i < |added| && added[i] == e;
    assert DoingsOf(Acted(f, st), p)[|before| + i] == e == DoingsOf(g, p)[|before| + i];
  }

  /** A request that left with the command has the outcome its caller hears. */
  lemma RequestHeard(f0: Fleet, s: seq<Act>, p: PeerId, c: Command, more: seq<Act>, g: Fleet, id: RequestId)
    requires Taken(f0, s, p, c, more, g) && (c.MakeTradeOffer? || c.DirectMessage?) && c.peer != p
    requires id == RequestId(if c.MakeTradeOffer? then TradeOffering else DirectMessaging, p,
                             NumberFor(End(f0, s).nodes[p].loop, c))
    ensures forall o :: CallerTold(g, p, c.ticket, o) ==> o == Status(true) || o == Status(false)
    ensures CallerTold(g, p, c.ticket, Status(true)) <==> ReplyArrival(id) in more
    ensures CallerTold(g, p, c.ticket, Status(false)) <==> FailureNotice(id) in more
  {
    hide Acted, Run, End, CallerTold, FirstDecision, CommandTurn;
    var f, st := End(f0, s), At(p, TakeCommand);
    TakenRun(f0, s, p, c, more, g);
    CallersHear(f0, s, p, c, c.ticket, more, g);
    NewlyNumbered(f, p, c, id);
    RequestFate(Acted(f, st), more, id);
  }

  lemma NewlyNumbered(f: Fleet, p: PeerId, c: Command, id: RequestId)
    requires Possible(f, At(p, TakeCommand)) && f.nodes[p].main.command == c
    requires (c.MakeTradeOffer? || c.DirectMessage?) && c.peer != f.nodes[p].loop.config.localPeer
    requires id == RequestId(if c.MakeTradeOffer? then TradeOffering else DirectMessaging, p,
                             NumberFor(f.nodes[p].loop, c))
    ensures Numbered(Acted(f, At(p, TakeCommand)), id)
  {
    hide CommandEntries;
  }

  /** A reply that arrives was given by a peer that has dealt with the request. */
  lemma ReplyWasEarned(f0: Fleet, s: seq<Act>, p: PeerId, c: Command, more: seq<Act>, g: Fleet,
                       id: RequestId, to: PeerId, payload: Payload) returns (w: nat)
    requires Taken(f0, s, p, c, more, g) && ReplyArrival(id) in more && id.from == p
    requires BehaviourOf(payload) == id.behaviour && !payload.AnswerPayload?
    requires Send(id.number, to, payload) in CommandTurn(End(f0, s).nodes[p].loop, c).effects
    ensures Arrival(id) in WholeRun(s, p, more) && HasReplied(g, to, w, id)
    ensures Handled(g, to, w) && HasSent(g, id, to, payload)
  {
    hide Acted, Run, End, DoingsOf, DoneBy, CommandTurn, Fresh, Taken, SameConfigs, MainsAsked, WireSent, RepliesDone,
         WireUnanswered, RepliedOnce;
    var steps := WholeRun(s, p, more);
    TakenRun(f0, s, p, c, more, g);
    TakenDoes(f0, s, p, c, more, g, Send(id.number, to, payload));
    assert Fresh(f0) by { TakenFresh(f0, s, p, c, more, g); }
    RunLettered(f0, steps);
    var q;
    q, w := ReplyWasGiven(f0, steps, id);
    assert AllHandled(g, q) && Handled(g, q, w) && NamedOnce(g, p);
    SentBefore(f0, steps, g, q, w, id);
    var y :| HasSent(g, id, q, y);
    SameRequest(g, id, to, payload, q, y);
    FreshUnreplied(f0, q, w, id);
    RepliedAfterArrival(f0, steps, q, w, id);
  }

  lemma TakenFresh(f0: Fleet, s: seq<Act>, p: PeerId, c: Command, more: seq<Act>, g: Fleet)
    requires Taken(f0, s, p, c, more, g)
    ensures Fresh(f0)
  {
  }

  lemma FreshUnreplied(f0: Fleet, q: PeerId, w: nat, id: RequestId)
    requires Fresh(f0)
    ensures !RepliesAt(f0, q, w, id)
  {
    assert DoingsOf(f0, q) == [];
  }

  /** What `offer_trade` returns: `true` if and only if the recipient's reply has come
      back, and then the recipient has noted this very offer and announces it next;
      `false` if and only if a failure was reported; and always `false`, with nothing
      sent, for an offer to oneself. Until then it returns nothing, and never both. */
  lemma OfferHeard(f0: Fleet, s: seq<Act>, p: PeerId, c: Command, more: seq<Act>, g: Fleet)
    requires Taken(f0, s, p, c, more, g) && c.MakeTradeOffer?
    ensures forall o :: CallerTold(g, p, c.ticket, o) ==> o == Status(true) || o == Status(false)
    ensures c.peer == p ==>
              && CallerTold(g, p, c.ticket, Status(false)) && !CallerTold(g, p, c.ticket, Status(true))
              && forall e | e in Acted(End(f0, s), At(p, TakeCommand)).nodes[p].todo :: !e.Send?
    ensures c.peer != p ==>
              var id := RequestId(TradeOffering, p, End(f0, s).nodes[p].loop.counters.offering);
              && (CallerTold(g, p, c.ticket, Status(true)) <==> ReplyArrival(id) in more)
              && (CallerTold(g, p, c.ticket, Status(false)) <==> FailureNotice(id) in more)
              && (CallerTold(g, p, c.ticket, Status(true)) ==> OfferReached(g, WholeRun(s, p, more), id, p, c))
  {
    hide Acted, Run, End, CallerTold, FirstDecision;
    TakenRun(f0, s, p, c, more, g);
    if c.peer == p {
      CallersHear(f0, s, p, c, c.ticket, more, g);
      SelfSendsNothing(End(f0, s), p, c);
    } else {
      var id := RequestId(TradeOffering, p, End(f0, s).nodes[p].loop.counters.offering);
      RequestHeard(f0, s, p, c, more, g, id);
      if ReplyArrival(id) in more {
        OfferWasReached(f0, s, p, c, more, g, id);
      }
    }
  }

  /** Request `id` arrived, its offer is noted in the log and is announced to the
      recipient's main right after the reply. */
  ghost predicate OfferReached(g: Fleet, steps: seq<Act>, id: RequestId, p: PeerId, c: Command)
    requires c.MakeTradeOffer?
  {
    && Arrival(id) in steps
    && (var key := TradeKey(p, c.peer, TradeOffer(c.offeredFileName, c.requestedFileName));
        exists dup :: OfferArrived(key, dup) in g.log)
    && exists w: nat :: HasReplied(g, c.peer, w, id) && w + 1 < |DoingsOf(g, c.peer)|
                && DoingsOf(g, c.peer)[w + 1] == Emit(InboundTradeOffer(c.offeredFileName, p, c.requestedFileName))
  }

  lemma SelfSendsNothing(f: Fleet, p: PeerId, c: Command)
    requires Possible(f, At(p, TakeCommand)) && f.nodes[p].main.command == c
    requires (c.MakeTradeOffer? || c.DirectMessage?) && c.peer == f.nodes[p].loop.config.localPeer
    ensures forall e | e in Acted(f, At(p, TakeCommand)).nodes[p].todo :: !e.Send?
  {
    hide CommandEntries;
  }

  lemma OfferWasReached(f0: Fleet, s: seq<Act>, p: PeerId, c: Command, more: seq<Act>, g: Fleet, id: RequestId)
    requires Taken(f0, s, p, c, more, g) && c.MakeTradeOffer? && c.peer != p && ReplyArrival(id) in more
    requires id == RequestId(TradeOffering, p, End(f0, s).nodes[p].loop.counters.offering)
    ensures OfferReached(g, WholeRun(s, p, more), id, p, c)
  {
    hide Run, End, Acted, DoneBy, DoingsOf, Originated, AllHandled, RepliedOnce, WireUnanswered, RepliesDone;
    var payload := OfferPayload(TradeOffer(c.offeredFileName, c.requestedFileName));
    TakenRun(f0, s, p, c, more, g);
    var w := ReplyWasEarned(f0, s, p, c, more, g, id, c.peer, payload);
    var offer, dup :|
      && HasSent(g, id, c.peer, OfferPayload(offer)) && OfferArrived(TradeKey(p, c.peer, offer), dup) in g.log
      && DoingsOf(g, c.peer)[w + 1] == Emit(InboundTradeOffer(offer.offeredFileName, p, offer.requestedFileName));
    TakenDoes(f0, s, p, c, more, g, Send(id.number, c.peer, payload));
    RunLettered(f0, WholeRun(s, p, more));
    SameRequest(g, id, c.peer, payload, c.peer, OfferPayload(offer));
  }

  /** What `send_direct_message` returns: `true` if and only if the recipient's reply has
      come back, and then its main was really shown this very message before the reply;
      `false` if and only if a failure was reported, or it is a message to oneself. */
  lemma MessageHeard(f0: Fleet, s: seq<Act>, p: PeerId, c: Command, more: seq<Act>, g: Fleet)
    requires Taken(f0, s, p, c, more, g) && c.DirectMessage?
    ensures forall o :: CallerTold(g, p, c.ticket, o) ==> o == Status(true) || o == Status(false)
    ensures c.peer == p ==>
              && CallerTold(g, p, c.ticket, Status(false)) && !CallerTold(g, p, c.ticket, Status(true))
              && forall e | e in Acted(End(f0, s), At(p, TakeCommand)).nodes[p].todo :: !e.Send?
    ensures c.peer != p ==>
              var id := RequestId(DirectMessaging, p, End(f0, s).nodes[p].loop.counters.messaging);
              && (CallerTold(g, p, c.ticket, Status(true)) <==> ReplyArrival(id) in more)
              && (CallerTold(g, p, c.ticket, Status(false)) <==> FailureNotice(id) in more)
              && (CallerTold(g, p, c.ticket, Status(true)) ==>
                   exists w: nat :: w > 0 && HasReplied(g, c.peer, w, id)
                            && DoneBy(g.done, c.peer)[w - 1] == Emit(InboundDirectMessage(p, c.message)))
  {
    hide Acted, Run, End, CallerTold, FirstDecision;
    TakenRun(f0, s, p, c, more, g);
    if c.peer == p {
      CallersHear(f0, s, p, c, c.ticket, more, g);
      SelfSendsNothing(End(f0, s), p, c);
    } else {
      var id := RequestId(DirectMessaging, p, End(f0, s).nodes[p].loop.counters.messaging);
      RequestHeard(f0, s, p, c, more, g, id);
      if ReplyArrival(id) in more {
        MessageWasShown(f0, s, p, c, more, g, id);
      }
    }
  }

  lemma MessageWasShown(f0: Fleet, s: seq<Act>, p: PeerId, c: Command, more: seq<Act>, g: Fleet, id: RequestId)
    requires Taken(f0, s, p, c, more, g) && c.DirectMessage? && c.peer != p && ReplyArrival(id) in more
    requires id == RequestId(DirectMessaging, p, End(f0, s).nodes[p].loop.counters.messaging)
    ensures exists w: nat :: w > 0 && HasReplied(g, c.peer, w, id)
                     && DoneBy(g.done, c.peer)[w - 1] == Emit(InboundDirectMessage(p, c.message))
  {
    hide Run, End, Acted, DoneBy, Originated, AllHandled, RepliedOnce, WireUnanswered, RepliesDone;
    TakenRun(f0, s, p, c, more, g);
    var w := ReplyWasEarned(f0, s, p, c, more, g, id, c.peer, DirectPayload(c.message));
    var message :|
      HasSent(g, id, c.peer, DirectPayload(message)) && w > 0
      && DoingsOf(g, c.peer)[w - 1] == Emit(InboundDirectMessage(p, message));
    TakenDoes(f0, s, p, c, more, g, Send(id.number, c.peer, DirectPayload(c.message)));
    RunLettered(f0, WholeRun(s, p, more));
    SameRequest(g, id, c.peer, DirectPayload(c.message), c.peer, DirectPayload(message));
    assert DoingsOf(g, c.peer)[w - 1] == DoneBy(g.done, c.peer)[w - 1];
  }

  // ---------- registration ----------

  /** What `register_username` returns: the result of storing the record under the name,
      which is the first of its two puts, and nothing before that result. */
  lemma RegistrationHeard(f0: Fleet, s: seq<Act>, p: PeerId, c: Command, more: seq<Act>, g: Fleet)
    requires Taken(f0, s, p, c, more, g) && c.RegisterUsername?
    ensures
      var codec, k := End(f0, s).nodes[p].loop.config.codec, End(f0, s).nodes[p].loop.counters.query;
      var f1 := Acted(End(f0, s), At(p, TakeCommand));
      && f1.nodes[p].todo != [] && f1.nodes[p].todo[0] == PutRecord(k, codec.utf8(codec.lower(c.username)), p.multihash)
      && forall o :: CallerTold(g, p, c.ticket, o) <==>
           exists ok :: o == Status(ok) && FirstDecision(f1, more, p, PutQuery(k)) == Some(PutRecordFinished(k, ok))
  {
    hide Run, End, CallerTold, FirstDecision, CommandEntries;
    var f := End(f0, s);
    var k, f1 := f.nodes[p].loop.counters.query, Acted(f, At(p, TakeCommand));
    TakenRun(f0, s, p, c, more, g);
    CallersHear(f0, s, p, c, c.ticket, more, g);
    FirstDecides(f1, more, p, PutQuery(k));
    var e := FirstDecision(f1, more, p, PutQuery(k));
    forall o ensures CallerTold(g, p, c.ticket, o) <==>
      exists ok :: o == Status(ok) && e == Some(PutRecordFinished(k, ok))
    {
      if e.Some? { assert e == Some(PutRecordFinished(k, e.value.ok)); }
    }
  }

  lemma {:induction false} FirstDecides(f: Fleet, steps: seq<Act>, p: PeerId, ob: Obligation)
    requires Run(f, steps)
    ensures
      var e := FirstDecision(f, steps, p, ob);
      e.Some? ==> Decides(e.value) == Some(ob)
    decreases |steps|
  {
    hide Acted, Possible;
    if steps != [] { FirstDecides(Acted(f, steps[0]), steps[1..], p, ob); }
  }

  /** The name a loop announces for registration is the configured one; once its records
      are stored, looking that name up finds this peer, and looking this peer up finds
      the name in lower case. */
  lemma AnnouncedNameRegisters(f0: Fleet, steps: seq<Act>, p: PeerId, name: string, t: Ticket,
                               dht: Directory.Dht, users: Directory.Users)
    requires Fresh(f0) && Run(f0, steps) && p in f0.nodes
    requires Emit(RegistrationRequest(name)) in DoingsOf(End(f0, steps), p)
    requires
      var codec := f0.nodes[p].loop.config.codec;
      && codec.Lawful() && Directory.Lists(codec, dht, users)
      && Directory.Free(codec, users, f0.nodes[p].loop.config.username, p)
    ensures p in End(f0, steps).nodes
    ensures
      var codec, username := f0.nodes[p].loop.config.codec, f0.nodes[p].loop.config.username;
      var turn := CommandTurn(End(f0, steps).nodes[p].loop, RegisterUsername(name, t));
      var stored := Directory.Published(dht, turn.effects);
      && Directory.LookUpPeer(codec, stored, username) == Some(p)
      && Directory.LookUpName(codec, stored, p) == Ok(codec.lower(username))
  {
    hide Run, End, DoingsOf, MainsAsked, WireSent, AllCaused, CommandTurn, Directory.Published, Directory.Lists;
    RunOriginated(f0, steps);
    NothingFromNowhere(f0, steps, p, Emit(RegistrationRequest(name)));
    var codec, loop := f0.nodes[p].loop.config.codec, End(f0, steps).nodes[p].loop;
    Directory.RegistrationLists(loop, dht, users, name, t);
    var users', stored := users[codec.lower(name) := p],
                          Directory.Published(dht, CommandTurn(loop, RegisterUsername(name, t)).effects);
    Directory.LookUpPeerIs(codec, stored, users', name);
    Directory.LookUpNameIs(codec, stored, users', p);
    assert Directory.Named(users', p, codec.lower(name));
  }
}
