/** The notices a user sees name exactly the trades the tables hold. */
module Notices {
  import opened Protocol
  import opened Handlers
  import opened SwapNetwork
  import opened SwapMoves
  import opened NodeMachine
  import opened Fleet
  import opened FleetDeeds
  import FleetSwaps

  function Notice(es: seq<Effect>): (e: Option<Event>)
    ensures e.Some? ==> Emit(e.value) in es
  {
    if es == [] then None else if es[0].Emit? then Some(es[0].event) else Notice(es[1..])
  }

  /** An offer that arrives is announced with the very words that answer it: the
      commands that can send an answer afterwards are those that could before and
      the one made from the notice, and that one reaches the offerer. */
  lemma OfferNoticeAnswers(s: LoopState, channel: RequestId, offer: TradeOffer,
                           peer: PeerId, requested: string, offered: string,
                           given: Option<Bytes>, t: Option<Ticket>)
    ensures
      var turn := EventTurn(s, OfferRequested(channel, offer));
      var e := Notice(turn.effects);
      var answer := RespondTrade(peer, requested, offered, given, t);
      && e.Some? && e.value.InboundTradeOffer?
      && (Sends(CommandTurn(turn.next, answer).effects) <==>
           || Sends(CommandTurn(s, answer).effects)
           || (peer, requested, offered) == (e.value.peer, e.value.requestedFileName, e.value.offeredFileName))
      && ((peer, requested, offered) == (e.value.peer, e.value.requestedFileName, e.value.offeredFileName) ==>
           exists k :: CommandTurn(turn.next, answer).effects == [Send(k, channel.from,
             AnswerPayload(TradeResponse(offer.requestedFileName, offer.offeredFileName, given)))])
  {
  }

  /** An answer that arrives at a handler is to be announced if and only if it settles an
      offer; the notice names that offer, and will say `accepted` exactly when the
      handler goes on to write the requested file and release the bytes. */
  lemma AnswerNoticeTruthful(s: LoopState, channel: RequestId, response: TradeResponse)
    ensures
      var turn := EventTurn(s, AnswerRequested(channel, response));
      var e := Notice(turn.effects);
      if e.None? then turn == Turn(s, [])
      else
        && e.value.InboundTradeResponse?
        && (var slot := (e.value.peer, TradeOffer(e.value.offeredFileName, e.value.requestedFileName));
            && slot in s.offers.outgoing
            && turn.next.offers.outgoing == s.offers.outgoing - {slot}
            && (e.value.wasAccepted <==> Writes(turn.effects) != [])
            && (e.value.wasAccepted <==> Released(turn.effects) == Some(s.offers.outgoing[slot].0)))
  {
    var es := EventTurn(s, AnswerRequested(channel, response)).effects;
    if es != [] {
      ReadTwo(if response.requestedFileBytes.Some? then es[1..] else es);
    }
  }

  // ---------- when main is told ----------

  predicate Herald(e: Effect) { e.Emit? && e.event.InboundTradeResponse? }

  /** Handler `es` of peer `p` is about to tell main that entry `e` has settled, and has
      then to write the file and release the bytes, or to refuse them, and no more. */
  predicate AboutToTell(e: Entry, p: PeerId, es: seq<Effect>) {
    && es != [] && Herald(es[0]) && e.Settled?
    && (var event := es[0].event;
        && e.key == TradeKey(p, event.peer, TradeOffer(event.offeredFileName, event.requestedFileName))
        && (event.wasAccepted <==> e.given.Some?)
        && var reply := Respond(e.id, BytesReply(TradeResponseResponse(
             event.offeredFileName, event.requestedFileName, e.released)));
           if event.wasAccepted
           then |e.written| == 1 && e.released.Some? && e.written[0].bytes == e.given.value
                && es[1..] == [WriteFile(e.id, e.written[0].path, e.written[0].bytes), reply]
           else e.written == [] && e.released.None? && es[1..] == [reply])
  }

  ghost predicate Heralded(log: seq<Entry>, p: PeerId, es: seq<Effect>) {
    && (forall i | 1 <= i < |es| :: !Herald(es[i]))
    && (es != [] && Herald(es[0]) ==> exists e :: e in log && AboutToTell(e, p, es))
  }

  lemma AnswerHeralds(s: LoopState, p: PeerId, id: RequestId, payload: Payload, log: seq<Entry>)
    ensures
      var es := EventTurn(s, ArrivalEvent(id, payload)).effects;
      Heralded(log + ArrivalEntries(s, p, id, payload, es), p, es)
  {
    var es := EventTurn(s, ArrivalEvent(id, payload)).effects;
    var entries := ArrivalEntries(s, p, id, payload, es);
    if payload.AnswerPayload? && es != [] {
      ReadTwo(if payload.response.requestedFileBytes.Some? then es[1..] else es);
      assert Writes(es) == [] + Writes(es[1..]);
      assert AboutToTell(entries[0], p, es);
      assert entries[0] in log + entries;
    }
  }

  lemma CommandsDoNot(s: LoopState, c: Command, log: seq<Entry>, p: PeerId)
    ensures Heralded(log, p, CommandTurn(s, c).effects)
  {
  }

  lemma OtherEventsDoNot(s: LoopState, e: SwarmEvent, log: seq<Entry>, p: PeerId)
    requires !e.AnswerRequested?
    ensures Heralded(log, p, EventTurn(s, e).effects)
  {
  }

  lemma StillHeralded(log: seq<Entry>, log': seq<Entry>, p: PeerId, es: seq<Effect>)
    requires Heralded(log, p, es) && log <= log'
    ensures Heralded(log', p, es) && (es != [] ==> Heralded(log', p, es[1..]))
  {
    if es != [] && Herald(es[0]) {
      var e :| e in log && AboutToTell(e, p, es);
      assert e in log';
    }
  }

  lemma ArrivalHeralds(f: Fleet, id: RequestId)
    requires Possible(f, Arrival(id))
    ensures Heralded(Acted(f, Arrival(id)).log, f.wire[id].to, TodoOf(Acted(f, Arrival(id)), f.wire[id].to))
  {
    hide Heralded, EventTurn, ArrivalEntries;
    AnswerHeralds(f.nodes[f.wire[id].to].loop, f.wire[id].to, id, f.wire[id].payload, f.log);
  }

  /** An own step of a node does a command, an event that heralds nothing, or the next
      effect, or leaves the handler as it is. */
  lemma NodeHeralds(n: Node, s: NodeMachine.Step, log: seq<Entry>, p: PeerId)
    requires NodeMachine.Enabled(n, s) && Heralded(log, p, n.todo) && (s.SwarmReport? ==> !s.event.AnswerRequested?)
    ensures Heralded(log, p, NodeMachine.Next(n, s).todo)
  {
    hide Heralded, CommandTurn, EventTurn;
    match s
    case TakeCommand => CommandsDoNot(n.loop, n.main.command, log, p);
    case SwarmReport(e) => OtherEventsDoNot(n.loop, e, log, p);
    case _ => if n.todo != [] { StillHeralded(log, log, p, n.todo); }
  }

  lemma ActHeralds(f: Fleet, st: Act, p: PeerId)
    requires Possible(f, st) && Heralded(f.log, p, TodoOf(f, p))
    ensures Heralded(Acted(f, st).log, p, TodoOf(Acted(f, st), p))
  {
    hide Heralded, NodeMachine.Enabled, NodeMachine.Next, Acted;
    var g, s := Acted(f, st), NodeStep(f, st);
    FleetSwaps.ActAdds(f, st);
    StillHeralded(f.log, g.log, p, TodoOf(f, p));
    NodesAfter(f, st);
    if s.Some? && s.value.0 == p {
      if st.Arrival? {
        ArrivalHeralds(f, st.id);
      } else {
        NodeHeralds(f.nodes[p], s.value.1, g.log, p);
      }
    }
  }

  lemma {:induction false} RunHeralds(f: Fleet, steps: seq<Act>, p: PeerId)
    requires Run(f, steps) && Heralded(f.log, p, TodoOf(f, p))
    ensures Heralded(End(f, steps).log, p, TodoOf(End(f, steps), p))
    decreases |steps|
  {
    hide Heralded, Acted, Possible, TodoOf;
    if steps != [] {
      ActHeralds(f, steps[0], p);
      RunHeralds(Acted(f, steps[0]), steps[1..], p);
    }
  }

  /** In every run: when main of an offerer is told that an offer was answered, the log
      has that very settlement, and all its handler has still to do is, if the notice
      says accepted, to write the given file and then release the bytes, or else to
      refuse them. Neither waits for anyone any more. */
  lemma NoticeComesFirst(f: Fleet, steps: seq<Act>, p: PeerId)
    requires Fresh(f) && Run(f, steps)
    requires TodoOf(End(f, steps), p) != [] && Herald(TodoOf(End(f, steps), p)[0])
    ensures exists e :: e in End(f, steps).log && AboutToTell(e, p, TodoOf(End(f, steps), p))
  {
    hide Acted, Possible, Run, End;
    assert TodoOf(f, p) == [];
    RunHeralds(f, steps, p);
  }
}
