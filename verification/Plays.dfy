/** How one call or one arrival plays out in a fleet, from any state in which the peers
    concerned are ready for it: which steps are taken, what main does meanwhile, and
    what is different afterwards. */
module Plays {
  import opened Protocol
  import opened Handlers
  import opened SwapNetwork
  import opened SwapMoves
  import opened SwapAccounting
  import opened ClientTask
  import opened NodeMachine
  import opened Fleet
  import opened FleetProjection
  import opened FleetDeeds
  import opened FleetSwaps

  // ---------- what main does ----------

  /** Main issues a command, takes an event, or goes back to its select. */
  datatype MainAct = Issued(command: Command) | Took | Back

  function ActOf(st: Act, p: PeerId): Option<MainAct> {
    if st.At? && st.peer == p then
      match st.step
      case Issue(c) => Some(Issued(c))
      case TakeEvent => Some(Took)
      case Return => Some(Back)
      case _ => None
    else None
  }

  /** Everything main of peer `p` does in a run, in order. */
  function MainTrace(steps: seq<Act>, p: PeerId): seq<MainAct> {
    if steps == [] then []
    else
      var before, act := MainTrace(steps[..|steps| - 1], p), ActOf(steps[|steps| - 1], p);
      if act.Some? then before + [act.value] else before
  }

  function Issues(cs: seq<Command>): seq<MainAct> {
    if cs == [] then [] else [Issued(cs[0])] + Issues(cs[1..])
  }

  /** A notice from `peer`: its username is looked up unless the cache has it, and shown. */
  function NoticeActs(cache: Cache, peer: PeerId, t: Ticket): seq<MainAct> {
    [Took] + Issues(NameQuery(cache, peer, t)) + [Back]
  }

  /** A line that names a user: the user is looked up unless the cache has it, and then
      `c` is issued. */
  function LineActs(cache: Cache, name: string, t: Ticket, c: Command): seq<MainAct> {
    Issues(PeerQuery(cache, name, t)) + [Issued(c)]
  }

  /** From `s` to `s'` the main of peer `p` does `acts`, and no other main does anything. */
  ghost predicate MainDid(s: seq<Act>, s': seq<Act>, p: PeerId, acts: seq<MainAct>) {
    forall q :: MainTrace(s', q) == if q == p then MainTrace(s, q) + acts else MainTrace(s, q)
  }

  lemma Then(s: seq<Act>, s1: seq<Act>, s2: seq<Act>, p: PeerId, x: seq<MainAct>, y: seq<MainAct>)
    requires MainDid(s, s1, p, x) && MainDid(s1, s2, p, y)
    ensures MainDid(s, s2, p, x + y)
  {
    hide MainTrace;
    Regroup(MainTrace(s, p), x, y);
  }

  lemma Regroup<T>(a: seq<T>, b: seq<T>, c: seq<T>)
    ensures a + b + c == a + (b + c)
  {
  }

  // ---------- runs ----------

  ghost predicate Reached(f0: Fleet, steps: seq<Act>, f: Fleet) { Fresh(f0) && Run(f0, steps) && f == End(f0, steps) }

  lemma {:induction false} RunExtends(f: Fleet, steps: seq<Act>, st: Act)
    requires Run(f, steps) && Possible(End(f, steps), st)
    ensures Run(f, steps + [st]) && End(f, steps + [st]) == Acted(End(f, steps), st)
    decreases |steps|
  {
    hide Possible, Acted;
    if steps == [] {
      assert ([] + [st])[1..] == [];
    } else {
      assert (steps + [st])[1..] == steps[1..] + [st];
      RunExtends(Acted(f, steps[0]), steps[1..], st);
    }
  }

  lemma Go(f0: Fleet, s: seq<Act>, f: Fleet, st: Act) returns (s': seq<Act>, f': Fleet)
    requires Reached(f0, s, f) && Possible(f, st)
    ensures Reached(f0, s', f') && f' == Acted(f, st)
    ensures forall q :: MainTrace(s', q) ==
              if ActOf(st, q).Some? then MainTrace(s, q) + [ActOf(st, q).value] else MainTrace(s, q)
  {
    RunExtends(f0, s, st);
    s', f' := s + [st], Acted(f, st);
    assert s'[..|s'| - 1] == s;
  }

  /** What every reached state has: a loop knows its own peer, parks nothing while main
      waits for nothing, and its next request names are new. */
  lemma Facts(f0: Fleet, s: seq<Act>, f: Fleet, p: PeerId)
    requires Reached(f0, s, f) && p in f.nodes
    ensures
      var n := f.nodes[p];
      && n.loop.config.localPeer == p
      && (n.main.Awaiting? || n.loop.pending == NOTHING_PENDING)
      && (forall b :: RequestId(b, p, Number(n.loop.counters, b)) !in f.wire)
      && (forall b :: RequestId(b, p, Number(n.loop.counters, b)) !in f.replies)
  {
    hide Run, Acted, SwapCorrespondence.Traced, SwapCorrespondence.HeardGone, Balanced, OpenOk, WaitingOk;
    var n := FleetTraced(f0, s);
    var ns := Projects(f0, s);
  }

  /** Peer `p` is `m` now; the other peers are as they were. */
  ghost predicate OnlyNode(f: Fleet, f': Fleet, p: PeerId, m: Node) {
    p in f.nodes && f'.nodes == f.nodes[p := m] && f.done <= f'.done
  }

  predicate Rests(n: Node) { n.main.AtSelect? && n.todo == [] }

  /** Main is between two calls, or about to make its first. */
  predicate Able(n: Node) { n.todo == [] && (n.main.AtSelect? || n.main.Running?) }

  predicate MayIssue(n: Node, c: Command) {
    && Able(n) && !c.RegisterUsername? && ClientShaped(c)
    && (TicketOf(c).Some? ==> TicketOf(c).value == n.nextTicket)
  }

  /** Where a call leaves main. */
  function Called(n: Node, c: Command): MainTask {
    if TicketOf(c).Some? then Awaiting(Registering(n.main), TicketOf(c).value) else Running(Registering(n.main))
  }

  /** Peer `p` issues a command that starts one request or query, up to its departure. */
  lemma Calls(f0: Fleet, s: seq<Act>, f: Fleet, p: PeerId, c: Command, e: Effect)
    returns (s': seq<Act>, f': Fleet, m: Node)
    requires Reached(f0, s, f) && p in f.nodes && MayIssue(f.nodes[p], c)
    requires CommandTurn(f.nodes[p].loop, c).effects == [e] && (e.Send? || e.GetRecord?)
    ensures Reached(f0, s', f') && OnlyNode(f, f', p, m) && MainDid(s, s', p, [Issued(c)])
    ensures m.loop == CommandTurn(f.nodes[p].loop, c).next && m.todo == [] && m.main == Called(f.nodes[p], c)
    ensures m.nextTicket == f.nodes[p].nextTicket + if TicketOf(c).Some? then 1 else 0
    ensures m.swarm == PerformSwarm(f.nodes[p].swarm, e)
    ensures f'.wire ==
              if e.Send? then f.wire[RequestId(BehaviourOf(e.payload), p, e.number) := Envelope(e.to, e.payload)]
              else f.wire
    ensures f'.replies == f.replies && f'.log == f.log + CommandEntries(f.nodes[p].loop, p, c, [e])
  {
    hide Reached, CommandTurn, CommandEntries, MainTrace;
    s', f' := Go(f0, s, f, At(p, Issue(c)));
    s', f' := Go(f0, s', f', At(p, TakeCommand));
    s', f' := Go(f0, s', f', At(p, Work));
    m := f'.nodes[p];
  }

  /** A reply comes back to the call that waits for it, which returns. */
  lemma CallReturns(f0: Fleet, s: seq<Act>, f: Fleet, p: PeerId, id: RequestId, t: Ticket, outcome: Outcome)
    returns (s': seq<Act>, f': Fleet, m: Node)
    requires Reached(f0, s, f) && p in f.nodes && id in f.replies && id.from == p
    requires
      var n, e := f.nodes[p], ReplyEvent(id, f.replies[id]);
      && n.todo == [] && n.main.Awaiting? && n.main.ticket == t
      && Request(id.behaviour, id.number) in n.swarm.open
      && EventTurn(n.loop, e).effects == [Resolve(t, outcome)]
    ensures Reached(f0, s', f') && OnlyNode(f, f', p, m) && MainDid(s, s', p, [Back])
    ensures m.loop == EventTurn(f.nodes[p].loop, ReplyEvent(id, f.replies[id])).next
    ensures Rests(m) && m.nextTicket == f.nodes[p].nextTicket
    ensures f'.wire == f.wire && f'.replies == f.replies - {id}
    ensures f'.log == f.log + ToldEntries(id, [Resolve(t, outcome)])
    ensures Deed(p, Resolve(t, outcome)) in f'.done
  {
    hide Reached, EventTurn, ToldEntries, MainTrace;
    s', f' := Go(f0, s, f, ReplyArrival(id));
    s', f' := Go(f0, s', f', At(p, Work));
    s', f' := Go(f0, s', f', At(p, Return));
    m := f'.nodes[p];
  }

  // ---------- lookups ----------

  /** Nothing that concerns trades differs. */
  ghost predicate SameTrades(s: LoopState, t: LoopState) {
    && t.config == s.config && t.offers == s.offers
    && t.counters.offering == s.counters.offering && t.counters.answering == s.counters.answering
  }

  predicate IsQuery(c: Command) { c.FindPeerId? || c.FindPeerUsername? }

  function QueryOutcome(codec: Codec, c: Command, progress: GetProgress): Outcome
    requires IsQuery(c)
  {
    if c.FindPeerId? then PeerAnswer(PeerRead(codec, progress)) else NameAnswer(NameRead(codec, progress))
  }

  lemma QueryTurns(s: LoopState, p: PeerId, c: Command, progress: GetProgress)
    requires IsQuery(c) && !progress.OtherProgress? && s.pending == NOTHING_PENDING
    ensures
      var q, asked := s.counters.query, CommandTurn(s, c);
      var told := EventTurn(asked.next, GetRecordProgressed(q, progress));
      && (exists key :: asked.effects == [GetRecord(q, key)]) && CommandEntries(s, p, c, asked.effects) == []
      && told.effects == [Resolve(c.ticket, QueryOutcome(s.config.codec, c, progress))]
      && SameTrades(s, told.next)
  {
  }

  lemma QueryReturns(f0: Fleet, s: seq<Act>, f: Fleet, p: PeerId, e: SwarmEvent, t: Ticket, outcome: Outcome)
    returns (s': seq<Act>, f': Fleet, m: Node)
    requires Reached(f0, s, f) && p in f.nodes && e.GetRecordProgressed? && !e.progress.OtherProgress?
    requires
      var n := f.nodes[p];
      && n.todo == [] && n.main.Awaiting? && n.main.ticket == t && GetQuery(e.query) in n.swarm.open
      && EventTurn(n.loop, e).effects == [Resolve(t, outcome)]
    ensures Reached(f0, s', f') && OnlyNode(f, f', p, m) && MainDid(s, s', p, [])
    ensures m.loop == EventTurn(f.nodes[p].loop, e).next && m.todo == []
    ensures m.main == Running(f.nodes[p].main.registering) && m.nextTicket == f.nodes[p].nextTicket
    ensures f'.wire == f.wire && f'.replies == f.replies && f'.log == f.log
    ensures Deed(p, Resolve(t, outcome)) in f'.done
  {
    hide Reached, EventTurn, MainTrace;
    s', f' := Go(f0, s, f, At(p, SwarmReport(e)));
    s', f' := Go(f0, s', f', At(p, Work));
    m := f'.nodes[p];
  }

  /** Peer `p` makes the lookup `asked`, if any, and its query ends with `progress`. */
  lemma LooksUp(f0: Fleet, s: seq<Act>, f: Fleet, p: PeerId, asked: seq<Command>, progress: GetProgress)
    returns (s': seq<Act>, f': Fleet, m: Node)
    requires Reached(f0, s, f) && p in f.nodes && Able(f.nodes[p]) && !progress.OtherProgress?
    requires asked == [] || (|asked| == 1 && IsQuery(asked[0]) && asked[0].ticket == f.nodes[p].nextTicket)
    ensures Reached(f0, s', f') && OnlyNode(f, f', p, m) && MainDid(s, s', p, Issues(asked))
    ensures SameTrades(f.nodes[p].loop, m.loop) && m.nextTicket == f.nodes[p].nextTicket + |asked|
    ensures Able(m) && (asked == [] ==> m == f.nodes[p])
    ensures asked != [] ==> m.main == Running(Registering(f.nodes[p].main))
    ensures f'.wire == f.wire && f'.replies == f.replies && f'.log == f.log
    ensures asked != [] ==>
              var outcome := QueryOutcome(f.nodes[p].loop.config.codec, asked[0], progress);
              Deed(p, Resolve(asked[0].ticket, outcome)) in f'.done
  {
    hide Reached, CommandTurn, EventTurn, CommandEntries, MainTrace, QueryOutcome;
    if asked == [] {
      s', f', m := s, f, f.nodes[p];
      assert f.nodes[p := m] == f.nodes;
      NoActs(s, p);
    } else {
      var n, c := f.nodes[p], asked[0];
      Facts(f0, s, f, p);
      QueryTurns(n.loop, p, c, progress);
      var key :| CommandTurn(n.loop, c).effects == [GetRecord(n.loop.counters.query, key)];
      var f1;
      s', f1, m := Calls(f0, s, f, p, c, GetRecord(n.loop.counters.query, key));
      assert f1.log == f.log;
      s', f', m := QueryReturns(f0, s', f1, p, GetRecordProgressed(n.loop.counters.query, progress), c.ticket,
                                QueryOutcome(n.loop.config.codec, c, progress));
      assert Issues(asked) == [Issued(c)] by { OneIssue(c); assert asked == [c]; }
    }
  }

  lemma NoActs(s: seq<Act>, p: PeerId)
    ensures MainDid(s, s, p, [])
  {
    forall q ensures MainTrace(s, q) + [] == MainTrace(s, q) { }
  }

  lemma OneIssue(c: Command)
    ensures Issues([c]) == [Issued(c)]
  {
    assert [c][1..] == [];
  }

  /** Main, having taken a notice from `peer`, looks its username up if need be, shows
      the notice and goes back. */
  lemma Shows(f0: Fleet, s: seq<Act>, f: Fleet, p: PeerId, cache: Cache, peer: PeerId, progress: GetProgress)
    returns (s': seq<Act>, f': Fleet, m: Node)
    requires Reached(f0, s, f) && p in f.nodes && f.nodes[p].todo == [] && f.nodes[p].main.Running?
    requires !progress.OtherProgress?
    ensures
      var asked := NameQuery(cache, peer, f.nodes[p].nextTicket);
      && Reached(f0, s', f') && OnlyNode(f, f', p, m) && MainDid(s, s', p, Issues(asked) + [Back])
      && SameTrades(f.nodes[p].loop, m.loop) && m.nextTicket == f.nodes[p].nextTicket + |asked| && Rests(m)
      && f'.wire == f.wire && f'.replies == f.replies && f'.log == f.log
  {
    hide Reached, MainTrace, MainDid;
    var asked, f1 := NameQuery(cache, peer, f.nodes[p].nextTicket), f;
    var s1;
    s1, f1, m := LooksUp(f0, s, f, p, asked, progress);
    s', f' := Go(f0, s1, f1, At(p, Return));
    m := f'.nodes[p];
    GoesBack(s1, s', p);
    Then(s, s1, s', p, Issues(asked), [Back]);
  }

  lemma GoesBack(s: seq<Act>, s': seq<Act>, p: PeerId)
    requires forall q :: MainTrace(s', q) ==
              if ActOf(At(p, Return), q).Some? then MainTrace(s, q) + [ActOf(At(p, Return), q).value]
              else MainTrace(s, q)
    ensures MainDid(s, s', p, [Back])
  {
  }

  // ---------- arrivals ----------

  lemma NoticeTaken(s: seq<Act>, s1: seq<Act>, s2: seq<Act>, p: PeerId, cache: Cache, peer: PeerId, t: Ticket)
    requires MainDid(s, s1, p, [Took]) && MainDid(s1, s2, p, Issues(NameQuery(cache, peer, t)) + [Back])
    ensures MainDid(s, s2, p, NoticeActs(cache, peer, t))
  {
    Then(s, s1, s2, p, [Took], Issues(NameQuery(cache, peer, t)) + [Back]);
    var asked := Issues(NameQuery(cache, peer, t));
    assert [Took] + (asked + [Back]) == [Took] + asked + [Back];
  }

  /** An offer is acknowledged and main takes its notice. */
  lemma OfferTaken(f0: Fleet, s: seq<Act>, f: Fleet, b: PeerId, id: RequestId, offer: TradeOffer)
    returns (s': seq<Act>, f': Fleet, m: Node)
    requires Reached(f0, s, f) && id in f.wire && f.wire[id] == Envelope(b, OfferPayload(offer))
    requires b in f.nodes && Rests(f.nodes[b])
    ensures Reached(f0, s', f') && OnlyNode(f, f', b, m) && MainDid(s, s', b, [Took])
    ensures m == f.nodes[b].(loop := OfferRequestedTurn(f.nodes[b].loop, id, offer).next, main := Running(false))
    ensures f'.wire == f.wire - {id} && f'.replies == f.replies[id := NoResponse]
    ensures f'.log == f.log + [OfferArrived(TradeKey(id.from, b, offer),
                                            (id.from, offer) in f.nodes[b].loop.offers.inbound)]
  {
    hide Reached, MainTrace;
    s', f' := Go(f0, s, f, Arrival(id));
    s', f' := Go(f0, s', f', At(b, Work));
    s', f' := Go(f0, s', f', At(b, TakeEvent));
    m := f'.nodes[b];
    assert m.past == f.nodes[b].past;
  }

  /** An offer arrives: acknowledged, announced and shown. */
  lemma OfferArrives(f0: Fleet, s: seq<Act>, f: Fleet, b: PeerId, id: RequestId, offer: TradeOffer,
                     cache: Cache, progress: GetProgress)
    returns (s': seq<Act>, f': Fleet, m: Node)
    requires Reached(f0, s, f) && id in f.wire && f.wire[id] == Envelope(b, OfferPayload(offer))
    requires b in f.nodes && Rests(f.nodes[b]) && !progress.OtherProgress?
    ensures Reached(f0, s', f') && OnlyNode(f, f', b, m)
    ensures MainDid(s, s', b, NoticeActs(cache, id.from, f.nodes[b].nextTicket))
    ensures Rests(m) && m.nextTicket == f.nodes[b].nextTicket + |NameQuery(cache, id.from, f.nodes[b].nextTicket)|
    ensures SameTrades(OfferRequestedTurn(f.nodes[b].loop, id, offer).next, m.loop)
    ensures f'.wire == f.wire - {id} && f'.replies == f.replies[id := NoResponse]
    ensures f'.log == f.log + [OfferArrived(TradeKey(id.from, b, offer),
                                            (id.from, offer) in f.nodes[b].loop.offers.inbound)]
  {
    hide Reached, MainTrace, MainDid, OfferRequestedTurn;
    var t, s1, f1 := f.nodes[b].nextTicket, s, f;
    s1, f1, m := OfferTaken(f0, s, f, b, id, offer);
    s', f', m := Shows(f0, s1, f1, b, cache, id.from, progress);
    NoticeTaken(s, s1, s', b, cache, id.from, t);
  }

  /** The entry an accept makes when it settles. */
  function Swap(key: TradeKey, id: RequestId, given: Bytes, path: Path, bytes: Bytes): Entry {
    Settled(key, id, Some(given), [FileWrite(path, given)], Some(bytes))
  }

  lemma AcceptTurn(s: LoopState, a: PeerId, id: RequestId, key: TradeKey, given: Bytes)
    requires key.offerer == a && key.recipient == id.from && (key.recipient, key.offer) in s.offers.outgoing
    ensures
      var (bytes, path) := s.offers.outgoing[(key.recipient, key.offer)];
      var response := Response(key, Some(given));
      var es := AnswerRequestedTurn(s, id, response).effects;
      && |es| == 3 && es[0].Emit? && es[0].event.InboundTradeResponse? && es[1] == WriteFile(id, path, given)
      && es[2] == Respond(id, BytesReply(TradeResponseResponse(
           key.offer.offeredFileName, key.offer.requestedFileName, Some(bytes))))
      && ArrivalEntries(s, a, id, AnswerPayload(response), es) == [Swap(key, id, given, path, bytes)]
  {
    var es := AnswerRequestedTurn(s, id, Response(key, Some(given))).effects;
    assert es == [es[0], es[1], es[2]];
    FileDeals(es[0], es[1], es[2]);
    assert es[1..] == [es[1], es[2]];
    ReadTwo([es[1], es[2]]);
    assert Writes(es) == [] + Writes([es[1], es[2]]);
    assert Writes(es) == [FileWrite(es[1].path, es[1].bytes)];
  }

  lemma DeclineTurn(s: LoopState, a: PeerId, id: RequestId, key: TradeKey)
    requires key.offerer == a && key.recipient == id.from && (key.recipient, key.offer) in s.offers.outgoing
    ensures
      var es := AnswerRequestedTurn(s, id, Response(key, None)).effects;
      && |es| == 2 && es[0].Emit? && es[0].event.InboundTradeResponse?
      && es[1] == Respond(id, BytesReply(TradeResponseResponse(
           key.offer.offeredFileName, key.offer.requestedFileName, None)))
      && ArrivalEntries(s, a, id, AnswerPayload(Response(key, None)), es) == [Settled(key, id, None, [], None)]
  {
    ReadTwo(AnswerRequestedTurn(s, id, Response(key, None)).effects);
  }

  /** Main takes the notice of a settlement, whose handler then does its last effects. */
  lemma AnswerTaken(f0: Fleet, s: seq<Act>, f: Fleet, id: RequestId, response: TradeResponse)
    returns (s': seq<Act>, f': Fleet)
    requires Reached(f0, s, f) && id in f.wire && f.wire[id].payload == AnswerPayload(response)
    requires f.wire[id].to in f.nodes && Rests(f.nodes[f.wire[id].to])
    requires
      var es := AnswerRequestedTurn(f.nodes[f.wire[id].to].loop, id, response).effects;
      es != [] && es[0].Emit? && es[0].event.InboundTradeResponse?
    ensures
      var a := f.wire[id].to;
      var turn := AnswerRequestedTurn(f.nodes[a].loop, id, response);
      && Reached(f0, s', f') && MainDid(s, s', a, [Took]) && f.done <= f'.done
      && f'.nodes == f.nodes[a := f.nodes[a].(loop := turn.next, todo := turn.effects[1..], main := Running(false))]
      && f'.wire == f.wire - {id} && f'.replies == f.replies
      && f'.log == f.log + ArrivalEntries(f.nodes[a].loop, a, id, AnswerPayload(response), turn.effects)
  {
    hide Reached, MainTrace, AnswerRequestedTurn, ArrivalEntries;
    var a := f.wire[id].to;
    s', f' := Go(f0, s, f, Arrival(id));
    s', f' := Go(f0, s', f', At(a, TakeEvent));
    assert f'.nodes[a].past == f.nodes[a].past;
    assert f'.nodes == f.nodes[a := f'.nodes[a]];
  }

  /** A handler whose last effects are a write and a reply, or a reply, does them. */
  lemma Replies(f0: Fleet, s: seq<Act>, f: Fleet, a: PeerId, file: seq<Effect>, reply: Effect)
    returns (s': seq<Act>, f': Fleet)
    requires Reached(f0, s, f) && a in f.nodes && f.nodes[a].todo == file + [reply] && reply.Respond?
    requires file == [] || (|file| == 1 && file[0].WriteFile?)
    ensures Reached(f0, s', f') && MainDid(s, s', a, []) && f.done <= f'.done
    ensures forall e | e in file :: Deed(a, e) in f'.done
    ensures f'.nodes == f.nodes[a := f.nodes[a].(todo := [])]
    ensures f'.wire == f.wire && f'.replies == f.replies[reply.channel := reply.body] && f'.log == f.log
  {
    hide Reached, MainTrace;
    s', f' := s, f;
    if file != [] {
      assert (file + [reply])[1..] == [reply];
      s', f' := Go(f0, s', f', At(a, Work));
    }
    assert f'.nodes[a] == f.nodes[a].(todo := [reply]);
    s', f' := Go(f0, s', f', At(a, Work));
    assert f'.nodes[a] == f.nodes[a].(todo := []);
    assert f'.nodes == f.nodes[a := f'.nodes[a]];
  }

  /** An answer arrives at an offerer whose main is at its select: it settles, and its
      notice is shown. */
  lemma AnswerSettles(f0: Fleet, s: seq<Act>, f: Fleet, id: RequestId, response: TradeResponse,
                      file: seq<Effect>, reply: Effect, cache: Cache, progress: GetProgress)
    returns (s': seq<Act>, f': Fleet, m: Node)
    requires Reached(f0, s, f) && id in f.wire && f.wire[id].payload == AnswerPayload(response)
    requires f.wire[id].to in f.nodes && Rests(f.nodes[f.wire[id].to]) && !progress.OtherProgress?
    requires
      var es := AnswerRequestedTurn(f.nodes[f.wire[id].to].loop, id, response).effects;
      && es != [] && es[0].Emit? && es[0].event.InboundTradeResponse? && es[1..] == file + [reply]
      && (file == [] || (|file| == 1 && file[0].WriteFile?)) && reply.Respond?
    ensures
      var a := f.wire[id].to;
      var turn, t := AnswerRequestedTurn(f.nodes[a].loop, id, response), f.nodes[a].nextTicket;
      && Reached(f0, s', f') && OnlyNode(f, f', a, m) && MainDid(s, s', a, NoticeActs(cache, id.from, t))
      && Rests(m) && m.nextTicket == t + |NameQuery(cache, id.from, t)| && SameTrades(turn.next, m.loop)
      && f'.wire == f.wire - {id} && f'.replies == f.replies[reply.channel := reply.body]
      && f'.log == f.log + ArrivalEntries(f.nodes[a].loop, a, id, AnswerPayload(response), turn.effects)
      && (forall e | e in file :: Deed(a, e) in f'.done)
  {
    hide Reached, MainTrace, MainDid, AnswerRequestedTurn, ArrivalEntries;
    var a := f.wire[id].to;
    var t := f.nodes[a].nextTicket;
    var s1, f1 := AnswerTaken(f0, s, f, id, response);
    var s2, f2 := Replies(f0, s1, f1, a, file, reply);
    s', f', m := Shows(f0, s2, f2, a, cache, id.from, progress);
    Then(s1, s2, s', a, [], Issues(NameQuery(cache, id.from, t)) + [Back]);
    assert [] + (Issues(NameQuery(cache, id.from, t)) + [Back]) == Issues(NameQuery(cache, id.from, t)) + [Back];
    NoticeTaken(s, s1, s', a, cache, id.from, t);
    assert f'.nodes == f.nodes[a := m];
  }

  lemma AcceptSettles(f0: Fleet, s: seq<Act>, f: Fleet, key: TradeKey, id: RequestId, given: Bytes,
                      cache: Cache, progress: GetProgress)
    returns (s': seq<Act>, f': Fleet, m: Node)
    requires Reached(f0, s, f) && id in f.wire && id.from == key.recipient && key.offerer in f.nodes
    requires f.wire[id] == Envelope(key.offerer, AnswerPayload(Response(key, Some(given)))) && !progress.OtherProgress?
    requires Rests(f.nodes[key.offerer]) && (key.recipient, key.offer) in f.nodes[key.offerer].loop.offers.outgoing
    ensures Reached(f0, s', f') && OnlyNode(f, f', key.offerer, m) && Rests(m)
    ensures MainDid(s, s', key.offerer, NoticeActs(cache, key.recipient, f.nodes[key.offerer].nextTicket))
    ensures
      var (bytes, path) := f.nodes[key.offerer].loop.offers.outgoing[(key.recipient, key.offer)];
      && f'.wire == f.wire - {id}
      && f'.replies == f.replies[id := BytesReply(TradeResponseResponse(
           key.offer.offeredFileName, key.offer.requestedFileName, Some(bytes)))]
      && f'.log == f.log + [Swap(key, id, given, path, bytes)]
      && Deed(key.offerer, WriteFile(id, path, given)) in f'.done
  {
    hide Reached, MainDid, AnswerRequestedTurn, ArrivalEntries, NoticeActs, SameTrades;
    var a, response := key.offerer, Response(key, Some(given));
    AcceptTurn(f.nodes[a].loop, a, id, key, given);
    var es := AnswerRequestedTurn(f.nodes[a].loop, id, response).effects;
    assert es[1..] == [es[1]] + [es[2]] && es[1] in [es[1]];
    s', f', m := AnswerSettles(f0, s, f, id, response, [es[1]], es[2], cache, progress);
  }

  lemma DeclineSettles(f0: Fleet, s: seq<Act>, f: Fleet, key: TradeKey, id: RequestId,
                       cache: Cache, progress: GetProgress)
    returns (s': seq<Act>, f': Fleet, m: Node)
    requires Reached(f0, s, f) && id in f.wire && id.from == key.recipient && key.offerer in f.nodes
    requires f.wire[id] == Envelope(key.offerer, AnswerPayload(Response(key, None))) && !progress.OtherProgress?
    requires Rests(f.nodes[key.offerer]) && (key.recipient, key.offer) in f.nodes[key.offerer].loop.offers.outgoing
    ensures Reached(f0, s', f') && OnlyNode(f, f', key.offerer, m) && Rests(m)
    ensures MainDid(s, s', key.offerer, NoticeActs(cache, key.recipient, f.nodes[key.offerer].nextTicket))
    ensures (key.recipient, key.offer) !in m.loop.offers.outgoing
    ensures f'.wire == f.wire - {id} && f'.log == f.log + [Settled(key, id, None, [], None)]
  {
    hide Reached, MainDid, ArrivalEntries, NoticeActs;
    var a, response := key.offerer, Response(key, None);
    DeclineTurn(f.nodes[a].loop, a, id, key);
    var es := AnswerRequestedTurn(f.nodes[a].loop, id, response).effects;
    assert es[1..] == [] + [es[1]];
    s', f', m := AnswerSettles(f0, s, f, id, response, [], es[1], cache, progress);
  }

  /** An accept arrives at an offerer whose main is inside a call. */
  lemma AcceptBlocks(f0: Fleet, s: seq<Act>, f: Fleet, key: TradeKey, id: RequestId, given: Bytes)
    returns (s': seq<Act>, f': Fleet)
    requires Reached(f0, s, f) && id in f.wire && id.from == key.recipient && key.offerer in f.nodes
    requires f.wire[id] == Envelope(key.offerer, AnswerPayload(Response(key, Some(given))))
    requires f.nodes[key.offerer].todo == [] && f.nodes[key.offerer].main.Awaiting?
    requires (key.recipient, key.offer) in f.nodes[key.offerer].loop.offers.outgoing
    ensures Reached(f0, s', f') && f'.done == f.done && f'.nodes.Keys == f.nodes.Keys
    ensures forall q :: MainTrace(s', q) == MainTrace(s, q)
    ensures CyclicWait(f'.nodes[key.offerer])
    ensures
      var (bytes, path) := f.nodes[key.offerer].loop.offers.outgoing[(key.recipient, key.offer)];
      f'.log == f.log + [Swap(key, id, given, path, bytes)]
  {
    hide Reached, MainTrace, AnswerRequestedTurn, ArrivalEntries;
    AcceptTurn(f.nodes[key.offerer].loop, key.offerer, id, key, given);
    s', f' := Go(f0, s, f, Arrival(id));
  }

  /** An answer that finds no offer changes nothing but the log. */
  lemma AnswerOrphaned(f0: Fleet, s: seq<Act>, f: Fleet, key: TradeKey, id: RequestId, given: Option<Bytes>)
    returns (s': seq<Act>, f': Fleet)
    requires Reached(f0, s, f) && id in f.wire && id.from == key.recipient && key.offerer in f.nodes
    requires f.wire[id] == Envelope(key.offerer, AnswerPayload(Response(key, given))) && Rests(f.nodes[key.offerer])
    requires (key.recipient, key.offer) !in f.nodes[key.offerer].loop.offers.outgoing
    ensures Reached(f0, s', f') && f'.log == f.log + [Orphaned(key, id)]
    ensures forall q :: MainTrace(s', q) == MainTrace(s, q)
  {
    hide Reached, MainTrace;
    s', f' := Go(f0, s, f, Arrival(id));
  }

  // ---------- lines ----------

  function OfferCommand(key: TradeKey, bytes: Bytes, path: Path, t: Ticket): Command {
    MakeTradeOffer(key.offer.offeredFileName, bytes, key.recipient, key.offer.requestedFileName, path, t)
  }

  function AcceptCommand(key: TradeKey, given: Bytes, t: Ticket): Command {
    RespondTrade(key.offerer, key.offer.requestedFileName, key.offer.offeredFileName, Some(given), Some(t))
  }

  function DeclineCommand(key: TradeKey): Command {
    RespondTrade(key.offerer, key.offer.requestedFileName, key.offer.offeredFileName, None, None)
  }

  function AnswerCommand(key: TradeKey, given: Option<Bytes>, t: Ticket): Command {
    if given.Some? then AcceptCommand(key, given.value, t) else DeclineCommand(key)
  }

  /** Looking `name` up, in the cache or else in the DHT, finds `peer`. */
  predicate Finds(cache: Cache, codec: Codec, name: string, peer: PeerId) {
    PeerFor(cache, name, Some(peer)) == Some(peer) && codec.IsPeer(peer)
  }

  /** The ticket of the command that a line naming `name` issues. */
  function TicketAfter(cache: Cache, name: string, t: Ticket): Ticket { t + |PeerQuery(cache, name, t)| }

  lemma OfferTurns(s: LoopState, key: TradeKey, bytes: Bytes, path: Path, t: Ticket)
    requires s.config.localPeer == key.offerer && key.offerer != key.recipient
    ensures
      var c, k := OfferCommand(key, bytes, path, t), s.counters.offering;
      var turn := CommandTurn(s, c);
      var told := EventTurn(turn.next, OfferAcknowledged(k));
      var filed := s.offers.(outgoing := s.offers.outgoing[(key.recipient, key.offer) := (bytes, path)]);
      && turn.effects == [Send(k, key.recipient, OfferPayload(key.offer))]
      && CommandEntries(s, key.offerer, c, turn.effects) ==
           [Offered(key, bytes, path, (key.recipient, key.offer) in s.offers.outgoing)]
      && told.effects == [Resolve(t, Status(true))]
      && turn.next.config == s.config && turn.next.offers == filed
      && turn.next.counters.answering == s.counters.answering
      && told.next.config == s.config && told.next.offers == filed
      && told.next.counters.answering == s.counters.answering
  {
  }

  lemma AnswerTurns(s: LoopState, key: TradeKey, given: Option<Bytes>, t: Ticket)
    requires (key.offerer, key.offer) in s.offers.inbound
    ensures
      var c, k := AnswerCommand(key, given, t), s.counters.answering;
      var turn := CommandTurn(s, c);
      && turn.effects == [Send(k, key.offerer, AnswerPayload(Response(key, given)))]
      && CommandEntries(s, key.recipient, c, turn.effects) ==
           [Answered(key, RequestId(TradeAnswering, key.recipient, k), given)]
      && turn.next.config == s.config
      && turn.next.offers == s.offers.(inbound := s.offers.inbound - {(key.offerer, key.offer)})
  {
  }

  lemma ReplyTurn(s: LoopState, key: TradeKey, given: Bytes, t: Ticket, names: TradeResponseResponse)
    requires (key.offerer, key.offer) in s.offers.inbound && names.offeredFileBytes.Some?
    ensures EventTurn(CommandTurn(s, AcceptCommand(key, given, t)).next,
                      AnswerReplied(s.counters.answering, names)).effects
              == [Resolve(t, BytesAnswer(Ok(names.offeredFileBytes)))]
  {
  }

  lemma PeerQueryIs(cache: Cache, name: string, t: Ticket)
    ensures PeerQuery(cache, name, t) == [] || PeerQuery(cache, name, t) == [FindPeerId(name, t)]
  {
  }

  lemma NextNumbers(c: Counters)
    ensures Number(c, TradeOffering) == c.offering && Number(c, TradeAnswering) == c.answering
  {
  }

  /** What a request that leaves makes the swarm owe. */
  lemma Owes(w: Swarm, k: nat, to: PeerId, payload: Payload)
    ensures Request(BehaviourOf(payload), k) in PerformSwarm(w, Send(k, to, payload)).open
  {
  }

  /** The offerer's line: the recipient is looked up and the offer is sent. */
  lemma OfferLine(f0: Fleet, s: seq<Act>, f: Fleet, key: TradeKey, bytes: Bytes, path: Path, cache: Cache, name: string)
    returns (s': seq<Act>, f': Fleet, m: Node, id: RequestId)
    requires Reached(f0, s, f) && key.offerer in f.nodes && key.offerer != key.recipient && Rests(f.nodes[key.offerer])
    requires Finds(cache, f.nodes[key.offerer].loop.config.codec, name, key.recipient)
    ensures
      var n := f.nodes[key.offerer];
      var t := TicketAfter(cache, name, n.nextTicket);
      && Reached(f0, s', f') && OnlyNode(f, f', key.offerer, m)
      && MainDid(s, s', key.offerer, LineActs(cache, name, n.nextTicket, OfferCommand(key, bytes, path, t)))
      && m.todo == [] && m.main == Awaiting(false, t) && m.nextTicket == t + 1 && m.loop.config == n.loop.config
      && m.loop.counters.answering == n.loop.counters.answering
      && m.loop.offers ==
           n.loop.offers.(outgoing := n.loop.offers.outgoing[(key.recipient, key.offer) := (bytes, path)])
      && id.behaviour == TradeOffering && id.from == key.offerer && id !in f.wire && id !in f.replies
      && Request(TradeOffering, id.number) in m.swarm.open
      && (var told := EventTurn(m.loop, OfferAcknowledged(id.number));
          && told.effects == [Resolve(t, Status(true))] && told.next.config == m.loop.config
          && told.next.offers == m.loop.offers && told.next.counters.answering == m.loop.counters.answering)
      && f'.wire == f.wire[id := Envelope(key.recipient, OfferPayload(key.offer))] && f'.replies == f.replies
      && f'.log == f.log + [Offered(key, bytes, path, (key.recipient, key.offer) in n.loop.offers.outgoing)]
  {
    hide Reached, MainTrace, MainDid, CommandTurn, EventTurn, CommandEntries, Issues, PeerQuery;
    var a, n := key.offerer, f.nodes[key.offerer];
    var asked, s1, f1 := PeerQuery(cache, name, n.nextTicket), s, f;
    PeerQueryIs(cache, name, n.nextTicket);
    s1, f1, m := LooksUp(f0, s, f, a, asked, FoundRecord(key.recipient.multihash));
    Facts(f0, s1, f1, a);
    var t, c := m.nextTicket, OfferCommand(key, bytes, path, m.nextTicket);
    id := RequestId(TradeOffering, a, m.loop.counters.offering);
    NextNumbers(m.loop.counters);
    OfferTurns(m.loop, key, bytes, path, t);
    s', f', m := Calls(f0, s1, f1, a, c, Send(id.number, key.recipient, OfferPayload(key.offer)));
    Then(s, s1, s', a, Issues(asked), [Issued(c)]);
    assert f'.nodes == f.nodes[a := m];
  }

  /** The recipient's main, done looking up, sends its answer. */
  lemma AnswerSent(f0: Fleet, s: seq<Act>, f: Fleet, key: TradeKey, given: Option<Bytes>)
    returns (s': seq<Act>, f': Fleet, m: Node, id: RequestId)
    requires Reached(f0, s, f) && key.recipient in f.nodes
    requires Able(f.nodes[key.recipient]) && !Registering(f.nodes[key.recipient].main)
    requires (key.offerer, key.offer) in f.nodes[key.recipient].loop.offers.inbound
    ensures
      var n := f.nodes[key.recipient];
      var t := n.nextTicket;
      && Reached(f0, s', f') && OnlyNode(f, f', key.recipient, m)
      && MainDid(s, s', key.recipient, [Issued(AnswerCommand(key, given, t))])
      && m.todo == [] && m.main == (if given.Some? then Awaiting(false, t) else Running(false))
      && m.nextTicket == t + (if given.Some? then 1 else 0)
      && m.loop == CommandTurn(n.loop, AnswerCommand(key, given, t)).next
      && id == RequestId(TradeAnswering, key.recipient, n.loop.counters.answering) && id !in f.wire && id !in f.replies
      && Request(TradeAnswering, id.number) in m.swarm.open
      && f'.wire == f.wire[id := Envelope(key.offerer, AnswerPayload(Response(key, given)))] && f'.replies == f.replies
      && f'.log == f.log + [Answered(key, id, given)]
  {
    hide Reached, MainTrace, MainDid, CommandTurn, CommandEntries, PerformSwarm, Number;
    var b, n := key.recipient, f.nodes[key.recipient];
    Facts(f0, s, f, b);
    NextNumbers(n.loop.counters);
    id := RequestId(TradeAnswering, b, n.loop.counters.answering);
    AnswerTurns(n.loop, key, given, n.nextTicket);
    Owes(n.swarm, id.number, key.offerer, AnswerPayload(Response(key, given)));
    s', f', m := Calls(f0, s, f, b, AnswerCommand(key, given, n.nextTicket),
                       Send(id.number, key.offerer, AnswerPayload(Response(key, given))));
  }

  /** The recipient's line: the offerer is looked up and the answer is sent. */
  lemma AnswerLine(f0: Fleet, s: seq<Act>, f: Fleet, key: TradeKey, given: Option<Bytes>, cache: Cache, name: string)
    returns (s': seq<Act>, f': Fleet, m: Node, id: RequestId)
    requires Reached(f0, s, f) && key.recipient in f.nodes && Rests(f.nodes[key.recipient])
    requires Finds(cache, f.nodes[key.recipient].loop.config.codec, name, key.offerer)
    requires (key.offerer, key.offer) in f.nodes[key.recipient].loop.offers.inbound
    ensures
      var n := f.nodes[key.recipient];
      var t := TicketAfter(cache, name, n.nextTicket);
      && Reached(f0, s', f') && OnlyNode(f, f', key.recipient, m)
      && MainDid(s, s', key.recipient, LineActs(cache, name, n.nextTicket, AnswerCommand(key, given, t)))
      && m.todo == [] && m.main == (if given.Some? then Awaiting(false, t) else Running(false))
      && m.nextTicket == t + (if given.Some? then 1 else 0) && m.loop.config == n.loop.config
      && m.loop.offers == n.loop.offers.(inbound := n.loop.offers.inbound - {(key.offerer, key.offer)})
      && id.behaviour == TradeAnswering && id.from == key.recipient && id !in f.wire && id !in f.replies
      && Request(TradeAnswering, id.number) in m.swarm.open
      && (given.Some? ==> forall names: TradeResponseResponse | names.offeredFileBytes.Some? ::
            EventTurn(m.loop, AnswerReplied(id.number, names)).effects
              == [Resolve(t, BytesAnswer(Ok(names.offeredFileBytes)))])
      && f'.wire == f.wire[id := Envelope(key.offerer, AnswerPayload(Response(key, given)))] && f'.replies == f.replies
      && f'.log == f.log + [Answered(key, id, given)]
  {
    hide Reached, MainTrace, MainDid, CommandTurn, EventTurn, CommandEntries, Issues, PeerQuery, Finds;
    var b, n := key.recipient, f.nodes[key.recipient];
    var asked := PeerQuery(cache, name, n.nextTicket);
    PeerQueryIs(cache, name, n.nextTicket);
    var s1, f1, before := LooksUp(f0, s, f, b, asked, FoundRecord(key.offerer.multihash));
    s', f', m, id := AnswerSent(f0, s1, f1, key, given);
    var t := before.nextTicket;
    AnswerTurns(before.loop, key, given, t);
    Then(s, s1, s', b, Issues(asked), [Issued(AnswerCommand(key, given, t))]);
    assert f'.nodes == f.nodes[b := m];
    if given.Some? { ReplyTurns(before.loop, key, given.value, t); }
  }

  lemma ReplyTurns(s: LoopState, key: TradeKey, given: Bytes, t: Ticket)
    requires (key.offerer, key.offer) in s.offers.inbound
    ensures forall names: TradeResponseResponse | names.offeredFileBytes.Some? ::
              EventTurn(CommandTurn(s, AcceptCommand(key, given, t)).next,
                        AnswerReplied(s.counters.answering, names)).effects
                == [Resolve(t, BytesAnswer(Ok(names.offeredFileBytes)))]
  {
    hide CommandTurn, EventTurn;
    forall names: TradeResponseResponse | names.offeredFileBytes.Some?
      ensures EventTurn(CommandTurn(s, AcceptCommand(key, given, t)).next,
                        AnswerReplied(s.counters.answering, names)).effects
                == [Resolve(t, BytesAnswer(Ok(names.offeredFileBytes)))]
    {
      ReplyTurn(s, key, given, t, names);
    }
  }
}
