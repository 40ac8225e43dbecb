/** What the peers of a fleet have really done: each has performed what the log says
    its handlers set out to do, except for what its running handler has still to do. */
module FleetDeeds {
  import opened Protocol
  import opened Handlers
  import opened SwapNetwork
  import opened SwapMoves
  import opened NodeMachine
  import opened Fleet

  /** A file written for an answer, bytes handed out in the reply to it, bytes obtained
      by an accept. */
  datatype Deal =
    | Wrote(id: RequestId, file: FileWrite)
    | Gave(id: RequestId, bytes: Bytes)
    | Got(bytes: Bytes)

  function DealOf(e: Effect): (ds: seq<Deal>)
    ensures |ds| <= 1
  {
    if e.WriteFile? then [Wrote(e.cause, FileWrite(e.path, e.bytes))]
    else if e.Respond? && e.body.BytesReply? && e.body.reply.offeredFileBytes.Some?
    then [Gave(e.channel, e.body.reply.offeredFileBytes.value)]
    else if e.Resolve? && e.outcome.BytesAnswer? && e.outcome.bytes.Ok? && e.outcome.bytes.value.Some?
    then [Got(e.outcome.bytes.value.value)]
    else []
  }

  function Deals(es: seq<Effect>): seq<Deal> {
    if es == [] then [] else DealOf(es[0]) + Deals(es[1..])
  }

  function DealsDone(done: seq<Deed>, p: PeerId): seq<Deal> {
    if done == [] then []
    else
      var last := done[|done| - 1];
      DealsDone(done[..|done| - 1], p) + if last.peer == p then DealOf(last.effect) else []
  }

  function AllWrote(id: RequestId, files: seq<FileWrite>): seq<Deal> {
    if files == [] then [] else [Wrote(id, files[0])] + AllWrote(id, files[1..])
  }

  /** What entry `e` says peer `p` sets out to do. */
  function DealsIn(e: Entry, p: PeerId): seq<Deal> {
    if e.Settled? && e.key.offerer == p then
      AllWrote(e.id, e.written) + if e.released.Some? then [Gave(e.id, e.released.value)] else []
    else if e.Told? && e.id.from == p && e.heard.Ok? && e.heard.value.Some? then [Got(e.heard.value.value)]
    else []
  }

  function DealsLogged(log: seq<Entry>, p: PeerId): seq<Deal> {
    if log == [] then [] else DealsLogged(log[..|log| - 1], p) + DealsIn(log[|log| - 1], p)
  }

  function TodoOf(f: Fleet, p: PeerId): seq<Effect> { if p in f.nodes then f.nodes[p].todo else [] }

  /** A handler writes one file and then hands out bytes, or tells an accept its bytes,
      or none of these. */
  predicate InOrder(ds: seq<Deal>) {
    || ds == []
    || (|ds| == 1 && !ds[0].Wrote?)
    || (|ds| == 2 && ds[0].Wrote? && ds[1].Gave? && ds[1].id == ds[0].id)
  }

  /** The log, the deeds and the rest of the running handler of `p` agree. */
  ghost predicate Kept(f: Fleet, p: PeerId) {
    && DealsLogged(f.log, p) == DealsDone(f.done, p) + Deals(TodoOf(f, p))
    && InOrder(Deals(TodoOf(f, p)))
  }

  // ---------- turns say what they do ----------

  lemma {:induction false} LoggedAppend(log: seq<Entry>, es: seq<Entry>, p: PeerId)
    requires |es| <= 1
    ensures DealsLogged(log + es, p) == DealsLogged(log, p) + if es == [] then [] else DealsIn(es[0], p)
  {
    if es == [] {
      assert log + es == log;
    } else {
      assert (log + es)[..|log|] == log;
    }
  }

  lemma NoDeals(es: seq<Effect>)
    requires forall e | e in es :: DealOf(e) == []
    ensures Deals(es) == []
  {
    if es != [] {
      assert es[0] in es;
      NoDeals(es[1..]);
    }
  }

  lemma CommandDeals(s: LoopState, p: PeerId, c: Command)
    ensures
      var es := CommandTurn(s, c).effects;
      && Deals(es) == []
      && |CommandEntries(s, p, c, es)| <= 1
      && forall e, q | e in CommandEntries(s, p, c, es) :: DealsIn(e, q) == []
  {
    NoDeals(CommandTurn(s, c).effects);
  }

  lemma LocalDeals(s: LoopState, e: SwarmEvent)
    requires Local(e)
    ensures Deals(EventTurn(s, e).effects) == []
  {
    NoDeals(EventTurn(s, e).effects);
  }

  lemma OneDeal(es: seq<Effect>)
    requires |es| == 1
    ensures Deals(es) == DealOf(es[0])
  {
    assert Deals(es[1..]) == [];
  }

  lemma FirstDeal(es: seq<Effect>)
    requires es != []
    ensures Deals(es) == DealOf(es[0]) + Deals(es[1..])
  {
  }

  /** What settling an offer does, in deals. */
  lemma AnswerDeals(s: LoopState, p: PeerId, id: RequestId, response: TradeResponse)
    ensures
      var es := AnswerRequestedTurn(s, id, response).effects;
      var key := TradeKey(p, id.from, OfferNamed(response));
      && InOrder(Deals(es))
      && Deals(es) == if es == [] then []
                      else DealsIn(Settled(key, id, response.requestedFileBytes, Writes(es), Released(es)), p)
  {
    hide InOrder, Deals, DealOf, Writes, Released, AllWrote;
    var es := AnswerRequestedTurn(s, id, response).effects;
    if es == [] {
      NoDeals(es);
      assert InOrder([]) by { NothingInOrder(); }
    } else if response.requestedFileBytes.Some? {
      assert es == [es[0], es[1], es[2]];
      FileDeals(es[0], es[1], es[2]);
    } else {
      assert es == [es[0], es[1]];
      RefusalDeals(es[0], es[1]);
    }
  }

  lemma NothingInOrder()
    ensures InOrder([])
  {
  }

  lemma FileDeals(a: Effect, b: Effect, c: Effect)
    requires a.Emit? && b.WriteFile? && c.Respond? && b.cause == c.channel
    requires c.body.BytesReply? && c.body.reply.offeredFileBytes.Some?
    ensures
      var es := [a, b, c];
      && InOrder(Deals(es))
      && Deals(es) == AllWrote(c.channel, Writes(es)) + [Gave(c.channel, c.body.reply.offeredFileBytes.value)]
      && Released(es) == c.body.reply.offeredFileBytes
  {
    var es := [a, b, c];
    FirstDeal(es);
    assert es[1..] == [b, c];
    FirstDeal([b, c]);
    assert [b, c][1..] == [c];
    OneDeal([c]);
    ReadTwo([b, c]);
    assert Writes(es) == [] + Writes([b, c]);
    assert Writes(es) == [FileWrite(b.path, b.bytes)];
    assert AllWrote(c.channel, Writes(es)) == [Wrote(c.channel, FileWrite(b.path, b.bytes))];
  }

  lemma RefusalDeals(a: Effect, c: Effect)
    requires a.Emit? && c.Respond? && c.body.BytesReply? && c.body.reply.offeredFileBytes.None?
    ensures
      var es := [a, c];
      InOrder(Deals(es)) && Deals(es) == [] && AllWrote(c.channel, Writes(es)) == [] && Released(es).None?
  {
    var es := [a, c];
    NoDeals(es);
    ReadTwo(es);
  }

  lemma OtherArrivalDeals(s: LoopState, id: RequestId, payload: Payload)
    requires !payload.AnswerPayload?
    ensures Deals(EventTurn(s, ArrivalEvent(id, payload)).effects) == []
  {
    NoDeals(EventTurn(s, ArrivalEvent(id, payload)).effects);
  }

  lemma ArrivalDeals(s: LoopState, p: PeerId, id: RequestId, payload: Payload)
    ensures
      var es := EventTurn(s, ArrivalEvent(id, payload)).effects;
      var entries := ArrivalEntries(s, p, id, payload, es);
      && InOrder(Deals(es))
      && |entries| <= 1
      && Deals(es) == (if entries == [] then [] else DealsIn(entries[0], p))
      && forall e, q | e in entries && q != p :: DealsIn(e, q) == []
  {
    hide DealOf, Deals, Writes, Released, AnswerRequestedTurn;
    if payload.AnswerPayload? {
      hide InOrder, AllWrote;
      AnswerDeals(s, p, id, payload.response);
    } else {
      OtherArrivalDeals(s, id, payload);
      NothingInOrder();
    }
  }

  lemma ReportDeals(s: LoopState, id: RequestId, e: SwarmEvent)
    requires Report(id, e)
    ensures
      var es := EventTurn(s, e).effects;
      var entries := ToldEntries(id, es);
      && InOrder(Deals(es))
      && |entries| <= 1
      && Deals(es) == (if entries == [] then [] else DealsIn(entries[0], id.from))
      && forall x, q | x in entries && q != id.from :: DealsIn(x, q) == []
  {
    var es := EventTurn(s, e).effects;
    if es != [] {
      assert es[1..] == [];
      assert Deals(es) == DealOf(es[0]) + [];
    }
  }

  // ---------- every step keeps the agreement ----------

  /** Entries `es` are what the effects of peer `p`'s new turn amount to. */
  ghost predicate Announces(es: seq<Entry>, p: PeerId, effects: seq<Effect>) {
    && InOrder(Deals(effects))
    && |es| <= 1
    && Deals(effects) == (if es == [] then [] else DealsIn(es[0], p))
    && (forall e, q | e in es && q != p :: DealsIn(e, q) == [])
  }

  lemma TurnKept(f: Fleet, g: Fleet, p: PeerId, es: seq<Entry>, effects: seq<Effect>, q: PeerId)
    requires Kept(f, q) && TodoOf(f, p) == [] && Announces(es, p, effects)
    requires g.log == f.log + es && g.done == f.done
    requires TodoOf(g, q) == if q == p then effects else TodoOf(f, q)
    ensures Kept(g, q)
  {
    hide Deals, DealsIn, DealsDone, InOrder, TodoOf;
    LoggedAppend(f.log, es, q);
    if q == p {
      assert Deals([]) == [] by { NoDeals([]); }
    } else if es != [] {
      assert es[0] in es;
    }
  }

  /** Peer `p` performs the next effect of its handler. */
  lemma DoneKept(f: Fleet, g: Fleet, p: PeerId, q: PeerId)
    requires Kept(f, q) && TodoOf(f, p) != []
    requires g.log == f.log && g.done == f.done + [Deed(p, TodoOf(f, p)[0])]
    requires TodoOf(g, q) == if q == p then TodoOf(f, p)[1..] else TodoOf(f, q)
    ensures Kept(g, q)
  {
    hide DealsLogged, TodoOf, DealOf;
    assert g.done[..|g.done| - 1] == f.done;
    if q == p {
      var e, rest := TodoOf(f, p)[0], TodoOf(f, p)[1..];
      assert DealsDone(f.done, p) + (DealOf(e) + Deals(rest)) == (DealsDone(f.done, p) + DealOf(e)) + Deals(rest);
    }
  }

  lemma StillKept(f: Fleet, g: Fleet, q: PeerId)
    requires Kept(f, q) && DealsLogged(g.log, q) == DealsLogged(f.log, q)
    requires g.done == f.done && TodoOf(g, q) == TodoOf(f, q)
    ensures Kept(g, q)
  {
  }

  lemma OwnKept(f: Fleet, p: PeerId, s: NodeMachine.Step, q: PeerId)
    requires Kept(f, q) && Possible(f, At(p, s))
    ensures Kept(Acted(f, At(p, s)), q)
  {
    hide Kept, CommandTurn, EventTurn, CommandEntries, Deals;
    var g, n := Acted(f, At(p, s)), f.nodes[p];
    match s
    case TakeCommand =>
      var es := CommandTurn(n.loop, n.main.command).effects;
      var entries := CommandEntries(n.loop, p, n.main.command, es);
      CommandDeals(n.loop, p, n.main.command);
      if entries != [] { assert entries[0] in entries; }
      TurnKept(f, g, p, entries, es, q);
    case SwarmReport(e) =>
      LocalDeals(n.loop, e);
      assert g.log == f.log + [];
      TurnKept(f, g, p, [], EventTurn(n.loop, e).effects, q);
    case Work => DoneKept(f, g, p, q);
    case TakeEvent => DoneKept(f, g, p, q);
    case _ => StillKept(f, g, q);
  }

  lemma LossKept(f: Fleet, id: RequestId, q: PeerId)
    requires Kept(f, q) && id in f.wire
    ensures Kept(Acted(f, RequestLoss(id)), q)
  {
    hide Kept, LossEntries, DealsIn, DealsLogged;
    LossDeals(id, f.wire[id], q);
    LoggedAppend(f.log, LossEntries(id, f.wire[id]), q);
    assert DealsLogged(f.log, q) + [] == DealsLogged(f.log, q);
    StillKept(f, Acted(f, RequestLoss(id)), q);
  }

  lemma LossDeals(id: RequestId, env: Envelope, q: PeerId)
    ensures
      var es := LossEntries(id, env);
      |es| <= 1 && (es != [] ==> DealsIn(es[0], q) == [])
  {
  }

  lemma ArrivalKept(f: Fleet, id: RequestId, q: PeerId)
    requires Kept(f, q) && Possible(f, Arrival(id))
    ensures Kept(Acted(f, Arrival(id)), q)
  {
    hide Kept, EventTurn, ArrivalEntries, Deals, InOrder;
    var Envelope(p, payload) := f.wire[id];
    var s := f.nodes[p].loop;
    var es := EventTurn(s, ArrivalEvent(id, payload)).effects;
    ArrivalDeals(s, p, id, payload);
    TurnKept(f, Acted(f, Arrival(id)), p, ArrivalEntries(s, p, id, payload, es), es, q);
  }

  lemma ReportKept(f: Fleet, g: Fleet, id: RequestId, e: SwarmEvent, q: PeerId)
    requires Kept(f, q) && Takes(f, id.from, e) && Report(id, e)
    requires
      var turn := EventTurn(f.nodes[id.from].loop, e);
      && g.nodes == f.nodes[id.from := NodeMachine.Next(f.nodes[id.from], SwarmReport(e))]
      && g.log == f.log + ToldEntries(id, turn.effects) && g.done == f.done
    ensures Kept(g, q)
  {
    hide Kept, EventTurn, ToldEntries, Deals, InOrder;
    var es := EventTurn(f.nodes[id.from].loop, e).effects;
    ReportDeals(f.nodes[id.from].loop, id, e);
    TurnKept(f, g, id.from, ToldEntries(id, es), es, q);
  }

  lemma ActKept(f: Fleet, st: Act, q: PeerId)
    requires Kept(f, q) && Possible(f, st)
    ensures Kept(Acted(f, st), q)
  {
    hide Kept, NodeMachine.Enabled, NodeMachine.Next, EventTurn, ToldEntries;
    match st
    case At(p, s) => OwnKept(f, p, s, q);
    case Arrival(id) => ArrivalKept(f, id, q);
    case RequestLoss(id) => LossKept(f, id, q);
    case ReplyArrival(id) => ReportKept(f, Acted(f, st), id, ReplyEvent(id, f.replies[id]), q);
    case ReplyLoss(id) => StillKept(f, Acted(f, st), q);
    case FailureNotice(id) => ReportKept(f, Acted(f, st), id, FailureEvent(id), q);
  }

  lemma {:induction false} RunKept(f: Fleet, steps: seq<Act>, q: PeerId)
    requires Kept(f, q) && Run(f, steps)
    ensures Kept(End(f, steps), q)
    decreases |steps|
  {
    hide Kept, Acted, Possible;
    if steps != [] {
      ActKept(f, steps[0], q);
      RunKept(Acted(f, steps[0]), steps[1..], q);
    }
  }

  /** In every run each peer has done, in order, exactly what the log says its handlers
      set out to do, up to what its running handler has still to do. */
  lemma DeedsFollowTheLog(f: Fleet, steps: seq<Act>, p: PeerId)
    requires Fresh(f) && Run(f, steps)
    ensures
      var g := End(f, steps);
      DealsLogged(g.log, p) == DealsDone(g.done, p) + Deals(TodoOf(g, p)) && InOrder(Deals(TodoOf(g, p)))
  {
    RunKept(f, steps, p);
  }
}
