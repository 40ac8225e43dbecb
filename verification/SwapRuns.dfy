/** Runs that two peers of a fleet can make from any state in which both are at rest: a
    swap from offer to received file, an early re-offer that leaves an accept without
    its entry, and a swap that stalls because the answer overtakes the acknowledgement.
    Each main makes one call at a time and, as the client does, looks up every user and
    every peer its cache does not have. */
module SwapRuns {
  import opened Protocol
  import opened SwapNetwork
  import opened ClientTask
  import opened NodeMachine
  import opened Fleet
  import opened FleetDeeds
  import opened Plays
  import Handlers
  import SwapMoves
  import FleetSwaps

  // ---------- two mains ----------

  /** From `s` to `s'` the main of `a` does `x`, that of `b` does `y`, and no other main
      does anything. */
  ghost predicate BothDid(s: seq<Act>, s': seq<Act>, a: PeerId, x: seq<MainAct>, b: PeerId, y: seq<MainAct>) {
    forall q :: MainTrace(s', q) ==
      if q == a then MainTrace(s, q) + x else if q == b then MainTrace(s, q) + y else MainTrace(s, q)
  }

  lemma First(s: seq<Act>, s1: seq<Act>, s2: seq<Act>, a: PeerId, x: seq<MainAct>, b: PeerId, y: seq<MainAct>)
    requires a != b && MainDid(s, s1, a, x) && MainDid(s1, s2, b, y)
    ensures BothDid(s, s2, a, x, b, y)
  {
    hide MainTrace;
  }

  lemma ThenA(s: seq<Act>, s1: seq<Act>, s2: seq<Act>, a: PeerId, x: seq<MainAct>, b: PeerId, y: seq<MainAct>,
              z: seq<MainAct>)
    requires a != b && BothDid(s, s1, a, x, b, y) && MainDid(s1, s2, a, z)
    ensures BothDid(s, s2, a, x + z, b, y)
  {
    hide MainTrace;
    Regroup(MainTrace(s, a), x, z);
  }

  lemma ThenB(s: seq<Act>, s1: seq<Act>, s2: seq<Act>, a: PeerId, x: seq<MainAct>, b: PeerId, y: seq<MainAct>,
              z: seq<MainAct>)
    requires a != b && BothDid(s, s1, a, x, b, y) && MainDid(s1, s2, b, z)
    ensures BothDid(s, s2, a, x, b, y + z)
  {
    hide MainTrace;
    Regroup(MainTrace(s, b), y, z);
  }

  /** Both peers of `key` are in the fleet, differ and are at rest. */
  ghost predicate BothRest(f: Fleet, key: TradeKey) {
    && key.offerer in f.nodes && key.recipient in f.nodes && key.offerer != key.recipient
    && Rests(f.nodes[key.offerer]) && Rests(f.nodes[key.recipient])
  }

  function OutgoingAt(f: Fleet, key: TradeKey): Option<(Bytes, Path)> {
    var slot := (key.recipient, key.offer);
    if key.offerer in f.nodes && slot in f.nodes[key.offerer].loop.offers.outgoing
    then Some(f.nodes[key.offerer].loop.offers.outgoing[slot]) else None
  }

  predicate InboundAt(f: Fleet, key: TradeKey) {
    key.recipient in f.nodes && (key.offerer, key.offer) in f.nodes[key.recipient].loop.offers.inbound
  }

  function CodecAt(f: Fleet, p: PeerId): Codec
    requires p in f.nodes
  {
    f.nodes[p].loop.config.codec
  }

  /** The recipient's cache once an offer of `key` has been shown, and its next ticket. */
  function CacheShown(f: Fleet, key: TradeKey, cache: Cache, shown: GetProgress): Cache
    requires key.recipient in f.nodes
  {
    AfterName(cache, key.offerer, Handlers.NameRead(CodecAt(f, key.recipient), shown))
  }

  function TicketShown(f: Fleet, key: TradeKey, cache: Cache): Ticket
    requires key.recipient in f.nodes
  {
    f.nodes[key.recipient].nextTicket + |NameQuery(cache, key.offerer, f.nodes[key.recipient].nextTicket)|
  }

  function OfferActs(f: Fleet, key: TradeKey, bytes: Bytes, path: Path, cache: Cache, name: string): seq<MainAct>
    requires key.offerer in f.nodes
  {
    var t := f.nodes[key.offerer].nextTicket;
    LineActs(cache, name, t, OfferCommand(key, bytes, path, TicketAfter(cache, name, t)))
  }

  /** An offer is made, arrives and is shown, and is acknowledged before the call returns. */
  lemma OfferRound(f0: Fleet, s: seq<Act>, f: Fleet, key: TradeKey, bytes: Bytes, path: Path,
                   cacheA: Cache, nameA: string, cacheB: Cache, shown: GetProgress)
    returns (s': seq<Act>, f': Fleet)
    requires Reached(f0, s, f) && BothRest(f, key) && !shown.OtherProgress?
    requires Finds(cacheA, CodecAt(f, key.offerer), nameA, key.recipient)
    ensures Reached(f0, s', f') && BothRest(f', key) && f.done <= f'.done
    ensures BothDid(s, s', key.offerer, OfferActs(f, key, bytes, path, cacheA, nameA) + [Back],
                    key.recipient, NoticeActs(cacheB, key.offerer, f.nodes[key.recipient].nextTicket))
    ensures f'.nodes[key.offerer].nextTicket == TicketAfter(cacheA, nameA, f.nodes[key.offerer].nextTicket) + 1
    ensures f'.nodes[key.recipient].nextTicket == TicketShown(f, key, cacheB)
    ensures CodecAt(f', key.offerer) == CodecAt(f, key.offerer)
    ensures CodecAt(f', key.recipient) == CodecAt(f, key.recipient)
    ensures OutgoingAt(f', key) == Some((bytes, path)) && InboundAt(f', key) && f'.wire == f.wire
    ensures f'.log == f.log + [Offered(key, bytes, path, OutgoingAt(f, key).Some?),
                               OfferArrived(key, InboundAt(f, key))]
  {
    hide Reached, MainDid, BothDid, LineActs, NoticeActs, Handlers.EventTurn;
    var a, b := key.offerer, key.recipient;
    var t := TicketAfter(cacheA, nameA, f.nodes[a].nextTicket);
    var s1, f1, ma, id := OfferLine(f0, s, f, key, bytes, path, cacheA, nameA);
    var s2, f2, mb := OfferArrives(f0, s1, f1, b, id, key.offer, cacheB, shown);
    s', f', ma := CallReturns(f0, s2, f2, a, id, t, Status(true));
    First(s, s1, s2, a, OfferActs(f, key, bytes, path, cacheA, nameA), b,
          NoticeActs(cacheB, a, f.nodes[b].nextTicket));
    ThenA(s, s2, s', a, OfferActs(f, key, bytes, path, cacheA, nameA), b,
          NoticeActs(cacheB, a, f.nodes[b].nextTicket), [Back]);
    assert f'.wire == f.wire;
    assert f'.log == f.log + [f1.log[|f.log|], f2.log[|f1.log|]];
  }

  function AnswerActs(f: Fleet, key: TradeKey, given: Option<Bytes>, cache: Cache, name: string): seq<MainAct>
    requires key.recipient in f.nodes
  {
    var t := f.nodes[key.recipient].nextTicket;
    LineActs(cache, name, t, AnswerCommand(key, given, TicketAfter(cache, name, t)))
  }

  /** An accept is sent, settles and is shown, and returns with the offered bytes. */
  lemma AcceptRound(f0: Fleet, s: seq<Act>, f: Fleet, key: TradeKey, given: Bytes,
                    cacheB: Cache, nameB: string, cacheA: Cache, shown: GetProgress)
    returns (s': seq<Act>, f': Fleet, answer: RequestId)
    requires Reached(f0, s, f) && BothRest(f, key) && !shown.OtherProgress?
    requires Finds(cacheB, CodecAt(f, key.recipient), nameB, key.offerer)
    requires OutgoingAt(f, key).Some? && InboundAt(f, key)
    ensures Reached(f0, s', f') && BothRest(f', key) && f.done <= f'.done
    ensures BothDid(s, s', key.offerer, NoticeActs(cacheA, key.recipient, f.nodes[key.offerer].nextTicket),
                    key.recipient, AnswerActs(f, key, Some(given), cacheB, nameB) + [Back])
    ensures
      var (bytes, path) := OutgoingAt(f, key).value;
      && f'.log == f.log + [Answered(key, answer, Some(given)), Swap(key, answer, given, path, bytes),
                            Told(answer, Ok(Some(bytes)))]
      && Deed(key.offerer, WriteFile(answer, path, given)) in f'.done
      && Deed(key.recipient, Resolve(TicketAfter(cacheB, nameB, f.nodes[key.recipient].nextTicket),
                                     BytesAnswer(Ok(Some(bytes))))) in f'.done
  {
    hide Reached, MainDid, BothDid, LineActs, NoticeActs, Handlers.EventTurn, Swap;
    var a, b := key.offerer, key.recipient;
    var (bytes, path) := OutgoingAt(f, key).value;
    var t := TicketAfter(cacheB, nameB, f.nodes[b].nextTicket);
    var s1, f1, mb, id := AnswerLine(f0, s, f, key, Some(given), cacheB, nameB);
    answer := id;
    var s2, f2, ma := AcceptSettles(f0, s1, f1, key, answer, given, cacheA, shown);
    s', f', mb := CallReturns(f0, s2, f2, b, answer, t, BytesAnswer(Ok(Some(bytes))));
    SecondFirst(s, s1, s2, a, NoticeActs(cacheA, b, f.nodes[a].nextTicket), b,
                AnswerActs(f, key, Some(given), cacheB, nameB));
    ThenB(s, s2, s', a, NoticeActs(cacheA, b, f.nodes[a].nextTicket), b,
          AnswerActs(f, key, Some(given), cacheB, nameB), [Back]);
    Longer(Deed(a, WriteFile(answer, path, given)), f2.done, f'.done);
  }

  lemma SecondFirst(s: seq<Act>, s1: seq<Act>, s2: seq<Act>, a: PeerId, x: seq<MainAct>, b: PeerId, y: seq<MainAct>)
    requires a != b && MainDid(s, s1, b, y) && MainDid(s1, s2, a, x)
    ensures BothDid(s, s2, a, x, b, y)
  {
    hide MainTrace;
  }

  lemma Longer<T>(x: T, a: seq<T>, b: seq<T>)
    requires x in a && a <= b
    ensures x in b
  {
  }

  lemma BothThenBoth(s: seq<Act>, s1: seq<Act>, s2: seq<Act>, a: PeerId, b: PeerId,
                     x: seq<MainAct>, y: seq<MainAct>, x': seq<MainAct>, y': seq<MainAct>)
    requires a != b && BothDid(s, s1, a, x, b, y) && BothDid(s1, s2, a, x', b, y')
    ensures BothDid(s, s2, a, x + x', b, y + y')
  {
    hide MainTrace;
    Regroup(MainTrace(s, a), x, x');
    Regroup(MainTrace(s, b), y, y');
  }

  /** Two peers at rest can complete a swap of any contents under any names, whatever
      their caches hold, as long as the names lead to each other: then the acceptor has
      really been handed the offered bytes, and its own have really been written where
      the offerer chose. */
  lemma SwapCompletes(f0: Fleet, s: seq<Act>, f: Fleet, key: TradeKey, bytes: Bytes, path: Path, given: Bytes,
                      cacheA: Cache, nameA: string, shownA: GetProgress,
                      cacheB: Cache, nameB: string, shownB: GetProgress)
    returns (s': seq<Act>, f': Fleet, answer: RequestId)
    requires Reached(f0, s, f) && BothRest(f, key) && !shownA.OtherProgress? && !shownB.OtherProgress?
    requires Finds(cacheA, CodecAt(f, key.offerer), nameA, key.recipient)
    requires Finds(CacheShown(f, key, cacheB, shownB), CodecAt(f, key.recipient), nameB, key.offerer)
    ensures Reached(f0, s', f') && BothRest(f', key)
    ensures
      var tA, tB := TicketAfter(cacheA, nameA, f.nodes[key.offerer].nextTicket), TicketShown(f, key, cacheB);
      var seen := CacheShown(f, key, cacheB, shownB);
      var t := TicketAfter(seen, nameB, tB);
      && BothDid(s, s',
           key.offerer,
           OfferActs(f, key, bytes, path, cacheA, nameA) + [Back]
             + NoticeActs(AfterPeer(cacheA, nameA, Some(key.recipient)), key.recipient, tA + 1),
           key.recipient,
           NoticeActs(cacheB, key.offerer, f.nodes[key.recipient].nextTicket)
             + (LineActs(seen, nameB, tB, AcceptCommand(key, given, t)) + [Back]))
      && Deed(key.recipient, Resolve(t, BytesAnswer(Ok(Some(bytes))))) in f'.done
    ensures f'.log == f.log + [Offered(key, bytes, path, OutgoingAt(f, key).Some?),
                               OfferArrived(key, InboundAt(f, key)),
                               Answered(key, answer, Some(given)), Swap(key, answer, given, path, bytes),
                               Told(answer, Ok(Some(bytes)))]
    ensures Deed(key.offerer, WriteFile(answer, path, given)) in f'.done
  {
    hide Reached, BothDid, LineActs, NoticeActs, Swap, OutgoingAt, InboundAt, AfterPeer, AfterName;
    var a, b, seen := key.offerer, key.recipient, CacheShown(f, key, cacheB, shownB);
    var cA := AfterPeer(cacheA, nameA, Some(b));
    var s1, f1 := OfferRound(f0, s, f, key, bytes, path, cacheA, nameA, cacheB, shownB);
    s', f', answer := AcceptRound(f0, s1, f1, key, given, seen, nameB, cA, shownA);
    BothThenBoth(s, s1, s', a, b, OfferActs(f, key, bytes, path, cacheA, nameA) + [Back],
                 NoticeActs(cacheB, a, f.nodes[b].nextTicket),
                 NoticeActs(cA, b, f1.nodes[a].nextTicket), AnswerActs(f1, key, Some(given), seen, nameB) + [Back]);
  }

  // ---------- a re-offer before the answer has arrived ----------

  lemma StillFinds(cache: Cache, codec: Codec, name: string, peer: PeerId, shown: Result<string>)
    requires Finds(cache, codec, name, peer)
    ensures
      var known := AfterPeer(cache, name, Some(peer));
      Finds(known, codec, name, peer) && Finds(AfterName(known, peer, shown), codec, name, peer)
  {
  }

  /** The recipient's line declines, which its main does not wait for. */
  lemma Declines(f0: Fleet, s: seq<Act>, f: Fleet, key: TradeKey, cache: Cache, name: string)
    returns (s': seq<Act>, f': Fleet, m: Node, id: RequestId)
    requires Reached(f0, s, f) && BothRest(f, key) && InboundAt(f, key)
    requires Finds(cache, CodecAt(f, key.recipient), name, key.offerer)
    ensures Reached(f0, s', f') && BothRest(f', key) && OnlyNode(f, f', key.recipient, m)
    ensures MainDid(s, s', key.recipient,
                    LineActs(cache, name, f.nodes[key.recipient].nextTicket, DeclineCommand(key)) + [Back])
    ensures m.nextTicket == TicketAfter(cache, name, f.nodes[key.recipient].nextTicket)
    ensures CodecAt(f', key.recipient) == CodecAt(f, key.recipient) && !InboundAt(f', key)
    ensures id.from == key.recipient && id !in f.wire
    ensures f'.wire == f.wire[id := Envelope(key.offerer, AnswerPayload(SwapMoves.Response(key, None)))]
    ensures f'.log == f.log + [Answered(key, id, None)]
  {
    hide Reached, MainDid, MainTrace, LineActs;
    var b := key.recipient;
    var s1, f1;
    s1, f1, m, id := AnswerLine(f0, s, f, key, None, cache, name);
    s', f' := Go(f0, s1, f1, At(b, Return));
    m := f'.nodes[b];
    GoesBack(s1, s', b);
    Then(s, s1, s', b, LineActs(cache, name, f.nodes[b].nextTicket, DeclineCommand(key)), [Back]);
    assert f'.nodes == f.nodes[b := m];
  }

  /** Offer; decline; offer again before the decline has arrived, which it then settles;
      accept. The accept finds no entry, although an offer for it has arrived and was
      never answered before. `cA`, `seen`, `cB` and `cC` are the caches as they fill. */
  lemma ReofferOrphansAnAnswer(f0: Fleet, s: seq<Act>, f: Fleet, key: TradeKey,
                               bytes: Bytes, path: Path, bytes': Bytes, path': Path, given: Bytes,
                               cacheA: Cache, nameA: string, cacheB: Cache, nameB: string,
                               shown: GetProgress, shown': GetProgress, shownA: GetProgress)
    returns (s': seq<Act>, f': Fleet, decline: RequestId, accept: RequestId)
    requires Reached(f0, s, f) && BothRest(f, key)
    requires !shown.OtherProgress? && !shown'.OtherProgress? && !shownA.OtherProgress?
    requires Finds(cacheA, CodecAt(f, key.offerer), nameA, key.recipient)
    requires Finds(CacheShown(f, key, cacheB, shown), CodecAt(f, key.recipient), nameB, key.offerer)
    ensures Reached(f0, s', f')
    ensures
      var cA, seen := AfterPeer(cacheA, nameA, Some(key.recipient)), CacheShown(f, key, cacheB, shown);
      var cB := AfterPeer(seen, nameB, Some(key.offerer));
      var cC := CacheShown(f, key, cB, shown');
      var tA1, tB1 := f.nodes[key.offerer].nextTicket, f.nodes[key.recipient].nextTicket;
      var tA2, tB2 := TicketAfter(cacheA, nameA, tA1) + 1, TicketShown(f, key, cacheB);
      var tA3, tB3 := TicketAfter(cA, nameA, tA2) + 1, TicketAfter(seen, nameB, tB2);
      var tB4 := tB3 + |NameQuery(cB, key.offerer, tB3)|;
      BothDid(s, s',
        key.offerer,
        LineActs(cacheA, nameA, tA1, OfferCommand(key, bytes, path, tA2 - 1)) + [Back]
          + (LineActs(cA, nameA, tA2, OfferCommand(key, bytes', path', tA3 - 1)) + [Back])
          + NoticeActs(cA, key.recipient, tA3),
        key.recipient,
        NoticeActs(cacheB, key.offerer, tB1)
          + (LineActs(seen, nameB, tB2, DeclineCommand(key)) + [Back])
          + NoticeActs(cB, key.offerer, tB3)
          + LineActs(cC, nameB, tB4, AcceptCommand(key, given, TicketAfter(cC, nameB, tB4))))
    ensures f'.log == f.log + [Offered(key, bytes, path, OutgoingAt(f, key).Some?),
                               OfferArrived(key, InboundAt(f, key)),
                               Answered(key, decline, None),
                               Offered(key, bytes', path', true), OfferArrived(key, false),
                               Settled(key, decline, None, [], None), Answered(key, accept, Some(given)),
                               Orphaned(key, accept)]
  {
    hide Reached, BothDid, MainDid, MainTrace, LineActs, NoticeActs, AfterPeer, AfterName, Finds, OfferCommand,
         AcceptCommand;
    var a, b, seen := key.offerer, key.recipient, CacheShown(f, key, cacheB, shown);
    var cA, cB := AfterPeer(cacheA, nameA, Some(b)), AfterPeer(seen, nameB, Some(a));
    var codecA, codecB := CodecAt(f, a), CodecAt(f, b);
    StillFinds(cacheA, codecA, nameA, b, Err);
    StillFinds(seen, codecB, nameB, a, Handlers.NameRead(codecB, shown'));
    var cC := CacheShown(f, key, cB, shown');

    var s1, f1 := OfferRound(f0, s, f, key, bytes, path, cacheA, nameA, cacheB, shown);
    var x1, y1 := OfferActs(f, key, bytes, path, cacheA, nameA) + [Back], NoticeActs(cacheB, a, f.nodes[b].nextTicket);

    var s2, f2, mb, id := Declines(f0, s1, f1, key, seen, nameB);
    decline := id;
    var z2 := LineActs(seen, nameB, f1.nodes[b].nextTicket, DeclineCommand(key)) + [Back];
    ThenB(s, s1, s2, a, x1, b, y1, z2);

    var s3, f3 := OfferRound(f0, s2, f2, key, bytes', path', cA, nameA, cB, shown');
    var x3, y3 := OfferActs(f2, key, bytes', path', cA, nameA) + [Back], NoticeActs(cB, a, f2.nodes[b].nextTicket);
    BothThenBoth(s, s2, s3, a, b, x1, y1 + z2, x3, y3);

    var s4, f4, ma := DeclineSettles(f0, s3, f3, key, decline, cA, shownA);
    var z4 := NoticeActs(cA, b, f3.nodes[a].nextTicket);
    ThenA(s, s3, s4, a, x1 + x3, b, y1 + z2 + y3, z4);

    var s5, f5;
    s5, f5, mb, accept := AnswerLine(f0, s4, f4, key, Some(given), cC, nameB);
    var z5 := AnswerActs(f4, key, Some(given), cC, nameB);
    ThenB(s, s4, s5, a, x1 + x3 + z4, b, y1 + z2 + y3, z5);

    s', f' := AnswerOrphaned(f0, s5, f5, key, accept, Some(given));
    SameDid(s, s5, s', a, x1 + x3 + z4, b, y1 + z2 + y3 + z5);
  }

  lemma SameDid(s: seq<Act>, s1: seq<Act>, s2: seq<Act>, a: PeerId, x: seq<MainAct>, b: PeerId, y: seq<MainAct>)
    requires BothDid(s, s1, a, x, b, y) && forall q :: MainTrace(s2, q) == MainTrace(s1, q)
    ensures BothDid(s, s2, a, x, b, y)
  {
    hide MainTrace;
  }

  // ---------- an answer that overtakes the acknowledgement ----------

  /** From a state in which peer `p` is in the cyclic wait it never does anything more. */
  lemma {:induction false} FrozenForever(f: Fleet, steps: seq<Act>, p: PeerId)
    requires p in f.nodes && CyclicWait(f.nodes[p]) && Run(f, steps)
    ensures p in End(f, steps).nodes && End(f, steps).nodes[p] == f.nodes[p]
    ensures DealsDone(End(f, steps).done, p) == DealsDone(f.done, p)
    decreases |steps|
  {
    hide Acted, Possible, CyclicWait, DealsDone;
    if steps != [] {
      FrozenNow(f, steps[0], p);
      FrozenForever(Acted(f, steps[0]), steps[1..], p);
    }
  }

  lemma FrozenNow(f: Fleet, st: Act, p: PeerId)
    requires p in f.nodes && CyclicWait(f.nodes[p]) && Possible(f, st)
    ensures p in Acted(f, st).nodes && Acted(f, st).nodes[p] == f.nodes[p]
    ensures DealsDone(Acted(f, st).done, p) == DealsDone(f.done, p)
  {
    hide Acted, NodeMachine.Next, NodeMachine.Enabled;
    NodesAfter(f, st);
    var s, g := NodeStep(f, st), Acted(f, st);
    if s.Some? && s.value.0 == p { CyclicWaitIsFinal(f.nodes[s.value.0], s.value.1); }
    FleetSwaps.ActAdds(f, st);
    if g.done != f.done {
      assert g.done[..|g.done| - 1] == f.done;
    }
  }

  lemma DealsUnchanged(f0: Fleet, s: seq<Act>, f: Fleet, s': seq<Act>, f': Fleet, p: PeerId,
                       x: Entry, y: Entry, z: Entry)
    requires Reached(f0, s, f) && Reached(f0, s', f') && TodoOf(f, p) == [] && TodoOf(f', p) == []
    requires f'.log == f.log + [x, y, z]
    requires !x.Settled? && !x.Told? && !y.Settled? && !y.Told? && !z.Settled? && !z.Told?
    ensures DealsDone(f'.done, p) == DealsDone(f.done, p)
  {
    hide Run, End, Fresh, DealsLogged, DealsDone, DealsIn;
    DeedsFollowTheLog(f0, s, p);
    DeedsFollowTheLog(f0, s', p);
    NoDeals([]);
    PlainAppend(f.log, x, p);
    PlainAppend(f.log + [x], y, p);
    PlainAppend(f.log + [x] + [y], z, p);
    assert f.log + [x] + [y] + [z] == f.log + [x, y, z];
    assert DealsDone(f.done, p) + [] == DealsDone(f.done, p) && DealsDone(f'.done, p) + [] == DealsDone(f'.done, p);
  }

  lemma PlainAppend(log: seq<Entry>, e: Entry, p: PeerId)
    requires !e.Settled? && !e.Told?
    ensures DealsLogged(log + [e], p) == DealsLogged(log, p)
  {
    LoggedAppend(log, [e], p);
  }

  /** The recipient answers before the offerer has heard the acknowledgement. */
  lemma AnswerRushes(f0: Fleet, s: seq<Act>, f: Fleet, key: TradeKey,
                     bytes: Bytes, path: Path, given: Bytes, cacheA: Cache, nameA: string,
                     cacheB: Cache, nameB: string, shown: GetProgress)
    returns (s': seq<Act>, f': Fleet, answer: RequestId)
    requires Reached(f0, s, f) && BothRest(f, key) && !shown.OtherProgress?
    requires Finds(cacheA, CodecAt(f, key.offerer), nameA, key.recipient)
    requires Finds(CacheShown(f, key, cacheB, shown), CodecAt(f, key.recipient), nameB, key.offerer)
    ensures Reached(f0, s', f')
    ensures
      var seen, tB := CacheShown(f, key, cacheB, shown), TicketShown(f, key, cacheB);
      BothDid(s, s', key.offerer, OfferActs(f, key, bytes, path, cacheA, nameA),
              key.recipient, NoticeActs(cacheB, key.offerer, f.nodes[key.recipient].nextTicket)
                + LineActs(seen, nameB, tB, AcceptCommand(key, given, TicketAfter(seen, nameB, tB))))
    ensures f'.log == f.log + [Offered(key, bytes, path, OutgoingAt(f, key).Some?),
                               OfferArrived(key, InboundAt(f, key)), Answered(key, answer, Some(given))]
    ensures DealsDone(f'.done, key.offerer) == DealsDone(f.done, key.offerer)
    ensures answer.from == key.recipient && answer in f'.wire
    ensures f'.wire[answer] == Envelope(key.offerer, AnswerPayload(SwapMoves.Response(key, Some(given))))
    ensures key.offerer in f'.nodes && f'.nodes[key.offerer].todo == [] && f'.nodes[key.offerer].main.Awaiting?
    ensures OutgoingAt(f', key) == Some((bytes, path))
  {
    hide Reached, BothDid, MainDid, LineActs, NoticeActs, Run, End, DealsDone, OfferCommand, AcceptCommand, Finds,
         Handlers.EventTurn;
    var a, b, seen := key.offerer, key.recipient, CacheShown(f, key, cacheB, shown);
    var s1, f1, ma, id := OfferLine(f0, s, f, key, bytes, path, cacheA, nameA);
    var s2, f2, mb := OfferArrives(f0, s1, f1, b, id, key.offer, cacheB, shown);
    var x, y := OfferActs(f, key, bytes, path, cacheA, nameA), NoticeActs(cacheB, a, f.nodes[b].nextTicket);
    First(s, s1, s2, a, x, b, y);
    var mc;
    s', f', mc, answer := AnswerLine(f0, s2, f2, key, Some(given), seen, nameB);
    ThenB(s, s2, s', a, x, b, y, AnswerActs(f2, key, Some(given), seen, nameB));
    DealsUnchanged(f0, s, f, s', f', a, f1.log[|f.log|], f2.log[|f1.log|], f'.log[|f2.log|]);
  }

  /** If the recipient accepts so fast that its answer reaches the offerer before the
      acknowledgement of the offer, whose call is then still running, the offer is used
      up and the offerer's loop blocks for good: whatever happens later, it never writes
      or releases anything any more. */
  lemma AnswerOvertakesAcknowledgement(f0: Fleet, s: seq<Act>, f: Fleet, key: TradeKey,
                                       bytes: Bytes, path: Path, given: Bytes, cacheA: Cache, nameA: string,
                                       cacheB: Cache, nameB: string, shown: GetProgress)
    returns (s': seq<Act>, f': Fleet, answer: RequestId)
    requires Reached(f0, s, f) && BothRest(f, key) && !shown.OtherProgress?
    requires Finds(cacheA, CodecAt(f, key.offerer), nameA, key.recipient)
    requires Finds(CacheShown(f, key, cacheB, shown), CodecAt(f, key.recipient), nameB, key.offerer)
    ensures Reached(f0, s', f')
    ensures
      var seen, tB := CacheShown(f, key, cacheB, shown), TicketShown(f, key, cacheB);
      BothDid(s, s', key.offerer, OfferActs(f, key, bytes, path, cacheA, nameA),
              key.recipient, NoticeActs(cacheB, key.offerer, f.nodes[key.recipient].nextTicket)
                + LineActs(seen, nameB, tB, AcceptCommand(key, given, TicketAfter(seen, nameB, tB))))
    ensures f'.log == f.log + [Offered(key, bytes, path, OutgoingAt(f, key).Some?),
                               OfferArrived(key, InboundAt(f, key)),
                               Answered(key, answer, Some(given)), Swap(key, answer, given, path, bytes)]
    ensures key.offerer in f'.nodes && CyclicWait(f'.nodes[key.offerer])
    ensures forall more :: Run(f', more) ==>
              DealsDone(End(f', more).done, key.offerer) == DealsDone(f.done, key.offerer)
  {
    hide Reached, BothDid, LineActs, NoticeActs, CyclicWait, Run, End, DealsDone, Swap, OfferCommand, AcceptCommand,
         Finds, OfferActs, CacheShown, TicketShown;
    var a, b, seen, tB := key.offerer, key.recipient, CacheShown(f, key, cacheB, shown), TicketShown(f, key, cacheB);
    var s1, f1;
    s1, f1, answer := AnswerRushes(f0, s, f, key, bytes, path, given, cacheA, nameA, cacheB, nameB, shown);
    s', f' := AcceptBlocks(f0, s1, f1, key, answer, given);
    SameDid(s, s1, s', a, OfferActs(f, key, bytes, path, cacheA, nameA), b,
            NoticeActs(cacheB, a, f.nodes[b].nextTicket)
              + LineActs(seen, nameB, tB, AcceptCommand(key, given, TicketAfter(seen, nameB, tB))));
    forall more | Run(f', more) ensures DealsDone(End(f', more).done, a) == DealsDone(f.done, a) {
      FrozenForever(f', more, a);
    }
  }
}
