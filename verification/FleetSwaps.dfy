/** One for one, as a fact about what the peers of a fleet have really done. */
module FleetSwaps {
  import opened Protocol
  import opened Handlers
  import opened SwapNetwork
  import opened SwapAccounting
  import opened SwapCorrespondence
  import opened Fleet
  import opened FleetProjection
  import opened FleetDeeds

  lemma FleetTraced(f: Fleet, steps: seq<Act>) returns (n: Net)
    requires Fresh(f) && Run(f, steps)
    ensures Projected(End(f, steps), n) && Sound(n) && Traced(n) && HeardGone(n)
  {
    hide Projected, Sound, Traced, HeardGone;
    var ns := Projects(f, steps);
    SwapCorrespondence.Reachable(Start(f), ns);
    RunHeardGone(Start(f), ns);
    n := SwapNetwork.After(Start(f), ns);
  }

  /** What the tables of the fleet's peers say about `key`. */
  predicate Outgoing(f: Fleet, key: TradeKey) {
    key.offerer in f.nodes && (key.recipient, key.offer) in f.nodes[key.offerer].loop.offers.outgoing
  }

  predicate Inbound(f: Fleet, key: TradeKey) {
    key.recipient in f.nodes && (key.offerer, key.offer) in f.nodes[key.recipient].loop.offers.inbound
  }

  /** The books balance in every state of every fleet, in the middle of handlers too,
      and a key that was never re-offered early follows the single-trade automaton. */
  lemma FleetAccounting(f: Fleet, steps: seq<Act>, key: TradeKey)
    requires Fresh(f) && Run(f, steps)
    ensures
      var g := End(f, steps);
      var t := TallyOf(g.log, key);
      && t.offered == t.settled + t.replaced + One(Outgoing(g, key))
      && t.arrived == t.answered + t.duplicate + One(Inbound(g, key))
      && t.settled <= t.answered <= t.arrived <= t.offered
      && t.duplicate + t.orphaned <= t.replaced
      && (t.replaced == 0 <==> !PhaseOf(g.log, key).Broken?)
      && (t.replaced == 0 ==> (Outgoing(g, key) <==> !PhaseOf(g.log, key).Unoffered?))
      && (t.replaced == 0 ==> (Inbound(g, key) <==> PhaseOf(g.log, key).Received?))
  {
    hide TallyOf, PhaseOf, Acted, Possible, Sound, Balanced, WireSays, RepliesSay, OpenProjected;
    var ns := Projects(f, steps);
    ExactAccounting(Start(f), ns, key);
    RefinesSingleTrade(Start(f), ns, key);
    BrokenMeans(Start(f), ns, key);
  }

  lemma BrokenMeans(n: Net, ns: seq<SwapNetwork.Step>, key: TradeKey)
    requires SwapNetwork.Init(n) && SwapNetwork.Legal(n, ns)
    ensures
      var m := SwapNetwork.After(n, ns);
      TallyOf(m.log, key).replaced == 0 <==> !PhaseOf(m.log, key).Broken?
  {
    InitSound(n);
    RunSound(n, ns);
    assert Balanced(SwapNetwork.After(n, ns), key);
  }

  // ---------- no file without a file ----------

  /** Files written for the answers `ids`, and replies to them that carried bytes. */
  function FilesFor(ds: seq<Deal>, ids: set<RequestId>): nat {
    if ds == [] then 0
    else
      var last := ds[|ds| - 1];
      FilesFor(ds[..|ds| - 1], ids) + One(last.Wrote? && last.id in ids)
  }

  function GivenFor(ds: seq<Deal>, ids: set<RequestId>): nat {
    if ds == [] then 0
    else
      var last := ds[|ds| - 1];
      GivenFor(ds[..|ds| - 1], ids) + One(last.Gave? && last.id in ids)
  }

  lemma {:induction false} CountsAdd(a: seq<Deal>, b: seq<Deal>, ids: set<RequestId>)
    ensures FilesFor(a + b, ids) == FilesFor(a, ids) + FilesFor(b, ids)
    ensures GivenFor(a + b, ids) == GivenFor(a, ids) + GivenFor(b, ids)
    decreases |b|
  {
    if b == [] {
      assert a + b == a;
    } else {
      assert (a + b)[..|a + b| - 1] == a + b[..|b| - 1];
      CountsAdd(a, b[..|b| - 1], ids);
    }
  }

  /** The next thing to do is to send bytes in reply to one of `ids`. */
  predicate GivesNext(ds: seq<Deal>, ids: set<RequestId>) { |ds| == 1 && ds[0].Gave? && ds[0].id in ids }

  lemma FewCounts(ds: seq<Deal>, ids: set<RequestId>)
    requires InOrder(ds)
    ensures GivenFor(ds, ids) == FilesFor(ds, ids) + One(GivesNext(ds, ids))
  {
    if |ds| == 2 {
      var first := ds[..1];
      assert first[..0] == [] && first[0] == ds[0];
      assert FilesFor(first, ids) == One(ds[0].id in ids) && GivenFor(first, ids) == 0;
    }
  }

  lemma EntryCounts(past: seq<Entry>, e: Entry, p: PeerId, ids: set<RequestId>)
    requires Justified(past, e)
    ensures FilesFor(DealsIn(e, p), ids) == GivenFor(DealsIn(e, p), ids)
  {
    if e.Settled? && e.key.offerer == p && e.given.Some? {
      assert AllWrote(e.id, e.written) == [Wrote(e.id, e.written[0])];
      FewCounts(DealsIn(e, p), ids);
    }
  }

  lemma {:induction false} LoggedCounts(log: seq<Entry>, p: PeerId, ids: set<RequestId>)
    requires History(log)
    ensures FilesFor(DealsLogged(log, p), ids) == GivenFor(DealsLogged(log, p), ids)
  {
    if log != [] {
      var last := |log| - 1;
      LoggedCounts(log[..last], p, ids);
      EntryCounts(log[..last], log[last], p, ids);
      CountsAdd(DealsLogged(log[..last], p), DealsIn(log[last], p), ids);
    }
  }

  /** Whichever answers are looked at, one, those for one key, or all: the replies with
      bytes that a peer has really sent to them are exactly as many as the requested
      files it has really written for them, but for the one reply that its handler,
      having written the file, sends next. A peer that blocks in between has given
      nothing. */
  lemma NoRealFileWithoutAFile(f: Fleet, steps: seq<Act>, p: PeerId, ids: set<RequestId>)
    requires Fresh(f) && Run(f, steps)
    ensures
      var g := End(f, steps);
      var ds, rest := DealsDone(g.done, p), Deals(TodoOf(g, p));
      FilesFor(ds, ids) == GivenFor(ds, ids) + One(GivesNext(rest, ids))
  {
    hide Kept, Run, Acted;
    var n := FleetTraced(f, steps);
    var g := End(f, steps);
    DeedsFollowTheLog(f, steps, p);
    LoggedCounts(g.log, p, ids);
    CountsAdd(DealsDone(g.done, p), Deals(TodoOf(g, p)), ids);
    FewCounts(Deals(TodoOf(g, p)), ids);
  }

  /** The answers ever sent for `key`. */
  function AnswersFor(log: seq<Entry>, key: TradeKey): set<RequestId> {
    set e | e in log && e.Answered? && e.key == key :: e.id
  }

  /** Per key, the files really written and the bytes really released stand one to one,
      in every state of every fleet. */
  lemma KeyGivesOneForOne(f: Fleet, steps: seq<Act>, key: TradeKey)
    requires Fresh(f) && Run(f, steps)
    ensures
      var g := End(f, steps);
      var ids, ds := AnswersFor(g.log, key), DealsDone(g.done, key.offerer);
      GivenFor(ds, ids) <= FilesFor(ds, ids) <= GivenFor(ds, ids) + 1
  {
    hide Run, End, FilesFor, GivenFor;
    NoRealFileWithoutAFile(f, steps, key.offerer, AnswersFor(End(f, steps).log, key));
  }

  // ---------- finding deals ----------

  lemma {:induction false} NthLogged(log: seq<Entry>, p: PeerId, k: nat) returns (i: nat)
    requires k < |DealsLogged(log, p)|
    ensures i < |log|
    ensures
      var before := |DealsLogged(log[..i], p)|;
      && before <= k < before + |DealsIn(log[i], p)|
      && DealsLogged(log, p)[k] == DealsIn(log[i], p)[k - before]
    decreases |log|
  {
    hide DealsIn;
    var last := |log| - 1;
    i := last;
    if k < |DealsLogged(log[..last], p)| {
      i := NthLogged(log[..last], p, k);
      assert log[..last][..i] == log[..i];
    }
  }

  lemma {:induction false} NthDone(done: seq<Deed>, p: PeerId, k: nat) returns (w: nat)
    requires k < |DealsDone(done, p)|
    ensures w < |done| && done[w].peer == p && |DealsDone(done[..w], p)| == k
    ensures DealOf(done[w].effect) == [DealsDone(done, p)[k]]
    decreases |done|
  {
    var last := |done| - 1;
    w := last;
    if k < |DealsDone(done[..last], p)| {
      w := NthDone(done[..last], p, k);
      assert done[..last][..w] == done[..w];
    }
  }

  lemma {:induction false} LoggedPart(log: seq<Entry>, p: PeerId, j: nat)
    requires j < |log|
    ensures DealsLogged(log[..j], p) + DealsIn(log[j], p) <= DealsLogged(log, p)
    decreases |log|
  {
    hide DealsIn;
    var last := |log| - 1;
    if j < last {
      LoggedPart(log[..last], p, j);
      assert log[..last][..j] == log[..j];
    }
  }

  lemma {:induction false} DonePart(done: seq<Deed>, p: PeerId, w: nat)
    requires w < |done|
    ensures
      var deals := if done[w].peer == p then DealOf(done[w].effect) else [];
      DealsDone(done[..w], p) + deals <= DealsDone(done, p)
    decreases |done|
  {
    hide DealOf;
    var last := |done| - 1;
    if w < last {
      DonePart(done[..last], p, w);
      assert done[..last][..w] == done[..w];
    }
  }

  lemma {:induction false} PendingGift(es: seq<Effect>, id: RequestId, bytes: Bytes)
    requires Tidy(es) && Gave(id, bytes) in Deals(es)
    ensures Message(es).Some? && Message(es).value.Respond? && Message(es).value.channel == id
  {
    if es != [] && IsMessage(es[0]) && Gave(id, bytes) !in DealOf(es[0]) {
      NoGift(es[1..], id, bytes);
    } else if es != [] && !IsMessage(es[0]) {
      PendingGift(es[1..], id, bytes);
    }
  }

  lemma {:induction false} NoGift(es: seq<Effect>, id: RequestId, bytes: Bytes)
    requires Message(es).None?
    ensures Gave(id, bytes) !in Deals(es)
  {
    if es != [] {
      NoGift(es[1..], id, bytes);
    }
  }

  // ---------- every obtained file was paid for ----------

  /** The settlement behind an obtained file is no longer in anyone's hands: its
      write is done. */
  lemma WriteIsDone(f: Fleet, n: Net, h: nat, j: nat, i: nat)
    requires Projected(f, n) && HeardGone(n) && Swapped(f.log, h, j, i)
    requires Kept(f, f.log[j].key.offerer)
    ensures
      var a := f.log[j].key.offerer;
      var k := |DealsLogged(f.log[..j], a)|;
      k < |DealsDone(f.done, a)| && DealsDone(f.done, a)[k] ==
        Wrote(f.log[j].id, FileWrite(f.log[h].path, f.log[j].given.value))
  {
    hide OpenProjected, WireSays, Deals, DealsLogged, DealsDone, Message;
    var a, id := f.log[j].key.offerer, f.log[j].id;
    var k := |DealsLogged(f.log[..j], a)|;
    var file := FileWrite(f.log[h].path, f.log[j].given.value);
    assert DealsIn(f.log[j], a) == [Wrote(id, file), Gave(id, f.log[h].bytes)] by {
      assert AllWrote(id, [file]) == [Wrote(id, file)];
    }
    LoggedPart(f.log, a, j);
    var mine, rest := DealsDone(f.done, a), Deals(TodoOf(f, a));
    assert (mine + rest)[k] == Wrote(id, file) && (mine + rest)[k + 1] == Gave(id, f.log[h].bytes);
    assert f.log[i] in n.log && Obtained(f.log[i]);
    if k >= |mine| {
      assert rest[k - |mine|] == Wrote(id, file) && k == |mine| && rest[1] == Gave(id, f.log[h].bytes);
      StillReplying(f, n, a, id, f.log[h].bytes);
      assert false;
    }
  }

  lemma StillReplying(f: Fleet, n: Net, a: PeerId, id: RequestId, bytes: Bytes)
    requires Projected(f, n) && Gave(id, bytes) in Deals(TodoOf(f, a))
    ensures id in n.replies
  {
    hide OpenProjected, WireSays, DealOf;
    if a in f.nodes {
      TidyAt(f, n, a);
      PendingGift(f.nodes[a].todo, id, bytes);
      assert SaysReply(SayingsOf(f.nodes), a);
    }
  }

  /** Bytes `e` hands to an accept. */
  predicate Success(e: Effect) { DealOf(e) != [] && DealOf(e)[0].Got? }

  /** A swap that has really taken place: the accept that obtained its bytes at deed
      `d` is the one told at log entry `i`, of the swap settled at `j` and offered at
      `h`; and at deed `w`, before `d`, the offerer has really written the acceptor's
      bytes where the offer said. Deeds and entries are matched by number. */
  ghost predicate RealSwap(log: seq<Entry>, done: seq<Deed>, d: nat, h: nat, j: nat, i: nat, w: nat) {
    && Swapped(log, h, j, i) && SettlementOf(log, i) == Some(j) && OfferOf(log, j) == Some(h)
    && w < d < |done|
    && done[d].peer == log[i].id.from && DealOf(done[d].effect) == [Got(log[h].bytes)]
    && |DealsLogged(log[..i], done[d].peer)| == |DealsDone(done[..d], done[d].peer)|
    && done[w] == Deed(log[j].key.offerer, WriteFile(log[j].id, log[h].path, log[j].given.value))
    && |DealsLogged(log[..j], done[w].peer)| == |DealsDone(done[..w], done[w].peer)|
  }

  /** The log entry behind the bytes that peer `p` is about to hand an accept. */
  lemma SuccessIsTold(f: Fleet, p: PeerId) returns (i: nat)
    requires Kept(f, p) && TodoOf(f, p) != [] && Success(TodoOf(f, p)[0])
    ensures i < |f.log| && Obtained(f.log[i]) && f.log[i].heard.value.Some? && f.log[i].id.from == p
    ensures DealOf(TodoOf(f, p)[0]) == [Got(f.log[i].heard.value.value)]
    ensures |DealsLogged(f.log[..i], p)| == |DealsDone(f.done, p)|
  {
    hide DealsLogged, DealsDone, DealsIn, TodoOf;
    var e := TodoOf(f, p)[0];
    var mine, rest := DealsDone(f.done, p), Deals(TodoOf(f, p));
    assert rest[0] == DealOf(e)[0] && rest == [rest[0]];
    i := NthLogged(f.log, p, |mine|);
    assert (mine + rest)[|mine|] == rest[0];
    ToldThere(f.log[i], p, |mine| - |DealsLogged(f.log[..i], p)|, rest[0]);
  }

  /** The deed at which the offerer wrote the file of a swap. */
  lemma FileWritten(f: Fleet, n: Net, h: nat, j: nat, i: nat) returns (w: nat)
    requires Projected(f, n) && HeardGone(n) && Swapped(f.log, h, j, i)
    requires Kept(f, f.log[j].key.offerer)
    ensures w < |f.done|
    ensures f.done[w] == Deed(f.log[j].key.offerer, WriteFile(f.log[j].id, f.log[h].path, f.log[j].given.value))
    ensures |DealsLogged(f.log[..j], f.done[w].peer)| == |DealsDone(f.done[..w], f.done[w].peer)|
  {
    hide Projected, HeardGone, DealsLogged, DealsDone, Kept;
    var a := f.log[j].key.offerer;
    WriteIsDone(f, n, h, j, i);
    w := NthDone(f.done, a, |DealsLogged(f.log[..j], a)|);
    WroteIs(f.done[w], f.log[j].id, f.log[h].path, f.log[j].given.value);
  }

  /** At the moment peer `p` is about to hand an accept its bytes. */
  lemma RealSwapNow(f: Fleet, n: Net, p: PeerId) returns (h: nat, j: nat, i: nat, w: nat)
    requires Projected(f, n) && Traced(n) && HeardGone(n) && (forall q :: Kept(f, q))
    requires TodoOf(f, p) != [] && Success(TodoOf(f, p)[0])
    ensures RealSwap(f.log, f.done + [Deed(p, TodoOf(f, p)[0])], |f.done|, h, j, i, w)
  {
    hide Traced, HeardGone, OpenProjected, WireSays, RepliesSay, DealsLogged, DealsDone, Swapped, Kept, Success, DealOf,
         TodoOf;
    var log, done := f.log, f.done + [Deed(p, TodoOf(f, p)[0])];
    i := SuccessIsTold(f, p);
    TracedIsHistory(n);
    ObtainedIsSwapped(log, i);
    j := SettlementOf(log, i).value;
    h := OfferOf(log, j).value;
    SwappedFacts(log, h, j, i);
    w := FileWritten(f, n, h, j, i);
    assert done[..|f.done|] == f.done && done[..w] == f.done[..w];
  }

  lemma WroteIs(d: Deed, id: RequestId, path: Path, bytes: Bytes)
    requires DealOf(d.effect) == [Wrote(id, FileWrite(path, bytes))]
    ensures d == Deed(d.peer, WriteFile(id, path, bytes))
  {
  }

  lemma {:induction false} OnlyWrote(id: RequestId, files: seq<FileWrite>)
    ensures forall k | 0 <= k < |AllWrote(id, files)| :: AllWrote(id, files)[k].Wrote?
  {
    if files != [] {
      OnlyWrote(id, files[1..]);
    }
  }

  /** Only being told makes an entry say that bytes were obtained. */
  lemma ToldThere(e: Entry, p: PeerId, k: nat, deal: Deal)
    requires k < |DealsIn(e, p)| && DealsIn(e, p)[k] == deal && deal.Got?
    ensures k == 0 && Obtained(e) && e.id.from == p && e.heard == Ok(Some(deal.bytes))
  {
    if e.Settled? { OnlyWrote(e.id, e.written); }
  }

  // ---------- all runs ----------

  /** A step only adds to the log and to the deeds, and to the deeds at most the next
      effect of one handler. */
  lemma ActAdds(f: Fleet, st: Act)
    requires Possible(f, st)
    ensures
      var g := Acted(f, st);
      && f.log <= g.log
      && (g.done == f.done
          || (st.At? && TodoOf(f, st.peer) != [] && g.done == f.done + [Deed(st.peer, TodoOf(f, st.peer)[0])]))
  {
    hide NodeMachine.Next, CommandTurn, EventTurn, CommandEntries, ArrivalEntries, ToldEntries, LossEntries;
  }

  lemma {:induction false} RunAdds(f: Fleet, steps: seq<Act>)
    requires Run(f, steps)
    ensures f.log <= End(f, steps).log && f.done <= End(f, steps).done
    decreases |steps|
  {
    hide Acted, Possible;
    if steps != [] {
      ActAdds(f, steps[0]);
      RunAdds(Acted(f, steps[0]), steps[1..]);
    }
  }

  /** The moment at which deed `d` is about to be done. */
  lemma {:induction false} Moment(f: Fleet, steps: seq<Act>, d: nat) returns (k: nat)
    requires Run(f, steps) && |f.done| <= d < |End(f, steps).done|
    ensures k <= |steps| && Run(f, steps[..k])
    ensures
      var m, g, deed := End(f, steps[..k]), End(f, steps), End(f, steps).done[d];
      && TodoOf(m, deed.peer) != [] && deed == Deed(deed.peer, TodoOf(m, deed.peer)[0])
      && m.log <= g.log && m.done + [deed] <= g.done && |m.done| == d
    decreases |steps|
  {
    hide Acted, Possible, TodoOf;
    var m := Acted(f, steps[0]);
    ActAdds(f, steps[0]);
    RunAdds(m, steps[1..]);
    if |m.done| > d {
      k := 0;
      assert m.done[d] == End(f, steps).done[d];
      RunAdds(f, steps);
    } else {
      k := Moment(m, steps[1..], d);
      k := k + 1;
      assert steps[..k][1..] == steps[1..][..k - 1] && steps[..k][0] == steps[0];
    }
  }

  lemma LongerLog(log: seq<Entry>, log': seq<Entry>, done: seq<Deed>, done': seq<Deed>, d: nat,
                  h: nat, j: nat, i: nat, w: nat)
    requires log <= log' && done <= done' && RealSwap(log, done, d, h, j, i, w)
    ensures RealSwap(log', done', d, h, j, i, w)
  {
    hide DealsLogged, DealsDone, DealOf;
    assert log'[..i] == log[..i] && log'[..j] == log[..j] && done'[..d] == done[..d] && done'[..w] == done[..w];
    assert forall k | 0 <= k < |log| :: log'[k] == log[k];
  }

  /** Every accept that has really returned bytes belongs to a swap that has really
      taken place, both ways, the offerer's file first. */
  lemma EveryRealSuccessIsASwap(f: Fleet, steps: seq<Act>, d: nat) returns (h: nat, j: nat, i: nat, w: nat)
    requires Fresh(f) && Run(f, steps)
    requires d < |End(f, steps).done| && Success(End(f, steps).done[d].effect)
    ensures RealSwap(End(f, steps).log, End(f, steps).done, d, h, j, i, w)
  {
    hide Acted, Possible, RealSwap, Kept, Projected, Sound, Traced, HeardGone, Success;
    var k := Moment(f, steps, d);
    var m, deed := End(f, steps[..k]), End(f, steps).done[d];
    var n := FleetTraced(f, steps[..k]);
    forall q ensures Kept(m, q) {
      FreshKept(f, q);
      RunKept(f, steps[..k], q);
    }
    h, j, i, w := RealSwapNow(m, n, deed.peer);
    LongerLog(m.log, End(f, steps).log, m.done + [deed], End(f, steps).done, d, h, j, i, w);
  }

  lemma FreshKept(f: Fleet, q: PeerId)
    requires Fresh(f)
    ensures Kept(f, q)
  {
  }

  lemma {:induction false} DealNumbersGrow(done: seq<Deed>, p: PeerId, d: nat, d': nat)
    requires d < d' <= |done| && done[d].peer == p && DealOf(done[d].effect) != []
    ensures |DealsDone(done[..d], p)| < |DealsDone(done[..d'], p)|
  {
    DonePart(done[..d'], p, d);
    assert done[..d'][..d] == done[..d];
  }

  /** No two accepts have returned bytes for the same written file or the same offer. */
  lemma RealSwapsAreDistinct(f: Fleet, steps: seq<Act>, d: nat, h: nat, j: nat, i: nat, w: nat,
                             d': nat, h': nat, j': nat, i': nat, w': nat)
    requires Fresh(f) && Run(f, steps) && d < d'
    ensures
      var g := End(f, steps);
      RealSwap(g.log, g.done, d, h, j, i, w) && RealSwap(g.log, g.done, d', h', j', i', w') ==>
        w != w' && h != h' && j != j' && i != i'
  {
    hide Acted, Possible, Run, End, RealSwap;
    var g := End(f, steps);
    var n := FleetTraced(f, steps);
    TracedIsHistory(n);
    if RealSwap(g.log, g.done, d, h, j, i, w) && RealSwap(g.log, g.done, d', h', j', i', w') {
      RealSwapsApart(g.log, g.done, d, h, j, i, w, d', h', j', i', w');
    }
  }

  lemma RealSwapsApart(log: seq<Entry>, done: seq<Deed>, d: nat, h: nat, j: nat, i: nat, w: nat,
                       d': nat, h': nat, j': nat, i': nat, w': nat)
    requires History(log) && d < d' && RealSwap(log, done, d, h, j, i, w) && RealSwap(log, done, d', h', j', i', w')
    ensures w != w' && h != h' && j != j' && i != i'
  {
    hide History, DealsLogged, DealsDone, DealOf, SettlementOf, OfferOf, Swapped;
    SwappedFacts(log, h, j, i);
    SwappedFacts(log, h', j', i');
    EntriesApart(log, done, d, i, d', i');
    if i < i' {
      SuccessesDiffer(log, i, i');
      ToldApart(log, i, i');
    } else {
      SuccessesDiffer(log, i', i);
      ToldApart(log, i', i);
    }
  }

  lemma SwappedFacts(log: seq<Entry>, h: nat, j: nat, i: nat)
    requires Swapped(log, h, j, i)
    ensures h < j < i < |log| && log[j].Settled? && log[i].Told? && log[i].heard == Ok(Some(log[h].bytes))
    ensures log[j].id == log[i].id && log[j].given.Some? && log[h].Offered?
  {
  }

  /** Different deeds are matched to different entries. */
  lemma EntriesApart(log: seq<Entry>, done: seq<Deed>, d: nat, i: nat, d': nat, i': nat)
    requires d < d' < |done| && i < |log| && i' < |log| && log[i].Told? && log[i'].Told?
    requires done[d].peer == log[i].id.from && done[d'].peer == log[i'].id.from && DealOf(done[d].effect) != []
    requires |DealsLogged(log[..i], done[d].peer)| == |DealsDone(done[..d], done[d].peer)|
    requires |DealsLogged(log[..i'], done[d'].peer)| == |DealsDone(done[..d'], done[d'].peer)|
    ensures i != i'
  {
    hide DealsLogged, DealsDone;
    if done[d].peer == done[d'].peer { DealNumbersGrow(done, done[d].peer, d, d'); }
  }
}
