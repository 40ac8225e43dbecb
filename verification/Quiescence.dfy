/** Left alone by its users, the network of atomic handlers falls silent, and then no
    request-response sender is parked anywhere, provided no loop is in the cyclic wait
    of `NodeMachine`. Where peers that can block come to rest is in `FleetRest`. */
module Quiescence {
  import opened Protocol
  import opened Handlers
  import opened SwapNetwork
  import opened SwapMoves
  import opened SwapAccounting
  import opened SwapCorrespondence

  /** A request weighs more than the reply it may turn into. */
  function Measure(n: Net): nat { 2 * |n.wire| + |n.replies| + |n.open| }

  predicate Started(mv: Move) { mv.Idle? || mv.Offering? || mv.Answering? || mv.Messaging? }

  lemma RemovalSize<K, V>(m: map<K, V>, k: K)
    requires k in m
    ensures |m - {k}| == |m| - 1
  {
    assert (m - {k}).Keys == m.Keys - {k};
  }

  lemma UpdateSize<K, V>(m: map<K, V>, k: K, v: V)
    ensures |m[k := v]| <= |m| + 1
  {
    assert m[k := v].Keys == m.Keys + {k};
  }

  /** A request leaves the wire, perhaps for a reply. */
  lemma RequestSpent(n: Net, m: Net, id: RequestId)
    requires id in n.wire && m.wire == n.wire - {id} && m.open == n.open
    requires m.replies == n.replies || (id in m.replies && m.replies == n.replies[id := m.replies[id]])
    ensures Measure(m) < Measure(n)
  {
    RemovalSize(n.wire, id);
    if m.replies != n.replies { UpdateSize(n.replies, id, m.replies[id]); }
  }

  lemma ArrivalDecreases(n: Net, m: Net, mv: Move)
    requires Does(n, m, mv) && (mv.Arriving? || mv.Settling? || mv.Orphaning? || mv.MessageArriving?)
    ensures Measure(m) < Measure(n)
  {
    hide SameOut, OutExcept, SameIn, InExcept, SameWaiting, WaitingExcept, Waiting, SamePeers, Issued, Measure, Out, In;
    RequestSpent(n, m, mv.id);
  }

  lemma LossDecreases(n: Net, m: Net, mv: Move)
    requires Does(n, m, mv) && (mv.LosingOffer? || mv.LosingAnswer? || mv.LosingMessage?)
    ensures Measure(m) < Measure(n)
  {
    hide SameOut, OutExcept, SameIn, InExcept, SameWaiting, WaitingExcept, Waiting, SamePeers, Issued, Measure, Out, In;
    RequestSpent(n, m, mv.id);
  }

  lemma ReplyDecreases(n: Net, m: Net, mv: Move)
    requires Does(n, m, mv) && (mv.ReplyDropping? || mv.Hearing?)
    ensures Measure(m) < Measure(n)
  {
    hide SameOut, OutExcept, SameIn, InExcept, SameWaiting, WaitingExcept, Waiting, SamePeers, Issued, Out, In;
    if mv.id in n.replies { RemovalSize(n.replies, mv.id); }
  }

  lemma MoveDecreases(n: Net, m: Net, mv: Move)
    requires Does(n, m, mv) && !Started(mv)
    ensures Measure(m) < Measure(n)
  {
    hide Does, Measure;
    match mv
    case ReplyDropping(_) => ReplyDecreases(n, m, mv);
    case Hearing(_, _) => ReplyDecreases(n, m, mv);
    case LosingOffer(_, _) => LossDecreases(n, m, mv);
    case LosingAnswer(_, _) => LossDecreases(n, m, mv);
    case LosingMessage(_) => LossDecreases(n, m, mv);
    case _ => ArrivalDecreases(n, m, mv);
  }

  lemma StepDecreases(n: Net, st: Step)
    requires WellFormed(n) && Enabled(n, st) && NetworkStep(st)
    ensures Measure(Next(n, st)) < Measure(n)
  {
    hide Next, Does, WellFormed, Measure;
    NextWellFormed(n, st);
    MoveDecreases(n, Next(n, st), MoveOf(n, st));
  }

  /** Without new user commands a run of network steps is at most as long as the
      measure it started with. */
  lemma {:induction false} NetworkRunsAreFinite(n: Net, steps: seq<Step>)
    requires Sound(n) && Legal(n, steps) && (forall st | st in steps :: NetworkStep(st))
    ensures |steps| + Measure(After(n, steps)) <= Measure(n)
    decreases |steps|
  {
    hide Next, Measure, Balanced, WireOk, RepliesOk, OpenOk, WaitingOk, Enabled;
    if steps != [] {
      assert steps[0] in steps;
      var m := Next(n, steps[0]);
      NextSound(n, steps[0]);
      StepDecreases(n, steps[0]);
      NetworkRunsAreFinite(m, steps[1..]);
    }
  }

  // ---------- who is parked ----------

  /** An offer or a message keeps its sender parked exactly as long as its request
      is open; of the answers, only accepts park one. */
  ghost predicate ParkedIsOpen(n: Net, id: RequestId) {
    id in n.open ==>
      if id.behaviour.TradeAnswering? then
        var a := AnswerAt(n.log, id);
        a.Some? && (Waiting(n, id) <==> n.log[a.value].given.Some?)
      else Waiting(n, id)
  }

  lemma MoveParked(n: Net, m: Net, mv: Move, id: RequestId)
    requires Does(n, m, mv) && ParkedIsOpen(n, id) && OpenOk(n)
    ensures ParkedIsOpen(m, id)
  {
    hide SameOut, OutExcept, SameIn, InExcept, Waiting, SamePeers, Issued;
    if m.log != n.log {
      assert m.log[..|n.log|] == n.log;
    }
  }

  lemma {:induction false} RunParked(n: Net, steps: seq<Step>, id: RequestId)
    requires Sound(n) && ParkedIsOpen(n, id) && Legal(n, steps)
    ensures ParkedIsOpen(After(n, steps), id)
    decreases |steps|
  {
    if steps != [] {
      var m := Next(n, steps[0]);
      NextWellFormed(n, steps[0]);
      NextSound(n, steps[0]);
      MoveParked(n, m, MoveOf(n, steps[0]), id);
      RunParked(m, steps[1..], id);
    }
  }

  /** In every reachable state the parked senders are exactly those of the open
      offers, the open messages and the open accepts. */
  lemma ParkedExactly(n: Net, steps: seq<Step>, id: RequestId)
    requires Init(n) && Legal(n, steps)
    ensures
      var m := After(n, steps);
      var a := AnswerAt(m.log, id);
      Waiting(m, id) <==>
        id in m.open && (id.behaviour.TradeAnswering? ==> a.Some? && m.log[a.value].given.Some?)
  {
    InitSound(n);
    RunSound(n, steps);
    RunParked(n, steps, id);
  }

  /** A reachable state in which the network of atomic handlers has nothing left to do
      has empty wires and no parked sender on any peer. */
  lemma SilenceIsQuiescence(n: Net, steps: seq<Step>)
    requires Init(n) && Legal(n, steps)
    requires forall st | NetworkStep(st) :: !Enabled(After(n, steps), st)
    ensures
      var m := After(n, steps);
      && m.wire == map[] && m.replies == map[] && m.open == {}
      && forall p | p in m.loops ::
           && m.loops[p].pending.tradeOfferRequest == map[]
           && m.loops[p].pending.tradeResponseResponse == map[]
           && m.loops[p].pending.requestMessage == map[]
  {
    hide Balanced, Enabled;
    var m := After(n, steps);
    InitSound(n);
    RunSound(n, steps);
    assert forall st | NetworkStep(st) :: !Enabled(m, st);
    NothingInTransit(m);
    forall p | p in m.loops
      ensures m.loops[p].pending.tradeOfferRequest == map[]
           && m.loops[p].pending.tradeResponseResponse == map[]
           && m.loops[p].pending.requestMessage == map[]
    {
      NobodyWaits(m, p, TradeOffering);
      NobodyWaits(m, p, TradeAnswering);
      NobodyWaits(m, p, DirectMessaging);
    }
  }

  lemma NothingInTransit(m: Net)
    requires WellFormed(m) && forall st | NetworkStep(st) :: !Enabled(m, st)
    ensures m.wire == map[] && m.replies == map[] && m.open == {}
  {
    hide Waiting;
    forall id ensures id !in m.wire && id !in m.replies && id !in m.open {
      assert !Enabled(m, LoseRequest(id)) && !Enabled(m, LoseReply(id)) && !Enabled(m, ReportFailure(id));
    }
  }

  lemma NobodyWaits(m: Net, p: PeerId, b: Behaviour)
    requires WaitingOk(m) && m.open == {} && p in m.loops
    ensures PendingMap(m.loops[p].pending, b) == map[]
  {
    forall k ensures k !in PendingMap(m.loops[p].pending, b) {
      assert !Waiting(m, RequestId(b, p, k));
    }
  }
}
