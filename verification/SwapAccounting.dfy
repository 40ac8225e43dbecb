/** Where every offer and every answer went: exact accounting per trade key, over
    all runs, with re-offers, duplicates, losses and late failures allowed. */
module SwapAccounting {
  import opened Protocol
  import opened Handlers
  import opened SwapNetwork
  import opened SwapMoves

  /** How often each thing happened to one key. */
  datatype Tally = Tally(
    offered: nat, replaced: nat, offerLost: nat, arrived: nat, duplicate: nat,
    answered: nat, answerLost: nat, settled: nat, orphaned: nat)

  const NOTHING_YET := Tally(0, 0, 0, 0, 0, 0, 0, 0, 0)

  function Bump(t: Tally, e: Entry, key: TradeKey): Tally {
    if e.Told? || e.key != key then t
    else match e
      case Offered(_, _, _, replacing) =>
        t.(offered := t.offered + 1, replaced := t.replaced + if replacing then 1 else 0)
      case OfferLost(_) => t.(offerLost := t.offerLost + 1)
      case OfferArrived(_, duplicate) =>
        t.(arrived := t.arrived + 1, duplicate := t.duplicate + if duplicate then 1 else 0)
      case Answered(_, _, _) => t.(answered := t.answered + 1)
      case AnswerLost(_, _) => t.(answerLost := t.answerLost + 1)
      case Settled(_, _, _, _, _) => t.(settled := t.settled + 1)
      case Orphaned(_, _) => t.(orphaned := t.orphaned + 1)
      case Told(_, _) => t
  }

  function TallyOf(log: seq<Entry>, key: TradeKey): Tally {
    if log == [] then NOTHING_YET
    else Bump(TallyOf(log[..|log| - 1], key), log[|log| - 1], key)
  }

  /** The life of one swap when its offerer waits for it to settle before
      offering it again. `Stuck` is a swap whose offer or answer was lost. */
  datatype Phase = Unoffered | Travelling | Received | Replying | Stuck | Broken

  function Advance(ph: Phase, e: Entry, key: TradeKey): Phase {
    if e.Told? || e.key != key then ph
    else if e.Offered? && ph.Unoffered? then Travelling
    else if e.OfferArrived? && ph.Travelling? then Received
    else if e.OfferLost? && ph.Travelling? then Stuck
    else if e.Answered? && ph.Received? then Replying
    else if e.AnswerLost? && ph.Replying? then Stuck
    else if e.Settled? && ph.Replying? then Unoffered
    else Broken
  }

  function PhaseOf(log: seq<Entry>, key: TradeKey): Phase {
    if log == [] then Unoffered
    else Advance(PhaseOf(log[..|log| - 1], key), log[|log| - 1], key)
  }

  lemma TallyAppend(log: seq<Entry>, e: Entry, key: TradeKey)
    ensures TallyOf(log + [e], key) == Bump(TallyOf(log, key), e, key)
    ensures PhaseOf(log + [e], key) == Advance(PhaseOf(log, key), e, key)
  {
    assert (log + [e])[..|log|] == log;
  }

  // ---------- tokens on the wire ----------

  predicate IsOffer(id: RequestId, env: Envelope, key: TradeKey) {
    id.from == key.offerer && env == Envelope(key.recipient, OfferPayload(key.offer))
  }

  predicate IsAnswer(id: RequestId, env: Envelope, key: TradeKey) {
    && id.from == key.recipient && env.to == key.offerer
    && env.payload.AnswerPayload? && OfferNamed(env.payload.response) == key.offer
  }

  function OffersInFlight(wire: map<RequestId, Envelope>, key: TradeKey): set<RequestId> {
    set id | id in wire && IsOffer(id, wire[id], key)
  }

  function AnswersInFlight(wire: map<RequestId, Envelope>, key: TradeKey): set<RequestId> {
    set id | id in wire && IsAnswer(id, wire[id], key)
  }

  lemma OffersGrow(wire: map<RequestId, Envelope>, id: RequestId, env: Envelope, key: TradeKey)
    requires id !in wire
    ensures |OffersInFlight(wire[id := env], key)| ==
              |OffersInFlight(wire, key)| + if IsOffer(id, env, key) then 1 else 0
  {
    var before, now := OffersInFlight(wire, key), OffersInFlight(wire[id := env], key);
    if IsOffer(id, env, key) {
      assert now == before + {id};
    } else {
      assert now == before;
    }
  }

  lemma AnswersGrow(wire: map<RequestId, Envelope>, id: RequestId, env: Envelope, key: TradeKey)
    requires id !in wire
    ensures |AnswersInFlight(wire[id := env], key)| ==
              |AnswersInFlight(wire, key)| + if IsAnswer(id, env, key) then 1 else 0
  {
    var before, now := AnswersInFlight(wire, key), AnswersInFlight(wire[id := env], key);
    if IsAnswer(id, env, key) {
      assert now == before + {id};
    } else {
      assert now == before;
    }
  }

  lemma WireGrows(wire: map<RequestId, Envelope>, id: RequestId, env: Envelope, key: TradeKey)
    requires id !in wire
    ensures |OffersInFlight(wire[id := env], key)| ==
              |OffersInFlight(wire, key)| + if IsOffer(id, env, key) then 1 else 0
    ensures |AnswersInFlight(wire[id := env], key)| ==
              |AnswersInFlight(wire, key)| + if IsAnswer(id, env, key) then 1 else 0
  {
    OffersGrow(wire, id, env, key);
    AnswersGrow(wire, id, env, key);
  }

  lemma WireShrinks(wire: map<RequestId, Envelope>, id: RequestId, key: TradeKey)
    requires id in wire
    ensures |OffersInFlight(wire, key)| ==
              |OffersInFlight(wire - {id}, key)| + if IsOffer(id, wire[id], key) then 1 else 0
    ensures |AnswersInFlight(wire, key)| ==
              |AnswersInFlight(wire - {id}, key)| + if IsAnswer(id, wire[id], key) then 1 else 0
  {
    var rest := wire - {id};
    assert rest[id := wire[id]] == wire;
    WireGrows(rest, id, wire[id], key);
  }

  // ---------- the books ----------

  function One(b: bool): nat { if b then 1 else 0 }

  /** The tables and the wire hold exactly what `ph` says about `key`. */
  predicate InPhase(n: Net, key: TradeKey, ph: Phase) {
    && !ph.Broken?
    && (Out(n, key).Some? <==> !ph.Unoffered?)
    && |OffersInFlight(n.wire, key)| == One(ph.Travelling?)
    && (In(n, key) <==> ph.Received?)
    && |AnswersInFlight(n.wire, key)| == One(ph.Replying?)
  }

  /** The four balance equations, the bound on wasted messages, and the phase of
      a key that was never re-offered early. */
  ghost predicate Balanced(n: Net, key: TradeKey) {
    var t := TallyOf(n.log, key);
    && t.offered == t.replaced + t.settled + One(Out(n, key).Some?)
    && t.offered == |OffersInFlight(n.wire, key)| + t.offerLost + t.arrived
    && t.arrived == t.duplicate + t.answered + One(In(n, key))
    && t.answered == |AnswersInFlight(n.wire, key)| + t.answerLost + t.settled + t.orphaned
    && t.duplicate + t.orphaned <= t.replaced
    && (if t.replaced == 0 then InPhase(n, key, PhaseOf(n.log, key)) else PhaseOf(n.log, key).Broken?)
  }

  lemma OfferBalanced(n: Net, m: Net, id: RequestId, k: TradeKey, bytes: Bytes, path: Path, key: TradeKey)
    requires id !in n.wire && MakesOffer(n, m, id, k, bytes, path) && Balanced(n, key)
    ensures Balanced(m, key)
  {
    hide OffersInFlight, AnswersInFlight, TallyOf, PhaseOf, Out, In, SameWaiting, WaitingExcept, Waiting, Issued;
    TallyAppend(n.log, Offered(k, bytes, path, Out(n, k).Some?), key);
    WireGrows(n.wire, id, Envelope(k.recipient, OfferPayload(k.offer)), key);
  }

  lemma AnswerBalanced(n: Net, m: Net, id: RequestId, k: TradeKey, given: Option<Bytes>, key: TradeKey)
    requires id !in n.wire && MakesAnswer(n, m, id, k, given) && Balanced(n, key)
    ensures Balanced(m, key)
  {
    hide OffersInFlight, AnswersInFlight, TallyOf, PhaseOf, Out, In, SameWaiting, WaitingExcept, Waiting, Issued;
    TallyAppend(n.log, Answered(k, id, given), key);
    WireGrows(n.wire, id, Envelope(k.offerer, AnswerPayload(Response(k, given))), key);
  }

  lemma ArrivalBalanced(n: Net, m: Net, id: RequestId, k: TradeKey, key: TradeKey)
    requires Arrives(n, m, id, k) && Balanced(n, key)
    ensures Balanced(m, key)
  {
    hide OffersInFlight, AnswersInFlight, TallyOf, PhaseOf, Out, In, SameWaiting, WaitingExcept, Waiting, Issued;
    TallyAppend(n.log, OfferArrived(k, In(n, k)), key);
    WireShrinks(n.wire, id, key);
  }

  lemma SettlementBalanced(n: Net, m: Net, id: RequestId, k: TradeKey, given: Option<Bytes>, key: TradeKey)
    requires Settles(n, m, id, k, given) && Balanced(n, key)
    ensures Balanced(m, key)
  {
    hide OffersInFlight, AnswersInFlight, TallyOf, PhaseOf, Out, In, SameWaiting, WaitingExcept, Waiting, Issued;
    TallyAppend(n.log, m.log[|n.log|], key);
    WireShrinks(n.wire, id, key);
  }

  lemma OrphanBalanced(n: Net, m: Net, id: RequestId, k: TradeKey, key: TradeKey)
    requires Orphans(n, m, id, k) && Balanced(n, key)
    ensures Balanced(m, key)
  {
    hide OffersInFlight, AnswersInFlight, TallyOf, PhaseOf, Out, In, SameWaiting, WaitingExcept, Waiting, Issued;
    TallyAppend(n.log, Orphaned(k, id), key);
    WireShrinks(n.wire, id, key);
  }

  lemma OfferLossBalanced(n: Net, m: Net, id: RequestId, k: TradeKey, key: TradeKey)
    requires LosesOffer(n, m, id, k) && Balanced(n, key)
    ensures Balanced(m, key)
  {
    hide OffersInFlight, AnswersInFlight, TallyOf, PhaseOf, Out, In, SameWaiting, WaitingExcept, Waiting, Issued;
    TallyAppend(n.log, OfferLost(k), key);
    WireShrinks(n.wire, id, key);
  }

  lemma AnswerLossBalanced(n: Net, m: Net, id: RequestId, k: TradeKey, key: TradeKey)
    requires LosesAnswer(n, m, id, k) && Balanced(n, key)
    ensures Balanced(m, key)
  {
    hide OffersInFlight, AnswersInFlight, TallyOf, PhaseOf, Out, In, SameWaiting, WaitingExcept, Waiting, Issued;
    TallyAppend(n.log, AnswerLost(k, id), key);
    WireShrinks(n.wire, id, key);
  }

  lemma MessageLossBalanced(n: Net, m: Net, id: RequestId, key: TradeKey)
    requires LosesMessage(n, m, id) && Balanced(n, key)
    ensures Balanced(m, key)
  {
    hide OffersInFlight, AnswersInFlight, TallyOf, PhaseOf, Out, In, SameWaiting, WaitingExcept, Waiting, Issued;
    assert m.log == n.log;
    WireShrinks(n.wire, id, key);
  }

  lemma MessageBalanced(n: Net, m: Net, id: RequestId, to: PeerId, message: string, key: TradeKey)
    requires id !in n.wire && MakesMessage(n, m, id, to, message) && Balanced(n, key)
    ensures Balanced(m, key)
  {
    hide OffersInFlight, AnswersInFlight, TallyOf, PhaseOf, Out, In, SameWaiting, WaitingExcept, Waiting, Issued;
    WireGrows(n.wire, id, Envelope(to, DirectPayload(message)), key);
  }

  lemma MessageArrivalBalanced(n: Net, m: Net, id: RequestId, key: TradeKey)
    requires MessageArrives(n, m, id) && Balanced(n, key)
    ensures Balanced(m, key)
  {
    hide OffersInFlight, AnswersInFlight, TallyOf, PhaseOf, Out, In, SameWaiting, WaitingExcept, Waiting, Issued;
    WireShrinks(n.wire, id, key);
  }

  lemma IdleBalanced(n: Net, m: Net, key: TradeKey)
    requires Idles(n, m) && Balanced(n, key)
    ensures Balanced(m, key)
  {
  }

  lemma ReplyDropBalanced(n: Net, m: Net, id: RequestId, key: TradeKey)
    requires DropsReply(n, m, id) && Balanced(n, key)
    ensures Balanced(m, key)
  {
  }

  /** The books do not see what an accept call is told. */
  lemma HearBalanced(n: Net, m: Net, id: RequestId, delivered: bool, key: TradeKey)
    requires Hears(n, m, id, delivered) && Balanced(n, key)
    ensures Balanced(m, key)
  {
    if id.behaviour.TradeAnswering? && Waiting(n, id) {
      TallyAppend(n.log, Told(id, Heard(n, id, delivered)), key);
    } else {
      assert m.log == n.log;
    }
  }

  lemma MoveBalanced(n: Net, m: Net, mv: Move, key: TradeKey)
    requires WireOk(n) && Does(n, m, mv) && Balanced(n, key)
    ensures Balanced(m, key)
  {
    hide Balanced, Arrives, Settles, Orphans, MessageArrives, LosesOffer, LosesAnswer,
         LosesMessage, DropsReply, Hears, Idles, Out, In, Waiting,
         SameOut, SameIn, OutExcept, InExcept, SameWaiting, WaitingExcept;
    match mv
    case Idle => IdleBalanced(n, m, key);
    case Offering(id, k, bytes, path) => OfferBalanced(n, m, id, k, bytes, path, key);
    case Answering(id, k, given) => AnswerBalanced(n, m, id, k, given, key);
    case Messaging(id, to, message) => MessageBalanced(n, m, id, to, message, key);
    case Arriving(id, k) => ArrivalBalanced(n, m, id, k, key);
    case Settling(id, k, given) => SettlementBalanced(n, m, id, k, given, key);
    case Orphaning(id, k) => OrphanBalanced(n, m, id, k, key);
    case MessageArriving(id) => MessageArrivalBalanced(n, m, id, key);
    case LosingOffer(id, k) => OfferLossBalanced(n, m, id, k, key);
    case LosingAnswer(id, k) => AnswerLossBalanced(n, m, id, k, key);
    case LosingMessage(id) => MessageLossBalanced(n, m, id, key);
    case ReplyDropping(id) => ReplyDropBalanced(n, m, id, key);
    case Hearing(id, delivered) => HearBalanced(n, m, id, delivered, key);
  }

  // ---------- all runs ----------

  ghost predicate Sound(n: Net) {
    WellFormed(n) && forall key :: Balanced(n, key)
  }

  lemma InitSound(n: Net)
    requires Init(n)
    ensures Sound(n)
  {
  }

  lemma NextSound(n: Net, st: Step)
    requires Sound(n) && Enabled(n, st)
    ensures Sound(Next(n, st))
  {
    hide Next, MoveOf, Does, Balanced, WireOk, RepliesOk, OpenOk, WaitingOk;
    NextWellFormed(n, st);
    forall key ensures Balanced(Next(n, st), key) { MoveBalanced(n, Next(n, st), MoveOf(n, st), key); }
  }

  lemma {:induction false} RunSound(n: Net, steps: seq<Step>)
    requires Sound(n) && Legal(n, steps)
    ensures Sound(After(n, steps))
    decreases |steps|
  {
    if steps != [] {
      NextSound(n, steps[0]);
      RunSound(Next(n, steps[0]), steps[1..]);
    }
  }

  /** In every run, whatever is re-offered, duplicated or lost: the offers ever
      made, the offers the recipient ever got and the answers it ever sent all
      balance, and every message spent in vain was paid for by a re-offer. */
  lemma ExactAccounting(n: Net, steps: seq<Step>, key: TradeKey)
    requires Init(n) && Legal(n, steps)
    ensures
      var m := After(n, steps);
      var t := TallyOf(m.log, key);
      && t.offered == t.settled + t.replaced + One(Out(m, key).Some?)
      && t.arrived == t.answered + t.duplicate + One(In(m, key))
      && t.settled <= t.answered <= t.arrived <= t.offered
      && t.duplicate + t.orphaned <= t.replaced
  {
    InitSound(n);
    RunSound(n, steps);
    assert Balanced(After(n, steps), key);
  }

  /** Everything about `key` that is under way, waiting for an answer or lost. */
  function Tokens(n: Net, key: TradeKey): nat {
    var t := TallyOf(n.log, key);
    |OffersInFlight(n.wire, key)| + One(In(n, key)) + |AnswersInFlight(n.wire, key)|
      + t.offerLost + t.answerLost + t.duplicate + t.orphaned
  }

  lemma TokenConservation(n: Net, steps: seq<Step>, key: TradeKey)
    requires Init(n) && Legal(n, steps)
    ensures
      var m := After(n, steps);
      Tokens(m, key) == One(Out(m, key).Some?) + TallyOf(m.log, key).replaced
  {
    InitSound(n);
    RunSound(n, steps);
    assert Balanced(After(n, steps), key);
  }

  /** The tokens of a key are exactly its outgoing entry if and only if that key
      was never re-offered while still outgoing. In that case no offer collapses
      into another and no answer meets a missing entry. */
  lemma SingleToken(n: Net, steps: seq<Step>, key: TradeKey)
    requires Init(n) && Legal(n, steps)
    ensures
      var m := After(n, steps);
      var t := TallyOf(m.log, key);
      && (t.replaced == 0 <==> Tokens(m, key) == One(Out(m, key).Some?))
      && (t.replaced == 0 ==> Tokens(m, key) <= 1 && t.orphaned == 0 && t.duplicate == 0)
  {
    TokenConservation(n, steps, key);
    ExactAccounting(n, steps, key);
  }

  /** Seen through one key, the network is the single-trade automaton, with its
      tables and wire in step, if and only if the key was never re-offered early. */
  lemma RefinesSingleTrade(n: Net, steps: seq<Step>, key: TradeKey)
    requires Init(n) && Legal(n, steps)
    ensures
      var m := After(n, steps);
      TallyOf(m.log, key).replaced == 0 <==> InPhase(m, key, PhaseOf(m.log, key))
  {
    InitSound(n);
    RunSound(n, steps);
    assert Balanced(After(n, steps), key);
  }
}
