/** The swap protocol in terms of offers, answers and tokens, and the proof that
    every step of the peers' handlers is one of its moves. */
module SwapMoves {
  import opened Protocol
  import opened Handlers
  import opened SwapNetwork

  // ---------- observables ----------

  /** What the offerer will hand over, and where it will write, for `key`. */
  function Out(n: Net, key: TradeKey): Option<(Bytes, Path)> {
    var slot := (key.recipient, key.offer);
    if key.offerer in n.loops && slot in n.loops[key.offerer].offers.outgoing
    then Some(n.loops[key.offerer].offers.outgoing[slot]) else None
  }

  /** The recipient may answer `key`. */
  predicate In(n: Net, key: TradeKey) {
    key.recipient in n.loops && (key.offerer, key.offer) in n.loops[key.recipient].offers.inbound
  }

  /** A sender is parked for request `id`. */
  predicate Waiting(n: Net, id: RequestId) {
    id.from in n.loops && id.number in PendingMap(n.loops[id.from].pending, id.behaviour)
  }

  predicate Issued(n: Net, id: RequestId) {
    id.from in n.loops && id.number < Number(n.loops[id.from].counters, id.behaviour)
  }

  ghost predicate WireOk(n: Net) {
    forall id | id in n.wire :: Issued(n, id) && id !in n.replies
                             && BehaviourOf(n.wire[id].payload) == id.behaviour
  }

  ghost predicate RepliesOk(n: Net) {
    forall id | id in n.replies :: Issued(n, id)
                                && (id.behaviour.TradeAnswering? <==> n.replies[id].BytesReply?)
  }

  ghost predicate OpenOk(n: Net) { forall id | id in n.open :: Issued(n, id) }

  /** A parked sender will still be told an outcome. */
  ghost predicate WaitingOk(n: Net) { forall id | Waiting(n, id) :: id in n.open }

  ghost predicate WellFormed(n: Net) {
    && (forall p | p in n.loops :: n.loops[p].config.localPeer == p)
    && WireOk(n) && RepliesOk(n) && OpenOk(n) && WaitingOk(n)
  }

  // ---------- moves ----------

  datatype Move =
    | Idle
    | Offering(id: RequestId, key: TradeKey, bytes: Bytes, path: Path)
    | Answering(id: RequestId, key: TradeKey, given: Option<Bytes>)
    | Messaging(id: RequestId, to: PeerId, message: string)
    | Arriving(id: RequestId, key: TradeKey)
    | Settling(id: RequestId, key: TradeKey, given: Option<Bytes>)
    | Orphaning(id: RequestId, key: TradeKey)
    | MessageArriving(id: RequestId)
    | LosingOffer(id: RequestId, key: TradeKey)
    | LosingAnswer(id: RequestId, key: TradeKey)
    | LosingMessage(id: RequestId)
    | ReplyDropping(id: RequestId)
    | Hearing(id: RequestId, delivered: bool)

  ghost predicate SameOut(n: Net, m: Net) { forall k :: Out(m, k) == Out(n, k) }

  ghost predicate SameIn(n: Net, m: Net) { forall k :: In(m, k) == In(n, k) }

  ghost predicate OutExcept(n: Net, m: Net, key: TradeKey) {
    forall k | k != key :: Out(m, k) == Out(n, k)
  }

  ghost predicate InExcept(n: Net, m: Net, key: TradeKey) {
    forall k | k != key :: In(m, k) == In(n, k)
  }

  ghost predicate SameWaiting(n: Net, m: Net) { forall i :: Waiting(m, i) == Waiting(n, i) }

  ghost predicate WaitingExcept(n: Net, m: Net, id: RequestId) {
    forall i | i != id :: Waiting(m, i) == Waiting(n, i)
  }

  ghost predicate SamePeers(n: Net, m: Net) {
    && m.loops.Keys == n.loops.Keys
    && (forall p | p in n.loops :: m.loops[p].config == n.loops[p].config)
    && (forall id :: Issued(n, id) ==> Issued(m, id))
  }

  /** A new request `id` leaves its peer. */
  ghost predicate Dispatched(n: Net, m: Net, id: RequestId, env: Envelope) {
    && !Issued(n, id) && Issued(m, id) && BehaviourOf(env.payload) == id.behaviour
    && m.wire == n.wire[id := env] && m.open == n.open + {id} && m.replies == n.replies
    && WaitingExcept(n, m, id)
  }

  ghost predicate MakesOffer(n: Net, m: Net, id: RequestId, key: TradeKey, bytes: Bytes, path: Path) {
    && id.from == key.offerer
    && Dispatched(n, m, id, Envelope(key.recipient, OfferPayload(key.offer)))
    && Waiting(m, id)
    && m.log == n.log + [Offered(key, bytes, path, Out(n, key).Some?)]
    && Out(m, key) == Some((bytes, path)) && OutExcept(n, m, key) && SameIn(n, m)
  }

  function Response(key: TradeKey, given: Option<Bytes>): TradeResponse {
    TradeResponse(key.offer.requestedFileName, key.offer.offeredFileName, given)
  }

  /** Only an answer to an offer that arrived leaves, and only an accept waits. */
  ghost predicate MakesAnswer(n: Net, m: Net, id: RequestId, key: TradeKey, given: Option<Bytes>) {
    && id.from == key.recipient
    && Dispatched(n, m, id, Envelope(key.offerer, AnswerPayload(Response(key, given))))
    && (Waiting(m, id) <==> given.Some?)
    && m.log == n.log + [Answered(key, id, given)]
    && In(n, key) && !In(m, key) && InExcept(n, m, key) && SameOut(n, m)
  }

  ghost predicate MakesMessage(n: Net, m: Net, id: RequestId, to: PeerId, message: string) {
    && Dispatched(n, m, id, Envelope(to, DirectPayload(message)))
    && Waiting(m, id) && m.log == n.log && SameOut(n, m) && SameIn(n, m)
  }

  /** Request `id` reaches its peer, which owes or drops the reply. */
  ghost predicate Received(n: Net, m: Net, id: RequestId, env: Envelope) {
    && id in n.wire && n.wire[id] == env && m.wire == n.wire - {id}
    && m.open == n.open && SameWaiting(n, m)
  }

  ghost predicate Arrives(n: Net, m: Net, id: RequestId, key: TradeKey) {
    && id.from == key.offerer
    && Received(n, m, id, Envelope(key.recipient, OfferPayload(key.offer)))
    && m.replies == n.replies[id := NoResponse]
    && m.log == n.log + [OfferArrived(key, In(n, key))]
    && In(m, key) && InExcept(n, m, key) && SameOut(n, m)
  }

  /** The offer is consumed; an accept writes the given file and releases the
      offered bytes, a decline does neither. */
  ghost predicate Settles(n: Net, m: Net, id: RequestId, key: TradeKey, given: Option<Bytes>) {
    && id.from == key.recipient
    && Received(n, m, id, Envelope(key.offerer, AnswerPayload(Response(key, given))))
    && Out(n, key).Some?
    && (var (bytes, path) := Out(n, key).value;
        var released := if given.Some? then Some(bytes) else None;
        && m.replies == n.replies[id := BytesReply(TradeResponseResponse(
             key.offer.offeredFileName, key.offer.requestedFileName, released))]
        && m.log == n.log + [Settled(key, id, given,
             if given.Some? then [FileWrite(path, given.value)] else [], released)])
    && Out(m, key).None? && OutExcept(n, m, key) && SameIn(n, m)
  }

  ghost predicate Orphans(n: Net, m: Net, id: RequestId, key: TradeKey) {
    && id.from == key.recipient
    && id in n.wire && n.wire[id].payload.AnswerPayload?
    && n.wire[id] == Envelope(key.offerer,
         AnswerPayload(Response(key, n.wire[id].payload.response.requestedFileBytes)))
    && m.wire == n.wire - {id} && m.open == n.open && SameWaiting(n, m)
    && m.replies == n.replies && m.log == n.log + [Orphaned(key, id)]
    && Out(n, key).None? && SameOut(n, m) && SameIn(n, m)
  }

  ghost predicate MessageArrives(n: Net, m: Net, id: RequestId) {
    && id in n.wire && n.wire[id].payload.DirectPayload?
    && m.wire == n.wire - {id} && m.open == n.open && SameWaiting(n, m)
    && m.replies == n.replies[id := NoResponse] && m.log == n.log
    && SameOut(n, m) && SameIn(n, m)
  }

  ghost predicate Idles(n: Net, m: Net) {
    && m.wire == n.wire && m.replies == n.replies && m.open == n.open && m.log == n.log
    && SameOut(n, m) && SameIn(n, m) && SameWaiting(n, m)
  }

  /** Request `id` vanishes, leaving `entries` in the log. */
  ghost predicate Loses(n: Net, m: Net, id: RequestId, entries: seq<Entry>) {
    && id in n.wire && m.wire == n.wire - {id} && m.replies == n.replies && m.open == n.open
    && m.log == n.log + entries && SameOut(n, m) && SameIn(n, m) && SameWaiting(n, m)
  }

  ghost predicate LosesOffer(n: Net, m: Net, id: RequestId, key: TradeKey) {
    && Loses(n, m, id, [OfferLost(key)])
    && id.from == key.offerer && n.wire[id] == Envelope(key.recipient, OfferPayload(key.offer))
  }

  ghost predicate LosesAnswer(n: Net, m: Net, id: RequestId, key: TradeKey) {
    && Loses(n, m, id, [AnswerLost(key, id)])
    && id.from == key.recipient && n.wire[id].to == key.offerer
    && n.wire[id].payload.AnswerPayload? && OfferNamed(n.wire[id].payload.response) == key.offer
  }

  ghost predicate LosesMessage(n: Net, m: Net, id: RequestId) {
    Loses(n, m, id, []) && n.wire[id].payload.DirectPayload?
  }

  ghost predicate DropsReply(n: Net, m: Net, id: RequestId) {
    && id in n.replies && m.replies == n.replies - {id}
    && m.wire == n.wire && m.open == n.open && m.log == n.log
    && SameOut(n, m) && SameIn(n, m) && SameWaiting(n, m)
  }

  function Heard(n: Net, id: RequestId, delivered: bool): Result<Option<Bytes>> {
    if delivered && id in n.replies && n.replies[id].BytesReply?
    then Ok(n.replies[id].reply.offeredFileBytes) else Err
  }

  /** The requester is told its one outcome; an accept call hears the bytes. */
  ghost predicate Hears(n: Net, m: Net, id: RequestId, delivered: bool) {
    && id in n.open && m.open == n.open - {id} && m.wire == n.wire
    && (delivered ==> id in n.replies)
    && m.replies == (if delivered then n.replies - {id} else n.replies)
    && !Waiting(m, id) && WaitingExcept(n, m, id)
    && m.log == n.log + (if id.behaviour.TradeAnswering? && Waiting(n, id)
                         then [Told(id, Heard(n, id, delivered))] else [])
    && SameOut(n, m) && SameIn(n, m)
  }

  ghost predicate Does(n: Net, m: Net, mv: Move) {
    && SamePeers(n, m)
    && match mv
       case Idle => Idles(n, m)
       case Offering(id, key, bytes, path) => MakesOffer(n, m, id, key, bytes, path)
       case Answering(id, key, given) => MakesAnswer(n, m, id, key, given)
       case Messaging(id, to, message) => MakesMessage(n, m, id, to, message)
       case Arriving(id, key) => Arrives(n, m, id, key)
       case Settling(id, key, given) => Settles(n, m, id, key, given)
       case Orphaning(id, key) => Orphans(n, m, id, key)
       case MessageArriving(id) => MessageArrives(n, m, id)
       case LosingOffer(id, key) => LosesOffer(n, m, id, key)
       case LosingAnswer(id, key) => LosesAnswer(n, m, id, key)
       case LosingMessage(id) => LosesMessage(n, m, id)
       case ReplyDropping(id) => DropsReply(n, m, id)
       case Hearing(id, delivered) => Hears(n, m, id, delivered)
  }

  // ---------- what a turn does to the network ----------

  lemma TakeSilent(n: Net, p: PeerId, turn: Turn)
    requires forall e | e in turn.effects :: !e.Send? && !e.Respond?
    ensures Take(n, p, turn) == n.(loops := n.loops[p := turn.next])
  {
    PerformSilent(n.(loops := n.loops[p := turn.next]), p, turn.effects);
  }

  lemma {:induction false} PerformSilent(n: Net, p: PeerId, es: seq<Effect>)
    requires forall e | e in es :: !e.Send? && !e.Respond?
    ensures PerformAll(n, p, es) == n
    decreases |es|
  {
    if es != [] {
      assert es[0] in es;
      PerformSilent(n, p, es[1..]);
    }
  }

  lemma {:induction false} PerformOne(n: Net, p: PeerId, before: seq<Effect>, e: Effect, after: seq<Effect>)
    requires forall x | x in before + after :: !x.Send? && !x.Respond?
    ensures PerformAll(n, p, before + [e] + after) == Perform(n, p, e)
    decreases |before|
  {
    var es := before + [e] + after;
    if before == [] {
      assert es[0] == e && es[1..] == after;
      PerformSilent(Perform(n, p, e), p, after);
    } else {
      assert es[0] == before[0] && es[1..] == before[1..] + [e] + after;
      assert before[0] in before + after;
      PerformOne(n, p, before[1..], e, after);
    }
  }

  lemma TakeSend(n: Net, p: PeerId, turn: Turn)
    requires p in n.loops && |turn.effects| == 1 && Sends(turn.effects)
    ensures
      var e := turn.effects[0];
      var id := RequestId(BehaviourOf(e.payload), p, e.number);
      Take(n, p, turn) == n.(loops := n.loops[p := turn.next],
                             wire := n.wire[id := Envelope(e.to, e.payload)], open := n.open + {id})
  {
    assert turn.effects == [] + [turn.effects[0]] + [];
    PerformOne(n.(loops := n.loops[p := turn.next]), p, [], turn.effects[0], []);
  }

  /** Turns that answer no request leave the network as it was. */
  lemma TakeReport(n: Net, p: PeerId, e: SwarmEvent)
    requires p in n.loops
    requires !e.OfferRequested? && !e.AnswerRequested? && !e.DirectRequested?
    ensures Take(n, p, EventTurn(n.loops[p], e)) ==
              n.(loops := n.loops[p := EventTurn(n.loops[p], e).next])
  {
    TakeSilent(n, p, EventTurn(n.loops[p], e));
  }

  lemma TakeOffer(n: Net, p: PeerId, id: RequestId, offer: TradeOffer)
    requires p in n.loops
    ensures
      var turn := OfferRequestedTurn(n.loops[p], id, offer);
      Take(n, p, turn) == n.(loops := n.loops[p := turn.next], replies := n.replies[id := NoResponse])
  {
    var turn := OfferRequestedTurn(n.loops[p], id, offer);
    var es := turn.effects;
    assert es == [] + [es[0]] + [es[1]];
    PerformOne(n.(loops := n.loops[p := turn.next]), p, [], es[0], [es[1]]);
  }

  lemma TakeDirect(n: Net, p: PeerId, id: RequestId, message: string)
    requires p in n.loops
    ensures
      var turn := DirectRequestedTurn(n.loops[p], id, message);
      Take(n, p, turn) == n.(loops := n.loops[p := turn.next], replies := n.replies[id := NoResponse])
  {
    var turn := DirectRequestedTurn(n.loops[p], id, message);
    var es := turn.effects;
    assert es == [es[0]] + [es[1]] + [];
    PerformOne(n.(loops := n.loops[p := turn.next]), p, [es[0]], es[1], []);
  }

  lemma TakeAnswer(n: Net, p: PeerId, id: RequestId, response: TradeResponse)
    requires p in n.loops
    ensures
      var turn := AnswerRequestedTurn(n.loops[p], id, response);
      var slot := (id.from, OfferNamed(response));
      var given := response.requestedFileBytes;
      if slot !in n.loops[p].offers.outgoing then
        turn.effects == [] && Take(n, p, turn) == n.(loops := n.loops[p := turn.next])
      else
        var (bytes, path) := n.loops[p].offers.outgoing[slot];
        var released := if given.Some? then Some(bytes) else None;
        && turn.effects != []
        && Writes(turn.effects) == (if given.Some? then [FileWrite(path, given.value)] else [])
        && Released(turn.effects) == released
        && Take(n, p, turn) == n.(
             loops := n.loops[p := turn.next],
             replies := n.replies[id := BytesReply(TradeResponseResponse(
               response.offeredFileName, response.requestedFileName, released))])
  {
    var turn := AnswerRequestedTurn(n.loops[p], id, response);
    var es := turn.effects;
    var quiet := n.(loops := n.loops[p := turn.next]);
    if es == [] {
      TakeSilent(n, p, turn);
    } else if response.requestedFileBytes.None? {
      assert es == [es[0]] + [es[1]] + [];
      ReadTwo(es);
      PerformOne(quiet, p, [es[0]], es[1], []);
    } else {
      assert es == [es[0], es[1]] + [es[2]] + [];
      assert es[0].Emit? && es[1].WriteFile? && es[2].Respond?;
      ReadTwo(es[1..]);
      PerformOne(quiet, p, [es[0], es[1]], es[2], []);
    }
  }

  lemma ReadTwo(es: seq<Effect>)
    requires |es| == 2 && es[1].Respond? && es[1].body.BytesReply?
    requires es[0].WriteFile? || es[0].Emit?
    ensures Writes(es) == if es[0].WriteFile? then [FileWrite(es[0].path, es[0].bytes)] else []
    ensures Released(es) == es[1].body.reply.offeredFileBytes
  {
    assert Writes(es[1..]) == [] + Writes(es[1..][1..]);
    assert Released(es[1..]) == es[1].body.reply.offeredFileBytes;
  }

  // ---------- every step is a move ----------

  function MoveOf(n: Net, st: Step): Move
    requires Enabled(n, st)
  {
    match st
    case UserCommand(p, c) => CommandMove(n.loops[p], p, c)
    case LocalEvent(_, _) => Idle
    case Deliver(id) => ArrivalMove(n, id, n.wire[id])
    case LoseRequest(id) => LossMove(id, n.wire[id])
    case DeliverReply(id) => Hearing(id, true)
    case LoseReply(id) => ReplyDropping(id)
    case ReportFailure(id) => Hearing(id, false)
  }

  function LossMove(id: RequestId, env: Envelope): Move {
    match env.payload
    case OfferPayload(offer) => LosingOffer(id, TradeKey(id.from, env.to, offer))
    case AnswerPayload(response) => LosingAnswer(id, TradeKey(env.to, id.from, OfferNamed(response)))
    case DirectPayload(_) => LosingMessage(id)
  }

  function CommandMove(s: LoopState, p: PeerId, c: Command): Move {
    match c
    case MakeTradeOffer(offered, bytes, to, requested, path, _) =>
      if to == p then Idle else
      Offering(RequestId(TradeOffering, p, Number(s.counters, TradeOffering)),
               TradeKey(p, to, TradeOffer(offered, requested)), bytes, path)
    case RespondTrade(to, requested, offered, given, _) =>
      if (to, TradeOffer(offered, requested)) !in s.offers.inbound then Idle else
      Answering(RequestId(TradeAnswering, p, Number(s.counters, TradeAnswering)),
                TradeKey(to, p, TradeOffer(offered, requested)), given)
    case DirectMessage(to, message, _) =>
      if to == p then Idle else
      Messaging(RequestId(DirectMessaging, p, Number(s.counters, DirectMessaging)), to, message)
    case _ => Idle
  }

  function ArrivalMove(n: Net, id: RequestId, env: Envelope): Move {
    match env.payload
    case OfferPayload(offer) => Arriving(id, TradeKey(id.from, env.to, offer))
    case AnswerPayload(response) =>
      var key := TradeKey(env.to, id.from, OfferNamed(response));
      if Out(n, key).None? then Orphaning(id, key) else Settling(id, key, response.requestedFileBytes)
    case DirectPayload(_) => MessageArriving(id)
  }

  /** Only peer `p`'s tables differ between `n` and `m`. */
  lemma Lift(n: Net, m: Net, p: PeerId)
    requires p in n.loops && p in m.loops && m.loops == n.loops[p := m.loops[p]]
    ensures
      var s, t := n.loops[p], m.loops[p];
      && (t.config == s.config && (forall b :: Number(t.counters, b) >= Number(s.counters, b)) ==> SamePeers(n, m))
      && (t.offers.outgoing == s.offers.outgoing ==> SameOut(n, m))
      && (t.offers.inbound == s.offers.inbound ==> SameIn(n, m))
      && ((forall b :: PendingMap(t.pending, b) == PendingMap(s.pending, b)) ==> SameWaiting(n, m))
  {
  }

  /** As `Lift`, for one table entry. */
  lemma LiftEntry(n: Net, m: Net, p: PeerId, key: TradeKey, id: RequestId)
    requires p in n.loops && p in m.loops && m.loops == n.loops[p := m.loops[p]]
    ensures
      var s, t := n.loops[p], m.loops[p];
      var slot, post := (key.recipient, key.offer), (key.offerer, key.offer);
      && (key.offerer == p && t.offers.outgoing - {slot} == s.offers.outgoing - {slot} ==> OutExcept(n, m, key))
      && (key.recipient == p && t.offers.inbound - {post} == s.offers.inbound - {post} ==> InExcept(n, m, key))
      && (id.from == p && (forall b | b != id.behaviour :: PendingMap(t.pending, b) == PendingMap(s.pending, b))
          && PendingMap(t.pending, id.behaviour) - {id.number} == PendingMap(s.pending, id.behaviour) - {id.number}
          ==> WaitingExcept(n, m, id))
  {
    var s, t := n.loops[p], m.loops[p];
    var slot, post := (key.recipient, key.offer), (key.offerer, key.offer);
    if key.offerer == p && t.offers.outgoing - {slot} == s.offers.outgoing - {slot} {
      forall k | k != key ensures Out(m, k) == Out(n, k) {
        var other := (k.recipient, k.offer);
        if k.offerer == p {
          assert other != slot;
          assert other in t.offers.outgoing - {slot} <==> other in s.offers.outgoing - {slot};
          if other in t.offers.outgoing {
            assert (t.offers.outgoing - {slot})[other] == (s.offers.outgoing - {slot})[other];
          }
        }
      }
    }
    if key.recipient == p && t.offers.inbound - {post} == s.offers.inbound - {post} {
      forall k | k != key ensures In(m, k) == In(n, k) {
        var other := (k.offerer, k.offer);
        if k.recipient == p {
          assert other in t.offers.inbound - {post} <==> other in s.offers.inbound - {post};
        }
      }
    }
    if id.from == p && (forall b | b != id.behaviour :: PendingMap(t.pending, b) == PendingMap(s.pending, b))
       && PendingMap(t.pending, id.behaviour) - {id.number} == PendingMap(s.pending, id.behaviour) - {id.number} {
      forall i | i != id ensures Waiting(m, i) == Waiting(n, i) {
        if i.from == p && i.behaviour == id.behaviour {
          assert i.number in PendingMap(t.pending, id.behaviour) - {id.number}
            <==> i.number in PendingMap(s.pending, id.behaviour) - {id.number};
        }
      }
    }
  }

  ghost predicate SameTrade(s: LoopState, t: LoopState) {
    && t.config == s.config && t.counters == s.counters
    && t.offers == s.offers
  }

  ghost predicate SamePending(s: LoopState, t: LoopState) {
    forall b :: PendingMap(t.pending, b) == PendingMap(s.pending, b)
  }

  lemma LocalTables(s: LoopState, e: SwarmEvent)
    requires Local(e)
    ensures SameTrade(s, EventTurn(s, e).next) && SamePending(s, EventTurn(s, e).next)
  {
  }

  lemma QuietIsIdle(n: Net, m: Net, p: PeerId, t: LoopState)
    requires p in n.loops && m == n.(loops := n.loops[p := t])
    requires SameTrade(n.loops[p], t) && SamePending(n.loops[p], t)
    ensures Does(n, m, Idle)
  {
    Lift(n, m, p);
  }

  lemma LocalDoes(n: Net, p: PeerId, e: SwarmEvent)
    requires Enabled(n, LocalEvent(p, e))
    ensures Does(n, Next(n, LocalEvent(p, e)), Idle)
  {
    hide EventTurn;
    TakeReport(n, p, e);
    LocalTables(n.loops[p], e);
    QuietIsIdle(n, Next(n, LocalEvent(p, e)), p, EventTurn(n.loops[p], e).next);
  }

  // Reports: replies and failures.

  predicate Report(id: RequestId, e: SwarmEvent) {
    match id.behaviour
    case TradeOffering => e == OfferAcknowledged(id.number) || e == OfferFailed(id.number)
    case TradeAnswering => e == AnswerFailed(id.number) || (e.AnswerReplied? && e.number == id.number)
    case DirectMessaging => e == DirectAcknowledged(id.number) || e == DirectFailed(id.number)
  }

  ghost predicate OnePending(s: LoopState, t: LoopState, id: RequestId) {
    && (forall b | b != id.behaviour :: PendingMap(t.pending, b) == PendingMap(s.pending, b))
    && PendingMap(t.pending, id.behaviour) == PendingMap(s.pending, id.behaviour) - {id.number}
  }

  /** A report about request `id` frees its sender, who is told, and nothing else. */
  ghost predicate FreesSender(s: LoopState, id: RequestId, e: SwarmEvent) {
    var turn := EventTurn(s, e);
    && SameTrade(s, turn.next) && OnePending(s, turn.next, id)
    && ToldEntries(id, turn.effects) ==
         if id.behaviour.TradeAnswering? && id.number in s.pending.tradeResponseResponse
         then [Told(id, if e.AnswerReplied? then Ok(e.reply.offeredFileBytes) else Err)] else []
  }

  lemma OfferReportTables(s: LoopState, id: RequestId, e: SwarmEvent)
    requires Report(id, e) && id.behaviour.TradeOffering?
    ensures FreesSender(s, id, e)
  {
  }

  lemma AnswerReportTables(s: LoopState, id: RequestId, e: SwarmEvent)
    requires Report(id, e) && id.behaviour.TradeAnswering?
    ensures FreesSender(s, id, e)
  {
  }

  lemma MessageReportTables(s: LoopState, id: RequestId, e: SwarmEvent)
    requires Report(id, e) && id.behaviour.DirectMessaging?
    ensures FreesSender(s, id, e)
  {
  }

  lemma ReportTables(s: LoopState, id: RequestId, e: SwarmEvent)
    requires Report(id, e)
    ensures FreesSender(s, id, e)
  {
    hide FreesSender;
    match id.behaviour
    case TradeOffering => OfferReportTables(s, id, e);
    case TradeAnswering => AnswerReportTables(s, id, e);
    case DirectMessaging => MessageReportTables(s, id, e);
  }

  lemma ReportIsHearing(n: Net, m: Net, id: RequestId, t: LoopState, delivered: bool, told: seq<Entry>)
    requires id.from in n.loops && id in n.open && (delivered ==> id in n.replies)
    requires m == n.(loops := n.loops[id.from := t], open := n.open - {id}, log := n.log + told,
                     replies := if delivered then n.replies - {id} else n.replies)
    requires SameTrade(n.loops[id.from], t) && OnePending(n.loops[id.from], t, id)
    requires told == if id.behaviour.TradeAnswering? && Waiting(n, id)
                     then [Told(id, Heard(n, id, delivered))] else []
    ensures Does(n, m, Hearing(id, delivered))
  {
    Lift(n, m, id.from);
    LiftEntry(n, m, id.from, TradeKey(id.from, id.from, TradeOffer("", "")), id);
  }

  lemma ReplyDoes(n: Net, id: RequestId)
    requires WellFormed(n) && Enabled(n, DeliverReply(id))
    ensures Does(n, Next(n, DeliverReply(id)), Hearing(id, true))
  {
    hide EventTurn;
    var e := ReplyEvent(id, n.replies[id]);
    TakeReport(n.(replies := n.replies - {id}, open := n.open - {id}), id.from, e);
    ReportTables(n.loops[id.from], id, e);
    var turn := EventTurn(n.loops[id.from], e);
    ReportIsHearing(n, Next(n, DeliverReply(id)), id, turn.next, true, ToldEntries(id, turn.effects));
  }

  lemma FailureDoes(n: Net, id: RequestId)
    requires Enabled(n, ReportFailure(id))
    ensures Does(n, Next(n, ReportFailure(id)), Hearing(id, false))
  {
    hide EventTurn;
    var e := FailureEvent(id);
    TakeReport(n.(open := n.open - {id}), id.from, e);
    ReportTables(n.loops[id.from], id, e);
    var turn := EventTurn(n.loops[id.from], e);
    ReportIsHearing(n, Next(n, ReportFailure(id)), id, turn.next, false, ToldEntries(id, turn.effects));
  }

  // Arrivals.

  lemma OfferArrivalDoes(n: Net, id: RequestId)
    requires Enabled(n, Deliver(id)) && n.wire[id].payload.OfferPayload?
    ensures Does(n, Next(n, Deliver(id)), ArrivalMove(n, id, n.wire[id]))
  {
    var p, offer := n.wire[id].to, n.wire[id].payload.offer;
    hide Take, SamePeers, SameOut, SameIn, SameWaiting, OutExcept, InExcept, WaitingExcept, Waiting, Issued;
    TakeOffer(n.(wire := n.wire - {id}), p, id, offer);
    var m := Next(n, Deliver(id));
    Lift(n, m, p);
    LiftEntry(n, m, p, TradeKey(id.from, p, offer), id);
  }

  lemma AnswerRequestTables(s: LoopState, id: RequestId, response: TradeResponse)
    ensures
      var t := AnswerRequestedTurn(s, id, response).next;
      && t.config == s.config && t.counters == s.counters && t.pending == s.pending
      && t.offers == s.offers.(outgoing := s.offers.outgoing - {(id.from, OfferNamed(response))})
  {
  }

  lemma AnswerArrivalDoes(n: Net, id: RequestId)
    requires Enabled(n, Deliver(id)) && n.wire[id].payload.AnswerPayload?
    ensures Does(n, Next(n, Deliver(id)), ArrivalMove(n, id, n.wire[id]))
  {
    hide AnswerRequestedTurn, Take, Writes, Released, SamePeers, SameOut, SameIn, SameWaiting, OutExcept, InExcept,
         WaitingExcept, Waiting, Issued;
    var p, response := n.wire[id].to, n.wire[id].payload.response;
    TakeAnswer(n.(wire := n.wire - {id}), p, id, response);
    AnswerRequestTables(n.loops[p], id, response);
    var m := Next(n, Deliver(id));
    var key := TradeKey(p, id.from, OfferNamed(response));
    Lift(n, m, p);
    LiftEntry(n, m, p, key, id);
  }

  lemma MessageArrivalDoes(n: Net, id: RequestId)
    requires Enabled(n, Deliver(id)) && n.wire[id].payload.DirectPayload?
    ensures Does(n, Next(n, Deliver(id)), MessageArriving(id))
  {
    hide Take, SamePeers, SameOut, SameIn, SameWaiting, OutExcept, InExcept, WaitingExcept, Waiting, Issued;
    TakeDirect(n.(wire := n.wire - {id}), n.wire[id].to, id, n.wire[id].payload.message);
    Lift(n, Next(n, Deliver(id)), n.wire[id].to);
  }

  lemma LossDoes(n: Net, id: RequestId)
    requires Enabled(n, LoseRequest(id))
    ensures Does(n, Next(n, LoseRequest(id)), LossMove(id, n.wire[id]))
  {
  }

  // Commands.

  lemma QuietCommandTables(s: LoopState, p: PeerId, c: Command)
    requires s.config.localPeer == p && CommandMove(s, p, c).Idle?
    ensures
      var turn := CommandTurn(s, c);
      && (forall e | e in turn.effects :: !e.Send? && !e.Respond?)
      && turn.next.config == s.config && turn.next.offers == s.offers
      && SamePending(s, turn.next)
      && (forall b :: Number(turn.next.counters, b) == Number(s.counters, b))
  {
  }

  lemma QuietCommandDoes(n: Net, p: PeerId, c: Command)
    requires WellFormed(n) && Enabled(n, UserCommand(p, c)) && CommandMove(n.loops[p], p, c).Idle?
    ensures Does(n, Next(n, UserCommand(p, c)), Idle)
  {
    QuietCommandTables(n.loops[p], p, c);
    TakeSilent(n, p, CommandTurn(n.loops[p], c));
    Lift(n, Next(n, UserCommand(p, c)), p);
  }

  /** Peer `p` uses its next number for request `id` and parks at most that sender. */
  ghost predicate NumberUsed(s: LoopState, t: LoopState, id: RequestId) {
    && t.config == s.config
    && id.number == Number(s.counters, id.behaviour)
    && (forall b :: Number(t.counters, b) == Number(s.counters, b) + if b == id.behaviour then 1 else 0)
    && (forall b | b != id.behaviour :: PendingMap(t.pending, b) == PendingMap(s.pending, b))
    && PendingMap(t.pending, id.behaviour) - {id.number} == PendingMap(s.pending, id.behaviour) - {id.number}
  }

  lemma Dispatch(n: Net, m: Net, p: PeerId, id: RequestId, env: Envelope)
    requires p in n.loops && p in m.loops && m.loops == n.loops[p := m.loops[p]] && id.from == p
    requires NumberUsed(n.loops[p], m.loops[p], id) && BehaviourOf(env.payload) == id.behaviour
    requires m.wire == n.wire[id := env] && m.open == n.open + {id} && m.replies == n.replies
    ensures SamePeers(n, m) && Dispatched(n, m, id, env)
  {
    Lift(n, m, p);
    LiftEntry(n, m, p, TradeKey(p, p, TradeOffer("", "")), id);
  }

  /** What the turn of a command that sends `payload` to `to` as move `mv` does. */
  ghost predicate SendsAs(s: LoopState, p: PeerId, c: Command, mv: Move, to: PeerId, payload: Payload, es: seq<Entry>)
    requires Sending(mv)
  {
    var turn := CommandTurn(s, c);
    && turn.effects == [Send(mv.id.number, to, payload)] && BehaviourOf(payload) == mv.id.behaviour && mv.id.from == p
    && CommandEntries(s, p, c, turn.effects) == es
    && NumberUsed(s, turn.next, mv.id)
  }

  predicate Sending(mv: Move) { mv.Offering? || mv.Answering? || mv.Messaging? }

  lemma OfferTables(s: LoopState, p: PeerId, c: Command)
    requires s.config.localPeer == p && c.MakeTradeOffer? && CommandMove(s, p, c).Offering?
    ensures
      var mv, t := CommandMove(s, p, c), CommandTurn(s, c).next;
      var slot := (mv.key.recipient, mv.key.offer);
      && SendsAs(s, p, c, mv, mv.key.recipient, OfferPayload(mv.key.offer),
                 [Offered(mv.key, mv.bytes, mv.path, slot in s.offers.outgoing)])
      && mv.id.number in PendingMap(t.pending, mv.id.behaviour)
      && t.offers == s.offers.(outgoing := s.offers.outgoing[slot := (mv.bytes, mv.path)])
  {
  }

  lemma AnswerTables(s: LoopState, p: PeerId, c: Command)
    requires s.config.localPeer == p && c.RespondTrade? && ClientShaped(c) && CommandMove(s, p, c).Answering?
    requires s.counters.answering !in s.pending.tradeResponseResponse
    ensures
      var mv, t := CommandMove(s, p, c), CommandTurn(s, c).next;
      var post := (mv.key.offerer, mv.key.offer);
      && SendsAs(s, p, c, mv, mv.key.offerer, AnswerPayload(Response(mv.key, mv.given)),
                 [Answered(mv.key, mv.id, mv.given)])
      && (mv.id.number in PendingMap(t.pending, mv.id.behaviour) <==> mv.given.Some?)
      && post in s.offers.inbound && t.offers == s.offers.(inbound := s.offers.inbound - {post})
  {
  }

  lemma MessageTables(s: LoopState, p: PeerId, c: Command)
    requires s.config.localPeer == p && c.DirectMessage? && CommandMove(s, p, c).Messaging?
    ensures
      var mv, t := CommandMove(s, p, c), CommandTurn(s, c).next;
      && SendsAs(s, p, c, mv, mv.to, DirectPayload(mv.message), [])
      && mv.id.number in PendingMap(t.pending, mv.id.behaviour) && t.offers == s.offers
  {
  }

  /** Such a turn as a step of the network. */
  lemma SendDoes(n: Net, p: PeerId, c: Command, mv: Move, to: PeerId, payload: Payload, es: seq<Entry>)
    requires Enabled(n, UserCommand(p, c)) && Sending(mv) && SendsAs(n.loops[p], p, c, mv, to, payload, es)
    ensures
      var m := Next(n, UserCommand(p, c));
      && SamePeers(n, m) && Dispatched(n, m, mv.id, Envelope(to, payload)) && m.log == n.log + es
      && m.loops == n.loops[p := CommandTurn(n.loops[p], c).next]
  {
    hide CommandTurn, CommandEntries, NumberUsed, SamePeers, Dispatched;
    TakeSend(n, p, CommandTurn(n.loops[p], c));
    Dispatch(n, Next(n, UserCommand(p, c)), p, mv.id, Envelope(to, payload));
  }

  lemma OfferCommandDoes(n: Net, p: PeerId, c: Command)
    requires WellFormed(n) && Enabled(n, UserCommand(p, c))
    requires c.MakeTradeOffer? && CommandMove(n.loops[p], p, c).Offering?
    ensures Does(n, Next(n, UserCommand(p, c)), CommandMove(n.loops[p], p, c))
  {
    hide Next, CommandTurn, NumberUsed, SamePeers, Dispatched, WireOk, RepliesOk, OpenOk, WaitingOk, SendsAs;
    var m, mv := Next(n, UserCommand(p, c)), CommandMove(n.loops[p], p, c);
    OfferTables(n.loops[p], p, c);
    SendDoes(n, p, c, mv, mv.key.recipient, OfferPayload(mv.key.offer),
             [Offered(mv.key, mv.bytes, mv.path, Out(n, mv.key).Some?)]);
    Lift(n, m, p);
    LiftEntry(n, m, p, mv.key, mv.id);
  }

  lemma AnswerCommandDoes(n: Net, p: PeerId, c: Command)
    requires WellFormed(n) && Enabled(n, UserCommand(p, c))
    requires c.RespondTrade? && CommandMove(n.loops[p], p, c).Answering?
    ensures Does(n, Next(n, UserCommand(p, c)), CommandMove(n.loops[p], p, c))
  {
    hide Next, CommandTurn, NumberUsed, SamePeers, Dispatched, WireOk, RepliesOk, OpenOk, SendsAs;
    var m, mv := Next(n, UserCommand(p, c)), CommandMove(n.loops[p], p, c);
    NextNameFree(n, p);
    AnswerTables(n.loops[p], p, c);
    SendDoes(n, p, c, mv, mv.key.offerer, AnswerPayload(Response(mv.key, mv.given)),
             [Answered(mv.key, mv.id, mv.given)]);
    Lift(n, m, p);
    LiftEntry(n, m, p, mv.key, mv.id);
  }

  lemma NextNameFree(n: Net, p: PeerId)
    requires WellFormed(n) && p in n.loops
    ensures n.loops[p].counters.answering !in n.loops[p].pending.tradeResponseResponse
  {
    var id := RequestId(TradeAnswering, p, n.loops[p].counters.answering);
    assert !Issued(n, id);
    assert Waiting(n, id) ==> id in n.open;
  }

  lemma MessageCommandDoes(n: Net, p: PeerId, c: Command)
    requires WellFormed(n) && Enabled(n, UserCommand(p, c))
    requires c.DirectMessage? && CommandMove(n.loops[p], p, c).Messaging?
    ensures Does(n, Next(n, UserCommand(p, c)), CommandMove(n.loops[p], p, c))
  {
    hide Next, CommandTurn, NumberUsed, SamePeers, Dispatched, WireOk, RepliesOk, OpenOk, WaitingOk, SendsAs;
    var m, mv := Next(n, UserCommand(p, c)), CommandMove(n.loops[p], p, c);
    MessageTables(n.loops[p], p, c);
    SendDoes(n, p, c, mv, mv.to, DirectPayload(mv.message), []);
    Lift(n, m, p);
  }

  lemma CommandDoes(n: Net, p: PeerId, c: Command)
    requires WellFormed(n) && Enabled(n, UserCommand(p, c))
    ensures Does(n, Next(n, UserCommand(p, c)), CommandMove(n.loops[p], p, c))
  {
    hide Next, Does, WellFormed;
    match CommandMove(n.loops[p], p, c)
    case Offering(_, _, _, _) => OfferCommandDoes(n, p, c);
    case Answering(_, _, _) => AnswerCommandDoes(n, p, c);
    case Messaging(_, _, _) => MessageCommandDoes(n, p, c);
    case _ => QuietCommandDoes(n, p, c);
  }

  lemma ReplyLossDoes(n: Net, id: RequestId)
    requires Enabled(n, LoseReply(id))
    ensures Does(n, Next(n, LoseReply(id)), ReplyDropping(id))
  {
  }

  lemma StepDoes(n: Net, st: Step)
    requires WellFormed(n) && Enabled(n, st)
    ensures Does(n, Next(n, st), MoveOf(n, st))
  {
    hide Next, Does, WellFormed;
    match st
    case UserCommand(p, c) => CommandDoes(n, p, c);
    case LocalEvent(p, e) => LocalDoes(n, p, e);
    case Deliver(id) =>
      match n.wire[id].payload {
        case OfferPayload(_) => OfferArrivalDoes(n, id);
        case AnswerPayload(_) => AnswerArrivalDoes(n, id);
        case DirectPayload(_) => MessageArrivalDoes(n, id);
      }
    case LoseRequest(id) => LossDoes(n, id);
    case DeliverReply(id) => ReplyDoes(n, id);
    case LoseReply(id) => ReplyLossDoes(n, id);
    case ReportFailure(id) => FailureDoes(n, id);
  }

  lemma MoveWire(n: Net, m: Net, mv: Move)
    requires WireOk(n) && RepliesOk(n) && Does(n, m, mv)
    ensures WireOk(m)
  {
    hide Out, In, SameOut, SameIn, OutExcept, InExcept, SameWaiting, WaitingExcept, Waiting;
  }

  lemma ArrivalReplies(n: Net, m: Net, mv: Move)
    requires WireOk(n) && RepliesOk(n) && Does(n, m, mv)
    requires mv.Arriving? || mv.Settling? || mv.Orphaning? || mv.MessageArriving?
    ensures RepliesOk(m)
  {
    hide Out, In, SameOut, SameIn, OutExcept, InExcept, SameWaiting, WaitingExcept, Waiting, Issued;
  }

  lemma OtherReplies(n: Net, m: Net, mv: Move)
    requires RepliesOk(n) && Does(n, m, mv)
    requires !mv.Arriving? && !mv.Settling? && !mv.Orphaning? && !mv.MessageArriving?
    ensures RepliesOk(m)
  {
    hide Out, In, SameOut, SameIn, OutExcept, InExcept, SameWaiting, WaitingExcept, Waiting, Issued;
  }

  lemma MoveReplies(n: Net, m: Net, mv: Move)
    requires WireOk(n) && RepliesOk(n) && Does(n, m, mv)
    ensures RepliesOk(m)
  {
    hide Does, WireOk, RepliesOk;
    if mv.Arriving? || mv.Settling? || mv.Orphaning? || mv.MessageArriving? {
      ArrivalReplies(n, m, mv);
    } else {
      OtherReplies(n, m, mv);
    }
  }

  lemma MoveOpen(n: Net, m: Net, mv: Move)
    requires OpenOk(n) && Does(n, m, mv)
    ensures OpenOk(m)
  {
    hide Out, In, SameOut, SameIn, OutExcept, InExcept, SameWaiting, WaitingExcept, Waiting;
  }

  lemma MoveWaiting(n: Net, m: Net, mv: Move)
    requires WaitingOk(n) && Does(n, m, mv)
    ensures WaitingOk(m)
  {
    hide Out, In, SameOut, SameIn, OutExcept, InExcept, Waiting, Issued, SamePeers;
    forall id | Waiting(m, id) ensures id in m.open { }
  }

  lemma NextWellFormed(n: Net, st: Step)
    requires WellFormed(n) && Enabled(n, st)
    ensures Does(n, Next(n, st), MoveOf(n, st)) && WellFormed(Next(n, st))
  {
    hide Next, MoveOf;
    StepDoes(n, st);
    MoveWire(n, Next(n, st), MoveOf(n, st));
    MoveReplies(n, Next(n, st), MoveOf(n, st));
    MoveOpen(n, Next(n, st), MoveOf(n, st));
    MoveWaiting(n, Next(n, st), MoveOf(n, st));
  }
}
