/** Any number of peers running the trade handlers over a lossy request-response
    network, with a log of what happened to every offer and answer.

    Network contract: request names are fresh; a request is delivered at most
    once; the requester learns of at most one reply or failure per request; a
    reported failure says nothing about whether the request was, or will be,
    delivered.

    A handler is one step here, as if its peer's main task were always ready for an
    event, and a user may issue a command at any time. `Fleet` has both tasks of every
    peer, effect by effect; `FleetProjection` shows that each of its runs is a run of
    this network in which the log says what handlers set out to do. */
module SwapNetwork {
  import opened Protocol
  import opened Handlers

  datatype Envelope = Envelope(to: PeerId, payload: Payload)

  /** One offered swap: who offered it, to whom, and the two file names. */
  datatype TradeKey = TradeKey(offerer: PeerId, recipient: PeerId, offer: TradeOffer)

  datatype FileWrite = FileWrite(path: Path, bytes: Bytes)

  datatype Entry =
    | Offered(key: TradeKey, bytes: Bytes, path: Path, replacing: bool)
    | OfferLost(key: TradeKey)
    | OfferArrived(key: TradeKey, duplicate: bool)
    | Answered(key: TradeKey, id: RequestId, given: Option<Bytes>)
    | AnswerLost(key: TradeKey, id: RequestId)
    // The offerer found the offer: files it wrote, bytes it put in its reply.
    | Settled(key: TradeKey, id: RequestId, given: Option<Bytes>,
              written: seq<FileWrite>, released: Option<Bytes>)
    // The offerer found no such offer and dropped the channel.
    | Orphaned(key: TradeKey, id: RequestId)
    // The recipient's accept call was told this.
    | Told(id: RequestId, heard: Result<Option<Bytes>>)

  datatype Net = Net(
    loops: map<PeerId, LoopState>,
    wire: map<RequestId, Envelope>,     // requests not yet delivered
    replies: map<RequestId, ReplyBody>, // replies not yet delivered
    open: set<RequestId>,               // requests whose sender was told nothing yet
    log: seq<Entry>)

  datatype Step =
    | UserCommand(peer: PeerId, command: Command)
    | LocalEvent(peer: PeerId, event: SwarmEvent)
    | Deliver(id: RequestId)
    | LoseRequest(id: RequestId)
    | DeliverReply(id: RequestId)
    | LoseReply(id: RequestId)
    | ReportFailure(id: RequestId)

  predicate NetworkStep(st: Step) { !st.UserCommand? && !st.LocalEvent? }

  /** `Client` hands over a bytes sender exactly when it accepts. */
  predicate ClientShaped(c: Command) {
    c.RespondTrade? ==> (c.requestedFileBytes.Some? <==> c.bytesTicket.Some?)
  }

  /** Events that concern no request-response exchange. */
  predicate Local(e: SwarmEvent) {
    e.GetRecordProgressed? || e.PutRecordFinished? || e.RoutingUpdated? || e.ChatReceived?
  }

  predicate Enabled(n: Net, st: Step) {
    match st
    case UserCommand(p, c) => p in n.loops && ClientShaped(c)
    case LocalEvent(p, e) => p in n.loops && Local(e)
    case Deliver(id) => id in n.wire && n.wire[id].to in n.loops
    case LoseRequest(id) => id in n.wire
    case DeliverReply(id) => id in n.replies && id in n.open && id.from in n.loops
    case LoseReply(id) => id in n.replies
    case ReportFailure(id) => id in n.open && id.from in n.loops
  }

  function Perform(n: Net, p: PeerId, e: Effect): Net {
    match e
    case Send(number, to, payload) =>
      var id := RequestId(BehaviourOf(payload), p, number);
      n.(wire := n.wire[id := Envelope(to, payload)], open := n.open + {id})
    case Respond(channel, body) => n.(replies := n.replies[channel := body])
    case _ => n
  }

  function PerformAll(n: Net, p: PeerId, es: seq<Effect>): Net
    decreases |es|
  {
    if es == [] then n else PerformAll(Perform(n, p, es[0]), p, es[1..])
  }

  /** Peer `p` takes `turn`: its tables change and its effects reach the network. */
  function Take(n: Net, p: PeerId, turn: Turn): Net {
    PerformAll(n.(loops := n.loops[p := turn.next]), p, turn.effects)
  }

  function Logged(n: Net, es: seq<Entry>): Net { n.(log := n.log + es) }

  function Writes(es: seq<Effect>): seq<FileWrite> {
    if es == [] then []
    else (if es[0].WriteFile? then [FileWrite(es[0].path, es[0].bytes)] else []) + Writes(es[1..])
  }

  /** The bytes a turn puts on the wire towards the recipient. */
  function Released(es: seq<Effect>): Option<Bytes> {
    if es == [] then None
    else if es[0].Respond? && es[0].body.BytesReply? then es[0].body.reply.offeredFileBytes
    else Released(es[1..])
  }

  predicate Sends(es: seq<Effect>) { es != [] && es[0].Send? }

  /** What peer `p` sent: read off the request itself, except that an offer's
      bytes and path stay at home and are read off the user's command. */
  function CommandEntries(s: LoopState, p: PeerId, c: Command, es: seq<Effect>): seq<Entry> {
    if !Sends(es) then []
    else match es[0].payload
      case OfferPayload(offer) =>
        if !c.MakeTradeOffer? then [] else
        [Offered(TradeKey(p, es[0].to, offer), c.offeredFileBytes, c.requestedFilePath,
                 (es[0].to, offer) in s.offers.outgoing)]
      case AnswerPayload(response) =>
        [Answered(TradeKey(es[0].to, p, OfferNamed(response)),
                  RequestId(TradeAnswering, p, es[0].number), response.requestedFileBytes)]
      case DirectPayload(_) => []
  }

  function ArrivalEvent(id: RequestId, payload: Payload): SwarmEvent {
    match payload
    case OfferPayload(offer) => OfferRequested(id, offer)
    case AnswerPayload(response) => AnswerRequested(id, response)
    case DirectPayload(message) => DirectRequested(id, message)
  }

  function ArrivalEntries(s: LoopState, p: PeerId, id: RequestId, payload: Payload,
                          es: seq<Effect>): seq<Entry>
  {
    match payload
    case OfferPayload(offer) =>
      [OfferArrived(TradeKey(id.from, p, offer), (id.from, offer) in s.offers.inbound)]
    case AnswerPayload(response) =>
      var key := TradeKey(p, id.from, OfferNamed(response));
      if es == [] then [Orphaned(key, id)]
      else [Settled(key, id, response.requestedFileBytes, Writes(es), Released(es))]
    case DirectPayload(_) => []
  }

  function LossEntries(id: RequestId, env: Envelope): seq<Entry> {
    match env.payload
    case OfferPayload(offer) => [OfferLost(TradeKey(id.from, env.to, offer))]
    case AnswerPayload(response) => [AnswerLost(TradeKey(env.to, id.from, OfferNamed(response)), id)]
    case DirectPayload(_) => []
  }

  function ReplyEvent(id: RequestId, body: ReplyBody): SwarmEvent {
    match id.behaviour
    case TradeOffering => OfferAcknowledged(id.number)
    case DirectMessaging => DirectAcknowledged(id.number)
    case TradeAnswering =>
      AnswerReplied(id.number, if body.BytesReply? then body.reply else TradeResponseResponse("", "", None))
  }

  function FailureEvent(id: RequestId): SwarmEvent {
    match id.behaviour
    case TradeOffering => OfferFailed(id.number)
    case DirectMessaging => DirectFailed(id.number)
    case TradeAnswering => AnswerFailed(id.number)
  }

  /** What an accept call hears when its turn resolves a bytes sender. */
  function ToldEntries(id: RequestId, es: seq<Effect>): seq<Entry> {
    if es != [] && es[0].Resolve? && es[0].outcome.BytesAnswer?
    then [Told(id, es[0].outcome.bytes)] else []
  }

  function Next(n: Net, st: Step): Net
    requires Enabled(n, st)
  {
    match st
    case UserCommand(p, c) =>
      var turn := CommandTurn(n.loops[p], c);
      Logged(Take(n, p, turn), CommandEntries(n.loops[p], p, c, turn.effects))
    case LocalEvent(p, e) => Take(n, p, EventTurn(n.loops[p], e))
    case Deliver(id) =>
      var Envelope(p, payload) := n.wire[id];
      var turn := EventTurn(n.loops[p], ArrivalEvent(id, payload));
      Logged(Take(n.(wire := n.wire - {id}), p, turn),
             ArrivalEntries(n.loops[p], p, id, payload, turn.effects))
    case LoseRequest(id) => Logged(n.(wire := n.wire - {id}), LossEntries(id, n.wire[id]))
    case DeliverReply(id) =>
      var turn := EventTurn(n.loops[id.from], ReplyEvent(id, n.replies[id]));
      Logged(Take(n.(replies := n.replies - {id}, open := n.open - {id}), id.from, turn),
             ToldEntries(id, turn.effects))
    case LoseReply(id) => n.(replies := n.replies - {id})
    case ReportFailure(id) =>
      var turn := EventTurn(n.loops[id.from], FailureEvent(id));
      Logged(Take(n.(open := n.open - {id}), id.from, turn), ToldEntries(id, turn.effects))
  }

  ghost predicate Init(n: Net) {
    && (forall p | p in n.loops :: n.loops[p] == Initial(n.loops[p].config.codec, p, n.loops[p].config.username))
    && n.wire == map[] && n.replies == map[] && n.open == {} && n.log == []
  }

  // ---------- runs ----------

  predicate Legal(n: Net, steps: seq<Step>)
    decreases |steps|
  {
    steps == [] || (Enabled(n, steps[0]) && Legal(Next(n, steps[0]), steps[1..]))
  }

  function After(n: Net, steps: seq<Step>): Net
    requires Legal(n, steps)
    decreases |steps|
  {
    if steps == [] then n else After(Next(n, steps[0]), steps[1..])
  }
}
