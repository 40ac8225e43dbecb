/** The tables of one event loop and, for each handler, the turn it takes: the
    new tables and the effects in the order the handler performs them. */
module Handlers {
  import opened Protocol

  datatype Config = Config(codec: Codec, localPeer: PeerId, username: string)

  /** The six maps from outstanding queries and requests to parked senders. */
  datatype Pending = Pending(
    registerUsername: map<nat, Ticket>,
    requestMessage: map<nat, Ticket>,
    peerIdRequest: map<nat, Ticket>,
    usernameRequest: map<nat, Ticket>,
    tradeOfferRequest: map<nat, Ticket>,
    tradeResponseResponse: map<nat, Ticket>)

  datatype Offers = Offers(
    outgoing: map<(PeerId, TradeOffer), (Bytes, Path)>,
    inbound: set<(PeerId, TradeOffer)>)

  /** The swarm's own counters: the next Kademlia query and, for each
      request-response behaviour, the next outbound request. */
  datatype Counters = Counters(query: nat, offering: nat, answering: nat, messaging: nat)

  datatype LoopState = LoopState(
    config: Config,
    pending: Pending,
    offers: Offers,
    hasRegisteredUsername: bool,
    counters: Counters)

  const NOTHING_PENDING := Pending(map[], map[], map[], map[], map[], map[])

  function Initial(codec: Codec, localPeer: PeerId, username: string): LoopState {
    LoopState(Config(codec, localPeer, username), NOTHING_PENDING, Offers(map[], {}), false,
              Counters(0, 0, 0, 0))
  }

  function Number(c: Counters, b: Behaviour): nat {
    match b
    case TradeOffering => c.offering
    case TradeAnswering => c.answering
    case DirectMessaging => c.messaging
  }

  function PendingMap(q: Pending, b: Behaviour): map<nat, Ticket> {
    match b
    case TradeOffering => q.tradeOfferRequest
    case TradeAnswering => q.tradeResponseResponse
    case DirectMessaging => q.requestMessage
  }

  datatype Turn = Turn(next: LoopState, effects: seq<Effect>)

  // ---------- commands ----------

  function RegisterUsernameTurn(s: LoopState, name: string, ticket: Ticket): Turn {
    var id := s.counters.query;
    var peerBytes := s.config.localPeer.multihash;
    var nameBytes := s.config.codec.utf8(s.config.codec.lower(name));
    Turn(s.(pending := s.pending.(registerUsername := s.pending.registerUsername[id := ticket]),
            counters := s.counters.(query := id + 2)),
         [PutRecord(id, nameBytes, peerBytes), PutRecord(id + 1, peerBytes, nameBytes)])
  }

  function FindPeerIdTurn(s: LoopState, name: string, ticket: Ticket): Turn {
    var id := s.counters.query;
    Turn(s.(pending := s.pending.(peerIdRequest := s.pending.peerIdRequest[id := ticket]),
            counters := s.counters.(query := id + 1)),
         [GetRecord(id, s.config.codec.utf8(s.config.codec.lower(name)))])
  }

  function FindPeerUsernameTurn(s: LoopState, peer: PeerId, ticket: Ticket): Turn {
    var id := s.counters.query;
    Turn(s.(pending := s.pending.(usernameRequest := s.pending.usernameRequest[id := ticket]),
            counters := s.counters.(query := id + 1)),
         [GetRecord(id, peer.multihash)])
  }

  function MakeTradeOfferTurn(s: LoopState, offer: TradeOffer, bytes: Bytes, peer: PeerId,
                              path: Path, ticket: Ticket): Turn
  {
    var id := s.counters.offering;
    if peer == s.config.localPeer then
      Turn(s, [Resolve(ticket, Status(false))])
    else
      Turn(s.(pending := s.pending.(tradeOfferRequest := s.pending.tradeOfferRequest[id := ticket]),
              offers := s.offers.(outgoing := s.offers.outgoing[(peer, offer) := (bytes, path)]),
              counters := s.counters.(offering := id + 1)),
           [Send(id, peer, OfferPayload(offer))])
  }

  function OfferNamed(response: TradeResponse): TradeOffer {
    TradeOffer(response.offeredFileName, response.requestedFileName)
  }

  function RespondTradeTurn(s: LoopState, peer: PeerId, response: TradeResponse,
                            ticket: Option<Ticket>): Turn
  {
    var id := s.counters.answering;
    var slot := (peer, OfferNamed(response));
    if slot !in s.offers.inbound then
      Turn(s, if ticket.Some? then [Resolve(ticket.value, BytesAnswer(Err))] else [])
    else
      var parked := if ticket.Some? then s.pending.tradeResponseResponse[id := ticket.value]
                    else s.pending.tradeResponseResponse;
      Turn(s.(pending := s.pending.(tradeResponseResponse := parked),
              offers := s.offers.(inbound := s.offers.inbound - {slot}),
              counters := s.counters.(answering := id + 1)),
           [Send(id, peer, AnswerPayload(response))])
  }

  function SendChatMessageTurn(s: LoopState, message: string, published: bool, ticket: Ticket): Turn {
    Turn(s, [Publish(message), Resolve(ticket, Status(published))])
  }

  function DirectMessageTurn(s: LoopState, peer: PeerId, message: string, ticket: Ticket): Turn {
    var id := s.counters.messaging;
    if peer == s.config.localPeer then
      Turn(s, [Resolve(ticket, Status(false))])
    else
      Turn(s.(pending := s.pending.(requestMessage := s.pending.requestMessage[id := ticket]),
              counters := s.counters.(messaging := id + 1)),
           [Send(id, peer, DirectPayload(message))])
  }

  function CommandTurn(s: LoopState, c: Command): Turn {
    match c
    case RegisterUsername(name, t) => RegisterUsernameTurn(s, name, t)
    case FindPeerId(name, t) => FindPeerIdTurn(s, name, t)
    case FindPeerUsername(peer, t) => FindPeerUsernameTurn(s, peer, t)
    case MakeTradeOffer(offered, bytes, peer, requested, path, t) =>
      MakeTradeOfferTurn(s, TradeOffer(offered, requested), bytes, peer, path, t)
    case RespondTrade(peer, requested, offered, bytes, t) =>
      RespondTradeTurn(s, peer, TradeResponse(requested, offered, bytes), t)
    case SendChatMessage(message, published, t) => SendChatMessageTurn(s, message, published, t)
    case DirectMessage(peer, message, t) => DirectMessageTurn(s, peer, message, t)
  }

  // ---------- swarm events ----------

  function PeerRead(codec: Codec, progress: GetProgress): Option<PeerId> {
    if progress.FoundRecord? then codec.parsePeer(progress.value) else None
  }

  function NameRead(codec: Codec, progress: GetProgress): Result<string> {
    if !progress.FoundRecord? then Err
    else match codec.parseUtf8(progress.value)
      case Some(name) => Ok(name)
      case None => Err
  }

  function GetRecordTurn(s: LoopState, query: nat, progress: GetProgress): Turn {
    if progress.OtherProgress? then
      Turn(s, [])
    else if query in s.pending.peerIdRequest then
      Turn(s.(pending := s.pending.(peerIdRequest := s.pending.peerIdRequest - {query})),
           [Resolve(s.pending.peerIdRequest[query], PeerAnswer(PeerRead(s.config.codec, progress)))])
    else if query in s.pending.usernameRequest then
      Turn(s.(pending := s.pending.(usernameRequest := s.pending.usernameRequest - {query})),
           [Resolve(s.pending.usernameRequest[query], NameAnswer(NameRead(s.config.codec, progress)))])
    else
      Turn(s, [])
  }

  function PutRecordTurn(s: LoopState, query: nat, ok: bool): Turn {
    if query in s.pending.registerUsername then
      Turn(s.(pending := s.pending.(registerUsername := s.pending.registerUsername - {query}),
              hasRegisteredUsername := ok),
           [Resolve(s.pending.registerUsername[query], Status(ok))])
    else
      Turn(s, [])
  }

  function RoutingUpdatedTurn(s: LoopState): Turn {
    if s.hasRegisteredUsername then Turn(s, [])
    else Turn(s.(hasRegisteredUsername := true), [Emit(RegistrationRequest(s.config.username))])
  }

  function OfferRequestedTurn(s: LoopState, channel: RequestId, offer: TradeOffer): Turn {
    Turn(s.(offers := s.offers.(inbound := s.offers.inbound + {(channel.from, offer)})),
         [Respond(channel, NoResponse),
          Emit(InboundTradeOffer(offer.offeredFileName, channel.from, offer.requestedFileName))])
  }

  /** Both the acknowledgement and the failure of an offer resolve its sender and
      leave the outgoing table alone. */
  function OfferReportTurn(s: LoopState, number: nat, ok: bool): Turn {
    if number in s.pending.tradeOfferRequest then
      Turn(s.(pending := s.pending.(tradeOfferRequest := s.pending.tradeOfferRequest - {number})),
           [Resolve(s.pending.tradeOfferRequest[number], Status(ok))])
    else
      Turn(s, [])
  }

  function AnswerRequestedTurn(s: LoopState, channel: RequestId, response: TradeResponse): Turn {
    var slot := (channel.from, OfferNamed(response));
    if slot !in s.offers.outgoing then
      Turn(s, [])
    else
      var (offeredBytes, path) := s.offers.outgoing[slot];
      var given := response.requestedFileBytes;
      Turn(s.(offers := s.offers.(outgoing := s.offers.outgoing - {slot})),
           [Emit(InboundTradeResponse(channel.from, response.offeredFileName,
                                      response.requestedFileName, given.Some?))] +
           (if given.Some? then [WriteFile(channel, path, given.value)] else []) +
           [Respond(channel, BytesReply(TradeResponseResponse(
              response.offeredFileName, response.requestedFileName,
              if given.Some? then Some(offeredBytes) else None)))])
  }

  function AnswerReportTurn(s: LoopState, number: nat, bytes: Result<Option<Bytes>>): Turn {
    if number in s.pending.tradeResponseResponse then
      Turn(s.(pending := s.pending.(tradeResponseResponse := s.pending.tradeResponseResponse - {number})),
           [Resolve(s.pending.tradeResponseResponse[number], BytesAnswer(bytes))])
    else
      Turn(s, [])
  }

  function DirectRequestedTurn(s: LoopState, channel: RequestId, message: string): Turn {
    Turn(s, [Emit(InboundDirectMessage(channel.from, message)), Respond(channel, NoResponse)])
  }

  function DirectReportTurn(s: LoopState, number: nat, ok: bool): Turn {
    if number in s.pending.requestMessage then
      Turn(s.(pending := s.pending.(requestMessage := s.pending.requestMessage - {number})),
           [Resolve(s.pending.requestMessage[number], Status(ok))])
    else
      Turn(s, [Panic("Message was not pending")])
  }

  function EventTurn(s: LoopState, e: SwarmEvent): Turn {
    match e
    case GetRecordProgressed(query, progress) => GetRecordTurn(s, query, progress)
    case PutRecordFinished(query, ok) => PutRecordTurn(s, query, ok)
    case RoutingUpdated => RoutingUpdatedTurn(s)
    case OfferRequested(channel, offer) => OfferRequestedTurn(s, channel, offer)
    case OfferAcknowledged(number) => OfferReportTurn(s, number, true)
    case OfferFailed(number) => OfferReportTurn(s, number, false)
    case AnswerRequested(channel, response) => AnswerRequestedTurn(s, channel, response)
    case AnswerReplied(number, reply) => AnswerReportTurn(s, number, Ok(reply.offeredFileBytes))
    case AnswerFailed(number) => AnswerReportTurn(s, number, Err)
    case DirectRequested(channel, message) => DirectRequestedTurn(s, channel, message)
    case DirectAcknowledged(number) => DirectReportTurn(s, number, true)
    case DirectFailed(number) => DirectReportTurn(s, number, false)
    case ChatReceived(peer, message) => Turn(s, [Emit(InboundChat(peer, message))])
  }
}
