/** Wire messages, commands, events and effects of one peer.

    Bytes obtained from libraries whose inside is not modelled (UTF-8, case
    mapping, multihash parsing) go through a `Codec` value, so that every result
    holds for any codec obeying the stated laws. */
module Protocol {
  datatype Option<+T> = None | Some(value: T)

  datatype Result<+T> = Ok(value: T) | Err

  type Bytes = seq<bv8>

  type Path = string

  /** One `oneshot` channel: the sender half travels in a command and is parked
      in a pending map, the receiver half stays with the awaiting main task. */
  type Ticket = nat

  datatype PeerId = PeerId(multihash: Bytes)

  datatype Codec = Codec(
    lower: string -> string,
    utf8: string -> Bytes,
    parseUtf8: Bytes -> Option<string>,
    parsePeer: Bytes -> Option<PeerId>)
  {
    ghost predicate Lawful() {
      && (forall s :: lower(lower(s)) == lower(s))
      && (forall s :: parseUtf8(utf8(s)) == Some(s))
    }

    /** Byte strings that are peer ids; no other `PeerId` occurs in practice. */
    predicate IsPeer(p: PeerId) { parsePeer(p.multihash) == Some(p) }
  }

  datatype TradeOffer = TradeOffer(offeredFileName: string, requestedFileName: string)

  datatype TradeResponse = TradeResponse(
    requestedFileName: string,
    offeredFileName: string,
    requestedFileBytes: Option<Bytes>)

  datatype TradeResponseResponse = TradeResponseResponse(
    offeredFileName: string,
    requestedFileName: string,
    offeredFileBytes: Option<Bytes>)

  /** The three request-response behaviours of a peer, each numbering its own
      outbound requests. */
  datatype Behaviour = TradeOffering | TradeAnswering | DirectMessaging

  /** The network-wide name of one outbound request. The responder holds the same
      name as its response channel. */
  datatype RequestId = RequestId(behaviour: Behaviour, from: PeerId, number: nat)

  datatype Payload =
    | OfferPayload(offer: TradeOffer)
    | AnswerPayload(response: TradeResponse)
    | DirectPayload(message: string)

  datatype ReplyBody = NoResponse | BytesReply(reply: TradeResponseResponse)

  function BehaviourOf(payload: Payload): Behaviour {
    match payload
    case OfferPayload(_) => TradeOffering
    case AnswerPayload(_) => TradeAnswering
    case DirectPayload(_) => DirectMessaging
  }

  /** What a oneshot sender delivers to the main task. */
  datatype Outcome =
    | Status(ok: bool)
    | PeerAnswer(peer: Option<PeerId>)
    | NameAnswer(name: Result<string>)
    | BytesAnswer(bytes: Result<Option<Bytes>>)

  /** Commands from the main task to the event loop. `published` is gossipsub's
      verdict on a chat message, which the model does not compute. */
  datatype Command =
    | RegisterUsername(username: string, ticket: Ticket)
    | FindPeerId(username: string, ticket: Ticket)
    | FindPeerUsername(peer: PeerId, ticket: Ticket)
    | MakeTradeOffer(offeredFileName: string, offeredFileBytes: Bytes, peer: PeerId,
                     requestedFileName: string, requestedFilePath: Path, ticket: Ticket)
    | RespondTrade(peer: PeerId, requestedFileName: string, offeredFileName: string,
                   requestedFileBytes: Option<Bytes>, bytesTicket: Option<Ticket>)
    | SendChatMessage(message: string, published: bool, ticket: Ticket)
    | DirectMessage(peer: PeerId, message: string, ticket: Ticket)

  function TicketOf(command: Command): Option<Ticket> {
    if command.RespondTrade? then command.bytesTicket else Some(command.ticket)
  }

  /** Events from the event loop to the main task. */
  datatype Event =
    | InboundTradeOffer(offeredFileName: string, peer: PeerId, requestedFileName: string)
    | InboundTradeResponse(peer: PeerId, offeredFileName: string, requestedFileName: string,
                           wasAccepted: bool)
    | InboundDirectMessage(peer: PeerId, message: string)
    | InboundChat(peer: PeerId, message: string)
    | RegistrationRequest(username: string)

  /** Progress of a Kademlia get query: a record, an error, or anything else. */
  datatype GetProgress = FoundRecord(value: Bytes) | OtherProgress | GetError

  /** What the swarm reports to the event loop. */
  datatype SwarmEvent =
    | GetRecordProgressed(query: nat, progress: GetProgress)
    | PutRecordFinished(query: nat, ok: bool)
    | RoutingUpdated
    | OfferRequested(channel: RequestId, offer: TradeOffer)
    | OfferAcknowledged(number: nat)
    | OfferFailed(number: nat)
    | AnswerRequested(channel: RequestId, response: TradeResponse)
    | AnswerReplied(number: nat, reply: TradeResponseResponse)
    | AnswerFailed(number: nat)
    | DirectRequested(channel: RequestId, message: string)
    | DirectAcknowledged(number: nat)
    | DirectFailed(number: nat)
    | ChatReceived(peer: PeerId, message: string)

  /** What a handler does besides changing its own tables, in program order. */
  datatype Effect =
    | Send(number: nat, to: PeerId, payload: Payload)
    | Respond(channel: RequestId, body: ReplyBody)
    | GetRecord(query: nat, key: Bytes)
    | PutRecord(query: nat, key: Bytes, value: Bytes)
    | Publish(message: string)
    | Resolve(ticket: Ticket, outcome: Outcome)
    | Emit(event: Event)
    | WriteFile(cause: RequestId, path: Path, bytes: Bytes) // for the answer `cause`
    | Panic(reason: string)
}
