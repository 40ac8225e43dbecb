/** One peer's event loop as it runs: a mutable record of tables, updated in place
    by its handlers. Every handler is proved to take the turn `Handlers` gives. */
module EventLoopTask {
  import opened Protocol
  import opened Handlers

  class EventLoop {
    const config: Config
    var pendingRegisterUsername: map<nat, Ticket>
    var pendingRequestMessage: map<nat, Ticket>
    var pendingPeerIdRequest: map<nat, Ticket>
    var pendingUsernameRequest: map<nat, Ticket>
    var pendingTradeOfferRequest: map<nat, Ticket>
    var pendingTradeResponseResponse: map<nat, Ticket>
    var outgoingTradeOffers: map<(PeerId, TradeOffer), (Bytes, Path)>
    var inboundTradeOffers: set<(PeerId, TradeOffer)>
    var hasRegisteredUsername: bool
    var counters: Counters
    // Everything done to the swarm, the channels and the file system, in order.
    var done: seq<Effect>

    function State(): LoopState
      reads this
    {
      LoopState(config,
                Pending(pendingRegisterUsername, pendingRequestMessage, pendingPeerIdRequest,
                        pendingUsernameRequest, pendingTradeOfferRequest, pendingTradeResponseResponse),
                Offers(outgoingTradeOffers, inboundTradeOffers),
                hasRegisteredUsername, counters)
    }

    constructor (codec: Codec, localPeer: PeerId, username: string)
      ensures State() == Initial(codec, localPeer, username) && done == []
      ensures config.codec == codec && config.localPeer == localPeer && config.username == username
      ensures pendingRegisterUsername == map[] && pendingRequestMessage == map[] && pendingPeerIdRequest == map[]
      ensures pendingUsernameRequest == map[] && pendingTradeOfferRequest == map[]
      ensures pendingTradeResponseResponse == map[]
      ensures outgoingTradeOffers == map[] && inboundTradeOffers == {} && !hasRegisteredUsername
    {
      config := Config(codec, localPeer, username);
      pendingRegisterUsername, pendingRequestMessage := map[], map[];
      pendingPeerIdRequest, pendingUsernameRequest := map[], map[];
      pendingTradeOfferRequest, pendingTradeResponseResponse := map[], map[];
      outgoingTradeOffers, inboundTradeOffers := map[], {};
      hasRegisteredUsername := false;
      counters := Counters(0, 0, 0, 0);
      done := [];
    }

    method Perform(e: Effect)
      modifies this`done
      ensures done == old(done) + [e]
    {
      done := done + [e];
    }

    // ---------- the swarm's numbering ----------

    method NextQuery() returns (id: nat)
      modifies this`counters
      ensures id == old(counters.query) && counters == old(counters).(query := id + 1)
    {
      id := counters.query;
      counters := counters.(query := id + 1);
    }

    method SendRequest(to: PeerId, payload: Payload) returns (id: nat)
      modifies this`counters, this`done
      ensures id == Number(old(counters), BehaviourOf(payload))
      ensures counters == match payload
                case OfferPayload(_) => old(counters).(offering := id + 1)
                case AnswerPayload(_) => old(counters).(answering := id + 1)
                case DirectPayload(_) => old(counters).(messaging := id + 1)
      ensures done == old(done) + [Send(id, to, payload)]
    {
      id := Number(counters, BehaviourOf(payload));
      match payload {
        case OfferPayload(_) => counters := counters.(offering := id + 1);
        case AnswerPayload(_) => counters := counters.(answering := id + 1);
        case DirectPayload(_) => counters := counters.(messaging := id + 1);
      }
      Perform(Send(id, to, payload));
    }

    // ---------- commands ----------

    method HandleRegisterUsername(username: string, statusSender: Ticket)
      modifies this
      ensures Turn(State(), done) == Continued(old(done), RegisterUsernameTurn(old(State()), username, statusSender))
    {
      var peerIdBytes := config.localPeer.multihash;
      var usernameBytes := config.codec.utf8(config.codec.lower(username));
      var query := NextQuery();
      Perform(PutRecord(query, usernameBytes, peerIdBytes));
      pendingRegisterUsername := pendingRegisterUsername[query := statusSender];
      var second := NextQuery();
      Perform(PutRecord(second, peerIdBytes, usernameBytes));
    }

    method HandleFindPeerId(username: string, peerIdSender: Ticket)
      modifies this
      ensures Turn(State(), done) == Continued(old(done), FindPeerIdTurn(old(State()), username, peerIdSender))
    {
      var query := NextQuery();
      Perform(GetRecord(query, config.codec.utf8(config.codec.lower(username))));
      pendingPeerIdRequest := pendingPeerIdRequest[query := peerIdSender];
    }

    method HandleFindPeerUsername(peer: PeerId, usernameSender: Ticket)
      modifies this
      ensures Turn(State(), done) == Continued(old(done), FindPeerUsernameTurn(old(State()), peer, usernameSender))
    {
      var query := NextQuery();
      Perform(GetRecord(query, peer.multihash));
      pendingUsernameRequest := pendingUsernameRequest[query := usernameSender];
    }

    method HandleMakeTradeOffer(offeredFileName: string, offeredFileBytes: Bytes, peer: PeerId,
                                requestedFileName: string, requestedFilePath: Path, errorSender: Ticket)
      modifies this
      ensures Turn(State(), done) == Continued(old(done),
                MakeTradeOfferTurn(old(State()), TradeOffer(offeredFileName, requestedFileName),
                                   offeredFileBytes, peer, requestedFilePath, errorSender))
    {
      if peer == config.localPeer {
        Perform(Resolve(errorSender, Status(false)));
        return;
      }
      var offer := TradeOffer(offeredFileName, requestedFileName);
      var request := SendRequest(peer, OfferPayload(offer));
      pendingTradeOfferRequest := pendingTradeOfferRequest[request := errorSender];
      outgoingTradeOffers := outgoingTradeOffers[(peer, offer) := (offeredFileBytes, requestedFilePath)];
    }

    method HandleRespondTrade(peer: PeerId, requestedFileName: string, offeredFileName: string,
                              requestedFileBytes: Option<Bytes>, offeredBytesSender: Option<Ticket>)
      modifies this
      ensures Turn(State(), done) == Continued(old(done),
                RespondTradeTurn(old(State()), peer,
                                 TradeResponse(requestedFileName, offeredFileName, requestedFileBytes),
                                 offeredBytesSender))
    {
      var offer := TradeOffer(offeredFileName, requestedFileName);
      if (peer, offer) !in inboundTradeOffers {
        if offeredBytesSender.Some? {
          Perform(Resolve(offeredBytesSender.value, BytesAnswer(Err)));
        }
        return;
      }
      inboundTradeOffers := inboundTradeOffers - {(peer, offer)};
      var request := SendRequest(peer,
        AnswerPayload(TradeResponse(requestedFileName, offeredFileName, requestedFileBytes)));
      if offeredBytesSender.Some? {
        pendingTradeResponseResponse := pendingTradeResponseResponse[request := offeredBytesSender.value];
      }
    }

    method HandleSendChatMessage(message: string, published: bool, statusSender: Ticket)
      modifies this
      ensures Turn(State(), done) == Continued(old(done),
                SendChatMessageTurn(old(State()), message, published, statusSender))
    {
      Perform(Publish(message));
      Perform(Resolve(statusSender, Status(published)));
    }

    method HandleDirectMessage(peer: PeerId, message: string, errorSender: Ticket)
      modifies this
      ensures Turn(State(), done) == Continued(old(done),
                DirectMessageTurn(old(State()), peer, message, errorSender))
    {
      if peer == config.localPeer {
        Perform(Resolve(errorSender, Status(false)));
        return;
      }
      var request := SendRequest(peer, DirectPayload(message));
      pendingRequestMessage := pendingRequestMessage[request := errorSender];
    }

    method HandleCommand(c: Command)
      modifies this
      ensures Turn(State(), done) == Continued(old(done), CommandTurn(old(State()), c))
    {
      match c
      case RegisterUsername(username, t) => HandleRegisterUsername(username, t);
      case FindPeerId(username, t) => HandleFindPeerId(username, t);
      case FindPeerUsername(peer, t) => HandleFindPeerUsername(peer, t);
      case MakeTradeOffer(offered, bytes, peer, requested, path, t) =>
        HandleMakeTradeOffer(offered, bytes, peer, requested, path, t);
      case RespondTrade(peer, requested, offered, bytes, t) =>
        HandleRespondTrade(peer, requested, offered, bytes, t);
      case SendChatMessage(message, published, t) => HandleSendChatMessage(message, published, t);
      case DirectMessage(peer, message, t) => HandleDirectMessage(peer, message, t);
    }

    // ---------- swarm events ----------

    method HandleGetRecord(progress: GetProgress, query: nat)
      modifies this
      ensures Turn(State(), done) == Continued(old(done), GetRecordTurn(old(State()), query, progress))
    {
      if progress.OtherProgress? {
        return;
      }
      if query in pendingPeerIdRequest {
        var sender := pendingPeerIdRequest[query];
        pendingPeerIdRequest := pendingPeerIdRequest - {query};
        Perform(Resolve(sender, PeerAnswer(PeerRead(config.codec, progress))));
      } else if query in pendingUsernameRequest {
        var sender := pendingUsernameRequest[query];
        pendingUsernameRequest := pendingUsernameRequest - {query};
        Perform(Resolve(sender, NameAnswer(NameRead(config.codec, progress))));
      }
    }

    method HandlePutRecord(ok: bool, query: nat)
      modifies this
      ensures Turn(State(), done) == Continued(old(done), PutRecordTurn(old(State()), query, ok))
    {
      if query in pendingRegisterUsername {
        var sender := pendingRegisterUsername[query];
        pendingRegisterUsername := pendingRegisterUsername - {query};
        hasRegisteredUsername := ok;
        Perform(Resolve(sender, Status(ok)));
      }
    }

    method HandleKademliaRoutingUpdated()
      modifies this
      ensures Turn(State(), done) == Continued(old(done), RoutingUpdatedTurn(old(State())))
    {
      if !hasRegisteredUsername {
        Perform(Emit(RegistrationRequest(config.username)));
        hasRegisteredUsername := true;
      }
    }

    method HandleTradeOfferingRequest(channel: RequestId, offer: TradeOffer)
      modifies this
      ensures Turn(State(), done) == Continued(old(done), OfferRequestedTurn(old(State()), channel, offer))
    {
      Perform(Respond(channel, NoResponse));
      inboundTradeOffers := inboundTradeOffers + {(channel.from, offer)};
      Perform(Emit(InboundTradeOffer(offer.offeredFileName, channel.from, offer.requestedFileName)));
    }

    method HandleTradeOfferingReport(number: nat, ok: bool)
      modifies this
      ensures Turn(State(), done) == Continued(old(done), OfferReportTurn(old(State()), number, ok))
    {
      if number in pendingTradeOfferRequest {
        var sender := pendingTradeOfferRequest[number];
        pendingTradeOfferRequest := pendingTradeOfferRequest - {number};
        Perform(Resolve(sender, Status(ok)));
      }
    }

    method HandleTradeResponseRequest(channel: RequestId, request: TradeResponse)
      modifies this
      ensures Turn(State(), done) == Continued(old(done), AnswerRequestedTurn(old(State()), channel, request))
    {
      var slot := (channel.from, TradeOffer(request.offeredFileName, request.requestedFileName));
      if slot !in outgoingTradeOffers {
        return;
      }
      var (offeredFileBytes, requestedFilePath) := outgoingTradeOffers[slot];
      outgoingTradeOffers := outgoingTradeOffers - {slot};
      Perform(Emit(InboundTradeResponse(channel.from, request.offeredFileName,
                                        request.requestedFileName, request.requestedFileBytes.Some?)));
      var response: Option<Bytes> := None;
      if request.requestedFileBytes.Some? {
        Perform(WriteFile(channel, requestedFilePath, request.requestedFileBytes.value));
        response := Some(offeredFileBytes);
      }
      Perform(Respond(channel, BytesReply(TradeResponseResponse(
        request.offeredFileName, request.requestedFileName, response))));
    }

    method HandleTradeResponseReport(number: nat, bytes: Result<Option<Bytes>>)
      modifies this
      ensures Turn(State(), done) == Continued(old(done), AnswerReportTurn(old(State()), number, bytes))
    {
      if number in pendingTradeResponseResponse {
        var sender := pendingTradeResponseResponse[number];
        pendingTradeResponseResponse := pendingTradeResponseResponse - {number};
        Perform(Resolve(sender, BytesAnswer(bytes)));
      }
    }

    method HandleDirectMessagingRequest(channel: RequestId, message: string)
      modifies this
      ensures Turn(State(), done) == Continued(old(done), DirectRequestedTurn(old(State()), channel, message))
    {
      Perform(Emit(InboundDirectMessage(channel.from, message)));
      Perform(Respond(channel, NoResponse));
    }

    method HandleDirectMessagingReport(number: nat, ok: bool)
      modifies this
      ensures Turn(State(), done) == Continued(old(done), DirectReportTurn(old(State()), number, ok))
    {
      if number !in pendingRequestMessage {
        Perform(Panic("Message was not pending"));
        return;
      }
      var sender := pendingRequestMessage[number];
      pendingRequestMessage := pendingRequestMessage - {number};
      Perform(Resolve(sender, Status(ok)));
    }

    method HandleGossipsubMessage(peer: PeerId, message: string)
      modifies this
      ensures Turn(State(), done) == Continued(old(done), Turn(old(State()), [Emit(InboundChat(peer, message))]))
    {
      Perform(Emit(InboundChat(peer, message)));
    }

    method HandleEvent(e: SwarmEvent)
      modifies this
      ensures Turn(State(), done) == Continued(old(done), EventTurn(old(State()), e))
    {
      hide GetRecordTurn, PutRecordTurn, RoutingUpdatedTurn, OfferRequestedTurn, OfferReportTurn, AnswerRequestedTurn,
           AnswerReportTurn, DirectRequestedTurn, DirectReportTurn, State;
      match e
      case GetRecordProgressed(query, progress) => HandleGetRecord(progress, query);
      case PutRecordFinished(query, ok) => HandlePutRecord(ok, query);
      case RoutingUpdated => HandleKademliaRoutingUpdated();
      case OfferRequested(channel, offer) => HandleTradeOfferingRequest(channel, offer);
      case OfferAcknowledged(number) => HandleTradeOfferingReport(number, true);
      case OfferFailed(number) => HandleTradeOfferingReport(number, false);
      case AnswerRequested(channel, response) => HandleTradeResponseRequest(channel, response);
      case AnswerReplied(number, reply) => HandleTradeResponseReport(number, Ok(reply.offeredFileBytes));
      case AnswerFailed(number) => HandleTradeResponseReport(number, Err);
      case DirectRequested(channel, message) => HandleDirectMessagingRequest(channel, message);
      case DirectAcknowledged(number) => HandleDirectMessagingReport(number, true);
      case DirectFailed(number) => HandleDirectMessagingReport(number, false);
      case ChatReceived(peer, message) => HandleGossipsubMessage(peer, message);
    }
  }

  /** Where a handler that starts from `done` must end when it takes `turn`. */
  function Continued(done: seq<Effect>, turn: Turn): Turn {
    turn.(effects := done + turn.effects)
  }
}
