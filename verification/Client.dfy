/** The main task's side: the shared username cache and the client calls, each a
    short sequence of cache accesses, commands and awaited replies. The awaited
    replies are parameters. */
module ClientTask {
  import opened Protocol

  datatype Cache = Cache(peers: map<string, PeerId>, names: map<PeerId, string>)

  function Inserted(c: Cache, name: string, peer: PeerId): Cache {
    Cache(c.peers[name := peer], c.names[peer := name])
  }

  function PeerFor(c: Cache, name: string, reply: Option<PeerId>): Option<PeerId> {
    if name in c.peers then Some(c.peers[name]) else reply
  }

  function AfterPeer(c: Cache, name: string, reply: Option<PeerId>): Cache {
    if name !in c.peers && reply.Some? then Inserted(c, name, reply.value) else c
  }

  function NameFor(c: Cache, peer: PeerId, reply: Result<string>): Result<string> {
    if peer in c.names then Ok(c.names[peer]) else reply
  }

  function AfterName(c: Cache, peer: PeerId, reply: Result<string>): Cache {
    if peer !in c.names && reply.Ok? then Inserted(c, reply.value, peer) else c
  }

  /** The lookup command a cached call sends: none when the cache answers. */
  function PeerQuery(c: Cache, name: string, t: Ticket): seq<Command> {
    if name in c.peers then [] else [FindPeerId(name, t)]
  }

  function NameQuery(c: Cache, peer: PeerId, t: Ticket): seq<Command> {
    if peer in c.names then [] else [Command.FindPeerUsername(peer, t)]
  }

  /** After a name and a peer were learned together, either is answered from the cache,
      whatever a query would say, and no query is sent; what the cache says about other
      names and peers is as it was. */
  lemma LearnedBothWays(c: Cache, name: string, peer: PeerId, found: Option<PeerId>, read: Result<string>, t: Ticket)
    ensures
      var known := Inserted(c, name, peer);
      && PeerFor(known, name, found) == Some(peer) && PeerQuery(known, name, t) == []
      && NameFor(known, peer, read) == Ok(name) && NameQuery(known, peer, t) == []
      && (forall n | n != name :: PeerFor(known, n, found) == PeerFor(c, n, found)
                               && PeerQuery(known, n, t) == PeerQuery(c, n, t))
      && (forall p | p != peer :: NameFor(known, p, read) == NameFor(c, p, read)
                               && NameQuery(known, p, t) == NameQuery(c, p, t))
  {
  }

  class UsernameStore {
    var usernamePeerIdMap: map<string, PeerId>
    var peerIdUsernameMap: map<PeerId, string>

    function Contents(): Cache
      reads this
    {
      Cache(usernamePeerIdMap, peerIdUsernameMap)
    }

    constructor ()
      ensures Contents() == Cache(map[], map[])
    {
      usernamePeerIdMap, peerIdUsernameMap := map[], map[];
    }

    method GetUsername(peer: PeerId) returns (name: Option<string>)
      ensures name == if peer in Contents().names then Some(Contents().names[peer]) else None
    {
      name := if peer in peerIdUsernameMap then Some(peerIdUsernameMap[peer]) else None;
    }

    method GetPeerId(username: string) returns (peer: Option<PeerId>)
      ensures peer == if username in Contents().peers then Some(Contents().peers[username]) else None
    {
      peer := if username in usernamePeerIdMap then Some(usernamePeerIdMap[username]) else None;
    }

    method Insert(username: string, peer: PeerId)
      modifies this
      ensures Contents() == Inserted(old(Contents()), username, peer)
    {
      usernamePeerIdMap := usernamePeerIdMap[username := peer];
      peerIdUsernameMap := peerIdUsernameMap[peer := username];
    }
  }

  class Client {
    const store: UsernameStore
    var sent: seq<Command> // commands handed to the event loop, in order
    var nextTicket: Ticket // the next oneshot channel

    constructor (store: UsernameStore)
      ensures this.store == store && sent == [] && nextTicket == 0
    {
      this.store := store;
      sent, nextTicket := [], 0;
    }

    method Channel() returns (t: Ticket)
      modifies this`nextTicket
      ensures t == old(nextTicket) && nextTicket == t + 1
    {
      t := nextTicket;
      nextTicket := t + 1;
    }

    method SendCommand(c: Command)
      modifies this`sent
      ensures sent == old(sent) + [c]
    {
      sent := sent + [c];
    }

    method FindUser(username: string, reply: Option<PeerId>) returns (peer: Option<PeerId>)
      modifies this, store
      ensures peer == reply
      ensures sent == old(sent) + [FindPeerId(username, old(nextTicket))] && nextTicket == old(nextTicket) + 1
      ensures store.Contents() ==
                if reply.Some? then Inserted(old(store.Contents()), username, reply.value) else old(store.Contents())
    {
      var sender := Channel();
      SendCommand(FindPeerId(username, sender));
      peer := reply;
      if peer.Some? {
        store.Insert(username, peer.value);
      }
    }

    method GetPeerId(username: string, reply: Option<PeerId>) returns (peer: Option<PeerId>)
      modifies this, store
      ensures peer == PeerFor(old(store.Contents()), username, reply)
      ensures store.Contents() == AfterPeer(old(store.Contents()), username, reply)
      ensures sent == old(sent) + PeerQuery(old(store.Contents()), username, old(nextTicket))
      ensures nextTicket == old(nextTicket) + |PeerQuery(old(store.Contents()), username, old(nextTicket))|
    {
      peer := store.GetPeerId(username);
      if peer.None? {
        peer := FindUser(username, reply);
      }
    }

    method FindPeerUsername(peer: PeerId, reply: Result<string>) returns (username: Result<string>)
      modifies this, store
      ensures username == reply
      ensures sent == old(sent) + [Command.FindPeerUsername(peer, old(nextTicket))] && nextTicket == old(nextTicket) + 1
      ensures store.Contents() ==
                if reply.Ok? then Inserted(old(store.Contents()), reply.value, peer) else old(store.Contents())
    {
      var sender := Channel();
      SendCommand(Command.FindPeerUsername(peer, sender));
      username := reply;
      if username.Ok? {
        store.Insert(username.value, peer);
      }
    }

    method GetUsername(peer: PeerId, reply: Result<string>) returns (username: Result<string>)
      modifies this, store
      ensures username == NameFor(old(store.Contents()), peer, reply)
      ensures store.Contents() == AfterName(old(store.Contents()), peer, reply)
      ensures sent == old(sent) + NameQuery(old(store.Contents()), peer, old(nextTicket))
      ensures nextTicket == old(nextTicket) + |NameQuery(old(store.Contents()), peer, old(nextTicket))|
    {
      var cached := store.GetUsername(peer);
      if cached.Some? {
        username := Ok(cached.value);
      } else {
        username := FindPeerUsername(peer, reply);
      }
    }

    /** `found` is the reply to the lookup, if one is made; `acknowledged` the reply
        to the offer. */
    method OfferTrade(offeredFileName: string, offeredFileBytes: Bytes, recipient: string,
                      requestedFileName: string, requestedFilePath: Path,
                      found: Option<PeerId>, acknowledged: bool) returns (ok: bool)
      modifies this, store
      ensures
        var cache := old(store.Contents());
        var peer := PeerFor(cache, recipient, found);
        var asked := PeerQuery(cache, recipient, old(nextTicket));
        && ok == (peer.Some? && acknowledged)
        && store.Contents() == AfterPeer(cache, recipient, found)
        && sent == old(sent) + asked +
             if peer.None? then []
             else [MakeTradeOffer(offeredFileName, offeredFileBytes, peer.value, requestedFileName,
                                  requestedFilePath, old(nextTicket) + |asked|)]
    {
      var peer := GetPeerId(recipient, found);
      if peer.None? {
        return false;
      }
      var sender := Channel();
      SendCommand(MakeTradeOffer(offeredFileName, offeredFileBytes, peer.value, requestedFileName,
                                 requestedFilePath, sender));
      ok := acknowledged;
    }

    method AcceptTrade(username: string, requestedFileName: string, offeredFileName: string,
                       requestedFileBytes: Bytes, found: Option<PeerId>, reply: Result<Option<Bytes>>)
      returns (bytes: Result<Bytes>)
      modifies this, store
      ensures
        var cache := old(store.Contents());
        var peer := PeerFor(cache, username, found);
        var asked := PeerQuery(cache, username, old(nextTicket));
        && (bytes.Ok? <==> peer.Some? && reply.Ok? && reply.value.Some?)
        && (bytes.Ok? ==> reply == Ok(Some(bytes.value)))
        && store.Contents() == AfterPeer(cache, username, found)
        && sent == old(sent) + asked +
             if peer.None? then []
             else [RespondTrade(peer.value, requestedFileName, offeredFileName, Some(requestedFileBytes),
                                Some(old(nextTicket) + |asked|))]
    {
      var peer := GetPeerId(username, found);
      if peer.None? {
        return Err;
      }
      var sender := Channel();
      SendCommand(RespondTrade(peer.value, requestedFileName, offeredFileName, Some(requestedFileBytes), Some(sender)));
      match reply
      case Ok(Some(received)) => bytes := Ok(received);
      case Ok(None) => bytes := Err;
      case Err => bytes := Err;
    }

    method DeclineTrade(username: string, offeredFileName: string, requestedFileName: string,
                        found: Option<PeerId>) returns (ok: bool)
      modifies this, store
      ensures
        var cache := old(store.Contents());
        var peer := PeerFor(cache, username, found);
        && ok == peer.Some?
        && store.Contents() == AfterPeer(cache, username, found)
        && sent == old(sent) + PeerQuery(cache, username, old(nextTicket)) +
             if peer.None? then [] else [RespondTrade(peer.value, requestedFileName, offeredFileName, None, None)]
    {
      var peer := GetPeerId(username, found);
      if peer.None? {
        return false;
      }
      SendCommand(RespondTrade(peer.value, requestedFileName, offeredFileName, None, None));
      ok := true;
    }

    method SendDirectMessage(username: string, message: string, found: Option<PeerId>, delivered: bool)
      returns (ok: bool)
      modifies this, store
      ensures
        var cache := old(store.Contents());
        var peer := PeerFor(cache, username, found);
        var asked := PeerQuery(cache, username, old(nextTicket));
        && ok == (peer.Some? && delivered)
        && store.Contents() == AfterPeer(cache, username, found)
        && sent == old(sent) + asked +
             if peer.None? then [] else [DirectMessage(peer.value, message, old(nextTicket) + |asked|)]
    {
      var peer := GetPeerId(username, found);
      if peer.None? {
        return false;
      }
      var sender := Channel();
      SendCommand(DirectMessage(peer.value, message, sender));
      ok := delivered;
    }

    method SendMessage(message: string, published: bool) returns (ok: bool)
      modifies this
      ensures ok == published && sent == old(sent) + [SendChatMessage(message, published, old(nextTicket))]
    {
      var sender := Channel();
      SendCommand(SendChatMessage(message, published, sender));
      ok := published;
    }

    method RegisterName(username: string, stored: bool) returns (ok: bool)
      modifies this
      ensures ok == stored && sent == old(sent) + [RegisterUsername(username, old(nextTicket))]
    {
      var sender := Channel();
      SendCommand(RegisterUsername(username, sender));
      ok := stored;
    }
  }
}
