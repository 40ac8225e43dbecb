/** The distributed username directory and what the cache in front of it may say. */
module Directory {
  import opened Protocol
  import opened Handlers
  import opened ClientTask
  import opened Queries

  type Dht = map<Bytes, Bytes>

  /** The records a turn stores. */
  function Published(dht: Dht, es: seq<Effect>): Dht
    decreases |es|
  {
    if es == [] then dht
    else Published(if es[0].PutRecord? then dht[es[0].key := es[0].value] else dht, es[1..])
  }

  /** What a get query for `key` decides. */
  function DhtAnswer(dht: Dht, key: Bytes): GetProgress {
    if key in dht then FoundRecord(dht[key]) else GetError
  }

  /** The uncached lookups. */
  function LookUpPeer(c: Codec, dht: Dht, name: string): Option<PeerId> {
    PeerRead(c, DhtAnswer(dht, c.utf8(c.lower(name))))
  }

  function LookUpName(c: Codec, dht: Dht, peer: PeerId): Result<string> {
    NameRead(c, DhtAnswer(dht, peer.multihash))
  }

  /** A find command asks the DHT for one key, and the DHT's answer to that query
      resolves its sender with the uncached lookup. */
  lemma FindPeerIdLooksUp(s: LoopState, dht: Dht, name: string, t: Ticket)
    ensures
      var asked := CommandTurn(s, FindPeerId(name, t));
      && asked.effects == [GetRecord(s.counters.query, s.config.codec.utf8(s.config.codec.lower(name)))]
      && EventTurn(asked.next,
                   GetRecordProgressed(asked.effects[0].query, DhtAnswer(dht, asked.effects[0].key))).effects
           == [Resolve(t, PeerAnswer(LookUpPeer(s.config.codec, dht, name)))]
  {
  }

  lemma FindPeerUsernameLooksUp(s: LoopState, dht: Dht, peer: PeerId, t: Ticket)
    requires QueriesApart(s)
    ensures
      var asked := CommandTurn(s, FindPeerUsername(peer, t));
      && asked.effects == [GetRecord(s.counters.query, peer.multihash)]
      && EventTurn(asked.next,
                   GetRecordProgressed(asked.effects[0].query, DhtAnswer(dht, asked.effects[0].key))).effects
           == [Resolve(t, NameAnswer(LookUpName(s.config.codec, dht, peer)))]
  {
  }

  // ---------- directories ----------

  /** Registered users by lowercased name. */
  type Users = map<string, PeerId>

  /** Name keys and peer keys share one key space. The name `name` is not mistaken for
      a registered peer, nor the peer `p` for a registered name. */
  ghost predicate NameApart(c: Codec, users: Users, name: string) {
    forall u | u in users :: c.utf8(c.lower(name)) != users[u].multihash
  }

  ghost predicate PeerApart(c: Codec, users: Users, p: PeerId) {
    forall u | u in users :: c.utf8(u) != p.multihash
  }

  ghost predicate Registered(c: Codec, users: Users) {
    && (forall u | u in users :: c.lower(u) == u && c.IsPeer(users[u]))
    && (forall u, v | u in users && v in users && users[u] == users[v] :: u == v)
    && (forall u | u in users :: PeerApart(c, users, users[u]))
  }

  predicate Recorded(c: Codec, dht: Dht, u: string, p: PeerId) {
    && c.utf8(u) in dht && dht[c.utf8(u)] == p.multihash
    && p.multihash in dht && dht[p.multihash] == c.utf8(u)
  }

  ghost predicate AllRecorded(c: Codec, dht: Dht, users: Users) {
    forall u | u in users :: Recorded(c, dht, u, users[u])
  }

  predicate KeyOf(c: Codec, users: Users, k: Bytes, u: string) {
    u in users && (k == c.utf8(u) || k == users[u].multihash)
  }

  ghost predicate Covered(c: Codec, dht: Dht, users: Users) {
    forall k | k in dht :: exists u :: KeyOf(c, users, k, u)
  }

  /** `dht` holds exactly the two records of every user. */
  ghost predicate Lists(c: Codec, dht: Dht, users: Users) {
    Registered(c, users) && AllRecorded(c, dht, users) && Covered(c, dht, users)
  }

  lemma Utf8Injective(c: Codec, a: string, b: string)
    requires c.Lawful() && c.utf8(a) == c.utf8(b)
    ensures a == b
  {
    assert c.parseUtf8(c.utf8(a)) == Some(a) && c.parseUtf8(c.utf8(b)) == Some(b);
  }

  lemma RecordOf(c: Codec, dht: Dht, users: Users, u: string)
    requires AllRecorded(c, dht, users) && u in users
    ensures Recorded(c, dht, u, users[u])
  {
  }

  lemma OwnerOf(c: Codec, dht: Dht, users: Users, k: Bytes) returns (u: string)
    requires Covered(c, dht, users) && k in dht
    ensures KeyOf(c, users, k, u)
  {
    u :| KeyOf(c, users, k, u);
  }

  lemma LookUpPeerIs(c: Codec, dht: Dht, users: Users, name: string)
    requires c.Lawful() && Lists(c, dht, users) && NameApart(c, users, name)
    ensures LookUpPeer(c, dht, name) == if c.lower(name) in users then Some(users[c.lower(name)]) else None
  {
    hide AllRecorded, Covered;
    var low := c.lower(name);
    var key := c.utf8(low);
    if low in users {
      RecordOf(c, dht, users, low);
      assert c.IsPeer(users[low]);
    } else if key in dht {
      var u := OwnerOf(c, dht, users, key);
      if key == c.utf8(u) { Utf8Injective(c, low, u); }
    }
  }

  /** The name registered for `p`, if any. */
  ghost predicate Named(users: Users, p: PeerId, u: string) { u in users && users[u] == p }

  lemma LookUpNameIs(c: Codec, dht: Dht, users: Users, p: PeerId)
    requires c.Lawful() && Lists(c, dht, users) && c.IsPeer(p) && PeerApart(c, users, p)
    ensures forall u | Named(users, p, u) :: LookUpName(c, dht, p) == Ok(u)
    ensures LookUpName(c, dht, p).Ok? ==> Named(users, p, LookUpName(c, dht, p).value)
  {
    hide AllRecorded, Covered;
    var key := p.multihash;
    forall u | Named(users, p, u) ensures LookUpName(c, dht, p) == Ok(u) {
      RecordOf(c, dht, users, u);
      assert c.parseUtf8(c.utf8(u)) == Some(u);
    }
    if key in dht {
      var u := OwnerOf(c, dht, users, key);
      assert c.lower(u) == u && c.IsPeer(users[u]);
      assert key != c.utf8(u);
      assert c.parsePeer(key) == Some(users[u]) && c.parsePeer(key) == Some(p);
      assert Named(users, p, u);
    }
  }

  /** What the directory should answer. */
  function Resident(users: Users, low: string): Option<PeerId> { if low in users then Some(users[low]) else None }

  ghost predicate NamedRight(users: Users, p: PeerId, answer: Result<string>) {
    (forall u | Named(users, p, u) :: answer == Ok(u)) && (answer.Ok? ==> Named(users, p, answer.value))
  }

  /** A name whose key happens to be a registered peer's bytes finds that peer's record:
      the lookup is right if and only if that record does not read as a peer. */
  lemma PeerLookUpExactly(c: Codec, dht: Dht, users: Users, name: string)
    requires c.Lawful() && Lists(c, dht, users)
    ensures LookUpPeer(c, dht, name) == Resident(users, c.lower(name)) <==>
              forall u | u in users && c.utf8(c.lower(name)) == users[u].multihash :: c.parsePeer(c.utf8(u)).None?
  {
    hide AllRecorded, Covered, LookUpPeer;
    var low := c.lower(name);
    if u :| u in users && c.utf8(low) == users[u].multihash {
      RecordOf(c, dht, users, u);
      RecordUsed(c, dht, users, name, u);
      forall v | v in users && c.utf8(low) == users[v].multihash ensures v == u {
        assert c.IsPeer(users[u]) && c.IsPeer(users[v]);
      }
    } else {
      LookUpPeerIs(c, dht, users, name);
    }
  }

  lemma RecordUsed(c: Codec, dht: Dht, users: Users, name: string, u: string)
    requires Registered(c, users) && u in users && Recorded(c, dht, u, users[u])
    requires c.utf8(c.lower(name)) == users[u].multihash
    ensures LookUpPeer(c, dht, name) == c.parsePeer(c.utf8(u)) && c.lower(name) !in users
  {
    assert PeerApart(c, users, users[u]);
  }

  /** Likewise for a peer whose bytes happen to be a registered name. */
  lemma NameLookUpExactly(c: Codec, dht: Dht, users: Users, p: PeerId)
    requires c.Lawful() && Lists(c, dht, users) && c.IsPeer(p)
    ensures NamedRight(users, p, LookUpName(c, dht, p)) <==>
              forall u | u in users && c.utf8(u) == p.multihash :: c.parseUtf8(users[u].multihash).None?
  {
    hide AllRecorded, Covered, LookUpName;
    if u :| u in users && c.utf8(u) == p.multihash {
      RecordOf(c, dht, users, u);
      NameRecordUsed(c, dht, users, p, u);
      forall v | v in users && c.utf8(v) == p.multihash ensures v == u { Utf8Injective(c, u, v); }
    } else {
      LookUpNameIs(c, dht, users, p);
    }
  }

  lemma NameRecordUsed(c: Codec, dht: Dht, users: Users, p: PeerId, u: string)
    requires Registered(c, users) && u in users && Recorded(c, dht, u, users[u]) && c.utf8(u) == p.multihash
    ensures forall v :: !Named(users, p, v)
    ensures
      var read := c.parseUtf8(users[u].multihash);
      LookUpName(c, dht, p) == if read.Some? then Ok(read.value) else Err
  {
    forall v ensures !Named(users, p, v) {
      if v in users { assert PeerApart(c, users, users[v]); }
    }
  }

  /** The two records of one user. */
  function WithUser(c: Codec, dht: Dht, low: string, p: PeerId): Dht {
    dht[c.utf8(low) := p.multihash][p.multihash := c.utf8(low)]
  }

  /** Nobody has taken the name or registered the peer, and neither key is mistaken
      for another. */
  ghost predicate Free(c: Codec, users: Users, name: string, p: PeerId) {
    && c.IsPeer(p) && c.lower(name) !in users && p !in users.Values
    && NameApart(c, users, name) && PeerApart(c, users, p) && c.utf8(c.lower(name)) != p.multihash
  }

  lemma RecordKept(c: Codec, dht: Dht, users: Users, name: string, p: PeerId, u: string)
    requires c.Lawful() && Registered(c, users) && Free(c, users, name, p)
    requires u in users && Recorded(c, dht, u, users[u])
    ensures Recorded(c, WithUser(c, dht, c.lower(name), p), u, users[u])
  {
    var low := c.lower(name);
    assert users[u] in users.Values;
    assert c.lower(u) == u && c.IsPeer(users[u]);
    if c.utf8(u) == c.utf8(low) { Utf8Injective(c, u, low); }
    assert c.utf8(u) != p.multihash && c.utf8(low) != users[u].multihash;
    assert users[u].multihash != p.multihash by {
      assert c.parsePeer(users[u].multihash) == Some(users[u]) && c.parsePeer(p.multihash) == Some(p);
    }
  }

  lemma NewUserRegistered(c: Codec, users: Users, name: string, p: PeerId)
    requires c.Lawful() && Registered(c, users) && Free(c, users, name, p)
    ensures Registered(c, users[c.lower(name) := p])
  {
    var users' := users[c.lower(name) := p];
    forall u, v | u in users' && v in users' && users'[u] == users'[v] ensures u == v {
      assert u in users ==> users[u] in users.Values;
      assert v in users ==> users[v] in users.Values;
    }
  }

  lemma NewUserCovered(c: Codec, dht: Dht, users: Users, name: string, p: PeerId)
    requires Covered(c, dht, users) && c.lower(name) !in users
    ensures Covered(c, WithUser(c, dht, c.lower(name), p), users[c.lower(name) := p])
  {
    var low := c.lower(name);
    var users' := users[low := p];
    forall k | k in WithUser(c, dht, low, p) ensures exists u :: KeyOf(c, users', k, u) {
      if k == c.utf8(low) || k == p.multihash {
        assert KeyOf(c, users', k, low);
      } else {
        var u :| KeyOf(c, users, k, u);
        assert KeyOf(c, users', k, u);
      }
    }
  }

  lemma NewUserListed(c: Codec, dht: Dht, users: Users, name: string, p: PeerId)
    requires c.Lawful() && Lists(c, dht, users) && Free(c, users, name, p)
    ensures Lists(c, WithUser(c, dht, c.lower(name), p), users[c.lower(name) := p])
  {
    hide Covered, Registered, Recorded, WithUser;
    var low := c.lower(name);
    var users', dht' := users[low := p], WithUser(c, dht, low, p);
    NewUserRegistered(c, users, name, p);
    NewUserCovered(c, dht, users, name, p);
    forall u | u in users' ensures Recorded(c, dht', u, users'[u]) {
      if u == low { NewRecord(c, dht, name, p); } else { RecordKept(c, dht, users, name, p, u); }
    }
  }

  lemma NewRecord(c: Codec, dht: Dht, name: string, p: PeerId)
    requires c.utf8(c.lower(name)) != p.multihash
    ensures Recorded(c, WithUser(c, dht, c.lower(name), p), c.lower(name), p)
  {
  }

  /** Registering a new name publishes both records and lists exactly one more user. */
  lemma RegistrationLists(s: LoopState, dht: Dht, users: Users, name: string, t: Ticket)
    requires s.config.codec.Lawful() && Lists(s.config.codec, dht, users)
    requires Free(s.config.codec, users, name, s.config.localPeer)
    ensures Lists(s.config.codec, Published(dht, CommandTurn(s, RegisterUsername(name, t)).effects),
                  users[s.config.codec.lower(name) := s.config.localPeer])
  {
    hide Lists, WithUser;
    NewUserListed(s.config.codec, dht, users, name, s.config.localPeer);
    PublishedPair(s, dht, name, t);
  }

  lemma PublishedPair(s: LoopState, dht: Dht, name: string, t: Ticket)
    ensures Published(dht, CommandTurn(s, RegisterUsername(name, t)).effects) ==
              WithUser(s.config.codec, dht, s.config.codec.lower(name), s.config.localPeer)
  {
    var es := CommandTurn(s, RegisterUsername(name, t)).effects;
    assert es[1..] == [es[1]] && es[1..][1..] == [];
    assert Published(dht, es) == Published(dht[es[0].key := es[0].value], [es[1]]);
    assert Published(dht, es) == WithUser(s.config.codec, dht, s.config.codec.lower(name), s.config.localPeer);
  }

  // ---------- cache transparency ----------

  /** Main asks for a peer id or a username, or somebody registers. A query may fail
      although the DHT holds the record. */
  datatype Op =
    | AskPeer(name: string, failing: bool)
    | AskName(peer: PeerId, failing: bool)
    | Join(name: string, peer: PeerId)

  datatype World = World(cache: Cache, users: Users, dht: Dht)

  function PeerReply(c: Codec, w: World, op: Op): Option<PeerId>
    requires op.AskPeer?
  {
    if op.failing then None else LookUpPeer(c, w.dht, op.name)
  }

  function NameReply(c: Codec, w: World, op: Op): Result<string>
    requires op.AskName?
  {
    if op.failing then Err else LookUpName(c, w.dht, op.peer)
  }

  function Do(c: Codec, w: World, op: Op): World {
    match op
    case AskPeer(name, _) => w.(cache := AfterPeer(w.cache, name, PeerReply(c, w, op)))
    case AskName(peer, _) => w.(cache := AfterName(w.cache, peer, NameReply(c, w, op)))
    case Join(name, peer) =>
      World(w.cache, w.users[c.lower(name) := peer], WithUser(c, w.dht, c.lower(name), peer))
  }

  /** Names are registered once and by one peer each, and no key in use is mistaken for
      another. */
  ghost predicate Allowed(c: Codec, w: World, op: Op) {
    match op
    case AskPeer(name, _) => NameApart(c, w.users, name)
    case AskName(peer, _) => c.IsPeer(peer) && PeerApart(c, w.users, peer)
    case Join(name, peer) => Free(c, w.users, name, peer)
  }

  ghost predicate AllAllowed(c: Codec, w: World, ops: seq<Op>)
    decreases |ops|
  {
    ops == [] || (Allowed(c, w, ops[0]) && AllAllowed(c, Do(c, w, ops[0]), ops[1..]))
  }

  function DoAll(c: Codec, w: World, ops: seq<Op>): World
    decreases |ops|
  {
    if ops == [] then w else DoAll(c, Do(c, w, ops[0]), ops[1..])
  }

  /** Every cached spelling lowercases to the registered name it stands for. */
  ghost predicate Faithful(c: Codec, cache: Cache, users: Users) {
    && (forall name | name in cache.peers :: Named(users, cache.peers[name], c.lower(name)))
    && (forall p | p in cache.names :: Named(users, p, c.lower(cache.names[p])))
  }

  ghost predicate Good(c: Codec, w: World) { Lists(c, w.dht, w.users) && Faithful(c, w.cache, w.users) }

  lemma PeerRemembered(c: Codec, cache: Cache, users: Users, name: string, reply: Option<PeerId>)
    requires Faithful(c, cache, users) && (reply.Some? ==> Named(users, reply.value, c.lower(name)))
    ensures Faithful(c, AfterPeer(cache, name, reply), users)
  {
  }

  lemma NameRemembered(c: Codec, cache: Cache, users: Users, peer: PeerId, reply: Result<string>)
    requires Faithful(c, cache, users)
    requires reply.Ok? ==> Named(users, peer, reply.value) && c.lower(reply.value) == reply.value
    ensures Faithful(c, AfterName(cache, peer, reply), users)
  {
  }

  lemma NameIsLow(c: Codec, dht: Dht, users: Users)
    requires Lists(c, dht, users)
    ensures forall p, u | Named(users, p, u) :: c.lower(u) == u
  {
  }

  lemma JoinFaithful(c: Codec, cache: Cache, users: Users, name: string, p: PeerId)
    requires Faithful(c, cache, users) && c.lower(name) !in users
    ensures Faithful(c, cache, users[c.lower(name) := p])
  {
  }

  lemma DoGood(c: Codec, w: World, op: Op)
    requires c.Lawful() && Good(c, w) && Allowed(c, w, op)
    ensures Good(c, Do(c, w, op))
  {
    hide Lists, NameApart, PeerApart, WithUser, LookUpPeer, LookUpName, Faithful;
    match op
    case AskPeer(name, _) =>
      LookUpPeerIs(c, w.dht, w.users, name);
      PeerRemembered(c, w.cache, w.users, name, PeerReply(c, w, op));
    case AskName(peer, _) =>
      LookUpNameIs(c, w.dht, w.users, peer);
      NameIsLow(c, w.dht, w.users);
      NameRemembered(c, w.cache, w.users, peer, NameReply(c, w, op));
    case Join(name, peer) =>
      NewUserListed(c, w.dht, w.users, name, peer);
      JoinFaithful(c, w.cache, w.users, name, peer);
  }

  lemma {:induction false} AllGood(c: Codec, w: World, ops: seq<Op>)
    requires c.Lawful() && Good(c, w) && AllAllowed(c, w, ops)
    ensures Good(c, DoAll(c, w, ops))
    decreases |ops|
  {
    if ops != [] {
      DoGood(c, w, ops[0]);
      AllGood(c, Do(c, w, ops[0]), ops[1..]);
    }
  }

  /** After any sequence of lookups, failures and registrations, in any letter case,
      a cached peer lookup gives the DHT's answer; if its query fails it gives that
      answer or none. */
  lemma PeerCacheTransparent(c: Codec, dht: Dht, users: Users, ops: seq<Op>, name: string, failing: bool)
    requires c.Lawful() && Lists(c, dht, users)
    requires AllAllowed(c, World(Cache(map[], map[]), users, dht), ops)
    requires NameApart(c, DoAll(c, World(Cache(map[], map[]), users, dht), ops).users, name)
    ensures
      var w := DoAll(c, World(Cache(map[], map[]), users, dht), ops);
      var result := PeerFor(w.cache, name, PeerReply(c, w, AskPeer(name, failing)));
      && (!failing ==> result == LookUpPeer(c, w.dht, name))
      && (result.Some? ==> result == LookUpPeer(c, w.dht, name))
  {
    hide AllRecorded, Covered, WithUser, LookUpPeer, LookUpName;
    AllGood(c, World(Cache(map[], map[]), users, dht), ops);
    var w := DoAll(c, World(Cache(map[], map[]), users, dht), ops);
    LookUpPeerIs(c, w.dht, w.users, name);
  }

  /** Likewise for usernames, up to lowercasing: the cache may return the spelling
      somebody once typed. */
  lemma NameCacheTransparent(c: Codec, dht: Dht, users: Users, ops: seq<Op>, peer: PeerId, failing: bool)
    requires c.Lawful() && Lists(c, dht, users) && c.IsPeer(peer)
    requires AllAllowed(c, World(Cache(map[], map[]), users, dht), ops)
    requires PeerApart(c, DoAll(c, World(Cache(map[], map[]), users, dht), ops).users, peer)
    ensures
      var w := DoAll(c, World(Cache(map[], map[]), users, dht), ops);
      var result := NameFor(w.cache, peer, NameReply(c, w, AskName(peer, failing)));
      var answer := LookUpName(c, w.dht, peer);
      && (!failing ==> (result.Ok? <==> answer.Ok?))
      && (result.Ok? ==> answer.Ok? && c.lower(result.value) == answer.value)
  {
    hide AllRecorded, Covered, WithUser, LookUpPeer, LookUpName;
    AllGood(c, World(Cache(map[], map[]), users, dht), ops);
    var w := DoAll(c, World(Cache(map[], map[]), users, dht), ops);
    LookUpNameIs(c, w.dht, w.users, peer);
  }

  // ---------- what is once found stays found ----------

  /** What was learned about a name was learned about its peer, and the other way round. */
  ghost predicate Paired(cache: Cache) {
    && (forall name | name in cache.peers :: cache.peers[name] in cache.names)
    && (forall p | p in cache.names :: cache.names[p] in cache.peers)
  }

  /** Every answer of `cache` is still one of `cache'`, a name perhaps in other letter case. */
  ghost predicate AnswersStay(c: Codec, cache: Cache, cache': Cache) {
    && (forall name | name in cache.peers :: name in cache'.peers && cache'.peers[name] == cache.peers[name])
    && (forall p | p in cache.names :: p in cache'.names && c.lower(cache'.names[p]) == c.lower(cache.names[p]))
  }

  lemma OneName(c: Codec, dht: Dht, users: Users)
    requires Lists(c, dht, users)
    ensures forall p, u, v | Named(users, p, u) && Named(users, p, v) :: u == v
  {
  }

  lemma LearningPairs(cache: Cache, name: string, peer: PeerId)
    requires Paired(cache)
    ensures Paired(Inserted(cache, name, peer))
  {
    var known := Inserted(cache, name, peer);
    forall n | n in known.peers ensures known.peers[n] in known.names {
      if n != name { assert cache.peers[n] in cache.names; }
    }
    forall p | p in known.names ensures known.names[p] in known.peers {
      if p != peer { assert cache.names[p] in cache.peers; }
    }
  }

  /** Learning that `name` is registered, in some letter case, for `peer`. */
  lemma LearningKeeps(c: Codec, cache: Cache, users: Users, name: string, peer: PeerId)
    requires Faithful(c, cache, users) && Named(users, peer, c.lower(name))
    requires forall p, u, v | Named(users, p, u) && Named(users, p, v) :: u == v
    ensures AnswersStay(c, cache, Inserted(cache, name, peer))
  {
    if name in cache.peers { assert Named(users, cache.peers[name], c.lower(name)); }
    if peer in cache.names { assert Named(users, peer, c.lower(cache.names[peer])); }
  }

  lemma SameAnswers(c: Codec, cache: Cache)
    ensures AnswersStay(c, cache, cache)
  {
  }

  lemma DoKeepsAnswers(c: Codec, w: World, op: Op)
    requires c.Lawful() && Good(c, w) && Paired(w.cache) && Allowed(c, w, op)
    ensures Paired(Do(c, w, op).cache) && AnswersStay(c, w.cache, Do(c, w, op).cache)
  {
    hide Lists, Faithful, Paired, WithUser, LookUpPeer, LookUpName, NameApart, PeerApart, Inserted, AnswersStay;
    OneName(c, w.dht, w.users);
    SameAnswers(c, w.cache);
    match op
    case AskPeer(name, _) =>
      LookUpPeerIs(c, w.dht, w.users, name);
      var found := PeerReply(c, w, op);
      if name !in w.cache.peers && found.Some? {
        LearningPairs(w.cache, name, found.value);
        LearningKeeps(c, w.cache, w.users, name, found.value);
      }
    case AskName(peer, _) =>
      LookUpNameIs(c, w.dht, w.users, peer);
      NameIsLow(c, w.dht, w.users);
      var found := NameReply(c, w, op);
      if peer !in w.cache.names && found.Ok? {
        LearningPairs(w.cache, found.value, peer);
        LearningKeeps(c, w.cache, w.users, found.value, peer);
      }
    case Join(_, _) =>
  }

  lemma {:induction false} AllKeepAnswers(c: Codec, w: World, ops: seq<Op>)
    requires c.Lawful() && Good(c, w) && Paired(w.cache) && AllAllowed(c, w, ops)
    ensures Good(c, DoAll(c, w, ops)) && Paired(DoAll(c, w, ops).cache)
    ensures AnswersStay(c, w.cache, DoAll(c, w, ops).cache)
    decreases |ops|
  {
    hide Good, Allowed, Do;
    if ops != [] {
      DoGood(c, w, ops[0]);
      DoKeepsAnswers(c, w, ops[0]);
      AllKeepAnswers(c, Do(c, w, ops[0]), ops[1..]);
    }
  }

  /** A world in which `ops` have happened, then `op`, then `more`. */
  ghost predicate Lived(c: Codec, dht: Dht, users: Users, ops: seq<Op>, op: Op, more: seq<Op>) {
    var w0 := World(Cache(map[], map[]), users, dht);
    && c.Lawful() && Lists(c, dht, users) && AllAllowed(c, w0, ops)
    && Allowed(c, DoAll(c, w0, ops), op) && AllAllowed(c, Do(c, DoAll(c, w0, ops), op), more)
  }

  lemma LivedKeeps(c: Codec, dht: Dht, users: Users, ops: seq<Op>, op: Op, more: seq<Op>)
    requires Lived(c, dht, users, ops, op, more)
    ensures
      var w := DoAll(c, World(Cache(map[], map[]), users, dht), ops);
      && Good(c, w) && Good(c, Do(c, w, op)) && Paired(Do(c, w, op).cache)
      && AnswersStay(c, Do(c, w, op).cache, DoAll(c, Do(c, w, op), more).cache)
  {
    hide Good, Allowed, Do, AnswersStay;
    var w0 := World(Cache(map[], map[]), users, dht);
    assert Good(c, w0) by { EmptyGood(c, dht, users); }
    AllKeepAnswers(c, w0, ops);
    var w := DoAll(c, w0, ops);
    DoGood(c, w, op);
    DoKeepsAnswers(c, w, op);
    AllKeepAnswers(c, Do(c, w, op), more);
  }

  lemma EmptyGood(c: Codec, dht: Dht, users: Users)
    requires Lists(c, dht, users)
    ensures Good(c, World(Cache(map[], map[]), users, dht))
  {
  }

  /** A user that was once found is found ever after without a query, even while every
      query would fail, and so is that peer's name, in some letter case. */
  lemma FoundPeerStaysFound(c: Codec, dht: Dht, users: Users, ops: seq<Op>, name: string, failing: bool,
                            more: seq<Op>, t: Ticket)
    requires Lived(c, dht, users, ops, AskPeer(name, failing), more)
    ensures
      var w := DoAll(c, World(Cache(map[], map[]), users, dht), ops);
      var found := PeerFor(w.cache, name, PeerReply(c, w, AskPeer(name, failing)));
      var later := DoAll(c, Do(c, w, AskPeer(name, failing)), more).cache;
      found.Some? ==>
        && PeerFor(later, name, None) == found && PeerQuery(later, name, t) == []
        && NameQuery(later, found.value, t) == []
        && NameFor(later, found.value, Err).Ok? && c.lower(NameFor(later, found.value, Err).value) == c.lower(name)
  {
    hide Lists, Allowed, AllAllowed, DoAll, LookUpPeer;
    LivedKeeps(c, dht, users, ops, AskPeer(name, failing), more);
    var w := DoAll(c, World(Cache(map[], map[]), users, dht), ops);
    var found := PeerFor(w.cache, name, PeerReply(c, w, AskPeer(name, failing)));
    if found.Some? {
      var now := Do(c, w, AskPeer(name, failing));
      assert name in now.cache.peers && now.cache.peers[name] == found.value;
      assert Named(now.users, found.value, c.lower(name));
      assert Named(now.users, found.value, c.lower(now.cache.names[found.value]));
      assert c.lower(now.cache.names[found.value]) == c.lower(name) by { OneName(c, now.dht, now.users); }
    }
  }

  /** Likewise a peer whose name was once found: its name stays found up to letter case,
      and a user of the name that was found. */
  lemma FoundNameStaysFound(c: Codec, dht: Dht, users: Users, ops: seq<Op>, peer: PeerId, failing: bool,
                            more: seq<Op>, t: Ticket)
    requires Lived(c, dht, users, ops, AskName(peer, failing), more)
    ensures
      var w := DoAll(c, World(Cache(map[], map[]), users, dht), ops);
      var found := NameFor(w.cache, peer, NameReply(c, w, AskName(peer, failing)));
      var later := DoAll(c, Do(c, w, AskName(peer, failing)), more).cache;
      found.Ok? ==>
        && NameQuery(later, peer, t) == []
        && NameFor(later, peer, Err).Ok? && c.lower(NameFor(later, peer, Err).value) == c.lower(found.value)
        && PeerFor(later, found.value, None) == Some(peer) && PeerQuery(later, found.value, t) == []
  {
    hide Lists, Allowed, AllAllowed, DoAll, LookUpName;
    LivedKeeps(c, dht, users, ops, AskName(peer, failing), more);
    var w := DoAll(c, World(Cache(map[], map[]), users, dht), ops);
    var found, now := NameFor(w.cache, peer, NameReply(c, w, AskName(peer, failing))), Do(c, w, AskName(peer, failing));
    if found.Ok? {
      assert now.cache.names[peer] == found.value && found.value in now.cache.peers;
      assert Named(now.users, now.cache.peers[found.value], c.lower(found.value));
      assert Named(now.users, peer, c.lower(found.value));
    }
  }
}
