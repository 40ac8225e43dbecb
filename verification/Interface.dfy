/** From a typed line to the command it sends: the dispatch over actions, the file
    checks in front of a trade, and the handling of a registration request. */
module Interface {
  import opened Protocol
  import opened Tokenizer
  import opened SwapNetwork
  import opened ClientTask
  import opened Fleet
  import opened Plays
  import SwapRuns
  import Handlers

  datatype Request =
    | Chat(message: string)
    | Trade(offeredName: string, offeredPath: Path, user: string, requestedName: string, requestedPath: Path)
    | Dm(user: string, message: string)
    | Accept(user: string, offeredName: string, placePath: Path, requestedName: string, sourcePath: Path)
    | Decline(user: string, offeredName: string, requestedName: string)
    // The rest is answered by a printed line.
    | NoAction
    | Usage(action: string)
    | Unknown(action: string)

  predicate Proper(r: Request) { r.Chat? || r.Trade? || r.Dm? || r.Accept? || r.Decline? }

  /** `lower` is the case mapping applied to the first word, and to it only. */
  function Parse(lower: string -> string, line: string): Request {
    var args := Split(line);
    if args == [] then NoAction
    else
      var action := lower(args[0]);
      if action == "send" then
        if |args| < 2 then Usage(action) else Chat(args[1])
      else if action == "trade" then
        if |args| < 6 then Usage(action) else Trade(args[1], args[2], args[3], args[4], args[5])
      else if action == "dm" then
        if |args| < 3 then Usage(action) else Dm(args[1], args[2])
      else if action == "accept" then
        if |args| < 6 then Usage(action) else Accept(args[1], args[2], args[3], args[4], args[5])
      else if action == "decline" then
        if |args| < 4 then Usage(action) else Decline(args[1], args[2], args[3])
      else Unknown(action)
  }

  // ---------- what a line must look like ----------

  function Keyword(r: Request): string
    requires Proper(r)
  {
    match r
    case Chat(_) => "send"
    case Trade(_, _, _, _, _) => "trade"
    case Dm(_, _) => "dm"
    case Accept(_, _, _, _, _) => "accept"
    case Decline(_, _, _) => "decline"
  }

  function Fields(r: Request): seq<string>
    requires Proper(r)
  {
    match r
    case Chat(message) => [message]
    case Trade(offered, source, user, requested, place) => [offered, source, user, requested, place]
    case Dm(user, message) => [user, message]
    case Accept(user, offered, place, requested, source) => [user, offered, place, requested, source]
    case Decline(user, offered, requested) => [user, offered, requested]
  }

  /** The tokens name the action in any case and then give its fields; what follows
      is ignored. */
  predicate Spells(lower: string -> string, tokens: seq<string>, r: Request) {
    && Proper(r) && tokens != [] && lower(tokens[0]) == Keyword(r)
    && Fields(r) <= tokens[1..]
  }

  lemma ParseSpells(lower: string -> string, line: string, r: Request)
    requires Proper(r)
    ensures Parse(lower, line) == r <==> Spells(lower, Split(line), r)
  {
    hide Split;
    var args := Split(line);
    if Spells(lower, args, r) {
      var fs := Fields(r);
      assert fs == args[1..][..|fs|];
      forall i | 0 <= i < |fs| ensures fs[i] == args[1 + i] { assert fs[i] == args[1..][i]; }
    }
    if Parse(lower, line) == r {
      assert Fields(r) == args[1..][..|Fields(r)|];
    }
  }

  /** A line means `r` if and only if it lays out, between admissible gaps, tokens
      that spell `r`: any action printed with token-shaped fields parses back. */
  lemma ParseExactly(lower: string -> string, line: string, r: Request)
    requires Proper(r)
    ensures Parse(lower, line) == r <==>
              exists ps, tail :: Line(ps, tail, false) && Print(ps, tail) == line && Spells(lower, Tokens(ps), r)
  {
    ParseSpells(lower, line, r);
    SplitExactly(line, Split(line));
    if Parse(lower, line) == r {
      var ps, tail :| Line(ps, tail, false) && Tokens(ps) == Split(line) && Print(ps, tail) == line;
      assert Spells(lower, Tokens(ps), r);
    }
    if exists ps, tail :: Line(ps, tail, false) && Print(ps, tail) == line && Spells(lower, Tokens(ps), r) {
      var ps, tail :| Line(ps, tail, false) && Print(ps, tail) == line && Spells(lower, Tokens(ps), r);
      SplitPrint(ps, tail, false);
    }
  }

  lemma {:induction false} BlankSplits(s: string)
    ensures Split(s) == [] <==> Blank(s)
    decreases |s|
  {
    if s != [] && IsSpace(s[0]) {
      BlankSplits(s[1..]);
      assert forall i | 0 < i < |s| :: s[i] == s[1..][i - 1];
      assert forall i | 0 <= i < |s| - 1 :: s[1..][i] == s[i + 1];
    }
  }

  predicate OneToken(t: string) { Quoted(t) || Bare(t) || Unclosed(t) }

  lemma OneTokenSplits(m: string)
    ensures Split(m) != [] && Split(m)[0] == m <==> OneToken(m)
  {
    if OneToken(m) {
      var ps := [Piece("", m)];
      assert ps[1..] == [] && Tokens(ps) == [m] + Tokens([]) && QuoteFree(Tokens(ps[1..]));
      assert Line(ps[1..], "", !Quoted(m));
      assert Line(ps, "", false);
      SplitPrint(ps, "", false);
      assert "" + m + "" == m;
    }
    if Split(m) != [] && Split(m)[0] == m {
      TokensStart(m);
      MatchShape(m);
      assert m[..MatchLength(m)] == m;
    }
  }

  lemma {:induction false} TokensStart(s: string)
    ensures forall t | t in Split(s) :: t != [] && !IsSpace(t[0])
    decreases |s|
  {
    if s != [] {
      TokensStart(if IsSpace(s[0]) then s[1..] else s[MatchLength(s)..]);
    }
  }

  lemma FirstWord(word: string, rest: string)
    requires Bare(word)
    ensures Split(word + " " + rest) == [word] + Split(rest)
  {
    BlanksSeparate(word, rest, ' ');
  }

  lemma SendIsBare()
    ensures Bare("send")
  {
  }

  /** `send` broadcasts the message it was given if and only if the message is a
      single token; of a longer one only the first token is sent. */
  lemma SendFidelity(lower: string -> string, m: string)
    requires lower("send") == "send"
    ensures Parse(lower, "send" + " " + m) == if Split(m) == [] then Usage("send") else Chat(Split(m)[0])
    ensures Parse(lower, "send" + " " + m) == Chat(m) <==> OneToken(m)
  {
    hide Split, OneToken, Bare;
    SendIsBare();
    OneTokenSplits(m);
    FirstWord("send", m);
  }

  /** Of two words or more only the first is sent. */
  lemma SendDropsWords(lower: string -> string, word: string, more: string)
    requires lower("send") == "send" && Bare(word)
    ensures Parse(lower, "send" + " " + (word + " " + more)) == Chat(word) != Chat(word + " " + more)
  {
    hide Split, Parse, OneToken, Bare;
    FirstWord(word, more);
    SendFidelity(lower, word + " " + more);
  }

  /** `lower` leaves the five documented actions alone. */
  predicate Keeps(lower: string -> string) {
    lower("send") == "send" && lower("trade") == "trade" && lower("dm") == "dm"
    && lower("accept") == "accept" && lower("decline") == "decline"
  }

  /** A line of an action and its fields means the request with that keyword and fields. */
  lemma LineMeans(lower: string -> string, line: string, r: Request)
    requires Keeps(lower) && Proper(r) && line == Join([Keyword(r)] + Fields(r))
    requires forall x | x in Fields(r) :: Word(x)
    ensures Parse(lower, line) == r
  {
    hide Parse, Quoted, Bare;
    ActionsAreBare();
    var ts := [Keyword(r)] + Fields(r);
    assert ts[1..] == Fields(r);
    WordsSplit(ts);
    ParseSpells(lower, line, r);
  }

  predicate Word(x: string) { Quoted(x) || Bare(x) }

  lemma ShortLines(lower: string -> string, a: string, b: string, c: string)
    requires Keeps(lower) && Word(a) && Word(b) && Word(c)
    ensures Parse(lower, "send " + a) == Chat(a)
    ensures Parse(lower, "dm " + a + " " + b) == Dm(a, b)
    ensures Parse(lower, "decline " + a + " " + b + " " + c) == Decline(a, b, c)
  {
    hide Parse, Word, Join;
    JoinedFew("send", a, b, c);
    JoinedFew("dm", a, b, c);
    JoinedFew("decline", a, b, c);
    assert "send " == "send" + " " && "dm " == "dm" + " " && "decline " == "decline" + " ";
    LineMeans(lower, "send " + a, Chat(a));
    LineMeans(lower, "dm " + a + " " + b, Dm(a, b));
    LineMeans(lower, "decline " + a + " " + b + " " + c, Decline(a, b, c));
  }

  lemma LongLines(lower: string -> string, a: string, b: string, c: string, d: string, e: string)
    requires Keeps(lower) && Word(a) && Word(b) && Word(c) && Word(d) && Word(e)
    ensures Parse(lower, "trade " + a + " " + b + " " + c + " " + d + " " + e) == Trade(a, b, c, d, e)
    ensures Parse(lower, "accept " + a + " " + b + " " + c + " " + d + " " + e) == Accept(a, b, c, d, e)
  {
    hide Parse, Word, Join;
    JoinedFive("trade", a, b, c, d, e);
    JoinedFive("accept", a, b, c, d, e);
    assert "trade " == "trade" + " " && "accept " == "accept" + " ";
    LineMeans(lower, "trade " + a + " " + b + " " + c + " " + d + " " + e, Trade(a, b, c, d, e));
    LineMeans(lower, "accept " + a + " " + b + " " + c + " " + d + " " + e, Accept(a, b, c, d, e));
  }

  /** The documented lines, for any words or quotations in their places. */
  lemma DocumentedLines(lower: string -> string, a: string, b: string, c: string, d: string, e: string)
    requires Keeps(lower) && Word(a) && Word(b) && Word(c) && Word(d) && Word(e)
    ensures Parse(lower, "send " + a) == Chat(a)
    ensures Parse(lower, "dm " + a + " " + b) == Dm(a, b)
    ensures Parse(lower, "trade " + a + " " + b + " " + c + " " + d + " " + e) == Trade(a, b, c, d, e)
    ensures Parse(lower, "accept " + a + " " + b + " " + c + " " + d + " " + e) == Accept(a, b, c, d, e)
    ensures Parse(lower, "decline " + a + " " + b + " " + c) == Decline(a, b, c)
  {
    hide Parse;
    ShortLines(lower, a, b, c);
    LongLines(lower, a, b, c, d, e);
  }

  lemma ActionsAreBare()
    ensures Bare("send") && Bare("dm") && Bare("trade") && Bare("accept") && Bare("decline")
  {
  }

  lemma JoinedFew(k: string, a: string, b: string, c: string)
    ensures Join([k] + [a]) == k + " " + a
    ensures Join([k] + [a, b]) == k + " " + a + " " + b
    ensures Join([k] + [a, b, c]) == k + " " + a + " " + b + " " + c
  {
    JoinTwo(k, a, []);
    JoinTwo(k, a, [b]);
    JoinTwo(k, a, [b, c]);
    JoinTwo(a, b, []);
    JoinTwo(a, b, [c]);
    JoinTwo(b, c, []);
  }

  lemma JoinTwo(a: string, b: string, rest: seq<string>)
    ensures Join([a] + ([b] + rest)) == a + " " + Join([b] + rest)
  {
  }

  lemma JoinedFive(k: string, a: string, b: string, c: string, d: string, e: string)
    ensures Join([k] + [a, b, c, d, e]) == k + " " + a + " " + b + " " + c + " " + d + " " + e
  {
    JoinedFew(c, d, e, "");
    assert [k] + ([a] + ([b] + ([c] + [d, e]))) == [k] + [a, b, c, d, e];
    JoinTwo(k, a, [b] + ([c] + [d, e]));
    JoinTwo(a, b, [c] + [d, e]);
    JoinTwo(b, c, [d, e]);
  }

  // ---------- what a line does ----------

  /** Files by path, unreadable ones without contents, and everything else that
      occupies a path. */
  datatype Disk = Disk(files: map<Path, Option<Bytes>>, others: set<Path>)

  predicate Occupied(d: Disk, p: Path) { p in d.files || p in d.others }

  predicate Readable(d: Disk, p: Path) { p in d.files && d.files[p].Some? }

  /** The local checks in front of a trade or an accept. */
  predicate Ready(d: Disk, r: Request) {
    match r
    case Trade(_, source, _, _, place) => Readable(d, source) && !Occupied(d, place)
    case Accept(_, _, place, _, source) => Readable(d, source) && !Occupied(d, place)
    case _ => Proper(r)
  }

  /** What goes to `peer`, once looked up, for request `r`. */
  function CommandTo(d: Disk, r: Request, peer: PeerId, t: Ticket): Command
    requires Ready(d, r) && !r.Chat?
  {
    match r
    case Trade(offered, source, _, requested, place) =>
      MakeTradeOffer(offered, d.files[source].value, peer, requested, place, t)
    case Accept(_, offered, _, requested, source) =>
      RespondTrade(peer, requested, offered, d.files[source], Some(t))
    case Decline(_, offered, requested) => RespondTrade(peer, requested, offered, None, None)
    case Dm(_, message) => DirectMessage(peer, message, t)
  }

  /** What the network answers during one call. */
  datatype Replies = Replies(found: Option<PeerId>, published: bool, acknowledged: bool,
                             bytes: Result<Option<Bytes>>)

  /** Everything request `r` sends to the event loop. */
  function Sent(d: Disk, cache: Cache, r: Request, got: Replies, t: Ticket): seq<Command> {
    if !Ready(d, r) then []
    else if r.Chat? then [SendChatMessage(r.message, got.published, t)]
    else
      var asked := PeerQuery(cache, r.user, t);
      var peer := PeerFor(cache, r.user, got.found);
      asked + if peer.None? then [] else [CommandTo(d, r, peer.value, t + |asked|)]
  }

  /** What the cache holds after request `r`. */
  function Remembered(d: Disk, cache: Cache, r: Request, got: Replies): Cache {
    if Ready(d, r) && !r.Chat? then AfterPeer(cache, r.user, got.found) else cache
  }

  /** The one file a request leaves behind: an accepted swap's. */
  function Placed(d: Disk, cache: Cache, r: Request, got: Replies): seq<FileWrite> {
    if r.Accept? && Ready(d, r) && PeerFor(cache, r.user, got.found).Some? && got.bytes.Ok? && got.bytes.value.Some?
    then [FileWrite(r.placePath, got.bytes.value.value)] else []
  }

  method HandleTrade(client: Client, disk: Disk, offeredName: string, offeredPath: Path, user: string,
                     requestedName: string, requestedPath: Path, got: Replies)
    modifies client, client.store
    ensures
      var r := Trade(offeredName, offeredPath, user, requestedName, requestedPath);
      var cache := old(client.store.Contents());
      && client.sent == old(client.sent) + Sent(disk, cache, r, got, old(client.nextTicket))
      && client.store.Contents() == Remembered(disk, cache, r, got)
  {
    if offeredPath !in disk.files {
      return;
    }
    if Occupied(disk, requestedPath) {
      return;
    }
    var offeredBytes := disk.files[offeredPath];
    if offeredBytes.None? {
      return;
    }
    var _ := client.OfferTrade(offeredName, offeredBytes.value, user, requestedName, requestedPath,
                               got.found, got.acknowledged);
  }

  method HandleAcceptTrade(client: Client, disk: Disk, user: string, offeredName: string, placePath: Path,
                           requestedName: string, sourcePath: Path, got: Replies)
    returns (placed: seq<FileWrite>)
    modifies client, client.store
    ensures
      var r := Accept(user, offeredName, placePath, requestedName, sourcePath);
      var cache := old(client.store.Contents());
      && client.sent == old(client.sent) + Sent(disk, cache, r, got, old(client.nextTicket))
      && placed == Placed(disk, cache, r, got)
      && client.store.Contents() == Remembered(disk, cache, r, got)
  {
    placed := [];
    if sourcePath !in disk.files {
      return;
    }
    if Occupied(disk, placePath) {
      return;
    }
    var requestedBytes := disk.files[sourcePath];
    if requestedBytes.None? {
      return;
    }
    var offeredBytes := client.AcceptTrade(user, requestedName, offeredName, requestedBytes.value,
                                           got.found, got.bytes);
    if offeredBytes.Ok? {
      placed := [FileWrite(placePath, offeredBytes.value)];
    }
  }

  /** `None` is a line that could not be read or the end of the input. */
  method HandleStdIn(client: Client, lower: string -> string, disk: Disk, line: Option<string>, got: Replies)
    returns (placed: seq<FileWrite>)
    modifies client, client.store
    ensures
      var r := if line.Some? then Parse(lower, line.value) else NoAction;
      var cache := old(client.store.Contents());
      && client.sent == old(client.sent) + Sent(disk, cache, r, got, old(client.nextTicket))
      && placed == Placed(disk, cache, r, got)
      && client.store.Contents() == Remembered(disk, cache, r, got)
  {
    placed := [];
    if line.None? {
      return;
    }
    var args := Split(line.value);
    if |args| == 0 {
      return;
    }
    var action := lower(args[0]);
    if action == "send" {
      if |args| < 2 { return; }
      var _ := client.SendMessage(args[1], got.published);
    } else if action == "trade" {
      if |args| < 6 { return; }
      HandleTrade(client, disk, args[1], args[2], args[3], args[4], args[5], got);
    } else if action == "dm" {
      if |args| < 3 { return; }
      var _ := client.SendDirectMessage(args[1], args[2], got.found, got.acknowledged);
    } else if action == "accept" {
      if |args| < 6 { return; }
      placed := HandleAcceptTrade(client, disk, args[1], args[2], args[3], args[4], args[5], got);
    } else if action == "decline" {
      if |args| < 4 { return; }
      var _ := client.DeclineTrade(args[1], args[2], args[3], got.found);
    }
  }

  /** A registration request is pursued exactly when nobody answers to the name;
      otherwise the process ends. */
  method HandleRegistrationRequest(client: Client, username: string, found: Option<PeerId>, stored: bool)
    returns (exited: bool)
    modifies client, client.store
    ensures
      var cache := old(client.store.Contents());
      var asked := PeerQuery(cache, username, old(client.nextTicket));
      && (exited <==> PeerFor(cache, username, found).Some?)
      && client.sent == old(client.sent) + asked +
           (if exited then [] else [RegisterUsername(username, old(client.nextTicket) + |asked|)])
      && client.store.Contents() == AfterPeer(cache, username, found)
  {
    var peer := client.GetPeerId(username, found);
    if peer.Some? {
      return true;
    }
    var _ := client.RegisterName(username, stored);
    exited := false;
  }

  // ---------- what the checks guarantee ----------

  /** An offer leaves if and only if its request is a trade whose file can be read, whose
      target path nothing occupies and whose user is known; and then it carries exactly
      the bytes of the file and the path typed. */
  lemma OffersAreChecked(d: Disk, cache: Cache, r: Request, got: Replies, t: Ticket)
    ensures forall c | c in Sent(d, cache, r, got, t) && c.MakeTradeOffer? ::
              && r.Trade? && r.offeredPath in d.files && d.files[r.offeredPath] == Some(c.offeredFileBytes)
              && c.requestedFilePath == r.requestedPath && r.requestedPath !in d.files && r.requestedPath !in d.others
              && c.offeredFileName == r.offeredName && c.requestedFileName == r.requestedName
              && PeerFor(cache, r.user, got.found) == Some(c.peer)
    ensures (exists c :: c in Sent(d, cache, r, got, t) && c.MakeTradeOffer?) <==>
              && r.Trade? && r.offeredPath in d.files && d.files[r.offeredPath].Some?
              && r.requestedPath !in d.files && r.requestedPath !in d.others
              && PeerFor(cache, r.user, got.found).Some?
  {
    SentLast(d, cache, r, got, t);
  }

  /** The last command sent is the request itself, unless its user is unknown. */
  lemma SentLast(d: Disk, cache: Cache, r: Request, got: Replies, t: Ticket)
    ensures
      var sent := Sent(d, cache, r, got, t);
      Ready(d, r) && !r.Chat? && PeerFor(cache, r.user, got.found).Some? ==>
        sent != [] && sent[|sent| - 1] ==
          CommandTo(d, r, PeerFor(cache, r.user, got.found).value, TicketAfter(cache, r.user, t))
  {
  }

  /** Likewise an accept, which carries the bytes of the file given in return. */
  lemma AcceptsAreChecked(d: Disk, cache: Cache, r: Request, got: Replies, t: Ticket)
    ensures forall c | c in Sent(d, cache, r, got, t) && c.RespondTrade? && c.requestedFileBytes.Some? ::
              && r.Accept? && r.sourcePath in d.files && d.files[r.sourcePath] == c.requestedFileBytes
              && r.placePath !in d.files && r.placePath !in d.others
              && c.offeredFileName == r.offeredName && c.requestedFileName == r.requestedName
              && PeerFor(cache, r.user, got.found) == Some(c.peer)
    ensures (exists c :: c in Sent(d, cache, r, got, t) && c.RespondTrade? && c.requestedFileBytes.Some?) <==>
              && r.Accept? && r.sourcePath in d.files && d.files[r.sourcePath].Some?
              && r.placePath !in d.files && r.placePath !in d.others
              && PeerFor(cache, r.user, got.found).Some?
  {
    SentLast(d, cache, r, got, t);
  }

  /** A file is placed only by an accept that was sent and whose reply carried these very
      bytes, at the path typed, which nothing occupies; and every such accept places one. */
  lemma PlacedIsReceived(d: Disk, cache: Cache, r: Request, got: Replies, t: Ticket)
    ensures |Placed(d, cache, r, got)| <= 1
    ensures forall w | w in Placed(d, cache, r, got) ::
              && r.Accept? && w.path == r.placePath && w.path !in d.files && w.path !in d.others
              && got.bytes == Ok(Some(w.bytes))
    ensures Placed(d, cache, r, got) != [] <==>
              && (exists c :: c in Sent(d, cache, r, got, t) && c.RespondTrade? && c.requestedFileBytes.Some?)
              && got.bytes.Ok? && got.bytes.value.Some?
  {
    SentLast(d, cache, r, got, t);
  }

  /** A chat line publishes the words typed and nothing else; a direct message and a
      decline go to the user named, the message as typed, the decline for the names typed. */
  lemma WordsAreSent(d: Disk, cache: Cache, r: Request, got: Replies, t: Ticket)
    ensures forall c | c in Sent(d, cache, r, got, t) && c.SendChatMessage? ::
              r.Chat? && c.message == r.message && c.published == got.published
    ensures forall c | c in Sent(d, cache, r, got, t) && c.DirectMessage? ::
              r.Dm? && c.message == r.message && PeerFor(cache, r.user, got.found) == Some(c.peer)
    ensures forall c | c in Sent(d, cache, r, got, t) && c.RespondTrade? && c.requestedFileBytes.None? ::
              && r.Decline? && c.offeredFileName == r.offeredName && c.requestedFileName == r.requestedName
              && PeerFor(cache, r.user, got.found) == Some(c.peer)
    ensures (exists c :: c in Sent(d, cache, r, got, t) && c.SendChatMessage?) <==> r.Chat?
    ensures (exists c :: c in Sent(d, cache, r, got, t) && c.DirectMessage?) <==>
              r.Dm? && PeerFor(cache, r.user, got.found).Some?
    ensures (exists c :: c in Sent(d, cache, r, got, t) && c.RespondTrade? && c.requestedFileBytes.None?) <==>
              r.Decline? && PeerFor(cache, r.user, got.found).Some?
  {
    SentLast(d, cache, r, got, t);
    if r.Chat? { assert Sent(d, cache, r, got, t)[0].SendChatMessage?; }
  }

  // ---------- two users ----------

  /** A `trade` line typed at one peer and an `accept` or `decline` line typed at the
      other name the same swap if and only if they agree on both file names, in
      whatever order the two actions take their arguments. */
  lemma LinesMeet(a: PeerId, b: PeerId, da: Disk, db: Disk, offer: Request, answer: Request, t: Ticket, t': Ticket)
    requires offer.Trade? && Ready(da, offer) && (answer.Accept? || answer.Decline?) && Ready(db, answer)
    ensures
      var made := CommandTo(da, offer, b, t);
      var given := CommandTo(db, answer, a, t');
      var key := TradeKey(a, b, TradeOffer(offer.offeredName, offer.requestedName));
      && made == OfferCommand(key, da.files[offer.offeredPath].value, offer.requestedPath, t)
      && (offer.offeredName == answer.offeredName && offer.requestedName == answer.requestedName <==>
           given == if answer.Accept? then AcceptCommand(key, db.files[answer.sourcePath].value, t')
                    else DeclineCommand(key))
  {
  }

  /** What a line sends is what a client sends: bytes exactly when they are awaited. */
  lemma SentShaped(d: Disk, cache: Cache, r: Request, got: Replies, t: Ticket)
    ensures forall c | c in Sent(d, cache, r, got, t) :: ClientShaped(c)
  {
  }

  lemma SentAsked(d: Disk, cache: Cache, r: Request, got: Replies, t: Ticket, peer: PeerId)
    requires (r.Trade? || r.Accept?) && Ready(d, r) && PeerFor(cache, r.user, got.found) == Some(peer)
    ensures Sent(d, cache, r, got, t) ==
              PeerQuery(cache, r.user, t) + [CommandTo(d, r, peer, TicketAfter(cache, r.user, t))]
  {
  }

  lemma IssuesLine(asked: seq<Command>, c: Command)
    requires |asked| <= 1
    ensures Issues(asked + [c]) == Issues(asked) + [Issued(c)]
  {
    OneIssue(c);
    if asked == [] {
      assert asked + [c] == [c] && Issues(asked) + [Issued(c)] == [Issued(c)];
    } else {
      OneIssue(asked[0]);
      assert asked == [asked[0]] && (asked + [c])[1..] == [c];
    }
  }

  /** Everything main does for a line: what it sends, and back to its select. */
  function TypedActs(d: Disk, cache: Cache, r: Request, got: Replies, t: Ticket): seq<MainAct> {
    Issues(Sent(d, cache, r, got, t)) + [Back]
  }

  lemma TypedIsLine(d: Disk, cache: Cache, r: Request, got: Replies, t: Ticket, peer: PeerId)
    requires (r.Trade? || r.Accept?) && Ready(d, r) && PeerFor(cache, r.user, got.found) == Some(peer)
    ensures TypedActs(d, cache, r, got, t) ==
              LineActs(cache, r.user, t, CommandTo(d, r, peer, TicketAfter(cache, r.user, t))) + [Back]
  {
    SentAsked(d, cache, r, got, t, peer);
    IssuesLine(PeerQuery(cache, r.user, t), CommandTo(d, r, peer, TicketAfter(cache, r.user, t)));
  }

  /** A `trade` and an `accept` request that can be carried out and agree on the files. */
  predicate Agree(da: Disk, rA: Request, db: Disk, rB: Request) {
    && rA.Trade? && Ready(da, rA) && rB.Accept? && Ready(db, rB)
    && rA.offeredName == rB.offeredName && rA.requestedName == rB.requestedName
  }

  /** The user a request names leads to `peer`, by the cache or else by the reply. */
  predicate LeadsTo(r: Request, got: Replies, cache: Cache, codec: Codec, peer: PeerId)
    requires r.Trade? || r.Accept?
  {
    got.found == Some(peer) && Finds(cache, codec, r.user, peer)
  }

  /** The documented walk-through for all names, paths, contents and caches: from any
      state in which both users' mains are at rest, two typed requests, whatever lines
      mean them, that name each other's users and agree on the files can be played out.
      Each main does exactly what its line sends and what its one notice makes it look
      up; in the end the acceptor's file has really been written where the offerer
      asked, and the acceptor has really been handed the offered file's contents, which
      its line then places. */
  lemma TypedSwapCompletes(f0: Fleet, s: seq<Act>, f: Fleet, a: PeerId, b: PeerId, da: Disk, db: Disk,
                           rA: Request, rB: Request, gotA: Replies, gotB: Replies,
                           cacheA: Cache, shownA: GetProgress, cacheB: Cache, shownB: GetProgress)
    returns (s': seq<Act>, f': Fleet, answer: RequestId)
    requires Agree(da, rA, db, rB)
    requires Reached(f0, s, f) && a in f.nodes && b in f.nodes && a != b && Rests(f.nodes[a]) && Rests(f.nodes[b])
    requires !shownA.OtherProgress? && !shownB.OtherProgress?
    requires LeadsTo(rA, gotA, cacheA, SwapRuns.CodecAt(f, a), b)
    requires
      var seen := AfterName(cacheB, a, Handlers.NameRead(SwapRuns.CodecAt(f, b), shownB));
      LeadsTo(rB, gotB, seen, SwapRuns.CodecAt(f, b), a)
    requires gotB.bytes == Ok(Some(da.files[rA.offeredPath].value))
    ensures Reached(f0, s', f')
    ensures
      var tA, tB := f.nodes[a].nextTicket, f.nodes[b].nextTicket;
      var known := Remembered(da, cacheA, rA, gotA);
      var seen := AfterName(cacheB, a, Handlers.NameRead(SwapRuns.CodecAt(f, b), shownB));
      SwapRuns.BothDid(s, s',
        a, TypedActs(da, cacheA, rA, gotA, tA) + NoticeActs(known, b, TicketAfter(cacheA, rA.user, tA) + 1),
        b, NoticeActs(cacheB, a, tB) + TypedActs(db, seen, rB, gotB, tB + |NameQuery(cacheB, a, tB)|))
    ensures
      var bytesA, bytesB := da.files[rA.offeredPath].value, db.files[rB.sourcePath].value;
      && Deed(a, WriteFile(answer, rA.requestedPath, bytesB)) in f'.done
      && (exists t :: Deed(b, Resolve(t, BytesAnswer(gotB.bytes))) in f'.done)
      && Placed(db, AfterName(cacheB, a, Handlers.NameRead(SwapRuns.CodecAt(f, b), shownB)), rB, gotB)
           == [FileWrite(rB.placePath, bytesA)]
      && Told(answer, Ok(Some(bytesA))) in f'.log
  {
    hide Reached, SwapRuns.BothDid, Sent, TypedActs, LineActs, NoticeActs, PeerQuery, NameQuery;
    var key := TradeKey(a, b, TradeOffer(rA.offeredName, rA.requestedName));
    var bytesA, bytesB := da.files[rA.offeredPath].value, db.files[rB.sourcePath].value;
    var seen := SwapRuns.CacheShown(f, key, cacheB, shownB);
    var tA, tB := f.nodes[a].nextTicket, SwapRuns.TicketShown(f, key, cacheB);
    TypedIsLine(da, cacheA, rA, gotA, tA, b);
    TypedIsLine(db, seen, rB, gotB, tB, a);
    LinesMeet(a, b, da, db, rA, rB, TicketAfter(cacheA, rA.user, tA), TicketAfter(seen, rB.user, tB));
    s', f', answer := SwapRuns.SwapCompletes(f0, s, f, key, bytesA, rA.requestedPath, bytesB,
                                             cacheA, rA.user, shownA, cacheB, rB.user, shownB);
  }
}
