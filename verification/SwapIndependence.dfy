/** Trades under different keys do not influence one another: a step sees and
    changes the two offer tables at one key only, so steps on different keys
    commute on them. */
module SwapIndependence {
  import opened Protocol
  import opened Handlers
  import opened SwapNetwork
  import opened SwapMoves

  /** What the tables of `n` say about `key`. */
  ghost predicate SameAt(n: Net, m: Net, key: TradeKey) {
    Out(m, key) == Out(n, key) && In(m, key) == In(n, key)
  }

  /** The one key whose entries step `st` may read or change. */
  function Subject(n: Net, st: Step): Option<TradeKey>
    requires Enabled(n, st)
  {
    match st
    case UserCommand(p, MakeTradeOffer(offered, _, to, requested, _, _)) =>
      if to == p then None else Some(TradeKey(p, to, TradeOffer(offered, requested)))
    case UserCommand(p, RespondTrade(to, requested, offered, _, _)) =>
      Some(TradeKey(to, p, TradeOffer(offered, requested)))
    case Deliver(id) =>
      (match n.wire[id].payload
       case OfferPayload(offer) => Some(TradeKey(id.from, n.wire[id].to, offer))
       case AnswerPayload(response) => Some(TradeKey(n.wire[id].to, id.from, OfferNamed(response)))
       case DirectPayload(_) => None)
    case _ => None
  }

  lemma UntouchedElsewhere(n: Net, st: Step, key: TradeKey)
    requires WellFormed(n) && Enabled(n, st) && Subject(n, st) != Some(key)
    ensures SameAt(n, Next(n, st), key)
  {
    hide Next, WellFormed, Waiting, SameWaiting, WaitingExcept, SamePeers, Out, In;
    StepDoes(n, st);
  }

  /** Two networks in which `st` is the same step. */
  ghost predicate SameStep(n: Net, m: Net, st: Step) {
    && Enabled(n, st) && Enabled(m, st)
    && (st.Deliver? || st.LoseRequest? ==> m.wire[st.id] == n.wire[st.id])
  }

  /** What a step makes of its key depends on what the tables said about it, and on
      nothing else. */
  lemma SubjectLocally(n: Net, m: Net, st: Step, key: TradeKey)
    requires WellFormed(n) && WellFormed(m) && SameStep(n, m, st)
    requires Subject(n, st) == Some(key) && SameAt(n, m, key)
    ensures SameAt(Next(n, st), Next(m, st), key)
  {
    hide Next, WellFormed, Does, MoveOf, Subject, SameAt, SameStep;
    if st.UserCommand? {
      CommandLocally(n, m, st, key);
    } else {
      ArrivalLocally(n, m, st, key);
    }
  }

  lemma CommandLocally(n: Net, m: Net, st: Step, key: TradeKey)
    requires WellFormed(n) && WellFormed(m) && SameStep(n, m, st) && st.UserCommand?
    requires Subject(n, st) == Some(key) && SameAt(n, m, key)
    ensures SameAt(Next(n, st), Next(m, st), key)
  {
    hide Next, WellFormed, Out, Dispatched, Issued, Response, SameWaiting, SamePeers, OutExcept, InExcept;
    StepDoes(n, st);
    StepDoes(m, st);
  }

  lemma ArrivalLocally(n: Net, m: Net, st: Step, key: TradeKey)
    requires WellFormed(n) && WellFormed(m) && SameStep(n, m, st) && !st.UserCommand?
    requires Subject(n, st) == Some(key) && SameAt(n, m, key)
    ensures SameAt(Next(n, st), Next(m, st), key)
  {
    hide Next, WellFormed, Out, In, Issued, Response, SameWaiting, SamePeers, OutExcept, InExcept;
    StepDoes(n, st);
    StepDoes(m, st);
  }

  /** Both steps use up the same request, the same reply, or the same sender's one
      outcome. */
  predicate Compete(a: Step, b: Step) {
    || ((a.Deliver? || a.LoseRequest?) && (b.Deliver? || b.LoseRequest?) && a.id == b.id)
    || ((a.DeliverReply? || a.LoseReply?) && (b.DeliverReply? || b.LoseReply?) && a.id == b.id)
    || ((a.DeliverReply? || a.ReportFailure?) && (b.DeliverReply? || b.ReportFailure?) && a.id == b.id)
  }

  /** Everything in transit in `n`, except under `id`, is still so in `m`. */
  ghost predicate TransitKept(n: Net, m: Net, id: RequestId) {
    && (forall i | i in n.wire && i != id :: i in m.wire && m.wire[i] == n.wire[i])
    && (forall i | i in n.replies && i != id :: i in m.replies)
    && (forall i | i in n.open && i != id :: i in m.open)
  }

  lemma OtherTransitKept(n: Net, m: Net, mv: Move, id: RequestId)
    requires Does(n, m, mv) && (!mv.Idle? ==> mv.id == id)
    ensures TransitKept(n, m, id)
  {
    hide SameOut, SameIn, OutExcept, InExcept, SameWaiting, WaitingExcept, Waiting, Issued, SamePeers, Out, In;
  }

  /** Of its own request a step leaves what it does not use up. */
  lemma OwnTransitKept(n: Net, m: Net, mv: Move)
    requires Does(n, m, mv) && WireOk(n) && !mv.Idle?
    ensures mv.id in n.wire && (mv.ReplyDropping? || mv.Hearing?) ==> mv.id in m.wire && m.wire[mv.id] == n.wire[mv.id]
    ensures mv.id in n.replies && !mv.ReplyDropping? && !(mv.Hearing? && mv.delivered) ==> mv.id in m.replies
    ensures mv.id in n.open && !mv.Hearing? ==> mv.id in m.open
  {
    hide SameOut, SameIn, OutExcept, InExcept, SameWaiting, WaitingExcept, Waiting, SamePeers, Out, In;
  }

  lemma NewRequest(n: Net, m: Net, mv: Move)
    requires Does(n, m, mv) && WireOk(n) && (mv.Offering? || mv.Answering? || mv.Messaging?)
    ensures mv.id !in n.wire
  {
    hide SameOut, SameIn, OutExcept, InExcept, SameWaiting, WaitingExcept, Waiting, SamePeers, Out, In;
  }

  /** What step `b` needs is still there after a step that does not compete. */
  lemma TransitStays(n: Net, a: Step, b: Step)
    requires WellFormed(n) && Enabled(n, a) && Enabled(n, b) && !Compete(a, b)
    ensures
      var m := Next(n, a);
      && (b.Deliver? || b.LoseRequest? ==> b.id in m.wire && m.wire[b.id] == n.wire[b.id])
      && (b.DeliverReply? || b.LoseReply? ==> b.id in m.replies)
      && (b.DeliverReply? || b.ReportFailure? ==> b.id in m.open)
  {
    hide Next, Does, Out, In, RepliesOk, OpenOk, WaitingOk, Issued;
    var m, mv := Next(n, a), MoveOf(n, a);
    StepDoes(n, a);
    if mv.Idle? {
      OtherTransitKept(n, m, mv, RequestId(DirectMessaging, PeerId([]), 0));
      OtherTransitKept(n, m, mv, RequestId(TradeOffering, PeerId([]), 0));
    } else {
      OtherTransitKept(n, m, mv, mv.id);
      OwnTransitKept(n, m, mv);
      if mv.Offering? || mv.Answering? || mv.Messaging? { NewRequest(n, m, mv); }
    }
  }

  /** A step that does not compete stays possible, and stays the same step. */
  lemma StaysPossible(n: Net, a: Step, b: Step)
    requires WellFormed(n) && Enabled(n, a) && Enabled(n, b) && !Compete(a, b)
    ensures SameStep(n, Next(n, a), b)
  {
    hide Next, Does, MoveOf, Compete, WellFormed;
    StepDoes(n, a);
    SamePeersStay(n, Next(n, a), MoveOf(n, a));
    TransitStays(n, a, b);
  }

  lemma SamePeersStay(n: Net, m: Net, mv: Move)
    requires Does(n, m, mv)
    ensures m.loops.Keys == n.loops.Keys
  {
  }

  /** Steps on different keys that do not compete for a message can be taken in either
      order and leave the same tables. */
  lemma StepsCommute(n: Net, a: Step, b: Step, key: TradeKey)
    requires WellFormed(n) && Enabled(n, a) && Enabled(n, b) && !Compete(a, b)
    requires Subject(n, a).None? || Subject(n, a) != Subject(n, b)
    ensures Enabled(Next(n, a), b) && Enabled(Next(n, b), a)
    ensures SameAt(Next(Next(n, a), b), Next(Next(n, b), a), key)
  {
    hide Next, WellFormed, Out, In, Does, MoveOf;
    NextWellFormed(n, a);
    NextWellFormed(n, b);
    StaysPossible(n, a, b);
    StaysPossible(n, b, a);
    var x, y := Next(n, a), Next(n, b);
    if Subject(n, b) == Some(key) {
      UntouchedElsewhere(n, a, key);
      SubjectLocally(n, x, b, key);
      UntouchedElsewhere(y, a, key);
    } else if Subject(n, a) == Some(key) {
      UntouchedElsewhere(n, b, key);
      SubjectLocally(n, y, a, key);
      UntouchedElsewhere(x, b, key);
    } else {
      UntouchedElsewhere(n, a, key);
      UntouchedElsewhere(n, b, key);
      UntouchedElsewhere(x, b, key);
      UntouchedElsewhere(y, a, key);
    }
  }

  // ---------- the wire as well ----------

  /** What a move leaves in transit; `bytes` are what the offerer holds for its key. */
  function WireAfter(mv: Move, wire: map<RequestId, Envelope>): map<RequestId, Envelope> {
    match mv
    case Offering(id, key, _, _) => wire[id := Envelope(key.recipient, OfferPayload(key.offer))]
    case Answering(id, key, given) => wire[id := Envelope(key.offerer, AnswerPayload(Response(key, given)))]
    case Messaging(id, to, message) => wire[id := Envelope(to, DirectPayload(message))]
    case Idle => wire
    case ReplyDropping(_) => wire
    case Hearing(_, _) => wire
    case _ => wire - {mv.id}
  }

  function RepliesAfter(mv: Move, replies: map<RequestId, ReplyBody>, bytes: Option<Bytes>): map<RequestId, ReplyBody> {
    match mv
    case Arriving(id, _) => replies[id := NoResponse]
    case MessageArriving(id) => replies[id := NoResponse]
    case Settling(id, key, given) => replies[id := BytesReply(TradeResponseResponse(
        key.offer.offeredFileName, key.offer.requestedFileName, if given.Some? then bytes else None))]
    case ReplyDropping(id) => replies - {id}
    case Hearing(id, delivered) => if delivered then replies - {id} else replies
    case _ => replies
  }

  function OpenAfter(mv: Move, open: set<RequestId>): set<RequestId> {
    if mv.Offering? || mv.Answering? || mv.Messaging? then open + {mv.id}
    else if mv.Hearing? then open - {mv.id}
    else open
  }

  function BytesFor(n: Net, mv: Move): Option<Bytes> {
    if mv.Settling? && Out(n, mv.key).Some? then Some(Out(n, mv.key).value.0) else None
  }

  lemma TransitAfter(n: Net, m: Net, mv: Move)
    requires Does(n, m, mv)
    ensures m.wire == WireAfter(mv, n.wire) && m.open == OpenAfter(mv, n.open)
    ensures m.replies == RepliesAfter(mv, n.replies, BytesFor(n, mv))
  {
    hide SameOut, SameIn, OutExcept, InExcept, SameWaiting, WaitingExcept, Waiting, Issued, SamePeers, Out, In;
  }

  /** Both are commands of one peer, which numbers its requests in the order it makes them. */
  predicate SameUser(a: Step, b: Step) { a.UserCommand? && b.UserCommand? && a.peer == b.peer }

  lemma EventNumbers(s: LoopState, e: SwarmEvent, b: Behaviour)
    ensures Number(EventTurn(s, e).next.counters, b) == Number(s.counters, b)
  {
  }

  lemma {:induction false} LoopsPerformed(n: Net, p: PeerId, es: seq<Effect>)
    ensures PerformAll(n, p, es).loops == n.loops
    decreases |es|
  {
    if es != [] {
      LoopsPerformed(Perform(n, p, es[0]), p, es[1..]);
    }
  }

  lemma NumbersKept(n: Net, b: Step, p: PeerId, k: Behaviour)
    requires Enabled(n, b) && p in n.loops && !(b.UserCommand? && b.peer == p)
    ensures p in Next(n, b).loops && Number(Next(n, b).loops[p].counters, k) == Number(n.loops[p].counters, k)
  {
    hide EventTurn, CommandTurn, PerformAll, ArrivalEntries, CommandEntries, ToldEntries, LossEntries;
    forall m: Net, q, es ensures PerformAll(m, q, es).loops == m.loops { LoopsPerformed(m, q, es); }
    forall s, e ensures Number(EventTurn(s, e).next.counters, k) == Number(s.counters, k) { EventNumbers(s, e, k); }
  }

  /** After a step on another key, by another user, a step is still the same move. */
  lemma SameMove(n: Net, a: Step, b: Step)
    requires WellFormed(n) && Enabled(n, a) && Enabled(n, b) && !Compete(a, b) && !SameUser(a, b)
    requires Subject(n, a).None? || Subject(n, a) != Subject(n, b)
    ensures Enabled(Next(n, b), a) && MoveOf(Next(n, b), a) == MoveOf(n, a)
    ensures BytesFor(Next(n, b), MoveOf(n, a)) == BytesFor(n, MoveOf(n, a))
  {
    hide Next, WellFormed, Out, MoveOf, Subject, BytesFor;
    StaysPossible(n, b, a);
    if a.UserCommand? {
      CommandSameMove(n, Next(n, b), a, b);
    } else if Subject(n, a).Some? {
      UntouchedElsewhere(n, b, Subject(n, a).value);
      ArrivalSameMove(n, Next(n, b), a);
    } else {
      NoBytes(n, Next(n, b), a);
    }
  }

  lemma CommandSameMove(n: Net, y: Net, a: Step, b: Step)
    requires WellFormed(n) && Enabled(n, a) && Enabled(n, b) && a.UserCommand? && !SameUser(a, b)
    requires y == Next(n, b) && Enabled(y, a) && (Subject(n, a).None? || Subject(n, a) != Subject(n, b))
    ensures MoveOf(y, a) == MoveOf(n, a) && BytesFor(y, MoveOf(n, a)) == BytesFor(n, MoveOf(n, a))
  {
    hide Next, WellFormed, Out;
    var p := a.peer;
    if Subject(n, a).Some? { UntouchedElsewhere(n, b, Subject(n, a).value); }
    NumbersKept(n, b, p, TradeOffering);
    NumbersKept(n, b, p, TradeAnswering);
    NumbersKept(n, b, p, DirectMessaging);
    if a.command.RespondTrade? {
      var slot := (a.command.peer, TradeOffer(a.command.offeredFileName, a.command.requestedFileName));
      var key := TradeKey(slot.0, p, slot.1);
      assert In(y, key) == In(n, key);
      assert slot in y.loops[p].offers.inbound <==> slot in n.loops[p].offers.inbound;
    }
  }

  lemma ArrivalSameMove(n: Net, y: Net, a: Step)
    requires SameStep(n, y, a) && !a.UserCommand? && Subject(n, a).Some? && SameAt(n, y, Subject(n, a).value)
    ensures MoveOf(y, a) == MoveOf(n, a) && BytesFor(y, MoveOf(n, a)) == BytesFor(n, MoveOf(n, a))
  {
    hide Out, In;
  }

  lemma NoBytes(n: Net, y: Net, a: Step)
    requires Enabled(n, a) && Enabled(y, a) && !a.UserCommand? && Subject(n, a).None?
    requires a.Deliver? || a.LoseRequest? ==> y.wire[a.id] == n.wire[a.id]
    ensures MoveOf(y, a) == MoveOf(n, a) && BytesFor(y, MoveOf(n, a)) == BytesFor(n, MoveOf(n, a))
  {
  }

  predicate Failing(mv: Move) { mv.Hearing? && !mv.delivered }

  /** The moves are about different requests, or one only reports a failure. */
  predicate Separate(x: Move, y: Move) {
    || x.Idle? || y.Idle? || x.id != y.id
    || (Failing(x) && !y.Hearing? && !Sending(y)) || (Failing(y) && !x.Hearing? && !Sending(x))
  }

  lemma SeparateMoves(n: Net, a: Step, b: Step)
    requires WellFormed(n) && Enabled(n, a) && Enabled(n, b) && !Compete(a, b) && !SameUser(a, b)
    ensures Separate(MoveOf(n, a), MoveOf(n, b))
  {
    hide WellFormed, MoveOf, Separate, Enabled;
    if a.UserCommand? || b.UserCommand? {
      NewNameSeparate(n, a, b);
    } else {
      NetworkSeparate(n, a, b);
    }
  }

  lemma NewNameSeparate(n: Net, a: Step, b: Step)
    requires WellFormed(n) && Enabled(n, a) && Enabled(n, b) && !SameUser(a, b) && (a.UserCommand? || b.UserCommand?)
    ensures Separate(MoveOf(n, a), MoveOf(n, b))
  {
    hide MoveOf, Enabled, WellFormed, Issued;
    if MoveOf(n, a) != Idle && MoveOf(n, b) != Idle {
      if a.UserCommand? { NewName(n, a); } else { OldName(n, a); }
      if b.UserCommand? { NewName(n, b); } else { OldName(n, b); }
    }
  }

  lemma OldName(n: Net, a: Step)
    requires WellFormed(n) && Enabled(n, a) && !a.UserCommand? && MoveOf(n, a) != Idle
    ensures Issued(n, MoveOf(n, a).id)
  {
    hide Out, In, WaitingOk, Waiting;
  }

  lemma NetworkSeparate(n: Net, a: Step, b: Step)
    requires WellFormed(n) && Enabled(n, a) && Enabled(n, b) && !Compete(a, b) && !a.UserCommand? && !b.UserCommand?
    ensures Separate(MoveOf(n, a), MoveOf(n, b))
  {
    hide Out, In, WaitingOk, Waiting, Issued;
  }

  lemma NewName(n: Net, a: Step)
    requires Enabled(n, a) && a.UserCommand? && MoveOf(n, a) != Idle
    ensures !Issued(n, MoveOf(n, a).id) && MoveOf(n, a).id.from == a.peer
  {
  }

  lemma WireSwaps(x: Move, y: Move, wire: map<RequestId, Envelope>)
    requires Separate(x, y)
    ensures WireAfter(x, WireAfter(y, wire)) == WireAfter(y, WireAfter(x, wire))
  {
  }

  lemma RepliesSwap(x: Move, y: Move, replies: map<RequestId, ReplyBody>, p: Option<Bytes>, q: Option<Bytes>)
    requires Separate(x, y)
    ensures RepliesAfter(x, RepliesAfter(y, replies, q), p) == RepliesAfter(y, RepliesAfter(x, replies, p), q)
  {
  }

  lemma OpenSwaps(x: Move, y: Move, open: set<RequestId>)
    requires Separate(x, y)
    ensures OpenAfter(x, OpenAfter(y, open)) == OpenAfter(y, OpenAfter(x, open))
  {
  }

  /** Such steps, unless one user issues both, also leave the same requests and replies
      in transit and the same requests open, whichever comes first. */
  lemma TransitCommutes(n: Net, a: Step, b: Step)
    requires WellFormed(n) && Enabled(n, a) && Enabled(n, b) && !Compete(a, b) && !SameUser(a, b)
    requires Subject(n, a).None? || Subject(n, a) != Subject(n, b)
    ensures Enabled(Next(n, a), b) && Enabled(Next(n, b), a)
    ensures
      var ab, ba := Next(Next(n, a), b), Next(Next(n, b), a);
      ab.wire == ba.wire && ab.replies == ba.replies && ab.open == ba.open
  {
    hide Next, WellFormed, MoveOf, Does, BytesFor, WireAfter, RepliesAfter, OpenAfter, Separate, Subject;
    var x, y := Next(n, a), Next(n, b);
    var ma, mb := MoveOf(n, a), MoveOf(n, b);
    SameMove(n, a, b);
    SameMove(n, b, a);
    NextWellFormed(n, a);
    NextWellFormed(n, b);
    NextWellFormed(x, b);
    NextWellFormed(y, a);
    TransitAfter(n, x, ma);
    TransitAfter(n, y, mb);
    TransitAfter(x, Next(x, b), mb);
    TransitAfter(y, Next(y, a), ma);
    SeparateMoves(n, a, b);
    WireSwaps(ma, mb, n.wire);
    RepliesSwap(ma, mb, n.replies, BytesFor(n, ma), BytesFor(n, mb));
    OpenSwaps(ma, mb, n.open);
  }
}
