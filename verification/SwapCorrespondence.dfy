/** Which bytes went where: every successful accept is traced back to one offer,
    one answer and one written file, in that order, over all runs. */
module SwapCorrespondence {
  import opened Protocol
  import opened Handlers
  import opened SwapNetwork
  import opened SwapMoves
  import opened SwapAccounting

  // ---------- reading the log ----------

  /** The most recent offer of `key` that has not been settled since: what the
      offerer's command history alone says about its outgoing table. */
  function StandingOffer(log: seq<Entry>, key: TradeKey): (h: Option<nat>)
    ensures h.Some? ==> h.value < |log| && log[h.value].Offered? && log[h.value].key == key
  {
    if log == [] then None
    else
      var last := |log| - 1;
      if log[last].Offered? && log[last].key == key then Some(last)
      else if log[last].Settled? && log[last].key == key then None
      else StandingOffer(log[..last], key)
  }

  function AnswerAt(log: seq<Entry>, id: RequestId): (a: Option<nat>)
    ensures a.Some? ==> a.value < |log| && log[a.value].Answered? && log[a.value].id == id
  {
    if log == [] then None
    else
      var last := |log| - 1;
      if log[last].Answered? && log[last].id == id then Some(last) else AnswerAt(log[..last], id)
  }

  function SettledAt(log: seq<Entry>, id: RequestId): (j: Option<nat>)
    ensures j.Some? ==> j.value < |log| && log[j.value].Settled? && log[j.value].id == id
  {
    if log == [] then None
    else
      var last := |log| - 1;
      if log[last].Settled? && log[last].id == id then Some(last) else SettledAt(log[..last], id)
  }

  function ToldAt(log: seq<Entry>, id: RequestId): (i: Option<nat>)
    ensures i.Some? ==> i.value < |log| && log[i.value].Told? && log[i.value].id == id
  {
    if log == [] then None
    else
      var last := |log| - 1;
      if log[last].Told? && log[last].id == id then Some(last) else ToldAt(log[..last], id)
  }

  function LastAnswer(log: seq<Entry>, key: TradeKey): (a: Option<nat>)
    ensures a.Some? ==> a.value < |log| && log[a.value].Answered? && log[a.value].key == key
  {
    if log == [] then None
    else
      var last := |log| - 1;
      if log[last].Answered? && log[last].key == key then Some(last) else LastAnswer(log[..last], key)
  }

  function WrittenFor(offer: Entry, given: Option<Bytes>): seq<FileWrite>
    requires offer.Offered?
  {
    if given.Some? then [FileWrite(offer.path, given.value)] else []
  }

  function ReleasedFor(offer: Entry, given: Option<Bytes>): Option<Bytes>
    requires offer.Offered?
  {
    if given.Some? then Some(offer.bytes) else None
  }

  /** What must have happened before `e`. Unless its key was re-offered early, a
      settlement is caused by the latest answer for that key. */
  ghost predicate Justified(past: seq<Entry>, e: Entry) {
    match e
    case Answered(_, id, _) => forall a | a in past && a.Answered? :: a.id != id
    case Settled(key, id, given, written, released) =>
      var h := StandingOffer(past, key);
      && Answered(key, id, given) in past
      && SettledAt(past, id).None?
      && h.Some?
      && written == WrittenFor(past[h.value], given)
      && released == ReleasedFor(past[h.value], given)
      && (TallyOf(past, key).replaced == 0 ==>
           var a := LastAnswer(past, key); a.Some? && past[a.value].id == id)
    case Orphaned(key, id) =>
      StandingOffer(past, key).None? && exists given :: Answered(key, id, given) in past
    case Told(id, heard) =>
      var j := SettledAt(past, id);
      && ToldAt(past, id).None?
      && (var a := AnswerAt(past, id); a.Some? && past[a.value].given.Some?)
      && (heard.Ok? ==> heard.value.Some? && j.Some? && past[j.value].released == heard.value)
    case _ => true
  }

  ghost predicate History(log: seq<Entry>) {
    log == [] || (History(log[..|log| - 1]) && Justified(log[..|log| - 1], log[|log| - 1]))
  }

  lemma {:induction false} JustifiedAt(log: seq<Entry>, i: nat)
    requires History(log) && i < |log|
    ensures Justified(log[..i], log[i])
    decreases |log|
  {
    var last := |log| - 1;
    if i < last {
      JustifiedAt(log[..last], i);
      assert log[..last][..i] == log[..i];
    }
  }

  // ---------- the network agrees with its log ----------

  ghost predicate Standing(n: Net, key: TradeKey) {
    var h := StandingOffer(n.log, key);
    Out(n, key) == if h.Some? then Some((n.log[h.value].bytes, n.log[h.value].path)) else None
  }

  ghost predicate WireTraced(n: Net) {
    forall id | id in n.wire ::
      && SettledAt(n.log, id).None?
      && (n.wire[id].payload.AnswerPayload? ==>
           var r := n.wire[id].payload.response;
           Answered(TradeKey(n.wire[id].to, id.from, OfferNamed(r)), id, r.requestedFileBytes) in n.log)
  }

  ghost predicate RepliesTraced(n: Net) {
    forall id | id in n.replies && n.replies[id].BytesReply? ::
      var j := SettledAt(n.log, id);
      j.Some? && n.log[j.value].released == n.replies[id].reply.offeredFileBytes
  }

  ghost predicate OpenTraced(n: Net) { forall id | id in n.open :: ToldAt(n.log, id).None? }

  ghost predicate EntriesIssued(n: Net) {
    forall e | e in n.log && (e.Answered? || e.Settled? || e.Told?) :: Issued(n, e.id)
  }

  /** Only accepts wait for bytes. */
  ghost predicate WaitersAccept(n: Net) {
    forall e | e in n.log && e.Answered? && Waiting(n, e.id) :: e.given.Some?
  }

  ghost predicate WaitersAnswered(n: Net) {
    forall id: RequestId | id.behaviour.TradeAnswering? && Waiting(n, id) :: AnswerAt(n.log, id).Some?
  }

  ghost predicate AnswersTraced(n: Net) { EntriesIssued(n) && WaitersAccept(n) && WaitersAnswered(n) }

  /** Unless its key was re-offered early, an answer under way is the latest one. */
  ghost predicate RoundTraced(n: Net, key: TradeKey) {
    TallyOf(n.log, key).replaced == 0 ==>
      forall id | id in AnswersInFlight(n.wire, key) ::
        var a := LastAnswer(n.log, key); a.Some? && n.log[a.value].id == id
  }

  ghost predicate Traced(n: Net) {
    && History(n.log) && WireTraced(n) && RepliesTraced(n) && OpenTraced(n) && AnswersTraced(n)
    && forall key :: Standing(n, key) && RoundTraced(n, key)
  }

  /** What a log entry does to the standing offer of `key`. */
  lemma StandingAfter(log: seq<Entry>, e: Entry, key: TradeKey)
    ensures StandingOffer(log + [e], key) ==
              if e.Offered? && e.key == key then Some(|log|)
              else if e.Settled? && e.key == key then None
              else StandingOffer(log, key)
  {
    assert (log + [e])[..|log|] == log;
  }

  lemma OutStanding(n: Net, m: Net, mv: Move, key: TradeKey)
    requires Does(n, m, mv) && Standing(n, key) && (mv.Offering? || mv.Settling?)
    ensures Standing(m, key)
  {
    hide StandingOffer, Out, In, SameIn, InExcept, SameWaiting, WaitingExcept, Waiting, Issued, SamePeers;
    StandingAfter(n.log, m.log[|n.log|], key);
  }

  lemma OtherStanding(n: Net, m: Net, mv: Move, key: TradeKey)
    requires Does(n, m, mv) && Standing(n, key) && !mv.Offering? && !mv.Settling?
    ensures Standing(m, key)
  {
    hide StandingOffer, Out, In, SameIn, InExcept, SameWaiting, WaitingExcept, Waiting, Issued, SamePeers;
    if m.log != n.log {
      StandingAfter(n.log, m.log[|n.log|], key);
    }
  }

  lemma MoveStanding(n: Net, m: Net, mv: Move, key: TradeKey)
    requires Does(n, m, mv) && Standing(n, key)
    ensures Standing(m, key)
  {
    hide Does, Standing;
    if mv.Offering? || mv.Settling? {
      OutStanding(n, m, mv, key);
    } else {
      OtherStanding(n, m, mv, key);
    }
  }

  // ---------- every move keeps the trace ----------

  lemma AnswerJustified(n: Net, m: Net, id: RequestId, key: TradeKey, given: Option<Bytes>)
    requires MakesAnswer(n, m, id, key, given) && AnswersTraced(n)
    ensures Justified(n.log, Answered(key, id, given))
  {
  }

  lemma SettlementJustified(n: Net, m: Net, id: RequestId, key: TradeKey, given: Option<Bytes>)
    requires Settles(n, m, id, key, given) && Standing(n, key) && WireTraced(n) && RoundTraced(n, key)
    ensures Justified(n.log, m.log[|n.log|])
  {
    assert id in AnswersInFlight(n.wire, key);
  }

  lemma OrphanJustified(n: Net, m: Net, id: RequestId, key: TradeKey)
    requires Orphans(n, m, id, key) && Standing(n, key) && WireTraced(n)
    ensures Justified(n.log, Orphaned(key, id))
  {
    assert Answered(key, id, n.wire[id].payload.response.requestedFileBytes) in n.log;
  }

  lemma HearingJustified(n: Net, m: Net, id: RequestId, delivered: bool)
    requires Hears(n, m, id, delivered) && Traced(n) && id.behaviour.TradeAnswering? && Waiting(n, id)
    ensures Justified(n.log, Told(id, Heard(n, id, delivered)))
  {
    if Heard(n, id, delivered).Ok? {
      var j := SettledAt(n.log, id).value;
      JustifiedAt(n.log, j);
      var a := Answered(n.log[j].key, id, n.log[j].given);
      assert a in n.log[..j];
      assert a in n.log;
    }
  }

  lemma HistoryGrows(log: seq<Entry>, e: Entry)
    requires History(log) && Justified(log, e)
    ensures History(log + [e])
  {
    assert (log + [e])[..|log|] == log;
  }

  /** Offers, arrivals and losses need no justification. */
  lemma PlainHistory(n: Net, m: Net, mv: Move)
    requires Does(n, m, mv) && History(n.log)
    requires !mv.Answering? && !mv.Settling? && !mv.Orphaning? && !mv.Hearing?
    ensures History(m.log)
  {
    hide History, Out, In, Waiting,
         SameOut, OutExcept, SameIn, InExcept, SameWaiting, WaitingExcept, Issued, SamePeers;
    if m.log != n.log {
      HistoryGrows(n.log, m.log[|n.log|]);
    }
  }

  lemma AnswerHistory(n: Net, m: Net, id: RequestId, key: TradeKey, given: Option<Bytes>)
    requires MakesAnswer(n, m, id, key, given) && Traced(n)
    ensures History(m.log)
  {
    hide History, Justified;
    AnswerJustified(n, m, id, key, given);
    HistoryGrows(n.log, Answered(key, id, given));
  }

  lemma SettlementHistory(n: Net, m: Net, id: RequestId, key: TradeKey, given: Option<Bytes>)
    requires Settles(n, m, id, key, given) && Traced(n)
    ensures History(m.log)
  {
    hide History, Justified, Standing, RoundTraced, WireTraced, RepliesTraced, OpenTraced, AnswersTraced;
    SettlementJustified(n, m, id, key, given);
    HistoryGrows(n.log, m.log[|n.log|]);
  }

  lemma OrphanHistory(n: Net, m: Net, id: RequestId, key: TradeKey)
    requires Orphans(n, m, id, key) && Traced(n)
    ensures History(m.log)
  {
    hide History, Justified, Standing, RoundTraced, WireTraced, RepliesTraced, OpenTraced, AnswersTraced;
    OrphanJustified(n, m, id, key);
    HistoryGrows(n.log, Orphaned(key, id));
  }

  lemma HearingHistory(n: Net, m: Net, id: RequestId, delivered: bool)
    requires Hears(n, m, id, delivered) && Traced(n)
    ensures History(m.log)
  {
    hide History, Justified, Standing, RoundTraced, WireTraced, RepliesTraced, OpenTraced, AnswersTraced, Waiting;
    if m.log != n.log {
      HearingJustified(n, m, id, delivered);
      HistoryGrows(n.log, Told(id, Heard(n, id, delivered)));
    }
  }

  lemma MoveHistory(n: Net, m: Net, mv: Move)
    requires Does(n, m, mv) && Traced(n)
    ensures History(m.log)
  {
    hide History, Standing, RoundTraced, WireTraced, RepliesTraced, OpenTraced, AnswersTraced, SamePeers,
         MakesOffer, MakesAnswer, MakesMessage, Arrives, Settles, Orphans, MessageArrives, LosesOffer, LosesAnswer,
         LosesMessage, DropsReply, Hears, Idles;
    match mv
    case Answering(id, key, given) => AnswerHistory(n, m, id, key, given);
    case Settling(id, key, given) => SettlementHistory(n, m, id, key, given);
    case Orphaning(id, key) => OrphanHistory(n, m, id, key);
    case Hearing(id, delivered) => HearingHistory(n, m, id, delivered);
    case _ => PlainHistory(n, m, mv);
  }

  /** A request that leaves has not been settled, and an answer has been logged. */
  lemma SendWireTraced(n: Net, m: Net, mv: Move)
    requires Does(n, m, mv) && WireTraced(n) && EntriesIssued(n)
    requires mv.Offering? || mv.Answering? || mv.Messaging?
    ensures WireTraced(m)
  {
    hide Out, In, Waiting, SameOut, OutExcept, SameIn, InExcept, SameWaiting, WaitingExcept, SamePeers, Issued;
    if m.log != n.log {
      assert m.log[..|n.log|] == n.log;
    }
  }

  /** A request that arrives or is lost leaves the others unsettled. */
  lemma TakeWireTraced(n: Net, m: Net, mv: Move)
    requires Does(n, m, mv) && WireTraced(n)
    requires !mv.Offering? && !mv.Answering? && !mv.Messaging?
    ensures WireTraced(m)
  {
    hide Out, In, Waiting, SameOut, OutExcept, SameIn, InExcept, SameWaiting, WaitingExcept, SamePeers, Issued;
    if m.log != n.log {
      assert m.log[..|n.log|] == n.log;
    }
  }

  lemma MoveWireTraced(n: Net, m: Net, mv: Move)
    requires Does(n, m, mv) && WireTraced(n) && AnswersTraced(n)
    ensures WireTraced(m)
  {
    hide Does, WireTraced, EntriesIssued;
    if mv.Offering? || mv.Answering? || mv.Messaging? {
      SendWireTraced(n, m, mv);
    } else {
      TakeWireTraced(n, m, mv);
    }
  }

  lemma MoveRepliesTraced(n: Net, m: Net, mv: Move)
    requires Does(n, m, mv) && RepliesTraced(n) && WireOk(n)
    ensures RepliesTraced(m)
  {
    hide Out, In, SameOut, OutExcept, SameIn, InExcept, SameWaiting, WaitingExcept, Waiting, SamePeers, Issued;
    if m.log != n.log {
      assert m.log[..|n.log|] == n.log;
    }
  }

  /** A request that leaves is open and nobody was told about it before. */
  lemma SendOpenTraced(n: Net, m: Net, mv: Move)
    requires Does(n, m, mv) && OpenTraced(n) && EntriesIssued(n)
    requires mv.Offering? || mv.Answering? || mv.Messaging?
    ensures OpenTraced(m)
  {
    hide Out, In, SameOut, OutExcept, SameIn, InExcept, SameWaiting, WaitingExcept, Waiting, SamePeers, Issued,
         Arrives, Settles, Orphans, MessageArrives, LosesOffer, LosesAnswer, LosesMessage, DropsReply, Hears, Idles;
    if m.log != n.log {
      assert m.log[..|n.log|] == n.log;
    }
  }

  /** Whoever is told of an outcome has no open request afterwards. */
  lemma HearingOpenTraced(n: Net, m: Net, id: RequestId, delivered: bool)
    requires Hears(n, m, id, delivered) && OpenTraced(n)
    ensures OpenTraced(m)
  {
    hide Out, In, SameOut, SameIn, SameWaiting, WaitingExcept, Waiting;
    if m.log != n.log {
      assert m.log[..|n.log|] == n.log;
    }
  }

  /** Nothing else opens a request or tells anybody about one. */
  lemma OtherOpenTraced(n: Net, m: Net, mv: Move)
    requires Does(n, m, mv) && OpenTraced(n)
    requires !mv.Offering? && !mv.Answering? && !mv.Messaging? && !mv.Hearing?
    ensures OpenTraced(m)
  {
    hide Out, In, SameOut, OutExcept, SameIn, InExcept, SameWaiting, WaitingExcept, Waiting, SamePeers, Issued,
         MakesOffer, MakesAnswer, MakesMessage, Hears;
    if m.log != n.log {
      assert m.log[..|n.log|] == n.log;
    }
  }

  lemma MoveOpenTraced(n: Net, m: Net, mv: Move)
    requires Does(n, m, mv) && OpenTraced(n) && AnswersTraced(n)
    ensures OpenTraced(m)
  {
    hide OpenTraced, EntriesIssued, MakesOffer, MakesAnswer, MakesMessage, Hears, SamePeers;
    match mv
    case Offering(_, _, _, _) => SendOpenTraced(n, m, mv);
    case Answering(_, _, _) => SendOpenTraced(n, m, mv);
    case Messaging(_, _, _) => SendOpenTraced(n, m, mv);
    case Hearing(id, delivered) => HearingOpenTraced(n, m, id, delivered);
    case _ => OtherOpenTraced(n, m, mv);
  }

  lemma MoveEntriesIssued(n: Net, m: Net, mv: Move)
    requires Does(n, m, mv) && EntriesIssued(n) && WireOk(n) && OpenOk(n)
    ensures EntriesIssued(m)
  {
    hide Out, In, SameOut, OutExcept, SameIn, InExcept, SameWaiting, WaitingExcept, Waiting, Issued;
  }

  lemma MoveWaitersAccept(n: Net, m: Net, mv: Move)
    requires Does(n, m, mv) && EntriesIssued(n) && WaitersAccept(n)
    ensures WaitersAccept(m)
  {
    hide Out, In, SameOut, OutExcept, SameIn, InExcept, Waiting, Issued, SamePeers;
  }

  lemma MoveWaitersAnswered(n: Net, m: Net, mv: Move)
    requires Does(n, m, mv) && WaitersAnswered(n)
    ensures WaitersAnswered(m)
  {
    hide Out, In, SameOut, OutExcept, SameIn, InExcept, Waiting, Issued, SamePeers;
    if m.log != n.log {
      assert m.log[..|n.log|] == n.log;
    }
  }

  lemma MoveAnswersTraced(n: Net, m: Net, mv: Move)
    requires Does(n, m, mv) && AnswersTraced(n) && WireOk(n) && OpenOk(n)
    ensures AnswersTraced(m)
  {
    hide Does, EntriesIssued, WaitersAccept, WaitersAnswered;
    MoveEntriesIssued(n, m, mv);
    MoveWaitersAccept(n, m, mv);
    MoveWaitersAnswered(n, m, mv);
  }

  lemma AnswerRound(n: Net, m: Net, id: RequestId, k: TradeKey, given: Option<Bytes>, key: TradeKey)
    requires MakesAnswer(n, m, id, k, given) && Balanced(n, key) && RoundTraced(n, key)
    ensures RoundTraced(m, key)
  {
    hide Out, In, SameOut, SameIn, InExcept, SameWaiting, WaitingExcept, Waiting, Issued;
    TallyAppend(n.log, Answered(k, id, given), key);
    assert m.log[..|n.log|] == n.log;
    if k == key && TallyOf(n.log, key).replaced == 0 {
      assert |AnswersInFlight(n.wire, key)| == 0;
      forall i | i in AnswersInFlight(m.wire, key) ensures i == id {
        assert i != id ==> i in AnswersInFlight(n.wire, key);
      }
    } else {
      assert k != key ==> AnswersInFlight(m.wire, key) <= AnswersInFlight(n.wire, key);
    }
  }

  lemma FewerAnswers(n: Net, m: Net, mv: Move, key: TradeKey)
    requires Does(n, m, mv) && !mv.Answering?
    ensures AnswersInFlight(m.wire, key) <= AnswersInFlight(n.wire, key)
  {
    hide Out, In, SameOut, OutExcept, SameIn, InExcept, SameWaiting, WaitingExcept, Waiting, SamePeers, Issued;
  }

  lemma RoundKept(n: Net, m: Net, key: TradeKey)
    requires RoundTraced(n, key) && AnswersInFlight(m.wire, key) <= AnswersInFlight(n.wire, key)
    requires m.log == n.log || (exists e :: m.log == n.log + [e] && !e.Answered?)
    ensures RoundTraced(m, key)
  {
    if m.log != n.log {
      var e :| m.log == n.log + [e] && !e.Answered?;
      TallyAppend(n.log, e, key);
      assert m.log[..|n.log|] == n.log;
    }
  }

  lemma MoveRound(n: Net, m: Net, mv: Move, key: TradeKey)
    requires Does(n, m, mv) && Balanced(n, key) && RoundTraced(n, key)
    ensures RoundTraced(m, key)
  {
    hide Balanced, RoundTraced, AnswersInFlight,
         SameOut, OutExcept, SameIn, InExcept, SameWaiting, WaitingExcept, Waiting, SamePeers, Issued;
    if mv.Answering? {
      AnswerRound(n, m, mv.id, mv.key, mv.given, key);
    } else {
      FewerAnswers(n, m, mv, key);
      assert m.log == n.log || m.log == n.log + [m.log[|n.log|]];
      RoundKept(n, m, key);
    }
  }

  // ---------- all runs ----------

  lemma {:induction false} RunTraced(n: Net, steps: seq<Step>)
    requires Sound(n) && Traced(n) && Legal(n, steps)
    ensures Sound(After(n, steps)) && Traced(After(n, steps))
    decreases |steps|
  {
    if steps != [] {
      var m, mv := Next(n, steps[0]), MoveOf(n, steps[0]);
      StepTraced(n, steps[0], m, mv);
      RunTraced(m, steps[1..]);
    }
  }

  lemma StepTraced(n: Net, st: Step, m: Net, mv: Move)
    requires Sound(n) && Traced(n) && Enabled(n, st) && m == Next(n, st) && mv == MoveOf(n, st)
    ensures Sound(m) && Traced(m)
  {
    hide Next, MoveOf, Does, Balanced, Standing, RoundTraced, History, WireTraced, RepliesTraced, OpenTraced,
         AnswersTraced, WireOk, RepliesOk, OpenOk, WaitingOk;
    NextWellFormed(n, st);
    MoveHistory(n, m, mv);
    MoveWireTraced(n, m, mv);
    MoveRepliesTraced(n, m, mv);
    MoveOpenTraced(n, m, mv);
    MoveAnswersTraced(n, m, mv);
    forall key ensures Balanced(m, key) && Standing(m, key) && RoundTraced(m, key) {
      MoveBalanced(n, m, mv, key);
      MoveStanding(n, m, mv, key);
      MoveRound(n, m, mv, key);
    }
  }

  lemma Reachable(n: Net, steps: seq<Step>)
    requires Init(n) && Legal(n, steps)
    ensures Sound(After(n, steps)) && Traced(After(n, steps))
  {
    InitSound(n);
    RunTraced(n, steps);
  }

  /** The outgoing table is always what the command history says: the bytes and
      path of the latest offer of each key not settled since. */
  lemma OutgoingIsHistory(n: Net, steps: seq<Step>, key: TradeKey)
    requires Init(n) && Legal(n, steps)
    ensures
      var m := After(n, steps);
      var h := StandingOffer(m.log, key);
      Out(m, key) == if h.Some? then Some((m.log[h.value].bytes, m.log[h.value].path)) else None
  {
    Reachable(n, steps);
    assert Standing(After(n, steps), key);
  }

  /** And so is every settlement: with any re-offers, what is written and released is
      given by the answer it settles and the latest offer of its key not settled
      before. No answer is settled twice. */
  lemma SettlementIsHistory(n: Net, steps: seq<Step>, j: nat)
    requires Init(n) && Legal(n, steps)
    requires j < |After(n, steps).log| && After(n, steps).log[j].Settled?
    ensures
      var log := After(n, steps).log;
      var past, e := log[..j], log[j];
      var h := StandingOffer(past, e.key);
      && h.Some?
      && Answered(e.key, e.id, e.given) in past && SettledAt(past, e.id).None?
      && e.written == WrittenFor(past[h.value], e.given)
      && e.released == ReleasedFor(past[h.value], e.given)
  {
    Reachable(n, steps);
    JustifiedAt(After(n, steps).log, j);
  }

  /** What becomes of an answer that arrives is decided by the offerer's history alone:
      it settles if its key has an offer not settled since, and is orphaned if not. */
  lemma FateIsHistory(n: Net, steps: seq<Step>, j: nat)
    requires Init(n) && Legal(n, steps)
    requires j < |After(n, steps).log| && (After(n, steps).log[j].Settled? || After(n, steps).log[j].Orphaned?)
    ensures
      var log := After(n, steps).log;
      && (log[j].Orphaned? <==> StandingOffer(log[..j], log[j].key).None?)
      && exists given :: Answered(log[j].key, log[j].id, given) in log[..j]
  {
    Reachable(n, steps);
    JustifiedAt(After(n, steps).log, j);
  }

  predicate About(e: Entry, key: TradeKey) { !e.Told? && e.key == key }

  /** Nothing strictly between `lo` and `hi` offers or settles `key`. */
  predicate Undisturbed(log: seq<Entry>, key: TradeKey, lo: nat, hi: nat)
    requires hi <= |log|
  {
    forall k | lo < k < hi :: !((log[k].Offered? || log[k].Settled?) && log[k].key == key)
  }

  lemma {:induction false} StandingUndisturbed(log: seq<Entry>, key: TradeKey)
    requires StandingOffer(log, key).Some?
    ensures Undisturbed(log, key, StandingOffer(log, key).value, |log|)
    decreases |log|
  {
    var last := |log| - 1;
    if !(log[last].Offered? && log[last].key == key) {
      StandingUndisturbed(log[..last], key);
      forall k | StandingOffer(log, key).value < k < |log|
        ensures !((log[k].Offered? || log[k].Settled?) && log[k].key == key)
      {
        if k < last { assert log[..last][k] == log[k]; }
      }
    }
  }

  /** The settlement behind what entry `i` told, and the offer behind settlement `j`. */
  function SettlementOf(log: seq<Entry>, i: nat): Option<nat>
    requires i < |log| && log[i].Told?
  {
    SettledAt(log[..i], log[i].id)
  }

  function OfferOf(log: seq<Entry>, j: nat): Option<nat>
    requires j < |log| && log[j].Settled?
  {
    StandingOffer(log[..j], log[j].key)
  }

  predicate Obtained(e: Entry) { e.Told? && e.heard.Ok? }

  /** A swap as the log shows it: the accept told at `i` obtained the bytes of the
      offer made at `h`, settled at `j`, where the acceptor's bytes had already
      been written to that offer's path. */
  ghost predicate Swapped(log: seq<Entry>, h: nat, j: nat, i: nat) {
    && h < j < i < |log| && log[h].Offered? && log[j].Settled? && log[i].Told?
    && log[h].key == log[j].key && log[j].id == log[i].id
    && log[j].given.Some?
    && Answered(log[j].key, log[j].id, log[j].given) in log[..j]
    && log[j].written == [FileWrite(log[h].path, log[j].given.value)]
    && log[j].released == Some(log[h].bytes)
    && log[i].heard == Ok(Some(log[h].bytes))
    && Undisturbed(log, log[h].key, h, j)
  }

  lemma ObtainedIsSwapped(log: seq<Entry>, i: nat)
    requires History(log) && i < |log| && Obtained(log[i])
    ensures
      var j := SettlementOf(log, i);
      && j.Some?
      && (var h := OfferOf(log, j.value); h.Some? && Swapped(log, h.value, j.value, i))
  {
    JustifiedAt(log, i);
    var j := SettledAt(log[..i], log[i].id).value;
    JustifiedAt(log, j);
    assert log[..i][j] == log[j];
    StandingUndisturbed(log[..j], log[j].key);
    var h := StandingOffer(log[..j], log[j].key).value;
    forall k | h < k < j ensures !((log[k].Offered? || log[k].Settled?) && log[k].key == log[j].key) {
      assert log[..j][k] == log[k];
    }
  }

  /** Every accept that returns bytes is one completed swap. */
  lemma EverySuccessIsASwap(n: Net, steps: seq<Step>, i: nat)
    requires Init(n) && Legal(n, steps)
    requires i < |After(n, steps).log| && Obtained(After(n, steps).log[i])
    ensures
      var log := After(n, steps).log;
      var j := SettlementOf(log, i);
      && j.Some?
      && (var h := OfferOf(log, j.value); h.Some? && Swapped(log, h.value, j.value, i))
  {
    Reachable(n, steps);
    ObtainedIsSwapped(After(n, steps).log, i);
  }

  /** No two accepts share a settlement, hence a written file, or an offer. */
  lemma SwapsAreDistinct(n: Net, steps: seq<Step>, i: nat, i': nat)
    requires Init(n) && Legal(n, steps)
    requires i < i' < |After(n, steps).log|
    requires Obtained(After(n, steps).log[i]) && Obtained(After(n, steps).log[i'])
    ensures
      var log := After(n, steps).log;
      && SettlementOf(log, i).Some? && SettlementOf(log, i').Some?
      && SettlementOf(log, i) != SettlementOf(log, i')
      && OfferOf(log, SettlementOf(log, i).value) != OfferOf(log, SettlementOf(log, i').value)
  {
    hide Legal, After, Traced, Sound;
    Reachable(n, steps);
    assert History(After(n, steps).log) by { TracedIsHistory(After(n, steps)); }
    SuccessesDiffer(After(n, steps).log, i, i');
  }

  lemma TracedIsHistory(n: Net)
    requires Traced(n)
    ensures History(n.log)
  {
  }

  lemma SuccessesDiffer(log: seq<Entry>, i: nat, i': nat)
    requires History(log) && i < i' < |log| && Obtained(log[i]) && Obtained(log[i'])
    ensures SettlementOf(log, i).Some? && SettlementOf(log, i').Some?
    ensures SettlementOf(log, i) != SettlementOf(log, i')
    ensures OfferOf(log, SettlementOf(log, i).value) != OfferOf(log, SettlementOf(log, i').value)
  {
    hide History, Justified, StandingOffer, SettledAt, Swapped, ToldAt;
    ObtainedIsSwapped(log, i);
    ObtainedIsSwapped(log, i');
    ToldApart(log, i, i');
    SwappedApart(log, OfferOf(log, SettlementOf(log, i).value).value, SettlementOf(log, i).value, i,
                 OfferOf(log, SettlementOf(log, i').value).value, SettlementOf(log, i').value, i');
  }

  /** No request is told twice. */
  lemma ToldApart(log: seq<Entry>, i: nat, i': nat)
    requires History(log) && i < i' < |log| && log[i].Told? && log[i'].Told?
    ensures log[i].id != log[i'].id
  {
    hide StandingOffer, SettledAt, AnswerAt, LastAnswer, TallyOf;
    JustifiedAt(log, i');
    ToldOnce(log[..i'], i);
    assert log[..i'][i] == log[i];
  }

  /** A settlement uses its offer up. */
  lemma SwappedApart(log: seq<Entry>, h: nat, j: nat, i: nat, h': nat, j': nat, i': nat)
    requires Swapped(log, h, j, i) && Swapped(log, h', j', i') && log[i].id != log[i'].id
    ensures j != j' && h != h'
  {
  }

  lemma {:induction false} ToldOnce(log: seq<Entry>, i: nat)
    requires i < |log| && log[i].Told?
    ensures ToldAt(log, log[i].id).Some?
    decreases |log|
  {
    if i < |log| - 1 {
      assert log[..|log| - 1][i] == log[i];
      ToldOnce(log[..|log| - 1], i);
    }
  }

  // ---------- a reply is heard once ----------

  /** Nothing more travels back for an accept that obtained its bytes. */
  ghost predicate HeardGone(n: Net) { forall e | e in n.log && Obtained(e) :: e.id !in n.replies }

  lemma {:induction false} SettledStays(log: seq<Entry>, id: RequestId, i: nat)
    requires i <= |log| && SettledAt(log[..i], id).Some?
    ensures SettledAt(log, id).Some?
    decreases |log|
  {
    if i < |log| {
      assert log[..|log| - 1][..i] == log[..i];
      SettledStays(log[..|log| - 1], id, i);
    } else {
      assert log[..i] == log;
    }
  }

  lemma ObtainedIsSettled(log: seq<Entry>, e: Entry)
    requires History(log) && e in log && Obtained(e)
    ensures SettledAt(log, e.id).Some?
  {
    var i :| 0 <= i < |log| && log[i] == e;
    JustifiedAt(log, i);
    SettledStays(log, e.id, i);
  }

  lemma MoveHeardGone(n: Net, m: Net, mv: Move)
    requires Does(n, m, mv) && History(n.log) && WireTraced(n) && HeardGone(n)
    ensures HeardGone(m)
  {
    hide History, SettledAt, SameOut, OutExcept, SameIn, InExcept, SameWaiting, WaitingExcept, Waiting, Issued,
         SamePeers;
    forall e | e in m.log && Obtained(e) ensures e.id !in m.replies {
      if e in n.log { ObtainedIsSettled(n.log, e); }
    }
  }

  lemma {:induction false} KeepHeardGone(n: Net, steps: seq<Step>)
    requires Sound(n) && Traced(n) && HeardGone(n) && Legal(n, steps)
    ensures HeardGone(After(n, steps))
    decreases |steps|
  {
    hide HeardGone, Next, MoveOf, Does, Balanced;
    if steps != [] {
      var m, mv := Next(n, steps[0]), MoveOf(n, steps[0]);
      NextWellFormed(n, steps[0]);
      MoveHeardGone(n, m, mv);
      StepTraced(n, steps[0], m, mv);
      KeepHeardGone(m, steps[1..]);
    }
  }

  lemma RunHeardGone(n: Net, steps: seq<Step>)
    requires Init(n) && Legal(n, steps)
    ensures HeardGone(After(n, steps))
  {
    Reachable(n, []);
    KeepHeardGone(n, steps);
  }
}
