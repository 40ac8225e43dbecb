/** Many Kademlia get queries at once: progress events of different queries may
    interleave in any way without influencing one another. */
module Queries {
  import opened Protocol
  import opened Handlers

  datatype Progress = Progress(query: nat, what: GetProgress)

  /** What handling one event of `query` did. */
  datatype Answer = Answer(query: nat, effects: seq<Effect>)

  datatype Replay = Replay(end: LoopState, answers: seq<Answer>)

  /** Each event handled in turn, its effects labelled with its query. */
  function Handle(s: LoopState, events: seq<Progress>): Replay
    decreases |events|
  {
    if events == [] then Replay(s, [])
    else
      var turn := GetRecordTurn(s, events[0].query, events[0].what);
      var rest := Handle(turn.next, events[1..]);
      Replay(rest.end, [Answer(events[0].query, turn.effects)] + rest.answers)
  }

  function AnswersTo(answers: seq<Answer>, q: nat): seq<Effect> {
    if answers == [] then []
    else (if answers[0].query == q then answers[0].effects else []) + AnswersTo(answers[1..], q)
  }

  /** What query `q` itself reported, in order. */
  function Substream(events: seq<Progress>, q: nat): seq<GetProgress> {
    if events == [] then []
    else (if events[0].query == q then [events[0].what] else []) + Substream(events[1..], q)
  }

  /** The first record or error of a query; everything else is ignored. */
  function FirstDecisive(stream: seq<GetProgress>): Option<GetProgress> {
    if stream == [] then None
    else if !stream[0].OtherProgress? then Some(stream[0])
    else FirstDecisive(stream[1..])
  }

  /** The reply a query's own first decisive event earns. */
  function Verdict(s: LoopState, q: nat, decisive: Option<GetProgress>): seq<Effect> {
    if decisive.None? then []
    else if q in s.pending.peerIdRequest then
      [Resolve(s.pending.peerIdRequest[q], PeerAnswer(PeerRead(s.config.codec, decisive.value)))]
    else if q in s.pending.usernameRequest then
      [Resolve(s.pending.usernameRequest[q], NameAnswer(NameRead(s.config.codec, decisive.value)))]
    else []
  }

  ghost predicate Disjoint(s: LoopState) { s.pending.peerIdRequest.Keys !! s.pending.usernameRequest.Keys }

  /** Query `q` is parked in `end` as it was in `s`, unless it was decided. */
  ghost predicate StillParked(s: LoopState, end: LoopState, q: nat, decided: bool) {
    && (q in end.pending.peerIdRequest <==> q in s.pending.peerIdRequest && !decided)
    && (q in end.pending.peerIdRequest ==> end.pending.peerIdRequest[q] == s.pending.peerIdRequest[q])
    && (q in end.pending.usernameRequest <==> q in s.pending.usernameRequest && !decided)
    && (q in end.pending.usernameRequest ==> end.pending.usernameRequest[q] == s.pending.usernameRequest[q])
  }

  ghost predicate OthersKept(s: LoopState, end: LoopState) {
    end == s.(pending := s.pending.(peerIdRequest := end.pending.peerIdRequest,
                                    usernameRequest := end.pending.usernameRequest))
  }

  /** One event concerns its own query only. */
  lemma OneEvent(s: LoopState, e: Progress, q: nat)
    requires Disjoint(s)
    ensures
      var turn := GetRecordTurn(s, e.query, e.what);
      var decided := e.query == q && !e.what.OtherProgress?;
      && Disjoint(turn.next) && OthersKept(s, turn.next)
      && (e.query == q ==> turn.effects == Verdict(s, q, if decided then Some(e.what) else None))
      && StillParked(s, turn.next, q, decided)
  {
  }

  lemma FirstAnswer(a: Answer, rest: seq<Answer>, q: nat)
    ensures AnswersTo([a] + rest, q) == if a.query == q then a.effects + AnswersTo(rest, q) else AnswersTo(rest, q)
  {
    assert ([a] + rest)[1..] == rest;
  }

  lemma FirstReport(e: Progress, later: seq<Progress>, q: nat)
    ensures FirstDecisive(Substream([e] + later, q)) ==
              if e.query == q && !e.what.OtherProgress? then Some(e.what) else FirstDecisive(Substream(later, q))
  {
    assert ([e] + later)[1..] == later;
    if e.query == q {
      assert ([e.what] + Substream(later, q))[1..] == Substream(later, q);
    } else {
      assert Substream([e] + later, q) == Substream(later, q);
    }
  }

  /** Whatever the interleaving, every query is answered by its own first decisive
      event and by nothing else, at most once, and stays parked until then. */
  lemma {:induction false} OwnFirstDecisiveEvent(s: LoopState, events: seq<Progress>, q: nat)
    requires Disjoint(s)
    ensures
      var r := Handle(s, events);
      var decisive := FirstDecisive(Substream(events, q));
      && AnswersTo(r.answers, q) == Verdict(s, q, decisive)
      && StillParked(s, r.end, q, decisive.Some?) && OthersKept(s, r.end)
    decreases |events|
  {
    hide GetRecordTurn, AnswersTo, Substream, FirstDecisive;
    if events == [] {
      NothingYet(q);
    } else {
      var e, later := events[0], events[1..];
      assert events == [e] + later;
      var turn := GetRecordTurn(s, e.query, e.what);
      OneEvent(s, e, q);
      OwnFirstDecisiveEvent(turn.next, later, q);
      FirstAnswer(Answer(e.query, turn.effects), Handle(turn.next, later).answers, q);
      FirstReport(e, later, q);
    }
  }

  lemma NothingYet(q: nat)
    ensures AnswersTo([], q) == [] && FirstDecisive(Substream([], q)) == None
  {
  }

  /** Two interleavings of the same substreams end in the same tables and answer
      every query alike. */
  lemma InterleavingIndependence(s: LoopState, events: seq<Progress>, events': seq<Progress>)
    requires Disjoint(s)
    requires forall q :: Substream(events, q) == Substream(events', q)
    ensures Handle(s, events).end == Handle(s, events').end
    ensures forall q :: AnswersTo(Handle(s, events).answers, q) == AnswersTo(Handle(s, events').answers, q)
  {
    hide Handle, AnswersTo, Verdict, FirstDecisive;
    var x, y := Handle(s, events).end, Handle(s, events').end;
    forall q
      ensures AnswersTo(Handle(s, events).answers, q) == AnswersTo(Handle(s, events').answers, q)
      ensures q in x.pending.peerIdRequest <==> q in y.pending.peerIdRequest
      ensures q in x.pending.peerIdRequest ==> x.pending.peerIdRequest[q] == y.pending.peerIdRequest[q]
      ensures q in x.pending.usernameRequest <==> q in y.pending.usernameRequest
      ensures q in x.pending.usernameRequest ==> x.pending.usernameRequest[q] == y.pending.usernameRequest[q]
    {
      OwnFirstDecisiveEvent(s, events, q);
      OwnFirstDecisiveEvent(s, events', q);
    }
    assert x.pending.peerIdRequest == y.pending.peerIdRequest;
    assert x.pending.usernameRequest == y.pending.usernameRequest;
    OwnFirstDecisiveEvent(s, events, 0);
    OwnFirstDecisiveEvent(s, events', 0);
  }

  // ---------- the two maps never meet ----------

  datatype Input = Commanded(command: Command) | Reported(event: SwarmEvent)

  function Turned(s: LoopState, i: Input): LoopState {
    match i
    case Commanded(c) => CommandTurn(s, c).next
    case Reported(e) => EventTurn(s, e).next
  }

  function TurnedAll(s: LoopState, inputs: seq<Input>): LoopState
    decreases |inputs|
  {
    if inputs == [] then s else TurnedAll(Turned(s, inputs[0]), inputs[1..])
  }

  /** Every parked query was issued, and is parked in one of the two maps only. */
  ghost predicate QueriesApart(s: LoopState) {
    && Disjoint(s)
    && (forall q | q in s.pending.peerIdRequest :: q < s.counters.query)
    && (forall q | q in s.pending.usernameRequest :: q < s.counters.query)
  }

  ghost predicate Shrunk(s: LoopState, t: LoopState) {
    && t.counters.query == s.counters.query
    && t.pending.peerIdRequest.Keys <= s.pending.peerIdRequest.Keys
    && t.pending.usernameRequest.Keys <= s.pending.usernameRequest.Keys
  }

  /** Queries above the counter are new, and at most one map gets one. */
  ghost predicate Grown(s: LoopState, t: LoopState) {
    var q := s.counters.query;
    && t.counters.query >= q
    && (|| (t.pending.peerIdRequest.Keys == s.pending.peerIdRequest.Keys
            && t.pending.usernameRequest.Keys == s.pending.usernameRequest.Keys)
        || (t.counters.query > q && t.pending.peerIdRequest.Keys == s.pending.peerIdRequest.Keys + {q}
            && t.pending.usernameRequest.Keys == s.pending.usernameRequest.Keys)
        || (t.counters.query > q && t.pending.peerIdRequest.Keys == s.pending.peerIdRequest.Keys
            && t.pending.usernameRequest.Keys == s.pending.usernameRequest.Keys + {q}))
  }

  lemma EventShrinks(s: LoopState, e: SwarmEvent)
    ensures Shrunk(s, EventTurn(s, e).next)
  {
    hide GetRecordTurn, Shrunk;
    if e.GetRecordProgressed? {
      GetShrinks(s, e.query, e.progress);
    } else {
      OtherShrinks(s, e);
    }
  }

  lemma GetShrinks(s: LoopState, query: nat, progress: GetProgress)
    ensures Shrunk(s, GetRecordTurn(s, query, progress).next)
  {
  }

  lemma OtherShrinks(s: LoopState, e: SwarmEvent)
    requires !e.GetRecordProgressed?
    ensures Shrunk(s, EventTurn(s, e).next)
  {
  }

  lemma CommandGrows(s: LoopState, c: Command)
    ensures Grown(s, CommandTurn(s, c).next)
  {
  }

  lemma ApartKept(s: LoopState, t: LoopState)
    requires QueriesApart(s) && (Shrunk(s, t) || Grown(s, t))
    ensures QueriesApart(t)
  {
    assert forall q | q in t.pending.peerIdRequest :: q in s.pending.peerIdRequest.Keys + {s.counters.query};
    assert forall q | q in t.pending.usernameRequest :: q in s.pending.usernameRequest.Keys + {s.counters.query};
  }

  lemma TurnKeepsApart(s: LoopState, i: Input)
    requires QueriesApart(s)
    ensures QueriesApart(Turned(s, i))
  {
    hide QueriesApart, Shrunk, Grown, CommandTurn, EventTurn;
    match i {
      case Commanded(c) => CommandGrows(s, c);
      case Reported(e) => EventShrinks(s, e);
    }
    ApartKept(s, Turned(s, i));
  }

  /** Whatever commands and events a loop takes, in any order and with any number of
      queries outstanding, no query is ever parked in both maps: testing the peer-id
      map first never takes an answer from the username map. */
  lemma {:induction false} LoopKeepsApart(s: LoopState, inputs: seq<Input>)
    requires s == Initial(s.config.codec, s.config.localPeer, s.config.username) || QueriesApart(s)
    ensures QueriesApart(TurnedAll(s, inputs))
    decreases |inputs|
  {
    if inputs != [] {
      TurnKeepsApart(s, inputs[0]);
      LoopKeepsApart(Turned(s, inputs[0]), inputs[1..]);
    }
  }
}
