/** Seen through what its handlers set out to do, a fleet is the network in which
    every handler is one step: whatever all runs of that network keep, all runs of
    the fleet keep. */
module FleetProjection {
  import opened Protocol
  import opened Handlers
  import opened SwapNetwork
  import opened SwapMoves
  import opened NodeMachine
  import opened Fleet

  predicate IsMessage(e: Effect) { e.Send? || e.Respond? }

  /** The first message a handler will still put on the network. */
  function Message(es: seq<Effect>): (m: Option<Effect>)
    ensures m.Some? ==> IsMessage(m.value)
  {
    if es == [] then None else if IsMessage(es[0]) then Some(es[0]) else Message(es[1..])
  }

  /** No handler puts two messages on the network. */
  predicate Tidy(es: seq<Effect>) {
    es == [] || (if IsMessage(es[0]) then Message(es[1..]).None? else Tidy(es[1..]))
  }

  /** A command sends at most one request, under its behaviour's next number. */
  lemma CommandTidy(s: LoopState, c: Command)
    ensures
      var es := CommandTurn(s, c).effects;
      var m := Message(es);
      && Tidy(es)
      && (m.Some? ==> m.value.Send? && m.value.number == Number(s.counters, BehaviourOf(m.value.payload)))
  {
    var es := CommandTurn(s, c).effects;
    ShortMessage(es);
  }

  lemma ShortMessage(es: seq<Effect>)
    requires |es| <= 2
    ensures Tidy(es) <==> |es| < 2 || !IsMessage(es[0]) || !IsMessage(es[1])
    ensures Message(es) == if |es| >= 1 && IsMessage(es[0]) then Some(es[0])
                           else if |es| == 2 && IsMessage(es[1]) then Some(es[1]) else None
  {
    if |es| == 1 {
      assert es[1..] == [];
    } else if |es| == 2 {
      assert es[1..] == [es[1]] && es[1..][1..] == [];
    }
  }

  function ChannelOf(e: SwarmEvent): Option<RequestId> {
    if e.OfferRequested? || e.AnswerRequested? || e.DirectRequested? then Some(e.channel) else None
  }

  /** An event is answered at most once, on its own channel. */
  lemma EventTidy(s: LoopState, e: SwarmEvent)
    ensures
      var es := EventTurn(s, e).effects;
      var m := Message(es);
      && Tidy(es)
      && (m.Some? ==> m.value.Respond? && ChannelOf(e) == Some(m.value.channel))
  {
    var es := EventTurn(s, e).effects;
    if |es| == 3 {
      ShortMessage(es[1..]);
    } else {
      ShortMessage(es);
    }
  }

  lemma {:induction false} PerformTidy(n: Net, p: PeerId, es: seq<Effect>)
    requires Tidy(es)
    ensures PerformAll(n, p, es) == if Message(es).Some? then Perform(n, p, Message(es).value) else n
    decreases |es|
  {
    if es != [] {
      if IsMessage(es[0]) {
        PerformNothing(Perform(n, p, es[0]), p, es[1..]);
      } else {
        PerformTidy(n, p, es[1..]);
      }
    }
  }

  lemma {:induction false} PerformNothing(n: Net, p: PeerId, es: seq<Effect>)
    requires Message(es).None?
    ensures PerformAll(n, p, es) == n
    decreases |es|
  {
    if es != [] {
      PerformNothing(n, p, es[1..]);
    }
  }

  lemma {:induction false} PledgedMessage(es: seq<Effect>, b: Behaviour, k: nat)
    requires Tidy(es)
    ensures Request(b, k) in Pledged(es) <==>
              Message(es).Some? && Message(es).value.Send?
              && Message(es).value.number == k && BehaviourOf(Message(es).value.payload) == b
  {
    if es != [] {
      if IsMessage(es[0]) {
        PledgedNothing(es[1..], b, k);
      } else {
        PledgedMessage(es[1..], b, k);
      }
    }
  }

  lemma {:induction false} PledgedNothing(es: seq<Effect>, b: Behaviour, k: nat)
    requires Message(es).None?
    ensures Request(b, k) !in Pledged(es)
  {
    if es != [] {
      PledgedNothing(es[1..], b, k);
    }
  }

  // ---------- the projection ----------

  /** What each peer's running handler will still put on the network. */
  type Sayings = map<PeerId, Option<Effect>>

  function SayingsOf(nodes: map<PeerId, Node>): Sayings {
    map p | p in nodes :: Message(nodes[p].todo)
  }

  function NameOf(p: PeerId, e: Effect): RequestId
    requires e.Send?
  {
    RequestId(BehaviourOf(e.payload), p, e.number)
  }

  predicate SaysRequest(say: Sayings, p: PeerId) { p in say && say[p].Some? && say[p].value.Send? }

  predicate SaysReply(say: Sayings, p: PeerId) { p in say && say[p].Some? && say[p].value.Respond? }

  /** In the network's wire `theirs` is what the fleet's `mine` holds, and what is
      still to be sent. */
  ghost predicate WireSays(say: Sayings, mine: map<RequestId, Envelope>, theirs: map<RequestId, Envelope>) {
    && (forall id | id in mine :: id in theirs && theirs[id] == mine[id])
    && (forall p | SaysRequest(say, p) ::
         var id := NameOf(p, say[p].value);
         id in theirs && theirs[id] == Envelope(say[p].value.to, say[p].value.payload) && id !in mine)
    && (forall id | id in theirs ::
           id in mine || (SaysRequest(say, id.from) && NameOf(id.from, say[id.from].value) == id))
  }

  ghost predicate RepliesSay(say: Sayings, mine: map<RequestId, ReplyBody>, theirs: map<RequestId, ReplyBody>) {
    && (forall id | id in mine :: id in theirs && theirs[id] == mine[id])
    && (forall p | SaysReply(say, p) ::
         var id := say[p].value.channel;
         id in theirs && theirs[id] == say[p].value.body && id !in mine)
    && (forall p, q | SaysReply(say, p) && SaysReply(say, q) && p != q ::
         say[p].value.channel != say[q].value.channel)
  }

  lemma SentSays(say: Sayings, mine: map<RequestId, Envelope>, theirs: map<RequestId, Envelope>, p: PeerId)
    requires WireSays(say, mine, theirs) && SaysRequest(say, p)
    ensures
      var e := say[p].value;
      WireSays(say[p := None], mine[NameOf(p, e) := Envelope(e.to, e.payload)], theirs)
  {
  }

  lemma NotSentSays(say: Sayings, mine: map<RequestId, Envelope>, theirs: map<RequestId, Envelope>, p: PeerId,
                    e: Option<Effect>)
    requires WireSays(say, mine, theirs) && !SaysRequest(say, p) && (e.Some? ==> !e.value.Send?)
    ensures WireSays(say[p := e], mine, theirs)
  {
  }

  lemma ToSendSays(say: Sayings, mine: map<RequestId, Envelope>, theirs: map<RequestId, Envelope>, p: PeerId, e: Effect)
    requires WireSays(say, mine, theirs) && !SaysRequest(say, p) && e.Send? && NameOf(p, e) !in theirs
    ensures WireSays(say[p := Some(e)], mine, theirs[NameOf(p, e) := Envelope(e.to, e.payload)])
  {
  }

  lemma TakenSays(say: Sayings, mine: map<RequestId, Envelope>, theirs: map<RequestId, Envelope>, id: RequestId)
    requires WireSays(say, mine, theirs) && id in mine
    ensures WireSays(say, mine - {id}, theirs - {id})
  {
  }

  lemma RespondedSay(say: Sayings, mine: map<RequestId, ReplyBody>, theirs: map<RequestId, ReplyBody>, p: PeerId)
    requires RepliesSay(say, mine, theirs) && SaysReply(say, p)
    ensures RepliesSay(say[p := None], mine[say[p].value.channel := say[p].value.body], theirs)
  {
  }

  lemma NotRespondedSay(say: Sayings, mine: map<RequestId, ReplyBody>, theirs: map<RequestId, ReplyBody>, p: PeerId,
                        e: Option<Effect>)
    requires RepliesSay(say, mine, theirs) && !SaysReply(say, p) && (e.Some? ==> !e.value.Respond?)
    ensures RepliesSay(say[p := e], mine, theirs)
  {
  }

  lemma ToRespondSay(say: Sayings, mine: map<RequestId, ReplyBody>, theirs: map<RequestId, ReplyBody>, p: PeerId,
                     e: Effect)
    requires RepliesSay(say, mine, theirs) && !SaysReply(say, p) && e.Respond? && e.channel !in theirs
    ensures RepliesSay(say[p := Some(e)], mine, theirs[e.channel := e.body])
  {
  }

  lemma HeardSay(say: Sayings, mine: map<RequestId, ReplyBody>, theirs: map<RequestId, ReplyBody>, id: RequestId)
    requires RepliesSay(say, mine, theirs) && id in mine
    ensures RepliesSay(say, mine - {id}, theirs - {id})
  {
  }

  ghost predicate LoopsProjected(f: Fleet, n: Net) {
    && n.log == f.log && n.loops.Keys == f.nodes.Keys
    && (forall p | p in f.nodes :: n.loops[p] == f.nodes[p].loop && Tidy(f.nodes[p].todo))
  }

  ghost predicate OwedRequest(n: Node, b: Behaviour, k: nat) { Owed(n, Request(b, k)) }

  ghost predicate OpenProjected(nodes: map<PeerId, Node>, open: set<RequestId>) {
    forall p, b, k | p in nodes && OwedRequest(nodes[p], b, k) :: RequestId(b, p, k) in open
  }

  ghost predicate Projected(f: Fleet, n: Net) {
    && LoopsProjected(f, n) && OpenProjected(f.nodes, n.open)
    && WireSays(SayingsOf(f.nodes), f.wire, n.wire) && RepliesSay(SayingsOf(f.nodes), f.replies, n.replies)
  }

  // ---------- steps the network does not see ----------

  ghost predicate OwesNoMore(m: Node, n: Node) { forall b, k :: OwedRequest(m, b, k) ==> OwedRequest(n, b, k) }

  lemma SayingsAfter(f: Fleet, g: Fleet, p: PeerId, m: Node)
    requires p in f.nodes && g.nodes == f.nodes[p := m]
    ensures SayingsOf(g.nodes) == SayingsOf(f.nodes)[p := Message(m.todo)]
  {
  }

  /** Peer `p` moves on without touching its tables. */
  lemma SameTables(f: Fleet, g: Fleet, n: Net, p: PeerId, m: Node)
    requires LoopsProjected(f, n) && OpenProjected(f.nodes, n.open)
    requires p in f.nodes && g.nodes == f.nodes[p := m] && g.log == f.log
    requires m.loop == f.nodes[p].loop && Tidy(m.todo) && OwesNoMore(m, f.nodes[p])
    ensures LoopsProjected(g, n) && OpenProjected(g.nodes, n.open)
  {
    hide Tidy, OwedRequest;
  }

  lemma TidyAt(f: Fleet, n: Net, p: PeerId)
    requires LoopsProjected(f, n) && p in f.nodes
    ensures Tidy(f.nodes[p].todo) && n.loops[p] == f.nodes[p].loop
  {
  }

  lemma {:induction false} TidyWithoutMessage(es: seq<Effect>)
    requires Message(es).None?
    ensures Tidy(es)
  {
    if es != [] {
      TidyWithoutMessage(es[1..]);
    }
  }

  lemma WorkProjected(f: Fleet, n: Net, p: PeerId)
    requires Projected(f, n) && Possible(f, At(p, Work))
    ensures Projected(Acted(f, At(p, Work)), n)
  {
    hide WireSays, RepliesSay, LoopsProjected, OpenProjected, Owed;
    var g, m, e := Acted(f, At(p, Work)), NodeMachine.Next(f.nodes[p], Work), f.nodes[p].todo[0];
    var say := SayingsOf(f.nodes);
    TidyAt(f, n, p);
    if IsMessage(e) { TidyWithoutMessage(m.todo); }
    forall b, k ensures OwedRequest(m, b, k) ==> OwedRequest(f.nodes[p], b, k) {
      NodeMachine.WorkOwes(f.nodes[p], Request(b, k));
    }
    SayingsAfter(f, g, p, m);
    SameTables(f, g, n, p, m);
    if e.Send? {
      SentSays(say, f.wire, n.wire, p);
      NotRespondedSay(say, f.replies, n.replies, p, None);
    } else if e.Respond? {
      RespondedSay(say, f.replies, n.replies, p);
      NotSentSays(say, f.wire, n.wire, p, None);
    } else {
      assert say[p := Message(m.todo)] == say;
    }
  }

  lemma QuietProjected(f: Fleet, n: Net, p: PeerId, s: NodeMachine.Step)
    requires Projected(f, n) && Possible(f, At(p, s)) && (s.Issue? || s.Return? || s.TakeEvent?)
    ensures Projected(Acted(f, At(p, s)), n)
  {
    hide WireSays, RepliesSay, LoopsProjected, OpenProjected;
    var g, m := Acted(f, At(p, s)), NodeMachine.Next(f.nodes[p], s);
    TidyAt(f, n, p);
    SayingsAfter(f, g, p, m);
    SameTables(f, g, n, p, m);
    assert SayingsOf(f.nodes)[p := Message(m.todo)] == SayingsOf(f.nodes);
  }

  // ---------- turns ----------

  ghost predicate OpenElsewhere(nodes: map<PeerId, Node>, p: PeerId, open: set<RequestId>) {
    forall q, b, k | q in nodes && q != p && OwedRequest(nodes[q], b, k) :: RequestId(b, q, k) in open
  }

  ghost predicate OpenAt(m: Node, p: PeerId, open: set<RequestId>) {
    forall b, k | Request(b, k) in m.swarm.open :: RequestId(b, p, k) in open
  }

  /** What peer `p` says in `turn` is new to the network. */
  predicate SaysNew(n: Net, p: PeerId, turn: Turn) {
    var e := Message(turn.effects);
    && (e.Some? && e.value.Send? ==> NameOf(p, e.value) !in n.wire)
    && (e.Some? && e.value.Respond? ==> e.value.channel !in n.replies)
  }

  lemma TurnOpen(f: Fleet, g: Fleet, n: Net, p: PeerId, m: Node, turn: Turn)
    requires p in f.nodes && g.nodes == f.nodes[p := m] && m.todo == turn.effects && Tidy(turn.effects)
    requires OpenElsewhere(f.nodes, p, n.open) && OpenAt(m, p, n.open)
    ensures OpenProjected(g.nodes, Take(n, p, turn).open)
  {
    hide Message, Tidy, Pledged;
    PerformTidy(n.(loops := n.loops[p := turn.next]), p, turn.effects);
    forall q, b, k | q in g.nodes && OwedRequest(g.nodes[q], b, k)
      ensures RequestId(b, q, k) in Take(n, p, turn).open
    {
      if q == p {
        PledgedMessage(turn.effects, b, k);
      } else {
        assert OwedRequest(f.nodes[q], b, k);
      }
    }
  }

  lemma NothingLeft(n: Node)
    requires n.todo == []
    ensures Message(n.todo).None?
  {
  }

  /** Peer `p`, with nothing left to do, takes `turn`. */
  lemma TurnProjected(f: Fleet, g: Fleet, n: Net, p: PeerId, m: Node, turn: Turn)
    requires LoopsProjected(f, n)
    requires WireSays(SayingsOf(f.nodes), f.wire, n.wire) && RepliesSay(SayingsOf(f.nodes), f.replies, n.replies)
    requires OpenElsewhere(f.nodes, p, n.open) && OpenAt(m, p, n.open)
    requires p in f.nodes && f.nodes[p].todo == [] && g == f.(nodes := f.nodes[p := m])
    requires m.loop == turn.next && m.todo == turn.effects && Tidy(turn.effects) && SaysNew(n, p, turn)
    ensures Projected(g, Take(n, p, turn))
  {
    hide WireSays, RepliesSay, OpenProjected, OpenElsewhere, OpenAt, Message, Tidy;
    var say, e := SayingsOf(f.nodes), Message(turn.effects);
    assert say[p].None? by { NothingLeft(f.nodes[p]); }
    TurnOpen(f, g, n, p, m, turn);
    SayingsAfter(f, g, p, m);
    PerformTidy(n.(loops := n.loops[p := turn.next]), p, turn.effects);
    if e.Some? && e.value.Send? {
      ToSendSays(say, f.wire, n.wire, p, e.value);
      NotRespondedSay(say, f.replies, n.replies, p, e);
    } else if e.Some? {
      ToRespondSay(say, f.replies, n.replies, p, e.value);
      NotSentSays(say, f.wire, n.wire, p, e);
    } else {
      NotSentSays(say, f.wire, n.wire, p, e);
      NotRespondedSay(say, f.replies, n.replies, p, e);
    }
  }

  lemma NotedProjected(f: Fleet, n: Net, es: seq<Entry>)
    requires Projected(f, n)
    ensures Projected(Noted(f, es), Logged(n, es))
  {
    hide WireSays, RepliesSay;
  }

  // ---------- every step is a step of the network, or none ----------

  function NetStep(f: Fleet, st: Act): Option<SwapNetwork.Step>
    requires Possible(f, st)
  {
    match st
    case At(p, TakeCommand) => Some(UserCommand(p, f.nodes[p].main.command))
    case At(p, SwarmReport(e)) => Some(LocalEvent(p, e))
    case At(_, _) => None
    case Arrival(id) => Some(SwapNetwork.Deliver(id))
    case RequestLoss(id) => Some(SwapNetwork.LoseRequest(id))
    case ReplyArrival(id) => Some(SwapNetwork.DeliverReply(id))
    case ReplyLoss(id) => Some(SwapNetwork.LoseReply(id))
    case FailureNotice(id) => Some(SwapNetwork.ReportFailure(id))
  }

  /** Commands on their way to a loop come from a client. */
  ghost predicate Shaped(f: Fleet) {
    forall p | p in f.nodes && f.nodes[p].main.Sending? :: ClientShaped(f.nodes[p].main.command)
  }

  lemma OpenSplits(f: Fleet, p: PeerId, open: set<RequestId>)
    requires OpenProjected(f.nodes, open) && p in f.nodes
    ensures OpenElsewhere(f.nodes, p, open) && OpenAt(f.nodes[p], p, open)
  {
    forall b, k | Request(b, k) in f.nodes[p].swarm.open ensures RequestId(b, p, k) in open {
      assert OwedRequest(f.nodes[p], b, k);
    }
  }

  lemma CommandProjected(f: Fleet, n: Net, p: PeerId)
    requires Projected(f, n) && WellFormed(n) && Shaped(f) && Possible(f, At(p, TakeCommand))
    ensures
      var s := UserCommand(p, f.nodes[p].main.command);
      SwapNetwork.Enabled(n, s) && Projected(Acted(f, At(p, TakeCommand)), SwapNetwork.Next(n, s))
  {
    hide WireSays, RepliesSay, OpenProjected, OpenElsewhere, CommandTurn, Take;
    var c, m := f.nodes[p].main.command, NodeMachine.Next(f.nodes[p], TakeCommand);
    TidyAt(f, n, p);
    CommandTidy(n.loops[p], c);
    OpenSplits(f, p, n.open);
    var g := f.(nodes := f.nodes[p := m]);
    TurnProjected(f, g, n, p, m, CommandTurn(n.loops[p], c));
    NotedProjected(g, Take(n, p, CommandTurn(n.loops[p], c)),
                   CommandEntries(n.loops[p], p, c, CommandTurn(n.loops[p], c).effects));
  }

  /** Peer `p` takes event `e`, whose delivery makes `f'` of `f` and `n'` of `n`. */
  lemma EventProjected(f: Fleet, g: Fleet, n: Net, p: PeerId, e: SwarmEvent, es: seq<Entry>)
    requires LoopsProjected(f, n) && Takes(f, p, e)
    requires WireSays(SayingsOf(f.nodes), f.wire, n.wire) && RepliesSay(SayingsOf(f.nodes), f.replies, n.replies)
    requires OpenElsewhere(f.nodes, p, n.open) && OpenAt(NodeMachine.Next(f.nodes[p], SwarmReport(e)), p, n.open)
    requires ChannelOf(e).Some? ==> ChannelOf(e).value !in n.replies
    requires g == Noted(Stepped(f, p, SwarmReport(e)), es)
    ensures p in n.loops && n.loops[p] == f.nodes[p].loop
    ensures Projected(g, Logged(Take(n, p, EventTurn(n.loops[p], e)), es))
  {
    hide WireSays, RepliesSay, OpenProjected, OpenElsewhere, OpenAt, EventTurn, Take, Decides;
    TidyAt(f, n, p);
    EventTidy(n.loops[p], e);
    var h, turn := Stepped(f, p, SwarmReport(e)), EventTurn(n.loops[p], e);
    TurnProjected(f, h, n, p, h.nodes[p], turn);
    NotedProjected(h, Take(n, p, turn), es);
  }

  /** Reporting an event leaves no new request open, and closes the one it decides. */
  lemma ReportCloses(m: Node, e: SwarmEvent, p: PeerId, open: set<RequestId>)
    requires NodeMachine.Enabled(m, SwarmReport(e)) && OpenAt(m, p, open)
    ensures OpenAt(NodeMachine.Next(m, SwarmReport(e)), p, open)
    ensures forall id | Report(id, e) && id.from == p ::
              id in open || Decides(e) != Some(Request(id.behaviour, id.number))
    ensures forall id | Report(id, e) && id.from == p :: OpenAt(NodeMachine.Next(m, SwarmReport(e)), p, open - {id})
  {
    hide EventTurn;
  }

  lemma LocalProjected(f: Fleet, n: Net, p: PeerId, e: SwarmEvent)
    requires Projected(f, n) && Possible(f, At(p, SwarmReport(e)))
    ensures
      var s := LocalEvent(p, e);
      SwapNetwork.Enabled(n, s) && Projected(Acted(f, At(p, SwarmReport(e))), SwapNetwork.Next(n, s))
  {
    hide WireSays, RepliesSay, OpenProjected, OpenElsewhere, OpenAt, EventTurn, Take, Projected, Decides;
    ProjectedParts(f, n);
    TakesAt(f, n, p, e);
    OpenSplits(f, p, n.open);
    ReportCloses(f.nodes[p], e, p, n.open);
    var g := Stepped(f, p, SwarmReport(e));
    EventProjected(f, Noted(g, []), n, p, e, []);
    var m := Take(n, p, EventTurn(n.loops[p], e));
    assert g.log + [] == g.log && m.log + [] == m.log;
    assert Noted(g, []) == g && Logged(m, []) == m;
  }

  lemma DeliverProjected(f: Fleet, n: Net, id: RequestId)
    requires Projected(f, n) && WellFormed(n) && Possible(f, Arrival(id))
    ensures
      var s := SwapNetwork.Deliver(id);
      SwapNetwork.Enabled(n, s) && Projected(Acted(f, Arrival(id)), SwapNetwork.Next(n, s))
  {
    hide RepliesSay, OpenProjected, OpenElsewhere, OpenAt, EventTurn, Take, ArrivalEntries, NodeMachine.Next,
         NodeMachine.Enabled, Projected, Takes, Issued;
    var Envelope(p, payload) := f.wire[id];
    var e := ArrivalEvent(id, payload);
    ProjectedParts(f, n);
    TakesAt(f, n, p, e);
    OpenSplits(f, p, n.open);
    ReportCloses(f.nodes[p], e, p, n.open);
    TakenSays(SayingsOf(f.nodes), f.wire, n.wire, id);
    var f', n' := f.(wire := f.wire - {id}), n.(wire := n.wire - {id});
    var es := ArrivalEntries(n.loops[p], p, id, payload, EventTurn(n.loops[p], e).effects);
    TakesSame(f, f', p, e);
    EventProjected(f', Noted(Stepped(f', p, SwarmReport(e)), es), n', p, e, es);
  }

  lemma TakesSame(f: Fleet, g: Fleet, p: PeerId, e: SwarmEvent)
    requires Takes(f, p, e) && g.nodes == f.nodes
    ensures Takes(g, p, e)
  {
  }

  lemma OwedIsOpen(f: Fleet, n: Net, id: RequestId, e: SwarmEvent)
    requires OpenProjected(f.nodes, n.open) && Takes(f, id.from, e) && Report(id, e)
    ensures id in n.open
  {
    assert OwedRequest(f.nodes[id.from], id.behaviour, id.number);
  }

  lemma ReplyProjected(f: Fleet, n: Net, id: RequestId)
    requires Projected(f, n) && Possible(f, ReplyArrival(id))
    ensures
      var s := SwapNetwork.DeliverReply(id);
      SwapNetwork.Enabled(n, s) && Projected(Acted(f, ReplyArrival(id)), SwapNetwork.Next(n, s))
  {
    hide WireSays, OpenProjected, OpenElsewhere, OpenAt, EventTurn, Take, ToldEntries, NodeMachine.Next,
         NodeMachine.Enabled, Projected, Takes;
    var p, e := id.from, ReplyEvent(id, f.replies[id]);
    ProjectedParts(f, n);
    TakesAt(f, n, p, e);
    OwedIsOpen(f, n, id, e);
    OpenSplits(f, p, n.open);
    ReportCloses(f.nodes[p], e, p, n.open);
    ElsewhereKept(f.nodes, id, n.open);
    HeardSay(SayingsOf(f.nodes), f.replies, n.replies, id);
    var f', n' := f.(replies := f.replies - {id}), n.(replies := n.replies - {id}, open := n.open - {id});
    var es := ToldEntries(id, EventTurn(n.loops[p], e).effects);
    TakesSame(f, f', p, e);
    EventProjected(f', Noted(Stepped(f', p, SwarmReport(e)), es), n', p, e, es);
  }

  lemma FailureProjected(f: Fleet, n: Net, id: RequestId)
    requires Projected(f, n) && Possible(f, FailureNotice(id))
    ensures
      var s := SwapNetwork.ReportFailure(id);
      SwapNetwork.Enabled(n, s) && Projected(Acted(f, FailureNotice(id)), SwapNetwork.Next(n, s))
  {
    hide WireSays, RepliesSay, OpenProjected, OpenElsewhere, OpenAt, EventTurn, Take, ToldEntries, NodeMachine.Next,
         NodeMachine.Enabled, Projected, Takes;
    var p, e := id.from, FailureEvent(id);
    ProjectedParts(f, n);
    TakesAt(f, n, p, e);
    OwedIsOpen(f, n, id, e);
    OpenSplits(f, p, n.open);
    ReportCloses(f.nodes[p], e, p, n.open);
    ElsewhereKept(f.nodes, id, n.open);
    var n' := n.(open := n.open - {id});
    var es := ToldEntries(id, EventTurn(n.loops[p], e).effects);
    EventProjected(f, Noted(Stepped(f, p, SwarmReport(e)), es), n', p, e, es);
  }

  lemma ElsewhereKept(nodes: map<PeerId, Node>, id: RequestId, open: set<RequestId>)
    requires OpenElsewhere(nodes, id.from, open)
    ensures OpenElsewhere(nodes, id.from, open - {id})
  {
  }

  lemma ProjectedParts(f: Fleet, n: Net)
    requires Projected(f, n)
    ensures LoopsProjected(f, n) && OpenProjected(f.nodes, n.open)
    ensures WireSays(SayingsOf(f.nodes), f.wire, n.wire) && RepliesSay(SayingsOf(f.nodes), f.replies, n.replies)
  {
  }

  lemma TakesAt(f: Fleet, n: Net, p: PeerId, e: SwarmEvent)
    requires LoopsProjected(f, n) && Takes(f, p, e)
    ensures p in f.nodes && p in n.loops && n.loops[p] == f.nodes[p].loop
    ensures NodeMachine.Enabled(f.nodes[p], SwarmReport(e))
  {
  }

  lemma StepProjected(f: Fleet, n: Net, st: Act)
    requires Projected(f, n) && WellFormed(n) && Shaped(f) && Possible(f, st)
    ensures
      var s := NetStep(f, st);
      if s.None? then Projected(Acted(f, st), n)
      else SwapNetwork.Enabled(n, s.value) && Projected(Acted(f, st), SwapNetwork.Next(n, s.value))
  {
    hide NodeMachine.Enabled, NodeMachine.Next, SwapNetwork.Next, Acted, Projected, Shaped, WellFormed;
    match st
    case At(p, TakeCommand) => CommandProjected(f, n, p);
    case At(p, SwarmReport(e)) => LocalProjected(f, n, p, e);
    case At(p, Work) => WorkProjected(f, n, p);
    case At(p, s) => QuietProjected(f, n, p, s);
    case Arrival(id) => DeliverProjected(f, n, id);
    case RequestLoss(id) => RequestLossProjected(f, n, id);
    case ReplyArrival(id) => ReplyProjected(f, n, id);
    case ReplyLoss(id) => ReplyLossProjected(f, n, id);
    case FailureNotice(id) => FailureProjected(f, n, id);
  }

  lemma RequestLossProjected(f: Fleet, n: Net, id: RequestId)
    requires Projected(f, n) && Possible(f, RequestLoss(id))
    ensures
      var s := SwapNetwork.LoseRequest(id);
      SwapNetwork.Enabled(n, s) && Projected(Acted(f, RequestLoss(id)), SwapNetwork.Next(n, s))
  {
    hide RepliesSay, OpenProjected;
    TakenSays(SayingsOf(f.nodes), f.wire, n.wire, id);
  }

  lemma ReplyLossProjected(f: Fleet, n: Net, id: RequestId)
    requires Projected(f, n) && Possible(f, ReplyLoss(id))
    ensures
      var s := SwapNetwork.LoseReply(id);
      SwapNetwork.Enabled(n, s) && Projected(Acted(f, ReplyLoss(id)), SwapNetwork.Next(n, s))
  {
    hide WireSays, OpenProjected;
    HeardSay(SayingsOf(f.nodes), f.replies, n.replies, id);
  }

  lemma StepShaped(f: Fleet, st: Act)
    requires Shaped(f) && Possible(f, st)
    ensures Shaped(Acted(f, st))
  {
    hide Acted;
    NodesAfter(f, st);
  }

  lemma {:induction false} RunProjected(f: Fleet, n: Net, steps: seq<Act>) returns (ns: seq<SwapNetwork.Step>)
    requires Projected(f, n) && WellFormed(n) && Shaped(f) && NodesOk(f) && Run(f, steps)
    ensures SwapNetwork.Legal(n, ns) && Projected(End(f, steps), SwapNetwork.After(n, ns))
    ensures NodesOk(End(f, steps))
    decreases |steps|
  {
    hide Projected, WellFormed, Shaped, NodesOk, Acted, Possible, SwapNetwork.Next, SwapNetwork.Enabled, NetStep;
    if steps == [] {
      ns := [];
    } else {
      var g, s := Acted(f, steps[0]), NetStep(f, steps[0]);
      StepProjected(f, n, steps[0]);
      StepShaped(f, steps[0]);
      NextNodesOk(f, steps[0]);
      if s.None? {
        ns := RunProjected(g, n, steps[1..]);
      } else {
        NextWellFormed(n, s.value);
        ns := RunProjected(g, SwapNetwork.Next(n, s.value), steps[1..]);
        ns := [s.value] + ns;
      }
    }
  }

  /** The network a fleet starts as. */
  function Start(f: Fleet): Net {
    Net(map p | p in f.nodes :: f.nodes[p].loop, map[], map[], {}, [])
  }

  lemma StartProjected(f: Fleet)
    requires Fresh(f)
    ensures SwapNetwork.Init(Start(f)) && Projected(f, Start(f)) && WellFormed(Start(f)) && Shaped(f) && NodesOk(f)
  {
    hide NodeMachine.Inv;
    forall p | p in f.nodes ensures NodeMachine.Inv(f.nodes[p]) {
      NodeMachine.InitInv(f.nodes[p]);
    }
  }

  /** Every run of a fleet projects to a run of the network: with the same tables and
      the same log, and on the wire exactly what is there or still to be sent. */
  lemma Projects(f: Fleet, steps: seq<Act>) returns (ns: seq<SwapNetwork.Step>)
    requires Fresh(f) && Run(f, steps)
    ensures SwapNetwork.Init(Start(f)) && SwapNetwork.Legal(Start(f), ns)
    ensures Projected(End(f, steps), SwapNetwork.After(Start(f), ns)) && NodesOk(End(f, steps))
  {
    hide Projected, WellFormed, Shaped, NodesOk;
    StartProjected(f);
    ns := RunProjected(f, Start(f), steps);
  }
}
