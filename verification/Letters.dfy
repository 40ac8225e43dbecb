/** Requests and the replies to them, seen from what the peers have done: a request leaves
    once under its name and is replied to once, by a peer that has dealt with it. So a
    direct message is shown once, and before its sender can hear that it was delivered. */
module Letters {
  import opened Protocol
  import opened Handlers
  import opened SwapNetwork
  import opened NodeMachine
  import opened Fleet
  import opened FleetDeeds
  import opened FleetProjection
  import opened Doings
  import opened Origins
  import FleetSwaps

  // ---------- a name is used once ----------

  /** Everything peer `p` has sent or is to send has a name of its own. */
  ghost predicate NamedOnce(f: Fleet, p: PeerId) {
    var ds := DoingsOf(f, p);
    && (forall i, j | 0 <= i < j < |ds| && ds[i].Send? && ds[j].Send? :: NameOf(p, ds[i]) != NameOf(p, ds[j]))
    && (forall e | e in ds && e.Send? ::
         p in f.nodes && e.number < Number(f.nodes[p].loop.counters, BehaviourOf(e.payload)))
  }

  /** A turn sends at most one request, under a number that it uses up. */
  ghost predicate NamesNew(s: LoopState, turn: Turn) {
    var es, before, after := turn.effects, s.counters, turn.next.counters;
    && (forall b :: Number(before, b) <= Number(after, b))
    && (forall i, j | 0 <= i < j < |es| :: !es[i].Send? || !es[j].Send?)
    && (forall e | e in es && e.Send? ::
         e.number == Number(before, BehaviourOf(e.payload)) && e.number < Number(after, BehaviourOf(e.payload)))
  }

  lemma CommandNames(s: LoopState, c: Command)
    ensures NamesNew(s, CommandTurn(s, c))
  {
  }

  lemma EventNames(s: LoopState, ev: SwarmEvent)
    ensures NamesNew(s, EventTurn(s, ev))
  {
  }

  lemma TurnNames(f: Fleet, st: Act)
    requires Possible(f, st) && TurnOf(f, st).Some?
    ensures TurnOf(f, st).value.0 in f.nodes && NamesNew(f.nodes[TurnOf(f, st).value.0].loop, TurnOf(f, st).value.1)
  {
    hide NamesNew, CommandTurn, EventTurn;
    var s := NodeStep(f, st).value;
    var n := f.nodes[s.0];
    if s.1.TakeCommand? { CommandNames(n.loop, n.main.command); } else { EventNames(n.loop, s.1.event); }
  }

  lemma MoreNamed(f: Fleet, g: Fleet, p: PeerId, turn: Turn)
    requires NamedOnce(f, p) && p in f.nodes && p in g.nodes && g.nodes[p].loop == turn.next
    requires NamesNew(f.nodes[p].loop, turn) && DoingsOf(g, p) == DoingsOf(f, p) + turn.effects
    ensures NamedOnce(g, p)
  {
    hide DoingsOf;
    var ds, es, all := DoingsOf(f, p), turn.effects, DoingsOf(g, p);
    forall i, j | 0 <= i < j < |all| && all[i].Send? && all[j].Send? ensures NameOf(p, all[i]) != NameOf(p, all[j]) {
      if i < |ds| <= j {
        assert all[i] in ds && all[j] == es[j - |ds|];
      }
    }
  }

  lemma ActNamed(f: Fleet, st: Act, p: PeerId)
    requires NamedOnce(f, p) && Possible(f, st)
    ensures NamedOnce(Acted(f, st), p)
  {
    hide Acted, Possible, TurnOf, DoingsOf, NamesNew;
    DoingsGrow(f, st, p);
    if p in f.nodes { LoopAfter(f, st, p); }
    if Turns(f, st, p) {
      TurnNames(f, st);
      MoreNamed(f, Acted(f, st), p, TurnOf(f, st).value.1);
    } else {
      assert DoingsOf(f, p) + [] == DoingsOf(f, p);
    }
  }

  // ---------- a request is dealt with before it is replied to ----------

  /** Peer `q` replies, as number `w` of its doings, to a request it has dealt with: an
      offer was noted and is announced next, a direct message was announced just before. */
  ghost predicate Handled(f: Fleet, q: PeerId, w: nat)
    requires w < |DoingsOf(f, q)| && DoingsOf(f, q)[w].Respond?
  {
    var ds := DoingsOf(f, q);
    var id := ds[w].channel;
    match id.behaviour
    case TradeOffering =>
      exists offer, dup ::
        && HasSent(f, id, q, OfferPayload(offer)) && OfferArrived(TradeKey(id.from, q, offer), dup) in f.log
        && w + 1 < |ds| && ds[w + 1] == Emit(InboundTradeOffer(offer.offeredFileName, id.from, offer.requestedFileName))
    case DirectMessaging =>
      exists message ::
        HasSent(f, id, q, DirectPayload(message)) && w > 0 && ds[w - 1] == Emit(InboundDirectMessage(id.from, message))
    case TradeAnswering => exists response :: HasSent(f, id, q, AnswerPayload(response))
  }

  /** A direct message is announced right before the reply to the request it came in. */
  predicate Followed(f: Fleet, q: PeerId, w: nat)
    requires w < |DoingsOf(f, q)|
  {
    var ds := DoingsOf(f, q);
    ds[w].Emit? && ds[w].event.InboundDirectMessage? ==>
      w + 1 < |ds| && ds[w + 1].Respond? && ds[w + 1].body.NoResponse? && ds[w + 1].channel.behaviour.DirectMessaging?
  }

  ghost predicate AllHandled(f: Fleet, q: PeerId) {
    forall w: nat | w < |DoingsOf(f, q)| :: Followed(f, q, w) && (DoingsOf(f, q)[w].Respond? ==> Handled(f, q, w))
  }

  lemma StillHandled(f: Fleet, g: Fleet, q: PeerId, w: nat)
    requires w < |DoingsOf(f, q)| && DoingsOf(f, q) <= DoingsOf(g, q)
    requires f.log <= g.log && forall p :: DoneBy(f.done, p) <= DoneBy(g.done, p)
    requires Followed(f, q, w) && (DoingsOf(f, q)[w].Respond? ==> Handled(f, q, w))
    ensures Followed(g, q, w) && (DoingsOf(g, q)[w].Respond? ==> Handled(g, q, w))
  {
    hide DoingsOf, HasSent, DoneBy;
    forall id, to, payload | HasSent(f, id, to, payload) ensures HasSent(g, id, to, payload) {
      StillSent(f, g, id, to, payload);
    }
    assert forall e | e in f.log :: e in g.log;
  }

  /** What a turn adds is dealt with. */
  ghost predicate NewHandled(g: Fleet, q: PeerId, from: nat) {
    forall w: nat | from <= w < |DoingsOf(g, q)| ::
      Followed(g, q, w) && (DoingsOf(g, q)[w].Respond? ==> Handled(g, q, w))
  }

  /** Neither shows a direct message nor replies. */
  predicate Silent(e: Effect) { !e.Respond? && !(e.Emit? && e.event.InboundDirectMessage?) }

  lemma SilentHandled(g: Fleet, q: PeerId, ds: seq<Effect>, es: seq<Effect>)
    requires DoingsOf(g, q) == ds + es && forall e | e in es :: Silent(e)
    ensures NewHandled(g, q, |ds|)
  {
    hide DoingsOf;
    forall w: nat | |ds| <= w < |DoingsOf(g, q)| ensures Silent(DoingsOf(g, q)[w]) {
      assert DoingsOf(g, q)[w] == es[w - |ds|];
    }
  }

  lemma OfferHandled(g: Fleet, q: PeerId, ds: seq<Effect>, s: LoopState, id: RequestId, offer: TradeOffer, dup: bool)
    requires DoingsOf(g, q) == ds + EventTurn(s, OfferRequested(id, offer)).effects
    requires HasSent(g, id, q, OfferPayload(offer)) && OfferArrived(TradeKey(id.from, q, offer), dup) in g.log
    ensures NewHandled(g, q, |ds|)
  {
    hide DoingsOf, HasSent;
    var notice := Emit(InboundTradeOffer(offer.offeredFileName, id.from, offer.requestedFileName));
    assert DoingsOf(g, q) == ds + [Respond(id, NoResponse), notice];
    Behaves(g, id, q, OfferPayload(offer));
    assert Handled(g, q, |ds|);
  }

  lemma Behaves(f: Fleet, id: RequestId, to: PeerId, payload: Payload)
    requires HasSent(f, id, to, payload)
    ensures id.behaviour == BehaviourOf(payload)
  {
  }

  lemma MessageHandled(g: Fleet, q: PeerId, ds: seq<Effect>, s: LoopState, id: RequestId, message: string)
    requires DoingsOf(g, q) == ds + EventTurn(s, DirectRequested(id, message)).effects
    requires HasSent(g, id, q, DirectPayload(message))
    ensures NewHandled(g, q, |ds|)
  {
    hide DoingsOf, HasSent;
    assert DoingsOf(g, q) == ds + [Emit(InboundDirectMessage(id.from, message)), Respond(id, NoResponse)];
    Behaves(g, id, q, DirectPayload(message));
    assert Handled(g, q, |ds| + 1);
  }

  lemma AnswerHandled(g: Fleet, q: PeerId, ds: seq<Effect>, s: LoopState, id: RequestId, response: TradeResponse)
    requires DoingsOf(g, q) == ds + EventTurn(s, AnswerRequested(id, response)).effects
    requires HasSent(g, id, q, AnswerPayload(response))
    ensures NewHandled(g, q, |ds|)
  {
    hide DoingsOf, HasSent, EventTurn;
    var es := EventTurn(s, AnswerRequested(id, response)).effects;
    EventPrompts(s, AnswerRequested(id, response));
    Behaves(g, id, q, AnswerPayload(response));
    forall w: nat | |ds| <= w < |DoingsOf(g, q)|
      ensures Followed(g, q, w) && (DoingsOf(g, q)[w].Respond? ==> Handled(g, q, w))
    {
      var e := es[w - |ds|];
      assert DoingsOf(g, q)[w] == e && e in es;
      assert Prompted(s, AnswerRequested(id, response), e);
    }
  }

  lemma ArrivalHandled(f: Fleet, id: RequestId)
    requires WireSent(f) && Possible(f, Arrival(id))
    ensures NewHandled(Acted(f, Arrival(id)), f.wire[id].to, |DoingsOf(f, f.wire[id].to)|)
  {
    hide HasSent, DoingsOf, EventTurn, NewHandled, NodeMachine.Next, NodeMachine.Enabled;
    var g := Acted(f, Arrival(id));
    var Envelope(q, payload) := f.wire[id];
    var s := f.nodes[q].loop;
    DoingsGrow(f, Arrival(id), q);
    DoingsGrow(f, Arrival(id), id.from);
    StillSent(f, g, id, q, payload);
    match payload
    case OfferPayload(offer) =>
      OfferHandled(g, q, DoingsOf(f, q), s, id, offer, (id.from, offer) in s.offers.inbound);
    case AnswerPayload(response) => AnswerHandled(g, q, DoingsOf(f, q), s, id, response);
    case DirectPayload(message) => MessageHandled(g, q, DoingsOf(f, q), s, id, message);
  }

  /** Only an arrival replies or shows a direct message. */
  lemma OthersSilent(f: Fleet, st: Act, q: PeerId)
    requires Possible(f, st) && !st.Arrival?
    ensures forall e | e in NewDoings(f, st, q) :: Silent(e)
  {
    hide CommandTurn, EventTurn;
    if Turns(f, st, q) {
      var s := NodeStep(f, st).value;
      var n := f.nodes[s.0];
      if s.1.TakeCommand? { CommandOrders(n.loop, n.main.command); } else { EventPrompts(n.loop, s.1.event); }
    }
  }

  lemma ActHandled(f: Fleet, st: Act, q: PeerId)
    requires WireSent(f) && AllHandled(f, q) && Possible(f, st)
    ensures AllHandled(Acted(f, st), q)
  {
    hide Acted, Takes, NodeMachine.Enabled, DoingsOf, NewDoings, WireSent, Handled, Followed;
    var g := Acted(f, st);
    DoingsGrow(f, st, q);
    FleetSwaps.ActAdds(f, st);
    forall p ensures DoneBy(f.done, p) <= DoneBy(g.done, p) { DoingsGrow(f, st, p); }
    if st.Arrival? && q == f.wire[st.id].to {
      ArrivalHandled(f, st.id);
    } else {
      SilentElsewhere(f, st, q);
      SilentHandled(g, q, DoingsOf(f, q), NewDoings(f, st, q));
    }
    forall w: nat | w < |DoingsOf(g, q)|
      ensures Followed(g, q, w) && (DoingsOf(g, q)[w].Respond? ==> Handled(g, q, w))
    {
      if w < |DoingsOf(f, q)| { StillHandled(f, g, q, w); }
    }
  }

  lemma SilentElsewhere(f: Fleet, st: Act, q: PeerId)
    requires Possible(f, st) && !(st.Arrival? && q == f.wire[st.id].to)
    ensures forall e | e in NewDoings(f, st, q) :: Silent(e)
  {
    hide CommandTurn, EventTurn;
    if !st.Arrival? { OthersSilent(f, st, q); }
  }

  // ---------- a request is replied to once ----------

  predicate RepliesAt(f: Fleet, q: PeerId, w: nat, id: RequestId) {
    w < |DoingsOf(f, q)| && DoingsOf(f, q)[w].Respond? && DoingsOf(f, q)[w].channel == id
  }

  ghost predicate RepliedOnce(f: Fleet) {
    forall id, q, w, q', w' | RepliesAt(f, q, w, id) && RepliesAt(f, q', w', id) :: q == q' && w == w'
  }

  /** A request under way has not been replied to. */
  ghost predicate WireUnanswered(f: Fleet) { forall id, q, w | RepliesAt(f, q, w, id) :: id !in f.wire }

  ghost predicate RepliesDone(f: Fleet) {
    forall id | id in f.replies :: exists q :: Respond(id, f.replies[id]) in DoneBy(f.done, q)
  }

  /** A new reply is the one to the request that arrives, and the only one of its turn. */
  lemma NewReply(f: Fleet, st: Act, q: PeerId, w: nat, id: RequestId)
    requires Possible(f, st) && RepliesAt(Acted(f, st), q, w, id) && !RepliesAt(f, q, w, id)
    ensures st == Arrival(id) && q == f.wire[id].to
    ensures forall v | RepliesAt(Acted(f, st), q, v, id) && !RepliesAt(f, q, v, id) :: v == w
  {
    hide Acted, DoingsOf, NodeMachine.Enabled, Takes, EventTurn, TurnOf;
    DoingsGrow(f, st, q);
    var ds, es := DoingsOf(f, q), NewDoings(f, st, q);
    assert DoingsOf(Acted(f, st), q)[w] == es[w - |ds|] && es[w - |ds|] in es;
    if !(st.Arrival? && q == f.wire[st.id].to) {
      SilentElsewhere(f, st, q);
    } else {
      NewReplyArrives(f, st.id);
      forall v: nat | RepliesAt(Acted(f, st), q, v, id) && !RepliesAt(f, q, v, id) ensures v == w {
        assert DoingsOf(Acted(f, st), q)[v] == es[v - |ds|];
      }
    }
  }

  lemma OneReply(s: LoopState, ev: SwarmEvent)
    ensures
      var es := EventTurn(s, ev).effects;
      forall i, j | 0 <= i < j < |es| :: !es[i].Respond? || !es[j].Respond?
  {
  }

  lemma NewReplyArrives(f: Fleet, id: RequestId)
    requires Possible(f, Arrival(id))
    ensures
      var es := NewDoings(f, Arrival(id), f.wire[id].to);
      && (forall e | e in es && e.Respond? :: e.channel == id)
      && (forall i, j | 0 <= i < j < |es| :: !es[i].Respond? || !es[j].Respond?)
  {
    hide EventTurn, NodeMachine.Enabled;
    var s, ev := f.nodes[f.wire[id].to].loop, ArrivalEvent(id, f.wire[id].payload);
    EventPrompts(s, ev);
    OneReply(s, ev);
  }

  lemma SentBefore(f0: Fleet, steps: seq<Act>, f: Fleet, q: PeerId, w: nat, id: RequestId)
    requires AllCaused(f0, steps, f) && RepliesAt(f, q, w, id)
    ensures exists payload :: HasSent(f, id, q, payload)
  {
    hide DoingsOf, HasSent;
    var e := DoingsOf(f, q)[w];
    assert e in DoingsOf(f, q) && Caused(f0, steps, f, q, e);
  }

  /** Who sends `id` now has not sent it before. */
  lemma NotSentTwice(f: Fleet, p: PeerId, id: RequestId, to: PeerId, payload: Payload)
    requires NamedOnce(f, p) && TodoOf(f, p) != [] && TodoOf(f, p)[0].Send? && NameOf(p, TodoOf(f, p)[0]) == id
    ensures !HasSent(f, id, to, payload)
  {
    hide TodoOf;
    var done := DoneBy(f.done, p);
    assert DoingsOf(f, p)[|done|] == TodoOf(f, p)[0];
    forall k | 0 <= k < |done| ensures done[k] != Send(id.number, to, payload) || BehaviourOf(payload) != id.behaviour {
      assert DoingsOf(f, p)[k] == done[k];
    }
  }

  lemma WireChange(f: Fleet, st: Act, id: RequestId)
    requires Possible(f, st) && id in Acted(f, st).wire
    ensures st != Arrival(id)
    ensures id in f.wire || (DeedOf(f, st).Some? && DeedOf(f, st).value.peer == id.from
                             && TodoOf(f, id.from) != [] && TodoOf(f, id.from)[0].Send?
                             && NameOf(id.from, TodoOf(f, id.from)[0]) == id)
  {
    hide NodeMachine.Next, CommandTurn, EventTurn, CommandEntries, ArrivalEntries, ToldEntries, LossEntries, Takes;
  }

  lemma StaysUnanswered(f0: Fleet, steps: seq<Act>, f: Fleet, st: Act)
    requires AllCaused(f0, steps, f) && WireUnanswered(f) && Possible(f, st) && forall p :: NamedOnce(f, p)
    ensures WireUnanswered(Acted(f, st))
  {
    hide Acted, Possible, AllCaused, NamedOnce, RepliesAt, DeedOf;
    var g := Acted(f, st);
    forall id, q, w | RepliesAt(g, q, w, id) ensures id !in g.wire {
      if id in g.wire {
        WireChange(f, st, id);
        if !RepliesAt(f, q, w, id) {
          NewReply(f, st, q, w, id);
        } else if id !in f.wire {
          SentBefore(f0, steps, f, q, w, id);
          var payload :| HasSent(f, id, q, payload);
          NotSentTwice(f, id.from, id, q, payload);
        }
      }
    }
  }

  lemma StaysRepliedOnce(f: Fleet, st: Act)
    requires RepliedOnce(f) && WireUnanswered(f) && Possible(f, st)
    ensures RepliedOnce(Acted(f, st))
  {
    hide Acted, RepliesAt, NodeMachine.Enabled, Takes;
    var g := Acted(f, st);
    forall id, q, w, q', w' | RepliesAt(g, q, w, id) && RepliesAt(g, q', w', id) ensures q == q' && w == w' {
      if !RepliesAt(f, q, w, id) { NewReply(f, st, q, w, id); }
      if !RepliesAt(f, q', w', id) { NewReply(f, st, q', w', id); }
    }
  }

  lemma ReplyChange(f: Fleet, st: Act, id: RequestId)
    requires Possible(f, st) && id in Acted(f, st).replies
    ensures
      var body, d := Acted(f, st).replies[id], DeedOf(f, st);
      (id in f.replies && body == f.replies[id]) || (d.Some? && d.value.effect == Respond(id, body))
  {
    hide NodeMachine.Next, CommandTurn, EventTurn, CommandEntries, ArrivalEntries, ToldEntries, LossEntries, Takes;
  }

  lemma RepliesStayDone(f: Fleet, st: Act)
    requires RepliesDone(f) && Possible(f, st)
    ensures RepliesDone(Acted(f, st))
  {
    hide Acted, Possible, DoneBy, DeedOf;
    var g := Acted(f, st);
    forall id | id in g.replies ensures exists q :: Respond(id, g.replies[id]) in DoneBy(g.done, q) {
      ReplyChange(f, st, id);
      if id in f.replies && g.replies[id] == f.replies[id] {
        var q :| Respond(id, f.replies[id]) in DoneBy(f.done, q);
        DoneAfter(f, st, q);
        assert Respond(id, g.replies[id]) in DoneBy(g.done, q);
      } else {
        var q := DeedOf(f, st).value.peer;
        DoneAfter(f, st, q);
        assert Respond(id, g.replies[id]) in DoneBy(g.done, q);
      }
    }
  }

  // ---------- every run ----------

  ghost predicate Lettered(f0: Fleet, steps: seq<Act>, f: Fleet) {
    && Originated(f0, steps, f)
    && (forall p :: NamedOnce(f, p) && AllHandled(f, p))
    && RepliedOnce(f) && WireUnanswered(f) && RepliesDone(f)
  }

  lemma StepLettered(f0: Fleet, steps: seq<Act>, f: Fleet, st: Act)
    requires Lettered(f0, steps, f) && Possible(f, st)
    ensures Lettered(f0, steps + [st], Acted(f, st))
  {
    hide SameConfigs, MainsAsked, WireSent, AllCaused, NamedOnce, AllHandled, RepliedOnce, WireUnanswered, RepliesDone,
         Acted, Possible;
    StepOriginated(f0, steps, f, st);
    forall p ensures NamedOnce(Acted(f, st), p) && AllHandled(Acted(f, st), p) {
      ActNamed(f, st, p);
      ActHandled(f, st, p);
    }
    StaysUnanswered(f0, steps, f, st);
    StaysRepliedOnce(f, st);
    RepliesStayDone(f, st);
  }

  lemma StartLettered(f: Fleet)
    requires Fresh(f)
    ensures Lettered(f, [], f)
  {
    hide Originated, Handled, Followed;
    StartOriginated(f);
    forall q ensures DoingsOf(f, q) == [] { }
  }

  lemma {:induction false} RunLettered(f0: Fleet, steps: seq<Act>)
    requires Fresh(f0) && Run(f0, steps)
    ensures Lettered(f0, steps, End(f0, steps))
    decreases |steps|
  {
    hide Lettered, Acted, Possible, Fresh;
    if steps == [] {
      StartLettered(f0);
    } else {
      LastStep(f0, steps);
      var before := steps[..|steps| - 1];
      RunLettered(f0, before);
      StepLettered(f0, before, End(f0, before), steps[|steps| - 1]);
    }
  }

  /** Every direct message a peer shows, or is about to show, was typed and really sent
      to it by the peer it names, in the request that it replies to right afterwards. */
  lemma ShownWasSent(f0: Fleet, steps: seq<Act>, q: PeerId, w: nat) returns (id: RequestId, c: Command)
    requires Fresh(f0) && Run(f0, steps)
    requires
      var ds := DoingsOf(End(f0, steps), q);
      w < |ds| && ds[w].Emit? && ds[w].event.InboundDirectMessage?
    ensures
      var g, ds := End(f0, steps), DoingsOf(End(f0, steps), q);
      var InboundDirectMessage(p, message) := ds[w].event;
      && id.from == p && HasSent(g, id, q, DirectPayload(message))
      && w + 1 < |ds| && ds[w + 1] == Respond(id, NoResponse)
      && At(p, Issue(c)) in steps && c.DirectMessage? && c.peer == q && c.message == message
  {
    hide Run, End, NamedOnce, RepliedOnce, WireUnanswered, RepliesDone, SameConfigs, MainsAsked, WireSent, DoingsOf;
    RunLettered(f0, steps);
    var g, ds := End(f0, steps), DoingsOf(End(f0, steps), q);
    assert AllHandled(g, q) && Followed(g, q, w) && Handled(g, q, w + 1);
    id := ds[w + 1].channel;
    var message :| HasSent(g, id, q, DirectPayload(message)) && ds[w] == Emit(InboundDirectMessage(id.from, message));
    c := AskedFor(f0, steps, g, id, q, DirectPayload(message));
  }

  lemma AskedFor(f0: Fleet, steps: seq<Act>, g: Fleet, id: RequestId, q: PeerId, payload: Payload) returns (c: Command)
    requires AllCaused(f0, steps, g) && HasSent(g, id, q, payload)
    ensures At(id.from, Issue(c)) in steps && Asks(c, q, payload)
  {
    var e := Send(id.number, q, payload);
    assert e in DoingsOf(g, id.from) && Caused(f0, steps, g, id.from, e);
    c :| At(id.from, Issue(c)) in steps && Asks(c, q, payload);
  }

  /** No request is shown twice, by one peer or by two. */
  lemma ShownOnce(f0: Fleet, steps: seq<Act>, id: RequestId, q: PeerId, w: nat, q': PeerId, w': nat)
    requires Fresh(f0) && Run(f0, steps)
    requires RepliesAt(End(f0, steps), q, w, id) && RepliesAt(End(f0, steps), q', w', id)
    ensures q == q' && w == w'
  {
    hide RepliesAt, Originated, NamedOnce, AllHandled, WireUnanswered, RepliesDone;
    RunLettered(f0, steps);
  }
}
