/** The global chat, as far as gossipsub leaves it to a peer: everything delivered is shown,
    once and in order, and everything its user says is published, once and in order. */
module Chats {
  import opened Protocol
  import opened Handlers
  import opened NodeMachine
  import opened Fleet
  import opened Doings

  /** The chat notices among effects. */
  function ShownIn(es: seq<Effect>): seq<(PeerId, string)> {
    if es == [] then []
    else
      var last := es[|es| - 1];
      ShownIn(es[..|es| - 1]) +
        if last.Emit? && last.event.InboundChat? then [(last.event.peer, last.event.message)] else []
  }

  /** What effects publish. */
  function SaidIn(es: seq<Effect>): seq<string> {
    if es == [] then []
    else
      var last := es[|es| - 1];
      SaidIn(es[..|es| - 1]) + if last.Publish? then [last.message] else []
  }

  /** The chats gossipsub delivers to peer `q` in a run. */
  function Delivered(steps: seq<Act>, q: PeerId): seq<(PeerId, string)> {
    if steps == [] then []
    else
      var before, last := Delivered(steps[..|steps| - 1], q), steps[|steps| - 1];
      match last
      case At(p, SwarmReport(ChatReceived(peer, message))) => if p == q then before + [(peer, message)] else before
      case _ => before
  }

  /** The chats that the loop of peer `q` takes from its main in a run from `f`. */
  function Asked(f: Fleet, steps: seq<Act>, q: PeerId): seq<string>
    requires Run(f, steps)
    decreases |steps|
  {
    if steps == [] then []
    else
      LastStep(f, steps);
      var before, last := steps[..|steps| - 1], steps[|steps| - 1];
      var n := End(f, before).nodes;
      Asked(f, before, q) +
        if last == At(q, TakeCommand) && n[q].main.command.SendChatMessage? then [n[q].main.command.message] else []
  }

  lemma {:induction false} ChatsAdd(a: seq<Effect>, b: seq<Effect>)
    ensures ShownIn(a + b) == ShownIn(a) + ShownIn(b) && SaidIn(a + b) == SaidIn(a) + SaidIn(b)
    decreases |b|
  {
    if b == [] {
      assert a + b == a;
    } else {
      assert (a + b)[..|a + b| - 1] == a + b[..|b| - 1];
      ChatsAdd(a, b[..|b| - 1]);
    }
  }

  predicate Chatty(e: Effect) { e.Publish? || (e.Emit? && e.event.InboundChat?) }

  lemma {:induction false} NoChats(es: seq<Effect>)
    requires forall e | e in es :: !Chatty(e)
    ensures ShownIn(es) == [] && SaidIn(es) == []
    decreases |es|
  {
    if es != [] {
      assert es[|es| - 1] in es;
      NoChats(es[..|es| - 1]);
    }
  }

  lemma OneSaid(e: Effect)
    ensures SaidIn([e]) == if e.Publish? then [e.message] else []
    ensures ShownIn([e]) == if e.Emit? && e.event.InboundChat? then [(e.event.peer, e.event.message)] else []
  {
    assert [e][..0] == [];
  }

  lemma CommandChats(s: LoopState, c: Command)
    ensures
      var es := CommandTurn(s, c).effects;
      ShownIn(es) == [] && SaidIn(es) == if c.SendChatMessage? then [c.message] else []
  {
    var es := CommandTurn(s, c).effects;
    if c.SendChatMessage? {
      assert es == [es[0]] + [es[1]];
      ChatsAdd([es[0]], [es[1]]);
      OneSaid(es[0]);
      OneSaid(es[1]);
    } else {
      NoChats(es);
    }
  }

  lemma EventChats(s: LoopState, ev: SwarmEvent)
    ensures
      var es := EventTurn(s, ev).effects;
      SaidIn(es) == [] && ShownIn(es) == if ev.ChatReceived? then [(ev.peer, ev.message)] else []
  {
    var es := EventTurn(s, ev).effects;
    if ev.ChatReceived? {
      assert es[..0] == [];
    } else {
      NoChats(es);
    }
  }

  lemma StepChats(f: Fleet, st: Act, q: PeerId)
    requires Possible(f, st)
    ensures SaidIn(NewDoings(f, st, q)) ==
              if st == At(q, TakeCommand) && f.nodes[q].main.command.SendChatMessage?
              then [f.nodes[q].main.command.message] else []
    ensures ShownIn(NewDoings(f, st, q)) ==
              if st.At? && st.peer == q && st.step.SwarmReport? && st.step.event.ChatReceived?
              then [(st.step.event.peer, st.step.event.message)] else []
  {
    hide CommandTurn, EventTurn, ShownIn, SaidIn;
    if Turns(f, st, q) {
      var n, s := f.nodes[q], NodeStep(f, st).value.1;
      if s.TakeCommand? { CommandChats(n.loop, n.main.command); } else { EventChats(n.loop, s.event); }
    } else {
      NoChats([]);
    }
  }

  /** In every run peer `q` has shown, or is just about to show, exactly the chats that
      were delivered to it, and published exactly those its user asked for, each once and
      in order. */
  lemma {:induction false} ChatsAsDelivered(f: Fleet, steps: seq<Act>, q: PeerId)
    requires Fresh(f) && Run(f, steps)
    ensures ShownIn(DoingsOf(End(f, steps), q)) == Delivered(steps, q)
    ensures SaidIn(DoingsOf(End(f, steps), q)) == Asked(f, steps, q)
    decreases |steps|
  {
    hide Acted, NodeMachine.Enabled, Fresh, ShownIn, SaidIn, DoingsOf, NewDoings;
    if steps == [] {
      NothingDone(f, q);
      NoChats([]);
    } else {
      LastStep(f, steps);
      var before, last := steps[..|steps| - 1], steps[|steps| - 1];
      ChatsAsDelivered(f, before, q);
      DoingsGrow(End(f, before), last, q);
      ChatsAdd(DoingsOf(End(f, before), q), NewDoings(End(f, before), last, q));
      StepChats(End(f, before), last, q);
    }
  }

  lemma NothingDone(f: Fleet, q: PeerId)
    requires Fresh(f)
    ensures DoingsOf(f, q) == []
  {
  }
}
