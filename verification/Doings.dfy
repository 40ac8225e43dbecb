/** Everything a peer of a fleet has done and is set to do, in order. Only a new turn
    adds to it; performing an effect moves the border between the two and no more. */
module Doings {
  import opened Protocol
  import opened Handlers
  import opened SwapNetwork
  import opened NodeMachine
  import opened Fleet
  import opened FleetDeeds

  function DoneBy(done: seq<Deed>, p: PeerId): seq<Effect> {
    if done == [] then []
    else
      var last := done[|done| - 1];
      DoneBy(done[..|done| - 1], p) + if last.peer == p then [last.effect] else []
  }

  /** What peer `p` has done, and then what its running handler has still to do. */
  function DoingsOf(f: Fleet, p: PeerId): seq<Effect> { DoneBy(f.done, p) + TodoOf(f, p) }

  /** The turn that starts with a step, and whose it is. */
  function TurnOf(f: Fleet, st: Act): Option<(PeerId, Turn)>
    requires Possible(f, st)
  {
    var s := NodeStep(f, st);
    if s.None? || s.value.0 !in f.nodes then None
    else
      var n := f.nodes[s.value.0];
      match s.value.1
      case TakeCommand => if n.main.Sending? then Some((s.value.0, CommandTurn(n.loop, n.main.command))) else None
      case SwarmReport(e) => Some((s.value.0, EventTurn(n.loop, e)))
      case _ => None
  }

  predicate Turns(f: Fleet, st: Act, q: PeerId)
    requires Possible(f, st)
  {
    TurnOf(f, st).Some? && TurnOf(f, st).value.0 == q
  }

  function NewDoings(f: Fleet, st: Act, q: PeerId): seq<Effect>
    requires Possible(f, st)
  {
    if Turns(f, st, q) then TurnOf(f, st).value.1.effects else []
  }

  /** The effect a step performs. */
  function DeedOf(f: Fleet, st: Act): Option<Deed>
    requires Possible(f, st)
  {
    if st.At? && (st.step.Work? || st.step.TakeEvent?) then Some(Deed(st.peer, f.nodes[st.peer].todo[0])) else None
  }

  lemma DeedsAfter(f: Fleet, st: Act)
    requires Possible(f, st)
    ensures
      var d := DeedOf(f, st);
      Acted(f, st).done == f.done + if d.Some? then [d.value] else []
  {
    hide NodeMachine.Next, CommandTurn, EventTurn, CommandEntries, ArrivalEntries, ToldEntries, LossEntries;
  }

  lemma DoneAfter(f: Fleet, st: Act, q: PeerId)
    requires Possible(f, st)
    ensures
      var d := DeedOf(f, st);
      DoneBy(Acted(f, st).done, q) == DoneBy(f.done, q) + if d.Some? && d.value.peer == q then [d.value.effect] else []
  {
    hide Acted, Possible;
    DeedsAfter(f, st);
    var d, done := DeedOf(f, st), Acted(f, st).done;
    if d.Some? {
      assert done[..|done| - 1] == f.done && done[|done| - 1] == d.value;
    }
    assert f.done + [] == f.done && DoneBy(f.done, q) + [] == DoneBy(f.done, q);
  }

  lemma TodoAfter(f: Fleet, st: Act, q: PeerId)
    requires Possible(f, st)
    ensures
      var d, g := DeedOf(f, st), Acted(f, st);
      if Turns(f, st, q) then TodoOf(f, q) == [] && TodoOf(g, q) == TurnOf(f, st).value.1.effects
      else if d.Some? && d.value.peer == q then TodoOf(f, q) == [d.value.effect] + TodoOf(g, q)
      else TodoOf(g, q) == TodoOf(f, q)
  {
    hide Acted, CommandTurn, EventTurn;
    NodesAfter(f, st);
  }

  /** Only a turn changes a peer's tables. */
  lemma LoopAfter(f: Fleet, st: Act, q: PeerId)
    requires Possible(f, st) && q in f.nodes
    ensures q in Acted(f, st).nodes && Acted(f, st).nodes[q].loop ==
              if Turns(f, st, q) then TurnOf(f, st).value.1.next else f.nodes[q].loop
  {
    hide Acted, CommandTurn, EventTurn;
    NodesAfter(f, st);
  }

  lemma DoingsGrow(f: Fleet, st: Act, q: PeerId)
    requires Possible(f, st)
    ensures DoingsOf(Acted(f, st), q) == DoingsOf(f, q) + NewDoings(f, st, q)
    ensures DoneBy(f.done, q) <= DoneBy(Acted(f, st).done, q)
  {
    hide Acted, Possible, DoneBy, TodoOf;
    DoneAfter(f, st, q);
    TodoAfter(f, st, q);
  }

  /** One step more at the end of a run. */
  lemma {:induction false} LastStep(f: Fleet, steps: seq<Act>)
    requires Run(f, steps) && steps != []
    ensures
      var before, last := steps[..|steps| - 1], steps[|steps| - 1];
      && steps == before + [last]
      && Run(f, before) && Possible(End(f, before), last) && End(f, steps) == Acted(End(f, before), last)
    decreases |steps|
  {
    hide Possible, Acted;
    if |steps| > 1 {
      var rest := steps[1..];
      LastStep(Acted(f, steps[0]), rest);
      assert steps[..|steps| - 1][1..] == rest[..|rest| - 1] && steps[..|steps| - 1][0] == steps[0];
    }
  }

  lemma {:induction false} RunsJoin(f: Fleet, a: seq<Act>, b: seq<Act>)
    requires Run(f, a) && Run(End(f, a), b)
    ensures Run(f, a + b) && End(f, a + b) == End(End(f, a), b)
    decreases |a|
  {
    hide Possible, Acted;
    if a == [] {
      assert a + b == b;
    } else {
      assert (a + b)[1..] == a[1..] + b && (a + b)[0] == a[0];
      RunsJoin(Acted(f, a[0]), a[1..], b);
    }
  }

  /** What is done stays done. */
  lemma {:induction false} DoingsStay(f: Fleet, steps: seq<Act>, q: PeerId)
    requires Run(f, steps)
    ensures DoingsOf(f, q) <= DoingsOf(End(f, steps), q) && DoneBy(f.done, q) <= DoneBy(End(f, steps).done, q)
    decreases |steps|
  {
    hide Possible, Acted, DoingsOf, DoneBy;
    if steps != [] {
      DoingsGrow(f, steps[0], q);
      DoingsStay(Acted(f, steps[0]), steps[1..], q);
    }
  }
}
