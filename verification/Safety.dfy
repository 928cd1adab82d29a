/** Lifecycle safety over every run, and the discipline of a single microstep. */
module Safety {
  import opened Base
  import opened StateForest
  import opened Lifecycle
  import opened Operations
  import opened Reconciling
  import opened Running
  import opened Consuming
  import opened Hubs
  import opened Routing
  import opened Machines

  /** The lifecycle steps among the callbacks. */
  function MovesIn(calls: seq<Call>): seq<Move> {
    if calls == [] then []
    else
      match calls[0]
      case Exited(s, _) => [Exit(s)] + MovesIn(calls[1..])
      case Entered(s, _) => [Enter(s)] + MovesIn(calls[1..])
      case _ => MovesIn(calls[1..])
  }

  lemma {:induction false} MovesConcat(a: seq<Call>, b: seq<Call>)
    ensures MovesIn(a + b) == MovesIn(a) + MovesIn(b)
    decreases |a|
  {
    if a == [] {
      assert a + b == b;
    } else {
      assert (a + b)[1..] == a[1..] + b;
      MovesConcat(a[1..], b);
    }
  }

  lemma {:induction false} VisitMoves(bs: Behaviors, tr: Transit, states: seq<State>, entering: bool, context: Context)
    ensures MovesIn(Visit(bs, tr, states, entering, context).calls) ==
            if entering then Enters(states) else Exits(states)
  {
    if states != [] {
      var first := VisitOne(bs, tr, states[0], entering, context);
      MovesConcat(first.calls, Visit(bs, tr, states[1..], entering, first.context).calls);
      assert first.calls[1..] == [];
      VisitMoves(bs, tr, states[1..], entering, first.context);
    }
  }

  lemma TransitionMoves(f: Forest, bs: Behaviors, current: State, target: State, context: Context)
    requires Shaped(f)
    ensures MovesIn(TransitionTrace(f, bs, current, target, context).calls) == MovesOf(Propose(f, current, target))
  {
    var p := Propose(f, current, target);
    var tr := Transit(current, target, p.exits, p.enters);
    var out := Visit(bs, tr, p.exits, false, context);
    VisitMoves(bs, tr, p.exits, false, context);
    VisitMoves(bs, tr, p.enters, true, out.context);
    MovesConcat(out.calls, Visit(bs, tr, p.enters, true, out.context).calls);
  }

  lemma {:induction false} NoMoves(calls: seq<Call>)
    requires forall c :: c in calls ==> c.Heard?
    ensures MovesIn(calls) == []
  {
    if calls != [] {
      assert calls[0] in calls;
      NoMoves(calls[1..]);
    }
  }

  lemma {:induction false} BubbleHeard(f: Forest, bs: Behaviors, at: State, current: State, e: Event, context: Context)
    requires Shaped(f)
    ensures forall c :: c in Bubble(f, bs, at, current, e, context).trace.calls ==>
              c.Heard? && c.event == e && c.current == current
    decreases at
  {
    var here := HearOne(bs, at, current, e, context);
    if here.reply.Ignored? && ParentOf(f, at).Some? {
      BubbleHeard(f, bs, ParentOf(f, at).value, current, e, here.trace.context);
    }
  }

  /** The active states are the ancestor path of the current one: replaying all exits and enters so
      far, from the detached state, neither fails nor ends anywhere else. */
  ghost predicate Tracked(f: Forest, m: MachineState)
    requires Shaped(f)
  {
    Replay(f, [NIL], MovesIn(m.calls)) == Some(Path(f, m.current))
  }

  lemma ApplyTracked(w: World, m: MachineState)
    requires WorldOk(w) && Tracked(w.tree, m)
    ensures Tracked(w.tree, ApplyPhase(w, m))
  {
    if m.slot.Some? {
      var target := m.slot.value.target;
      var t := TransitionTrace(w.tree, w.behaviors, m.current, target, m.context);
      TransitionMoves(w.tree, w.behaviors, m.current, target, m.context);
      MovesConcat(m.calls + [Applied(m.slot.value)], t.calls);
      MovesConcat(m.calls, [Applied(m.slot.value)]);
      assert MovesIn([Applied(m.slot.value)]) == [];
      assert MovesIn(m.calls) + [] == MovesIn(m.calls);
      ReplayConcat(w.tree, [NIL], MovesIn(m.calls), MovesIn(t.calls));
      ProposeReplays(w.tree, m.current, target);
    }
  }

  lemma {:induction false} DispatchMoves(w: World, m: MachineState)
    requires WorldOk(w)
    ensures MovesIn(DispatchPhase(w, m).calls) == MovesIn(m.calls)
    decreases |m.ready|
  {
    if m.ready != [] {
      var e := m.ready[0];
      var a := Bubble(w.tree, w.behaviors, m.current, m.current, e, m.context);
      BubbleHeard(w.tree, w.behaviors, m.current, m.current, e, m.context);
      NoMoves(a.trace.calls);
      MovesConcat(m.calls + [Dispatched(e)], a.trace.calls);
      MovesConcat(m.calls, [Dispatched(e)]);
      assert MovesIn([Dispatched(e)]) == [];
      DispatchMoves(w, DispatchOne(w, m.(ready := m.ready[1..]), e));
    }
  }

  lemma ReactTracked(w: World, m: MachineState, x: Input)
    requires WorldOk(w) && HubOk(m.hub) && Tracked(w.tree, m)
    ensures Tracked(w.tree, React(w, m, x))
  {
    if x.Turn? {
      var (d, any) := DrainPhase(w, CommitPhase(w, m));
      ApplyTracked(w, d);
      DispatchMoves(w, ApplyPhase(w, d));
      DispatchKeeps(w, ApplyPhase(w, d));
    }
  }

  /** For arbitrary behaviors, consumers and arbiters and any run of inputs, the stack of active
      states is tracked at every point of the run. */
  lemma {:induction false} RunTracked(w: World, m: MachineState, inputs: seq<Input>)
    requires WorldOk(w) && HubOk(m.hub) && Tracked(w.tree, m)
    ensures Tracked(w.tree, Run(w, m, inputs))
    decreases |inputs|
  {
    if inputs != [] {
      ReactTracked(w, m, inputs[0]);
      ReactHub(w, m, inputs[0]);
      RunTracked(w, React(w, m, inputs[0]), inputs[1..]);
    }
  }

  /** Lifecycle safety from birth, whatever the context and the consumers: no prefix of the lifecycle
      steps is ever illegal, the steps lead from the detached state to the path of the current state,
      and a state is entered as often as it is exited, plus once if it is active, less the one exit
      of the detached initial state. */
  lemma LifecycleSafe(w: World, born: MachineState, inputs: seq<Input>, k: nat, s: State)
    requires WorldOk(w) && HubOk(born.hub) && born.current == NIL && born.calls == []
    ensures var m := Run(w, born, inputs); var moves := MovesIn(m.calls);
      && Replay(w.tree, [NIL], moves) == Some(Path(w.tree, m.current))
      && (k <= |moves| ==> Replay(w.tree, [NIL], moves[..k]).Some?)
      && Count(moves, Enter(s)) + (if s == NIL then 1 else 0) ==
         Count(moves, Exit(s)) + (if s in Path(w.tree, m.current) then 1 else 0)
  {
    var m := Run(w, born, inputs);
    var moves := MovesIn(m.calls);
    assert Path(w.tree, NIL) == [NIL];
    RunTracked(w, born, inputs);
    if k <= |moves| {
      assert moves == moves[..k] + moves[k..];
      ReplayConcat(w.tree, [NIL], moves[..k], moves[k..]);
    }
    ReplayCounts(w.tree, [NIL], moves, s);
    PathCount(w.tree, m.current, s);
  }
}
