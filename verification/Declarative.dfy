/** A declarative `Transition` reply is the same as staging the request and replying `Handled`. */
module Declarative {
  import opened Base
  import opened StateForest
  import opened Operations
  import opened Reconciling
  import opened Running
  import opened Consuming
  import opened Hubs
  import opened Routing
  import opened Machines

  function RequestTo(target: State): Op {
    RequestOp(Request(target, NORMAL))
  }

  function StageInstead(r: Reaction): Reaction {
    if r.reply.Transition? then
      Reaction(Handled, Effect(r.effect.context, r.effect.ops + [RequestTo(r.reply.target)]))
    else r
  }

  /** The behavior that stages its request last instead of declaring it. */
  function ImperativeOne(b: Behavior): Behavior {
    b.(onEvent := (e: Event, current: State, context: Context) => StageInstead(b.onEvent(e, current, context)))
  }

  function Imperative(bs: Behaviors): Behaviors {
    map s | s in bs :: ImperativeOne(bs[s])
  }

  function ImperativeWorld(w: World): World {
    w.(behaviors := Imperative(w.behaviors))
  }

  lemma {:induction false} VisitSame(bs: Behaviors, tr: Transit, states: seq<State>, entering: bool, context: Context)
    ensures Visit(Imperative(bs), tr, states, entering, context) == Visit(bs, tr, states, entering, context)
  {
    if states != [] {
      var first := VisitOne(bs, tr, states[0], entering, context);
      assert VisitOne(Imperative(bs), tr, states[0], entering, context) == first;
      VisitSame(bs, tr, states[1..], entering, first.context);
    }
  }

  function AnswerInstead(a: Answer): Answer {
    if a.reply.Transition? then
      Answer(Handled, Trace(a.trace.context, a.trace.ops + [RequestTo(a.reply.target)], a.trace.calls))
    else a
  }

  lemma {:induction false} BubbleInstead(
    f: Forest, bs: Behaviors, at: State, current: State, e: Event, context: Context)
    requires Shaped(f)
    ensures Bubble(f, Imperative(bs), at, current, e, context) == AnswerInstead(Bubble(f, bs, at, current, e, context))
    decreases at
  {
    var here := HearOne(bs, at, current, e, context);
    assert HearOne(Imperative(bs), at, current, e, context) == AnswerInstead(here);
    if here.reply.Ignored? && ParentOf(f, at).Some? {
      var p := ParentOf(f, at).value;
      BubbleInstead(f, bs, p, current, e, here.trace.context);
      var up := Bubble(f, bs, p, current, e, here.trace.context);
      if up.reply.Transition? {
        assert here.trace.ops + (up.trace.ops + [RequestTo(up.reply.target)]) ==
               (here.trace.ops + up.trace.ops) + [RequestTo(up.reply.target)];
      }
    }
  }

  lemma ReplyInstead(b: Book, a: Answer)
    ensures StageReply(StageAll(b, AnswerInstead(a).trace.ops), AnswerInstead(a).reply) ==
            StageReply(StageAll(b, a.trace.ops), a.reply)
  {
    if a.reply.Transition? {
      StageAllConcat(b, a.trace.ops, [RequestTo(a.reply.target)]);
      var c := StageAll(b, a.trace.ops);
      assert StageAll(c, [RequestTo(a.reply.target)]) ==
             StageAll(Stage(c, RequestTo(a.reply.target), None), [RequestTo(a.reply.target)][1..]);
    }
  }

  lemma {:induction false} DispatchInstead(w: World, m: MachineState)
    requires WorldOk(w)
    ensures DispatchPhase(ImperativeWorld(w), m) == DispatchPhase(w, m)
    decreases |m.ready|
  {
    if m.ready != [] {
      var e, n := m.ready[0], m.(ready := m.ready[1..]);
      BubbleInstead(w.tree, w.behaviors, m.current, m.current, e, m.context);
      ReplyInstead(m.book, Bubble(w.tree, w.behaviors, m.current, m.current, e, m.context));
      assert DispatchOne(ImperativeWorld(w), n, e) == DispatchOne(w, n, e);
      DispatchInstead(w, DispatchOne(w, n, e));
    }
  }

  lemma ApplyInstead(w: World, m: MachineState)
    requires WorldOk(w)
    ensures ApplyPhase(ImperativeWorld(w), m) == ApplyPhase(w, m)
  {
    if m.slot.Some? {
      var target := m.slot.value.target;
      var p := Propose(w.tree, m.current, target);
      var tr := Transit(m.current, target, p.exits, p.enters);
      VisitSame(w.behaviors, tr, p.exits, false, m.context);
      VisitSame(w.behaviors, tr, p.enters, true, Visit(w.behaviors, tr, p.exits, false, m.context).context);
    }
  }

  lemma TurnInstead(w: World, m: MachineState)
    requires WorldOk(w)
    ensures MicroStep(ImperativeWorld(w), m) == MicroStep(w, m)
  {
    assert CommitPhase(ImperativeWorld(w), m) == CommitPhase(w, m);
    var d := DrainPhase(w, CommitPhase(w, m)).0;
    ApplyInstead(w, d);
    DispatchInstead(w, ApplyPhase(w, d));
  }

  lemma ReactInstead(w: World, m: MachineState, x: Input)
    requires WorldOk(w) && HubOk(m.hub)
    ensures React(ImperativeWorld(w), m, x) == React(w, m, x)
  {
    if x.Turn? {
      TurnInstead(w, m);
    }
  }

  /** Replacing every behavior by its imperative twin leaves every run unchanged: state, pool,
      context, queues, ledger and callback history, turn by turn. */
  lemma {:induction false} DeclarativeIsImperative(w: World, m: MachineState, inputs: seq<Input>)
    requires WorldOk(w) && HubOk(m.hub)
    ensures Run(ImperativeWorld(w), m, inputs) == Run(w, m, inputs)
    decreases |inputs|
  {
    if inputs != [] {
      ReactInstead(w, m, inputs[0]);
      ReactHub(w, m, inputs[0]);
      DeclarativeIsImperative(w, React(w, m, inputs[0]), inputs[1..]);
    }
  }
}
