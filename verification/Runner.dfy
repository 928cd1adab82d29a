/** The runner: exit and enter sequences, and events bubbling towards the root. */
module Running {
  import opened Base
  import opened StateForest
  import opened Operations
  import opened Reconciling

  type Context(!new)

  datatype EventReply = Handled | Ignored | Transition(target: State)

  /** What `on_exit` and `on_enter` are told about the transition. */
  datatype Transit = Transit(from: State, target: State, exits: seq<State>, enters: seq<State>)

  /** What a callback leaves behind: the context and the operations it staged, in order. */
  datatype Effect = Effect(context: Context, ops: seq<Op>)

  datatype Reaction = Reaction(reply: EventReply, effect: Effect)

  datatype Behavior = Behavior(
    onEnter: (Transit, Context) -> Effect,
    onExit: (Transit, Context) -> Effect,
    onEvent: (Event, State, Context) -> Reaction)

  type Behaviors = map<State, Behavior>

  /** The history of callbacks; `called` tells whether a behavior is registered for the state. */
  datatype Call =
    | Exited(s: State, called: bool)
    | Entered(s: State, called: bool)
    | Heard(s: State, event: Event, current: State)
    | Applied(request: Request)
    | Dispatched(event: Event)

  datatype Trace = Trace(context: Context, ops: seq<Op>, calls: seq<Call>)

  function Then(a: Trace, b: Trace): Trace {
    Trace(b.context, a.ops + b.ops, a.calls + b.calls)
  }

  function VisitOne(bs: Behaviors, tr: Transit, s: State, entering: bool, context: Context): Trace {
    var e := if s !in bs then Effect(context, [])
             else if entering then bs[s].onEnter(tr, context)
             else bs[s].onExit(tr, context);
    Trace(e.context, e.ops, [if entering then Entered(s, s in bs) else Exited(s, s in bs)])
  }

  function Visit(bs: Behaviors, tr: Transit, states: seq<State>, entering: bool, context: Context): Trace {
    if states == [] then Trace(context, [], [])
    else
      var first := VisitOne(bs, tr, states[0], entering, context);
      Then(first, Visit(bs, tr, states[1..], entering, first.context))
  }

  function TransitionTrace(f: Forest, bs: Behaviors, current: State, target: State, context: Context): Trace
    requires Shaped(f)
  {
    var p := Propose(f, current, target);
    var tr := Transit(current, target, p.exits, p.enters);
    var out := Visit(bs, tr, p.exits, false, context);
    Then(out, Visit(bs, tr, p.enters, true, out.context))
  }

  datatype Answer = Answer(reply: EventReply, trace: Trace)

  function HearOne(bs: Behaviors, s: State, current: State, e: Event, context: Context): Answer {
    if s !in bs then Answer(Ignored, Trace(context, [], []))
    else
      var r := bs[s].onEvent(e, current, context);
      Answer(r.reply, Trace(r.effect.context, r.effect.ops, [Heard(s, e, current)]))
  }

  /** Dispatch from `at` on: the first reply other than `Ignored` ends the climb. */
  function Bubble(f: Forest, bs: Behaviors, at: State, current: State, e: Event, context: Context): Answer
    requires Shaped(f)
    decreases at
  {
    var here := HearOne(bs, at, current, e, context);
    if !here.reply.Ignored? || ParentOf(f, at).None? then here
    else
      var up := Bubble(f, bs, ParentOf(f, at).value, current, e, here.trace.context);
      Answer(up.reply, Then(here.trace, up.trace))
  }

  // ---- Bubbling is a scan of the ancestor path ----

  /** Every state of the list hears the event in turn, whatever it replies. */
  function HearAll(bs: Behaviors, states: seq<State>, current: State, e: Event, context: Context): Trace {
    if states == [] then Trace(context, [], [])
    else
      var first := HearOne(bs, states[0], current, e, context).trace;
      Then(first, HearAll(bs, states[1..], current, e, first.context))
  }

  /** The reply of `states[i]` when the states before it have heard the event. */
  function ReplyAt(bs: Behaviors, states: seq<State>, i: nat, current: State, e: Event, context: Context): EventReply
    requires i < |states|
  {
    HearOne(bs, states[i], current, e, HearAll(bs, states[..i], current, e, context).context).reply
  }

  /** `n` states of the path are asked: exactly up to the first that does not ignore the event. */
  ghost predicate Scans(
    bs: Behaviors, path: seq<State>, current: State, e: Event, context: Context, a: Answer, n: nat) {
    && 0 < n <= |path|
    && a.trace == HearAll(bs, path[..n], current, e, context)
    && (forall i: nat :: i < n - 1 ==> ReplyAt(bs, path, i, current, e, context) == Ignored)
    && ReplyAt(bs, path, n - 1, current, e, context) == a.reply
    && (a.reply.Ignored? ==> n == |path|)
  }

  /** Dispatch asks exactly a prefix of the ancestor path, registered states only, threading the
      context, and answers with the first reply other than `Ignored`, or `Ignored` when every
      registered ancestor ignored the event. */
  lemma {:induction false} BubbleScans(f: Forest, bs: Behaviors, at: State, current: State, e: Event, context: Context)
    returns (n: nat)
    requires Shaped(f)
    ensures Scans(bs, Path(f, at), current, e, context, Bubble(f, bs, at, current, e, context), n)
    decreases at
  {
    var path, here := Path(f, at), HearOne(bs, at, current, e, context);
    assert ReplyAt(bs, path, 0, current, e, context) == here.reply by {
      assert path[..0] == [];
    }
    if !here.reply.Ignored? || ParentOf(f, at).None? {
      n := 1;
      assert path[..1] == [at] && path[..1][1..] == [];
      ThenNothing(here.trace);
    } else {
      var p, c := ParentOf(f, at).value, here.trace.context;
      var k := BubbleScans(f, bs, p, current, e, c);
      n := k + 1;
      assert path == [at] + Path(f, p);
      assert path[..n] == [at] + Path(f, p)[..k] && path[..n][1..] == Path(f, p)[..k];
      ReplyShift(bs, at, Path(f, p), k - 1, current, e, context);
      forall i: nat | i < n - 1 ensures ReplyAt(bs, path, i, current, e, context) == Ignored {
        if i > 0 {
          ReplyShift(bs, at, Path(f, p), i - 1, current, e, context);
        }
      }
    }
  }

  lemma ReplyShift(bs: Behaviors, s: State, rest: seq<State>, i: nat, current: State, e: Event, context: Context)
    requires i < |rest|
    ensures ReplyAt(bs, [s] + rest, i + 1, current, e, context) ==
            ReplyAt(bs, rest, i, current, e, HearOne(bs, s, current, e, context).trace.context)
  {
    var all := [s] + rest;
    assert all[..i + 1] == [s] + rest[..i] && all[..i + 1][1..] == rest[..i];
  }

  lemma ThenAssoc(a: Trace, b: Trace, c: Trace)
    ensures Then(a, Then(b, c)) == Then(Then(a, b), c)
  {
    assert a.ops + (b.ops + c.ops) == (a.ops + b.ops) + c.ops;
    assert a.calls + (b.calls + c.calls) == (a.calls + b.calls) + c.calls;
  }

  lemma ThenNothing(a: Trace)
    ensures Then(a, Trace(a.context, [], [])) == a
  {
  }

  /** Nobody registered on the path, nobody called: the calls are those of registered states. */
  lemma {:induction false} HearAllCalls(bs: Behaviors, states: seq<State>, current: State, e: Event, context: Context)
    ensures HearAll(bs, states, current, e, context).calls == Listening(bs, states, current, e)
  {
    if states != [] {
      HearAllCalls(bs, states[1..], current, e, HearOne(bs, states[0], current, e, context).trace.context);
    }
  }

  function Listening(bs: Behaviors, states: seq<State>, current: State, e: Event): seq<Call> {
    if states == [] then []
    else (if states[0] in bs then [Heard(states[0], e, current)] else []) + Listening(bs, states[1..], current, e)
  }

  // ---- The runner at work on an envelope ----

  /** The shared context together with the handle that stages into the reconciler. */
  class Envelope {
    var context: Context
    const reconciler: Reconciler
    ghost var calls: seq<Call>

    ghost predicate Valid() reads this, reconciler {
      reconciler.Valid()
    }

    /** The callbacks of `t` have run since the pool was `book` and the history was `before`. */
    ghost predicate Reached(book: Book, before: seq<Call>, t: Trace) reads this, reconciler {
      && context == t.context
      && calls == before + t.calls
      && reconciler.Model() == StageAll(book, t.ops)
    }

    constructor (context: Context, reconciler: Reconciler)
      ensures this.context == context && this.reconciler == reconciler && calls == []
    {
      this.context, this.reconciler, calls := context, reconciler, [];
    }

    method StageEffect(effect: Effect)
      requires Valid()
      modifies this`context, reconciler
      ensures Valid() && context == effect.context
      ensures reconciler.Model() == StageAll(old(reconciler.Model()), effect.ops)
    {
      context := effect.context;
      for k := 0 to |effect.ops|
        invariant Valid() && context == effect.context
        invariant StageAll(old(reconciler.Model()), effect.ops) == StageAll(reconciler.Model(), effect.ops[k..])
      {
        assert effect.ops[k..][1..] == effect.ops[k + 1..];
        var _ := reconciler.StageBoxed(effect.ops[k], None);
      }
    }

    /** Offer the event to one state. */
    method Hear(bs: Behaviors, s: State, current: State, e: Event) returns (reply: EventReply)
      requires Valid()
      modifies this, reconciler
      ensures Valid()
      ensures reply == HearOne(bs, s, current, e, old(context)).reply
      ensures Reached(old(reconciler.Model()), old(calls), HearOne(bs, s, current, e, old(context)).trace)
    {
      reply := Ignored;
      if s in bs {
        var r := bs[s].onEvent(e, current, context);
        StageEffect(r.effect);
        calls := calls + [Heard(s, e, current)];
        reply := r.reply;
      }
    }

    /** The same after some callbacks have run already. */
    method HearNext(
      bs: Behaviors, s: State, current: State, e: Event, ghost book: Book, ghost before: seq<Call>, ghost so: Trace)
      returns (reply: EventReply)
      requires Valid() && Reached(book, before, so)
      modifies this, reconciler
      ensures Valid() && reply == HearOne(bs, s, current, e, so.context).reply
      ensures Reached(book, before, Then(so, HearOne(bs, s, current, e, so.context).trace))
    {
      StageAllConcat(book, so.ops, HearOne(bs, s, current, e, so.context).trace.ops);
      reply := Hear(bs, s, current, e);
    }

    /** The callbacks of one list of a transition. */
    method VisitStates(bs: Behaviors, tr: Transit, states: seq<State>, entering: bool)
      requires Valid()
      modifies this, reconciler
      ensures Valid()
      ensures Reached(old(reconciler.Model()), old(calls), Visit(bs, tr, states, entering, old(context)))
    {
      ghost var whole := Visit(bs, tr, states, entering, context);
      ghost var so := Trace(context, [], []);
      assert whole == Then(so, whole);
      for k := 0 to |states|
        invariant Valid() && Reached(old(reconciler.Model()), old(calls), so)
        invariant whole == Then(so, Visit(bs, tr, states[k..], entering, context))
      {
        var s := states[k];
        ghost var step := VisitOne(bs, tr, s, entering, context);
        VisitStep(bs, tr, states, k, entering, so);
        StageAllConcat(old(reconciler.Model()), so.ops, step.ops);
        if s in bs {
          var effect := if entering then bs[s].onEnter(tr, context) else bs[s].onExit(tr, context);
          StageEffect(effect);
        }
        so := Then(so, step);
        calls := old(calls) + so.calls;
      }
      assert whole == so;
    }
  }

  lemma VisitStep(bs: Behaviors, tr: Transit, states: seq<State>, k: nat, entering: bool, so: Trace)
    requires k < |states|
    ensures var step := VisitOne(bs, tr, states[k], entering, so.context);
      Then(so, Visit(bs, tr, states[k..], entering, so.context)) ==
      Then(Then(so, step), Visit(bs, tr, states[k + 1..], entering, step.context))
  {
    assert states[k..][1..] == states[k + 1..];
  }

  /** Run the exits, then the enters, and report the target as the new state. */
  method RunTransition(
    f: Forest, bs: Behaviors, current: State, target: State, envelope: Envelope) returns (next: State)
    requires Shaped(f) && envelope.Valid()
    modifies envelope, envelope.reconciler
    ensures envelope.Valid() && next == target
    ensures envelope.Reached(old(envelope.reconciler.Model()), old(envelope.calls),
                             TransitionTrace(f, bs, current, target, old(envelope.context)))
  {
    var p := Propose(f, current, target);
    var tr := Transit(current, target, p.exits, p.enters);
    ghost var out := Visit(bs, tr, p.exits, false, envelope.context);
    ghost var into := Visit(bs, tr, p.enters, true, out.context);
    StageAllConcat(envelope.reconciler.Model(), out.ops, into.ops);
    envelope.VisitStates(bs, tr, p.exits, false);
    envelope.VisitStates(bs, tr, p.enters, true);
    return target;
  }

  /** Asking one state either ends the climb or leaves the rest of it to the parent. */
  lemma BubbleStep(f: Forest, bs: Behaviors, at: State, current: State, e: Event, so: Trace, whole: Answer)
    requires Shaped(f)
    requires var rest := Bubble(f, bs, at, current, e, so.context);
      whole == Answer(rest.reply, Then(so, rest.trace))
    ensures var here := HearOne(bs, at, current, e, so.context);
      if here.reply.Ignored? && ParentOf(f, at).Some? then
        var up := Bubble(f, bs, ParentOf(f, at).value, current, e, here.trace.context);
        whole == Answer(up.reply, Then(Then(so, here.trace), up.trace))
      else whole == Answer(here.reply, Then(so, here.trace))
  {
    var here := HearOne(bs, at, current, e, so.context);
    if here.reply.Ignored? && ParentOf(f, at).Some? {
      ThenAssoc(so, here.trace, Bubble(f, bs, ParentOf(f, at).value, current, e, here.trace.context).trace);
    }
  }

  method RunDispatch(f: Forest, bs: Behaviors, current: State, e: Event, envelope: Envelope) returns (reply: EventReply)
    requires Shaped(f) && envelope.Valid()
    modifies envelope, envelope.reconciler
    ensures envelope.Valid()
    ensures reply == Bubble(f, bs, current, current, e, old(envelope.context)).reply
    ensures envelope.Reached(old(envelope.reconciler.Model()), old(envelope.calls),
                             Bubble(f, bs, current, current, e, old(envelope.context)).trace)
  {
    ghost var whole := Bubble(f, bs, current, current, e, envelope.context);
    ghost var so := Trace(envelope.context, [], []);
    ghost var book := envelope.reconciler.Model();
    assert whole.trace == Then(so, whole.trace);
    var probe, climbing := current, true;
    reply := Ignored;
    while climbing
      invariant envelope.Valid() && envelope.Reached(book, old(envelope.calls), so)
      invariant whole == if climbing then
                           var rest := Bubble(f, bs, probe, current, e, so.context);
                           Answer(rest.reply, Then(so, rest.trace))
                         else Answer(reply, so)
      decreases if climbing then probe + 1 else 0
    {
      ghost var here := HearOne(bs, probe, current, e, so.context);
      BubbleStep(f, bs, probe, current, e, so, whole);
      reply := envelope.HearNext(bs, probe, current, e, book, old(envelope.calls), so);
      so := Then(so, here.trace);
      climbing := reply.Ignored? && ParentOf(f, probe).Some?;
      if climbing {
        probe := ParentOf(f, probe).value;
      }
    }
  }
}
