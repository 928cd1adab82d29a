/** Which callbacks run, with which arguments, and what becomes of their results. */
module Callbacks {
  import opened Base
  import opened StateForest
  import opened Operations
  import opened Running

  function Concat(parts: seq<seq<Op>>): seq<Op> {
    if parts == [] then [] else parts[0] + Concat(parts[1..])
  }

  lemma {:induction false} ConcatOn(a: seq<seq<Op>>, b: seq<seq<Op>>)
    ensures Concat(a + b) == Concat(a) + Concat(b)
    decreases |a|
  {
    if a == [] {
      assert a + b == b;
    } else {
      assert (a + b)[1..] == a[1..] + b;
      ConcatOn(a[1..], b);
    }
  }

  // ---- Transitions ----

  /** From context to context, calling `on_enter` or `on_exit` of each registered state in turn. */
  ghost predicate Threads(
    bs: Behaviors, tr: Transit, states: seq<State>, entering: bool, cs: seq<Context>, ops: seq<seq<Op>>)
  {
    && |cs| == |states| + 1 && |ops| == |states|
    && forall k :: 0 <= k < |states| ==>
         if states[k] !in bs then cs[k + 1] == cs[k] && ops[k] == []
         else if entering then bs[states[k]].onEnter(tr, cs[k]) == Effect(cs[k + 1], ops[k])
         else bs[states[k]].onExit(tr, cs[k]) == Effect(cs[k + 1], ops[k])
  }

  lemma ThreadsOn(
    bs: Behaviors, tr: Transit, s: State, states: seq<State>, entering: bool, c: Context, first: seq<Op>,
    cs: seq<Context>, ops: seq<seq<Op>>)
    requires Threads(bs, tr, states, entering, cs, ops)
    requires if s !in bs then c == cs[0] && first == []
             else (if entering then bs[s].onEnter(tr, c) else bs[s].onExit(tr, c)) == Effect(cs[0], first)
    ensures Threads(bs, tr, [s] + states, entering, [c] + cs, [first] + ops)
  {
    var states', cs', ops' := [s] + states, [c] + cs, [first] + ops;
    forall k | 0 < k < |states'|
      ensures states'[k] == states[k - 1] && cs'[k + 1] == cs[k] && cs'[k] == cs[k - 1] && ops'[k] == ops[k - 1]
    {
    }
  }

  lemma {:induction false} VisitThreads(
    bs: Behaviors, tr: Transit, states: seq<State>, entering: bool, context: Context)
    returns (cs: seq<Context>, ops: seq<seq<Op>>)
    ensures Threads(bs, tr, states, entering, cs, ops)
    ensures var t := Visit(bs, tr, states, entering, context);
      cs[0] == context && cs[|states|] == t.context && Concat(ops) == t.ops
  {
    if states == [] {
      cs, ops := [context], [];
    } else {
      var first := VisitOne(bs, tr, states[0], entering, context);
      var cs', ops' := VisitThreads(bs, tr, states[1..], entering, first.context);
      ThreadsOn(bs, tr, states[0], states[1..], entering, context, first.ops, cs', ops');
      cs, ops := [context] + cs', [first.ops] + ops';
      assert ops[1..] == ops' && [states[0]] + states[1..] == states;
    }
  }

  /** What the history says of the callbacks of one list: the state, and whether it is registered. */
  function Recorded(bs: Behaviors, states: seq<State>, entering: bool): seq<Call> {
    if states == [] then []
    else
      [if entering then Entered(states[0], states[0] in bs) else Exited(states[0], states[0] in bs)]
      + Recorded(bs, states[1..], entering)
  }

  lemma {:induction false} VisitRecorded(
    bs: Behaviors, tr: Transit, states: seq<State>, entering: bool, context: Context)
    ensures Visit(bs, tr, states, entering, context).calls == Recorded(bs, states, entering)
  {
    if states != [] {
      VisitRecorded(bs, tr, states[1..], entering, VisitOne(bs, tr, states[0], entering, context).context);
    }
  }

  /** A transition calls `on_exit` of every registered state left, in order, and then `on_enter` of every
      registered state entered, in order. Each is told where the transition comes from, where it goes,
      and both lists; each sees the context that the one before left; what they stage adds up in order.
      The first contexts are those of the exits, the second those of the enters. */
  lemma TransitionCalls(f: Forest, bs: Behaviors, current: State, target: State, context: Context)
    returns (out: seq<Context>, into: seq<Context>, left: seq<seq<Op>>, entered: seq<seq<Op>>)
    requires Shaped(f)
    ensures var p, t := Propose(f, current, target), TransitionTrace(f, bs, current, target, context);
      var tr := Transit(current, target, p.exits, p.enters);
      && Threads(bs, tr, p.exits, false, out, left) && Threads(bs, tr, p.enters, true, into, entered)
      && out[0] == context && into[0] == out[|p.exits|] && t.context == into[|p.enters|]
      && t.ops == Concat(left) + Concat(entered)
      && t.calls == Recorded(bs, p.exits, false) + Recorded(bs, p.enters, true)
  {
    var p := Propose(f, current, target);
    var tr := Transit(current, target, p.exits, p.enters);
    out, left := VisitThreads(bs, tr, p.exits, false, context);
    into, entered := VisitThreads(bs, tr, p.enters, true, out[|p.exits|]);
    VisitRecorded(bs, tr, p.exits, false, context);
    VisitRecorded(bs, tr, p.enters, true, out[|p.exits|]);
  }

  // ---- Dispatch ----

  /** The states of `path` are offered the event in turn, registered ones by `on_event`; all but the last
      are unregistered or ignore it. */
  ghost predicate Climbs(
    bs: Behaviors, path: seq<State>, current: State, e: Event, cs: seq<Context>, ops: seq<seq<Op>>)
  {
    && path != [] && |cs| == |path| + 1 && |ops| == |path|
    && forall k :: 0 <= k < |path| ==>
         if path[k] !in bs then cs[k + 1] == cs[k] && ops[k] == []
         else
           var r := bs[path[k]].onEvent(e, current, cs[k]);
           r.effect == Effect(cs[k + 1], ops[k]) && (k < |path| - 1 ==> r.reply.Ignored?)
  }

  /** The reply of the last one asked: that of its behavior, or `Ignored` without one. */
  function LastReply(bs: Behaviors, s: State, current: State, e: Event, c: Context): EventReply {
    if s in bs then bs[s].onEvent(e, current, c).reply else Ignored
  }

  /** A dispatch asks the states of the ancestor path from the current one upwards, always told the
      event and the current state. It stops at the first registered state whose reply is not `Ignored`
      and returns that reply, or else at the top with `Ignored`; contexts are threaded, and what the
      behaviors stage adds up in order. */
  lemma {:induction false} DispatchCalls(
    f: Forest, bs: Behaviors, at: State, current: State, e: Event, context: Context)
    returns (n: nat, cs: seq<Context>, ops: seq<seq<Op>>)
    requires Shaped(f)
    ensures var path, a := Path(f, at), Bubble(f, bs, at, current, e, context);
      && 0 < n <= |path| && Climbs(bs, path[..n], current, e, cs, ops)
      && cs[0] == context && a.trace.context == cs[n] && a.trace.ops == Concat(ops)
      && a.reply == LastReply(bs, path[n - 1], current, e, cs[n - 1])
      && (a.reply.Ignored? ==> n == |path|)
      && a.trace.calls == Listening(bs, path[..n], current, e)
    decreases at
  {
    var here := HearOne(bs, at, current, e, context);
    if !here.reply.Ignored? || ParentOf(f, at).None? {
      n, cs, ops := 1, [context, here.trace.context], [here.trace.ops];
      assert Path(f, at)[..1] == [at] && [at][1..] == [] && ops[1..] == [];
    } else {
      var p := ParentOf(f, at).value;
      var n', cs', ops' := DispatchCalls(f, bs, p, current, e, here.trace.context);
      n, cs, ops := n' + 1, [context] + cs', [here.trace.ops] + ops';
      assert Path(f, at)[..n] == [at] + Path(f, p)[..n'];
      assert ops[1..] == ops';
      ClimbsOn(bs, at, Path(f, p)[..n'], current, e, context, here.trace.ops, cs', ops');
      assert ([at] + Path(f, p)[..n'])[1..] == Path(f, p)[..n'];
    }
  }

  lemma ClimbsOn(
    bs: Behaviors, s: State, path: seq<State>, current: State, e: Event, c: Context, first: seq<Op>,
    cs: seq<Context>, ops: seq<seq<Op>>)
    requires Climbs(bs, path, current, e, cs, ops)
    requires if s in bs then bs[s].onEvent(e, current, c) == Reaction(Ignored, Effect(cs[0], first))
             else c == cs[0] && first == []
    ensures Climbs(bs, [s] + path, current, e, [c] + cs, [first] + ops)
  {
    var path', cs', ops' := [s] + path, [c] + cs, [first] + ops;
    forall k | 0 < k < |path'|
      ensures path'[k] == path[k - 1] && cs'[k + 1] == cs[k] && cs'[k] == cs[k - 1] && ops'[k] == ops[k - 1]
    {
    }
  }
}
