/** Exits and enters replayed on a stack of active states; the cost of a transition. */
module Lifecycle {
  import opened Base
  import opened StateForest

  /** One lifecycle step; whether a behavior is registered for the state does not matter here. */
  datatype Move = Exit(s: State) | Enter(s: State)

  /** Exiting pops exactly the top of the stack; entering pushes a child of the top, or a
      parentless state when the stack is empty. The top is the first element. */
  function Apply(f: Forest, stack: seq<State>, m: Move): Option<seq<State>> {
    match m
    case Exit(s) =>
      if stack != [] && stack[0] == s then Some(stack[1..]) else None
    case Enter(s) =>
      if (if stack == [] then None else Some(stack[0])) == ParentOf(f, s) then Some([s] + stack) else None
  }

  function Replay(f: Forest, stack: seq<State>, moves: seq<Move>): Option<seq<State>>
    decreases |moves|
  {
    if moves == [] then Some(stack)
    else
      var next := Apply(f, stack, moves[0]);
      if next.None? then None else Replay(f, next.value, moves[1..])
  }

  lemma {:induction false} ReplayConcat(f: Forest, stack: seq<State>, a: seq<Move>, b: seq<Move>)
    ensures Replay(f, stack, a + b) ==
            if Replay(f, stack, a).None? then None else Replay(f, Replay(f, stack, a).value, b)
    decreases |a|
  {
    if a == [] {
      assert a + b == b;
    } else {
      assert (a + b)[0] == a[0] && (a + b)[1..] == a[1..] + b;
      if Apply(f, stack, a[0]).Some? {
        ReplayConcat(f, Apply(f, stack, a[0]).value, a[1..], b);
      }
    }
  }

  function Exits(s: seq<State>): (r: seq<Move>)
    ensures |r| == |s|
  {
    if s == [] then [] else [Exit(s[0])] + Exits(s[1..])
  }

  function Enters(s: seq<State>): (r: seq<Move>)
    ensures |r| == |s|
  {
    if s == [] then [] else [Enter(s[0])] + Enters(s[1..])
  }

  function MovesOf(p: Proposal): (r: seq<Move>)
    ensures |r| == |p.exits| + |p.enters|
  {
    Exits(p.exits) + Enters(p.enters)
  }

  lemma {:induction false} ReplayExits(f: Forest, top: seq<State>, rest: seq<State>)
    ensures Replay(f, top + rest, Exits(top)) == Some(rest)
    decreases |top|
  {
    if top == [] {
      assert top + rest == rest;
    } else {
      assert (top + rest)[1..] == top[1..] + rest;
      ReplayExits(f, top[1..], rest);
    }
  }

  /** Entering the states of a path above `rest`, outermost first, rebuilds the path. */
  lemma {:induction false} ReplayEnters(f: Forest, s: State, top: seq<State>, rest: seq<State>)
    requires Shaped(f) && (top + rest == Path(f, s) || top + rest == [])
    ensures Replay(f, rest, Enters(Reverse(top))) == Some(top + rest)
    decreases |top|
  {
    if top == [] {
      assert top + rest == rest;
    } else {
      var up := top[1..];
      assert top + rest == [s] + (up + rest);
      if ParentOf(f, s).Some? {
        assert up + rest == Path(f, s)[1..];
        ReplayEnters(f, ParentOf(f, s).value, up, rest);
      } else {
        ReplayEnters(f, s, up, rest);
      }
      assert Reverse(top) == Reverse(up) + [s] && Enters([s]) == [Enter(s)];
      EntersConcat(Reverse(up), [s]);
      ReplayConcat(f, rest, Enters(Reverse(up)), [Enter(s)]);
      assert Replay(f, up + rest, [Enter(s)]) == Some([s] + (up + rest));
    }
  }

  lemma EntersConcat(a: seq<State>, b: seq<State>)
    ensures Enters(a + b) == Enters(a) + Enters(b)
    decreases |a|
  {
    if a == [] {
      assert a + b == b;
    } else {
      assert (a + b)[1..] == a[1..] + b;
      EntersConcat(a[1..], b);
    }
  }

  /** Every proposal is a legal walk from the path of the one state to the path of the other,
      `NIL` and self-transitions included. */
  lemma ProposeReplays(f: Forest, current: State, target: State)
    requires Shaped(f)
    ensures Replay(f, Path(f, current), MovesOf(Propose(f, current, target))) == Some(Path(f, target))
  {
    var m := Propose(f, current, target);
    var rest, top: seq<State>;
    if current == target {
      rest, top := Path(f, current)[1..], [target];
      assert Reverse(top) == top;
    } else {
      ProposeCompletes(f, current, target);
      rest, top := Common(f, current, target), Reverse(m.enters);
      ReverseTwice(m.enters);
    }
    assert Path(f, current) == m.exits + rest && Path(f, target) == top + rest;
    ReplayExits(f, m.exits, rest);
    ReplayEnters(f, target, top, rest);
    ReplayConcat(f, Path(f, current), Exits(m.exits), Enters(m.enters));
  }

  // ---- Minimality ----

  function Distance(a: seq<State>, b: seq<State>): (d: nat)
    ensures d == 0 ==> a == b
  {
    SharedSplit(a, b);
    |a| + |b| - 2 * Shared(a, b)
  }

  /** Growing or shrinking a stack at its top moves it at most one step nearer to any other. */
  lemma DistanceStep(s: State, a: seq<State>, c: seq<State>)
    ensures Distance([s] + a, c) <= Distance(a, c) + 1
    ensures Distance(a, c) <= Distance([s] + a, c) + 1
  {
    var b := [s] + a;
    var n, m := Shared(a, c), Shared(b, c);
    assert forall i: nat :: i < |a| ==> FromEnd(b, i) == FromEnd(a, i);
    if n < |a| {
      SharedUnique(b, c, n);
    } else if |c| == n || FromEnd(b, n) != FromEnd(c, n) {
      SharedUnique(b, c, n);
    } else {
      SharedUnique(b, c, n + 1);
    }
  }

  lemma {:induction false} ReplayDistance(f: Forest, a: seq<State>, moves: seq<Move>)
    requires Replay(f, a, moves).Some?
    ensures Distance(a, Replay(f, a, moves).value) <= |moves|
    decreases |moves|
  {
    var c := Replay(f, a, moves).value;
    if moves == [] {
      SharedUnique(a, a, |a|);
    } else {
      var b := Apply(f, a, moves[0]).value;
      ReplayDistance(f, b, moves[1..]);
      match moves[0]
      case Exit(s) => assert a == [s] + b; DistanceStep(s, b, c);
      case Enter(s) => DistanceStep(s, a, c);
    }
  }

  /** The number of lifecycle steps a transition takes. */
  function Cost(f: Forest, current: State, target: State): nat
    requires Shaped(f)
  {
    var p := Propose(f, current, target);
    |p.exits| + |p.enters|
  }

  /** Between distinct states no legal walk is shorter than the proposal. */
  lemma {:induction false} ProposeMinimal(f: Forest, current: State, target: State, moves: seq<Move>)
    requires Shaped(f) && current != target
    requires Replay(f, Path(f, current), moves) == Some(Path(f, target))
    ensures Cost(f, current, target) <= |moves|
  {
    ReplayDistance(f, Path(f, current), moves);
  }

  /** A detour never saves steps, self-transitions and `NIL` included. */
  lemma CostTriangle(f: Forest, a: State, b: State, c: State)
    requires Shaped(f)
    ensures Cost(f, a, c) <= Cost(f, a, b) + Cost(f, b, c)
  {
    var first, second := MovesOf(Propose(f, a, b)), MovesOf(Propose(f, b, c));
    if a == c {
      CostPositive(f, a, b);
      CostPositive(f, b, c);
    } else {
      ProposeReplays(f, a, b);
      ProposeReplays(f, b, c);
      ReplayConcat(f, Path(f, a), first, second);
      ProposeMinimal(f, a, c, first + second);
    }
  }

  lemma {:induction false} CostPositive(f: Forest, a: State, b: State)
    requires Shaped(f)
    ensures Cost(f, a, b) > 0
  {
    if a != b {
      assert Cost(f, a, b) == Distance(Path(f, a), Path(f, b));
    }
  }

  // ---- Counting ----

  /** Along a legal walk, enters minus exits of a state is its presence on the last stack minus
      its presence on the first. */
  lemma {:induction false} ReplayCounts(f: Forest, stack: seq<State>, moves: seq<Move>, s: State)
    requires Replay(f, stack, moves).Some?
    ensures Count(moves, Enter(s)) + Count(stack, s) == Count(moves, Exit(s)) + Count(Replay(f, stack, moves).value, s)
    decreases |moves|
  {
    if moves != [] {
      var next := Apply(f, stack, moves[0]).value;
      assert moves == [moves[0]] + moves[1..];
      assert moves[0].Exit? ==> stack == [moves[0].s] + next;
      ReplayCounts(f, next, moves[1..], s);
    }
  }

  /** A state occurs at most once on an ancestor path. */
  lemma {:induction false} PathCount(f: Forest, at: State, s: State)
    requires Shaped(f)
    ensures Count(Path(f, at), s) == (if s in Path(f, at) then 1 else 0)
    ensures s in Path(f, at) ==> s <= at
    decreases at
  {
    if ParentOf(f, at).Some? {
      PathCount(f, ParentOf(f, at).value, s);
    }
  }
}
