/** The state forest of maokai-tree: topology, ancestor paths and transition proposals. */
module StateForest {
  import opened Base

  /** A node handle: the position of the node in the arena. */
  type State = nat

  /** What a state means; only compared for equality. */
  type Payload(==,!new)

  const ROOT: State := 0
  const NIL: State := 1

  datatype Forest = Forest(parents: seq<Option<State>>, kids: seq<seq<State>>, data: seq<Option<Payload>>)

  /** The two lists handed to `on_exit` and `on_enter`, in calling order. */
  datatype Proposal = Proposal(exits: seq<State>, enters: seq<State>)

  /** A handle that is not in the arena has no parent. */
  function ParentOf(f: Forest, s: State): Option<State> {
    if s < |f.parents| then f.parents[s] else None
  }

  function ChildrenOf(f: Forest, s: State): seq<State> {
    if s < |f.kids| then f.kids[s] else []
  }

  function DataOf(f: Forest, s: State): Option<Payload> {
    if s < |f.data| then f.data[s] else None
  }

  /** Parents precede their children, which makes the arena acyclic; `ROOT` and `NIL` are
      the only nodes without a parent, and `NIL` alone carries no payload. */
  ghost predicate Shaped(f: Forest) {
    && |f.parents| == |f.kids| == |f.data| >= 2
    && (forall s: State :: s < |f.parents| ==> (f.parents[s].None? <==> s == ROOT || s == NIL))
    && (forall s: State :: s < |f.parents| && f.parents[s].Some? ==> f.parents[s].value < s)
    && (forall s: State :: s < |f.data| ==> (f.data[s].None? <==> s == NIL))
  }

  /** Nothing hangs below `NIL`. */
  ghost predicate NilAlone(f: Forest) {
    forall s: State :: ParentOf(f, s) != Some(NIL)
  }

  /** `ChildrenOf` inverts `ParentOf`. */
  ghost predicate Inverse(f: Forest) {
    && (forall p: State, k :: p < |f.kids| && 0 <= k < |f.kids[p]| ==> ParentOf(f, f.kids[p][k]) == Some(p))
    && (forall s: State :: s < |f.parents| && f.parents[s].Some? ==> s in ChildrenOf(f, f.parents[s].value))
  }

  /** Children are listed in the order of their insertion, without repetition. */
  ghost predicate InOrder(f: Forest) {
    forall p: State, j, k :: p < |f.kids| && 0 <= j < k < |f.kids[p]| ==> f.kids[p][j] < f.kids[p][k]
  }

  ghost predicate Wf(f: Forest) {
    Shaped(f) && Inverse(f)
  }

  /** The states from `s` up to its root, `s` first. */
  function Path(f: Forest, s: State): (p: seq<State>)
    requires Shaped(f)
    ensures |p| > 0 && p[0] == s
    decreases s
  {
    match ParentOf(f, s)
    case None => [s]
    case Some(p) => [s] + Path(f, p)
  }

  /** Every suffix of an ancestor path is the ancestor path of its first state. */
  lemma {:induction false} PathSuffix(f: Forest, s: State, k: nat)
    requires Shaped(f) && k < |Path(f, s)|
    ensures Path(f, s)[k..] == Path(f, Path(f, s)[k])
    ensures k > 0 ==> Path(f, s)[k] < s
    decreases s
  {
    if k > 0 {
      PathSuffix(f, ParentOf(f, s).value, k - 1);
    }
  }

  lemma PathDescends(f: Forest, s: State)
    requires Shaped(f)
    ensures forall i, j :: 0 <= i < j < |Path(f, s)| ==> Path(f, s)[j] < Path(f, s)[i]
  {
    var p := Path(f, s);
    forall i, j | 0 <= i < j < |p| ensures p[j] < p[i] {
      PathSuffix(f, s, i);
      PathSuffix(f, p[i], j - i);
      assert p[i..][j - i] == p[j];
    }
  }

  /** The element `i` places before the end. */
  function FromEnd<T>(s: seq<T>, i: nat): T
    requires i < |s|
  {
    s[|s| - 1 - i]
  }

  /** `n` is the length of the longest common suffix of `a` and `b`. */
  ghost predicate IsShared<T>(a: seq<T>, b: seq<T>, n: nat) {
    && n <= |a| && n <= |b|
    && (forall i: nat :: i < n ==> FromEnd(a, i) == FromEnd(b, i))
    && (n < |a| && n < |b| ==> FromEnd(a, n) != FromEnd(b, n))
  }

  function SharedFrom<T(==)>(a: seq<T>, b: seq<T>, k: nat): (n: nat)
    requires k <= |a| && k <= |b| && forall i: nat :: i < k ==> FromEnd(a, i) == FromEnd(b, i)
    ensures k <= n && IsShared(a, b, n)
    decreases |a| - k
  {
    if k < |a| && k < |b| && FromEnd(a, k) == FromEnd(b, k) then SharedFrom(a, b, k + 1) else k
  }

  function Shared<T(==)>(a: seq<T>, b: seq<T>): (n: nat)
    ensures IsShared(a, b, n)
  {
    SharedFrom(a, b, 0)
  }

  lemma SharedUnique<T>(a: seq<T>, b: seq<T>, n: nat)
    requires IsShared(a, b, n)
    ensures n == Shared(a, b) == Shared(b, a)
  {
  }

  lemma SharedSuffix<T>(a: seq<T>, b: seq<T>, n: nat)
    requires n <= |a| && n <= |b|
    ensures a[|a| - n..] == b[|b| - n..] <==> forall i: nat :: i < n ==> FromEnd(a, i) == FromEnd(b, i)
  {
    var c, d := a[|a| - n..], b[|b| - n..];
    if c == d {
      forall i: nat | i < n ensures FromEnd(a, i) == FromEnd(b, i) {
        assert FromEnd(a, i) == c[n - 1 - i] == d[n - 1 - i];
      }
    }
    if forall i: nat :: i < n ==> FromEnd(a, i) == FromEnd(b, i) {
      forall k | 0 <= k < n ensures c[k] == d[k] {
        assert FromEnd(a, n - 1 - k) == FromEnd(b, n - 1 - k);
      }
    }
  }

  function Propose(f: Forest, current: State, target: State): Proposal
    requires Shaped(f)
  {
    if current == target then Proposal([current], [target])
    else
      var from, to := Path(f, current), Path(f, target);
      var n := Shared(from, to);
      Proposal(from[..|from| - n], Reverse(to[..|to| - n]))
  }

  /** The states above both endpoints: the suffix of the current path left out of the exits. */
  function Common(f: Forest, a: State, b: State): seq<State>
    requires Shaped(f)
  {
    var p := Path(f, a);
    p[|p| - Shared(p, Path(f, b))..]
  }

  /** Cutting both sequences at the shared suffix leaves the same rest. */
  lemma SharedSplit<T>(a: seq<T>, b: seq<T>)
    ensures var n := Shared(a, b); var c := a[|a| - n..];
      a == a[..|a| - n] + c && b == b[..|b| - n] + c
  {
    var n := Shared(a, b);
    SharedSuffix(a, b, n);
    assert b == b[..|b| - n] + b[|b| - n..];
  }

  /** A common ancestor lies in the common suffix. */
  lemma CommonIsShared(f: Forest, a: State, b: State, s: State)
    requires Shaped(f) && s in Path(f, a) && s in Path(f, b)
    ensures s in Common(f, a, b)
  {
    var p, q := Path(f, a), Path(f, b);
    var i :| 0 <= i < |p| && p[i] == s;
    var j :| 0 <= j < |q| && q[j] == s;
    PathSuffix(f, a, i);
    PathSuffix(f, b, j);
    InSharedSuffix(p, q, i, j);
  }

  lemma InSharedSuffix<T>(p: seq<T>, q: seq<T>, i: nat, j: nat)
    requires i < |p| && j < |q| && p[i..] == q[j..]
    ensures p[i] in p[|p| - Shared(p, q)..]
  {
    var n, m := Shared(p, q), |p| - i;
    assert m == |p[i..]| == |q[j..]| == |q| - j;
    SharedSuffix(p, q, m);
    assert m <= n;
    assert p[|p| - n..][i - (|p| - n)] == p[i];
  }

  /** Exits and reversed enters complete the same suffix to the two paths. */
  lemma ProposeCompletes(f: Forest, current: State, target: State)
    requires Shaped(f) && current != target
    ensures var m, common := Propose(f, current, target), Common(f, current, target);
      m.exits + common == Path(f, current) && Reverse(m.enters) + common == Path(f, target)
  {
    var from, to := Path(f, current), Path(f, target);
    SharedSplit(from, to);
    ReverseTwice(to[..|to| - Shared(from, to)]);
  }

  /** The states left and the states entered are disjoint, and what stays are exactly the common
      ancestors, that is the path of the deepest of them (nothing when there is none). */
  lemma LcaCorrect(f: Forest, current: State, target: State)
    requires Shaped(f) && current != target
    ensures var m, common := Propose(f, current, target), Common(f, current, target);
      && (forall s :: s in m.exits ==> s !in m.enters)
      && (forall s :: s in Path(f, current) && s in Path(f, target) <==> s in common)
      && (common != [] ==> common == Path(f, common[0]))
  {
    var m, common := Propose(f, current, target), Common(f, current, target);
    ProposeCompletes(f, current, target);
    CommonAncestors(f, current, target, m.exits, Reverse(m.enters));
    PathDescends(f, current);
    Separated(Path(f, current), Path(f, target), m.exits, Reverse(m.enters), common);
    forall s | s in m.exits ensures s !in m.enters {
      assert s !in Reverse(m.enters);
      InReverse(m.enters, s);
    }
  }

  /** The common suffix holds exactly the common ancestors, and is itself a path. */
  lemma CommonAncestors(f: Forest, a: State, b: State, x: seq<State>, y: seq<State>)
    requires Shaped(f) && x + Common(f, a, b) == Path(f, a) && y + Common(f, a, b) == Path(f, b)
    ensures var c := Common(f, a, b);
      && (forall s :: s in Path(f, a) && s in Path(f, b) <==> s in c)
      && (c != [] ==> c == Path(f, c[0]))
  {
    var c := Common(f, a, b);
    forall s ensures s in Path(f, a) && s in Path(f, b) <==> s in c {
      if s in c {
        assert s in x + c && s in y + c;
      } else if s in Path(f, a) && s in Path(f, b) {
        CommonIsShared(f, a, b, s);
      }
    }
    if c != [] {
      PathSuffix(f, a, |x|);
      assert Path(f, a)[|x|..] == c;
    }
  }

  lemma InReverse<T>(s: seq<T>, x: T)
    ensures x in Reverse(s) <==> x in s
  {
    if x in s {
      var i :| 0 <= i < |s| && s[i] == x;
      assert Reverse(s)[|s| - 1 - i] == x;
    }
  }

  /** When everything shared lies in the common end of a strictly descending sequence, the front
      parts share nothing. */
  lemma Separated(p: seq<State>, q: seq<State>, x: seq<State>, y: seq<State>, c: seq<State>)
    requires x + c == p && y + c == q && forall i, j :: 0 <= i < j < |p| ==> p[j] < p[i]
    requires forall s :: s in p && s in q ==> s in c
    ensures forall s :: s in x ==> s !in y
  {
    forall i, j | 0 <= i < |x| && 0 <= j < |y| ensures x[i] != y[j] {
      assert p[i] == x[i] && q[j] == y[j] && p[i] in p && q[j] in q;
      assert forall k :: 0 <= k < |c| ==> c[k] == p[|x| + k];
    }
  }

  /** A self-transition leaves the state and enters it again. */
  lemma ProposeSelf(f: Forest, s: State)
    requires Shaped(f)
    ensures Propose(f, s, s).exits == [s] && Propose(f, s, s).enters == [s]
  {
  }

  /** Swapping the endpoints swaps and reverses the two lists. */
  lemma ProposeReversed(f: Forest, current: State, target: State)
    requires Shaped(f)
    ensures Propose(f, target, current) ==
            Proposal(Reverse(Propose(f, current, target).enters), Reverse(Propose(f, current, target).exits))
  {
    if current != target {
      var from, to := Path(f, current), Path(f, target);
      SharedUnique(from, to, Shared(from, to));
      ReverseTwice(to[..|to| - Shared(from, to)]);
    }
  }

  // ---- Growth ----

  function Planted(rootData: Payload): (f: Forest)
    ensures Wf(f) && InOrder(f) && NilAlone(f)
  {
    Forest([None, None], [[], []], [Some(rootData), None])
  }

  function Grown(f: Forest, parent: State, data: Payload): (g: Forest)
    requires Shaped(f) && parent < |f.parents|
  {
    Forest(f.parents + [Some(parent)],
           f.kids[parent := f.kids[parent] + [|f.parents|]] + [[]],
           f.data + [Some(data)])
  }

  lemma GrownWf(f: Forest, parent: State, data: Payload)
    requires Wf(f) && parent < |f.parents|
    ensures Wf(Grown(f, parent, data))
  {
    var g := Grown(f, parent, data);
    forall p: State, k | p < |g.kids| && 0 <= k < |g.kids[p]| ensures ParentOf(g, g.kids[p][k]) == Some(p) {
      if p < |f.kids| && k < |f.kids[p]| {
        assert ParentOf(f, f.kids[p][k]) == Some(p);
      }
    }
    forall s: State | s < |g.parents| && g.parents[s].Some? ensures s in ChildrenOf(g, g.parents[s].value) {
      var p := g.parents[s].value;
      if s < |f.parents| {
        var k :| 0 <= k < |f.kids[p]| && f.kids[p][k] == s;
        assert g.kids[p][k] == s;
      } else {
        assert g.kids[p][|f.kids[p]|] == s;
      }
    }
  }

  /** Only a child of `NIL` ends its solitude. */
  lemma GrownNil(f: Forest, parent: State, data: Payload)
    requires Shaped(f) && parent < |f.parents|
    ensures NilAlone(Grown(f, parent, data)) <==> NilAlone(f) && parent != NIL
  {
    var g := Grown(f, parent, data);
    assert forall s: State :: s < |f.parents| ==> ParentOf(g, s) == ParentOf(f, s);
    assert ParentOf(g, |f.parents|) == Some(parent);
    assert forall s: State :: s > |f.parents| ==> ParentOf(g, s) == None;
  }

  lemma GrownInOrder(f: Forest, parent: State, data: Payload)
    requires Wf(f) && InOrder(f) && parent < |f.parents|
    ensures InOrder(Grown(f, parent, data))
  {
    var g := Grown(f, parent, data);
    forall p: State, j, k | p < |g.kids| && 0 <= j < k < |g.kids[p]| ensures g.kids[p][j] < g.kids[p][k] {
      if p < |f.kids| {
        assert ParentOf(f, f.kids[p][j]) == Some(p);
      }
    }
  }

  lemma {:induction false} GrownPath(f: Forest, parent: State, data: Payload, s: State)
    requires Shaped(f) && parent < |f.parents| && s < |f.parents|
    ensures Shaped(Grown(f, parent, data)) && Path(Grown(f, parent, data), s) == Path(f, s)
    decreases s
  {
    if ParentOf(f, s).Some? {
      GrownPath(f, parent, data, ParentOf(f, s).value);
    }
  }

  datatype Sprout = Sprout(parent: State, data: Payload)

  /** A run of `add_child` calls; a call on a foreign handle is not made. */
  ghost function GrowAll(f: Forest, calls: seq<Sprout>): (g: Forest)
    requires Wf(f)
    ensures Wf(g)
    decreases |calls|
  {
    if calls == [] then f
    else
      var c := calls[0];
      if c.parent < |f.parents| then
        GrownWf(f, c.parent, c.data);
        GrowAll(Grown(f, c.parent, c.data), calls[1..])
      else GrowAll(f, calls[1..])
  }

  /** `g` has all states of `f`, with the same parents, paths and proposals among them. */
  ghost predicate Extends(f: Forest, g: Forest)
    requires Shaped(f) && Shaped(g)
  {
    && |f.parents| <= |g.parents|
    && (forall s: State :: s < |f.parents| ==> Path(g, s) == Path(f, s) && ParentOf(g, s) == ParentOf(f, s))
    && (forall s: State, t: State :: s < |f.parents| && t < |f.parents| ==> Propose(g, s, t) == Propose(f, s, t))
  }

  lemma ExtendsOn(f: Forest, g: Forest, h: Forest)
    requires Shaped(f) && Shaped(g) && Shaped(h) && Extends(f, g) && Extends(g, h)
    ensures Extends(f, h)
  {
    forall s: State, t: State | s < |f.parents| && t < |f.parents| ensures Propose(h, s, t) == Propose(f, s, t) {
      assert Propose(h, s, t) == Propose(g, s, t);
    }
  }

  /** Growing a forest never disturbs the paths, parents and proposals of the states it had, and
      keeps children in the order of insertion. */
  lemma {:induction false} GrowthStable(f: Forest, calls: seq<Sprout>)
    requires Wf(f)
    ensures Extends(f, GrowAll(f, calls)) && (InOrder(f) ==> InOrder(GrowAll(f, calls)))
    decreases |calls|
  {
    if calls != [] {
      var c := calls[0];
      if c.parent < |f.parents| {
        var h := Grown(f, c.parent, c.data);
        GrownStable(f, c.parent, c.data);
        GrowthStable(h, calls[1..]);
        ExtendsOn(f, h, GrowAll(f, calls));
      } else {
        GrowthStable(f, calls[1..]);
      }
    }
  }

  /** One `add_child` leaves paths, parents and proposals alone. */
  lemma GrownStable(f: Forest, parent: State, data: Payload)
    requires Wf(f) && parent < |f.parents|
    ensures Wf(Grown(f, parent, data)) && Extends(f, Grown(f, parent, data))
    ensures InOrder(f) ==> InOrder(Grown(f, parent, data))
  {
    var g := Grown(f, parent, data);
    GrownWf(f, parent, data);
    forall s: State | s < |f.parents| ensures Path(g, s) == Path(f, s) {
      GrownPath(f, parent, data, s);
    }
    SamePathsExtend(f, g);
    if InOrder(f) {
      GrownInOrder(f, parent, data);
    }
  }

  /** Proposals depend on paths only. */
  lemma SamePathsExtend(f: Forest, g: Forest)
    requires Shaped(f) && Shaped(g) && |f.parents| <= |g.parents|
    requires forall s: State :: s < |f.parents| ==> Path(g, s) == Path(f, s)
    requires forall s: State :: s < |f.parents| ==> ParentOf(g, s) == ParentOf(f, s)
    ensures Extends(f, g)
  {
    forall s: State, t: State | s < |f.parents| && t < |f.parents| ensures Propose(g, s, t) == Propose(f, s, t) {
      assert Path(g, s) == Path(f, s) && Path(g, t) == Path(f, t);
    }
  }

  /** Every state descends from `ROOT` or from `NIL`, never from both; while nothing hangs below `NIL`,
      every other state descends from `ROOT`. */
  lemma {:induction false} RootOf(f: Forest, s: State)
    requires Shaped(f) && s < |f.parents|
    ensures ROOT in Path(f, s) <==> NIL !in Path(f, s)
    ensures NilAlone(f) ==> (NIL in Path(f, s) <==> s == NIL)
    ensures Path(f, NIL) == [NIL]
    decreases s
  {
    if ParentOf(f, s).Some? {
      RootOf(f, ParentOf(f, s).value);
    }
  }

  /** The path from the next state on, if there is one. */
  function Rest(f: Forest, next: Option<State>): seq<State>
    requires Shaped(f)
  {
    if next.Some? then Path(f, next.value) else []
  }

  lemma PathOn(f: Forest, path: seq<State>, p: State)
    requires Shaped(f)
    ensures path + Path(f, p) == path + [p] + Rest(f, ParentOf(f, p))
  {
  }

  /** The arena updated in place by `StateTree`. */
  class StateTree {
    var parents: seq<Option<State>>
    var kids: seq<seq<State>>
    var data: seq<Option<Payload>>

    ghost function Model(): Forest reads this {
      Forest(parents, kids, data)
    }

    ghost predicate Valid() reads this {
      Wf(Model())
    }

    constructor (rootData: Payload)
      ensures Valid() && Model() == Planted(rootData)
    {
      parents, kids, data := [None, None], [[], []], [Some(rootData), None];
    }

    method AddChild(parent: State, payload: Payload) returns (child: State)
      requires Valid() && parent < |parents|
      modifies this
      ensures Valid() && child == old(|parents|)
      ensures NilAlone(Model()) <==> old(NilAlone(Model())) && parent != NIL
      ensures Model() == Grown(old(Model()), parent, payload)
      ensures ParentOf(Model(), child) == Some(parent) && ChildrenOf(Model(), child) == []
    {
      ghost var f := Model();
      GrownWf(f, parent, payload);
      child := |parents|;
      parents, data := parents + [Some(parent)], data + [Some(payload)];
      kids := kids[parent := kids[parent] + [child]] + [[]];
      assert Model() == Grown(f, parent, payload);
      GrownNil(f, parent, payload);
    }

    method PathRev(s: State) returns (path: seq<State>)
      requires Shaped(Model())
      ensures path == Path(Model(), s)
    {
      ghost var f := Model();
      path := [s];
      var next: Option<State> := if s < |parents| then parents[s] else None;
      PathOn(f, [], s);
      while next.Some?
        invariant Path(f, s) == path + Rest(f, next)
        invariant |path| > 0 && next == ParentOf(f, path[|path| - 1])
        decreases path[|path| - 1]
      {
        var p := next.value;
        PathOn(f, path, p);
        path := path + [p];
        next := if p < |parents| then parents[p] else None;
      }
    }

    method ProposeTransition(current: State, target: State) returns (exits: seq<State>, enters: seq<State>)
      requires Shaped(Model())
      ensures Proposal(exits, enters) == Propose(Model(), current, target)
    {
      if current == target {
        return [current], [target];
      }
      var from := PathRev(current);
      var to := PathRev(target);
      var i, j := |from|, |to|;
      while i > 0 && j > 0 && from[i - 1] == to[j - 1]
        invariant 0 <= i <= |from| && 0 <= j <= |to| && |from| - i == |to| - j
        invariant forall k: nat :: k < |from| - i ==> FromEnd(from, k) == FromEnd(to, k)
      {
        assert FromEnd(from, |from| - i) == FromEnd(to, |from| - i);
        i, j := i - 1, j - 1;
      }
      SharedUnique(from, to, |from| - i);
      exits, enters := from[..i], Reverse(to[..j]);
    }
  }
}
