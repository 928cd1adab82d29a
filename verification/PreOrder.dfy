/** The payloads on the way to a state, and the states in the order of a depth-first search. */
module Searching {
  import opened Base
  import opened StateForest

  /** The payloads from the root down to `s`. */
  function Travel(f: Forest, s: State): seq<Payload>
    requires Shaped(f)
    decreases s
  {
    Above(f, s) + (if DataOf(f, s).Some? then [DataOf(f, s).value] else [])
  }

  /** The payloads of the proper ancestors of `s`. */
  function Above(f: Forest, s: State): seq<Payload>
    requires Shaped(f)
    decreases s, 0
  {
    if ParentOf(f, s).Some? then Travel(f, ParentOf(f, s).value) else []
  }

  function Payloads(f: Forest, states: seq<State>): seq<Payload> {
    if states == [] then []
    else (if DataOf(f, states[0]).Some? then [DataOf(f, states[0]).value] else []) + Payloads(f, states[1..])
  }

  lemma {:induction false} PayloadsConcat(f: Forest, a: seq<State>, b: seq<State>)
    ensures Payloads(f, a + b) == Payloads(f, a) + Payloads(f, b)
    decreases |a|
  {
    if a == [] {
      assert a + b == b;
    } else {
      assert (a + b)[1..] == a[1..] + b;
      PayloadsConcat(f, a[1..], b);
    }
  }

  /** These are the payloads met along the ancestor path, turned around. */
  lemma {:induction false} TravelIsPath(f: Forest, s: State)
    requires Shaped(f)
    ensures Travel(f, s) == Payloads(f, Reverse(Path(f, s)))
    decreases s
  {
    assert [s][1..] == [];
    match ParentOf(f, s)
    case None => assert Reverse(Path(f, s)) == [s];
    case Some(p) =>
      TravelIsPath(f, p);
      assert Reverse(Path(f, s)) == Reverse(Path(f, p)) + [s];
      PayloadsConcat(f, Reverse(Path(f, p)), [s]);
  }

  /** The states of the subtree of `s` in pre-order. */
  function PreOrder(f: Forest, s: State): seq<State>
    requires Wf(f) && s < |f.parents|
    decreases |f.parents| - s, |f.kids[s]| + 1
  {
    [s] + PreOrderFrom(f, s, 0)
  }

  function PreOrderFrom(f: Forest, s: State, k: nat): seq<State>
    requires Wf(f) && s < |f.parents| && k <= |f.kids[s]|
    decreases |f.parents| - s, |f.kids[s]| - k
  {
    if k == |f.kids[s]| then []
    else
      assert ParentOf(f, f.kids[s][k]) == Some(s);
      PreOrder(f, f.kids[s][k]) + PreOrderFrom(f, s, k + 1)
  }

  /** Pre-order from `ROOT` reaches exactly the states that descend from it. */
  lemma PreOrderComplete(f: Forest, s: State)
    requires Wf(f) && s < |f.parents|
    ensures s in PreOrder(f, ROOT) <==> ROOT in Path(f, s)
  {
    if ROOT in Path(f, s) {
      Descends(f, s, ROOT);
    }
    if s in PreOrder(f, ROOT) {
      Belongs(f, ROOT, s);
    }
  }

  lemma {:induction false} Descends(f: Forest, s: State, a: State)
    requires Wf(f) && s < |f.parents| && a in Path(f, s)
    ensures a < |f.parents| && s in PreOrder(f, a)
    decreases s
  {
    if s != a {
      var p := ParentOf(f, s).value;
      Descends(f, p, a);
      PreOrderClosed(f, a, p, s);
    }
  }

  /** With a state, pre-order visits its children. */
  lemma {:induction false} PreOrderClosed(f: Forest, a: State, p: State, c: State)
    requires Wf(f) && a < |f.parents| && c < |f.parents| && ParentOf(f, c) == Some(p) && p in PreOrder(f, a)
    ensures c in PreOrder(f, a)
    decreases |f.parents| - a, |f.kids[a]| + 1
  {
    if p == a {
      var k :| 0 <= k < |f.kids[a]| && f.kids[a][k] == c;
      ChildListed(f, a, 0, k);
    } else {
      ClosedFrom(f, a, 0, p, c);
    }
  }

  lemma {:induction false} ClosedFrom(f: Forest, a: State, k: nat, p: State, c: State)
    requires Wf(f) && a < |f.parents| && c < |f.parents| && k <= |f.kids[a]|
    requires ParentOf(f, c) == Some(p) && p in PreOrderFrom(f, a, k)
    ensures c in PreOrderFrom(f, a, k)
    decreases |f.parents| - a, |f.kids[a]| - k
  {
    var child := f.kids[a][k];
    assert ParentOf(f, child) == Some(a);
    if p in PreOrder(f, child) {
      PreOrderClosed(f, child, p, c);
    } else {
      ClosedFrom(f, a, k + 1, p, c);
    }
  }

  lemma {:induction false} ChildListed(f: Forest, a: State, j: nat, k: nat)
    requires Wf(f) && a < |f.parents| && j <= k < |f.kids[a]|
    ensures f.kids[a][k] in PreOrderFrom(f, a, j)
    decreases k - j
  {
    if j < k {
      ChildListed(f, a, j + 1, k);
    } else {
      assert PreOrder(f, f.kids[a][k])[0] == f.kids[a][k];
    }
  }

  /** Pre-order from `a` lists only descendants of `a`. */
  lemma {:induction false} Belongs(f: Forest, a: State, s: State)
    requires Wf(f) && a < |f.parents| && s in PreOrder(f, a)
    ensures s < |f.parents| && a in Path(f, s)
    decreases |f.parents| - a, |f.kids[a]| + 1
  {
    if s != a {
      BelongsFrom(f, a, 0, s);
    }
  }

  lemma {:induction false} BelongsFrom(f: Forest, a: State, k: nat, s: State)
    requires Wf(f) && a < |f.parents| && k <= |f.kids[a]| && s in PreOrderFrom(f, a, k)
    ensures s < |f.parents| && a in Path(f, s)
    decreases |f.parents| - a, |f.kids[a]| - k
  {
    var child := f.kids[a][k];
    assert ParentOf(f, child) == Some(a);
    if s in PreOrder(f, child) {
      Belongs(f, child, s);
      Higher(f, s, child, a);
    } else {
      BelongsFrom(f, a, k + 1, s);
    }
  }

  /** The parent of an ancestor is an ancestor. */
  lemma {:induction false} Higher(f: Forest, s: State, c: State, p: State)
    requires Shaped(f) && c in Path(f, s) && ParentOf(f, c) == Some(p)
    ensures p in Path(f, s)
    decreases s
  {
    if s == c {
      assert Path(f, p)[0] == p;
    } else {
      Higher(f, ParentOf(f, s).value, c, p);
    }
  }

  /** A state comes after its parent. */
  lemma {:induction false} ParentsFirst(f: Forest, a: State, k: nat) returns (j: nat)
    requires Wf(f) && a < |f.parents| && 0 < k < |PreOrder(f, a)|
    ensures j < k && ParentOf(f, PreOrder(f, a)[k]) == Some(PreOrder(f, a)[j])
    decreases |f.parents| - a, |f.kids[a]| + 1
  {
    var i := ParentsFirstFrom(f, a, 0, k - 1);
    j := i + 1;
    assert PreOrder(f, a) == [a] + PreOrderFrom(f, a, 0);
  }

  lemma {:induction false} ParentsFirstFrom(f: Forest, a: State, i: nat, k: nat) returns (j: int)
    requires Wf(f) && a < |f.parents| && i <= |f.kids[a]| && k < |PreOrderFrom(f, a, i)|
    ensures -1 <= j < k
    ensures ParentOf(f, PreOrderFrom(f, a, i)[k]) == Some(if j < 0 then a else PreOrderFrom(f, a, i)[j])
    decreases |f.parents| - a, |f.kids[a]| - i
  {
    var child := f.kids[a][i];
    assert ParentOf(f, child) == Some(a);
    var sub := PreOrder(f, child);
    if k >= |sub| {
      j := ParentsFirstFrom(f, a, i + 1, k - |sub|);
      j := if j < 0 then j else j + |sub|;
    } else if k == 0 {
      j := -1;
    } else {
      j := ParentsFirst(f, child, k);
    }
  }

  /** Pre-order from `ROOT` lists the proper ancestors of a state before it. */
  lemma {:induction false} AncestorsFirst(f: Forest, k: nat, a: State) returns (j: nat)
    requires Wf(f) && k < |PreOrder(f, ROOT)| && a != PreOrder(f, ROOT)[k] && a in Path(f, PreOrder(f, ROOT)[k])
    ensures j < k && PreOrder(f, ROOT)[j] == a
    decreases k
  {
    j := ParentsFirst(f, ROOT, k);
    if PreOrder(f, ROOT)[j] != a {
      j := AncestorsFirst(f, j, a);
    }
  }
}
