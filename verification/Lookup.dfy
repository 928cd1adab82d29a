/** Finding a state by the payloads on its way from the root. */
module Lookup {
  import opened Base
  import opened StateForest
  import opened Mask
  import opened Searching
  import opened Striking
  import opened Aliasing

  ghost predicate FirstAt(states: seq<State>, ok: State -> bool, k: nat) {
    k < |states| && ok(states[k]) && forall j :: 0 <= j < k ==> !ok(states[j])
  }

  /** The first state of a list that will do. */
  ghost function First(states: seq<State>, ok: State -> bool): (r: Option<State>)
    ensures r.Some? ==> exists k: nat :: FirstAt(states, ok, k) && states[k] == r.value
    ensures r.None? ==> forall s :: s in states ==> !ok(s)
  {
    if states == [] then None
    else if ok(states[0]) then
      assert FirstAt(states, ok, 0);
      Some(states[0])
    else
      var r := First(states[1..], ok);
      FirstShift(states, ok, r);
      r
  }

  lemma FirstShift(states: seq<State>, ok: State -> bool, r: Option<State>)
    requires states != [] && !ok(states[0])
    requires r.Some? ==> exists k: nat :: FirstAt(states[1..], ok, k) && states[1..][k] == r.value
    ensures r.Some? ==> exists k: nat :: FirstAt(states, ok, k) && states[k] == r.value
  {
    if r.Some? {
      var k: nat :| FirstAt(states[1..], ok, k) && states[1..][k] == r.value;
      forall j | 0 <= j < k + 1 ensures !ok(states[j]) {
        assert j > 0 ==> states[j] == states[1..][j - 1];
      }
      assert FirstAt(states, ok, k + 1);
    }
  }

  lemma {:induction false} FirstConcat(a: seq<State>, b: seq<State>, ok: State -> bool)
    ensures First(a + b, ok) == if First(a, ok).Some? then First(a, ok) else First(b, ok)
    decreases |a|
  {
    if a == [] {
      assert a + b == b;
    } else {
      assert (a + b)[1..] == a[1..] + b;
      FirstConcat(a[1..], b, ok);
    }
  }

  lemma {:induction false} FirstSame(states: seq<State>, p: State -> bool, q: State -> bool)
    requires forall s :: s in states ==> p(s) == q(s)
    ensures First(states, p) == First(states, q)
  {
    if states != [] {
      assert states[0] in states;
      FirstSame(states[1..], p, q);
    }
  }

  /** What lookup is for: the way from the root accounts for the whole dataset. */
  ghost function Covering(f: Forest, dataset: seq<Payload>): State -> bool
    requires Shaped(f)
  {
    (s: State) => Covers(f, multiset(dataset), s)
  }

  /** What the search looks at: nothing is left of the mask. */
  ghost function Done(f: Forest, dataset: seq<Payload>, mask: nat): State -> bool
    requires Shaped(f)
  {
    (s: State) => Left(f, dataset, mask, s) == 0
  }

  /** One pass over the dataset. */
  method Tick(dataset: seq<Payload>, mask: nat, payload: Payload) returns (unmatched: nat)
    ensures unmatched == Strike(dataset, mask, payload, 0)
  {
    unmatched := mask;
    for i := 0 to |dataset|
      invariant unmatched == mask && Strike(dataset, mask, payload, 0) == Strike(dataset, mask, payload, i)
    {
      if On(unmatched, Bit(i)) && dataset[i] == payload {
        return Flip(unmatched, Bit(i));
      }
    }
  }

  lemma Branch(f: Forest, s: State, k: nat, ok: State -> bool)
    requires Wf(f) && s < |f.parents| && k < |f.kids[s]|
    ensures s < f.kids[s][k] < |f.parents| && ParentOf(f, f.kids[s][k]) == Some(s)
    ensures First(PreOrderFrom(f, s, k), ok) ==
            if First(PreOrder(f, f.kids[s][k]), ok).Some? then First(PreOrder(f, f.kids[s][k]), ok)
            else First(PreOrderFrom(f, s, k + 1), ok)
  {
    var child := f.kids[s][k];
    assert ParentOf(f, child) == Some(s);
    BranchSplit(f, s, k);
    FirstConcat(PreOrder(f, child), PreOrderFrom(f, s, k + 1), ok);
  }

  lemma BranchSplit(f: Forest, s: State, k: nat)
    requires Wf(f) && s < |f.parents| && k < |f.kids[s]| && s < f.kids[s][k] < |f.parents|
    ensures PreOrderFrom(f, s, k) == PreOrder(f, f.kids[s][k]) + PreOrderFrom(f, s, k + 1)
  {
  }

  lemma Verdict(f: Forest, s: State, ok: State -> bool)
    requires Wf(f) && s < |f.parents|
    ensures First(PreOrder(f, s), ok) == if ok(s) then Some(s) else First(PreOrderFrom(f, s, 0), ok)
  {
    FirstConcat([s], PreOrderFrom(f, s, 0), ok);
  }

  /** The recursive search: `mask` is what the way to the parent has left of `start`. */
  method Dfs(f: Forest, current: State, dataset: seq<Payload>, mask: nat, ghost start: nat)
    returns (found: Option<State>)
    requires Wf(f) && current < |f.parents| && mask == LeftAbove(f, dataset, start, current)
    ensures found == First(PreOrder(f, current), Done(f, dataset, start))
    decreases |f.parents| - current
  {
    ghost var ok := Done(f, dataset, start);
    var unmatched := mask;
    if DataOf(f, current).Some? {
      unmatched := Tick(dataset, unmatched, DataOf(f, current).value);
    }
    Verdict(f, current, ok);
    if unmatched == 0 {
      return Some(current);
    }
    var children := f.kids[current];
    for k := 0 to |children|
      invariant First(PreOrder(f, current), ok) == First(PreOrderFrom(f, current, k), ok)
    {
      Branch(f, current, k, ok);
      found := Dfs(f, children[k], dataset, unmatched, start);
      if found.Some? {
        return;
      }
    }
    found := None;
  }

  /** The pre-order-first covering state, for every dataset of fewer than 64 entries. From 64 entries on
      the mask has wrapped: a miss is still right, and every hit is wrong. */
  method LookupState(f: Forest, dataset: seq<Payload>) returns (found: Option<State>)
    requires Wf(f)
    ensures found == First(PreOrder(f, ROOT), Done(f, dataset, Initial(|dataset|)))
    ensures found == First(PreOrder(f, ROOT), Covering(f, dataset)) <==> |dataset| < 64 || found.None?
    ensures |dataset| % 64 == 0 ==> found == Some(ROOT)
  {
    var unmatched := Initial(|dataset|);
    found := Dfs(f, ROOT, dataset, unmatched, unmatched);
    if |dataset| < 64 {
      SearchExact(f, dataset);
    } else {
      SearchEarly(f, dataset);
    }
    WrappedMask(f, dataset);
  }

  lemma SearchExact(f: Forest, dataset: seq<Payload>)
    requires Wf(f) && |dataset| < 64
    ensures First(PreOrder(f, ROOT), Done(f, dataset, Initial(|dataset|))) ==
            First(PreOrder(f, ROOT), Covering(f, dataset))
  {
    var p, q := Done(f, dataset, Initial(|dataset|)), Covering(f, dataset);
    forall s | s in PreOrder(f, ROOT) ensures p(s) == q(s) {
      LeftCovers(f, dataset, s);
    }
    FirstSame(PreOrder(f, ROOT), p, q);
  }

  /** From 64 entries on, the search stops above every covering state. */
  lemma SearchEarly(f: Forest, dataset: seq<Payload>)
    requires Wf(f) && |dataset| >= 64
    ensures var found, wanted := First(PreOrder(f, ROOT), Done(f, dataset, Initial(|dataset|))),
                                 First(PreOrder(f, ROOT), Covering(f, dataset));
      found == wanted <==> found.None?
  {
    var states, p, q := PreOrder(f, ROOT), Done(f, dataset, Initial(|dataset|)), Covering(f, dataset);
    if First(states, q).Some? {
      var k: nat :| FirstAt(states, q, k) && states[k] == First(states, q).value;
      CoveredTooEarly(f, dataset, states[k]);
      var a := ParentOf(f, states[k]).value;
      assert a in Path(f, states[k]) && p(a);
      var j := AncestorsFirst(f, k, a);
      assert a in states;
      EarlierFirst(states, p, q, j, k);
    }
  }

  lemma EarlierFirst(states: seq<State>, p: State -> bool, q: State -> bool, j: nat, k: nat)
    requires j < k && FirstAt(states, q, k) && p(states[j])
    ensures First(states, p).Some? && First(states, p) != Some(states[k])
  {
    assert states[j] in states && First(states, p).Some?;
    var i: nat :| FirstAt(states, p, i) && states[i] == First(states, p).value;
    assert i <= j;
  }

  lemma WrappedMask(f: Forest, dataset: seq<Payload>)
    requires Wf(f)
    ensures |dataset| % 64 == 0 ==>
              First(PreOrder(f, ROOT), Done(f, dataset, Initial(|dataset|))) == Some(ROOT)
  {
    if |dataset| % 64 == 0 {
      forall j: nat ensures !On(0, j) { ZeroBits(j); }
      assert Left(f, dataset, 0, ROOT) == 0 by {
        if DataOf(f, ROOT).Some? {
          var k := StrikeEffect(dataset, 0, DataOf(f, ROOT).value, 0);
        }
      }
      Verdict(f, ROOT, Done(f, dataset, 0));
    }
  }

  /** A miss means that no state below the root covers the dataset. */
  lemma FirstExact(f: Forest, dataset: seq<Payload>)
    requires Wf(f)
    ensures First(PreOrder(f, ROOT), Covering(f, dataset)).None? <==>
            forall s: State :: s < |f.parents| && ROOT in Path(f, s) ==> !Covers(f, multiset(dataset), s)
  {
    if First(PreOrder(f, ROOT), Covering(f, dataset)).None? {
      forall s: State | s < |f.parents| && ROOT in Path(f, s) ensures !Covers(f, multiset(dataset), s) {
        PreOrderComplete(f, s);
        assert !Covering(f, dataset)(s);
      }
    } else {
      HitBelongs(f, dataset);
    }
  }

  lemma HitBelongs(f: Forest, dataset: seq<Payload>)
    requires Wf(f) && First(PreOrder(f, ROOT), Covering(f, dataset)).Some?
    ensures var s := First(PreOrder(f, ROOT), Covering(f, dataset)).value;
      s < |f.parents| && ROOT in Path(f, s) && Covers(f, multiset(dataset), s)
  {
    var states, ok := PreOrder(f, ROOT), Covering(f, dataset);
    var k: nat :| FirstAt(states, ok, k) && states[k] == First(states, ok).value;
    Belongs(f, ROOT, states[k]);
  }

  // ---- The size decides ----

  /** The search gives the right answer in this tree. */
  ghost predicate Right(f: Forest, dataset: seq<Payload>)
    requires Wf(f)
  {
    First(PreOrder(f, ROOT), Done(f, dataset, Initial(|dataset|))) == First(PreOrder(f, ROOT), Covering(f, dataset))
  }

  /** The last state of a chain with so many payloads. */
  function Tip(n: nat): State {
    if n <= 1 then ROOT else n
  }

  /** A tree that is one chain from the root down, carrying the dataset. */
  ghost function Chain(dataset: seq<Payload>): (f: Forest)
    requires dataset != []
    ensures Wf(f) && |f.parents| == |dataset| + 1 && Tip(|dataset|) < |f.parents|
  {
    var n := |dataset| - 1;
    if n == 0 then Planted(dataset[0])
    else
      var f := Chain(dataset[..n]);
      GrownWf(f, Tip(n), dataset[n]);
      Grown(f, Tip(n), dataset[n])
  }

  lemma {:induction false} GrownTravel(f: Forest, parent: State, data: Payload, s: State)
    requires Wf(f) && parent < |f.parents| && s < |f.parents|
    ensures Wf(Grown(f, parent, data)) && Travel(Grown(f, parent, data), s) == Travel(f, s)
    decreases s
  {
    GrownWf(f, parent, data);
    if ParentOf(f, s).Some? {
      GrownTravel(f, parent, data, ParentOf(f, s).value);
    }
  }

  lemma {:induction false} ChainTravels(dataset: seq<Payload>)
    requires dataset != []
    ensures Travel(Chain(dataset), Tip(|dataset|)) == dataset && ROOT in Path(Chain(dataset), Tip(|dataset|))
  {
    var n := |dataset| - 1;
    if n == 0 {
      assert Travel(Chain(dataset), ROOT) == [dataset[0]];
    } else {
      ChainTravels(dataset[..n]);
      assert dataset == dataset[..n] + [dataset[n]];
      GrownTip(Chain(dataset[..n]), Tip(n), dataset[n]);
    }
  }

  lemma GrownTip(f: Forest, parent: State, data: Payload)
    requires Wf(f) && parent < |f.parents| && ROOT in Path(f, parent)
    ensures var g, s := Grown(f, parent, data), |f.parents|;
      Wf(g) && Travel(g, s) == Travel(f, parent) + [data] && ROOT in Path(g, s)
  {
    GrownTravel(f, parent, data, parent);
    GrownPath(f, parent, data, parent);
    assert ParentOf(Grown(f, parent, data), |f.parents|) == Some(parent);
  }

  /** Lookup is right in every tree if and only if the dataset has fewer than 64 entries. */
  lemma RightBySize(dataset: seq<Payload>)
    ensures (forall f :: Wf(f) ==> Right(f, dataset)) <==> |dataset| < 64
  {
    if |dataset| < 64 {
      forall f | Wf(f) ensures Right(f, dataset) {
        SearchExact(f, dataset);
      }
    } else {
      ChainWrong(dataset);
    }
  }

  lemma ChainWrong(dataset: seq<Payload>)
    requires |dataset| >= 64
    ensures !Right(Chain(dataset), dataset)
  {
    ChainTravels(dataset);
    WrongAt(Chain(dataset), dataset, Tip(|dataset|));
  }

  /** From 64 entries on the search is wrong wherever some state below the root covers them. */
  lemma WrongAt(f: Forest, dataset: seq<Payload>, s: State)
    requires Wf(f) && s < |f.parents| && ROOT in Path(f, s) && Travel(f, s) == dataset && |dataset| >= 64
    ensures !Right(f, dataset)
  {
    PreOrderComplete(f, s);
    assert Covering(f, dataset)(s);
    SearchEarly(f, dataset);
  }
}
