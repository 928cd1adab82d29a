/** Striking dataset entries off the mask on the way to a state. */
module Striking {
  import opened Base
  import opened StateForest
  import opened Mask
  import opened Searching

  /** The way to `s` accounts for everything wanted, duplicates counted. */
  ghost predicate Covers(f: Forest, want: multiset<Payload>, s: State)
    requires Shaped(f)
  {
    want <= multiset(Travel(f, s))
  }

  /** The bit of an entry; an unchecked 64-bit shift reduces its amount modulo 64. */
  function Bit(i: nat): nat {
    i % 64
  }

  /** The pass over the dataset at one state, from entry `i` on: the first entry that is equal to the
      payload and whose bit is on is struck off. */
  function Strike(dataset: seq<Payload>, mask: nat, payload: Payload, i: nat): nat
    requires i <= |dataset|
    decreases |dataset| - i
  {
    if i == |dataset| then mask
    else if On(mask, Bit(i)) && dataset[i] == payload then Flip(mask, Bit(i))
    else Strike(dataset, mask, payload, i + 1)
  }

  function StrikeAt(f: Forest, dataset: seq<Payload>, mask: nat, s: State): nat {
    if DataOf(f, s).Some? then Strike(dataset, mask, DataOf(f, s).value, 0) else mask
  }

  /** What is left of the mask on the way from the root to `s`. */
  function Left(f: Forest, dataset: seq<Payload>, mask: nat, s: State): nat
    requires Shaped(f)
    decreases s, 1
  {
    StrikeAt(f, dataset, LeftAbove(f, dataset, mask, s), s)
  }

  function LeftAbove(f: Forest, dataset: seq<Payload>, mask: nat, s: State): nat
    requires Shaped(f)
    decreases s, 0
  {
    if ParentOf(f, s).Some? then Left(f, dataset, mask, ParentOf(f, s).value) else mask
  }

  /** A pass strikes off one entry that is equal to the payload, or there is none with its bit on. */
  lemma {:induction false} StrikeEffect(dataset: seq<Payload>, mask: nat, payload: Payload, i: nat) returns (k: nat)
    requires i <= |dataset|
    ensures i <= k <= |dataset|
    ensures k < |dataset| ==>
              On(mask, Bit(k)) && dataset[k] == payload && Strike(dataset, mask, payload, i) == Flip(mask, Bit(k))
    ensures k == |dataset| ==>
              Strike(dataset, mask, payload, i) == mask
              && forall j :: i <= j < |dataset| && On(mask, Bit(j)) ==> dataset[j] != payload
    decreases |dataset| - i
  {
    if i == |dataset| || (On(mask, Bit(i)) && dataset[i] == payload) {
      k := i;
    } else {
      k := StrikeEffect(dataset, mask, payload, i + 1);
    }
  }

  // ---- The mask and the multiset it stands for ----

  /** The dataset entries from `i` on whose bit is on. */
  ghost function Needed(dataset: seq<Payload>, mask: nat, i: nat): multiset<Payload>
    requires i <= |dataset|
    decreases |dataset| - i
  {
    if i == |dataset| then multiset{}
    else (if On(mask, i) then multiset{dataset[i]} else multiset{}) + Needed(dataset, mask, i + 1)
  }

  /** No bit beyond the dataset is on. */
  ghost predicate Fits(dataset: seq<Payload>, mask: nat) {
    forall j: nat :: j >= |dataset| ==> !On(mask, j)
  }

  lemma {:induction false} NeededSame(dataset: seq<Payload>, a: nat, b: nat, i: nat)
    requires i <= |dataset| && forall j: nat :: i <= j < |dataset| ==> On(a, j) == On(b, j)
    ensures Needed(dataset, a, i) == Needed(dataset, b, i)
    decreases |dataset| - i
  {
    if i < |dataset| {
      NeededSame(dataset, a, b, i + 1);
    }
  }

  lemma {:induction false} NeededFlip(dataset: seq<Payload>, mask: nat, k: nat, i: nat)
    requires i <= k < |dataset| && On(mask, k)
    ensures Needed(dataset, mask, i) == Needed(dataset, Flip(mask, k), i) + multiset{dataset[k]}
    decreases k - i
  {
    FlipBits(mask, k, i);
    if i == k {
      forall j: nat | i < j < |dataset| ensures On(Flip(mask, k), j) == On(mask, j) {
        FlipBits(mask, k, j);
      }
      NeededSame(dataset, mask, Flip(mask, k), i + 1);
    } else {
      NeededFlip(dataset, mask, k, i + 1);
    }
  }

  lemma {:induction false} NeededAbsent(dataset: seq<Payload>, mask: nat, d: Payload, i: nat)
    requires i <= |dataset| && forall j: nat :: i <= j < |dataset| && On(mask, j) ==> dataset[j] != d
    ensures d !in Needed(dataset, mask, i)
    decreases |dataset| - i
  {
    if i < |dataset| {
      NeededAbsent(dataset, mask, d, i + 1);
    }
  }

  lemma {:induction false} NeededBit(dataset: seq<Payload>, mask: nat, j: nat, i: nat)
    requires i <= j < |dataset| && On(mask, j)
    ensures dataset[j] in Needed(dataset, mask, i)
    decreases j - i
  {
    if i < j {
      NeededBit(dataset, mask, j, i + 1);
    }
  }

  /** The mask is zero exactly when nothing is needed any more. */
  lemma ZeroNeeds(dataset: seq<Payload>, mask: nat)
    requires Fits(dataset, mask)
    ensures mask == 0 <==> Needed(dataset, mask, 0) == multiset{}
  {
    if mask == 0 {
      forall j: nat ensures !On(mask, j) { ZeroBits(j); }
      if Needed(dataset, 0, 0) != multiset{} {
        var d :| d in Needed(dataset, 0, 0);
        NeededAbsent(dataset, 0, d, 0);
      }
    } else {
      var j := SomeBit(mask);
      NeededBit(dataset, mask, j, 0);
    }
  }

  lemma {:induction false} NeededAll(dataset: seq<Payload>, mask: nat, i: nat)
    requires i <= |dataset| && forall j: nat :: j < |dataset| ==> On(mask, j)
    ensures Needed(dataset, mask, i) == multiset(dataset[i..])
    decreases |dataset| - i
  {
    if i < |dataset| {
      NeededAll(dataset, mask, i + 1);
      assert dataset[i..] == [dataset[i]] + dataset[i + 1..];
    }
  }

  // ---- Fewer than 64 entries: the mask stands for what the way does not account for ----

  lemma StrikeNeeds(dataset: seq<Payload>, mask: nat, payload: Payload)
    requires Fits(dataset, mask) && |dataset| < 64
    ensures var m := Strike(dataset, mask, payload, 0);
      Fits(dataset, m) && Needed(dataset, m, 0) == Needed(dataset, mask, 0) - multiset{payload}
  {
    var k := StrikeEffect(dataset, mask, payload, 0);
    if k < |dataset| {
      NeededFlip(dataset, mask, k, 0);
      forall j: nat | j >= |dataset| ensures !On(Flip(mask, k), j) { FlipBits(mask, k, j); }
    } else {
      forall j: nat | j < |dataset| && On(mask, j) ensures dataset[j] != payload {
        assert On(mask, Bit(j));
      }
      NeededAbsent(dataset, mask, payload, 0);
    }
  }

  /** Ticking off the payload of `s` turns the payloads above `s` into those down to `s`. */
  lemma TravelStep(f: Forest, s: State, want: multiset<Payload>)
    requires Shaped(f)
    ensures want - multiset(Travel(f, s)) ==
            if DataOf(f, s).Some? then want - multiset(Above(f, s)) - multiset{DataOf(f, s).value}
            else want - multiset(Above(f, s))
  {
  }

  lemma InitialNeeds(dataset: seq<Payload>)
    requires |dataset| < 64
    ensures Fits(dataset, Initial(|dataset|)) && Needed(dataset, Initial(|dataset|), 0) == multiset(dataset)
  {
    forall j: nat ensures On(Initial(|dataset|), j) == (j < |dataset|) { LowBits(|dataset|, j); }
    NeededAll(dataset, Initial(|dataset|), 0);
    assert dataset[0..] == dataset;
  }

  lemma {:induction false} LeftNeeds(f: Forest, dataset: seq<Payload>, s: State)
    requires Shaped(f) && |dataset| < 64
    ensures var m := Left(f, dataset, Initial(|dataset|), s);
      Fits(dataset, m) && Needed(dataset, m, 0) == multiset(dataset) - multiset(Travel(f, s))
    decreases s
  {
    var above := LeftAbove(f, dataset, Initial(|dataset|), s);
    if ParentOf(f, s).Some? {
      LeftNeeds(f, dataset, ParentOf(f, s).value);
    } else {
      InitialNeeds(dataset);
      assert multiset(dataset) - multiset(Above(f, s)) == multiset(dataset);
    }
    TravelStep(f, s, multiset(dataset));
    if DataOf(f, s).Some? {
      StrikeNeeds(dataset, above, DataOf(f, s).value);
    }
  }

  /** The mask is empty exactly at the states that cover the dataset. */
  lemma LeftCovers(f: Forest, dataset: seq<Payload>, s: State)
    requires Shaped(f) && |dataset| < 64
    ensures Left(f, dataset, Initial(|dataset|), s) == 0 <==> Covers(f, multiset(dataset), s)
  {
    var m, want, have := Left(f, dataset, Initial(|dataset|), s), multiset(dataset), multiset(Travel(f, s));
    LeftNeeds(f, dataset, s);
    ZeroNeeds(dataset, m);
    if !(want <= have) {
      var d :| want[d] > have[d];
      assert (want - have)[d] > 0;
    }
  }
}
