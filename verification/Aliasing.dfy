/** Datasets of 64 and more entries: entries 64 apart share a bit of the mask. */
module Aliasing {
  import opened Base
  import opened StateForest
  import opened Mask
  import opened Searching
  import opened Striking

  /** How many bits the initial mask has. */
  function Bits(dataset: seq<Payload>): nat {
    |dataset| % 64
  }

  /** Some entry with bit `j` is equal to the payload. */
  ghost predicate Alias(dataset: seq<Payload>, j: nat, v: Payload) {
    exists i: nat :: i < |dataset| && Bit(i) == j && dataset[i] == v
  }

  ghost function Slots(dataset: seq<Payload>, v: Payload): set<nat> {
    set j: nat | j < Bits(dataset) && Alias(dataset, j, v)
  }

  /** The bits for `v` that are struck off already. */
  ghost function Off(dataset: seq<Payload>, mask: nat, v: Payload): set<nat> {
    set j | j in Slots(dataset, v) && !On(mask, j)
  }

  ghost function Entries(dataset: seq<Payload>, v: Payload): set<nat> {
    set i: nat | i < |dataset| && dataset[i] == v
  }

  lemma {:induction false} EntriesCount(dataset: seq<Payload>, v: Payload)
    ensures |Entries(dataset, v)| == multiset(dataset)[v]
  {
    if dataset != [] {
      var n := |dataset| - 1;
      EntriesCount(dataset[..n], v);
      assert dataset == dataset[..n] + [dataset[n]];
      assert Entries(dataset, v) == Entries(dataset[..n], v) + if dataset[n] == v then {n} else {};
    }
  }

  lemma {:induction false} ImageSize(entries: set<nat>, slots: set<nat>)
    requires forall j :: j in slots ==> exists i :: i in entries && Bit(i) == j
    ensures |slots| <= |entries|
    decreases |slots|
  {
    if slots != {} {
      var j :| j in slots;
      var i :| i in entries && Bit(i) == j;
      forall x | x in slots - {j} ensures exists y :: y in entries - {i} && Bit(y) == x {
        var y :| y in entries && Bit(y) == x;
        assert y in entries - {i};
      }
      ImageSize(entries - {i}, slots - {j});
    }
  }

  /** There are no more bits for `v` than entries equal to it, and fewer if a bit has two of them. */
  lemma SlotsCount(dataset: seq<Payload>, v: Payload)
    ensures |Slots(dataset, v)| <= multiset(dataset)[v]
  {
    forall j | j in Slots(dataset, v) ensures exists i :: i in Entries(dataset, v) && Bit(i) == j {
      var i: nat :| i < |dataset| && Bit(i) == j && dataset[i] == v;
      assert i in Entries(dataset, v);
    }
    ImageSize(Entries(dataset, v), Slots(dataset, v));
    EntriesCount(dataset, v);
  }

  lemma SlotsFewer(dataset: seq<Payload>, v: Payload, j: nat)
    requires j + 64 < |dataset| && j < Bits(dataset) && dataset[j] == dataset[j + 64] == v
    ensures |Slots(dataset, v)| < multiset(dataset)[v]
  {
    var entries, rest := Entries(dataset, v), Entries(dataset, v) - {j + 64};
    forall x | x in Slots(dataset, v) ensures exists i :: i in rest && Bit(i) == x {
      if x == j {
        assert j in rest && Bit(j) == j;
      } else {
        var i: nat :| i < |dataset| && Bit(i) == x && dataset[i] == v;
        assert Bit(j + 64) == j && i in rest;
      }
    }
    ImageSize(rest, Slots(dataset, v));
    EntriesCount(dataset, v);
    assert j + 64 in entries && entries == rest + {j + 64};
  }

  /** While a bit for `v` is on, every `v` on the way has struck off a bit for `v`. */
  ghost predicate Struck(dataset: seq<Payload>, mask: nat, way: multiset<Payload>) {
    && (forall j: nat :: On(mask, j) ==> j < Bits(dataset))
    && forall j: nat, v :: On(mask, j) && Alias(dataset, j, v) ==> way[v] <= |Off(dataset, mask, v)|
  }

  lemma StruckInitially(dataset: seq<Payload>)
    ensures Struck(dataset, Initial(|dataset|), multiset{})
  {
    forall j: nat ensures On(Initial(|dataset|), j) == (j < Bits(dataset)) { LowBits(|dataset| % 64, j); }
  }

  lemma StruckOn(dataset: seq<Payload>, mask: nat, way: multiset<Payload>, z: Payload)
    requires Struck(dataset, mask, way)
    ensures Struck(dataset, Strike(dataset, mask, z, 0), way + multiset{z})
  {
    var m := Strike(dataset, mask, z, 0);
    var k := StrikeEffect(dataset, mask, z, 0);
    var l := Bit(k);
    if k < |dataset| {
      forall j: nat ensures On(m, j) == (On(mask, j) && j != l) { FlipBits(mask, l, j); }
      assert Alias(dataset, l, z);
    }
    forall j: nat, v | On(m, j) && Alias(dataset, j, v) ensures (way + multiset{z})[v] <= |Off(dataset, m, v)| {
      assert way[v] <= |Off(dataset, mask, v)|;
      if v == z {
        assert k < |dataset| by {
          var i: nat :| i < |dataset| && Bit(i) == j && dataset[i] == z;
          assert On(mask, Bit(i));
        }
        assert Off(dataset, m, z) == Off(dataset, mask, z) + {l} && l !in Off(dataset, mask, z);
      } else {
        OffGrows(dataset, mask, m, v);
      }
    }
  }

  lemma OffGrows(dataset: seq<Payload>, mask: nat, m: nat, v: Payload)
    requires forall j: nat :: On(m, j) ==> On(mask, j)
    ensures |Off(dataset, mask, v)| <= |Off(dataset, m, v)|
  {
    var a, b := Off(dataset, mask, v), Off(dataset, m, v);
    assert a <= b && b == a + (b - a);
  }

  lemma {:induction false} LeftStruck(f: Forest, dataset: seq<Payload>, s: State)
    requires Shaped(f)
    ensures Struck(dataset, Left(f, dataset, Initial(|dataset|), s), multiset(Travel(f, s)))
    decreases s
  {
    var above := LeftAbove(f, dataset, Initial(|dataset|), s);
    if ParentOf(f, s).Some? {
      LeftStruck(f, dataset, ParentOf(f, s).value);
    } else {
      StruckInitially(dataset);
    }
    assert Struck(dataset, above, multiset(Above(f, s)));
    if DataOf(f, s).Some? {
      StruckOn(dataset, above, multiset(Above(f, s)), DataOf(f, s).value);
    }
  }

  /** With 64 entries or more, a state that covers them has the mask empty already above it. */
  lemma CoveredTooEarly(f: Forest, dataset: seq<Payload>, s: State)
    requires Shaped(f) && |dataset| >= 64
    ensures Covers(f, multiset(dataset), s) ==>
              ParentOf(f, s).Some? && Left(f, dataset, Initial(|dataset|), ParentOf(f, s).value) == 0
  {
    if ParentOf(f, s).None? {
      assert |multiset(dataset)| > |multiset(Travel(f, s))|;
      SubSize(multiset(dataset), multiset(Travel(f, s)));
    } else {
      var p := ParentOf(f, s).value;
      var mask := Left(f, dataset, Initial(|dataset|), p);
      LeftStruck(f, dataset, p);
      if mask != 0 {
        var j := SomeBit(mask);
        assert j < Bits(dataset);
        var v := if DataOf(f, s) == Some(dataset[j]) then dataset[j + 64] else dataset[j];
        BitStillOn(dataset, mask, multiset(Travel(f, p)), DataOf(f, s), j, v);
        TravelCount(f, s, v);
        assert multiset(dataset)[v] > multiset(Travel(f, s))[v];
      }
    }
  }

  lemma SubSize<T>(a: multiset<T>, b: multiset<T>)
    ensures a <= b ==> |a| <= |b|
  {
    assert a <= b ==> b == a + (b - a);
  }

  lemma TravelCount(f: Forest, s: State, v: Payload)
    requires Shaped(f)
    ensures multiset(Travel(f, s))[v] == multiset(Above(f, s))[v] + (if DataOf(f, s) == Some(v) then 1 else 0)
  {
  }

  /** If bit `j` is on just before the last payload `z`, then with `z` some value is still short. */
  lemma BitStillOn(
    dataset: seq<Payload>, mask: nat, way: multiset<Payload>, z: Option<Payload>, j: nat, v: Payload)
    requires Struck(dataset, mask, way) && |dataset| >= 64 && On(mask, j) && j < Bits(dataset)
    requires v == if z == Some(dataset[j]) then dataset[j + 64] else dataset[j]
    ensures multiset(dataset)[v] > way[v] + (if z == Some(v) then 1 else 0)
  {
    assert Bit(j) == j && Bit(j + 64) == j && Alias(dataset, j, v);
    var slots, off := Slots(dataset, v), Off(dataset, mask, v);
    assert slots == (slots - {j}) + {j} && off <= slots - {j};
    SetSize(off, slots - {j});
    SlotsCount(dataset, v);
    if z == Some(v) {
      SlotsFewer(dataset, v, j);
    }
  }

  lemma SetSize<T>(a: set<T>, b: set<T>)
    requires a <= b
    ensures |a| <= |b|
  {
    assert b == a + (b - a);
  }
}
