/** The tasks that run, as the history of committed starts and stops determines them; their handles. */
module Rosters {
  import opened Base
  import opened Operations
  import opened Reconciling
  import opened Discipline
  import opened Conserving

  /** Started and committed, less stopped and committed, since the consumers were last cleared; and
      whether no handle was ever started twice. */
  datatype Roster = Roster(running: set<nat>, started: set<nat>, distinct: bool)

  const NOBODY := Roster({}, {}, true)

  predicate Starts(op: Op) {
    op.StartLocal? || op.StartMt?
  }

  predicate TaskOp(op: Op) {
    Starts(op) || op.StopOp?
  }

  function Enroll(r: Roster, op: Op): Roster {
    if Starts(op) then Roster(r.running + {op.handle}, r.started + {op.handle}, r.distinct && op.handle !in r.started)
    else if op.StopOp? then r.(running := r.running - {op.handle})
    else r
  }

  function Mark(r: Roster, n: Note): Roster {
    if n.Committed? then Enroll(r, n.op)
    else if n.Cleared? then r.(running := {})
    else r
  }

  function RosterOf(r: Roster, ledger: seq<Note>): Roster
    decreases |ledger|
  {
    if ledger == [] then r else RosterOf(Mark(r, ledger[0]), ledger[1..])
  }

  lemma {:induction false} RosterConcat(r: Roster, a: seq<Note>, b: seq<Note>)
    ensures RosterOf(r, a + b) == RosterOf(RosterOf(r, a), b)
    decreases |a|
  {
    if a == [] {
      assert a + b == b;
    } else {
      assert (a + b)[1..] == a[1..] + b;
      RosterConcat(Mark(r, a[0]), a[1..], b);
    }
  }

  lemma RosterOne(ledger: seq<Note>, n: Note)
    ensures RosterOf(NOBODY, ledger + [n]) == Mark(RosterOf(NOBODY, ledger), n)
  {
    RosterConcat(NOBODY, ledger, [n]);
    var r := RosterOf(NOBODY, ledger);
    assert RosterOf(r, [n]) == RosterOf(Mark(r, n), [n][1..]);
  }

  lemma {:induction false} NobodyMoved(r: Roster, notes: seq<Note>)
    requires forall n :: n in notes ==> !n.Committed? && !n.Cleared?
    ensures RosterOf(r, notes) == r
    decreases |notes|
  {
    if notes != [] {
      assert notes[0] in notes;
      NobodyMoved(r, notes[1..]);
    }
  }

  predicate StartedAt(ledger: seq<Note>, i: nat, h: nat) {
    i < |ledger| && ledger[i].Committed? && Starts(ledger[i].op) && ledger[i].op.handle == h
  }

  predicate StoppedAt(ledger: seq<Note>, i: nat, h: nat) {
    i < |ledger| && ledger[i].Committed? && ledger[i].op.StopOp? && ledger[i].op.handle == h
  }

  /** A stop of `h` was committed, or the consumers were cleared. */
  predicate EndedAt(ledger: seq<Note>, i: nat, h: nat) {
    i < |ledger| && (ledger[i].Cleared? || StoppedAt(ledger, i, h))
  }

  /** A start of `h` was committed and no stop of `h` was committed after it. */
  ghost predicate Unstopped(ledger: seq<Note>, h: nat) {
    exists i: nat :: StartedAt(ledger, i, h) && forall j: nat :: i < j ==> !StoppedAt(ledger, j, h)
  }

  /** Nor were the consumers cleared after it. */
  ghost predicate Followed(ledger: seq<Note>, h: nat) {
    exists i: nat :: StartedAt(ledger, i, h) && forall j: nat :: i < j ==> !EndedAt(ledger, j, h)
  }

  ghost predicate NeverEnded(ledger: seq<Note>, h: nat) {
    forall j: nat :: !EndedAt(ledger, j, h)
  }

  lemma FollowedShift(ledger: seq<Note>, h: nat)
    requires ledger != []
    ensures NeverEnded(ledger, h) <==> !EndedAt(ledger, 0, h) && NeverEnded(ledger[1..], h)
    ensures Followed(ledger, h) <==>
            Followed(ledger[1..], h) || (StartedAt(ledger, 0, h) && NeverEnded(ledger[1..], h))
  {
    var rest := ledger[1..];
    assert forall j: nat :: EndedAt(rest, j, h) == EndedAt(ledger, j + 1, h);
    assert forall j: nat :: StartedAt(rest, j, h) == StartedAt(ledger, j + 1, h);
    assert forall j: nat :: j > 0 ==> EndedAt(ledger, j, h) == EndedAt(rest, j - 1, h);
    if i: nat :| StartedAt(rest, i, h) && forall j: nat :: i < j ==> !EndedAt(rest, j, h) {
      assert StartedAt(ledger, i + 1, h);
    }
    if i: nat :| StartedAt(ledger, i, h) && forall j: nat :: i < j ==> !EndedAt(ledger, j, h) {
      if i > 0 {
        assert StartedAt(rest, i - 1, h);
      }
    }
  }

  /** The roster lists the tasks that were started and not stopped since the last clear. */
  lemma {:induction false} RosterMeans(r: Roster, ledger: seq<Note>, h: nat)
    ensures h in RosterOf(r, ledger).running <==> Followed(ledger, h) || (h in r.running && NeverEnded(ledger, h))
    decreases |ledger|
  {
    if ledger != [] {
      FollowedShift(ledger, h);
      RosterMeans(Mark(r, ledger[0]), ledger[1..], h);
    }
  }

  /** A clear stops nobody. */
  lemma ClearStopsNobody(ledger: seq<Note>, h: nat)
    ensures Unstopped(ledger + [Cleared], h) <==> Unstopped(ledger, h)
  {
    var more := ledger + [Cleared];
    assert forall j: nat :: StoppedAt(more, j, h) == StoppedAt(ledger, j, h);
    assert forall j: nat :: StartedAt(more, j, h) == StartedAt(ledger, j, h);
    if i: nat :| StartedAt(more, i, h) && forall j: nat :: i < j ==> !StoppedAt(more, j, h) {
      assert StartedAt(ledger, i, h);
    }
    if i: nat :| StartedAt(ledger, i, h) && forall j: nat :: i < j ==> !StoppedAt(ledger, j, h) {
      assert StartedAt(more, i, h);
    }
  }

  /** No two committed starts carry one handle. */
  ghost predicate FreshHandles(ledger: seq<Note>) {
    forall i: nat, j: nat, h: nat :: StartedAt(ledger, i, h) && StartedAt(ledger, j, h) ==> i == j
  }

  ghost predicate Unused(ledger: seq<Note>, used: set<nat>) {
    forall i: nat, h: nat :: StartedAt(ledger, i, h) ==> h !in used
  }

  lemma {:induction false} RosterDistinct(r: Roster, ledger: seq<Note>)
    ensures RosterOf(r, ledger).distinct <==> r.distinct && FreshHandles(ledger) && Unused(ledger, r.started)
    decreases |ledger|
  {
    if ledger != [] {
      var rest := ledger[1..];
      FreshShift(ledger, r.started);
      RosterDistinct(Mark(r, ledger[0]), rest);
    }
  }

  lemma FreshShift(ledger: seq<Note>, used: set<nat>)
    requires ledger != []
    ensures var first := ledger[0].Committed? && Starts(ledger[0].op);
      FreshHandles(ledger) && Unused(ledger, used) <==>
      if first then
        var h := ledger[0].op.handle; h !in used && FreshHandles(ledger[1..]) && Unused(ledger[1..], used + {h})
      else FreshHandles(ledger[1..]) && Unused(ledger[1..], used)
  {
    var rest := ledger[1..];
    assert forall j: nat, h: nat :: StartedAt(rest, j, h) == StartedAt(ledger, j + 1, h);
    assert forall j: nat, h: nat :: j > 0 ==> StartedAt(ledger, j, h) == StartedAt(rest, j - 1, h);
    if ledger[0].Committed? && Starts(ledger[0].op) {
      assert StartedAt(ledger, 0, ledger[0].op.handle);
    }
  }

  // ---- Handles ----

  /** Handles come from a 64-bit counter, which wraps around. */
  const HANDLES := 0x1_0000_0000_0000_0000

  class HandleCounter {
    var counter: nat
    ghost var taken: nat

    ghost predicate Valid() reads this {
      counter == taken % HANDLES
    }

    constructor ()
      ensures Valid() && taken == 0
    {
      counter, taken := 0, 0;
    }

    /** `TaskHandle::next`. */
    method Next() returns (handle: nat)
      requires Valid()
      modifies this
      ensures Valid() && taken == old(taken) + 1 && handle == old(taken) % HANDLES
    {
      handle := counter;
      counter := if counter + 1 == HANDLES then 0 else counter + 1;
      taken := taken + 1;
    }
  }

  /** The handles of the starts that were ever asked for, in the order of asking. */
  function HandlesAsked(ledger: seq<Note>): seq<nat> {
    if ledger == [] then []
    else (if Enters(ledger[0]) && Starts(ledger[0].op) then [ledger[0].op.handle] else []) + HandlesAsked(ledger[1..])
  }

  /** The starts of one task. */
  function StartsOf(h: nat): Choice {
    (e: Entry) => Starts(e.op) && e.op.handle == h
  }

  ghost function Occurs(s: seq<nat>, h: nat): nat {
    if s == [] then 0 else (if s[0] == h then 1 else 0) + Occurs(s[1..], h)
  }

  lemma {:induction false} OccursConcat(a: seq<nat>, b: seq<nat>, h: nat)
    ensures Occurs(a + b, h) == Occurs(a, h) + Occurs(b, h)
    decreases |a|
  {
    if a == [] {
      assert a + b == b;
    } else {
      assert (a + b)[1..] == a[1..] + b;
      OccursConcat(a[1..], b, h);
    }
  }

  lemma {:induction false} OccursOnce(s: seq<nat>, h: nat)
    requires NoDup(s)
    ensures Occurs(s, h) == if h in s then 1 else 0
  {
    if s != [] {
      assert forall x :: x in s <==> x == s[0] || x in s[1..];
      OccursOnce(s[1..], h);
    }
  }

  lemma {:induction false} InsAreAsked(ledger: seq<Note>, h: nat)
    ensures Ins(ledger, StartsOf(h)) == Occurs(HandlesAsked(ledger), h)
  {
    if ledger != [] {
      var first := if Enters(ledger[0]) && Starts(ledger[0].op) then [ledger[0].op.handle] else [];
      InsAreAsked(ledger[1..], h);
      OccursConcat(first, HandlesAsked(ledger[1..]), h);
      assert first != [] ==> first[1..] == [];
    }
  }

  lemma {:induction false} OutsAtLeast(ledger: seq<Note>, i: nat, h: nat)
    requires StartedAt(ledger, i, h)
    ensures Outs(ledger, StartsOf(h)) >= 1
  {
    if i > 0 {
      OutsAtLeast(ledger[1..], i - 1, h);
    }
  }

  lemma {:induction false} OutsTwice(ledger: seq<Note>, i: nat, j: nat, h: nat)
    requires i < j && StartedAt(ledger, i, h) && StartedAt(ledger, j, h)
    ensures Outs(ledger, StartsOf(h)) >= 2
  {
    if i > 0 {
      OutsTwice(ledger[1..], i - 1, j - 1, h);
    } else {
      OutsAtLeast(ledger[1..], j - 1, h);
    }
  }

  /** The handles were drawn from the counter, each at a draw of its own among the first `taken`. */
  ghost predicate Drawn(asked: seq<nat>, taken: nat) {
    exists draws: seq<nat> :: Draws(asked, draws, taken)
  }

  ghost predicate Draws(asked: seq<nat>, draws: seq<nat>, taken: nat) {
    && |draws| == |asked|
    && (forall i :: 0 <= i < |draws| ==> draws[i] < taken && asked[i] == draws[i] % HANDLES)
    && forall i, j :: 0 <= i < j < |draws| ==> draws[i] < draws[j]
  }

  lemma {:induction false} AskedConcat(a: seq<Note>, b: seq<Note>)
    ensures HandlesAsked(a + b) == HandlesAsked(a) + HandlesAsked(b)
    decreases |a|
  {
    if a == [] {
      assert a + b == b;
    } else {
      assert (a + b)[1..] == a[1..] + b;
      AskedConcat(a[1..], b);
    }
  }

  lemma {:induction false} NothingAsked(notes: seq<Note>)
    requires forall n :: n in notes ==> n.Displaced? || n.Lost?
    ensures HandlesAsked(notes) == []
  {
    if notes != [] {
      assert notes[0] in notes;
      NothingAsked(notes[1..]);
    }
  }

  lemma StageAsks(b: Book, op: Op, priority: Option<nat>)
    ensures HandlesAsked(Stage(b, op, priority).ledger) ==
            HandlesAsked(b.ledger) + (if Starts(op) then [op.handle] else [])
  {
    var more, last := StageShape(b, op, priority);
    AskedConcat(b.ledger, more);
    AskedConcat(b.ledger + more, [last]);
    NothingAsked(more);
    assert [last][1..] == [];
    assert HandlesAsked([last]) == if Starts(op) then [op.handle] else [];
  }

  /** Staging keeps to drawn handles, as long as a start carries the handle of the next draw. */
  lemma StageDrawn(b: Book, op: Op, priority: Option<nat>, taken: nat)
    requires Drawn(HandlesAsked(b.ledger), taken) && (Starts(op) ==> op.handle == taken % HANDLES)
    ensures Drawn(HandlesAsked(Stage(b, op, priority).ledger), if Starts(op) then taken + 1 else taken)
  {
    var asked := HandlesAsked(b.ledger);
    var draws: seq<nat> :| Draws(asked, draws, taken);
    StageAsks(b, op, priority);
    if Starts(op) {
      assert Draws(asked + [op.handle], draws + [taken], taken + 1);
    } else {
      assert asked + [] == asked;
    }
  }

  /** The spawners' `start_task`: a handle is drawn and the start staged under it. */
  method StartTask(counter: HandleCounter, reconciler: Reconciler, mt: bool) returns (handle: nat)
    requires counter.Valid() && reconciler.Valid()
    modifies counter, reconciler
    ensures counter.Valid() && reconciler.Valid()
    ensures handle == old(counter.taken) % HANDLES && counter.taken == old(counter.taken) + 1
    ensures var op := if mt then StartMt(handle) else StartLocal(handle);
      reconciler.Model() == Stage(old(reconciler.Model()), op, None)
    ensures old(Drawn(HandlesAsked(reconciler.ledger), counter.taken)) ==>
              Drawn(HandlesAsked(reconciler.ledger), counter.taken)
  {
    ghost var b, taken := reconciler.Model(), counter.taken;
    handle := counter.Next();
    var op := if mt then StartMt(handle) else StartLocal(handle);
    var _ := reconciler.StageBoxed(op, None);
    if Drawn(HandlesAsked(b.ledger), taken) {
      StageDrawn(b, op, None, taken);
    }
  }

  /** Within the counter's range, drawn handles are fresh in every history whose accounts are even: no
      operation is committed more often than it was asked for. */
  lemma DrawnFresh(b: Book, taken: nat)
    requires (forall h :: Even(b, StartsOf(h))) && Drawn(HandlesAsked(b.ledger), taken) && taken <= HANDLES
    ensures FreshHandles(b.ledger)
  {
    var asked := HandlesAsked(b.ledger);
    var draws: seq<nat> :| Draws(asked, draws, taken);
    DrawsDiffer(asked, draws, taken);
    forall i: nat, j: nat, h: nat | StartedAt(b.ledger, i, h) && StartedAt(b.ledger, j, h) ensures i == j {
      OccursOnce(asked, h);
      InsAreAsked(b.ledger, h);
      assert Even(b, StartsOf(h));
      if i < j {
        OutsTwice(b.ledger, i, j, h);
      } else if j < i {
        OutsTwice(b.ledger, j, i, h);
      }
    }
  }

  lemma DrawsDiffer(asked: seq<nat>, draws: seq<nat>, taken: nat)
    requires Draws(asked, draws, taken) && taken <= HANDLES
    ensures NoDup(asked)
  {
    forall i, j | 0 <= i < j < |asked| ensures asked[i] != asked[j] {
      assert asked[i] == draws[i] && asked[j] == draws[j] && draws[i] < draws[j];
    }
  }

  lemma FilingsEnrollNobody(a: seq<Note>, b: seq<Note>)
    requires Continues(a, b, Filed)
    ensures RosterOf(NOBODY, b) == RosterOf(NOBODY, a)
  {
    assert b == a + b[|a|..];
    RosterConcat(NOBODY, a, b[|a|..]);
    NobodyMoved(RosterOf(NOBODY, a), b[|a|..]);
  }
}
