/** The ticketed pool of pending operations with its rule pipeline. */
module Reconciling {
  import opened Base
  import opened Operations

  datatype Flow = Continue | Break
  datatype Disposition = Keep | Drop

  /** A rule's answer, and the tickets it unstages. */
  datatype Verdict = Verdict(flow: Flow, disposition: Disposition, unstage: set<Ticket>)

  type Rule = (Ticket, Op, seq<Entry>) -> Verdict

  /** A rule under the identity of its type. */
  datatype RuleSlot = RuleSlot(id: nat, rule: Rule)

  /** `issued` counts the tickets handed out so far. */
  datatype Pool = Pool(issued: nat, rules: seq<RuleSlot>, pending: seq<Entry>)

  /** A pool together with the history of its operations. */
  datatype Book = Book(pool: Pool, ledger: seq<Note>)

  /** Tickets carry 32-bit indices; the unchecked counter wraps around. */
  const WRAP := 0x1_0000_0000

  function NextTicket(p: Pool, priority: Option<nat>): (t: Ticket)
    ensures t.index <= p.issued && t.index < WRAP
  {
    Ticket(p.issued % WRAP, if priority.Some? then priority.value else 0)
  }

  ghost predicate Sorted(pending: seq<Entry>) {
    forall i, j :: 0 <= i < j < |pending| ==> Before(pending[i].ticket, pending[j].ticket)
  }

  /** Insertion into the ordered pool; an entry under the same ticket is replaced. */
  function Insert(pending: seq<Entry>, e: Entry): seq<Entry> {
    if pending == [] then [e]
    else if pending[0].ticket == e.ticket then [e] + pending[1..]
    else if Before(e.ticket, pending[0].ticket) then [e] + pending
    else [pending[0]] + Insert(pending[1..], e)
  }

  function Without(pending: seq<Entry>, tickets: set<Ticket>): (r: seq<Entry>)
    ensures forall e :: e in r <==> e in pending && e.ticket !in tickets
  {
    if pending == [] then []
    else if pending[0].ticket in tickets then Without(pending[1..], tickets)
    else [pending[0]] + Without(pending[1..], tickets)
  }

  function Removal(pending: seq<Entry>, tickets: set<Ticket>): (r: seq<Note>)
    ensures forall n :: n in r ==> n.Displaced?
  {
    if pending == [] then []
    else if pending[0].ticket in tickets then
      [Displaced(pending[0].ticket, pending[0].op)] + Removal(pending[1..], tickets)
    else Removal(pending[1..], tickets)
  }

  datatype Judged = Judged(keep: bool, pending: seq<Entry>, notes: seq<Note>)

  /** The rule pipeline: it stops at the first `Break` or `Drop`. */
  function Judge(rules: seq<RuleSlot>, t: Ticket, op: Op, pending: seq<Entry>): Judged {
    if rules == [] then Judged(true, pending, [])
    else
      var v := rules[0].rule(t, op, pending);
      var left := Without(pending, v.unstage);
      var notes := Removal(pending, v.unstage);
      if v.flow.Break? || v.disposition.Drop? then Judged(v.disposition.Keep?, left, notes)
      else
        var rest := Judge(rules[1..], t, op, left);
        Judged(rest.keep, rest.pending, notes + rest.notes)
  }

  /** The pending entry, if there is one, that an insertion under `t` replaces. */
  function Replacing(pending: seq<Entry>, t: Ticket): (r: seq<Note>) {
    if pending == [] then []
    else if pending[0].ticket == t then [Lost(t, pending[0].op)]
    else Replacing(pending[1..], t)
  }

  function Settle(b: Book, t: Ticket, op: Op, j: Judged): Book {
    if j.keep then
      Book(Pool(b.pool.issued + 1, b.pool.rules, Insert(j.pending, Entry(t, op))),
           b.ledger + j.notes + Replacing(j.pending, t) + [Staged(t, op)])
    else
      Book(Pool(b.pool.issued + 1, b.pool.rules, j.pending), b.ledger + j.notes + [Rejected(t, op)])
  }

  function Stage(b: Book, op: Op, priority: Option<nat>): Book {
    var t := NextTicket(b.pool, priority);
    Settle(b, t, op, Judge(b.pool.rules, t, op, b.pool.pending))
  }

  /** Staging through a machine handle, one operation after the other at the default priority. */
  function StageAll(b: Book, ops: seq<Op>): (r: Book)
    ensures r.pool.rules == b.pool.rules && r.pool.issued == b.pool.issued + |ops|
    decreases |ops|
  {
    if ops == [] then b else StageAll(Stage(b, ops[0], None), ops[1..])
  }

  lemma {:induction false} StageAllConcat(b: Book, x: seq<Op>, y: seq<Op>)
    ensures StageAll(b, x + y) == StageAll(StageAll(b, x), y)
    decreases |x|
  {
    if x == [] {
      assert x + y == y;
    } else {
      assert (x + y)[1..] == x[1..] + y;
      StageAllConcat(Stage(b, x[0], None), x[1..], y);
    }
  }

  function Withdrawal(pending: seq<Entry>, t: Ticket): (r: seq<Note>) {
    if pending == [] then []
    else if pending[0].ticket == t then [Withdrawn(t, pending[0].op)]
    else Withdrawal(pending[1..], t)
  }

  function Unstage(b: Book, t: Ticket): Book {
    Book(b.pool.(pending := Without(b.pool.pending, {t})), b.ledger + Withdrawal(b.pool.pending, t))
  }

  function CommittedNotes(batch: seq<Entry>): (r: seq<Note>)
    ensures |r| == |batch|
    ensures forall i :: 0 <= i < |batch| ==> r[i] == Committed(batch[i].ticket, batch[i].op)
  {
    if batch == [] then [] else [Committed(batch[0].ticket, batch[0].op)] + CommittedNotes(batch[1..])
  }

  /** Take the whole pool; the caller applies the batch in order. */
  function Commit(b: Book): Book {
    Book(b.pool.(pending := []), b.ledger + [Batch] + CommittedNotes(b.pool.pending))
  }

  function WithdrawnNotes(pending: seq<Entry>): seq<Note> {
    if pending == [] then [] else [Withdrawn(pending[0].ticket, pending[0].op)] + WithdrawnNotes(pending[1..])
  }

  function Clear(b: Book): Book {
    Book(b.pool.(pending := []), b.ledger + WithdrawnNotes(b.pool.pending))
  }

  function AddRule(rules: seq<RuleSlot>, id: nat, rule: Rule): (r: seq<RuleSlot>)
    ensures |r| <= |rules| + 1
  {
    if rules == [] then [RuleSlot(id, rule)]
    else if rules[0].id == id then [RuleSlot(id, rule)] + rules[1..]
    else [rules[0]] + AddRule(rules[1..], id, rule)
  }

  function RemoveRule(rules: seq<RuleSlot>, id: nat): (r: seq<RuleSlot>) {
    if rules == [] then []
    else if rules[0].id == id then rules[1..]
    else [rules[0]] + RemoveRule(rules[1..], id)
  }

  /** No two rules have the same type. */
  ghost predicate Distinct(rules: seq<RuleSlot>) {
    forall i, j :: 0 <= i < j < |rules| ==> rules[i].id != rules[j].id
  }

  /** Adding a rule keeps one rule per type: the old one is replaced where it stands, a new one goes
      to the end, and every other rule keeps its place. */
  lemma {:induction false} AddRuleOne(rules: seq<RuleSlot>, id: nat, rule: Rule)
    requires Distinct(rules)
    ensures var r := AddRule(rules, id, rule);
      && Distinct(r) && RuleSlot(id, rule) in r
      && (forall i :: 0 <= i < |rules| ==>
            i < |r| && r[i] == if rules[i].id == id then RuleSlot(id, rule) else rules[i])
      && (|r| == |rules| <==> exists x :: x in rules && x.id == id)
  {
    if rules != [] {
      AddRuleOne(rules[1..], id, rule);
      var rest := AddRule(rules[1..], id, rule);
      if rules[0].id == id {
        assert rules[0] in rules;
      } else {
        assert AddRule(rules, id, rule) == [rules[0]] + rest;
        AddedIds(rules[1..], id, rule);
        assert forall x :: x in rules <==> x == rules[0] || x in rules[1..];
      }
    }
  }

  lemma {:induction false} AddedIds(rules: seq<RuleSlot>, id: nat, rule: Rule)
    ensures forall x :: x in AddRule(rules, id, rule) ==> x in rules || x.id == id
  {
    if rules != [] {
      AddedIds(rules[1..], id, rule);
    }
  }

  /** Removing a rule undoes adding a new one. */
  lemma {:induction false} RemoveUndoesAdd(rules: seq<RuleSlot>, id: nat, rule: Rule)
    requires forall x :: x in rules ==> x.id != id
    ensures RemoveRule(AddRule(rules, id, rule), id) == rules
  {
    if rules != [] {
      assert rules[0] in rules;
      RemoveUndoesAdd(rules[1..], id, rule);
    }
  }

  // ---- The pool stays sorted and the tickets stay distinct ----

  /** Pending tickets were issued, in the order of the pool. */
  ghost predicate Orderly(p: Pool) {
    && Sorted(p.pending)
    && forall e :: e in p.pending ==> e.ticket.index < p.issued
  }

  lemma {:induction false} WithoutSorted(pending: seq<Entry>, tickets: set<Ticket>)
    requires Sorted(pending)
    ensures Sorted(Without(pending, tickets))
  {
    if pending != [] {
      var rest := Without(pending[1..], tickets);
      WithoutSorted(pending[1..], tickets);
      forall i | 0 <= i < |rest| ensures Before(pending[0].ticket, rest[i].ticket) {
        assert rest[i] in rest;
      }
    }
  }

  lemma {:induction false} InsertSorted(pending: seq<Entry>, e: Entry)
    requires Sorted(pending)
    ensures Sorted(Insert(pending, e))
    ensures forall x :: x in Insert(pending, e) <==> x == e || (x in pending && x.ticket != e.ticket)
  {
    if pending != [] && pending[0].ticket != e.ticket && !Before(e.ticket, pending[0].ticket) {
      var rest := Insert(pending[1..], e);
      InsertSorted(pending[1..], e);
      forall i | 0 <= i < |rest| ensures Before(pending[0].ticket, rest[i].ticket) {
        assert rest[i] in rest;
      }
    }
  }

  lemma {:induction false} JudgeSorted(rules: seq<RuleSlot>, t: Ticket, op: Op, pending: seq<Entry>)
    requires Sorted(pending)
    ensures Sorted(Judge(rules, t, op, pending).pending)
    ensures forall e :: e in Judge(rules, t, op, pending).pending ==> e in pending
  {
    if rules != [] {
      var v := rules[0].rule(t, op, pending);
      WithoutSorted(pending, v.unstage);
      JudgeSorted(rules[1..], t, op, Without(pending, v.unstage));
    }
  }

  lemma StageOrderly(b: Book, op: Op, priority: Option<nat>)
    requires Orderly(b.pool)
    ensures Orderly(Stage(b, op, priority).pool)
  {
    var t := NextTicket(b.pool, priority);
    var left := Judge(b.pool.rules, t, op, b.pool.pending).pending;
    JudgeSorted(b.pool.rules, t, op, b.pool.pending);
    InsertOrderly(left, Entry(t, op), b.pool.issued);
  }

  lemma InsertOrderly(pending: seq<Entry>, e: Entry, issued: nat)
    requires Sorted(pending) && e.ticket.index <= issued && forall x :: x in pending ==> x.ticket.index < issued
    ensures Sorted(Insert(pending, e)) && forall x :: x in Insert(pending, e) ==> x.ticket.index < issued + 1
  {
    InsertSorted(pending, e);
  }

  lemma {:induction false} WithoutAbsent(pending: seq<Entry>, tickets: set<Ticket>)
    requires forall e :: e in pending ==> e.ticket !in tickets
    ensures Without(pending, tickets) == pending
  {
    if pending != [] {
      WithoutAbsent(pending[1..], tickets);
    }
  }

  lemma {:induction false} JudgeSubset(rules: seq<RuleSlot>, t: Ticket, op: Op, pending: seq<Entry>)
    ensures forall e :: e in Judge(rules, t, op, pending).pending ==> e in pending
  {
    if rules != [] {
      JudgeSubset(rules[1..], t, op, Without(pending, rules[0].rule(t, op, pending).unstage));
    }
  }

  lemma {:induction false} ReplacingNone(pending: seq<Entry>, t: Ticket)
    ensures Replacing(pending, t) == [] <==> forall e :: e in pending ==> e.ticket != t
  {
    if pending != [] {
      ReplacingNone(pending[1..], t);
      assert forall e :: e in pending <==> e == pending[0] || e in pending[1..];
    }
  }

  // ---- Whole runs of the reconciler ----

  datatype PoolCall =
    | StageCall(op: Op, priority: Option<nat>)
    | UnstageCall(t: Ticket)
    | ClearCall
    | CommitCall
    | AddRuleCall(id: nat, rule: Rule)
    | RemoveRuleCall(id: nat)

  function Perform(b: Book, c: PoolCall): Book {
    match c
    case StageCall(op, priority) => Stage(b, op, priority)
    case UnstageCall(t) => Unstage(b, t)
    case ClearCall => Clear(b)
    case CommitCall => Commit(b)
    case AddRuleCall(id, rule) => b.(pool := b.pool.(rules := AddRule(b.pool.rules, id, rule)))
    case RemoveRuleCall(id) => b.(pool := b.pool.(rules := RemoveRule(b.pool.rules, id)))
  }

  function PerformAll(b: Book, calls: seq<PoolCall>): (r: Book)
    ensures r.pool.issued >= b.pool.issued
    decreases |calls|
  {
    if calls == [] then b else PerformAll(Perform(b, calls[0]), calls[1..])
  }

  lemma PerformOrderly(b: Book, c: PoolCall)
    requires Orderly(b.pool)
    ensures Orderly(Perform(b, c).pool)
  {
    match c
    case StageCall(op, priority) => StageOrderly(b, op, priority);
    case UnstageCall(t) => WithoutSorted(b.pool.pending, {t});
    case _ =>
  }

  lemma {:induction false} PerformAllOrderly(b: Book, calls: seq<PoolCall>)
    requires Orderly(b.pool)
    ensures Orderly(PerformAll(b, calls).pool)
    decreases |calls|
  {
    if calls != [] {
      PerformOrderly(b, calls[0]);
      PerformAllOrderly(Perform(b, calls[0]), calls[1..]);
    }
  }

  // ---- The reconciler itself ----

  /** The verdict of the whole pipeline, seen after its first `k` rules. */
  ghost predicate Midway(whole: Judged, rules: seq<RuleSlot>, k: nat, t: Ticket, op: Op, so: Judged, open: bool)
    requires k <= |rules|
  {
    if open then
      var rest := Judge(rules[k..], t, op, so.pending);
      so.keep && whole == Judged(rest.keep, rest.pending, so.notes + rest.notes)
    else whole == so
  }

  lemma MidwayStep(whole: Judged, rules: seq<RuleSlot>, k: nat, t: Ticket, op: Op, so: Judged)
    requires k < |rules| && Midway(whole, rules, k, t, op, so, true)
    ensures var v := rules[k].rule(t, op, so.pending);
      Midway(whole, rules, k + 1, t, op,
             Judged(v.disposition.Keep?, Without(so.pending, v.unstage), so.notes + Removal(so.pending, v.unstage)),
             v.flow.Continue? && v.disposition.Keep?)
  {
    var v := rules[k].rule(t, op, so.pending);
    assert rules[k..][0] == rules[k] && rules[k..][1..] == rules[k + 1..];
    var left, notes := Without(so.pending, v.unstage), Removal(so.pending, v.unstage);
    var rest := Judge(rules[k + 1..], t, op, left);
    assert so.notes + (notes + rest.notes) == (so.notes + notes) + rest.notes;
  }

  class Reconciler {
    var nextTicket: nat
    var rules: seq<RuleSlot>
    var pendingOps: seq<Entry>
    ghost var issued: nat
    ghost var ledger: seq<Note>

    ghost predicate Valid() reads this {
      nextTicket == issued % WRAP
    }

    ghost function Model(): Book reads this {
      Book(Pool(issued, rules, pendingOps), ledger)
    }

    constructor ()
      ensures Valid() && Model() == Book(Pool(0, [], []), [])
    {
      nextTicket, rules, pendingOps, issued, ledger := 0, [], [], 0, [];
    }

    method StageBoxed(op: Op, priority: Option<nat>) returns (ticket: Option<Ticket>)
      requires Valid()
      modifies this
      ensures Valid() && Model() == Stage(old(Model()), op, priority)
      ensures ticket.Some? ==> ticket.value == NextTicket(old(Model().pool), priority)
      ensures ticket.Some? <==> Judge(rules, NextTicket(old(Model().pool), priority), op, old(pendingOps)).keep
    {
      var t := Ticket(nextTicket, if priority.Some? then priority.value else 0);
      nextTicket := if nextTicket + 1 == WRAP then 0 else nextTicket + 1;
      issued := issued + 1;
      ghost var notes;
      var keep;
      keep, notes := ApplyRules(t, op);
      ghost var lost := if keep then Replacing(pendingOps, t) else [];
      if keep {
        pendingOps := Insert(pendingOps, Entry(t, op));
        ticket := Some(t);
      } else {
        ticket := None;
      }
      ledger := ledger + notes + lost + [if keep then Staged(t, op) else Rejected(t, op)];
    }

    /** The rule loop: rules are asked in order until one drops the operation or breaks off. */
    method ApplyRules(t: Ticket, op: Op) returns (keep: bool, ghost notes: seq<Note>)
      modifies this`pendingOps
      ensures Judged(keep, pendingOps, notes) == Judge(rules, t, op, old(pendingOps))
    {
      var open, k := true, 0;
      keep, notes := true, [];
      ghost var whole := Judge(rules, t, op, pendingOps);
      while open && k < |rules|
        invariant 0 <= k <= |rules|
        invariant Midway(whole, rules, k, t, op, Judged(keep, pendingOps, notes), open)
      {
        MidwayStep(whole, rules, k, t, op, Judged(keep, pendingOps, notes));
        var v := rules[k].rule(t, op, pendingOps);
        notes := notes + Removal(pendingOps, v.unstage);
        pendingOps := Without(pendingOps, v.unstage);
        if v.disposition.Drop? {
          keep := false;
        }
        assert keep == v.disposition.Keep?;
        open := v.flow.Continue? && keep;
        k := k + 1;
      }
      assert whole == Judged(keep, pendingOps, notes);
    }

    method UnstageOp(t: Ticket) returns (op: Option<Op>)
      requires Valid()
      modifies this`pendingOps, this`ledger
      ensures Valid() && Model() == Unstage(old(Model()), t)
      ensures op.None? <==> forall e :: e in old(pendingOps) ==> e.ticket != t
      ensures op.Some? ==> Entry(t, op.value) in old(pendingOps)
      ensures forall e :: e in pendingOps <==> e in old(pendingOps) && e.ticket != t
    {
      op := None;
      var k := 0;
      while k < |pendingOps| && op.None?
        invariant 0 <= k <= |pendingOps|
        invariant op.None? ==> forall j :: 0 <= j < k ==> pendingOps[j].ticket != t
        invariant op.Some? ==> Entry(t, op.value) in pendingOps
      {
        if pendingOps[k].ticket == t {
          op := Some(pendingOps[k].op);
        }
        k := k + 1;
      }
      ledger := ledger + Withdrawal(pendingOps, t);
      pendingOps := Without(pendingOps, {t});
    }

    method ClearPending()
      requires Valid()
      modifies this`pendingOps, this`ledger
      ensures Valid() && Model() == Clear(old(Model())) && pendingOps == []
    {
      ledger := ledger + WithdrawnNotes(pendingOps);
      pendingOps := [];
    }

    /** Take the pool before a commit applies it. */
    method TakePending() returns (batch: seq<Entry>)
      requires Valid()
      modifies this`pendingOps
      ensures Valid() && batch == old(pendingOps) && pendingOps == []
    {
      batch := pendingOps;
      pendingOps := [];
    }

    method InstallRule(id: nat, rule: Rule)
      requires Valid()
      modifies this`rules
      ensures Valid() && rules == AddRule(old(rules), id, rule)
    {
      var k := 0;
      while k < |rules| && rules[k].id != id
        invariant 0 <= k <= |rules|
        invariant AddRule(rules, id, rule) == rules[..k] + AddRule(rules[k..], id, rule)
      {
        assert rules[..k + 1] == rules[..k] + [rules[k]];
        k := k + 1;
      }
      if k < |rules| {
        rules := rules[k := RuleSlot(id, rule)];
      } else {
        rules := rules + [RuleSlot(id, rule)];
      }
    }

    method DropRule(id: nat) returns (removed: Option<Rule>)
      requires Valid()
      modifies this`rules
      ensures Valid() && rules == RemoveRule(old(rules), id)
      ensures removed.None? <==> forall x :: x in old(rules) ==> x.id != id
      ensures removed.Some? ==> RuleSlot(id, removed.value) in old(rules)
    {
      var k := 0;
      while k < |rules| && rules[k].id != id
        invariant 0 <= k <= |rules|
        invariant forall j :: 0 <= j < k ==> rules[j].id != id
        invariant RemoveRule(rules, id) == rules[..k] + RemoveRule(rules[k..], id)
      {
        assert rules[..k + 1] == rules[..k] + [rules[k]];
        k := k + 1;
      }
      removed := None;
      if k < |rules| {
        assert rules[k] in rules;
        removed := Some(rules[k].rule);
        rules := rules[..k] + rules[k + 1..];
      }
    }
  }
}
