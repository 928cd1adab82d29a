/** What each call of the reconciler does to the pool, said without its loops. */
module Pooling {
  import opened Base
  import opened Operations
  import opened Reconciling
  import opened Arbitration

  /** The `k`-th rule turned one pool into the next, and it is the last one asked unless it says to go on
      and there is another one. */
  ghost predicate Step(rules: seq<RuleSlot>, t: Ticket, op: Op, ps: seq<seq<Entry>>, k: nat)
    requires k < |rules| && k + 1 < |ps|
  {
    var v := rules[k].rule(t, op, ps[k]);
    && (forall e :: e in ps[k + 1] <==> e in ps[k] && e.ticket !in v.unstage)
    && (Sorted(ps[k]) ==> Sorted(ps[k + 1]))
    && (k + 2 < |ps| <==> v.flow.Continue? && v.disposition.Keep? && k + 1 < |rules|)
  }

  /** The rules are asked in order, each about the pool that the one before left, until one breaks off or
      drops the operation; what a rule unstages is gone, and the last one asked decides. `ps` are the
      pools between them. */
  lemma {:induction false} RulesAsked(rules: seq<RuleSlot>, t: Ticket, op: Op, pending: seq<Entry>)
    returns (ps: seq<seq<Entry>>)
    ensures 0 < |ps| <= |rules| + 1 && ps[0] == pending && (rules != [] ==> |ps| > 1)
    ensures forall k :: 0 <= k < |ps| - 1 ==> Step(rules, t, op, ps, k)
    ensures var j := Judge(rules, t, op, pending);
      && j.pending == ps[|ps| - 1]
      && (j.keep <==> (|ps| > 1 ==> rules[|ps| - 2].rule(t, op, ps[|ps| - 2]).disposition.Keep?))
    decreases |rules|
  {
    if rules == [] {
      ps := [pending];
    } else {
      var v := rules[0].rule(t, op, pending);
      var left := Without(pending, v.unstage);
      if Sorted(pending) {
        WithoutSorted(pending, v.unstage);
      }
      if v.flow.Break? || v.disposition.Drop? {
        ps := [pending, left];
      } else {
        var more := RulesAsked(rules[1..], t, op, left);
        ps := [pending] + more;
        forall k | 0 < k < |ps| - 1 ensures Step(rules, t, op, ps, k) {
          StepOn(rules, t, op, ps, more, k - 1);
        }
      }
    }
  }

  lemma StepOn(rules: seq<RuleSlot>, t: Ticket, op: Op, ps: seq<seq<Entry>>, more: seq<seq<Entry>>, k: nat)
    requires rules != [] && k < |rules| - 1 && k + 1 < |more| && ps != [] && ps[1..] == more
    requires Step(rules[1..], t, op, more, k)
    ensures Step(rules, t, op, ps, k + 1)
  {
    assert ps[k + 1] == more[k] && ps[k + 2] == more[k + 1] && rules[1..][k] == rules[k + 1];
  }

  /** A staged operation is pending afterwards if and only if the rules keep it; besides it, exactly what
      the rules left is pending, but for an operation under the very same ticket. */
  lemma StageOutcome(b: Book, op: Op, priority: Option<nat>)
    requires Orderly(b.pool)
    ensures var t, c := NextTicket(b.pool, priority), Stage(b, op, priority).pool;
      var j := Judge(b.pool.rules, t, op, b.pool.pending);
      && c.issued == b.pool.issued + 1 && c.rules == b.pool.rules && Sorted(c.pending)
      && forall e :: e in c.pending <==>
           if j.keep then e == Entry(t, op) || (e in j.pending && e.ticket != t) else e in j.pending
  {
    var t := NextTicket(b.pool, priority);
    JudgeSorted(b.pool.rules, t, op, b.pool.pending);
    StageOrderly(b, op, priority);
    InsertSorted(Judge(b.pool.rules, t, op, b.pool.pending).pending, Entry(t, op));
  }

  /** Unstaging takes out the entry under the ticket, if there is one, and notes it; all others stay, in
      order. Without one nothing happens. `k` is its place. */
  lemma UnstageExact(b: Book, t: Ticket) returns (k: nat)
    requires Sorted(b.pool.pending)
    ensures var p, c := b.pool.pending, Unstage(b, t);
      && k <= |p|
      && if k < |p| then
           p[k].ticket == t && c == Book(b.pool.(pending := p[..k] + p[k + 1..]), b.ledger + [Withdrawn(t, p[k].op)])
         else (forall e :: e in p ==> e.ticket != t) && c == b
    ensures forall e :: e in Unstage(b, t).pool.pending ==> e.ticket != t
  {
    k := UnstagePlace(b.pool.pending, t);
    assert b.ledger + [] == b.ledger;
  }

  lemma {:induction false} UnstagePlace(p: seq<Entry>, t: Ticket) returns (k: nat)
    requires Sorted(p)
    ensures k <= |p|
    ensures if k < |p| then
              p[k].ticket == t && Without(p, {t}) == p[..k] + p[k + 1..] && Withdrawal(p, t) == [Withdrawn(t, p[k].op)]
            else (forall e :: e in p ==> e.ticket != t) && Without(p, {t}) == p && Withdrawal(p, t) == []
  {
    if p == [] {
      k := 0;
    } else if p[0].ticket == t {
      k := 0;
      OthersFollow(p);
      WithoutAbsent(p[1..], {t});
    } else {
      var i := UnstagePlace(p[1..], t);
      k := i + 1;
      assert forall e :: e in p <==> e == p[0] || e in p[1..];
      assert p == [p[0]] + p[1..];
      if i < |p| - 1 {
        Skip(p, i);
      }
    }
  }

  lemma OthersFollow(p: seq<Entry>)
    requires Sorted(p) && p != []
    ensures forall e :: e in p[1..] ==> e.ticket != p[0].ticket
  {
    forall e | e in p[1..] ensures e.ticket != p[0].ticket {
      var i :| 0 <= i < |p| - 1 && p[1..][i] == e;
      assert Before(p[0].ticket, p[i + 1].ticket);
    }
  }

  lemma Skip<T>(p: seq<T>, i: nat)
    requires i < |p| - 1
    ensures [p[0]] + (p[1..][..i] + p[1..][i + 1..]) == p[..i + 1] + p[i + 2..]
  {
  }

  /** Clearing withdraws every pending operation, in order, and leaves none. */
  lemma ClearExact(b: Book)
    ensures var c, p := Clear(b), b.pool.pending;
      && c.pool == b.pool.(pending := []) && |c.ledger| == |b.ledger| + |p| && b.ledger <= c.ledger
      && forall k :: 0 <= k < |p| ==> c.ledger[|b.ledger| + k] == Withdrawn(p[k].ticket, p[k].op)
  {
    WithdrawnAll(b.pool.pending);
  }

  lemma {:induction false} WithdrawnAll(p: seq<Entry>)
    ensures |WithdrawnNotes(p)| == |p|
    ensures forall k :: 0 <= k < |p| ==> WithdrawnNotes(p)[k] == Withdrawn(p[k].ticket, p[k].op)
  {
    if p != [] {
      WithdrawnAll(p[1..]);
    }
  }

  /** A commit hands out the whole pool, in order, and leaves none. */
  lemma CommitExact(b: Book)
    ensures var c, p := Commit(b), b.pool.pending;
      && c.pool == b.pool.(pending := []) && |c.ledger| == |b.ledger| + 1 + |p| && b.ledger + [Batch] <= c.ledger
      && forall k :: 0 <= k < |p| ==> c.ledger[|b.ledger| + 1 + k] == Committed(p[k].ticket, p[k].op)
  {
  }

  /** Removing takes out the rule of the type, if there is one, and leaves the others in order. `k` is its
      place. */
  lemma {:induction false} RemoveRuleExact(rules: seq<RuleSlot>, id: nat) returns (k: nat)
    ensures k <= |rules| && forall i :: 0 <= i < k ==> rules[i].id != id
    ensures if k < |rules| then rules[k].id == id && RemoveRule(rules, id) == rules[..k] + rules[k + 1..]
            else RemoveRule(rules, id) == rules
  {
    if rules == [] || rules[0].id == id {
      k := 0;
    } else {
      var i := RemoveRuleExact(rules[1..], id);
      k := i + 1;
      assert rules == [rules[0]] + rules[1..];
      if i < |rules| - 1 {
        Skip(rules, i);
      }
    }
  }
}
