/** Nothing is lost unnoticed and nothing is doubled: the fates of all staged operations. */
module Conserving {
  import opened Base
  import opened StateForest
  import opened Operations
  import opened Reconciling
  import opened Arbitration
  import opened Running
  import opened Consuming
  import opened Hubs
  import opened Routing
  import opened Machines
  import opened Staging
  import opened Discipline

  /** Any choice of operations to follow: one entry, one ticket, one request, or all of them. */
  type Choice = Entry -> bool

  predicate Enters(n: Note) {
    n.Staged? || n.Rejected?
  }

  /** The operation is not in the pool, or not any more. */
  predicate Leaves(n: Note) {
    n.Rejected? || n.Displaced? || n.Withdrawn? || n.Lost? || n.Committed?
  }

  predicate About(n: Note, p: Choice)
    requires Enters(n) || Leaves(n)
  {
    p(Entry(n.ticket, n.op))
  }

  /** How many of them were staged. */
  ghost function Ins(ledger: seq<Note>, p: Choice): nat {
    if ledger == [] then 0 else (if Enters(ledger[0]) && About(ledger[0], p) then 1 else 0) + Ins(ledger[1..], p)
  }

  /** How many of them were rejected, unstaged, committed, or replaced under their ticket. */
  ghost function Outs(ledger: seq<Note>, p: Choice): nat {
    if ledger == [] then 0 else (if Leaves(ledger[0]) && About(ledger[0], p) then 1 else 0) + Outs(ledger[1..], p)
  }

  /** How many of them are pending. */
  ghost function Times(pending: seq<Entry>, p: Choice): nat {
    if pending == [] then 0 else (if p(pending[0]) then 1 else 0) + Times(pending[1..], p)
  }

  /** How many operations at all were replaced under their ticket. */
  ghost function Losses(ledger: seq<Note>): nat {
    if ledger == [] then 0 else (if ledger[0].Lost? then 1 else 0) + Losses(ledger[1..])
  }

  lemma {:induction false} SumsConcat(a: seq<Note>, b: seq<Note>, p: Choice)
    ensures Ins(a + b, p) == Ins(a, p) + Ins(b, p) && Outs(a + b, p) == Outs(a, p) + Outs(b, p)
    ensures Losses(a + b) == Losses(a) + Losses(b)
    decreases |a|
  {
    if a == [] {
      assert a + b == b;
    } else {
      assert (a + b)[1..] == a[1..] + b;
      SumsConcat(a[1..], b, p);
    }
  }

  lemma SumsOne(a: seq<Note>, n: Note, p: Choice)
    ensures Ins(a + [n], p) == Ins(a, p) + (if Enters(n) && About(n, p) then 1 else 0)
    ensures Outs(a + [n], p) == Outs(a, p) + (if Leaves(n) && About(n, p) then 1 else 0)
    ensures Losses(a + [n]) == Losses(a) + (if n.Lost? then 1 else 0)
  {
    SumsConcat(a, [n], p);
    assert [n][1..] == [];
  }

  // ---- The pool ----

  lemma {:induction false} RemovalSplits(pending: seq<Entry>, tickets: set<Ticket>, p: Choice)
    ensures Times(Without(pending, tickets), p) + Outs(Removal(pending, tickets), p) == Times(pending, p)
    ensures Ins(Removal(pending, tickets), p) == Losses(Removal(pending, tickets)) == 0
  {
    if pending != [] {
      RemovalSplits(pending[1..], tickets, p);
    }
  }

  lemma {:induction false} JudgeSplits(rules: seq<RuleSlot>, t: Ticket, op: Op, pending: seq<Entry>, p: Choice)
    ensures var j := Judge(rules, t, op, pending);
      Times(j.pending, p) + Outs(j.notes, p) == Times(pending, p) && Ins(j.notes, p) == Losses(j.notes) == 0
  {
    if rules != [] {
      var v := rules[0].rule(t, op, pending);
      var left := Without(pending, v.unstage);
      RemovalSplits(pending, v.unstage, p);
      JudgeSplits(rules[1..], t, op, left, p);
      SumsConcat(Removal(pending, v.unstage), Judge(rules[1..], t, op, left).notes, p);
    }
  }

  /** An insertion adds its entry, and takes out the one it replaces. */
  lemma {:induction false} InsertSplits(pending: seq<Entry>, x: Entry, p: Choice)
    requires Sorted(pending)
    ensures Times(Insert(pending, x), p) + Outs(Replacing(pending, x.ticket), p) ==
            Times(pending, p) + (if p(x) then 1 else 0)
    ensures Ins(Replacing(pending, x.ticket), p) == 0
    ensures Losses(Replacing(pending, x.ticket)) ==
            if exists y :: y in pending && y.ticket == x.ticket then 1 else 0
  {
    if pending != [] {
      if pending[0].ticket == x.ticket {
        SumsOne([], Lost(x.ticket, pending[0].op), p);
      } else if Before(x.ticket, pending[0].ticket) {
        forall y | y in pending ensures y.ticket != x.ticket {
          var k :| 0 <= k < |pending| && pending[k] == y;
          assert k > 0 ==> Before(pending[0].ticket, pending[k].ticket);
        }
        ReplacingNone(pending, x.ticket);
      } else {
        InsertSplits(pending[1..], x, p);
        assert forall y :: y in pending <==> y == pending[0] || y in pending[1..];
      }
    }
  }

  lemma {:induction false} WithdrawalSplits(pending: seq<Entry>, t: Ticket, p: Choice)
    requires Sorted(pending)
    ensures Times(Without(pending, {t}), p) + Outs(Withdrawal(pending, t), p) == Times(pending, p)
    ensures Ins(Withdrawal(pending, t), p) == Losses(Withdrawal(pending, t)) == 0
  {
    if pending != [] {
      if pending[0].ticket == t {
        forall x | x in pending[1..] ensures x.ticket != t {
          var k :| 0 <= k < |pending| - 1 && pending[1..][k] == x;
          assert Before(pending[0].ticket, pending[k + 1].ticket);
        }
        WithoutAbsent(pending[1..], {t});
        SumsOne([], Withdrawn(t, pending[0].op), p);
      } else {
        WithdrawalSplits(pending[1..], t, p);
      }
    }
  }

  lemma {:induction false} BatchLeaves(batch: seq<Entry>, p: Choice)
    ensures Outs(CommittedNotes(batch), p) == Outs(WithdrawnNotes(batch), p) == Times(batch, p)
    ensures Ins(CommittedNotes(batch), p) == Ins(WithdrawnNotes(batch), p) == 0
    ensures Losses(CommittedNotes(batch)) == Losses(WithdrawnNotes(batch)) == 0
  {
    if batch != [] {
      BatchLeaves(batch[1..], p);
    }
  }

  /** As many as were staged are pending or have left: every one of them has exactly one fate. */
  ghost predicate Even(b: Book, p: Choice) {
    Times(b.pool.pending, p) + Outs(b.ledger, p) == Ins(b.ledger, p)
  }

  /** The staging puts its operation over one that is still pending under the very same ticket. */
  ghost predicate Collides(b: Book, op: Op, priority: Option<nat>) {
    var t := NextTicket(b.pool, priority);
    var j := Judge(b.pool.rules, t, op, b.pool.pending);
    j.keep && exists y :: y in j.pending && y.ticket == t
  }

  /** A staging enters its own operation and leaves all accounts even; it loses an operation silently
      if and only if it collides. */
  lemma StageEven(b: Book, op: Op, priority: Option<nat>, p: Choice)
    requires Orderly(b.pool) && Even(b, p)
    ensures var c := Stage(b, op, priority);
      && Even(c, p)
      && Ins(c.ledger, p) == Ins(b.ledger, p) + (if p(Entry(NextTicket(b.pool, priority), op)) then 1 else 0)
      && Losses(c.ledger) == Losses(b.ledger) + (if Collides(b, op, priority) then 1 else 0)
  {
    var t := NextTicket(b.pool, priority);
    var j := Judge(b.pool.rules, t, op, b.pool.pending);
    JudgeSplits(b.pool.rules, t, op, b.pool.pending, p);
    JudgeSorted(b.pool.rules, t, op, b.pool.pending);
    SumsConcat(b.ledger, j.notes, p);
    if j.keep {
      InsertSplits(j.pending, Entry(t, op), p);
      SumsConcat(b.ledger + j.notes, Replacing(j.pending, t), p);
      SumsOne(b.ledger + j.notes + Replacing(j.pending, t), Staged(t, op), p);
    } else {
      SumsOne(b.ledger + j.notes, Rejected(t, op), p);
    }
  }

  lemma CallEven(b: Book, c: PoolCall, p: Choice)
    requires Orderly(b.pool) && Even(b, p) && !c.StageCall?
    ensures var d := Perform(b, c);
      Even(d, p) && Ins(d.ledger, p) == Ins(b.ledger, p) && Losses(d.ledger) == Losses(b.ledger)
  {
    BatchLeaves(b.pool.pending, p);
    match c
    case UnstageCall(t) =>
      WithdrawalSplits(b.pool.pending, t, p);
      SumsConcat(b.ledger, Withdrawal(b.pool.pending, t), p);
    case ClearCall => SumsConcat(b.ledger, WithdrawnNotes(b.pool.pending), p);
    case CommitCall =>
      SumsOne(b.ledger, Batch, p);
      SumsConcat(b.ledger + [Batch], CommittedNotes(b.pool.pending), p);
    case _ =>
  }

  // ---- Runs of the reconciler ----

  /** How many of them the calls ask to be staged, under consecutive tickets and with the priorities
      asked for; indices wrap around. */
  ghost function Asked(issued: nat, calls: seq<PoolCall>, p: Choice): nat
    decreases |calls|
  {
    if calls == [] then 0
    else
      match calls[0]
      case StageCall(op, priority) =>
        (if p(Entry(Ticket(issued % WRAP, if priority.Some? then priority.value else 0), op)) then 1 else 0)
        + Asked(issued + 1, calls[1..], p)
      case _ => Asked(issued, calls[1..], p)
  }

  /** How many of the calls are stagings that collide. */
  ghost function Collisions(b: Book, calls: seq<PoolCall>): nat
    decreases |calls|
  {
    if calls == [] then 0
    else
      (if calls[0].StageCall? && Collides(b, calls[0].op, calls[0].priority) then 1 else 0)
      + Collisions(Perform(b, calls[0]), calls[1..])
  }

  lemma CallAsked(b: Book, calls: seq<PoolCall>, p: Choice)
    requires calls != [] && Orderly(b.pool) && Even(b, p)
    ensures var c := Perform(b, calls[0]);
      && Even(c, p)
      && Ins(b.ledger, p) + Asked(b.pool.issued, calls, p) == Ins(c.ledger, p) + Asked(c.pool.issued, calls[1..], p)
      && Losses(b.ledger) + Collisions(b, calls) == Losses(c.ledger) + Collisions(c, calls[1..])
  {
    match calls[0]
    case StageCall(op, priority) => StageAsked(b, calls, op, priority, p);
    case _ => CallEven(b, calls[0], p);
  }

  lemma StageAsked(b: Book, calls: seq<PoolCall>, op: Op, priority: Option<nat>, p: Choice)
    requires calls != [] && calls[0] == StageCall(op, priority) && Orderly(b.pool) && Even(b, p)
    ensures var c := Stage(b, op, priority);
      && Even(c, p)
      && Ins(b.ledger, p) + Asked(b.pool.issued, calls, p) == Ins(c.ledger, p) + Asked(c.pool.issued, calls[1..], p)
      && Losses(b.ledger) + Collisions(b, calls) == Losses(c.ledger) + Collisions(c, calls[1..])
  {
    var c, mine := Stage(b, op, priority), Entry(NextTicket(b.pool, priority), op);
    StageEven(b, op, priority, p);
    assert c.pool.issued == b.pool.issued + 1 && Perform(b, calls[0]) == c;
    assert Asked(b.pool.issued, calls, p) == (if p(mine) then 1 else 0) + Asked(c.pool.issued, calls[1..], p);
  }

  /** Over any run of calls under any rules, however often the counter wraps, the next commit applies
      exactly the operations asked for less those rejected, unstaged, committed before or lost, each
      once, in the order of their tickets. */
  lemma {:induction false} CommitAccounts(b: Book, calls: seq<PoolCall>, p: Choice)
    requires Orderly(b.pool) && Even(b, p)
    ensures var r := PerformAll(b, calls);
      && Orderly(r.pool)
      && Times(r.pool.pending, p) + Outs(r.ledger, p) == Ins(b.ledger, p) + Asked(b.pool.issued, calls, p)
      && Ins(r.ledger, p) == Ins(b.ledger, p) + Asked(b.pool.issued, calls, p)
      && Losses(r.ledger) == Losses(b.ledger) + Collisions(b, calls)
    decreases |calls|
  {
    if calls != [] {
      var c := Perform(b, calls[0]);
      PerformOrderly(b, calls[0]);
      CallAsked(b, calls, p);
      CommitAccounts(c, calls[1..], p);
    }
  }

  lemma NeverCollides(b: Book, op: Op, priority: Option<nat>)
    requires Orderly(b.pool) && b.pool.issued < WRAP
    ensures !Collides(b, op, priority)
  {
    JudgeSorted(b.pool.rules, NextTicket(b.pool, priority), op, b.pool.pending);
  }

  lemma {:induction false} NoCollisions(b: Book, calls: seq<PoolCall>)
    requires Orderly(b.pool) && PerformAll(b, calls).pool.issued <= WRAP
    ensures Collisions(b, calls) == 0
    decreases |calls|
  {
    if calls != [] {
      var c := Perform(b, calls[0]);
      PerformOrderly(b, calls[0]);
      assert c.pool.issued <= PerformAll(c, calls[1..]).pool.issued;
      if calls[0].StageCall? {
        NeverCollides(b, calls[0].op, calls[0].priority);
      }
      NoCollisions(c, calls[1..]);
    }
  }

  /** The operations under tickets with this index. */
  function Index(i: nat): Choice {
    (e: Entry) => e.ticket.index == i
  }

  /** Before the counter wraps, every issued index belongs to one staged operation. */
  ghost predicate Minted(b: Book, i: nat) {
    b.pool.issued <= WRAP ==> Ins(b.ledger, Index(i)) == if i < b.pool.issued then 1 else 0
  }

  lemma CallMinted(b: Book, c: PoolCall, i: nat)
    requires Orderly(b.pool) && Even(b, Index(i)) && Minted(b, i)
    ensures Minted(Perform(b, c), i) && Even(Perform(b, c), Index(i))
  {
    match c
    case StageCall(op, priority) => StageEven(b, op, priority, Index(i));
    case _ => CallEven(b, c, Index(i));
  }

  /** Over any run under any rules every staged operation has exactly one fate: pending, committed,
      unstaged, rejected, or silently replaced under its ticket. None is replaced if and only if no
      staging collides, and none collides while the counter has not wrapped: until then every issued
      ticket is exactly one of pending, committed, unstaged and rejected. */
  lemma {:induction false} EveryTicketOnce(b: Book, calls: seq<PoolCall>, i: nat)
    requires Orderly(b.pool) && Even(b, Index(i)) && Minted(b, i) && Losses(b.ledger) == 0
    ensures var r := PerformAll(b, calls);
      && Even(r, Index(i)) && Minted(r, i)
      && (Losses(r.ledger) == 0 <==> Collisions(b, calls) == 0)
      && (r.pool.issued <= WRAP ==> Losses(r.ledger) == 0)
    decreases |calls|
  {
    CommitAccounts(b, calls, Index(i));
    if PerformAll(b, calls).pool.issued <= WRAP {
      NoCollisions(b, calls);
    }
    RunMinted(b, calls, i);
  }

  lemma {:induction false} RunMinted(b: Book, calls: seq<PoolCall>, i: nat)
    requires Orderly(b.pool) && Even(b, Index(i)) && Minted(b, i)
    ensures Minted(PerformAll(b, calls), i) && Even(PerformAll(b, calls), Index(i))
    decreases |calls|
  {
    if calls != [] {
      PerformOrderly(b, calls[0]);
      CallMinted(b, calls[0], i);
      RunMinted(Perform(b, calls[0]), calls[1..], i);
    }
  }

  /** No index at or beyond the counter's range is ever handed out. */
  lemma {:induction false} NeverBeyond(b: Book, calls: seq<PoolCall>, i: nat)
    requires i >= WRAP
    ensures Asked(b.pool.issued, calls, Index(i)) == 0
    decreases |calls|
  {
    if calls != [] {
      var c := Perform(b, calls[0]);
      NeverBeyond(c, calls[1..], i);
      assert c.pool.issued == if calls[0].StageCall? then b.pool.issued + 1 else b.pool.issued;
    }
  }

  /** Losses do happen: 2^32 + 1 stagings at one priority, with no rules and no commit between them,
      replace the first operation by the last. */
  lemma WrapLoses(b: Book, op: Op, calls: seq<PoolCall>)
    requires b.pool == Pool(0, [], []) && |calls| == WRAP + 1
    requires forall k :: 0 <= k < |calls| ==> calls[k] == StageCall(op, None)
    ensures Collisions(b, calls) > 0
  {
    var c := Perform(b, calls[0]);
    assert c.pool == Pool(1, [], [Entry(Ticket(0, 0), op)]);
    WrapLosesOn(c, op, calls[1..]);
  }

  lemma {:induction false} WrapLosesOn(b: Book, op: Op, calls: seq<PoolCall>)
    requires b.pool.rules == [] && Orderly(b.pool) && 0 < b.pool.issued <= WRAP
    requires |calls| == WRAP + 1 - b.pool.issued && forall k :: 0 <= k < |calls| ==> calls[k] == StageCall(op, None)
    requires Entry(Ticket(0, 0), op) in b.pool.pending
    ensures Collisions(b, calls) > 0
    decreases |calls|
  {
    if b.pool.issued == WRAP {
      assert Collides(b, op, None);
    } else {
      StageOrderly(b, op, None);
      InsertSorted(b.pool.pending, Entry(NextTicket(b.pool, None), op));
      WrapLosesOn(Stage(b, op, None), op, calls[1..]);
    }
  }

  lemma {:induction false} TimesIn(pending: seq<Entry>, p: Choice)
    ensures Times(pending, p) > 0 <==> exists e :: e in pending && p(e)
  {
    if pending != [] {
      TimesIn(pending[1..], p);
      assert forall e :: e in pending <==> e == pending[0] || e in pending[1..];
    }
  }

  /** One entry. */
  function Just(e: Entry): Choice {
    (x: Entry) => x == e
  }

  /** The same operations have one commit order only. */
  lemma {:induction false} CommitOrderUnique(a: seq<Entry>, b: seq<Entry>)
    requires Sorted(a) && Sorted(b) && forall e :: Times(a, Just(e)) == Times(b, Just(e))
    ensures a == b
    decreases |a|
  {
    BothEmpty(a, b);
    if a != [] {
      SameHead(a, b);
      forall e ensures Times(a[1..], Just(e)) == Times(b[1..], Just(e)) {
        assert Times(a, Just(e)) == Times(b, Just(e));
      }
      CommitOrderUnique(a[1..], b[1..]);
    }
  }

  lemma BothEmpty(a: seq<Entry>, b: seq<Entry>)
    requires forall e :: Times(a, Just(e)) == Times(b, Just(e))
    ensures a == [] <==> b == []
  {
    if a != [] {
      assert Times(a, Just(a[0])) == Times(b, Just(a[0]));
    }
    if b != [] {
      assert Times(a, Just(b[0])) == Times(b, Just(b[0]));
    }
  }

  lemma SameHead(a: seq<Entry>, b: seq<Entry>)
    requires a != [] && b != [] && Sorted(a) && Sorted(b) && forall e :: Times(a, Just(e)) == Times(b, Just(e))
    ensures a[0] == b[0]
  {
    assert Times(a, Just(b[0])) == Times(b, Just(b[0])) && Times(b, Just(a[0])) == Times(a, Just(a[0]));
    TimesIn(a, Just(b[0]));
    TimesIn(b, Just(a[0]));
    var i :| 0 <= i < |b| && b[i] == a[0];
    var k :| 0 <= k < |a| && a[k] == b[0];
    assert k > 0 ==> Before(a[0].ticket, a[k].ticket);
    assert i > 0 ==> Before(b[0].ticket, b[i].ticket);
  }

  // ---- Whole machines ----

  /** Pool and history agree about the chosen operations, the ticket has ended as often as it was
      committed, and until the counter wraps tickets are unique and nothing is replaced. */
  ghost predicate Conserved(b: Book, p: Choice, t: Ticket) {
    && Orderly(b.pool) && Even(b, p) && Even(b, Index(t.index)) && Minted(b, t.index)
    && Endings(b.ledger, t) == Commits(b.ledger, t)
    && (b.pool.issued <= WRAP ==> Losses(b.ledger) == 0)
  }

  ghost function Conserves(p: Choice, t: Ticket): Book -> bool {
    (b: Book) => Conserved(b, p, t)
  }

  lemma StageConserved(b: Book, op: Op, priority: Option<nat>, p: Choice, t: Ticket)
    requires Conserved(b, p, t)
    ensures Conserved(Stage(b, op, priority), p, t)
  {
    var c := Stage(b, op, priority);
    StageOrderly(b, op, priority);
    StageEven(b, op, priority, p);
    CallMinted(b, StageCall(op, priority), t.index);
    StageFiles(b, op, priority);
    FilingsEndNothing(b.ledger, c.ledger, t);
    if c.pool.issued <= WRAP {
      NeverCollides(b, op, priority);
    }
  }

  lemma FilingsEndNothing(a: seq<Note>, b: seq<Note>, t: Ticket)
    requires Continues(a, b, Filed)
    ensures Endings(b, t) == Endings(a, t) && Commits(b, t) == Commits(a, t)
  {
    var more := b[|a|..];
    assert b == a + more;
    forall k | 0 <= k < |more| ensures !Final(more[k]) && !more[k].Committed? {
      assert OfKind(b[|a| + k], Filed);
    }
    NoneCounted(more, t);
    CountsConcat(a, more, t);
  }

  lemma ConservesStages(p: Choice, t: Ticket)
    ensures Stages(Conserves(p, t), Any())
  {
    forall b, op, priority | Conserves(p, t)(b) ensures Conserves(p, t)(Stage(b, op, priority)) {
      StageConserved(b, op, priority, p, t);
    }
  }

  /** Notes that neither enter nor take out anything. */
  predicate Quiet(n: Note) {
    !Enters(n) && !Leaves(n)
  }

  lemma {:induction false} QuietNotes(notes: seq<Note>, p: Choice)
    requires forall k :: 0 <= k < |notes| ==> Quiet(notes[k])
    ensures Ins(notes, p) == Outs(notes, p) == Losses(notes) == 0
  {
    if notes != [] {
      assert Quiet(notes[0]);
      assert forall k :: 0 <= k < |notes| - 1 ==> notes[1..][k] == notes[k + 1];
      QuietNotes(notes[1..], p);
    }
  }

  lemma RouteQuiet(w: Plugins, routes: map<Tag, seq<nat>>, b: Bench, t: Ticket, op: Op, p: Choice)
    requires Ranked(w) && Wiring(routes, b.slots)
    ensures var r := Route(w, routes, b, t, op, 0);
      Ins(r.ledger, p) == Ins(b.ledger, p) && Outs(r.ledger, p) == Outs(b.ledger, p)
      && Losses(r.ledger) == Losses(b.ledger)
  {
    var s := StepsOf(w, routes, b, t, op, 0);
    RouteLedger(w, routes, b, t, op, 0);
    RouteTrail(w, routes, b, t, op, 0);
    TrailQuiet(w, routes, t, s.tries, s.ending, p);
    SumsConcat(b.ledger, s.tries, p);
    SumsConcat(b.ledger + s.tries, s.ending, p);
  }

  lemma TrailQuiet(
    w: Plugins, routes: map<Tag, seq<nat>>, t: Ticket, tries: seq<Note>, ending: seq<Note>, p: Choice)
    requires Trail(w, routes, t, tries, ending)
    ensures Ins(tries, p) == Outs(tries, p) == Ins(ending, p) == Outs(ending, p) == Losses(tries) == Losses(ending) == 0
  {
    forall k | 0 <= k < |tries| ensures Quiet(tries[k]) {
      assert tries[k] in tries;
    }
    QuietNotes(tries, p);
    QuietNotes(ending, p);
  }

  lemma {:induction false} DeliverLeaves(
    w: Plugins, routes: map<Tag, seq<nat>>, b: Bench, batch: seq<Entry>, p: Choice)
    requires Ranked(w) && Wiring(routes, b.slots)
    ensures var d := Deliver(w, routes, b, batch);
      Ins(d.ledger, p) == Ins(b.ledger, p) && Outs(d.ledger, p) == Outs(b.ledger, p) + Times(batch, p)
      && Losses(d.ledger) == Losses(b.ledger)
    decreases |batch|
  {
    if batch != [] {
      var x := batch[0];
      var b1 := b.(ledger := b.ledger + [Committed(x.ticket, x.op)]);
      SumsOne(b.ledger, Committed(x.ticket, x.op), p);
      RouteQuiet(w, routes, b1, x.ticket, x.op, p);
      WiringKept(w, routes, b1, x.ticket, x.op, 0);
      DeliverLeaves(w, routes, Route(w, routes, b1, x.ticket, x.op, 0), batch[1..], p);
    }
  }

  lemma CommitEven(w: World, m: MachineState, p: Choice)
    requires WorldOk(w) && HubOk(m.hub) && Even(m.book, p)
    ensures var c := CommitPhase(w, m).book;
      Even(c, p) && Ins(c.ledger, p) == Ins(m.book.ledger, p) && Losses(c.ledger) == Losses(m.book.ledger)
  {
    if m.book.pool.pending != [] {
      HubWired(m.hub);
      SumsOne(m.book.ledger, Batch, p);
      DeliverLeaves(w.plugins, m.hub.routes, BenchOf(m), m.book.pool.pending, p);
    }
  }

  lemma CommitConserved(w: World, m: MachineState, p: Choice, t: Ticket)
    requires WorldOk(w) && HubOk(m.hub) && Conserved(m.book, p, t)
    ensures Conserved(CommitPhase(w, m).book, p, t)
  {
    CommitEven(w, m, p);
    CommitEven(w, m, Index(t.index));
    if m.book.pool.pending != [] {
      HubWired(m.hub);
      DeliverConserves(w.plugins, m.hub.routes, BenchOf(m), m.book.pool.pending, t);
      CountsOne(m.book.ledger, Batch, t);
    }
  }

  lemma HubWired(h: Hub)
    requires HubOk(h)
    ensures Wiring(h.routes, h.store.slots)
  {
    forall t, i | t in h.routes && i in h.routes[t] ensures LiveAt(h.store.slots, i) {
      assert Live(h.store, i);
    }
  }

  /** Notes that concern no operation change no account. */
  lemma AddQuietly(b: Book, n: Note, rules: seq<RuleSlot>, p: Choice, t: Ticket)
    requires Conserved(b, p, t) && (n.Taken? || n.Installed? || n.Cleared?)
    ensures Conserved(Book(b.pool.(rules := rules), b.ledger + [n]), p, t)
  {
    SumsOne(b.ledger, n, p);
    SumsOne(b.ledger, n, Index(t.index));
    CountsOne(b.ledger, n, t);
  }

  lemma TurnConserved(w: World, m: MachineState, p: Choice, t: Ticket)
    requires WorldOk(w) && HubOk(m.hub) && Conserved(m.book, p, t)
    ensures Conserved(MicroStep(w, m).machine.book, p, t)
  {
    var inv, c := Conserves(p, t), CommitPhase(w, m);
    ConservesStages(p, t);
    CommitConserved(w, m, p, t);
    forall b | inv(b) ensures inv(AfterTaking(c.(book := b))) {
      if c.slot.Some? {
        AddQuietly(b, Taken(c.slot.value), b.pool.rules, p, t);
      }
    }
    TurnKeeps(w, inv, inv, Any(), m);
  }

  lemma ReactConserved(w: World, m: MachineState, x: Input, p: Choice, t: Ticket)
    requires WorldOk(w) && HubOk(m.hub) && Conserved(m.book, p, t)
    ensures Conserved(React(w, m, x).book, p, t)
  {
    match x
    case Turn => TurnConserved(w, m, p, t);
    case Init(target) =>
      if m.current == NIL { StageConserved(m.book, RequestOp(Request(target, NORMAL)), None, p, t); }
    case Submit(op) => StageConserved(m.book, op, None, p, t);
    case Reset => AddQuietly(m.book, Cleared, m.book.pool.rules, p, t);
    case Arbitrate(a) => AddQuietly(m.book, Installed(a), React(w, m, x).book.pool.rules, p, t);
    case _ =>
  }

  /** For arbitrary behaviors, arbiters and consumers, over every run: every operation staged has one
      fate, whichever operations one chooses to follow; every ticket has ended, in a consumption or an
      unhandled report, as often as it was committed; and until the counter wraps every ticket index
      belongs to one operation and none is silently replaced. */
  lemma {:induction false} OperationsConserved(w: World, m: MachineState, inputs: seq<Input>, p: Choice, t: Ticket)
    requires WorldOk(w) && HubOk(m.hub) && Conserved(m.book, p, t)
    ensures Conserved(Run(w, m, inputs).book, p, t)
    decreases |inputs|
  {
    if inputs != [] {
      ReactHub(w, m, inputs[0]);
      ReactConserved(w, m, inputs[0], p, t);
      OperationsConserved(w, React(w, m, inputs[0]), inputs[1..], p, t);
    }
  }

  lemma FreshConserved(w: World, context: Context, p: Choice, t: Ticket)
    requires WorldOk(w)
    ensures Conserved(Fresh(w, context).book, p, t)
  {
    NewConserved(Fresh(w, context).book, p, t);
  }

  lemma NewConserved(b: Book, p: Choice, t: Ticket)
    requires b.pool.issued == 0 && b.pool.pending == [] && b.ledger == [Installed(ByPriority())]
    ensures Conserved(b, p, t)
  {
    QuietNotes(b.ledger, p);
    QuietNotes(b.ledger, Index(t.index));
    NoneCounted(b.ledger, t);
  }

  /** A consumer only ever sees operations of the types that it was registered for, reused slots
      included, and no route leads to an empty slot. */
  lemma OnlyRegistered(w: Plugins, h: Hub, b: Bench, t: Ticket, op: Op, n: Note)
    requires Ranked(w) && HubOk(h) && b.slots == h.store.slots && Wiring(h.routes, b.slots)
    requires n in StepsOf(w, h.routes, b, t, op, 0).tries
    ensures n.Tried? && Live(h.store, n.slot) && TagOf(n.op) in h.store.slots[n.slot].value.tags
  {
    RouteTrail(w, h.routes, b, t, op, 0);
    assert n.slot in h.routes[TagOf(n.op)];
  }
}
