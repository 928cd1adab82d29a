/** The order of a commit against the order of staging, and what a wrapped ticket counter does to it. */
module Ordering {
  import opened Base
  import opened Operations
  import opened Reconciling
  import opened Conserving

  /** The staging that put an operation into the pool, counted without wrapping. */
  datatype Birth = Birth(serial: nat, op: Op)

  type Births = map<Ticket, Birth>

  /** The call, if it stages an operation that is kept, is the birth of what is pending under its ticket. */
  function BornBy(b: Book, c: PoolCall, births: Births): Births {
    if c.StageCall? then
      var t := NextTicket(b.pool, c.priority);
      if Judge(b.pool.rules, t, c.op, b.pool.pending).keep then births[t := Birth(b.pool.issued, c.op)] else births
    else births
  }

  function BirthsOf(b: Book, calls: seq<PoolCall>, births: Births): Births
    decreases |calls|
  {
    if calls == [] then births
    else BirthsOf(Perform(b, calls[0]), calls[1..], BornBy(b, calls[0], births))
  }

  /** The birth of a pending entry is known; its ticket carries the wrapped serial. */
  ghost predicate Dated(p: Pool, births: Births, e: Entry) {
    && e.ticket in births && births[e.ticket].op == e.op
    && births[e.ticket].serial < p.issued && births[e.ticket].serial % WRAP == e.ticket.index
  }

  ghost predicate AllDated(p: Pool, births: Births) {
    forall e :: e in p.pending ==> Dated(p, births, e)
  }

  function Serial(births: Births, e: Entry): nat {
    if e.ticket in births then births[e.ticket].serial else 0
  }

  predicate Equals(x: Entry, y: Entry) {
    x.ticket.priority == y.ticket.priority
  }

  lemma CallDated(b: Book, c: PoolCall, births: Births)
    requires Orderly(b.pool) && AllDated(b.pool, births)
    ensures AllDated(Perform(b, c).pool, BornBy(b, c, births))
  {
    if c.StageCall? {
      var t := NextTicket(b.pool, c.priority);
      var j := Judge(b.pool.rules, t, c.op, b.pool.pending);
      JudgeSorted(b.pool.rules, t, c.op, b.pool.pending);
      if j.keep {
        InsertSorted(j.pending, Entry(t, c.op));
      }
    }
  }

  lemma {:induction false} RunDated(b: Book, calls: seq<PoolCall>, births: Births)
    requires Orderly(b.pool) && AllDated(b.pool, births)
    ensures Orderly(PerformAll(b, calls).pool)
    ensures AllDated(PerformAll(b, calls).pool, BirthsOf(b, calls, births))
    decreases |calls|
  {
    if calls != [] {
      PerformOrderly(b, calls[0]);
      CallDated(b, calls[0], births);
      RunDated(Perform(b, calls[0]), calls[1..], BornBy(b, calls[0], births));
    }
  }

  /** Among equal priorities the pool is in the order of staging. */
  ghost predicate Stable(p: Pool, births: Births)
  {
    forall i, j :: 0 <= i < j < |p.pending| && Equals(p.pending[i], p.pending[j]) ==>
      Serial(births, p.pending[i]) < Serial(births, p.pending[j])
  }

  /** Between two stagings the counter has passed zero only as often as whole laps of 2^32 fit in. */
  predicate WholeLaps(x: nat, y: nat) {
    y / WRAP - x / WRAP == (y - x) / WRAP
  }

  ghost predicate AllWholeLaps(p: Pool, births: Births)
  {
    forall x, y :: x in p.pending && y in p.pending && Equals(x, y) ==>
      Serial(births, x) < Serial(births, y) ==> WholeLaps(Serial(births, x), Serial(births, y))
  }

  /** No multiple of 2^32 lies between pending stagings of one priority. */
  ghost predicate OneLap(p: Pool, births: Births)
  {
    forall x, y :: x in p.pending && y in p.pending && Equals(x, y) ==>
      Serial(births, x) / WRAP == Serial(births, y) / WRAP
  }

  /** Nothing has been pending for more than 2^32 stagings. */
  ghost predicate Recent(p: Pool, births: Births)
  {
    forall e :: e in p.pending ==> p.issued - Serial(births, e) <= WRAP
  }

  lemma LapsOrder(x: nat, y: nat)
    requires x < y && x % WRAP != y % WRAP
    ensures x % WRAP < y % WRAP <==> WholeLaps(x, y)
    ensures y < x + WRAP ==> (x % WRAP < y % WRAP <==> x / WRAP == y / WRAP)
  {
    var q, r := y / WRAP - x / WRAP, y % WRAP - x % WRAP;
    assert x == x / WRAP * WRAP + x % WRAP && y == y / WRAP * WRAP + y % WRAP;
    assert y - x == q * WRAP + r && -WRAP < r < WRAP;
    LapsOf(y - x, q, r);
  }

  lemma LapsOf(d: nat, q: int, r: int)
    requires d == q * WRAP + r && -WRAP < r < WRAP && r != 0
    ensures d / WRAP == if r > 0 then q else q - 1
    ensures d < WRAP ==> (r > 0 <==> q == 0)
  {
  }

  /** The entries of one priority stand in the order of their wrapped serials. */
  lemma PairStands(p: Pool, births: Births, i: nat, j: nat)
    requires Sorted(p.pending) && AllDated(p, births) && i < j < |p.pending|
    requires Equals(p.pending[i], p.pending[j])
    ensures var x, y := Serial(births, p.pending[i]), Serial(births, p.pending[j]);
      x != y && (x < y ==> WholeLaps(x, y)) && (y < x ==> !WholeLaps(y, x))
  {
    var x, y := p.pending[i], p.pending[j];
    assert x in p.pending && y in p.pending;
    assert Before(x.ticket, y.ticket) && x.ticket.index < y.ticket.index;
    if Serial(births, x) < Serial(births, y) {
      LapsOrder(Serial(births, x), Serial(births, y));
    } else {
      LapsOrder(Serial(births, y), Serial(births, x));
    }
  }

  lemma StableByLaps(p: Pool, births: Births)
    requires Sorted(p.pending) && AllDated(p, births)
    ensures Stable(p, births) <==> AllWholeLaps(p, births)
  {
    forall i, j | 0 <= i < j < |p.pending| && Equals(p.pending[i], p.pending[j])
      ensures Serial(births, p.pending[i]) != Serial(births, p.pending[j])
      ensures Serial(births, p.pending[i]) < Serial(births, p.pending[j]) ==>
                WholeLaps(Serial(births, p.pending[i]), Serial(births, p.pending[j]))
      ensures Serial(births, p.pending[j]) < Serial(births, p.pending[i]) ==>
                !WholeLaps(Serial(births, p.pending[j]), Serial(births, p.pending[i]))
    {
      PairStands(p, births, i, j);
    }
    if Stable(p, births) {
      StableLaps(p, births);
    }
    if AllWholeLaps(p, births) {
      forall i, j | 0 <= i < j < |p.pending| && Equals(p.pending[i], p.pending[j])
        ensures Serial(births, p.pending[i]) < Serial(births, p.pending[j])
      {
        assert p.pending[i] in p.pending && p.pending[j] in p.pending;
      }
    }
  }

  lemma StableLaps(p: Pool, births: Births)
    requires Sorted(p.pending) && AllDated(p, births) && Stable(p, births)
    ensures AllWholeLaps(p, births)
  {
    forall x, y | x in p.pending && y in p.pending && Equals(x, y) && Serial(births, x) < Serial(births, y)
      ensures WholeLaps(Serial(births, x), Serial(births, y))
    {
      var i :| 0 <= i < |p.pending| && p.pending[i] == x;
      var j :| 0 <= j < |p.pending| && p.pending[j] == y;
      assert i < j;
      PairStands(p, births, i, j);
    }
  }

  lemma RecentLaps(p: Pool, births: Births)
    requires Sorted(p.pending) && AllDated(p, births) && Recent(p, births)
    ensures AllWholeLaps(p, births) <==> OneLap(p, births)
  {
    forall x, y | x in p.pending && y in p.pending && Equals(x, y) && Serial(births, x) < Serial(births, y)
      ensures WholeLaps(Serial(births, x), Serial(births, y)) <==>
              Serial(births, x) / WRAP == Serial(births, y) / WRAP
    {
      assert Serial(births, y) - Serial(births, x) < WRAP;
    }
  }

  /** Over any run of calls under any rules the next commit applies exactly the operations asked for
      less those rejected, unstaged, committed before or lost, each once, by descending priority. Among
      equals it keeps the order of staging if and only if the counter passed zero between them only as
      often as whole laps fit in; with nothing pending for more than 2^32 stagings, if and only if no
      multiple of 2^32 lies between them; and always while the counter has not wrapped. */
  lemma CommitIsStableSort(b: Book, calls: seq<PoolCall>, births: Births, p: Choice)
    requires Orderly(b.pool) && Even(b, p) && AllDated(b.pool, births)
    ensures var r, m := PerformAll(b, calls), BirthsOf(b, calls, births);
      && Orderly(r.pool) && AllDated(r.pool, m)
      && Times(r.pool.pending, p) + Outs(r.ledger, p) == Ins(b.ledger, p) + Asked(b.pool.issued, calls, p)
      && (Stable(r.pool, m) <==> AllWholeLaps(r.pool, m))
      && (Recent(r.pool, m) ==> (Stable(r.pool, m) <==> OneLap(r.pool, m)))
      && (r.pool.issued <= WRAP ==> Stable(r.pool, m))
  {
    var r, m := PerformAll(b, calls), BirthsOf(b, calls, births);
    CommitAccounts(b, calls, p);
    RunDated(b, calls, births);
    StableByLaps(r.pool, m);
    if Recent(r.pool, m) {
      RecentLaps(r.pool, m);
    }
    if r.pool.issued <= WRAP {
      FirstLap(r.pool, m);
    }
  }

  lemma FirstLap(p: Pool, births: Births)
    requires AllDated(p, births) && p.issued <= WRAP
    ensures Recent(p, births) && OneLap(p, births)
  {
    forall e | e in p.pending ensures Serial(births, e) / WRAP == 0 {
      assert Serial(births, e) < WRAP;
    }
  }

  // ---- A later operation committed first ----

  lemma {:induction false} StagingsIssue(b: Book, calls: seq<PoolCall>)
    requires Orderly(b.pool) && b.pool.rules == []
    requires forall k :: 0 <= k < |calls| ==> calls[k].StageCall?
    ensures var r := PerformAll(b, calls).pool; Orderly(r) && r.rules == [] && r.issued == b.pool.issued + |calls|
    decreases |calls|
  {
    if calls != [] {
      PerformOrderly(b, calls[0]);
      StagingsIssue(Perform(b, calls[0]), calls[1..]);
    }
  }

  lemma ReversedAtWrap(b: Book, x: Op, y: Op)
    requires b.pool == Pool(WRAP - 1, [], [])
    ensures var calls := [StageCall(x, None), StageCall(y, None)];
      && Collisions(b, calls) == 0
      && PerformAll(b, calls).pool.pending == [Entry(Ticket(0, 0), y), Entry(Ticket(WRAP - 1, 0), x)]
  {
    var calls := [StageCall(x, None), StageCall(y, None)];
    var c := Perform(b, calls[0]);
    assert calls[1..] == [StageCall(y, None)] && [StageCall(y, None)][1..] == [];
    assert c.pool == Pool(WRAP, [], [Entry(Ticket(WRAP - 1, 0), x)]);
    assert PerformAll(b, calls) == PerformAll(c, [StageCall(y, None)]) == Perform(c, StageCall(y, None));
    assert Collisions(c, [StageCall(y, None)]) == 0;
  }

  /** Two operations staged right at the wrap are committed the wrong way round, although nothing has
      ever been lost: a new reconciler, 2^32 - 1 stagings of any kind, a commit, and those two. */
  lemma LaterFirst(b: Book, many: seq<PoolCall>, x: Op, y: Op)
    requires b.pool == Pool(0, [], []) && |many| == WRAP - 1
    requires forall k :: 0 <= k < |many| ==> many[k].StageCall?
    ensures var c := Perform(PerformAll(b, many), CommitCall);
      var calls := [StageCall(x, None), StageCall(y, None)];
      && Collisions(b, many) == 0 && Collisions(c, calls) == 0
      && PerformAll(c, calls).pool.pending == [Entry(Ticket(0, 0), y), Entry(Ticket(WRAP - 1, 0), x)]
  {
    StagingsIssue(b, many);
    NoCollisions(b, many);
    ReversedAtWrap(Perform(PerformAll(b, many), CommitCall), x, y);
  }
}
