/** Transition requests compete in the pool: the rule keeps one, chosen by the arbiter. */
module Arbitration {
  import opened Base
  import opened Operations
  import opened Reconciling

  /** The default arbiter: higher priority wins, and the later one among equals. */
  function ByPriority(): Arbiter {
    (incoming: Request, existing: Request) => incoming.priority >= existing.priority
  }

  /** The identity of the request rule; adding it again replaces it. */
  const REQUEST_RULE: nat := 0

  function FindRequest(pending: seq<Entry>): (r: Option<Entry>)
    ensures r.Some? ==> r.value in pending && r.value.op.RequestOp?
    ensures r.None? ==> forall e :: e in pending ==> !e.op.RequestOp?
  {
    if pending == [] then None
    else if pending[0].op.RequestOp? then Some(pending[0])
    else FindRequest(pending[1..])
  }

  function RequestRule(arbiter: Arbiter): Rule {
    (t: Ticket, op: Op, pending: seq<Entry>) =>
      if !op.RequestOp? then Verdict(Continue, Keep, {})
      else
        match FindRequest(pending)
        case None => Verdict(Continue, Keep, {})
        case Some(e) =>
          if arbiter(op.request, e.op.request) then Verdict(Continue, Keep, {e.ticket})
          else Verdict(Break, Drop, {})
  }

  /** The machine's reconciler has the request rule and no other. */
  ghost predicate Arbitrated(p: Pool, arbiter: Arbiter) {
    p.rules == [RuleSlot(REQUEST_RULE, RequestRule(arbiter))]
  }

  function PendingRequest(pending: seq<Entry>): Option<Request> {
    if FindRequest(pending).Some? then Some(FindRequest(pending).value.op.request) else None
  }

  ghost predicate OneRequest(pending: seq<Entry>) {
    forall x, y :: x in pending && y in pending && x.op.RequestOp? && y.op.RequestOp? ==> x == y
  }

  /** One step of the tournament among requests. */
  function Contest(arbiter: Arbiter, holder: Option<Request>, op: Op): Option<Request> {
    if !op.RequestOp? then holder
    else if holder.None? || arbiter(op.request, holder.value) then Some(op.request)
    else holder
  }

  function Tournament(arbiter: Arbiter, holder: Option<Request>, ops: seq<Op>): Option<Request>
    decreases |ops|
  {
    if ops == [] then holder else Tournament(arbiter, Contest(arbiter, holder, ops[0]), ops[1..])
  }

  /** What the request rule does to a pool: nothing, unless a request meets a request. */
  lemma JudgeRequest(arbiter: Arbiter, p: Pool, t: Ticket, op: Op)
    requires Arbitrated(p, arbiter)
    ensures var was, j := FindRequest(p.pending), Judge(p.rules, t, op, p.pending);
      if !op.RequestOp? || was.None? then j == Judged(true, p.pending, [])
      else if arbiter(op.request, was.value.op.request) then
        j == Judged(true, Without(p.pending, {was.value.ticket}), Removal(p.pending, {was.value.ticket}))
      else j == Judged(false, p.pending, [])
  {
    var v := RequestRule(arbiter)(t, op, p.pending);
    assert p.rules[0].rule == RequestRule(arbiter) && p.rules[1..] == [];
    WithoutNone(p.pending);
    assert Judge([], t, op, Without(p.pending, v.unstage)) == Judged(true, Without(p.pending, v.unstage), []);
  }

  lemma {:induction false} WithoutNone(pending: seq<Entry>)
    ensures Without(pending, {}) == pending && Removal(pending, {}) == []
  {
    if pending != [] {
      WithoutNone(pending[1..]);
    }
  }

  /** At most one request is pending; it is the winner of the contest so far. */
  ghost predicate Contested(p: Pool, arbiter: Arbiter) {
    Arbitrated(p, arbiter) && Orderly(p) && OneRequest(p.pending)
  }

  lemma InsertRequest(pending: seq<Entry>, e: Entry)
    requires Sorted(pending) && OneRequest(pending) && forall x :: x in pending ==> x.ticket != e.ticket
    requires e.op.RequestOp? ==> forall x :: x in pending ==> !x.op.RequestOp?
    ensures OneRequest(Insert(pending, e))
    ensures PendingRequest(Insert(pending, e)) ==
            if e.op.RequestOp? then Some(e.op.request) else PendingRequest(pending)
  {
    var all := Insert(pending, e);
    InsertSorted(pending, e);
    assert e in all;
    var was := FindRequest(pending);
    if was.Some? && !e.op.RequestOp? {
      assert was.value in all;
    }
  }

  lemma WithoutRequest(pending: seq<Entry>, e: Entry)
    requires OneRequest(pending) && e in pending && e.op.RequestOp?
    ensures forall x :: x in Without(pending, {e.ticket}) ==> !x.op.RequestOp?
  {
  }

  lemma StageContests(b: Book, arbiter: Arbiter, op: Op, priority: Option<nat>)
    requires Contested(b.pool, arbiter) && b.pool.issued < WRAP
    ensures Contested(Stage(b, op, priority).pool, arbiter)
    ensures PendingRequest(Stage(b, op, priority).pool.pending) == Contest(arbiter, PendingRequest(b.pool.pending), op)
  {
    var p, t := b.pool, NextTicket(b.pool, priority);
    var j := Judge(p.rules, t, op, p.pending);
    StageOrderly(b, op, priority);
    JudgeRequest(arbiter, p, t, op);
    JudgeSorted(p.rules, t, op, p.pending);
    var was := FindRequest(p.pending);
    if j.keep {
      if op.RequestOp? && was.Some? {
        WithoutRequest(p.pending, was.value);
      }
      InsertRequest(j.pending, Entry(t, op));
    }
  }

  datatype Offer = Offer(op: Op, priority: Option<nat>)

  function StageOffers(b: Book, offers: seq<Offer>): (r: Book)
    ensures r.pool.rules == b.pool.rules && r.pool.issued == b.pool.issued + |offers|
    decreases |offers|
  {
    if offers == [] then b else StageOffers(Stage(b, offers[0].op, offers[0].priority), offers[1..])
  }

  function OpsOf(offers: seq<Offer>): seq<Op> {
    if offers == [] then [] else [offers[0].op] + OpsOf(offers[1..])
  }

  /** Between two commits the pool holds at most one request, the winner of the tournament of all
      requests staged so far under whatever arbiter, however other operations are interleaved. */
  lemma {:induction false} ArbitrationIsTournament(b: Book, arbiter: Arbiter, offers: seq<Offer>)
    requires Contested(b.pool, arbiter) && StageOffers(b, offers).pool.issued <= WRAP
    ensures var c := StageOffers(b, offers).pool;
      && Contested(c, arbiter)
      && PendingRequest(c.pending) == Tournament(arbiter, PendingRequest(b.pool.pending), OpsOf(offers))
    decreases |offers|
  {
    if offers != [] {
      StageContests(b, arbiter, offers[0].op, offers[0].priority);
      ArbitrationIsTournament(Stage(b, offers[0].op, offers[0].priority), arbiter, offers[1..]);
    }
  }

  /** `ops[k]` asks for the highest priority, and nobody asks for as much after it. */
  ghost predicate LastMaximum(ops: seq<Op>, k: nat) {
    && k < |ops| && ops[k].RequestOp?
    && (forall j :: 0 <= j < |ops| && ops[j].RequestOp? ==> ops[j].request.priority <= ops[k].request.priority)
    && (forall j :: k < j < |ops| && ops[j].RequestOp? ==> ops[j].request.priority < ops[k].request.priority)
  }

  /** Under the default arbiter the winner is the last request of maximal priority. */
  lemma {:induction false} PriorityWinner(ops: seq<Op>)
    ensures match Tournament(ByPriority(), None, ops)
      case None => forall op :: op in ops ==> !op.RequestOp?
      case Some(r) => exists k: nat :: LastMaximum(ops, k) && ops[k] == RequestOp(r)
    decreases |ops|
  {
    if ops != [] {
      var n := |ops| - 1;
      PriorityWinner(ops[..n]);
      TournamentConcat(ByPriority(), None, ops[..n], ops[n]);
      assert ops == ops[..n] + [ops[n]];
      var r := Tournament(ByPriority(), None, ops[..n]);
      if r.Some? {
        var k: nat :| LastMaximum(ops[..n], k) && ops[..n][k] == RequestOp(r.value);
        if ops[n].RequestOp? && ops[n].request.priority >= r.value.priority {
          assert LastMaximum(ops, n);
        } else {
          assert LastMaximum(ops, k);
        }
      } else if ops[n].RequestOp? {
        assert LastMaximum(ops, n);
      }
    }
  }

  ghost predicate IsLastMaximum(ops: seq<Op>, r: Request) {
    exists k: nat :: LastMaximum(ops, k) && ops[k] == RequestOp(r)
  }

  /** The winner under the default arbiter is exactly the last request of maximal priority. */
  lemma WinnerIsLast(ops: seq<Op>, r: Request)
    ensures Tournament(ByPriority(), None, ops) == Some(r) <==> IsLastMaximum(ops, r)
  {
    PriorityWinner(ops);
    if IsLastMaximum(ops, r) {
      var j: nat :| LastMaximum(ops, j) && ops[j] == RequestOp(r);
      assert ops[j] in ops;
      var t := Tournament(ByPriority(), None, ops).value;
      var k: nat :| LastMaximum(ops, k) && ops[k] == RequestOp(t);
      assert j == k;
    }
  }

  lemma {:induction false} TournamentConcat(arbiter: Arbiter, holder: Option<Request>, ops: seq<Op>, last: Op)
    ensures Tournament(arbiter, holder, ops + [last]) == Contest(arbiter, Tournament(arbiter, holder, ops), last)
    decreases |ops|
  {
    if ops == [] {
      assert ([] + [last])[1..] == [];
    } else {
      assert (ops + [last])[1..] == ops[1..] + [last];
      TournamentConcat(arbiter, Contest(arbiter, holder, ops[0]), ops[1..], last);
    }
  }
}
