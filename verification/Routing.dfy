/** Committed operations on their way through the consumers. */
module Routing {
  import opened Base
  import opened Operations
  import opened Reconciling
  import opened Consuming
  import opened Hubs

  type Slots = seq<Option<Tenant>>

  /** What routing works on; the reconciler's pool is out of reach while a batch is applied. */
  datatype Bench = Bench(slots: Slots, ready: seq<Event>, slot: Option<Request>, ledger: seq<Note>)

  predicate LiveAt(slots: Slots, i: nat) {
    i < |slots| && slots[i].Some?
  }

  datatype Attempted = Attempted(bench: Bench, flow: OpFlow)

  /** What happens to the transition slot when a consumer is offered the operation. */
  function Seating(b: Bench, c: Consumer, op: Op): seq<Note> {
    if c.Requests? && op.RequestOp? then
      (if b.slot.Some? then [Overwritten(b.slot.value)] else []) + [Seated(op.request)]
    else []
  }

  function LastWords(b: Bench, c: Consumer, t: Ticket, op: Op, i: nat, flow: OpFlow): seq<Note> {
    Seating(b, c, op) + (if flow.Done? then [Consumed(t, i)] else [])
  }

  /** Offer the operation to the consumer at slot `i`, the `next`-th of its route. */
  function Attempt(w: Plugins, b: Bench, t: Ticket, op: Op, next: nat, i: nat): Attempted
    requires LiveAt(b.slots, i)
  {
    var tenant := b.slots[i].value;
    var r := Consume(w, tenant.consumer, t, op, b.ready, b.slot);
    Attempted(
      Bench(b.slots[i := Some(tenant.(consumer := r.consumer))], r.ready, r.slot,
            b.ledger + [Tried(t, op, next, i)] + LastWords(b, tenant.consumer, t, op, i, r.flow)),
      r.flow)
  }

  /** Try the consumers of the operation's type from the `next`-th on; an operation of another
      type starts over on the route of its own type. */
  function Route(w: Plugins, routes: map<Tag, seq<nat>>, b: Bench, t: Ticket, op: Op, next: nat): Bench
    requires Ranked(w)
    decreases w.rank(op), |RouteOf(routes, TagOf(op))| - next
  {
    var tag := TagOf(op);
    if next >= |RouteOf(routes, tag)| then b.(ledger := b.ledger + [Unhandled(t, op)])
    else
      var i := routes[tag][next];
      if !LiveAt(b.slots, i) then Route(w, routes, b, t, op, next + 1)
      else
        var a := Attempt(w, b, t, op, next, i);
        NextRanks(w, b.slots[i].value.consumer, t, op, b.ready, b.slot);
        match a.flow
        case Done => a.bench
        case Next(other) =>
          if TagOf(other) != tag then Route(w, routes, a.bench, t, other, 0)
          else Route(w, routes, a.bench, t, other, next + 1)
  }

  lemma NextRanks(w: Plugins, c: Consumer, t: Ticket, op: Op, ready: seq<Event>, slot: Option<Request>)
    requires Ranked(w)
    ensures var flow := Consume(w, c, t, op, ready, slot).flow;
      flow.Next? ==> w.rank(flow.op) <= w.rank(op) && (TagOf(flow.op) != TagOf(op) ==> w.rank(flow.op) < w.rank(op))
  {
    if c.Custom? {
      var flow := w.consume(c.state, t, op).flow;
      assert flow.Next? ==> w.rank(flow.op) <= w.rank(op);
    }
  }

  /** The whole batch, in order. */
  function Deliver(w: Plugins, routes: map<Tag, seq<nat>>, b: Bench, batch: seq<Entry>): Bench
    requires Ranked(w)
    decreases |batch|
  {
    if batch == [] then b
    else
      var e := batch[0];
      var b1 := b.(ledger := b.ledger + [Committed(e.ticket, e.op)]);
      Deliver(w, routes, Route(w, routes, b1, e.ticket, e.op, 0), batch[1..])
  }

  // ---- Every operation ends once, and no consumer is asked twice ----

  predicate Final(n: Note) {
    n.Consumed? || n.Unhandled?
  }

  /** Later attempts go further down the same route, or follow a change of type that lowered the rank. */
  predicate Onward(w: Plugins, a: Note, b: Note) {
    && a.Tried? && b.Tried?
    && (w.rank(b.op) < w.rank(a.op) || (TagOf(b.op) == TagOf(a.op) && a.next < b.next && w.rank(b.op) <= w.rank(a.op)))
  }

  /** Directly successive attempts: the next consumer of the type, or the first one of another type. */
  predicate Adjacent(a: Note, b: Note) {
    a.Tried? && b.Tried? && b.next == if TagOf(b.op) == TagOf(a.op) then a.next + 1 else 0
  }

  /** All attempts, at the consumers that the routes name, then one ending. */
  ghost predicate Trail(w: Plugins, routes: map<Tag, seq<nat>>, t: Ticket, tries: seq<Note>, ending: seq<Note>) {
    && (forall n :: n in tries ==> n.Tried? && n.ticket == t && n.next < |RouteOf(routes, TagOf(n.op))|
                                   && routes[TagOf(n.op)][n.next] == n.slot)
    && (forall j, k :: 0 <= j < k < |tries| ==> Onward(w, tries[j], tries[k]))
    && (forall k :: 0 < k < |tries| ==> Adjacent(tries[k - 1], tries[k]))
    && ending != [] && Final(ending[|ending| - 1])
    && (forall k :: 0 <= k < |ending| - 1 ==> ending[k].Overwritten? || ending[k].Seated?)
    && (ending[|ending| - 1].Unhandled? ==> |ending| == 1 && ending[0].ticket == t)
    && (ending[|ending| - 1].Consumed? ==> tries != [] && ending[|ending| - 1] == Consumed(t, tries[|tries| - 1].slot))
  }

  /** Every slot that a route names is live. */
  ghost predicate Wiring(routes: map<Tag, seq<nat>>, slots: Slots) {
    forall tag, i :: tag in routes && i in routes[tag] ==> LiveAt(slots, i)
  }

  lemma {:induction false} RouteLive(
    w: Plugins, routes: map<Tag, seq<nat>>, b: Bench, t: Ticket, op: Op, next: nat, i: nat)
    requires Ranked(w)
    ensures var r := Route(w, routes, b, t, op, next);
      |r.slots| == |b.slots| && LiveAt(r.slots, i) == LiveAt(b.slots, i)
      && (LiveAt(b.slots, i) ==> r.slots[i].value.tags == b.slots[i].value.tags)
    decreases w.rank(op), |RouteOf(routes, TagOf(op))| - next
  {
    var tag := TagOf(op);
    if next < |RouteOf(routes, tag)| {
      var k := routes[tag][next];
      if !LiveAt(b.slots, k) {
        RouteLive(w, routes, b, t, op, next + 1, i);
      } else {
        var a := Attempt(w, b, t, op, next, k);
        NextRanks(w, b.slots[k].value.consumer, t, op, b.ready, b.slot);
        if a.flow.Next? {
          RouteLive(w, routes, a.bench, t, a.flow.op, if TagOf(a.flow.op) != tag then 0 else next + 1, i);
        }
      }
    }
  }

  lemma WiringKept(w: Plugins, routes: map<Tag, seq<nat>>, b: Bench, t: Ticket, op: Op, next: nat)
    requires Ranked(w) && Wiring(routes, b.slots)
    ensures Wiring(routes, Route(w, routes, b, t, op, next).slots)
  {
    forall tag, i | tag in routes && i in routes[tag] ensures LiveAt(Route(w, routes, b, t, op, next).slots, i) {
      RouteLive(w, routes, b, t, op, next, i);
    }
  }

  lemma AttemptWiring(w: Plugins, routes: map<Tag, seq<nat>>, b: Bench, t: Ticket, op: Op, next: nat, i: nat)
    requires LiveAt(b.slots, i) && Wiring(routes, b.slots)
    ensures Wiring(routes, Attempt(w, b, t, op, next, i).bench.slots)
  {
    forall tag, k | tag in routes && k in routes[tag] ensures LiveAt(Attempt(w, b, t, op, next, i).bench.slots, k) {
      assert LiveAt(b.slots, k);
    }
  }

  /** The operation passed on by a consumer that did not consume, and where it is tried next. */
  function Onto(w: Plugins, b: Bench, t: Ticket, op: Op, next: nat, i: nat): (Op, nat)
    requires LiveAt(b.slots, i) && Attempt(w, b, t, op, next, i).flow.Next?
  {
    var other := Attempt(w, b, t, op, next, i).flow.op;
    (other, if TagOf(other) != TagOf(op) then 0 else next + 1)
  }

  lemma PassesOn(w: Plugins, routes: map<Tag, seq<nat>>, b: Bench, t: Ticket, op: Op, next: nat)
    requires Ranked(w) && Wiring(routes, b.slots) && next < |RouteOf(routes, TagOf(op))|
    requires LiveAt(b.slots, routes[TagOf(op)][next])
    requires Attempt(w, b, t, op, next, routes[TagOf(op)][next]).flow.Next?
    ensures var i := routes[TagOf(op)][next]; var a := Attempt(w, b, t, op, next, i).bench;
      var (other, k) := Onto(w, b, t, op, next, i);
      && Route(w, routes, b, t, op, next) == Route(w, routes, a, t, other, k)
      && a.ledger == b.ledger + [Tried(t, op, next, i)] && Wiring(routes, a.slots)
      && w.rank(other) <= w.rank(op) && (TagOf(other) != TagOf(op) ==> w.rank(other) < w.rank(op))
  {
    var i := routes[TagOf(op)][next];
    NextRanks(w, b.slots[i].value.consumer, t, op, b.ready, b.slot);
    AttemptWiring(w, routes, b, t, op, next, i);
    assert Attempt(w, b, t, op, next, i).bench.ledger == b.ledger + [Tried(t, op, next, i)];
  }

  /** The attempts at an operation, and how it ended. */
  datatype Steps = Steps(tries: seq<Note>, ending: seq<Note>)

  function StepsOf(w: Plugins, routes: map<Tag, seq<nat>>, b: Bench, t: Ticket, op: Op, next: nat): Steps
    requires Ranked(w) && Wiring(routes, b.slots)
    decreases w.rank(op), |RouteOf(routes, TagOf(op))| - next
  {
    if next >= |RouteOf(routes, TagOf(op))| then Steps([], [Unhandled(t, op)])
    else
      var i := routes[TagOf(op)][next];
      assert TagOf(op) in routes && i in routes[TagOf(op)] && LiveAt(b.slots, i);
      var try, a := Tried(t, op, next, i), Attempt(w, b, t, op, next, i);
      if a.flow.Done? then Steps([try], LastWords(b, b.slots[i].value.consumer, t, op, i, Done))
      else
        PassesOn(w, routes, b, t, op, next);
        var (other, k) := Onto(w, b, t, op, next, i);
        var more := StepsOf(w, routes, a.bench, t, other, k);
        Steps([try] + more.tries, more.ending)
  }

  lemma LedgerEnds(w: Plugins, routes: map<Tag, seq<nat>>, b: Bench, t: Ticket, op: Op, next: nat)
    requires Ranked(w) && Wiring(routes, b.slots)
    requires next < |RouteOf(routes, TagOf(op))| && LiveAt(b.slots, routes[TagOf(op)][next])
    requires Attempt(w, b, t, op, next, routes[TagOf(op)][next]).flow.Done?
    ensures var s := StepsOf(w, routes, b, t, op, next);
      Route(w, routes, b, t, op, next).ledger == b.ledger + s.tries + s.ending
  {
  }

  lemma LedgerGoesOn(w: Plugins, routes: map<Tag, seq<nat>>, b: Bench, t: Ticket, op: Op, next: nat)
    requires Ranked(w) && Wiring(routes, b.slots)
    requires next < |RouteOf(routes, TagOf(op))| && LiveAt(b.slots, routes[TagOf(op)][next])
    requires Attempt(w, b, t, op, next, routes[TagOf(op)][next]).flow.Next?
    requires var (other, k) := Onto(w, b, t, op, next, routes[TagOf(op)][next]);
      var a := Attempt(w, b, t, op, next, routes[TagOf(op)][next]).bench;
      Wiring(routes, a.slots)
      && var s := StepsOf(w, routes, a, t, other, k);
         Route(w, routes, a, t, other, k).ledger == a.ledger + s.tries + s.ending
    ensures var s := StepsOf(w, routes, b, t, op, next);
      Route(w, routes, b, t, op, next).ledger == b.ledger + s.tries + s.ending
  {
    var i := routes[TagOf(op)][next];
    var try, a := [Tried(t, op, next, i)], Attempt(w, b, t, op, next, i).bench;
    PassesOn(w, routes, b, t, op, next);
    var (other, k) := Onto(w, b, t, op, next, i);
    var more := StepsOf(w, routes, a, t, other, k);
    assert StepsOf(w, routes, b, t, op, next) == Steps(try + more.tries, more.ending);
    Regroup(b.ledger, try, more.tries, more.ending);
  }

  lemma Regroup<T>(a: seq<T>, x: seq<T>, y: seq<T>, z: seq<T>)
    ensures a + x + y + z == a + (x + y) + z
  {
  }

  lemma {:induction false} RouteLedger(
    w: Plugins, routes: map<Tag, seq<nat>>, b: Bench, t: Ticket, op: Op, next: nat)
    requires Ranked(w) && Wiring(routes, b.slots)
    ensures var s := StepsOf(w, routes, b, t, op, next);
      Route(w, routes, b, t, op, next).ledger == b.ledger + s.tries + s.ending
    decreases w.rank(op), |RouteOf(routes, TagOf(op))| - next
  {
    if next < |RouteOf(routes, TagOf(op))| {
      var i := routes[TagOf(op)][next];
      assert TagOf(op) in routes && i in routes[TagOf(op)] && LiveAt(b.slots, i);
      var a := Attempt(w, b, t, op, next, i);
      if a.flow.Done? {
        LedgerEnds(w, routes, b, t, op, next);
      } else {
        PassesOn(w, routes, b, t, op, next);
        var (other, k) := Onto(w, b, t, op, next, i);
        RouteLedger(w, routes, a.bench, t, other, k);
        LedgerGoesOn(w, routes, b, t, op, next);
      }
    }
  }

  /** Routing an operation leaves one trail: it goes down the route in the order of registration, or
      with a change of type to the front of another route at a lower rank, so that no place of a route
      is reached twice for the same type and rank, and it ends in one consumption or unhandled report. */
  lemma {:induction false} RouteTrail(w: Plugins, routes: map<Tag, seq<nat>>, b: Bench, t: Ticket, op: Op, next: nat)
    requires Ranked(w) && Wiring(routes, b.slots)
    ensures var s := StepsOf(w, routes, b, t, op, next); Trail(w, routes, t, s.tries, s.ending)
    ensures var s := StepsOf(w, routes, b, t, op, next);
      if next >= |RouteOf(routes, TagOf(op))| then s.tries == []
      else s.tries != [] && s.tries[0].Tried? && s.tries[0].op == op && s.tries[0].next == next
    decreases w.rank(op), |RouteOf(routes, TagOf(op))| - next
  {
    if next < |RouteOf(routes, TagOf(op))| {
      var i := routes[TagOf(op)][next];
      assert TagOf(op) in routes && i in routes[TagOf(op)] && LiveAt(b.slots, i);
      var try, a := Tried(t, op, next, i), Attempt(w, b, t, op, next, i);
      if a.flow.Next? {
        PassesOn(w, routes, b, t, op, next);
        var (other, k) := Onto(w, b, t, op, next, i);
        var more := StepsOf(w, routes, a.bench, t, other, k);
        RouteTrail(w, routes, a.bench, t, other, k);
        TrailGrows(w, routes, t, try, more.tries, more.ending);
      }
    }
  }

  lemma TrailGrows(w: Plugins, routes: map<Tag, seq<nat>>, t: Ticket, first: Note, more: seq<Note>, ending: seq<Note>)
    requires Trail(w, routes, t, more, ending)
    requires first.Tried? && first.ticket == t && first.next < |RouteOf(routes, TagOf(first.op))|
    requires routes[TagOf(first.op)][first.next] == first.slot
    requires more != [] ==> Adjacent(first, more[0]) && Onward(w, first, more[0])
    ensures Trail(w, routes, t, [first] + more, ending)
  {
    var all := [first] + more;
    forall j, k | 0 <= j < k < |all| ensures Onward(w, all[j], all[k]) {
      if j == 0 && k > 1 {
        assert Onward(w, more[0], more[k - 1]);
      }
    }
  }

  /** How often the ticket was consumed or reported unhandled. */
  function Endings(notes: seq<Note>, t: Ticket): nat {
    if notes == [] then 0 else (if Final(notes[0]) && notes[0].ticket == t then 1 else 0) + Endings(notes[1..], t)
  }

  /** How often the ticket was committed. */
  function Commits(notes: seq<Note>, t: Ticket): nat {
    if notes == [] then 0
    else (if notes[0].Committed? && notes[0].ticket == t then 1 else 0) + Commits(notes[1..], t)
  }

  lemma {:induction false} CountsConcat(a: seq<Note>, b: seq<Note>, t: Ticket)
    ensures Endings(a + b, t) == Endings(a, t) + Endings(b, t)
    ensures Commits(a + b, t) == Commits(a, t) + Commits(b, t)
    decreases |a|
  {
    if a == [] {
      assert a + b == b;
    } else {
      assert (a + b)[1..] == a[1..] + b;
      CountsConcat(a[1..], b, t);
    }
  }

  lemma CountsOne(a: seq<Note>, n: Note, t: Ticket)
    ensures Endings(a + [n], t) == Endings(a, t) + (if Final(n) && n.ticket == t then 1 else 0)
    ensures Commits(a + [n], t) == Commits(a, t) + (if n.Committed? && n.ticket == t then 1 else 0)
  {
    CountsConcat(a, [n], t);
    assert [n][1..] == [];
  }

  lemma {:induction false} NoneCounted(notes: seq<Note>, t: Ticket)
    requires forall k :: 0 <= k < |notes| ==> !Final(notes[k]) && !notes[k].Committed?
    ensures Endings(notes, t) == 0 && Commits(notes, t) == 0
  {
    if notes != [] {
      assert forall k :: 0 <= k < |notes| - 1 ==> notes[1..][k] == notes[k + 1];
      NoneCounted(notes[1..], t);
    }
  }

  lemma TrailCounts(
    w: Plugins, routes: map<Tag, seq<nat>>, t: Ticket, tries: seq<Note>, ending: seq<Note>, u: Ticket)
    requires Trail(w, routes, t, tries, ending)
    ensures Endings(tries + ending, u) == (if u == t then 1 else 0) && Commits(tries + ending, u) == 0
  {
    var most, last := ending[..|ending| - 1], ending[|ending| - 1];
    forall k | 0 <= k < |tries| ensures tries[k].Tried? {
      assert tries[k] in tries;
    }
    NoneCounted(tries, u);
    NoneCounted(most, u);
    CountsConcat(tries, ending, u);
    CountsOne(most, last, u);
    assert ending == most + [last];
  }

  /** Routing an operation ends it once, under its own ticket, and ends nothing else. */
  lemma RouteConserves(w: Plugins, routes: map<Tag, seq<nat>>, b: Bench, t: Ticket, op: Op, u: Ticket)
    requires Ranked(w) && Wiring(routes, b.slots)
    ensures var r := Route(w, routes, b, t, op, 0);
      && Commits(r.ledger, u) == Commits(b.ledger, u)
      && Endings(r.ledger, u) == Endings(b.ledger, u) + (if u == t then 1 else 0)
  {
    RouteLedger(w, routes, b, t, op, 0);
    RouteTrail(w, routes, b, t, op, 0);
    TrailAppended(w, routes, t, b.ledger, StepsOf(w, routes, b, t, op, 0), Route(w, routes, b, t, op, 0).ledger, u);
  }

  lemma TrailAppended(
    w: Plugins, routes: map<Tag, seq<nat>>, t: Ticket, before: seq<Note>, s: Steps, after: seq<Note>, u: Ticket)
    requires Trail(w, routes, t, s.tries, s.ending) && after == before + s.tries + s.ending
    ensures Commits(after, u) == Commits(before, u)
    ensures Endings(after, u) == Endings(before, u) + (if u == t then 1 else 0)
  {
    TrailCounts(w, routes, t, s.tries, s.ending, u);
    CountsConcat(before, s.tries + s.ending, u);
    assert before + (s.tries + s.ending) == after;
  }

  /** A batch is conserved ticket by ticket: as often as a ticket is committed it ends, none lost and
      none doubled. */
  lemma {:induction false} DeliverConserves(
    w: Plugins, routes: map<Tag, seq<nat>>, b: Bench, batch: seq<Entry>, u: Ticket)
    requires Ranked(w) && Wiring(routes, b.slots)
    ensures var d, n := Deliver(w, routes, b, batch), Commits(CommittedNotes(batch), u);
      && Wiring(routes, d.slots)
      && Commits(d.ledger, u) == Commits(b.ledger, u) + n
      && Endings(d.ledger, u) == Endings(b.ledger, u) + n
    decreases |batch|
  {
    if batch != [] {
      var e := batch[0];
      var b1 := b.(ledger := b.ledger + [Committed(e.ticket, e.op)]);
      CountsOne(b.ledger, Committed(e.ticket, e.op), u);
      RouteConserves(w, routes, b1, e.ticket, e.op, u);
      WiringKept(w, routes, b1, e.ticket, e.op, 0);
      DeliverConserves(w, routes, Route(w, routes, b1, e.ticket, e.op, 0), batch[1..], u);
    }
  }
}
