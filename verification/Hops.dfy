/** The way of a committed operation from consumer to consumer, said without the route loop. */
module Hopping {
  import opened Base
  import opened StateForest
  import opened Operations
  import opened Reconciling
  import opened Arbitration
  import opened Consuming
  import opened Hubs
  import opened Routing

  /** Nothing but the consumer at slot `i` has changed. */
  ghost predicate OnlyConsumer(b: Bench, i: nat, c: Consumer, r: Bench)
    requires LiveAt(b.slots, i)
  {
    r.slots == b.slots[i := Some(Tenant(c, b.slots[i].value.tags))] && r.ready == b.ready && r.slot == b.slot
  }

  /** The consumer at slot `i` is offered the operation: its own kinds of operations it consumes, with
      their effect, and any other it passes on untouched; a custom one does what its behavior says. */
  ghost predicate Hop(w: Plugins, t: Ticket, b: Bench, op: Op, i: nat, r: Bench, flow: OpFlow)
    requires LiveAt(b.slots, i)
  {
    match b.slots[i].value.consumer
    case Events =>
      && r.slots == b.slots && r.slot == b.slot
      && if op.EventOp? then r.ready == b.ready + [op.event] && flow == Done else r.ready == b.ready && flow == Next(op)
    case Requests =>
      && r.slots == b.slots && r.ready == b.ready
      && if op.RequestOp? then r.slot == Some(op.request) && flow == Done else r.slot == b.slot && flow == Next(op)
    case LocalTasks(running, mailbox) =>
      (match op
       case StartLocal(h) => OnlyConsumer(b, i, LocalTasks(running + {h}, mailbox), r) && flow == Done
       case StopOp(h) =>
         && OnlyConsumer(b, i, LocalTasks(running - {h}, mailbox), r)
         && flow == if h in running || !w.mt then Done else Next(op)
       case _ => OnlyConsumer(b, i, LocalTasks(running, mailbox), r) && flow == Next(op))
    case MtTasks(running, mailbox) =>
      (match op
       case StartMt(h) => OnlyConsumer(b, i, MtTasks(running + {h}, mailbox), r) && flow == Done
       case StopOp(h) => OnlyConsumer(b, i, MtTasks(running - {h}, mailbox), r) && flow == Done
       case _ => OnlyConsumer(b, i, MtTasks(running, mailbox), r) && flow == Next(op))
    case Custom(s) =>
      w.consume(s, t, op) == Outcome(w.consume(s, t, op).state, flow)
      && OnlyConsumer(b, i, Custom(w.consume(s, t, op).state), r)
  }

  /** One attempt is one hop. */
  lemma AttemptHops(w: Plugins, b: Bench, t: Ticket, op: Op, next: nat, i: nat)
    requires LiveAt(b.slots, i)
    ensures var a := Attempt(w, b, t, op, next, i); Hop(w, t, b, op, i, a.bench, a.flow)
  {
    assert b.slots[i := b.slots[i]] == b.slots;
    match b.slots[i].value.consumer
    case LocalTasks(running, _) =>
      if op.StopOp? && op.handle !in running {
        assert running - {op.handle} == running;
      }
    case _ =>
  }

  /** A stop on the way: what is offered to whom. */
  datatype Stop = Stop(bench: Bench, op: Op, next: nat)

  ghost predicate AtLive(routes: map<Tag, seq<nat>>, s: Stop) {
    s.next < |RouteOf(routes, TagOf(s.op))| && LiveAt(s.bench.slots, routes[TagOf(s.op)][s.next])
  }

  function SlotOf(routes: map<Tag, seq<nat>>, s: Stop): nat
    requires s.next < |RouteOf(routes, TagOf(s.op))|
  {
    routes[TagOf(s.op)][s.next]
  }

  /** From one stop to the next: exactly what the consumer passes on is offered to the next consumer of
      the same type, or to the first one of another type. */
  ghost predicate Passing(w: Plugins, routes: map<Tag, seq<nat>>, t: Ticket, a: Stop, b: Stop) {
    && AtLive(routes, a)
    && Hop(w, t, a.bench, a.op, SlotOf(routes, a), b.bench, Next(b.op))
    && b.next == if TagOf(b.op) == TagOf(a.op) then a.next + 1 else 0
  }

  /** The last stop: the consumer there consumes, or there is none left and the operation as it is by then
      is reported unhandled. */
  ghost predicate Ending(w: Plugins, routes: map<Tag, seq<nat>>, t: Ticket, a: Stop, r: Bench) {
    if a.next >= |RouteOf(routes, TagOf(a.op))| then
      && r.slots == a.bench.slots && r.ready == a.bench.ready && r.slot == a.bench.slot
      && r.ledger == a.bench.ledger + [Unhandled(t, a.op)]
    else
      && AtLive(routes, a) && Hop(w, t, a.bench, a.op, SlotOf(routes, a), r, Done)
      && r.ledger != [] && r.ledger[|r.ledger| - 1] == Consumed(t, SlotOf(routes, a))
  }

  /** Routing is such a way, from the operation as committed to its one ending. */
  lemma {:induction false} RouteStops(
    w: Plugins, routes: map<Tag, seq<nat>>, b: Bench, t: Ticket, op: Op, next: nat)
    returns (stops: seq<Stop>)
    requires Ranked(w) && Wiring(routes, b.slots)
    ensures stops != [] && stops[0] == Stop(b, op, next)
    ensures forall k :: 0 < k < |stops| ==> Passing(w, routes, t, stops[k - 1], stops[k])
    ensures Ending(w, routes, t, stops[|stops| - 1], Route(w, routes, b, t, op, next))
    decreases w.rank(op), |RouteOf(routes, TagOf(op))| - next
  {
    var here := Stop(b, op, next);
    stops := [here];
    if next < |RouteOf(routes, TagOf(op))| {
      var i := routes[TagOf(op)][next];
      assert TagOf(op) in routes && i in routes[TagOf(op)] && LiveAt(b.slots, i);
      var a := Attempt(w, b, t, op, next, i);
      AttemptHops(w, b, t, op, next, i);
      if a.flow.Next? {
        PassesOn(w, routes, b, t, op, next);
        var (other, k) := Onto(w, b, t, op, next, i);
        var more := RouteStops(w, routes, a.bench, t, other, k);
        stops := [here] + more;
        forall k | 0 < k < |stops| ensures Passing(w, routes, t, stops[k - 1], stops[k]) {
          assert k > 1 ==> stops[k] == more[k - 1] && stops[k - 1] == more[k - 2];
        }
      }
    }
  }

  // ---- A whole batch ----

  /** The committed entries, in the order of the history. */
  function CommittedIn(ledger: seq<Note>): seq<Entry> {
    if ledger == [] then []
    else (if ledger[0].Committed? then [Entry(ledger[0].ticket, ledger[0].op)] else []) + CommittedIn(ledger[1..])
  }

  lemma {:induction false} CommittedConcat(a: seq<Note>, b: seq<Note>)
    ensures CommittedIn(a + b) == CommittedIn(a) + CommittedIn(b)
    decreases |a|
  {
    if a == [] {
      assert a + b == b;
    } else {
      var first := if a[0].Committed? then [Entry(a[0].ticket, a[0].op)] else [];
      assert (a + b)[1..] == a[1..] + b;
      CommittedConcat(a[1..], b);
      Assoc(first, CommittedIn(a[1..]), CommittedIn(b));
    }
  }

  lemma {:induction false} NothingCommitted(notes: seq<Note>)
    requires forall k :: 0 <= k < |notes| ==> !notes[k].Committed?
    ensures CommittedIn(notes) == []
  {
    if notes != [] {
      assert forall k :: 0 <= k < |notes| - 1 ==> notes[1..][k] == notes[k + 1];
      NothingCommitted(notes[1..]);
    }
  }

  lemma RouteCommits(w: Plugins, routes: map<Tag, seq<nat>>, b: Bench, t: Ticket, op: Op)
    requires Ranked(w) && Wiring(routes, b.slots)
    ensures CommittedIn(Route(w, routes, b, t, op, 0).ledger) == CommittedIn(b.ledger)
  {
    var s := StepsOf(w, routes, b, t, op, 0);
    RouteLedger(w, routes, b, t, op, 0);
    RouteTrail(w, routes, b, t, op, 0);
    forall k | 0 <= k < |s.tries| ensures !s.tries[k].Committed? {
      assert s.tries[k] in s.tries;
    }
    NothingCommitted(s.tries);
    NothingCommitted(s.ending);
    CommittedConcat(b.ledger, s.tries);
    CommittedConcat(b.ledger + s.tries, s.ending);
  }

  /** A batch is routed in its order, every operation once. */
  lemma {:induction false} DeliverInOrder(w: Plugins, routes: map<Tag, seq<nat>>, b: Bench, batch: seq<Entry>)
    requires Ranked(w) && Wiring(routes, b.slots)
    ensures CommittedIn(Deliver(w, routes, b, batch).ledger) == CommittedIn(b.ledger) + batch
    decreases |batch|
  {
    if batch == [] {
      assert CommittedIn(b.ledger) + [] == CommittedIn(b.ledger);
    } else {
      var e := batch[0];
      var b1 := b.(ledger := b.ledger + [Committed(e.ticket, e.op)]);
      CommittedConcat(b.ledger, [Committed(e.ticket, e.op)]);
      assert [Committed(e.ticket, e.op)][1..] == [];
      RouteCommits(w, routes, b1, e.ticket, e.op);
      WiringKept(w, routes, b1, e.ticket, e.op, 0);
      DeliverInOrder(w, routes, Route(w, routes, b1, e.ticket, e.op, 0), batch[1..]);
      Assoc(CommittedIn(b.ledger), [e], batch[1..]);
      assert batch == [e] + batch[1..];
    }
  }
}
