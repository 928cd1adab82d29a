/** Events are dispatched exactly once each, in the order in which they were staged. */
module Fifo {
  import opened Base
  import opened StateForest
  import opened Operations
  import opened Reconciling
  import opened Arbitration
  import opened Running
  import opened Consuming
  import opened Hubs
  import opened Routing
  import opened Machines
  import opened Staging
  import opened Discipline
  import opened Conserving
  import opened Requesting

  /** The pending events, in commit order. */
  function EventsIn(pending: seq<Entry>): seq<Event> {
    if pending == [] then []
    else (if pending[0].op.EventOp? then [pending[0].op.event] else []) + EventsIn(pending[1..])
  }

  /** The events ever staged, kept by the rules or not, in the order of staging. */
  function StagedEvents(ledger: seq<Note>): seq<Event> {
    if ledger == [] then []
    else (if Enters(ledger[0]) && ledger[0].op.EventOp? then [ledger[0].op.event] else []) + StagedEvents(ledger[1..])
  }

  lemma {:induction false} StagedConcat(a: seq<Note>, b: seq<Note>)
    ensures StagedEvents(a + b) == StagedEvents(a) + StagedEvents(b)
    decreases |a|
  {
    if a == [] {
      assert a + b == b;
    } else {
      assert (a + b)[1..] == a[1..] + b;
      StagedConcat(a[1..], b);
    }
  }

  lemma {:induction false} NothingStaged(notes: seq<Note>)
    requires forall n :: n in notes ==> !Enters(n)
    ensures StagedEvents(notes) == []
  {
    if notes != [] {
      assert notes[0] in notes;
      NothingStaged(notes[1..]);
    }
  }

  lemma DeliveriesStageNothing(a: seq<Note>, b: seq<Note>)
    requires Continues(a, b, Delivered)
    ensures StagedEvents(b) == StagedEvents(a)
  {
    assert b == a + b[|a|..];
    NothingStaged(b[|a|..]);
    StagedConcat(a, b[|a|..]);
  }

  /** Events wait at the default priority. */
  ghost predicate EventsFlat(pending: seq<Entry>) {
    forall e :: e in pending && e.op.EventOp? ==> e.ticket.priority == 0
  }

  /** Custom consumers drain events at the default priority; other operations as they like. */
  ghost predicate DrainsFlat(w: Plugins) {
    DrainsFit(w, Flat())
  }

  /** Events come at the default priority. */
  function Flat(): Offer -> bool {
    (o: Offer) => o.op.EventOp? ==> o.priority.None? || o.priority == Some(0)
  }

  function EventIn(e: Entry): seq<Event> {
    if e.op.EventOp? then [e.op.event] else []
  }

  lemma EventsCons(e: Entry, rest: seq<Entry>)
    ensures EventsIn([e] + rest) == EventIn(e) + EventsIn(rest)
  {
    assert ([e] + rest)[1..] == rest;
  }

  lemma {:induction false} InsertEvents(pending: seq<Entry>, e: Entry)
    requires Sorted(pending) && forall x :: x in pending ==> x.ticket != e.ticket
    requires e.op.EventOp? ==> forall x :: x in pending && x.op.EventOp? ==> Before(x.ticket, e.ticket)
    ensures EventsIn(Insert(pending, e)) == EventsIn(pending) + EventIn(e)
  {
    if pending == [] {
      EventsCons(e, []);
    } else if Before(e.ticket, pending[0].ticket) {
      assert pending[0] in pending;
      EventsCons(e, pending);
      if e.op.EventOp? {
        LaterNoEvents(pending, e);
      }
    } else {
      assert pending[0] in pending && pending == [pending[0]] + pending[1..];
      InsertEvents(pending[1..], e);
      EventsCons(pending[0], Insert(pending[1..], e));
      EventsCons(pending[0], pending[1..]);
      assert Insert(pending, e) == [pending[0]] + Insert(pending[1..], e);
    }
  }

  /** No event can wait behind an event that goes to the front. */
  lemma LaterNoEvents(pending: seq<Entry>, e: Entry)
    requires pending != [] && Sorted(pending) && Before(e.ticket, pending[0].ticket)
    requires forall x :: x in pending && x.op.EventOp? ==> Before(x.ticket, e.ticket)
    ensures EventsIn(pending) == []
  {
    forall x | x in pending ensures !x.op.EventOp? {
      var k :| 0 <= k < |pending| && pending[k] == x;
      assert k > 0 ==> Before(pending[0].ticket, pending[k].ticket);
    }
    NoEventsIn(pending);
  }

  lemma {:induction false} NoEventsIn(pending: seq<Entry>)
    requires forall x :: x in pending ==> !x.op.EventOp?
    ensures EventsIn(pending) == []
  {
    if pending != [] {
      assert pending[0] in pending;
      NoEventsIn(pending[1..]);
    }
  }

  lemma {:induction false} WithoutEvents(pending: seq<Entry>, tickets: set<Ticket>)
    requires forall x :: x in pending && x.ticket in tickets ==> !x.op.EventOp?
    ensures EventsIn(Without(pending, tickets)) == EventsIn(pending)
  {
    if pending != [] {
      assert pending[0] in pending;
      WithoutEvents(pending[1..], tickets);
    }
  }

  /** Staged so far are the events `done` with and the pending ones, in this order. */
  ghost predicate Lags(b: Book, done: seq<Event>) {
    && (exists a: Arbiter :: Contested(b.pool, a))
    && EventsFlat(b.pool.pending)
    && StagedEvents(b.ledger) == done + EventsIn(b.pool.pending)
  }

  /** A staging appends its event, if it has one, to the pending events. */
  lemma StageEvents(b: Book, arbiter: Arbiter, op: Op, priority: Option<nat>)
    requires Contested(b.pool, arbiter) && EventsFlat(b.pool.pending)
    requires b.pool.issued < WRAP && Flat()(Offer(op, priority))
    ensures EventsFlat(Stage(b, op, priority).pool.pending)
    ensures EventsIn(Stage(b, op, priority).pool.pending) ==
            EventsIn(b.pool.pending) + (if op.EventOp? then [op.event] else [])
  {
    var p, t := b.pool, NextTicket(b.pool, priority);
    var j, was := Judge(p.rules, t, op, p.pending), FindRequest(p.pending);
    JudgeRequest(arbiter, p, t, op);
    JudgeSorted(p.rules, t, op, p.pending);
    if op.RequestOp? && was.Some? {
      SameTicketSameEntry(p.pending, was.value);
      WithoutEvents(p.pending, {was.value.ticket});
    }
    if j.keep {
      InsertSorted(j.pending, Entry(t, op));
      InsertEvents(j.pending, Entry(t, op));
    }
  }

  lemma SameTicketSameEntry(pending: seq<Entry>, e: Entry)
    requires Sorted(pending) && e in pending
    ensures forall x :: x in pending && x.ticket == e.ticket ==> x == e
  {
    forall i, k | 0 <= i < k < |pending| ensures pending[i].ticket != pending[k].ticket {
      assert Before(pending[i].ticket, pending[k].ticket);
    }
    forall x | x in pending && x.ticket == e.ticket ensures x == e {
      var i :| 0 <= i < |pending| && pending[i] == x;
      var k :| 0 <= k < |pending| && pending[k] == e;
      assert i == k;
    }
  }

  lemma StageNotes(b: Book, op: Op, priority: Option<nat>)
    ensures StagedEvents(Stage(b, op, priority).ledger) ==
            StagedEvents(b.ledger) + (if op.EventOp? then [op.event] else [])
  {
    var more, last := StageShape(b, op, priority);
    NothingStaged(more);
    StagedConcat(b.ledger, more);
    StagedOne(b.ledger + more, last);
  }

  lemma StagedOne(a: seq<Note>, n: Note)
    ensures StagedEvents(a + [n]) == StagedEvents(a) + (if Enters(n) && n.op.EventOp? then [n.op.event] else [])
  {
    StagedConcat(a, [n]);
    assert [n][1..] == [];
  }

  lemma StageLags(b: Book, op: Op, priority: Option<nat>, done: seq<Event>)
    requires Lags(b, done) && b.pool.issued < WRAP && Flat()(Offer(op, priority))
    ensures Lags(Stage(b, op, priority), done)
  {
    var a: Arbiter :| Contested(b.pool, a);
    StageContests(b, a, op, priority);
    StageEvents(b, a, op, priority);
    StageNotes(b, op, priority);
  }

  /** Until the counter wraps the book lags behind `done`. */
  ghost function Lagging(done: seq<Event>): Book -> bool {
    (b: Book) => b.pool.issued <= WRAP ==> Lags(b, done)
  }

  lemma LaggingStages(done: seq<Event>)
    ensures Stages(Lagging(done), Flat())
  {
    forall b, op, priority | Lagging(done)(b) && Flat()(Offer(op, priority))
      ensures Lagging(done)(Stage(b, op, priority))
    {
      if b.pool.issued < WRAP {
        StageLags(b, op, priority, done);
      }
    }
  }

  // ---- Routing ----

  /** The first consumer of events is the built-in one. */
  ghost predicate Listens(routes: map<Tag, seq<nat>>, slots: Slots) {
    && RouteOf(routes, EventTag) != []
    && var i := routes[EventTag][0]; LiveAt(slots, i) && slots[i].value.consumer == Events
  }

  lemma AttemptKeepsEvents(w: Plugins, b: Bench, t: Ticket, op: Op, next: nat, i: nat, k: nat)
    requires LiveAt(b.slots, i) && LiveAt(b.slots, k) && b.slots[k].value.consumer == Events
    ensures var s := Attempt(w, b, t, op, next, i).bench.slots; LiveAt(s, k) && s[k].value.consumer == Events
  {
  }

  lemma AttemptNoEvent(w: Plugins, b: Bench, t: Ticket, op: Op, next: nat, i: nat)
    requires LiveAt(b.slots, i) && Mintless(w, EventTag) && !op.EventOp?
    ensures var a := Attempt(w, b, t, op, next, i);
      a.bench.ready == b.ready && (a.flow.Next? ==> !a.flow.op.EventOp?)
  {
    var c := b.slots[i].value.consumer;
    if c.Custom? {
      var flow := w.consume(c.state, t, op).flow;
      assert flow.Next? ==> TagOf(flow.op) != EventTag;
    }
  }

  lemma {:induction false} RouteNoEvent(w: Plugins, routes: map<Tag, seq<nat>>, b: Bench, t: Ticket, op: Op, next: nat)
    requires Ranked(w) && Mintless(w, EventTag) && Listens(routes, b.slots) && !op.EventOp?
    ensures var r := Route(w, routes, b, t, op, next); r.ready == b.ready && Listens(routes, r.slots)
    decreases w.rank(op), |RouteOf(routes, TagOf(op))| - next
  {
    if next < |RouteOf(routes, TagOf(op))| {
      var i := routes[TagOf(op)][next];
      if !LiveAt(b.slots, i) {
        RouteNoEvent(w, routes, b, t, op, next + 1);
      } else {
        var a := Attempt(w, b, t, op, next, i);
        AttemptNoEvent(w, b, t, op, next, i);
        AttemptKeepsEvents(w, b, t, op, next, i, routes[EventTag][0]);
        NextRanks(w, b.slots[i].value.consumer, t, op, b.ready, b.slot);
        if a.flow.Next? {
          RouteNoEvent(w, routes, a.bench, t, a.flow.op, if TagOf(a.flow.op) != TagOf(op) then 0 else next + 1);
        }
      }
    }
  }

  lemma RouteEvent(w: Plugins, routes: map<Tag, seq<nat>>, b: Bench, t: Ticket, e: Event)
    requires Ranked(w) && Listens(routes, b.slots)
    ensures var r := Route(w, routes, b, t, EventOp(e), 0); r.ready == b.ready + [e] && Listens(routes, r.slots)
  {
    var i := routes[EventTag][0];
    assert Attempt(w, b, t, EventOp(e), 0, i).flow.Done?;
  }

  lemma DeliverOneEvent(w: Plugins, routes: map<Tag, seq<nat>>, b: Bench, e: Entry)
    requires Ranked(w) && Mintless(w, EventTag) && Listens(routes, b.slots)
    ensures var r := Route(w, routes, b.(ledger := b.ledger + [Committed(e.ticket, e.op)]), e.ticket, e.op, 0);
      Listens(routes, r.slots) && r.ready == b.ready + EventIn(e)
  {
    var b1 := b.(ledger := b.ledger + [Committed(e.ticket, e.op)]);
    if e.op.EventOp? {
      RouteEvent(w, routes, b1, e.ticket, e.op.event);
    } else {
      RouteNoEvent(w, routes, b1, e.ticket, e.op, 0);
    }
  }

  lemma {:induction false} DeliverEvents(w: Plugins, routes: map<Tag, seq<nat>>, b: Bench, batch: seq<Entry>)
    requires Ranked(w) && Mintless(w, EventTag) && Listens(routes, b.slots)
    ensures Deliver(w, routes, b, batch).ready == b.ready + EventsIn(batch)
    ensures Listens(routes, Deliver(w, routes, b, batch).slots)
    decreases |batch|
  {
    if batch != [] {
      var e := batch[0];
      DeliverOneEvent(w, routes, b, e);
      var next := Route(w, routes, b.(ledger := b.ledger + [Committed(e.ticket, e.op)]), e.ticket, e.op, 0);
      DeliverEvents(w, routes, next, batch[1..]);
      EventsCons(e, batch[1..]);
      assert batch == [e] + batch[1..];
      assert b.ready + EventIn(e) + EventsIn(batch[1..]) == b.ready + EventsIn(batch);
    }
  }

  // ---- Whole machines ----

  /** Until the counter wraps, dispatched, ready and pending events are, in this order, all events
      ever staged. */
  ghost predicate InOrder(m: MachineState) {
    Lagging(EventsOf(m.calls) + m.ready)(m.book) && Listens(m.hub.routes, m.hub.store.slots)
  }

  lemma CommitInOrder(w: World, m: MachineState)
    requires WorldOk(w) && Mintless(w.plugins, EventTag) && InOrder(m)
    ensures InOrder(CommitPhase(w, m))
  {
    var c := CommitPhase(w, m);
    if m.book.pool.pending != [] {
      DeliverEvents(w.plugins, m.hub.routes, BenchOf(m), m.book.pool.pending);
      CommitDelivers(w, m);
      if m.book.pool.issued <= WRAP {
        DeliveriesStageNothing(m.book.ledger, c.book.ledger);
        var a: Arbiter :| Contested(m.book.pool, a);
        assert Contested(c.book.pool, a);
        assert EventsOf(m.calls) + m.ready + EventsIn(m.book.pool.pending) ==
               EventsOf(c.calls) + c.ready + EventsIn(c.book.pool.pending);
      }
    }
  }

  lemma {:induction false} DrainListens(w: Plugins, routes: map<Tag, seq<nat>>, slots: Slots, i: nat, b: Book)
    requires i <= |slots| && Listens(routes, slots)
    ensures Listens(routes, DrainFrom(w, slots, i, b).slots)
    decreases |slots| - i
  {
    if i < |slots| {
      if slots[i].None? {
        DrainListens(w, routes, slots, i + 1, b);
      } else {
        var d := Drain(w, slots[i].value.consumer, b);
        DrainListens(w, routes, slots[i := Some(slots[i].value.(consumer := d.consumer))], i + 1, d.book);
      }
    }
  }

  lemma NoteLags(b: Book, n: Note, rules: seq<RuleSlot>, done: seq<Event>)
    requires Lags(b, done) && !Enters(n)
    requires rules == if n.Installed? then AddRule(b.pool.rules, REQUEST_RULE, RequestRule(n.arbiter)) else b.pool.rules
    ensures Lags(Book(b.pool.(rules := rules), b.ledger + [n]), done)
  {
    var c := Book(b.pool.(rules := rules), b.ledger + [n]);
    NothingStaged([n]);
    StagedConcat(b.ledger, [n]);
    var a: Arbiter :| Contested(b.pool, a);
    assert b.pool.rules[1..] == [];
    assert Contested(c.pool, if n.Installed? then n.arbiter else a);
  }

  lemma ChangeSilent(change: seq<Call>, target: State)
    requires Change(change, target)
    ensures EventsOf(change) == []
  {
    forall c | c in change ensures !c.Dispatched? {
      var k :| 0 <= k < |change| && change[k] == c;
      assert k > 0 ==> change[k].Exited? || change[k].Entered?;
    }
    NoEvents(change);
  }

  lemma ApplySilent(w: World, m: MachineState)
    requires WorldOk(w)
    ensures EventsOf(ApplyPhase(w, m).calls) == EventsOf(m.calls)
  {
    var change := ApplyDiscipline(w, m);
    if m.slot.Some? {
      ChangeSilent(change, ApplyPhase(w, m).current);
    }
    EventsConcat(m.calls, change);
  }

  /** A turn moves events from the ready queue to the dispatched ones, and no others. */
  lemma TurnMoves(w: World, m: MachineState)
    requires WorldOk(w)
    ensures var c, r := CommitPhase(w, m), MicroStep(w, m).machine;
      EventsOf(r.calls) + r.ready == EventsOf(c.calls) + c.ready && r.hub == DrainPhase(w, c).0.hub
  {
    var c := CommitPhase(w, m);
    var (d, any) := DrainPhase(w, c);
    if !any {
      var a := ApplyPhase(w, d);
      ApplySilent(w, d);
      var heard := DispatchDiscipline(w, a);
      DispatchKeeps(w, a);
      EventsConcat(a.calls, heard);
    }
  }

  lemma TurnInOrder(w: World, m: MachineState)
    requires WorldOk(w) && Mintless(w.plugins, EventTag) && DrainsFlat(w.plugins) && InOrder(m)
    ensures InOrder(MicroStep(w, m).machine)
  {
    var c := CommitPhase(w, m);
    var inv := Lagging(EventsOf(c.calls) + c.ready);
    CommitInOrder(w, m);
    DrainListens(w.plugins, c.hub.routes, c.hub.store.slots, 0, c.book);
    LaggingStages(EventsOf(c.calls) + c.ready);
    forall b | inv(b) ensures inv(AfterTaking(c.(book := b))) {
      if c.slot.Some? && b.pool.issued <= WRAP {
        NoteLags(b, Taken(c.slot.value), b.pool.rules, EventsOf(c.calls) + c.ready);
      }
    }
    TurnKeeps(w, inv, inv, Flat(), m);
    TurnMoves(w, m);
  }

  lemma ReactListens(w: World, m: MachineState, x: Input)
    requires WorldOk(w) && HubOk(m.hub) && Spares(x, EventTag) && !x.Turn? && Listens(m.hub.routes, m.hub.store.slots)
    ensures var h := React(w, m, x).hub; Listens(h.routes, h.store.slots)
  {
    match x
    case Register(c, tag, more) => RegisterFirst(m.hub, c, [tag] + more, EventTag);
    case Unregister(tags) => UnregisterFirst(m.hub, tags, EventTag);
    case Reset => DefaultsServe(w.plugins);
    case _ =>
  }

  lemma ReactLags(w: World, m: MachineState, x: Input, done: seq<Event>)
    requires WorldOk(w) && HubOk(m.hub) && !x.Turn? && Lagging(done)(m.book)
    ensures Lagging(done)(React(w, m, x).book)
  {
    LaggingStages(done);
    match x
    case Init(target) => assert Flat()(Offer(RequestOp(Request(target, NORMAL)), None));
    case Submit(op) => assert Flat()(Offer(op, None));
    case Reset => if m.book.pool.issued <= WRAP { NoteLags(m.book, Cleared, m.book.pool.rules, done); }
    case Arbitrate(a) =>
      if m.book.pool.issued <= WRAP { NoteLags(m.book, Installed(a), React(w, m, x).book.pool.rules, done); }
    case _ =>
  }

  lemma ReactInOrder(w: World, m: MachineState, x: Input)
    requires WorldOk(w) && HubOk(m.hub) && Mintless(w.plugins, EventTag) && DrainsFlat(w.plugins) && InOrder(m)
    requires Spares(x, EventTag)
    ensures InOrder(React(w, m, x))
  {
    if x.Turn? {
      TurnInOrder(w, m);
    } else {
      ReactListens(w, m, x);
      ReactLags(w, m, x, EventsOf(m.calls) + m.ready);
    }
  }

  /** Over every run that keeps the built-in event consumer, across any number of turns, drains and
      interleaved operations: the events dispatched so far, then the ready queue, then the pending
      events in commit order, are all events ever staged, each once, in the order of staging. */
  lemma {:induction false} EventsFifo(w: World, m: MachineState, inputs: seq<Input>)
    requires WorldOk(w) && HubOk(m.hub) && Mintless(w.plugins, EventTag) && DrainsFlat(w.plugins) && InOrder(m)
    requires forall x :: x in inputs ==> Spares(x, EventTag)
    ensures var r := Run(w, m, inputs);
      && InOrder(r)
      && (r.book.pool.issued <= WRAP ==>
            EventsOf(r.calls) + r.ready + EventsIn(r.book.pool.pending) == StagedEvents(r.book.ledger))
    decreases |inputs|
  {
    if inputs != [] {
      assert inputs[0] in inputs;
      ReactHub(w, m, inputs[0]);
      ReactInOrder(w, m, inputs[0]);
      EventsFifo(w, React(w, m, inputs[0]), inputs[1..]);
    }
  }

  lemma FreshInOrder(w: World, context: Context)
    requires WorldOk(w)
    ensures InOrder(Fresh(w, context))
  {
    DefaultsServe(w.plugins);
    NewLags(Fresh(w, context).book);
  }

  lemma NewLags(b: Book)
    requires b == Book(Pool(0, [RuleSlot(REQUEST_RULE, RequestRule(ByPriority()))], []), [Installed(ByPriority())])
    ensures Lags(b, [])
  {
    NothingStaged(b.ledger);
    assert Contested(b.pool, ByPriority());
  }
}
