/** What becomes of every transition request, read off the ledger over every run. */
module Fates {
  import opened Base
  import opened StateForest
  import opened Operations
  import opened Reconciling
  import opened Arbitration
  import opened Running
  import opened Consuming
  import opened Hubs
  import opened Routing
  import opened Machines
  import opened Staging
  import opened Discipline
  import opened Conserving
  import opened Requesting

  // ---- The slot as the ledger tells it, whatever the consumers ----

  /** The content of the slot, and whether nothing was overwritten or taken that was not in it. */
  datatype Chair = Chair(content: Option<Request>, sound: bool)

  const EMPTY := Chair(None, true)

  function Sit(c: Chair, n: Note): Chair {
    match n
    case Seated(r) => Chair(Some(r), c.sound && c.content.None?)
    case Overwritten(r) => Chair(None, c.sound && c.content == Some(r))
    case Taken(r) => Chair(None, c.sound && c.content == Some(r))
    case _ => c
  }

  function ChairOf(c: Chair, ledger: seq<Note>): Chair
    decreases |ledger|
  {
    if ledger == [] then c else ChairOf(Sit(c, ledger[0]), ledger[1..])
  }

  lemma {:induction false} ChairConcat(c: Chair, x: seq<Note>, y: seq<Note>)
    ensures ChairOf(c, x + y) == ChairOf(ChairOf(c, x), y)
    decreases |x|
  {
    if x == [] {
      assert x + y == y;
    } else {
      assert (x + y)[1..] == x[1..] + y;
      ChairConcat(Sit(c, x[0]), x[1..], y);
    }
  }

  lemma ChairOne(c: Chair, x: seq<Note>, n: Note)
    ensures ChairOf(c, x + [n]) == Sit(ChairOf(c, x), n)
  {
    ChairConcat(c, x, [n]);
    assert [n][1..] == [];
    assert ChairOf(Sit(ChairOf(c, x), n), []) == Sit(ChairOf(c, x), n);
  }

  lemma {:induction false} ChairSkips(c: Chair, notes: seq<Note>)
    requires forall k :: 0 <= k < |notes| ==> OfKind(notes[k], Passing) || OfKind(notes[k], Put)
    ensures ChairOf(c, notes) == c
    decreases |notes|
  {
    if notes != [] {
      assert forall k :: 0 <= k < |notes| - 1 ==> notes[1..][k] == notes[k + 1];
      ChairSkips(c, notes[1..]);
    }
  }

  /** The ledger knows what the slot holds. */
  ghost predicate Known(ledger: seq<Note>, slot: Option<Request>) {
    ChairOf(EMPTY, ledger) == Chair(slot, true)
  }

  lemma KnownOn(a: seq<Note>, b: seq<Note>, kind: Kind, slot: Option<Request>)
    requires Known(a, slot) && Continues(a, b, kind) && (kind == Passing || kind == Put)
    ensures Known(b, slot)
  {
    var more := b[|a|..];
    assert b == a + more;
    ChairConcat(EMPTY, a, more);
    ChairSkips(ChairOf(EMPTY, a), more);
  }

  lemma AttemptKnown(w: Plugins, b: Bench, t: Ticket, op: Op, next: nat, i: nat)
    requires LiveAt(b.slots, i) && Known(b.ledger, b.slot)
    ensures var a := Attempt(w, b, t, op, next, i).bench; Known(a.ledger, a.slot)
  {
    var c, a := b.slots[i].value.consumer, Attempt(w, b, t, op, next, i);
    var try := b.ledger + [Tried(t, op, next, i)];
    ChairOne(EMPTY, b.ledger, Tried(t, op, next, i));
    if c.Requests? && op.RequestOp? {
      SeatKnown(try, b.slot, op.request);
      var over := if b.slot.Some? then [Overwritten(b.slot.value)] else [];
      ChairOne(EMPTY, try + over + [Seated(op.request)], Consumed(t, i));
      Regroup(try, over, [Seated(op.request)], [Consumed(t, i)]);
      assert a.bench.ledger == try + (over + [Seated(op.request)]) + [Consumed(t, i)];
    } else {
      ChairOne(EMPTY, try, Consumed(t, i));
      assert a.bench.ledger == if a.flow.Done? then try + [Consumed(t, i)] else try;
    }
  }

  lemma SeatKnown(ledger: seq<Note>, slot: Option<Request>, r: Request)
    requires Known(ledger, slot)
    ensures Known(ledger + (if slot.Some? then [Overwritten(slot.value)] else []) + [Seated(r)], Some(r))
  {
    var mid := ledger + if slot.Some? then [Overwritten(slot.value)] else [];
    if slot.Some? {
      ChairOne(EMPTY, ledger, Overwritten(slot.value));
    } else {
      assert mid == ledger;
    }
    ChairOne(EMPTY, mid, Seated(r));
  }

  lemma {:induction false} RouteKnown(
    w: Plugins, routes: map<Tag, seq<nat>>, b: Bench, t: Ticket, op: Op, next: nat)
    requires Ranked(w) && Known(b.ledger, b.slot)
    ensures var r := Route(w, routes, b, t, op, next); Known(r.ledger, r.slot)
    decreases w.rank(op), |RouteOf(routes, TagOf(op))| - next
  {
    if next >= |RouteOf(routes, TagOf(op))| {
      ChairOne(EMPTY, b.ledger, Unhandled(t, op));
    } else {
      var i := routes[TagOf(op)][next];
      if !LiveAt(b.slots, i) {
        RouteKnown(w, routes, b, t, op, next + 1);
      } else {
        var a := Attempt(w, b, t, op, next, i);
        AttemptKnown(w, b, t, op, next, i);
        NextRanks(w, b.slots[i].value.consumer, t, op, b.ready, b.slot);
        if a.flow.Next? {
          RouteKnown(w, routes, a.bench, t, a.flow.op, if TagOf(a.flow.op) != TagOf(op) then 0 else next + 1);
        }
      }
    }
  }

  lemma {:induction false} DeliverKnown(w: Plugins, routes: map<Tag, seq<nat>>, b: Bench, batch: seq<Entry>)
    requires Ranked(w) && Known(b.ledger, b.slot)
    ensures var d := Deliver(w, routes, b, batch); Known(d.ledger, d.slot)
    decreases |batch|
  {
    if batch != [] {
      var e := batch[0];
      var b1 := b.(ledger := b.ledger + [Committed(e.ticket, e.op)]);
      ChairOne(EMPTY, b.ledger, Committed(e.ticket, e.op));
      RouteKnown(w, routes, b1, e.ticket, e.op, 0);
      DeliverKnown(w, routes, Route(w, routes, b1, e.ticket, e.op, 0), batch[1..]);
    }
  }

  ghost function Knows(slot: Option<Request>): Book -> bool {
    (b: Book) => Known(b.ledger, slot)
  }

  lemma KnowsStages(slot: Option<Request>)
    ensures Stages(Knows(slot), Any())
  {
    forall b, op, priority | Knows(slot)(b) ensures Knows(slot)(Stage(b, op, priority)) {
      StageFiles(b, op, priority);
      KnownOn(b.ledger, Stage(b, op, priority).ledger, Put, slot);
    }
  }

  lemma TurnKnown(w: World, m: MachineState)
    requires WorldOk(w) && Known(m.book.ledger, m.slot)
    ensures var r := MicroStep(w, m).machine; Known(r.book.ledger, r.slot)
  {
    var c := CommitPhase(w, m);
    var inv, after := Knows(c.slot), Knows(None);
    KnowsStages(c.slot);
    KnowsStages(None);
    if m.book.pool.pending != [] {
      ChairOne(EMPTY, m.book.ledger, Batch);
      DeliverKnown(w.plugins, m.hub.routes, BenchOf(m), m.book.pool.pending);
    }
    forall b | inv(b) ensures after(AfterTaking(c.(book := b))) {
      if c.slot.Some? {
        ChairOne(EMPTY, b.ledger, Taken(c.slot.value));
      }
    }
    TurnKeeps(w, inv, after, Any(), m);
    DispatchKeeps(w, ApplyPhase(w, DrainPhase(w, c).0));
  }

  lemma ReactKnown(w: World, m: MachineState, x: Input)
    requires WorldOk(w) && HubOk(m.hub) && Known(m.book.ledger, m.slot)
    ensures var r := React(w, m, x); Known(r.book.ledger, r.slot)
  {
    KnowsStages(m.slot);
    assert Knows(m.slot)(m.book);
    match x
    case Turn => TurnKnown(w, m);
    case Init(target) => assert Any()(Offer(RequestOp(Request(target, NORMAL)), None));
    case Submit(op) => assert Any()(Offer(op, None));
    case Reset => ChairOne(EMPTY, m.book.ledger, Cleared);
    case Arbitrate(a) => ChairOne(EMPTY, m.book.ledger, Installed(a));
    case _ =>
  }

  /** For arbitrary behaviors, arbiters and consumers, over every run: whatever is taken from the slot
      or overwritten in it had been put there and was still there. */
  lemma {:induction false} SlotConserved(w: World, m: MachineState, inputs: seq<Input>)
    requires WorldOk(w) && HubOk(m.hub) && Known(m.book.ledger, m.slot)
    ensures var r := Run(w, m, inputs); Known(r.book.ledger, r.slot)
    decreases |inputs|
  {
    if inputs != [] {
      ReactHub(w, m, inputs[0]);
      ReactKnown(w, m, inputs[0]);
      SlotConserved(w, React(w, m, inputs[0]), inputs[1..]);
    }
  }

  // ---- Counting fates ----

  datatype Outcome = Wanted | Refused | Ousted | Missing | Sent | Sat | Replaced | Carried

  /** The entry shows this outcome of the request. */
  predicate Shows(n: Note, o: Outcome, r: Request) {
    match o
    case Wanted => (n.Staged? || n.Rejected?) && n.op == RequestOp(r)
    case Refused => n.Rejected? && n.op == RequestOp(r)
    case Ousted => n.Displaced? && n.op == RequestOp(r)
    case Missing => (n.Withdrawn? || n.Lost?) && n.op == RequestOp(r)
    case Sent => n.Committed? && n.op == RequestOp(r)
    case Sat => n == Seated(r)
    case Replaced => n == Overwritten(r)
    case Carried => n == Taken(r)
  }

  /** How often the ledger shows this outcome of the request. */
  ghost function Often(ledger: seq<Note>, o: Outcome, r: Request): nat {
    if ledger == [] then 0 else (if Shows(ledger[0], o, r) then 1 else 0) + Often(ledger[1..], o, r)
  }

  lemma {:induction false} OftenConcat(a: seq<Note>, b: seq<Note>, o: Outcome, r: Request)
    ensures Often(a + b, o, r) == Often(a, o, r) + Often(b, o, r)
    decreases |a|
  {
    if a == [] {
      assert a + b == b;
    } else {
      assert (a + b)[1..] == a[1..] + b;
      OftenConcat(a[1..], b, o, r);
    }
  }

  lemma OftenOne(a: seq<Note>, n: Note, o: Outcome, r: Request)
    ensures Often(a + [n], o, r) == Often(a, o, r) + (if Shows(n, o, r) then 1 else 0)
  {
    OftenConcat(a, [n], o, r);
    assert [n][1..] == [];
  }

  lemma {:induction false} NeverShown(notes: seq<Note>, o: Outcome, r: Request)
    requires forall k :: 0 <= k < |notes| ==> !Shows(notes[k], o, r)
    ensures Often(notes, o, r) == 0
  {
    if notes != [] {
      assert forall k :: 0 <= k < |notes| - 1 ==> notes[1..][k] == notes[k + 1];
      NeverShown(notes[1..], o, r);
    }
  }

  lemma OftenOn(a: seq<Note>, b: seq<Note>, kind: Kind, o: Outcome, r: Request)
    requires Continues(a, b, kind) && forall k :: |a| <= k < |b| ==> !Shows(b[k], o, r)
    ensures Often(b, o, r) == Often(a, o, r)
  {
    var more := b[|a|..];
    assert b == a + more;
    OftenConcat(a, more, o, r);
    NeverShown(more, o, r);
  }

  /** All requests equal to `r`. */
  function Asks(r: Request): Choice {
    (e: Entry) => e.op == RequestOp(r)
  }

  lemma {:induction false} FatesAreOuts(ledger: seq<Note>, r: Request)
    ensures Ins(ledger, Asks(r)) == Often(ledger, Wanted, r)
    ensures Outs(ledger, Asks(r)) ==
            Often(ledger, Refused, r) + Often(ledger, Ousted, r) + Often(ledger, Missing, r) + Often(ledger, Sent, r)
  {
    if ledger != [] {
      FatesAreOuts(ledger[1..], r);
    }
  }

  /** What was put into the slot was taken, was overwritten, or is there. */
  lemma {:induction false} SeatsEven(c: Chair, ledger: seq<Note>, r: Request)
    requires ChairOf(c, ledger).sound
    ensures c.sound
    ensures Often(ledger, Sat, r) + (if c.content == Some(r) then 1 else 0) ==
            Often(ledger, Replaced, r) + Often(ledger, Carried, r)
            + (if ChairOf(c, ledger).content == Some(r) then 1 else 0)
    decreases |ledger|
  {
    if ledger != [] {
      SeatsEven(Sit(c, ledger[0]), ledger[1..], r);
    }
  }

  lemma {:induction false} PendingTimes(pending: seq<Entry>, r: Request)
    requires Sorted(pending) && OneRequest(pending)
    ensures Times(pending, Asks(r)) == if PendingRequest(pending) == Some(r) then 1 else 0
  {
    if pending != [] {
      TailOne(pending);
      PendingTimes(pending[1..], r);
      if pending[0].op.RequestOp? {
        OnlyOne(pending);
      }
    }
  }

  // ---- Nothing goes missing, over every run ----

  ghost function Present(r: Request): Book -> bool {
    (b: Book) => b.pool.issued <= WRAP ==> Orderly(b.pool) && Often(b.ledger, Missing, r) == 0
  }

  lemma StagePresent(b: Book, op: Op, priority: Option<nat>, r: Request)
    requires Orderly(b.pool) && b.pool.issued < WRAP
    ensures Often(Stage(b, op, priority).ledger, Missing, r) == Often(b.ledger, Missing, r)
  {
    var t := NextTicket(b.pool, priority);
    var c, j := Stage(b, op, priority).ledger, Judge(b.pool.rules, t, op, b.pool.pending);
    StageFiles(b, op, priority);
    NeverCollides(b, op, priority);
    ReplacingNone(j.pending, t);
    JudgeFiles(b.pool.rules, t, op, b.pool.pending);
    var last := if j.keep then Staged(t, op) else Rejected(t, op);
    assert c == b.ledger + j.notes + [last];
    forall k | |b.ledger| <= k < |c| ensures !c[k].Lost? {
      if k < |c| - 1 {
        assert c[k] == j.notes[k - |b.ledger|] && c[k] in j.notes;
      }
    }
    OftenOn(b.ledger, c, Put, Missing, r);
  }

  lemma PresentStages(r: Request)
    ensures Stages(Present(r), Any())
  {
    forall b, op, priority | Present(r)(b) ensures Present(r)(Stage(b, op, priority)) {
      if b.pool.issued < WRAP {
        StageOrderly(b, op, priority);
        StagePresent(b, op, priority, r);
      }
    }
  }

  lemma TurnPresent(w: World, m: MachineState, r: Request)
    requires WorldOk(w) && Present(r)(m.book)
    ensures Present(r)(MicroStep(w, m).machine.book)
  {
    var inv, c := Present(r), CommitPhase(w, m);
    PresentStages(r);
    CommitDelivers(w, m);
    OftenOn(m.book.ledger, c.book.ledger, Delivered, Missing, r);
    forall b | inv(b) ensures inv(AfterTaking(c.(book := b))) {
      if c.slot.Some? {
        OftenOne(b.ledger, Taken(c.slot.value), Missing, r);
      }
    }
    TurnKeeps(w, inv, inv, Any(), m);
  }

  lemma ReactPresent(w: World, m: MachineState, x: Input, r: Request)
    requires WorldOk(w) && HubOk(m.hub) && Present(r)(m.book)
    ensures Present(r)(React(w, m, x).book)
  {
    PresentStages(r);
    match x
    case Turn => TurnPresent(w, m, r);
    case Init(target) => assert Any()(Offer(RequestOp(Request(target, NORMAL)), None));
    case Submit(op) => assert Any()(Offer(op, None));
    case Reset => OftenOne(m.book.ledger, Cleared, Missing, r);
    case Arbitrate(a) => OftenOne(m.book.ledger, Installed(a), Missing, r);
    case _ =>
  }

  /** Everything that is known about `r` whatever the consumers. */
  ghost predicate Traced(m: MachineState, r: Request) {
    && Conserved(m.book, Asks(r), Ticket(0, 0)) && Known(m.book.ledger, m.slot)
    && Contends()(m.book) && Present(r)(m.book)
  }

  /** As often as a request was asked for it was applied, refused by the rule, ousted from the pool by
      the rule, overwritten in the slot, is pending, or is in the slot. */
  ghost predicate Fated(m: MachineState, r: Request) {
    var l := m.book.ledger;
    Often(l, Wanted, r) ==
      Often(l, Carried, r) + Often(l, Refused, r) + Often(l, Ousted, r) + Often(l, Replaced, r)
      + (if PendingRequest(m.book.pool.pending) == Some(r) then 1 else 0) + (if m.slot == Some(r) then 1 else 0)
  }

  lemma TracedFated(m: MachineState, r: Request)
    requires Traced(m, r) && m.book.pool.issued <= WRAP
    ensures Fated(m, r) <==> Often(m.book.ledger, Sent, r) == Often(m.book.ledger, Sat, r)
  {
    FatesAreOuts(m.book.ledger, r);
    SeatsEven(EMPTY, m.book.ledger, r);
    PendingTimes(m.book.pool.pending, r);
  }

  lemma ReactTraced(w: World, m: MachineState, x: Input, r: Request)
    requires WorldOk(w) && HubOk(m.hub) && Traced(m, r)
    ensures Traced(React(w, m, x), r)
  {
    ReactConserved(w, m, x, Asks(r), Ticket(0, 0));
    ReactKnown(w, m, x);
    ReactContending(w, m, x);
    ReactPresent(w, m, x, r);
  }

  /** For arbitrary behaviors, arbiters and consumers, over every run: every request has exactly one
      fate if and only if it was put into the slot as often as it was committed, that is, if consumers
      neither divert requests nor make them up. */
  lemma {:induction false} FatesExactly(w: World, m: MachineState, inputs: seq<Input>, r: Request)
    requires WorldOk(w) && HubOk(m.hub) && Traced(m, r)
    ensures var n := Run(w, m, inputs);
      && Traced(n, r)
      && (n.book.pool.issued <= WRAP ==>
            (Fated(n, r) <==> Often(n.book.ledger, Sent, r) == Often(n.book.ledger, Sat, r)))
    decreases |inputs|
  {
    if inputs == [] {
      if m.book.pool.issued <= WRAP {
        TracedFated(m, r);
      }
    } else {
      ReactHub(w, m, inputs[0]);
      ReactTraced(w, m, inputs[0], r);
      FatesExactly(w, React(w, m, inputs[0]), inputs[1..], r);
    }
  }

  // ---- With the built-in request consumer in place ----

  /** As often as the request was committed it was put into the slot. */
  ghost predicate Arrived(ledger: seq<Note>, r: Request) {
    Often(ledger, Sent, r) == Often(ledger, Sat, r)
  }

  ghost function Arrives(r: Request): Book -> bool {
    (b: Book) => Arrived(b.ledger, r)
  }

  lemma ArrivesStages(r: Request)
    ensures Stages(Arrives(r), Any())
  {
    forall b, op, priority | Arrives(r)(b) ensures Arrives(r)(Stage(b, op, priority)) {
      StageFiles(b, op, priority);
      OftenOn(b.ledger, Stage(b, op, priority).ledger, Put, Sent, r);
      OftenOn(b.ledger, Stage(b, op, priority).ledger, Put, Sat, r);
    }
  }

  lemma NoteArrived(ledger: seq<Note>, n: Note, r: Request)
    requires Arrived(ledger, r) && (n.Batch? || n.Taken? || n.Installed? || n.Cleared?)
    ensures Arrived(ledger + [n], r)
  {
    OftenOne(ledger, n, Sent, r);
    OftenOne(ledger, n, Sat, r);
  }

  lemma DeliverOneArrived(w: Plugins, routes: map<Tag, seq<nat>>, b: Bench, e: Entry, r: Request)
    requires Ranked(w) && Mintless(w, RequestTag) && Serves(routes, b.slots) && Arrived(b.ledger, r)
    ensures var d := Route(w, routes, b.(ledger := b.ledger + [Committed(e.ticket, e.op)]), e.ticket, e.op, 0);
      Serves(routes, d.slots) && Arrived(d.ledger, r)
  {
    var b1 := b.(ledger := b.ledger + [Committed(e.ticket, e.op)]);
    var d := Route(w, routes, b1, e.ticket, e.op, 0).ledger;
    if e.op.RequestOp? {
      RouteRequest(w, routes, b1, e.ticket, e.op.request);
      RequestOften(b.ledger, e.ticket, e.op.request, routes[RequestTag][0], b.slot, Sent, r);
      RequestOften(b.ledger, e.ticket, e.op.request, routes[RequestTag][0], b.slot, Sat, r);
    } else {
      RouteOther(w, routes, b1, e.ticket, e.op, 0);
      OftenOne(b.ledger, Committed(e.ticket, e.op), Sent, r);
      OftenOne(b.ledger, Committed(e.ticket, e.op), Sat, r);
      OftenOn(b1.ledger, d, Passing, Sent, r);
      OftenOn(b1.ledger, d, Passing, Sat, r);
    }
  }

  lemma RequestOften(
    ledger: seq<Note>, t: Ticket, q: Request, i: nat, was: Option<Request>, o: Outcome, r: Request)
    requires o == Sent || o == Sat
    ensures Often(ledger + [Committed(t, RequestOp(q))] + [Tried(t, RequestOp(q), 0, i)]
                  + (if was.Some? then [Overwritten(was.value)] else []) + [Seated(q)] + [Consumed(t, i)], o, r) ==
            Often(ledger, o, r) + if q == r then 1 else 0
  {
    var l1 := ledger + [Committed(t, RequestOp(q))];
    var l2 := l1 + [Tried(t, RequestOp(q), 0, i)];
    var l3 := l2 + if was.Some? then [Overwritten(was.value)] else [];
    OftenOne(ledger, Committed(t, RequestOp(q)), o, r);
    OftenOne(l1, Tried(t, RequestOp(q), 0, i), o, r);
    if was.Some? {
      OftenOne(l2, Overwritten(was.value), o, r);
    } else {
      assert l3 == l2;
    }
    OftenOne(l3, Seated(q), o, r);
    OftenOne(l3 + [Seated(q)], Consumed(t, i), o, r);
  }

  lemma {:induction false} DeliverArrived(
    w: Plugins, routes: map<Tag, seq<nat>>, b: Bench, batch: seq<Entry>, r: Request)
    requires Ranked(w) && Mintless(w, RequestTag) && Serves(routes, b.slots) && Arrived(b.ledger, r)
    ensures Arrived(Deliver(w, routes, b, batch).ledger, r)
    decreases |batch|
  {
    if batch != [] {
      var e := batch[0];
      var b1 := b.(ledger := b.ledger + [Committed(e.ticket, e.op)]);
      DeliverOneArrived(w, routes, b, e, r);
      DeliverArrived(w, routes, Route(w, routes, b1, e.ticket, e.op, 0), batch[1..], r);
    }
  }

  lemma TurnArrived(w: World, m: MachineState, r: Request)
    requires WorldOk(w) && Mintless(w.plugins, RequestTag) && Serves(m.hub.routes, m.hub.store.slots)
    requires Arrives(r)(m.book)
    ensures Arrives(r)(MicroStep(w, m).machine.book)
  {
    var inv, c := Arrives(r), CommitPhase(w, m);
    ArrivesStages(r);
    if m.book.pool.pending != [] {
      NoteArrived(m.book.ledger, Batch, r);
      DeliverArrived(w.plugins, m.hub.routes, BenchOf(m), m.book.pool.pending, r);
    }
    forall b | inv(b) ensures inv(AfterTaking(c.(book := b))) {
      if c.slot.Some? {
        NoteArrived(b.ledger, Taken(c.slot.value), r);
      }
    }
    TurnKeeps(w, inv, inv, Any(), m);
  }

  lemma ReactArrived(w: World, m: MachineState, x: Input, r: Request)
    requires WorldOk(w) && HubOk(m.hub) && Mintless(w.plugins, RequestTag)
    requires Serves(m.hub.routes, m.hub.store.slots) && Arrives(r)(m.book)
    ensures Arrives(r)(React(w, m, x).book)
  {
    ArrivesStages(r);
    match x
    case Turn => TurnArrived(w, m, r);
    case Init(target) => assert Any()(Offer(RequestOp(Request(target, NORMAL)), None));
    case Submit(op) => assert Any()(Offer(op, None));
    case Reset => NoteArrived(m.book.ledger, Cleared, r);
    case Arbitrate(a) => NoteArrived(m.book.ledger, Installed(a), r);
    case _ =>
  }

  ghost predicate Booked(m: MachineState, r: Request) {
    Traced(m, r) && Arrives(r)(m.book) && Serves(m.hub.routes, m.hub.store.slots)
  }

  /** Over every run that keeps the built-in request consumer, with custom consumers that make up no
      requests of their own, every request has exactly one fate. */
  lemma {:induction false} RequestFates(w: World, m: MachineState, inputs: seq<Input>, r: Request)
    requires WorldOk(w) && HubOk(m.hub) && Mintless(w.plugins, RequestTag) && Booked(m, r)
    requires forall x :: x in inputs ==> Spares(x, RequestTag)
    ensures var n := Run(w, m, inputs); Booked(n, r) && (n.book.pool.issued <= WRAP ==> Fated(n, r))
    decreases |inputs|
  {
    if inputs == [] {
      if m.book.pool.issued <= WRAP {
        TracedFated(m, r);
      }
    } else {
      var x := inputs[0];
      assert x in inputs;
      ReactHub(w, m, x);
      ReactTraced(w, m, x, r);
      ReactArrived(w, m, x, r);
      ReactServes(w, m, x);
      RequestFates(w, React(w, m, x), inputs[1..], r);
    }
  }

  lemma FreshBooked(w: World, context: Context, r: Request)
    requires WorldOk(w)
    ensures Booked(Fresh(w, context), r)
  {
    var b := Fresh(w, context).book;
    DefaultsServe(w.plugins);
    FreshConserved(w, context, Asks(r), Ticket(0, 0));
    NewSlotted(b);
    NewBooked(b, r);
  }

  lemma NewBooked(b: Book, r: Request)
    requires b.pool.pending == [] && b.ledger == [Installed(ByPriority())]
    ensures Known(b.ledger, None) && Arrives(r)(b) && Present(r)(b)
  {
    assert [] + b.ledger == b.ledger;
    ChairOne(EMPTY, [], Installed(ByPriority()));
    NoteArrived([], Installed(ByPriority()), r);
    OftenOne([], Installed(ByPriority()), Missing, r);
  }
}
