/** Who wins among transition requests: an audit of the ledger that holds over every run. */
module Requesting {
  import opened Base
  import opened StateForest
  import opened Operations
  import opened Reconciling
  import opened Arbitration
  import opened Running
  import opened Consuming
  import opened Hubs
  import opened Routing
  import opened Machines
  import opened Staging
  import opened Discipline

  /** What an auditor knows from the ledger alone. */
  datatype Account = Account(
    arbiter: Arbiter,          // the arbiter in force
    plain: bool,               // the default arbiter has been in force all along
    open: seq<Op>,             // the requests staged since the last commit
    winner: Option<Request>,   // and the winner among them
    window: seq<Op>,           // the requests of all batches committed since the last apply
    over: set<Request>,        // what was overwritten in the slot since the last apply
    slot: Option<Request>,     // the winner of the last batch with a request since the last apply
    sound: bool,               // every applied request was in the slot by this account
    exact: bool)               // every apply met `PerApply` while `plain`

  ghost const OPENING := Account(ByPriority(), true, [], None, [], {}, None, true, true)

  /** The applied request is the last maximum among the requests of all batches since the last apply
      if and only if nothing of higher priority was overwritten in the slot since then. */
  ghost predicate PerApply(a: Account, r: Request) {
    Tournament(ByPriority(), None, a.window) == Some(r) <==> forall q :: q in a.over ==> q.priority <= r.priority
  }

  ghost function Ask(a: Account, op: Op): Account {
    if op.RequestOp? then a.(winner := Contest(a.arbiter, a.winner, op), open := a.open + [op]) else a
  }

  ghost function Close(a: Account): Account {
    a.(winner := None, open := [], slot := if a.winner.Some? then a.winner else a.slot, window := a.window + a.open)
  }

  ghost function Take(a: Account, r: Request): Account {
    a.(slot := None, window := [], over := {}, sound := a.sound && a.slot == Some(r),
       exact := a.exact && (a.plain ==> PerApply(a, r)))
  }

  ghost function Enter(a: Account, n: Note): Account {
    match n
    case Staged(_, op) => Ask(a, op)
    case Rejected(_, op) => Ask(a, op)
    case Batch => Close(a)
    case Overwritten(r) => a.(over := a.over + {r})
    case Taken(r) => Take(a, r)
    case Installed(arbiter) => a.(arbiter := arbiter, plain := a.plain && arbiter == ByPriority())
    case _ => a
  }

  ghost function Audit(a: Account, ledger: seq<Note>): Account
    decreases |ledger|
  {
    if ledger == [] then a else Audit(Enter(a, ledger[0]), ledger[1..])
  }

  lemma {:induction false} AuditConcat(a: Account, x: seq<Note>, y: seq<Note>)
    ensures Audit(a, x + y) == Audit(Audit(a, x), y)
    decreases |x|
  {
    if x == [] {
      assert x + y == y;
    } else {
      assert (x + y)[1..] == x[1..] + y;
      AuditConcat(Enter(a, x[0]), x[1..], y);
    }
  }

  lemma AuditOne(a: Account, x: seq<Note>, n: Note)
    ensures Audit(a, x + [n]) == Enter(Audit(a, x), n)
  {
    AuditConcat(a, x, [n]);
    assert [n][1..] == [];
    assert Audit(Enter(Audit(a, x), n), []) == Enter(Audit(a, x), n);
  }

  lemma {:induction false} AuditSkips(a: Account, notes: seq<Note>)
    requires forall k :: 0 <= k < |notes| ==> OfKind(notes[k], Passing) || notes[k].Displaced? || notes[k].Lost?
    ensures Audit(a, notes) == a
    decreases |notes|
  {
    if notes != [] {
      assert forall k :: 0 <= k < |notes| - 1 ==> notes[1..][k] == notes[k + 1];
      AuditSkips(a, notes[1..]);
    }
  }

  /** Routing changes nothing but what was overwritten. */
  lemma {:induction false} AuditRoutes(a: Account, notes: seq<Note>)
    requires forall k :: 0 <= k < |notes| ==> OfKind(notes[k], Routed)
    ensures Audit(a, notes) == a.(over := Audit(a, notes).over)
    decreases |notes|
  {
    if notes != [] {
      assert forall k :: 0 <= k < |notes| - 1 ==> notes[1..][k] == notes[k + 1];
      AuditRoutes(Enter(a, notes[0]), notes[1..]);
    }
  }

  // ---- The pending request, over every run ----

  /** The pending request is the winner among all requests staged since the last commit. */
  ghost predicate Contending(b: Book) {
    var a := Audit(OPENING, b.ledger);
    && Contested(b.pool, a.arbiter) && a.winner == PendingRequest(b.pool.pending)
    && (a.plain ==> a.arbiter == ByPriority() && a.winner == Tournament(ByPriority(), None, a.open))
  }

  /** A staging is heard once, whatever the rules make of it. */
  lemma StageAudit(b: Book, op: Op, priority: Option<nat>)
    ensures Audit(OPENING, Stage(b, op, priority).ledger) == Ask(Audit(OPENING, b.ledger), op)
  {
    var more, last := StageShape(b, op, priority);
    forall k | 0 <= k < |more| ensures more[k].Displaced? || more[k].Lost? {
      assert more[k] in more;
    }
    AuditConcat(OPENING, b.ledger, more);
    AuditSkips(Audit(OPENING, b.ledger), more);
    AuditOne(OPENING, b.ledger + more, last);
  }

  lemma StageContending(b: Book, op: Op, priority: Option<nat>)
    requires Contending(b) && b.pool.issued < WRAP
    ensures Contending(Stage(b, op, priority))
  {
    var a := Audit(OPENING, b.ledger);
    StageAudit(b, op, priority);
    StageContests(b, a.arbiter, op, priority);
    if op.RequestOp? {
      TournamentConcat(ByPriority(), None, a.open, op);
    }
  }

  ghost function Contends(): Book -> bool {
    (b: Book) => b.pool.issued <= WRAP ==> Contending(b)
  }

  lemma ContendsStages()
    ensures Stages(Contends(), Any())
  {
    forall b, op, priority | Contends()(b) ensures Contends()(Stage(b, op, priority)) {
      if b.pool.issued < WRAP {
        StageContending(b, op, priority);
      }
    }
  }

  lemma DeliverAudit(w: Plugins, routes: map<Tag, seq<nat>>, b: Bench, batch: seq<Entry>)
    requires Ranked(w)
    ensures var a, d := Audit(OPENING, b.ledger), Audit(OPENING, Deliver(w, routes, b, batch).ledger);
      d == a.(over := d.over)
  {
    var d := Deliver(w, routes, b, batch).ledger;
    DeliverDelivers(w, routes, b, batch);
    assert d == b.ledger + d[|b.ledger|..];
    AuditConcat(OPENING, b.ledger, d[|b.ledger|..]);
    AuditRoutes(Audit(OPENING, b.ledger), d[|b.ledger|..]);
  }

  lemma CommitContending(w: World, m: MachineState)
    requires WorldOk(w) && Contending(m.book)
    ensures Contending(CommitPhase(w, m).book)
  {
    if m.book.pool.pending != [] {
      AuditOne(OPENING, m.book.ledger, Batch);
      DeliverAudit(w.plugins, m.hub.routes, BenchOf(m), m.book.pool.pending);
    }
  }

  /** A change of arbiter leaves pending requests alone. */
  lemma NoteContending(b: Book, n: Note, rules: seq<RuleSlot>)
    requires Contending(b) && (n.Taken? || n.Cleared? || n.Installed?)
    requires rules == if n.Installed? then AddRule(b.pool.rules, REQUEST_RULE, RequestRule(n.arbiter)) else b.pool.rules
    ensures Contending(Book(b.pool.(rules := rules), b.ledger + [n]))
  {
    AuditOne(OPENING, b.ledger, n);
    assert b.pool.rules[1..] == [];
  }

  lemma TurnContending(w: World, m: MachineState)
    requires WorldOk(w) && Contends()(m.book)
    ensures Contends()(MicroStep(w, m).machine.book)
  {
    var inv, c := Contends(), CommitPhase(w, m);
    ContendsStages();
    if m.book.pool.issued <= WRAP {
      CommitContending(w, m);
    }
    forall b | inv(b) ensures inv(AfterTaking(c.(book := b))) {
      if c.slot.Some? && b.pool.issued <= WRAP {
        NoteContending(b, Taken(c.slot.value), b.pool.rules);
      }
    }
    TurnKeeps(w, inv, inv, Any(), m);
  }

  lemma ReactContending(w: World, m: MachineState, x: Input)
    requires WorldOk(w) && HubOk(m.hub) && Contends()(m.book)
    ensures Contends()(React(w, m, x).book)
  {
    ContendsStages();
    match x
    case Turn => TurnContending(w, m);
    case Init(target) => assert Any()(Offer(RequestOp(Request(target, NORMAL)), None));
    case Submit(op) => assert Any()(Offer(op, None));
    case Reset => if m.book.pool.issued <= WRAP { NoteContending(m.book, Cleared, m.book.pool.rules); }
    case Arbitrate(a) =>
      if m.book.pool.issued <= WRAP { NoteContending(m.book, Installed(a), React(w, m, x).book.pool.rules); }
    case _ =>
  }

  /** For arbitrary behaviors, arbiters and consumers, over every run: at most one request is pending,
      and it is the winner among all requests staged since the last commit. */
  lemma {:induction false} PendingIsWinner(w: World, m: MachineState, inputs: seq<Input>)
    requires WorldOk(w) && HubOk(m.hub) && Contends()(m.book)
    ensures Contends()(Run(w, m, inputs).book)
    decreases |inputs|
  {
    if inputs != [] {
      ReactHub(w, m, inputs[0]);
      ReactContending(w, m, inputs[0]);
      PendingIsWinner(w, React(w, m, inputs[0]), inputs[1..]);
    }
  }

  // ---- Routing of requests ----

  /** Custom consumers do not turn operations of other types into operations of this type. */
  ghost predicate Mintless(w: Plugins, tag: Tag) {
    forall s, t, op :: var flow := w.consume(s, t, op).flow; flow.Next? && TagOf(op) != tag ==> TagOf(flow.op) != tag
  }

  /** The first consumer of requests is the built-in one. */
  ghost predicate Serves(routes: map<Tag, seq<nat>>, slots: Slots) {
    && RouteOf(routes, RequestTag) != []
    && var i := routes[RequestTag][0]; LiveAt(slots, i) && slots[i].value.consumer == Requests
  }

  lemma AttemptKeepsRequests(w: Plugins, b: Bench, t: Ticket, op: Op, next: nat, i: nat, k: nat)
    requires LiveAt(b.slots, i) && LiveAt(b.slots, k) && b.slots[k].value.consumer == Requests
    ensures var s := Attempt(w, b, t, op, next, i).bench.slots; LiveAt(s, k) && s[k].value.consumer == Requests
  {
  }

  /** An operation that is no request stays none, and the slot does not notice it. */
  lemma AttemptOther(w: Plugins, b: Bench, t: Ticket, op: Op, next: nat, i: nat)
    requires LiveAt(b.slots, i) && Mintless(w, RequestTag) && !op.RequestOp?
    ensures var a := Attempt(w, b, t, op, next, i);
      && a.bench.slot == b.slot && (a.flow.Next? ==> !a.flow.op.RequestOp?)
      && Continues(b.ledger, a.bench.ledger, Passing)
  {
    var c := b.slots[i].value.consumer;
    if c.Custom? {
      var flow := w.consume(c.state, t, op).flow;
      assert flow.Next? ==> TagOf(flow.op) != RequestTag;
    }
  }

  lemma {:induction false} RouteOther(
    w: Plugins, routes: map<Tag, seq<nat>>, b: Bench, t: Ticket, op: Op, next: nat)
    requires Ranked(w) && Mintless(w, RequestTag) && Serves(routes, b.slots) && !op.RequestOp?
    ensures var r := Route(w, routes, b, t, op, next);
      r.slot == b.slot && Serves(routes, r.slots) && Continues(b.ledger, r.ledger, Passing)
    decreases w.rank(op), |RouteOf(routes, TagOf(op))| - next
  {
    if next < |RouteOf(routes, TagOf(op))| {
      var i := routes[TagOf(op)][next];
      if !LiveAt(b.slots, i) {
        RouteOther(w, routes, b, t, op, next + 1);
      } else {
        var a := Attempt(w, b, t, op, next, i);
        AttemptOther(w, b, t, op, next, i);
        AttemptKeepsRequests(w, b, t, op, next, i, routes[RequestTag][0]);
        NextRanks(w, b.slots[i].value.consumer, t, op, b.ready, b.slot);
        if a.flow.Next? {
          RouteOther(w, routes, a.bench, t, a.flow.op, if TagOf(a.flow.op) != TagOf(op) then 0 else next + 1);
          ContinuesOn(b.ledger, a.bench.ledger, Route(w, routes, b, t, op, next).ledger, Passing);
        }
      }
    }
  }

  /** A request goes straight into the slot; what was in there is lost. */
  lemma RouteRequest(w: Plugins, routes: map<Tag, seq<nat>>, b: Bench, t: Ticket, r: Request)
    requires Ranked(w) && Serves(routes, b.slots)
    ensures var d, i := Route(w, routes, b, t, RequestOp(r), 0), routes[RequestTag][0];
      && d.slot == Some(r) && Serves(routes, d.slots)
      && d.ledger == b.ledger + [Tried(t, RequestOp(r), 0, i)]
                     + (if b.slot.Some? then [Overwritten(b.slot.value)] else []) + [Seated(r)] + [Consumed(t, i)]
  {
    var i := routes[RequestTag][0];
    var over := if b.slot.Some? then [Overwritten(b.slot.value)] else [];
    assert Attempt(w, b, t, RequestOp(r), 0, i).flow.Done?;
    Regroup(b.ledger + [Tried(t, RequestOp(r), 0, i)], over, [Seated(r)], [Consumed(t, i)]);
    assert LastWords(b, Requests, t, RequestOp(r), i, Done) == over + [Seated(r)] + [Consumed(t, i)];
  }

  ghost function Bag(r: Option<Request>): set<Request> {
    if r.Some? then {r.value} else {}
  }

  /** One committed operation: a request replaces the content of the slot, anything else leaves it. */
  lemma DeliverOne(w: Plugins, routes: map<Tag, seq<nat>>, b: Bench, e: Entry)
    requires Ranked(w) && Mintless(w, RequestTag) && Serves(routes, b.slots)
    ensures var d := Route(w, routes, b.(ledger := b.ledger + [Committed(e.ticket, e.op)]), e.ticket, e.op, 0);
      var a := Audit(OPENING, b.ledger);
      && Serves(routes, d.slots)
      && d.slot == (if e.op.RequestOp? then Some(e.op.request) else b.slot)
      && Audit(OPENING, d.ledger) == a.(over := a.over + if e.op.RequestOp? then Bag(b.slot) else {})
  {
    var b1 := b.(ledger := b.ledger + [Committed(e.ticket, e.op)]);
    AuditOne(OPENING, b.ledger, Committed(e.ticket, e.op));
    if e.op.RequestOp? {
      RouteRequest(w, routes, b1, e.ticket, e.op.request);
      RequestAudit(b1.ledger, e.ticket, e.op.request, routes[RequestTag][0], b.slot);
    } else {
      var d := Route(w, routes, b1, e.ticket, e.op, 0).ledger;
      RouteOther(w, routes, b1, e.ticket, e.op, 0);
      assert d == b1.ledger + d[|b1.ledger|..];
      AuditConcat(OPENING, b1.ledger, d[|b1.ledger|..]);
      AuditSkips(Audit(OPENING, b1.ledger), d[|b1.ledger|..]);
    }
  }

  lemma RequestAudit(ledger: seq<Note>, t: Ticket, r: Request, i: nat, was: Option<Request>)
    ensures var a := Audit(OPENING, ledger);
      Audit(OPENING, ledger + [Tried(t, RequestOp(r), 0, i)] + (if was.Some? then [Overwritten(was.value)] else [])
                     + [Seated(r)] + [Consumed(t, i)]) ==
      a.(over := a.over + Bag(was))
  {
    var try := ledger + [Tried(t, RequestOp(r), 0, i)];
    var mid := try + if was.Some? then [Overwritten(was.value)] else [];
    AuditOne(OPENING, ledger, Tried(t, RequestOp(r), 0, i));
    if was.Some? {
      AuditOne(OPENING, try, Overwritten(was.value));
    } else {
      assert mid == try;
    }
    AuditOne(OPENING, mid, Seated(r));
    AuditOne(OPENING, mid + [Seated(r)], Consumed(t, i));
  }

  /** A committed batch moves its one request into the slot. */
  lemma {:induction false} DeliverRequests(w: Plugins, routes: map<Tag, seq<nat>>, b: Bench, batch: seq<Entry>)
    requires Ranked(w) && Mintless(w, RequestTag) && Serves(routes, b.slots) && OneRequest(batch) && Sorted(batch)
    ensures var d, a, r := Deliver(w, routes, b, batch), Audit(OPENING, b.ledger), PendingRequest(batch);
      && Serves(routes, d.slots)
      && d.slot == (if r.Some? then r else b.slot)
      && Audit(OPENING, d.ledger) == a.(over := a.over + if r.Some? then Bag(b.slot) else {})
    decreases |batch|
  {
    if batch != [] {
      var e := batch[0];
      var b1 := b.(ledger := b.ledger + [Committed(e.ticket, e.op)]);
      DeliverOne(w, routes, b, e);
      if e.op.RequestOp? {
        OnlyOne(batch);
      }
      TailOne(batch);
      DeliverRequests(w, routes, Route(w, routes, b1, e.ticket, e.op, 0), batch[1..]);
    }
  }

  lemma TailOne(batch: seq<Entry>)
    requires batch != [] && Sorted(batch) && OneRequest(batch)
    ensures Sorted(batch[1..]) && OneRequest(batch[1..])
    ensures !batch[0].op.RequestOp? ==> PendingRequest(batch) == PendingRequest(batch[1..])
  {
    assert forall x :: x in batch[1..] ==> x in batch;
  }

  lemma OnlyOne(batch: seq<Entry>)
    requires batch != [] && Sorted(batch) && OneRequest(batch) && batch[0].op.RequestOp?
    ensures PendingRequest(batch[1..]) == None
  {
    forall x | x in batch[1..] ensures !x.op.RequestOp? {
      var k :| 0 <= k < |batch| - 1 && batch[1..][k] == x;
      assert Before(batch[0].ticket, batch[k + 1].ticket);
      assert x != batch[0] && x in batch && batch[0] in batch;
    }
  }

  /** A commit keeps to the arbiter's choice among the slot and the batch if and only if one of the two
      holds no request, the arbiter prefers the batch's, or the two are the same; a winner of an
      earlier batch is not defended otherwise. */
  lemma CommitArbitrates(w: World, m: MachineState)
    requires WorldOk(w) && Mintless(w.plugins, RequestTag) && Contending(m.book)
    requires Serves(m.hub.routes, m.hub.store.slots)
    ensures var p, arbiter := PendingRequest(m.book.pool.pending), Audit(OPENING, m.book.ledger).arbiter;
      CommitPhase(w, m).slot == (if p.None? then m.slot else Contest(arbiter, m.slot, RequestOp(p.value)))
      <==> p.None? || m.slot.None? || arbiter(p.value, m.slot.value) || p == m.slot
  {
    if m.book.pool.pending != [] {
      DeliverRequests(w.plugins, m.hub.routes, BenchOf(m), m.book.pool.pending);
    }
  }

  // ---- The slot, over every run ----

  /** The slot against the requests of all batches since the last apply: their last maximum is what the
      slot holds, or was overwritten in it. */
  ghost predicate Spans(window: seq<Op>, over: set<Request>, slot: Option<Request>) {
    var best := Tournament(ByPriority(), None, window);
    match slot
    case None => best.None? && over == {}
    case Some(s) =>
      && best.Some? && s.priority <= best.value.priority
      && (s.priority == best.value.priority ==> s == best.value)
      && (s != best.value ==> best.value in over)
      && forall q :: q in over ==> q.priority <= best.value.priority
  }

  /** The slot holds the winner of the last batch with a request since the last apply. */
  ghost predicate Slotted(b: Book, slot: Option<Request>) {
    var a := Audit(OPENING, b.ledger);
    && Contending(b) && a.slot == slot && a.sound && a.exact
    && (a.plain ==> Spans(a.window, a.over, slot))
  }

  lemma {:induction false} TournamentFrom(holder: Option<Request>, ops: seq<Op>)
    ensures var t, all := Tournament(ByPriority(), None, ops), Tournament(ByPriority(), holder, ops);
      all == if t.None? then holder
             else if holder.Some? && t.value.priority < holder.value.priority then holder
             else t
    decreases |ops|
  {
    if ops != [] {
      var n := |ops| - 1;
      assert ops == ops[..n] + [ops[n]];
      TournamentFrom(holder, ops[..n]);
      TournamentConcat(ByPriority(), None, ops[..n], ops[n]);
      TournamentConcat(ByPriority(), holder, ops[..n], ops[n]);
    }
  }

  lemma {:induction false} TournamentSplit(arbiter: Arbiter, holder: Option<Request>, x: seq<Op>, y: seq<Op>)
    ensures Tournament(arbiter, holder, x + y) == Tournament(arbiter, Tournament(arbiter, holder, x), y)
    decreases |x|
  {
    if x == [] {
      assert x + y == y;
    } else {
      assert (x + y)[1..] == x[1..] + y;
      TournamentSplit(arbiter, Contest(arbiter, holder, x[0]), x[1..], y);
    }
  }

  /** One more batch, with the winner `p` if it has any requests. */
  lemma SpansOn(window: seq<Op>, over: set<Request>, slot: Option<Request>, open: seq<Op>, p: Option<Request>)
    requires Spans(window, over, slot) && p == Tournament(ByPriority(), None, open)
    ensures Spans(window + open, over + (if p.Some? then Bag(slot) else {}), if p.Some? then p else slot)
  {
    var best := Tournament(ByPriority(), None, window);
    TournamentSplit(ByPriority(), None, window, open);
    TournamentFrom(best, open);
  }

  lemma SpansExactly(a: Account, r: Request)
    requires Spans(a.window, a.over, Some(r))
    ensures PerApply(a, r)
  {
  }

  lemma StageSlotted(b: Book, op: Op, priority: Option<nat>, slot: Option<Request>)
    requires Slotted(b, slot) && b.pool.issued < WRAP
    ensures Slotted(Stage(b, op, priority), slot)
  {
    StageAudit(b, op, priority);
    StageContending(b, op, priority);
  }

  ghost function Holds(slot: Option<Request>): Book -> bool {
    (b: Book) => b.pool.issued <= WRAP ==> Slotted(b, slot)
  }

  lemma HoldsStages(slot: Option<Request>)
    ensures Stages(Holds(slot), Any())
  {
    forall b, op, priority | Holds(slot)(b) ensures Holds(slot)(Stage(b, op, priority)) {
      if b.pool.issued < WRAP {
        StageSlotted(b, op, priority, slot);
      }
    }
  }

  lemma CommitSlotted(w: World, m: MachineState)
    requires WorldOk(w) && Mintless(w.plugins, RequestTag) && Serves(m.hub.routes, m.hub.store.slots)
    requires Slotted(m.book, m.slot)
    ensures Slotted(CommitPhase(w, m).book, CommitPhase(w, m).slot)
  {
    if m.book.pool.pending != [] {
      var a := Audit(OPENING, m.book.ledger);
      AuditOne(OPENING, m.book.ledger, Batch);
      DeliverRequests(w.plugins, m.hub.routes, BenchOf(m), m.book.pool.pending);
      CommitContending(w, m);
      if a.plain {
        SpansOn(a.window, a.over, m.slot, a.open, a.winner);
      }
    }
  }

  lemma TakenSlotted(b: Book, r: Request)
    requires Slotted(b, Some(r))
    ensures Slotted(b.(ledger := b.ledger + [Taken(r)]), None)
  {
    var a := Audit(OPENING, b.ledger);
    AuditOne(OPENING, b.ledger, Taken(r));
    NoteContending(b, Taken(r), b.pool.rules);
    if a.plain {
      SpansExactly(a, r);
    }
  }

  lemma NoteSlotted(b: Book, n: Note, rules: seq<RuleSlot>, slot: Option<Request>)
    requires Slotted(b, slot) && (n.Cleared? || n.Installed?)
    requires rules == if n.Installed? then AddRule(b.pool.rules, REQUEST_RULE, RequestRule(n.arbiter)) else b.pool.rules
    ensures Slotted(Book(b.pool.(rules := rules), b.ledger + [n]), slot)
  {
    AuditOne(OPENING, b.ledger, n);
    NoteContending(b, n, rules);
  }

  /** While the counter has not wrapped the slot is accounted for; requests reach the built-in consumer. */
  ghost predicate Audited(m: MachineState) {
    Holds(m.slot)(m.book) && Serves(m.hub.routes, m.hub.store.slots)
  }

  lemma {:induction false} DeliverServes(w: Plugins, routes: map<Tag, seq<nat>>, b: Bench, batch: seq<Entry>)
    requires Ranked(w) && Mintless(w, RequestTag) && Serves(routes, b.slots)
    ensures Serves(routes, Deliver(w, routes, b, batch).slots)
    decreases |batch|
  {
    if batch != [] {
      var e := batch[0];
      DeliverOne(w, routes, b, e);
      var b1 := b.(ledger := b.ledger + [Committed(e.ticket, e.op)]);
      DeliverServes(w, routes, Route(w, routes, b1, e.ticket, e.op, 0), batch[1..]);
    }
  }

  lemma {:induction false} DrainServes(w: Plugins, routes: map<Tag, seq<nat>>, slots: Slots, i: nat, b: Book)
    requires i <= |slots| && Serves(routes, slots)
    ensures Serves(routes, DrainFrom(w, slots, i, b).slots)
    decreases |slots| - i
  {
    if i < |slots| {
      if slots[i].None? {
        DrainServes(w, routes, slots, i + 1, b);
      } else {
        var d := Drain(w, slots[i].value.consumer, b);
        DrainServes(w, routes, slots[i := Some(slots[i].value.(consumer := d.consumer))], i + 1, d.book);
      }
    }
  }

  lemma TurnServes(w: World, m: MachineState)
    requires WorldOk(w) && Mintless(w.plugins, RequestTag) && Serves(m.hub.routes, m.hub.store.slots)
    ensures var h := MicroStep(w, m).machine.hub; Serves(h.routes, h.store.slots)
  {
    var c := CommitPhase(w, m);
    DeliverServes(w.plugins, m.hub.routes, BenchOf(m), m.book.pool.pending);
    DrainServes(w.plugins, c.hub.routes, c.hub.store.slots, 0, c.book);
    DispatchKeeps(w, ApplyPhase(w, DrainPhase(w, c).0));
  }

  lemma TurnAudited(w: World, m: MachineState)
    requires WorldOk(w) && Mintless(w.plugins, RequestTag) && Audited(m)
    ensures Audited(MicroStep(w, m).machine)
  {
    var c := CommitPhase(w, m);
    var inv, after := Holds(c.slot), Holds(None);
    TurnServes(w, m);
    HoldsStages(c.slot);
    HoldsStages(None);
    if m.book.pool.issued <= WRAP {
      CommitSlotted(w, m);
    }
    forall b | inv(b) ensures after(AfterTaking(c.(book := b))) {
      if c.slot.Some? && b.pool.issued <= WRAP {
        TakenSlotted(b, c.slot.value);
      }
    }
    TurnKeeps(w, inv, after, Any(), m);
    DispatchKeeps(w, ApplyPhase(w, DrainPhase(w, c).0));
  }

  /** The input leaves the first consumer of `tag` in place. */
  predicate Spares(x: Input, tag: Tag) {
    x.Unregister? ==> tag !in x.tags
  }

  lemma ReactServes(w: World, m: MachineState, x: Input)
    requires WorldOk(w) && HubOk(m.hub) && Mintless(w.plugins, RequestTag) && Spares(x, RequestTag)
    requires Serves(m.hub.routes, m.hub.store.slots)
    ensures var h := React(w, m, x).hub; Serves(h.routes, h.store.slots)
  {
    match x
    case Turn => TurnServes(w, m);
    case Register(c, tag, more) => RegisterFirst(m.hub, c, [tag] + more, RequestTag);
    case Unregister(tags) => UnregisterFirst(m.hub, tags, RequestTag);
    case Reset => DefaultsServe(w.plugins);
    case _ =>
  }

  lemma ReactAudited(w: World, m: MachineState, x: Input)
    requires WorldOk(w) && HubOk(m.hub) && Mintless(w.plugins, RequestTag) && Audited(m) && Spares(x, RequestTag)
    ensures Audited(React(w, m, x))
  {
    ReactServes(w, m, x);
    HoldsStages(m.slot);
    match x
    case Turn => TurnAudited(w, m);
    case Init(target) => assert Any()(Offer(RequestOp(Request(target, NORMAL)), None));
    case Submit(op) => assert Any()(Offer(op, None));
    case Reset => if m.book.pool.issued <= WRAP { NoteSlotted(m.book, Cleared, m.book.pool.rules, m.slot); }
    case Arbitrate(a) =>
      if m.book.pool.issued <= WRAP { NoteSlotted(m.book, Installed(a), React(w, m, x).book.pool.rules, m.slot); }
    case _ =>
  }

  /** For arbitrary behaviors, arbiters and custom consumers that do not make up requests of their
      own, over every run that keeps the built-in request consumer: every applied request was in the
      slot, and the slot holds the tournament winner of the last committed batch that held a request
      since the last apply. */
  lemma {:induction false} RequestsAccounted(w: World, m: MachineState, inputs: seq<Input>)
    requires WorldOk(w) && HubOk(m.hub) && Mintless(w.plugins, RequestTag) && Audited(m)
    requires forall x :: x in inputs ==> Spares(x, RequestTag)
    ensures Audited(Run(w, m, inputs))
    decreases |inputs|
  {
    if inputs != [] {
      assert inputs[0] in inputs;
      ReactHub(w, m, inputs[0]);
      ReactAudited(w, m, inputs[0]);
      RequestsAccounted(w, React(w, m, inputs[0]), inputs[1..]);
    }
  }

  lemma {:induction false} ExactAt(a: Account, ledger: seq<Note>, k: nat)
    requires Audit(a, ledger).exact && k < |ledger| && ledger[k].Taken?
    ensures var b := Audit(a, ledger[..k]); b.plain ==> PerApply(b, ledger[k].request)
    ensures a.exact
    decreases |ledger|
  {
    ExactBefore(Enter(a, ledger[0]), ledger[1..]);
    if k > 0 {
      ExactAt(Enter(a, ledger[0]), ledger[1..], k - 1);
      assert ledger[..k][1..] == ledger[1..][..k - 1];
    }
  }

  lemma {:induction false} ExactBefore(a: Account, ledger: seq<Note>)
    requires Audit(a, ledger).exact
    ensures a.exact
    decreases |ledger|
  {
    if ledger != [] {
      ExactBefore(Enter(a, ledger[0]), ledger[1..]);
    }
  }

  /** Priority and applied transitions, over every such run under the default arbiter: an applied
      request is the last one of maximal priority among all requests of the batches committed since
      the previous apply if and only if none of higher priority was overwritten in the slot since. */
  lemma AppliedIsMaximum(w: World, m: MachineState, inputs: seq<Input>, k: nat)
    requires WorldOk(w) && HubOk(m.hub) && Mintless(w.plugins, RequestTag) && Audited(m)
    requires (forall x :: x in inputs ==> Spares(x, RequestTag)) && Run(w, m, inputs).book.pool.issued <= WRAP
    requires var ledger := Run(w, m, inputs).book.ledger; k < |ledger| && ledger[k].Taken?
    ensures var ledger := Run(w, m, inputs).book.ledger;
      var a, r := Audit(OPENING, ledger[..k]), ledger[k].request;
      a.plain ==> (IsLastMaximum(a.window, r) <==> forall q :: q in a.over ==> q.priority <= r.priority)
  {
    var ledger := Run(w, m, inputs).book.ledger;
    RequestsAccounted(w, m, inputs);
    ExactAt(OPENING, ledger, k);
    WinnerIsLast(Audit(OPENING, ledger[..k]).window, ledger[k].request);
  }

  lemma FreshAudited(w: World, context: Context)
    requires WorldOk(w)
    ensures Audited(Fresh(w, context))
  {
    DefaultsServe(w.plugins);
    NewSlotted(Fresh(w, context).book);
  }

  lemma NewSlotted(b: Book)
    requires b == Book(Pool(0, [RuleSlot(REQUEST_RULE, RequestRule(ByPriority()))], []), [Installed(ByPriority())])
    ensures Slotted(b, None)
  {
    AuditOne(OPENING, [], Installed(ByPriority()));
    assert [] + [Installed(ByPriority())] == [Installed(ByPriority())];
  }
}
