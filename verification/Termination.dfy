/** The advance loop terminates for behaviors and consumers that only ever make less of more. */
module Termination {
  import opened Base
  import opened StateForest
  import opened Operations
  import opened Reconciling
  import opened Arbitration
  import opened Running
  import opened Consuming
  import opened Hubs
  import opened Routing
  import opened Machines
  import opened Requesting

  /** Weights of operations, of what custom consumers hold back, and of what they still have to drain. */
  datatype Scale = Scale(weight: Op -> nat, hold: CustomState -> nat, count: CustomState -> nat)

  function OpsWeight(k: Scale, ops: seq<Op>): nat {
    if ops == [] then 0 else k.weight(ops[0]) + OpsWeight(k, ops[1..])
  }

  function OffersWeight(k: Scale, offers: seq<Offer>): nat {
    if offers == [] then 0 else k.weight(offers[0].op) + OffersWeight(k, offers[1..])
  }

  function PendingWeight(k: Scale, pending: seq<Entry>): nat {
    if pending == [] then 0 else k.weight(pending[0].op) + PendingWeight(k, pending[1..])
  }

  function ReadyWeight(k: Scale, ready: seq<Event>): nat {
    if ready == [] then 0 else k.weight(EventOp(ready[0])) + ReadyWeight(k, ready[1..])
  }

  function SlotWeight(k: Scale, slot: Option<Request>): nat {
    if slot.Some? then k.weight(RequestOp(slot.value)) else 0
  }

  function ReplyWeight(k: Scale, reply: EventReply): nat {
    if reply.Transition? then k.weight(RequestOp(Request(reply.target, NORMAL))) else 0
  }

  /** The weight behind a consumer, and how much it still has to drain. */
  function Behind(k: Scale, t: Option<Tenant>): nat {
    if t.None? then 0
    else
      match t.value.consumer
      case LocalTasks(_, mailbox) => OpsWeight(k, mailbox)
      case MtTasks(_, mailbox) => OpsWeight(k, mailbox)
      case Custom(s) => k.hold(s)
      case _ => 0
  }

  function Undrained(k: Scale, t: Option<Tenant>): nat {
    if t.None? then 0
    else
      match t.value.consumer
      case LocalTasks(_, mailbox) => |mailbox|
      case MtTasks(_, mailbox) => |mailbox|
      case Custom(s) => k.count(s)
      case _ => 0
  }

  function SlotsWeight(k: Scale, slots: Slots): nat {
    if slots == [] then 0 else Behind(k, slots[0]) + SlotsWeight(k, slots[1..])
  }

  function SlotsUndrained(k: Scale, slots: Slots): nat {
    if slots == [] then 0 else Undrained(k, slots[0]) + SlotsUndrained(k, slots[1..])
  }

  /** Callbacks stage strictly less than they handle. */
  ghost predicate CallbacksLighter(w: World, k: Scale)
    requires WorldOk(w)
  {
    && (forall s: State, e: Event, c: Context ::
          var a := Bubble(w.tree, w.behaviors, s, s, e, c);
          OpsWeight(k, a.trace.ops) + ReplyWeight(k, a.reply) < k.weight(EventOp(e)))
    && (forall s: State, r: Request, c: Context ::
          OpsWeight(k, TransitionTrace(w.tree, w.behaviors, s, r.target, c).ops) < k.weight(RequestOp(r)))
  }

  /** Custom consumers gain no weight by consuming or draining; consuming leaves them no more to
      drain, and draining something leaves them less. */
  ghost predicate ConsumersLighter(w: Plugins, k: Scale) {
    && (forall s, t, op :: ConsumesLight(w, k, s, t, op))
    && (forall s :: DrainsLight(w, k, s))
  }

  ghost predicate ConsumesLight(w: Plugins, k: Scale, s: CustomState, t: Ticket, op: Op) {
    var o := w.consume(s, t, op);
    && k.hold(o.state) + (if o.flow.Next? then k.weight(o.flow.op) else 0) <= k.hold(s) + k.weight(op)
    && k.count(o.state) <= k.count(s)
  }

  ghost predicate DrainsLight(w: Plugins, k: Scale, s: CustomState) {
    var d := w.drain(s);
    && k.hold(d.state) + OffersWeight(k, d.offers) <= k.hold(s)
    && (if d.flag then k.count(d.state) < k.count(s) else k.count(d.state) <= k.count(s) && d.offers == [])
  }

  ghost predicate Lighter(w: World, k: Scale)
    requires WorldOk(w)
  {
    CallbacksLighter(w, k) && ConsumersLighter(w.plugins, k)
  }

  function Total(k: Scale, m: MachineState): nat {
    PendingWeight(k, m.book.pool.pending) + ReadyWeight(k, m.ready) + SlotWeight(k, m.slot)
    + SlotsWeight(k, m.hub.store.slots)
  }

  function Mailboxes(k: Scale, m: MachineState): nat {
    SlotsUndrained(k, m.hub.store.slots)
  }

  // ---- Staging ----

  lemma {:induction false} WithoutWeight(k: Scale, pending: seq<Entry>, tickets: set<Ticket>)
    ensures PendingWeight(k, Without(pending, tickets)) <= PendingWeight(k, pending)
  {
    if pending != [] {
      WithoutWeight(k, pending[1..], tickets);
    }
  }

  lemma {:induction false} InsertWeight(k: Scale, pending: seq<Entry>, e: Entry)
    ensures PendingWeight(k, Insert(pending, e)) <= PendingWeight(k, pending) + k.weight(e.op)
  {
    if pending != [] && pending[0].ticket != e.ticket && !Before(e.ticket, pending[0].ticket) {
      InsertWeight(k, pending[1..], e);
    }
  }

  lemma {:induction false} JudgeWeight(k: Scale, rules: seq<RuleSlot>, t: Ticket, op: Op, pending: seq<Entry>)
    ensures PendingWeight(k, Judge(rules, t, op, pending).pending) <= PendingWeight(k, pending)
  {
    if rules != [] {
      var v := rules[0].rule(t, op, pending);
      WithoutWeight(k, pending, v.unstage);
      JudgeWeight(k, rules[1..], t, op, Without(pending, v.unstage));
    }
  }

  lemma StageWeight(k: Scale, b: Book, op: Op, priority: Option<nat>)
    ensures PendingWeight(k, Stage(b, op, priority).pool.pending) <= PendingWeight(k, b.pool.pending) + k.weight(op)
  {
    var t := NextTicket(b.pool, priority);
    JudgeWeight(k, b.pool.rules, t, op, b.pool.pending);
    InsertWeight(k, Judge(b.pool.rules, t, op, b.pool.pending).pending, Entry(t, op));
  }

  lemma {:induction false} StageAllWeight(k: Scale, b: Book, ops: seq<Op>)
    ensures PendingWeight(k, StageAll(b, ops).pool.pending) <= PendingWeight(k, b.pool.pending) + OpsWeight(k, ops)
    decreases |ops|
  {
    if ops != [] {
      StageWeight(k, b, ops[0], None);
      StageAllWeight(k, Stage(b, ops[0], None), ops[1..]);
    }
  }

  lemma {:induction false} StageOffersWeight(k: Scale, b: Book, offers: seq<Offer>)
    ensures PendingWeight(k, StageOffers(b, offers).pool.pending) <=
            PendingWeight(k, b.pool.pending) + OffersWeight(k, offers)
    decreases |offers|
  {
    if offers != [] {
      StageWeight(k, b, offers[0].op, offers[0].priority);
      StageOffersWeight(k, Stage(b, offers[0].op, offers[0].priority), offers[1..]);
    }
  }

  // ---- Slots ----

  lemma {:induction false} SlotsUpdate(k: Scale, slots: Slots, i: nat, t: Option<Tenant>)
    requires i < |slots|
    ensures SlotsWeight(k, slots[i := t]) + Behind(k, slots[i]) == SlotsWeight(k, slots) + Behind(k, t)
    ensures SlotsUndrained(k, slots[i := t]) + Undrained(k, slots[i]) == SlotsUndrained(k, slots) + Undrained(k, t)
  {
    if i > 0 {
      assert slots[i := t][1..] == slots[1..][i - 1 := t];
      SlotsUpdate(k, slots[1..], i - 1, t);
    } else {
      assert slots[i := t][1..] == slots[1..];
    }
  }

  // ---- Routing ----

  function BenchWeight(k: Scale, b: Bench): nat {
    ReadyWeight(k, b.ready) + SlotWeight(k, b.slot) + SlotsWeight(k, b.slots)
  }

  lemma {:induction false} ReadyAppend(k: Scale, ready: seq<Event>, e: Event)
    ensures ReadyWeight(k, ready + [e]) == ReadyWeight(k, ready) + k.weight(EventOp(e))
  {
    if ready == [] {
      assert ([] + [e])[1..] == [];
    } else {
      assert (ready + [e])[1..] == ready[1..] + [e];
      ReadyAppend(k, ready[1..], e);
    }
  }

  /** What a consumer keeps, delivers and passes on weighs no more than what it was given. */
  lemma ConsumeWeight(w: Plugins, k: Scale, t: Tenant, n: Ticket, op: Op, ready: seq<Event>, slot: Option<Request>)
    requires ConsumersLighter(w, k)
    ensures var r := Consume(w, t.consumer, n, op, ready, slot); var u := Some(t.(consumer := r.consumer));
      && ReadyWeight(k, r.ready) + SlotWeight(k, r.slot) + Behind(k, u)
         + (if r.flow.Next? then k.weight(r.flow.op) else 0)
         <= ReadyWeight(k, ready) + SlotWeight(k, slot) + Behind(k, Some(t)) + k.weight(op)
      && Undrained(k, u) <= Undrained(k, Some(t))
  {
    match t.consumer
    case Events => if op.EventOp? { ReadyAppend(k, ready, op.event); }
    case Custom(s) => assert ConsumesLight(w, k, s, n, op);
    case _ =>
  }

  lemma AttemptWeight(w: Plugins, k: Scale, b: Bench, t: Ticket, op: Op, next: nat, i: nat)
    requires LiveAt(b.slots, i) && ConsumersLighter(w, k)
    ensures var a := Attempt(w, b, t, op, next, i);
      && BenchWeight(k, a.bench) + (if a.flow.Next? then k.weight(a.flow.op) else 0) <= BenchWeight(k, b) + k.weight(op)
      && SlotsUndrained(k, a.bench.slots) <= SlotsUndrained(k, b.slots)
  {
    var tenant := b.slots[i].value;
    var r := Consume(w, tenant.consumer, t, op, b.ready, b.slot);
    ConsumeWeight(w, k, tenant, t, op, b.ready, b.slot);
    SlotsUpdate(k, b.slots, i, Some(tenant.(consumer := r.consumer)));
  }

  lemma {:induction false} RouteWeight(
    w: Plugins, k: Scale, routes: map<Tag, seq<nat>>, b: Bench, t: Ticket, op: Op, next: nat)
    requires Ranked(w) && ConsumersLighter(w, k)
    ensures var r := Route(w, routes, b, t, op, next);
      BenchWeight(k, r) <= BenchWeight(k, b) + k.weight(op) && SlotsUndrained(k, r.slots) <= SlotsUndrained(k, b.slots)
    decreases w.rank(op), |RouteOf(routes, TagOf(op))| - next
  {
    if next < |RouteOf(routes, TagOf(op))| {
      var i := routes[TagOf(op)][next];
      if !LiveAt(b.slots, i) {
        RouteWeight(w, k, routes, b, t, op, next + 1);
      } else {
        var a := Attempt(w, b, t, op, next, i);
        AttemptWeight(w, k, b, t, op, next, i);
        NextRanks(w, b.slots[i].value.consumer, t, op, b.ready, b.slot);
        if a.flow.Next? {
          RouteWeight(w, k, routes, a.bench, t, a.flow.op, if TagOf(a.flow.op) != TagOf(op) then 0 else next + 1);
        }
      }
    }
  }

  lemma {:induction false} DeliverWeight(w: Plugins, k: Scale, routes: map<Tag, seq<nat>>, b: Bench, batch: seq<Entry>)
    requires Ranked(w) && ConsumersLighter(w, k)
    ensures var r := Deliver(w, routes, b, batch);
      BenchWeight(k, r) <= BenchWeight(k, b) + PendingWeight(k, batch)
      && SlotsUndrained(k, r.slots) <= SlotsUndrained(k, b.slots)
    decreases |batch|
  {
    if batch != [] {
      var e := batch[0];
      var b1 := b.(ledger := b.ledger + [Committed(e.ticket, e.op)]);
      RouteWeight(w, k, routes, b1, e.ticket, e.op, 0);
      DeliverWeight(w, k, routes, Route(w, routes, b1, e.ticket, e.op, 0), batch[1..]);
    }
  }

  // ---- Draining ----

  lemma DrainWeight(w: Plugins, k: Scale, t: Tenant, b: Book)
    requires ConsumersLighter(w, k)
    ensures var d := Drain(w, t.consumer, b); var u := Some(t.(consumer := d.consumer));
      && PendingWeight(k, d.book.pool.pending) + Behind(k, u) <= PendingWeight(k, b.pool.pending) + Behind(k, Some(t))
      && Undrained(k, u) <= Undrained(k, Some(t))
      && (if d.flag then Undrained(k, u) < Undrained(k, Some(t)) else d.book == b)
  {
    match t.consumer
    case LocalTasks(_, mailbox) => StageAllWeight(k, b, mailbox);
    case MtTasks(_, mailbox) => StageAllWeight(k, b, mailbox);
    case Custom(s) =>
      assert DrainsLight(w, k, s);
      StageOffersWeight(k, b, w.drain(s).offers);
    case _ =>
  }

  lemma {:induction false} DrainFromWeight(w: Plugins, k: Scale, slots: Slots, i: nat, b: Book)
    requires i <= |slots| && ConsumersLighter(w, k)
    ensures var d := DrainFrom(w, slots, i, b);
      && PendingWeight(k, d.book.pool.pending) + SlotsWeight(k, d.slots) <=
         PendingWeight(k, b.pool.pending) + SlotsWeight(k, slots)
      && SlotsUndrained(k, d.slots) <= SlotsUndrained(k, slots)
      && (if d.any then SlotsUndrained(k, d.slots) < SlotsUndrained(k, slots) else d.book == b)
    decreases |slots| - i
  {
    if i < |slots| {
      if slots[i].None? {
        DrainFromWeight(w, k, slots, i + 1, b);
      } else {
        var t := slots[i].value;
        var d := Drain(w, t.consumer, b);
        var next := slots[i := Some(t.(consumer := d.consumer))];
        DrainWeight(w, k, t, b);
        SlotsUpdate(k, slots, i, Some(t.(consumer := d.consumer)));
        DrainFromWeight(w, k, next, i + 1, d.book);
      }
    }
  }

  /** No built-in mailbox holds anything. */
  ghost predicate MailboxesEmpty(slots: Slots) {
    forall i: nat :: LiveAt(slots, i) ==> Drained(slots[i].value.consumer)
  }

  predicate Drained(c: Consumer) {
    match c
    case LocalTasks(_, mailbox) => mailbox == []
    case MtTasks(_, mailbox) => mailbox == []
    case _ => true
  }

  lemma {:induction false} DrainsEverything(w: Plugins, slots: Slots, i: nat, b: Book)
    requires i <= |slots| && forall j: nat :: j < i && LiveAt(slots, j) ==> Drained(slots[j].value.consumer)
    ensures MailboxesEmpty(DrainFrom(w, slots, i, b).slots)
    decreases |slots| - i
  {
    if i < |slots| {
      if slots[i].None? {
        DrainsEverything(w, slots, i + 1, b);
      } else {
        var d := Drain(w, slots[i].value.consumer, b);
        DrainsEverything(w, slots[i := Some(slots[i].value.(consumer := d.consumer))], i + 1, d.book);
      }
    }
  }

  // ---- The loop ----

  lemma CommitWeight(w: World, k: Scale, m: MachineState)
    requires WorldOk(w) && Lighter(w, k)
    ensures var c := CommitPhase(w, m); Total(k, c) <= Total(k, m) && Mailboxes(k, c) <= Mailboxes(k, m)
    ensures CommitPhase(w, m).book.pool.pending == []
  {
    if m.book.pool.pending != [] {
      DeliverWeight(w.plugins, k, m.hub.routes, BenchOf(m), m.book.pool.pending);
    }
  }

  lemma ApplyWeight(w: World, k: Scale, m: MachineState)
    requires WorldOk(w) && Lighter(w, k)
    ensures Total(k, ApplyPhase(w, m)) <= Total(k, m) && ApplyPhase(w, m).ready == m.ready
    ensures m.slot.Some? ==> Total(k, ApplyPhase(w, m)) < Total(k, m)
  {
    if m.slot.Some? {
      var t := TransitionTrace(w.tree, w.behaviors, m.current, m.slot.value.target, m.context);
      StageAllWeight(k, m.book.(ledger := m.book.ledger + [Taken(m.slot.value)]), t.ops);
    }
  }

  lemma {:induction false} DispatchWeight(w: World, k: Scale, m: MachineState)
    requires WorldOk(w) && Lighter(w, k)
    ensures Total(k, DispatchPhase(w, m)) <= Total(k, m)
    ensures m.ready != [] ==> Total(k, DispatchPhase(w, m)) < Total(k, m)
    decreases |m.ready|
  {
    if m.ready != [] {
      var e := m.ready[0];
      var a := Bubble(w.tree, w.behaviors, m.current, m.current, e, m.context);
      StageAllWeight(k, m.book, a.trace.ops);
      if a.reply.Transition? {
        StageWeight(k, StageAll(m.book, a.trace.ops), RequestOp(Request(a.reply.target, NORMAL)), None);
      }
      DispatchWeight(w, k, DispatchOne(w, m.(ready := m.ready[1..]), e));
    }
  }

  /** A turn that is not the last makes the machine lighter, or its mailboxes emptier at no more
      weight, or its pool emptier at no more of either. */
  lemma TurnLighter(w: World, k: Scale, m: MachineState)
    requires WorldOk(w) && Lighter(w, k) && !MicroStep(w, m).stop
    ensures var r := MicroStep(w, m).machine;
      && Total(k, r) <= Total(k, m)
      && (Total(k, r) == Total(k, m) ==> Mailboxes(k, r) <= Mailboxes(k, m))
      && (Total(k, r) == Total(k, m) && Mailboxes(k, r) == Mailboxes(k, m) ==>
            |r.book.pool.pending| < |m.book.pool.pending|)
  {
    var c := CommitPhase(w, m);
    var (d, any) := DrainPhase(w, c);
    CommitWeight(w, k, m);
    DrainFromWeight(w.plugins, k, c.hub.store.slots, 0, c.book);
    assert Total(k, d) <= Total(k, m) && Mailboxes(k, d) <= Mailboxes(k, m);
    if !any {
      var a := ApplyPhase(w, d);
      ApplyWeight(w, k, d);
      DispatchWeight(w, k, a);
      DispatchKeeps(w, a);
      assert d.book.pool.pending == [];
      assert d.slot.None? && d.ready == [] ==> DispatchPhase(w, a) == d;
    }
  }

  /** The advance loop, turn by turn until it stops. */
  function Advance(w: World, k: Scale, m: MachineState): MachineState
    requires WorldOk(w) && Lighter(w, k)
    decreases Total(k, m), Mailboxes(k, m), |m.book.pool.pending|
  {
    var s := MicroStep(w, m);
    if s.stop then s.machine
    else
      TurnLighter(w, k, m);
      Advance(w, k, s.machine)
  }

  /** Nothing is left to do. */
  ghost predicate Settled(m: MachineState) {
    m.book.pool.pending == [] && m.ready == [] && m.slot == None && MailboxesEmpty(m.hub.store.slots)
  }

  /** The loop stops after a turn that found nothing to do, and after no other: nothing was pending, no
      consumer had anything to drain, slot and ready queue were empty, and nothing is pending now. */
  lemma StopExactly(w: World, m: MachineState)
    requires WorldOk(w)
    ensures MicroStep(w, m).stop <==>
            m.book.pool.pending == [] && !DrainPhase(w, m).1 && m.slot == None && m.ready == []
            && DrainPhase(w, m).0.book.pool.pending == []
  {
    if m.book.pool.pending == [] && m.slot == None && m.ready == [] {
      var d := DrainPhase(w, m).0;
      assert DispatchPhase(w, ApplyPhase(w, d)) == d;
    }
  }

  lemma StopSettles(w: World, m: MachineState)
    requires WorldOk(w) && MicroStep(w, m).stop
    ensures Settled(MicroStep(w, m).machine)
  {
    var c := CommitPhase(w, m);
    var d := DrainPhase(w, c).0;
    DrainsEverything(w.plugins, c.hub.store.slots, 0, c.book);
    DispatchKeeps(w, ApplyPhase(w, d));
  }

  /** `advance` terminates, is a run of turns, and leaves pool, ready queue, slot and mailboxes empty. */
  lemma {:induction false} AdvanceSettles(w: World, k: Scale, m: MachineState) returns (turns: seq<Input>)
    requires WorldOk(w) && Lighter(w, k) && HubOk(m.hub)
    ensures Settled(Advance(w, k, m))
    ensures turns != [] && (forall x :: x in turns ==> x.Turn?) && Run(w, m, turns) == Advance(w, k, m)
    decreases Total(k, m), Mailboxes(k, m), |m.book.pool.pending|
  {
    var s := MicroStep(w, m);
    ReactHub(w, m, Turn);
    if s.stop {
      StopSettles(w, m);
      turns := [Turn];
      assert Run(w, m, [Turn]) == Run(w, s.machine, [Turn][1..]);
    } else {
      TurnLighter(w, k, m);
      var rest := AdvanceSettles(w, k, s.machine);
      turns := [Turn] + rest;
      assert turns[1..] == rest;
    }
  }

  /** A settled machine is stable: advancing it again changes nothing. */
  lemma SettledStays(w: World, m: MachineState)
    requires WorldOk(w) && Settled(m)
    requires forall i: nat :: LiveAt(m.hub.store.slots, i) ==> !m.hub.store.slots[i].value.consumer.Custom?
    ensures MicroStep(w, m) == Stepped(m, true)
  {
    DrainNothing(w.plugins, m.hub.store.slots, 0, m.book);
  }

  lemma {:induction false} DrainNothing(w: Plugins, slots: Slots, i: nat, b: Book)
    requires i <= |slots| && MailboxesEmpty(slots)
    requires forall j: nat :: LiveAt(slots, j) ==> !slots[j].value.consumer.Custom?
    ensures DrainFrom(w, slots, i, b) == Drains(slots, b, false)
    decreases |slots| - i
  {
    if i < |slots| {
      if slots[i].Some? {
        assert LiveAt(slots, i) && Drained(slots[i].value.consumer);
        assert slots[i := slots[i]] == slots;
      }
      DrainNothing(w, slots, i + 1, b);
    }
  }
}
