/** The order of things within one turn of the advance loop. */
module Discipline {
  import opened Base
  import opened StateForest
  import opened Operations
  import opened Reconciling
  import opened Arbitration
  import opened Running
  import opened Consuming
  import opened Hubs
  import opened Routing
  import opened Machines
  import opened Staging
  import opened Safety

  /** The kinds of entries in the ledger, by what makes them. */
  datatype Kind =
    | Passing      // an operation on its way past consumers that are not the request consumer
    | Routed       // an operation on its way
    | Delivered    // committing and routing
    | Put          // staging
    | Filed        // staging, and taking the slot

  predicate Passes(n: Note) {
    n.Tried? || n.Consumed? || n.Unhandled?
  }

  predicate Routes(n: Note) {
    Passes(n) || n.Committed? || n.Seated? || n.Overwritten?
  }

  predicate Puts(n: Note) {
    n.Staged? || n.Rejected? || n.Displaced? || n.Lost?
  }

  predicate OfKind(n: Note, kind: Kind) {
    match kind
    case Passing => Passes(n)
    case Routed => Routes(n)
    case Delivered => Routes(n) || n.Batch?
    case Put => Puts(n)
    case Filed => Puts(n) || n.Taken?
  }

  /** `b` continues `a` with entries of one kind. */
  ghost predicate Continues(a: seq<Note>, b: seq<Note>, kind: Kind) {
    a <= b && forall k :: |a| <= k < |b| ==> OfKind(b[k], kind)
  }

  lemma ContinuesOn(a: seq<Note>, b: seq<Note>, c: seq<Note>, kind: Kind)
    requires Continues(a, b, kind) && Continues(b, c, kind)
    ensures Continues(a, c, kind)
  {
    assert forall k :: |a| <= k < |b| ==> c[k] == b[k];
  }

  lemma {:induction false} JudgeFiles(rules: seq<RuleSlot>, t: Ticket, op: Op, pending: seq<Entry>)
    ensures forall n :: n in Judge(rules, t, op, pending).notes ==> n.Displaced?
  {
    if rules != [] {
      JudgeFiles(rules[1..], t, op, Without(pending, rules[0].rule(t, op, pending).unstage));
    }
  }

  lemma {:induction false} ReplacingFiles(pending: seq<Entry>, t: Ticket)
    ensures forall n :: n in Replacing(pending, t) ==> n.Lost?
  {
    if pending != [] {
      ReplacingFiles(pending[1..], t);
    }
  }

  /** What a staging files: removals by the rules, a loss if it collides, and its own entry. */
  lemma StageShape(b: Book, op: Op, priority: Option<nat>) returns (more: seq<Note>, last: Note)
    ensures Stage(b, op, priority).ledger == b.ledger + more + [last]
    ensures forall n :: n in more ==> n.Displaced? || n.Lost?
    ensures var t := NextTicket(b.pool, priority);
      last == if Judge(b.pool.rules, t, op, b.pool.pending).keep then Staged(t, op) else Rejected(t, op)
  {
    var t := NextTicket(b.pool, priority);
    var j := Judge(b.pool.rules, t, op, b.pool.pending);
    more, last := j.notes, Rejected(t, op);
    JudgeFiles(b.pool.rules, t, op, b.pool.pending);
    if j.keep {
      more, last := j.notes + Replacing(j.pending, t), Staged(t, op);
      ReplacingFiles(j.pending, t);
      assert b.ledger + j.notes + Replacing(j.pending, t) == b.ledger + more;
    }
  }

  lemma StageFiles(b: Book, op: Op, priority: Option<nat>)
    ensures Continues(b.ledger, Stage(b, op, priority).ledger, Put)
  {
    var more, last := StageShape(b, op, priority);
    var c := b.ledger + more + [last];
    forall k | |b.ledger| <= k < |c| ensures OfKind(c[k], Put) {
      if k < |c| - 1 {
        assert c[k] == more[k - |b.ledger|] && c[k] in more;
      }
    }
  }

  /** The ledger has only grown by filings since it was `a`. */
  ghost function Files(a: seq<Note>): Book -> bool {
    (b: Book) => Continues(a, b.ledger, Filed)
  }

  lemma FilesStage(a: seq<Note>)
    ensures Stages(Files(a), Any())
  {
    forall b, op, priority | Files(a)(b) ensures Files(a)(Stage(b, op, priority)) {
      StageFiles(b, op, priority);
      ContinuesOn(a, b.ledger, Stage(b, op, priority).ledger, Filed);
    }
  }

  lemma AttemptDelivers(w: Plugins, b: Bench, t: Ticket, op: Op, next: nat, i: nat)
    requires LiveAt(b.slots, i)
    ensures Continues(b.ledger, Attempt(w, b, t, op, next, i).bench.ledger, Routed)
  {
  }

  lemma {:induction false} RouteDelivers(w: Plugins, routes: map<Tag, seq<nat>>, b: Bench, t: Ticket, op: Op, next: nat)
    requires Ranked(w)
    ensures Continues(b.ledger, Route(w, routes, b, t, op, next).ledger, Routed)
    decreases w.rank(op), |RouteOf(routes, TagOf(op))| - next
  {
    if next < |RouteOf(routes, TagOf(op))| {
      var i := routes[TagOf(op)][next];
      if !LiveAt(b.slots, i) {
        RouteDelivers(w, routes, b, t, op, next + 1);
      } else {
        var a := Attempt(w, b, t, op, next, i);
        AttemptDelivers(w, b, t, op, next, i);
        NextRanks(w, b.slots[i].value.consumer, t, op, b.ready, b.slot);
        if a.flow.Next? {
          RouteDelivers(w, routes, a.bench, t, a.flow.op, if TagOf(a.flow.op) != TagOf(op) then 0 else next + 1);
          ContinuesOn(b.ledger, a.bench.ledger, Route(w, routes, b, t, op, next).ledger, Routed);
        }
      }
    }
  }

  lemma {:induction false} DeliverDelivers(w: Plugins, routes: map<Tag, seq<nat>>, b: Bench, batch: seq<Entry>)
    requires Ranked(w)
    ensures Continues(b.ledger, Deliver(w, routes, b, batch).ledger, Routed)
    decreases |batch|
  {
    if batch != [] {
      var e := batch[0];
      var b1 := b.(ledger := b.ledger + [Committed(e.ticket, e.op)]);
      var b2 := Route(w, routes, b1, e.ticket, e.op, 0);
      RouteDelivers(w, routes, b1, e.ticket, e.op, 0);
      ContinuesOn(b.ledger, b1.ledger, b2.ledger, Routed);
      DeliverDelivers(w, routes, b2, batch[1..]);
      ContinuesOn(b.ledger, b2.ledger, Deliver(w, routes, b, batch).ledger, Routed);
    }
  }

  /** The events whose dispatch the callbacks record. */
  function EventsOf(calls: seq<Call>): seq<Event> {
    if calls == [] then []
    else if calls[0].Dispatched? then [calls[0].event] + EventsOf(calls[1..])
    else EventsOf(calls[1..])
  }

  lemma {:induction false} EventsConcat(a: seq<Call>, b: seq<Call>)
    ensures EventsOf(a + b) == EventsOf(a) + EventsOf(b)
    decreases |a|
  {
    if a == [] {
      assert a + b == b;
    } else {
      assert (a + b)[1..] == a[1..] + b;
      EventsConcat(a[1..], b);
    }
  }

  lemma {:induction false} NoEvents(calls: seq<Call>)
    requires forall c :: c in calls ==> !c.Dispatched?
    ensures EventsOf(calls) == []
  {
    if calls != [] {
      assert calls[0] in calls;
      NoEvents(calls[1..]);
    }
  }

  /** Events are offered to the path of `current` only. */
  ghost predicate HeardAt(calls: seq<Call>, current: State) {
    forall c :: c in calls ==> c.Dispatched? || (c.Heard? && c.current == current)
  }

  /** One applied request and the lifecycle steps towards its target. */
  ghost predicate Change(calls: seq<Call>, target: State) {
    && calls != [] && calls[0].Applied? && calls[0].request.target == target
    && forall k :: 0 < k < |calls| ==> calls[k].Exited? || calls[k].Entered?
  }

  /** The callbacks of one dispatch. */
  function HeardOne(w: World, m: MachineState, e: Event): seq<Call>
    requires WorldOk(w)
  {
    [Dispatched(e)] + Bubble(w.tree, w.behaviors, m.current, m.current, e, m.context).trace.calls
  }

  lemma HeardOneEvent(w: World, m: MachineState, e: Event)
    requires WorldOk(w)
    ensures HeardAt(HeardOne(w, m, e), m.current) && EventsOf(HeardOne(w, m, e)) == [e]
  {
    var calls := Bubble(w.tree, w.behaviors, m.current, m.current, e, m.context).trace.calls;
    BubbleHeard(w.tree, w.behaviors, m.current, m.current, e, m.context);
    NoEvents(calls);
    assert HeardOne(w, m, e)[1..] == calls;
  }

  lemma DispatchHears(w: World, m: MachineState)
    requires WorldOk(w) && m.ready != []
    ensures var n := DispatchOne(w, m.(ready := m.ready[1..]), m.ready[0]);
      && n.calls == m.calls + HeardOne(w, m, m.ready[0]) && n.current == m.current && n.ready == m.ready[1..]
      && DispatchPhase(w, m) == DispatchPhase(w, n)
  {
  }

  lemma {:induction false} DispatchDiscipline(w: World, m: MachineState) returns (heard: seq<Call>)
    requires WorldOk(w)
    ensures DispatchPhase(w, m).calls == m.calls + heard
    ensures HeardAt(heard, m.current) && EventsOf(heard) == m.ready
    decreases |m.ready|
  {
    if m.ready == [] {
      heard := [];
    } else {
      var one := HeardOne(w, m, m.ready[0]);
      DispatchHears(w, m);
      HeardOneEvent(w, m, m.ready[0]);
      var rest := DispatchDiscipline(w, DispatchOne(w, m.(ready := m.ready[1..]), m.ready[0]));
      heard := one + rest;
      HeardOn(m.calls, one, rest, m.current, m.ready);
    }
  }

  lemma HeardOn(calls: seq<Call>, one: seq<Call>, rest: seq<Call>, current: State, ready: seq<Event>)
    requires HeardAt(one, current) && HeardAt(rest, current)
    requires ready != [] && EventsOf(one) == [ready[0]] && EventsOf(rest) == ready[1..]
    ensures HeardAt(one + rest, current) && EventsOf(one + rest) == ready
    ensures calls + one + rest == calls + (one + rest)
  {
    EventsConcat(one, rest);
  }

  lemma {:induction false} VisitKinds(bs: Behaviors, tr: Transit, states: seq<State>, entering: bool, context: Context)
    ensures forall c :: c in Visit(bs, tr, states, entering, context).calls ==> c.Exited? || c.Entered?
  {
    if states != [] {
      VisitKinds(bs, tr, states[1..], entering, VisitOne(bs, tr, states[0], entering, context).context);
    }
  }

  lemma ApplyDiscipline(w: World, m: MachineState) returns (change: seq<Call>)
    requires WorldOk(w)
    ensures var r := ApplyPhase(w, m);
      && r.calls == m.calls + change && r.ready == m.ready && r.slot == None
      && (if m.slot.None? then change == [] && r.current == m.current else Change(change, r.current))
  {
    if m.slot.None? {
      change := [];
    } else {
      var q := m.slot.value;
      var p := Propose(w.tree, m.current, q.target);
      var tr := Transit(m.current, q.target, p.exits, p.enters);
      var out := Visit(w.behaviors, tr, p.exits, false, m.context);
      VisitKinds(w.behaviors, tr, p.exits, false, m.context);
      VisitKinds(w.behaviors, tr, p.enters, true, out.context);
      var t := TransitionTrace(w.tree, w.behaviors, m.current, q.target, m.context);
      change := [Applied(q)] + t.calls;
      forall k | 0 < k < |change| ensures change[k].Exited? || change[k].Entered? {
        assert change[k] == t.calls[k - 1] && t.calls[k - 1] in t.calls;
      }
    }
  }

  /** After its commit a turn only files. */
  lemma TurnFiles(w: World, m: MachineState)
    requires WorldOk(w)
    ensures Continues(CommitPhase(w, m).book.ledger, MicroStep(w, m).machine.book.ledger, Filed)
  {
    var c := CommitPhase(w, m);
    var inv := Files(c.book.ledger);
    FilesStage(c.book.ledger);
    TurnKeeps(w, inv, inv, Any(), m);
    assert inv(MicroStep(w, m).machine.book);
  }

  /** So do applying and dispatching. */
  lemma AfterDrains(w: World, d: MachineState)
    requires WorldOk(w)
    ensures Continues(d.book.ledger, DispatchPhase(w, ApplyPhase(w, d)).book.ledger, Filed)
  {
    var inv := Files(d.book.ledger);
    FilesStage(d.book.ledger);
    ApplyKeeps(w, inv, Any(), d);
    DispatchKeepsBook(w, inv, Any(), ApplyPhase(w, d));
    assert inv(DispatchPhase(w, ApplyPhase(w, d)).book);
  }

  /** One turn commits and routes first, and only then stages anything: no operation staged by its
      drains and callbacks is consumed before the next turn. It applies at most one transition, then
      dispatches its whole ready batch in order, every event against one and the same state; a turn
      that drained anything does neither. */
  lemma TurnDiscipline(w: World, m: MachineState) returns (ledger: seq<Note>, change: seq<Call>, heard: seq<Call>)
    requires WorldOk(w)
    ensures var r := MicroStep(w, m).machine; var c := CommitPhase(w, m);
      && Continues(m.book.ledger, ledger, Delivered) && Continues(ledger, r.book.ledger, Filed)
      && r.calls == m.calls + change + heard && HeardAt(heard, r.current)
      && (if change == [] then r.current == m.current else Change(change, r.current))
      && if DrainPhase(w, c).1 then change == [] && heard == [] && r.ready == c.ready && r.slot == c.slot
         else EventsOf(heard) == c.ready && r.ready == [] && r.slot == None && (c.slot.Some? <==> change != [])
  {
    var c := CommitPhase(w, m);
    ledger := c.book.ledger;
    CommitDelivers(w, m);
    TurnFiles(w, m);
    var (d, any) := DrainPhase(w, c);
    if any {
      change, heard := [], [];
    } else {
      change := ApplyDiscipline(w, d);
      heard := DispatchDiscipline(w, ApplyPhase(w, d));
      DispatchKeeps(w, ApplyPhase(w, d));
    }
  }

  lemma CommitDelivers(w: World, m: MachineState)
    requires WorldOk(w)
    ensures Continues(m.book.ledger, CommitPhase(w, m).book.ledger, Delivered)
    ensures CommitPhase(w, m).calls == m.calls && CommitPhase(w, m).current == m.current
  {
    if m.book.pool.pending != [] {
      DeliverDelivers(w.plugins, m.hub.routes, BenchOf(m), m.book.pool.pending);
      ContinuesOn(m.book.ledger, BenchOf(m).ledger, CommitPhase(w, m).book.ledger, Delivered);
    }
  }
}
