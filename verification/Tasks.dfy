/** The running tasks of both runtimes, as the ledger of committed starts and stops determines them. */
module Tasking {
  import opened Base
  import opened StateForest
  import opened Operations
  import opened Reconciling
  import opened Arbitration
  import opened Running
  import opened Consuming
  import opened Hubs
  import opened Routing
  import opened Machines
  import opened Discipline
  import opened Requesting
  import opened Rosters

  // ---- Routing ----

  /** The places of the two task consumers. */
  datatype Desk = Desk(local: nat, mt: nat)

  /** Task operations reach the built-in consumers first, stops the local one before the other. */
  ghost predicate Hosts(routes: map<Tag, seq<nat>>, slots: Slots, d: Desk) {
    && d.local != d.mt
    && RouteOf(routes, StartLocalTag) != [] && routes[StartLocalTag][0] == d.local
    && RouteOf(routes, StartMtTag) != [] && routes[StartMtTag][0] == d.mt
    && [d.local, d.mt] <= RouteOf(routes, StopTag)
    && LiveAt(slots, d.local) && slots[d.local].value.consumer.LocalTasks?
    && LiveAt(slots, d.mt) && slots[d.mt].value.consumer.MtTasks?
  }

  function LocalOf(slots: Slots, d: Desk): set<nat>
    requires LiveAt(slots, d.local) && slots[d.local].value.consumer.LocalTasks?
  {
    slots[d.local].value.consumer.running
  }

  function MtOf(slots: Slots, d: Desk): set<nat>
    requires LiveAt(slots, d.mt) && slots[d.mt].value.consumer.MtTasks?
  {
    slots[d.mt].value.consumer.running
  }

  ghost predicate TasksMintless(w: Plugins) {
    Mintless(w, StartLocalTag) && Mintless(w, StartMtTag) && Mintless(w, StopTag)
  }

  /** An operation of another kind stays of another kind and changes no running task. */
  lemma AttemptNoTask(w: Plugins, routes: map<Tag, seq<nat>>, b: Bench, t: Ticket, op: Op, next: nat, i: nat, d: Desk)
    requires LiveAt(b.slots, i) && TasksMintless(w) && !TaskOp(op) && Hosts(routes, b.slots, d)
    ensures var a := Attempt(w, b, t, op, next, i);
      && Hosts(routes, a.bench.slots, d) && (a.flow.Next? ==> !TaskOp(a.flow.op))
      && LocalOf(a.bench.slots, d) == LocalOf(b.slots, d) && MtOf(a.bench.slots, d) == MtOf(b.slots, d)
  {
    var c := b.slots[i].value.consumer;
    if c.Custom? {
      var flow := w.consume(c.state, t, op).flow;
      assert flow.Next? ==>
          TagOf(flow.op) != StartLocalTag && TagOf(flow.op) != StartMtTag && TagOf(flow.op) != StopTag;
    }
  }

  lemma {:induction false} RouteNoTask(
    w: Plugins, routes: map<Tag, seq<nat>>, b: Bench, t: Ticket, op: Op, next: nat, d: Desk)
    requires Ranked(w) && TasksMintless(w) && Hosts(routes, b.slots, d) && !TaskOp(op)
    ensures var r := Route(w, routes, b, t, op, next);
      && Hosts(routes, r.slots, d)
      && LocalOf(r.slots, d) == LocalOf(b.slots, d) && MtOf(r.slots, d) == MtOf(b.slots, d)
    decreases w.rank(op), |RouteOf(routes, TagOf(op))| - next
  {
    if next < |RouteOf(routes, TagOf(op))| {
      var i := routes[TagOf(op)][next];
      if !LiveAt(b.slots, i) {
        RouteNoTask(w, routes, b, t, op, next + 1, d);
      } else {
        var a := Attempt(w, b, t, op, next, i);
        AttemptNoTask(w, routes, b, t, op, next, i, d);
        NextRanks(w, b.slots[i].value.consumer, t, op, b.ready, b.slot);
        if a.flow.Next? {
          RouteNoTask(w, routes, a.bench, t, a.flow.op, if TagOf(a.flow.op) != TagOf(op) then 0 else next + 1, d);
        }
      }
    }
  }

  /** A start is entered with its own runtime. */
  lemma RouteStart(w: Plugins, routes: map<Tag, seq<nat>>, b: Bench, t: Ticket, op: Op, d: Desk)
    requires Ranked(w) && Hosts(routes, b.slots, d) && Starts(op)
    ensures var r := Route(w, routes, b, t, op, 0);
      && Hosts(routes, r.slots, d)
      && LocalOf(r.slots, d) == LocalOf(b.slots, d) + (if op.StartLocal? then {op.handle} else {})
      && MtOf(r.slots, d) == MtOf(b.slots, d) + (if op.StartMt? then {op.handle} else {})
  {
    assert Attempt(w, b, t, op, 0, routes[TagOf(op)][0]).flow.Done?;
  }

  /** A stop is carried out by whichever runtime has the task: the local one, or else, passed on
      unchanged, the multi-threaded one. */
  lemma RouteStop(w: Plugins, routes: map<Tag, seq<nat>>, b: Bench, t: Ticket, h: nat, d: Desk)
    requires Ranked(w) && w.mt && Hosts(routes, b.slots, d)
    ensures var r := Route(w, routes, b, t, StopOp(h), 0);
      && Hosts(routes, r.slots, d)
      && LocalOf(r.slots, d) == LocalOf(b.slots, d) - {h}
      && MtOf(r.slots, d) == if h in LocalOf(b.slots, d) then MtOf(b.slots, d) else MtOf(b.slots, d) - {h}
  {
    var stops := RouteOf(routes, StopTag);
    assert stops[0] == d.local && stops[1] == d.mt;
    var a := Attempt(w, b, t, StopOp(h), 0, d.local);
    if h !in LocalOf(b.slots, d) {
      assert Route(w, routes, b, t, StopOp(h), 0) == Route(w, routes, a.bench, t, StopOp(h), 1);
      assert Attempt(w, a.bench, t, StopOp(h), 1, d.mt).flow.Done?;
    }
  }

  // ---- Keeping the roster ----

  /** If no handle was started twice, the two running maps partition the tasks started and not stopped. */
  ghost predicate Kept(slots: Slots, ledger: seq<Note>, d: Desk)
    requires LiveAt(slots, d.local) && slots[d.local].value.consumer.LocalTasks?
    requires LiveAt(slots, d.mt) && slots[d.mt].value.consumer.MtTasks?
  {
    var r, l, t := RosterOf(NOBODY, ledger), LocalOf(slots, d), MtOf(slots, d);
    r.distinct ==> l !! t && l + t == r.running && r.running <= r.started
  }

  /** Whether one of the two maps has the task. */
  ghost predicate InMaps(m: MachineState, d: Desk, h: nat)
    requires Hosts(m.hub.routes, m.hub.store.slots, d)
  {
    h in LocalOf(m.hub.store.slots, d) || h in MtOf(m.hub.store.slots, d)
  }

  lemma RouteKeeps(w: Plugins, routes: map<Tag, seq<nat>>, b: Bench, e: Entry, d: Desk)
    requires Ranked(w) && w.mt && TasksMintless(w) && Hosts(routes, b.slots, d) && Kept(b.slots, b.ledger, d)
    ensures var r := Route(w, routes, b.(ledger := b.ledger + [Committed(e.ticket, e.op)]), e.ticket, e.op, 0);
      Hosts(routes, r.slots, d) && Kept(r.slots, r.ledger, d)
  {
    var b1 := b.(ledger := b.ledger + [Committed(e.ticket, e.op)]);
    RosterOne(b.ledger, Committed(e.ticket, e.op));
    RouteCommitsNothing(w, routes, b1, e.ticket, e.op, 0);
    if Starts(e.op) {
      RouteStart(w, routes, b1, e.ticket, e.op, d);
    } else if e.op.StopOp? {
      RouteStop(w, routes, b1, e.ticket, e.op.handle, d);
    } else {
      RouteNoTask(w, routes, b1, e.ticket, e.op, 0, d);
    }
  }

  lemma {:induction false} RouteCommitsNothing(
    w: Plugins, routes: map<Tag, seq<nat>>, b: Bench, t: Ticket, op: Op, next: nat)
    requires Ranked(w)
    ensures RosterOf(NOBODY, Route(w, routes, b, t, op, next).ledger) == RosterOf(NOBODY, b.ledger)
    decreases w.rank(op), |RouteOf(routes, TagOf(op))| - next
  {
    if next >= |RouteOf(routes, TagOf(op))| {
      AddsNobody(b.ledger, [Unhandled(t, op)]);
    } else {
      var i := routes[TagOf(op)][next];
      if !LiveAt(b.slots, i) {
        RouteCommitsNothing(w, routes, b, t, op, next + 1);
      } else {
        var a := Attempt(w, b, t, op, next, i);
        var c := b.slots[i].value.consumer;
        AddsNobody(b.ledger, [Tried(t, op, next, i)]);
        AddsNobody(b.ledger + [Tried(t, op, next, i)], LastWords(b, c, t, op, i, a.flow));
        NextRanks(w, c, t, op, b.ready, b.slot);
        if a.flow.Next? {
          RouteCommitsNothing(w, routes, a.bench, t, a.flow.op, if TagOf(a.flow.op) != TagOf(op) then 0 else next + 1);
        }
      }
    }
  }

  lemma AddsNobody(ledger: seq<Note>, more: seq<Note>)
    requires forall n :: n in more ==> !n.Committed? && !n.Cleared?
    ensures RosterOf(NOBODY, ledger + more) == RosterOf(NOBODY, ledger)
  {
    RosterConcat(NOBODY, ledger, more);
    NobodyMoved(RosterOf(NOBODY, ledger), more);
  }

  lemma {:induction false} DeliverKeeps(w: Plugins, routes: map<Tag, seq<nat>>, b: Bench, batch: seq<Entry>, d: Desk)
    requires Ranked(w) && w.mt && TasksMintless(w) && Hosts(routes, b.slots, d) && Kept(b.slots, b.ledger, d)
    ensures var r := Deliver(w, routes, b, batch); Hosts(routes, r.slots, d) && Kept(r.slots, r.ledger, d)
    decreases |batch|
  {
    if batch != [] {
      var e := batch[0];
      RouteKeeps(w, routes, b, e, d);
      DeliverKeeps(w, routes,
        Route(w, routes, b.(ledger := b.ledger + [Committed(e.ticket, e.op)]), e.ticket, e.op, 0), batch[1..], d);
    }
  }

  lemma {:induction false} DrainHosts(w: Plugins, routes: map<Tag, seq<nat>>, slots: Slots, i: nat, b: Book, d: Desk)
    requires i <= |slots| && Hosts(routes, slots, d)
    ensures var r := DrainFrom(w, slots, i, b);
      && Hosts(routes, r.slots, d)
      && LocalOf(r.slots, d) == LocalOf(slots, d) && MtOf(r.slots, d) == MtOf(slots, d)
    decreases |slots| - i
  {
    if i < |slots| {
      if slots[i].None? {
        DrainHosts(w, routes, slots, i + 1, b, d);
      } else {
        var r := Drain(w, slots[i].value.consumer, b);
        DrainHosts(w, routes, slots[i := Some(slots[i].value.(consumer := r.consumer))], i + 1, r.book, d);
      }
    }
  }

  // ---- Whole machines ----

  ghost predicate Staffed(m: MachineState, d: Desk) {
    Hosts(m.hub.routes, m.hub.store.slots, d) && Kept(m.hub.store.slots, m.book.ledger, d)
  }

  lemma TurnStaffed(w: World, m: MachineState, d: Desk)
    requires WorldOk(w) && w.plugins.mt && TasksMintless(w.plugins) && Staffed(m, d)
    ensures Staffed(MicroStep(w, m).machine, d)
  {
    var c := CommitPhase(w, m);
    if m.book.pool.pending != [] {
      AddsNobody(m.book.ledger, [Batch]);
      DeliverKeeps(w.plugins, m.hub.routes, BenchOf(m), m.book.pool.pending, d);
    }
    DrainHosts(w.plugins, c.hub.routes, c.hub.store.slots, 0, c.book, d);
    TurnFiles(w, m);
    FilingsEnrollNobody(c.book.ledger, MicroStep(w, m).machine.book.ledger);
    DispatchKeeps(w, ApplyPhase(w, DrainPhase(w, c).0));
  }

  /** The built-in task consumers stay registered, or are replaced all together. */
  predicate SparesTasks(x: Input) {
    Spares(x, StartLocalTag) && Spares(x, StartMtTag) && Spares(x, StopTag)
  }

  /** Where the task consumers are after the input: a clear installs new ones in their first places. */
  function DeskAfter(x: Input, d: Desk): Desk {
    if x.Reset? then Desk(2, 3) else d
  }

  lemma StageStaffed(m: MachineState, op: Op, priority: Option<nat>, d: Desk)
    requires Staffed(m, d)
    ensures Staffed(m.(book := Stage(m.book, op, priority)), d)
  {
    StageFiles(m.book, op, priority);
    FilingsEnrollNobody(m.book.ledger, Stage(m.book, op, priority).ledger);
  }

  lemma RegisterStaffed(m: MachineState, c: Consumer, tags: seq<Tag>, d: Desk)
    requires HubOk(m.hub) && Staffed(m, d) && tags != []
    ensures Staffed(m.(hub := SetConsumer(m.hub, c, tags)), d)
  {
    RegisterFirst(m.hub, c, tags, StartLocalTag);
    RegisterFirst(m.hub, c, tags, StartMtTag);
    RegisterFirst(m.hub, c, tags, StopTag);
    DeskNamed(m.hub, d);
  }

  lemma UnregisterStaffed(m: MachineState, tags: seq<Tag>, d: Desk)
    requires HubOk(m.hub) && Staffed(m, d) && StartLocalTag !in tags && StartMtTag !in tags && StopTag !in tags
    ensures Staffed(m.(hub := RemoveConsumer(m.hub, tags)), d)
  {
    UnregisterFirst(m.hub, tags, StartLocalTag);
    UnregisterFirst(m.hub, tags, StartMtTag);
    UnregisterFirst(m.hub, tags, StopTag);
    DeskNamed(m.hub, d);
  }

  lemma DeskNamed(h: Hub, d: Desk)
    requires Hosts(h.routes, h.store.slots, d)
    ensures d.local in h.routes[StartLocalTag] && d.mt in h.routes[StartMtTag]
  {
  }

  /** A clear leaves both maps empty, and nobody on the roster. */
  lemma ResetStaffed(w: World, m: MachineState, x: Input)
    requires x.Reset? && WorldOk(w) && HubOk(m.hub) && w.plugins.local && w.plugins.mt
    ensures var r := React(w, m, x);
      && Staffed(r, Desk(2, 3))
      && LocalOf(r.hub.store.slots, Desk(2, 3)) == {} && MtOf(r.hub.store.slots, Desk(2, 3)) == {}
  {
    var r := React(w, m, x);
    assert r.hub == Defaults(w.plugins) && r.book.ledger == m.book.ledger + [Cleared];
    ClearedStaffed(w.plugins, r, m.book.ledger);
  }

  lemma ClearedStaffed(w: Plugins, r: MachineState, ledger: seq<Note>)
    requires w.local && w.mt && r.hub == Defaults(w) && r.book.ledger == ledger + [Cleared]
    ensures Staffed(r, Desk(2, 3))
    ensures LocalOf(r.hub.store.slots, Desk(2, 3)) == {} && MtOf(r.hub.store.slots, Desk(2, 3)) == {}
  {
    DefaultsFull(w);
    RosterOne(ledger, Cleared);
    FullStaffed(r.hub, r.book.ledger);
  }

  lemma ReactStaffed(w: World, m: MachineState, x: Input, d: Desk)
    requires WorldOk(w) && HubOk(m.hub) && w.plugins.local && w.plugins.mt && TasksMintless(w.plugins)
    requires Staffed(m, d) && SparesTasks(x)
    ensures Staffed(React(w, m, x), DeskAfter(x, d))
  {
    match x
    case Turn => TurnStaffed(w, m, d);
    case Init(target) => StageStaffed(m, RequestOp(Request(target, NORMAL)), None, d);
    case Submit(op) => StageStaffed(m, op, None, d);
    case Register(c, tag, more) => RegisterStaffed(m, c, [tag] + more, d);
    case Unregister(tags) => UnregisterStaffed(m, tags, d);
    case Reset => ResetStaffed(w, m, x);
    case Arbitrate(a) => AddsNobody(m.book.ledger, [Installed(a)]);
    case Mail(i, op) => MailStaffed(m, i, op, d);
    case Poke(i, state) => PokeStaffed(m, i, state, d);
    case Edit(_) =>
  }

  lemma MailStaffed(m: MachineState, i: nat, op: Op, d: Desk)
    requires Staffed(m, d)
    ensures Staffed(WithSlots(m, Arrive(m.hub.store.slots, i, op)), d)
  {
  }

  lemma PokeStaffed(m: MachineState, i: nat, state: CustomState, d: Desk)
    requires Staffed(m, d)
    ensures Staffed(WithSlots(m, Poked(m.hub.store.slots, i, state)), d)
  {
  }

  /** Over every run that unregisters neither task consumer by itself, clears included: as long as no
      handle was started twice, the running maps of the two runtimes are disjoint, and their union is
      exactly the tasks whose start was committed and whose stop was not, since the last clear. */
  lemma {:induction false} TasksTracked(w: World, m: MachineState, inputs: seq<Input>, d: Desk) returns (e: Desk)
    requires WorldOk(w) && HubOk(m.hub) && w.plugins.local && w.plugins.mt && TasksMintless(w.plugins)
    requires Staffed(m, d) && forall x :: x in inputs ==> SparesTasks(x)
    ensures Staffed(Run(w, m, inputs), e)
    decreases |inputs|
  {
    if inputs == [] {
      e := d;
    } else {
      assert inputs[0] in inputs;
      ReactHub(w, m, inputs[0]);
      ReactStaffed(w, m, inputs[0], d);
      e := TasksTracked(w, React(w, m, inputs[0]), inputs[1..], DeskAfter(inputs[0], d));
    }
  }

  /** Said of the ledger alone: if all committed starts carry handles of their own, a task is in one
      of the running maps, and in one only, if and only if its start was committed and neither a stop
      of it nor a clear followed, in the same batch or later. */
  lemma RunningExactly(m: MachineState, d: Desk, h: nat)
    requires Staffed(m, d) && FreshHandles(m.book.ledger)
    ensures InMaps(m, d, h) <==> Followed(m.book.ledger, h)
    ensures LocalOf(m.hub.store.slots, d) !! MtOf(m.hub.store.slots, d)
  {
    RosterDistinct(NOBODY, m.book.ledger);
    RosterMeans(NOBODY, m.book.ledger, h);
  }

  /** The maps hold exactly the tasks started and not stopped. */
  ghost predicate Exact(m: MachineState, d: Desk)
    requires Hosts(m.hub.routes, m.hub.store.slots, d)
  {
    forall h :: InMaps(m, d, h) <==> Unstopped(m.book.ledger, h)
  }

  /** Clearing the consumers forgets the tasks that go on: the maps stay exact if and only if no task
      is running when it happens. */
  lemma ClearForgets(w: World, m: MachineState, x: Input, d: Desk)
    requires x.Reset? && WorldOk(w) && HubOk(m.hub) && w.plugins.local && w.plugins.mt && Staffed(m, d) && Exact(m, d)
    ensures var r := React(w, m, x);
      && Staffed(r, Desk(2, 3))
      && (Exact(r, Desk(2, 3)) <==> LocalOf(m.hub.store.slots, d) == {} && MtOf(m.hub.store.slots, d) == {})
  {
    ResetStaffed(w, m, x);
    ForgottenExact(m, d, React(w, m, x), Desk(2, 3));
  }

  lemma ForgottenExact(m: MachineState, d: Desk, r: MachineState, e: Desk)
    requires Staffed(m, d) && Exact(m, d) && r.book.ledger == m.book.ledger + [Cleared]
    requires Staffed(r, e) && LocalOf(r.hub.store.slots, e) == {} && MtOf(r.hub.store.slots, e) == {}
    ensures Exact(r, e) <==> LocalOf(m.hub.store.slots, d) == {} && MtOf(m.hub.store.slots, d) == {}
  {
    forall h ensures !InMaps(r, e, h) && (Unstopped(r.book.ledger, h) <==> InMaps(m, d, h)) {
      ClearStopsNobody(m.book.ledger, h);
      assert InMaps(m, d, h) <==> Unstopped(m.book.ledger, h);
    }
    NobodyInMaps(m, d);
  }

  lemma NobodyInMaps(m: MachineState, d: Desk)
    requires Hosts(m.hub.routes, m.hub.store.slots, d)
    ensures (forall h :: !InMaps(m, d, h)) <==>
            LocalOf(m.hub.store.slots, d) == {} && MtOf(m.hub.store.slots, d) == {}
  {
    var l, t := LocalOf(m.hub.store.slots, d), MtOf(m.hub.store.slots, d);
    assert forall h :: InMaps(m, d, h) <==> h in l || h in t;
  }

  /** At any point of a run the maps are exact if and only if every task that some clear forgot has been
      stopped since. */
  lemma ExactUnlessForgotten(m: MachineState, d: Desk)
    requires Staffed(m, d) && FreshHandles(m.book.ledger)
    ensures Exact(m, d) <==> forall h :: Unstopped(m.book.ledger, h) ==> Followed(m.book.ledger, h)
  {
    forall h ensures InMaps(m, d, h) <==> Followed(m.book.ledger, h) {
      RunningExactly(m, d, h);
    }
    forall h ensures Followed(m.book.ledger, h) ==> Unstopped(m.book.ledger, h) {
      FollowedUnstopped(m.book.ledger, h);
    }
  }

  lemma FollowedUnstopped(ledger: seq<Note>, h: nat)
    ensures Followed(ledger, h) ==> Unstopped(ledger, h)
  {
    if i: nat :| StartedAt(ledger, i, h) && forall j: nat :: i < j ==> !EndedAt(ledger, j, h) {
      forall j: nat | i < j ensures !StoppedAt(ledger, j, h) {
        assert !EndedAt(ledger, j, h);
      }
    }
  }

  lemma FreshStaffed(w: World, context: Context)
    requires WorldOk(w) && w.plugins.local && w.plugins.mt
    ensures Staffed(Fresh(w, context), Desk(2, 3))
  {
    BornStaffed(w.plugins, Fresh(w, context));
  }

  lemma BornStaffed(w: Plugins, m: MachineState)
    requires w.local && w.mt && m.hub == Defaults(w) && m.book.ledger == [Installed(ByPriority())]
    ensures Staffed(m, Desk(2, 3))
  {
    DefaultsFull(w);
    NobodyMoved(NOBODY, m.book.ledger);
    FullStaffed(m.hub, m.book.ledger);
  }

  lemma FullStaffed(h: Hub, ledger: seq<Note>)
    requires h == FULL && RosterOf(NOBODY, ledger).running == {}
    ensures Hosts(h.routes, h.store.slots, Desk(2, 3)) && Kept(h.store.slots, ledger, Desk(2, 3))
    ensures LocalOf(h.store.slots, Desk(2, 3)) == {} && MtOf(h.store.slots, Desk(2, 3)) == {}
  {
    FullServes();
  }
}
