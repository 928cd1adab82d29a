/** The machine as it runs: fields updated in place, loop by loop. */
module Engine {
  import opened Base
  import opened StateForest
  import opened Operations
  import opened Reconciling
  import opened Arbitration
  import opened Running
  import opened Consuming
  import opened Hubs
  import opened Routing
  import opened Machines
  import opened Stations
  import opened Termination

  class Machine {
    const world: World
    const envelope: Envelope
    const consumers: ConsumerStore
    const readyEvents: EventQueue
    const pendingTransition: TransitionSlot
    var current: State
    var routes: map<Tag, seq<nat>>

    /** The consumers' objects are none of the machine's own. */
    ghost predicate Apart()
      reads this, consumers
    {
      && consumers.Valid()
      && {this, envelope, envelope.reconciler, consumers, readyEvents, pendingTransition} !! consumers.repr
    }

    ghost predicate Valid()
      reads this, envelope, envelope.reconciler, consumers, consumers.repr
    {
      WorldOk(world) && envelope.Valid() && Apart() && HubOk(TheHub())
    }

    ghost function TheHub(): Hub
      requires Apart()
      reads this, consumers, consumers.repr
    {
      Hub(consumers.Model(), routes)
    }

    ghost function Model(): MachineState
      requires Apart()
      reads this, envelope, envelope.reconciler, consumers, consumers.repr, readyEvents, pendingTransition
    {
      MachineState(current, envelope.context, envelope.reconciler.Model(), readyEvents.events,
                   pendingTransition.pending, TheHub(), envelope.calls)
    }

    ghost function Workbench(): Bench
      requires Apart()
      reads this, envelope, envelope.reconciler, consumers, consumers.repr, readyEvents, pendingTransition
    {
      Bench(consumers.Slots(), readyEvents.events, pendingTransition.pending, envelope.reconciler.ledger)
    }

    constructor (world: World, context: Context)
      requires WorldOk(world)
      ensures Valid() && Model() == Fresh(world, context) && this.world == world
      ensures fresh(envelope) && fresh(envelope.reconciler) && fresh(consumers) && fresh(consumers.repr)
      ensures fresh(readyEvents) && fresh(pendingTransition)
    {
      var reconciler := new Reconciler();
      this.envelope := new Envelope(context, reconciler);
      this.consumers := new ConsumerStore();
      this.readyEvents := new EventQueue();
      this.pendingTransition := new TransitionSlot();
      this.world := world;
      current, routes := NIL, map[];
      new;
      reconciler.InstallRule(REQUEST_RULE, RequestRule(ByPriority()));
      reconciler.ledger := reconciler.ledger + [Installed(ByPriority())];
      InstallDefaults();
      assert reconciler.ledger == [Installed(ByPriority())];
    }

    /** Register a consumer for some operation types. */
    method SetConsumer(station: Station, tags: seq<Tag>)
      requires Valid() && tags != [] && Objects(station) !! consumers.repr
      modifies this`routes, consumers
      ensures Valid() && consumers.repr == old(consumers.repr) + Objects(station)
      ensures Model() == old(Model()).(hub := Hubs.SetConsumer(old(Model()).hub, ConsumerOf(station), tags))
    {
      ghost var h := TheHub();
      SetConsumerOk(h, ConsumerOf(station), tags);
      var index := consumers.Insert(Seat(station, tags));
      AppendRoutes(tags, index);
      assert TheHub() == Hubs.SetConsumer(h, ConsumerOf(station), tags);
    }

    method AppendRoutes(tags: seq<Tag>, index: nat)
      modifies this`routes
      ensures routes == AddRoutes(old(routes), tags, index)
    {
      for k := 0 to |tags|
        invariant AddRoutes(old(routes), tags, index) == AddRoutes(routes, tags[k..], index)
      {
        assert tags[k..][1..] == tags[k + 1..];
        routes := routes[tags[k] := RouteOf(routes, tags[k]) + [index]];
      }
    }

    method InstallDefaults()
      requires WorldOk(world) && envelope.Valid() && Apart() && TheHub() == EmptyHub()
      modifies this`routes, consumers
      ensures Valid() && Model() == old(Model()).(hub := Defaults(world.plugins))
      ensures fresh(consumers.repr - old(consumers.repr))
    {
      InstallBasics(TheHub());
      InstallRuntimes(TheHub());
    }

    method InstallBasics(ghost h: Hub)
      requires WorldOk(world) && envelope.Valid() && Apart() && TheHub() == h && HubOk(h)
      modifies this`routes, consumers
      ensures Valid() && consumers.repr == old(consumers.repr)
      ensures Model() == old(Model()).(hub := Basics(h))
    {
      SetConsumer(EventStation, [EventTag]);
      SetConsumer(RequestStation, [RequestTag]);
    }

    method InstallRuntimes(ghost h: Hub)
      requires Valid() && TheHub() == h
      modifies this`routes, consumers
      ensures Valid() && fresh(consumers.repr - old(consumers.repr))
      ensures Model() == old(Model()).(hub := Runtimes(world.plugins, h))
    {
      if world.plugins.local {
        InstallLocal();
      }
      if world.plugins.mt {
        InstallMt();
      }
    }

    method InstallLocal()
      requires Valid()
      modifies this`routes, consumers
      ensures Valid() && fresh(consumers.repr - old(consumers.repr))
      ensures Model() ==
              old(Model()).(hub := Hubs.SetConsumer(old(TheHub()), LocalTasks({}, []), [StartLocalTag, StopTag]))
    {
      var local := new LocalTaskRuntime();
      SetConsumer(LocalStation(local), [StartLocalTag, StopTag]);
    }

    method InstallMt()
      requires Valid()
      modifies this`routes, consumers
      ensures Valid() && fresh(consumers.repr - old(consumers.repr))
      ensures Model() ==
              old(Model()).(hub := Hubs.SetConsumer(old(TheHub()), MtTasks({}, []), [StartMtTag, StopTag]))
    {
      var mt := new MtTaskRuntime();
      SetConsumer(MtStation(mt), [StartMtTag, StopTag]);
    }

    /** The history knows that the consumers were cleared. */
    ghost function Swept(m: MachineState): MachineState {
      m.(book := m.book.(ledger := m.book.ledger + [Cleared]))
    }

    method ClearConsumers()
      requires Valid()
      modifies this`routes, consumers, envelope.reconciler`ledger
      ensures Valid() && Model() == Swept(old(Model())).(hub := Defaults(world.plugins))
      ensures fresh(consumers.repr)
    {
      consumers.Clear();
      routes := map[];
      envelope.reconciler.ledger := envelope.reconciler.ledger + [Cleared];
      InstallDefaults();
    }

    /** Drop the routes of some types and every consumer that no other type still needs; those are
        handed back in slot order. */
    method RemoveConsumer(tags: seq<Tag>) returns (removed: seq<Seat>)
      requires Valid()
      modifies this`routes, consumers
      ensures Valid() && Model() == old(Model()).(hub := Hubs.RemoveConsumer(old(Model()).hub, tags))
      ensures var gone := Evicted(old(Model()).hub.store, Doomed(old(Model()).hub, tags), 0);
        |removed| == |gone| && forall k :: 0 <= k < |gone| ==> TenantOf(removed[k]) == gone[k]
    {
      ghost var h := TheHub();
      RemoveConsumerOk(h, tags);
      var affected := CutRoutes(tags);
      var still := Named(routes, routes.Keys);
      removed := SweepSlots(affected - still);
      assert TheHub() == Hubs.RemoveConsumer(h, tags);
    }

    method CutRoutes(tags: seq<Tag>) returns (affected: set<nat>)
      modifies this`routes
      ensures affected == Named(old(routes), set t | t in tags)
      ensures routes == Unrouted(old(routes), tags)
    {
      affected := {};
      for k := 0 to |tags|
        invariant affected == Named(old(routes), set t | t in tags[..k])
        invariant routes == Unrouted(old(routes), tags[..k])
      {
        assert tags[..k + 1] == tags[..k] + [tags[k]];
        if tags[k] in routes {
          affected := affected + (set j | j in routes[tags[k]]);
          routes := routes - {tags[k]};
        }
      }
      assert tags[..|tags|] == tags;
    }

    method SweepSlots(doomed: set<nat>) returns (removed: seq<Seat>)
      requires Apart() && StoreOk(consumers.Model())
      modifies consumers
      ensures Apart() && consumers.Model() == Sweep(old(consumers.Model()), doomed, 0)
      ensures var gone := Evicted(old(consumers.Model()), doomed, 0);
        |removed| == |gone| && forall k :: 0 <= k < |gone| ==> TenantOf(removed[k]) == gone[k]
    {
      removed := [];
      ghost var m, gone := consumers.Model(), [];
      for i := 0 to |consumers.slots|
        invariant Apart() && consumers.repr <= old(consumers.repr) && StoreOk(consumers.Model())
        invariant |consumers.slots| == |m.slots|
        invariant Sweep(m, doomed, 0) == Sweep(consumers.Model(), doomed, i)
        invariant Evicted(m, doomed, 0) == gone + Evicted(consumers.Model(), doomed, i)
        invariant |removed| == |gone| && forall k :: 0 <= k < |gone| ==> TenantOf(removed[k]) == gone[k]
      {
        ghost var s := consumers.Model();
        SweepStep(s, doomed, i);
        EvictStep(s, doomed, i, gone);
        var taken := SweepAt(doomed, i);
        JoinSeats(removed, gone, taken, Sacked(s, doomed, i));
        removed, gone := removed + taken, gone + Sacked(s, doomed, i);
      }
    }

    static lemma JoinSeats(a: seq<Seat>, x: seq<Tenant>, b: seq<Seat>, y: seq<Tenant>)
      requires |a| == |x| && forall k :: 0 <= k < |x| ==> TenantOf(a[k]) == x[k]
      requires |b| == |y| && forall k :: 0 <= k < |y| ==> TenantOf(b[k]) == y[k]
      ensures |a + b| == |x + y| && forall k :: 0 <= k < |x + y| ==> TenantOf((a + b)[k]) == (x + y)[k]
    {
    }

    /** Empty one slot, if it is doomed. */
    method SweepAt(doomed: set<nat>, i: nat) returns (taken: seq<Seat>)
      requires Apart() && StoreOk(consumers.Model()) && i < |consumers.slots|
      modifies consumers
      ensures Apart() && StoreOk(consumers.Model()) && consumers.repr <= old(consumers.repr)
      ensures consumers.Model() == if i in doomed then Remove(old(consumers.Model()), i) else old(consumers.Model())
      ensures var sacked := Sacked(old(consumers.Model()), doomed, i);
        |taken| == |sacked| && forall k :: 0 <= k < |sacked| ==> TenantOf(taken[k]) == sacked[k]
    {
      taken := [];
      if i in doomed {
        var seat := consumers.RemoveAt(i);
        if seat.Some? {
          taken := [seat.value];
        }
      }
    }

    /** Let the consumer at a slot have the operation. */
    method TryConsumer(t: Ticket, op: Op, ghost next: nat, i: nat) returns (flow: OpFlow)
      requires Apart() && LiveAt(consumers.Slots(), i)
      modifies consumers.repr, readyEvents, pendingTransition, envelope.reconciler`ledger
      ensures Apart()
      ensures Attempted(Workbench(), flow) == Attempt(world.plugins, old(Workbench()), t, op, next, i)
    {
      ghost var b := Workbench();
      flow := consumers.ConsumeAt(world.plugins, i, t, op, readyEvents, pendingTransition);
      envelope.reconciler.ledger :=
        envelope.reconciler.ledger + [Tried(t, op, next, i)] + LastWords(b, b.slots[i].value.consumer, t, op, i, flow);
    }

    /** Route one committed operation: restart on a change of type, go on down the list otherwise. */
    method RouteOp(t: Ticket, first: Op)
      requires Ranked(world.plugins) && Apart()
      modifies consumers.repr, readyEvents, pendingTransition, envelope.reconciler`ledger
      ensures Apart() && Workbench() == Route(world.plugins, routes, old(Workbench()), t, first, 0)
    {
      ghost var goal := Route(world.plugins, routes, Workbench(), t, first, 0);
      var op, next, routing := first, 0, true;
      while routing
        invariant Apart()
        invariant goal == if routing then Route(world.plugins, routes, Workbench(), t, op, next) else Workbench()
        decreases routing, world.plugins.rank(op), |RouteOf(routes, TagOf(op))| - next
      {
        var indices := RouteOf(routes, TagOf(op));
        if next >= |indices| {
          envelope.reconciler.ledger := envelope.reconciler.ledger + [Unhandled(t, op)];
          routing := false;
        } else if !consumers.IsLive(indices[next]) {
          next := next + 1;
        } else {
          ghost var b := Workbench();
          NextRanks(world.plugins, b.slots[indices[next]].value.consumer, t, op, b.ready, b.slot);
          var flow := TryConsumer(t, op, next, indices[next]);
          if flow.Done? {
            routing := false;
          } else {
            next := if TagOf(flow.op) != TagOf(op) then 0 else next + 1;
            op := flow.op;
          }
        }
      }
    }

    /** Commit the pool and route its operations in order; routing stages nothing, so the pool is
        committed at most once. */
    method CommitPending() returns (progressed: bool)
      requires Valid()
      modifies consumers.repr, readyEvents, pendingTransition, envelope.reconciler
      ensures Model() == CommitPhase(world, old(Model())) && Valid()
      ensures progressed <==> old(envelope.reconciler.pendingOps) != []
    {
      ghost var m := Model();
      CommitHub(world, m);
      progressed := envelope.reconciler.pendingOps != [];
      if progressed {
        var batch := envelope.reconciler.TakePending();
        envelope.reconciler.ledger := envelope.reconciler.ledger + [Batch];
        assert Workbench() == BenchOf(m);
        for k := 0 to |batch|
          invariant Apart() && envelope.reconciler.Valid() && envelope.reconciler.pendingOps == []
          invariant envelope.reconciler.issued == m.book.pool.issued && envelope.reconciler.rules == m.book.pool.rules
          invariant Deliver(world.plugins, routes, BenchOf(m), batch) ==
                    Deliver(world.plugins, routes, Workbench(), batch[k..])
        {
          var e := batch[k];
          assert batch[k..][1..] == batch[k + 1..];
          envelope.reconciler.ledger := envelope.reconciler.ledger + [Committed(e.ticket, e.op)];
          RouteOp(e.ticket, e.op);
        }
      }
    }

    /** Drain every consumer in slot order. */
    method DrainConsumers() returns (any: bool)
      requires Valid()
      modifies consumers.repr, envelope.reconciler
      ensures Valid() && (Model(), any) == DrainPhase(world, old(Model()))
    {
      ghost var m := Model();
      ghost var goal := DrainFrom(world.plugins, m.hub.store.slots, 0, m.book);
      DrainTenancy(world.plugins, m.hub.store.slots, 0, m.book);
      TenancyKeepsHub(m, goal.slots);
      any := false;
      for i := 0 to |consumers.slots|
        invariant envelope.Valid() && Apart()
        invariant var rest := DrainFrom(world.plugins, consumers.Slots(), i, envelope.reconciler.Model());
          goal == Drains(rest.slots, rest.book, any || rest.any)
      {
        if consumers.slots[i].Some? {
          var flag := consumers.DrainAt(world.plugins, i, envelope.reconciler);
          any := any || flag;
        }
      }
    }

    /** Take the slot and run the transition. */
    method ApplyPending() returns (progressed: bool)
      requires Valid()
      modifies this`current, pendingTransition, envelope, envelope.reconciler
      ensures Valid() && Model() == ApplyPhase(world, old(Model()))
      ensures progressed <==> old(pendingTransition.pending).Some?
    {
      progressed := pendingTransition.pending.Some?;
      if progressed {
        var r := pendingTransition.pending.value;
        pendingTransition.pending := None;
        envelope.calls := envelope.calls + [Applied(r)];
        envelope.reconciler.ledger := envelope.reconciler.ledger + [Taken(r)];
        current := RunTransition(world.tree, world.behaviors, current, r.target, envelope);
      }
    }

    /** Dispatch one event and stage its declarative reply. */
    method DispatchEvent(e: Event)
      requires Valid()
      modifies envelope, envelope.reconciler
      ensures Valid() && Model() == DispatchOne(world, old(Model()), e)
    {
      envelope.calls := envelope.calls + [Dispatched(e)];
      var reply := RunDispatch(world.tree, world.behaviors, current, e, envelope);
      if reply.Transition? {
        var _ := envelope.reconciler.StageBoxed(RequestOp(Request(reply.target, NORMAL)), None);
      }
    }

    method DispatchReady() returns (progressed: bool)
      requires Valid()
      modifies readyEvents, envelope, envelope.reconciler
      ensures Valid() && Model() == DispatchPhase(world, old(Model()))
      ensures progressed <==> old(readyEvents.events) != []
    {
      progressed := readyEvents.events != [];
      while readyEvents.events != []
        invariant Valid()
        invariant DispatchPhase(world, old(Model())) == DispatchPhase(world, Model())
        decreases |readyEvents.events|
      {
        var e := readyEvents.events[0];
        readyEvents.events := readyEvents.events[1..];
        DispatchEvent(e);
      }
    }

    /** One turn of the loop: commit, drain, and unless something was drained apply and dispatch. */
    method TakeTurn() returns (stop: bool)
      requires Valid()
      modifies this`current, consumers.repr, readyEvents, pendingTransition, envelope, envelope.reconciler
      ensures Valid() && Stepped(Model(), stop) == MicroStep(world, old(Model()))
    {
      var committed := CommitPending();
      var drained := DrainConsumers();
      if drained {
        return false;
      }
      ghost var d := Model();
      var applied := ApplyPending();
      DispatchKeeps(world, Model());
      var dispatched := DispatchReady();
      stop := !(committed || applied || dispatched) && envelope.reconciler.pendingOps == []
        && readyEvents.events == [] && pendingTransition.pending == None;
    }

    /** Turn after turn until nothing is left to do. */
    method AdvanceWith(ghost k: Scale)
      requires Valid() && Lighter(world, k)
      modifies this`current, consumers.repr, readyEvents, pendingTransition, envelope, envelope.reconciler
      ensures Valid() && Model() == Advance(world, k, old(Model())) && Settled(Model())
    {
      var stop := false;
      while !stop
        invariant Valid()
        invariant Advance(world, k, old(Model())) == if stop then Model() else Advance(world, k, Model())
        invariant stop ==> Settled(Model())
        decreases !stop, Total(k, Model()), Mailboxes(k, Model()), |Model().book.pool.pending|
      {
        ghost var m := Model();
        stop := TakeTurn();
        if stop {
          StopSettles(world, m);
        } else {
          TurnLighter(world, k, m);
        }
      }
    }

    /** The first transition out of the detached state; refused once the machine has a state. */
    method Init(target: State, ghost k: Scale) returns (ok: bool)
      requires Valid() && Lighter(world, k)
      modifies this`current, consumers.repr, readyEvents, pendingTransition, envelope, envelope.reconciler
      ensures Valid() && ok == (old(current) == NIL)
      ensures Model() == if ok then Advance(world, k, React(world, old(Model()), Input.Init(target))) else old(Model())
    {
      if current != NIL {
        return false;
      }
      var _ := envelope.reconciler.StageBoxed(RequestOp(Request(target, NORMAL)), None);
      AdvanceWith(k);
      return true;
    }

    method Post(e: Event)
      requires Valid()
      modifies envelope.reconciler
      ensures Valid() && Model() == React(world, old(Model()), Submit(EventOp(e)))
    {
      var _ := envelope.reconciler.StageBoxed(EventOp(e), None);
    }

    method SetTransitionArbiter(arbiter: Arbiter)
      requires Valid()
      modifies envelope.reconciler
      ensures Valid() && Model() == old(Model()).(book := Rearbitrated(old(Model()).book, arbiter))
    {
      envelope.reconciler.InstallRule(REQUEST_RULE, RequestRule(arbiter));
      envelope.reconciler.ledger := envelope.reconciler.ledger + [Installed(arbiter)];
    }
  }
}
