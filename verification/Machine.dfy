/** One machine: its state, the phases of a microstep, and everything that can happen to it. */
module Machines {
  import opened Base
  import opened StateForest
  import opened Operations
  import opened Reconciling
  import opened Arbitration
  import opened Running
  import opened Consuming
  import opened Hubs
  import opened Routing

  /** What a machine is built on and never changes. */
  datatype World = World(tree: Forest, behaviors: Behaviors, plugins: Plugins)

  ghost predicate WorldOk(w: World) {
    Shaped(w.tree) && Ranked(w.plugins)
  }

  datatype MachineState = MachineState(
    current: State,
    context: Context,
    book: Book,
    ready: seq<Event>,
    slot: Option<Request>,
    hub: Hub,
    calls: seq<Call>)

  function Fresh(w: World, context: Context): MachineState {
    MachineState(NIL, context,
            Book(Pool(0, [RuleSlot(REQUEST_RULE, RequestRule(ByPriority()))], []), [Installed(ByPriority())]),
            [], None, Defaults(w.plugins), [])
  }

  // ---- The phases of a microstep ----

  function WithSlots(m: MachineState, slots: Slots): MachineState {
    m.(hub := m.hub.(store := m.hub.store.(slots := slots)))
  }

  function BenchOf(m: MachineState): Bench {
    Bench(m.hub.store.slots, m.ready, m.slot, m.book.ledger + [Batch])
  }

  function FromBench(m: MachineState, b: Bench): MachineState {
    WithSlots(m, b.slots).(book := Book(m.book.pool.(pending := []), b.ledger), ready := b.ready, slot := b.slot)
  }

  /** Commit the pool, if it holds anything. */
  function CommitPhase(w: World, m: MachineState): MachineState
    requires WorldOk(w)
  {
    if m.book.pool.pending == [] then m
    else FromBench(m, Deliver(w.plugins, m.hub.routes, BenchOf(m), m.book.pool.pending))
  }

  datatype Drains = Drains(slots: Slots, book: Book, any: bool)

  /** Drain the consumers from slot `i` on, in slot order. */
  function DrainFrom(w: Plugins, slots: Slots, i: nat, b: Book): Drains
    requires i <= |slots|
    decreases |slots| - i
  {
    if i == |slots| then Drains(slots, b, false)
    else if slots[i].None? then DrainFrom(w, slots, i + 1, b)
    else
      var d := Drain(w, slots[i].value.consumer, b);
      var rest := DrainFrom(w, slots[i := Some(slots[i].value.(consumer := d.consumer))], i + 1, d.book);
      Drains(rest.slots, rest.book, d.flag || rest.any)
  }

  function DrainPhase(w: World, m: MachineState): (MachineState, bool) {
    var d := DrainFrom(w.plugins, m.hub.store.slots, 0, m.book);
    (WithSlots(m, d.slots).(book := d.book), d.any)
  }

  /** Take the slot and run the transition it holds. */
  function ApplyPhase(w: World, m: MachineState): MachineState
    requires WorldOk(w)
  {
    if m.slot.None? then m
    else
      var r := m.slot.value;
      var t := TransitionTrace(w.tree, w.behaviors, m.current, r.target, m.context);
      m.(current := r.target, context := t.context, slot := None,
         calls := m.calls + [Applied(r)] + t.calls,
         book := StageAll(m.book.(ledger := m.book.ledger + [Taken(r)]), t.ops))
  }

  /** A declarative reply is staged like a request without a priority. */
  function StageReply(b: Book, reply: EventReply): Book {
    if reply.Transition? then Stage(b, RequestOp(Request(reply.target, NORMAL)), None) else b
  }

  function DispatchOne(w: World, m: MachineState, e: Event): MachineState
    requires WorldOk(w)
  {
    var a := Bubble(w.tree, w.behaviors, m.current, m.current, e, m.context);
    m.(context := a.trace.context,
       calls := m.calls + [Dispatched(e)] + a.trace.calls,
       book := StageReply(StageAll(m.book, a.trace.ops), a.reply))
  }

  /** Dispatch the ready events, oldest first. */
  function DispatchPhase(w: World, m: MachineState): MachineState
    requires WorldOk(w)
    decreases |m.ready|
  {
    if m.ready == [] then m
    else DispatchPhase(w, DispatchOne(w, m.(ready := m.ready[1..]), m.ready[0]))
  }

  datatype Stepped = Stepped(machine: MachineState, stop: bool)

  /** One turn of the advance loop. */
  function MicroStep(w: World, m: MachineState): Stepped
    requires WorldOk(w)
  {
    var committed := CommitPhase(w, m);
    var (drained, any) := DrainPhase(w, committed);
    if any then Stepped(drained, false)
    else
      var end := DispatchPhase(w, ApplyPhase(w, drained));
      var progressed := m.book.pool.pending != [] || drained.slot.Some? || drained.ready != [];
      Stepped(end, !progressed && end.book.pool.pending == [])
  }

  // ---- Everything that can happen to a machine ----

  /** Calls from outside, mailbox arrivals, and the turns of `advance`, in any interleaving. */
  datatype Input =
    | Turn                                         // one turn of the advance loop
    | Init(target: State)                          // the guarded request that `init` stages
    | Submit(op: Op)                               // `post` and every handle or envelope in use outside
    | Mail(slot: nat, op: Op)                      // a task emits into its consumer's mailbox
    | Poke(slot: nat, state: CustomState)          // a custom consumer changes from outside
    | Register(consumer: Consumer, tag: Tag, more: seq<Tag>)   // for one type or several
    | Unregister(tags: seq<Tag>)
    | Reset                                        // `clear_consumers`
    | Arbitrate(arbiter: Arbiter)
    | Edit(context: Context)                       // through `context_mut`

  function Reseat(slots: Slots, i: nat, c: Consumer): Slots
    requires LiveAt(slots, i)
  {
    slots[i := Some(slots[i].value.(consumer := c))]
  }

  function Arrive(slots: Slots, i: nat, op: Op): Slots {
    if !LiveAt(slots, i) then slots
    else
      match slots[i].value.consumer
      case LocalTasks(running, mailbox) => Reseat(slots, i, LocalTasks(running, mailbox + [op]))
      case MtTasks(running, mailbox) => Reseat(slots, i, MtTasks(running, mailbox + [op]))
      case _ => slots
  }

  function Poked(slots: Slots, i: nat, state: CustomState): Slots {
    if LiveAt(slots, i) && slots[i].value.consumer.Custom? then Reseat(slots, i, Custom(state)) else slots
  }

  /** Another arbiter from now on. */
  function Rearbitrated(b: Book, a: Arbiter): Book {
    Book(b.pool.(rules := AddRule(b.pool.rules, REQUEST_RULE, RequestRule(a))), b.ledger + [Installed(a)])
  }

  function React(w: World, m: MachineState, x: Input): MachineState
    requires WorldOk(w) && HubOk(m.hub)
  {
    match x
    case Turn => MicroStep(w, m).machine
    case Init(target) =>
      if m.current != NIL then m else m.(book := Stage(m.book, RequestOp(Request(target, NORMAL)), None))
    case Submit(op) => m.(book := Stage(m.book, op, None))
    case Mail(i, op) => WithSlots(m, Arrive(m.hub.store.slots, i, op))
    case Poke(i, state) => WithSlots(m, Poked(m.hub.store.slots, i, state))
    case Register(c, tag, more) => m.(hub := SetConsumer(m.hub, c, [tag] + more))
    case Unregister(tags) => m.(hub := RemoveConsumer(m.hub, tags))
    case Reset => m.(hub := Defaults(w.plugins), book := m.book.(ledger := m.book.ledger + [Cleared]))
    case Arbitrate(a) => m.(book := Rearbitrated(m.book, a))
    case Edit(context) => m.(context := context)
  }

  function Run(w: World, m: MachineState, inputs: seq<Input>): (r: MachineState)
    requires WorldOk(w) && HubOk(m.hub)
    ensures HubOk(r.hub)
    decreases |inputs|
  {
    if inputs == [] then m
    else
      ReactHub(w, m, inputs[0]);
      Run(w, React(w, m, inputs[0]), inputs[1..])
  }

  // ---- The hub stays exact over every run ----

  /** The same slots are live, for the same operation types. */
  ghost predicate SameTenancy(a: Slots, b: Slots) {
    |a| == |b| && forall i: nat :: LiveAt(a, i) == LiveAt(b, i) && (LiveAt(a, i) ==> a[i].value.tags == b[i].value.tags)
  }

  lemma TenancyKeepsHub(m: MachineState, slots: Slots)
    requires HubOk(m.hub) && SameTenancy(m.hub.store.slots, slots)
    ensures HubOk(WithSlots(m, slots).hub)
  {
    var h, r := m.hub, WithSlots(m, slots).hub;
    forall i: nat ensures i in r.store.free <==> i < |slots| && slots[i].None? {
      assert LiveAt(slots, i) == LiveAt(h.store.slots, i);
    }
    forall i: nat ensures Live(r.store, i) == Live(h.store, i)
      && (Live(h.store, i) ==> r.store.slots[i].value.tags == h.store.slots[i].value.tags)
    {
      assert LiveAt(slots, i) == LiveAt(h.store.slots, i);
    }
  }

  lemma {:induction false} DeliverTenancy(w: Plugins, routes: map<Tag, seq<nat>>, b: Bench, batch: seq<Entry>)
    requires Ranked(w)
    ensures SameTenancy(b.slots, Deliver(w, routes, b, batch).slots)
    decreases |batch|
  {
    if batch != [] {
      var e := batch[0];
      var b1 := b.(ledger := b.ledger + [Committed(e.ticket, e.op)]);
      var b2 := Route(w, routes, b1, e.ticket, e.op, 0);
      forall i: nat
        ensures LiveAt(b.slots, i) == LiveAt(b2.slots, i)
        ensures LiveAt(b.slots, i) ==> b.slots[i].value.tags == b2.slots[i].value.tags
      {
        RouteLive(w, routes, b1, e.ticket, e.op, 0, i);
      }
      RouteLive(w, routes, b1, e.ticket, e.op, 0, 0);
      DeliverTenancy(w, routes, b2, batch[1..]);
    }
  }

  lemma {:induction false} DrainTenancy(w: Plugins, slots: Slots, i: nat, b: Book)
    requires i <= |slots|
    ensures SameTenancy(slots, DrainFrom(w, slots, i, b).slots)
    decreases |slots| - i
  {
    if i < |slots| {
      if slots[i].None? {
        DrainTenancy(w, slots, i + 1, b);
      } else {
        var d := Drain(w, slots[i].value.consumer, b);
        DrainTenancy(w, slots[i := Some(slots[i].value.(consumer := d.consumer))], i + 1, d.book);
      }
    }
  }

  lemma {:induction false} DispatchKeeps(w: World, m: MachineState)
    requires WorldOk(w)
    ensures var r := DispatchPhase(w, m);
      r.hub == m.hub && r.current == m.current && r.slot == m.slot && r.ready == []
    decreases |m.ready|
  {
    if m.ready != [] {
      DispatchKeeps(w, DispatchOne(w, m.(ready := m.ready[1..]), m.ready[0]));
    }
  }

  lemma CommitHub(w: World, m: MachineState)
    requires WorldOk(w) && HubOk(m.hub)
    ensures HubOk(CommitPhase(w, m).hub)
  {
    DeliverTenancy(w.plugins, m.hub.routes, BenchOf(m), m.book.pool.pending);
    TenancyKeepsHub(m, Deliver(w.plugins, m.hub.routes, BenchOf(m), m.book.pool.pending).slots);
  }

  lemma MicroHub(w: World, m: MachineState)
    requires WorldOk(w) && HubOk(m.hub)
    ensures HubOk(MicroStep(w, m).machine.hub)
  {
    CommitHub(w, m);
    var c := CommitPhase(w, m);
    DrainTenancy(w.plugins, c.hub.store.slots, 0, c.book);
    TenancyKeepsHub(c, DrainFrom(w.plugins, c.hub.store.slots, 0, c.book).slots);
    DispatchKeeps(w, ApplyPhase(w, DrainPhase(w, c).0));
  }

  /** Nothing that happens to a machine leaves a dangling route, a leaked consumer or a wrong free
      list; the route table and the slots fit over every run. */
  lemma ReactHub(w: World, m: MachineState, x: Input)
    requires WorldOk(w) && HubOk(m.hub)
    ensures HubOk(React(w, m, x).hub)
  {
    match x
    case Turn => MicroHub(w, m);
    case Mail(i, op) => TenancyKeepsHub(m, Arrive(m.hub.store.slots, i, op));
    case Poke(i, state) => TenancyKeepsHub(m, Poked(m.hub.store.slots, i, state));
    case Register(c, tag, more) => SetConsumerOk(m.hub, c, [tag] + more);
    case Unregister(tags) => RemoveConsumerOk(m.hub, tags);
    case _ =>
  }
}
