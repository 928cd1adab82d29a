/** The consumers of operations: the built-in ones and, as arbitrary functions, everybody else's. */
module Consuming {
  import opened Base
  import opened Operations
  import opened Reconciling
  import opened Arbitration

  type CustomState(!new)

  /** A running task is known by its handle only; a mailbox holds what the tasks emitted. */
  datatype Consumer =
    | Events
    | Requests
    | LocalTasks(running: set<nat>, mailbox: seq<Op>)
    | MtTasks(running: set<nat>, mailbox: seq<Op>)
    | Custom(state: CustomState)

  /** `Next` passes an operation on, possibly a different one. */
  datatype OpFlow = Done | Next(op: Op)

  datatype Outcome = Outcome(state: CustomState, flow: OpFlow)

  datatype Drained = Drained(state: CustomState, offers: seq<Offer>, flag: bool)

  /** How custom consumers behave, which task runtimes are built in, and the rank that every
      change of type lowers. */
  datatype Plugins = Plugins(
    consume: (CustomState, Ticket, Op) -> Outcome,
    drain: CustomState -> Drained,
    rank: Op -> nat,
    local: bool,
    mt: bool)

  /** Routing terminates: passing on never raises the rank, changing the type lowers it. */
  ghost predicate Ranked(w: Plugins) {
    forall s, t, op :: var flow := w.consume(s, t, op).flow;
      flow.Next? ==> w.rank(flow.op) <= w.rank(op) && (TagOf(flow.op) != TagOf(op) ==> w.rank(flow.op) < w.rank(op))
  }

  /** A consumer's reaction; `ready` and `slot` are the machine's event queue and transition slot. */
  datatype Receipt = Receipt(consumer: Consumer, ready: seq<Event>, slot: Option<Request>, flow: OpFlow)

  function Consume(w: Plugins, c: Consumer, t: Ticket, op: Op, ready: seq<Event>, slot: Option<Request>): Receipt {
    match c
    case Events =>
      if op.EventOp? then Receipt(c, ready + [op.event], slot, Done) else Receipt(c, ready, slot, Next(op))
    case Requests =>
      if op.RequestOp? then Receipt(c, ready, Some(op.request), Done) else Receipt(c, ready, slot, Next(op))
    case LocalTasks(running, mailbox) =>
      if op.StartLocal? then Receipt(LocalTasks(running + {op.handle}, mailbox), ready, slot, Done)
      else if op.StopOp? then
        if op.handle in running then Receipt(LocalTasks(running - {op.handle}, mailbox), ready, slot, Done)
        else Receipt(c, ready, slot, if w.mt then Next(op) else Done)
      else Receipt(c, ready, slot, Next(op))
    case MtTasks(running, mailbox) =>
      if op.StartMt? then Receipt(MtTasks(running + {op.handle}, mailbox), ready, slot, Done)
      else if op.StopOp? then Receipt(MtTasks(running - {op.handle}, mailbox), ready, slot, Done)
      else Receipt(c, ready, slot, Next(op))
    case Custom(s) =>
      var o := w.consume(s, t, op);
      Receipt(Custom(o.state), ready, slot, o.flow)
  }

  datatype DrainResult = DrainResult(consumer: Consumer, book: Book, flag: bool)

  function Drain(w: Plugins, c: Consumer, b: Book): DrainResult {
    match c
    case LocalTasks(running, mailbox) => DrainResult(LocalTasks(running, []), StageAll(b, mailbox), mailbox != [])
    case MtTasks(running, mailbox) => DrainResult(MtTasks(running, []), StageAll(b, mailbox), mailbox != [])
    case Custom(s) =>
      var d := w.drain(s);
      DrainResult(Custom(d.state), StageOffers(b, d.offers), d.flag)
    case _ => DrainResult(c, b, false)
  }

  // ---- The built-in consumers as the objects that they are ----

  /** The event queue shared by the event consumer and the machine. */
  class EventQueue {
    var events: seq<Event>

    constructor ()
      ensures events == []
    {
      events := [];
    }

    /** `EventOpConsumer::consume`. */
    method ConsumeEvent(w: Plugins, t: Ticket, op: Op) returns (flow: OpFlow)
      modifies this
      ensures var r := Consume(w, Events, t, op, old(events), None); events == r.ready && flow == r.flow
    {
      if op.EventOp? {
        events := events + [op.event];
        flow := Done;
      } else {
        flow := Next(op);
      }
    }
  }

  /** The slot shared by the request consumer and the machine. */
  class TransitionSlot {
    var pending: Option<Request>

    constructor ()
      ensures pending == None
    {
      pending := None;
    }

    /** `RequestTransitionConsumer::consume`. */
    method ConsumeRequest(w: Plugins, t: Ticket, op: Op) returns (flow: OpFlow)
      modifies this
      ensures var r := Consume(w, Requests, t, op, [], old(pending)); pending == r.slot && flow == r.flow
    {
      if op.RequestOp? {
        pending := Some(op.request);
        flow := Done;
      } else {
        flow := Next(op);
      }
    }
  }

  class LocalTaskRuntime {
    var running: set<nat>
    var mailbox: seq<Op>

    ghost function Model(): Consumer reads this {
      LocalTasks(running, mailbox)
    }

    constructor ()
      ensures Model() == LocalTasks({}, [])
    {
      running, mailbox := {}, [];
    }

    method ConsumeTask(w: Plugins, t: Ticket, op: Op) returns (flow: OpFlow)
      modifies this
      ensures var r := Consume(w, old(Model()), t, op, [], None); Model() == r.consumer && flow == r.flow
    {
      if op.StartLocal? {
        running := running + {op.handle};
        flow := Done;
      } else if op.StopOp? {
        if op.handle in running {
          running := running - {op.handle};
          flow := Done;
        } else {
          flow := if w.mt then Next(StopOp(op.handle)) else Done;
        }
      } else {
        flow := Next(op);
      }
    }

    method DrainMailbox(w: Plugins, reconciler: Reconciler) returns (drained: bool)
      requires reconciler.Valid()
      modifies this, reconciler
      ensures reconciler.Valid()
      ensures var d := Drain(w, old(Model()), old(reconciler.Model()));
        Model() == d.consumer && reconciler.Model() == d.book && drained == d.flag
    {
      drained := false;
      while mailbox != []
        invariant reconciler.Valid() && running == old(running)
        invariant StageAll(old(reconciler.Model()), old(mailbox)) == StageAll(reconciler.Model(), mailbox)
        invariant drained || mailbox != [] <==> old(mailbox) != []
        decreases |mailbox|
      {
        drained := true;
        var op := mailbox[0];
        mailbox := mailbox[1..];
        var _ := reconciler.StageBoxed(op, None);
      }
    }
  }

  class MtTaskRuntime {
    var running: set<nat>
    var mailbox: seq<Op>

    ghost function Model(): Consumer reads this {
      MtTasks(running, mailbox)
    }

    constructor ()
      ensures Model() == MtTasks({}, [])
    {
      running, mailbox := {}, [];
    }

    method ConsumeTask(w: Plugins, t: Ticket, op: Op) returns (flow: OpFlow)
      modifies this
      ensures var r := Consume(w, old(Model()), t, op, [], None); Model() == r.consumer && flow == r.flow
    {
      if op.StartMt? {
        running := running + {op.handle};
        return Done;
      }
      if op.StopOp? {
        if op.handle in running {
          running := running - {op.handle};
        }
        return Done;
      }
      return Next(op);
    }

    method DrainMailbox(w: Plugins, reconciler: Reconciler) returns (drained: bool)
      requires reconciler.Valid()
      modifies this, reconciler
      ensures reconciler.Valid()
      ensures var d := Drain(w, old(Model()), old(reconciler.Model()));
        Model() == d.consumer && reconciler.Model() == d.book && drained == d.flag
    {
      drained := false;
      while mailbox != []
        invariant reconciler.Valid() && running == old(running)
        invariant StageAll(old(reconciler.Model()), old(mailbox)) == StageAll(reconciler.Model(), mailbox)
        invariant drained || mailbox != [] <==> old(mailbox) != []
        decreases |mailbox|
      {
        drained := true;
        var op := mailbox[0];
        mailbox := mailbox[1..];
        var _ := reconciler.StageBoxed(op, None);
      }
    }
  }

  /** Somebody else's consumer, whose behavior `Plugins` gives. */
  class CustomConsumer {
    var state: CustomState

    ghost function Model(): Consumer reads this {
      Custom(state)
    }

    constructor (state: CustomState)
      ensures Model() == Custom(state)
    {
      this.state := state;
    }

    method ConsumeAny(w: Plugins, t: Ticket, op: Op) returns (flow: OpFlow)
      modifies this
      ensures var r := Consume(w, old(Model()), t, op, [], None); Model() == r.consumer && flow == r.flow
    {
      var o := w.consume(state, t, op);
      state, flow := o.state, o.flow;
    }

    method DrainOffers(w: Plugins, reconciler: Reconciler) returns (drained: bool)
      requires reconciler.Valid()
      modifies this, reconciler
      ensures reconciler.Valid()
      ensures var d := Drain(w, old(Model()), old(reconciler.Model()));
        Model() == d.consumer && reconciler.Model() == d.book && drained == d.flag
    {
      var d := w.drain(state);
      state := d.state;
      for k := 0 to |d.offers|
        invariant reconciler.Valid() && state == d.state
        invariant StageOffers(old(reconciler.Model()), d.offers) == StageOffers(reconciler.Model(), d.offers[k..])
      {
        assert d.offers[k..][1..] == d.offers[k + 1..];
        var _ := reconciler.StageBoxed(d.offers[k].op, d.offers[k].priority);
      }
      drained := d.flag;
    }
  }
}
