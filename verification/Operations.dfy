/** The operations that flow through a machine, their tickets and the ledger of what became of them. */
module Operations {
  import opened Base
  import opened StateForest

  type Event(!new)
  type Parcel(!new)

  /** A wish to move to `target`; higher priorities win arbitration. */
  datatype Request = Request(target: State, priority: nat)

  const NORMAL: nat := 100

  /** The operation types that the built-in consumers know, and everybody else's. */
  datatype Op =
    | EventOp(event: Event)
    | RequestOp(request: Request)
    | StartLocal(handle: nat)
    | StartMt(handle: nat)
    | StopOp(handle: nat)
    | CustomOp(id: nat, parcel: Parcel)

  datatype Tag = EventTag | RequestTag | StartLocalTag | StartMtTag | StopTag | CustomTag(id: nat)

  function TagOf(op: Op): Tag {
    match op
    case EventOp(_) => EventTag
    case RequestOp(_) => RequestTag
    case StartLocal(_) => StartLocalTag
    case StartMt(_) => StartMtTag
    case StopOp(_) => StopTag
    case CustomOp(id, _) => CustomTag(id)
  }

  datatype Ticket = Ticket(index: nat, priority: nat)

  /** The order of the pool: higher priority first, then the smaller index. */
  predicate Before(a: Ticket, b: Ticket) {
    a.priority > b.priority || (a.priority == b.priority && a.index < b.index)
  }

  datatype Entry = Entry(ticket: Ticket, op: Op)

  type Arbiter = (Request, Request) -> bool

  /** What becomes of operations, in the order in which it happens. */
  datatype Note =
    | Staged(ticket: Ticket, op: Op)        // kept by the rules and now pending
    | Rejected(ticket: Ticket, op: Op)      // dropped by a rule
    | Displaced(ticket: Ticket, op: Op)     // removed from the pool by a rule
    | Withdrawn(ticket: Ticket, op: Op)     // removed from the pool from outside
    | Lost(ticket: Ticket, op: Op)          // replaced in the pool by a later one under the same ticket
    | Batch                                 // the whole pool is committed
    | Committed(ticket: Ticket, op: Op)     // handed to the router
    | Tried(ticket: Ticket, op: Op, next: nat, slot: nat)
    | Consumed(ticket: Ticket, slot: nat)
    | Unhandled(ticket: Ticket, op: Op)
    | Seated(request: Request)              // put into the transition slot
    | Overwritten(request: Request)         // replaced in the transition slot before it was applied
    | Taken(request: Request)               // taken from the transition slot and applied
    | Installed(arbiter: Arbiter)           // the arbiter is replaced
    | Cleared                               // all consumers are dropped for fresh default ones
}
