/** The consumers as objects in the slots of a store, shared by the routes that name their slots. */
module Stations {
  import opened Base
  import opened Operations
  import opened Reconciling
  import opened Consuming
  import opened Hubs

  /** A consumer object; events and requests are consumed into objects that the machine holds too. */
  datatype Station =
    | EventStation
    | RequestStation
    | LocalStation(local: LocalTaskRuntime)
    | MtStation(mt: MtTaskRuntime)
    | CustomStation(custom: CustomConsumer)

  datatype Seat = Seat(station: Station, tags: seq<Tag>)

  ghost function Objects(s: Station): set<object> {
    match s
    case LocalStation(local) => {local}
    case MtStation(mt) => {mt}
    case CustomStation(custom) => {custom}
    case _ => {}
  }

  ghost function ConsumerOf(s: Station): Consumer reads Objects(s) {
    match s
    case EventStation => Events
    case RequestStation => Requests
    case LocalStation(local) => local.Model()
    case MtStation(mt) => mt.Model()
    case CustomStation(custom) => custom.Model()
  }

  ghost function TenantOf(s: Seat): Tenant reads Objects(s.station) {
    Tenant(ConsumerOf(s.station), s.tags)
  }

  class ConsumerStore {
    var slots: seq<Option<Seat>>
    var free: seq<nat>
    ghost var repr: set<object>

    /** No consumer sits in two slots. */
    ghost predicate Valid() reads this {
      && this !in repr
      && (forall i :: 0 <= i < |slots| && slots[i].Some? ==> Objects(slots[i].value.station) <= repr)
      && forall i, j :: 0 <= i < j < |slots| && slots[i].Some? && slots[j].Some? ==>
           Objects(slots[i].value.station) !! Objects(slots[j].value.station)
    }

    ghost function SlotAt(i: nat): Option<Tenant>
      requires Valid() && i < |slots|
      reads this, repr
    {
      if slots[i].Some? then Some(TenantOf(slots[i].value)) else None
    }

    ghost function Slots(): (r: seq<Option<Tenant>>)
      requires Valid()
      reads this, repr
      ensures |r| == |slots| && forall i :: 0 <= i < |slots| ==> r[i] == SlotAt(i)
    {
      seq(|slots|, i requires 0 <= i < |slots| && Valid() reads this, repr => SlotAt(i))
    }

    ghost function Model(): Store
      requires Valid()
      reads this, repr
    {
      Store(Slots(), free)
    }

    predicate IsLive(i: nat) reads this {
      i < |slots| && slots[i].Some?
    }

    constructor ()
      ensures Valid() && Model() == Store([], []) && repr == {}
    {
      slots, free, repr := [], [], {};
    }

    method Insert(seat: Seat) returns (index: nat)
      requires Valid() && StoreOk(Model()) && Objects(seat.station) !! repr && this !in Objects(seat.station)
      modifies this
      ensures Valid() && repr == old(repr) + Objects(seat.station)
      ensures Placed(Model(), index) == Place(old(Model()), TenantOf(seat)) && StoreOk(Model())
    {
      ghost var m := Model();
      PlaceOk(m, TenantOf(seat));
      repr := repr + Objects(seat.station);
      if free != [] {
        var n := |free| - 1;
        index := free[n];
        assert index in free;
        free := free[..n];
        slots := slots[index := Some(seat)];
      } else {
        slots := slots + [Some(seat)];
        index := |slots| - 1;
      }
      assert Model() == Place(m, TenantOf(seat)).store;
    }

    method RemoveAt(index: nat) returns (taken: Option<Seat>)
      requires Valid() && StoreOk(Model())
      modifies this
      ensures Valid() && repr <= old(repr)
      ensures Model() == Remove(old(Model()), index) && StoreOk(Model())
      ensures taken.Some? <==> Live(old(Model()), index)
      ensures taken.Some? ==> Some(TenantOf(taken.value)) == old(Slots()[index])
    {
      ghost var m := Model();
      RemoveOk(m, index);
      taken := None;
      if index < |slots| {
        taken := slots[index];
        if taken.Some? {
          slots := slots[index := None];
          free := free + [index];
          repr := repr - Objects(taken.value.station);
        }
      }
      assert Model() == Remove(m, index);
    }

    method Clear()
      modifies this
      ensures Valid() && Model() == Store([], []) && repr == {}
    {
      slots, free, repr := [], [], {};
    }

    /** The consumer at a slot is offered the operation; all others are untouched. */
    method ConsumeAt(w: Plugins, i: nat, t: Ticket, op: Op, queue: EventQueue, slot: TransitionSlot)
      returns (flow: OpFlow)
      requires Valid() && i < |slots| && slots[i].Some? && queue !in repr && slot !in repr
      modifies repr, queue, slot
      ensures Valid()
      ensures var u := old(SlotAt(i)).value;
        var r := Consume(w, u.consumer, t, op, old(queue.events), old(slot.pending));
        && Slots() == old(Slots())[i := Some(u.(consumer := r.consumer))]
        && queue.events == r.ready && slot.pending == r.slot && flow == r.flow
    {
      match slots[i].value.station
      case EventStation => flow := queue.ConsumeEvent(w, t, op);
      case RequestStation => flow := slot.ConsumeRequest(w, t, op);
      case LocalStation(local) => flow := local.ConsumeTask(w, t, op);
      case MtStation(mt) => flow := mt.ConsumeTask(w, t, op);
      case CustomStation(custom) => flow := custom.ConsumeAny(w, t, op);
    }

    /** The consumer at a slot stages what it has; all others are untouched. */
    method DrainAt(w: Plugins, i: nat, reconciler: Reconciler) returns (flag: bool)
      requires Valid() && i < |slots| && slots[i].Some? && reconciler.Valid() && reconciler !in repr
      modifies repr, reconciler
      ensures Valid() && reconciler.Valid()
      ensures var u := old(SlotAt(i)).value; var d := Drain(w, u.consumer, old(reconciler.Model()));
        && Slots() == old(Slots())[i := Some(u.(consumer := d.consumer))]
        && reconciler.Model() == d.book && flag == d.flag
    {
      match slots[i].value.station
      case LocalStation(local) => flag := local.DrainMailbox(w, reconciler);
      case MtStation(mt) => flag := mt.DrainMailbox(w, reconciler);
      case CustomStation(custom) => flag := custom.DrainOffers(w, reconciler);
      case _ => flag := false;
    }
  }
}
