/** The consumer slots, their free list, and the routes from operation types to slots. */
module Hubs {
  import opened Base
  import opened Operations
  import opened Consuming

  /** A registered consumer with the operation types it was registered for. */
  datatype Tenant = Tenant(consumer: Consumer, tags: seq<Tag>)

  datatype Store = Store(slots: seq<Option<Tenant>>, free: seq<nat>)

  datatype Hub = Hub(store: Store, routes: map<Tag, seq<nat>>)

  datatype Placed = Placed(store: Store, index: nat)

  ghost predicate StoreOk(s: Store) {
    && NoDup(s.free)
    && forall i: nat :: i in s.free <==> i < |s.slots| && s.slots[i].None?
  }

  predicate Live(s: Store, i: nat) {
    i < |s.slots| && s.slots[i].Some?
  }

  /** The most recently freed slot is used first; without one the store grows. */
  function Place(s: Store, c: Tenant): Placed
    requires StoreOk(s)
  {
    if s.free == [] then Placed(Store(s.slots + [Some(c)], []), |s.slots|)
    else
      var n := |s.free| - 1;
      assert s.free[n] in s.free;
      Placed(Store(s.slots[s.free[n] := Some(c)], s.free[..n]), s.free[n])
  }

  function Remove(s: Store, i: nat): Store {
    if Live(s, i) then Store(s.slots[i := None], s.free + [i]) else s
  }

  lemma PlaceOk(s: Store, c: Tenant)
    requires StoreOk(s)
    ensures StoreOk(Place(s, c).store) && !Live(s, Place(s, c).index)
    ensures Live(Place(s, c).store, Place(s, c).index)
    ensures Place(s, c).store.slots[Place(s, c).index] == Some(c)
    ensures forall i: nat :: Live(Place(s, c).store, i) <==> i == Place(s, c).index || Live(s, i)
    ensures forall i: nat :: Live(s, i) ==> Place(s, c).store.slots[i] == s.slots[i]
  {
    if s.free != [] {
      var n := |s.free| - 1;
      assert s.free[n] in s.free;
      forall i: nat ensures i in s.free[..n] <==> i in s.free && i != s.free[n] {
        if i in s.free && i != s.free[n] {
          var k :| 0 <= k < |s.free| && s.free[k] == i;
          assert s.free[..n][k] == i;
        }
      }
    }
  }

  lemma RemoveOk(s: Store, i: nat)
    requires StoreOk(s)
    ensures StoreOk(Remove(s, i))
    ensures forall j: nat :: Live(Remove(s, i), j) <==> Live(s, j) && j != i
    ensures forall j: nat :: Live(Remove(s, i), j) ==> Remove(s, i).slots[j] == s.slots[j]
  {
    var r := Remove(s, i);
    if Live(s, i) {
      forall j: nat ensures j in r.free <==> j < |r.slots| && r.slots[j].None? {
        if j == i { assert r.free[|s.free|] == i; }
        if j in s.free {
          var k :| 0 <= k < |s.free| && s.free[k] == j;
          assert r.free[k] == j;
        }
      }
    }
  }

  /** The slot freed last is used first: placing a consumer again undoes its removal. */
  lemma PlaceUndoesRemove(s: Store, i: nat)
    requires StoreOk(s) && Live(s, i)
    ensures StoreOk(Remove(s, i)) && Place(Remove(s, i), s.slots[i].value) == Placed(s, i)
  {
    RemoveOk(s, i);
    var r := Remove(s, i);
    assert r.free[|r.free| - 1] == i && r.free[..|r.free| - 1] == s.free;
    assert r.slots[i := s.slots[i]] == s.slots;
  }

  // ---- Routes ----

  function RouteOf(routes: map<Tag, seq<nat>>, tag: Tag): seq<nat> {
    if tag in routes then routes[tag] else []
  }

  function AddRoutes(routes: map<Tag, seq<nat>>, tags: seq<Tag>, i: nat): (r: map<Tag, seq<nat>>)
    ensures forall t :: t in r <==> t in routes || t in tags
    ensures forall t :: t in r ==> forall j :: j in r[t] <==> j in RouteOf(routes, t) || (j == i && t in tags)
    ensures forall t :: t in r && t !in tags ==> r[t] == routes[t]
    decreases |tags|
  {
    if tags == [] then routes
    else AddRoutes(routes[tags[0] := RouteOf(routes, tags[0]) + [i]], tags[1..], i)
  }

  function Unrouted(routes: map<Tag, seq<nat>>, tags: seq<Tag>): map<Tag, seq<nat>> {
    map t | t in routes && t !in tags :: routes[t]
  }

  /** The slots named by the routes of the given types. */
  function Named(routes: map<Tag, seq<nat>>, tags: set<Tag>): set<nat> {
    set t, j | t in routes && t in tags && j in routes[t] :: j
  }

  /** Remove the doomed slots from `i` on, in ascending order. */
  function Sweep(s: Store, doomed: set<nat>, i: nat): (r: Store)
    requires i <= |s.slots|
    ensures |r.slots| == |s.slots|
    decreases |s.slots| - i
  {
    if i == |s.slots| then s
    else Sweep(if i in doomed then Remove(s, i) else s, doomed, i + 1)
  }

  /** The consumers that a sweep removes, in slot order. */
  function Evicted(s: Store, doomed: set<nat>, i: nat): seq<Tenant>
    requires i <= |s.slots|
    decreases |s.slots| - i
  {
    if i == |s.slots| then []
    else (if i in doomed && Live(s, i) then [s.slots[i].value] else []) + Evicted(s, doomed, i + 1)
  }

  /** Removing a slot already passed changes nothing about the ones to come. */
  lemma {:induction false} EvictedLater(s: Store, doomed: set<nat>, k: nat, i: nat)
    requires k < i <= |s.slots|
    ensures Evicted(Remove(s, k), doomed, i) == Evicted(s, doomed, i)
    decreases |s.slots| - i
  {
    if i < |s.slots| {
      EvictedLater(s, doomed, k, i + 1);
    }
  }

  lemma SweepStep(s: Store, doomed: set<nat>, i: nat)
    requires i < |s.slots|
    ensures var next := if i in doomed then Remove(s, i) else s;
      && Sweep(s, doomed, i) == Sweep(next, doomed, i + 1)
      && Evicted(s, doomed, i) ==
         (if i in doomed && Live(s, i) then [s.slots[i].value] else []) + Evicted(next, doomed, i + 1)
  {
    EvictedLater(s, doomed, i, i + 1);
  }

  /** The consumer, if there is one, that the sweep takes from slot `i`. */
  function Sacked(s: Store, doomed: set<nat>, i: nat): seq<Tenant> {
    if i in doomed && Live(s, i) then [s.slots[i].value] else []
  }

  lemma EvictStep(s: Store, doomed: set<nat>, i: nat, gone: seq<Tenant>)
    requires i < |s.slots|
    ensures var next := if i in doomed then Remove(s, i) else s;
      gone + Evicted(s, doomed, i) == gone + Sacked(s, doomed, i) + Evicted(next, doomed, i + 1)
  {
    SweepStep(s, doomed, i);
  }

  lemma {:induction false} SweepOk(s: Store, doomed: set<nat>, i: nat)
    requires StoreOk(s) && i <= |s.slots|
    ensures StoreOk(Sweep(s, doomed, i))
    ensures forall j: nat :: Live(Sweep(s, doomed, i), j) <==> Live(s, j) && !(j >= i && j in doomed)
    ensures forall j: nat :: Live(Sweep(s, doomed, i), j) ==> Sweep(s, doomed, i).slots[j] == s.slots[j]
    decreases |s.slots| - i
  {
    if i < |s.slots| {
      var next := if i in doomed then Remove(s, i) else s;
      RemoveOk(s, i);
      SweepOk(next, doomed, i + 1);
    }
  }

  function SetConsumer(h: Hub, c: Consumer, tags: seq<Tag>): Hub
    requires StoreOk(h.store)
  {
    var p := Place(h.store, Tenant(c, tags));
    Hub(p.store, AddRoutes(h.routes, tags, p.index))
  }

  /** The slots that only the given types route to. */
  function Doomed(h: Hub, tags: seq<Tag>): set<nat> {
    var routes := Unrouted(h.routes, tags);
    Named(h.routes, set t | t in tags) - Named(routes, routes.Keys)
  }

  function RemoveConsumer(h: Hub, tags: seq<Tag>): Hub {
    Hub(Sweep(h.store, Doomed(h, tags), 0), Unrouted(h.routes, tags))
  }

  function EmptyHub(): (h: Hub)
    ensures HubOk(h)
  {
    Hub(Store([], []), map[])
  }

  /** The event and the request consumer, which every machine starts with. */
  function Basics(h: Hub): (r: Hub)
    requires HubOk(h)
    ensures HubOk(r)
  {
    SetConsumerOk(h, Events, [EventTag]);
    var one := SetConsumer(h, Events, [EventTag]);
    SetConsumerOk(one, Requests, [RequestTag]);
    SetConsumer(one, Requests, [RequestTag])
  }

  /** The task runtimes that are built in. */
  function Runtimes(w: Plugins, h: Hub): (r: Hub)
    requires HubOk(h)
    ensures HubOk(r)
  {
    SetConsumerOk(h, LocalTasks({}, []), [StartLocalTag, StopTag]);
    var one := if w.local then SetConsumer(h, LocalTasks({}, []), [StartLocalTag, StopTag]) else h;
    SetConsumerOk(one, MtTasks({}, []), [StartMtTag, StopTag]);
    if w.mt then SetConsumer(one, MtTasks({}, []), [StartMtTag, StopTag]) else one
  }

  function BasicHub(): (h: Hub)
    ensures HubOk(h)
  {
    Basics(EmptyHub())
  }

  function Defaults(w: Plugins): (h: Hub)
    ensures HubOk(h)
  {
    Runtimes(w, BasicHub())
  }

  // ---- Garbage collection is exact ----

  /** A slot named by a route is live and was registered for that type; a live slot is named. */
  ghost predicate Wired(h: Hub) {
    && (forall t, i :: t in h.routes && i in h.routes[t] ==> Live(h.store, i) && t in h.store.slots[i].value.tags)
    && (forall i: nat :: Live(h.store, i) ==> exists t :: t in h.routes && i in h.routes[t])
  }

  ghost predicate HubOk(h: Hub) {
    StoreOk(h.store) && Wired(h)
  }

  lemma SetConsumerOk(h: Hub, c: Consumer, tags: seq<Tag>)
    requires HubOk(h) && tags != []
    ensures HubOk(SetConsumer(h, c, tags))
  {
    var p, r := Place(h.store, Tenant(c, tags)), SetConsumer(h, c, tags);
    PlaceOk(h.store, Tenant(c, tags));
    forall i: nat | Live(r.store, i) ensures exists t :: t in r.routes && i in r.routes[t] {
      if i == p.index {
        assert tags[0] in r.routes && i in r.routes[tags[0]];
      } else {
        var t :| t in h.routes && i in h.routes[t];
        assert i in r.routes[t];
      }
    }
    SetConsumerWired(h, c, tags);
  }

  lemma SetConsumerWired(h: Hub, c: Consumer, tags: seq<Tag>)
    requires HubOk(h)
    ensures var r := SetConsumer(h, c, tags);
      forall t, i :: t in r.routes && i in r.routes[t] ==> Live(r.store, i) && t in r.store.slots[i].value.tags
  {
    var p, r := Place(h.store, Tenant(c, tags)), SetConsumer(h, c, tags);
    PlaceOk(h.store, Tenant(c, tags));
    forall t, i | t in r.routes && i in r.routes[t]
      ensures Live(r.store, i) && t in r.store.slots[i].value.tags
    {
      if i != p.index || t !in tags {
        assert i in RouteOf(h.routes, t);
      }
    }
  }

  lemma RemoveConsumerOk(h: Hub, tags: seq<Tag>)
    requires HubOk(h)
    ensures HubOk(RemoveConsumer(h, tags))
  {
    var r := RemoveConsumer(h, tags);
    var affected := Named(h.routes, set t | t in tags);
    var still := Named(r.routes, r.routes.Keys);
    SweepOk(h.store, Doomed(h, tags), 0);
    forall t, i | t in r.routes && i in r.routes[t]
      ensures Live(r.store, i) && t in r.store.slots[i].value.tags
    {
      assert i in still && i in h.routes[t];
    }
    forall i: nat | Live(r.store, i) ensures exists t :: t in r.routes && i in r.routes[t] {
      var t :| t in h.routes && i in h.routes[t];
      if t in tags {
        assert i in affected;
        assert i in still;
      } else {
        assert t in r.routes;
      }
    }
  }

  /** The removed types have no route any more, the others keep theirs. */
  lemma RemoveConsumerRoutes(h: Hub, tags: seq<Tag>, t: Tag)
    ensures RouteOf(RemoveConsumer(h, tags).routes, t) == if t in tags then [] else RouteOf(h.routes, t)
  {
  }

  /** What survives a removal: exactly the consumers that some remaining type still routes to,
      untouched and at their places. */
  lemma RemoveConsumerExact(h: Hub, tags: seq<Tag>, i: nat)
    requires HubOk(h)
    ensures var r := RemoveConsumer(h, tags);
      && (Live(r.store, i) <==> exists t :: t in h.routes && t !in tags && i in h.routes[t])
      && (Live(r.store, i) ==> r.store.slots[i] == h.store.slots[i])
  {
    var r := RemoveConsumer(h, tags);
    RemoveConsumerOk(h, tags);
    SweepOk(h.store, Doomed(h, tags), 0);
    if t :| t in h.routes && t !in tags && i in h.routes[t] {
      assert t in r.routes && i in r.routes[t];
    }
    if Live(r.store, i) {
      var t :| t in r.routes && i in r.routes[t];
      assert t in h.routes && t !in tags && i in h.routes[t];
    }
  }

  /** How many consumers the slots hold. */
  function Population(slots: seq<Option<Tenant>>): nat {
    if slots == [] then 0 else (if slots[0].Some? then 1 else 0) + Population(slots[1..])
  }

  /** The consumer sits in a doomed slot, at `i` or later. */
  ghost predicate SitsDoomed(s: Store, doomed: set<nat>, i: nat, x: Tenant) {
    exists k: nat :: i <= k && k in doomed && Live(s, k) && s.slots[k].value == x
  }

  lemma {:induction false} PopulationLess(slots: seq<Option<Tenant>>, i: nat)
    requires i < |slots| && slots[i].Some?
    ensures Population(slots[i := None]) + 1 == Population(slots)
  {
    if i > 0 {
      assert slots[i := None][1..] == slots[1..][i - 1 := None];
      PopulationLess(slots[1..], i - 1);
    } else {
      assert slots[i := None][1..] == slots[1..];
    }
  }

  /** A sweep neither loses nor doubles a consumer: those handed back and those that stay make up
      the population, and handed back are exactly the ones in doomed slots. */
  lemma {:induction false} EvictedExact(s: Store, doomed: set<nat>, i: nat)
    requires i <= |s.slots|
    ensures Population(Sweep(s, doomed, i).slots) + |Evicted(s, doomed, i)| == Population(s.slots)
    ensures forall x :: x in Evicted(s, doomed, i) <==> SitsDoomed(s, doomed, i, x)
    decreases |s.slots| - i
  {
    if i < |s.slots| {
      var next := if i in doomed then Remove(s, i) else s;
      SweepStep(s, doomed, i);
      EvictedExact(next, doomed, i + 1);
      if i in doomed && Live(s, i) {
        PopulationLess(s.slots, i);
      }
      forall x ensures x in Evicted(s, doomed, i) <==> SitsDoomed(s, doomed, i, x) {
        EvictedOne(s, next, doomed, i, x);
      }
    }
  }

  /** They are handed back in the order of their slots. */
  lemma {:induction false} EvictedInOrder(s: Store, doomed: set<nat>, i: nat) returns (at: seq<nat>)
    requires i <= |s.slots|
    ensures |at| == |Evicted(s, doomed, i)|
    ensures forall j, k :: 0 <= j < k < |at| ==> at[j] < at[k]
    ensures forall k :: 0 <= k < |at| ==>
              i <= at[k] && at[k] in doomed && Live(s, at[k]) && s.slots[at[k]].value == Evicted(s, doomed, i)[k]
    decreases |s.slots| - i
  {
    if i == |s.slots| {
      at := [];
    } else {
      var rest := EvictedInOrder(s, doomed, i + 1);
      at := (if i in doomed && Live(s, i) then [i] else []) + rest;
    }
  }

  lemma EvictedOne(s: Store, next: Store, doomed: set<nat>, i: nat, x: Tenant)
    requires i < |s.slots| && next == if i in doomed then Remove(s, i) else s
    requires x in Evicted(next, doomed, i + 1) <==> SitsDoomed(next, doomed, i + 1, x)
    ensures x in Evicted(s, doomed, i) <==> SitsDoomed(s, doomed, i, x)
  {
    SweepStep(s, doomed, i);
    assert forall k: nat :: k > i ==> Live(next, k) == Live(s, k);
    if k: nat :| i <= k && k in doomed && Live(s, k) && s.slots[k].value == x {
      if k > i {
        assert Live(next, k) && next.slots[k].value == x;
      }
    }
    if k: nat :| i + 1 <= k && k in doomed && Live(next, k) && next.slots[k].value == x {
      assert Live(s, k) && s.slots[k].value == x;
    }
  }

  // ---- The first consumer of a type ----

  lemma {:induction false} AddRoutesFirst(routes: map<Tag, seq<nat>>, tags: seq<Tag>, i: nat, tag: Tag)
    requires RouteOf(routes, tag) != []
    ensures RouteOf(AddRoutes(routes, tags, i), tag) != []
    ensures RouteOf(routes, tag) <= RouteOf(AddRoutes(routes, tags, i), tag)
    decreases |tags|
  {
    if tags != [] {
      AddRoutesFirst(routes[tags[0] := RouteOf(routes, tags[0]) + [i]], tags[1..], i, tag);
    }
  }

  /** Registering appends to the routes and leaves every live consumer in place. */
  lemma RegisterFirst(h: Hub, c: Consumer, tags: seq<Tag>, tag: Tag)
    requires HubOk(h) && RouteOf(h.routes, tag) != []
    ensures var r := SetConsumer(h, c, tags);
      && RouteOf(h.routes, tag) <= RouteOf(r.routes, tag)
      && forall i :: i in h.routes[tag] ==> Live(h.store, i) && Live(r.store, i) && r.store.slots[i] == h.store.slots[i]
  {
    var p := Place(h.store, Tenant(c, tags));
    PlaceOk(h.store, Tenant(c, tags));
    AddRoutesFirst(h.routes, tags, p.index, tag);
    forall i | i in h.routes[tag] ensures Live(h.store, i) && Live(p.store, i) && p.store.slots[i] == h.store.slots[i] {
      assert i != p.index;
    }
  }

  /** Unregistering other types leaves the route of a type and its consumers in place. */
  lemma UnregisterFirst(h: Hub, tags: seq<Tag>, tag: Tag)
    requires HubOk(h) && RouteOf(h.routes, tag) != [] && tag !in tags
    ensures var r := RemoveConsumer(h, tags);
      && RouteOf(r.routes, tag) == h.routes[tag]
      && forall i :: i in h.routes[tag] ==> Live(h.store, i) && Live(r.store, i) && r.store.slots[i] == h.store.slots[i]
  {
    forall i | i in h.routes[tag]
      ensures Live(RemoveConsumer(h, tags).store, i) && RemoveConsumer(h, tags).store.slots[i] == h.store.slots[i]
    {
      RemoveConsumerExact(h, tags, i);
    }
  }

  // ---- The default consumers ----

  lemma AddOne(routes: map<Tag, seq<nat>>, t: Tag, i: nat)
    ensures AddRoutes(routes, [t], i) == routes[t := RouteOf(routes, t) + [i]]
  {
    assert [t][1..] == [];
  }

  lemma AddTwo(routes: map<Tag, seq<nat>>, t: Tag, u: Tag, i: nat)
    requires t != u
    ensures AddRoutes(routes, [t, u], i) == routes[t := RouteOf(routes, t) + [i]][u := RouteOf(routes, u) + [i]]
  {
    assert [t, u][1..] == [u];
    AddOne(routes[t := RouteOf(routes, t) + [i]], u, i);
  }

  const EVENTS_FIRST: Hub :=
    Hub(Store([Some(Tenant(Events, [EventTag]))], []), map[EventTag := [0]])

  const BASIC: Hub :=
    Hub(Store([Some(Tenant(Events, [EventTag])), Some(Tenant(Requests, [RequestTag]))], []),
        map[EventTag := [0], RequestTag := [1]])

  lemma BasicShape()
    ensures BasicHub() == BASIC
  {
    SetLast(EmptyHub(), Events, [EventTag]);
    AddOne(EmptyHub().routes, EventTag, 0);
    assert RouteOf(EmptyHub().routes, EventTag) + [0] == [0];
    assert SetConsumer(EmptyHub(), Events, [EventTag]).store == EVENTS_FIRST.store;
    SetLast(EVENTS_FIRST, Requests, [RequestTag]);
    AddOne(EVENTS_FIRST.routes, RequestTag, 1);
    assert RouteOf(EVENTS_FIRST.routes, RequestTag) + [1] == [1];
    assert SetConsumer(EVENTS_FIRST, Requests, [RequestTag]).store == BASIC.store;
  }

  /** Without free slots a new consumer goes to the end. */
  lemma SetLast(h: Hub, c: Consumer, tags: seq<Tag>)
    requires StoreOk(h.store) && h.store.free == []
    ensures SetConsumer(h, c, tags) ==
            Hub(Store(h.store.slots + [Some(Tenant(c, tags))], []), AddRoutes(h.routes, tags, |h.store.slots|))
  {
  }

  /** The built-in consumer at slot `i` is the first one tried for its type. */
  ghost predicate Leads(h: Hub, tag: Tag, i: nat, c: Consumer) {
    && RouteOf(h.routes, tag) != [] && h.routes[tag][0] == i
    && Live(h.store, i) && h.store.slots[i].value.consumer == c
  }

  lemma RegisterLeads(h: Hub, c: Consumer, tags: seq<Tag>, tag: Tag, i: nat, leader: Consumer)
    requires HubOk(h) && Leads(h, tag, i, leader)
    ensures Leads(SetConsumer(h, c, tags), tag, i, leader)
  {
    RegisterFirst(h, c, tags, tag);
    assert i in h.routes[tag];
  }

  /** Events and requests are served from the first two slots, whatever the task runtimes. */
  lemma DefaultsServe(w: Plugins)
    ensures Leads(Defaults(w), EventTag, 0, Events) && Leads(Defaults(w), RequestTag, 1, Requests)
  {
    BasicShape();
    var h, local, mt := BasicHub(), [StartLocalTag, StopTag], [StartMtTag, StopTag];
    RegisterLeads(h, LocalTasks({}, []), local, EventTag, 0, Events);
    RegisterLeads(h, LocalTasks({}, []), local, RequestTag, 1, Requests);
    SetConsumerOk(h, LocalTasks({}, []), local);
    var h1 := if w.local then SetConsumer(h, LocalTasks({}, []), local) else h;
    RegisterLeads(h1, MtTasks({}, []), mt, EventTag, 0, Events);
    RegisterLeads(h1, MtTasks({}, []), mt, RequestTag, 1, Requests);
  }

  /** The hub of a machine with the local task runtime only. */
  const LOCAL: Hub :=
    Hub(Store(BASIC.store.slots + [Some(Tenant(LocalTasks({}, []), [StartLocalTag, StopTag]))], []),
        BASIC.routes[StartLocalTag := [2]][StopTag := [2]])

  lemma LocalShape()
    ensures SetConsumer(BasicHub(), LocalTasks({}, []), [StartLocalTag, StopTag]) == LOCAL
  {
    BasicShape();
    SetLast(BASIC, LocalTasks({}, []), [StartLocalTag, StopTag]);
    AddTwo(BASIC.routes, StartLocalTag, StopTag, 2);
    assert RouteOf(BASIC.routes, StartLocalTag) + [2] == [2] && RouteOf(BASIC.routes, StopTag) + [2] == [2];
  }

  /** The hub of a machine with the multi-threaded task runtime only. */
  const MTONLY: Hub :=
    Hub(Store(BASIC.store.slots + [Some(Tenant(MtTasks({}, []), [StartMtTag, StopTag]))], []),
        BASIC.routes[StartMtTag := [2]][StopTag := [2]])

  lemma MtShape()
    ensures SetConsumer(BasicHub(), MtTasks({}, []), [StartMtTag, StopTag]) == MTONLY
  {
    BasicShape();
    SetLast(BASIC, MtTasks({}, []), [StartMtTag, StopTag]);
    AddTwo(BASIC.routes, StartMtTag, StopTag, 2);
    assert RouteOf(BASIC.routes, StartMtTag) + [2] == [2] && RouteOf(BASIC.routes, StopTag) + [2] == [2];
  }

  lemma DefaultsSolo(w: Plugins)
    requires w.local != w.mt
    ensures Defaults(w) == if w.mt then MTONLY else LOCAL
  {
    if w.mt {
      MtShape();
    } else {
      LocalShape();
    }
  }

  /** Without any task runtime: the event consumer, then the request consumer. */
  lemma DefaultsBare(w: Plugins)
    requires !w.local && !w.mt
    ensures Defaults(w) == BASIC
  {
    BasicShape();
  }

  /** The hub of a machine with both task runtimes. */
  const FULL: Hub :=
    Hub(Store(LOCAL.store.slots + [Some(Tenant(MtTasks({}, []), [StartMtTag, StopTag]))], []),
        LOCAL.routes[StartMtTag := [3]][StopTag := [2, 3]])

  lemma FullShape()
    ensures SetConsumer(LOCAL, MtTasks({}, []), [StartMtTag, StopTag]) == FULL
  {
    LocalOk();
    SetLast(LOCAL, MtTasks({}, []), [StartMtTag, StopTag]);
    AddTwo(LOCAL.routes, StartMtTag, StopTag, 3);
    assert RouteOf(LOCAL.routes, StartMtTag) + [3] == [3] && RouteOf(LOCAL.routes, StopTag) + [3] == [2, 3];
  }

  lemma LocalOk()
    ensures HubOk(LOCAL)
  {
    LocalShape();
    SetConsumerOk(BasicHub(), LocalTasks({}, []), [StartLocalTag, StopTag]);
  }

  lemma DefaultsFull(w: Plugins)
    requires w.local && w.mt
    ensures Defaults(w) == FULL
  {
    LocalShape();
    FullShape();
  }

  /** With both task runtimes, stops go to the local one first. */
  lemma FullServes()
    ensures Leads(FULL, StartLocalTag, 2, LocalTasks({}, [])) && Leads(FULL, StartMtTag, 3, MtTasks({}, []))
    ensures RouteOf(FULL.routes, StopTag) == [2, 3]
  {
  }
}
