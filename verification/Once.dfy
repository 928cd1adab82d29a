/** No consumer is asked twice about one operation, provided that nobody registers for a type twice. */
module AskingOnce {
  import opened Base
  import opened StateForest
  import opened Operations
  import opened Running
  import opened Consuming
  import opened Hubs
  import opened Routing
  import opened Machines
  import opened Conserving

  // ---- Routes without repetition ----

  /** One index for every time that the type is listed. */
  function Copies(tags: seq<Tag>, t: Tag, i: nat): seq<nat> {
    if tags == [] then [] else (if tags[0] == t then [i] else []) + Copies(tags[1..], t, i)
  }

  lemma {:induction false} AddRoutesAppends(routes: map<Tag, seq<nat>>, tags: seq<Tag>, i: nat, t: Tag)
    ensures RouteOf(AddRoutes(routes, tags, i), t) == RouteOf(routes, t) + Copies(tags, t, i)
    decreases |tags|
  {
    if tags == [] {
      assert RouteOf(routes, t) + [] == RouteOf(routes, t);
    } else {
      AddRoutesAppends(routes[tags[0] := RouteOf(routes, tags[0]) + [i]], tags[1..], i, t);
      Assoc(RouteOf(routes, t), if tags[0] == t then [i] else [], Copies(tags[1..], t, i));
    }
  }

  lemma {:induction false} CopiesAre(tags: seq<Tag>, t: Tag, i: nat)
    ensures forall k :: 0 <= k < |Copies(tags, t, i)| ==> Copies(tags, t, i)[k] == i
    ensures Copies(tags, t, i) != [] <==> t in tags
    ensures NoDup(tags) ==> |Copies(tags, t, i)| <= 1
  {
    if tags != [] {
      CopiesAre(tags[1..], t, i);
      assert forall x :: x in tags <==> x == tags[0] || x in tags[1..];
      assert NoDup(tags) ==> tags[0] !in tags[1..];
    }
  }

  lemma {:induction false} CopiesTwice(tags: seq<Tag>, j: nat, k: nat, i: nat)
    requires j < k < |tags| && tags[j] == tags[k]
    ensures |Copies(tags, tags[j], i)| >= 2
  {
    if j > 0 {
      CopiesTwice(tags[1..], j - 1, k - 1, i);
    } else {
      CopiesAre(tags[1..], tags[0], i);
      assert tags[1..][k - 1] == tags[0];
    }
  }

  /** Every route names every slot once at most. */
  ghost predicate UniqueRoutes(h: Hub) {
    forall t :: NoDup(RouteOf(h.routes, t))
  }

  lemma AppendUnique(route: seq<nat>, more: seq<nat>, i: nat)
    requires NoDup(route) && i !in route && forall k :: 0 <= k < |more| ==> more[k] == i
    ensures NoDup(route + more) <==> |more| <= 1
  {
    var all := route + more;
    if |more| > 1 {
      assert all[|route|] == all[|route| + 1] == i;
    }
  }

  /** A registration takes an empty slot for the consumer and appends it to the route of each type, once
      for every time that the type is listed; nothing else moves. */
  lemma SetConsumerExact(h: Hub, c: Consumer, tags: seq<Tag>, t: Tag) returns (i: nat)
    requires HubOk(h)
    ensures var r := SetConsumer(h, c, tags);
      && !Live(h.store, i) && Live(r.store, i) && r.store.slots[i].value == Tenant(c, tags)
      && (forall j: nat :: Live(h.store, j) ==> Live(r.store, j) && r.store.slots[j] == h.store.slots[j])
      && (forall j: nat :: Live(r.store, j) && !Live(h.store, j) ==> j == i)
      && RouteOf(r.routes, t) == RouteOf(h.routes, t) + Copies(tags, t, i)
  {
    i := Place(h.store, Tenant(c, tags)).index;
    PlaceOk(h.store, Tenant(c, tags));
    AddRoutesAppends(h.routes, tags, i, t);
  }

  /** A registration keeps the routes free of repetition if and only if it lists every type once. */
  lemma SetConsumerUnique(h: Hub, c: Consumer, tags: seq<Tag>)
    requires HubOk(h) && UniqueRoutes(h)
    ensures UniqueRoutes(SetConsumer(h, c, tags)) <==> NoDup(tags)
  {
    var i, r := Place(h.store, Tenant(c, tags)).index, SetConsumer(h, c, tags);
    PlaceOk(h.store, Tenant(c, tags));
    forall t ensures NoDup(RouteOf(r.routes, t)) <==> |Copies(tags, t, i)| <= 1 {
      assert NoDup(RouteOf(h.routes, t)) && i !in RouteOf(h.routes, t);
      AddRoutesAppends(h.routes, tags, i, t);
      CopiesAre(tags, t, i);
      AppendUnique(RouteOf(h.routes, t), Copies(tags, t, i), i);
    }
    if !NoDup(tags) {
      var j, k :| 0 <= j < k < |tags| && tags[j] == tags[k];
      CopiesTwice(tags, j, k, i);
      assert !NoDup(RouteOf(r.routes, tags[j]));
    } else {
      forall t ensures |Copies(tags, t, i)| <= 1 { CopiesAre(tags, t, i); }
    }
  }

  lemma RemoveConsumerUnique(h: Hub, tags: seq<Tag>)
    requires UniqueRoutes(h)
    ensures UniqueRoutes(RemoveConsumer(h, tags))
  {
    forall t ensures NoDup(RouteOf(RemoveConsumer(h, tags).routes, t)) {
      assert NoDup(RouteOf(h.routes, t));
    }
  }

  lemma BasicsUnique(h: Hub)
    requires HubOk(h) && UniqueRoutes(h)
    ensures UniqueRoutes(Basics(h))
  {
    SetConsumerOk(h, Events, [EventTag]);
    SetConsumerUnique(h, Events, [EventTag]);
    SetConsumerUnique(SetConsumer(h, Events, [EventTag]), Requests, [RequestTag]);
  }

  lemma RuntimesUnique(w: Plugins, h: Hub)
    requires HubOk(h) && UniqueRoutes(h)
    ensures UniqueRoutes(Runtimes(w, h))
  {
    var local, mt := [StartLocalTag, StopTag], [StartMtTag, StopTag];
    SetConsumerOk(h, LocalTasks({}, []), local);
    SetConsumerUnique(h, LocalTasks({}, []), local);
    var one := if w.local then SetConsumer(h, LocalTasks({}, []), local) else h;
    SetConsumerUnique(one, MtTasks({}, []), mt);
  }

  lemma DefaultsUnique(w: Plugins)
    ensures UniqueRoutes(Defaults(w))
  {
    BasicsUnique(EmptyHub());
    RuntimesUnique(w, BasicHub());
  }

  // ---- Asked once ----

  /** Two attempts at one consumer for operations of the same type and rank. */
  predicate Repeats(w: Plugins, a: Note, b: Note, tag: Tag) {
    && a.Tried? && b.Tried? && TagOf(a.op) == tag && TagOf(b.op) == tag
    && w.rank(a.op) == w.rank(b.op) && a.slot == b.slot
  }

  ghost predicate AskedOnce(w: Plugins, tries: seq<Note>, tag: Tag) {
    forall j, k :: 0 <= j < k < |tries| ==> !Repeats(w, tries[j], tries[k], tag)
  }

  /** On a route without repetition no consumer is asked twice about operations of its type and one rank. */
  lemma UniqueAsksOnce(w: Plugins, routes: map<Tag, seq<nat>>, b: Bench, t: Ticket, op: Op, tag: Tag)
    requires Ranked(w) && Wiring(routes, b.slots) && NoDup(RouteOf(routes, tag))
    ensures AskedOnce(w, StepsOf(w, routes, b, t, op, 0).tries, tag)
  {
    var tries := StepsOf(w, routes, b, t, op, 0).tries;
    RouteTrail(w, routes, b, t, op, 0);
    forall j, k | 0 <= j < k < |tries| ensures !Repeats(w, tries[j], tries[k], tag) {
      assert tries[j] in tries && tries[k] in tries && Onward(w, tries[j], tries[k]);
    }
  }

  /** Consumers that pass everything on unchanged. */
  function Passers(): Plugins {
    Plugins((s: CustomState, t: Ticket, op: Op) => Outcome(s, Next(op)),
            (s: CustomState) => Drained(s, [], false),
            (op: Op) => 0, false, false)
  }

  ghost predicate AllCustom(slots: Slots) {
    forall i: nat :: LiveAt(slots, i) ==> slots[i].value.consumer.Custom?
  }

  /** They are asked one by one, down the whole route. */
  lemma {:induction false} PassersTries(routes: map<Tag, seq<nat>>, b: Bench, t: Ticket, op: Op, next: nat)
    requires Wiring(routes, b.slots) && AllCustom(b.slots) && next <= |RouteOf(routes, TagOf(op))|
    ensures var tries, route := StepsOf(Passers(), routes, b, t, op, next).tries, RouteOf(routes, TagOf(op));
      && |tries| == |route| - next
      && forall k: nat :: k < |tries| ==> tries[k] == Tried(t, op, next + k, route[next + k])
    decreases |RouteOf(routes, TagOf(op))| - next
  {
    var route := RouteOf(routes, TagOf(op));
    if next < |route| {
      var i := route[next];
      assert TagOf(op) in routes && i in routes[TagOf(op)] && LiveAt(b.slots, i);
      var a := Attempt(Passers(), b, t, op, next, i).bench;
      PassersOn(routes, b, t, op, next);
      PassersTries(routes, a, t, op, next + 1);
    }
  }

  lemma PassersOn(routes: map<Tag, seq<nat>>, b: Bench, t: Ticket, op: Op, next: nat)
    requires Wiring(routes, b.slots) && AllCustom(b.slots) && next < |RouteOf(routes, TagOf(op))|
    requires LiveAt(b.slots, routes[TagOf(op)][next])
    ensures var i := routes[TagOf(op)][next]; var a := Attempt(Passers(), b, t, op, next, i).bench;
      && Wiring(routes, a.slots) && AllCustom(a.slots)
      && StepsOf(Passers(), routes, b, t, op, next).tries ==
         [Tried(t, op, next, i)] + StepsOf(Passers(), routes, a, t, op, next + 1).tries
  {
    var i := routes[TagOf(op)][next];
    assert Attempt(Passers(), b, t, op, next, i).flow == Next(op);
    PassesOn(Passers(), routes, b, t, op, next);
  }

  /** All consumers replaced by such ones. */
  function Replaced(slots: Slots, s: CustomState): Slots {
    seq(|slots|, i requires 0 <= i < |slots| =>
      if slots[i].Some? then Some(Tenant(Custom(s), slots[i].value.tags)) else None)
  }

  /** Whatever the consumers do and however they are reached, none is asked twice about operations of a
      type and one rank, if and only if the route of the type names no slot twice. */
  lemma OnceExactly(routes: map<Tag, seq<nat>>, slots: Slots, s: CustomState, t: Ticket, op: Op)
    requires Wiring(routes, slots)
    ensures (forall w: Plugins, b: Bench, u: Ticket, first: Op :: Ranked(w) && Wiring(routes, b.slots) ==>
               AskedOnce(w, StepsOf(w, routes, b, u, first, 0).tries, TagOf(op)))
            <==> NoDup(RouteOf(routes, TagOf(op)))
  {
    var route := RouteOf(routes, TagOf(op));
    if NoDup(route) {
      forall w: Plugins, b: Bench, u: Ticket, first: Op | Ranked(w) && Wiring(routes, b.slots)
        ensures AskedOnce(w, StepsOf(w, routes, b, u, first, 0).tries, TagOf(op))
      {
        UniqueAsksOnce(w, routes, b, u, first, TagOf(op));
      }
    } else {
      RepeatedAsksTwice(routes, slots, s, t, op);
    }
  }

  lemma RepeatedAsksTwice(routes: map<Tag, seq<nat>>, slots: Slots, s: CustomState, t: Ticket, op: Op)
    requires Wiring(routes, slots) && !NoDup(RouteOf(routes, TagOf(op)))
    ensures var b := Bench(Replaced(slots, s), [], None, []);
      && Ranked(Passers()) && Wiring(routes, b.slots)
      && !AskedOnce(Passers(), StepsOf(Passers(), routes, b, t, op, 0).tries, TagOf(op))
  {
    var b, route := Bench(Replaced(slots, s), [], None, []), RouteOf(routes, TagOf(op));
    forall tag, i | tag in routes && i in routes[tag] ensures LiveAt(b.slots, i) {
      assert LiveAt(slots, i);
    }
    var j, k :| 0 <= j < k < |route| && route[j] == route[k];
    PassersTries(routes, b, t, op, 0);
    var tries := StepsOf(Passers(), routes, b, t, op, 0).tries;
    assert Repeats(Passers(), tries[j], tries[k], TagOf(op));
  }

  /** A consumer registered for one type twice is asked twice about the very same operation. */
  lemma AskedTwice(s: CustomState, id: nat, parcel: Parcel, t: Ticket, h: Hub)
    requires h == SetConsumer(EmptyHub(), Custom(s), [CustomTag(id), CustomTag(id)])
    ensures var b, op := Bench(h.store.slots, [], None, []), CustomOp(id, parcel);
      && HubOk(h) && Wiring(h.routes, b.slots)
      && StepsOf(Passers(), h.routes, b, t, op, 0).tries == [Tried(t, op, 0, 0), Tried(t, op, 1, 0)]
  {
    var b, op, tags := Bench(h.store.slots, [], None, []), CustomOp(id, parcel), [CustomTag(id), CustomTag(id)];
    SetConsumerOk(EmptyHub(), Custom(s), tags);
    HubWired(h);
    AddRoutesAppends(map[], tags, 0, CustomTag(id));
    assert tags[1..] == [CustomTag(id)] && tags[1..][1..] == [];
    assert RouteOf(h.routes, TagOf(op)) == [0, 0];
    PassersTries(h.routes, b, t, op, 0);
  }

  // ---- Over every run ----

  /** The routes are free of repetition now and after every input. */
  ghost predicate AlwaysUnique(w: World, m: MachineState, inputs: seq<Input>)
    requires WorldOk(w) && HubOk(m.hub)
    decreases |inputs|
  {
    && UniqueRoutes(m.hub)
    && (inputs != [] ==> (ReactHub(w, m, inputs[0]); AlwaysUnique(w, React(w, m, inputs[0]), inputs[1..])))
  }

  /** The input does not register a consumer for one type twice. */
  ghost predicate ListsOnce(x: Input) {
    x.Register? ==> NoDup([x.tag] + x.more)
  }

  lemma TurnRoutes(w: World, m: MachineState)
    requires WorldOk(w)
    ensures MicroStep(w, m).machine.hub.routes == m.hub.routes
  {
    DispatchKeeps(w, ApplyPhase(w, DrainPhase(w, CommitPhase(w, m)).0));
  }

  lemma ReactUnique(w: World, m: MachineState, x: Input)
    requires WorldOk(w) && HubOk(m.hub) && UniqueRoutes(m.hub)
    ensures UniqueRoutes(React(w, m, x).hub) <==> ListsOnce(x)
  {
    match x
    case Turn => TurnRoutes(w, m);
    case Register(c, tag, more) => SetConsumerUnique(m.hub, c, [tag] + more);
    case Unregister(tags) => RemoveConsumerUnique(m.hub, tags);
    case Reset => DefaultsUnique(w.plugins);
    case _ => assert React(w, m, x).hub.routes == m.hub.routes;
  }

  /** Over every run: no route ever names a slot twice, so that no consumer is ever asked twice, if and
      only if every registration lists every type once. */
  lemma {:induction false} UniqueExactly(w: World, m: MachineState, inputs: seq<Input>)
    requires WorldOk(w) && HubOk(m.hub) && UniqueRoutes(m.hub)
    ensures AlwaysUnique(w, m, inputs) <==> forall x :: x in inputs ==> ListsOnce(x)
    decreases |inputs|
  {
    if inputs != [] {
      assert forall x :: x in inputs <==> x == inputs[0] || x in inputs[1..];
      ReactHub(w, m, inputs[0]);
      ReactUnique(w, m, inputs[0]);
      if ListsOnce(inputs[0]) {
        UniqueExactly(w, React(w, m, inputs[0]), inputs[1..]);
      }
    }
  }

  lemma FreshUnique(w: World, context: Context)
    requires WorldOk(w)
    ensures UniqueRoutes(Fresh(w, context).hub)
  {
    DefaultsUnique(w.plugins);
  }
}
