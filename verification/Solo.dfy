/** Builds with one task runtime: its running map is exactly what the committed starts and stops make it. */
module Soloing {
  import opened Base
  import opened StateForest
  import opened Operations
  import opened Reconciling
  import opened Arbitration
  import opened Running
  import opened Consuming
  import opened Hubs
  import opened Routing
  import opened Machines
  import opened Discipline
  import opened Requesting
  import opened Rosters

  function StartTagOf(mt: bool): Tag {
    if mt then StartMtTag else StartLocalTag
  }

  /** The operations that the runtime looks after: its own starts, and all stops. */
  predicate Ours(mt: bool, op: Op) {
    TagOf(op) == StartTagOf(mt) || op.StopOp?
  }

  function Enlist(mt: bool, r: set<nat>, n: Note): set<nat> {
    if n.Cleared? then {}
    else if !n.Committed? then r
    else
      match n.op
      case StartLocal(h) => if mt then r else r + {h}
      case StartMt(h) => if mt then r + {h} else r
      case StopOp(h) => r - {h}
      case _ => r
  }

  /** Started in this runtime and committed, less stopped and committed, since the last clear. */
  function ListOf(mt: bool, r: set<nat>, ledger: seq<Note>): set<nat>
    decreases |ledger|
  {
    if ledger == [] then r else ListOf(mt, Enlist(mt, r, ledger[0]), ledger[1..])
  }

  lemma {:induction false} ListConcat(mt: bool, r: set<nat>, a: seq<Note>, b: seq<Note>)
    ensures ListOf(mt, r, a + b) == ListOf(mt, ListOf(mt, r, a), b)
    decreases |a|
  {
    if a == [] {
      assert a + b == b;
    } else {
      assert (a + b)[1..] == a[1..] + b;
      ListConcat(mt, Enlist(mt, r, a[0]), a[1..], b);
    }
  }

  lemma ListOne(mt: bool, a: seq<Note>, n: Note)
    ensures ListOf(mt, {}, a + [n]) == Enlist(mt, ListOf(mt, {}, a), n)
  {
    ListConcat(mt, {}, a, [n]);
    var r := ListOf(mt, {}, a);
    assert ListOf(mt, r, [n]) == ListOf(mt, Enlist(mt, r, n), [n][1..]);
  }

  lemma {:induction false} ListSkips(mt: bool, r: set<nat>, notes: seq<Note>)
    requires forall k :: 0 <= k < |notes| ==> !notes[k].Committed? && !notes[k].Cleared?
    ensures ListOf(mt, r, notes) == r
    decreases |notes|
  {
    if notes != [] {
      assert forall k :: 0 <= k < |notes| - 1 ==> notes[1..][k] == notes[k + 1];
      ListSkips(mt, r, notes[1..]);
    }
  }

  lemma ListOn(mt: bool, a: seq<Note>, b: seq<Note>)
    requires a <= b && forall k :: |a| <= k < |b| ==> !b[k].Committed? && !b[k].Cleared?
    ensures ListOf(mt, {}, b) == ListOf(mt, {}, a)
  {
    var more := b[|a|..];
    assert b == a + more;
    ListConcat(mt, {}, a, more);
    ListSkips(mt, ListOf(mt, {}, a), more);
  }

  /** A start in this runtime was committed, and neither a stop of the task nor a clear after it. */
  ghost predicate Going(mt: bool, ledger: seq<Note>, h: nat) {
    exists i: nat :: OwnStartAt(mt, ledger, i, h) && forall j: nat :: i < j ==> !EndedAt(ledger, j, h)
  }

  predicate OwnStartAt(mt: bool, ledger: seq<Note>, i: nat, h: nat) {
    i < |ledger| && ledger[i].Committed? && ledger[i].op == if mt then StartMt(h) else StartLocal(h)
  }

  lemma GoingShift(mt: bool, ledger: seq<Note>, h: nat)
    requires ledger != []
    ensures Going(mt, ledger, h) <==>
            Going(mt, ledger[1..], h) || (OwnStartAt(mt, ledger, 0, h) && NeverEnded(ledger[1..], h))
  {
    var rest := ledger[1..];
    assert forall j: nat :: EndedAt(rest, j, h) == EndedAt(ledger, j + 1, h);
    assert forall j: nat :: OwnStartAt(mt, rest, j, h) == OwnStartAt(mt, ledger, j + 1, h);
    assert forall j: nat :: j > 0 ==> EndedAt(ledger, j, h) == EndedAt(rest, j - 1, h);
    if i: nat :| OwnStartAt(mt, rest, i, h) && forall j: nat :: i < j ==> !EndedAt(rest, j, h) {
      assert OwnStartAt(mt, ledger, i + 1, h);
    }
    if i: nat :| OwnStartAt(mt, ledger, i, h) && forall j: nat :: i < j ==> !EndedAt(ledger, j, h) {
      if i > 0 {
        assert OwnStartAt(mt, rest, i - 1, h);
      }
    }
  }

  /** The list names exactly those tasks. */
  lemma {:induction false} ListMeans(mt: bool, r: set<nat>, ledger: seq<Note>, h: nat)
    ensures h in ListOf(mt, r, ledger) <==> Going(mt, ledger, h) || (h in r && NeverEnded(ledger, h))
    decreases |ledger|
  {
    if ledger != [] {
      GoingShift(mt, ledger, h);
      FollowedShift(ledger, h);
      ListMeans(mt, Enlist(mt, r, ledger[0]), ledger[1..], h);
    }
  }

  // ---- Routing ----

  /** The runtime sits at slot `i` and is the first to be asked about its operations. */
  ghost predicate Serving(mt: bool, routes: map<Tag, seq<nat>>, slots: Slots, i: nat) {
    && RouteOf(routes, StartTagOf(mt)) != [] && routes[StartTagOf(mt)][0] == i
    && RouteOf(routes, StopTag) != [] && routes[StopTag][0] == i
    && LiveAt(slots, i)
    && if mt then slots[i].value.consumer.MtTasks? else slots[i].value.consumer.LocalTasks?
  }

  function RunningAt(mt: bool, slots: Slots, i: nat): set<nat>
    requires LiveAt(slots, i)
    requires if mt then slots[i].value.consumer.MtTasks? else slots[i].value.consumer.LocalTasks?
  {
    slots[i].value.consumer.running
  }

  /** The other runtime is not built in. */
  predicate Alone(w: Plugins, mt: bool) {
    w.mt == mt && w.local == !mt
  }

  ghost predicate SoloMintless(w: Plugins, mt: bool) {
    Mintless(w, StartTagOf(mt)) && Mintless(w, StopTag)
  }

  /** An operation of another kind stays of another kind and leaves the map alone. */
  lemma AttemptOthers(
    w: Plugins, mt: bool, routes: map<Tag, seq<nat>>, b: Bench, t: Ticket, op: Op, next: nat, k: nat, i: nat)
    requires LiveAt(b.slots, k) && SoloMintless(w, mt) && !Ours(mt, op) && Serving(mt, routes, b.slots, i)
    ensures var a := Attempt(w, b, t, op, next, k);
      && Serving(mt, routes, a.bench.slots, i) && (a.flow.Next? ==> !Ours(mt, a.flow.op))
      && RunningAt(mt, a.bench.slots, i) == RunningAt(mt, b.slots, i)
  {
    var c := b.slots[k].value.consumer;
    if c.Custom? {
      var flow := w.consume(c.state, t, op).flow;
      assert flow.Next? ==> TagOf(flow.op) != StartTagOf(mt) && TagOf(flow.op) != StopTag;
    }
  }

  lemma {:induction false} RouteOthers(
    w: Plugins, mt: bool, routes: map<Tag, seq<nat>>, b: Bench, t: Ticket, op: Op, next: nat, i: nat)
    requires Ranked(w) && SoloMintless(w, mt) && !Ours(mt, op) && Serving(mt, routes, b.slots, i)
    ensures var r := Route(w, routes, b, t, op, next);
      Serving(mt, routes, r.slots, i) && RunningAt(mt, r.slots, i) == RunningAt(mt, b.slots, i)
    decreases w.rank(op), |RouteOf(routes, TagOf(op))| - next
  {
    if next < |RouteOf(routes, TagOf(op))| {
      var k := routes[TagOf(op)][next];
      if !LiveAt(b.slots, k) {
        RouteOthers(w, mt, routes, b, t, op, next + 1, i);
      } else {
        var a := Attempt(w, b, t, op, next, k);
        AttemptOthers(w, mt, routes, b, t, op, next, k, i);
        NextRanks(w, b.slots[k].value.consumer, t, op, b.ready, b.slot);
        if a.flow.Next? {
          RouteOthers(w, mt, routes, a.bench, t, a.flow.op, if TagOf(a.flow.op) != TagOf(op) then 0 else next + 1, i);
        }
      }
    }
  }

  /** Its own operations end at the runtime, a stop for an unknown task included. */
  lemma RouteOurs(w: Plugins, mt: bool, routes: map<Tag, seq<nat>>, b: Bench, t: Ticket, op: Op, i: nat)
    requires Ranked(w) && Alone(w, mt) && Ours(mt, op) && Serving(mt, routes, b.slots, i)
    ensures var r := Route(w, routes, b, t, op, 0);
      && Serving(mt, routes, r.slots, i)
      && RunningAt(mt, r.slots, i) == Enlist(mt, RunningAt(mt, b.slots, i), Committed(t, op))
  {
    assert Attempt(w, b, t, op, 0, i).flow.Done?;
  }

  /** The map is what the ledger says. */
  ghost predicate Listed(mt: bool, slots: Slots, ledger: seq<Note>, i: nat)
    requires LiveAt(slots, i)
    requires if mt then slots[i].value.consumer.MtTasks? else slots[i].value.consumer.LocalTasks?
  {
    RunningAt(mt, slots, i) == ListOf(mt, {}, ledger)
  }

  lemma RouteListed(w: Plugins, mt: bool, routes: map<Tag, seq<nat>>, b: Bench, e: Entry, i: nat)
    requires Ranked(w) && Alone(w, mt) && SoloMintless(w, mt)
    requires Serving(mt, routes, b.slots, i) && Listed(mt, b.slots, b.ledger, i)
    ensures var r := Route(w, routes, b.(ledger := b.ledger + [Committed(e.ticket, e.op)]), e.ticket, e.op, 0);
      Serving(mt, routes, r.slots, i) && Listed(mt, r.slots, r.ledger, i)
  {
    var b1 := b.(ledger := b.ledger + [Committed(e.ticket, e.op)]);
    ListOne(mt, b.ledger, Committed(e.ticket, e.op));
    RouteCommitsNone(w, routes, b1, e.ticket, e.op, 0);
    ListOn(mt, b1.ledger, Route(w, routes, b1, e.ticket, e.op, 0).ledger);
    if Ours(mt, e.op) {
      RouteOurs(w, mt, routes, b1, e.ticket, e.op, i);
    } else {
      RouteOthers(w, mt, routes, b1, e.ticket, e.op, 0, i);
    }
  }

  lemma {:induction false} RouteCommitsNone(
    w: Plugins, routes: map<Tag, seq<nat>>, b: Bench, t: Ticket, op: Op, next: nat)
    requires Ranked(w)
    ensures var r := Route(w, routes, b, t, op, next).ledger;
      b.ledger <= r && forall k :: |b.ledger| <= k < |r| ==> !r[k].Committed? && !r[k].Cleared?
    decreases w.rank(op), |RouteOf(routes, TagOf(op))| - next
  {
    if next < |RouteOf(routes, TagOf(op))| {
      var k := routes[TagOf(op)][next];
      if !LiveAt(b.slots, k) {
        RouteCommitsNone(w, routes, b, t, op, next + 1);
      } else {
        var a := Attempt(w, b, t, op, next, k);
        NextRanks(w, b.slots[k].value.consumer, t, op, b.ready, b.slot);
        if a.flow.Next? {
          RouteCommitsNone(w, routes, a.bench, t, a.flow.op, if TagOf(a.flow.op) != TagOf(op) then 0 else next + 1);
        }
      }
    }
  }

  lemma {:induction false} DeliverListed(
    w: Plugins, mt: bool, routes: map<Tag, seq<nat>>, b: Bench, batch: seq<Entry>, i: nat)
    requires Ranked(w) && Alone(w, mt) && SoloMintless(w, mt)
    requires Serving(mt, routes, b.slots, i) && Listed(mt, b.slots, b.ledger, i)
    ensures var d := Deliver(w, routes, b, batch);
      Serving(mt, routes, d.slots, i) && Listed(mt, d.slots, d.ledger, i)
    decreases |batch|
  {
    if batch != [] {
      var e := batch[0];
      var b1 := b.(ledger := b.ledger + [Committed(e.ticket, e.op)]);
      RouteListed(w, mt, routes, b, e, i);
      DeliverListed(w, mt, routes, Route(w, routes, b1, e.ticket, e.op, 0), batch[1..], i);
    }
  }

  lemma {:induction false} DrainServing(
    w: Plugins, mt: bool, routes: map<Tag, seq<nat>>, slots: Slots, k: nat, b: Book, i: nat)
    requires k <= |slots| && Serving(mt, routes, slots, i)
    ensures var d := DrainFrom(w, slots, k, b);
      Serving(mt, routes, d.slots, i) && RunningAt(mt, d.slots, i) == RunningAt(mt, slots, i)
    decreases |slots| - k
  {
    if k < |slots| {
      if slots[k].None? {
        DrainServing(w, mt, routes, slots, k + 1, b, i);
      } else {
        var d := Drain(w, slots[k].value.consumer, b);
        DrainServing(w, mt, routes, slots[k := Some(slots[k].value.(consumer := d.consumer))], k + 1, d.book, i);
      }
    }
  }

  // ---- Whole machines ----

  ghost predicate Tended(m: MachineState, mt: bool, i: nat) {
    Serving(mt, m.hub.routes, m.hub.store.slots, i) && Listed(mt, m.hub.store.slots, m.book.ledger, i)
  }

  lemma CommitTended(w: World, m: MachineState, mt: bool, i: nat)
    requires WorldOk(w) && Alone(w.plugins, mt) && SoloMintless(w.plugins, mt) && Tended(m, mt, i)
    ensures Tended(CommitPhase(w, m), mt, i)
  {
    if m.book.pool.pending != [] {
      ListOne(mt, m.book.ledger, Batch);
      DeliverListed(w.plugins, mt, m.hub.routes, BenchOf(m), m.book.pool.pending, i);
    }
  }

  lemma TurnTended(w: World, m: MachineState, mt: bool, i: nat)
    requires WorldOk(w) && Alone(w.plugins, mt) && SoloMintless(w.plugins, mt) && Tended(m, mt, i)
    ensures Tended(MicroStep(w, m).machine, mt, i)
  {
    var c := CommitPhase(w, m);
    CommitTended(w, m, mt, i);
    DrainServing(w.plugins, mt, c.hub.routes, c.hub.store.slots, 0, c.book, i);
    TurnFiles(w, m);
    ListOn(mt, c.book.ledger, MicroStep(w, m).machine.book.ledger);
    DispatchKeeps(w, ApplyPhase(w, DrainPhase(w, c).0));
  }

  lemma StageTended(m: MachineState, op: Op, priority: Option<nat>, mt: bool, i: nat)
    requires Tended(m, mt, i)
    ensures Tended(m.(book := Stage(m.book, op, priority)), mt, i)
  {
    StageFiles(m.book, op, priority);
    ListOn(mt, m.book.ledger, Stage(m.book, op, priority).ledger);
  }

  /** The runtime stays registered, or is replaced by a clear. */
  predicate SparesRuntime(x: Input, mt: bool) {
    Spares(x, StartTagOf(mt)) && Spares(x, StopTag)
  }

  function PlaceAfter(x: Input, i: nat): nat {
    if x.Reset? then 2 else i
  }

  lemma HubTended(m: MachineState, h: Hub, mt: bool, i: nat)
    requires Tended(m, mt, i)
    requires RouteOf(m.hub.routes, StartTagOf(mt)) <= RouteOf(h.routes, StartTagOf(mt))
    requires RouteOf(m.hub.routes, StopTag) <= RouteOf(h.routes, StopTag)
    requires Live(h.store, i) && h.store.slots[i] == m.hub.store.slots[i]
    ensures Tended(m.(hub := h), mt, i)
  {
  }

  lemma RegisterTended(m: MachineState, c: Consumer, tags: seq<Tag>, mt: bool, i: nat)
    requires HubOk(m.hub) && Tended(m, mt, i) && tags != []
    ensures Tended(m.(hub := SetConsumer(m.hub, c, tags)), mt, i)
  {
    RegisterFirst(m.hub, c, tags, StartTagOf(mt));
    RegisterFirst(m.hub, c, tags, StopTag);
    assert i in m.hub.routes[StopTag];
    HubTended(m, SetConsumer(m.hub, c, tags), mt, i);
  }

  lemma UnregisterTended(m: MachineState, tags: seq<Tag>, mt: bool, i: nat)
    requires HubOk(m.hub) && Tended(m, mt, i) && StartTagOf(mt) !in tags && StopTag !in tags
    ensures Tended(m.(hub := RemoveConsumer(m.hub, tags)), mt, i)
  {
    UnregisterFirst(m.hub, tags, StartTagOf(mt));
    UnregisterFirst(m.hub, tags, StopTag);
    assert i in m.hub.routes[StopTag];
    HubTended(m, RemoveConsumer(m.hub, tags), mt, i);
  }

  lemma MailTended(m: MachineState, k: nat, op: Op, mt: bool, i: nat)
    requires Tended(m, mt, i)
    ensures Tended(WithSlots(m, Arrive(m.hub.store.slots, k, op)), mt, i)
  {
  }

  lemma PokeTended(m: MachineState, k: nat, state: CustomState, mt: bool, i: nat)
    requires Tended(m, mt, i)
    ensures Tended(WithSlots(m, Poked(m.hub.store.slots, k, state)), mt, i)
  {
  }

  lemma ClearedTended(w: Plugins, r: MachineState, mt: bool)
    requires Alone(w, mt) && r.hub == Defaults(w) && ListOf(mt, {}, r.book.ledger) == {}
    ensures Tended(r, mt, 2)
  {
    DefaultsSolo(w);
    SoloServes(mt);
  }

  lemma SoloServes(mt: bool)
    ensures var h := if mt then MTONLY else LOCAL;
      Serving(mt, h.routes, h.store.slots, 2) && RunningAt(mt, h.store.slots, 2) == {}
  {
  }

  lemma ReactTended(w: World, m: MachineState, x: Input, mt: bool, i: nat)
    requires WorldOk(w) && HubOk(m.hub) && Alone(w.plugins, mt) && SoloMintless(w.plugins, mt)
    requires Tended(m, mt, i) && SparesRuntime(x, mt)
    ensures Tended(React(w, m, x), mt, PlaceAfter(x, i))
  {
    match x
    case Turn => TurnTended(w, m, mt, i);
    case Init(target) => StageTended(m, RequestOp(Request(target, NORMAL)), None, mt, i);
    case Submit(op) => StageTended(m, op, None, mt, i);
    case Mail(k, op) => MailTended(m, k, op, mt, i);
    case Poke(k, state) => PokeTended(m, k, state, mt, i);
    case Register(c, tag, more) => RegisterTended(m, c, [tag] + more, mt, i);
    case Unregister(tags) => UnregisterTended(m, tags, mt, i);
    case Reset =>
      ListOne(mt, m.book.ledger, Cleared);
      ClearedTended(w.plugins, React(w, m, x), mt);
    case Arbitrate(a) => ListOne(mt, m.book.ledger, Installed(a));
    case Edit(_) =>
  }

  /** In a build with one task runtime, over every run that does not unregister it by itself, clears
      included and handles fresh or not: its running map is exactly the tasks whose start was committed
      and whose stop was not, since the last clear. */
  lemma {:induction false} SoloTracked(w: World, m: MachineState, inputs: seq<Input>, mt: bool, i: nat)
    returns (k: nat)
    requires WorldOk(w) && HubOk(m.hub) && Alone(w.plugins, mt) && SoloMintless(w.plugins, mt)
    requires Tended(m, mt, i) && forall x :: x in inputs ==> SparesRuntime(x, mt)
    ensures Tended(Run(w, m, inputs), mt, k)
    decreases |inputs|
  {
    if inputs == [] {
      k := i;
    } else {
      assert inputs[0] in inputs;
      ReactHub(w, m, inputs[0]);
      ReactTended(w, m, inputs[0], mt, i);
      k := SoloTracked(w, React(w, m, inputs[0]), inputs[1..], mt, PlaceAfter(inputs[0], i));
    }
  }

  /** Said of the ledger alone: a task is in the map if and only if its start was committed and neither
      a stop of it nor a clear followed. */
  lemma SoloExactly(m: MachineState, mt: bool, i: nat, h: nat)
    requires Tended(m, mt, i)
    ensures h in RunningAt(mt, m.hub.store.slots, i) <==> Going(mt, m.book.ledger, h)
  {
    ListMeans(mt, {}, m.book.ledger, h);
  }

  lemma FreshTended(w: World, context: Context, mt: bool)
    requires WorldOk(w) && Alone(w.plugins, mt)
    ensures Tended(Fresh(w, context), mt, 2)
  {
    BornTended(w.plugins, Fresh(w, context), mt);
  }

  lemma BornTended(w: Plugins, m: MachineState, mt: bool)
    requires Alone(w, mt) && m.hub == Defaults(w) && |m.book.ledger| == 1 && m.book.ledger[0].Installed?
    ensures Tended(m, mt, 2)
  {
    BornList(mt, m.book.ledger);
    ClearedTended(w, m, mt);
  }

  lemma BornList(mt: bool, ledger: seq<Note>)
    requires |ledger| == 1 && ledger[0].Installed?
    ensures ListOf(mt, {}, ledger) == {}
  {
    ListSkips(mt, {}, ledger);
  }
}
