/** Requests without a priority of their own, and the first transition of a machine. */
module Starting {
  import opened Base
  import opened StateForest
  import opened Operations
  import opened Reconciling
  import opened Arbitration
  import opened Running
  import opened Consuming
  import opened Hubs
  import opened Routing
  import opened Machines
  import opened Discipline
  import opened Requesting
  import opened Petitioning
  import opened Termination

  // ---- The default priority ----

  /** A request staged without a priority holds out against a later one if and only if that one asks for
      less than 100. */
  lemma DefaultHoldsOut(b: Book, target: State, later: Request)
    requires Contested(b.pool, ByPriority()) && PendingRequest(b.pool.pending) == None && b.pool.issued + 2 <= WRAP
    ensures var one := Stage(b, RequestOp(Request(target, NORMAL)), None);
      var two := Stage(one, RequestOp(later), None);
      && PendingRequest(one.pool.pending) == Some(Request(target, 100))
      && PendingRequest(two.pool.pending) == Some(if later.priority < 100 then Request(target, 100) else later)
      && Contested(two.pool, ByPriority())
  {
    StageContests(b, ByPriority(), RequestOp(Request(target, NORMAL)), None);
    StageContests(Stage(b, RequestOp(Request(target, NORMAL)), None), ByPriority(), RequestOp(later), None);
  }

  /** That is what a declarative reply asks for ... */
  lemma ReplyHoldsOut(b: Book, target: State, later: Request)
    requires Contested(b.pool, ByPriority()) && PendingRequest(b.pool.pending) == None && b.pool.issued + 2 <= WRAP
    ensures var two := Stage(StageReply(b, Transition(target)), RequestOp(later), None).pool;
      PendingRequest(two.pending) == Some(if later.priority < 100 then Request(target, 100) else later)
  {
    DefaultHoldsOut(b, target, later);
  }

  /** ... and what the first transition of a detached machine asks for, while a machine that has a state
      refuses. */
  lemma InitAsks(w: World, m: MachineState, target: State)
    requires WorldOk(w) && HubOk(m.hub) && Contested(m.book.pool, ByPriority())
    requires PendingRequest(m.book.pool.pending) == None && m.book.pool.issued + 2 <= WRAP
    ensures var n := React(w, m, Init(target));
      if m.current == NIL then
        && PendingRequest(n.book.pool.pending) == Some(Request(target, 100))
        && forall later :: PendingRequest(Stage(n.book, RequestOp(later), None).pool.pending) ==
             Some(if later.priority < 100 then Request(target, 100) else later)
      else n == m
  {
    if m.current == NIL {
      forall later: Request
        ensures PendingRequest(Stage(React(w, m, Init(target)).book, RequestOp(later), None).pool.pending) ==
                Some(if later.priority < 100 then Request(target, 100) else later)
      {
        DefaultHoldsOut(m.book, target, later);
      }
      DefaultHoldsOut(m.book, target, Request(target, 0));
    }
  }

  // ---- The first transition ----

  /** No consumer has anything to drain. */
  ghost predicate NothingWaits(w: Plugins, slots: Slots) {
    forall i: nat :: LiveAt(slots, i) ==> !Flags(w, slots[i].value.consumer)
  }

  /** A pending request is applied in the very turn that commits it, unless a drain has something. */
  lemma TurnApplies(w: World, m: MachineState, r: Request)
    requires WorldOk(w) && Mintless(w.plugins, RequestTag) && Serves(m.hub.routes, m.hub.store.slots)
    requires Contending(m.book) && PendingRequest(m.book.pool.pending) == Some(r)
    requires NothingWaits(w.plugins, CommitPhase(w, m).hub.store.slots)
    ensures var n := MicroStep(w, m); n.machine.current == r.target && !n.stop && n.machine.slot == None
  {
    var c := CommitPhase(w, m);
    assert m.book.pool.pending != [];
    DeliverRequests(w.plugins, m.hub.routes, BenchOf(m), m.book.pool.pending);
    DrainsFlag(w.plugins, c.hub.store.slots, 0, c.book);
    DispatchKeeps(w, ApplyPhase(w, DrainPhase(w, c).0));
  }

  lemma StageOnRequest(b: Book, r: Request)
    requires Contending(b) && PendingRequest(b.pool.pending) == None && b.pool.issued < WRAP
    ensures var c := Stage(b, RequestOp(r), None);
      Contending(c) && PendingRequest(c.pool.pending) == Some(r)
  {
    StageContending(b, RequestOp(r), None);
    StageContests(b, Audit(OPENING, b.ledger).arbiter, RequestOp(r), None);
  }

  /** `Init` leads a detached machine to the state asked for in the first turn, whatever the behaviors and
      the arbiter, if no other request is pending and no consumer has anything to drain. */
  lemma InitArrives(w: World, m: MachineState, x: Input)
    requires WorldOk(w) && HubOk(m.hub) && Mintless(w.plugins, RequestTag) && x.Init?
    requires Serves(m.hub.routes, m.hub.store.slots) && m.current == NIL
    requires Contending(m.book) && PendingRequest(m.book.pool.pending) == None && m.book.pool.issued < WRAP
    requires NothingWaits(w.plugins, CommitPhase(w, React(w, m, x)).hub.store.slots)
    ensures MicroStep(w, React(w, m, x)).machine.current == x.target
  {
    StageOnRequest(m.book, Request(x.target, NORMAL));
    TurnApplies(w, React(w, m, x), Request(x.target, NORMAL));
  }

  /** Callbacks of transitions stage nothing. */
  ghost predicate Silent(w: World)
    requires WorldOk(w)
  {
    forall s: State, t: State, c: Context :: TransitionTrace(w.tree, w.behaviors, s, t, c).ops == []
  }

  /** Nothing but the built-in consumers. */
  ghost predicate BuiltIn(slots: Slots) {
    forall i: nat :: LiveAt(slots, i) ==> !slots[i].value.consumer.Custom?
  }

  lemma {:induction false} RouteRequestOnly(w: Plugins, routes: map<Tag, seq<nat>>, b: Bench, e: Entry)
    requires Ranked(w) && Serves(routes, b.slots) && e.op.RequestOp?
    ensures var d := Deliver(w, routes, b, [e]);
      d.slots == b.slots && d.ready == b.ready && d.slot == Some(e.op.request)
  {
    var b1 := b.(ledger := b.ledger + [Committed(e.ticket, e.op)]);
    var i := routes[RequestTag][0];
    assert Attempt(w, b1, e.ticket, e.op, 0, i).flow.Done?;
    assert b.slots[i := b.slots[i]] == b.slots;
    assert [e][1..] == [];
  }

  /** With silent callbacks, built-in consumers and nothing else waiting, advancing from there ends in the
      state asked for. */
  lemma InitSettles(w: World, k: Scale, m: MachineState, x: Input)
    requires WorldOk(w) && HubOk(m.hub) && Lighter(w, k) && Silent(w) && x.Init?
    requires Serves(m.hub.routes, m.hub.store.slots) && BuiltIn(m.hub.store.slots) && m.current == NIL
    requires Settled(m) && Contending(m.book) && m.book.pool.issued < WRAP
    ensures var r := Advance(w, k, React(w, m, x)); r.current == x.target && Settled(r)
  {
    var n, r := React(w, m, x), Request(x.target, NORMAL);
    StageOnRequest(m.book, r);
    OnlyRequest(m.book, r);
    FirstTurn(w, n, r);
    var s := MicroStep(w, n).machine;
    SettledStays(w, s);
    assert Advance(w, k, s) == s;
  }

  lemma OnlyRequest(b: Book, r: Request)
    requires Contending(b) && b.pool.pending == []
    ensures var p := Stage(b, RequestOp(r), None).pool.pending; |p| == 1 && p[0].op == RequestOp(r)
  {
    JudgeRequest(Audit(OPENING, b.ledger).arbiter, b.pool, NextTicket(b.pool, None), RequestOp(r));
  }

  lemma FirstTurn(w: World, n: MachineState, r: Request)
    requires WorldOk(w) && Silent(w) && Serves(n.hub.routes, n.hub.store.slots) && BuiltIn(n.hub.store.slots)
    requires |n.book.pool.pending| == 1 && n.book.pool.pending[0].op == RequestOp(r)
    requires n.ready == [] && n.slot == None && MailboxesEmpty(n.hub.store.slots)
    ensures var s := MicroStep(w, n);
      !s.stop && s.machine.current == r.target && s.machine.hub == n.hub && Settled(s.machine)
  {
    var e, c := n.book.pool.pending[0], CommitPhase(w, n);
    assert n.book.pool.pending == [e];
    RouteRequestOnly(w.plugins, n.hub.routes, BenchOf(n), e);
    DrainNothing(w.plugins, c.hub.store.slots, 0, c.book);
    var d := DrainPhase(w, c).0;
    assert TransitionTrace(w.tree, w.behaviors, d.current, r.target, d.context).ops == [];
    assert DispatchPhase(w, ApplyPhase(w, d)) == ApplyPhase(w, d);
  }
}
