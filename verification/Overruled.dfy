/** A request of high priority that loses to a later one of low priority. */
module Overruled {
  import opened Base
  import opened StateForest
  import opened Operations
  import opened Reconciling
  import opened Arbitration
  import opened Running
  import opened Consuming
  import opened Hubs
  import opened Routing
  import opened Machines
  import opened Discipline
  import opened Requesting

  /** The default consumers with both task runtimes, some operations waiting in the local mailbox. */
  function Waiting(mailbox: seq<Op>): Slots {
    FULL.store.slots[2 := Some(Tenant(LocalTasks({}, mailbox), [StartLocalTag, StopTag]))]
  }

  ghost predicate Plain(m: MachineState, mailbox: seq<Op>) {
    m.hub == Hub(Store(Waiting(mailbox), []), FULL.routes) && m.ready == [] && m.book.pool.issued <= 1
    && Contested(m.book.pool, ByPriority())
  }

  lemma StagesAlone(b: Book, r: Request)
    requires Contested(b.pool, ByPriority()) && b.pool.pending == [] && b.pool.issued <= 1
    ensures var c := Stage(b, RequestOp(r), None);
      Contested(c.pool, ByPriority()) && c.pool.issued == b.pool.issued + 1
      && |c.pool.pending| == 1 && c.pool.pending[0].op == RequestOp(r)
  {
    StageContests(b, ByPriority(), RequestOp(r), None);
    JudgeRequest(ByPriority(), b.pool, NextTicket(b.pool, None), RequestOp(r));
  }

  lemma CommitsAlone(w: World, m: MachineState, mailbox: seq<Op>, r: Request)
    requires WorldOk(w) && m.hub == Hub(Store(Waiting(mailbox), []), FULL.routes)
    requires |m.book.pool.pending| == 1 && m.book.pool.pending[0].op == RequestOp(r)
    ensures var c := CommitPhase(w, m);
      c.slot == Some(r) && c.hub == m.hub && c.ready == m.ready && c.book.pool == m.book.pool.(pending := [])
      && c.calls == m.calls && c.current == m.current
  {
    var e := m.book.pool.pending[0];
    var b := BenchOf(m).(ledger := BenchOf(m).ledger + [Committed(e.ticket, e.op)]);
    assert m.book.pool.pending[1..] == [];
    assert Deliver(w.plugins, FULL.routes, BenchOf(m), m.book.pool.pending) ==
           Route(w.plugins, FULL.routes, b, e.ticket, e.op, 0);
    var a := Attempt(w.plugins, b, e.ticket, e.op, 0, 1);
    assert RouteOf(FULL.routes, RequestTag) == [1] && a.flow.Done?;
    assert a.bench.slots == b.slots;
  }

  lemma DrainsMailbox(w: Plugins, mailbox: seq<Op>, b: Book)
    ensures DrainFrom(w, Waiting(mailbox), 0, b) == Drains(Waiting([]), StageAll(b, mailbox), mailbox != [])
  {
    var s, c := Waiting(mailbox), StageAll(b, mailbox);
    assert s[0 := s[0]] == s && s[1 := s[1]] == s;
    var t := s[2 := Some(Tenant(LocalTasks({}, []), [StartLocalTag, StopTag]))];
    assert t == Waiting([]) && t[3 := t[3]] == t;
    assert DrainFrom(w, t, 4, c) == Drains(t, c, false);
    assert DrainFrom(w, t, 3, c) == Drains(t, c, false);
    assert DrainFrom(w, s, 2, b) == Drains(t, c, mailbox != []);
    assert DrainFrom(w, s, 1, b) == Drains(t, c, mailbox != []);
  }

  /** The turn that commits `r` while the local mailbox holds something only stages that. */
  lemma DrainingTurn(w: World, m: MachineState, r: Request, low: Request)
    requires WorldOk(w) && Plain(m, [RequestOp(low)])
    requires |m.book.pool.pending| == 1 && m.book.pool.pending[0].op == RequestOp(r)
    ensures var n := MicroStep(w, m).machine;
      && n.hub == Hub(Store(Waiting([]), []), FULL.routes) && n.ready == [] && n.calls == m.calls
      && |n.book.pool.pending| == 1 && n.book.pool.pending[0].op == RequestOp(low)
  {
    var c := CommitPhase(w, m);
    CommitsAlone(w, m, [RequestOp(low)], r);
    DrainsMailbox(w.plugins, [RequestOp(low)], c.book);
    StagesAlone(c.book, low);
    assert [RequestOp(low)][1..] == [];
    assert StageAll(c.book, [RequestOp(low)]) == Stage(c.book, RequestOp(low), None);
  }

  lemma ApplyingTurn(w: World, m: MachineState, low: Request)
    requires WorldOk(w) && m.hub == Hub(Store(Waiting([]), []), FULL.routes) && m.ready == [] && m.calls == []
    requires |m.book.pool.pending| == 1 && m.book.pool.pending[0].op == RequestOp(low)
    ensures var n := MicroStep(w, m).machine;
      n.current == low.target && Applied(low) in n.calls && forall r :: Applied(r) in n.calls ==> r == low
  {
    var c := CommitPhase(w, m);
    CommitsAlone(w, m, [], low);
    DrainsMailbox(w.plugins, [], c.book);
    var d := DrainPhase(w, c).0;
    var change := ApplyDiscipline(w, d);
    assert DispatchPhase(w, ApplyPhase(w, d)) == ApplyPhase(w, d);
    assert MicroStep(w, m).machine.calls == change;
    assert ApplyPhase(w, d).calls[0] == Applied(low);
    forall r | Applied(r) in change ensures r == low {
      var k :| 0 <= k < |change| && change[k] == Applied(r);
    }
  }

  /** The two inputs leave the high request pending and the low one in the mailbox. */
  lemma Prepared(w: World, m: MachineState, high: Request, low: Request)
    requires WorldOk(w) && Plain(m, []) && m.book.pool.pending == [] && m.book.pool.issued == 0 && HubOk(m.hub)
    ensures var m1 := React(w, m, Submit(RequestOp(high)));
      HubOk(m1.hub)
      && var m2 := React(w, m1, Mail(2, RequestOp(low)));
         && HubOk(m2.hub) && Plain(m2, [RequestOp(low)]) && m2.calls == m.calls
         && |m2.book.pool.pending| == 1 && m2.book.pool.pending[0].op == RequestOp(high)
  {
    var m1 := React(w, m, Submit(RequestOp(high)));
    StagesAlone(m.book, high);
    assert m1.hub == m.hub;
    ReactHub(w, m1, Mail(2, RequestOp(low)));
    assert Arrive(Waiting([]), 2, RequestOp(low)) == Waiting([RequestOp(low)]) by {
      assert [] + [RequestOp(low)] == [RequestOp(low)];
    }
  }

  lemma TwoTurns(w: World, m: MachineState, high: Request, low: Request)
    requires WorldOk(w) && HubOk(m.hub) && Plain(m, [RequestOp(low)]) && m.calls == []
    requires |m.book.pool.pending| == 1 && m.book.pool.pending[0].op == RequestOp(high)
    ensures var r := Run(w, m, [Turn, Turn]);
      r.current == low.target && Applied(low) in r.calls && forall q :: Applied(q) in r.calls ==> q == low
  {
    var n := MicroStep(w, m).machine;
    DrainingTurn(w, m, high, low);
    ApplyingTurn(w, n, low);
    RunOne(w, m, [Turn, Turn]);
    assert [Turn, Turn][1..] == [Turn];
    RunOne(w, n, [Turn]);
  }

  lemma RunOne(w: World, m: MachineState, inputs: seq<Input>)
    requires WorldOk(w) && HubOk(m.hub) && inputs != []
    ensures HubOk(React(w, m, inputs[0]).hub)
    ensures Run(w, m, inputs) == Run(w, React(w, m, inputs[0]), inputs[1..])
  {
    ReactHub(w, m, inputs[0]);
  }

  lemma LowerWinsFrom(w: World, m: MachineState, high: Request, low: Request)
    requires WorldOk(w) && HubOk(m.hub) && Plain(m, [])
    requires m.book.pool.pending == [] && m.book.pool.issued == 0 && m.calls == []
    ensures var r := Run(w, m, [Submit(RequestOp(high)), Mail(2, RequestOp(low)), Turn, Turn]);
      r.current == low.target && Applied(low) in r.calls && forall q :: Applied(q) in r.calls ==> q == low
  {
    var x, y := Submit(RequestOp(high)), Mail(2, RequestOp(low));
    var m1 := React(w, m, x);
    Prepared(w, m, high, low);
    TwoTurns(w, React(w, m1, y), high, low);
    RunOne(w, m, [x, y, Turn, Turn]);
    assert [x, y, Turn, Turn][1..] == [y, Turn, Turn];
    RunOne(w, m1, [y, Turn, Turn]);
    assert [y, Turn, Turn][1..] == [Turn, Turn];
  }

  lemma FreshPlain(w: World, context: Context)
    requires WorldOk(w) && w.plugins.local && w.plugins.mt
    ensures var m := Fresh(w, context);
      Plain(m, []) && m.book.pool.pending == [] && m.book.pool.issued == 0 && m.calls == []
  {
    DefaultsFull(w.plugins);
    FullPlain(Fresh(w, context));
  }

  lemma FullPlain(m: MachineState)
    requires m.hub == FULL && m.ready == []
    requires m.book.pool == Pool(0, [RuleSlot(REQUEST_RULE, RequestRule(ByPriority()))], [])
    ensures Plain(m, [])
  {
    assert Waiting([]) == FULL.store.slots;
  }

  /** Priority does not decide between batches: a request is posted, a task emits another one of any
      lower priority, and after two turns of a new machine only the lower one has been applied. */
  lemma LowerWins(w: World, context: Context, m: MachineState, high: Request, low: Request)
    requires WorldOk(w) && w.plugins.local && w.plugins.mt && low.priority < high.priority && m == Fresh(w, context)
    ensures var r := Run(w, m, [Submit(RequestOp(high)), Mail(2, RequestOp(low)), Turn, Turn]);
      r.current == low.target && Applied(low) in r.calls && Applied(high) !in r.calls
  {
    FreshPlain(w, context);
    LowerWinsFrom(w, m, high, low);
  }
}
