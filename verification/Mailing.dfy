/** What tasks emit is asked for, and its events are dispatched, in the order of arrival. */
module Mailing {
  import opened Base
  import opened StateForest
  import opened Operations
  import opened Reconciling
  import opened Arbitration
  import opened Running
  import opened Consuming
  import opened Hubs
  import opened Routing
  import opened Machines
  import opened Discipline
  import opened Conserving
  import opened Requesting
  import opened Petitioning
  import opened Fifo
  import opened Termination

  /** `a` is `b` with some elements left out. */
  ghost predicate Within<T>(a: seq<T>, b: seq<T>)
    decreases |b|
  {
    a == [] || (b != [] && ((a[0] == b[0] && Within(a[1..], b[1..])) || Within(a, b[1..])))
  }

  lemma {:induction false} WithinSelf<T>(a: seq<T>)
    ensures Within(a, a)
    decreases |a|
  {
    if a != [] {
      WithinSelf(a[1..]);
    }
  }

  lemma {:induction false} WithinBehind<T>(a: seq<T>, x: seq<T>, b: seq<T>)
    requires Within(a, b)
    ensures Within(a, x + b)
    decreases |x|
  {
    if x == [] {
      assert x + b == b;
    } else {
      WithinBehind(a, x[1..], b);
      assert (x + b)[1..] == x[1..] + b;
    }
  }

  lemma {:induction false} WithinJoin<T>(a: seq<T>, b: seq<T>, c: seq<T>, d: seq<T>)
    requires Within(a, b) && Within(c, d)
    ensures Within(a + c, b + d)
    decreases |b|
  {
    if a == [] {
      assert a + c == c;
      WithinBehind(c, b, d);
    } else {
      assert (b + d)[1..] == b[1..] + d;
      if a[0] == b[0] && Within(a[1..], b[1..]) {
        WithinJoin(a[1..], b[1..], c, d);
        assert (a + c)[1..] == a[1..] + c;
      } else {
        WithinJoin(a, b[1..], c, d);
      }
    }
  }

  lemma WithinMore<T>(a: seq<T>, b: seq<T>, d: seq<T>)
    requires Within(a, b)
    ensures Within(a, b + d)
  {
    WithinJoin(a, b, [], d);
    assert a + [] == a;
  }

  // ---- One mailbox ----

  predicate HasMailbox(c: Consumer) {
    c.LocalTasks? || c.MtTasks?
  }

  /** A task consumer sits at slot `i`, and `tag` is routed to it. */
  ghost predicate Posted(m: MachineState, i: nat, tag: Tag) {
    && LiveAt(m.hub.store.slots, i) && HasMailbox(m.hub.store.slots[i].value.consumer)
    && i in RouteOf(m.hub.routes, tag)
  }

  function MailboxAt(slots: Slots, i: nat): seq<Op>
    requires LiveAt(slots, i) && HasMailbox(slots[i].value.consumer)
  {
    slots[i].value.consumer.mailbox
  }

  function MailIn(x: Input, i: nat): seq<Op> {
    if x.Mail? && x.slot == i then [x.op] else []
  }

  /** What arrives at slot `i`. */
  function Mailed(inputs: seq<Input>, i: nat): seq<Op> {
    if inputs == [] then [] else MailIn(inputs[0], i) + Mailed(inputs[1..], i)
  }

  /** Of what has arrived, the mailbox holds the latest, and the rest has been asked for in the order of
      arrival. */
  ghost predicate Forwarded(m: MachineState, i: nat, mailed: seq<Op>)
    requires LiveAt(m.hub.store.slots, i) && HasMailbox(m.hub.store.slots[i].value.consumer)
  {
    exists gone: seq<Op> ::
      mailed == gone + MailboxAt(m.hub.store.slots, i) && Within(AtDefault(gone), Petitions(m.book.ledger))
  }

  /** Routing touches no mailbox. */
  lemma {:induction false} RouteMailbox(
    w: Plugins, routes: map<Tag, seq<nat>>, b: Bench, t: Ticket, op: Op, next: nat, i: nat)
    requires Ranked(w) && LiveAt(b.slots, i) && HasMailbox(b.slots[i].value.consumer)
    ensures var r := Route(w, routes, b, t, op, next).slots;
      LiveAt(r, i) && HasMailbox(r[i].value.consumer) && MailboxAt(r, i) == MailboxAt(b.slots, i)
    decreases w.rank(op), |RouteOf(routes, TagOf(op))| - next
  {
    if next < |RouteOf(routes, TagOf(op))| {
      var k := routes[TagOf(op)][next];
      if !LiveAt(b.slots, k) {
        RouteMailbox(w, routes, b, t, op, next + 1, i);
      } else {
        var a := Attempt(w, b, t, op, next, k);
        NextRanks(w, b.slots[k].value.consumer, t, op, b.ready, b.slot);
        if a.flow.Next? {
          RouteMailbox(w, routes, a.bench, t, a.flow.op, if TagOf(a.flow.op) != TagOf(op) then 0 else next + 1, i);
        }
      }
    }
  }

  lemma {:induction false} DeliverMailbox(
    w: Plugins, routes: map<Tag, seq<nat>>, b: Bench, batch: seq<Entry>, i: nat)
    requires Ranked(w) && LiveAt(b.slots, i) && HasMailbox(b.slots[i].value.consumer)
    ensures var r := Deliver(w, routes, b, batch).slots;
      LiveAt(r, i) && HasMailbox(r[i].value.consumer) && MailboxAt(r, i) == MailboxAt(b.slots, i)
    decreases |batch|
  {
    if batch != [] {
      var e := batch[0];
      var b1 := b.(ledger := b.ledger + [Committed(e.ticket, e.op)]);
      RouteMailbox(w, routes, b1, e.ticket, e.op, 0, i);
      DeliverMailbox(w, routes, Route(w, routes, b1, e.ticket, e.op, 0), batch[1..], i);
    }
  }

  lemma {:induction false} MailboxWaits(w: Plugins, slots: Slots, k: nat, i: nat)
    requires k <= i && LiveAt(slots, i) && HasMailbox(slots[i].value.consumer)
    ensures Within(AtDefault(MailboxAt(slots, i)), WaitingFrom(w, slots, k))
    decreases i - k
  {
    var here := if slots[k].Some? then WaitingIn(w, slots[k].value.consumer) else [];
    var mine := AtDefault(MailboxAt(slots, i));
    if k == i {
      WithinSelf(mine);
      WithinMore(mine, here, WaitingFrom(w, slots, k + 1));
    } else {
      MailboxWaits(w, slots, k + 1, i);
      WithinBehind(mine, here, WaitingFrom(w, slots, k + 1));
    }
  }

  /** After its drains, a turn has asked for everything that was waiting, and for the rest later. */
  lemma TurnPetitions(w: World, m: MachineState)
    requires WorldOk(w)
    ensures var c := CommitPhase(w, m);
      Petitions(m.book.ledger) + WaitingFrom(w.plugins, c.hub.store.slots, 0) <=
      Petitions(MicroStep(w, m).machine.book.ledger)
  {
    var c := CommitPhase(w, m);
    var (d, any) := DrainPhase(w, c);
    CommitPetitions(w, m);
    DrainsPetitions(w.plugins, c.hub.store.slots, 0, c.book);
    if !any {
      AfterDrains(w, d);
      FilingPetitions(d.book.ledger, DispatchPhase(w, ApplyPhase(w, d)).book.ledger);
    }
  }

  lemma CommitMailbox(w: World, m: MachineState, i: nat, tag: Tag)
    requires WorldOk(w) && Posted(m, i, tag)
    ensures var c := CommitPhase(w, m);
      Posted(c, i, tag) && MailboxAt(c.hub.store.slots, i) == MailboxAt(m.hub.store.slots, i)
  {
    DeliverMailbox(w.plugins, m.hub.routes, BenchOf(m), m.book.pool.pending, i);
  }

  lemma DrainMailbox(w: World, c: MachineState, i: nat, tag: Tag)
    requires Posted(c, i, tag)
    ensures var d := DrainPhase(w, c).0; Posted(d, i, tag) && MailboxAt(d.hub.store.slots, i) == []
  {
    DrainsEmpty(w.plugins, c.hub.store.slots, 0, c.book);
  }

  lemma TurnEmpties(w: World, m: MachineState, i: nat, tag: Tag)
    requires WorldOk(w) && Posted(m, i, tag)
    ensures var r := MicroStep(w, m).machine; Posted(r, i, tag) && MailboxAt(r.hub.store.slots, i) == []
  {
    var c := CommitPhase(w, m);
    CommitMailbox(w, m, i, tag);
    DrainMailbox(w, c, i, tag);
    DispatchKeeps(w, ApplyPhase(w, DrainPhase(w, c).0));
  }

  lemma TurnForwards(w: World, m: MachineState, i: nat, tag: Tag, mailed: seq<Op>)
    requires WorldOk(w) && Posted(m, i, tag) && Forwarded(m, i, mailed)
    ensures var r := MicroStep(w, m).machine; Posted(r, i, tag) && Forwarded(r, i, mailed)
  {
    var c, r := CommitPhase(w, m).hub.store.slots, MicroStep(w, m).machine;
    var mailbox, before := MailboxAt(m.hub.store.slots, i), Petitions(m.book.ledger);
    CommitMailbox(w, m, i, tag);
    TurnEmpties(w, m, i, tag);
    TurnPetitions(w, m);
    MailboxWaits(w.plugins, c, 0, i);
    var gone: seq<Op> :| mailed == gone + mailbox && Within(AtDefault(gone), before);
    MailAsked(gone, mailbox, before, WaitingFrom(w.plugins, c, 0), Petitions(r.book.ledger));
    assert mailed == mailed + [];
  }

  lemma MailAsked(gone: seq<Op>, mailbox: seq<Op>, before: seq<Petition>, waiting: seq<Petition>, now: seq<Petition>)
    requires Within(AtDefault(gone), before) && Within(AtDefault(mailbox), waiting) && before + waiting <= now
    ensures Within(AtDefault(gone + mailbox), now)
  {
    AtDefaultConcat(gone, mailbox);
    WithinJoin(AtDefault(gone), before, AtDefault(mailbox), waiting);
    WithinMore(AtDefault(gone + mailbox), before + waiting, now[|before + waiting|..]);
    assert now == before + waiting + now[|before + waiting|..];
  }

  /** Nothing but a turn empties the mailbox, and mail goes to its end. */
  lemma InputForwards(w: World, m: MachineState, x: Input, i: nat, tag: Tag, mailed: seq<Op>)
    requires WorldOk(w) && HubOk(m.hub) && Posted(m, i, tag) && Forwarded(m, i, mailed)
    requires !x.Turn? && !x.Reset? && Spares(x, tag)
    ensures var r := React(w, m, x); Posted(r, i, tag) && Forwarded(r, i, mailed + MailIn(x, i))
  {
    InputPosted(w, m, x, i, tag);
    ReactPetitions(w, m, x);
    MoreMail(m, React(w, m, x), i, mailed, MailIn(x, i));
  }

  lemma MoreMail(m: MachineState, r: MachineState, i: nat, mailed: seq<Op>, more: seq<Op>)
    requires LiveAt(m.hub.store.slots, i) && HasMailbox(m.hub.store.slots[i].value.consumer)
    requires LiveAt(r.hub.store.slots, i) && HasMailbox(r.hub.store.slots[i].value.consumer)
    requires Forwarded(m, i, mailed) && Petitions(m.book.ledger) <= Petitions(r.book.ledger)
    requires MailboxAt(r.hub.store.slots, i) == MailboxAt(m.hub.store.slots, i) + more
    ensures Forwarded(r, i, mailed + more)
  {
    var mailbox, before, now := MailboxAt(m.hub.store.slots, i), Petitions(m.book.ledger), Petitions(r.book.ledger);
    var gone: seq<Op> :| mailed == gone + mailbox && Within(AtDefault(gone), before);
    WithinMore(AtDefault(gone), before, now[|before|..]);
    assert now == before + now[|before|..];
    Assoc(gone, mailbox, more);
  }

  lemma InputPosted(w: World, m: MachineState, x: Input, i: nat, tag: Tag)
    requires WorldOk(w) && HubOk(m.hub) && Posted(m, i, tag) && !x.Turn? && !x.Reset? && Spares(x, tag)
    ensures var r := React(w, m, x);
      Posted(r, i, tag)
      && MailboxAt(r.hub.store.slots, i) ==
         MailboxAt(m.hub.store.slots, i) + MailIn(x, i)
  {
    match x
    case Register(c, t, more) =>
      RegisterFirst(m.hub, c, [t] + more, tag);
      assert i in m.hub.routes[tag];
    case Unregister(tags) =>
      UnregisterFirst(m.hub, tags, tag);
      assert i in m.hub.routes[tag];
    case Mail(k, op) => MailPosted(m, k, op, i, tag);
    case _ =>
  }

  lemma MailPosted(m: MachineState, k: nat, op: Op, i: nat, tag: Tag)
    requires Posted(m, i, tag)
    ensures var r := WithSlots(m, Arrive(m.hub.store.slots, k, op));
      Posted(r, i, tag)
      && MailboxAt(r.hub.store.slots, i) == MailboxAt(m.hub.store.slots, i) + (if k == i then [op] else [])
  {
  }

  /** Over every run that keeps the consumer: all that ever arrived in its mailbox is either still in
      there, the latest last, or has been asked for, in the order of arrival. */
  lemma {:induction false} MailForwarded(
    w: World, m: MachineState, inputs: seq<Input>, i: nat, tag: Tag, mailed: seq<Op>)
    requires WorldOk(w) && HubOk(m.hub) && Posted(m, i, tag) && Forwarded(m, i, mailed)
    requires forall x :: x in inputs ==> !x.Reset? && Spares(x, tag)
    ensures var r := Run(w, m, inputs); Posted(r, i, tag) && Forwarded(r, i, mailed + Mailed(inputs, i))
    decreases |inputs|
  {
    if inputs == [] {
      assert mailed + [] == mailed;
    } else {
      assert inputs[0] in inputs;
      ReactHub(w, m, inputs[0]);
      ReactForwards(w, m, inputs[0], i, tag, mailed);
      MailForwarded(w, React(w, m, inputs[0]), inputs[1..], i, tag, mailed + MailIn(inputs[0], i));
      Assoc(mailed, MailIn(inputs[0], i), Mailed(inputs[1..], i));
    }
  }

  lemma ReactForwards(w: World, m: MachineState, x: Input, i: nat, tag: Tag, mailed: seq<Op>)
    requires WorldOk(w) && HubOk(m.hub) && Posted(m, i, tag) && Forwarded(m, i, mailed)
    requires !x.Reset? && Spares(x, tag)
    ensures var r := React(w, m, x); Posted(r, i, tag) && Forwarded(r, i, mailed + MailIn(x, i))
  {
    if x.Turn? {
      TurnForwards(w, m, i, tag, mailed);
      assert mailed + MailIn(x, i) == mailed;
    } else {
      InputForwards(w, m, x, i, tag, mailed);
    }
  }

  // ---- Events ----

  function EventsAmong(ops: seq<Op>): seq<Event> {
    if ops == [] then [] else (if ops[0].EventOp? then [ops[0].event] else []) + EventsAmong(ops[1..])
  }

  function EventsAsked(petitions: seq<Petition>): seq<Event> {
    if petitions == [] then []
    else (if petitions[0].op.EventOp? then [petitions[0].op.event] else []) + EventsAsked(petitions[1..])
  }

  lemma {:induction false} AskedEvents(ledger: seq<Note>)
    ensures EventsAsked(Petitions(ledger)) == StagedEvents(ledger)
  {
    if ledger != [] {
      AskedEvents(ledger[1..]);
      if Enters(ledger[0]) {
        var p := Petition(ledger[0].op, ledger[0].ticket.priority);
        assert ([p] + Petitions(ledger[1..]))[1..] == Petitions(ledger[1..]);
      } else {
        assert [] + Petitions(ledger[1..]) == Petitions(ledger[1..]);
      }
    }
  }

  lemma {:induction false} DefaultEvents(ops: seq<Op>)
    ensures EventsAsked(AtDefault(ops)) == EventsAmong(ops)
  {
    if ops != [] {
      DefaultEvents(ops[1..]);
      assert AtDefault(ops)[1..] == AtDefault(ops[1..]);
    }
  }

  lemma {:induction false} EventsWithin(a: seq<Petition>, b: seq<Petition>)
    requires Within(a, b)
    ensures Within(EventsAsked(a), EventsAsked(b))
    decreases |b|
  {
    if a != [] {
      var first := if b[0].op.EventOp? then [b[0].op.event] else [];
      if a[0] == b[0] && Within(a[1..], b[1..]) {
        EventsWithin(a[1..], b[1..]);
        WithinSelf(first);
        WithinJoin(first, first, EventsAsked(a[1..]), EventsAsked(b[1..]));
      } else {
        EventsWithin(a, b[1..]);
        WithinBehind(EventsAsked(a), first, EventsAsked(b[1..]));
      }
    }
  }

  /** Once the mailbox is empty, all events that ever arrived in it are among the events dispatched, ready
      and pending, in the order of arrival. */
  lemma MailedEvents(m: MachineState, i: nat, mailed: seq<Op>)
    requires LiveAt(m.hub.store.slots, i) && HasMailbox(m.hub.store.slots[i].value.consumer)
    requires Forwarded(m, i, mailed) && MailboxAt(m.hub.store.slots, i) == []
    requires Fifo.InOrder(m) && m.book.pool.issued <= WRAP
    ensures Within(EventsAmong(mailed), EventsOf(m.calls) + m.ready + EventsIn(m.book.pool.pending))
  {
    var gone: seq<Op> :| mailed == gone + MailboxAt(m.hub.store.slots, i)
                         && Within(AtDefault(gone), Petitions(m.book.ledger));
    assert gone == mailed;
    EventsWithin(AtDefault(mailed), Petitions(m.book.ledger));
    DefaultEvents(mailed);
    AskedEvents(m.book.ledger);
  }

  /** Mail from birth to rest: after any run and then advancing, the events that arrived in the mailbox
      have been dispatched in the order of arrival. */
  lemma MailDispatched(w: World, k: Scale, m: MachineState, inputs: seq<Input>, i: nat, tag: Tag)
    requires WorldOk(w) && Lighter(w, k) && HubOk(m.hub) && Mintless(w.plugins, EventTag) && DrainsFlat(w.plugins)
    requires Posted(m, i, tag) && MailboxAt(m.hub.store.slots, i) == [] && Fifo.InOrder(m)
    requires forall x :: x in inputs ==> !x.Reset? && Spares(x, tag) && Spares(x, EventTag)
    ensures var r := Advance(w, k, Run(w, m, inputs));
      r.book.pool.issued <= WRAP ==> Within(EventsAmong(Mailed(inputs, i)), EventsOf(r.calls))
  {
    var n := Run(w, m, inputs);
    assert [] + MailboxAt(m.hub.store.slots, i) == [] && Within(AtDefault([]), Petitions(m.book.ledger));
    MailForwarded(w, m, inputs, i, tag, []);
    assert [] + Mailed(inputs, i) == Mailed(inputs, i);
    EventsFifo(w, m, inputs);
    AdvanceForwards(w, k, n, i, tag, Mailed(inputs, i));
  }

  lemma AdvanceForwards(w: World, k: Scale, m: MachineState, i: nat, tag: Tag, mailed: seq<Op>)
    requires WorldOk(w) && Lighter(w, k) && HubOk(m.hub) && Mintless(w.plugins, EventTag) && DrainsFlat(w.plugins)
    requires Posted(m, i, tag) && Forwarded(m, i, mailed) && Fifo.InOrder(m)
    ensures var r := Advance(w, k, m); r.book.pool.issued <= WRAP ==> Within(EventsAmong(mailed), EventsOf(r.calls))
  {
    var turns := AdvanceSettles(w, k, m);
    var r := Advance(w, k, m);
    MailForwarded(w, m, turns, i, tag, mailed);
    TurnsMailNothing(turns, i);
    assert mailed + [] == mailed;
    EventsFifo(w, m, turns);
    if r.book.pool.issued <= WRAP {
      MailedSettled(r, i, mailed);
    }
  }

  lemma MailedSettled(r: MachineState, i: nat, mailed: seq<Op>)
    requires LiveAt(r.hub.store.slots, i) && HasMailbox(r.hub.store.slots[i].value.consumer)
    requires Forwarded(r, i, mailed) && Settled(r) && Fifo.InOrder(r) && r.book.pool.issued <= WRAP
    ensures Within(EventsAmong(mailed), EventsOf(r.calls))
  {
    assert Termination.Drained(r.hub.store.slots[i].value.consumer);
    MailedEvents(r, i, mailed);
    assert EventsOf(r.calls) + [] + [] == EventsOf(r.calls);
  }

  lemma {:induction false} TurnsMailNothing(turns: seq<Input>, i: nat)
    requires forall x :: x in turns ==> x.Turn?
    ensures Mailed(turns, i) == []
  {
    if turns != [] {
      assert turns[0] in turns;
      TurnsMailNothing(turns[1..], i);
    }
  }
}
