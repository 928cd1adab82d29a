/** What one staging keeps is kept by everything that stages, through all phases of a microstep. */
module Staging {
  import opened Base
  import opened StateForest
  import opened Operations
  import opened Reconciling
  import opened Arbitration
  import opened Running
  import opened Consuming
  import opened Hubs
  import opened Routing
  import opened Machines

  /** Every staging that fits keeps the property; the default priority always fits. */
  ghost predicate Stages(inv: Book -> bool, fit: Offer -> bool) {
    && (forall op :: fit(Offer(op, None)))
    && forall b, op, priority :: inv(b) && fit(Offer(op, priority)) ==> inv(Stage(b, op, priority))
  }

  /** Whatever custom consumers drain fits. */
  ghost predicate DrainsFit(w: Plugins, fit: Offer -> bool) {
    forall s, k :: 0 <= k < |w.drain(s).offers| ==> fit(w.drain(s).offers[k])
  }

  /** Every offer fits. */
  function Any(): Offer -> bool {
    (o: Offer) => true
  }

  lemma {:induction false} StageAllKeeps(inv: Book -> bool, fit: Offer -> bool, b: Book, ops: seq<Op>)
    requires Stages(inv, fit) && inv(b)
    ensures inv(StageAll(b, ops))
    decreases |ops|
  {
    if ops != [] {
      assert fit(Offer(ops[0], None));
      StageAllKeeps(inv, fit, Stage(b, ops[0], None), ops[1..]);
    }
  }

  lemma {:induction false} StageOffersKeeps(inv: Book -> bool, fit: Offer -> bool, b: Book, offers: seq<Offer>)
    requires Stages(inv, fit) && inv(b) && forall k :: 0 <= k < |offers| ==> fit(offers[k])
    ensures inv(StageOffers(b, offers))
    decreases |offers|
  {
    if offers != [] {
      assert offers[0] == Offer(offers[0].op, offers[0].priority);
      StageOffersKeeps(inv, fit, Stage(b, offers[0].op, offers[0].priority), offers[1..]);
    }
  }

  lemma DrainKeeps(w: Plugins, inv: Book -> bool, fit: Offer -> bool, c: Consumer, b: Book)
    requires Stages(inv, fit) && DrainsFit(w, fit) && inv(b)
    ensures inv(Drain(w, c, b).book)
  {
    match c
    case LocalTasks(_, mailbox) => StageAllKeeps(inv, fit, b, mailbox);
    case MtTasks(_, mailbox) => StageAllKeeps(inv, fit, b, mailbox);
    case Custom(s) => StageOffersKeeps(inv, fit, b, w.drain(s).offers);
    case _ =>
  }

  lemma {:induction false} DrainsKeep(w: Plugins, inv: Book -> bool, fit: Offer -> bool, slots: Slots, i: nat, b: Book)
    requires i <= |slots| && Stages(inv, fit) && DrainsFit(w, fit) && inv(b)
    ensures inv(DrainFrom(w, slots, i, b).book)
    decreases |slots| - i
  {
    if i < |slots| {
      if slots[i].None? {
        DrainsKeep(w, inv, fit, slots, i + 1, b);
      } else {
        var d := Drain(w, slots[i].value.consumer, b);
        DrainKeeps(w, inv, fit, slots[i].value.consumer, b);
        DrainsKeep(w, inv, fit, slots[i := Some(slots[i].value.(consumer := d.consumer))], i + 1, d.book);
      }
    }
  }

  lemma ReplyKeeps(inv: Book -> bool, fit: Offer -> bool, b: Book, a: Answer)
    requires Stages(inv, fit) && inv(b)
    ensures inv(StageReply(StageAll(b, a.trace.ops), a.reply))
  {
    StageAllKeeps(inv, fit, b, a.trace.ops);
    if a.reply.Transition? {
      assert fit(Offer(RequestOp(Request(a.reply.target, NORMAL)), None));
    }
  }

  lemma {:induction false} DispatchKeepsBook(w: World, inv: Book -> bool, fit: Offer -> bool, m: MachineState)
    requires WorldOk(w) && Stages(inv, fit) && inv(m.book)
    ensures inv(DispatchPhase(w, m).book)
    decreases |m.ready|
  {
    if m.ready != [] {
      ReplyKeeps(inv, fit, m.book, Bubble(w.tree, w.behaviors, m.current, m.current, m.ready[0], m.context));
      DispatchKeepsBook(w, inv, fit, DispatchOne(w, m.(ready := m.ready[1..]), m.ready[0]));
    }
  }

  /** The book when the slot has been taken and its transition is about to run. */
  function AfterTaking(m: MachineState): Book {
    if m.slot.Some? then m.book.(ledger := m.book.ledger + [Taken(m.slot.value)]) else m.book
  }

  lemma ApplyKeeps(w: World, inv: Book -> bool, fit: Offer -> bool, m: MachineState)
    requires WorldOk(w) && Stages(inv, fit) && inv(AfterTaking(m))
    ensures inv(ApplyPhase(w, m).book)
  {
    if m.slot.Some? {
      var t := TransitionTrace(w.tree, w.behaviors, m.current, m.slot.value.target, m.context);
      StageAllKeeps(inv, fit, AfterTaking(m), t.ops);
    }
  }

  /** A property that holds after the commit holds after the drains; if taking the slot turns it into
      another one, that one holds at the end of the turn. */
  lemma TurnKeeps(w: World, inv: Book -> bool, after: Book -> bool, fit: Offer -> bool, m: MachineState)
    requires WorldOk(w) && Stages(inv, fit) && Stages(after, fit) && DrainsFit(w.plugins, fit)
    requires var c := CommitPhase(w, m); inv(c.book) && forall b :: inv(b) ==> after(AfterTaking(c.(book := b)))
    ensures var r := MicroStep(w, m).machine;
      if DrainPhase(w, CommitPhase(w, m)).1 then inv(r.book) else after(r.book)
  {
    var c := CommitPhase(w, m);
    var (d, any) := DrainPhase(w, c);
    DrainsKeep(w.plugins, inv, fit, c.hub.store.slots, 0, c.book);
    if !any {
      assert AfterTaking(d) == AfterTaking(c.(book := d.book));
      ApplyKeeps(w, after, fit, d);
      DispatchKeepsBook(w, after, fit, ApplyPhase(w, d));
    }
  }
}
