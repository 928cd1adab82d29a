/** What a caller of `advance` can rely on when it returns. */
module Advancing {
  import opened Base
  import opened StateForest
  import opened Operations
  import opened Reconciling
  import opened Arbitration
  import opened Consuming
  import opened Hubs
  import opened Machines
  import opened Discipline
  import opened Requesting
  import opened Fates
  import opened Fifo
  import opened Termination

  /** Every event ever staged has been dispatched, once, in the order of staging. */
  lemma AdvanceDispatchesAll(w: World, k: Scale, m: MachineState)
    requires WorldOk(w) && Lighter(w, k) && HubOk(m.hub)
    requires Mintless(w.plugins, EventTag) && DrainsFlat(w.plugins) && Fifo.InOrder(m)
    ensures var r := Advance(w, k, m);
      Fifo.InOrder(r) && (r.book.pool.issued <= WRAP ==> EventsOf(r.calls) == StagedEvents(r.book.ledger))
  {
    var turns := AdvanceSettles(w, k, m);
    EventsFifo(w, m, turns);
    var r := Advance(w, k, m);
    assert r.ready == [] && EventsIn(r.book.pool.pending) == [];
  }

  /** Every request ever asked for has been decided: applied, refused or ousted by the arbiter, or
      overwritten in the slot by a later batch, as often as it was asked for. */
  lemma AdvanceDecidesAll(w: World, k: Scale, m: MachineState, r: Request)
    requires WorldOk(w) && Lighter(w, k) && HubOk(m.hub) && Mintless(w.plugins, RequestTag) && Booked(m, r)
    ensures var n := Advance(w, k, m); var l := n.book.ledger;
      && Booked(n, r)
      && (n.book.pool.issued <= WRAP ==>
            Often(l, Wanted, r) ==
            Often(l, Carried, r) + Often(l, Refused, r) + Often(l, Ousted, r) + Often(l, Replaced, r))
  {
    var turns := AdvanceSettles(w, k, m);
    RequestFates(w, m, turns, r);
    var n := Advance(w, k, m);
    assert PendingRequest(n.book.pool.pending) == None && n.slot == None;
  }
}
