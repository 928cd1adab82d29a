/** What is asked of the reconciler, by whom, in which order and at which priority. */
module Petitioning {
  import opened Base
  import opened StateForest
  import opened Operations
  import opened Reconciling
  import opened Arbitration
  import opened Running
  import opened Consuming
  import opened Hubs
  import opened Routing
  import opened Machines
  import opened Discipline
  import opened Callbacks
  import opened Conserving

  /** An operation that somebody asked to be staged, and the ticket priority asked for. */
  datatype Petition = Petition(op: Op, priority: nat)

  function AskedIn(n: Note): seq<Petition> {
    if Enters(n) then [Petition(n.op, n.ticket.priority)] else []
  }

  /** All petitions so far, in the order of asking, whatever the rules made of them. */
  function Petitions(ledger: seq<Note>): seq<Petition> {
    if ledger == [] then [] else AskedIn(ledger[0]) + Petitions(ledger[1..])
  }

  lemma {:induction false} PetitionsConcat(a: seq<Note>, b: seq<Note>)
    ensures Petitions(a + b) == Petitions(a) + Petitions(b)
    decreases |a|
  {
    if a == [] {
      assert a + b == b;
    } else {
      assert (a + b)[1..] == a[1..] + b;
      PetitionsConcat(a[1..], b);
    }
  }

  lemma {:induction false} NoPetitions(notes: seq<Note>)
    requires forall k :: 0 <= k < |notes| ==> !Enters(notes[k])
    ensures Petitions(notes) == []
  {
    if notes != [] {
      assert forall k :: 0 <= k < |notes| - 1 ==> notes[1..][k] == notes[k + 1];
      NoPetitions(notes[1..]);
    }
  }

  lemma PetitionsOne(a: seq<Note>, n: Note)
    ensures Petitions(a + [n]) == Petitions(a) + AskedIn(n)
  {
    PetitionsConcat(a, [n]);
    assert [n][1..] == [];
  }

  /** Operations without a priority of their own. */
  function AtDefault(ops: seq<Op>): seq<Petition> {
    if ops == [] then [] else [Petition(ops[0], 0)] + AtDefault(ops[1..])
  }

  function AsOffered(offers: seq<Offer>): seq<Petition> {
    if offers == [] then []
    else
      var p := if offers[0].priority.Some? then offers[0].priority.value else 0;
      [Petition(offers[0].op, p)] + AsOffered(offers[1..])
  }

  lemma {:induction false} AtDefaultConcat(a: seq<Op>, b: seq<Op>)
    ensures AtDefault(a + b) == AtDefault(a) + AtDefault(b)
    decreases |a|
  {
    if a == [] {
      assert a + b == b;
    } else {
      assert (a + b)[1..] == a[1..] + b;
      AtDefaultConcat(a[1..], b);
    }
  }

  // ---- Staging ----

  lemma StagePetitions(b: Book, op: Op, priority: Option<nat>)
    ensures Petitions(Stage(b, op, priority).ledger) ==
            Petitions(b.ledger) + [Petition(op, if priority.Some? then priority.value else 0)]
  {
    var more, last := StageShape(b, op, priority);
    forall k | 0 <= k < |more| ensures !Enters(more[k]) {
      assert more[k] in more;
    }
    NoPetitions(more);
    PetitionsConcat(b.ledger, more);
    PetitionsOne(b.ledger + more, last);
  }

  lemma {:induction false} StageAllPetitions(b: Book, ops: seq<Op>)
    ensures Petitions(StageAll(b, ops).ledger) == Petitions(b.ledger) + AtDefault(ops)
    decreases |ops|
  {
    if ops != [] {
      StagePetitions(b, ops[0], None);
      StageAllPetitions(Stage(b, ops[0], None), ops[1..]);
      Assoc(Petitions(b.ledger), [Petition(ops[0], 0)], AtDefault(ops[1..]));
    } else {
      assert Petitions(b.ledger) + [] == Petitions(b.ledger);
    }
  }

  lemma {:induction false} StageOffersPetitions(b: Book, offers: seq<Offer>)
    ensures Petitions(StageOffers(b, offers).ledger) == Petitions(b.ledger) + AsOffered(offers)
    decreases |offers|
  {
    if offers != [] {
      var first := Petition(offers[0].op, if offers[0].priority.Some? then offers[0].priority.value else 0);
      StagePetitions(b, offers[0].op, offers[0].priority);
      StageOffersPetitions(Stage(b, offers[0].op, offers[0].priority), offers[1..]);
      Assoc(Petitions(b.ledger), [first], AsOffered(offers[1..]));
    } else {
      assert Petitions(b.ledger) + [] == Petitions(b.ledger);
    }
  }

  // ---- Draining ----

  /** What a consumer has waiting: a mailbox in the order of arrival, or the offers of a custom drain. */
  function WaitingIn(w: Plugins, c: Consumer): seq<Petition> {
    match c
    case LocalTasks(_, mailbox) => AtDefault(mailbox)
    case MtTasks(_, mailbox) => AtDefault(mailbox)
    case Custom(s) => AsOffered(w.drain(s).offers)
    case _ => []
  }

  predicate Flags(w: Plugins, c: Consumer) {
    match c
    case LocalTasks(_, mailbox) => mailbox != []
    case MtTasks(_, mailbox) => mailbox != []
    case Custom(s) => w.drain(s).flag
    case _ => false
  }

  function Emptied(w: Plugins, c: Consumer): Consumer {
    match c
    case LocalTasks(running, _) => LocalTasks(running, [])
    case MtTasks(running, _) => MtTasks(running, [])
    case Custom(s) => Custom(w.drain(s).state)
    case _ => c
  }

  /** A drain asks for exactly what the consumer has waiting, oldest first and at its own priorities. */
  lemma DrainPetitions(w: Plugins, c: Consumer, b: Book)
    ensures var d := Drain(w, c, b);
      && Petitions(d.book.ledger) == Petitions(b.ledger) + WaitingIn(w, c)
      && d.consumer == Emptied(w, c) && d.flag == Flags(w, c)
  {
    match c
    case LocalTasks(_, mailbox) => StageAllPetitions(b, mailbox);
    case MtTasks(_, mailbox) => StageAllPetitions(b, mailbox);
    case Custom(s) => StageOffersPetitions(b, w.drain(s).offers);
    case _ => assert Petitions(b.ledger) + [] == Petitions(b.ledger);
  }

  function WaitingFrom(w: Plugins, slots: Slots, i: nat): seq<Petition>
    requires i <= |slots|
    decreases |slots| - i
  {
    if i == |slots| then []
    else (if slots[i].Some? then WaitingIn(w, slots[i].value.consumer) else []) + WaitingFrom(w, slots, i + 1)
  }

  lemma {:induction false} WaitingElsewhere(w: Plugins, slots: Slots, k: nat, t: Option<Tenant>, i: nat)
    requires k < i <= |slots|
    ensures WaitingFrom(w, slots[k := t], i) == WaitingFrom(w, slots, i)
    decreases |slots| - i
  {
    if i < |slots| {
      WaitingElsewhere(w, slots, k, t, i + 1);
    }
  }

  /** All consumers are drained, in slot order, each once. */
  lemma {:induction false} DrainsPetitions(w: Plugins, slots: Slots, i: nat, b: Book)
    requires i <= |slots|
    ensures Petitions(DrainFrom(w, slots, i, b).book.ledger) == Petitions(b.ledger) + WaitingFrom(w, slots, i)
    decreases |slots| - i
  {
    if i == |slots| {
      assert Petitions(b.ledger) + [] == Petitions(b.ledger);
    } else if slots[i].None? {
      DrainsPetitions(w, slots, i + 1, b);
    } else {
      var t := slots[i].value;
      var d := Drain(w, t.consumer, b);
      DrainPetitions(w, t.consumer, b);
      DrainsPetitions(w, slots[i := Some(t.(consumer := d.consumer))], i + 1, d.book);
      WaitingElsewhere(w, slots, i, Some(t.(consumer := d.consumer)), i + 1);
      Assoc(Petitions(b.ledger), WaitingIn(w, t.consumer), WaitingFrom(w, slots, i + 1));
    }
  }

  function EmptiedSlot(w: Plugins, t: Option<Tenant>): Option<Tenant> {
    if t.Some? then Some(t.value.(consumer := Emptied(w, t.value.consumer))) else None
  }

  lemma {:induction false} DrainsEmpty(w: Plugins, slots: Slots, i: nat, b: Book)
    requires i <= |slots|
    ensures var d := DrainFrom(w, slots, i, b).slots;
      |d| == |slots| && forall k :: 0 <= k < |slots| ==> d[k] == if k >= i then EmptiedSlot(w, slots[k]) else slots[k]
    decreases |slots| - i
  {
    if i < |slots| {
      if slots[i].None? {
        DrainsEmpty(w, slots, i + 1, b);
      } else {
        var t := slots[i].value;
        var d := Drain(w, t.consumer, b);
        DrainPetitions(w, t.consumer, b);
        DrainsEmpty(w, slots[i := Some(t.(consumer := d.consumer))], i + 1, d.book);
      }
    }
  }

  /** The flag tells whether any of them had something. */
  lemma {:induction false} DrainsFlag(w: Plugins, slots: Slots, i: nat, b: Book)
    requires i <= |slots|
    ensures DrainFrom(w, slots, i, b).any <==>
            exists k: nat :: i <= k && LiveAt(slots, k) && Flags(w, slots[k].value.consumer)
    decreases |slots| - i
  {
    if i < |slots| {
      if slots[i].None? {
        DrainsFlag(w, slots, i + 1, b);
        assert forall k: nat :: LiveAt(slots, k) && i <= k ==> i + 1 <= k;
      } else {
        var t := slots[i].value;
        var d := Drain(w, t.consumer, b);
        var next := slots[i := Some(t.(consumer := d.consumer))];
        DrainPetitions(w, t.consumer, b);
        DrainsFlag(w, next, i + 1, d.book);
        FlagsSplit(w, slots, next, i);
      }
    }
  }

  lemma FlagsSplit(w: Plugins, slots: Slots, next: Slots, i: nat)
    requires LiveAt(slots, i) && |next| == |slots| && forall k: nat :: i < k < |slots| ==> next[k] == slots[k]
    ensures (exists k: nat :: i <= k && LiveAt(slots, k) && Flags(w, slots[k].value.consumer)) <==>
            Flags(w, slots[i].value.consumer)
            || exists k: nat :: i + 1 <= k && LiveAt(next, k) && Flags(w, next[k].value.consumer)
  {
    if k: nat :| i <= k && LiveAt(slots, k) && Flags(w, slots[k].value.consumer) {
      if k > i {
        assert LiveAt(next, k);
      }
    }
    if k: nat :| i + 1 <= k && LiveAt(next, k) && Flags(w, next[k].value.consumer) {
      assert LiveAt(slots, k);
    }
  }

  // ---- Applying and dispatching ----

  /** Applying the slot: the machine moves to the target, `on_exit` and `on_enter` are called along the
      proposal, and exactly what they stage is asked for, in order. */
  lemma ApplyCalls(w: World, m: MachineState)
    returns (out: seq<Context>, into: seq<Context>, left: seq<seq<Op>>, entered: seq<seq<Op>>)
    requires WorldOk(w) && m.slot.Some?
    ensures var r, n := m.slot.value, ApplyPhase(w, m);
      var p := Propose(w.tree, m.current, r.target);
      var tr := Transit(m.current, r.target, p.exits, p.enters);
      && Threads(w.behaviors, tr, p.exits, false, out, left) && Threads(w.behaviors, tr, p.enters, true, into, entered)
      && out[0] == m.context && into[0] == out[|p.exits|] && n.context == into[|p.enters|]
      && Petitions(n.book.ledger) == Petitions(m.book.ledger) + AtDefault(Concat(left) + Concat(entered))
      && n.current == r.target && n.slot == None && n.ready == m.ready && n.hub == m.hub
      && n.calls == m.calls + [Applied(r)]
                    + (Recorded(w.behaviors, p.exits, false) + Recorded(w.behaviors, p.enters, true))
  {
    var r := m.slot.value;
    out, into, left, entered := TransitionCalls(w.tree, w.behaviors, m.current, r.target, m.context);
    var t := TransitionTrace(w.tree, w.behaviors, m.current, r.target, m.context);
    ApplyTakes(w, m, t);
  }

  lemma ApplyTakes(w: World, m: MachineState, t: Trace)
    requires WorldOk(w) && m.slot.Some?
    requires t == TransitionTrace(w.tree, w.behaviors, m.current, m.slot.value.target, m.context)
    ensures var n := ApplyPhase(w, m);
      && Petitions(n.book.ledger) == Petitions(m.book.ledger) + AtDefault(t.ops)
      && n.context == t.context && n.calls == m.calls + [Applied(m.slot.value)] + t.calls
      && n.current == m.slot.value.target && n.slot == None && n.ready == m.ready && n.hub == m.hub
  {
    PetitionsOne(m.book.ledger, Taken(m.slot.value));
    StageAllPetitions(m.book.(ledger := m.book.ledger + [Taken(m.slot.value)]), t.ops);
  }

  /** A declarative reply asks for a request at priority 100, anything else for nothing. */
  function ReplyPetition(reply: EventReply): seq<Petition> {
    if reply.Transition? then [Petition(RequestOp(Request(reply.target, 100)), 0)] else []
  }

  /** Dispatching one event: the states of the path are asked from the current one upwards, and exactly
      what they stage and then the declarative reply are asked for, in order. */
  lemma DispatchOneCalls(w: World, m: MachineState, e: Event)
    returns (n: nat, cs: seq<Context>, ops: seq<seq<Op>>)
    requires WorldOk(w)
    ensures var path, r := Path(w.tree, m.current), DispatchOne(w, m, e);
      && 0 < n <= |path| && Climbs(w.behaviors, path[..n], m.current, e, cs, ops)
      && cs[0] == m.context && r.context == cs[n]
      && var reply := LastReply(w.behaviors, path[n - 1], m.current, e, cs[n - 1]);
         && (reply.Ignored? ==> n == |path|)
         && Petitions(r.book.ledger) == Petitions(m.book.ledger) + AtDefault(Concat(ops)) + ReplyPetition(reply)
         && r == m.(context := r.context, book := r.book, calls := r.calls)
         && r.calls == m.calls + [Dispatched(e)] + Listening(w.behaviors, path[..n], m.current, e)
  {
    n, cs, ops := DispatchCalls(w.tree, w.behaviors, m.current, m.current, e, m.context);
    var a := Bubble(w.tree, w.behaviors, m.current, m.current, e, m.context);
    var b := StageAll(m.book, a.trace.ops);
    StageAllPetitions(m.book, a.trace.ops);
    if a.reply.Transition? {
      StagePetitions(b, RequestOp(Request(a.reply.target, NORMAL)), None);
    } else {
      assert Petitions(b.ledger) + [] == Petitions(b.ledger);
    }
  }

  /** The ready events are dispatched one after the other, oldest first, each to the machine that the one
      before left. */
  lemma {:induction false} DispatchSteps(w: World, m: MachineState) returns (ms: seq<MachineState>)
    requires WorldOk(w)
    ensures |ms| == |m.ready| + 1 && ms[0] == m && ms[|m.ready|] == DispatchPhase(w, m)
    ensures forall k :: 0 <= k <= |m.ready| ==> ms[k].ready == m.ready[k..]
    ensures forall k :: 0 <= k < |m.ready| ==>
              ms[k + 1] == DispatchOne(w, ms[k].(ready := m.ready[k + 1..]), m.ready[k])
    decreases |m.ready|
  {
    if m.ready == [] {
      ms := [m];
    } else {
      var n := DispatchOne(w, m.(ready := m.ready[1..]), m.ready[0]);
      var rest := DispatchSteps(w, n);
      ms := [m] + rest;
      forall k | 0 < k <= |m.ready| ensures ms[k] == rest[k - 1] && m.ready[1..][k - 1..] == m.ready[k..] {
      }
    }
  }

  // ---- Inputs ----

  /** What an input other than a turn asks for. */
  function InputPetitions(m: MachineState, x: Input): seq<Petition> {
    match x
    case Init(target) => if m.current == NIL then [Petition(RequestOp(Request(target, 100)), 0)] else []
    case Submit(op) => [Petition(op, 0)]
    case _ => []
  }

  lemma ReactPetitions(w: World, m: MachineState, x: Input)
    requires WorldOk(w) && HubOk(m.hub) && !x.Turn?
    ensures Petitions(React(w, m, x).book.ledger) == Petitions(m.book.ledger) + InputPetitions(m, x)
  {
    match x
    case Init(target) =>
      if m.current == NIL { StagePetitions(m.book, RequestOp(Request(target, NORMAL)), None); }
    case Submit(op) => StagePetitions(m.book, op, None);
    case Reset => PetitionsOne(m.book.ledger, Cleared);
    case Arbitrate(a) => PetitionsOne(m.book.ledger, Installed(a));
    case _ =>
  }

  /** Committing and routing ask for nothing. */
  lemma CommitPetitions(w: World, m: MachineState)
    requires WorldOk(w)
    ensures Petitions(CommitPhase(w, m).book.ledger) == Petitions(m.book.ledger)
  {
    var a, b := m.book.ledger, CommitPhase(w, m).book.ledger;
    CommitDelivers(w, m);
    assert b == a + b[|a|..];
    NoPetitions(b[|a|..]);
    PetitionsConcat(a, b[|a|..]);
  }

  lemma FilingPetitions(a: seq<Note>, b: seq<Note>)
    requires a <= b
    ensures Petitions(a) <= Petitions(b)
  {
    assert b == a + b[|a|..];
    PetitionsConcat(a, b[|a|..]);
  }
}
