# maokai, modelled and proved

maokai is a hierarchical state machine in four layers: a tree of states, a runner that calls the
behaviors of states, a reconciler that queues operations under tickets, and a machine that commits,
routes and applies them until it is stable. This project models all four and the two task runtimes,
and proves what they promise together. Behaviors, transition arbiters and custom consumers are
arbitrary functions throughout; the few conditions that a theorem puts on them are named below.

| file | what it holds |
|---|---|
| `StateTree.dfy`, `Lifecycle.dfy` | the state forest, transition proposals, exits and enters replayed on a stack |
| `Mask.dfy`, `PreOrder.dfy`, `Striking.dfy`, `Aliasing.dfy`, `Lookup.dfy` | finding a state by payloads with a 64-bit mask, for datasets of any size |
| `Operations.dfy`, `Reconciler.dfy`, `Pool.dfy`, `Conservation.dfy`, `Ordering.dfy` | operations, tickets, the pool, its rules, the fate of every operation and the order of a commit |
| `Arbitration.dfy`, `Requests.dfy`, `Overruled.dfy`, `Fates.dfy` | competing transition requests: who wins, who is overruled, and what becomes of each over whole runs |
| `Runner.dfy`, `Callbacks.dfy` | exit and enter sequences, bubbling, and which callbacks run with what |
| `Consumers.dfy`, `Stations.dfy`, `Hub.dfy`, `Routing.dfy`, `Hops.dfy`, `Once.dfy` | consumers as functions and as objects, slots, routes, and the route loop |
| `Machine.dfy`, `Staging.dfy`, `Petitions.dfy`, `Starting.dfy`, `Engine.dfy` | the microstep as a function of the machine's state, what one staging keeps through all its phases, what is asked of the reconciler in each of them, and the machine that refines it |
| `Safety.dfy`, `Discipline.dfy`, `Fifo.dfy`, `Mailing.dfy`, `Roster.dfy`, `Tasks.dfy`, `Solo.dfy`, `Declarative.dfy`, `Termination.dfy`, `EndToEnd.dfy` | theorems over whole runs |

How the parts fit. Everything that the program updates in place is a class (`StateTree`,
`Reconciler`, `Envelope`, the consumers `EventQueue`, `TransitionSlot`, `LocalTaskRuntime`,
`MtTaskRuntime` and `CustomConsumer`, `ConsumerStore` with those objects in its slots,
`HandleCounter`, `Machine`), and its methods are proved equal to functions on values (`Propose`,
`Stage`, `Bubble`, `Consume`, `Route`, `MicroStep`, `Advance`, ...). The theorems are about those
functions and about `Run`, which interleaves turns of the advance loop with everything that can reach
a machine from outside. Two histories go along: the calls (callbacks, dispatched events, applied
requests) and the ledger (what became of each operation). They are history only; no decision reads
them.

What turned out false, and exactly when it holds:

- Lookup. With 64 entries or more the shift that builds the mask wraps (in builds that check neither
  arithmetic nor debug assertions). Lookup is right in every tree if and only if the dataset has fewer
  than 64 entries (`RightBySize`). More precisely, beyond that every miss is right and every hit is
  wrong (`LookupState`).
- Lost operations. An operation is silently replaced in the pool if and only if its staging collides:
  it is kept, and an operation under the very same ticket (wrapped index and priority) is still pending
  after the rules (`StageEven`). Over a run nothing is replaced if and only if no staging collides
  (`EveryTicketOnce`), none does before 2^32 stagings (`NoCollisions`), and one more can (`WrapLoses`).
- Order of a commit. Tickets are compared by their wrapped index, so that of two operations staged
  right at the wrap the later one is committed first, with nothing lost (`LaterFirst`). Among equal
  priorities the order of staging is kept if and only if no multiple of 2^32 lies between the pending
  stagings, provided none has waited for more than 2^32 others; without that proviso, if and only if
  the counter passed zero between them only as often as whole laps fit in (`CommitIsStableSort`).
- Asking consumers. A consumer that lists one type twice is asked twice (`AskedTwice`). No consumer
  ever is, over a whole run, if and only if every registration lists every type once (`OnceExactly`,
  `UniqueExactly`).
- Priority. Arbitration does not reach across batches: a commit respects the arbiter's choice between
  the slot and the batch if and only if one of the two holds no request, the arbiter prefers the
  batch's, or both are the same (`CommitArbitrates`). `LowerWins` is a run in which a lower priority
  wins. Over every run under the default arbiter, an applied request is the last maximum of all
  requests committed since the previous apply if and only if none of higher priority was overwritten
  in the slot since (`AppliedIsMaximum`).
- Running tasks. `clear_consumers` forgets tasks that go on: a clear keeps the running maps exact if
  and only if they are empty when it happens (`ClearForgets`). Disjointness survives, and so does
  exactness since the last clear (`TasksTracked`, `RunningExactly`; `SoloTracked` for builds with one
  runtime).

Conditions of the run theorems. `Ranked`, part of every machine's `WorldOk`: a consumer that passes an operation on as another type
lowers a rank, without which routing need not end. `Mintless`: custom consumers do not turn other
operations into operations of the type in question. `DrainsFlat`: custom consumers drain events at
the default priority. `Spares`: nobody unregisters the built-in consumer of the type by itself.
`Lighter`: callbacks stage less weight than they handle, without which advancing need not end.
`issued <= WRAP`: the ticket counter has not wrapped. Lifecycle safety, conservation of operations, the
winner among pending requests, the content of the slot, exact garbage collection and the agreement of
declarative with imperative transitions need none of these but `Ranked` (and, for the pending winner,
a counter that has not wrapped).

## Model

| member | source | states |
|---|---|---|
| `StateForest.PathSuffix` | maokai-tree/src/lib.rs:46-48 | every suffix of an ancestor path is the ancestor path of its first state, and handles strictly descend along it |
| `StateForest.LcaCorrect` | maokai-tree/src/lib.rs:98-120 | between distinct states no state is both left and entered; what stays is exactly the set of common ancestors and is the path of the deepest of them, empty iff the states share no tree |
| `StateForest.ProposeCompletes` | maokai-tree/src/lib.rs:98-120 | exits plus the common suffix is the path of the current state, reversed enters plus the same suffix the path of the target |
| `StateForest.ProposeReversed` | maokai-tree/src/lib.rs:98-120 | swapping the endpoints swaps the two lists and reverses them, self-transitions included |
| `StateForest.ProposeSelf` | maokai-tree/src/lib.rs:98-101 | a self-transition leaves the state and enters it again |
| `StateForest.GrowthStable` | maokai-tree/src/lib.rs:50-56 | any sequence of `add_child` leaves paths, parents and all proposals between existing states as they were, and keeps children in insertion order |
| `StateForest.GrownWf` | maokai-tree/src/lib.rs:50-56 | adding a child keeps the forest acyclic with exactly two parentless nodes and keeps `parent_of` and `children_of` mutually inverse, whatever the parent, `nil` included |
| `StateForest.RootOf` | maokai-tree/src/lib.rs:31-41 | every state descends from exactly one of `root` and `nil`; until a child is added to `nil`, nothing but `nil` descends from it |
| `StateForest.StateTree.constructor` | maokai-tree/src/lib.rs:31-41 | a new tree is the two-root forest, well-formed |
| `StateForest.StateTree.AddChild` | maokai-tree/src/lib.rs:50-56 | the new arena in full: one childless node under the parent, last among its children; the tree stays well-formed in any case, and `nil` stays alone if and only if it is not the parent |
| `StateForest.StateTree.PathRev` | maokai-tree/src/lib.rs:46-48 | the loop over ancestors collects exactly the ancestor path |
| `StateForest.StateTree.ProposeTransition` | maokai-tree/src/lib.rs:98-120 | the two-index loop computes the proposal cut at the longest common suffix |
| `Lifecycle.ProposeReplays` | maokai-tree/src/lib.rs:98-120 | replayed on a stack, exits pop exactly the top and enters push a child of the top, from the current path to the target path, for all states including `nil` |
| `Lifecycle.ProposeMinimal` | maokai-tree/src/lib.rs:98-120 | between distinct states no legal pop and push sequence is shorter than the proposal |
| `Lifecycle.CostTriangle` | maokai-tree/src/lib.rs:98-120 | a detour over a third state never saves callbacks, for any three states |
| `Lifecycle.ReplayCounts` | maokai-tree/src/lib.rs:98-120 | along any legal walk enters minus exits of a state is the change of its presence on the stack |
| `Searching.TravelIsPath` | maokai-tree/src/lib.rs:137-145 | the payloads from the root down are those of the reversed ancestor path, nodes without payload left out |
| `Searching.PreOrderComplete` | maokai-tree/src/lib.rs:180-185 | descending through `children_of` from the root reaches exactly the states below the root |
| `Striking.StrikeEffect` | maokai-tree/src/lib.rs:167-174 | one pass strikes off one entry that is equal to the payload and whose bit is on, or there is no such entry |
| `Striking.LeftNeeds` | maokai-tree/src/lib.rs:161-186 | below 64 entries the mask stands, on every way from the root, for exactly the part of the dataset that the way does not account for, duplicates counted |
| `Striking.LeftCovers` | maokai-tree/src/lib.rs:176-178 | below 64 entries the mask is empty exactly at the states whose way covers the dataset |
| `Aliasing.CoveredTooEarly` | maokai-tree/src/lib.rs:167-188 | from 64 entries on, where entries 64 apart share a bit, the mask is empty already at the parent of every covering state |
| `Lookup.Tick` | maokai-tree/src/lib.rs:167-174 | the loop over the dataset refines that pass |
| `Lookup.Dfs` | maokai-tree/src/lib.rs:161-186 | the recursive search finds the pre-order-first state of a subtree with nothing left of the mask, for datasets of any size |
| `Lookup.RightBySize` | maokai-tree/src/lib.rs:158-190 | the search finds the pre-order-first covering state in every tree if and only if the dataset has fewer than 64 entries |
| `Lookup.LookupState` | maokai-tree/src/lib.rs:158-190 | the result is that of the specified search; it is right if there are fewer than 64 entries, and from 64 on exactly when nothing is found; a multiple of 64 entries yields the root |
| `Lookup.SearchEarly` | maokai-tree/src/lib.rs:158-190 | from 64 entries on the search stops before the right state whenever there is one, so a hit is always wrong and a miss always right |
| `Lookup.FirstExact` | maokai-tree/src/lib.rs:158-190 | the specified search misses iff no state below the root covers the dataset |
| `Lookup.HitBelongs` | maokai-tree/src/lib.rs:158-190 | a hit is a state below the root and covers the dataset |
| `Reconciling.InsertSorted` | maokai-reconciler/src/lib.rs:49-56 | inserting keeps the pool in ticket order and replaces only an entry under the same ticket |
| `Reconciling.StageOrderly` | maokai-reconciler/src/lib.rs:122-156 | staging keeps the pool sorted and its indices below the counter |
| `Reconciling.AddRuleOne` | maokai-reconciler/src/lib.rs:186-194 | one rule per type: replaced where it stands or added at the end, all others stay in place |
| `Reconciling.RemoveUndoesAdd` | maokai-reconciler/src/lib.rs:196-202 | removing a rule undoes adding it |
| `Pooling.RulesAsked` | maokai-reconciler/src/lib.rs:127-147 | the rules are asked in order, each about the pool the one before left, up to the first that breaks off or drops; what a rule unstages is gone, and the last one asked decides |
| `Pooling.StageOutcome` | maokai-reconciler/src/lib.rs:122-156 | a staged operation is pending afterwards if and only if the rules keep it, besides exactly what they left |
| `Pooling.UnstageExact` | maokai-reconciler/src/lib.rs:166-168 | the entry under the ticket is taken out and noted, all others stay in order; without one nothing happens |
| `Pooling.ClearExact` | maokai-reconciler/src/lib.rs:170-172 | every pending operation is withdrawn, in order, and none is left |
| `Pooling.CommitExact` | maokai-reconciler/src/lib.rs:178-184 | the whole pool is handed out in order, and none is left |
| `Pooling.RemoveRuleExact` | maokai-reconciler/src/lib.rs:196-202 | the rule of the type is taken out, if there is one, and the others stay in order |
| `Reconciling.Reconciler.constructor` | maokai-reconciler/src/lib.rs:83-88 | a new reconciler is empty, with tickets from zero |
| `Reconciling.Reconciler.StageBoxed` | maokai-reconciler/src/lib.rs:122-156 | the rule loop computes the pipeline's verdict; a ticket is returned iff the operation was kept, and pool and history are those of the specified staging |
| `Reconciling.Reconciler.UnstageOp` | maokai-reconciler/src/lib.rs:166-168 | the entry under the ticket is removed and returned, if there is one |
| `Reconciling.Reconciler.ClearPending` | maokai-reconciler/src/lib.rs:170-172 | every pending operation is withdrawn |
| `Reconciling.Reconciler.TakePending` | maokai-reconciler/src/lib.rs:178-184 | a commit takes the whole pool, leaving it empty before anything is applied |
| `Reconciling.Reconciler.InstallRule` | maokai-reconciler/src/lib.rs:186-194 | the search loop replaces or appends as specified |
| `Reconciling.Reconciler.DropRule` | maokai-reconciler/src/lib.rs:196-202 | the first rule of the type is removed and returned, or nothing if there is none |
| `Conserving.StageEven` | maokai-reconciler/src/lib.rs:122-156 | a staging enters its own operation and leaves every account even; it silently loses another one if and only if it is kept and its ticket is still pending after the rules |
| `Conserving.EveryTicketOnce` | maokai-reconciler/src/lib.rs:116-207 | over every run of calls under any rules each staged operation has exactly one fate; none is silently replaced if and only if no staging collides, and until the counter wraps every issued ticket is exactly one of pending, committed, unstaged and rejected |
| `Conserving.NoCollisions` | maokai-reconciler/src/lib.rs:116-120 | no staging collides while at most 2^32 tickets were issued |
| `Conserving.WrapLoses` | maokai-reconciler/src/lib.rs:116-120 | 2^32 + 1 stagings at one priority without a commit do collide |
| `Conserving.NeverBeyond` | maokai-reconciler/src/lib.rs:116-120 | no index at or beyond 2^32 is ever handed out |
| `Conserving.CommitAccounts` | maokai-reconciler/src/lib.rs:116-184 | over every run, wrapped or not, the next commit applies exactly the operations asked for less those rejected, unstaged, committed before or replaced, each once and with its own priority |
| `Ordering.CommitIsStableSort` | maokai-reconciler/src/lib.rs:43-184 | the commit goes by descending priority, and among equals in staging order while the counter has not wrapped; in general if and only if the counter passed zero between them only as often as whole laps of 2^32 fit in, which for operations pending for at most 2^32 stagings means that no multiple of 2^32 lies between them |
| `Ordering.LaterFirst` | maokai-reconciler/src/lib.rs:43-184 | after 2^32 - 1 stagings and a commit, the next two operations are committed the wrong way round, although nothing was ever replaced |
| `Conserving.CommitOrderUnique` | maokai-reconciler/src/lib.rs:49-56 | the same operations have one commit order only |
| `Conserving.OperationsConserved` | maokai-machine/src/lib.rs:642-758 | over every machine run every staged operation, whichever one follows, has exactly one fate; every ticket has ended, in a consumption or an unhandled report, as often as it was committed; until the counter wraps tickets are unique and nothing is replaced |
| `Conserving.FreshConserved` | maokai-machine/src/lib.rs:425-446 | a new machine satisfies that |
| `Conserving.OnlyRegistered` | maokai-machine/src/lib.rs:685-695 | every attempt of the route loop goes to a live slot whose owner registered for the operation's type, so the skip of an empty slot is dead and a reused slot sees only its new owner's types |
| `Arbitration.StageContests` | maokai-machine/src/lib.rs:264-294 | one staging keeps at most one request pending, the winner of the contest with the one before |
| `Arbitration.ArbitrationIsTournament` | maokai-machine/src/lib.rs:264-294 | between commits the pending request is the left fold of the arbiter over all requests staged, whatever else is interleaved and whatever the arbiter |
| `Arbitration.PriorityWinner` | maokai-machine/src/lib.rs:244-248 | under the default arbiter that is the last request of maximal priority, and none iff there was no request |
| `Arbitration.WinnerIsLast` | maokai-machine/src/lib.rs:244-248 | the fold yields a request if and only if that is the last one of maximal priority |
| `Running.BubbleScans` | maokai-runner/src/lib.rs:135-155 | dispatch asks exactly a prefix of the ancestor path, up to the first reply other than `Ignored`, threading the context; `Ignored` only after the whole path |
| `Running.HearAllCalls` | maokai-runner/src/lib.rs:143-149 | of the states asked exactly the registered ones are called, in path order |
| `Callbacks.TransitionCalls` | maokai-runner/src/lib.rs:93-121 | `on_exit` of every registered state left and then `on_enter` of every registered state entered is called, in order, told where the transition comes from, where it goes and both lists; each sees the context the one before left, and what they stage adds up in order |
| `Callbacks.DispatchCalls` | maokai-runner/src/lib.rs:135-155 | `on_event` of the registered states of the path is called with the event and the current state, from the current one upwards to the first reply that is not `Ignored`, which is returned; unregistered states are passed over, contexts are threaded, and what is staged adds up in order |
| `Running.RunTransition` | maokai-runner/src/lib.rs:93-121 | the two loops leave context, pool and calls as all exits followed by all enters of the proposal do, and report the target |
| `Running.RunDispatch` | maokai-runner/src/lib.rs:135-155 | the climbing loop ends and refines the recursive dispatch in reply, context, staged operations and calls |
| `Running.Envelope.VisitStates` | maokai-runner/src/lib.rs:108-118 | one list of callbacks, each seeing the context the previous one left, its operations staged in order |
| `Running.Envelope.StageEffect` | maokai-machine/src/lib.rs:49-54 | operations staged through a handle enter the pool in order at ticket priority zero |
| `Consuming.LocalTaskRuntime.DrainMailbox` | maokai-gears/src/ops/task/runtimes/tokio_local.rs:101-109 | the whole mailbox is staged in order, and the result tells whether it held anything |
| `Consuming.MtTaskRuntime.DrainMailbox` | maokai-gears/src/ops/task/runtimes/tokio_mt.rs:92-100 | the whole mailbox is staged in order, and the result tells whether it held anything |
| `Petitioning.DrainPetitions` | maokai-gears/src/ops/task/runtimes/tokio_mt.rs:92-100 | for either runtime a drain asks for exactly the mailbox, in the order of arrival at priority zero, leaves it empty and tells whether it held anything; a custom one asks for its offers at their own priorities |
| `Petitioning.DrainsPetitions` | maokai-machine/src/lib.rs:710-718 | all consumers are drained, each once, in slot order |
| `Petitioning.DrainsFlag` | maokai-machine/src/lib.rs:710-718 | the result tells whether any of them had something |
| `Mailing.MailForwarded` | maokai-gears/src/ops/task/runtimes/tokio_local.rs:101-109 | over every run that keeps the consumer, all that ever arrived in its mailbox is still in there, the latest last, or has been asked for, in the order of arrival |
| `Mailing.MailDispatched` | maokai-machine/src/lib.rs:668-758 | after any such run and then advancing, the events that arrived in the mailbox have been dispatched in the order of arrival |
| `Stations.ConsumerStore.ConsumeAt` | maokai-machine/src/lib.rs:691-695 | the consumer object at the slot is updated in place as specified, and no other consumer changes |
| `Stations.ConsumerStore.DrainAt` | maokai-machine/src/lib.rs:711-718 | the consumer object at the slot stages what it has, and no other consumer changes |
| `Hubs.PlaceOk` | maokai-machine/src/lib.rs:354-362 | a consumer goes into an empty slot, all others stay, and the free list remains duplicate-free and equal to the empty slots |
| `Hubs.RemoveOk` | maokai-machine/src/lib.rs:364-371 | one slot is emptied, the others stay, and the free list remains exact |
| `Hubs.PlaceUndoesRemove` | maokai-machine/src/lib.rs:353-371 | the slot freed last is used first: placing a consumer again undoes its removal |
| `Hubs.SetConsumerOk` | maokai-machine/src/lib.rs:475-485 | registering keeps the live slots equal to the indices in the routes, each registered for the types that name it |
| `Hubs.RemoveConsumerOk` | maokai-machine/src/lib.rs:496-535 | removing keeps that too: no dangling index, no leaked consumer |
| `Hubs.RemoveConsumerExact` | maokai-machine/src/lib.rs:496-535 | exactly the consumers that another type still routes to survive, unchanged and in place |
| `Hubs.RemoveConsumerRoutes` | maokai-machine/src/lib.rs:503-509 | the removed types have no route any more, the others keep theirs |
| `Hubs.EvictedInOrder` | maokai-machine/src/lib.rs:521-528 | the consumers are handed back in the order of their slots |
| `Hubs.EvictedExact` | maokai-machine/src/lib.rs:521-528 | the consumers handed back are exactly those in doomed slots, and together with the ones that stay they are as many as before |
| `Hubs.RegisterFirst` | maokai-machine/src/lib.rs:475-485 | a registration never moves, replaces or precedes a consumer already registered |
| `Hubs.UnregisterFirst` | maokai-machine/src/lib.rs:496-535 | unregistering other types leaves a type's route and its consumers untouched |
| `Hubs.DefaultsFull` | maokai-machine/src/lib.rs:406-423 | with both runtimes built in the default slots and routes are four consumers, events and requests first |
| `Hubs.DefaultsSolo` | maokai-machine/src/lib.rs:406-423 | the same with one runtime built in |
| `Hubs.DefaultsBare` | maokai-machine/src/lib.rs:406-409 | and without any: events, then requests |
| `Routing.RouteTrail` | maokai-machine/src/lib.rs:675-706 | the attempts go down the route in registration order, a change of type restarts at the front of the other route with a lower rank, no place of a route is reached twice for one type and rank, and one ending follows |
| `Hopping.AttemptHops` | maokai-machine/src/lib.rs:695-703 | a consumer consumes its own kinds of operations with their effect and passes on any other untouched; a custom one does what its behavior says, told the ticket and the operation; nothing else changes |
| `Hopping.RouteStops` | maokai-machine/src/lib.rs:675-706 | exactly what a consumer passes on is offered to the next one of the same type or to the first one of another type, until one consumes or, with none left, the operation as it is by then is reported unhandled |
| `Hopping.DeliverInOrder` | maokai-machine/src/lib.rs:672-708 | a batch is routed in its order, every operation once |
| `AskingOnce.UniqueAsksOnce` | maokai-machine/src/lib.rs:683-704 | on a route that names no slot twice no consumer is asked twice about operations of its type and one rank |
| `AskingOnce.OnceExactly` | maokai-machine/src/lib.rs:683-704 | whatever the consumers do, that holds if and only if the route names no slot twice |
| `AskingOnce.SetConsumerExact` | maokai-machine/src/lib.rs:475-485 | a registration takes an empty slot and appends it to the route of each type as often as it is listed; nothing else moves |
| `AskingOnce.SetConsumerUnique` | maokai-machine/src/lib.rs:475-485 | a registration keeps the routes free of repetition if and only if it lists every type once |
| `AskingOnce.UniqueExactly` | maokai-machine/src/lib.rs:475-541 | at every point of a run the routes are free of repetition if and only if every registration lists every type once |
| `AskingOnce.AskedTwice` | maokai-machine/src/lib.rs:475-485 | a consumer registered for one type twice that passes everything on is asked twice about the same operation |
| `AskingOnce.FreshUnique` | maokai-machine/src/lib.rs:406-423 | a new machine's routes are free of repetition |
| `Routing.RouteLedger` | maokai-machine/src/lib.rs:675-706 | the history grows by exactly that trail |
| `Routing.RouteConserves` | maokai-machine/src/lib.rs:675-706 | the nested loop ends, in exactly one consumption or unhandled report under the operation's ticket, and ends nothing else |
| `Routing.DeliverConserves` | maokai-machine/src/lib.rs:672-708 | ticket by ticket a batch ends as often as it was committed, and all routes stay live |
| `Machines.ReactHub` | maokai-machine/src/lib.rs:475-541 | over everything that can happen, turns included, slots, free list and routes fit exactly |
| `Machines.DispatchKeeps` | maokai-machine/src/lib.rs:734-748 | dispatching empties the ready queue and touches neither the current state nor the slot nor the consumers |
| `Safety.RunTracked` | maokai-machine/src/lib.rs:642-758 | over every run the replayed callbacks lead to the ancestor path of the current state |
| `Safety.LifecycleSafe` | maokai-machine/src/lib.rs:642-758 | from birth no prefix of exits and enters is illegal, and a state's enters minus exits is 1 if it is active and 0 otherwise, apart from the one initial exit of `nil` |
| `Safety.TransitionMoves` | maokai-runner/src/lib.rs:93-121 | the callbacks of a transition are, in order, the exits and enters proposed |
| `Discipline.TurnDiscipline` | maokai-machine/src/lib.rs:668-757 | one turn delivers first and stages only after that; it applies at most one transition, then dispatches its whole ready batch in order against one state; a turn that drained does neither |
| `Petitioning.ApplyCalls` | maokai-machine/src/lib.rs:726-732 | applying moves the machine to the target, calls the callbacks of the transition as above, and asks for exactly what they stage, in order |
| `Petitioning.DispatchOneCalls` | maokai-machine/src/lib.rs:734-748 | dispatching asks the behaviors as above, and then for exactly what they stage, in order, followed by a request at priority 100 if the reply is a transition |
| `Petitioning.DispatchSteps` | maokai-machine/src/lib.rs:734-748 | the ready events are dispatched one after the other, oldest first, each to the machine that the one before left |
| `Petitioning.ReactPetitions` | maokai-machine/src/lib.rs:642-660 | `init` asks for one request to its target at priority 100 while detached, `post` for its event, once; nothing else outside a turn asks for anything |
| `Starting.DefaultHoldsOut` | maokai-machine/src/lib.rs:198-218 | a request without a priority holds out against a later one if and only if that one asks for less than 100 |
| `Starting.ReplyHoldsOut` | maokai-machine/src/lib.rs:745-747 | so does a declarative reply |
| `Starting.InitAsks` | maokai-machine/src/lib.rs:647-651 | so does `init`, with the target asked for; once there is a current state it does nothing |
| `Starting.InitArrives` | maokai-machine/src/lib.rs:642-654 | `init` leads to its target in the first turn, whatever the behaviors and the arbiter, if no other request is pending and nothing waits to be drained |
| `Starting.InitSettles` | maokai-machine/src/lib.rs:642-654 | with callbacks that stage nothing it ends there |
| `Requesting.PendingIsWinner` | maokai-machine/src/lib.rs:642-758 | over every run, with any consumers, at most one request is pending, the winner among all staged since the last commit |
| `Requesting.RouteRequest` | maokai-machine/src/lib.rs:306-317 | a committed request replaces the content of the slot; the history names what it overwrote |
| `Requesting.CommitArbitrates` | maokai-machine/src/lib.rs:306-317 | a commit respects the arbiter between slot and batch if and only if one holds no request, the arbiter prefers the batch's, or both are the same |
| `Requesting.DeliverRequests` | maokai-machine/src/lib.rs:306-317 | a committed batch moves its one request into the slot, and exactly an occupied slot loses its request |
| `Requesting.RequestsAccounted` | maokai-machine/src/lib.rs:642-758 | over every run with the built-in request consumer each applied request was in the slot, and the slot holds the winner of the last committed batch with a request since the last apply |
| `Requesting.AppliedIsMaximum` | maokai-machine/src/lib.rs:724-732 | over every such run under the default arbiter an applied request is the last maximum of all requests committed since the previous apply if and only if none of higher priority was overwritten in the slot since |
| `Overruled.LowerWins` | maokai-machine/src/lib.rs:306-317 | a posted request loses to any later one of lower priority that a task emits before the slot is taken |
| `Fates.SlotConserved` | maokai-machine/src/lib.rs:306-317 | over every run, with any consumers, whatever is taken from the slot or overwritten in it had been put there and was still there |
| `Fates.FatesExactly` | maokai-machine/src/lib.rs:642-758 | over every run, with any consumers, every request has exactly one of the fates below if and only if it was put into the slot as often as it was committed |
| `Fates.RequestFates` | maokai-machine/src/lib.rs:264-317 | over every run with the built-in request consumer, as often as a request was asked for it was applied, refused by the rule, ousted by the rule, overwritten in the slot, is pending, or is in the slot |
| `Fates.FreshBooked` | maokai-machine/src/lib.rs:425-446 | a new machine satisfies what that rests on |
| `Requesting.FreshAudited` | maokai-machine/src/lib.rs:425-446 | a new machine's slot is accounted for |
| `Fifo.StageEvents` | maokai-reconciler/src/lib.rs:122-156 | an event staged at the default priority goes behind all pending events, and staging a request disturbs none |
| `Fifo.RouteEvent` | maokai-gears/src/ops/event.rs:28-40 | a committed event joins the ready queue at its end |
| `Fifo.DeliverEvents` | maokai-machine/src/lib.rs:672-708 | committing appends the pending events to the ready queue in commit order |
| `Fifo.EventsFifo` | maokai-machine/src/lib.rs:658-748 | over every run the events dispatched, then ready, then pending are all events ever staged, each once, in staging order |
| `Fifo.FreshInOrder` | maokai-machine/src/lib.rs:425-446 | a new machine satisfies that |
| `Tasking.RouteStart` | maokai-gears/src/ops/task/runtimes/tokio_local.rs:71-78 | a committed start is entered in the map of its own runtime and in no other |
| `Tasking.RouteStop` | maokai-gears/src/ops/task/runtimes/tokio_local.rs:79-95 | a stop is carried out by the runtime that has the task, passed on unchanged by the local one if it has not |
| `Tasking.ClearForgets` | maokai-machine/src/lib.rs:537-541 | a clear keeps the maps exact if and only if no task is running when it happens |
| `Tasking.TasksTracked` | maokai-gears/src/ops/task/runtimes/tokio_mt.rs:68-90 | with both runtimes, over every run, clears included, with distinct handles the two running maps are disjoint and their union is the roster of starts and stops committed since the last clear |
| `Tasking.RunningExactly` | maokai-gears/src/ops/task/runtimes/tokio_local.rs:70-99 | with a handle of its own for each start, a task is in one map, and in one only, if and only if its start was committed and neither a stop of it nor a clear followed, in the same batch or later |
| `Tasking.ExactUnlessForgotten` | maokai-machine/src/lib.rs:537-541 | at any point the maps are exactly the tasks started and not stopped if and only if every task that a clear forgot has been stopped since |
| `Rosters.RosterMeans` | maokai-gears/src/ops/task/runtimes/tokio_local.rs:70-99 | the roster folded over the history lists exactly the tasks started, and neither stopped nor cleared away since |
| `Rosters.RosterDistinct` | maokai-gears/src/ops/task/mod.rs:10-13 | the roster notices a reused handle iff two committed starts carry the same one |
| `Tasking.FreshStaffed` | maokai-machine/src/lib.rs:411-422 | a new machine with both runtimes satisfies the tracking |
| `Soloing.SoloTracked` | maokai-gears/src/ops/task/runtimes/tokio_local.rs:85-94 | with one runtime built in, whichever, over every run, clears included and handles fresh or not, its running map is the list of starts and stops committed since the last clear |
| `Soloing.SoloExactly` | maokai-gears/src/ops/task/runtimes/tokio_local.rs:70-99 | a task is in that map if and only if its start was committed and neither a stop of it nor a clear followed |
| `Soloing.FreshTended` | maokai-machine/src/lib.rs:411-422 | a new machine with one runtime satisfies the tracking |
| `Rosters.HandleCounter.Next` | maokai-gears/src/ops/task/mod.rs:10-13 | handles count up and wrap at 2^64 |
| `Rosters.StartTask` | maokai-machine/src/lib.rs:566-582 | a start takes the counter's next handle and is staged under it; if all starts asked for so far carry handles of draws of their own, so they do afterwards |
| `Rosters.StageDrawn` | maokai-gears/src/ops/task/mod.rs:28-33 | no other staging disturbs that |
| `Rosters.DrawnFresh` | maokai-gears/src/ops/task/mod.rs:10-13 | then, for at most 2^64 draws, no two committed starts carry one handle |
| `Declarative.DeclarativeIsImperative` | maokai-machine/src/lib.rs:734-748 | replacing every `Transition` reply by a request staged last and `Handled` leaves every run unchanged: state, pool, context, queues and both histories |
| `Declarative.BubbleInstead` | maokai-runner/src/lib.rs:135-155 | the replacement changes one dispatch by that reply and that operation only |
| `Termination.TurnLighter` | maokai-machine/src/lib.rs:668-758 | with lighter callbacks every turn but the last lowers total weight, then mailboxes, then the pool |
| `Termination.StopSettles` | maokai-machine/src/lib.rs:750-756 | the loop stops only with pool, ready queue, slot and task mailboxes empty, for any callbacks |
| `Termination.StopExactly` | maokai-machine/src/lib.rs:750-756 | the loop stops after a turn if and only if that turn found nothing to do and nothing is pending now |
| `Termination.AdvanceSettles` | maokai-machine/src/lib.rs:668-758 | with lighter callbacks advancing ends, is a run of turns, and leaves nothing to do |
| `Termination.SettledStays` | maokai-machine/src/lib.rs:668-758 | advancing a settled machine without custom consumers changes nothing |
| `Advancing.AdvanceDispatchesAll` | maokai-machine/src/lib.rs:668-758 | when advancing returns, the events dispatched are all events ever staged, once each and in staging order |
| `Advancing.AdvanceDecidesAll` | maokai-machine/src/lib.rs:668-758 | when advancing returns, every request ever asked for was applied, refused, ousted or overwritten, once |
| `Stations.ConsumerStore.Insert` | maokai-machine/src/lib.rs:354-362 | the freed slot used last is used first, else the store grows |
| `Stations.ConsumerStore.RemoveAt` | maokai-machine/src/lib.rs:364-371 | the consumer is returned and its slot freed; nothing happens for an empty slot or an index out of range |
| `Stations.ConsumerStore.Clear` | maokai-machine/src/lib.rs:381-384 | no slot and no free index remains |
| `Engine.Machine.constructor` | maokai-machine/src/lib.rs:425-446 | a new machine is detached, has the priority rule and the default consumers |
| `Engine.Machine.SetConsumer` | maokai-machine/src/lib.rs:475-485 | the consumer object is placed and appended to the route of each of its types |
| `Engine.Machine.RemoveConsumer` | maokai-machine/src/lib.rs:496-535 | the loops over routes and slots refine the removal and hand back exactly the evicted consumers, in slot order and as they are |
| `Engine.Machine.ClearConsumers` | maokai-machine/src/lib.rs:537-541 | the defaults replace everything registered |
| `Engine.Machine.RouteOp` | maokai-machine/src/lib.rs:675-706 | the nested route loop ends and refines the specified route |
| `Engine.Machine.CommitPending` | maokai-machine/src/lib.rs:672-708 | the pool is committed at most once per turn, every operation routed in commit order |
| `Engine.Machine.DrainConsumers` | maokai-machine/src/lib.rs:710-718 | every live consumer is drained in slot order, and the result tells whether any drained |
| `Engine.Machine.ApplyPending` | maokai-machine/src/lib.rs:726-732 | the slot is emptied and its transition run, if it holds one |
| `Engine.Machine.DispatchReady` | maokai-machine/src/lib.rs:734-748 | the loop refines dispatching the whole ready queue, oldest first |
| `Engine.Machine.TakeTurn` | maokai-machine/src/lib.rs:669-757 | one iteration refines the microstep, its stop decision included |
| `Engine.Machine.AdvanceWith` | maokai-machine/src/lib.rs:668-758 | the loop ends under lighter callbacks, equals the run of microsteps, and leaves the machine settled |
| `Engine.Machine.Init` | maokai-machine/src/lib.rs:642-654 | accepted only while detached; then it advances with the one request staged, otherwise nothing changes |
| `Engine.Machine.Post` | maokai-machine/src/lib.rs:658-660 | the event is staged and nothing else happens |
| `Engine.Machine.SetTransitionArbiter` | maokai-machine/src/lib.rs:450-454 | the one request rule is replaced, pending operations are untouched |

## Left out

- Tokio: spawning, aborting, scheduling and time. A task is a handle in a running map, and its mailbox receives operations between turns.
- `Rc` and `RefCell`: sharing and borrow panics. Kept is the consequence that neither consumers nor `on_unhandled` can stage while a batch is applied.
- Consumer objects shared outside the machine: `Poke` and `Mail` change them between turns only, and an event consumer feeding some other queue is a custom one.
- Engine.Machine.RouteOp: the two nested loops are one loop whose position restarts on a change of type.
- Engine.Machine.RemoveConsumer: an absent result and an empty list are both the empty sequence, since the original never returns an empty list.
- Engine.Machine.AdvanceWith: termination for arbitrary behaviors does not hold, since two states may send requests to each other forever; it is proved for lighter callbacks only. What holds at the end, and in every turn, is proved without that condition.
- Callbacks are functions of their arguments and the context: interior mutability of a behavior, and branching on the tickets that a handle returns, are not modelled. The calls and the stagings of one callback list keep their order each; their interleaving is not recorded.
- Custom consumers whose `drain` unstages operations, changes rules or applies anything; rules that replace or modify operations in the pool. The machine's only rule does neither.
- Builds with overflow checks or debug assertions: throughout, the model is that of a build with neither, in which the ticket counter and the lookup shift wrap; checked builds panic there, and debug assertions refuse lookups of more than 64 entries and children of `nil`.
- StateForest.StateTree.AddChild: handles of other trees as parents, which the arena cannot resolve; in reading operations a foreign handle is a state without a parent. `nil` as a parent, which only builds with debug assertions refuse, is modelled.
- Tasking.TasksTracked: runs that unregister a task consumer by itself, after which its operations go elsewhere.
- Requesting.RequestsAccounted: runs that unregister the request consumer, and consumers that make up requests; what holds for those too is in `PendingIsWinner`, `SlotConserved`, `FatesExactly` and `OperationsConserved`.
- `SendEnvelope` with its cloned context, and starts issued from inside multi-threaded tasks: their order is up to the runtime.
- `TypeId`, `Downcast` and the tuple macros: operation types are tags, and registrations are non-empty lists of tags.
- `Behaviors::register`, `contains`, `depth`, `has_rule`, `clear_rules` and the feature-gated spawners: one-line accessors.
