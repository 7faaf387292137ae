# CxxKit kernel: a Dafny model

This project models the parts of CxxKit in which several mutable structures have to agree while code
re-enters itself: the object tree with its event queues and filter registries, the posted-closure queue,
signals, queued connections. Four small arithmetic and allocator cores stand beside them: frame-rate
throttling, update-rectangle scaling, the frame buffer pool and aligned allocation.

Operations that edit fields in place are methods of classes, proved against value-level definitions. What
the operations promise together is proved about those definitions, over every run of a state machine.
`dafny verify dfyconfig.toml` checks everything.

## How the modules fit together

* `KernelTypes`, `EventQueue`, `ObjectTree`, `KernelWorld`: identifiers, one loop's event queue with the code
  that edits it, the forest of objects with the mirrored filter registries, and the whole kernel state as one
  value.
* `PriorityOrder`: the event queue against a plain arrival-ordered list.
* `Destruction`, `Migration`, `DeferredDeletion`: what `~Object`, `move_to_loop` and the drain of deferred
  deletes amount to.
* `KernelSteps`, `KernelRuns`: the kernel as a state machine, what every step keeps, and what holds over runs.
* `DeletionRequests`: what becomes of a call of `delete_later` over any run that follows.
* `Compression`: how many deletion requests of one object a queue can hold.
* `StepEffects`: what single steps do, said object by object.
* `DyingObjects`: what the destructors of children may do between the purge of a dying object and its end.
* `Kernel`: the operations as methods on one object, each tied to its step; its queue edits run the code in
  `EventQueue`.
* `Counterexamples`: complete runs of the kernel that do not keep what one might expect.
* `PostQueue`: `EventLoop::post` and the snapshot drain, with closures that post, and nested rounds.
* `SlotList`, `CopyOnWrite`, `Emission`, `Silencing`, `ResultIterator`: signals.
* `QueuedConnection`, `QueuedLifetimes`, `QueuedRuns`: `connect_queued` with its two liveness tokens, nested
  rounds and teardown; what ends deliveries and emissions; complete runs that reorder and that lose emissions.
* `FramerateController`, `UpdateRect`, `BufferPool`, `AlignedMalloc`: the small cores, with `Arithmetic`.

An `ancestors` map (`anc`) goes along with the parent links. It is auxiliary: `Forest` says that it lists
what walking up the parent links meets, which makes the links acyclic and gives the walks their measure.
A failed `CXXKIT_CHECK` is fatal in the code; the model takes such checks as preconditions, or, for the
cycle check of `set_parent`, returns false.

## Where the code does not keep what one might expect

* `delete_later` on an object without affinity files its request with the caller's current loop. If the
  object is then bound to another loop, the request stays behind, and destroying the object elsewhere
  leaves that queue naming a dead object; dispatching the request destroys the object a second time.
  `Counterexamples.DanglingRun` is such a run. `KernelWorld.RemovalLeavesNoEntryIff` gives the exact condition
  for the dangling entry as long as derived destructors leave the kernel alone: every entry of the dying objects
  sits on its receiver's loop or on the current loop.
* `~Object` purges an object before it deletes the children. If the destructor of a child posts to the parent,
  or calls `delete_later` on it, the entry outlives the parent: `Counterexamples.LatePostRun`.
  `DyingObjects.DyingLeavesNoEntryIff` gives the exact condition with arbitrary actions after the purge.
* `kDeferredDelete` is dispatched by `delete this` without a look at the receiver. A run destroys no object
  twice exactly when each dispatched deferred delete finds its receiver alive
  (`KernelRuns.RunDestroysOnceIff`). With an affinity for every `delete_later` and nobody destroying an object
  while its own deferred delete is in flight, that is always so (`KernelRuns.RunDestroysOnce`); a filter that
  asks again and drains breaks it (`Counterexamples.DisturbedRun`).
* A queue holds at most one deletion request of an object until a migration merges two: the fallback of
  `delete_later` leaves one behind, a second is made elsewhere, and the object moves back
  (`Counterexamples.DoubleRequestRun`). `Compression.AlwaysSingleIff` is the exact condition.
* A migrated batch is appended with `push_back`. `Counterexamples.MoveSortsIff` says when the target queue
  stays sorted by priority, and `Counterexamples.UnsortingRun` is a run in which it does not.
* A nested `process_events` runs newer closures before the rest of the outer snapshot.
  `PostQueue.RoundKeepsOrderIff` says when the global post order survives, `PostQueue.OvertakingRun` is a run
  in which it does not.
* A `connect_once` callable may run more than once when several threads emit: `Emission.OnceMayRunTwice`.
  `Emission.OnceRunsForEachPassed` gives the exact number.
* A queued callable that emits and calls `process_events` makes the newer emission overtake older ones of the
  same connection: `QueuedRuns.OvertakingRun`. `QueuedConnection.OrderKeptIff` says over every run when the
  posting order survives.
* Emissions that arrive while `~EventLoop` drains are lost, unless a closure it runs processes events and takes
  them up: `QueuedConnection.TeardownLosesLateEmissions`, with the run `QueuedRuns.LosingRun`.
* An emission that passed its slot's check before `disconnect_all` may still post after it:
  `QueuedConnection.LatePostsWerePassed` counts them. None of them is delivered once the token is cleared.
* `VideoFrameBufferPool::resize` to a larger maximum throws away every idle buffer, because the number of
  buffers to purge wraps around: `BufferPool.GrowingDropsEveryIdleBuffer`, at a concrete pool
  `BufferPool.GrowingLosesIdleBuffer`.
* `aligned_malloc` does not notice when its size computation wraps; the payload then sticks out of its block
  (`AlignedMalloc.AlignedHeap.Allocate`, `AlignedMalloc.PayloadFitsIffNoWrap`).
* The walk of `move_to_loop` is breadth-first although its comment says pre-order. The order in which the
  entries of several objects arrive at the target follows the walk.

## Model

| member | source | states |
|---|---|---|
| `EventQueue.EnqueueEvent` | cxxkit/kernel/event_loop.cpp:348-388 | A deferred delete changes nothing and is refused exactly when the count of queued deferred deletes of its receiver is not zero; any other entry is added once, before the first entry of smaller priority |
| `EventQueue.RequestedIff` | cxxkit/kernel/event_loop.cpp:359-370 | The scan finds a deferred delete of the receiver exactly when their count is not zero |
| `Compression.AskingTwice` | cxxkit/kernel/event_loop.cpp:359-370 | `delete_later` while a request of the object is queued on its loop changes no queue and frees the new event; otherwise exactly that loop gets exactly that entry |
| `Compression.StepSingleIff` | cxxkit/kernel/event_loop.cpp:359-370 | If no queue holds two requests of one object, the same holds after a step exactly when the step is not a migration of an object with a request on its own loop and one on the target |
| `Compression.AlwaysSingleIff` | cxxkit/kernel/event_loop.cpp:359-370 | Over every run, no queue ever holds two requests of one object exactly when no migration merges two |
| `Compression.OneRequestWithoutMigration` | cxxkit/kernel/event_loop.cpp:359-370 | In every run without migration a queue holds at most one request of each object |
| `Compression.OneRequestWithAffinity` | cxxkit/kernel/event_loop.cpp:359-370 | So it is in every run, migrations included, that calls `delete_later` only on objects with an affinity |
| `Counterexamples.DoubleRequestRun` | cxxkit/kernel/object.cpp:388-397 | A run from nothing whose migration puts two requests of one object on one queue |
| `EventQueue.RemovePendingEvents` | cxxkit/kernel/detail/event_loop_p.hpp:138-153 | Exactly the receiver's entries go, the others keep their order |
| `EventQueue.TakeEventsFor` | cxxkit/kernel/detail/event_loop_p.hpp:110-131 | Returns the receiver's entries in order and leaves the others in order |
| `EventQueue.PopEventEntry` | cxxkit/kernel/detail/event_loop_p.hpp:161-174 | Removes the front entry, or returns the sentinel on an empty queue |
| `PriorityOrder.RunMatchesReference` | cxxkit/kernel/event_loop.cpp:348-397 | Over every sequence of enqueue, pop and purge the queue is the stable descending-priority sort of an arrival-ordered reference list, and both pop the same events |
| `PriorityOrder.StableSortUnique` | cxxkit/kernel/event_loop.cpp:371-387 | The stable-sort condition determines the queue completely |
| `PriorityOrder.PopTakesOldestOfHighest` | cxxkit/kernel/event_loop.cpp:189-195 | The popped entry is the oldest pending one of highest priority |
| `PriorityOrder.OnePriorityIsFifo` | cxxkit/kernel/event_loop.hpp:202-204 | With one priority throughout the queue is first-in first-out |
| `Counterexamples.MoveSortsIff` | cxxkit/kernel/object.cpp:376-408 | After `move_to_loop` the target queue is what was there followed by the entries of the subtree's objects taken breadth first, and it is sorted exactly when both parts are and the second starts no higher than the tail of the first |
| `Counterexamples.UnsortingRun` | cxxkit/kernel/object.cpp:388-397 | A run from nothing whose migration leaves an unsorted queue |
| `ObjectTree.Acyclic` | cxxkit/kernel/object.cpp:286-301 | Walking up from an object never comes back to it |
| `ObjectTree.SubtreeReachesRoot` | cxxkit/kernel/object.cpp:333-353 | The subtree of an object is what reaches it by walking up |
| `ObjectTree.ReparentKeepsForest` | cxxkit/kernel/object.cpp:286-315 | An accepted `set_parent` keeps the links acyclic and the child lists their exact duplicate-free inverse |
| `ObjectTree.FilterKeepsMirror` | cxxkit/kernel/object.cpp:562-569 | Installing a filter keeps the filter lists and the reverse registry mirrored and duplicate-free |
| `ObjectTree.UnfilterKeepsMirror` | cxxkit/kernel/object.cpp:571-581 | So does removing one |
| `StepEffects.SameParentKeepsPlace` | cxxkit/kernel/object.cpp:289-292 | Setting the parent an object has already changes nothing, its place among its siblings included |
| `StepEffects.SetParentMovesLast` | cxxkit/kernel/object.cpp:303-315 | Any other parent gets the object as its last child, the old one loses it, nobody else's links and no affinity change |
| `StepEffects.CreatedIsBound` | cxxkit/kernel/object.cpp:69-85 | A new object is bound to the current loop and the last child of its parent; nobody else changes |
| `StepEffects.InstalledIsNewest` | cxxkit/kernel/object.cpp:562-569 | A filter installed, again or for the first time, stands last, the others keep their order, nobody else's lists change |
| `StepEffects.InstalledIntercepts` | cxxkit/kernel/object.cpp:546-555 | So of all filters of the receiver that answer true, the one installed last is the one that intercepts |
| `StepEffects.RemovedIsSilent` | cxxkit/kernel/object.cpp:571-581 | A removed filter is on neither list, the others keep their order |
| `StepEffects.MoveRebindsSubtree` | cxxkit/kernel/object.cpp:358-370 | `move_to_loop`, to no loop as well as to a loop, changes the affinity of exactly the subtree and no link; what is bound to no loop cannot be posted to |
| `StepEffects.MoveToOwnLoop` | cxxkit/kernel/object.cpp:322-332 | A move to the loop an object is bound to already does nothing, whatever its children are bound to |
| `StepEffects.TeardownFreesQueue` | cxxkit/kernel/event_loop.cpp:100-105 | A dying loop's queue is empty, every event of it is freed, no other queue and no object changes |
| `StepEffects.PostedOnAffinityLoop` | cxxkit/kernel/object.cpp:243-256 | `post_event` adds one entry to the receiver's loop and changes no other queue |
| `KernelWorld.RemovalKeepsStructure` | cxxkit/kernel/object.cpp:87-149 | Destroying a descendant-closed set keeps the forest and the mirrored registries |
| `KernelWorld.RemovalKeepsRouting` | cxxkit/kernel/object.cpp:120-126 | Destruction keeps every entry on its receiver's affinity loop, so none names a dead object |
| `KernelWorld.RemovalCompose` | cxxkit/kernel/object.cpp:141-144 | Destroying one set after another destroys their union, with one accounting |
| `KernelWorld.RemovalLeavesNoEntryIff` | cxxkit/kernel/object.cpp:120-126 | If nothing interrupts it, destruction leaves no queue naming a dead object exactly when each of their entries sat on the receiver's loop or the current loop |
| `DyingObjects.StepNamesIff` | cxxkit/kernel/object.cpp:204-271 | A step that takes no entry of an object off leaves the object named in some queue exactly if it was named before or the step addresses something to it |
| `DyingObjects.DyingLeavesNoEntryIff` | cxxkit/kernel/object.cpp:120-144 | Whatever runs between the purge of a dying object and its end without taking its entries off: no queue names it at the end exactly when the purge reached every entry and nothing was addressed to it since |
| `Counterexamples.LatePostRun` | cxxkit/kernel/object.cpp:120-144 | A run from nothing in which the purge reaches everything and a post by the child's destructor leaves the parent named in a queue |
| `Destruction.LoopsIsolate` | cxxkit/kernel/object.cpp:127-139 | The two filter loops together remove the object from every filter and watching list |
| `Destruction.FinishDestroy` | cxxkit/kernel/object.cpp:87-149 | Purges, filter loops, cascade and detaching add up to the removal of exactly the subtree |
| `Migration.WalkListsSubtree` | cxxkit/kernel/object.cpp:333-353 | When the walk ends it has listed every subtree object exactly once |
| `Migration.BreadthFirstListsSubtree` | cxxkit/kernel/object.cpp:333-353 | The breadth-first listing from an object ends and consists of its subtree, each object once |
| `Migration.MoveKeepsRouting` | cxxkit/kernel/object.cpp:372-408 | Migration re-establishes "each entry sits on its receiver's affinity loop" |
| `Migration.MoveKeepsOrder` | cxxkit/kernel/object.cpp:372-408 | A moved receiver finds its entries in order on the target, or nowhere when there is no target; everyone else's entries stay in order where they were |
| `Migration.MoveOneHeld` | cxxkit/kernel/object.cpp:374-407 | Moving one receiver's entries loses no event: what leaves the queues is freed |
| `KernelSteps.StepKeepsAccount` | cxxkit/kernel/event_loop.cpp:348-397 | Every step keeps every event in exactly one place |
| `KernelSteps.StepKeepsStructure` | cxxkit/kernel/object.cpp:286-409 | Every step keeps the forest, the mirrored registries and the bounds |
| `KernelSteps.StepBuries` | cxxkit/kernel/object.cpp:87-149 | Every step keeps the objects ever made split into the living and the destroyed, and only adds to the destroyed |
| `KernelSteps.StepKeepsRouting` | cxxkit/kernel/object.cpp:204-271 | Every step keeps entries on their receiver's loop, `delete_later` without affinity excepted |
| `KernelRuns.RunIsConsistent` | cxxkit/kernel/object.cpp:87-409 | In every state of every run: forest and registries intact, every accepted event in exactly one place, every object ever made either alive or destroyed |
| `KernelRuns.RunDestroysOnceIff` | cxxkit/kernel/object.cpp:489-497 | A run destroys no object twice exactly when every deferred delete it dispatches finds its receiver alive |
| `KernelRuns.RunDestroysOnce` | cxxkit/kernel/object.cpp:489-497 | However `delete_later` is called on objects with an affinity, their ancestors and descendants, each object is destroyed at most once if nobody destroys an object while its own deferred delete is in flight |
| `DeletionRequests.StepKeepsPromise` | cxxkit/kernel/object.cpp:204-221 | Through every step that does not withdraw it, a request waits on its object's loop or is in flight, or the object is dead |
| `DeletionRequests.DeletedExactlyOnce` | cxxkit/kernel/object.cpp:204-221 | In any run, an object with an affinity on which `delete_later` was called and whose loop has drained has been destroyed, and exactly once under the condition of `RunDestroysOnce`. Handlers may do anything but withdraw the request: no `remove_pending_events` on the object, no move to no loop, no teardown of its loop, no filter that intercepts the last request |
| `KernelRuns.EventIsInOnePlace` | cxxkit/kernel/event_loop.cpp:82-106 | An accepted event is queued, in flight or freed, in exactly one of the three and once; an event not yet accepted is in none |
| `KernelRuns.RunNeverRevives` | cxxkit/kernel/object.cpp:489-497 | What a run has destroyed, by hand or by dispatch, stays destroyed |
| `KernelRuns.RunIsRouted` | cxxkit/kernel/object.cpp:243-256 | If `delete_later` is only called on objects with an affinity, every queued entry of every state names a live object on its affinity loop |
| `Counterexamples.FallbackThenMoveDangles` | cxxkit/kernel/object.cpp:204-221 | The fallback of `delete_later`, then a move, then destruction elsewhere always leaves a queue naming a dead object |
| `Counterexamples.DanglingRun` | cxxkit/kernel/object.cpp:204-221 | A complete run from nothing that ends there, and two steps later has destroyed the object twice |
| `Counterexamples.DisturbedRun` | cxxkit/kernel/object.cpp:489-497 | With affinities throughout, a request made and drained while the first is in flight destroys the object twice |
| `Kernel.Kernel.PurgePending` | cxxkit/kernel/event_loop.cpp:390-397 | Only the named loop loses entries, only those of the receiver, and their events are freed; a null loop is tolerated |
| `Kernel.Kernel.RemoveEventFilter` | cxxkit/kernel/object.cpp:571-581 | Both sides forget the pair |
| `Kernel.Kernel.InstallEventFilter` | cxxkit/kernel/object.cpp:562-569 | The pair is listed once, newest, on both sides |
| `Kernel.Kernel.SweepQueues` | cxxkit/kernel/object.cpp:125-126 | The two purges together take the object's entries off its own and the current loop |
| `Kernel.Kernel.DetachFilters` | cxxkit/kernel/object.cpp:132-139 | The two loops end with the object on no filter or watching list and with its own lists empty |
| `Kernel.Kernel.DestroyChildren` | cxxkit/kernel/object.cpp:141-144 | The cascade terminates and destroys exactly the proper descendants |
| `Kernel.Kernel.Unlink` | cxxkit/kernel/object.cpp:145-148 | The object leaves its parent's child list and is gone |
| `Kernel.Kernel.Destroy` | cxxkit/kernel/object.cpp:87-149 | Terminates; frees exactly the subtree, each object once and after its descendants; no list of a survivor names a dead object; queues are swept and events accounted for |
| `Kernel.Kernel.WouldCycle` | cxxkit/kernel/object.cpp:295-301 | The ancestor walk terminates and meets the object exactly when the new parent lies below it |
| `Kernel.Kernel.SetParent` | cxxkit/kernel/object.cpp:286-315 | Accepts exactly the parents that close no cycle; a refused call changes nothing |
| `Kernel.Kernel.Create` | cxxkit/kernel/object.cpp:69-85 | A new object is bound to the current loop and hung below its parent |
| `Kernel.Kernel.EnqueueEvent` | cxxkit/kernel/event_loop.cpp:348-388 | The event is queued or, if compressed, freed at once |
| `Kernel.Kernel.PostEvent` | cxxkit/kernel/object.cpp:243-256 | The event goes to the receiver's affinity loop |
| `Kernel.Kernel.DeleteLater` | cxxkit/kernel/object.cpp:204-221 | The request goes to the affinity loop, else to the current loop |
| `Kernel.Kernel.RemovePendingEvents` | cxxkit/kernel/object.cpp:258-271 | Purges the affinity loop and the current loop |
| `Kernel.Kernel.CollectSubtree` | cxxkit/kernel/object.cpp:333-353 | The walk terminates with the breadth-first listing of the subtree, each object together with its own old loop |
| `Kernel.Kernel.Rebind` | cxxkit/kernel/object.cpp:358-370 | Exactly the listed objects change their affinity |
| `Kernel.Kernel.MigrateEntries` | cxxkit/kernel/object.cpp:376-408 | Each listed object's entries leave its own old loop for the target, or are freed when there is none |
| `Kernel.Kernel.MoveToLoop` | cxxkit/kernel/object.cpp:322-409 | The whole operation is the migration step of the state machine |
| `Kernel.Kernel.Teardown` | cxxkit/kernel/event_loop.cpp:100-105 | Entries left in a dying loop are freed undispatched |
| `Kernel.Kernel.SendEvent` | cxxkit/kernel/object.cpp:529-560 | The application's filters, then the receiver's, are asked newest first up to the first that intercepts, which is the one installed last among those that would; the handler is reached exactly when none does |
| `Kernel.Kernel.DeliverDelete` | cxxkit/kernel/object.cpp:489-497 | The receiver's subtree is destroyed and its entries purged, then the event freed: the dispatch-delete step |
| `Kernel.Kernel.DispatchNext` | cxxkit/kernel/event_loop.cpp:189-202 | One pop and dispatch: a deferred delete about which no filter of the receiver or of the living application answers true destroys exactly the receiver's subtree; if one does, and for any other event, objects and destroyed stay as they are and only the front entry leaves the queues |
| `Kernel.Kernel.DrainEvents` | cxxkit/kernel/event_loop.cpp:189-202 | The drain terminates with the queue empty and destroys exactly the doomed, each once. An object whose every request is intercepted by a surviving filter lives; an object with a request that no filter intercepts is dead |
| `DeferredDeletion.DispatchSparesIff` | cxxkit/kernel/object.cpp:536-557 | What one dispatch destroys and takes off, in terms of the filters alone |
| `DeferredDeletion.ShieldedSurvives` | cxxkit/kernel/object.cpp:536-557 | Filter chains change as filters die; an object is spared if each request for it or an ancestor is intercepted by a filter that survives the drain |
| `DeferredDeletion.UnguardedIsDoomed` | cxxkit/kernel/object.cpp:536-557 | A request that no filter intercepts at the start destroys its receiver's subtree, wherever it stands in the queue |
| `DeferredDeletion.DoomedIsMarked` | cxxkit/kernel/object.cpp:489-497 | If no filter intercepts deferred deletes, the doomed objects are exactly those with a queued deferred delete for themselves or an ancestor |
| `DeferredDeletion.DoomedAreMarked` | cxxkit/kernel/object.cpp:536-557 | Whatever the filters answer, and though chains change as filters die, only such objects are doomed |
| `PostQueue.ClosureQueue.Post` | cxxkit/kernel/event_loop.cpp:114-123 | The closure joins the end of the queue |
| `PostQueue.ClosureQueue.ProcessRound` | cxxkit/kernel/event_loop.cpp:164-183 | A round terminates and runs exactly the snapshot in order; what the closures post waits for the next round, each closure's posts behind those of the closures before it |
| `PostQueue.SpawnedInTurn` | cxxkit/kernel/event_loop.cpp:164-183 | Place by place: the j-th post of the i-th closure stands behind everything posted by the closures before it, and nothing else is there |
| `PostQueue.RoundsFromFront` | cxxkit/kernel/event_loop.hpp:77-81 | The first of several rounds runs what is queued, the others what that posts |
| `PostQueue.ClosureQueue.ProcessRounds` | cxxkit/kernel/event_loop.hpp:77-81 | Rounds run generation after generation of closures in global post order |
| `PostQueue.EachRunsOnce` | cxxkit/kernel/event_loop.cpp:164-183 | Over every run, nested rounds included, each posted closure has run once or is still to run once |
| `PostQueue.RoundsRunOut` | cxxkit/kernel/event_loop.cpp:164-183 | However deep rounds are nested, they can be run to their end; every closure left runs, innermost round first |
| `PostQueue.RunsInPostOrder` | cxxkit/kernel/event_loop.cpp:164-183 | Without nested rounds over unfinished snapshots, what has run is a prefix of what was posted |
| `PostQueue.RoundKeepsOrderIff` | cxxkit/kernel/event_loop.cpp:164-183 | A round keeps the global post order exactly when no enclosing round has closures left or nothing new is posted |
| `PostQueue.OvertakingRun` | cxxkit/kernel/event_loop.cpp:164-183 | A run in which a nested round breaks it |
| `SlotList.ListedOnce` | cxxkit/kernel/signals.hpp:2174-2197 | No slot is listed twice |
| `SlotList.OrderIsAscending` | cxxkit/kernel/signals.hpp:1672-1678 | The calling order ascends in groups and repeats no slot |
| `SlotList.OrderPlaces` | cxxkit/kernel/signals.hpp:1672-1678 | Place by place: groups in list order, and in a group the slots as they stand |
| `SlotList.AddedMembers` | cxxkit/kernel/signals.hpp:2174-2197 | `add_slot` lists exactly one slot more |
| `SlotList.SignalSlots.AddSlot` | cxxkit/kernel/signals.hpp:2174-2197 | The slot is last in its group, made in place if missing; group ids stay strictly ascending and stored positions right |
| `SlotList.SignalSlots.Clean` | cxxkit/kernel/signals.hpp:2132-2156 | However stale the stored position, the slot itself goes or nothing does, and positions stay right |
| `SlotList.SignalSlots.SiftGroup` | cxxkit/kernel/signals.hpp:2210-2225 | Swap-with-last removes exactly the matching slots of a group and counts them |
| `SlotList.SignalSlots.DisconnectIf` | cxxkit/kernel/signals.hpp:2200-2229 | Exactly the non-matching slots stay, the number that went is returned, and flags stay as they are |
| `SlotList.SignalSlots.DisconnectGroup` | cxxkit/kernel/signals.hpp:2038-2051 | Exactly that group is emptied; returns how many slots went |
| `SlotList.SignalSlots.Disconnect` | cxxkit/kernel/signals.hpp:657-665 | Reports whether the slot was connected; clears the flag, takes the slot off the list, and touches no other flag |
| `CopyOnWrite.CowHeap.New` | cxxkit/kernel/signals.hpp:503-514 | A new payload with one holder |
| `CopyOnWrite.CowHeap.Copy` | cxxkit/kernel/signals.hpp:516-520 | The copy reads the same value; counts equal live handles |
| `CopyOnWrite.CowHeap.Move` | cxxkit/kernel/signals.hpp:522-526 | The value changes hands, counts stay right |
| `CopyOnWrite.CowHeap.Destroy` | cxxkit/kernel/signals.hpp:528-534 | The payload is freed exactly when this was its last holder |
| `CopyOnWrite.CowHeap.MoveAssign` | cxxkit/kernel/signals.hpp:545-550 | Assignment by move, self-assignment included |
| `CopyOnWrite.CowHeap.Assign` | cxxkit/kernel/signals.hpp:536-543 | Assignment by copy changes that handle's value only |
| `CopyOnWrite.CowHeap.Write` | cxxkit/kernel/signals.hpp:552-559 | A write changes what this handle reads and no other |
| `CopyOnWrite.CowHeap.Perform` | cxxkit/kernel/signals.hpp:483-574 | Under any sequence of operations the handles read like independent variables, counts equal live handles, and each payload is freed once |
| `CopyOnWrite.HeldSnapshotIsStable` | cxxkit/kernel/signals.hpp:1670-1672 | A snapshot held in a handle that no operation names as its target never changes |
| `CopyOnWrite.NothingLeaks` | cxxkit/kernel/signals.hpp:528-534 | Once no handle is left every payload ever made has been freed, each once |
| `Emission.SnapshotIsListAtStart` | cxxkit/kernel/signals.hpp:1668-1672 | A copied handle reads the list of the moment of the copy, whatever is done to the signal's handle and others afterwards |
| `Emission.TakenOffIsUnlist` | cxxkit/kernel/signals.hpp:2132-2229 | What `clean` and `disconnect_if` leave behind is an unlisting step of the emission machine |
| `Emission.RemovalIsUnlist` | cxxkit/kernel/signals.hpp:2038-2051 | So is any list whose groups only lost slots, as after `disconnect(gid)`, and the empty list |
| `Emission.EmissionIsExact` | cxxkit/kernel/signals.hpp:1661-1680 | Whatever runs meanwhile, an emission visits exactly the slots listed at its start, each once, in order, and calls exactly those connected and unblocked when reached; a blocked signal calls nothing |
| `Emission.EmissionIsOrdered` | cxxkit/kernel/signals.hpp:1661-1680 | Its calls ascend in groups, repeat no slot, and reach none connected after its start |
| `Emission.RunIsSound` | cxxkit/kernel/signals.hpp:2132-2229 | Every run keeps the slot list well formed and every snapshot made of known slots |
| `Emission.OnceRunsForEachPassed` | cxxkit/kernel/signals.hpp:1950-1961 | A `connect_once` callable runs exactly once per emission that had passed its liveness check when it was disconnected |
| `Emission.OnceRunsAtMostOnce` | cxxkit/kernel/signals.hpp:1950-1961 | In every single-threaded run from a new signal, re-entrant or not, a `connect_once` callable runs at most once |
| `Emission.OnceMayRunTwice` | cxxkit/kernel/signals.hpp:949-956 | A run from a new signal with two emissions interleaved between check and call, in which it runs twice |
| `Silencing.DisconnectedIsSkipped` | cxxkit/kernel/signals.hpp:657-665 | Over every run: once a slot is disconnected no emission, begun before or later, calls it unless it had passed the slot's check by then |
| `Silencing.BlockedIsSkipped` | cxxkit/kernel/signals.hpp:667-669 | The same for a blocked slot until it is unblocked |
| `Silencing.SilentIsNotCalled` | cxxkit/kernel/signals.hpp:950-956 | And an emission that had passed the check calls it at most once more |
| `Silencing.UnblockingMakesLive` | cxxkit/kernel/signals.hpp:667-669 | Unblocking makes a slot live exactly if it is connected |
| `Silencing.BlockedSignalIsSilent` | cxxkit/kernel/signals.hpp:1664-1667 | Once the signal is blocked and until it is unblocked, emissions that begin call nothing |
| `Silencing.UndisturbedIsCalled` | cxxkit/kernel/signals.hpp:1661-1680 | An emission of an unblocked signal calls every listed live slot that nobody disconnects or blocks meanwhile |
| `Silencing.EmissionRunsOut` | cxxkit/kernel/signals.hpp:1661-1680 | Whatever state an emission is in, its own actions can bring it to its end and leave the other emissions where they are |
| `Silencing.ConnectingMakesLive` | cxxkit/kernel/signals.hpp:2174-2197 | A connected slot is live and listed, and nobody else's listing changes |
| `Silencing.DisconnectIsTwoSteps` | cxxkit/kernel/signals.hpp:657-665 | What the method `SlotList.SignalSlots.Disconnect` leaves behind is a disconnecting and an unlisting step of the emission machine |
| `ResultIterator.CallIterator.Normalize` | cxxkit/kernel/signals.hpp:1498-1504 | Skips dead slots and nothing else |
| `ResultIterator.CallIterator.Deref` | cxxkit/kernel/signals.hpp:1465-1474 | The first dereference calls the slot, further ones return the same result without calling it |
| `ResultIterator.CallIterator.Advance` | cxxkit/kernel/signals.hpp:1476-1484 | Moves on to the next slot that is live by then |
| `ResultIterator.OptionalLastValue` | cxxkit/kernel/signals.hpp:1532-1541 | Calls every live slot once in order and returns the last result, none if there is none |
| `ResultIterator.Maximum` | cxxkit/kernel/signals.hpp:1554-1567 | Calls every live slot once in order and folds the results |
| `ResultIterator.BestIsGreatest` | cxxkit/kernel/signals.hpp:1554-1567 | That fold yields the first of the greatest results, none if there is none |
| `ResultIterator.OutcomeStepByStep` | cxxkit/kernel/signals.hpp:1465-1504 | Slot by slot: a live one leaves what its callable makes of the world, a dead one leaves it |
| `ResultIterator.SilencedIsSkipped` | cxxkit/kernel/signals.hpp:1498-1504 | A slot that a callable before it disconnects or blocks, and nobody revives, is not called |
| `ResultIterator.Flatten` | cxxkit/kernel/signals.hpp:2356-2376 | The calling order of the snapshot; empty for a blocked signal |
| `ResultIterator.EmitLastValue` | cxxkit/kernel/signals.hpp:2356-2376 | The emission returns the last live result and leaves the world the live slots made |
| `ResultIterator.EmitMaximum` | cxxkit/kernel/signals.hpp:2356-2376 | The emission returns the greatest live result |
| `ResultIterator.CalledIffLive` | cxxkit/kernel/signals.hpp:1446-1516 | A slot of the snapshot is called exactly if it is still connected and unblocked after everything before it has run |
| `QueuedConnection.RunKeepsInvariant` | cxxkit/kernel/connect_queued.hpp:159-194 | Every run keeps: each posted emission is delivered, dropped, pending or lost, in one of them and once; drops need a dead receiver, losses a dead loop |
| `QueuedConnection.EachPostOnce` | cxxkit/kernel/connect_queued.hpp:159-194 | In every run from nothing, nested rounds included, the posts of a connection are as a multiset what is delivered, dropped, pending and lost; without a receiver or with a live one nothing is dropped, and a loop that has caught up has delivered everything |
| `QueuedConnection.RoundKeepsOrderIff` | cxxkit/kernel/event_loop.cpp:164-183 | For distinct posts a round keeps a connection in posting order exactly when the loop has nothing queued or nothing left to drain for it |
| `QueuedConnection.OrderKeptIff` | cxxkit/kernel/event_loop.cpp:164-183 | Over every run with distinct posts, a connection is in posting order at the end exactly when every round met that condition |
| `QueuedConnection.DeliveriesArePrefix` | cxxkit/kernel/connect_queued.hpp:159-194 | In runs whose rounds all meet it, deliveries are a prefix of what was posted, drops follow them, and a loop that has caught up has delivered everything in order |
| `QueuedRuns.OvertakingRun` | cxxkit/kernel/event_loop.cpp:164-183 | A run that posts 1, 2, 3 and has delivered 1 and 3 while 2 is still to come |
| `QueuedConnection.NothingAfterDeath` | cxxkit/kernel/object.cpp:95-98 | No delivery after the receiver's token is cleared |
| `QueuedLifetimes.ClearedTokenEndsDelivery` | cxxkit/kernel/object.cpp:95-98 | In every run, from the action of `~Object` that clears the token on, no connection of that receiver delivers anything |
| `QueuedLifetimes.ClearedTokenDrops` | cxxkit/kernel/connect_queued.hpp:182-188 | When the loop has caught up, whatever was posted and not delivered by then is dropped or lost |
| `QueuedRuns.DroppingRun` | cxxkit/kernel/connect_queued.hpp:182-188 | A run in which an emission whose round has begun is dropped because the token is cleared first |
| `QueuedLifetimes.ReleaseEndsEmission` | cxxkit/kernel/object.cpp:112-119 | After `disconnect_all` no emission of a connection of that receiver begins |
| `QueuedLifetimes.FlipAllowsRelease` | cxxkit/kernel/object.cpp:95-119 | `disconnect_all` comes after the token is cleared and not before |
| `QueuedLifetimes.DisconnectEndsEmission` | cxxkit/kernel/connect_queued.hpp:159-194 | After a connection is disconnected none of its emissions begins |
| `QueuedLifetimes.ConnectedCanEmit` | cxxkit/kernel/connect_queued.hpp:159-194 | Until one of the two a connection can emit |
| `QueuedLifetimes.ClosedLoopTakesNothing` | cxxkit/kernel/connect_queued.hpp:175-178 | After `~EventLoop` nothing more is posted to the loop |
| `QueuedConnection.LatePostsWerePassed` | cxxkit/kernel/object.cpp:112-119 | Once the connection is gone, only emissions that had passed its check by then still post; all of them do while the loop lives |
| `QueuedConnection.DeadReceiverHasNoSlot` | cxxkit/kernel/object.cpp:112-119 | The signal holds no slot of a receiver past `disconnect_all` |
| `QueuedConnection.TeardownLosesLateEmissions` | cxxkit/kernel/event_loop.cpp:82-99 | A dying loop runs everything enqueued before; lost is exactly what arrives while its destructor drains and is not taken up by a round that one of the drained closures starts |
| `QueuedLifetimes.TeardownLosesNothingQueued` | cxxkit/kernel/event_loop.cpp:82-99 | Nothing that is enqueued when `~EventLoop` begins is lost |
| `QueuedRuns.LosingRun` | cxxkit/kernel/event_loop.cpp:82-99 | A run that loses an emission so |
| `FramerateController.Interval` | cxxkit/media/framerate_controller.cpp:63-75 | For rates from 0.5 on: the most whole nanoseconds each frame can take, at most two seconds |
| `FramerateController.FramerateController.ShouldDropFrame` | cxxkit/media/framerate_controller.cpp:61-100 | All frames dropped below the minimum rate, none when throttling is off, else the drop and due-time rules |
| `FramerateController.RateBound` | cxxkit/media/framerate_controller.cpp:61-100 | Kept frames a to b of a non-decreasing stream satisfy (b-a)·I < t_b - t_a + 2I, from any controller state |
| `FramerateController.RateBoundFromFirst` | cxxkit/media/framerate_controller.cpp:95-99 | Counted from the first frame, k·I <= t_k - t_0 + I - I/2 |
| `FramerateController.KeepsUp` | cxxkit/media/framerate_controller.cpp:77-93 | In a stream with a frame at least every interval, the k-th frame kept from a due time d on comes at most one gap after d + k·I |
| `FramerateController.RateIsReached` | cxxkit/media/framerate_controller.cpp:61-100 | So from the first frame on frame k+1 is kept by t_0 + I/2 + k·I plus one gap: the lower bound on kept frames |
| `FramerateController.JumpBackIsKept` | cxxkit/media/framerate_controller.cpp:77-99 | After any stream, a frame at least 3I before the last kept one is kept |
| `FramerateController.LateFrameIsKept` | cxxkit/media/framerate_controller.cpp:77-93 | After any stream, a frame at least I after the last kept one is kept |
| `UpdateRect.Union` | cxxkit/media/video_frame.cpp:53-68 | Covers both rectangles |
| `UpdateRect.UnionIsLeast` | cxxkit/media/video_frame.cpp:53-68 | Any rectangle covering two rectangles that have pixels covers their union |
| `UpdateRect.UnionWithEmpty` | cxxkit/media/video_frame.cpp:55-62 | An empty rectangle, wherever it lies, adds nothing to a union |
| `UpdateRect.Intersect` | cxxkit/media/video_frame.cpp:70-88 | Contains exactly the common pixels, and is the canonical empty rectangle if there are none |
| `UpdateRect.AxisIsInside` | cxxkit/media/video_frame.cpp:119-189 | Inside the scaled frame, even start, non-negative size |
| `UpdateRect.AxisCovers` | cxxkit/media/video_frame.cpp:119-189 | Covers every destination pixel touched by a pixel of the rectangle inside the crop |
| `UpdateRect.AxisIsRoomy` | cxxkit/media/video_frame.cpp:141-184 | The size is even unless the result ends with the frame; of a scaled frame it keeps two pixels before the exact image and more than one behind it, as far as the frame goes |
| `UpdateRect.AxisIsTight` | cxxkit/media/video_frame.cpp:119-189 | Reaches less than four pixels beyond the exact image, less than two when nothing is scaled |
| `UpdateRect.ScaleAxis` | cxxkit/media/video_frame.cpp:119-187 | The step-by-step computation along one axis is the composition of clipping, scaling, snapping, expanding and clamping |
| `UpdateRect.ScaleWithFrame` | cxxkit/media/video_frame.cpp:95-196 | Both axes together, with the empty results; reaches less than two pixels beyond the exact image when the frame is only cropped, less than four when it is scaled, and then keeps its distance as `AxisIsRoomy` says |
| `UpdateRect.ScaleAxis32` | cxxkit/media/video_frame.cpp:119-187 | In 32-bit integers nothing overflows for sizes up to 32767 and starts from -32767 to 32767, and the result is the same |
| `BufferPool.VideoFrameBufferPool.CreateBuffer` | cxxkit/media/video_frame_buffer_pool.cpp:114-144 | Recycles the first idle buffer of the resolution, else allocates below the maximum, else refuses; the buffer returned has no other holder |
| `BufferPool.VideoFrameBufferPool.GetExistingBuffer` | cxxkit/media/video_frame_buffer_pool.cpp:146-176 | Buffers of another resolution leave the pool; returns the first one nobody outside holds |
| `BufferPool.VideoFrameBufferPool.Resize` | cxxkit/media/video_frame_buffer_pool.cpp:76-112 | Succeeds exactly when the used buffers fit; then purges by the wrapped difference and the list fits the maximum |
| `BufferPool.VideoFrameBufferPool.Release` | cxxkit/media/video_frame_buffer_pool.cpp:71-74 | The list empties; buffers held outside survive with right counts |
| `BufferPool.VideoFrameBufferPool.Purge` | cxxkit/media/video_frame_buffer_pool.cpp:97-110 | The loop removes the first n idle buffers and keeps the rest in order |
| `BufferPool.ResizedSize` | cxxkit/media/video_frame_buffer_pool.cpp:96-111 | A successful resize leaves exactly the maximum when shrinking, and only the used buffers when growing |
| `BufferPool.PurgedFromFront` | cxxkit/media/video_frame_buffer_pool.cpp:97-110 | A buffer stays exactly if it is used or n idle ones stand before it |
| `BufferPool.FirstIdleIsFirst` | cxxkit/media/video_frame_buffer_pool.cpp:162-174 | The buffer recycled is the first in list order that nobody outside holds |
| `BufferPool.FittingConcat` | cxxkit/media/video_frame_buffer_pool.cpp:146-160 | Dropping other resolutions keeps the list order |
| `BufferPool.PurgedKeepsUsed` | cxxkit/media/video_frame_buffer_pool.cpp:97-110 | Purging drops only idle buffers |
| `BufferPool.GrowingDropsEveryIdleBuffer` | cxxkit/media/video_frame_buffer_pool.cpp:96-111 | Growing the pool drops every idle buffer and nothing else |
| `BufferPool.GrowingLosesIdleBuffer` | cxxkit/media/video_frame_buffer_pool.cpp:96-111 | A pool of one idle buffer grown to two is left empty |
| `AlignedMalloc.ValidIffPowerOfTwo` | cxxkit/memory/aligned_malloc.cpp:51-58 | The mask test accepts exactly the powers of two |
| `AlignedMalloc.AlignIsLeastMultiple` | cxxkit/memory/aligned_malloc.cpp:43-48 | The align expression is the least multiple not below the address exactly when the sum does not wrap; otherwise it is 0 |
| `AlignedMalloc.PayloadFitsIffNoWrap` | cxxkit/memory/aligned_malloc.cpp:84-89 | The block asked of malloc is large enough for the payload exactly when the size computation does not wrap |
| `AlignedMalloc.StoreThenLoad` | cxxkit/memory/aligned_malloc.cpp:99-104 | The header word reads back as written, byte by byte |
| `AlignedMalloc.AlignedHeap.Allocate` | cxxkit/memory/aligned_malloc.cpp:74-107 | Null for size 0 or a bad alignment; without wraparound aligned, header and payload disjoint inside the block, other blocks untouched; with wraparound the payload sticks out of the block |
| `AlignedMalloc.AlignedHeap.Write` | cxxkit/memory/aligned_malloc.cpp:93-104 | Writing to a payload damages no header |
| `AlignedMalloc.AlignedHeap.Free` | cxxkit/memory/aligned_malloc.cpp:109-122 | Frees exactly the block the pointer came from, at the address malloc returned for it |

## Left out

- Kernel.Kernel.DispatchNext: handlers leave the kernel alone during the dispatch; what they may do is covered by the runs of `KernelRuns` and `DeletionRequests`.
- Kernel.Kernel.DrainEvents: terminates only because handlers are taken to post nothing; a handler that re-posts forever keeps the real drain going, as its documentation warns.
- Kernel.Kernel.SendEvent: what each filter answers is a parameter; editing a chain while it is walked is not modelled.
- KernelWorld.RemovalLeavesNoEntryIff: destruction is one step, so derived destructors that act on the kernel during the cascade are not in it; `DyingObjects` covers what they address to the dying object.
- A loop that was torn down keeps its number in `KernelSteps`, so runs in which somebody still posts to it are covered as if its queue were there; in the code its pointer dangles.
- FramerateController.Interval: rates are real numbers, so the rounding of the double division is not modelled, and time stamps are unbounded.
- AlignedMalloc.AlignedHeap.Allocate: malloc's answer is a parameter and never null, which the code asserts.
- Kernel notifications (ChildEvent, kLoopChange, `destroying()`), timers, user data, names and tree dumps: callbacks and bookkeeping that the modelled structures do not depend on.
- `EventLoop` as an `Object` of its own, `exec`, `exit`, wake-ups, the dispatcher, timers and the timed `process_events`: they wait on the outside world.
- The checks that `move_to_loop` makes on running loops: they restrict callers and change nothing else.
- `Connection::disconnect` flips the flag and then cleans the list; `Emission` takes these as two separate steps with anything in between, `SlotList` as one.
- Instruction-level races and memory ordering: regions under a lock and token checks are single steps, including the documented gap between the loop-token check and the post.
- Template dispatch, RTTI comparison of callables, tracked and extended slots, signal move and swap: slots are identities with flags, and a condition on slots is an arbitrary predicate.
- Copies of a result iterator that are advanced separately: the code documents that a stale copy calls its slot again; combiners here are single-pass.
- `call_and_wait`, which blocks a thread on a result, and the copying of arguments by value in `connect_queued`; a loop's queue holds the closures of queued connections only.
- `keep_frame`, `reset`, frame metadata, colour spaces, libyuv calls, PSNR and SSIM: easy, floating-point or foreign code.
- Zero initialisation of pooled buffers and the race checker of the pool.
- Containers, smart-pointer aliases, crash handler, Qt bridge, imgui and network enums: thin wrappers or input and output.
