/** The kernel as a state machine: one step per atomic operation, and what every run keeps. */
module KernelSteps {
  import opened KernelTypes
  import opened EventQueue
  import opened ObjectTree
  import opened KernelWorld
  import opened Migration

  datatype Action =
    | Create(under: Option<ObjId>)
    | SetParent(child: ObjId, to: Option<ObjId>)
    | InstallFilter(watched: ObjId, filter: ObjId)
    | RemoveFilter(watched: ObjId, filter: ObjId)
    | PostEvent(receiver: ObjId, priority: int)
    | DeleteLater(doomed: ObjId)
    | RemovePending(of: ObjId)
    | MoveToLoop(root: ObjId, target: Option<LoopId>)
    | TakeEntry(from: LoopId)      // pop_event_entry, dispatch begins
    | FinishDispatch               // dispatch returned, the event is deleted
    | DispatchDelete               // the kDeferredDelete branch: receiver, then event deleted
    | Delete(victim: ObjId)        // delete by hand
    | SwitchCurrent(now: Option<LoopId>)
    | NewLoop
    | TeardownLoop(loop: LoopId)

  /** The loop that delete_later uses: the affinity loop, else the caller's current loop. */
  function DeletionLoop(w: World, o: ObjId): Option<LoopId>
    requires o in w.objs
  {
    if w.objs[o].loop.Some? then w.objs[o].loop else w.current
  }

  /** A new event enters through enqueue_event: queued, or deleted at once when compressed. */
  function Accepted(w: World, l: LoopId, r: ObjId, kind: EventKind, priority: int): World
    requires l < |w.queues|
  {
    var e := Entry(r, w.nextEvent, kind, priority);
    w.(queues := w.queues[l := Enqueued(w.queues[l], e)],
       freed := if Compresses(w.queues[l], e) then w.freed + multiset{w.nextEvent} else w.freed,
       nextEvent := w.nextEvent + 1)
  }

  /** What was accepted is queued, itself or the equal request that made it superfluous. */
  lemma {:induction false} AcceptedIsQueued(w: World, l: LoopId, r: ObjId, kind: EventKind, priority: int) returns (e: Entry)
    requires l < |w.queues|
    ensures e in Accepted(w, l, r, kind, priority).queues[l] && e.receiver == r && e.kind == kind
  {
    var entry := Entry(r, w.nextEvent, kind, priority);
    if Compresses(w.queues[l], entry) {
      var i :| 0 <= i < |w.queues[l]| && w.queues[l][i].receiver == r && w.queues[l][i].kind.DeferredDelete?;
      e := w.queues[l][i];
    } else {
      InsertedMembers(w.queues[l], entry, entry);
      e := entry;
    }
  }

  /** A new parentless object bound to the current loop. */
  ghost function Born(w: World): World {
    w.(objs := w.objs[w.nextObj := Obj(None, [], [], [], w.current)], anc := w.anc[w.nextObj := []], nextObj := w.nextObj + 1)
  }

  ghost function Adopted(w: World, o: ObjId, p: Option<ObjId>): World
    requires o in w.objs
  {
    w.(objs := Reparented(w.objs, o, p), anc := AncestorsAfter(w.objs, w.anc, o, p))
  }

  /** pop_event_entry on a non-empty queue. */
  function Taken(w: World, l: LoopId): World
    requires l < |w.queues| && w.queues[l] != []
  {
    w.(queues := w.queues[l := w.queues[l][1..]], inFlight := w.inFlight + [w.queues[l][0]])
  }

  /** The innermost dispatch of `w` returns; meanwhile the world has become `mid`. */
  function FinishedFrom(w: World, mid: World): World
    requires w.inFlight != []
  {
    mid.(inFlight := w.inFlight[..|w.inFlight| - 1], freed := mid.freed + multiset{w.inFlight[|w.inFlight| - 1].event})
  }

  /** The entry whose dispatch is innermost. */
  function Innermost(w: World): Entry
    requires w.inFlight != []
  {
    w.inFlight[|w.inFlight| - 1]
  }

  /** `delete this`, which looks at nothing: a receiver that is already dead is destroyed again. */
  ghost predicate Deleted(w: World, o: ObjId, w': World) {
    if o in w.objs then Removal(w, Subtree(w.anc, o), w') else w' == w.(destroyed := w.destroyed + [o])
  }

  /** ~EventLoop: what is left in the queue is deleted undispatched. */
  function TornDown(w: World, l: LoopId): World
    requires l < |w.queues|
  {
    w.(queues := w.queues[l := []], freed := w.freed + Events(w.queues[l]))
  }

  /** What the code demands of its callers; a failed check is fatal there. */
  ghost predicate Enabled(w: World, a: Action) {
    match a
    case Create(p) => p.Some? ==> p.value in w.objs
    case SetParent(o, p) => o in w.objs && (p.Some? ==> p.value in w.objs && p.value !in Subtree(w.anc, o))
    case InstallFilter(o, f) => o in w.objs && f in w.objs && o != f
    case RemoveFilter(o, f) => o in w.objs && f in w.objs
    case PostEvent(r, _) => r in w.objs && w.objs[r].loop.Some? && w.objs[r].loop.value < |w.queues|
    case DeleteLater(o) => o in w.objs && DeletionLoop(w, o).Some? && DeletionLoop(w, o).value < |w.queues|
    case RemovePending(o) => o in w.objs
    case MoveToLoop(o, t) => o in w.objs && (t.Some? ==> t.value < |w.queues|)
    case TakeEntry(l) => l < |w.queues| && w.queues[l] != []
    case FinishDispatch => w.inFlight != []
    case DispatchDelete => w.inFlight != [] && Innermost(w).kind.DeferredDelete?
    case Delete(o) => o in w.objs
    case SwitchCurrent(c) => c.Some? ==> c.value < |w.queues|
    case NewLoop => true
    case TeardownLoop(l) => l < |w.queues|
  }

  ghost predicate Step(w: World, a: Action, w': World) {
    Enabled(w, a) &&
    match a
    case Create(p) => w.nextObj !in w.objs && w' == Adopted(Born(w), w.nextObj, p)
    case SetParent(o, p) => w' == Adopted(w, o, p)
    case InstallFilter(o, f) => w' == w.(objs := Filtered(w.objs, o, f))
    case RemoveFilter(o, f) => w' == w.(objs := Unfiltered(w.objs, o, f))
    case PostEvent(r, p) => w' == Accepted(w, w.objs[r].loop.value, r, Ordinary, p)
    case DeleteLater(o) => w' == Accepted(w, DeletionLoop(w, o).value, o, DeferredDelete, 0)
    case RemovePending(o) =>
      w' == w.(queues := w'.queues, freed := w'.freed) && QueuesSwept(w, {o}, w'.queues) && Held(w') == Held(w)
    case MoveToLoop(o, t) =>
      if w.objs[o].loop == t then w' == w
      else Migrated(w, BreadthFirst(w.objs, o), t, w')
    case TakeEntry(l) => w' == Taken(w, l)
    case FinishDispatch => w' == FinishedFrom(w, w)
    case DispatchDelete => exists mid :: Deleted(w, Innermost(w).receiver, mid) && w' == FinishedFrom(w, mid)
    case Delete(o) => Removal(w, Subtree(w.anc, o), w')
    case SwitchCurrent(c) => w' == w.(current := c)
    case NewLoop => w' == w.(queues := w.queues + [[]])
    case TeardownLoop(l) => w' == TornDown(w, l)
  }

  // ---- accounting ----

  lemma {:induction false} LedgerUnchanged(w: World, w': World)
    requires Accounted(w) && Held(w') == Held(w) && w'.inFlight == w.inFlight && w'.nextEvent == w.nextEvent
    ensures Accounted(w')
  {
    assert Ledger(w') == Ledger(w);
  }

  lemma {:induction false} LedgerCount(w: World, e: EventId)
    ensures Ledger(w)[e] == Queued(w.queues)[e] + w.freed[e] + Events(w.inFlight)[e]
  {
  }

  lemma {:induction false} AcceptCount(w: World, l: LoopId, r: ObjId, kind: EventKind, priority: int, e: EventId)
    requires l < |w.queues|
    ensures Ledger(Accepted(w, l, r, kind, priority))[e] == Ledger(w)[e] + if e == w.nextEvent then 1 else 0
  {
    var w' := Accepted(w, l, r, kind, priority);
    var entry := Entry(r, w.nextEvent, kind, priority);
    LedgerCount(w, e);
    LedgerCount(w', e);
    if Compresses(w.queues[l], entry) {
      assert w'.queues == w.queues;
    } else {
      var q := Inserted(w.queues[l], entry);
      EventsInserted(w.queues[l], entry);
      assert Events(q)[e] == Events(w.queues[l])[e] + if e == w.nextEvent then 1 else 0;
      QueuedUpdateCount(w.queues, l, q, e);
    }
  }

  lemma {:induction false} AcceptKeepsAccount(w: World, l: LoopId, r: ObjId, kind: EventKind, priority: int)
    requires Accounted(w) && l < |w.queues|
    ensures Accounted(Accepted(w, l, r, kind, priority))
  {
    var w' := Accepted(w, l, r, kind, priority);
    forall e: EventId ensures Ledger(w')[e] == if e < w'.nextEvent then 1 else 0 {
      AcceptCount(w, l, r, kind, priority, e);
      assert Ledger(w)[e] == if e < w.nextEvent then 1 else 0;
    }
  }

  lemma {:induction false} TakeCount(w: World, l: LoopId, e: EventId)
    requires l < |w.queues| && w.queues[l] != []
    ensures Ledger(Taken(w, l))[e] == Ledger(w)[e]
  {
    var q := w.queues[l];
    LedgerCount(w, e);
    LedgerCount(Taken(w, l), e);
    QueuedUpdateCount(w.queues, l, q[1..], e);
    EventsSnoc(w.inFlight, q[0], e);
    assert Events(q)[e] == multiset{q[0].event}[e] + Events(q[1..])[e];
  }

  lemma {:induction false} ReturnCount(w: World, outer: seq<Entry>, x: Entry, e: EventId)
    requires w.inFlight == outer + [x]
    ensures Ledger(w.(inFlight := outer, freed := w.freed + multiset{x.event}))[e] == Ledger(w)[e]
  {
    LedgerCount(w, e);
    LedgerCount(w.(inFlight := outer, freed := w.freed + multiset{x.event}), e);
    EventsSnoc(outer, x, e);
  }

  lemma {:induction false} FinishCount(w: World, e: EventId)
    requires w.inFlight != []
    ensures Ledger(FinishedFrom(w, w))[e] == Ledger(w)[e]
  {
    var n := |w.inFlight| - 1;
    ReturnCount(w, w.inFlight[..n], w.inFlight[n], e);
  }

  lemma {:induction false} FinishKeepsAccount(w: World)
    requires Accounted(w) && w.inFlight != []
    ensures Accounted(FinishedFrom(w, w))
  {
    forall e: EventId ensures Ledger(FinishedFrom(w, w))[e] == Ledger(w)[e] { FinishCount(w, e); }
    SameLedger(w, FinishedFrom(w, w));
  }

  lemma {:induction false} DeleteKeepsAccount(w: World, o: ObjId, w': World)
    requires Accounted(w) && Deleted(w, o, w')
    ensures Accounted(w') && w'.inFlight == w.inFlight
  {
    LedgerUnchanged(w, w');
  }

  lemma {:induction false} DispatchDeleteKeepsAccount(w: World, w': World)
    requires Accounted(w) && Step(w, DispatchDelete, w')
    ensures Accounted(w')
  {
    var mid :| Deleted(w, Innermost(w).receiver, mid) && w' == FinishedFrom(w, mid);
    DeleteKeepsAccount(w, Innermost(w).receiver, mid);
    FinishKeepsAccount(mid);
  }

  lemma {:induction false} TeardownCount(w: World, l: LoopId, e: EventId)
    requires l < |w.queues|
    ensures Ledger(TornDown(w, l))[e] == Ledger(w)[e]
  {
    LedgerCount(w, e);
    LedgerCount(TornDown(w, l), e);
    QueuedUpdateCount(w.queues, l, [], e);
    assert Events([])[e] == 0;
  }

  lemma {:induction false} SameLedger(w: World, w': World)
    requires Accounted(w) && w'.nextEvent == w.nextEvent && forall e: EventId :: Ledger(w')[e] == Ledger(w)[e]
    ensures Accounted(w')
  {
  }

  /** Every step keeps every event in exactly one place. */
  lemma {:induction false} StepKeepsAccount(w: World, a: Action, w': World)
    requires Accounted(w) && Step(w, a, w')
    ensures Accounted(w')
  {
    match a
    case PostEvent(r, p) => AcceptKeepsAccount(w, w.objs[r].loop.value, r, Ordinary, p);
    case DeleteLater(o) => AcceptKeepsAccount(w, DeletionLoop(w, o).value, o, DeferredDelete, 0);
    case TakeEntry(l) =>
      forall e: EventId ensures Ledger(w')[e] == Ledger(w)[e] { TakeCount(w, l, e); }
      SameLedger(w, w');
    case FinishDispatch => FinishKeepsAccount(w);
    case DispatchDelete => DispatchDeleteKeepsAccount(w, w');
    case TeardownLoop(l) =>
      forall e: EventId ensures Ledger(w')[e] == Ledger(w)[e] { TeardownCount(w, l, e); }
      SameLedger(w, w');
    case NewLoop =>
      QueuedAppend(w.queues);
      LedgerUnchanged(w, w');
    case _ => LedgerUnchanged(w, w');
  }

  // ---- structure ----

  lemma {:induction false} BornKeepsLinks(w: World, y: ObjId)
    requires Forest(w.objs, w.anc) && Mirrored(w.objs) && w.nextObj !in w.objs && y in Born(w).objs
    ensures ParentLink(Born(w).objs, Born(w).anc, y) && ChildLinks(Born(w).objs, y) && FilterLinks(Born(w).objs, y)
  {
    if y != w.nextObj {
      assert ParentLink(w.objs, w.anc, y) && ChildLinks(w.objs, y) && FilterLinks(w.objs, y);
    }
  }

  lemma {:induction false} BornKeepsStructure(w: World)
    requires Structured(w)
    ensures w.nextObj !in w.objs && Structured(Born(w))
    ensures forall p :: p in w.objs ==> p !in Subtree(Born(w).anc, w.nextObj)
  {
    var w' := Born(w);
    forall y | y in w'.objs ensures ParentLink(w'.objs, w'.anc, y) && ChildLinks(w'.objs, y) && FilterLinks(w'.objs, y) {
      BornKeepsLinks(w, y);
    }
    forall p | p in w.objs ensures w.nextObj !in w.anc[p] {
      if w.nextObj in w.anc[p] {
        AncestorIsHigher(w.objs, w.anc, w.nextObj, p);
      }
    }
  }

  lemma {:induction false} AdoptKeepsStructure(w: World, o: ObjId, p: Option<ObjId>)
    requires Structured(w) && o in w.objs
    requires p.Some? ==> p.value in w.objs && p.value !in Subtree(w.anc, o)
    ensures Structured(Adopted(w, o, p))
  {
    ReparentKeepsForest(w.objs, w.anc, o, p);
    LinksKeepMirror(w.objs, Reparented(w.objs, o, p));
  }

  lemma {:induction false} MoveKeepsStructure(w: World, o: ObjId, t: Option<LoopId>, w': World)
    requires Structured(w) && Step(w, MoveToLoop(o, t), w')
    ensures Structured(w')
  {
    if w.objs[o].loop != t {
      var moved := BreadthFirst(w.objs, o);
      BreadthFirstListsSubtree(w.objs, w.anc, o);
      MoveKeepsForest(w.objs, w.anc, moved, t);
    }
  }

  lemma {:induction false} DeleteKeepsStructure(w: World, o: ObjId, w': World)
    requires Structured(w) && Deleted(w, o, w')
    ensures Structured(w')
  {
    if o in w.objs {
      SubtreeIsClosed(w.objs, w.anc, o);
      RemovalKeepsStructure(w, Subtree(w.anc, o), w');
    }
  }

  lemma {:induction false} DispatchDeleteKeepsStructure(w: World, w': World)
    requires Structured(w) && Step(w, DispatchDelete, w')
    ensures Structured(w')
  {
    var mid :| Deleted(w, Innermost(w).receiver, mid) && w' == FinishedFrom(w, mid);
    DeleteKeepsStructure(w, Innermost(w).receiver, mid);
  }

  lemma {:induction false} FilterStepKeepsStructure(w: World, a: Action, w': World)
    requires Structured(w) && Step(w, a, w') && (a.InstallFilter? || a.RemoveFilter?)
    ensures Structured(w')
  {
    FiltersKeepForest(w.objs, w'.objs, w.anc);
    if a.InstallFilter? {
      FilterKeepsMirror(w.objs, a.watched, a.filter);
    } else {
      UnfilterKeepsMirror(w.objs, a.watched, a.filter);
    }
  }

  /** Every step keeps the forest, the mirrored registries and the bounds. */
  lemma {:induction false} StepKeepsStructure(w: World, a: Action, w': World)
    requires Structured(w) && Step(w, a, w')
    ensures Structured(w')
  {
    match a
    case Create(p) =>
      BornKeepsStructure(w);
      AdoptKeepsStructure(Born(w), w.nextObj, p);
    case SetParent(o, p) => AdoptKeepsStructure(w, o, p);
    case InstallFilter(o, f) => FilterStepKeepsStructure(w, a, w');
    case RemoveFilter(o, f) => FilterStepKeepsStructure(w, a, w');
    case MoveToLoop(o, t) => MoveKeepsStructure(w, o, t, w');
    case Delete(o) => DeleteKeepsStructure(w, o, w');
    case DispatchDelete => DispatchDeleteKeepsStructure(w, w');
    case _ =>
  }

  // ---- the dead ----

  lemma {:induction false} DeleteBuries(w: World, o: ObjId, w': World)
    requires Structured(w) && Buried(w) && o < w.nextObj && Deleted(w, o, w')
    ensures Buried(w') && w.destroyed <= w'.destroyed
  {
    if o in w.objs {
      assert Subtree(w.anc, o) <= w.objs.Keys;
      RemovalBuries(w, Subtree(w.anc, o), w');
    }
  }

  lemma {:induction false} DispatchDeleteBuries(w: World, w': World)
    requires Structured(w) && Buried(w) && ReceiversKnown(w) && Step(w, DispatchDelete, w')
    ensures Buried(w') && w.destroyed <= w'.destroyed
  {
    assert Innermost(w) in w.inFlight;
    var mid :| Deleted(w, Innermost(w).receiver, mid) && w' == FinishedFrom(w, mid);
    DeleteBuries(w, Innermost(w).receiver, mid);
  }

  lemma {:induction false} OthersBury(w: World, a: Action, w': World)
    requires Buried(w) && Step(w, a, w') && !a.Delete? && !a.DispatchDelete?
    ensures Buried(w') && w'.destroyed == w.destroyed
  {
    assert forall o :: o in w'.objs <==> o in w.objs || (a.Create? && o == w.nextObj);
  }

  /** Every step keeps the objects ever made split into the living and the dead. */
  lemma {:induction false} StepBuries(w: World, a: Action, w': World)
    requires Structured(w) && Buried(w) && ReceiversKnown(w) && Step(w, a, w')
    ensures Buried(w') && w.destroyed <= w'.destroyed
  {
    match a
    case Delete(o) => DeleteBuries(w, o, w');
    case DispatchDelete => DispatchDeleteBuries(w, w');
    case _ => OthersBury(w, a, w');
  }

  lemma {:induction false} MoveKeepsReceivers(w: World, o: ObjId, t: Option<LoopId>, w': World, l: LoopId, e: Entry)
    requires Structured(w) && ReceiversKnown(w) && Step(w, MoveToLoop(o, t), w') && l < |w'.queues| && e in w'.queues[l]
    ensures e.receiver < w.nextObj
  {
    if w.objs[o].loop != t {
      var moved := BreadthFirst(w.objs, o);
      BreadthFirstListsSubtree(w.objs, w.anc, o);
      if t == Some(l) {
        MoveAllAtTarget(w.objs, w.queues, moved, l);
        if e !in w.queues[l] {
          ArrivingMembers(w.objs, w.queues, moved, l, e);
        }
      } else {
        MoveAllElsewhere(w.objs, w.queues, moved, t, l);
      }
    }
  }

  lemma {:induction false} AcceptKeepsReceivers(w: World, k: LoopId, r: ObjId, kind: EventKind, priority: int, l: LoopId, e: Entry)
    requires k < |w.queues| && l < |w.queues| && e in Accepted(w, k, r, kind, priority).queues[l]
    ensures e in w.queues[l] || e.receiver == r
  {
    InsertedMembers(w.queues[k], Entry(r, w.nextEvent, kind, priority), e);
  }

  lemma {:induction false} QueueKeepsReceivers(w: World, a: Action, w': World, l: LoopId, e: Entry)
    requires Structured(w) && ReceiversKnown(w) && Step(w, a, w') && l < |w'.queues| && e in w'.queues[l]
    ensures e.receiver < w'.nextObj
  {
    match a
    case PostEvent(r, p) => AcceptKeepsReceivers(w, w.objs[r].loop.value, r, Ordinary, p, l, e);
    case DeleteLater(o) => AcceptKeepsReceivers(w, DeletionLoop(w, o).value, o, DeferredDelete, 0, l, e);
    case MoveToLoop(o, t) => MoveKeepsReceivers(w, o, t, w', l, e);
    case DispatchDelete =>
      var mid :| Deleted(w, Innermost(w).receiver, mid) && w' == FinishedFrom(w, mid);
      assert e in w.queues[l];
    case _ =>
      assert l < |w.queues| ==> e in w.queues[l];
  }

  lemma {:induction false} StepKeepsReceivers(w: World, a: Action, w': World)
    requires Structured(w) && ReceiversKnown(w) && Step(w, a, w')
    ensures ReceiversKnown(w')
  {
    forall l, e | 0 <= l < |w'.queues| && e in w'.queues[l] ensures e.receiver < w'.nextObj {
      QueueKeepsReceivers(w, a, w', l, e);
    }
    forall e | e in w'.inFlight ensures e.receiver < w'.nextObj {
      assert e in w.inFlight || (a.TakeEntry? && e == w.queues[a.from][0] && e in w.queues[a.from]);
    }
  }

  // ---- routing ----

  lemma {:induction false} AcceptKeepsRouting(w: World, l: LoopId, r: ObjId, kind: EventKind, priority: int)
    requires Routed(w) && l < |w.queues| && r in w.objs && w.objs[r].loop == Some(l)
    ensures Routed(Accepted(w, l, r, kind, priority))
  {
    var w' := Accepted(w, l, r, kind, priority);
    forall k, e | 0 <= k < |w'.queues| && e in w'.queues[k]
      ensures e.receiver in w'.objs && w'.objs[e.receiver].loop == Some(k)
    {
      InsertedMembers(w.queues[l], Entry(r, w.nextEvent, kind, priority), e);
    }
  }

  lemma {:induction false} ShrinkKeepsRouting(w: World, w': World)
    requires Routed(w) && |w.queues| <= |w'.queues|
    requires forall o :: o in w.objs ==> o in w'.objs && w'.objs[o].loop == w.objs[o].loop
    requires forall l, e :: 0 <= l < |w'.queues| && e in w'.queues[l] ==> l < |w.queues| && e in w.queues[l]
    ensures Routed(w')
  {
  }

  lemma {:induction false} QueueStepKeepsRouting(w: World, a: Action, w': World)
    requires Routed(w) && Step(w, a, w')
    requires a.NewLoop? || a.TakeEntry? || a.TeardownLoop? || a.RemovePending?
    ensures Routed(w')
  {
    forall l, e | 0 <= l < |w'.queues| && e in w'.queues[l] ensures l < |w.queues| && e in w.queues[l] {
    }
    ShrinkKeepsRouting(w, w');
  }

  lemma {:induction false} LinkStepKeepsRouting(w: World, a: Action, w': World)
    requires Routed(w) && Step(w, a, w')
    requires a.SetParent? || a.InstallFilter? || a.RemoveFilter? || a.SwitchCurrent? || a.FinishDispatch?
    ensures Routed(w')
  {
    ShrinkKeepsRouting(w, w');
  }

  lemma {:induction false} CreateKeepsRouting(w: World, p: Option<ObjId>, w': World)
    requires Routed(w) && Step(w, Create(p), w')
    ensures Routed(w')
  {
    ShrinkKeepsRouting(w, w');
  }

  lemma {:induction false} MoveStepKeepsRouting(w: World, o: ObjId, t: Option<LoopId>, w': World)
    requires Structured(w) && Routed(w) && Step(w, MoveToLoop(o, t), w')
    ensures Routed(w')
  {
    if w.objs[o].loop != t {
      var moved := BreadthFirst(w.objs, o);
      BreadthFirstListsSubtree(w.objs, w.anc, o);
      MoveKeepsRouting(w, moved, t, w');
    }
  }

  lemma {:induction false} DispatchDeleteKeepsRouting(w: World, w': World)
    requires Routed(w) && Step(w, DispatchDelete, w')
    ensures Routed(w')
  {
    var o := Innermost(w).receiver;
    var mid :| Deleted(w, o, mid) && w' == FinishedFrom(w, mid);
    if o in w.objs {
      RemovalKeepsRouting(w, Subtree(w.anc, o), mid);
    }
  }

  /** Every step keeps each entry on its receiver's affinity loop, delete_later on an object without
      affinity excepted. */
  lemma {:induction false} StepKeepsRouting(w: World, a: Action, w': World)
    requires Structured(w) && Routed(w) && Step(w, a, w')
    requires a.DeleteLater? ==> w.objs[a.doomed].loop.Some?
    ensures Routed(w')
  {
    match a
    case PostEvent(r, p) => AcceptKeepsRouting(w, w.objs[r].loop.value, r, Ordinary, p);
    case DeleteLater(o) => AcceptKeepsRouting(w, w.objs[o].loop.value, o, DeferredDelete, 0);
    case MoveToLoop(o, t) => MoveStepKeepsRouting(w, o, t, w');
    case Delete(o) => RemovalKeepsRouting(w, Subtree(w.anc, o), w');
    case DispatchDelete => DispatchDeleteKeepsRouting(w, w');
    case Create(p) => CreateKeepsRouting(w, p, w');
    case NewLoop => QueueStepKeepsRouting(w, a, w');
    case TakeEntry(_) => QueueStepKeepsRouting(w, a, w');
    case TeardownLoop(_) => QueueStepKeepsRouting(w, a, w');
    case RemovePending(_) => QueueStepKeepsRouting(w, a, w');
    case _ => LinkStepKeepsRouting(w, a, w');
  }
}
