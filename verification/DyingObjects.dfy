/** ~Object purges an object's entries first and deletes its children afterwards. What the destructors of
    the children do in between is arbitrary: any steps of the kernel may lie between the purge and the end. */
module DyingObjects {
  import opened KernelTypes
  import opened EventQueue
  import opened ObjectTree
  import opened KernelWorld
  import opened Migration
  import opened KernelSteps
  import opened KernelRuns

  /** The action addresses an event or a deletion request to `o`. */
  predicate Addresses(a: Action, o: ObjId) {
    (a.PostEvent? && a.receiver == o) || (a.DeleteLater? && a.doomed == o)
  }

  /** `e` waits on loop `l` for `o`. */
  predicate Waiting(queues: seq<seq<Entry>>, o: ObjId, l: nat, e: Entry) {
    l < |queues| && e in queues[l] && e.receiver == o
  }

  /** The action may take an entry of `o` off a queue: a pop or teardown that meets one, a purge, a move of
      `o` to no loop, the destruction of `o`. */
  ghost predicate TakesOff(w: World, a: Action, o: ObjId) {
    match a
    case RemovePending(x) => x == o
    case MoveToLoop(r, t) => t.None? && o in Subtree(w.anc, r)
    case TakeEntry(l) => l < |w.queues| && w.queues[l] != [] && w.queues[l][0].receiver == o
    case DispatchDelete => w.inFlight != [] && o in Subtree(w.anc, Innermost(w).receiver)
    case Delete(v) => o in Subtree(w.anc, v)
    case TeardownLoop(l) => exists e :: Waiting(w.queues, o, l, e)
    case _ => false
  }

  // ---- one step ----

  lemma {:induction false} WaitingIsNamed(queues: seq<seq<Entry>>, o: ObjId)
    ensures Names(queues, {o}) <==> exists l, e :: Waiting(queues, o, l, e)
  {
    if l, e :| 0 <= l < |queues| && e in queues[l] && e.receiver in {o} {
      assert Waiting(queues, o, l, e);
    }
    if l: nat, e :| Waiting(queues, o, l, e) {
      assert e in queues[l] && e.receiver in {o};
    }
  }

  lemma {:induction false} AcceptedWaits(w: World, l: LoopId, r: ObjId, kind: EventKind, priority: int, o: ObjId, k: nat, e: Entry)
    requires l < |w.queues| && k < |w.queues|
    ensures Waiting(w.queues, o, k, e) ==> Waiting(Accepted(w, l, r, kind, priority).queues, o, k, e)
    ensures r != o && Waiting(Accepted(w, l, r, kind, priority).queues, o, k, e) ==> Waiting(w.queues, o, k, e)
  {
    InsertedMembers(w.queues[l], Entry(r, w.nextEvent, kind, priority), e);
  }

  lemma {:induction false} SweptWaits(w: World, dead: set<ObjId>, queues: seq<seq<Entry>>, o: ObjId, l: nat, e: Entry)
    requires QueuesSwept(w, dead, queues)
    ensures Waiting(queues, o, l, e) ==> Waiting(w.queues, o, l, e)
    ensures o !in dead && Waiting(w.queues, o, l, e) ==> Waiting(queues, o, l, e)
  {
  }

  lemma {:induction false} MovedWaits(w: World, r: ObjId, t: Option<LoopId>, w': World, o: ObjId, l: nat, e: Entry) returns (k: nat)
    requires Structured(w) && Step(w, MoveToLoop(r, t), w') && Waiting(w.queues, o, l, e)
    requires t.None? ==> o !in Subtree(w.anc, r)
    ensures Waiting(w'.queues, o, k, e)
  {
    k := l;
    if w.objs[r].loop != t {
      var moved := BreadthFirst(w.objs, r);
      BreadthFirstListsSubtree(w.objs, w.anc, r);
      if t != Some(l) {
        MoveAllElsewhere(w.objs, w.queues, moved, t, l);
      }
      if t.Some? {
        MoveAllAtTarget(w.objs, w.queues, moved, t.value);
        OnlyArriving(w.objs, w.queues, moved, t.value, o);
        if o in Leaving(w.objs, moved, l, t) {
          assert e in Batch(w.objs, w.queues, o, t.value);
          assert e in Only(Arriving(w.objs, w.queues, moved, t.value), o);
          k := t.value;
        }
      }
    }
  }

  lemma {:induction false} MoveBringsOld(w: World, r: ObjId, t: Option<LoopId>, w': World, o: ObjId, l: nat, e: Entry) returns (k: nat)
    requires Structured(w) && Step(w, MoveToLoop(r, t), w') && Waiting(w'.queues, o, l, e)
    ensures Waiting(w.queues, o, k, e)
  {
    k := l;
    if w.objs[r].loop != t {
      var moved := BreadthFirst(w.objs, r);
      BreadthFirstListsSubtree(w.objs, w.anc, r);
      if t != Some(l) {
        MoveAllElsewhere(w.objs, w.queues, moved, t, l);
      } else {
        MoveAllAtTarget(w.objs, w.queues, moved, l);
        OnlyArriving(w.objs, w.queues, moved, l, o);
        if e !in w.queues[l] {
          assert e in Only(Arriving(w.objs, w.queues, moved, l), o);
          assert e in Batch(w.objs, w.queues, o, l);
          k := w.objs[o].loop.value;
        }
      }
    }
  }

  /** Unless the step takes entries of `o` off, what waited for `o` still does. */
  lemma {:induction false} StepKeepsEntry(w: World, a: Action, w': World, o: ObjId, l: nat, e: Entry) returns (k: nat)
    requires Structured(w) && Step(w, a, w') && Waiting(w.queues, o, l, e) && !TakesOff(w, a, o)
    ensures Waiting(w'.queues, o, k, e)
  {
    k := l;
    match a
    case PostEvent(r, p) => AcceptedWaits(w, w.objs[r].loop.value, r, Ordinary, p, o, l, e);
    case DeleteLater(r) => AcceptedWaits(w, DeletionLoop(w, r).value, r, DeferredDelete, 0, o, l, e);
    case RemovePending(x) => SweptWaits(w, {x}, w'.queues, o, l, e);
    case MoveToLoop(r, t) => k := MovedWaits(w, r, t, w', o, l, e);
    case DispatchDelete =>
      var mid :| Deleted(w, Innermost(w).receiver, mid) && w' == FinishedFrom(w, mid);
      if Innermost(w).receiver in w.objs {
        SweptWaits(w, Subtree(w.anc, Innermost(w).receiver), mid.queues, o, l, e);
      }
    case Delete(v) => SweptWaits(w, Subtree(w.anc, v), w'.queues, o, l, e);
    case _ =>
  }

  /** Unless the step addresses something to `o`, what waits for `o` waited for it before. */
  lemma {:induction false} StepBringsOld(w: World, a: Action, w': World, o: ObjId, l: nat, e: Entry) returns (k: nat)
    requires Structured(w) && Step(w, a, w') && Waiting(w'.queues, o, l, e) && !Addresses(a, o)
    ensures Waiting(w.queues, o, k, e)
  {
    k := l;
    match a
    case PostEvent(r, p) => AcceptedWaits(w, w.objs[r].loop.value, r, Ordinary, p, o, l, e);
    case DeleteLater(r) => AcceptedWaits(w, DeletionLoop(w, r).value, r, DeferredDelete, 0, o, l, e);
    case RemovePending(x) => SweptWaits(w, {x}, w'.queues, o, l, e);
    case MoveToLoop(r, t) => k := MoveBringsOld(w, r, t, w', o, l, e);
    case DispatchDelete =>
      var mid :| Deleted(w, Innermost(w).receiver, mid) && w' == FinishedFrom(w, mid);
      if Innermost(w).receiver in w.objs {
        SweptWaits(w, Subtree(w.anc, Innermost(w).receiver), mid.queues, o, l, e);
      }
    case Delete(v) => SweptWaits(w, Subtree(w.anc, v), w'.queues, o, l, e);
    case _ =>
  }

  /** A step that takes nothing of `o` off leaves `o` named exactly if it was named or is addressed now. */
  lemma {:induction false} StepNamesIff(w: World, a: Action, w': World, o: ObjId)
    requires Structured(w) && Step(w, a, w') && !TakesOff(w, a, o)
    ensures Names(w'.queues, {o}) <==> Names(w.queues, {o}) || Addresses(a, o)
  {
    WaitingIsNamed(w.queues, o);
    WaitingIsNamed(w'.queues, o);
    if Addresses(a, o) {
      if a.PostEvent? {
        var e := AcceptedIsQueued(w, w.objs[o].loop.value, o, Ordinary, a.priority);
        assert Waiting(w'.queues, o, w.objs[o].loop.value, e);
      } else {
        var e := AcceptedIsQueued(w, DeletionLoop(w, o).value, o, DeferredDelete, 0);
        assert Waiting(w'.queues, o, DeletionLoop(w, o).value, e);
      }
    } else {
      if l: nat, e :| Waiting(w.queues, o, l, e) {
        var k := StepKeepsEntry(w, a, w', o, l, e);
      }
      if l: nat, e :| Waiting(w'.queues, o, l, e) {
        var k := StepBringsOld(w, a, w', o, l, e);
      }
    }
  }

  // ---- from the purge to the end of the destructor ----

  /** No action of the run takes an entry of `o` off. */
  ghost predicate Untouched(ws: seq<World>, actions: seq<Action>, o: ObjId) {
    |actions| <= |ws| && forall i :: 0 <= i < |actions| ==> !TakesOff(ws[i], actions[i], o)
  }

  ghost predicate Addressed(actions: seq<Action>, n: nat, o: ObjId) {
    exists i :: 0 <= i < n && i < |actions| && Addresses(actions[i], o)
  }

  lemma {:induction false} NamedIffAddressed(ws: seq<World>, actions: seq<Action>, o: ObjId, n: nat)
    requires Run(ws, actions) && Structured(ws[0]) && Untouched(ws, actions, o) && n < |ws|
    ensures Structured(ws[n])
    ensures Names(ws[n].queues, {o}) <==> Names(ws[0].queues, {o}) || Addressed(actions, n, o)
  {
    if n == 0 {
    } else {
      NamedIffAddressed(ws, actions, o, n - 1);
      assert StepAt(ws, actions, n - 1);
      StepKeepsStructure(ws[n - 1], actions[n - 1], ws[n]);
      StepNamesIff(ws[n - 1], actions[n - 1], ws[n], o);
      if Addressed(actions, n, o) {
        var i :| 0 <= i < n && i < |actions| && Addresses(actions[i], o);
        assert i == n - 1 || Addressed(actions, n - 1, o);
      }
    }
  }

  /** After its purge a dying object has an entry in some queue at the end exactly when the purge missed one
      or something was addressed to the object meanwhile, by the destructor of a child or anybody else. */
  lemma {:induction false} DyingLeavesNoEntryIff(w: World, o: ObjId, ws: seq<World>, actions: seq<Action>)
    requires Structured(w) && Run(ws, actions) && Step(w, RemovePending(o), ws[0]) && Untouched(ws, actions, o)
    ensures !Names(ws[|actions|].queues, {o}) <==> AllReachable(w, {o}) && !Addressed(actions, |actions|, o)
  {
    StepKeepsStructure(w, RemovePending(o), ws[0]);
    SweepUnnamesIff(w, {o}, ws[0].queues);
    NamedIffAddressed(ws, actions, o, |actions|);
  }
}
