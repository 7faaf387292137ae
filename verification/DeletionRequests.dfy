/** What becomes of a call of delete_later: through whatever the kernel does afterwards the request follows
    its object until it is dispatched or the object dies some other way. */
module DeletionRequests {
  import opened KernelTypes
  import opened EventQueue
  import opened ObjectTree
  import opened KernelWorld
  import opened Migration
  import opened KernelSteps
  import opened KernelRuns

  ghost predicate IsRequest(e: Entry, o: ObjId) {
    e.receiver == o && e.kind.DeferredDelete?
  }

  /** `e` waits on the affinity loop of `o`. */
  ghost predicate Waits(w: World, o: ObjId, e: Entry) {
    && o in w.objs && w.objs[o].loop.Some? && w.objs[o].loop.value < |w.queues|
    && e in w.queues[w.objs[o].loop.value]
  }

  /** `o` is dead, or a request to delete it waits on its loop or is being dispatched. */
  ghost predicate Promised(w: World, o: ObjId) {
    || o !in w.objs
    || (exists e :: Waits(w, o, e) && IsRequest(e, o))
    || (exists e :: e in w.inFlight && IsRequest(e, o))
  }

  /** Beside the request whose dispatch is innermost there is another one. */
  ghost predicate AskedAgain(w: World, o: ObjId)
    requires w.inFlight != []
  {
    || (exists e :: Waits(w, o, e) && IsRequest(e, o))
    || (exists e :: e in w.inFlight[..|w.inFlight| - 1] && IsRequest(e, o))
  }

  /** The ways in which the last request is withdrawn: by hand, with the affinity, with the loop, by a filter. */
  ghost predicate Withdraws(w: World, a: Action, o: ObjId) {
    match a
    case RemovePending(x) => x == o
    case MoveToLoop(r, t) => t.None? && o in Subtree(w.anc, r)
    case TeardownLoop(l) => o in w.objs && w.objs[o].loop == Some(l)
    case FinishDispatch => w.inFlight != [] && IsRequest(Innermost(w), o) && !AskedAgain(w, o)
    case _ => false
  }

  lemma {:induction false} AskingPromises(w: World, o: ObjId, w': World)
    requires Structured(w) && Step(w, DeleteLater(o), w') && w.objs[o].loop.Some?
    ensures Promised(w', o) && o < w'.nextObj
  {
    var e := AcceptedIsQueued(w, w.objs[o].loop.value, o, DeferredDelete, 0);
    assert Waits(w', o, e) && IsRequest(e, o);
  }

  lemma {:induction false} AcceptKeepsWaiting(w: World, k: LoopId, r: ObjId, kind: EventKind, priority: int, o: ObjId, e: Entry)
    requires k < |w.queues| && Waits(w, o, e)
    ensures Waits(Accepted(w, k, r, kind, priority), o, e)
  {
    InsertedMembers(w.queues[k], Entry(r, w.nextEvent, kind, priority), e);
  }

  lemma {:induction false} MoveKeepsWaiting(w: World, r: ObjId, t: Option<LoopId>, w': World, o: ObjId, e: Entry)
    requires Structured(w) && Routed(w) && Step(w, MoveToLoop(r, t), w') && Waits(w, o, e) && e.receiver == o
    requires t.None? ==> o !in Subtree(w.anc, r)
    ensures Waits(w', o, e)
  {
    if w.objs[r].loop != t {
      var moved := BreadthFirst(w.objs, r);
      BreadthFirstListsSubtree(w.objs, w.anc, r);
      MoveKeepsOrder(w, moved, t, w', o);
      var l := w.objs[o].loop.value;
      assert e in Only(w.queues[l], o);
      if o in moved {
        assert e in Only(w'.queues[t.value], o);
      } else {
        assert e in Only(w'.queues[l], o);
      }
    }
  }

  lemma {:induction false} DeleteKeepsWaiting(w: World, v: ObjId, w': World, o: ObjId, e: Entry)
    requires Deleted(w, v, w') && o in w'.objs && Waits(w, o, e) && e.receiver == o
    ensures Waits(w', o, e)
  {
    if v in w.objs {
      var l := w.objs[o].loop.value;
      assert o !in Swept(w, Subtree(w.anc, v), l);
    }
  }

  lemma {:induction false} SweepKeepsWaiting(w: World, x: ObjId, w': World, o: ObjId, e: Entry)
    requires Step(w, RemovePending(x), w') && x != o && Waits(w, o, e) && e.receiver == o
    ensures Waits(w', o, e)
  {
  }

  /** A waiting request stays with its object until it is popped. */
  lemma {:induction false} RequestWaits(w: World, a: Action, w': World, o: ObjId, e: Entry)
    requires Structured(w) && Routed(w) && Step(w, a, w') && !Withdraws(w, a, o)
    requires Waits(w, o, e) && IsRequest(e, o) && o in w'.objs
    ensures Waits(w', o, e) || e in w'.inFlight
  {
    match a
    case PostEvent(r, p) => AcceptKeepsWaiting(w, w.objs[r].loop.value, r, Ordinary, p, o, e);
    case DeleteLater(x) => AcceptKeepsWaiting(w, DeletionLoop(w, x).value, x, DeferredDelete, 0, o, e);
    case MoveToLoop(r, t) => MoveKeepsWaiting(w, r, t, w', o, e);
    case Delete(v) => DeleteKeepsWaiting(w, v, w', o, e);
    case DispatchDelete =>
      var mid :| Deleted(w, Innermost(w).receiver, mid) && w' == FinishedFrom(w, mid);
      DeleteKeepsWaiting(w, Innermost(w).receiver, mid, o, e);
    case RemovePending(x) => SweepKeepsWaiting(w, x, w', o, e);
    case _ =>
  }

  lemma {:induction false} DispatchedRequest(w: World, w': World, o: ObjId, e: Entry)
    requires w.anc.Keys == w.objs.Keys && Step(w, DispatchDelete, w') && e in w.inFlight && IsRequest(e, o)
    ensures e in w'.inFlight || o !in w'.objs
  {
    var top := Innermost(w);
    var mid :| Deleted(w, top.receiver, mid) && w' == FinishedFrom(w, mid);
    if e == top {
      assert o in w.objs ==> o in Subtree(w.anc, o);
    } else {
      assert e in w.inFlight[..|w.inFlight| - 1];
    }
  }

  /** A request being dispatched ends by deleting its object, unless a filter intercepts it; then an older
      one may still be under way. */
  lemma {:induction false} RequestIsDispatched(w: World, a: Action, w': World, o: ObjId, e: Entry)
    requires w.anc.Keys == w.objs.Keys && Step(w, a, w') && !Withdraws(w, a, o) && e in w.inFlight && IsRequest(e, o)
    requires forall x :: Waits(w, o, x) ==> !IsRequest(x, o)
    ensures (exists f :: f in w'.inFlight && IsRequest(f, o)) || o !in w'.objs
  {
    if a.DispatchDelete? {
      DispatchedRequest(w, w', o, e);
    } else if a.FinishDispatch? {
      var outer := w.inFlight[..|w.inFlight| - 1];
      if IsRequest(Innermost(w), o) {
        var f :| f in outer && IsRequest(f, o);
        assert f in w'.inFlight;
      } else {
        assert e != Innermost(w) && e in outer;
      }
    } else {
      assert e in w'.inFlight;
    }
  }

  lemma {:induction false} NeverFewerObjects(w: World, a: Action, w': World)
    requires Step(w, a, w')
    ensures w.nextObj <= w'.nextObj
  {
  }

  /** Every step keeps the promise. */
  lemma {:induction false} StepKeepsPromise(w: World, a: Action, w': World, o: ObjId)
    requires Consistent(w) && Routed(w) && Step(w, a, w') && !Withdraws(w, a, o)
    requires o < w.nextObj && Promised(w, o)
    ensures Promised(w', o) && o < w'.nextObj
  {
    NeverFewerObjects(w, a, w');
    if o !in w.objs {
      StepKeepsConsistent(w, a, w');
      assert o in w.destroyed && o in w'.destroyed;
    } else if o in w'.objs {
      if e :| Waits(w, o, e) && IsRequest(e, o) {
        RequestWaits(w, a, w', o, e);
      } else {
        var e :| e in w.inFlight && IsRequest(e, o);
        RequestIsDispatched(w, a, w', o, e);
      }
    }
  }

  /** delete_later is called on `o` at step `i`, and up to state `j` nothing withdraws the request. */
  ghost predicate AskedFor(ws: seq<World>, actions: seq<Action>, o: ObjId, i: nat, j: nat)
    requires |ws| == |actions| + 1
  {
    && i < j <= |actions| && actions[i] == DeleteLater(o)
    && forall k {:trigger Withdraws(ws[k], actions[k], o)} :: i < k < j ==> !Withdraws(ws[k], actions[k], o)
  }

  ghost predicate Owed(w: World, o: ObjId) {
    Promised(w, o) && o < w.nextObj
  }

  lemma {:induction false} PromiseStarts(ws: seq<World>, actions: seq<Action>, o: ObjId, i: nat)
    requires Run(ws, actions) && Initial(ws[0]) && AffineDeletes(ws, actions)
    requires i < |actions| && actions[i] == DeleteLater(o)
    ensures Owed(ws[i + 1], o)
  {
    RunIsConsistent(ws, actions, i);
    assert StepAt(ws, actions, i) && AffineAt(ws, actions, i);
    AskingPromises(ws[i], o, ws[i + 1]);
  }

  lemma {:induction false} PromiseGoesOn(ws: seq<World>, actions: seq<Action>, o: ObjId, k: nat)
    requires Run(ws, actions) && Initial(ws[0]) && AffineDeletes(ws, actions)
    requires k < |actions| && !Withdraws(ws[k], actions[k], o) && Owed(ws[k], o)
    ensures Owed(ws[k + 1], o)
  {
    RunIsConsistent(ws, actions, k);
    RunIsRouted(ws, actions, k);
    assert StepAt(ws, actions, k);
    StepKeepsPromise(ws[k], actions[k], ws[k + 1], o);
  }

  lemma {:induction false} PromiseIsKept(ws: seq<World>, actions: seq<Action>, o: ObjId, i: nat, j: nat)
    requires Run(ws, actions) && Initial(ws[0]) && AffineDeletes(ws, actions) && AskedFor(ws, actions, o, i, j)
    ensures Owed(ws[j], o)
  {
    PromiseStarts(ws, actions, o, i);
    for k := i + 1 to j
      invariant Owed(ws[k], o)
    {
      assert !Withdraws(ws[k], actions[k], o);
      PromiseGoesOn(ws, actions, o, k);
    }
  }

  /** Nothing waits for `o` any more: its loop, if it lives, is drained and no request of it is in flight. */
  ghost predicate Drained(w: World, o: ObjId) {
    && (forall e :: Waits(w, o, e) ==> !IsRequest(e, o))
    && (forall e :: e in w.inFlight ==> !IsRequest(e, o))
  }

  /** Whatever handlers do in between: once delete_later has been called on an object with an affinity, its
      request is not withdrawn, and its loop has drained, the object has been destroyed, and exactly once if
      nobody destroys an object while its own deferred delete is being dispatched. */
  lemma {:induction false} DeletedExactlyOnce(ws: seq<World>, actions: seq<Action>, o: ObjId, i: nat, j: nat)
    requires Run(ws, actions) && Initial(ws[0]) && AffineDeletes(ws, actions) && AskedFor(ws, actions, o, i, j)
    requires Drained(ws[j], o)
    ensures o in ws[j].destroyed && o !in ws[j].objs
    ensures Undisturbed(ws, actions) ==> multiset(ws[j].destroyed)[o] == 1
  {
    PromiseIsKept(ws, actions, o, i, j);
    RunIsConsistent(ws, actions, j);
    if Undisturbed(ws, actions) {
      RunDestroysOnce(ws, actions, j);
      NoDupCount(ws[j].destroyed, o);
    }
  }
}
