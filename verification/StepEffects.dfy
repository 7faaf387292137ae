/** What single steps do to the objects and queues, said object by object. */
module StepEffects {
  import opened KernelTypes
  import opened EventQueue
  import opened ObjectTree
  import opened KernelWorld
  import opened Migration
  import opened DeferredDeletion
  import opened KernelSteps

  /** The links of an object, as opposed to its affinity. */
  predicate SameLinks(x: Obj, y: Obj) {
    x.parent == y.parent && x.children == y.children && x.filters == y.filters && x.watching == y.watching
  }

  /** move_to_loop rebinds exactly the subtree, to no loop as well as to a loop, and touches no link. What was
      bound to no loop cannot be posted to. */
  lemma {:induction false} MoveRebindsSubtree(w: World, o: ObjId, t: Option<LoopId>, w': World)
    requires Structured(w) && Step(w, MoveToLoop(o, t), w') && w.objs[o].loop != t
    ensures w'.objs.Keys == w.objs.Keys && w'.anc == w.anc && w'.destroyed == w.destroyed
    ensures forall y :: y in w.objs ==> w'.objs[y].loop == (if y in Subtree(w.anc, o) then t else w.objs[y].loop)
    ensures forall y :: y in w.objs ==> SameLinks(w'.objs[y], w.objs[y])
    ensures t.None? ==> forall y, p :: y in Subtree(w.anc, o) ==> !Enabled(w', PostEvent(y, p))
  {
    BreadthFirstListsSubtree(w.objs, w.anc, o);
  }

  /** A move to the loop an object is bound to already does nothing at all, whatever its children are bound to. */
  lemma {:induction false} MoveToOwnLoop(w: World, o: ObjId, t: Option<LoopId>, w': World)
    requires Step(w, MoveToLoop(o, t), w') && w.objs[o].loop == t
    ensures w' == w
  {
  }

  /** ~EventLoop leaves its queue empty, has freed every event of it, and touches nothing else. */
  lemma {:induction false} TeardownFreesQueue(w: World, l: LoopId, w': World)
    requires Step(w, TeardownLoop(l), w')
    ensures |w'.queues| == |w.queues| && w'.queues[l] == [] && w'.objs == w.objs && w'.inFlight == w.inFlight
    ensures forall k :: 0 <= k < |w.queues| && k != l ==> w'.queues[k] == w.queues[k]
    ensures forall e :: e in w.queues[l] ==> e.event in w'.freed
    ensures |w'.freed| == |w.freed| + |w.queues[l]|
  {
    forall e | e in w.queues[l] ensures e.event in w'.freed {
      EventOfMember(w.queues[l], e);
    }
    EventsLength(w.queues[l]);
  }

  lemma {:induction false} EventOfMember(q: seq<Entry>, e: Entry)
    requires e in q
    ensures e.event in Events(q)
  {
    if e == q[0] {
    } else {
      EventOfMember(q[1..], e);
    }
  }

  lemma {:induction false} EventsLength(q: seq<Entry>)
    ensures |Events(q)| == |q|
  {
    if q == [] {
    } else {
      EventsLength(q[1..]);
    }
  }

  /** Setting the parent an object has already changes nothing, so it keeps its place among its siblings. */
  lemma {:induction false} SameParentKeepsPlace(w: World, o: ObjId, w': World)
    requires o in w.objs && Step(w, SetParent(o, w.objs[o].parent), w')
    ensures w' == w
  {
  }

  /** The children of `y` when `o` goes from parent `q` to parent `p`. */
  function ChildrenAfter(x: Obj, y: ObjId, o: ObjId, q: Option<ObjId>, p: Option<ObjId>): seq<ObjId> {
    if p == Some(y) then x.children + [o] else if q == Some(y) then Minus(x.children, {o}) else x.children
  }

  /** Any other parent gets the object as its last child, the old one loses it, and nobody else's links or
      anybody's affinity change. */
  lemma {:induction false} SetParentMovesLast(w: World, o: ObjId, p: Option<ObjId>, w': World)
    requires Step(w, SetParent(o, p), w') && w.objs[o].parent != p
    ensures w'.objs.Keys == w.objs.Keys && w'.queues == w.queues
    ensures forall y :: y in w.objs ==> w'.objs[y].parent == if y == o then p else w.objs[y].parent
    ensures forall y :: y in w.objs ==> w'.objs[y].children == ChildrenAfter(w.objs[y], y, o, w.objs[o].parent, p)
    ensures forall y :: y in w.objs ==> w'.objs[y].loop == w.objs[y].loop
    ensures forall y :: y in w.objs ==> w'.objs[y].filters == w.objs[y].filters && w'.objs[y].watching == w.objs[y].watching
  {
  }

  /** A new object is bound to the current loop and, below a parent, its last child. */
  lemma {:induction false} CreatedIsBound(w: World, p: Option<ObjId>, w': World)
    requires Structured(w) && Step(w, Create(p), w')
    ensures w'.objs.Keys == w.objs.Keys + {w.nextObj} && w'.nextObj == w.nextObj + 1 && w'.queues == w.queues
    ensures w'.objs[w.nextObj] == Obj(p, [], [], [], w.current)
    ensures p.Some? ==> w'.objs[p.value].children == w.objs[p.value].children + [w.nextObj]
    ensures forall y :: y in w.objs && Some(y) != p ==> w'.objs[y] == w.objs[y]
  {
  }

  /** A filter installed, again or for the first time, is the last on the receiver's list, and the others keep
      their order. */
  lemma {:induction false} InstalledIsNewest(w: World, o: ObjId, f: ObjId, w': World)
    requires Step(w, InstallFilter(o, f), w')
    ensures w'.objs.Keys == w.objs.Keys && w'.queues == w.queues
    ensures w'.objs[o].filters == Minus(w.objs[o].filters, {f}) + [f]
    ensures w'.objs[f].watching == Minus(w.objs[f].watching, {o}) + [o]
    ensures forall y :: y in w.objs && y != o ==> w'.objs[y].filters == w.objs[y].filters
    ensures forall y :: y in w.objs && y != f ==> w'.objs[y].watching == w.objs[y].watching
  {
  }

  /** So it is the one that stops an event it answers true to, if no filter of the application does. */
  lemma {:induction false} InstalledIntercepts(w: World, o: ObjId, f: ObjId, w': World, e: Entry, answers: Answers)
    requires Step(w, InstallFilter(o, f), w') && e.receiver == o && answers(f, e)
    ensures NewestInterceptor(w'.objs[o].filters, e, answers, f)
    ensures forall g :: NewestInterceptor(w'.objs[o].filters, e, answers, g) ==> g == f
  {
    var filters := w'.objs[o].filters;
    assert filters[|filters| - 1] == f && NoneAfter(filters, e, answers, |filters| - 1);
  }

  /** A removed filter is asked no more, and nothing else changes. */
  lemma {:induction false} RemovedIsSilent(w: World, o: ObjId, f: ObjId, w': World)
    requires Step(w, RemoveFilter(o, f), w')
    ensures w'.objs.Keys == w.objs.Keys && w'.queues == w.queues
    ensures w'.objs[o].filters == Minus(w.objs[o].filters, {f}) && w'.objs[f].watching == Minus(w.objs[f].watching, {o})
    ensures forall y :: y in w.objs && y != o ==> w'.objs[y].filters == w.objs[y].filters
    ensures forall y :: y in w.objs && y != f ==> w'.objs[y].watching == w.objs[y].watching
  {
  }

  /** post_event puts one entry more on the loop the receiver is bound to, and nothing anywhere else. */
  lemma {:induction false} PostedOnAffinityLoop(w: World, r: ObjId, p: int, w': World)
    requires Step(w, PostEvent(r, p), w')
    ensures var l, e := w.objs[r].loop.value, Entry(r, w.nextEvent, Ordinary, p);
      && |w'.queues| == |w.queues| && multiset(w'.queues[l]) == multiset(w.queues[l]) + multiset{e}
      && forall k :: 0 <= k < |w.queues| && k != l ==> w'.queues[k] == w.queues[k]
    ensures w'.objs == w.objs && w'.freed == w.freed
  {
    EnqueuedCounts(w.queues[w.objs[r].loop.value], Entry(r, w.nextEvent, Ordinary, p));
  }
}
