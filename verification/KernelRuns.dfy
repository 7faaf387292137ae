/** Whole runs of the kernel: what holds in every state, when objects are destroyed once, and what becomes
    of a request to delete. */
module KernelRuns {
  import opened KernelTypes
  import opened EventQueue
  import opened ObjectTree
  import opened KernelWorld
  import opened KernelSteps

  /** A run of the kernel: `ws[i + 1]` follows from `ws[i]` by `actions[i]`. */
  ghost predicate Run(ws: seq<World>, actions: seq<Action>) {
    && |ws| == |actions| + 1
    && forall i {:trigger StepAt(ws, actions, i)} :: 0 <= i < |actions| ==> StepAt(ws, actions, i)
  }

  ghost predicate StepAt(ws: seq<World>, actions: seq<Action>, i: nat) {
    i < |actions| && i + 1 < |ws| && Step(ws[i], actions[i], ws[i + 1])
  }

  /** Nothing exists yet. */
  ghost predicate Initial(w: World) {
    w == World(map[], map[], [], None, [], multiset{}, [], 0, 0)
  }

  ghost predicate Consistent(w: World) {
    Structured(w) && Accounted(w) && Buried(w) && ReceiversKnown(w)
  }

  lemma {:induction false} StepKeepsConsistent(w: World, a: Action, w': World)
    requires Consistent(w) && Step(w, a, w')
    ensures Consistent(w') && w.destroyed <= w'.destroyed
  {
    StepKeepsStructure(w, a, w');
    StepKeepsAccount(w, a, w');
    StepBuries(w, a, w');
    StepKeepsReceivers(w, a, w');
  }

  /** In every state of every run: the forest and the registries are intact, every accepted event is
      in exactly one place, and the objects ever made are either alive or destroyed. */
  lemma {:induction false} RunIsConsistent(ws: seq<World>, actions: seq<Action>, i: nat)
    requires Run(ws, actions) && Initial(ws[0]) && i < |ws|
    ensures Consistent(ws[i])
  {
    if i == 0 {
    } else {
      RunIsConsistent(ws, actions, i - 1);
      assert StepAt(ws, actions, i - 1);
      StepKeepsConsistent(ws[i - 1], actions[i - 1], ws[i]);
    }
  }

  /** What a run has destroyed stays destroyed. */
  lemma {:induction false} RunNeverRevives(ws: seq<World>, actions: seq<Action>, i: nat, j: nat)
    requires Run(ws, actions) && Initial(ws[0]) && i <= j < |ws|
    ensures ws[i].destroyed <= ws[j].destroyed
    ensures forall o :: o in ws[i].destroyed ==> o !in ws[j].objs
    decreases j
  {
    RunIsConsistent(ws, actions, j);
    if i < j {
      RunNeverRevives(ws, actions, i, j - 1);
      RunIsConsistent(ws, actions, j - 1);
      assert StepAt(ws, actions, j - 1);
      StepKeepsConsistent(ws[j - 1], actions[j - 1], ws[j]);
    }
    assert forall o :: o in ws[i].destroyed ==> o in ws[j].destroyed;
  }

  /** The three places of an event, spelled out. */
  lemma {:induction false} EventIsInOnePlace(w: World, e: EventId)
    requires Accounted(w)
    ensures e < w.nextEvent ==> Queued(w.queues)[e] + Events(w.inFlight)[e] + w.freed[e] == 1
    ensures e >= w.nextEvent ==> e !in Queued(w.queues) && e !in Events(w.inFlight) && e !in w.freed
  {
    assert Ledger(w)[e] == if e < w.nextEvent then 1 else 0;
  }

  // ---- routing ----

  /** delete_later is only called on objects that have an affinity. */
  ghost predicate AffineDeletes(ws: seq<World>, actions: seq<Action>)
    requires |ws| == |actions| + 1
  {
    forall i {:trigger AffineAt(ws, actions, i)} :: 0 <= i < |actions| ==> AffineAt(ws, actions, i)
  }

  ghost predicate AffineAt(ws: seq<World>, actions: seq<Action>, i: nat)
    requires i < |actions| < |ws|
  {
    actions[i].DeleteLater? && actions[i].doomed in ws[i].objs ==> ws[i].objs[actions[i].doomed].loop.Some?
  }

  /** Then in every state every queued entry names a live object and sits on its affinity loop. */
  lemma {:induction false} RunIsRouted(ws: seq<World>, actions: seq<Action>, i: nat)
    requires Run(ws, actions) && Initial(ws[0]) && AffineDeletes(ws, actions) && i < |ws|
    ensures Routed(ws[i]) && NoDangling(ws[i])
  {
    if i == 0 {
    } else {
      RunIsRouted(ws, actions, i - 1);
      RunIsConsistent(ws, actions, i - 1);
      assert StepAt(ws, actions, i - 1) && AffineAt(ws, actions, i - 1);
      StepKeepsRouting(ws[i - 1], actions[i - 1], ws[i]);
    }
  }

  /** Consistent, and every entry on its receiver's affinity loop. */
  ghost predicate Sound(w: World) {
    Consistent(w) && Routed(w)
  }

  lemma {:induction false} StepKeepsSound(w: World, a: Action, w': World)
    requires Sound(w) && Step(w, a, w')
    requires a.DeleteLater? ==> w.objs[a.doomed].loop.Some?
    ensures Sound(w')
  {
    StepKeepsConsistent(w, a, w');
    StepKeepsRouting(w, a, w');
  }

  // ---- destroyed once ----

  /** A dispatched deferred delete finds its receiver alive. */
  ghost predicate FindsAlive(w: World, a: Action) {
    a.DispatchDelete? && w.inFlight != [] ==> Innermost(w).receiver in w.objs
  }

  lemma {:induction false} DeleteOnceIff(w: World, o: ObjId, w': World)
    requires Structured(w) && Buried(w) && DestroyedOnce(w) && o < w.nextObj && Deleted(w, o, w')
    ensures DestroyedOnce(w') <==> o in w.objs
  {
    if o in w.objs {
      assert Subtree(w.anc, o) <= w.objs.Keys;
      RemovalKeepsDestroyedOnce(w, Subtree(w.anc, o), w');
    } else {
      var i :| 0 <= i < |w.destroyed| && w.destroyed[i] == o;
      assert w'.destroyed[i] == w'.destroyed[|w.destroyed|];
    }
  }

  lemma {:induction false} StepDestroysOnceIff(w: World, a: Action, w': World)
    requires Consistent(w) && DestroyedOnce(w) && Step(w, a, w')
    ensures DestroyedOnce(w') <==> FindsAlive(w, a)
  {
    if a.Delete? {
      DeleteOnceIff(w, a.victim, w');
    } else if a.DispatchDelete? {
      assert Innermost(w) in w.inFlight;
      var mid :| Deleted(w, Innermost(w).receiver, mid) && w' == FinishedFrom(w, mid);
      DeleteOnceIff(w, Innermost(w).receiver, mid);
    } else {
      OthersBury(w, a, w');
    }
  }

  lemma {:induction false} PrefixNoDup(s: seq<ObjId>, t: seq<ObjId>)
    requires s <= t && NoDup(t)
    ensures NoDup(s)
  {
  }

  /** A run destroys no object twice exactly when every deferred delete it dispatches finds its receiver alive. */
  lemma {:induction false} RunDestroysOnceIff(ws: seq<World>, actions: seq<Action>, n: nat)
    requires Run(ws, actions) && Initial(ws[0]) && n < |ws|
    ensures DestroyedOnce(ws[n]) <==> forall i :: 0 <= i < n ==> FindsAlive(ws[i], actions[i])
  {
    if n == 0 {
    } else {
      RunDestroysOnceIff(ws, actions, n - 1);
      RunIsConsistent(ws, actions, n - 1);
      var w, a, w' := ws[n - 1], actions[n - 1], ws[n];
      assert StepAt(ws, actions, n - 1);
      StepKeepsConsistent(w, a, w');
      if DestroyedOnce(w) {
        StepDestroysOnceIff(w, a, w');
      } else if DestroyedOnce(w') {
        PrefixNoDup(w.destroyed, w'.destroyed);
      }
    }
  }

  /** What a step destroys. */
  ghost function Victims(w: World, a: Action): set<ObjId> {
    if a.Delete? then Subtree(w.anc, a.victim)
    else if a.DispatchDelete? && w.inFlight != [] then Subtree(w.anc, Innermost(w).receiver)
    else {}
  }

  /** The entries in flight whose dispatch the step does not end. */
  ghost function StillInFlight(w: World, a: Action): seq<Entry> {
    if (a.DispatchDelete? || a.FinishDispatch?) && w.inFlight != [] then w.inFlight[..|w.inFlight| - 1] else w.inFlight
  }

  /** The step destroys no object whose own deferred delete is being dispatched elsewhere. */
  ghost predicate Undisturbing(w: World, a: Action) {
    forall e :: e in StillInFlight(w, a) && e.kind.DeferredDelete? ==> e.receiver !in Victims(w, a)
  }

  ghost predicate Undisturbed(ws: seq<World>, actions: seq<Action>)
    requires |ws| == |actions| + 1
  {
    forall i {:trigger Undisturbing(ws[i], actions[i])} :: 0 <= i < |actions| ==> Undisturbing(ws[i], actions[i])
  }

  /** The receivers of the deferred deletes in flight are alive. */
  ghost predicate RequestsAlive(w: World) {
    forall e :: e in w.inFlight && e.kind.DeferredDelete? ==> e.receiver in w.objs
  }

  lemma {:induction false} DeleteSpares(w: World, o: ObjId, w': World, x: ObjId)
    requires Deleted(w, o, w') && x in w.objs && x !in Subtree(w.anc, o)
    ensures x in w'.objs
  {
  }

  lemma {:induction false} StepSpares(w: World, a: Action, w': World, x: ObjId)
    requires Step(w, a, w') && x in w.objs && x !in Victims(w, a)
    ensures x in w'.objs
  {
    if a.DispatchDelete? {
      var mid :| Deleted(w, Innermost(w).receiver, mid) && w' == FinishedFrom(w, mid);
      DeleteSpares(w, Innermost(w).receiver, mid, x);
    }
  }

  lemma {:induction false} InFlightAfter(w: World, a: Action, w': World, e: Entry)
    requires Step(w, a, w') && e in w'.inFlight
    ensures e in StillInFlight(w, a) || (a.TakeEntry? && e == w.queues[a.from][0])
  {
  }

  lemma {:induction false} StepKeepsRequestsAlive(w: World, a: Action, w': World)
    requires Routed(w) && RequestsAlive(w) && Step(w, a, w') && Undisturbing(w, a)
    ensures RequestsAlive(w')
  {
    forall e | e in w'.inFlight && e.kind.DeferredDelete? ensures e.receiver in w'.objs {
      InFlightAfter(w, a, w', e);
      if e in StillInFlight(w, a) {
        assert e in w.inFlight;
      } else {
        assert e in w.queues[a.from];
      }
      StepSpares(w, a, w', e.receiver);
    }
  }

  lemma {:induction false} RequestsStayAlive(ws: seq<World>, actions: seq<Action>, i: nat)
    requires Run(ws, actions) && Initial(ws[0]) && AffineDeletes(ws, actions) && Undisturbed(ws, actions) && i < |ws|
    ensures RequestsAlive(ws[i])
  {
    if i == 0 {
    } else {
      RequestsStayAlive(ws, actions, i - 1);
      RunIsRouted(ws, actions, i - 1);
      assert StepAt(ws, actions, i - 1) && Undisturbing(ws[i - 1], actions[i - 1]);
      StepKeepsRequestsAlive(ws[i - 1], actions[i - 1], ws[i]);
    }
  }

  /** However often and in whatever order delete_later is called on objects with an affinity, on their
      ancestors and their descendants, each object is destroyed at most once, as long as nobody destroys
      an object while its own deferred delete is being dispatched. */
  lemma {:induction false} RunDestroysOnce(ws: seq<World>, actions: seq<Action>, n: nat)
    requires Run(ws, actions) && Initial(ws[0]) && AffineDeletes(ws, actions) && Undisturbed(ws, actions) && n < |ws|
    ensures DestroyedOnce(ws[n])
  {
    forall i | 0 <= i < n ensures FindsAlive(ws[i], actions[i]) {
      RequestsStayAlive(ws, actions, i);
      assert StepAt(ws, actions, i);
      if actions[i].DispatchDelete? {
        assert Innermost(ws[i]) in ws[i].inFlight;
      }
    }
    RunDestroysOnceIff(ws, actions, n);
  }
}
