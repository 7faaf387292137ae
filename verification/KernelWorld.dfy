/** The whole kernel state as one value, its invariants, and what removing a set of objects means. */
module KernelWorld {
  import opened KernelTypes
  import opened EventQueue
  import opened ObjectTree

  /** `queues[l]` is the event queue of loop `l`, `current` the loop running on the acting thread,
      `inFlight` the popped entries whose dispatch has not returned. `anc`, `freed` and `destroyed` are
      bookkeeping: the ancestor lists, the deleted events, and the destroyed objects in order. */
  datatype World = World(
    objs: Objects,
    anc: Ancestry,
    queues: seq<seq<Entry>>,
    current: Option<LoopId>,
    inFlight: seq<Entry>,
    freed: multiset<EventId>,
    destroyed: seq<ObjId>,
    nextObj: nat,
    nextEvent: nat)

  // ---- accounting of events ----

  function Queued(queues: seq<seq<Entry>>): multiset<EventId> {
    if queues == [] then multiset{} else Events(queues[0]) + Queued(queues[1..])
  }

  lemma {:induction false} QueuedUpdateCount(queues: seq<seq<Entry>>, l: LoopId, q: seq<Entry>, e: EventId)
    requires l < |queues|
    ensures Queued(queues[l := q])[e] + Events(queues[l])[e] == Queued(queues)[e] + Events(q)[e]
  {
    if l == 0 {
      assert queues[0 := q][1..] == queues[1..];
    } else {
      assert queues[l := q][1..] == queues[1..][l - 1 := q];
      QueuedUpdateCount(queues[1..], l - 1, q, e);
    }
  }

  /** Changing one queue changes the total by the difference. */
  lemma {:induction false} QueuedUpdate(queues: seq<seq<Entry>>, l: LoopId, q: seq<Entry>)
    requires l < |queues|
    ensures Queued(queues[l := q]) + Events(queues[l]) == Queued(queues) + Events(q)
  {
    forall e: EventId
      ensures (Queued(queues[l := q]) + Events(queues[l]))[e] == (Queued(queues) + Events(q))[e]
    {
      QueuedUpdateCount(queues, l, q, e);
    }
  }

  lemma {:induction false} QueuedAppend(queues: seq<seq<Entry>>)
    ensures Queued(queues + [[]]) == Queued(queues)
  {
    if queues == [] {
      var one: seq<seq<Entry>> := [[]];
      assert queues + [[]] == one && one[1..] == [];
      assert Queued(one) == Events(one[0]) + Queued(one[1..]);
    } else {
      assert (queues + [[]])[1..] == queues[1..] + [[]];
      QueuedAppend(queues[1..]);
    }
  }

  /** Queued or already deleted. */
  function Held(w: World): multiset<EventId> {
    Queued(w.queues) + w.freed
  }

  /** Every event in the system with the number of places it is in. */
  function Ledger(w: World): multiset<EventId> {
    Held(w) + Events(w.inFlight)
  }

  /** Every accepted event is in exactly one place: queued, in flight or freed. */
  ghost predicate Accounted(w: World) {
    forall e: EventId :: Ledger(w)[e] == if e < w.nextEvent then 1 else 0
  }

  // ---- structure ----

  ghost predicate Structured(w: World) {
    && Forest(w.objs, w.anc)
    && Mirrored(w.objs)
    && (forall o :: o in w.objs ==> o < w.nextObj)
    && (forall o :: o in w.objs && w.objs[o].loop.Some? ==> w.objs[o].loop.value < |w.queues|)
    && (w.current.Some? ==> w.current.value < |w.queues|)
  }

  /** The objects ever made are those alive and those destroyed. */
  ghost predicate Buried(w: World) {
    && (forall o :: o in w.destroyed ==> o < w.nextObj)
    && forall o: ObjId :: o < w.nextObj ==> (o in w.destroyed <==> o !in w.objs)
  }

  /** No object has been destroyed twice. */
  ghost predicate DestroyedOnce(w: World) {
    NoDup(w.destroyed)
  }

  /** Every entry, queued or in flight, names an object that exists or existed. */
  ghost predicate ReceiversKnown(w: World) {
    && (forall l, e :: 0 <= l < |w.queues| && e in w.queues[l] ==> e.receiver < w.nextObj)
    && (forall e :: e in w.inFlight ==> e.receiver < w.nextObj)
  }

  /** No queue names a dead object. */
  ghost predicate NoDangling(w: World) {
    forall l, e :: 0 <= l < |w.queues| && e in w.queues[l] ==> e.receiver in w.objs
  }

  /** Every entry sits on its receiver's affinity loop. */
  ghost predicate Routed(w: World) {
    forall l, e :: 0 <= l < |w.queues| && e in w.queues[l] ==>
      e.receiver in w.objs && w.objs[e.receiver].loop == Some(l)
  }

  // ---- removal of a set of objects ----

  /** A set that contains the descendants of its members. */
  ghost predicate Closed(anc: Ancestry, dead: set<ObjId>) {
    forall y, a :: y in anc && a in anc[y] && a in dead ==> y in dead
  }

  lemma {:induction false} SubtreeIsClosed(objs: Objects, anc: Ancestry, o: ObjId)
    requires Forest(objs, anc)
    ensures Closed(anc, Subtree(anc, o))
  {
    forall y, a | y in anc && a in anc[y] && a in Subtree(anc, o) ensures y in Subtree(anc, o) {
      if a != o {
        AncestorTransitive(objs, anc, o, a, y);
      }
    }
  }

  function Pruned(x: Obj, dead: set<ObjId>): Obj {
    x.(children := Minus(x.children, dead), filters := Minus(x.filters, dead), watching := Minus(x.watching, dead))
  }

  /** The survivors, with every list cleared of the dead. */
  function Survivors(objs: Objects, dead: set<ObjId>): Objects {
    map y | y in objs && y !in dead :: Pruned(objs[y], dead)
  }

  function Without(anc: Ancestry, dead: set<ObjId>): Ancestry {
    map y | y in anc && y !in dead :: anc[y]
  }

  lemma {:induction false} SurvivorsTwice(objs: Objects, a: set<ObjId>, b: set<ObjId>)
    ensures Survivors(Survivors(objs, a), b) == Survivors(objs, a + b)
  {
    forall y | y in objs && y !in a + b ensures Pruned(Pruned(objs[y], a), b) == Pruned(objs[y], a + b) {
      MinusTwice(objs[y].children, a, b);
      MinusTwice(objs[y].filters, a, b);
      MinusTwice(objs[y].watching, a, b);
    }
  }

  lemma {:induction false} SurvivorsKeepForest(objs: Objects, anc: Ancestry, dead: set<ObjId>)
    requires Forest(objs, anc) && Closed(anc, dead)
    ensures Forest(Survivors(objs, dead), Without(anc, dead))
  {
    var objs', anc' := Survivors(objs, dead), Without(anc, dead);
    forall y | y in objs' ensures ParentLink(objs', anc', y) && ChildLinks(objs', y) {
      assert ParentLink(objs, anc, y) && ChildLinks(objs, y);
      MinusNoDup(objs[y].children, dead);
    }
  }

  lemma {:induction false} SurvivorsKeepMirror(objs: Objects, dead: set<ObjId>)
    requires Mirrored(objs)
    ensures Mirrored(Survivors(objs, dead))
  {
    var objs' := Survivors(objs, dead);
    forall y | y in objs' ensures FilterLinks(objs', y) {
      assert FilterLinks(objs, y);
      MinusNoDup(objs[y].filters, dead);
      MinusNoDup(objs[y].watching, dead);
    }
  }

  /** The members of `dead` whose entries ~Object removes from loop `l`: those affine to it, and all
      of them when it is the caller's current loop. */
  ghost function Swept(w: World, dead: set<ObjId>, l: LoopId): set<ObjId> {
    set r | r in dead && r in w.objs && (w.objs[r].loop == Some(l) || w.current == Some(l))
  }

  /** `order` lists `dead` once each, no object before one of its descendants. */
  ghost predicate PostOrder(anc: Ancestry, order: seq<ObjId>, dead: set<ObjId>) {
    && NoDup(order)
    && (forall x :: x in order <==> x in dead)
    && (forall i, j :: 0 <= i < j < |order| && order[j] in anc ==> order[i] !in anc[order[j]])
  }

  ghost predicate QueuesSwept(w: World, dead: set<ObjId>, queues: seq<seq<Entry>>) {
    && |queues| == |w.queues|
    && forall l :: 0 <= l < |w.queues| ==> queues[l] == Drop(w.queues[l], Swept(w, dead, l))
  }

  ghost predicate DestroyedInOrder(w: World, dead: set<ObjId>, destroyed: seq<ObjId>) {
    w.destroyed <= destroyed && PostOrder(w.anc, destroyed[|w.destroyed|..], dead)
  }

  /** In `w'` exactly the objects in `dead` are gone, each destroyed once and after its descendants. */
  ghost predicate Gone(w: World, dead: set<ObjId>, w': World) {
    && w'.objs == Survivors(w.objs, dead)
    && w'.anc == Without(w.anc, dead)
    && DestroyedInOrder(w, dead, w'.destroyed)
  }

  /** `w'` is `w` after the objects in `dead` were destroyed. */
  ghost predicate Removal(w: World, dead: set<ObjId>, w': World) {
    && Gone(w, dead, w')
    && QueuesSwept(w, dead, w'.queues)
    && Held(w') == Held(w)
    && w' == w.(objs := w'.objs, anc := w'.anc, queues := w'.queues, freed := w'.freed, destroyed := w'.destroyed)
  }

  lemma {:induction false} RemovalOfNothing(w: World)
    ensures Removal(w, {}, w)
  {
    forall y | y in w.objs ensures Pruned(w.objs[y], {}) == w.objs[y] {
      MinusNone(w.objs[y].children, {});
      MinusNone(w.objs[y].filters, {});
      MinusNone(w.objs[y].watching, {});
    }
    forall l | 0 <= l < |w.queues| ensures Drop(w.queues[l], Swept(w, {}, l)) == w.queues[l] {
      DropNone(w.queues[l], Swept(w, {}, l));
    }
  }

  lemma {:induction false} PostOrderConcat(anc: Ancestry, s: seq<ObjId>, a: set<ObjId>, t: seq<ObjId>, b: set<ObjId>)
    requires Closed(anc, a) && PostOrder(anc, s, a) && PostOrder(anc, t, b) && a !! b
    ensures PostOrder(anc, s + t, a + b)
  {
    var u := s + t;
    forall i, j | 0 <= i < j < |u| ensures u[i] != u[j] {
      if i < |s| <= j {
        assert u[i] in s && u[j] in t;
      }
    }
    forall i, j | 0 <= i < j < |u| && u[j] in anc ensures u[i] !in anc[u[j]] {
      if i < |s| <= j {
        assert u[i] in a && u[j] in b;
      }
    }
  }

  lemma {:induction false} RemovalQueues(w: World, a: set<ObjId>, w1: World, b: set<ObjId>, w2: World, l: LoopId)
    requires Removal(w, a, w1) && Removal(w1, b, w2) && b <= w1.objs.Keys
    requires l < |w.queues|
    ensures w2.queues[l] == Drop(w.queues[l], Swept(w, a + b, l))
  {
    DropTwice(w.queues[l], Swept(w, a, l), Swept(w1, b, l));
    assert Swept(w, a, l) + Swept(w1, b, l) == Swept(w, a + b, l);
  }

  /** Destroying one set after another destroys their union. */
  lemma {:induction false} GoneCompose(w: World, a: set<ObjId>, w1: World, b: set<ObjId>, w2: World)
    requires Gone(w, a, w1) && Gone(w1, b, w2) && Closed(w.anc, a)
    requires b <= w1.objs.Keys && w.anc.Keys == w.objs.Keys
    ensures Gone(w, a + b, w2)
  {
    SurvivorsTwice(w.objs, a, b);
    assert w2.anc == Without(w.anc, a + b);
    var s, t := w1.destroyed[|w.destroyed|..], w2.destroyed[|w1.destroyed|..];
    assert w2.destroyed[|w.destroyed|..] == s + t;
    forall i, j | 0 <= i < j < |t| && t[j] in w.anc ensures t[i] !in w.anc[t[j]] {
      assert t[j] in b && t[j] in w1.anc;
    }
    PostOrderConcat(w.anc, s, a, t, b);
  }

  /** Removing one set after another removes their union. */
  lemma {:induction false} RemovalCompose(w: World, a: set<ObjId>, w1: World, b: set<ObjId>, w2: World)
    requires Removal(w, a, w1) && Removal(w1, b, w2) && Closed(w.anc, a)
    requires b <= w1.objs.Keys && w.anc.Keys == w.objs.Keys
    ensures Removal(w, a + b, w2)
  {
    GoneCompose(w, a, w1, b, w2);
    forall l | 0 <= l < |w.queues| ensures w2.queues[l] == Drop(w.queues[l], Swept(w, a + b, l)) {
      RemovalQueues(w, a, w1, b, w2, l);
    }
  }

  lemma {:induction false} RemovalKeepsStructure(w: World, dead: set<ObjId>, w': World)
    requires Structured(w) && Removal(w, dead, w') && Closed(w.anc, dead)
    ensures Structured(w')
  {
    SurvivorsKeepForest(w.objs, w.anc, dead);
    SurvivorsKeepMirror(w.objs, dead);
  }

  lemma {:induction false} RemovalKeepsRouting(w: World, dead: set<ObjId>, w': World)
    requires Routed(w) && Removal(w, dead, w')
    ensures Routed(w')
  {
    forall l, e | 0 <= l < |w'.queues| && e in w'.queues[l]
      ensures e.receiver in w'.objs && w'.objs[e.receiver].loop == Some(l)
    {
      assert e in w.queues[l] && e.receiver !in Swept(w, dead, l);
    }
  }

  lemma {:induction false} RemovalBuries(w: World, dead: set<ObjId>, w': World)
    requires Buried(w) && Removal(w, dead, w') && dead <= w.objs.Keys && forall o :: o in w.objs ==> o < w.nextObj
    ensures Buried(w')
  {
    var order := w'.destroyed[|w.destroyed|..];
    assert w'.destroyed == w.destroyed + order;
    forall o: ObjId ensures o in w'.destroyed <==> o in w.destroyed || o in dead {
      assert o in w'.destroyed <==> o in w.destroyed || o in order;
    }
  }

  lemma {:induction false} RemovalKeepsDestroyedOnce(w: World, dead: set<ObjId>, w': World)
    requires Buried(w) && DestroyedOnce(w) && Removal(w, dead, w') && dead <= w.objs.Keys
    ensures DestroyedOnce(w')
  {
    var order := w'.destroyed[|w.destroyed|..];
    assert w'.destroyed == w.destroyed + order;
    forall i, j | 0 <= i < j < |w'.destroyed| ensures w'.destroyed[i] != w'.destroyed[j] {
      if i < |w.destroyed| <= j {
        assert w'.destroyed[j] == order[j - |w.destroyed|] && w'.destroyed[j] in order;
        assert w'.destroyed[i] in w.destroyed;
      } else if |w.destroyed| <= i {
        assert order[i - |w.destroyed|] != order[j - |w.destroyed|];
      }
    }
  }

  /** The entry can be found by the two purges of ~Object: on the receiver's affinity loop or on
      the caller's current loop. */
  ghost predicate Reachable(w: World, l: LoopId, e: Entry) {
    e.receiver in w.objs && (w.objs[e.receiver].loop == Some(l) || w.current == Some(l))
  }

  /** Some queue names a member of `dead`. */
  ghost predicate Names(queues: seq<seq<Entry>>, dead: set<ObjId>) {
    exists l, e :: 0 <= l < |queues| && e in queues[l] && e.receiver in dead
  }

  ghost predicate AllReachable(w: World, dead: set<ObjId>) {
    forall l, e {:trigger Reachable(w, l, e)} ::
      0 <= l < |w.queues| && e in w.queues[l] && e.receiver in dead ==> Reachable(w, l, e)
  }

  /** The two purges leave no queue naming a member of `dead` exactly when every entry of theirs was
      reachable. */
  lemma {:induction false} SweepUnnamesIff(w: World, dead: set<ObjId>, queues: seq<seq<Entry>>)
    requires QueuesSwept(w, dead, queues)
    ensures !Names(queues, dead) <==> AllReachable(w, dead)
  {
    if l, e :| 0 <= l < |queues| && e in queues[l] && e.receiver in dead {
      assert e in w.queues[l] && e.receiver !in Swept(w, dead, l);
      assert !Reachable(w, l, e);
    }
    if l, e :| 0 <= l < |w.queues| && e in w.queues[l] && e.receiver in dead && !Reachable(w, l, e) {
      assert e in queues[l];
    }
  }

  /** So a destruction that nothing interrupts leaves no queue naming a dead object exactly then. */
  lemma {:induction false} RemovalLeavesNoEntryIff(w: World, dead: set<ObjId>, w': World)
    requires Removal(w, dead, w')
    ensures !Names(w'.queues, dead) <==> AllReachable(w, dead)
  {
    SweepUnnamesIff(w, dead, w'.queues);
  }
}
