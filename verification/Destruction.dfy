/** How the steps of ~Object add up to the removal of exactly the subtree. */
module Destruction {
  import opened KernelTypes
  import opened EventQueue
  import opened ObjectTree
  import opened KernelWorld

  function Loner(x: Obj, y: ObjId, o: ObjId): Obj {
    x.(filters := if y == o then [] else Minus(x.filters, {o}),
       watching := if y == o then [] else Minus(x.watching, {o}))
  }

  /** The registries after the two filter loops of ~Object: nobody lists `o` and `o` lists nobody. */
  function Isolated(objs: Objects, o: ObjId): Objects {
    map y | y in objs :: Loner(objs[y], y, o)
  }

  /** One object after the first loop has worked down from `seen` to `left`. */
  function UnwatchedBy(x: Obj, y: ObjId, o: ObjId, left: seq<ObjId>, seen: seq<ObjId>): Obj {
    x.(watching := if y == o then left else x.watching,
       filters := if y in seen then Minus(x.filters, {o}) else x.filters)
  }

  /** After the first loop has worked down to the first `k` watched objects. */
  function Unwatched(objs: Objects, o: ObjId, k: nat): Objects
    requires o in objs && k <= |objs[o].watching|
  {
    map y | y in objs :: UnwatchedBy(objs[y], y, o, objs[o].watching[..k], objs[o].watching[k..])
  }

  /** One object after the second loop has worked down from `seen` to `left`. */
  function UnguardedBy(x: Obj, y: ObjId, o: ObjId, left: seq<ObjId>, seen: seq<ObjId>): Obj {
    x.(filters := if y == o then left else x.filters,
       watching := if y in seen then Minus(x.watching, {o}) else x.watching)
  }

  /** After the second loop has worked down to the first `k` filters. */
  function Unguarded(objs: Objects, o: ObjId, k: nat): Objects
    requires o in objs && k <= |objs[o].filters|
  {
    map y | y in objs :: UnguardedBy(objs[y], y, o, objs[o].filters[..k], objs[o].filters[k..])
  }

  lemma {:induction false} UnwatchedObjStep(x: Obj, y: ObjId, o: ObjId, left: seq<ObjId>, g: ObjId, seen: seq<ObjId>)
    requires g != o && g !in left && g !in seen && o !in seen && NoDup(left)
    ensures Unpaired(UnwatchedBy(x, y, o, left + [g], seen), y, g, o) == UnwatchedBy(x, y, o, left, [g] + seen)
  {
    MinusConcat(left, [g], {g});
    MinusNone(left, {g});
  }

  lemma {:induction false} UnguardedObjStep(x: Obj, y: ObjId, o: ObjId, left: seq<ObjId>, g: ObjId, seen: seq<ObjId>)
    requires g != o && g !in left && g !in seen && o !in seen && NoDup(left)
    ensures Unpaired(UnguardedBy(x, y, o, left + [g], seen), y, o, g) == UnguardedBy(x, y, o, left, [g] + seen)
  {
    MinusConcat(left, [g], {g});
    MinusNone(left, {g});
  }

  lemma {:induction false} UnwatchedStep(objs: Objects, o: ObjId, k: nat)
    requires o in objs && 0 < k <= |objs[o].watching| && NoDup(objs[o].watching) && o !in objs[o].watching
    ensures Unfiltered(Unwatched(objs, o, k), objs[o].watching[k - 1], o) == Unwatched(objs, o, k - 1)
  {
    var s := objs[o].watching;
    var left, g, seen := s[..k - 1], s[k - 1], s[k..];
    assert s[..k] == left + [g] && s[k - 1..] == [g] + seen;
    forall y | y in objs
      ensures Unpaired(UnwatchedBy(objs[y], y, o, s[..k], s[k..]), y, g, o) ==
              UnwatchedBy(objs[y], y, o, s[..k - 1], s[k - 1..])
    {
      UnwatchedObjStep(objs[y], y, o, left, g, seen);
    }
  }

  lemma {:induction false} UnguardedStep(objs: Objects, o: ObjId, k: nat)
    requires o in objs && 0 < k <= |objs[o].filters| && NoDup(objs[o].filters) && o !in objs[o].filters
    ensures Unfiltered(Unguarded(objs, o, k), o, objs[o].filters[k - 1]) == Unguarded(objs, o, k - 1)
  {
    var s := objs[o].filters;
    var left, g, seen := s[..k - 1], s[k - 1], s[k..];
    assert s[..k] == left + [g] && s[k - 1..] == [g] + seen;
    forall y | y in objs
      ensures Unpaired(UnguardedBy(objs[y], y, o, s[..k], s[k..]), y, o, g) ==
              UnguardedBy(objs[y], y, o, s[..k - 1], s[k - 1..])
    {
      UnguardedObjStep(objs[y], y, o, left, g, seen);
    }
  }

  /** remove_event_filter(o) on every object of `ws`, last first. */
  function LeaveAll(objs: Objects, o: ObjId, ws: seq<ObjId>): Objects {
    if ws == [] then objs
    else LeaveAll(Unfiltered(objs, ws[|ws| - 1], o), o, ws[..|ws| - 1])
  }

  /** o.remove_event_filter on every object of `fs`, last first. */
  function ShedAll(objs: Objects, o: ObjId, fs: seq<ObjId>): Objects {
    if fs == [] then objs
    else ShedAll(Unfiltered(objs, o, fs[|fs| - 1]), o, fs[..|fs| - 1])
  }

  lemma {:induction false} LeaveAllFrom(objs: Objects, o: ObjId, k: nat)
    requires o in objs && k <= |objs[o].watching| && NoDup(objs[o].watching) && o !in objs[o].watching
    ensures LeaveAll(Unwatched(objs, o, k), o, objs[o].watching[..k]) == Unwatched(objs, o, 0)
    decreases k
  {
    if k == 0 {
    } else {
      UnwatchedStep(objs, o, k);
      assert objs[o].watching[..k][..k - 1] == objs[o].watching[..k - 1];
      LeaveAllFrom(objs, o, k - 1);
    }
  }

  lemma {:induction false} ShedAllFrom(objs: Objects, o: ObjId, k: nat)
    requires o in objs && k <= |objs[o].filters| && NoDup(objs[o].filters) && o !in objs[o].filters
    ensures ShedAll(Unguarded(objs, o, k), o, objs[o].filters[..k]) == Unguarded(objs, o, 0)
    decreases k
  {
    if k == 0 {
    } else {
      UnguardedStep(objs, o, k);
      assert objs[o].filters[..k][..k - 1] == objs[o].filters[..k - 1];
      ShedAllFrom(objs, o, k - 1);
    }
  }

  lemma {:induction false} LoopsStart(objs: Objects, o: ObjId)
    requires o in objs
    ensures Unwatched(objs, o, |objs[o].watching|) == objs
    ensures Unguarded(objs, o, |objs[o].filters|) == objs
  {
    var w, f := objs[o].watching, objs[o].filters;
    assert w[|w|..] == [] && f[|f|..] == [] && w[..|w|] == w && f[..|f|] == f;
  }

  lemma {:induction false} LonerByLoops(x: Obj, y: ObjId, o: ObjId, watching: seq<ObjId>, filters: seq<ObjId>)
    requires y == o ==> y !in watching && y !in filters
    requires y != o ==> (y in watching <==> o in x.filters) && (y in filters <==> o in x.watching)
    ensures UnguardedBy(UnwatchedBy(x, y, o, [], watching), y, o, [], filters) == Loner(x, y, o)
  {
    if o !in x.filters {
      MinusNone(x.filters, {o});
    }
    if o !in x.watching {
      MinusNone(x.watching, {o});
    }
  }

  lemma {:induction false} BothIsolate(objs: Objects, o: ObjId)
    requires Mirrored(objs) && o in objs
    ensures Unguarded(Unwatched(objs, o, 0), o, 0) == Isolated(objs, o)
  {
    var w, f := objs[o].watching, objs[o].filters;
    assert w[..0] == [] && w[0..] == w && f[..0] == [] && f[0..] == f;
    assert FilterLinks(objs, o);
    assert Unwatched(objs, o, 0)[o].filters == f;
    forall y | y in objs
      ensures UnguardedBy(UnwatchedBy(objs[y], y, o, [], w), y, o, [], f) == Loner(objs[y], y, o)
    {
      assert FilterLinks(objs, y);
      LonerByLoops(objs[y], y, o, w, f);
    }
  }

  /** The two loops together isolate the object. */
  lemma {:induction false} LoopsIsolate(objs: Objects, o: ObjId)
    requires Mirrored(objs) && o in objs
    ensures ShedAll(LeaveAll(objs, o, objs[o].watching), o, objs[o].filters) == Isolated(objs, o)
  {
    var w, f := objs[o].watching, objs[o].filters;
    assert FilterLinks(objs, o);
    LoopsStart(objs, o);
    LeaveAllFrom(objs, o, |w|);
    assert w[..|w|] == w && f[..|f|] == f;
    var mid := Unwatched(objs, o, 0);
    assert mid[o].filters == f;
    LoopsStart(mid, o);
    ShedAllFrom(mid, o, |f|);
    BothIsolate(objs, o);
  }

  /** The child of `o` on the way down to `y`. */
  lemma {:induction false} ChildTowards(objs: Objects, anc: Ancestry, o: ObjId, y: ObjId) returns (c: ObjId)
    requires Forest(objs, anc) && o in objs && y in objs && o in anc[y]
    ensures c in objs[o].children && c in objs && (y == c || c in anc[y])
    decreases |anc[y]|
  {
    assert ParentLink(objs, anc, y);
    var p := anc[y][0];
    if p == o {
      return y;
    }
    c := ChildTowards(objs, anc, o, p);
  }

  /** A closed set holding every child of `o` holds everything below `o`. */
  lemma {:induction false} AllChildrenAllDescendants(objs: Objects, anc: Ancestry, o: ObjId, dead: set<ObjId>)
    requires Forest(objs, anc) && o in objs && Closed(anc, dead)
    requires dead <= Subtree(anc, o) - {o}
    requires forall c :: c in objs[o].children ==> c in dead
    ensures dead == Subtree(anc, o) - {o}
  {
    forall y | y in Subtree(anc, o) - {o} ensures y in dead {
      var c := ChildTowards(objs, anc, o, y);
    }
  }

  /** What is below a child is below its parent, and does not include the parent. */
  lemma {:induction false} ChildSubtree(objs: Objects, anc: Ancestry, o: ObjId, c: ObjId)
    requires Forest(objs, anc) && o in objs && c in objs[o].children
    ensures c in objs && Subtree(anc, c) <= Subtree(anc, o) - {o}
  {
    assert ChildLinks(objs, o) && ParentLink(objs, anc, c);
    forall y | y in Subtree(anc, c) ensures y in Subtree(anc, o) - {o} {
      if y != c {
        AncestorTransitive(objs, anc, o, c, y);
      }
      AncestorIsHigher(objs, anc, o, y);
    }
  }

  lemma {:induction false} ClosedExtend(anc: Ancestry, a: set<ObjId>, b: set<ObjId>)
    requires Closed(anc, a) && Closed(Without(anc, a), b)
    ensures Closed(anc, a + b)
  {
    forall y, x | y in anc && x in anc[y] && x in a + b ensures y in a + b {
      if y !in a {
        assert Without(anc, a)[y] == anc[y];
      }
    }
  }

  /** Destroying one more child's subtree extends the removal. */
  lemma {:induction false} ExtendRemoval(w: World, dead: set<ObjId>, w1: World, o: ObjId, c: ObjId, w2: World)
    requires Forest(w.objs, w.anc) && Forest(w1.objs, w1.anc) && o in w1.objs && c in w1.objs[o].children
    requires Removal(w, dead, w1) && Closed(w.anc, dead) && dead <= Subtree(w.anc, o) - {o}
    requires Removal(w1, Subtree(w1.anc, c), w2)
    ensures Removal(w, dead + Subtree(w1.anc, c), w2)
    ensures Closed(w.anc, dead + Subtree(w1.anc, c))
    ensures dead + Subtree(w1.anc, c) <= Subtree(w.anc, o) - {o}
  {
    ChildSubtree(w1.objs, w1.anc, o, c);
    var more := Subtree(w1.anc, c);
    SubtreeIsClosed(w1.objs, w1.anc, c);
    ClosedExtend(w.anc, dead, more);
    assert more <= w1.objs.Keys && w.anc.Keys == w.objs.Keys;
    assert Subtree(w1.anc, o) <= Subtree(w.anc, o);
    RemovalCompose(w, dead, w1, more, w2);
  }

  /** The state after the purges and the filter loops of ~Object. */
  ghost predicate Prepared(w: World, o: ObjId, w1: World) {
    && w1 == w.(objs := Isolated(w.objs, o), queues := w1.queues, freed := w1.freed)
    && QueuesSwept(w, {o}, w1.queues)
    && Held(w1) == Held(w)
  }

  lemma {:induction false} IsolateKeepsMirror(objs: Objects, o: ObjId)
    requires Mirrored(objs)
    ensures Mirrored(Isolated(objs, o))
  {
    var objs' := Isolated(objs, o);
    forall y | y in objs' ensures FilterLinks(objs', y) {
      assert FilterLinks(objs, y);
      if y != o {
        MinusNoDup(objs[y].filters, {o});
        MinusNoDup(objs[y].watching, {o});
        assert forall f :: f in objs'[y].filters ==> f != o && y in objs[f].watching && y in objs'[f].watching;
        assert forall f :: f in objs'[y].watching ==> f != o && y in objs[f].filters && y in objs'[f].filters;
      }
    }
  }

  lemma {:induction false} PreparedIsStructured(w: World, o: ObjId, w1: World)
    requires Structured(w) && Prepared(w, o, w1)
    ensures Structured(w1)
  {
    FiltersKeepForest(w.objs, w1.objs, w.anc);
    IsolateKeepsMirror(w.objs, o);
  }

  /** The links after the end of ~Object: `o` is off every child list and gone. */
  function Unlinked(objs: Objects, o: ObjId): Objects {
    map y | y in objs && y != o :: objs[y].(children := Minus(objs[y].children, {o}))
  }

  /** Only the parent lists `o`, so leaving its list is leaving all lists. */
  lemma {:induction false} UnlinkParentOnly(objs: Objects, anc: Ancestry, o: ObjId)
    requires Forest(objs, anc) && o in objs
    ensures objs[o].parent.Some? ==> objs[o].parent.value in objs
    ensures forall y :: y in objs && objs[o].parent != Some(y) ==> Minus(objs[y].children, {o}) == objs[y].children
  {
    assert ParentLink(objs, anc, o);
    forall y | y in objs && objs[o].parent != Some(y) ensures Minus(objs[y].children, {o}) == objs[y].children {
      assert ChildLinks(objs, y);
      MinusNone(objs[y].children, {o});
    }
  }

  lemma {:induction false} UnlinkByUpdates(objs: Objects, anc: Ancestry, o: ObjId)
    requires Forest(objs, anc) && o in objs
    ensures objs[o].parent.Some? ==> objs[o].parent.value in objs
    ensures var p := objs[o].parent;
      var off := if p.Some? then objs[p.value := objs[p.value].(children := Minus(objs[p.value].children, {o}))] else objs;
      (map y | y in off && y != o :: off[y]) == Unlinked(objs, o)
  {
    UnlinkParentOnly(objs, anc, o);
    var p := objs[o].parent;
    var off := if p.Some? then objs[p.value := objs[p.value].(children := Minus(objs[p.value].children, {o}))] else objs;
    var done, all := map y | y in off && y != o :: off[y], Unlinked(objs, o);
    assert done.Keys == all.Keys;
    forall y | y in all ensures done[y] == all[y] {
      if p == Some(y) {
        assert done[y] == objs[y].(children := Minus(objs[y].children, {o}));
      } else {
        assert Minus(objs[y].children, {o}) == objs[y].children;
      }
    }
  }

  lemma {:induction false} FinishObject(x: Obj, y: ObjId, o: ObjId, below: set<ObjId>)
    requires y != o
    ensures Pruned(Loner(x, y, o), below).(children := Minus(Minus(x.children, below), {o})) == Pruned(x, below + {o})
  {
    MinusTwice(x.children, below, {o});
    MinusTwice(x.filters, {o}, below);
    MinusTwice(x.watching, {o}, below);
    assert {o} + below == below + {o};
  }

  lemma {:induction false} FinishObjects(objs: Objects, o: ObjId, below: set<ObjId>)
    requires o in objs && o !in below
    ensures Unlinked(Survivors(Isolated(objs, o), below), o) == Survivors(objs, below + {o})
  {
    var end, goal := Unlinked(Survivors(Isolated(objs, o), below), o), Survivors(objs, below + {o});
    assert end.Keys == goal.Keys;
    forall y | y in goal ensures end[y] == goal[y] {
      FinishObject(objs[y], y, o, below);
    }
  }

  lemma {:induction false} FinishQueues(w: World, o: ObjId, w1: World, below: set<ObjId>, queues: seq<seq<Entry>>)
    requires w1.objs == Isolated(w.objs, o) && w1.current == w.current
    requires QueuesSwept(w, {o}, w1.queues) && QueuesSwept(w1, below, queues)
    ensures QueuesSwept(w, below + {o}, queues)
  {
    forall l | 0 <= l < |w.queues| ensures queues[l] == Drop(w.queues[l], Swept(w, below + {o}, l)) {
      DropTwice(w.queues[l], Swept(w, {o}, l), Swept(w1, below, l));
      assert Swept(w, {o}, l) + Swept(w1, below, l) == Swept(w, below + {o}, l);
    }
  }

  lemma {:induction false} FinishGone(w: World, o: ObjId, w1: World, below: set<ObjId>, w2: World, w3: World)
    requires w1.anc == w.anc && w1.destroyed == w.destroyed && Gone(w1, below, w2)
    requires w3.objs == Survivors(w.objs, below + {o})
    requires w3.anc == Without(w2.anc, {o}) && w3.destroyed == w2.destroyed + [o]
    requires PostOrder(w.anc, w2.destroyed[|w.destroyed|..] + [o], below + {o})
    ensures Gone(w, below + {o}, w3)
  {
    assert w3.anc == Without(w.anc, below + {o});
    assert w3.destroyed[|w.destroyed|..] == w2.destroyed[|w.destroyed|..] + [o];
  }

  /** Purge, isolate, destroy what is below, unlink: together the removal of the subtree. */
  lemma {:induction false} FinishRemoval(w: World, o: ObjId, w1: World, below: set<ObjId>, w2: World, w3: World)
    requires Prepared(w, o, w1) && Removal(w1, below, w2)
    requires w3 == w2.(objs := w3.objs, anc := w3.anc, destroyed := w3.destroyed)
    requires Gone(w, below + {o}, w3)
    ensures Removal(w, below + {o}, w3)
  {
    FinishQueues(w, o, w1, below, w2.queues);
  }

  lemma {:induction false} FinishOrder(objs: Objects, anc: Ancestry, o: ObjId, order: seq<ObjId>)
    requires Forest(objs, anc) && o in objs
    requires PostOrder(anc, order, Subtree(anc, o) - {o})
    ensures PostOrder(anc, order + [o], Subtree(anc, o))
  {
    var u := order + [o];
    forall i, j | 0 <= i < j < |u| && u[j] in anc ensures u[i] !in anc[u[j]] {
      if j == |order| {
        assert u[i] in order;
        if u[i] in anc[o] {
          AncestorTransitive(objs, anc, o, u[i], o);
          AncestorIsHigher(objs, anc, o, o);
        }
      }
    }
    assert forall i :: 0 <= i < |order| ==> order[i] in order;
  }

  /** The steps of ~Object on `o` remove exactly the subtree of `o`. */
  lemma {:induction false} FinishDestroy(w: World, o: ObjId, w1: World, w2: World, w3: World)
    requires Forest(w.objs, w.anc) && o in w.objs && Prepared(w, o, w1)
    requires Removal(w1, Subtree(w.anc, o) - {o}, w2)
    requires w3 == w2.(objs := Unlinked(w2.objs, o), anc := Without(w2.anc, {o}), destroyed := w2.destroyed + [o])
    ensures Removal(w, Subtree(w.anc, o), w3)
  {
    var below := Subtree(w.anc, o) - {o};
    assert below + {o} == Subtree(w.anc, o);
    FinishOrder(w.objs, w.anc, o, w2.destroyed[|w.destroyed|..]);
    FinishObjects(w.objs, o, below);
    FinishGone(w, o, w1, below, w2, w3);
    FinishRemoval(w, o, w1, below, w2, w3);
  }

  /** Both purges together sweep what Swept names. */
  lemma {:induction false} BothPurges(w: World, o: ObjId, l: LoopId, q: seq<Entry>)
    requires o in w.objs
    ensures Drop(Drop(q, if w.objs[o].loop == Some(l) then {o} else {}), if w.current == Some(l) then {o} else {}) ==
            Drop(q, Swept(w, {o}, l))
  {
    var a := if w.objs[o].loop == Some(l) then {o} else {};
    var b := if w.current == Some(l) then {o} else {};
    DropTwice(q, a, b);
    assert a + b == Swept(w, {o}, l);
  }
}
