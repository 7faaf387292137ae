/** move_to_loop: which objects move, and where their queued entries end up. */
module Migration {
  import opened KernelTypes
  import opened EventQueue
  import opened ObjectTree
  import opened KernelWorld

  // ---- the walk over the subtree ----

  /** `moved` is being extended breadth first: the first `n` have had their children listed. */
  ghost predicate Walk(objs: Objects, anc: Ancestry, o: ObjId, moved: seq<ObjId>, n: nat) {
    && n <= |moved| && 0 < |moved| && moved[0] == o
    && NoDup(moved)
    && (forall x :: x in moved ==> x in Subtree(anc, o))
    && (forall i :: 0 <= i < n && moved[i] in objs ==> forall c :: c in objs[moved[i]].children ==> c in moved)
    && (forall i :: 0 < i < |moved| && moved[i] in objs ==> ParentListed(objs, moved[i], moved[..n]))
  }

  ghost predicate ParentListed(objs: Objects, x: ObjId, done: seq<ObjId>)
    requires x in objs
  {
    objs[x].parent.Some? && objs[x].parent.value in done
  }

  /** The children of the next object are new. */
  lemma {:induction false} WalkMeetsNewChildren(objs: Objects, anc: Ancestry, o: ObjId, moved: seq<ObjId>, n: nat)
    requires Forest(objs, anc) && o in objs && Walk(objs, anc, o, moved, n) && n < |moved|
    ensures moved[n] in objs && NoDup(objs[moved[n]].children)
    ensures forall c :: c in objs[moved[n]].children ==> c in Subtree(anc, o) && c !in moved
  {
    var x := moved[n];
    assert x in moved && x in anc;
    assert ChildLinks(objs, x);
    forall c | c in objs[x].children ensures c in Subtree(anc, o) && c !in moved {
      SubtreeClosed(objs, anc, o, x, c);
      forall i | 0 <= i < |moved| ensures moved[i] != c {
        assert moved[i] in moved;
        if i > 0 {
          assert ParentListed(objs, moved[i], moved[..n]);
        } else if objs[o].parent.Some? {
          ParentNotBelow(objs, anc, o);
        }
      }
    }
  }

  lemma {:induction false} WalkStep(objs: Objects, anc: Ancestry, o: ObjId, moved: seq<ObjId>, n: nat)
    requires Forest(objs, anc) && o in objs && Walk(objs, anc, o, moved, n) && n < |moved|
    ensures moved[n] in objs && Walk(objs, anc, o, moved + objs[moved[n]].children, n + 1)
  {
    WalkMeetsNewChildren(objs, anc, o, moved, n);
    var x, cs := moved[n], objs[moved[n]].children;
    var more := moved + cs;
    assert ChildLinks(objs, x);
    assert more[..n + 1] == moved[..n] + [x];
    forall i, j | 0 <= i < j < |more| ensures more[i] != more[j] {
      if i < |moved| <= j {
        assert more[j] in cs && more[i] in moved;
      }
    }
    forall i | 0 < i < |more| && more[i] in objs ensures ParentListed(objs, more[i], more[..n + 1]) {
      if i < |moved| {
        assert ParentListed(objs, moved[i], moved[..n]);
      } else {
        assert more[i] == cs[i - |moved|] && more[i] in cs;
      }
    }
    forall i | 0 <= i < n + 1 && more[i] in objs ensures forall c :: c in objs[more[i]].children ==> c in more {
      if i == n {
        assert more[i] == x;
      }
    }
  }

  lemma {:induction false} ListedDownwards(objs: Objects, anc: Ancestry, o: ObjId, moved: seq<ObjId>, y: ObjId)
    requires Forest(objs, anc) && o in objs && Walk(objs, anc, o, moved, |moved|)
    requires y in Subtree(anc, o)
    ensures y in moved
    decreases |anc[y]|
  {
    if y != o {
      assert ParentLink(objs, anc, y);
      var p := anc[y][0];
      ListedDownwards(objs, anc, o, moved, p);
      var i :| 0 <= i < |moved| && moved[i] == p;
      assert y in objs[moved[i]].children;
    }
  }

  /** When nothing is pending, every object of the subtree is listed exactly once. */
  lemma {:induction false} WalkListsSubtree(objs: Objects, anc: Ancestry, o: ObjId, moved: seq<ObjId>)
    requires Forest(objs, anc) && o in objs && Walk(objs, anc, o, moved, |moved|)
    ensures forall y :: y in moved <==> y in Subtree(anc, o)
  {
    forall y | y in Subtree(anc, o) ensures y in moved {
      ListedDownwards(objs, anc, o, moved, y);
    }
  }

  /** `listed` carried on breadth first from position `n`, for at most `fuel` objects. */
  function Breadth(objs: Objects, listed: seq<ObjId>, n: nat, fuel: nat): (r: seq<ObjId>)
    ensures listed <= r
    decreases fuel
  {
    if fuel == 0 || n >= |listed| then listed
    else Breadth(objs, listed + (if listed[n] in objs then objs[listed[n]].children else []), n + 1, fuel - 1)
  }

  /** The subtree of `o` in the order in which move_to_loop lists it. */
  function BreadthFirst(objs: Objects, o: ObjId): seq<ObjId> {
    Breadth(objs, [o], 0, |objs|)
  }

  /** There are at most as many as there are objects. */
  lemma {:induction false} ListedFits(keys: set<ObjId>, s: seq<ObjId>)
    requires NoDup(s) && forall x :: x in s ==> x in keys
    ensures |s| <= |keys|
    decreases |s|
  {
    if s == [] {
    } else {
      assert s[0] in s && s[0] !in s[1..];
      ListedFits(keys - {s[0]}, s[1..]);
    }
  }

  lemma {:induction false} WalkFits(objs: Objects, anc: Ancestry, o: ObjId, moved: seq<ObjId>, n: nat)
    requires anc.Keys == objs.Keys && Walk(objs, anc, o, moved, n)
    ensures |moved| <= |objs|
  {
    ListedFits(objs.Keys, moved);
  }

  /** The listing goes on with the children of the next object, as long as there is one. */
  ghost predicate ListsTo(objs: Objects, listed: seq<ObjId>, n: nat, end: seq<ObjId>) {
    n <= |objs| && Breadth(objs, listed, n, |objs| - n) == end
  }

  lemma {:induction false} ListsOn(objs: Objects, listed: seq<ObjId>, n: nat, end: seq<ObjId>)
    requires n < |listed| <= |objs| && listed[n] in objs && ListsTo(objs, listed, n, end)
    ensures ListsTo(objs, listed + objs[listed[n]].children, n + 1, end)
  {
  }

  lemma {:induction false} BreadthWalks(objs: Objects, anc: Ancestry, o: ObjId, listed: seq<ObjId>, n: nat, fuel: nat)
    requires Forest(objs, anc) && o in objs && Walk(objs, anc, o, listed, n) && |objs| <= n + fuel
    ensures var r := Breadth(objs, listed, n, fuel); Walk(objs, anc, o, r, |r|)
    decreases fuel
  {
    WalkFits(objs, anc, o, listed, n);
    if n == |listed| {
    } else {
      WalkStep(objs, anc, o, listed, n);
      var more := listed + objs[listed[n]].children;
      assert Breadth(objs, listed, n, fuel) == Breadth(objs, more, n + 1, fuel - 1);
      BreadthWalks(objs, anc, o, more, n + 1, fuel - 1);
    }
  }

  /** It lists every subtree object once. */
  lemma {:induction false} BreadthFirstListsSubtree(objs: Objects, anc: Ancestry, o: ObjId)
    requires Forest(objs, anc) && o in objs
    ensures var moved := BreadthFirst(objs, o); NoDup(moved) && forall y :: y in moved <==> y in Subtree(anc, o)
  {
    BreadthWalks(objs, anc, o, [o], 0, |objs|);
    WalkListsSubtree(objs, anc, o, BreadthFirst(objs, o));
  }

  // ---- rebinding and the entries ----

  function Rebound(objs: Objects, moved: seq<ObjId>, target: Option<LoopId>): Objects {
    map y | y in objs :: if y in moved then objs[y].(loop := target) else objs[y]
  }

  /** The queues after one receiver's entries were moved; `objs` still has the old affinities. */
  function MoveOne(objs: Objects, queues: seq<seq<Entry>>, r: ObjId, target: Option<LoopId>): (qs: seq<seq<Entry>>)
    ensures |qs| == |queues|
  {
    if r !in objs || objs[r].loop == target || objs[r].loop.None? || objs[r].loop.value >= |queues| then queues
    else
      var l := objs[r].loop.value;
      var rest := queues[l := Drop(queues[l], {r})];
      if target.None? || target.value >= |queues| then rest
      else rest[target.value := rest[target.value] + Only(queues[l], r)]
  }

  function MoveAll(objs: Objects, queues: seq<seq<Entry>>, moved: seq<ObjId>, target: Option<LoopId>): (qs: seq<seq<Entry>>)
    ensures |qs| == |queues|
    decreases |moved|
  {
    if moved == [] then queues else MoveAll(objs, MoveOne(objs, queues, moved[0], target), moved[1..], target)
  }

  /** The receivers in `moved` that leave loop `l`. */
  ghost function Leaving(objs: Objects, moved: seq<ObjId>, l: LoopId, target: Option<LoopId>): set<ObjId> {
    set r | r in moved && r in objs && objs[r].loop == Some(l) && target != Some(l)
  }

  /** The entries that `r` takes to loop `target`: those waiting on its own old loop. */
  function Batch(objs: Objects, queues: seq<seq<Entry>>, r: ObjId, target: LoopId): seq<Entry> {
    if r in objs && objs[r].loop.Some? && objs[r].loop.value < |queues| && objs[r].loop.value != target
    then Only(queues[objs[r].loop.value], r) else []
  }

  /** What arrives at the target, in the order of `moved`. */
  function Arriving(objs: Objects, queues: seq<seq<Entry>>, moved: seq<ObjId>, target: LoopId): seq<Entry> {
    if moved == [] then [] else Batch(objs, queues, moved[0], target) + Arriving(objs, queues, moved[1..], target)
  }

  lemma {:induction false} BatchAfterMove(objs: Objects, queues: seq<seq<Entry>>, r: ObjId, x: ObjId, t: LoopId)
    requires t < |queues| && r != x
    ensures Batch(objs, MoveOne(objs, queues, r, Some(t)), x, t) == Batch(objs, queues, x, t)
  {
    if x in objs && objs[x].loop.Some? && objs[x].loop.value < |queues| && objs[x].loop.value != t {
      OnlyAfterDrop(queues[objs[x].loop.value], x, {r});
    }
  }

  lemma {:induction false} ArrivingAfterMove(objs: Objects, queues: seq<seq<Entry>>, r: ObjId, moved: seq<ObjId>, t: LoopId)
    requires t < |queues| && r !in moved
    ensures Arriving(objs, MoveOne(objs, queues, r, Some(t)), moved, t) == Arriving(objs, queues, moved, t)
  {
    if moved == [] {
    } else {
      ArrivingAfterMove(objs, queues, r, moved[1..], t);
      BatchAfterMove(objs, queues, r, moved[0], t);
    }
  }

  lemma {:induction false} MoveOneAtTarget(objs: Objects, queues: seq<seq<Entry>>, r: ObjId, t: LoopId)
    requires t < |queues|
    ensures MoveOne(objs, queues, r, Some(t))[t] == queues[t] + Batch(objs, queues, r, t)
  {
  }

  /** Away from the target only the leaving receivers' entries go; the rest keep their order. */
  lemma {:induction false} MoveAllElsewhere(objs: Objects, queues: seq<seq<Entry>>, moved: seq<ObjId>, target: Option<LoopId>, l: LoopId)
    requires l < |queues| && target != Some(l)
    ensures MoveAll(objs, queues, moved, target)[l] == Drop(queues[l], Leaving(objs, moved, l, target))
    decreases |moved|
  {
    if moved == [] {
      DropNone(queues[l], {});
      assert Leaving(objs, moved, l, target) == {};
    } else {
      var r := moved[0];
      var qs := MoveOne(objs, queues, r, target);
      MoveAllElsewhere(objs, qs, moved[1..], target, l);
      var first := if r in objs && objs[r].loop == Some(l) then {r} else {};
      if first == {} {
        DropNone(queues[l], {});
      }
      assert qs[l] == Drop(queues[l], first);
      DropTwice(queues[l], first, Leaving(objs, moved[1..], l, target));
      assert first + Leaving(objs, moved[1..], l, target) == Leaving(objs, moved, l, target);
    }
  }

  /** At the target the arriving entries are appended behind everything queued there. */
  lemma {:induction false} MoveAllAtTarget(objs: Objects, queues: seq<seq<Entry>>, moved: seq<ObjId>, t: LoopId)
    requires t < |queues| && NoDup(moved)
    ensures MoveAll(objs, queues, moved, Some(t))[t] == queues[t] + Arriving(objs, queues, moved, t)
    decreases |moved|
  {
    if moved == [] {
    } else {
      var r := moved[0];
      var qs := MoveOne(objs, queues, r, Some(t));
      assert r !in moved[1..];
      MoveAllAtTarget(objs, qs, moved[1..], t);
      ArrivingAfterMove(objs, queues, r, moved[1..], t);
      MoveOneAtTarget(objs, queues, r, t);
      Associate(queues[t], Batch(objs, queues, r, t), Arriving(objs, queues, moved[1..], t));
    }
  }

  /** The events deleted because their receiver was detached from every loop. */
  function Dropped(objs: Objects, queues: seq<seq<Entry>>, r: ObjId, target: Option<LoopId>): multiset<EventId> {
    if target.None? && r in objs && objs[r].loop.Some? && objs[r].loop.value < |queues|
    then Events(Only(queues[objs[r].loop.value], r)) else multiset{}
  }

  lemma {:induction false} MoveOneCount(objs: Objects, queues: seq<seq<Entry>>, r: ObjId, target: Option<LoopId>, e: EventId)
    requires target.Some? ==> target.value < |queues|
    ensures Queued(MoveOne(objs, queues, r, target))[e] + Dropped(objs, queues, r, target)[e] == Queued(queues)[e]
  {
    if r in objs && objs[r].loop != target && objs[r].loop.Some? && objs[r].loop.value < |queues| {
      var l := objs[r].loop.value;
      var rest := queues[l := Drop(queues[l], {r})];
      EventsSplit(queues[l], r);
      QueuedUpdateCount(queues, l, Drop(queues[l], {r}), e);
      assert Events(queues[l])[e] == Events(Drop(queues[l], {r}))[e] + Events(Only(queues[l], r))[e];
      if target.Some? {
        var t := target.value;
        EventsConcat(rest[t], Only(queues[l], r));
        QueuedUpdateCount(rest, t, rest[t] + Only(queues[l], r), e);
        assert Events(rest[t] + Only(queues[l], r))[e] == Events(rest[t])[e] + Events(Only(queues[l], r))[e];
      }
    }
  }

  /** Moving a receiver's entries neither loses nor duplicates an event. */
  lemma {:induction false} MoveOneHeld(objs: Objects, queues: seq<seq<Entry>>, r: ObjId, target: Option<LoopId>)
    requires target.Some? ==> target.value < |queues|
    ensures Queued(MoveOne(objs, queues, r, target)) + Dropped(objs, queues, r, target) == Queued(queues)
  {
    forall e: EventId
      ensures (Queued(MoveOne(objs, queues, r, target)) + Dropped(objs, queues, r, target))[e] == Queued(queues)[e]
    {
      MoveOneCount(objs, queues, r, target, e);
    }
  }

  /** `w'` is `w` after `moved` migrated to `target`. */
  ghost predicate Migrated(w: World, moved: seq<ObjId>, target: Option<LoopId>, w': World) {
    && w' == w.(objs := Rebound(w.objs, moved, target), queues := MoveAll(w.objs, w.queues, moved, target), freed := w'.freed)
    && Held(w') == Held(w)
  }

  lemma {:induction false} MigratedWhole(w: World, moved: seq<ObjId>, target: Option<LoopId>, freed: multiset<EventId>)
    requires Queued(MoveAll(w.objs, w.queues, moved, target)) + freed == Queued(w.queues) + w.freed
    ensures Migrated(w, moved, target, w.(objs := Rebound(w.objs, moved, target), queues := MoveAll(w.objs, w.queues, moved, target), freed := freed))
  {
  }

  lemma {:induction false} MoveKeepsForest(objs: Objects, anc: Ancestry, moved: seq<ObjId>, target: Option<LoopId>)
    requires Forest(objs, anc) && Mirrored(objs)
    ensures Forest(Rebound(objs, moved, target), anc) && Mirrored(Rebound(objs, moved, target))
  {
    FiltersKeepForest(objs, Rebound(objs, moved, target), anc);
    LinksKeepMirror(objs, Rebound(objs, moved, target));
  }

  lemma {:induction false} ArrivingMembers(objs: Objects, queues: seq<seq<Entry>>, moved: seq<ObjId>, t: LoopId, e: Entry)
    requires e in Arriving(objs, queues, moved, t)
    ensures e.receiver in moved
  {
    if e !in Arriving(objs, queues, moved[1..], t) {
      assert e.receiver == moved[0];
    } else {
      ArrivingMembers(objs, queues, moved[1..], t, e);
    }
  }

  /** Migration re-establishes "every entry sits on its receiver's affinity loop". */
  lemma {:induction false} MoveKeepsRouting(w: World, moved: seq<ObjId>, target: Option<LoopId>, w': World)
    requires Routed(w) && NoDup(moved) && Migrated(w, moved, target, w')
    requires target.Some? ==> target.value < |w.queues|
    requires forall r :: r in moved ==> r in w.objs
    ensures Routed(w')
  {
    forall l, e | 0 <= l < |w'.queues| && e in w'.queues[l]
      ensures e.receiver in w'.objs && w'.objs[e.receiver].loop == Some(l)
    {
      if target == Some(l) {
        MoveAllAtTarget(w.objs, w.queues, moved, l);
        if e !in w.queues[l] {
          ArrivingMembers(w.objs, w.queues, moved, l, e);
        }
      } else {
        MoveAllElsewhere(w.objs, w.queues, moved, target, l);
        assert e in w.queues[l] && e.receiver !in Leaving(w.objs, moved, l, target);
      }
    }
  }

  lemma {:induction false} OnlyArriving(objs: Objects, queues: seq<seq<Entry>>, moved: seq<ObjId>, t: LoopId, r: ObjId)
    requires NoDup(moved)
    ensures Only(Arriving(objs, queues, moved, t), r) == if r in moved then Batch(objs, queues, r, t) else []
  {
    if moved == [] {
    } else {
      var x := moved[0];
      var batch := Batch(objs, queues, x, t);
      OnlyArriving(objs, queues, moved[1..], t, r);
      OnlyConcat(batch, Arriving(objs, queues, moved[1..], t), r);
      assert x !in moved[1..];
      if x == r {
        OnlyAll(batch, r);
      } else {
        OnlyNone(batch, r);
      }
    }
  }

  /** Each receiver's entries keep their relative order: a moved receiver finds on the target exactly
      what waited for it on its own old loop, or loses it all when there is no target; anybody else
      finds what was there before. */
  lemma {:induction false} MoveKeepsOrder(w: World, moved: seq<ObjId>, target: Option<LoopId>, w': World, r: ObjId)
    requires Routed(w) && NoDup(moved) && Migrated(w, moved, target, w') && (target.Some? ==> target.value < |w.queues|)
    requires r in w.objs && w.objs[r].loop.Some? && w.objs[r].loop.value < |w.queues|
    ensures r in moved && target.Some? ==> Only(w'.queues[target.value], r) == Only(w.queues[w.objs[r].loop.value], r)
    ensures r in moved && target.None? ==> forall l :: 0 <= l < |w.queues| ==> Only(w'.queues[l], r) == []
    ensures r !in moved ==> forall l :: 0 <= l < |w.queues| ==> Only(w'.queues[l], r) == Only(w.queues[l], r)
  {
    if target.Some? {
      OrderAtTarget(w, moved, target.value, w', r);
    }
    forall l | 0 <= l < |w.queues| && target != Some(l)
      ensures r !in moved ==> Only(w'.queues[l], r) == Only(w.queues[l], r)
      ensures r in moved ==> Only(w'.queues[l], r) == []
    {
      OrderElsewhere(w, moved, target, w', r, l);
    }
  }

  lemma {:induction false} OrderAtTarget(w: World, moved: seq<ObjId>, t: LoopId, w': World, r: ObjId)
    requires Routed(w) && NoDup(moved) && Migrated(w, moved, Some(t), w') && t < |w.queues|
    requires r in w.objs && w.objs[r].loop.Some? && w.objs[r].loop.value < |w.queues|
    ensures Only(w'.queues[t], r) == Only(w.queues[if r in moved then w.objs[r].loop.value else t], r)
  {
    MoveAllAtTarget(w.objs, w.queues, moved, t);
    OnlyConcat(w.queues[t], Arriving(w.objs, w.queues, moved, t), r);
    OnlyArriving(w.objs, w.queues, moved, t, r);
    if r in moved && w.objs[r].loop != Some(t) {
      OnlyNone(w.queues[t], r);
    }
  }

  lemma {:induction false} OrderElsewhere(w: World, moved: seq<ObjId>, target: Option<LoopId>, w': World, r: ObjId, l: LoopId)
    requires Routed(w) && Migrated(w, moved, target, w') && l < |w.queues| && target != Some(l) && r in w.objs
    ensures Only(w'.queues[l], r) == if r in moved then [] else Only(w.queues[l], r)
  {
    MoveAllElsewhere(w.objs, w.queues, moved, target, l);
    if r in moved {
      OnlyNone(w'.queues[l], r);
    } else {
      OnlyAfterDrop(w.queues[l], r, Leaving(w.objs, moved, l, target));
    }
  }
}
