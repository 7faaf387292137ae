/** The kernel state and its structural invariants: the object forest and the mirrored filter
    registries, with the effect of set_parent and of the filter calls on them. */
module ObjectTree {
  import opened KernelTypes

  /** The fields of ObjectPrivate that the kernel keeps consistent. */
  datatype Obj = Obj(
    parent: Option<ObjId>,
    children: seq<ObjId>,
    filters: seq<ObjId>,
    watching: seq<ObjId>,
    loop: Option<LoopId>)

  type Objects = map<ObjId, Obj>

  /** For every object its ancestors, nearest first. */
  type Ancestry = map<ObjId, seq<ObjId>>

  /** The parent links form a forest whose ancestor lists are `anc`, and the child lists are the
      exact duplicate-free inverse of the parent links. */
  ghost predicate Forest(objs: Objects, anc: Ancestry) {
    && anc.Keys == objs.Keys
    && (forall o {:trigger ParentLink(objs, anc, o)} :: o in objs ==> ParentLink(objs, anc, o))
    && (forall o {:trigger ChildLinks(objs, o)} :: o in objs ==> ChildLinks(objs, o))
  }

  ghost predicate ParentLink(objs: Objects, anc: Ancestry, o: ObjId)
    requires anc.Keys == objs.Keys && o in objs
  {
    match objs[o].parent
    case None => anc[o] == []
    case Some(p) => p in objs && o in objs[p].children && anc[o] == [p] + anc[p]
  }

  ghost predicate ChildLinks(objs: Objects, o: ObjId)
    requires o in objs
  {
    && NoDup(objs[o].children)
    && forall c :: c in objs[o].children ==> c in objs && objs[c].parent == Some(o)
  }

  /** `f` is on `o`'s filter list exactly when `o` is on `f`'s reverse registry; no object filters itself. */
  ghost predicate Mirrored(objs: Objects) {
    forall o {:trigger FilterLinks(objs, o)} :: o in objs ==> FilterLinks(objs, o)
  }

  ghost predicate FilterLinks(objs: Objects, o: ObjId)
    requires o in objs
  {
    && NoDup(objs[o].filters) && NoDup(objs[o].watching)
    && (forall f :: f in objs[o].filters ==> f in objs && f != o && o in objs[f].watching)
    && (forall f :: f in objs[o].watching ==> f in objs && f != o && o in objs[f].filters)
  }

  /** `o` and everything below it. */
  ghost function Subtree(anc: Ancestry, o: ObjId): set<ObjId> {
    set y | y in anc && (y == o || o in anc[y])
  }

  /** The object `n` levels up. */
  ghost function Up(objs: Objects, o: ObjId, n: nat): Option<ObjId>
    decreases n
  {
    if o !in objs then None
    else if n == 0 then Some(o)
    else match objs[o].parent case None => None case Some(p) => Up(objs, p, n - 1)
  }

  lemma {:induction false} AncestorIsHigher(objs: Objects, anc: Ancestry, a: ObjId, y: ObjId)
    requires Forest(objs, anc) && y in objs && a in anc[y]
    ensures a in objs && |anc[a]| < |anc[y]|
    decreases |anc[y]|
  {
    assert ParentLink(objs, anc, y);
    var p := anc[y][0];
    if a != p {
      AncestorIsHigher(objs, anc, a, p);
    }
  }

  lemma {:induction false} AncestorTransitive(objs: Objects, anc: Ancestry, a: ObjId, b: ObjId, y: ObjId)
    requires Forest(objs, anc) && y in objs && b in anc[y] && b in objs && a in anc[b]
    ensures a in anc[y]
    decreases |anc[y]|
  {
    assert ParentLink(objs, anc, y);
    var p := anc[y][0];
    if b != p {
      AncestorTransitive(objs, anc, a, b, p);
    }
  }

  lemma {:induction false} UpIsAncestor(objs: Objects, anc: Ancestry, o: ObjId, n: nat)
    requires Forest(objs, anc) && o in objs
    ensures Up(objs, o, n) == if n == 0 then Some(o) else if n <= |anc[o]| then Some(anc[o][n - 1]) else None
    decreases n
  {
    assert ParentLink(objs, anc, o);
    if n > 0 && objs[o].parent.Some? {
      UpIsAncestor(objs, anc, objs[o].parent.value, n - 1);
    }
  }

  /** No object is its own ancestor, however far up one walks. */
  lemma {:induction false} Acyclic(objs: Objects, anc: Ancestry, o: ObjId, n: nat)
    requires Forest(objs, anc) && o in objs && n > 0
    ensures Up(objs, o, n) != Some(o)
  {
    UpIsAncestor(objs, anc, o, n);
    if n <= |anc[o]| && anc[o][n - 1] == o {
      AncestorIsHigher(objs, anc, o, o);
    }
  }

  /** The subtree is what reaches `o` by walking up. */
  lemma {:induction false} SubtreeReachesRoot(objs: Objects, anc: Ancestry, o: ObjId, y: ObjId)
    requires Forest(objs, anc) && o in objs && y in objs
    ensures y in Subtree(anc, o) <==> exists n :: Up(objs, y, n) == Some(o)
  {
    if y in Subtree(anc, o) {
      if y == o {
        assert Up(objs, y, 0) == Some(o);
      } else {
        var i :| 0 <= i < |anc[y]| && anc[y][i] == o;
        UpIsAncestor(objs, anc, y, i + 1);
      }
    }
    if n :| Up(objs, y, n) == Some(o) {
      UpIsAncestor(objs, anc, y, n);
    }
  }

  lemma {:induction false} SubtreeClosed(objs: Objects, anc: Ancestry, o: ObjId, p: ObjId, c: ObjId)
    requires Forest(objs, anc) && p in objs && c in objs && objs[c].parent == Some(p)
    ensures p in Subtree(anc, o) ==> c in Subtree(anc, o)
    ensures c in Subtree(anc, o) && c != o ==> p in Subtree(anc, o)
  {
    assert ParentLink(objs, anc, c);
  }

  // ---- set_parent ----

  /** One object after set_parent(o, p) when `o` hung below `q` before. */
  function Relinked(x: Obj, y: ObjId, o: ObjId, q: Option<ObjId>, p: Option<ObjId>): Obj {
    var kept := if q == Some(y) then Minus(x.children, {o}) else x.children;
    x.(parent := if y == o then p else x.parent,
       children := if p == Some(y) then kept + [o] else kept)
  }

  /** The links after set_parent(o, p). */
  function Reparented(objs: Objects, o: ObjId, p: Option<ObjId>): Objects
    requires o in objs
  {
    if objs[o].parent == p then objs
    else map y | y in objs :: Relinked(objs[y], y, o, objs[o].parent, p)
  }

  /** Off the old list, onto the new one, field by field. */
  lemma {:induction false} RelinkByUpdates(objs: Objects, o: ObjId, p: Option<ObjId>)
    requires o in objs && objs[o].parent != p && (p.Some? ==> p.value in objs && p.value != o)
    requires objs[o].parent.Some? ==> objs[o].parent.value in objs
    ensures var q := objs[o].parent;
      var off := if q.Some? then objs[q.value := objs[q.value].(children := Minus(objs[q.value].children, {o}))] else objs;
      var free := off[o := off[o].(parent := None)];
      (if p.Some? then var hung := free[o := free[o].(parent := p)];
         hung[p.value := hung[p.value].(children := hung[p.value].children + [o])] else free) == Reparented(objs, o, p)
  {
    var q := objs[o].parent;
    var off := if q.Some? then objs[q.value := objs[q.value].(children := Minus(objs[q.value].children, {o}))] else objs;
    var free := off[o := off[o].(parent := None)];
    var done := if p.Some? then var hung := free[o := free[o].(parent := p)];
      hung[p.value := hung[p.value].(children := hung[p.value].children + [o])] else free;
    var all := Reparented(objs, o, p);
    assert done.Keys == all.Keys;
    forall y | y in all ensures done[y] == all[y] {
    }
  }

  /** The ancestor lists when the subtree of `o` is hung below `p`. */
  ghost function Rehung(anc: Ancestry, o: ObjId, p: Option<ObjId>): Ancestry {
    var top := if p.Some? && p.value in anc then [p.value] + anc[p.value] else [];
    map y | y in anc ::
      if y in Subtree(anc, o) && o in anc && |anc[o]| <= |anc[y]| then anc[y][..|anc[y]| - |anc[o]|] + top else anc[y]
  }

  /** The ancestor lists after set_parent(o, p). */
  ghost function AncestorsAfter(objs: Objects, anc: Ancestry, o: ObjId, p: Option<ObjId>): Ancestry {
    if o in objs && objs[o].parent == p then anc else Rehung(anc, o, p)
  }

  lemma {:induction false} SubtreeIsLower(objs: Objects, anc: Ancestry, o: ObjId)
    requires Forest(objs, anc) && o in objs
    ensures forall y :: y in Subtree(anc, o) ==> |anc[o]| <= |anc[y]|
  {
    forall y | y in Subtree(anc, o) ensures |anc[o]| <= |anc[y]| {
      if y != o {
        AncestorIsHigher(objs, anc, o, y);
      }
    }
  }

  /** Below the moved object only the tail of the ancestor list changes. */
  lemma {:induction false} RehungChild(anc: Ancestry, o: ObjId, p: Option<ObjId>, y: ObjId, z: ObjId)
    requires o in anc && y in anc && z in anc && y != o && anc[y] == [z] + anc[z]
    requires p.Some? ==> p.value in anc
    requires forall x :: x in Subtree(anc, o) ==> |anc[o]| <= |anc[x]|
    ensures Rehung(anc, o, p)[y] == [z] + Rehung(anc, o, p)[z]
  {
    assert y in Subtree(anc, o) <==> z in Subtree(anc, o);
    if z in Subtree(anc, o) {
      PrefixCons(anc[y], z, anc[z], |anc[z]| - |anc[o]|);
      var top := if p.Some? && p.value in anc then [p.value] + anc[p.value] else [];
      Associate([z], anc[z][..|anc[z]| - |anc[o]|], top);
    }
  }

  lemma {:induction false} PrefixCons(s: seq<ObjId>, z: ObjId, t: seq<ObjId>, n: nat)
    requires s == [z] + t && n <= |t|
    ensures s[..n + 1] == [z] + t[..n]
  {
  }

  lemma {:induction false} ReparentLink(objs: Objects, anc: Ancestry, o: ObjId, p: Option<ObjId>, y: ObjId)
    requires Forest(objs, anc) && o in objs && y in objs
    requires p.Some? ==> p.value in objs && p.value !in Subtree(anc, o)
    requires objs[o].parent != p
    requires forall y :: y in Subtree(anc, o) ==> |anc[o]| <= |anc[y]|
    ensures ParentLink(Reparented(objs, o, p), Rehung(anc, o, p), y)
  {
    assert ParentLink(objs, anc, y);
    var objs' := Reparented(objs, o, p);
    if y == o {
      if p.Some? {
        assert objs'[p.value].children[|objs'[p.value].children| - 1] == o;
      }
    } else if objs[y].parent.Some? {
      var z := objs[y].parent.value;
      RehungChild(anc, o, p, y, z);
      assert y in objs'[z].children;
    } else {
      assert y !in Subtree(anc, o);
    }
  }

  lemma {:induction false} ReparentChildren(objs: Objects, anc: Ancestry, o: ObjId, p: Option<ObjId>, q: ObjId)
    requires Forest(objs, anc) && o in objs && q in objs && objs[o].parent != p
    ensures ChildLinks(Reparented(objs, o, p), q)
  {
    assert ChildLinks(objs, q);
    MinusNoDup(objs[q].children, {o});
    assert p == Some(q) ==> o !in objs[q].children;
  }

  /** Every accepted set_parent keeps the forest: acyclic, child lists the exact inverse. */
  lemma {:induction false} ReparentKeepsForest(objs: Objects, anc: Ancestry, o: ObjId, p: Option<ObjId>)
    requires Forest(objs, anc) && o in objs
    requires p.Some? ==> p.value in objs && p.value !in Subtree(anc, o)
    ensures Forest(Reparented(objs, o, p), AncestorsAfter(objs, anc, o, p))
  {
    if objs[o].parent != p {
      SubtreeIsLower(objs, anc, o);
      var anc' := Rehung(anc, o, p);
      var objs' := Reparented(objs, o, p);
      forall y | y in objs' ensures ParentLink(objs', anc', y) && ChildLinks(objs', y) {
        ReparentLink(objs, anc, o, p, y);
        ReparentChildren(objs, anc, o, p, y);
      }
    }
  }

  lemma {:induction false} ParentNotBelow(objs: Objects, anc: Ancestry, o: ObjId)
    requires Forest(objs, anc) && o in objs && objs[o].parent.Some?
    ensures objs[o].parent.value !in Subtree(anc, o)
  {
    assert ParentLink(objs, anc, o);
    var p := objs[o].parent.value;
    if o in anc[p] {
      AncestorIsHigher(objs, anc, o, p);
    }
  }

  /** Links may change as they like: the filter registries stay mirrored. */
  lemma {:induction false} LinksKeepMirror(objs: Objects, objs': Objects)
    requires Mirrored(objs) && objs'.Keys == objs.Keys
    requires forall y :: y in objs ==> objs'[y].filters == objs[y].filters && objs'[y].watching == objs[y].watching
    ensures Mirrored(objs')
  {
    forall y | y in objs' ensures FilterLinks(objs', y) {
      assert FilterLinks(objs, y);
    }
  }

  /** Filters may change as they like: the forest stays. */
  lemma {:induction false} FiltersKeepForest(objs: Objects, objs': Objects, anc: Ancestry)
    requires Forest(objs, anc) && objs'.Keys == objs.Keys
    requires forall y :: y in objs ==> objs'[y].parent == objs[y].parent && objs'[y].children == objs[y].children
    ensures Forest(objs', anc)
  {
    forall y | y in objs' ensures ParentLink(objs', anc, y) && ChildLinks(objs', y) {
      assert ParentLink(objs, anc, y) && ChildLinks(objs, y);
    }
  }

  // ---- event filters ----

  /** One object after o.remove_event_filter(f). */
  function Unpaired(x: Obj, y: ObjId, o: ObjId, f: ObjId): Obj {
    x.(filters := if y == o then Minus(x.filters, {f}) else x.filters,
       watching := if y == f then Minus(x.watching, {o}) else x.watching)
  }

  /** The registries after o.remove_event_filter(f): both sides forget the pair. */
  function Unfiltered(objs: Objects, o: ObjId, f: ObjId): Objects {
    map y | y in objs :: Unpaired(objs[y], y, o, f)
  }

  /** One object after the pair is appended on both sides. */
  function Paired(x: Obj, y: ObjId, o: ObjId, f: ObjId): Obj {
    x.(filters := if y == o then x.filters + [f] else x.filters,
       watching := if y == f then x.watching + [o] else x.watching)
  }

  /** The registries after o.install_event_filter(f): the pair is listed last, that is newest. */
  function Filtered(objs: Objects, o: ObjId, f: ObjId): Objects {
    map y | y in objs :: Paired(Unpaired(objs[y], y, o, f), y, o, f)
  }

  /** Appending on both sides, one after the other. */
  lemma {:induction false} PairByUpdates(objs: Objects, o: ObjId, f: ObjId)
    requires o in objs && f in objs && o != f
    ensures var un := Unfiltered(objs, o, f);
      un[o := un[o].(filters := un[o].filters + [f])][f := un[f].(watching := un[f].watching + [o])] == Filtered(objs, o, f)
  {
    var un, all := Unfiltered(objs, o, f), Filtered(objs, o, f);
    var done := un[o := un[o].(filters := un[o].filters + [f])][f := un[f].(watching := un[f].watching + [o])];
    assert done.Keys == all.Keys;
    forall y | y in all ensures done[y] == all[y] {
    }
  }

  lemma {:induction false} UnfilterKeepsMirror(objs: Objects, o: ObjId, f: ObjId)
    requires Mirrored(objs)
    ensures Mirrored(Unfiltered(objs, o, f))
  {
    var objs' := Unfiltered(objs, o, f);
    forall y | y in objs' ensures FilterLinks(objs', y) {
      assert FilterLinks(objs, y);
      MinusNoDup(objs[y].filters, {f});
      MinusNoDup(objs[y].watching, {o});
    }
  }

  lemma {:induction false} PairKeepsMirror(objs: Objects, o: ObjId, f: ObjId)
    requires Mirrored(objs) && o in objs && f in objs && o != f
    requires f !in objs[o].filters && o !in objs[f].watching
    ensures Mirrored(map y | y in objs :: Paired(objs[y], y, o, f))
  {
    var objs' := map y | y in objs :: Paired(objs[y], y, o, f);
    forall y | y in objs' ensures FilterLinks(objs', y) {
      assert FilterLinks(objs, y);
      forall g | g in objs'[y].filters ensures g in objs' && g != y && y in objs'[g].watching {
        assert g in objs[y].filters || (y == o && g == f);
      }
      forall g | g in objs'[y].watching ensures g in objs' && g != y && y in objs'[g].filters {
        assert g in objs[y].watching || (y == f && g == o);
      }
    }
  }

  lemma {:induction false} FilterKeepsMirror(objs: Objects, o: ObjId, f: ObjId)
    requires Mirrored(objs) && o in objs && f in objs && o != f
    ensures Mirrored(Filtered(objs, o, f))
  {
    var objs1 := Unfiltered(objs, o, f);
    UnfilterKeepsMirror(objs, o, f);
    PairKeepsMirror(objs1, o, f);
    assert Filtered(objs, o, f) == map y | y in objs1 :: Paired(objs1[y], y, o, f);
  }
}
