/** What draining a loop does to the objects marked by delete_later, with the filters as they stand when
    each entry is dispatched. */
module DeferredDeletion {
  import opened KernelTypes
  import opened EventQueue
  import opened ObjectTree
  import opened KernelWorld
  import opened Destruction

  /** What a filter answers when it is asked about an entry: true intercepts. */
  type Answers = (ObjId, Entry) -> bool

  function NewestFirst(filters: seq<ObjId>): seq<ObjId> {
    seq(|filters|, i requires 0 <= i < |filters| => filters[|filters| - 1 - i])
  }

  /** The application object, as long as it lives. */
  function LiveApp(objs: Objects, app: Option<ObjId>): Option<ObjId> {
    if app.Some? && app.value in objs then app else None
  }

  /** Who is asked about an event for `receiver`, in order. */
  function FilterChain(objs: Objects, app: Option<ObjId>, receiver: ObjId): seq<ObjId>
    requires receiver in objs
  {
    (if LiveApp(objs, app).Some? then NewestFirst(objs[app.value].filters) else []) + NewestFirst(objs[receiver].filters)
  }

  /** No filter on the way to the receiver intercepts. */
  ghost predicate Passes(objs: Objects, app: Option<ObjId>, e: Entry, answers: Answers)
    requires e.receiver in objs
  {
    forall f :: f in FilterChain(objs, app, e.receiver) ==> !answers(f, e)
  }

  /** What dispatching `e` destroys: the subtree of the receiver of a deferred delete that passes. */
  ghost function Takes(objs: Objects, anc: Ancestry, app: Option<ObjId>, e: Entry, answers: Answers): set<ObjId> {
    if e.kind.DeferredDelete? && e.receiver in objs && Passes(objs, app, e, answers) then Subtree(anc, e.receiver) else {}
  }

  /** What draining `q` destroys. The dead leave the filter chains, so later entries may pass that would
      have been intercepted before. */
  ghost function Doomed(objs: Objects, anc: Ancestry, app: Option<ObjId>, q: seq<Entry>, answers: Answers): set<ObjId>
    decreases |q|
  {
    if q == [] then {}
    else
      var dead := Takes(objs, anc, app, q[0], answers);
      dead + Doomed(Survivors(objs, dead), Without(anc, dead), app, Drop(q[1..], dead), answers)
  }

  /** The objects that have a deferred delete in `q` for themselves or for an ancestor. */
  ghost function Marked(anc: Ancestry, q: seq<Entry>): set<ObjId> {
    set y | y in anc && MarkedBy(anc, q, y)
  }

  ghost predicate MarkedBy(anc: Ancestry, q: seq<Entry>, y: ObjId) {
    exists e :: e in q && e.kind.DeferredDelete? && y in Subtree(anc, e.receiver)
  }

  lemma {:induction false} TakesIsClosed(objs: Objects, anc: Ancestry, app: Option<ObjId>, e: Entry, answers: Answers)
    requires Forest(objs, anc)
    ensures Closed(anc, Takes(objs, anc, app, e, answers)) && Takes(objs, anc, app, e, answers) <= objs.Keys
  {
    SubtreeIsClosed(objs, anc, e.receiver);
  }

  /** Dispatching the front entry leaves marked what is marked by the rest. */
  lemma {:induction false} MarkStep(anc: Ancestry, q: seq<Entry>, dead: set<ObjId>)
    requires q != [] && Closed(anc, dead) && dead == if q[0].kind.DeferredDelete? then Subtree(anc, q[0].receiver) else {}
    ensures Marked(anc, q) == dead + Marked(Without(anc, dead), Drop(q[1..], dead))
  {
    var anc', q' := Without(anc, dead), Drop(q[1..], dead);
    forall y | y in Marked(anc, q) && y !in dead ensures y in Marked(anc', q') {
      var e :| e in q && e.kind.DeferredDelete? && y in Subtree(anc, e.receiver);
      assert e != q[0] && e in q[1..];
      assert e.receiver !in dead;
      assert e in q' && y in Subtree(anc', e.receiver);
    }
    forall y | y in dead + Marked(anc', q') ensures y in Marked(anc, q) {
      if y in dead {
        assert q[0] in q;
      } else {
        var e :| e in q' && e.kind.DeferredDelete? && y in Subtree(anc', e.receiver);
        assert e in q && y in Subtree(anc, e.receiver);
      }
    }
  }

  /** If no filter intercepts deferred deletes, the drain destroys exactly the marked objects. */
  lemma {:induction false} DoomedIsMarked(objs: Objects, anc: Ancestry, app: Option<ObjId>, q: seq<Entry>, answers: Answers)
    requires Forest(objs, anc) && (forall e :: e in q ==> e.receiver in objs)
    requires forall f, e :: e in q && e.kind.DeferredDelete? ==> !answers(f, e)
    ensures Doomed(objs, anc, app, q, answers) == Marked(anc, q)
    decreases |q|
  {
    if q == [] {
      assert Marked(anc, q) == {};
    } else {
      assert q[0] in q;
      var dead := Takes(objs, anc, app, q[0], answers);
      TakesIsClosed(objs, anc, app, q[0], answers);
      SurvivorsKeepForest(objs, anc, dead);
      var q' := Drop(q[1..], dead);
      assert forall e :: e in q' ==> e in q;
      DoomedIsMarked(Survivors(objs, dead), Without(anc, dead), app, q', answers);
      MarkStep(anc, q, dead);
    }
  }

  /** Whatever the filters answer, the drain destroys marked objects only. */
  lemma {:induction false} DoomedAreMarked(objs: Objects, anc: Ancestry, app: Option<ObjId>, q: seq<Entry>, answers: Answers)
    requires Forest(objs, anc)
    ensures Doomed(objs, anc, app, q, answers) <= Marked(anc, q)
    decreases |q|
  {
    if q == [] {
    } else {
      var dead := Takes(objs, anc, app, q[0], answers);
      TakesIsClosed(objs, anc, app, q[0], answers);
      SurvivorsKeepForest(objs, anc, dead);
      var anc', q' := Without(anc, dead), Drop(q[1..], dead);
      DoomedAreMarked(Survivors(objs, dead), anc', app, q', answers);
      forall y | y in dead + Marked(anc', q') ensures y in Marked(anc, q) {
        if y in dead {
          assert q[0] in q;
        } else {
          var e :| e in q' && e.kind.DeferredDelete? && y in Subtree(anc', e.receiver);
          assert e in q && y in Subtree(anc, e.receiver);
        }
      }
    }
  }

  /** On routed queues the purge removes every entry of the dead. */
  lemma {:induction false} SweptQueues(w: World, dead: set<ObjId>, queues: seq<seq<Entry>>)
    requires Routed(w) && QueuesSwept(w, dead, queues)
    ensures QueuesDropped(w.queues, dead, queues)
  {
    forall l | 0 <= l < |w.queues| ensures queues[l] == Drop(w.queues[l], dead) {
      SameDrop(w.queues[l], Swept(w, dead, l), dead);
    }
  }

  lemma {:induction false} SameDrop(q: seq<Entry>, a: set<ObjId>, b: set<ObjId>)
    requires forall e :: e in q ==> (e.receiver in a <==> e.receiver in b)
    ensures Drop(q, a) == Drop(q, b)
  {
    if q == [] {
    } else {
      assert q[0] in q;
      SameDrop(q[1..], a, b);
    }
  }

  /** `w2` is `w1` after its front entry of loop `l` was dispatched. */
  ghost predicate Dispatched(w1: World, l: LoopId, app: Option<ObjId>, answers: Answers, w2: World)
    requires l < |w1.queues| && w1.queues[l] != []
  {
    var dead := Takes(w1.objs, w1.anc, app, w1.queues[l][0], answers);
    Gone(w1, dead, w2) && QueuesDropped(w1.queues[l := w1.queues[l][1..]], dead, w2.queues)
  }

  /** Every queue has lost the entries of the dead and nothing else. */
  ghost predicate QueuesDropped(queues: seq<seq<Entry>>, dead: set<ObjId>, queues': seq<seq<Entry>>) {
    |queues'| == |queues| && forall k :: 0 <= k < |queues| ==> queues'[k] == Drop(queues[k], dead)
  }

  /** One dispatched entry more: the dead so far and the doom still queued keep their sum. */
  lemma {:induction false} DrainExtend(w: World, dead: set<ObjId>, w1: World, l: LoopId, app: Option<ObjId>, answers: Answers, w2: World)
    requires Forest(w1.objs, w1.anc) && w.anc.Keys == w.objs.Keys && l < |w1.queues| && w1.queues[l] != []
    requires Gone(w, dead, w1) && Closed(w.anc, dead) && Dispatched(w1, l, app, answers, w2)
    ensures var more := Takes(w1.objs, w1.anc, app, w1.queues[l][0], answers);
      && Gone(w, dead + more, w2) && Closed(w.anc, dead + more)
      && dead + Doomed(w1.objs, w1.anc, app, w1.queues[l], answers)
           == dead + more + Doomed(w2.objs, w2.anc, app, w2.queues[l], answers)
      && |w2.queues[l]| < |w1.queues[l]|
  {
    var more := Takes(w1.objs, w1.anc, app, w1.queues[l][0], answers);
    TakesIsClosed(w1.objs, w1.anc, app, w1.queues[l][0], answers);
    GoneCompose(w, dead, w1, more, w2);
    ClosedExtend(w.anc, dead, more);
  }

  // ---- interception ----

  /** `f` is asked about what is sent to `r`: it is installed on `r` or on the living application object. */
  ghost predicate Guards(objs: Objects, app: Option<ObjId>, r: ObjId, f: ObjId) {
    (r in objs && f in objs[r].filters) || (app.Some? && app.value in objs && f in objs[app.value].filters)
  }

  ghost predicate Intercepts(objs: Objects, app: Option<ObjId>, e: Entry, answers: Answers) {
    exists f :: Guards(objs, app, e.receiver, f) && answers(f, e)
  }

  lemma {:induction false} NewestFirstMembers(filters: seq<ObjId>, f: ObjId)
    ensures f in NewestFirst(filters) <==> f in filters
  {
    if f in filters {
      var i :| 0 <= i < |filters| && filters[i] == f;
      assert NewestFirst(filters)[|filters| - 1 - i] == f;
    }
  }

  lemma {:induction false} PassesUnlessIntercepted(objs: Objects, app: Option<ObjId>, e: Entry, answers: Answers)
    requires e.receiver in objs
    ensures Passes(objs, app, e, answers) <==> !Intercepts(objs, app, e, answers)
  {
    forall f ensures f in FilterChain(objs, app, e.receiver) <==> Guards(objs, app, e.receiver, f) {
      NewestFirstMembers(objs[e.receiver].filters, f);
      if LiveApp(objs, app).Some? {
        NewestFirstMembers(objs[app.value].filters, f);
      }
    }
  }

  lemma {:induction false} HeadIsMember(s: seq<ObjId>)
    ensures s == [] || s[0] in s
  {
  }

  lemma {:induction false} NothingGone(w: World, w': World)
    requires Gone(w, {}, w')
    ensures w'.objs == w.objs && w'.anc == w.anc && w'.destroyed == w.destroyed
  {
    forall y | y in w.objs ensures Pruned(w.objs[y], {}) == w.objs[y] {
      MinusNone(w.objs[y].children, {});
      MinusNone(w.objs[y].filters, {});
      MinusNone(w.objs[y].watching, {});
    }
    var order := w'.destroyed[|w.destroyed|..];
    assert w'.destroyed == w.destroyed + order;
    HeadIsMember(order);
  }

  /** What one dispatch does: a deferred delete that no filter intercepts destroys exactly the receiver's
      subtree; anything else, and above all an intercepted one, destroys nothing and takes one entry off. */
  ghost predicate DispatchEffect(w: World, l: LoopId, app: Option<ObjId>, answers: Answers, w': World)
    requires l < |w.queues| && w.queues[l] != []
  {
    var e := w.queues[l][0];
    if e.kind.DeferredDelete? && !Intercepts(w.objs, app, e, answers) then
      forall y :: y in w'.objs <==> y in w.objs && y !in Subtree(w.anc, e.receiver)
    else
      && w'.objs == w.objs && w'.anc == w.anc && w'.destroyed == w.destroyed
      && w'.queues == w.queues[l := w.queues[l][1..]]
  }

  lemma {:induction false} DispatchSparesIff(w: World, l: LoopId, app: Option<ObjId>, answers: Answers, w': World)
    requires l < |w.queues| && w.queues[l] != [] && w.queues[l][0].receiver in w.objs && Dispatched(w, l, app, answers, w')
    ensures DispatchEffect(w, l, app, answers, w')
  {
    var e := w.queues[l][0];
    PassesUnlessIntercepted(w.objs, app, e, answers);
    if !(e.kind.DeferredDelete? && !Intercepts(w.objs, app, e, answers)) {
      NothingGone(w, w');
      var queues := w.queues[l := w.queues[l][1..]];
      forall k | 0 <= k < |queues| ensures w'.queues[k] == queues[k] {
        DropNone(queues[k], {});
      }
    }
  }

  /** Every deferred delete that marks `y` is intercepted by a filter outside `dead`, and if that filter sits
      on the application object, by one that stays in place with it. */
  ghost predicate Shielded(objs: Objects, anc: Ancestry, app: Option<ObjId>, q: seq<Entry>, answers: Answers, y: ObjId, dead: set<ObjId>) {
    forall e {:trigger Shield(objs, app, e, answers, dead)} ::
      e in q && e.kind.DeferredDelete? && y in Subtree(anc, e.receiver) ==> Shield(objs, app, e, answers, dead)
  }

  ghost predicate Shield(objs: Objects, app: Option<ObjId>, e: Entry, answers: Answers, dead: set<ObjId>) {
    exists f :: f !in dead && answers(f, e) &&
      ((e.receiver in objs && f in objs[e.receiver].filters) ||
       (app.Some? && app.value !in dead && app.value in objs && f in objs[app.value].filters))
  }

  lemma {:induction false} ShieldStays(objs: Objects, app: Option<ObjId>, e: Entry, answers: Answers, dead: set<ObjId>, now: set<ObjId>)
    requires Shield(objs, app, e, answers, dead) && now <= dead && e.receiver !in now
    ensures Shield(Survivors(objs, now), app, e, answers, dead)
  {
    var f :| f !in dead && answers(f, e) &&
      ((e.receiver in objs && f in objs[e.receiver].filters) ||
       (app.Some? && app.value !in dead && app.value in objs && f in objs[app.value].filters));
    var after := Survivors(objs, now);
    if e.receiver in objs && f in objs[e.receiver].filters {
      assert f in after[e.receiver].filters;
    } else {
      assert f in after[app.value].filters;
    }
  }

  /** A shielded object survives the drain. */
  lemma {:induction false} ShieldedSurvives(objs: Objects, anc: Ancestry, app: Option<ObjId>, q: seq<Entry>, answers: Answers,
                                            y: ObjId, dead: set<ObjId>)
    requires Doomed(objs, anc, app, q, answers) <= dead && Shielded(objs, anc, app, q, answers, y, dead)
    ensures y !in Doomed(objs, anc, app, q, answers)
    decreases |q|
  {
    if q == [] {
    } else {
      var e := q[0];
      var now := Takes(objs, anc, app, e, answers);
      var objs', anc', q' := Survivors(objs, now), Without(anc, now), Drop(q[1..], now);
      if y in now {
        assert e in q && Shield(objs, app, e, answers, dead);
        PassesUnlessIntercepted(objs, app, e, answers);
        assert false;
      }
      forall x | x in q' && x.kind.DeferredDelete? && y in Subtree(anc', x.receiver) ensures Shield(objs', app, x, answers, dead) {
        assert x in q && y in Subtree(anc, x.receiver);
        assert Shield(objs, app, x, answers, dead);
        ShieldStays(objs, app, x, answers, dead, now);
      }
      ShieldedSurvives(objs', anc', app, q', answers, y, dead);
    }
  }

  lemma {:induction false} ChainsShrink(objs: Objects, app: Option<ObjId>, e: Entry, answers: Answers, now: set<ObjId>)
    requires !Intercepts(objs, app, e, answers)
    ensures !Intercepts(Survivors(objs, now), app, e, answers)
  {
    if f :| Guards(Survivors(objs, now), app, e.receiver, f) && answers(f, e) {
      assert Guards(objs, app, e.receiver, f);
    }
  }

  /** An object marked by a deferred delete that no filter intercepts at the start does not. */
  lemma {:induction false} UnguardedIsDoomed(objs: Objects, anc: Ancestry, app: Option<ObjId>, q: seq<Entry>, answers: Answers,
                                             e: Entry, y: ObjId)
    requires Forest(objs, anc) && e in q && e.kind.DeferredDelete? && e.receiver in objs && y in Subtree(anc, e.receiver)
    requires !Intercepts(objs, app, e, answers)
    ensures y in Doomed(objs, anc, app, q, answers)
    decreases |q|
  {
    var now := Takes(objs, anc, app, q[0], answers);
    TakesIsClosed(objs, anc, app, q[0], answers);
    if e == q[0] {
      PassesUnlessIntercepted(objs, app, e, answers);
    } else if y !in now {
      assert e.receiver !in now;
      SurvivorsKeepForest(objs, anc, now);
      ChainsShrink(objs, app, e, answers, now);
      assert e in q[1..] && e in Drop(q[1..], now);
      UnguardedIsDoomed(Survivors(objs, now), Without(anc, now), app, Drop(q[1..], now), answers, e, y);
    }
  }

  lemma {:induction false} DoomedAreAlive(objs: Objects, anc: Ancestry, app: Option<ObjId>, q: seq<Entry>, answers: Answers)
    requires Forest(objs, anc)
    ensures Doomed(objs, anc, app, q, answers) <= objs.Keys
  {
    DoomedAreMarked(objs, anc, app, q, answers);
  }

  /** What a drain does, in terms of filters and survivors: an object is alive afterwards if every request
      that marks it is intercepted by a surviving filter, and dead if one is intercepted by nobody. */
  ghost predicate DrainEffect(w: World, l: LoopId, app: Option<ObjId>, answers: Answers, w': World)
    requires l < |w.queues|
  {
    && (forall y | y in w.objs && Shielded(w.objs, w.anc, app, w.queues[l], answers, y, w.objs.Keys - w'.objs.Keys) ::
          y in w'.objs)
    && (forall e, y | e in w.queues[l] && e.kind.DeferredDelete? && y in Subtree(w.anc, e.receiver) ::
          !Intercepts(w.objs, app, e, answers) ==> y !in w'.objs)
  }

  lemma {:induction false} DrainSpares(w: World, l: LoopId, app: Option<ObjId>, answers: Answers, w': World)
    requires Forest(w.objs, w.anc) && l < |w.queues| && (forall e :: e in w.queues[l] ==> e.receiver in w.objs)
    requires Gone(w, Doomed(w.objs, w.anc, app, w.queues[l], answers), w')
    ensures DrainEffect(w, l, app, answers, w')
  {
    var q := w.queues[l];
    var doomed := Doomed(w.objs, w.anc, app, q, answers);
    DoomedAreAlive(w.objs, w.anc, app, q, answers);
    assert w.objs.Keys - w'.objs.Keys == doomed;
    forall y | y in w.objs && Shielded(w.objs, w.anc, app, q, answers, y, doomed) ensures y in w'.objs {
      ShieldedSurvives(w.objs, w.anc, app, q, answers, y, doomed);
    }
    forall e, y | e in q && e.kind.DeferredDelete? && y in Subtree(w.anc, e.receiver) && !Intercepts(w.objs, app, e, answers)
      ensures y !in w'.objs
    {
      UnguardedIsDoomed(w.objs, w.anc, app, q, answers, e, y);
    }
  }

  // ---- who intercepts ----

  /** `f` is the last installed of the filters in `filters` that answer true. */
  ghost predicate NewestInterceptor(filters: seq<ObjId>, e: Entry, answers: Answers, f: ObjId) {
    exists k :: 0 <= k < |filters| && filters[k] == f && answers(f, e) && NoneAfter(filters, e, answers, k)
  }

  ghost predicate NoneAfter(filters: seq<ObjId>, e: Entry, answers: Answers, k: int) {
    forall j :: 0 <= j < |filters| && k < j ==> !answers(filters[j], e)
  }

  /** The event was stopped by `f`: the last installed interceptor on the application object, or on the
      receiver if there is none on the application object. */
  ghost predicate StoppedBy(objs: Objects, app: Option<ObjId>, e: Entry, answers: Answers, f: ObjId)
    requires e.receiver in objs
  {
    if app.Some? && app.value in objs && !NoneAfter(objs[app.value].filters, e, answers, -1)
    then NewestInterceptor(objs[app.value].filters, e, answers, f)
    else NewestInterceptor(objs[e.receiver].filters, e, answers, f)
  }
}
