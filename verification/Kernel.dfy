/** The kernel operations as they run: each method edits the fields step by step and is proved to
    produce the state that the value-level definitions describe. */
module Kernel {
  import opened KernelTypes
  import opened EventQueue
  import opened ObjectTree
  import opened KernelWorld
  import opened Destruction
  import opened Migration
  import opened KernelSteps
  import opened KernelRuns
  import opened DeferredDeletion

  class Kernel {
    var objs: Objects
    var queues: seq<seq<Entry>>
    var current: Option<LoopId>
    var inFlight: seq<Entry>
    var nextObj: nat
    var nextEvent: nat
    ghost var anc: Ancestry
    ghost var freed: multiset<EventId>
    ghost var destroyed: seq<ObjId>

    ghost function State(): World
      reads this
    {
      World(objs, anc, queues, current, inFlight, freed, destroyed, nextObj, nextEvent)
    }

    /** EventLoop::purge_pending: a null loop is tolerated. */
    method PurgePending(loop: Option<LoopId>, r: ObjId)
      requires loop.Some? ==> loop.value < |queues|
      modifies this`queues, this`freed
      ensures |queues| == |old(queues)|
      ensures forall l :: 0 <= l < |queues| ==>
        queues[l] == Drop(old(queues[l]), if loop == Some(l) then {r} else {})
      ensures Queued(queues) + freed == old(Queued(queues) + freed)
    {
      forall l | 0 <= l < |queues| ensures Drop(queues[l], {}) == queues[l] {
        DropNone(queues[l], {});
      }
      if loop.Some? {
        var q := queues[loop.value];
        var rest;
        ghost var deleted;
        rest, deleted := EventQueue.RemovePendingEvents(q, r);
        PurgeBalances(queues, loop.value, r, freed);
        queues, freed := queues[loop.value := rest], freed + Events(deleted);
      }
    }

    /** Object::remove_event_filter on a live filter. */
    method RemoveEventFilter(o: ObjId, f: ObjId)
      requires o in objs && f in objs
      modifies this`objs
      ensures objs == Unfiltered(old(objs), o, f)
    {
      objs := objs[o := objs[o].(filters := Minus(objs[o].filters, {f}))];
      objs := objs[f := objs[f].(watching := Minus(objs[f].watching, {o}))];
    }

    /** The first filter loop of ~Object: the dying filter leaves every chain it is on. */
    method LeaveWatched(o: ObjId)
      requires o in objs && NoDup(objs[o].watching)
      requires forall f :: f in objs[o].watching ==> f in objs && f != o
      modifies this`objs
      ensures objs == LeaveAll(old(objs), o, old(objs[o].watching))
      ensures objs.Keys == old(objs).Keys && objs[o].filters == old(objs[o].filters)
    {
      ghost var end := LeaveAll(objs, o, objs[o].watching);
      while objs[o].watching != []
        invariant o in objs && NoDup(objs[o].watching)
        invariant objs.Keys == old(objs).Keys && objs[o].filters == old(objs[o].filters)
        invariant forall f :: f in objs[o].watching ==> f in objs && f != o
        invariant LeaveAll(objs, o, objs[o].watching) == end
        decreases |objs[o].watching|
      {
        MinusLast(objs[o].watching);
        RemoveEventFilter(objs[o].watching[|objs[o].watching| - 1], o);
      }
    }

    /** The second filter loop of ~Object: the dying object drops the filters on its own chain. */
    method DropFilters(o: ObjId)
      requires o in objs && NoDup(objs[o].filters)
      requires forall f :: f in objs[o].filters ==> f in objs && f != o
      modifies this`objs
      ensures objs == ShedAll(old(objs), o, old(objs[o].filters))
    {
      ghost var end := ShedAll(objs, o, objs[o].filters);
      while objs[o].filters != []
        invariant o in objs && NoDup(objs[o].filters)
        invariant forall f :: f in objs[o].filters ==> f in objs && f != o
        invariant ShedAll(objs, o, objs[o].filters) == end
        decreases |objs[o].filters|
      {
        MinusLast(objs[o].filters);
        RemoveEventFilter(o, objs[o].filters[|objs[o].filters| - 1]);
      }
    }

    /** The two purges of ~Object. */
    method SweepQueues(o: ObjId)
      requires Structured(State()) && o in objs
      modifies this`queues, this`freed
      ensures QueuesSwept(old(State()), {o}, queues)
      ensures Queued(queues) + freed == old(Queued(queues) + freed)
    {
      ghost var w := State();
      PurgePending(objs[o].loop, o);
      PurgePending(current, o);
      forall l | 0 <= l < |w.queues| ensures queues[l] == Drop(w.queues[l], Swept(w, {o}, l)) {
        BothPurges(w, o, l, w.queues[l]);
      }
    }

    /** The two filter loops of ~Object. */
    method DetachFilters(o: ObjId)
      requires Mirrored(objs) && o in objs
      modifies this`objs
      ensures objs == Isolated(old(objs), o)
    {
      assert FilterLinks(objs, o);
      LoopsIsolate(objs, o);
      LeaveWatched(o);
      DropFilters(o);
    }

    /** ~Object up to the cascade. */
    method Prepare(o: ObjId)
      requires Structured(State()) && o in objs
      modifies this`queues, this`freed, this`objs
      ensures Prepared(old(State()), o, State())
    {
      SweepQueues(o);
      DetachFilters(o);
    }

    /** delete o: everything below it is destroyed first, each object once. */
    method Destroy(o: ObjId)
      requires Structured(State()) && o in objs
      modifies this
      ensures Removal(old(State()), Subtree(old(anc), o), State())
      decreases Subtree(anc, o), 1
    {
      ghost var w := State();
      Prepare(o);
      ghost var w1 := State();
      PreparedIsStructured(w, o, w1);
      DestroyChildren(o);
      ghost var w2 := State();
      Unlink(o);
      FinishDestroy(w, o, w1, w2, State());
    }

    /** The cascade: the front child is deleted until no child is left. */
    method DestroyChildren(o: ObjId)
      requires Structured(State()) && o in objs
      modifies this
      ensures Removal(old(State()), Subtree(old(anc), o) - {o}, State())
      ensures Structured(State()) && o in objs
      decreases Subtree(anc, o), 0
    {
      ghost var w := State();
      ghost var dead: set<ObjId> := {};
      RemovalOfNothing(w);
      while objs[o].children != []
        invariant Structured(State()) && o in objs
        invariant Removal(w, dead, State()) && Closed(w.anc, dead) && dead <= Subtree(w.anc, o) - {o}
        decreases objs.Keys
      {
        ghost var w1 := State();
        var c := objs[o].children[0];
        ChildSubtree(objs, anc, o, c);
        SubtreeIsClosed(objs, anc, c);
        Destroy(c);
        ExtendRemoval(w, dead, w1, o, c, State());
        RemovalKeepsStructure(w1, Subtree(w1.anc, c), State());
        dead := dead + Subtree(w1.anc, c);
      }
      forall c | c in w.objs[o].children ensures c in dead {
        assert objs[o] == Pruned(w.objs[o], dead);
        assert c in Minus(w.objs[o].children, dead) || c in dead;
      }
      AllChildrenAllDescendants(w.objs, w.anc, o, dead);
    }

    /** The end of ~Object: leave the parent's child list and cease to exist. */
    method Unlink(o: ObjId)
      requires Forest(objs, anc) && o in objs
      modifies this`objs, this`anc, this`destroyed
      ensures objs == Unlinked(old(objs), o) && anc == Without(old(anc), {o})
      ensures destroyed == old(destroyed) + [o]
    {
      UnlinkByUpdates(objs, anc, o);
      if objs[o].parent.Some? {
        var p := objs[o].parent.value;
        objs := objs[p := objs[p].(children := Minus(objs[p].children, {o}))];
      }
      objs := map y | y in objs && y != o :: objs[y];
      anc := Without(anc, {o});
      destroyed := destroyed + [o];
    }

    /** The cycle check of set_parent: walking up from `p` meets `o` exactly when `p` is below `o`. */
    method WouldCycle(o: ObjId, p: Option<ObjId>) returns (cycle: bool)
      requires Forest(objs, anc) && o in objs && (p.Some? ==> p.value in objs)
      ensures cycle <==> p.Some? && p.value in Subtree(anc, o)
    {
      var it := p;
      while it.Some?
        invariant it.Some? ==> it.value in objs
        invariant (p.Some? && p.value in Subtree(anc, o)) <==> (it.Some? && it.value in Subtree(anc, o))
        decreases if it.Some? then |anc[it.value]| + 1 else 0
      {
        if it.value == o {
          return true;
        }
        assert ParentLink(objs, anc, it.value);
        it := objs[it.value].parent;
      }
      return false;
    }

    /** The relinking of set_parent: off the old child list, onto the new one. */
    method Relink(o: ObjId, p: Option<ObjId>)
      requires Forest(objs, anc) && o in objs && objs[o].parent != p && (p.Some? ==> p.value in objs && p.value != o)
      modifies this`objs
      ensures objs == Reparented(old(objs), o, p)
    {
      UnlinkParentOnly(objs, anc, o);
      RelinkByUpdates(objs, o, p);
      if objs[o].parent.Some? {
        var q := objs[o].parent.value;
        objs := objs[q := objs[q].(children := Minus(objs[q].children, {o}))];
        objs := objs[o := objs[o].(parent := None)];
      }
      if p.Some? {
        objs := objs[o := objs[o].(parent := p)];
        objs := objs[p.value := objs[p.value].(children := objs[p.value].children + [o])];
      }
    }

    /** Object::set_parent. It accepts exactly the parents that do not close a cycle; where the code
        aborts, `ok` is false and nothing changes. */
    method SetParent(o: ObjId, p: Option<ObjId>) returns (ok: bool)
      requires Forest(objs, anc) && o in objs && (p.Some? ==> p.value in objs)
      modifies this`objs, this`anc
      ensures ok <==> (p.Some? ==> p.value !in Subtree(old(anc), o))
      ensures ok ==> Step(old(State()), Action.SetParent(o, p), State())
      ensures !ok ==> State() == old(State())
    {
      if objs[o].parent == p {
        if p.Some? {
          ParentNotBelow(objs, anc, o);
        }
        return true;
      }
      var cycle := WouldCycle(o, p);
      if cycle {
        return false;
      }
      Relink(o, p);
      anc := Rehung(anc, o, p);
      ok := true;
    }

    /** Object::install_event_filter: a reinstalled filter becomes the newest. */
    method InstallEventFilter(o: ObjId, f: ObjId)
      requires o in objs && f in objs && o != f
      modifies this`objs
      ensures Step(old(State()), InstallFilter(o, f), State())
    {
      PairByUpdates(objs, o, f);
      RemoveEventFilter(o, f);
      objs := objs[o := objs[o].(filters := objs[o].filters + [f])];
      objs := objs[f := objs[f].(watching := objs[f].watching + [o])];
    }

    /** EventLoop::enqueue_event for a newly allocated event. */
    method EnqueueEvent(l: LoopId, r: ObjId, kind: EventKind, priority: int)
      requires l < |queues|
      modifies this`queues, this`freed, this`nextEvent
      ensures State() == Accepted(old(State()), l, r, kind, priority)
    {
      var e := Entry(r, nextEvent, kind, priority);
      var q, accepted := EventQueue.EnqueueEvent(queues[l], e);
      queues := queues[l := q];
      if !accepted {
        freed := freed + multiset{nextEvent};
      }
      nextEvent := nextEvent + 1;
    }

    /** Object::post_event: routed to the receiver's affinity loop. */
    method PostEvent(r: ObjId, priority: int)
      requires Enabled(State(), Action.PostEvent(r, priority))
      modifies this`queues, this`freed, this`nextEvent
      ensures Step(old(State()), Action.PostEvent(r, priority), State())
    {
      EnqueueEvent(objs[r].loop.value, r, Ordinary, priority);
    }

    /** Object::delete_later: affinity loop first, else the caller's current loop. */
    method DeleteLater(o: ObjId)
      requires Enabled(State(), Action.DeleteLater(o))
      modifies this`queues, this`freed, this`nextEvent
      ensures Step(old(State()), Action.DeleteLater(o), State())
    {
      var loop := objs[o].loop;
      if loop.None? {
        loop := current;
      }
      EnqueueEvent(loop.value, o, DeferredDelete, 0);
    }

    /** The inner loop of the walk: the children of one object join all three lists. */
    method ListChildren(x: ObjId, moved0: seq<ObjId>, oldLoops0: seq<Option<LoopId>>, pending0: seq<ObjId>)
      returns (moved: seq<ObjId>, oldLoops: seq<Option<LoopId>>, pending: seq<ObjId>)
      requires x in objs && ChildLinks(objs, x) && LoopsOf(objs, moved0, oldLoops0)
      ensures moved == moved0 + objs[x].children && pending == pending0 + objs[x].children
      ensures LoopsOf(objs, moved, oldLoops)
    {
      var children := objs[x].children;
      moved, oldLoops, pending := moved0, oldLoops0, pending0;
      for j := 0 to |children|
        invariant moved == moved0 + children[..j] && pending == pending0 + children[..j]
        invariant LoopsOf(objs, moved, oldLoops)
      {
        moved := moved + [children[j]];
        oldLoops := oldLoops + [objs[children[j]].loop];
        pending := pending + [children[j]];
      }
      assert children[..|children|] == children;
    }

    /** The walk of move_to_loop: the subtree, each object once, with its affinity. */
    method CollectSubtree(o: ObjId) returns (moved: seq<ObjId>, oldLoops: seq<Option<LoopId>>)
      requires Forest(objs, anc) && o in objs
      ensures moved == BreadthFirst(objs, o) && LoopsOf(objs, moved, oldLoops)
    {
      moved, oldLoops := [o], [objs[o].loop];
      var pending := [o];
      ghost var n := 0;
      while pending != []
        invariant Walk(objs, anc, o, moved, n) && pending == moved[n..] && LoopsOf(objs, moved, oldLoops)
        invariant ListsTo(objs, moved, n, BreadthFirst(objs, o))
        decreases |objs| - n
      {
        var x := pending[0];
        assert x == moved[n];
        WalkFits(objs, anc, o, moved, n);
        WalkStep(objs, anc, o, moved, n);
        ListsOn(objs, moved, n, BreadthFirst(objs, o));
        assert ChildLinks(objs, x);
        moved, oldLoops, pending := ListChildren(x, moved, oldLoops, pending[1..]);
        n := n + 1;
      }
    }

    /** The rebinding loop of move_to_loop. */
    method Rebind(moved: seq<ObjId>, target: Option<LoopId>)
      requires forall x :: x in moved ==> x in objs
      modifies this`objs
      ensures objs == Rebound(old(objs), moved, target)
    {
      for i := 0 to |moved|
        invariant objs == Rebound(old(objs), moved[..i], target)
      {
        assert moved[..i + 1] == moved[..i] + [moved[i]];
        objs := objs[moved[i] := objs[moved[i]].(loop := target)];
      }
      assert moved[..|moved|] == moved;
    }

    /** One round of the entry loop of move_to_loop: `r` had affinity `oldLoop`. */
    method MigrateOne(ghost from: Objects, r: ObjId, oldLoop: Option<LoopId>, target: Option<LoopId>)
      requires r in from && from[r].loop == oldLoop
      requires (oldLoop.Some? ==> oldLoop.value < |queues|) && (target.Some? ==> target.value < |queues|)
      modifies this`queues, this`freed
      ensures queues == MoveOne(from, old(queues), r, target)
      ensures freed == old(freed) + Dropped(from, old(queues), r, target)
    {
      if oldLoop == target {
        return;
      }
      var entries: seq<Entry> := [];
      if oldLoop.Some? {
        var rest;
        rest, entries := EventQueue.TakeEventsFor(queues[oldLoop.value], r);
        queues := queues[oldLoop.value := rest];
      }
      if target.Some? {
        var q := EventQueue.AppendAll(queues[target.value], entries);
        assert entries == [] ==> q == queues[target.value];
        queues := queues[target.value := q];
      } else {
        ghost var deleted := EventQueue.DeleteAll(entries);
        freed := freed + Events(deleted);
      }
    }

    /** The entry loop of move_to_loop: each object's entries leave its own old loop. */
    method MigrateEntries(ghost from: Objects, moved: seq<ObjId>, oldLoops: seq<Option<LoopId>>, target: Option<LoopId>)
      requires Movable(from, |queues|, moved, oldLoops, target)
      modifies this`queues, this`freed
      ensures queues == MoveAll(from, old(queues), moved, target)
      ensures Queued(queues) + freed == old(Queued(queues) + freed)
    {
      ghost var end, held := MoveAll(from, queues, moved, target), Queued(queues) + freed;
      for i := 0 to |moved|
        invariant |queues| == |old(queues)|
        invariant MoveAll(from, queues, moved[i..], target) == end
        invariant Queued(queues) + freed == held
      {
        MoveOneHeld(from, queues, moved[i], target);
        assert moved[i..][0] == moved[i] && moved[i..][1..] == moved[i + 1..] && moved[i] in from;
        Balance(Queued(queues), Queued(MoveOne(from, queues, moved[i], target)), Dropped(from, queues, moved[i], target), freed);
        MigrateOne(from, moved[i], oldLoops[i], target);
      }
    }

    /** Rebinding, then the entries. */
    method MoveListed(moved: seq<ObjId>, oldLoops: seq<Option<LoopId>>, target: Option<LoopId>)
      requires Movable(objs, |queues|, moved, oldLoops, target)
      modifies this`objs, this`queues, this`freed
      ensures Migrated(old(State()), moved, target, State())
    {
      ghost var w := State();
      Rebind(moved, target);
      MigrateEntries(w.objs, moved, oldLoops, target);
      MigratedWhole(w, moved, target, freed);
      assert State() == w.(objs := Rebound(w.objs, moved, target), queues := MoveAll(w.objs, w.queues, moved, target), freed := freed);
    }

    /** Object::move_to_loop. */
    method MoveToLoop(o: ObjId, target: Option<LoopId>)
      requires Structured(State()) && o in objs && (target.Some? ==> target.value < |queues|)
      modifies this`objs, this`queues, this`freed
      ensures Step(old(State()), Action.MoveToLoop(o, target), State())
    {
      if objs[o].loop == target {
        return;
      }
      var moved, oldLoops := CollectSubtree(o);
      BreadthFirstListsSubtree(objs, anc, o);
      assert forall x :: x in moved ==> x in objs;
      SubtreeMovable(objs, |queues|, moved, oldLoops, target);
      MoveListed(moved, oldLoops, target);
    }

    /** The constructor: bound to the current loop, then adopted by its parent. */
    method Create(p: Option<ObjId>) returns (o: ObjId)
      requires Structured(State()) && (p.Some? ==> p.value in objs)
      modifies this
      ensures o == old(nextObj) && Step(old(State()), Action.Create(p), State())
    {
      BornKeepsStructure(State());
      o := nextObj;
      objs := objs[o := Obj(None, [], [], [], current)];
      anc := anc[o := []];
      nextObj := nextObj + 1;
      assert State() == Born(old(State()));
      var ok := SetParent(o, p);
    }

    /** Object::remove_pending_events. */
    method RemovePendingEvents(o: ObjId)
      requires Structured(State()) && o in objs
      modifies this`queues, this`freed
      ensures Step(old(State()), RemovePending(o), State())
    {
      SweepQueues(o);
    }

    /** The event half of ~EventLoop: what is still queued is deleted, nothing is dispatched. */
    method Teardown(l: LoopId)
      requires l < |queues|
      modifies this`queues, this`freed
      ensures Step(old(State()), TeardownLoop(l), State())
    {
      var entries := queues[l];
      queues := queues[l := []];
      ghost var deleted := EventQueue.DeleteAll(entries);
      freed := freed + Events(deleted);
    }

    /** send_event_internal up to the handler: the application's filters, then the receiver's, newest
        first, until one intercepts. */
    method SendEvent(app: Option<ObjId>, e: Entry, answers: Answers) returns (asked: seq<ObjId>, delivered: bool)
      requires e.receiver in objs
      ensures AskedInOrder(FilterChain(objs, app, e.receiver), e, answers, asked, delivered)
      ensures delivered <==> Passes(objs, app, e, answers)
      ensures !delivered ==> asked != [] && StoppedBy(objs, app, e, answers, asked[|asked| - 1])
    {
      asked := [];
      if LiveApp(objs, app).Some? {
        asked, delivered := AskNewestFirst(objs[app.value].filters, e, answers);
        if !delivered {
          Intercepted(FilterChain(objs, app, e.receiver), e, answers, asked);
          return;
        }
      }
      var more;
      more, delivered := AskNewestFirst(objs[e.receiver].filters, e, answers);
      asked := asked + more;
      if !delivered {
        Intercepted(FilterChain(objs, app, e.receiver), e, answers, asked);
      }
    }

    /** pop_event_entry on a queue that is not empty: a dispatch begins. */
    method BeginDispatch(l: LoopId) returns (entry: Entry)
      requires l < |queues| && queues[l] != []
      modifies this`queues, this`inFlight
      ensures entry == old(queues[l])[0] && Step(old(State()), TakeEntry(l), State())
    {
      var popped, rest := EventQueue.PopEventEntry(queues[l]);
      entry := popped.value;
      assert rest == queues[l][1..];
      queues, inFlight := queues[l := rest], inFlight + [entry];
    }

    /** Delivery of a deferred delete: the receiver is deleted, then the event. */
    method DeliverDelete()
      requires Structured(State()) && inFlight != [] && Innermost(State()).kind.DeferredDelete?
      requires Innermost(State()).receiver in objs
      modifies this
      ensures Step(old(State()), DispatchDelete, State())
      ensures Gone(old(State()), Subtree(old(anc), Innermost(old(State())).receiver), State())
      ensures QueuesSwept(old(State()), Subtree(old(anc), Innermost(old(State())).receiver), queues)
      ensures inFlight == old(inFlight)[..|old(inFlight)| - 1]
    {
      ghost var w := State();
      var entry := inFlight[|inFlight| - 1];
      Destroy(entry.receiver);
      ghost var mid := State();
      freed := freed + multiset{entry.event};
      inFlight := inFlight[..|inFlight| - 1];
      DeletedThenFinished(w, mid, State());
    }

    /** Any other end of a dispatch: the event is deleted. */
    method EndDispatch()
      requires inFlight != []
      modifies this`inFlight, this`freed
      ensures Step(old(State()), FinishDispatch, State())
    {
      freed := freed + multiset{inFlight[|inFlight| - 1].event};
      inFlight := inFlight[..|inFlight| - 1];
    }

    /** What follows the pop in one round of the event drain: ask the filters, deliver, delete the event.
        Handlers are taken to leave the kernel alone. */
    method Deliver(app: Option<ObjId>, entry: Entry, answers: Answers)
      requires Sound(State()) && inFlight != [] && Innermost(State()) == entry && entry.receiver in objs
      modifies this
      ensures Sound(State()) && inFlight == old(inFlight)[..|old(inFlight)| - 1]
      ensures var dead := Takes(old(objs), old(anc), app, entry, answers);
        Gone(old(State()), dead, State()) && QueuesSwept(old(State()), dead, queues)
    {
      ghost var w := State();
      var asked, delivered := SendEvent(app, entry, answers);
      if delivered && entry.kind.DeferredDelete? {
        DeliverDelete();
        StepKeepsSound(w, DispatchDelete, State());
      } else {
        RemovalOfNothing(w);
        EndDispatch();
        StepKeepsSound(w, FinishDispatch, State());
      }
    }

    /** One round of the event drain in process_events. */
    method DispatchNext(l: LoopId, app: Option<ObjId>, answers: Answers)
      requires Sound(State()) && l < |queues| && queues[l] != []
      modifies this
      ensures Sound(State()) && |queues| == |old(queues)| && inFlight == old(inFlight)
      ensures Dispatched(old(State()), l, app, answers, State()) && DispatchEffect(old(State()), l, app, answers, State())
    {
      ghost var w := State();
      assert queues[l][0] in queues[l];
      var entry := BeginDispatch(l);
      ghost var w1 := State();
      StepKeepsSound(w, TakeEntry(l), w1);
      Deliver(app, entry, answers);
      SweptQueues(w1, Takes(w1.objs, w1.anc, app, entry, answers), queues);
      DispatchSparesIff(w, l, app, answers, State());
    }

    /** The event drain of process_events: the queue empties, and the objects destroyed are exactly the
        doomed, each once, however the requests overlap. */
    method DrainEvents(l: LoopId, app: Option<ObjId>, answers: Answers)
      requires Sound(State()) && l < |queues|
      modifies this
      ensures Sound(State()) && |queues| == |old(queues)|
      ensures queues[l] == [] && inFlight == old(inFlight)
      ensures Gone(old(State()), Doomed(old(objs), old(anc), app, old(queues[l]), answers), State())
      ensures DrainEffect(old(State()), l, app, answers, State())
    {
      ghost var w, dead := State(), {};
      RemovalOfNothing(w);
      while queues[l] != []
        invariant Sound(State()) && |queues| == |w.queues| && inFlight == w.inFlight
        invariant Gone(w, dead, State()) && Closed(w.anc, dead)
        invariant dead + Doomed(objs, anc, app, queues[l], answers) == Doomed(w.objs, w.anc, app, w.queues[l], answers)
        decreases |queues[l]|
      {
        ghost var w1 := State();
        DispatchNext(l, app, answers);
        DrainExtend(w, dead, w1, l, app, answers, State());
        dead := dead + Takes(w1.objs, w1.anc, app, w1.queues[l][0], answers);
      }
      DrainSpares(w, l, app, answers, State());
    }
  }

  /** The chain was asked from its head up to the first interceptor, or to its end if there is none. */
  ghost predicate AskedInOrder(chain: seq<ObjId>, e: Entry, answers: Answers, asked: seq<ObjId>, passed: bool) {
    && asked <= chain
    && (passed ==> asked == chain && forall i :: 0 <= i < |asked| ==> !answers(asked[i], e))
    && (!passed ==> asked != [] && answers(asked[|asked| - 1], e) &&
                    forall i :: 0 <= i < |asked| - 1 ==> !answers(asked[i], e))
  }

  lemma {:induction false} DeletedThenFinished(w: World, mid: World, w': World)
    requires w.inFlight != [] && Innermost(w).kind.DeferredDelete? && Innermost(w).receiver in w.objs
    requires Removal(w, Subtree(w.anc, Innermost(w).receiver), mid) && w' == FinishedFrom(w, mid)
    ensures Step(w, DispatchDelete, w')
  {
    assert Deleted(w, Innermost(w).receiver, mid);
  }

  lemma {:induction false} Intercepted(chain: seq<ObjId>, e: Entry, answers: Answers, asked: seq<ObjId>)
    requires asked <= chain && asked != [] && answers(asked[|asked| - 1], e)
    ensures exists f :: f in chain && answers(f, e)
  {
    assert chain[|asked| - 1] == asked[|asked| - 1];
  }

  /** The walk down one filter list from its back. */
  method AskNewestFirst(filters: seq<ObjId>, e: Entry, answers: Answers) returns (asked: seq<ObjId>, passed: bool)
    ensures AskedInOrder(NewestFirst(filters), e, answers, asked, passed)
    ensures if passed then NoneAfter(filters, e, answers, -1) else NewestInterceptor(filters, e, answers, asked[|asked| - 1])
  {
    asked := [];
    var i := |filters|;
    while i > 0
      invariant 0 <= i <= |filters| && NoneAfter(filters, e, answers, i - 1)
      invariant asked == NewestFirst(filters)[..|filters| - i]
      invariant forall j :: 0 <= j < |asked| ==> !answers(asked[j], e)
    {
      asked := asked + [filters[i - 1]];
      if answers(filters[i - 1], e) {
        return asked, false;
      }
      i := i - 1;
    }
    passed := true;
  }

  ghost predicate LoopsOf(objs: Objects, moved: seq<ObjId>, oldLoops: seq<Option<LoopId>>) {
    |oldLoops| == |moved| && forall i :: 0 <= i < |moved| && moved[i] in objs ==> oldLoops[i] == objs[moved[i]].loop
  }

  /** `moved` are objects with affinities `oldLoops`; these and `target` are among the `n` loops. */
  ghost predicate Movable(objs: Objects, n: nat, moved: seq<ObjId>, oldLoops: seq<Option<LoopId>>, target: Option<LoopId>) {
    && LoopsOf(objs, moved, oldLoops)
    && (forall i :: 0 <= i < |moved| ==> moved[i] in objs)
    && (forall i :: 0 <= i < |oldLoops| && oldLoops[i].Some? ==> oldLoops[i].value < n)
    && (target.Some? ==> target.value < n)
  }

  lemma {:induction false} SubtreeMovable(objs: Objects, n: nat, moved: seq<ObjId>, oldLoops: seq<Option<LoopId>>, target: Option<LoopId>)
    requires LoopsOf(objs, moved, oldLoops) && forall x :: x in moved ==> x in objs
    requires forall o :: o in objs && objs[o].loop.Some? ==> objs[o].loop.value < n
    requires target.Some? ==> target.value < n
    ensures Movable(objs, n, moved, oldLoops, target)
  {
    forall i | 0 <= i < |oldLoops| && oldLoops[i].Some? ensures oldLoops[i].value < n {
      assert moved[i] in objs;
    }
  }

  lemma {:induction false} PurgeBalances(queues: seq<seq<Entry>>, l: LoopId, r: ObjId, freed: multiset<EventId>)
    requires l < |queues|
    ensures Queued(queues[l := Drop(queues[l], {r})]) + (freed + Events(Only(queues[l], r))) == Queued(queues) + freed
  {
    var q := queues[l];
    EventsSplit(q, r);
    QueuedUpdate(queues, l, Drop(q, {r}));
    var less := Queued(queues[l := Drop(q, {r})]);
    Cancel(Queued(queues), less, Events(Drop(q, {r})), Events(Only(q, r)));
    Balance(Queued(queues), less, Events(Only(q, r)), freed);
  }

  lemma {:induction false} Cancel(total: multiset<EventId>, less: multiset<EventId>, kept: multiset<EventId>, gone: multiset<EventId>)
    requires less + (kept + gone) == total + kept
    ensures less + gone == total
  {
    forall e: EventId ensures (less + gone)[e] == total[e] {
      assert (less + (kept + gone))[e] == (total + kept)[e];
    }
  }

  /** What leaves the queues shows up among the freed. */
  lemma {:induction false} Balance(total: multiset<EventId>, less: multiset<EventId>, gone: multiset<EventId>, freed: multiset<EventId>)
    requires less + gone == total
    ensures less + (freed + gone) == total + freed
  {
  }
}
