/** Deferred-delete compression over whole runs: how many deletion requests a queue can hold. */
module Compression {
  import opened KernelTypes
  import opened EventQueue
  import opened ObjectTree
  import opened KernelWorld
  import opened Migration
  import opened KernelSteps
  import opened KernelRuns

  /** delete_later goes to the loop the object is bound to, else to the current one. If a request of the
      object is still queued there, no queue changes and the new event is deleted; otherwise that queue has
      one entry more, and no other queue changes. */
  lemma {:induction false} AskingTwice(w: World, o: ObjId, w': World, l: LoopId)
    requires Step(w, DeleteLater(o), w') && (w.objs[o].loop == Some(l) || (w.objs[o].loop == None && w.current == Some(l)))
    ensures l < |w.queues|
    ensures Requests(w.queues[l], o) > 0 ==> w'.queues == w.queues && w'.freed == w.freed + multiset{w.nextEvent}
    ensures Requests(w.queues[l], o) == 0 ==>
      && |w'.queues| == |w.queues| && w'.freed == w.freed && Requests(w'.queues[l], o) == 1
      && multiset(w'.queues[l]) == multiset(w.queues[l]) + multiset{Entry(o, w.nextEvent, DeferredDelete, 0)}
      && forall k :: 0 <= k < |w.queues| && k != l ==> w'.queues[k] == w.queues[k]
  {
    var e := Entry(o, w.nextEvent, DeferredDelete, 0);
    RequestedIff(w.queues[l], o);
    EnqueuedCounts(w.queues[l], e);
    RequestsInserted(w.queues[l], e, o);
  }

  /** No queue holds two requests of the same object. */
  ghost predicate Single(queues: seq<seq<Entry>>) {
    forall l, o :: 0 <= l < |queues| ==> Requests(queues[l], o) <= 1
  }

  /** `y` goes along with `root` to loop `t`, and both its own loop and `t` hold a request of it. */
  ghost predicate Doubles(w: World, root: ObjId, t: LoopId, y: ObjId) {
    && y in Subtree(w.anc, root) && y in w.objs && w.objs[y].loop.Some? && w.objs[y].loop.value != t
    && t < |w.queues| && w.objs[y].loop.value < |w.queues|
    && Requests(w.queues[w.objs[y].loop.value], y) > 0 && Requests(w.queues[t], y) > 0
  }

  /** The action is a migration that brings a second request to a loop. */
  ghost predicate Merges(w: World, a: Action) {
    a.MoveToLoop? && a.target.Some? && a.root in w.objs && w.objs[a.root].loop != a.target &&
      exists y :: Doubles(w, a.root, a.target.value, y)
  }

  // ---- one step ----

  lemma {:induction false} SweptCounts(w: World, dead: set<ObjId>, queues: seq<seq<Entry>>)
    requires QueuesSwept(w, dead, queues) && Single(w.queues)
    ensures Single(queues)
  {
    forall l, o | 0 <= l < |queues| ensures Requests(queues[l], o) <= 1 {
      RequestsDropped(w.queues[l], Swept(w, dead, l), o);
    }
  }

  lemma {:induction false} AcceptedCounts(w: World, l: LoopId, r: ObjId, kind: EventKind, priority: int)
    requires l < |w.queues| && Single(w.queues)
    ensures Single(Accepted(w, l, r, kind, priority).queues)
  {
    var e := Entry(r, w.nextEvent, kind, priority);
    forall k, o | 0 <= k < |w.queues| ensures Requests(Accepted(w, l, r, kind, priority).queues[k], o) <= 1 {
      RequestsInserted(w.queues[l], e, o);
      RequestedIff(w.queues[l], r);
    }
  }

  lemma {:induction false} TakenCounts(w: World, l: LoopId)
    requires l < |w.queues| && w.queues[l] != [] && Single(w.queues)
    ensures Single(Taken(w, l).queues)
  {
    forall k, o | 0 <= k < |w.queues| ensures Requests(Taken(w, l).queues[k], o) <= 1 {
      assert Requests(w.queues[l], o) >= Requests(w.queues[l][1..], o);
    }
  }

  /** How many requests of `o` a move of `r` brings to loop `l`. */
  ghost function Brought(w: World, r: ObjId, l: LoopId, o: ObjId): nat {
    if o in Subtree(w.anc, r) && o in w.objs && w.objs[o].loop.Some? && w.objs[o].loop.value < |w.queues| && w.objs[o].loop.value != l
    then Requests(w.queues[w.objs[o].loop.value], o) else 0
  }

  /** What a loop holds of `o` after a move. */
  lemma {:induction false} MovedCounts(w: World, r: ObjId, t: Option<LoopId>, w': World, l: nat, o: ObjId)
    requires Structured(w) && Step(w, MoveToLoop(r, t), w') && w.objs[r].loop != t && l < |w.queues|
    ensures |w'.queues| == |w.queues|
    ensures t != Some(l) ==> Requests(w'.queues[l], o) <= Requests(w.queues[l], o)
    ensures t == Some(l) ==> Requests(w'.queues[l], o) == Requests(w.queues[l], o) + Brought(w, r, l, o)
  {
    var moved := BreadthFirst(w.objs, r);
    BreadthFirstListsSubtree(w.objs, w.anc, r);
    if t == Some(l) {
      MoveAllAtTarget(w.objs, w.queues, moved, l);
      var batch := Arriving(w.objs, w.queues, moved, l);
      RequestsConcat(w.queues[l], batch, o);
      RequestsOfOnly(batch, o);
      OnlyArriving(w.objs, w.queues, moved, l, o);
      if o in w.objs && w.objs[o].loop.Some? && w.objs[o].loop.value < |w.queues| {
        RequestsOfOnly(w.queues[w.objs[o].loop.value], o);
      }
    } else {
      MoveAllElsewhere(w.objs, w.queues, moved, t, l);
      RequestsDropped(w.queues[l], Leaving(w.objs, moved, l, t), o);
    }
  }

  lemma {:induction false} MoveSingleIff(w: World, r: ObjId, t: Option<LoopId>, w': World)
    requires Structured(w) && Step(w, MoveToLoop(r, t), w') && Single(w.queues)
    ensures Single(w'.queues) <==> !Merges(w, MoveToLoop(r, t))
  {
    if w.objs[r].loop != t {
      if y :| t.Some? && Doubles(w, r, t.value, y) {
        MovedCounts(w, r, t, w', t.value, y);
        assert Requests(w'.queues[t.value], y) > 1;
      } else {
        forall l, o | 0 <= l < |w'.queues| ensures Requests(w'.queues[l], o) <= 1 {
          MovedCounts(w, r, t, w', l, o);
          assert t == Some(l) ==> !Doubles(w, r, l, o);
        }
      }
    }
  }

  /** Every step keeps the queues free of second requests, the migrations that merge two excepted. */
  lemma {:induction false} StepSingleIff(w: World, a: Action, w': World)
    requires Structured(w) && Step(w, a, w') && Single(w.queues)
    ensures Single(w'.queues) <==> !Merges(w, a)
  {
    match a
    case PostEvent(r, p) => AcceptedCounts(w, w.objs[r].loop.value, r, Ordinary, p);
    case DeleteLater(o) => AcceptedCounts(w, DeletionLoop(w, o).value, o, DeferredDelete, 0);
    case RemovePending(o) => SweptCounts(w, {o}, w'.queues);
    case MoveToLoop(r, t) => MoveSingleIff(w, r, t, w');
    case TakeEntry(l) => TakenCounts(w, l);
    case DispatchDelete =>
      var mid :| Deleted(w, Innermost(w).receiver, mid) && w' == FinishedFrom(w, mid);
      if Innermost(w).receiver in w.objs {
        SweptCounts(w, Subtree(w.anc, Innermost(w).receiver), mid.queues);
      }
    case Delete(o) => SweptCounts(w, Subtree(w.anc, o), w'.queues);
    case NewLoop => assert forall o :: Requests([], o) == 0;
    case TeardownLoop(l) => assert forall o :: Requests([], o) == 0;
    case _ =>
  }

  // ---- runs ----

  ghost predicate MergesAt(ws: seq<World>, actions: seq<Action>, i: nat) {
    i < |actions| && i < |ws| && Merges(ws[i], actions[i])
  }

  lemma {:induction false} SingleUntilMerged(ws: seq<World>, actions: seq<Action>, n: nat)
    requires Run(ws, actions) && Initial(ws[0]) && n < |ws|
    requires forall i :: 0 <= i < n ==> !MergesAt(ws, actions, i)
    ensures Single(ws[n].queues)
  {
    if n == 0 {
    } else {
      SingleUntilMerged(ws, actions, n - 1);
      RunIsConsistent(ws, actions, n - 1);
      assert StepAt(ws, actions, n - 1) && !MergesAt(ws, actions, n - 1);
      StepSingleIff(ws[n - 1], actions[n - 1], ws[n]);
    }
  }

  ghost predicate AlwaysSingle(ws: seq<World>) {
    forall i :: 0 <= i < |ws| ==> Single(ws[i].queues)
  }

  /** In a run no queue ever holds two requests of one object exactly when no migration merges two. */
  lemma {:induction false} AlwaysSingleIff(ws: seq<World>, actions: seq<Action>)
    requires Run(ws, actions) && Initial(ws[0])
    ensures AlwaysSingle(ws) <==> forall i :: 0 <= i < |actions| ==> !MergesAt(ws, actions, i)
  {
    if AlwaysSingle(ws) {
      forall i | 0 <= i < |actions| ensures !MergesAt(ws, actions, i) {
        RunIsConsistent(ws, actions, i);
        assert StepAt(ws, actions, i) && Single(ws[i].queues) && Single(ws[i + 1].queues);
        StepSingleIff(ws[i], actions[i], ws[i + 1]);
      }
    } else {
      var n :| 0 <= n < |ws| && !Single(ws[n].queues);
      if forall i :: 0 <= i < n ==> !MergesAt(ws, actions, i) {
        SingleUntilMerged(ws, actions, n);
      }
    }
  }

  /** So it is in every run without migration. */
  lemma {:induction false} OneRequestWithoutMigration(ws: seq<World>, actions: seq<Action>, n: nat)
    requires Run(ws, actions) && Initial(ws[0]) && n < |ws| && forall i :: 0 <= i < |actions| ==> !actions[i].MoveToLoop?
    ensures Single(ws[n].queues)
  {
    SingleUntilMerged(ws, actions, n);
  }

  /** And in every run that calls delete_later only on objects with an affinity, migrations included. */
  lemma {:induction false} OneRequestWithAffinity(ws: seq<World>, actions: seq<Action>, n: nat)
    requires Run(ws, actions) && Initial(ws[0]) && AffineDeletes(ws, actions) && n < |ws|
    ensures Single(ws[n].queues)
  {
    forall i | 0 <= i < n ensures !MergesAt(ws, actions, i) {
      RunIsRouted(ws, actions, i);
      if MergesAt(ws, actions, i) {
        var y :| Doubles(ws[i], actions[i].root, actions[i].target.value, y);
        RoutedRequests(ws[i], actions[i].target.value, y);
      }
    }
    SingleUntilMerged(ws, actions, n);
  }

  lemma {:induction false} RoutedRequests(w: World, l: LoopId, y: ObjId)
    requires Routed(w) && l < |w.queues| && (y in w.objs ==> w.objs[y].loop != Some(l))
    ensures Requests(w.queues[l], y) == 0
  {
    RequestsNone(w.queues[l], y);
  }
}
