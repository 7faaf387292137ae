/** Runs in which the kernel does not keep what one might expect. */
module Counterexamples {
  import opened KernelTypes
  import opened EventQueue
  import opened PriorityOrder
  import opened ObjectTree
  import opened KernelWorld
  import opened Migration
  import opened KernelSteps
  import KernelRuns
  import Compression

  // ---- delete_later without affinity ----

  lemma {:induction false} MoveLeavesRequest(w: World, o: ObjId, a: LoopId, b: LoopId, w': World, e: Entry)
    requires o in w.objs && w.objs[o].loop == None && a < |w.queues| && a != b && o in w.anc
    requires e in w.queues[a] && e.receiver == o && Step(w, MoveToLoop(o, Some(b)), w')
    ensures o in w'.objs && w'.objs[o].loop == Some(b) && a < |w'.queues| && e in w'.queues[a]
  {
    var moved := BreadthFirst(w.objs, o);
    assert moved[0] == o;
    MoveAllElsewhere(w.objs, w.queues, moved, Some(b), a);
    assert o in moved && o !in Leaving(w.objs, moved, a, Some(b));
  }

  /** delete_later on an object without affinity files the request with the current loop `a`. Binding
      the object to another loop afterwards leaves the request behind, and deleting the object while
      `a` is not current leaves `a`'s queue naming a dead object. */
  lemma {:induction false} FallbackThenMoveDangles(w0: World, w1: World, w2: World, w3: World, w4: World,
                                                   o: ObjId, a: LoopId, b: LoopId, now: Option<LoopId>)
    requires o in w0.objs && o in w0.anc && w0.objs[o].loop == None && w0.current == Some(a)
    requires Step(w0, DeleteLater(o), w1) && Step(w1, MoveToLoop(o, Some(b)), w2) && a != b
    requires Step(w2, SwitchCurrent(now), w3) && now != Some(a) && Step(w3, Delete(o), w4)
    ensures !Routed(w2) && !NoDangling(w4)
  {
    var e := AcceptedIsQueued(w0, a, o, DeferredDelete, 0);
    MoveLeavesRequest(w1, o, a, b, w2, e);
    assert o !in Swept(w3, Subtree(w3.anc, o), a);
    assert e in w4.queues[a] && o !in w4.objs;
  }

  ghost const REQUEST := Entry(0, 0, DeferredDelete, 0)
  ghost const SECOND := Entry(0, 1, DeferredDelete, 0)

  ghost function OneObject(loop: Option<LoopId>): Objects {
    map[0 := Obj(None, [], [], [], loop)]
  }

  /** Two loops, one object made while no loop is current, then the steps of FallbackThenMoveDangles, and
      the dispatch of the request that was left behind. */
  ghost function Stage(i: nat): World {
    if i == 0 then World(map[], map[], [], None, [], multiset{}, [], 0, 0)
    else if i == 1 then World(map[], map[], [[]], None, [], multiset{}, [], 0, 0)
    else if i == 2 then World(map[], map[], [[], []], None, [], multiset{}, [], 0, 0)
    else if i == 3 then World(OneObject(None), map[0 := []], [[], []], None, [], multiset{}, [], 1, 0)
    else if i == 4 then World(OneObject(None), map[0 := []], [[], []], Some(0), [], multiset{}, [], 1, 0)
    else if i == 5 then World(OneObject(None), map[0 := []], [[REQUEST], []], Some(0), [], multiset{}, [], 1, 1)
    else if i == 6 then World(OneObject(Some(1)), map[0 := []], [[REQUEST], []], Some(0), [], multiset{}, [], 1, 1)
    else if i == 7 then World(OneObject(Some(1)), map[0 := []], [[REQUEST], []], None, [], multiset{}, [], 1, 1)
    else if i == 8 then World(map[], map[], [[REQUEST], []], None, [], multiset{}, [0], 1, 1)
    else if i == 9 then World(map[], map[], [[], []], None, [REQUEST], multiset{}, [0], 1, 1)
    else World(map[], map[], [[], []], None, [], multiset{0}, [0, 0], 1, 1)
  }

  ghost function StageAction(i: nat): Action {
    if i < 2 then NewLoop
    else if i == 2 then Create(None)
    else if i == 3 then SwitchCurrent(Some(0))
    else if i == 4 then DeleteLater(0)
    else if i == 5 then MoveToLoop(0, Some(1))
    else if i == 6 then SwitchCurrent(None)
    else if i == 7 then Delete(0)
    else if i == 8 then TakeEntry(0)
    else DispatchDelete
  }

  lemma {:induction false} FirstObject(w: World)
    requires w.objs == map[] && w.anc == map[] && w.nextObj == 0
    ensures Adopted(Born(w), 0, None) == w.(objs := OneObject(w.current), anc := map[0 := []], nextObj := 1)
  {
    var born := Born(w);
    assert born.objs == OneObject(w.current) && born.anc == map[0 := []];
    assert Reparented(born.objs, 0, None) == OneObject(w.current);
    assert AncestorsAfter(born.objs, born.anc, 0, None) == born.anc;
  }

  lemma {:induction false} StageAsks()
    ensures Step(Stage(4), DeleteLater(0), Stage(5))
  {
    assert Inserted([], REQUEST) == [REQUEST];
  }

  lemma {:induction false} StageMoves()
    ensures Step(Stage(5), MoveToLoop(0, Some(1)), Stage(6))
  {
    var w, w' := Stage(5), Stage(6);
    assert [0] + [] == [0] && Breadth(w.objs, [0], 1, 0) == [0];
    assert BreadthFirst(w.objs, 0) == [0];
    assert Migrated(w, [0], Some(1), w');
  }

  lemma {:induction false} StageDeletes()
    ensures Step(Stage(7), Delete(0), Stage(8))
  {
    var w, w' := Stage(7), Stage(8);
    assert Subtree(w.anc, 0) == {0};
    assert Swept(w, {0}, 0) == {} && Swept(w, {0}, 1) == {0};
    DropNone(w.queues[0], {});
    assert w'.destroyed[|w.destroyed|..] == [0];
  }

  lemma {:induction false} StageDeletesAgain()
    ensures Step(Stage(9), DispatchDelete, Stage(10))
  {
    var w, w' := Stage(9), Stage(10);
    var mid := w.(destroyed := [0, 0]);
    assert w.destroyed + [0] == [0, 0];
    assert Deleted(w, Innermost(w).receiver, mid);
    assert w' == FinishedFrom(w, mid);
  }

  lemma {:induction false} StageStep(i: nat)
    requires i < 10
    ensures Step(Stage(i), StageAction(i), Stage(i + 1))
  {
    if i == 2 {
      FirstObject(Stage(2));
    } else if i == 4 {
      StageAsks();
    } else if i == 5 {
      StageMoves();
    } else if i == 7 {
      StageDeletes();
    } else if i == 8 {
      assert [REQUEST][1..] == [];
    } else if i == 9 {
      StageDeletesAgain();
    }
  }

  /** A run from nothing to a queue that names a dead object, and on to its second destruction. */
  lemma {:induction false} DanglingRun() returns (ws: seq<World>, actions: seq<Action>)
    ensures KernelRuns.Run(ws, actions) && KernelRuns.Initial(ws[0])
    ensures |ws| == 11 && !NoDangling(ws[8]) && !DestroyedOnce(ws[10])
  {
    ws, actions := seq(11, i requires 0 <= i < 11 => Stage(i)), seq(10, i requires 0 <= i < 10 => StageAction(i));
    forall i | 0 <= i < |actions| ensures KernelRuns.StepAt(ws, actions, i) {
      StageStep(i);
    }
    assert REQUEST in ws[8].queues[0];
    assert ws[10].destroyed[0] == ws[10].destroyed[1];
  }

  // ---- two requests on one queue ----

  /** The request that was left behind is joined by a second one when the object moves back. */
  ghost function Rejoined(i: nat): World {
    if i <= 6 then Stage(i)
    else if i == 7 then World(OneObject(Some(1)), map[0 := []], [[REQUEST], [SECOND]], Some(0), [], multiset{}, [], 1, 2)
    else World(OneObject(Some(0)), map[0 := []], [[REQUEST, SECOND], []], Some(0), [], multiset{}, [], 1, 2)
  }

  ghost function RejoinedAction(i: nat): Action {
    if i < 6 then StageAction(i) else if i == 6 then DeleteLater(0) else MoveToLoop(0, Some(0))
  }

  lemma {:induction false} RejoinedAsks()
    ensures Step(Rejoined(6), DeleteLater(0), Rejoined(7))
  {
    assert Inserted([], SECOND) == [SECOND];
  }

  lemma {:induction false} RejoinedQueues(queues: seq<seq<Entry>>)
    requires queues == [[REQUEST], [SECOND]]
    ensures MoveOne(OneObject(Some(1)), queues, 0, Some(0)) == [[REQUEST, SECOND], []]
    ensures MoveAll(OneObject(Some(1)), queues, [0], Some(0)) == [[REQUEST, SECOND], []]
  {
    assert Drop(queues[1], {0}) == [] && Only(queues[1], 0) == [SECOND];
    var rest := queues[1 := []];
    assert rest[0] == [REQUEST] && [REQUEST] + [SECOND] == [REQUEST, SECOND];
    assert rest[0 := [REQUEST, SECOND]] == [[REQUEST, SECOND], []];
    assert [0][1..] == [];
  }

  lemma {:induction false} RejoinedMoves(w: World, w': World)
    requires w.objs == OneObject(Some(1)) && w.anc == map[0 := []] && w.queues == [[REQUEST], [SECOND]]
    requires w' == w.(objs := OneObject(Some(0)), queues := [[REQUEST, SECOND], []])
    ensures Step(w, MoveToLoop(0, Some(0)), w')
  {
    assert Migrated(w, [0], Some(0), w') by {
      RejoinedQueues(w.queues);
      MoveOneHeld(w.objs, w.queues, 0, Some(0));
      assert Rebound(w.objs, [0], Some(0)) == w'.objs;
    }
    assert [0] + [] == [0] && Breadth(w.objs, [0], 1, 0) == [0];
    assert BreadthFirst(w.objs, 0) == [0];
  }

  lemma {:induction false} RejoinedStep(i: nat)
    requires i < 8
    ensures Step(Rejoined(i), RejoinedAction(i), Rejoined(i + 1))
  {
    if i < 6 {
      StageStep(i);
    } else if i == 6 {
      RejoinedAsks();
    } else {
      RejoinedMoves(Rejoined(7), Rejoined(8));
    }
  }

  lemma {:induction false} TwoRequests(q: seq<Entry>)
    requires q == [REQUEST, SECOND]
    ensures Requests(q, 0) == 2
  {
    assert q[1..] == [SECOND] && [SECOND][1..] == [];
    assert Requests([SECOND], 0) == 1;
  }

  /** A run in which a migration puts two requests of one object on one queue. */
  lemma {:induction false} DoubleRequestRun() returns (ws: seq<World>, actions: seq<Action>)
    ensures KernelRuns.Run(ws, actions) && KernelRuns.Initial(ws[0])
    ensures |ws| == 9 && |ws[8].queues| == 2 && Requests(ws[8].queues[0], 0) == 2 && !Compression.AlwaysSingle(ws)
  {
    ws, actions := seq(9, i requires 0 <= i < 9 => Rejoined(i)), seq(8, i requires 0 <= i < 8 => RejoinedAction(i));
    forall i | 0 <= i < |actions| ensures KernelRuns.StepAt(ws, actions, i) {
      RejoinedStep(i);
    }
    TwoRequests(ws[8].queues[0]);
    assert !Compression.Single(ws[8].queues);
  }

  // ---- a second request while the first is being dispatched ----

  /** One object with an affinity; a filter that sees its deferred delete asks again and drains. */
  ghost function Nested(i: nat): World {
    if i == 0 then World(map[], map[], [], None, [], multiset{}, [], 0, 0)
    else if i == 1 then World(map[], map[], [[]], None, [], multiset{}, [], 0, 0)
    else if i == 2 then World(map[], map[], [[]], Some(0), [], multiset{}, [], 0, 0)
    else if i == 3 then World(OneObject(Some(0)), map[0 := []], [[]], Some(0), [], multiset{}, [], 1, 0)
    else if i == 4 then World(OneObject(Some(0)), map[0 := []], [[REQUEST]], Some(0), [], multiset{}, [], 1, 1)
    else if i == 5 then World(OneObject(Some(0)), map[0 := []], [[]], Some(0), [REQUEST], multiset{}, [], 1, 1)
    else if i == 6 then World(OneObject(Some(0)), map[0 := []], [[SECOND]], Some(0), [REQUEST], multiset{}, [], 1, 2)
    else if i == 7 then World(OneObject(Some(0)), map[0 := []], [[]], Some(0), [REQUEST, SECOND], multiset{}, [], 1, 2)
    else if i == 8 then World(map[], map[], [[]], Some(0), [REQUEST], multiset{1}, [0], 1, 2)
    else World(map[], map[], [[]], Some(0), [], multiset{0, 1}, [0, 0], 1, 2)
  }

  ghost function NestedAction(i: nat): Action {
    if i == 0 then NewLoop
    else if i == 1 then SwitchCurrent(Some(0))
    else if i == 2 then Create(None)
    else if i == 3 || i == 5 then DeleteLater(0)
    else if i == 4 || i == 6 then TakeEntry(0)
    else DispatchDelete
  }

  lemma {:induction false} NestedAsks(i: nat)
    requires i == 3 || i == 5
    ensures Step(Nested(i), DeleteLater(0), Nested(i + 1))
  {
    assert Inserted([], REQUEST) == [REQUEST] && Inserted([], SECOND) == [SECOND];
  }

  lemma {:induction false} NestedTakes(i: nat)
    requires i == 4 || i == 6
    ensures Step(Nested(i), TakeEntry(0), Nested(i + 1))
  {
    assert [REQUEST][1..] == [] && [SECOND][1..] == [] && [REQUEST] + [SECOND] == [REQUEST, SECOND];
  }

  lemma {:induction false} NestedDeletes()
    ensures Step(Nested(7), DispatchDelete, Nested(8))
  {
    var w, w' := Nested(7), Nested(8);
    var mid := w.(objs := map[], anc := map[], destroyed := [0]);
    assert Subtree(w.anc, 0) == {0};
    assert mid.destroyed[|w.destroyed|..] == [0];
    assert Deleted(w, Innermost(w).receiver, mid);
    assert [REQUEST, SECOND][..1] == [REQUEST];
    assert w' == FinishedFrom(w, mid);
  }

  lemma {:induction false} NestedDeletesAgain()
    ensures Step(Nested(8), DispatchDelete, Nested(9))
  {
    var w, w' := Nested(8), Nested(9);
    var mid := w.(destroyed := [0, 0]);
    assert w.destroyed + [0] == [0, 0];
    assert Deleted(w, Innermost(w).receiver, mid);
    assert w' == FinishedFrom(w, mid);
  }

  lemma {:induction false} NestedStep(i: nat)
    requires i < 9
    ensures Step(Nested(i), NestedAction(i), Nested(i + 1))
  {
    if i == 2 {
      FirstObject(Nested(2));
    } else if i == 3 || i == 5 {
      NestedAsks(i);
    } else if i == 4 || i == 6 {
      NestedTakes(i);
    } else if i == 7 {
      NestedDeletes();
    } else if i == 8 {
      NestedDeletesAgain();
    }
  }

  /** Even with affinities throughout, an object destroyed while its deferred delete is being dispatched is
      destroyed twice. */
  lemma {:induction false} DisturbedRun() returns (ws: seq<World>, actions: seq<Action>)
    ensures KernelRuns.Run(ws, actions) && KernelRuns.Initial(ws[0]) && KernelRuns.AffineDeletes(ws, actions)
    ensures !DestroyedOnce(ws[|ws| - 1]) && !KernelRuns.Undisturbed(ws, actions)
  {
    ws, actions := seq(10, i requires 0 <= i < 10 => Nested(i)), seq(9, i requires 0 <= i < 9 => NestedAction(i));
    forall i | 0 <= i < |actions| ensures KernelRuns.StepAt(ws, actions, i) {
      NestedStep(i);
    }
    assert ws[9].destroyed[0] == ws[9].destroyed[1];
    if KernelRuns.Undisturbed(ws, actions) {
      KernelRuns.RunDestroysOnce(ws, actions, 9);
    }
  }

  // ---- a child's destructor that posts to the dying parent ----

  ghost const LATE := Entry(0, 0, Ordinary, 0)

  ghost function Family(): Objects {
    map[0 := Obj(None, [1], [], [], Some(0)), 1 := Obj(Some(0), [], [], [], Some(0))]
  }

  /** A parent that is being destroyed: its purge is over when the destructor of its child posts to it. */
  ghost function Dying(i: nat): World {
    if i == 0 then World(map[], map[], [], None, [], multiset{}, [], 0, 0)
    else if i == 1 then World(map[], map[], [[]], None, [], multiset{}, [], 0, 0)
    else if i == 2 then World(map[], map[], [[]], Some(0), [], multiset{}, [], 0, 0)
    else if i == 3 then World(OneObject(Some(0)), map[0 := []], [[]], Some(0), [], multiset{}, [], 1, 0)
    else if i == 4 || i == 5 then World(Family(), map[0 := [], 1 := [0]], [[]], Some(0), [], multiset{}, [], 2, 0)
    else if i == 6 then World(Family(), map[0 := [], 1 := [0]], [[LATE]], Some(0), [], multiset{}, [], 2, 1)
    else World(OneObject(Some(0)), map[0 := []], [[LATE]], Some(0), [], multiset{}, [1], 2, 1)
  }

  ghost function DyingAction(i: nat): Action {
    if i == 0 then NewLoop
    else if i == 1 then SwitchCurrent(Some(0))
    else if i == 2 then Create(None)
    else if i == 3 then Create(Some(0))
    else if i == 4 then RemovePending(0)
    else if i == 5 then PostEvent(0, 0)
    else Delete(1)
  }

  ghost predicate DyingGoes(i: nat) {
    Step(Dying(i), DyingAction(i), Dying(i + 1))
  }

  lemma {:induction false} FamilyIsMade(objs: Objects, anc: Ancestry)
    requires objs == map[0 := Obj(None, [], [], [], Some(0)), 1 := Obj(None, [], [], [], Some(0))]
    requires anc == map[0 := [], 1 := []]
    ensures Reparented(objs, 1, Some(0)) == Family() && AncestorsAfter(objs, anc, 1, Some(0)) == map[0 := [], 1 := [0]]
  {
    var none: seq<ObjId> := [];
    assert none + [1] == [1] && [0] + none == [0] && none[..0] + [0] == [0];
    assert anc[0] == none && anc[1] == none && Subtree(anc, 1) == {1};
    assert Relinked(objs[0], 0, 1, None, Some(0)) == Family()[0];
    assert Relinked(objs[1], 1, 1, None, Some(0)) == Family()[1];
    assert Rehung(anc, 1, Some(0))[0] == none && Rehung(anc, 1, Some(0))[1] == [0];
  }

  lemma {:induction false} DyingAdopts()
    ensures DyingGoes(3)
  {
    var born := Born(Dying(3));
    FamilyIsMade(born.objs, born.anc);
  }

  lemma {:induction false} FamilyLosesChild(anc: Ancestry)
    requires anc == map[0 := [], 1 := [0]]
    ensures Subtree(anc, 1) == {1} && Without(anc, {1}) == map[0 := []]
    ensures Survivors(Family(), {1}) == OneObject(Some(0))
  {
    var none: seq<ObjId> := [];
    assert anc[0] == [] && anc[1] == [0];
    assert Minus([1], {1}) == none && Minus(none, {1}) == none;
    assert Pruned(Family()[0], {1}) == OneObject(Some(0))[0];
  }

  lemma {:induction false} DyingLosesChild()
    ensures DyingGoes(6)
  {
    var w, w' := Dying(6), Dying(7);
    FamilyLosesChild(w.anc);
    DropNone([LATE], Swept(w, {1}, 0));
    assert w'.destroyed[|w.destroyed|..] == [1];
    assert QueuesSwept(w, {1}, w'.queues);
  }

  lemma {:induction false} DyingPurges()
    ensures DyingGoes(4)
  {
    DropNone([], Swept(Dying(4), {0}, 0));
  }

  lemma {:induction false} DyingPosts()
    ensures DyingGoes(5)
  {
    assert Inserted([], LATE) == [LATE];
  }

  lemma {:induction false} DyingStarts()
    ensures DyingGoes(0) && DyingGoes(1) && DyingGoes(2)
  {
    assert Dying(0).queues + [[]] == [[]];
    FirstObject(Dying(2));
  }

  /** A run in which the purge of the parent reaches everything, and yet its queue names it when the cascade
      is over and only its own end is left. */
  lemma {:induction false} LatePostRun() returns (ws: seq<World>, actions: seq<Action>)
    ensures KernelRuns.Run(ws, actions) && KernelRuns.Initial(ws[0]) && |ws| == 8
    ensures AllReachable(ws[4], {0}) && actions[4] == RemovePending(0) && !Names(ws[5].queues, {0})
    ensures ws[7].destroyed == [1] && 0 in ws[7].objs && ws[7].objs[0].children == [] && Names(ws[7].queues, {0})
  {
    ws, actions := seq(8, i requires 0 <= i < 8 => Dying(i)), seq(7, i requires 0 <= i < 7 => DyingAction(i));
    DyingStarts();
    DyingAdopts();
    DyingPurges();
    DyingPosts();
    DyingLosesChild();
    forall i | 0 <= i < |actions| ensures KernelRuns.StepAt(ws, actions, i) {
      assert DyingGoes(i);
    }
    assert LATE in ws[7].queues[0];
  }

  // ---- migration and priorities ----

  ghost const HIGH := Entry(0, 0, Ordinary, 5)
  ghost const LOW := Entry(1, 1, Ordinary, 1)

  ghost function TwoObjects(first: LoopId): Objects {
    map[0 := Obj(None, [], [], [], Some(first)), 1 := Obj(None, [], [], [], Some(1))]
  }

  /** An object with an urgent event joins a loop on which a less urgent one waits. */
  ghost function Merge(i: nat): World {
    if i == 0 then World(map[], map[], [], None, [], multiset{}, [], 0, 0)
    else if i == 1 then World(map[], map[], [[]], None, [], multiset{}, [], 0, 0)
    else if i == 2 then World(map[], map[], [[], []], None, [], multiset{}, [], 0, 0)
    else if i == 3 then World(map[], map[], [[], []], Some(0), [], multiset{}, [], 0, 0)
    else if i == 4 then World(OneObject(Some(0)), map[0 := []], [[], []], Some(0), [], multiset{}, [], 1, 0)
    else if i == 5 then World(OneObject(Some(0)), map[0 := []], [[], []], Some(1), [], multiset{}, [], 1, 0)
    else if i == 6 then World(TwoObjects(0), map[0 := [], 1 := []], [[], []], Some(1), [], multiset{}, [], 2, 0)
    else if i == 7 then World(TwoObjects(0), map[0 := [], 1 := []], [[HIGH], []], Some(1), [], multiset{}, [], 2, 1)
    else if i == 8 then World(TwoObjects(0), map[0 := [], 1 := []], [[HIGH], [LOW]], Some(1), [], multiset{}, [], 2, 2)
    else World(TwoObjects(1), map[0 := [], 1 := []], [[], [LOW, HIGH]], Some(1), [], multiset{}, [], 2, 2)
  }

  ghost function MergeAction(i: nat): Action {
    if i < 2 then NewLoop
    else if i == 2 then SwitchCurrent(Some(0))
    else if i == 3 || i == 5 then Create(None)
    else if i == 4 then SwitchCurrent(Some(1))
    else if i == 6 then PostEvent(0, 5)
    else if i == 7 then PostEvent(1, 1)
    else MoveToLoop(0, Some(1))
  }

  lemma {:induction false} MergeCreates()
    ensures Step(Merge(5), Create(None), Merge(6))
  {
    var born := Born(Merge(5));
    assert born.objs == TwoObjects(0) && born.anc == map[0 := [], 1 := []];
    assert Reparented(born.objs, 1, None) == TwoObjects(0);
    assert AncestorsAfter(born.objs, born.anc, 1, None) == born.anc;
  }

  lemma {:induction false} MergePosts(i: nat)
    requires i == 6 || i == 7
    ensures Step(Merge(i), MergeAction(i), Merge(i + 1))
  {
    assert Inserted([], HIGH) == [HIGH] && Inserted([], LOW) == [LOW];
  }

  lemma {:induction false} MergeQueues(queues: seq<seq<Entry>>)
    requires queues == [[HIGH], [LOW]]
    ensures MoveOne(TwoObjects(0), queues, 0, Some(1)) == [[], [LOW, HIGH]]
    ensures MoveAll(TwoObjects(0), queues, [0], Some(1)) == [[], [LOW, HIGH]]
  {
    assert Drop(queues[0], {0}) == [] && Only(queues[0], 0) == [HIGH];
    var rest := queues[0 := []];
    assert rest[1] == [LOW] && [LOW] + [HIGH] == [LOW, HIGH];
    assert rest[1 := [LOW, HIGH]] == [[], [LOW, HIGH]];
    assert [0][1..] == [];
  }

  lemma {:induction false} MergeMoves(w: World, w': World)
    requires w.objs == TwoObjects(0) && w.anc == map[0 := [], 1 := []] && w.queues == [[HIGH], [LOW]]
    requires w' == w.(objs := TwoObjects(1), queues := [[], [LOW, HIGH]])
    ensures Step(w, MoveToLoop(0, Some(1)), w')
  {
    assert Migrated(w, [0], Some(1), w') by {
      MergeQueues(w.queues);
      assert Rebound(w.objs, [0], Some(1)) == w'.objs;
      MergeHeld(w, w');
    }
    assert [0] + [] == [0] && Breadth(w.objs, [0], 1, 1) == [0];
    assert BreadthFirst(w.objs, 0) == [0];
  }

  lemma {:induction false} MergeHeld(w: World, w': World)
    requires w.queues == [[HIGH], [LOW]] && w'.queues == [[], [LOW, HIGH]] && w'.freed == w.freed
    ensures Held(w') == Held(w)
  {
    MergeQueues(w.queues);
    MoveOneHeld(TwoObjects(0), w.queues, 0, Some(1));
  }

  lemma {:induction false} MergeStep(i: nat)
    requires i < 9
    ensures Step(Merge(i), MergeAction(i), Merge(i + 1))
  {
    if i == 3 {
      FirstObject(Merge(3));
    } else if i == 5 {
      MergeCreates();
    } else if i == 6 || i == 7 {
      MergePosts(i);
    } else if i == 8 {
      MergeMoves(Merge(8), Merge(9));
    }
  }

  /** A run whose migration leaves a queue that is not sorted by priority. */
  lemma {:induction false} UnsortingRun() returns (ws: seq<World>, actions: seq<Action>)
    ensures KernelRuns.Run(ws, actions) && KernelRuns.Initial(ws[0])
    ensures |ws| == 10 && |ws[8].queues| == 2 && Descending(ws[8].queues[0]) && Descending(ws[8].queues[1])
    ensures |ws[9].queues| == 2 && !Descending(ws[9].queues[1])
  {
    ws, actions := seq(10, i requires 0 <= i < 10 => Merge(i)), seq(9, i requires 0 <= i < 9 => MergeAction(i));
    forall i | 0 <= i < |actions| ensures KernelRuns.StepAt(ws, actions, i) {
      MergeStep(i);
    }
    var q := ws[9].queues[1];
    assert q[0].priority < q[1].priority;
  }

  /** What a move does to the order of the target: it stays sorted exactly when the target was sorted, the
      arriving batch is sorted, and the batch starts no higher than the target's tail. The batch is what
      waits for the objects of the subtree, taken breadth first. */
  lemma {:induction false} MoveSortsIff(w: World, o: ObjId, t: LoopId, w': World)
    requires Structured(w) && Step(w, MoveToLoop(o, Some(t)), w') && w.objs[o].loop != Some(t)
    ensures var q, batch := w.queues[t], Arriving(w.objs, w.queues, BreadthFirst(w.objs, o), t);
      && |w'.queues| == |w.queues| && w'.queues[t] == q + batch
      && (Descending(w'.queues[t]) <==>
           Descending(q) && Descending(batch) && (q == [] || batch == [] || q[|q| - 1].priority >= batch[0].priority))
  {
    var moved := BreadthFirst(w.objs, o);
    BreadthFirstListsSubtree(w.objs, w.anc, o);
    MoveAllAtTarget(w.objs, w.queues, moved, t);
    AppendKeepsOrder(w.queues[t], Arriving(w.objs, w.queues, moved, t));
  }
}
