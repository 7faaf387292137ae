/** Emission as a state machine. An emission copies the slot list handle and then walks its snapshot
    outside the lock, so between any two of its steps slots, or other threads, may connect, disconnect,
    block, or start further emissions. */
module Emission {
  import opened SlotList
  import CopyOnWrite

  type EmissionId = nat

  /** Passed: the liveness check of the slot succeeded, its callable has not started. */
  datatype Phase = Idle | Passed(slot: SlotId) | Running

  /** An emission under way: the part of its snapshot still to be visited. */
  datatype Frame = Frame(todo: seq<SlotId>, phase: Phase)

  datatype State = State(
    groups: seq<Group>,
    slots: Slots,
    block: bool,
    once: set<SlotId>,
    frames: map<EmissionId, Frame>,
    nextEmission: EmissionId,
    fired: multiset<SlotId>)

  datatype Action =
    | Connect(s: SlotId, gid: GroupId, once: bool)
    | Disconnect(s: SlotId)
    | SetBlocked(s: SlotId, b: bool)
    | Unlist(groups: seq<Group>, slots: Slots)
    | BlockSignal(b: bool)
    | Emit(e: EmissionId)
    | Reach(e: EmissionId)
    | Call(e: EmissionId)
    | Return(e: EmissionId)
    | Finish(e: EmissionId)

  /** Unlist stands for clean, disconnect_if, disconnect(gid) and disconnect_all: slots leave the list,
      stored positions are adjusted, flags stay. */
  ghost predicate Enabled(st: State, a: Action) {
    match a
    case Connect(s, _, _) => s !in st.slots
    case Disconnect(s) => s in st.slots
    case SetBlocked(s, _) => s in st.slots
    case Unlist(groups, slots) =>
      && WellListed(groups, slots) && SameFlags(st.slots, slots)
      && forall x :: x in Order(groups) ==> x in Order(st.groups)
    case BlockSignal(_) => true
    case Emit(e) => e == st.nextEmission
    case Reach(e) => e in st.frames && st.frames[e].phase.Idle? && st.frames[e].todo != []
    case Call(e) => e in st.frames && st.frames[e].phase.Passed? && st.frames[e].phase.slot in st.slots
    case Return(e) => e in st.frames && st.frames[e].phase.Running?
    case Finish(e) => e in st.frames && st.frames[e].phase.Idle? && st.frames[e].todo == []
  }

  function Unplugged(slots: Slots, s: SlotId): Slots
    requires s in slots
  {
    slots[s := slots[s].(connected := false)]
  }

  ghost function Step(st: State, a: Action): State
    requires Enabled(st, a)
  {
    match a
    case Connect(s, gid, once) =>
      st.(groups := Added(st.groups, s, gid),
          slots := st.slots[s := Slot(gid, Room(st.groups, gid), true, false)],
          once := if once then st.once + {s} else st.once)
    case Disconnect(s) => st.(slots := Unplugged(st.slots, s))
    case SetBlocked(s, b) => st.(slots := st.slots[s := st.slots[s].(blocked := b)])
    case Unlist(groups, slots) => st.(groups := groups, slots := slots)
    case BlockSignal(b) => st.(block := b)
    case Emit(e) =>
      st.(frames := if st.block then st.frames else st.frames[e := Frame(Order(st.groups), Idle)],
          nextEmission := e + 1)
    case Reach(e) =>
      var s := st.frames[e].todo[0];
      st.(frames := st.frames[e := Frame(st.frames[e].todo[1..], if Live(st.slots, s) then Passed(s) else Idle)])
    case Call(e) =>
      // a connect_once wrapper disconnects itself before it runs the callable
      var s := st.frames[e].phase.slot;
      st.(frames := st.frames[e := st.frames[e].(phase := Running)],
          slots := if s in st.once then Unplugged(st.slots, s) else st.slots,
          fired := st.fired + multiset{s})
    case Return(e) => st.(frames := st.frames[e := st.frames[e].(phase := Idle)])
    case Finish(e) => st.(frames := map k | k in st.frames && k != e :: st.frames[k])
  }

  ghost predicate CanRun(st: State, acts: seq<Action>)
    decreases |acts|
  {
    acts != [] ==> Enabled(st, acts[0]) && CanRun(Step(st, acts[0]), acts[1..])
  }

  ghost function Run(st: State, acts: seq<Action>): State
    requires CanRun(st, acts)
    decreases |acts|
  {
    if acts == [] then st else Run(Step(st, acts[0]), acts[1..])
  }

  ghost predicate Initial(st: State) {
    st == State([], map[], false, {}, map[], 0, multiset{})
  }

  // ---- the list stays well formed through every run ----

  ghost predicate Sound(st: State) {
    && WellListed(st.groups, st.slots)
    && (forall s :: s in st.once ==> OnceSlot(st, s))
    && (forall e :: e in st.frames ==> FrameOf(st, e))
  }

  ghost predicate FrameOf(st: State, e: EmissionId) {
    e in st.frames ==>
      && e < st.nextEmission
      && (forall i :: 0 <= i < |st.frames[e].todo| ==> st.frames[e].todo[i] in st.slots)
      && (st.frames[e].phase.Passed? ==> st.frames[e].phase.slot in st.slots)
  }

  /** A connect_once callable that has run is no longer connected. */
  ghost predicate OnceSlot(st: State, s: SlotId) {
    s in st.slots && (st.slots[s].connected ==> st.fired[s] == 0)
  }

  lemma {:induction false} StepKeepsList(st: State, a: Action)
    requires WellListed(st.groups, st.slots) && Enabled(st, a)
    ensures WellListed(Step(st, a).groups, Step(st, a).slots)
  {
    match a {
      case Connect(s, gid, _) =>
        AddedAscending(st.groups, s, gid);
        AddedIndexed(st.groups, st.slots, s, gid, Slot(gid, Room(st.groups, gid), true, false));
      case Disconnect(s) => FlagsKeepIndex(st.groups, st.slots, s, st.slots[s].(connected := false));
      case SetBlocked(s, b) => FlagsKeepIndex(st.groups, st.slots, s, st.slots[s].(blocked := b));
      case Call(e) =>
        var s := st.frames[e].phase.slot;
        FlagsKeepIndex(st.groups, st.slots, s, st.slots[s].(connected := false));
      case _ =>
    }
  }

  lemma {:induction false} StepKeepsFrame(st: State, a: Action, e: EmissionId)
    requires WellListed(st.groups, st.slots) && Enabled(st, a) && FrameOf(st, e)
    ensures FrameOf(Step(st, a), e)
  {
    if a == Emit(e) {
      var order := Order(st.groups);
      forall i | 0 <= i < |order| ensures order[i] in st.slots {
        ListedIsKnown(st.groups, st.slots, order[i]);
      }
    }
  }

  lemma {:induction false} StepKeepsOnce(st: State, a: Action, s: SlotId)
    requires Enabled(st, a) && (s in st.once ==> OnceSlot(st, s))
    requires s !in st.slots ==> st.fired[s] == 0
    ensures s in Step(st, a).once ==> OnceSlot(Step(st, a), s)
    ensures s !in Step(st, a).slots ==> Step(st, a).fired[s] == 0
  {
  }

  /** Nothing but the slots a state knows has run in it. */
  ghost predicate Known(st: State) {
    forall s :: s !in st.slots ==> st.fired[s] == 0
  }

  lemma {:induction false} RunIsSound(st: State, acts: seq<Action>)
    requires Sound(st) && Known(st) && CanRun(st, acts)
    ensures Sound(Run(st, acts)) && Known(Run(st, acts))
    decreases |acts|
  {
    if acts == [] {
    } else {
      var a := acts[0];
      StepKeepsList(st, a);
      forall e | e in Step(st, a).frames ensures FrameOf(Step(st, a), e) {
        StepKeepsFrame(st, a, e);
      }
      forall s: SlotId
        ensures s in Step(st, a).once ==> OnceSlot(Step(st, a), s)
        ensures s !in Step(st, a).slots ==> Step(st, a).fired[s] == 0
      {
        StepKeepsOnce(st, a, s);
      }
      RunIsSound(Step(st, a), acts[1..]);
    }
  }

  // ---- what one emission calls ----

  /** The callables emission `e` starts during the run, in order. */
  ghost function Calls(st: State, acts: seq<Action>, e: EmissionId): seq<SlotId>
    requires CanRun(st, acts)
    decreases |acts|
  {
    if acts == [] then []
    else (if acts[0] == Call(e) then [st.frames[e].phase.slot] else []) + Calls(Step(st, acts[0]), acts[1..], e)
  }

  /** The specification: walk `todo`, one slot for each time `e` moves on, and keep the slot if it is
      connected and unblocked at that very moment. */
  ghost function LiveWhenReached(st: State, acts: seq<Action>, e: EmissionId, todo: seq<SlotId>): seq<SlotId>
    requires CanRun(st, acts)
    decreases |acts|
  {
    if acts == [] || todo == [] then []
    else
      var after := Step(st, acts[0]);
      if acts[0] != Reach(e) then LiveWhenReached(after, acts[1..], e, todo)
      else (if Live(st.slots, todo[0]) then [todo[0]] else []) + LiveWhenReached(after, acts[1..], e, todo[1..])
  }

  /** How often `e` moves on to a next slot. */
  function Moves(acts: seq<Action>, e: EmissionId): nat {
    if acts == [] then 0 else (if acts[0] == Reach(e) then 1 else 0) + Moves(acts[1..], e)
  }

  /** A finished emission takes no further step. */
  lemma {:induction false} FinishedIsSilent(st: State, acts: seq<Action>, e: EmissionId)
    requires CanRun(st, acts) && e !in st.frames && e < st.nextEmission
    ensures Calls(st, acts, e) == [] && Moves(acts, e) == 0
    decreases |acts|
  {
    if acts == [] {
    } else {
      FinishedIsSilent(Step(st, acts[0]), acts[1..], e);
    }
  }

  ghost function Due(f: Frame): seq<SlotId> {
    if f.phase.Passed? then [f.phase.slot] else []
  }

  lemma {:induction false} EmissionStep(st: State, a: Action, e: EmissionId)
    requires Enabled(st, a) && e in st.frames && e != st.nextEmission && a != Finish(e)
    ensures e in Step(st, a).frames
    ensures Step(st, a).frames[e] ==
      if a == Reach(e) then
        Frame(st.frames[e].todo[1..], if Live(st.slots, st.frames[e].todo[0]) then Passed(st.frames[e].todo[0]) else Idle)
      else if a == Call(e) then Frame(st.frames[e].todo, Running)
      else if a == Return(e) then Frame(st.frames[e].todo, Idle)
      else st.frames[e]
  {
  }

  /** From any moment of an emission to its end. */
  lemma {:induction false} RestOfEmission(st: State, acts: seq<Action>, e: EmissionId)
    requires CanRun(st, acts) && e in st.frames && e < st.nextEmission && e !in Run(st, acts).frames
    ensures Calls(st, acts, e) == Due(st.frames[e]) + LiveWhenReached(st, acts, e, st.frames[e].todo)
    ensures Moves(acts, e) == |st.frames[e].todo|
    decreases |acts|
  {
    if acts[0] == Finish(e) {
      FinishedIsSilent(Step(st, acts[0]), acts[1..], e);
    } else {
      EmissionStep(st, acts[0], e);
      RestOfEmission(Step(st, acts[0]), acts[1..], e);
      var f, g := st.frames[e], Step(st, acts[0]).frames[e];
      if acts[0] == Reach(e) {
        assert Due(f) == [] && Due(g) == if Live(st.slots, f.todo[0]) then [f.todo[0]] else [];
      } else if acts[0] == Call(e) {
        assert Due(g) == [] && g.todo == f.todo;
      } else {
        assert Due(g) == Due(f) && g.todo == f.todo;
      }
    }
  }

  /** Whatever runs meanwhile, an emission of an unblocked signal visits exactly the slots listed at its
      start, each once and in that order, and calls exactly those live when it reaches them; an emission
      of a blocked signal calls nothing. */
  lemma {:induction false} EmissionIsExact(st: State, acts: seq<Action>, e: EmissionId)
    requires CanRun(st, acts) && acts != [] && acts[0] == Emit(e) && e !in st.frames && e !in Run(st, acts).frames
    ensures Calls(st, acts, e) == if st.block then [] else LiveWhenReached(st, acts, e, Order(st.groups))
    ensures Moves(acts, e) == if st.block then 0 else |Order(st.groups)|
  {
    if st.block {
      FinishedIsSilent(Step(st, acts[0]), acts[1..], e);
    } else {
      RestOfEmission(Step(st, acts[0]), acts[1..], e);
    }
  }

  ghost predicate InOrder(slots: Slots, s: seq<SlotId>) {
    && (forall i :: 0 <= i < |s| ==> s[i] in slots)
    && forall i, j :: 0 <= i < j < |s| && s[i] in slots && s[j] in slots ==>
         slots[s[i]].group <= slots[s[j]].group && s[i] != s[j]
  }

  lemma {:induction false} KeepsInOrder(slots: Slots, st: State, acts: seq<Action>, e: EmissionId, todo: seq<SlotId>)
    requires CanRun(st, acts) && InOrder(slots, todo)
    ensures InOrder(slots, LiveWhenReached(st, acts, e, todo))
    ensures forall x :: x in LiveWhenReached(st, acts, e, todo) ==> x in todo
    decreases |acts|
  {
    if acts != [] && todo != [] {
      var after := Step(st, acts[0]);
      if acts[0] == Reach(e) {
        KeepsInOrder(slots, after, acts[1..], e, todo[1..]);
        var rest := LiveWhenReached(after, acts[1..], e, todo[1..]);
        forall i | 0 <= i < |rest| ensures slots[todo[0]].group <= slots[rest[i]].group && rest[i] != todo[0] {
          assert rest[i] in todo[1..];
          var j :| 0 <= j < |todo| - 1 && todo[1..][j] == rest[i];
          assert todo[j + 1] == rest[i];
        }
      } else {
        KeepsInOrder(slots, after, acts[1..], e, todo);
      }
    }
  }

  /** The calls of an emission ascend in groups, none is repeated, and none goes to a slot connected after
      the emission started. */
  lemma {:induction false} EmissionIsOrdered(st: State, acts: seq<Action>, e: EmissionId)
    requires WellListed(st.groups, st.slots)
    requires CanRun(st, acts) && acts != [] && acts[0] == Emit(e) && e !in st.frames && e !in Run(st, acts).frames
    ensures InOrder(st.slots, Calls(st, acts, e))
    ensures forall x :: x in Calls(st, acts, e) ==> Listed(st.groups, x)
  {
    EmissionIsExact(st, acts, e);
    OrderIsInOrder(st.groups, st.slots);
    KeepsInOrder(st.slots, st, acts, e, Order(st.groups));
    forall x | x in Calls(st, acts, e) ensures Listed(st.groups, x) {
      OrderMembers(st.groups, x);
    }
  }

  lemma {:induction false} OrderIsInOrder(groups: seq<Group>, slots: Slots)
    requires WellListed(groups, slots)
    ensures InOrder(slots, Order(groups))
  {
    OrderIsAscending(groups, slots);
    var order := Order(groups);
    forall i | 0 <= i < |order| ensures order[i] in slots {
      ListedIsKnown(groups, slots, order[i]);
    }
  }

  // ---- connect_once ----

  /** The emissions that found the slot live and have not started its callable yet. */
  ghost function PassedOn(st: State, s: SlotId): set<EmissionId> {
    set e | e in st.frames && st.frames[e].phase == Passed(s)
  }

  lemma {:induction false} UnpluggedStays(st: State, a: Action, s: SlotId)
    requires Enabled(st, a) && s in st.slots && !st.slots[s].connected
    ensures s in Step(st, a).slots && !Step(st, a).slots[s].connected
  {
  }

  /** Calling is the only way to leave the gap between check and callable, and a slot that is not connected
      lets no emission enter it. */
  lemma {:induction false} PassedAfter(st: State, a: Action, s: SlotId)
    requires Enabled(st, a) && st.nextEmission !in st.frames
    requires a.Reach? ==> !(st.frames[a.e].todo[0] == s && Live(st.slots, s))
    ensures PassedOn(Step(st, a), s) == if a.Call? then PassedOn(st, s) - {a.e} else PassedOn(st, s)
  {
    var after := Step(st, a);
    forall e: EmissionId ensures e in PassedOn(after, s) <==> e in PassedOn(st, s) && !(a == Call(e)) {
      if e in st.frames && a != Finish(e) {
        EmissionStep(st, a, e);
      }
    }
  }

  lemma {:induction false} UnpluggedStep(st: State, a: Action, s: SlotId)
    requires Enabled(st, a) && st.nextEmission !in st.frames
    requires s in st.slots && !st.slots[s].connected
    ensures Step(st, a).fired[s] + |PassedOn(Step(st, a), s)| == st.fired[s] + |PassedOn(st, s)|
  {
    PassedAfter(st, a, s);
    if a.Call? {
      if st.frames[a.e].phase.slot == s {
        assert a.e in PassedOn(st, s);
      } else {
        assert a.e !in PassedOn(st, s);
      }
    }
  }

  lemma {:induction false} UnpluggedRun(st: State, acts: seq<Action>, s: SlotId)
    requires CanRun(st, acts) && (forall e :: e in st.frames ==> e < st.nextEmission)
    requires s in st.slots && !st.slots[s].connected
    ensures Run(st, acts).fired[s] + |PassedOn(Run(st, acts), s)| == st.fired[s] + |PassedOn(st, s)|
    decreases |acts|
  {
    if acts == [] {
    } else {
      UnpluggedStays(st, acts[0], s);
      UnpluggedStep(st, acts[0], s);
      UnpluggedRun(Step(st, acts[0]), acts[1..], s);
    }
  }

  /** A connect_once callable runs exactly once for every emission that had passed its liveness check when
      it was disconnected, be it by its own first call or by its connection. */
  lemma {:induction false} OnceRunsForEachPassed(st: State, acts: seq<Action>, s: SlotId)
    requires Sound(st) && CanRun(st, acts) && acts != []
    requires s in st.once && s in st.slots && st.slots[s].connected
    requires s in Step(st, acts[0]).slots && !Step(st, acts[0]).slots[s].connected
    requires PassedOn(Run(st, acts), s) == {}
    ensures Run(st, acts).fired[s] == |PassedOn(st, s)|
  {
    assert OnceSlot(st, s);
    forall e | e in st.frames ensures e < st.nextEmission {
      assert FrameOf(st, e);
    }
    var a := acts[0];
    UnpluggedBy(st, a, s);
    PassedAfter(st, a, s);
    UnpluggedRun(Step(st, a), acts[1..], s);
    if a.Call? {
      assert a.e in PassedOn(st, s);
    }
  }

  lemma {:induction false} UnpluggedBy(st: State, a: Action, s: SlotId)
    requires Enabled(st, a) && s in st.slots && st.slots[s].connected
    requires s in Step(st, a).slots && !Step(st, a).slots[s].connected
    ensures a == Disconnect(s) || (a.Call? && st.frames[a.e].phase.slot == s)
  {
  }

  /** Single-threaded running: nothing comes between a successful check and the callable. */
  ghost predicate Serial(st: State, acts: seq<Action>)
    requires CanRun(st, acts)
    decreases |acts|
  {
    acts != [] ==>
      && (forall e :: e in st.frames && st.frames[e].phase.Passed? ==> acts[0] == Call(e))
      && Serial(Step(st, acts[0]), acts[1..])
  }

  ghost predicate Guarded(st: State) {
    && (forall e :: e in st.frames && st.frames[e].phase.Passed? ==> Checked(st, st.frames[e].phase.slot))
    && forall s :: s in st.once ==> st.fired[s] <= 1
  }

  ghost predicate Checked(st: State, s: SlotId) {
    s in st.slots && st.slots[s].connected
  }

  lemma {:induction false} SerialStep(st: State, a: Action)
    requires Enabled(st, a) && Guarded(st) && Known(st)
    requires forall s :: s in st.once ==> OnceSlot(st, s)
    requires forall e :: e in st.frames && st.frames[e].phase.Passed? ==> a == Call(e)
    ensures Guarded(Step(st, a))
  {
    var after := Step(st, a);
    forall e | e in after.frames && after.frames[e].phase.Passed? ensures Checked(after, after.frames[e].phase.slot) {
      if a == Reach(e) {
        assert Live(st.slots, after.frames[e].phase.slot);
      }
    }
    forall s | s in after.once ensures after.fired[s] <= 1 {
      if a.Call? && st.frames[a.e].phase.slot == s {
        assert Checked(st, s);
      }
    }
  }

  lemma {:induction false} SerialRunFiresOnce(st: State, acts: seq<Action>)
    requires Sound(st) && Known(st) && Guarded(st) && CanRun(st, acts) && Serial(st, acts)
    ensures forall s :: s in Run(st, acts).once ==> Run(st, acts).fired[s] <= 1
    decreases |acts|
  {
    if acts == [] {
    } else {
      SerialStep(st, acts[0]);
      RunIsSound(st, [acts[0]]);
      assert Run(st, [acts[0]]) == Step(st, acts[0]);
      SerialRunFiresOnce(Step(st, acts[0]), acts[1..]);
    }
  }

  lemma {:induction false} InitiallySound(st: State)
    requires Initial(st)
    ensures Sound(st) && Known(st) && Guarded(st)
  {
  }

  /** In every single-threaded run, re-entrant or not, a connect_once callable runs at most once. */
  lemma {:induction false} OnceRunsAtMostOnce(st: State, acts: seq<Action>)
    requires Initial(st) && CanRun(st, acts) && Serial(st, acts)
    ensures forall s :: s in Run(st, acts).once ==> Run(st, acts).fired[s] <= 1
  {
    InitiallySound(st);
    SerialRunFiresOnce(st, acts);
  }

  lemma {:induction false} RunCons(st: State, a: Action, acts: seq<Action>)
    requires Enabled(st, a) && CanRun(Step(st, a), acts)
    ensures CanRun(st, [a] + acts) && Run(st, [a] + acts) == Run(Step(st, a), acts)
  {
    assert ([a] + acts)[1..] == acts;
  }

  /** One connect_once slot, two emissions under way that have it still to visit. */
  ghost function TwoEmissions(): State {
    State([Group(0, [0])], map[0 := Slot(0, 0, true, false)], false, {0},
          map[0 := Frame([0], Idle), 1 := Frame([0], Idle)], 2, multiset{})
  }

  lemma {:induction false} TwoEmissionsReachable() returns (st: State, acts: seq<Action>)
    ensures Initial(st) && CanRun(st, acts) && Run(st, acts) == TwoEmissions()
  {
    st := State([], map[], false, {}, map[], 0, multiset{});
    var s1 := Step(st, Connect(0, 0, true));
    assert s1.groups == [Group(0, [0])] && s1.groups[1..] == [] && Order(s1.groups) == [0];
    var s2 := Step(s1, Emit(0));
    RunCons(s2, Emit(1), []);
    RunCons(s1, Emit(0), [Emit(1)] + []);
    acts := [Emit(0)] + ([Emit(1)] + []);
    RunCons(st, Connect(0, 0, true), acts);
    acts := [Connect(0, 0, true)] + acts;
  }

  lemma {:induction false} RunConcat(st: State, a: seq<Action>, b: seq<Action>)
    requires CanRun(st, a) && CanRun(Run(st, a), b)
    ensures CanRun(st, a + b) && Run(st, a + b) == Run(Run(st, a), b)
    decreases |a|
  {
    if a == [] {
      assert a + b == b;
    } else {
      RunConcat(Step(st, a[0]), a[1..], b);
      RunCons(st, a[0], a[1..] + b);
      assert a + b == [a[0]] + (a[1..] + b);
    }
  }

  /** Both have passed its check. */
  ghost function BothPassed(): State {
    TwoEmissions().(frames := map[0 := Frame([], Passed(0)), 1 := Frame([], Passed(0))])
  }

  lemma {:induction false} BothReach() returns (acts: seq<Action>)
    ensures CanRun(TwoEmissions(), acts) && Run(TwoEmissions(), acts) == BothPassed()
  {
    var s1 := TwoEmissions();
    var s2 := Step(s1, Reach(0));
    var s3 := Step(s2, Reach(1));
    assert [0][1..] == [] && s3.frames == BothPassed().frames;
    RunCons(s2, Reach(1), []);
    acts := [Reach(1)] + [];
    RunCons(s1, Reach(0), acts);
    acts := [Reach(0)] + acts;
    assert Run(s3, []) == s3;
  }

  lemma {:induction false} BothFire() returns (acts: seq<Action>)
    ensures CanRun(BothPassed(), acts) && 0 in Run(BothPassed(), acts).once && Run(BothPassed(), acts).fired[0] == 2
  {
    var s1 := BothPassed();
    var s2 := Step(s1, Call(0));
    var s3 := Step(s2, Call(1));
    RunCons(s2, Call(1), []);
    acts := [Call(1)] + [];
    RunCons(s1, Call(0), acts);
    acts := [Call(0)] + acts;
    assert Run(s3, []) == s3;
  }

  /** With two threads it may run twice: both pass the check before either call disconnects the slot. */
  lemma {:induction false} OnceMayRunTwice() returns (st: State, acts: seq<Action>)
    ensures Initial(st) && CanRun(st, acts) && 0 in Run(st, acts).once && Run(st, acts).fired[0] == 2
  {
    var first, second, third;
    st, first := TwoEmissionsReachable();
    second := BothReach();
    third := BothFire();
    RunConcat(st, first, second);
    RunConcat(st, first + second, third);
    acts := first + second + third;
  }

  // ---- how the steps stand for the code ----

  ghost predicate Shrunk(before: seq<Group>, after: seq<Group>) {
    && |after| == |before|
    && forall g, x :: 0 <= g < |before| && x in after[g].slots ==> x in before[g].slots
  }

  /** What clean, disconnect_if and disconnect(gid) leave behind is an Unlist step, and so is an empty list. */
  lemma {:induction false} RemovalIsUnlist(st: State, groups: seq<Group>, slots: Slots)
    requires WellListed(groups, slots) && SameFlags(st.slots, slots) && (Shrunk(st.groups, groups) || groups == [])
    ensures Enabled(st, Unlist(groups, slots))
  {
    forall x | x in Order(groups) ensures x in Order(st.groups) {
      OrderMembers(groups, x);
      var g :| 0 <= g < |groups| && x in groups[g].slots;
      assert Listed(st.groups, x);
      OrderMembers(st.groups, x);
    }
  }

  lemma {:induction false} TakenOffIsUnlist(st: State, groups: seq<Group>, slots: Slots, gone: SlotId -> bool)
    requires WellListed(groups, slots) && SameFlags(st.slots, slots) && TakenOff(st.groups, groups, gone)
    ensures Enabled(st, Unlist(groups, slots))
  {
    forall g, x | 0 <= g < |st.groups| && x in groups[g].slots ensures x in st.groups[g].slots {
      assert GroupTakenOff(st.groups[g], groups[g], gone);
    }
    RemovalIsUnlist(st, groups, slots);
  }

  /** The snapshot of an emission is a copy of the signal's handle: whatever is done to the signal and to
      other snapshots afterwards, it reads the list of the moment the emission started. */
  lemma {:induction false} SnapshotIsListAtStart(vars: CopyOnWrite.Variables<seq<Group>>, signal: CopyOnWrite.HandleId,
                                                 h: CopyOnWrite.HandleId, ops: seq<CopyOnWrite.Op<seq<Group>>>)
    requires CopyOnWrite.Allowed(vars, [CopyOnWrite.CopyFrom(h, signal)] + ops)
    requires forall i :: 0 <= i < |ops| ==> !CopyOnWrite.Touches(ops[i], h)
    ensures signal in vars && h in CopyOnWrite.Outcome(vars, [CopyOnWrite.CopyFrom(h, signal)] + ops)
    ensures CopyOnWrite.Outcome(vars, [CopyOnWrite.CopyFrom(h, signal)] + ops)[h] == vars[signal]
  {
    var all := [CopyOnWrite.CopyFrom(h, signal)] + ops;
    assert all[0] == CopyOnWrite.CopyFrom(h, signal) && all[1..] == ops;
    CopyOnWrite.HeldSnapshotIsStable(CopyOnWrite.After(vars, all[0]), ops, h);
  }
}
