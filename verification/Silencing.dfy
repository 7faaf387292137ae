/** What disconnecting, blocking and connecting a slot mean for the emissions that follow. */
module Silencing {
  import opened SlotList
  import opened Emission

  /** The slot stays silent whatever `acts` do: it is disconnected, which is for good, or blocked and never
      unblocked. */
  ghost predicate StaysSilent(st: State, acts: seq<Action>, s: SlotId) {
    && s in st.slots && !Live(st.slots, s)
    && (st.slots[s].connected ==> forall i :: 0 <= i < |acts| ==> acts[i] != SetBlocked(s, false))
  }

  lemma {:induction false} SilentStep(st: State, acts: seq<Action>, s: SlotId)
    requires acts != [] && Enabled(st, acts[0]) && StaysSilent(st, acts, s)
    ensures StaysSilent(Step(st, acts[0]), acts[1..], s)
  {
    if st.slots[s].connected {
      assert acts[0] != SetBlocked(s, false);
      forall i | 0 <= i < |acts[1..]| ensures acts[1..][i] != SetBlocked(s, false) {
        assert acts[i + 1] == acts[1..][i];
      }
    }
  }

  lemma {:induction false} FramesKnown(st: State, a: Action)
    requires Enabled(st, a) && forall e :: e in st.frames ==> e < st.nextEmission
    ensures forall e :: e in Step(st, a).frames ==> e < Step(st, a).nextEmission
  {
  }

  /** A silent slot is called by no emission but those already past its check, and by these once. */
  lemma {:induction false} SilentIsNotCalled(st: State, acts: seq<Action>, e: EmissionId, s: SlotId)
    requires CanRun(st, acts) && StaysSilent(st, acts, s) && (forall k :: k in st.frames ==> k < st.nextEmission)
    ensures multiset(Calls(st, acts, e))[s] <= if e in PassedOn(st, s) then 1 else 0
    decreases |acts|
  {
    if acts == [] {
    } else {
      var a := acts[0];
      SilentStep(st, acts, s);
      FramesKnown(st, a);
      PassedAfter(st, a, s);
      SilentIsNotCalled(Step(st, a), acts[1..], e, s);
      var first := if a == Call(e) then [st.frames[e].phase.slot] else [];
      assert multiset(first + Calls(Step(st, a), acts[1..], e)) == multiset(first) + multiset(Calls(Step(st, a), acts[1..], e));
    }
  }

  lemma {:induction false} NoCall(calls: seq<SlotId>, s: SlotId)
    requires multiset(calls)[s] <= 0
    ensures s !in calls
  {
    assert s in calls <==> s in multiset(calls);
  }

  /** Once a slot is disconnected, no emission calls it, whether it began before or begins later, unless it
      had passed the slot's check by then. */
  lemma {:induction false} DisconnectedIsSkipped(st: State, acts: seq<Action>, e: EmissionId, s: SlotId)
    requires Sound(st) && CanRun(st, acts) && acts != [] && acts[0] == Disconnect(s) && e !in PassedOn(st, s)
    ensures s !in Calls(st, acts, e)
  {
    forall k | k in st.frames ensures k < st.nextEmission {
      assert FrameOf(st, k);
    }
    SilentIsNotCalled(Step(st, acts[0]), acts[1..], e, s);
    NoCall(Calls(st, acts, e), s);
  }

  /** The same for a blocked slot, until it is unblocked. */
  lemma {:induction false} BlockedIsSkipped(st: State, acts: seq<Action>, e: EmissionId, s: SlotId)
    requires Sound(st) && CanRun(st, acts) && acts != [] && acts[0] == SetBlocked(s, true) && e !in PassedOn(st, s)
    requires forall i :: 0 <= i < |acts| ==> acts[i] != SetBlocked(s, false)
    ensures s !in Calls(st, acts, e)
  {
    forall k | k in st.frames ensures k < st.nextEmission {
      assert FrameOf(st, k);
    }
    forall i | 0 <= i < |acts[1..]| ensures acts[1..][i] != SetBlocked(s, false) {
      assert acts[i + 1] == acts[1..][i];
    }
    SilentIsNotCalled(Step(st, acts[0]), acts[1..], e, s);
    NoCall(Calls(st, acts, e), s);
  }

  // ---- a blocked signal ----

  lemma {:induction false} NeverStarted(st: State, acts: seq<Action>, e: EmissionId)
    requires CanRun(st, acts) && st.block && e !in st.frames
    requires forall i :: 0 <= i < |acts| ==> acts[i] != BlockSignal(false)
    ensures Calls(st, acts, e) == []
    decreases |acts|
  {
    if acts == [] {
    } else {
      assert acts[0] != BlockSignal(false);
      forall i | 0 <= i < |acts[1..]| ensures acts[1..][i] != BlockSignal(false) {
        assert acts[i + 1] == acts[1..][i];
      }
      NeverStarted(Step(st, acts[0]), acts[1..], e);
    }
  }

  /** Once the signal is blocked, and until it is unblocked, the emissions that begin call nothing. */
  lemma {:induction false} BlockedSignalIsSilent(st: State, acts: seq<Action>, e: EmissionId)
    requires CanRun(st, acts) && acts != [] && acts[0] == BlockSignal(true) && e !in st.frames
    requires forall i :: 0 <= i < |acts| ==> acts[i] != BlockSignal(false)
    ensures Calls(st, acts, e) == []
  {
    forall i | 0 <= i < |acts[1..]| ensures acts[1..][i] != BlockSignal(false) {
      assert acts[i + 1] == acts[1..][i];
    }
    NeverStarted(Step(st, acts[0]), acts[1..], e);
  }

  // ---- the other direction ----

  /** Nothing in `acts` disconnects or blocks the slot. */
  ghost predicate Undisturbed(acts: seq<Action>, s: SlotId) {
    forall i :: 0 <= i < |acts| ==> acts[i] != Disconnect(s) && acts[i] != SetBlocked(s, true)
  }

  lemma {:induction false} UndisturbedRest(acts: seq<Action>, s: SlotId)
    requires acts != [] && Undisturbed(acts, s)
    ensures Undisturbed(acts[1..], s) && acts[0] != Disconnect(s) && acts[0] != SetBlocked(s, true)
  {
    forall i | 0 <= i < |acts[1..]| ensures acts[1..][i] != Disconnect(s) && acts[1..][i] != SetBlocked(s, true) {
      assert acts[i + 1] == acts[1..][i];
    }
  }

  lemma {:induction false} LiveStep(st: State, a: Action, s: SlotId)
    requires Enabled(st, a) && Live(st.slots, s) && s !in st.once && a != Disconnect(s) && a != SetBlocked(s, true)
    ensures Live(Step(st, a).slots, s) && s !in Step(st, a).once
  {
  }

  lemma {:induction false} LiveIsKept(st: State, acts: seq<Action>, e: EmissionId, todo: seq<SlotId>, s: SlotId)
    requires CanRun(st, acts) && Live(st.slots, s) && s !in st.once && Undisturbed(acts, s)
    requires s in todo && |todo| <= Moves(acts, e)
    ensures s in LiveWhenReached(st, acts, e, todo)
    decreases |acts|
  {
    UndisturbedRest(acts, s);
    LiveStep(st, acts[0], s);
    var after := Step(st, acts[0]);
    if acts[0] != Reach(e) {
      LiveIsKept(after, acts[1..], e, todo, s);
    } else if todo[0] != s {
      LiveIsKept(after, acts[1..], e, todo[1..], s);
    }
  }

  /** An emission of an unblocked signal calls every listed slot that is live and that nobody disconnects or
      blocks meanwhile; a connect_once slot may go by its own call. */
  lemma {:induction false} UndisturbedIsCalled(st: State, acts: seq<Action>, e: EmissionId, s: SlotId)
    requires CanRun(st, acts) && acts != [] && acts[0] == Emit(e) && e !in st.frames && e !in Run(st, acts).frames
    requires !st.block && Listed(st.groups, s) && Live(st.slots, s) && s !in st.once && Undisturbed(acts, s)
    ensures s in Calls(st, acts, e)
  {
    EmissionIsExact(st, acts, e);
    OrderMembers(st.groups, s);
    LiveIsKept(st, acts, e, Order(st.groups), s);
  }

  /** What is left to do for an emission: three actions for a slot to be visited, two after a check. */
  function Left(f: Frame): nat {
    3 * |f.todo| + match f.phase case Idle => 0 case Passed(_) => 2 case Running => 1
  }

  function Others(frames: map<EmissionId, Frame>, e: EmissionId): map<EmissionId, Frame> {
    map k | k in frames && k != e :: frames[k]
  }

  /** One action more: the emission has less left to do, the others are where they were. */
  lemma {:induction false} EmissionAdvances(st: State, e: EmissionId) returns (a: Action)
    requires e in st.frames && FrameOf(st, e) && !(st.frames[e].phase.Idle? && st.frames[e].todo == [])
    ensures a in {Reach(e), Call(e), Return(e)} && Enabled(st, a)
    ensures e in Step(st, a).frames && Left(Step(st, a).frames[e]) < Left(st.frames[e])
    ensures FrameOf(Step(st, a), e) && Others(Step(st, a).frames, e) == Others(st.frames, e)
  {
    var f := st.frames[e];
    a := match f.phase case Idle => Reach(e) case Passed(_) => Call(e) case Running => Return(e);
    var after := Step(st, a);
    forall i | 0 <= i < |after.frames[e].todo| ensures after.frames[e].todo[i] in after.slots {
      assert after.frames[e].todo[i] in f.todo;
    }
  }

  /** An emission under way can always be run to its end by its own actions, whatever state it is in. */
  lemma {:induction false} EmissionRunsOut(st: State, e: EmissionId) returns (acts: seq<Action>)
    requires e in st.frames && FrameOf(st, e)
    ensures forall i :: 0 <= i < |acts| ==> acts[i] in {Reach(e), Call(e), Return(e), Finish(e)}
    ensures CanRun(st, acts) && Run(st, acts).frames == Others(st.frames, e)
    decreases Left(st.frames[e])
  {
    if st.frames[e].phase.Idle? && st.frames[e].todo == [] {
      RunCons(st, Finish(e), []);
      acts := [Finish(e)] + [];
      assert Run(Step(st, Finish(e)), []) == Step(st, Finish(e));
    } else {
      var a := EmissionAdvances(st, e);
      var rest := EmissionRunsOut(Step(st, a), e);
      RunCons(st, a, rest);
      acts := [a] + rest;
    }
  }

  /** Connecting makes a slot live and lists it; unblocking makes a connected slot live; unblocking the signal
      makes the next emission start. */
  lemma {:induction false} ConnectingMakesLive(st: State, s: SlotId, gid: GroupId, once: bool)
    requires WellListed(st.groups, st.slots) && Enabled(st, Connect(s, gid, once))
    ensures var after := Step(st, Connect(s, gid, once));
      && Live(after.slots, s) && (s in after.once <==> once || s in st.once)
      && forall x :: Listed(after.groups, x) <==> Listed(st.groups, x) || x == s
  {
    var after := Step(st, Connect(s, gid, once));
    forall x ensures Listed(after.groups, x) <==> Listed(st.groups, x) || x == s {
      AddedMembers(st.groups, s, gid, x);
      OrderMembers(st.groups, x);
      OrderMembers(after.groups, x);
    }
  }

  lemma {:induction false} UnblockingMakesLive(st: State, s: SlotId)
    requires Enabled(st, SetBlocked(s, false))
    ensures Live(Step(st, SetBlocked(s, false)).slots, s) <==> st.slots[s].connected
  {
  }

  /** SlotState::disconnect through a Connection is a Disconnect followed by an Unlist. */
  lemma {:induction false} DisconnectIsTwoSteps(st: State, s: SlotId, groups: seq<Group>, slots: Slots)
    requires s in st.slots && WellListed(groups, slots) && SameFlags(Unplugged(st.slots, s), slots)
    requires TakenOff(st.groups, groups, x => x == s) || groups == st.groups
    ensures CanRun(st, [Disconnect(s), Unlist(groups, slots)])
    ensures Run(st, [Disconnect(s), Unlist(groups, slots)]) == st.(groups := groups, slots := slots)
  {
    var mid, unlist := Step(st, Disconnect(s)), Unlist(groups, slots);
    if groups != st.groups {
      TakenOffIsUnlist(mid, groups, slots, x => x == s);
    }
    RunCons(mid, unlist, []);
    RunCons(st, Disconnect(s), [unlist] + []);
    assert [Disconnect(s)] + ([unlist] + []) == [Disconnect(s), unlist];
    assert Run(Step(mid, unlist), []) == Step(mid, unlist);
  }
}
