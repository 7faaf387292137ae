/** What ~Object and disconnecting bring about for queued connections, over whole runs: no delivery after the
    token is cleared, no emission after the slot is gone, no post after the loop is closed. */
module QueuedLifetimes {
  import opened KernelTypes
  import opened QueuedConnection

  lemma {:induction false} RunSplit(st: State, acts: seq<Action>, i: nat)
    requires CanRun(st, acts) && i <= |acts|
    ensures CanRun(st, acts[..i]) && CanRun(Run(st, acts[..i]), acts[i..])
    ensures Run(Run(st, acts[..i]), acts[i..]) == Run(st, acts)
    decreases |acts|
  {
    if i == 0 {
      assert acts[..0] == [] && acts[0..] == acts;
    } else {
      RunSplit(Step(st, acts[0]), acts[1..], i - 1);
      assert acts[..i][1..] == acts[1..][..i - 1] && acts[1..][i - 1..] == acts[i..];
    }
  }

  /** The state before action `i` can take it and goes on with the rest. */
  lemma {:induction false} RunAround(acts: seq<Action>, i: nat) returns (st: State)
    requires CanRun(START, acts) && i < |acts|
    ensures CanRun(START, acts[..i]) && st == Run(START, acts[..i]) && Invariant(st)
    ensures Enabled(st, acts[i]) && CanRun(Step(st, acts[i]), acts[i + 1..])
    ensures Run(Step(st, acts[i]), acts[i + 1..]) == Run(START, acts)
  {
    RunSplit(START, acts, i);
    st := Run(START, acts[..i]);
    assert acts[i..][0] == acts[i] && acts[i..][1..] == acts[i + 1..];
    RunKeepsInvariant(START, acts[..i]);
  }

  // ---- the receiver's token ----

  predicate Dying(st: State, r: ObjId) {
    r in st.life && !st.life[r].Alive?
  }

  /** A dead receiver gets no new connection. */
  lemma {:induction false} NoLateConnection(st: State, acts: seq<Action>, r: ObjId, c: ConnId)
    requires CanRun(st, acts) && Dying(st, r) && (c in st.conns ==> st.conns[c].receiver != Some(r))
    ensures Dying(Run(st, acts), r) && (c in Run(st, acts).conns ==> Run(st, acts).conns[c].receiver != Some(r))
    decreases |acts|
  {
    if acts == [] {
    } else {
      NoLateConnection(Step(st, acts[0]), acts[1..], r, c);
    }
  }

  /** From the moment ~Object has cleared the token, no connection of the receiver delivers anything, however
      far its emissions had come. */
  lemma {:induction false} ClearedTokenEndsDelivery(acts: seq<Action>, i: nat, r: ObjId, c: ConnId)
    requires CanRun(START, acts) && i < |acts| && acts[i] == FlipToken(r)
    requires c in Run(START, acts).conns && Run(START, acts).conns[c].receiver == Some(r)
    ensures CanRun(START, acts[..i]) && c in Run(START, acts[..i]).conns
    ensures Run(START, acts).conns[c].delivered == Run(START, acts[..i]).conns[c].delivered
  {
    var st := RunAround(acts, i);
    var dead := Step(st, acts[i]);
    if !(c in dead.conns && dead.conns[c].receiver == Some(r)) {
      NoLateConnection(dead, acts[i + 1..], r, c);
    }
    StepKeepsInvariant(st, acts[i]);
    NothingAfterDeath(dead, acts[i + 1..], c);
  }

  /** So whatever had not been delivered when the token was cleared ends up dropped or lost, if the loop
      comes to an end with it. */
  lemma {:induction false} ClearedTokenDrops(acts: seq<Action>, i: nat, r: ObjId, c: ConnId)
    requires CanRun(START, acts) && i < |acts| && acts[i] == FlipToken(r)
    requires c in Run(START, acts).conns && Run(START, acts).conns[c].receiver == Some(r)
    requires Run(START, acts).conns[c].loop in Run(START, acts).loops && CaughtUp(Run(START, acts).loops[Run(START, acts).conns[c].loop])
    ensures CanRun(START, acts[..i]) && c in Run(START, acts[..i]).conns
    ensures var k := Run(START, acts).conns[c];
      multiset(k.posted) == multiset(Run(START, acts[..i]).conns[c].delivered) + multiset(k.dropped) + multiset(k.lost)
  {
    ClearedTokenEndsDelivery(acts, i, r, c);
    EachPostOnce(acts, c);
    var k := Run(START, acts).conns[c];
    assert Plan(Run(START, acts), c) == k.delivered + k.dropped + k.lost;
  }

  // ---- the slot ----

  lemma {:induction false} StaysReleased(st: State, acts: seq<Action>, r: ObjId)
    requires CanRun(st, acts) && r in st.life && st.life[r].Released?
    ensures r in Run(st, acts).life && Run(st, acts).life[r].Released?
    decreases |acts|
  {
    if acts == [] {
    } else {
      StaysReleased(Step(st, acts[0]), acts[1..], r);
    }
  }

  /** Clearing the token is what disconnect_all waits for, and after disconnect_all no emission of a
      connection of the receiver begins. */
  lemma {:induction false} ReleaseEndsEmission(acts: seq<Action>, i: nat, r: ObjId, c: ConnId, x: Arg)
    requires CanRun(START, acts) && i < |acts| && acts[i] == DisconnectAll(r)
    requires c in Run(START, acts).conns && Run(START, acts).conns[c].receiver == Some(r)
    ensures !Enabled(Run(START, acts), Emit(c, x))
  {
    var st := RunAround(acts, i);
    StaysReleased(Step(st, acts[i]), acts[i + 1..], r);
    DeadReceiverHasNoSlot(acts, c);
  }

  lemma {:induction false} FlipAllowsRelease(st: State, r: ObjId)
    requires Enabled(st, FlipToken(r))
    ensures Enabled(Step(st, FlipToken(r)), DisconnectAll(r)) && !Enabled(st, DisconnectAll(r))
  {
  }

  lemma {:induction false} StaysDisconnected(st: State, acts: seq<Action>, c: ConnId)
    requires CanRun(st, acts) && c in st.conns && !st.conns[c].connected
    ensures c in Run(st, acts).conns && !Run(st, acts).conns[c].connected
    decreases |acts|
  {
    if acts == [] {
    } else {
      DisconnectedStep(st, acts[0], c);
      StaysDisconnected(Step(st, acts[0]), acts[1..], c);
    }
  }

  /** After a connection is disconnected no emission of it begins. */
  lemma {:induction false} DisconnectEndsEmission(acts: seq<Action>, i: nat, c: ConnId, x: Arg)
    requires CanRun(START, acts) && i < |acts| && acts[i] == Disconnect(c)
    ensures !Enabled(Run(START, acts), Emit(c, x))
  {
    var st := RunAround(acts, i);
    StaysDisconnected(Step(st, acts[i]), acts[i + 1..], c);
  }

  /** As long as nobody disconnects it and its receiver is not released, a connection can emit. */
  lemma {:induction false} ConnectedCanEmit(st: State, acts: seq<Action>, c: ConnId, x: Arg)
    requires CanRun(st, acts) && c in st.conns && st.conns[c].connected
    requires forall i :: 0 <= i < |acts| ==> acts[i] != Disconnect(c)
    requires forall i :: 0 <= i < |acts| && acts[i].DisconnectAll? ==> st.conns[c].receiver != Some(acts[i].r)
    ensures Enabled(Run(st, acts), Emit(c, x))
    decreases |acts|
  {
    if acts == [] {
    } else {
      assert acts[0] != Disconnect(c);
      forall i | 0 <= i < |acts[1..]| ensures acts[1..][i] != Disconnect(c) {
        assert acts[i + 1] == acts[1..][i];
      }
      ConnectedCanEmit(Step(st, acts[0]), acts[1..], c, x);
    }
  }

  // ---- the loop's token ----

  lemma {:induction false} StaysClosed(st: State, acts: seq<Action>, c: ConnId)
    requires CanRun(st, acts) && c in st.conns && st.conns[c].loop in st.loops && !LoopAlive(st, st.conns[c].loop)
    ensures c in Run(st, acts).conns && Run(st, acts).conns[c].posted == st.conns[c].posted
    decreases |acts|
  {
    if acts == [] {
    } else {
      StaysClosed(Step(st, acts[0]), acts[1..], c);
    }
  }

  /** After ~EventLoop nothing more is posted to the loop; late emissions are skipped silently. */
  lemma {:induction false} ClosedLoopTakesNothing(acts: seq<Action>, i: nat, c: ConnId)
    requires CanRun(START, acts) && i < |acts| && acts[i].EndTeardown?
    requires CanRun(START, acts[..i]) && c in Run(START, acts[..i]).conns && Run(START, acts[..i]).conns[c].loop == acts[i].l
    ensures c in Run(START, acts).conns && Run(START, acts).conns[c].posted == Run(START, acts[..i]).conns[c].posted
  {
    var st := RunAround(acts, i);
    StaysClosed(Step(st, acts[i]), acts[i + 1..], c);
  }

  /** Nothing that was enqueued when ~EventLoop begins is lost: what is lost is found by starting from an empty
      queue, and there is nothing if nothing is enqueued meanwhile. */
  lemma {:induction false} TeardownLosesNothingQueued(st: State, acts: seq<Action>, c: ConnId)
    requires CanRun(st, acts) && |acts| > 1 && c in st.conns && st.conns[c].loop in st.loops
    requires acts[0] == BeginTeardown(st.conns[c].loop) && acts[|acts| - 1] == EndTeardown(st.conns[c].loop)
    requires forall i :: 0 <= i < |acts| - 1 ==> acts[i] != EndTeardown(st.conns[c].loop)
    ensures c in Run(st, acts).conns
    ensures Run(st, acts).conns[c].lost == st.conns[c].lost + StillQueued(Step(st, acts[0]), acts[1..], c, st.conns[c].loop, [])
    ensures (forall i :: 0 <= i < |acts| ==> !acts[i].Enqueue?) ==> Run(st, acts).conns[c].lost == st.conns[c].lost
  {
    var mid := Step(st, acts[0]);
    assert forall i :: 0 <= i < |acts[1..]| ==> acts[1..][i] == acts[i + 1];
    TeardownLosesLateEmissions(mid, acts[1..], c);
    if forall i :: 0 <= i < |acts| ==> !acts[i].Enqueue? {
      NoneStillQueued(mid, acts[1..], c, st.conns[c].loop);
    }
  }

  lemma {:induction false} NoneStillQueued(st: State, acts: seq<Action>, c: ConnId, l: LoopId)
    requires CanRun(st, acts) && forall i :: 0 <= i < |acts| ==> !acts[i].Enqueue?
    ensures StillQueued(st, acts, c, l, []) == []
    decreases |acts|
  {
    if acts == [] {
    } else {
      assert forall i :: 0 <= i < |acts[1..]| ==> acts[1..][i] == acts[i + 1];
      var none: seq<Arg> := [];
      assert !acts[0].Enqueue? && none + Arrives(st, acts[0], c) == none;
      NoneStillQueued(Step(st, acts[0]), acts[1..], c, l);
    }
  }
}
