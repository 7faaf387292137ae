/** Signals with results: slot_call_iterator, which invokes a slot when it is first dereferenced, and the
    combiners that consume it. */
module ResultIterator {
  import opened KernelTypes
  import opened SlotList

  /** What a running slot can read and change: the flags of every slot, and whatever else it likes. */
  datatype Env<U> = Env(slots: Slots, user: U)

  /** Arbitrary user code: the effect and the result of calling a slot. */
  type Behaviour<!U, !R> = (Env<U>, SlotId) -> (Env<U>, R)

  datatype Result<R> = Result(slot: SlotId, value: R)

  /** The specification: go through the slots in order and call each one that is live by then, once. */
  function Results<U, R>(call: Behaviour<U, R>, env: Env<U>, slots: seq<SlotId>): seq<Result<R>>
    decreases |slots|
  {
    if slots == [] then []
    else if !Live(env.slots, slots[0]) then Results(call, env, slots[1..])
    else
      var (after, r) := call(env, slots[0]);
      [Result(slots[0], r)] + Results(call, after, slots[1..])
  }

  /** What is left of the world when they all have run. */
  function Outcome<U, R>(call: Behaviour<U, R>, env: Env<U>, slots: seq<SlotId>): Env<U>
    decreases |slots|
  {
    if slots == [] then env
    else if !Live(env.slots, slots[0]) then Outcome(call, env, slots[1..])
    else Outcome(call, call(env, slots[0]).0, slots[1..])
  }

  class CallIterator<U, R> {
    const slots: seq<SlotId>
    const call: Behaviour<U, R>
    var env: Env<U>
    var at: nat
    var cacheId: Option<SlotId>
    var cacheValue: Option<R>
    ghost var invoked: seq<Result<R>>

    predicate Cached()
      reads this
    {
      at < |slots| && cacheId == Some(slots[at]) && cacheValue.Some?
    }

    /** The iterator is at a slot that may be called, or whose result it holds, or at the end. */
    ghost predicate Valid()
      reads this
    {
      && at <= |slots|
      && (at < |slots| && !Cached() ==> Live(env.slots, slots[at]))
      && (Cached() ==> invoked != [] && invoked[|invoked| - 1] == Result(slots[at], cacheValue.value))
    }

    /** The slots not yet dealt with. */
    ghost function Rest(): seq<SlotId>
      reads this
      requires Valid()
    {
      if Cached() then slots[at + 1..] else slots[at..]
    }

    constructor (slots: seq<SlotId>, call: Behaviour<U, R>, env: Env<U>)
      ensures Valid() && !Cached() && invoked == []
      ensures this.slots == slots && this.call == call && this.env == env
      ensures Results(call, env, Rest()) == Results(call, env, slots)
      ensures Outcome(call, env, Rest()) == Outcome(call, env, slots)
    {
      this.slots, this.call, this.env := slots, call, env;
      at, cacheId, cacheValue, invoked := 0, None, None, [];
      new;
      assert slots[0..] == slots;
      Normalize();
    }

    method Normalize()
      requires at <= |slots| && !Cached() && cacheId.None?
      modifies this`at
      ensures Valid() && !Cached() && old(at) <= at
      ensures Results(call, env, slots[at..]) == Results(call, env, slots[old(at)..])
      ensures Outcome(call, env, slots[at..]) == Outcome(call, env, slots[old(at)..])
    {
      while at < |slots| && !Live(env.slots, slots[at])
        invariant old(at) <= at <= |slots|
        invariant Results(call, env, slots[at..]) == Results(call, env, slots[old(at)..])
        invariant Outcome(call, env, slots[at..]) == Outcome(call, env, slots[old(at)..])
      {
        assert slots[at..][1..] == slots[at + 1..];
        at := at + 1;
      }
    }

    /** operator*: the first dereference calls the slot, further ones do not. */
    method Deref() returns (r: R)
      requires Valid() && at < |slots|
      modifies this`env, this`cacheId, this`cacheValue, this`invoked
      ensures Valid() && Cached() && r == cacheValue.value
      ensures old(Cached()) ==> env == old(env) && invoked == old(invoked)
      ensures !old(Cached()) ==>
        && invoked == old(invoked) + [Result(slots[at], r)]
        && Results(call, old(env), old(Rest())) == [Result(slots[at], r)] + Results(call, env, Rest())
      ensures Outcome(call, env, Rest()) == Outcome(call, old(env), old(Rest()))
    {
      if !Cached() {
        assert slots[at..][1..] == slots[at + 1..];
        var (after, value) := call(env, slots[at]);
        env := after;
        cacheId, cacheValue := Some(slots[at]), Some(value);
        invoked := invoked + [Result(slots[at], value)];
      }
      r := cacheValue.value;
    }

    /** operator++: past the present slot, called or not, to the next one that is live by now. */
    method Advance()
      requires Valid() && at < |slots|
      modifies this`at, this`cacheId, this`cacheValue
      ensures Valid() && !Cached() && old(at) < at
      ensures Results(call, env, Rest()) == Results(call, env, slots[old(at) + 1..])
      ensures Outcome(call, env, Rest()) == Outcome(call, env, slots[old(at) + 1..])
    {
      at := at + 1;
      cacheId, cacheValue := None, None;
      Normalize();
    }
  }

  /** `value` is the result at the end of `results`, and empty exactly when there are none. */
  ghost predicate IsLast<R>(results: seq<Result<R>>, value: Option<R>) {
    match value
    case None => results == []
    case Some(v) => exists i :: 0 <= i < |results| && results[i].value == v && results[i + 1..] == []
  }

  /** The invariant of a single-pass combiner that has `ahead` still to consume. */
  ghost predicate Consuming<U, R>(it: CallIterator<U, R>, total: seq<Result<R>>, out: Env<U>, ahead: seq<Result<R>>)
    reads it
  {
    && it.Valid() && !it.Cached()
    && it.invoked + ahead == total
    && ahead == Results(it.call, it.env, it.Rest()) && Outcome(it.call, it.env, it.Rest()) == out
  }

  /** Its end. */
  lemma {:induction false} Consumed<U, R>(it: CallIterator<U, R>, total: seq<Result<R>>, out: Env<U>, ahead: seq<Result<R>>)
    requires Consuming(it, total, out, ahead) && it.at == |it.slots|
    ensures ahead == [] && it.invoked == total && it.env == out
  {
  }

  /** Its step: dereference, and later advance. */
  method Next<U, R>(it: CallIterator<U, R>, ghost total: seq<Result<R>>, ghost out: Env<U>, ghost ahead: seq<Result<R>>)
    returns (v: R, ghost rest: seq<Result<R>>)
    requires Consuming(it, total, out, ahead) && it.at < |it.slots|
    modifies it
    ensures Consuming(it, total, out, rest) && it.at > old(it.at)
    ensures ahead == [Result(it.slots[old(it.at)], v)] + rest
  {
    v := it.Deref();
    rest := Results(it.call, it.env, it.Rest());
    Associate(old(it.invoked), [Result(it.slots[it.at], v)], rest);
    it.Advance();
  }

  /** optional_last_value runs every live slot once and returns the result of the last. */
  method OptionalLastValue<U, R>(it: CallIterator<U, R>) returns (value: Option<R>)
    requires it.Valid() && !it.Cached()
    modifies it
    ensures it.invoked == old(it.invoked) + Results(it.call, old(it.env), old(it.Rest()))
    ensures it.env == Outcome(it.call, old(it.env), old(it.Rest()))
    ensures IsLast(Results(it.call, old(it.env), old(it.Rest())), value)
  {
    value := None;
    ghost var all, out := Results(it.call, it.env, it.Rest()), Outcome(it.call, it.env, it.Rest());
    ghost var ahead, total, done := all, it.invoked + all, [];
    while it.at != |it.slots|
      invariant Consuming(it, total, out, ahead)
      invariant done + ahead == all && IsLast(done, value)
      decreases |it.slots| - it.at
    {
      ghost var before := ahead;
      var v;
      v, ahead := Next(it, total, out, ahead);
      Associate(done, [before[0]], ahead);
      value := Some(v);
      done := done + [before[0]];
      assert done[|done| - 1].value == v && done[|done|..] == [];
    }
    Consumed(it, total, out, ahead);
    assert done == all;
  }

  // ---- maximum ----

  /** operator< is a strict weak order. */
  ghost predicate Ordering<R(!new)>(less: (R, R) -> bool) {
    && (forall x :: !less(x, x))
    && (forall x, y, z :: less(x, y) && less(y, z) ==> less(x, z))
    && (forall x, y, z {:trigger less(x, y), less(x, z)} {:trigger less(y, z), less(x, z)} ::
          less(x, z) ==> less(x, y) || less(y, z))
  }

  /** `best` is the first of the greatest results, and empty exactly when there are none. */
  ghost predicate Greatest<R>(results: seq<Result<R>>, less: (R, R) -> bool, best: Option<R>) {
    if results == [] then best.None?
    else best.Some? && exists i :: 0 <= i < |results| && FirstGreatest(results, less, best.value, i)
  }

  ghost predicate FirstGreatest<R>(results: seq<Result<R>>, less: (R, R) -> bool, best: R, i: nat) {
    && i < |results| && results[i].value == best
    && (forall j :: 0 <= j < i ==> less(results[j].value, best))
    && (forall j :: 0 <= j < |results| ==> !less(best, results[j].value))
  }

  lemma {:induction false} GreatestOfOneMore<R(!new)>(results: seq<Result<R>>, less: (R, R) -> bool, best: Option<R>, r: Result<R>)
    requires Ordering(less) && Greatest(results, less, best)
    ensures Greatest(results + [r], less, if best.None? || less(best.value, r.value) then Some(r.value) else best)
  {
    var more := results + [r];
    if best.None? {
      assert FirstGreatest(more, less, r.value, 0);
    } else {
      var i :| 0 <= i < |results| && FirstGreatest(results, less, best.value, i);
      if less(best.value, r.value) {
        forall j | 0 <= j < |results| ensures less(more[j].value, r.value) && !less(r.value, more[j].value) {
          assert more[j] == results[j] && !less(best.value, results[j].value);
        }
        assert FirstGreatest(more, less, r.value, |results|);
      } else {
        assert FirstGreatest(more, less, best.value, i);
      }
    }
  }

  function Better<R>(best: Option<R>, v: R, less: (R, R) -> bool): Option<R> {
    if best.None? || less(best.value, v) then Some(v) else best
  }

  /** The fold that maximum computes. */
  function Best<R>(best: Option<R>, results: seq<Result<R>>, less: (R, R) -> bool): Option<R>
    decreases |results|
  {
    if results == [] then best else Best(Better(best, results[0].value, less), results[1..], less)
  }

  lemma {:induction false} BestIsGreatest<R(!new)>(seen: seq<Result<R>>, best: Option<R>, results: seq<Result<R>>, less: (R, R) -> bool)
    requires Ordering(less) && Greatest(seen, less, best)
    ensures Greatest(seen + results, less, Best(best, results, less))
    decreases |results|
  {
    if results == [] {
      assert seen + results == seen;
    } else {
      GreatestOfOneMore(seen, less, best, results[0]);
      BestIsGreatest(seen + [results[0]], Better(best, results[0].value, less), results[1..], less);
      assert seen + [results[0]] + results[1..] == seen + results;
    }
  }

  /** maximum runs every live slot once and folds the results. */
  method Maximum<U, R>(it: CallIterator<U, R>, less: (R, R) -> bool) returns (best: Option<R>)
    requires it.Valid() && !it.Cached()
    modifies it
    ensures it.invoked == old(it.invoked) + Results(it.call, old(it.env), old(it.Rest()))
    ensures it.env == Outcome(it.call, old(it.env), old(it.Rest()))
    ensures best == Best(None, Results(it.call, old(it.env), old(it.Rest())), less)
  {
    best := None;
    ghost var all, out := Results(it.call, it.env, it.Rest()), Outcome(it.call, it.env, it.Rest());
    ghost var ahead, total := all, it.invoked + all;
    while it.at != |it.slots|
      invariant Consuming(it, total, out, ahead)
      invariant Best(best, ahead, less) == Best(None, all, less)
      decreases |it.slots| - it.at
    {
      ghost var before := ahead;
      var v;
      v, ahead := Next(it, total, out, ahead);
      assert before[1..] == ahead;
      if best.None? || less(best.value, v) {
        best := Some(v);
      }
    }
    Consumed(it, total, out, ahead);
  }

  // ---- SignalBaseR::operator() ----

  /** The invocation order of a snapshot; a blocked signal has none. */
  method Flatten(block: bool, groups: seq<Group>) returns (order: seq<SlotId>)
    ensures order == if block then [] else Order(groups)
  {
    order := [];
    if !block {
      assert groups[..0] == [];
      for g := 0 to |groups|
        invariant order == Order(groups[..g])
      {
        OrderOfOneMore(groups, g);
        order := order + groups[g].slots;
      }
      assert groups[..|groups|] == groups;
    }
  }

  method EmitLastValue<U, R>(block: bool, groups: seq<Group>, call: Behaviour<U, R>, env: Env<U>)
    returns (value: Option<R>, after: Env<U>)
    ensures var order := if block then [] else Order(groups);
      IsLast(Results(call, env, order), value) && after == Outcome(call, env, order)
  {
    var order := Flatten(block, groups);
    var it := new CallIterator(order, call, env);
    value := OptionalLastValue(it);
    after := it.env;
  }

  method EmitMaximum<U, R(!new)>(block: bool, groups: seq<Group>, call: Behaviour<U, R>, env: Env<U>, less: (R, R) -> bool)
    returns (best: Option<R>, after: Env<U>)
    requires Ordering(less)
    ensures var order := if block then [] else Order(groups);
      Greatest(Results(call, env, order), less, best) && after == Outcome(call, env, order)
  {
    var order := Flatten(block, groups);
    var it := new CallIterator(order, call, env);
    best := Maximum(it, less);
    BestIsGreatest([], None, Results(call, env, order), less);
    assert [] + Results(call, env, order) == Results(call, env, order);
    after := it.env;
  }

  // ---- what the specification promises ----

  /** The slots called are among those of the snapshot, in its order, each called at most as often as it
      is listed; each is live in the world its predecessors left. */
  lemma {:induction false} ResultsFollowSnapshot<U, R>(call: Behaviour<U, R>, env: Env<U>, slots: seq<SlotId>, n: nat)
    requires n <= |slots|
    ensures Results(call, env, slots) == Results(call, env, slots[..n]) + Results(call, Outcome(call, env, slots[..n]), slots[n..])
    decreases n
  {
    if n == 0 {
      assert slots[..0] == [] && slots[0..] == slots;
    } else {
      var after := if Live(env.slots, slots[0]) then call(env, slots[0]).0 else env;
      ResultsFollowSnapshot(call, after, slots[1..], n - 1);
      assert slots[..n][0] == slots[0] && slots[..n][1..] == slots[1..][..n - 1] && slots[1..][n - 1..] == slots[n..];
    }
  }

  lemma {:induction false} ResultsAreListed<U, R>(call: Behaviour<U, R>, env: Env<U>, slots: seq<SlotId>, k: nat)
    requires k < |Results(call, env, slots)|
    ensures Results(call, env, slots)[k].slot in slots
    decreases |slots|
  {
    if !Live(env.slots, slots[0]) {
      ResultsAreListed(call, env, slots[1..], k);
    } else if k > 0 {
      ResultsAreListed(call, call(env, slots[0]).0, slots[1..], k - 1);
    }
  }

  /** A slot of the snapshot, listed once, is called exactly if it is still connected and unblocked after
      everything before it has run. */
  lemma {:induction false} CalledIffLive<U, R>(call: Behaviour<U, R>, env: Env<U>, slots: seq<SlotId>, n: nat)
    requires n < |slots| && NoDup(slots)
    ensures (exists k :: 0 <= k < |Results(call, env, slots)| && Results(call, env, slots)[k].slot == slots[n])
       <==> Live(Outcome(call, env, slots[..n]).slots, slots[n])
  {
    var s, head, tail, now := slots[n], slots[..n], slots[n..], Outcome(call, env, slots[..n]);
    var first, rest := Results(call, env, head), Results(call, now, tail);
    ResultsFollowSnapshot(call, env, slots, n);
    forall k | 0 <= k < |first| ensures first[k].slot != s {
      ResultsAreListed(call, env, head, k);
    }
    assert tail[0] == s && tail[1..] == slots[n + 1..];
    if Live(now.slots, s) {
      assert rest[0].slot == s && (first + rest)[|first|] == rest[0];
    } else {
      forall k | 0 <= k < |rest| ensures rest[k].slot != s {
        ResultsAreListed(call, now, tail[1..], k);
      }
    }
  }

  /** One slot after the other: a live one leaves what its callable makes of the world, a dead one leaves it. */
  lemma {:induction false} OutcomeStepByStep<U, R>(call: Behaviour<U, R>, env: Env<U>, slots: seq<SlotId>, n: nat)
    requires n < |slots|
    ensures Outcome(call, env, slots[..0]) == env
    ensures var now := Outcome(call, env, slots[..n]);
      Outcome(call, env, slots[..n + 1]) == if Live(now.slots, slots[n]) then call(now, slots[n]).0 else now
    decreases n
  {
    if n == 0 {
      assert slots[..1] == [slots[0]] && [slots[0]][1..] == [];
    } else {
      var after := if Live(env.slots, slots[0]) then call(env, slots[0]).0 else env;
      assert slots[..n][1..] == slots[1..][..n - 1] && slots[..n + 1][1..] == slots[1..][..n] && slots[1..][n - 1] == slots[n];
      OutcomeStepByStep(call, after, slots[1..], n - 1);
    }
  }

  lemma {:induction false} StaysDead<U(!new), R>(call: Behaviour<U, R>, env: Env<U>, slots: seq<SlotId>, i: nat, j: nat, t: SlotId)
    requires i <= j <= |slots| && !Live(Outcome(call, env, slots[..i]).slots, t)
    requires forall e: Env<U>, x: SlotId :: !Live(e.slots, t) ==> !Live(call(e, x).0.slots, t)
    ensures !Live(Outcome(call, env, slots[..j]).slots, t)
    decreases j - i
  {
    if i == j {
    } else {
      StaysDead(call, env, slots, i, j - 1, t);
      OutcomeStepByStep(call, env, slots, j - 1);
    }
  }

  /** A slot that a callable before it disconnects or blocks, and that nobody revives, is not called. */
  lemma {:induction false} SilencedIsSkipped<U(!new), R>(call: Behaviour<U, R>, env: Env<U>, slots: seq<SlotId>, i: nat, j: nat)
    requires i < j < |slots| && NoDup(slots)
    requires var now := Outcome(call, env, slots[..i]); Live(now.slots, slots[i]) && !Live(call(now, slots[i]).0.slots, slots[j])
    requires forall e: Env<U>, x: SlotId :: !Live(e.slots, slots[j]) ==> !Live(call(e, x).0.slots, slots[j])
    ensures forall k :: 0 <= k < |Results(call, env, slots)| ==> Results(call, env, slots)[k].slot != slots[j]
  {
    OutcomeStepByStep(call, env, slots, i);
    StaysDead(call, env, slots, i + 1, j, slots[j]);
    CalledIffLive(call, env, slots, j);
  }
}
