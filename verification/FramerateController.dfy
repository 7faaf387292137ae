/** Frame dropping by FramerateController::should_drop_frame. */
module FramerateController {
  import opened KernelTypes

  /** Below this rate every frame is dropped. */
  const MIN_FRAMERATE: real := 0.5
  const NSECS_PER_SEC: real := 1000000000.0

  /** The frame interval: the most whole nanoseconds that `rate` frames can each take in one second. */
  function Interval(rate: real): (r: int)
    requires rate >= MIN_FRAMERATE
    ensures 0 <= r <= 2000000000
    ensures r as real * rate <= NSECS_PER_SEC < (r + 1) as real * rate
  {
    IntervalRange(rate);
    IntervalIsWhole(rate);
    (NSECS_PER_SEC / rate).Floor
  }

  lemma {:induction false} IntervalRange(rate: real)
    requires rate >= MIN_FRAMERATE
    ensures 0.0 <= NSECS_PER_SEC / rate <= 2000000000.0
  {
    var q := NSECS_PER_SEC / rate;
    assert q * rate == NSECS_PER_SEC;
  }

  lemma {:induction false} IntervalIsWhole(rate: real)
    requires rate >= MIN_FRAMERATE
    ensures var r := (NSECS_PER_SEC / rate).Floor; r as real * rate <= NSECS_PER_SEC < (r + 1) as real * rate
  {
    var q := NSECS_PER_SEC / rate;
    var r := q.Floor;
    assert q * rate == NSECS_PER_SEC;
    Scale(r as real, q, rate);
    assert (r + 1) as real == r as real + 1.0 && q < (r + 1) as real;
    ScaleStrictly(q, (r + 1) as real, rate);
  }

  lemma {:induction false} Scale(a: real, b: real, c: real)
    requires a <= b && c > 0.0
    ensures a * c <= b * c
  {
  }

  lemma {:induction false} ScaleStrictly(a: real, b: real, c: real)
    requires a < b && c > 0.0
    ensures a * c < b * c
  {
  }

  predicate InRange(interval: int, due: int, t: int) {
    -2 * interval < due - t < 2 * interval
  }

  /** For a positive interval: whether the frame is dropped. */
  predicate Drops(interval: int, next: Option<int>, t: int) {
    next.Some? && InRange(interval, next.value, t) && next.value - t > 0
  }

  /** For a positive interval: when the next frame is due after this one. */
  function After(interval: int, next: Option<int>, t: int): int
    requires !Drops(interval, next, t)
  {
    if next.Some? && InRange(interval, next.value, t) then next.value + interval else t + interval / 2
  }

  class FramerateController {
    var maxFramerate: real
    var next: Option<int>

    constructor (rate: real)
      ensures maxFramerate == rate && next == None
    {
      maxFramerate, next := rate, None;
    }

    method SetFrameRate(rate: real)
      modifies this`maxFramerate
      ensures maxFramerate == rate
    {
      maxFramerate := rate;
    }

    method ShouldDropFrame(t: int) returns (drop: bool)
      modifies this`next
      ensures maxFramerate < MIN_FRAMERATE ==> drop && next == old(next)
      ensures maxFramerate >= MIN_FRAMERATE && Interval(maxFramerate) == 0 ==> !drop && next == old(next)
      ensures maxFramerate >= MIN_FRAMERATE && Interval(maxFramerate) > 0 ==>
        && drop == Drops(Interval(maxFramerate), old(next), t)
        && next == if drop then old(next) else Some(After(Interval(maxFramerate), old(next), t))
    {
      if maxFramerate < MIN_FRAMERATE {
        return true;
      }
      var interval := Interval(maxFramerate);
      if interval <= 0 {
        return false;
      }
      if next.Some? {
        var until := next.value - t;
        if (if until < 0 then -until else until) < 2 * interval {
          if until > 0 {
            return true;
          }
          next := Some(next.value + interval);
          return false;
        }
      }
      next := Some(t + interval / 2);
      return false;
    }
  }

  // ---- whole streams ----

  /** The frames kept out of a stream, when the controller starts with `next`. */
  function Kept(interval: int, next: Option<int>, ts: seq<int>): seq<int>
    decreases |ts|
  {
    if ts == [] then []
    else if Drops(interval, next, ts[0]) then Kept(interval, next, ts[1..])
    else [ts[0]] + Kept(interval, Some(After(interval, next, ts[0])), ts[1..])
  }

  ghost predicate NonDecreasing(ts: seq<int>) {
    forall i, j :: 0 <= i <= j < |ts| ==> ts[i] <= ts[j]
  }

  /** A kept frame leaves the next due time within one interval of itself. */
  lemma {:induction false} KeptWindow(interval: int, next: Option<int>, t: int)
    requires interval > 0 && !Drops(interval, next, t)
    ensures -interval < After(interval, next, t) - t <= interval
    ensures next.None? ==> After(interval, next, t) == t + interval / 2
  {
  }

  /** Every kept frame moves the due time on by at least one interval. */
  lemma {:induction false} KeptAdvances(interval: int, due: int, last: int, t: int)
    requires interval > 0 && due <= last + interval && last <= t && !Drops(interval, Some(due), t)
    ensures After(interval, Some(due), t) >= due + interval
  {
  }

  lemma {:induction false} DueTimesAdd(interval: int, due: int, last: int, ts: seq<int>, k: nat)
    requires interval > 0 && due <= last + interval
    requires NonDecreasing(ts) && (forall i :: 0 <= i < |ts| ==> last <= ts[i])
    requires k < |Kept(interval, Some(due), ts)|
    ensures due + k * interval <= Kept(interval, Some(due), ts)[k]
    decreases |ts|
  {
    if Drops(interval, Some(due), ts[0]) {
      DueTimesAdd(interval, due, last, ts[1..], k);
    } else {
      var due' := After(interval, Some(due), ts[0]);
      KeptWindow(interval, Some(due), ts[0]);
      KeptAdvances(interval, due, last, ts[0]);
      if k > 0 {
        DueTimesAdd(interval, due', ts[0], ts[1..], k - 1);
        assert k * interval == (k - 1) * interval + interval;
      }
    }
  }

  /** Whatever the controller's state, kept frames a to b of a non-decreasing stream span more than
      (b - a - 2) intervals. */
  lemma {:induction false} RateBound(interval: int, next: Option<int>, ts: seq<int>, a: nat, b: nat)
    requires interval > 0 && NonDecreasing(ts)
    requires a <= b < |Kept(interval, next, ts)|
    ensures (b - a) * interval < Kept(interval, next, ts)[b] - Kept(interval, next, ts)[a] + 2 * interval
    decreases |ts|
  {
    if Drops(interval, next, ts[0]) {
      RateBound(interval, next, ts[1..], a, b);
    } else {
      var due := After(interval, next, ts[0]);
      if a > 0 {
        RateBound(interval, Some(due), ts[1..], a - 1, b - 1);
      } else if b > 0 {
        KeptWindow(interval, next, ts[0]);
        DueTimesAdd(interval, due, ts[0], ts[1..], b - 1);
        assert b * interval == (b - 1) * interval + interval;
      }
    }
  }

  /** From the first frame a controller sees, half an interval tighter. */
  lemma {:induction false} RateBoundFromFirst(interval: int, ts: seq<int>, k: nat)
    requires interval > 0 && NonDecreasing(ts) && k < |Kept(interval, None, ts)|
    ensures k * interval <= Kept(interval, None, ts)[k] - ts[0] + interval - interval / 2
  {
    if k > 0 {
      var due := After(interval, None, ts[0]);
      DueTimesAdd(interval, due, ts[0], ts[1..], k - 1);
      assert k * interval == (k - 1) * interval + interval;
    }
  }

  /** The due time after a stream. */
  function Due(interval: int, next: Option<int>, ts: seq<int>): Option<int>
    decreases |ts|
  {
    if ts == [] then next
    else if Drops(interval, next, ts[0]) then Due(interval, next, ts[1..])
    else Due(interval, Some(After(interval, next, ts[0])), ts[1..])
  }

  lemma {:induction false} DueAfterLast(interval: int, next: Option<int>, ts: seq<int>)
    requires interval > 0 && Kept(interval, next, ts) != []
    ensures var kept := Kept(interval, next, ts);
      Due(interval, next, ts).Some? && Due(interval, next, ts).value <= kept[|kept| - 1] + interval
    decreases |ts|
  {
    if Drops(interval, next, ts[0]) {
      DueAfterLast(interval, next, ts[1..]);
    } else {
      var due := After(interval, next, ts[0]);
      KeptWindow(interval, next, ts[0]);
      if Kept(interval, Some(due), ts[1..]) != [] {
        DueAfterLast(interval, Some(due), ts[1..]);
      } else {
        DueOfDropped(interval, Some(due), ts[1..]);
      }
    }
  }

  lemma {:induction false} DueOfDropped(interval: int, next: Option<int>, ts: seq<int>)
    requires Kept(interval, next, ts) == []
    ensures Due(interval, next, ts) == next
    decreases |ts|
  {
    if ts == [] {
    } else {
      DueOfDropped(interval, next, ts[1..]);
    }
  }

  /** A frame one interval or more after the last kept one is kept, whatever the stream before it. */
  lemma {:induction false} LateFrameIsKept(interval: int, next: Option<int>, ts: seq<int>, t: int)
    requires interval > 0 && Kept(interval, next, ts) != []
    requires var kept := Kept(interval, next, ts); t >= kept[|kept| - 1] + interval
    ensures !Drops(interval, Due(interval, next, ts), t)
    ensures Kept(interval, next, ts + [t]) == Kept(interval, next, ts) + [t]
  {
    DueAfterLast(interval, next, ts);
    KeptSnoc(interval, next, ts, t);
  }

  lemma {:induction false} DueNearLast(interval: int, next: Option<int>, ts: seq<int>)
    requires interval > 0 && Kept(interval, next, ts) != []
    ensures var kept := Kept(interval, next, ts);
      Due(interval, next, ts).Some? && kept[|kept| - 1] - interval < Due(interval, next, ts).value
    decreases |ts|
  {
    if Drops(interval, next, ts[0]) {
      DueNearLast(interval, next, ts[1..]);
    } else {
      var due := After(interval, next, ts[0]);
      KeptWindow(interval, next, ts[0]);
      if Kept(interval, Some(due), ts[1..]) != [] {
        DueNearLast(interval, Some(due), ts[1..]);
      } else {
        DueOfDropped(interval, Some(due), ts[1..]);
      }
    }
  }

  /** A clock that jumps back by three intervals or more does not stop the stream: that frame is kept. */
  lemma {:induction false} JumpBackIsKept(interval: int, next: Option<int>, ts: seq<int>, t: int)
    requires interval > 0 && Kept(interval, next, ts) != []
    requires var kept := Kept(interval, next, ts); t <= kept[|kept| - 1] - 3 * interval
    ensures Kept(interval, next, ts + [t]) == Kept(interval, next, ts) + [t]
  {
    DueNearLast(interval, next, ts);
    KeptSnoc(interval, next, ts, t);
  }

  lemma {:induction false} KeptSnoc(interval: int, next: Option<int>, ts: seq<int>, t: int)
    ensures Kept(interval, next, ts + [t]) ==
      Kept(interval, next, ts) + if Drops(interval, Due(interval, next, ts), t) then [] else [t]
    decreases |ts|
  {
    if ts == [] {
      assert ts + [t] == [t];
    } else {
      assert (ts + [t])[1..] == ts[1..] + [t];
      KeptSnoc(interval, if Drops(interval, next, ts[0]) then next else Some(After(interval, next, ts[0])), ts[1..], t);
    }
  }

  // ---- how many frames are kept ----

  /** No two neighbours are more than `gap` apart. */
  ghost predicate Dense(last: int, ts: seq<int>, gap: int)
    decreases |ts|
  {
    ts != [] ==> last <= ts[0] <= last + gap && Dense(ts[0], ts[1..], gap)
  }

  lemma {:induction false} Ahead(interval: int, due: int, ts: seq<int>, gap: int, k: nat)
    requires 0 < gap <= interval && ts != [] && due + k * interval + gap <= ts[|ts| - 1]
    requires ts[0] < due + if k > 0 then interval + gap else gap
    ensures |ts| > 1
  {
    if k > 0 {
      assert k * interval == (k - 1) * interval + interval;
    }
  }

  /** A stream with a frame at least every interval keeps up with the due times: frame `k` is kept no later
      than one gap after it was due, once the stream has come that far. */
  lemma {:induction false} KeepsUp(interval: int, due: int, last: int, ts: seq<int>, gap: int, k: nat)
    requires 0 < gap <= interval && last <= due <= last + interval && Dense(last, ts, gap)
    requires ts != [] && due + k * interval + gap <= ts[|ts| - 1]
    ensures k < |Kept(interval, Some(due), ts)| && Kept(interval, Some(due), ts)[k] <= due + k * interval + gap
    decreases |ts|
  {
    var t := ts[0];
    if Drops(interval, Some(due), t) {
      Ahead(interval, due, ts, gap, k);
      KeepsUp(interval, due, t, ts[1..], gap, k);
    } else if k > 0 {
      Ahead(interval, due, ts, gap, k);
      assert k * interval == (k - 1) * interval + interval;
      KeepsUp(interval, due + interval, t, ts[1..], gap, k - 1);
    }
  }

  /** So from the first frame on, frame `k + 1` is kept within one gap of the time the rate asks for. */
  lemma {:induction false} RateIsReached(interval: int, ts: seq<int>, gap: int, k: nat)
    requires 0 < gap <= interval && ts != [] && Dense(ts[0], ts[1..], gap)
    requires ts[0] + interval / 2 + k * interval + gap <= ts[|ts| - 1]
    ensures k + 1 < |Kept(interval, None, ts)|
    ensures Kept(interval, None, ts)[k + 1] <= ts[0] + interval / 2 + k * interval + gap
  {
    assert k * interval >= 0;
    KeepsUp(interval, ts[0] + interval / 2, ts[0], ts[1..], gap, k);
  }
}
