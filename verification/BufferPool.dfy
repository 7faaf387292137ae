/** VideoFrameBufferPool: a bounded list of reference-counted buffers, recycled when nobody else holds them. */
module BufferPool {
  import opened KernelTypes

  type BufferId = nat

  datatype Buffer = Buffer(width: int, height: int, refs: nat)

  type Buffers = map<BufferId, Buffer>

  /** size_t arithmetic is modulo this. */
  const SIZE_RANGE: nat := 0x1_0000_0000_0000_0000

  function PoolRef(pool: seq<BufferId>, b: BufferId): nat {
    if b in pool then 1 else 0
  }

  predicate Fits(live: Buffers, b: BufferId, width: int, height: int) {
    b in live && live[b].width == width && live[b].height == height
  }

  predicate Idle(live: Buffers, b: BufferId) {
    b in live && live[b].refs == 1
  }

  /** The buffers of one resolution, in list order. */
  function Fitting(pool: seq<BufferId>, live: Buffers, width: int, height: int): seq<BufferId> {
    if pool == [] then []
    else (if Fits(live, pool[0], width, height) then [pool[0]] else []) + Fitting(pool[1..], live, width, height)
  }

  function IdleCount(pool: seq<BufferId>, live: Buffers): nat {
    if pool == [] then 0 else (if Idle(live, pool[0]) then 1 else 0) + IdleCount(pool[1..], live)
  }

  /** The list without its first `n` idle buffers. */
  function Purged(pool: seq<BufferId>, live: Buffers, n: nat): seq<BufferId> {
    if pool == [] || n == 0 then pool
    else if Idle(live, pool[0]) then Purged(pool[1..], live, n - 1)
    else [pool[0]] + Purged(pool[1..], live, n)
  }

  /** The reference taken away; the last one frees the buffer. */
  function Unref(live: Buffers, b: BufferId): Buffers
    requires b in live && live[b].refs > 0
  {
    if live[b].refs == 1 then map k | k in live && k != b :: live[k]
    else live[b := live[b].(refs := live[b].refs - 1)]
  }

  /** Reference counts say who holds a buffer: the pool, once if at all, and the handles outside. */
  ghost predicate CountedAt(pool: seq<BufferId>, live: Buffers, held: multiset<BufferId>, next: BufferId, b: BufferId) {
    && (b in live <==> b in pool || b in held)
    && (b in live ==> b < next && live[b].refs == PoolRef(pool, b) + held[b])
  }

  ghost predicate Counted(pool: seq<BufferId>, live: Buffers, held: multiset<BufferId>, next: BufferId) {
    forall b: BufferId {:trigger CountedAt(pool, live, held, next, b)} {:trigger b in live} :: CountedAt(pool, live, held, next, b)
  }

  /** Buffers keep their resolution, and whoever lost no reference keeps its count. */
  ghost predicate SameSizes(before: Buffers, after: Buffers) {
    forall b :: b in after ==> b in before && Fits(before, b, after[b].width, after[b].height)
  }

  class VideoFrameBufferPool {
    var pool: seq<BufferId>
    var max: nat
    var live: Buffers
    var held: multiset<BufferId>
    var next: BufferId

    ghost predicate Valid()
      reads this
    {
      NoDup(pool) && Counted(pool, live, held, next) && |pool| <= max < SIZE_RANGE
    }

    constructor (max: nat)
      requires max < SIZE_RANGE
      ensures Valid() && pool == [] && held == multiset{} && this.max == max
    {
      pool, live, held, next := [], map[], multiset{}, 0;
      this.max := max;
    }

    /** mBuffers.erase(it). */
    method Erase(i: nat)
      requires NoDup(pool) && Counted(pool, live, held, next) && i < |pool|
      modifies this`pool, this`live
      ensures NoDup(pool) && Counted(pool, live, held, next) && SameSizes(old(live), live)
      ensures pool == old(pool)[..i] + old(pool)[i + 1..]
      ensures forall b :: b in live && b != old(pool)[i] ==> b in old(live) && live[b] == old(live)[b]
      ensures Idle(old(live), old(pool)[i]) ==> old(pool)[i] !in live
    {
      var b := pool[i];
      assert CountedAt(pool, live, held, next, b);
      ErasedCounts(pool, live, held, next, i);
      live := Unref(live, b);
      pool := pool[..i] + pool[i + 1..];
    }

    /** A copy of a handle is made outside. */
    method Retain(b: BufferId)
      requires Valid() && b in held
      modifies this`live, this`held
      ensures Valid() && held == old(held) + multiset{b} && SameSizes(old(live), live)
    {
      assert CountedAt(pool, live, held, next, b);
      RetainedCounts(pool, live, held, next, b);
      live := live[b := live[b].(refs := live[b].refs + 1)];
      held := held + multiset{b};
    }

    /** A handle outside goes away. */
    method Drop(b: BufferId)
      requires Valid() && b in held
      modifies this`live, this`held
      ensures Valid() && held == old(held) - multiset{b} && SameSizes(old(live), live)
    {
      assert CountedAt(pool, live, held, next, b);
      DroppedCounts(pool, live, held, next, b);
      live := Unref(live, b);
      held := held - multiset{b};
    }

    /** mBuffers.clear(): buffers still held outside survive, the others are freed. */
    method Release()
      requires Valid()
      modifies this`pool, this`live
      ensures Valid() && pool == [] && SameSizes(old(live), live)
    {
      while pool != []
        invariant NoDup(pool) && Counted(pool, live, held, next) && |pool| <= max && SameSizes(old(live), live)
        decreases |pool|
      {
        Erase(0);
      }
    }

    /** The first loop of get_existing_buffer: buffers of another resolution leave the pool. */
    method DropOthers(width: int, height: int)
      requires Valid()
      modifies this`pool, this`live
      ensures Valid() && SameSizes(old(live), live)
      ensures pool == Fitting(old(pool), old(live), width, height)
    {
      var i := 0;
      assert pool[0..] == pool;
      while i < |pool|
        invariant i <= |pool| <= max && NoDup(pool) && Counted(pool, live, held, next) && SameSizes(old(live), live)
        invariant pool[..i] + Fitting(pool[i..], old(live), width, height) == Fitting(old(pool), old(live), width, height)
        decreases |pool| - i
      {
        var b := pool[i];
        assert CountedAt(pool, live, held, next, b);
        FittingStep(pool, i, old(live), width, height);
        if live[b].width != width || live[b].height != height {
          Erase(i);
        } else {
          i := i + 1;
        }
      }
      assert pool[..i] == pool;
    }

    /** get_existing_buffer. */
    method GetExistingBuffer(width: int, height: int) returns (r: Option<BufferId>)
      requires Valid()
      modifies this`pool, this`live
      ensures Valid() && SameSizes(old(live), live)
      ensures pool == Fitting(old(pool), old(live), width, height)
      ensures r == FirstIdle(pool, held)
    {
      DropOthers(width, height);
      assert pool[0..] == pool;
      for i := 0 to |pool|
        invariant FirstIdle(pool[i..], held) == FirstIdle(pool, held)
      {
        assert CountedAt(pool, live, held, next, pool[i]);
        assert pool[i..][0] == pool[i] && pool[i..][1..] == pool[i + 1..];
        if live[pool[i]].refs == 1 {
          return Some(pool[i]);
        }
      }
      return None;
    }

    /** create_i420_buffer: recycle the first buffer of the resolution that nobody outside holds, else
        allocate one if the list may grow, else refuse. */
    method CreateBuffer(width: int, height: int) returns (r: Option<BufferId>)
      requires Valid()
      modifies this
      ensures Valid() && max == old(max)
      ensures var fitting := Fitting(old(pool), old(live), width, height);
        var idle := FirstIdle(fitting, old(held));
        && r == (if idle.Some? then idle else if |fitting| < max then Some(old(next)) else None)
        && pool == (if idle.None? && |fitting| < max then fitting + [old(next)] else fitting)
      ensures held == if r.Some? then old(held) + multiset{r.value} else old(held)
      ensures r.Some? ==> old(held)[r.value] == 0 && r.value in pool && Fits(live, r.value, width, height)
    {
      r := GetExistingBuffer(width, height);
      FirstIdleIsIdle(pool, held);
      if r.Some? {
        FittingFits(old(pool), old(live), width, height, r.value);
        HandOut(r.value);
        return;
      }
      if |pool| >= max {
        return;
      }
      r := Some(next);
      AddNew(width, height);
    }

    /** A handle on a buffer of the pool goes outside. */
    method HandOut(b: BufferId)
      requires Valid() && b in pool
      modifies this`live, this`held
      ensures Valid() && held == old(held) + multiset{b} && SameSizes(old(live), live) && b in live
    {
      assert CountedAt(pool, live, held, next, b);
      RetainedCounts(pool, live, held, next, b);
      live := live[b := live[b].(refs := live[b].refs + 1)];
      held := held + multiset{b};
    }

    /** A new buffer joins the list; its first handle goes outside. */
    method AddNew(width: int, height: int)
      requires Valid() && |pool| < max
      modifies this`live, this`held, this`pool, this`next
      ensures Valid() && pool == old(pool) + [old(next)] && held == old(held) + multiset{old(next)}
      ensures old(held)[old(next)] == 0 && Fits(live, old(next), width, height)
    {
      assert CountedAt(pool, live, held, next, next);
      AllocatedCounts(pool, live, held, next, width, height);
      live := live[next := Buffer(width, height, 2)];
      held := held + multiset{next};
      pool := pool + [next];
      next := next + 1;
    }

    /** resize. The number of buffers to purge is a size_t, so it wraps when the pool grows. */
    method Resize(n: nat) returns (ok: bool)
      requires Valid() && n < SIZE_RANGE
      modifies this`pool, this`live, this`max
      ensures Valid() && SameSizes(old(live), live)
      ensures ok <==> |old(pool)| - IdleCount(old(pool), old(live)) <= n
      ensures !ok ==> pool == old(pool) && live == old(live) && max == old(max)
      ensures ok ==> max == n && pool == Purged(old(pool), old(live), (|old(pool)| - n) % SIZE_RANGE)
    {
      var used := CountUsed();
      if used > n {
        return false;
      }
      max := n;
      var toPurge := (|pool| - n) % SIZE_RANGE;
      ResizedSize(pool, live, n);
      Purge(toPurge);
      return true;
    }

    method CountUsed() returns (used: nat)
      requires Counted(pool, live, held, next)
      ensures used + IdleCount(pool, live) == |pool|
    {
      used := 0;
      assert pool[0..] == pool;
      for i := 0 to |pool|
        invariant used + IdleCount(pool, live) == i + IdleCount(pool[i..], live)
      {
        assert CountedAt(pool, live, held, next, pool[i]);
        assert pool[i..][0] == pool[i] && pool[i..][1..] == pool[i + 1..];
        if live[pool[i]].refs != 1 {
          used := used + 1;
        }
      }
    }

    /** One idle buffer goes. */
    method PurgeOne(i: nat, ghost was: Buffers, ghost left: nat, ghost end: seq<BufferId>)
      requires NoDup(pool) && Counted(pool, live, held, next) && Subset(live, was)
      requires i < |pool| && Idle(live, pool[i]) && left > 0 && PurgesTo(pool[..i] + pool[i + 1..], i, was, left - 1, end)
      modifies this`pool, this`live
      ensures NoDup(pool) && Counted(pool, live, held, next) && Subset(live, was)
      ensures |pool| == |old(pool)| - 1 && PurgesTo(pool, i, was, left - 1, end)
    {
      Erase(i);
    }

    /** The purging loop of resize. */
    method Purge(n: nat)
      requires NoDup(pool) && Counted(pool, live, held, next)
      modifies this`pool, this`live
      ensures NoDup(pool) && Counted(pool, live, held, next) && SameSizes(old(live), live)
      ensures pool == Purged(old(pool), old(live), n)
    {
      var i, left := 0, n;
      ghost var was, end := live, Purged(pool, live, n);
      assert pool[0..] == pool;
      while i < |pool| && left > 0
        invariant NoDup(pool) && Counted(pool, live, held, next)
        invariant Subset(live, was)
        invariant PurgesTo(pool, i, was, left, end)
        decreases |pool| - i
      {
        var b := pool[i];
        assert CountedAt(pool, live, held, next, b) && live[b] == was[b];
        PurgedStep(pool, i, pool[..i] + pool[i + 1..], was, left, end);
        if live[b].refs == 1 {
          PurgeOne(i, was, left, end);
          left := left - 1;
        } else {
          i := i + 1;
        }
      }
      PurgedDone(pool, i, was, left, end);
    }
  }

  /** Some buffers are gone, the others as they were. */
  ghost predicate Subset(after: Buffers, before: Buffers) {
    forall b :: b in after ==> b in before && after[b] == before[b]
  }

  /** What is behind position `i` of the list still loses its first `n` idle buffers. */
  ghost predicate PurgesTo(pool: seq<BufferId>, i: nat, live: Buffers, n: nat, end: seq<BufferId>) {
    i <= |pool| && pool[..i] + Purged(pool[i..], live, n) == end
  }

  lemma {:induction false} PurgedDone(pool: seq<BufferId>, i: nat, live: Buffers, n: nat, end: seq<BufferId>)
    requires PurgesTo(pool, i, live, n, end) && (i == |pool| || n == 0)
    ensures pool == end
  {
    assert pool[..i] + pool[i..] == pool;
  }

  /** The first buffer that nobody outside the pool holds. */
  function FirstIdle(pool: seq<BufferId>, held: multiset<BufferId>): Option<BufferId> {
    if pool == [] then None else if held[pool[0]] == 0 then Some(pool[0]) else FirstIdle(pool[1..], held)
  }

  lemma {:induction false} FirstIdleIsIdle(pool: seq<BufferId>, held: multiset<BufferId>)
    ensures var r := FirstIdle(pool, held);
      if r.Some? then r.value in pool && held[r.value] == 0 else forall b :: b in pool ==> held[b] > 0
  {
    if pool == [] {
    } else {
      FirstIdleIsIdle(pool[1..], held);
    }
  }

  /** It is the first such in list order. */
  lemma {:induction false} FirstIdleIsFirst(pool: seq<BufferId>, held: multiset<BufferId>, i: nat)
    requires i < |pool| && held[pool[i]] == 0 && forall j :: 0 <= j < i ==> held[pool[j]] > 0
    ensures FirstIdle(pool, held) == Some(pool[i])
  {
    if i == 0 {
    } else {
      assert held[pool[0]] > 0;
      assert forall j :: 0 <= j < i - 1 ==> pool[1..][j] == pool[j + 1];
      FirstIdleIsFirst(pool[1..], held, i - 1);
    }
  }

  /** Filtering by resolution keeps the list order. */
  lemma {:induction false} FittingConcat(a: seq<BufferId>, b: seq<BufferId>, live: Buffers, width: int, height: int)
    ensures Fitting(a + b, live, width, height) == Fitting(a, live, width, height) + Fitting(b, live, width, height)
  {
    if a == [] {
      assert a + b == b;
    } else {
      assert (a + b)[0] == a[0] && (a + b)[1..] == a[1..] + b;
      FittingConcat(a[1..], b, live, width, height);
      Associate(if Fits(live, a[0], width, height) then [a[0]] else [], Fitting(a[1..], live, width, height), Fitting(b, live, width, height));
    }
  }

  lemma {:induction false} FittingFits(pool: seq<BufferId>, live: Buffers, width: int, height: int, b: BufferId)
    ensures b in Fitting(pool, live, width, height) <==> b in pool && Fits(live, b, width, height)
  {
    if pool == [] {
    } else {
      FittingFits(pool[1..], live, width, height, b);
    }
  }

  lemma {:induction false} AllocatedCounts(pool: seq<BufferId>, live: Buffers, held: multiset<BufferId>, next: BufferId, width: int, height: int)
    requires NoDup(pool) && Counted(pool, live, held, next)
    ensures NoDup(pool + [next])
    ensures Counted(pool + [next], live[next := Buffer(width, height, 2)], held + multiset{next}, next + 1)
  {
    assert CountedAt(pool, live, held, next, next);
    var grown, after, more, later := pool + [next], live[next := Buffer(width, height, 2)], held + multiset{next}, next + 1;
    forall b: BufferId ensures CountedAt(grown, after, more, later, b) {
      assert CountedAt(pool, live, held, next, b);
    }
  }

  lemma {:induction false} FittingStep(pool: seq<BufferId>, i: nat, live: Buffers, width: int, height: int)
    requires i < |pool|
    ensures var rest := pool[..i] + pool[i + 1..];
      pool[..i] + Fitting(pool[i..], live, width, height) ==
        if Fits(live, pool[i], width, height) then pool[..i + 1] + Fitting(pool[i + 1..], live, width, height)
        else rest[..i] + Fitting(rest[i..], live, width, height)
  {
    var tail, rest := pool[i..], pool[..i] + pool[i + 1..];
    assert tail[0] == pool[i] && tail[1..] == pool[i + 1..] && rest[..i] == pool[..i] && rest[i..] == pool[i + 1..];
  }

  lemma {:induction false} PurgedStep(pool: seq<BufferId>, i: nat, rest: seq<BufferId>, live: Buffers, n: nat, end: seq<BufferId>)
    requires i < |pool| && n > 0 && rest == pool[..i] + pool[i + 1..] && PurgesTo(pool, i, live, n, end)
    ensures if Idle(live, pool[i]) then PurgesTo(rest, i, live, n - 1, end) else PurgesTo(pool, i + 1, live, n, end)
  {
    var tail := pool[i..];
    assert tail[0] == pool[i] && tail[1..] == pool[i + 1..] && rest[..i] == pool[..i] && rest[i..] == pool[i + 1..];
  }

  // ---- what resize does ----

  lemma {:induction false} IdleAtMostAll(pool: seq<BufferId>, live: Buffers)
    ensures IdleCount(pool, live) <= |pool|
  {
    if pool == [] {
    } else {
      IdleAtMostAll(pool[1..], live);
    }
  }

  lemma {:induction false} PurgedSize(pool: seq<BufferId>, live: Buffers, n: nat)
    ensures |Purged(pool, live, n)| == |pool| - if n < IdleCount(pool, live) then n else IdleCount(pool, live)
  {
    if pool != [] && n > 0 {
      PurgedSize(pool[1..], live, if Idle(live, pool[0]) then n - 1 else n);
    }
  }

  /** Only idle buffers go. */
  lemma {:induction false} PurgedKeepsUsed(pool: seq<BufferId>, live: Buffers, n: nat, b: BufferId)
    ensures b in Purged(pool, live, n) ==> b in pool
    ensures b in pool && !Idle(live, b) ==> b in Purged(pool, live, n)
    ensures n >= IdleCount(pool, live) ==> (b in Purged(pool, live, n) <==> b in pool && !Idle(live, b))
  {
    if pool != [] && n > 0 {
      PurgedKeepsUsed(pool[1..], live, if Idle(live, pool[0]) then n - 1 else n, b);
    } else if pool != [] {
      NoneIdle(pool, live, b);
    }
  }

  lemma {:induction false} NoneIdle(pool: seq<BufferId>, live: Buffers, b: BufferId)
    ensures IdleCount(pool, live) == 0 && b in pool ==> !Idle(live, b)
  {
    if pool == [] {
    } else {
      NoneIdle(pool[1..], live, b);
    }
  }

  /** A successful resize leaves exactly `n` buffers when the pool shrinks; when it grows, the wrapped
      difference purges every idle buffer. Either way the list fits. */
  lemma {:induction false} ResizedSize(pool: seq<BufferId>, live: Buffers, n: nat)
    requires |pool| < SIZE_RANGE && n < SIZE_RANGE && |pool| - IdleCount(pool, live) <= n
    ensures var left := Purged(pool, live, (|pool| - n) % SIZE_RANGE);
      && |left| <= n
      && |left| == if n <= |pool| then n else |pool| - IdleCount(pool, live)
  {
    IdleAtMostAll(pool, live);
    PurgedSize(pool, live, (|pool| - n) % SIZE_RANGE);
  }

  /** Purging goes from the front: a buffer stays exactly if it is used or `n` idle ones stand before it. */
  lemma {:induction false} PurgedFromFront(pool: seq<BufferId>, live: Buffers, n: nat, i: nat)
    requires NoDup(pool) && i < |pool|
    ensures pool[i] in Purged(pool, live, n) <==> !Idle(live, pool[i]) || IdleCount(pool[..i], live) >= n
  {
    assert pool[0] !in pool[1..] && NoDup(pool[1..]);
    if n > 0 {
      var m := if Idle(live, pool[0]) then n - 1 else n;
      PurgedKeepsUsed(pool[1..], live, m, pool[0]);
      if i > 0 {
        assert pool[..i][0] == pool[0] && pool[..i][1..] == pool[1..][..i - 1] && pool[1..][i - 1] == pool[i];
        PurgedFromFront(pool[1..], live, m, i - 1);
      }
    }
  }

  /** Growing the pool throws away every buffer that could have been recycled, and nothing else. */
  lemma {:induction false} GrowingDropsEveryIdleBuffer(pool: seq<BufferId>, live: Buffers, n: nat, b: BufferId)
    requires |pool| < n < SIZE_RANGE
    ensures b in Purged(pool, live, (|pool| - n) % SIZE_RANGE) <==> b in pool && !Idle(live, b)
  {
    IdleAtMostAll(pool, live);
    PurgedKeepsUsed(pool, live, (|pool| - n) % SIZE_RANGE, b);
  }

  /** One idle buffer, a maximum raised from one to two, and the buffer is gone. */
  lemma {:induction false} GrowingLosesIdleBuffer()
    ensures var live: Buffers := map[0 := Buffer(4, 4, 1)];
      Counted([0], live, multiset{}, 1) && Idle(live, 0) && Purged([0], live, (1 - 2) % SIZE_RANGE) == []
  {
    var live: Buffers := map[0 := Buffer(4, 4, 1)];
    var pool: seq<BufferId> := [0];
    assert pool[1..] == [] && IdleCount(pool, live) == 1;
    ResizedSize(pool, live, 2);
  }

  lemma {:induction false} ErasedMember(pool: seq<BufferId>, i: nat, b: BufferId)
    requires NoDup(pool) && i < |pool|
    ensures NoDup(pool[..i] + pool[i + 1..])
    ensures b in pool[..i] + pool[i + 1..] <==> b in pool && b != pool[i]
  {
    var rest := pool[..i] + pool[i + 1..];
    assert forall k :: 0 <= k < |rest| ==> rest[k] == pool[if k < i then k else k + 1];
    if b in pool && b != pool[i] {
      var k :| 0 <= k < |pool| && pool[k] == b;
      assert rest[if k < i then k else k - 1] == b;
    }
  }

  lemma {:induction false} ErasedCounts(pool: seq<BufferId>, live: Buffers, held: multiset<BufferId>, next: BufferId, i: nat)
    requires NoDup(pool) && Counted(pool, live, held, next) && i < |pool| && pool[i] in live && live[pool[i]].refs > 0
    ensures var rest := pool[..i] + pool[i + 1..];
      NoDup(rest) && Counted(rest, Unref(live, pool[i]), held, next)
  {
    var rest := pool[..i] + pool[i + 1..];
    ErasedMember(pool, i, pool[i]);
    forall b: BufferId ensures CountedAt(rest, Unref(live, pool[i]), held, next, b) {
      assert CountedAt(pool, live, held, next, b);
      ErasedMember(pool, i, b);
    }
  }

  lemma {:induction false} RetainedCounts(pool: seq<BufferId>, live: Buffers, held: multiset<BufferId>, next: BufferId, b: BufferId)
    requires Counted(pool, live, held, next) && b in live
    ensures Counted(pool, live[b := live[b].(refs := live[b].refs + 1)], held + multiset{b}, next)
  {
    var after := live[b := live[b].(refs := live[b].refs + 1)];
    var more := held + multiset{b};
    forall k: BufferId ensures CountedAt(pool, after, more, next, k) {
      assert CountedAt(pool, live, held, next, k);
    }
  }

  lemma {:induction false} DroppedCounts(pool: seq<BufferId>, live: Buffers, held: multiset<BufferId>, next: BufferId, b: BufferId)
    requires Counted(pool, live, held, next) && b in held && b in live && live[b].refs > 0
    ensures Counted(pool, Unref(live, b), held - multiset{b}, next)
  {
    forall k: BufferId ensures CountedAt(pool, Unref(live, b), held - multiset{b}, next, k) {
      assert CountedAt(pool, live, held, next, k);
    }
  }
}
