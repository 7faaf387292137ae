/** copy_on_write handles over reference-counted payloads. To their holders the handles are independent
    values; underneath, each payload is freed exactly when its last handle lets go. */
module CopyOnWrite {
  import opened KernelTypes

  /** Handles named by callers are non-negative; the negative ones are the temporaries of an operation. */
  type HandleId = int
  type PayloadId = nat

  datatype Payload<T> = Payload(count: nat, value: T)

  /** A handle without a payload has been moved from. */
  type Handles = map<HandleId, Option<PayloadId>>

  type Payloads<T> = map<PayloadId, Payload<T>>

  function Holders(handles: Handles, p: PayloadId): set<HandleId> {
    set h | h in handles && handles[h] == Some(p)
  }

  ghost predicate CountIs<T>(payloads: Payloads<T>, handles: Handles, p: PayloadId) {
    p in payloads ==> payloads[p].count == |Holders(handles, p)| > 0
  }

  ghost predicate Counts<T>(payloads: Payloads<T>, handles: Handles) {
    forall p: PayloadId :: CountIs(payloads, handles, p)
  }

  ghost predicate Pointing<T>(payloads: Payloads<T>, handles: Handles) {
    forall h :: h in handles && handles[h].Some? ==> handles[h].value in payloads
  }

  /** Every payload ever made is live or has been freed, and freed once. */
  ghost predicate FreedOnce<T>(payloads: Payloads<T>, next: PayloadId, freed: seq<PayloadId>) {
    NoDup(freed) && forall p: PayloadId {:trigger p in freed} {:trigger p in payloads} ::
      (p in freed <==> p < next && p !in payloads) && (p in payloads ==> p < next)
  }

  function Read<T>(payloads: Payloads<T>, v: Option<PayloadId>): Option<T>
    requires v.Some? ==> v.value in payloads
  {
    if v.Some? then Some(payloads[v.value].value) else None
  }

  /** What each handle reads. */
  ghost function Reading<T>(payloads: Payloads<T>, handles: Handles): map<HandleId, Option<T>>
    requires Pointing(payloads, handles)
  {
    map h | h in handles :: Read(payloads, handles[h])
  }

  const TEMP: HandleId := -1
  const COPY: HandleId := -2

  class CowHeap<T> {
    var payloads: Payloads<T>
    var handles: Handles
    var next: PayloadId
    ghost var freed: seq<PayloadId>

    ghost predicate Counted()
      reads this
    {
      Pointing(payloads, handles) && Counts(payloads, handles) && FreedOnce(payloads, next, freed)
    }

    /** Between operations no temporary is left. */
    ghost predicate Valid()
      reads this
    {
      Counted() && forall h :: h in handles ==> h >= 0
    }

    ghost function Values(): map<HandleId, Option<T>>
      reads this
      requires Counted()
    {
      Reading(payloads, handles)
    }

    constructor ()
      ensures Valid() && Values() == map[] && freed == []
    {
      payloads, handles, next, freed := map[], map[], 0, [];
    }

    /** copy_on_write(x): a fresh payload with one holder. */
    method New(h: HandleId, value: T)
      requires Counted() && h !in handles
      modifies this
      ensures Counted() && Values() == old(Values())[h := Some(value)]
      ensures freed == old(freed) && handles == old(handles)[h := Some(old(next))]
    {
      BoundCounts(payloads, handles, h, next, value);
      SameReading(payloads, payloads[next := Payload(1, value)], handles);
      payloads := payloads[next := Payload(1, value)];
      handles := handles[h := Some(next)];
      next := next + 1;
    }

    /** The copy constructor. */
    method Copy(h: HandleId, x: HandleId)
      requires Counted() && h !in handles && x in handles && handles[x].Some?
      modifies this
      ensures Counted() && Values() == old(Values())[h := old(Values())[x]]
      ensures freed == old(freed) && handles == old(handles)[h := old(handles)[x]]
    {
      var p := handles[x].value;
      SharedCounts(payloads, handles, h, p);
      SameReading(payloads, payloads[p := payloads[p].(count := payloads[p].count + 1)], handles);
      handles := handles[h := Some(p)];
      payloads := payloads[p := payloads[p].(count := payloads[p].count + 1)];
    }

    /** The move constructor. */
    method Move(h: HandleId, x: HandleId)
      requires Counted() && h !in handles && x in handles
      modifies this`handles
      ensures Counted() && Values() == old(Values())[h := old(Values())[x]][x := None]
      ensures handles == old(handles)[h := old(handles)[x]][x := None]
    {
      MovedCounts(payloads, handles, h, x);
      handles := handles[h := handles[x]][x := None];
    }

    /** The destructor: the last holder frees the payload. */
    method Destroy(h: HandleId)
      requires Counted() && h in handles
      modifies this
      ensures Counted() && Values() == map k | k in old(Values()) && k != h :: old(Values())[k]
      ensures handles == Dropped(old(handles), h)
      ensures freed == if old(handles)[h].Some? && Holders(old(handles), old(handles)[h].value) == {h}
                       then old(freed) + [old(handles)[h].value] else old(freed)
    {
      if handles[h].Some? {
        var p := handles[h].value;
        LastHolder(handles, h, p);
        assert CountIs(payloads, handles, p);
        DroppedCounts(payloads, handles, h, p);
        if payloads[p].count == 1 {
          payloads := map q | q in payloads && q != p :: payloads[q];
          freed := freed + [p];
        } else {
          payloads := payloads[p := payloads[p].(count := payloads[p].count - 1)];
        }
      } else {
        EmptyDropped(payloads, handles, h);
      }
      handles := map k | k in handles && k != h :: handles[k];
    }

    method Swap(a: HandleId, b: HandleId)
      requires Counted() && a in handles && b in handles
      modifies this`handles
      ensures Counted() && Values() == old(Values())[a := old(Values())[b]][b := old(Values())[a]]
      ensures handles == old(handles)[a := old(handles)[b]][b := old(handles)[a]]
    {
      SwappedCounts(payloads, handles, a, b);
      handles := handles[a := handles[b]][b := handles[a]];
    }

    /** operator=(copy_on_write &&): through a temporary that takes the old payload with it. */
    method MoveAssign(h: HandleId, x: HandleId)
      requires Counted() && h in handles && x in handles && TEMP !in handles
      modifies this
      ensures Counted()
      ensures Values() == if h == x then old(Values()) else old(Values())[h := old(Values())[x]][x := None]
      ensures handles == if h == x then old(handles) else old(handles)[h := old(handles)[x]][x := None]
      ensures old(freed) <= freed
    {
      ThroughTemporary(handles, h, x, None);
      ThroughTemporary(Values(), h, x, None);
      Move(TEMP, x);
      Swap(h, TEMP);
      Destroy(TEMP);
    }

    /** operator=(const copy_on_write &). */
    method Assign(h: HandleId, x: HandleId)
      requires Valid() && h in handles && x in handles && (h == x || handles[x].Some?)
      modifies this
      ensures Valid() && Values() == old(Values())[h := old(Values())[x]]
      ensures handles == old(handles)[h := old(handles)[x]] && old(freed) <= freed
    {
      if h != x {
        Copy(COPY, x);
        MoveAssign(h, COPY);
        Destroy(COPY);
      }
    }

    /** Replacing the payload of `h` by a private copy of itself. */
    method Unshare(h: HandleId)
      requires Valid() && h in handles && handles[h].Some?
      modifies this
      ensures Valid() && Values() == old(Values())
      ensures handles == old(handles)[h := Some(old(next))] && old(freed) <= freed
    {
      New(COPY, payloads[handles[h].value].value);
      MoveAssign(h, COPY);
      Destroy(COPY);
    }

    /** write() followed by storing `value`: a shared payload is copied first. */
    method Write(h: HandleId, value: T)
      requires Valid() && h in handles && handles[h].Some?
      modifies this
      ensures Valid() && Values() == old(Values())[h := Some(value)]
      ensures old(freed) <= freed
    {
      ghost var p0, made := handles[h].value, next;
      assert CountIs(payloads, handles, p0);
      if payloads[handles[h].value].count != 1 {
        FreshHolder(payloads, handles, h, made);
        Unshare(h);
        assert CountIs(payloads, handles, made);
      }
      var p := handles[h].value;
      OnlyHolder(handles, h, p);
      StoredCounts(payloads, handles, p, value);
      StoredReading(payloads, handles, h, p, value);
      payloads := payloads[p := payloads[p].(value := value)];
    }

    /** Any client: whatever it does with its handles, they read as independent values. */
    method Perform(ops: seq<Op<T>>)
      requires Valid() && Allowed(Values(), ops)
      modifies this
      ensures Valid() && Values() == Outcome(old(Values()), ops) && old(freed) <= freed
      decreases |ops|
    {
      if ops != [] {
        match ops[0] {
          case Make(h, value) => New(h, value);
          case CopyFrom(h, x) => Copy(h, x);
          case MoveFrom(h, x) => Move(h, x);
          case Drop(h) => Destroy(h);
          case Exchange(a, b) => Swap(a, b);
          case SetByMove(h, x) => MoveAssign(h, x);
          case SetByCopy(h, x) => Assign(h, x);
          case Store(h, value) => Write(h, value);
        }
        Perform(ops[1..]);
      }
    }
  }

  // ---- The reference: handles as plain variables ----

  datatype Op<T> =
    | Make(h: HandleId, value: T)
    | CopyFrom(h: HandleId, x: HandleId)
    | MoveFrom(h: HandleId, x: HandleId)
    | Drop(h: HandleId)
    | Exchange(a: HandleId, b: HandleId)
    | SetByMove(h: HandleId, x: HandleId)
    | SetByCopy(h: HandleId, x: HandleId)
    | Store(h: HandleId, value: T)

  type Variables<T> = map<HandleId, Option<T>>

  ghost predicate Legal<T>(vars: Variables<T>, op: Op<T>) {
    match op
    case Make(h, _) => 0 <= h && h !in vars
    case CopyFrom(h, x) => 0 <= h && h !in vars && x in vars && vars[x].Some?
    case MoveFrom(h, x) => 0 <= h && h !in vars && x in vars
    case Drop(h) => h in vars
    case Exchange(a, b) => a in vars && b in vars
    case SetByMove(h, x) => h in vars && x in vars
    case SetByCopy(h, x) => h in vars && x in vars && (h == x || vars[x].Some?)
    case Store(h, _) => h in vars && vars[h].Some?
  }

  ghost function After<T>(vars: Variables<T>, op: Op<T>): Variables<T>
    requires Legal(vars, op)
  {
    match op
    case Make(h, value) => vars[h := Some(value)]
    case CopyFrom(h, x) => vars[h := vars[x]]
    case MoveFrom(h, x) => vars[h := vars[x]][x := None]
    case Drop(h) => map k | k in vars && k != h :: vars[k]
    case Exchange(a, b) => vars[a := vars[b]][b := vars[a]]
    case SetByMove(h, x) => if h == x then vars else vars[h := vars[x]][x := None]
    case SetByCopy(h, x) => vars[h := vars[x]]
    case Store(h, value) => vars[h := Some(value)]
  }

  ghost predicate Allowed<T>(vars: Variables<T>, ops: seq<Op<T>>)
    decreases |ops|
  {
    ops != [] ==> Legal(vars, ops[0]) && Allowed(After(vars, ops[0]), ops[1..])
  }

  ghost function Outcome<T>(vars: Variables<T>, ops: seq<Op<T>>): Variables<T>
    requires Allowed(vars, ops)
    decreases |ops|
  {
    if ops == [] then vars else Outcome(After(vars, ops[0]), ops[1..])
  }

  ghost predicate Touches<T>(op: Op<T>, h: HandleId) {
    match op
    case Make(k, _) => k == h
    case CopyFrom(k, _) => k == h
    case MoveFrom(k, x) => k == h || x == h
    case Drop(k) => k == h
    case Exchange(a, b) => a == h || b == h
    case SetByMove(k, x) => k == h || x == h
    case SetByCopy(k, _) => k == h
    case Store(k, _) => k == h
  }

  /** A snapshot held in a handle that no operation of the run writes never changes. */
  lemma {:induction false} HeldSnapshotIsStable<T>(vars: Variables<T>, ops: seq<Op<T>>, h: HandleId)
    requires Allowed(vars, ops) && h in vars
    requires forall i :: 0 <= i < |ops| ==> !Touches(ops[i], h)
    ensures h in Outcome(vars, ops) && Outcome(vars, ops)[h] == vars[h]
    decreases |ops|
  {
    if ops == [] {
    } else {
      assert !Touches(ops[0], h);
      HeldSnapshotIsStable(After(vars, ops[0]), ops[1..], h);
    }
  }

  /** Once no handle is left, every payload ever made has been freed, each once. */
  lemma {:induction false} NothingLeaks<T>(payloads: Payloads<T>, handles: Handles, next: PayloadId, freed: seq<PayloadId>)
    requires Counts(payloads, handles) && FreedOnce(payloads, next, freed) && handles == map[]
    ensures payloads == map[] && NoDup(freed) && forall p: PayloadId :: p in freed <==> p < next
  {
    forall p: PayloadId ensures p !in payloads {
      assert CountIs(payloads, handles, p);
      assert Holders(handles, p) == {};
    }
  }

  function Dropped(handles: Handles, h: HandleId): Handles {
    map k | k in handles && k != h :: handles[k]
  }

  // ---- What each operation does to the holders of a payload ----

  lemma {:induction false} BoundCounts<T>(payloads: Payloads<T>, handles: Handles, h: HandleId, p: PayloadId, value: T)
    requires Pointing(payloads, handles) && Counts(payloads, handles) && h !in handles && p !in payloads
    ensures Counts(payloads[p := Payload(1, value)], handles[h := Some(p)])
  {
    var after, bound := payloads[p := Payload(1, value)], handles[h := Some(p)];
    Unpointed(payloads, handles, p);
    forall q: PayloadId ensures CountIs(after, bound, q) {
      assert CountIs(payloads, handles, q);
      if q == p {
        forall k ensures k in Holders(bound, q) <==> k == h {
          assert k in bound && k != h ==> k in handles && bound[k] == handles[k];
        }
        assert Holders(bound, q) == {h};
      } else {
        assert Holders(bound, q) == Holders(handles, q);
      }
    }
  }

  lemma {:induction false} SharedCounts<T>(payloads: Payloads<T>, handles: Handles, h: HandleId, p: PayloadId)
    requires Counts(payloads, handles) && h !in handles && p in payloads
    ensures Counts(payloads[p := payloads[p].(count := payloads[p].count + 1)], handles[h := Some(p)])
  {
    var after, bound := payloads[p := payloads[p].(count := payloads[p].count + 1)], handles[h := Some(p)];
    forall q: PayloadId ensures CountIs(after, bound, q) {
      assert CountIs(payloads, handles, q);
      if q == p {
        assert Holders(bound, q) == Holders(handles, q) + {h};
      } else {
        assert Holders(bound, q) == Holders(handles, q);
      }
    }
  }

  lemma {:induction false} MovedCounts<T>(payloads: Payloads<T>, handles: Handles, h: HandleId, x: HandleId)
    requires Counts(payloads, handles) && h !in handles && x in handles
    ensures Counts(payloads, handles[h := handles[x]][x := None])
  {
    var moved := handles[h := handles[x]][x := None];
    forall q: PayloadId ensures CountIs(payloads, moved, q) {
      assert CountIs(payloads, handles, q);
      if handles[x] == Some(q) {
        assert Holders(moved, q) == Holders(handles, q) - {x} + {h};
      } else {
        assert Holders(moved, q) == Holders(handles, q);
      }
    }
  }

  lemma {:induction false} DroppedCounts<T>(payloads: Payloads<T>, handles: Handles, h: HandleId, p: PayloadId)
    requires Pointing(payloads, handles) && Counts(payloads, handles)
    requires h in handles && handles[h] == Some(p)
    ensures payloads[p].count == 1 ==>
      && var kept := map q | q in payloads && q != p :: payloads[q];
      && Pointing(kept, Dropped(handles, h)) && Counts(kept, Dropped(handles, h))
    ensures payloads[p].count > 1 ==>
      Counts(payloads[p := payloads[p].(count := payloads[p].count - 1)], Dropped(handles, h))
  {
    assert CountIs(payloads, handles, p);
    LastHolder(handles, h, p);
    forall q: PayloadId | q in payloads
      ensures Holders(Dropped(handles, h), q) == if q == p then Holders(handles, p) - {h} else Holders(handles, q)
      ensures payloads[q].count == |Holders(handles, q)| > 0
    {
      assert CountIs(payloads, handles, q);
    }
    if payloads[p].count == 1 {
      assert forall k :: k in Dropped(handles, h) && handles[k] == Some(p) ==> k in Holders(handles, p);
    }
  }

  lemma {:induction false} EmptyDropped<T>(payloads: Payloads<T>, handles: Handles, h: HandleId)
    requires Counts(payloads, handles) && h in handles && handles[h].None?
    ensures Counts(payloads, Dropped(handles, h))
  {
    forall q: PayloadId ensures CountIs(payloads, Dropped(handles, h), q) {
      assert CountIs(payloads, handles, q);
      assert Holders(Dropped(handles, h), q) == Holders(handles, q);
    }
  }

  lemma {:induction false} Replaced(s: set<HandleId>, a: HandleId, b: HandleId)
    requires a in s && b !in s
    ensures |s - {a} + {b}| == |s|
  {
  }

  lemma {:induction false} PassedOn(handles: Handles, swapped: Handles, a: HandleId, b: HandleId, q: PayloadId)
    requires a in handles && b in handles && a != b && swapped == handles[a := handles[b]][b := handles[a]]
    requires handles[a] == Some(q) && handles[b] != Some(q)
    ensures |Holders(swapped, q)| == |Holders(handles, q)|
  {
    var before := Holders(handles, q);
    forall k ensures k in Holders(swapped, q) <==> k in before - {a} + {b} {
    }
    assert Holders(swapped, q) == before - {a} + {b};
    Replaced(before, a, b);
  }

  lemma {:induction false} SwappedHolders(handles: Handles, swapped: Handles, a: HandleId, b: HandleId, q: PayloadId)
    requires a in handles && b in handles && handles[a] != handles[b] && swapped == handles[a := handles[b]][b := handles[a]]
    ensures |Holders(swapped, q)| == |Holders(handles, q)|
  {
    if handles[a] == Some(q) {
      PassedOn(handles, swapped, a, b, q);
    } else if handles[b] == Some(q) {
      assert swapped == handles[b := handles[a]][a := handles[b]];
      PassedOn(handles, swapped, b, a, q);
    } else {
      assert Holders(swapped, q) == Holders(handles, q);
    }
  }

  lemma {:induction false} SwappedCounts<T>(payloads: Payloads<T>, handles: Handles, a: HandleId, b: HandleId)
    requires Counts(payloads, handles) && a in handles && b in handles
    ensures Counts(payloads, handles[a := handles[b]][b := handles[a]])
  {
    var swapped := handles[a := handles[b]][b := handles[a]];
    if handles[a] == handles[b] {
      assert swapped == handles;
    } else {
      forall q: PayloadId ensures CountIs(payloads, swapped, q) {
        assert CountIs(payloads, handles, q);
        SwappedHolders(handles, swapped, a, b, q);
      }
    }
  }

  lemma {:induction false} StoredCounts<T>(payloads: Payloads<T>, handles: Handles, p: PayloadId, value: T)
    requires Counts(payloads, handles) && p in payloads
    ensures Counts(payloads[p := payloads[p].(value := value)], handles)
  {
    var after := payloads[p := payloads[p].(value := value)];
    forall q: PayloadId ensures CountIs(after, handles, q) {
      assert CountIs(payloads, handles, q);
    }
  }

  lemma {:induction false} LastHolder(handles: Handles, h: HandleId, p: PayloadId)
    requires h in handles && handles[h] == Some(p)
    ensures |Holders(handles, p)| == 1 <==> Holders(handles, p) == {h}
  {
    assert h in Holders(handles, p);
    if |Holders(handles, p)| == 1 {
      assert |Holders(handles, p) - {h}| == 0;
      assert Holders(handles, p) == {h} + (Holders(handles, p) - {h});
    }
  }

  lemma {:induction false} OnlyHolder(handles: Handles, h: HandleId, p: PayloadId)
    requires h in handles && handles[h] == Some(p) && |Holders(handles, p)| == 1
    ensures forall k :: k in handles && handles[k] == Some(p) ==> k == h
  {
    LastHolder(handles, h, p);
    assert forall k :: k in handles && handles[k] == Some(p) ==> k in Holders(handles, p);
  }

  lemma {:induction false} FreshHolder<T>(payloads: Payloads<T>, handles: Handles, h: HandleId, p: PayloadId)
    requires Pointing(payloads, handles) && p !in payloads
    ensures Holders(handles[h := Some(p)], p) == {h}
  {
    Unpointed(payloads, handles, p);
    var bound := handles[h := Some(p)];
    forall k ensures k in Holders(bound, p) <==> k == h {
      assert k in bound && k != h ==> k in handles && bound[k] == handles[k];
    }
  }

  lemma {:induction false} Unpointed<T>(payloads: Payloads<T>, handles: Handles, p: PayloadId)
    requires Pointing(payloads, handles) && p !in payloads
    ensures forall k :: k in handles ==> handles[k] != Some(p)
  {
    forall k | k in handles ensures handles[k] != Some(p) {
      assert handles[k].Some? ==> handles[k].value in payloads;
    }
  }

  // ---- What each operation does to the values read ----

  /** Move to the temporary, swap it in, drop it. */
  lemma {:induction false} ThroughTemporary<V>(m: map<HandleId, V>, h: HandleId, x: HandleId, none: V)
    requires h in m && x in m && TEMP !in m
    ensures var taken := m[TEMP := m[x]][x := none];
      var swapped := taken[h := taken[TEMP]][TEMP := taken[h]];
      (map k | k in swapped && k != TEMP :: swapped[k]) == if h == x then m else m[h := m[x]][x := none]
  {
  }

  lemma {:induction false} SameReading<T>(payloads: Payloads<T>, after: Payloads<T>, handles: Handles)
    requires Pointing(payloads, handles)
    requires forall q: PayloadId :: q in payloads ==> q in after && after[q].value == payloads[q].value
    ensures Pointing(after, handles) && Reading(after, handles) == Reading(payloads, handles)
  {
    forall k | k in handles
      ensures handles[k].Some? ==> handles[k].value in after
      ensures Read(after, handles[k]) == Read(payloads, handles[k])
    {
      assert handles[k].Some? ==> handles[k].value in payloads;
    }
    assert Reading(after, handles).Keys == Reading(payloads, handles).Keys;
  }

  lemma {:induction false} StoredReading<T>(payloads: Payloads<T>, handles: Handles, h: HandleId, p: PayloadId, value: T)
    requires Pointing(payloads, handles) && h in handles && handles[h] == Some(p)
    requires forall k :: k in handles && handles[k] == Some(p) ==> k == h
    ensures var after := payloads[p := payloads[p].(value := value)];
      Pointing(after, handles) && Reading(after, handles) == Reading(payloads, handles)[h := Some(value)]
  {
    var after := payloads[p := payloads[p].(value := value)];
    forall k | k in handles && k != h ensures Read(after, handles[k]) == Read(payloads, handles[k]) {
      assert handles[k] != Some(p);
    }
  }
}
