/** What the event queue promises: over every interleaving of enqueue, pop and purge it is the
    stable descending-priority sort of the pending events in arrival order. */
module PriorityOrder {
  import opened KernelTypes
  import opened EventQueue

  ghost predicate Descending(q: seq<Entry>) {
    forall i, j :: 0 <= i < j < |q| ==> q[i].priority >= q[j].priority
  }

  /** The entries of priority `p`, in order. */
  function OfPriority(q: seq<Entry>, p: int): (r: seq<Entry>)
    ensures forall e {:trigger e in r} :: e in r <==> e in q && e.priority == p
  {
    if q == [] then []
    else if q[0].priority == p then [q[0]] + OfPriority(q[1..], p)
    else OfPriority(q[1..], p)
  }

  /** `q` lists `arrivals` by descending priority and, within a priority, in arrival order. */
  ghost predicate StableSortOf(q: seq<Entry>, arrivals: seq<Entry>) {
    && Descending(q)
    && forall p :: OfPriority(q, p) == OfPriority(arrivals, p)
  }

  /** The definition pins the queue down completely. */
  lemma {:induction false} StableSortUnique(a: seq<Entry>, b: seq<Entry>, arrivals: seq<Entry>)
    requires StableSortOf(a, arrivals) && StableSortOf(b, arrivals)
    ensures a == b
  {
    SameClasses(a, b);
  }

  lemma {:induction false} SameClasses(a: seq<Entry>, b: seq<Entry>)
    requires Descending(a) && Descending(b)
    requires forall p :: OfPriority(a, p) == OfPriority(b, p)
    ensures a == b
  {
    if a != [] {
      assert a[0] in OfPriority(b, a[0].priority);
    }
    if b != [] {
      assert b[0] in OfPriority(a, b[0].priority);
    }
    if a != [] {
      var p := a[0].priority;
      assert a[0] in OfPriority(b, p);
      assert b[0] in OfPriority(a, b[0].priority);
      assert b[0].priority == p;
      assert OfPriority(a, p)[0] == a[0] && OfPriority(b, p)[0] == b[0];
      forall k ensures OfPriority(a[1..], k) == OfPriority(b[1..], k) {
        assert OfPriority(a, k) == OfPriority(b, k);
        if k == p {
          assert OfPriority(a, p)[1..] == OfPriority(a[1..], p);
          assert OfPriority(b, p)[1..] == OfPriority(b[1..], p);
        }
      }
      SameClasses(a[1..], b[1..]);
    }
  }

  lemma {:induction false} OfPriorityConcat(a: seq<Entry>, b: seq<Entry>, p: int)
    ensures OfPriority(a + b, p) == OfPriority(a, p) + OfPriority(b, p)
  {
    if a == [] {
      assert a + b == b;
    } else {
      assert (a + b)[1..] == a[1..] + b;
      OfPriorityConcat(a[1..], b, p);
    }
  }

  lemma {:induction false} OfPriorityNone(q: seq<Entry>, p: int)
    requires forall e :: e in q ==> e.priority != p
    ensures OfPriority(q, p) == []
  {
    if q == [] {
    } else {
      OfPriorityNone(q[1..], p);
    }
  }

  lemma {:induction false} OfPriorityAll(q: seq<Entry>, p: int)
    requires forall e :: e in q ==> e.priority == p
    ensures OfPriority(q, p) == q
  {
    if q == [] {
    } else {
      OfPriorityAll(q[1..], p);
    }
  }

  lemma {:induction false} OfPriorityDrop(q: seq<Entry>, p: int, dead: set<ObjId>)
    ensures OfPriority(Drop(q, dead), p) == Drop(OfPriority(q, p), dead)
  {
    if q == [] {
    } else {
      OfPriorityDrop(q[1..], p, dead);
    }
  }

  lemma {:induction false} DropDescending(q: seq<Entry>, dead: set<ObjId>)
    requires Descending(q)
    ensures Descending(Drop(q, dead))
  {
    if q == [] {
    } else {
      DropDescending(q[1..], dead);
      assert forall e :: e in Drop(q[1..], dead) ==> e.priority <= q[0].priority;
    }
  }

  lemma {:induction false} InsertedOfPriority(q: seq<Entry>, e: Entry, p: int)
    requires Descending(q)
    ensures OfPriority(Inserted(q, e), p) == OfPriority(q, p) + (if p == e.priority then [e] else [])
  {
    if q == [] || q[0].priority < e.priority {
      assert ([e] + q)[1..] == q;
      if p == e.priority {
        OfPriorityNone(q, p);
      }
    } else {
      InsertedOfPriority(q[1..], e, p);
      assert Inserted(q, e)[1..] == Inserted(q[1..], e);
    }
  }

  lemma {:induction false} InsertedDescending(q: seq<Entry>, e: Entry)
    requires Descending(q)
    ensures Descending(Inserted(q, e))
  {
    if q != [] && q[0].priority >= e.priority {
      var tail := Inserted(q[1..], e);
      InsertedDescending(q[1..], e);
      forall k | 0 <= k < |tail| ensures tail[k].priority <= q[0].priority {
        InsertedMembers(q[1..], e, tail[k]);
      }
    }
  }

  /** Insertion keeps the queue sorted and puts the new entry behind its peers. */
  lemma {:induction false} InsertKeepsOrder(q: seq<Entry>, arrivals: seq<Entry>, e: Entry)
    requires StableSortOf(q, arrivals)
    ensures StableSortOf(Inserted(q, e), arrivals + [e])
  {
    InsertedDescending(q, e);
    forall p ensures OfPriority(Inserted(q, e), p) == OfPriority(arrivals + [e], p) {
      assert OfPriority(q, p) == OfPriority(arrivals, p);
      InsertedOfPriority(q, e, p);
      AppendedOfPriority(arrivals, e, p);
    }
  }

  lemma {:induction false} AppendedOfPriority(arrivals: seq<Entry>, e: Entry, p: int)
    ensures OfPriority(arrivals + [e], p) == OfPriority(arrivals, p) + (if p == e.priority then [e] else [])
  {
    OfPriorityConcat(arrivals, [e], p);
    assert [e][1..] == [];
    assert OfPriority([e], p) == if p == e.priority then [e] else [];
  }

  /** Where the oldest entry of highest priority sits in arrival order. */
  function OldestOfHighest(s: seq<Entry>): (i: nat)
    requires s != []
    ensures i < |s|
    ensures forall j :: 0 <= j < |s| ==> s[j].priority <= s[i].priority
    ensures forall j :: 0 <= j < i ==> s[j].priority < s[i].priority
  {
    var n := |s| - 1;
    if n == 0 then 0 else
      var k := OldestOfHighest(s[..n]);
      if s[n].priority > s[k].priority then n else k
  }

  function RemoveAt(s: seq<Entry>, i: nat): seq<Entry>
    requires i < |s|
  {
    s[..i] + s[i + 1..]
  }

  lemma {:induction false} RemoveAtOfPriority(s: seq<Entry>, i: nat, p: int)
    requires i < |s|
    requires forall j :: 0 <= j < i ==> s[j].priority != s[i].priority
    ensures OfPriority(s, p) == (if p == s[i].priority then [s[i]] else []) + OfPriority(RemoveAt(s, i), p)
  {
    if i == 0 {
      assert RemoveAt(s, 0) == s[1..];
    } else {
      RemoveAtOfPriority(s[1..], i - 1, p);
      assert RemoveAt(s, i) == [s[0]] + RemoveAt(s[1..], i - 1);
    }
  }

  lemma {:induction false} FrontIsOldestOfHighest(q: seq<Entry>, arrivals: seq<Entry>, i: nat)
    requires StableSortOf(q, arrivals) && q != [] && i < |arrivals|
    requires forall j :: 0 <= j < |arrivals| ==> arrivals[j].priority <= arrivals[i].priority
    requires forall j :: 0 <= j < i ==> arrivals[j].priority < arrivals[i].priority
    ensures q[0] == arrivals[i]
  {
    var h := q[0].priority;
    SameMembers(q, arrivals, q[0]);
    SameMembers(q, arrivals, arrivals[i]);
    assert h == arrivals[i].priority;
    RemoveAtOfPriority(arrivals, i, h);
    assert OfPriority(q, h) == OfPriority(arrivals, h);
    assert OfPriority(q, h)[0] == q[0];
  }

  /** The front of the queue is the oldest pending event of highest priority. */
  lemma {:induction false} PopTakesOldestOfHighest(q: seq<Entry>, arrivals: seq<Entry>)
    requires StableSortOf(q, arrivals) && q != []
    ensures arrivals != []
    ensures q[0] == arrivals[OldestOfHighest(arrivals)]
    ensures StableSortOf(q[1..], RemoveAt(arrivals, OldestOfHighest(arrivals)))
  {
    SameMembers(q, arrivals, q[0]);
    var i := OldestOfHighest(arrivals);
    FrontIsOldestOfHighest(q, arrivals, i);
    forall p ensures OfPriority(q[1..], p) == OfPriority(RemoveAt(arrivals, i), p) {
      assert OfPriority(q, p) == OfPriority(arrivals, p);
      RemoveAtOfPriority(arrivals, i, p);
      if p == q[0].priority {
        assert OfPriority(q, p) == [q[0]] + OfPriority(q[1..], p);
        assert OfPriority(q, p)[1..] == OfPriority(q[1..], p);
      }
    }
  }

  lemma {:induction false} PurgeKeepsOrder(q: seq<Entry>, arrivals: seq<Entry>, dead: set<ObjId>)
    requires StableSortOf(q, arrivals)
    ensures StableSortOf(Drop(q, dead), Drop(arrivals, dead))
  {
    DropDescending(q, dead);
    forall p ensures OfPriority(Drop(q, dead), p) == OfPriority(Drop(arrivals, dead), p) {
      OfPriorityDrop(q, p, dead);
      OfPriorityDrop(arrivals, p, dead);
    }
  }

  lemma {:induction false} SameMembers(q: seq<Entry>, arrivals: seq<Entry>, e: Entry)
    requires StableSortOf(q, arrivals)
    ensures e in q <==> e in arrivals
  {
    assert OfPriority(q, e.priority) == OfPriority(arrivals, e.priority);
    assert e in q <==> e in OfPriority(q, e.priority);
    assert e in arrivals <==> e in OfPriority(arrivals, e.priority);
  }

  lemma {:induction false} SameCompression(q: seq<Entry>, arrivals: seq<Entry>, e: Entry)
    requires StableSortOf(q, arrivals)
    ensures Compresses(q, e) <==> Compresses(arrivals, e)
  {
    if Compresses(q, e) {
      var i :| 0 <= i < |q| && q[i].receiver == e.receiver && q[i].kind.DeferredDelete?;
      SameMembers(q, arrivals, q[i]);
    }
    if Compresses(arrivals, e) {
      var i :| 0 <= i < |arrivals| && arrivals[i].receiver == e.receiver && arrivals[i].kind.DeferredDelete?;
      SameMembers(q, arrivals, arrivals[i]);
    }
  }

  datatype Op = Enqueue(entry: Entry) | Pop | Purge(receiver: ObjId)

  /** What is pending, and what has been popped so far. */
  datatype Outcome = Outcome(pending: seq<Entry>, popped: seq<Entry>)

  /** The queue as the code keeps it. */
  function Run(ops: seq<Op>): Outcome {
    if ops == [] then Outcome([], []) else
      var before := Run(ops[..|ops| - 1]);
      match ops[|ops| - 1]
      case Enqueue(e) => before.(pending := Enqueued(before.pending, e))
      case Pop => if before.pending == [] then before
                  else Outcome(before.pending[1..], before.popped + [before.pending[0]])
      case Purge(r) => before.(pending := Drop(before.pending, {r}))
  }

  /** The reference: a plain arrival-ordered list searched for its oldest entry of highest priority. */
  function Reference(ops: seq<Op>): Outcome {
    if ops == [] then Outcome([], []) else
      var before := Reference(ops[..|ops| - 1]);
      match ops[|ops| - 1]
      case Enqueue(e) => if Compresses(before.pending, e) then before
                         else before.(pending := before.pending + [e])
      case Pop => if before.pending == [] then before else
                    var i := OldestOfHighest(before.pending);
                    Outcome(RemoveAt(before.pending, i), before.popped + [before.pending[i]])
      case Purge(r) => before.(pending := Drop(before.pending, {r}))
  }

  /** Over every run the queue is the stable sort of what the reference holds, and pops the same events. */
  lemma {:induction false} RunMatchesReference(ops: seq<Op>)
    ensures StableSortOf(Run(ops).pending, Reference(ops).pending)
    ensures Run(ops).popped == Reference(ops).popped
  {
    if ops == [] {
    } else {
      var prefix := ops[..|ops| - 1];
      RunMatchesReference(prefix);
      var q, s := Run(prefix).pending, Reference(prefix).pending;
      match ops[|ops| - 1]
      case Enqueue(e) =>
        SameCompression(q, s, e);
        InsertKeepsOrder(q, s, e);
      case Pop =>
        if q != [] {
          PopTakesOldestOfHighest(q, s);
        } else if s != [] {
          SameMembers(q, s, s[0]);
        }
      case Purge(r) =>
        PurgeKeepsOrder(q, s, {r});
    }
  }

  /** With one priority throughout, the queue is plain first-in first-out. */
  lemma {:induction false} OnePriorityIsFifo(ops: seq<Op>, p: int)
    requires forall i :: 0 <= i < |ops| && ops[i].Enqueue? ==> ops[i].entry.priority == p
    ensures Run(ops).pending == Reference(ops).pending
    ensures forall e :: e in Run(ops).pending ==> e.priority == p
    ensures Run(ops).pending != [] ==> OldestOfHighest(Run(ops).pending) == 0
  {
    OnePriority(ops, p);
    RunMatchesReference(ops);
    OfPriorityAll(Run(ops).pending, p);
    OfPriorityAll(Reference(ops).pending, p);
    assert OfPriority(Run(ops).pending, p) == OfPriority(Reference(ops).pending, p);
  }

  lemma {:induction false} OnePriority(ops: seq<Op>, p: int)
    requires forall i :: 0 <= i < |ops| && ops[i].Enqueue? ==> ops[i].entry.priority == p
    ensures forall e :: e in Run(ops).pending || e in Reference(ops).pending ==> e.priority == p
  {
    if ops == [] {
    } else {
      var before := Run(ops[..|ops| - 1]).pending;
      OnePriority(ops[..|ops| - 1], p);
      forall x | x in Run(ops).pending ensures x.priority == p {
        if ops[|ops| - 1].Enqueue? {
          InsertedMembers(before, ops[|ops| - 1].entry, x);
        }
      }
    }
  }

  /** Appending a batch with push_back gives a sorted queue exactly when both are sorted and the batch starts
      no higher than the tail. */
  lemma {:induction false} AppendKeepsOrder(q: seq<Entry>, batch: seq<Entry>)
    ensures Descending(q + batch) <==>
      Descending(q) && Descending(batch) && (q == [] || batch == [] || q[|q| - 1].priority >= batch[0].priority)
  {
    var both := q + batch;
    if Descending(both) {
      forall i, j | 0 <= i < j < |q| ensures q[i].priority >= q[j].priority {
        assert both[i] == q[i] && both[j] == q[j];
      }
      forall i, j | 0 <= i < j < |batch| ensures batch[i].priority >= batch[j].priority {
        assert both[|q| + i] == batch[i] && both[|q| + j] == batch[j];
      }
      if q != [] && batch != [] {
        assert both[|q| - 1] == q[|q| - 1] && both[|q|] == batch[0];
      }
    }
  }
}
