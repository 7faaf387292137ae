/** The event queue of one loop: deferred-delete compression, stable priority insertion,
    per-receiver removal. Each method is proved against the function of the same idea; `deleted` collects
    the events that the code deletes on the way. */
module EventQueue {
  import opened KernelTypes

  /** A deferred delete of `r` is already queued. */
  predicate HasDeferred(q: seq<Entry>, r: ObjId) {
    exists i :: 0 <= i < |q| && q[i].receiver == r && q[i].kind.DeferredDelete?
  }

  /** Enqueueing `e` would only duplicate a queued deferred delete. */
  predicate Compresses(q: seq<Entry>, e: Entry) {
    e.kind.DeferredDelete? && HasDeferred(q, e.receiver)
  }

  /** `e` goes before the first entry of strictly smaller priority. */
  function Inserted(q: seq<Entry>, e: Entry): seq<Entry> {
    if q == [] || q[0].priority < e.priority then [e] + q
    else [q[0]] + Inserted(q[1..], e)
  }

  lemma {:induction false} InsertedAt(q: seq<Entry>, e: Entry, i: nat)
    requires i <= |q|
    requires forall j :: 0 <= j < i ==> q[j].priority >= e.priority
    requires i < |q| ==> q[i].priority < e.priority
    ensures Inserted(q, e) == q[..i] + [e] + q[i..]
  {
    if i == 0 {
    } else {
      InsertedAt(q[1..], e, i - 1);
      assert q[..i] == [q[0]] + q[1..][..i - 1] && q[1..][i - 1..] == q[i..];
    }
  }

  lemma {:induction false} InsertedMembers(q: seq<Entry>, e: Entry, x: Entry)
    ensures x in Inserted(q, e) <==> x in q || x == e
  {
    if q != [] && q[0].priority >= e.priority {
      InsertedMembers(q[1..], e, x);
    }
  }

  function Enqueued(q: seq<Entry>, e: Entry): seq<Entry> {
    if Compresses(q, e) then q else Inserted(q, e)
  }

  /** `q` without the entries of the receivers in `dead`. */
  function Drop(q: seq<Entry>, dead: set<ObjId>): (r: seq<Entry>)
    ensures forall e {:trigger e in r} :: e in r <==> e in q && e.receiver !in dead
    ensures |r| <= |q|
  {
    if q == [] then []
    else if q[0].receiver in dead then Drop(q[1..], dead)
    else [q[0]] + Drop(q[1..], dead)
  }

  /** Only the entries of receiver `r`. */
  function Only(q: seq<Entry>, r: ObjId): (s: seq<Entry>)
    ensures forall e {:trigger e in s} :: e in s <==> e in q && e.receiver == r
  {
    if q == [] then []
    else if q[0].receiver == r then [q[0]] + Only(q[1..], r)
    else Only(q[1..], r)
  }

  function Events(q: seq<Entry>): multiset<EventId> {
    if q == [] then multiset{} else multiset{q[0].event} + Events(q[1..])
  }

  lemma {:induction false} EventsConcat(a: seq<Entry>, b: seq<Entry>)
    ensures Events(a + b) == Events(a) + Events(b)
  {
    if a == [] {
      assert a + b == b;
    } else {
      assert (a + b)[1..] == a[1..] + b;
      EventsConcat(a[1..], b);
    }
  }

  lemma {:induction false} EventsCons(e: Entry, q: seq<Entry>)
    ensures Events([e] + q) == multiset{e.event} + Events(q)
  {
    assert ([e] + q)[1..] == q;
  }

  lemma {:induction false} EventsSnoc(q: seq<Entry>, x: Entry, e: EventId)
    ensures Events(q + [x])[e] == Events(q)[e] + if x.event == e then 1 else 0
  {
    if q == [] {
      assert q + [x] == [x] && [x][1..] == [];
    } else {
      assert (q + [x])[1..] == q[1..] + [x];
      EventsSnoc(q[1..], x, e);
    }
  }

  /** Inserting moves no entry and loses none. */
  lemma {:induction false} EventsInserted(q: seq<Entry>, e: Entry)
    ensures Events(Inserted(q, e)) == Events(q) + multiset{e.event}
  {
    if q == [] || q[0].priority < e.priority {
      EventsCons(e, q);
    } else {
      EventsInserted(q[1..], e);
      EventsCons(q[0], Inserted(q[1..], e));
    }
  }

  /** Taking a receiver's entries out splits the queue's events in two. */
  lemma {:induction false} EventsSplit(q: seq<Entry>, r: ObjId)
    ensures Events(q) == Events(Drop(q, {r})) + Events(Only(q, r))
  {
    if q == [] {
    } else {
      EventsSplit(q[1..], r);
      assert ([q[0]] + Drop(q[1..], {r}))[1..] == Drop(q[1..], {r});
      assert ([q[0]] + Only(q[1..], r))[1..] == Only(q[1..], r);
    }
  }

  lemma {:induction false} DropConcat(a: seq<Entry>, b: seq<Entry>, dead: set<ObjId>)
    ensures Drop(a + b, dead) == Drop(a, dead) + Drop(b, dead)
  {
    if a == [] {
      assert a + b == b;
    } else {
      assert (a + b)[1..] == a[1..] + b;
      DropConcat(a[1..], b, dead);
    }
  }

  lemma {:induction false} DropRemoveAt(q: seq<Entry>, k: nat, dead: set<ObjId>)
    requires k < |q| && q[k].receiver in dead
    ensures Drop(q[..k] + q[k + 1..], dead) == Drop(q, dead)
  {
    DropConcat(q[..k], q[k + 1..], dead);
    DropConcat(q[..k], q[k..], dead);
    assert q == q[..k] + q[k..] && q[k..][1..] == q[k + 1..];
  }

  lemma {:induction false} OnlyConcat(a: seq<Entry>, b: seq<Entry>, r: ObjId)
    ensures Only(a + b, r) == Only(a, r) + Only(b, r)
  {
    if a == [] {
      assert a + b == b;
    } else {
      assert (a + b)[1..] == a[1..] + b;
      OnlyConcat(a[1..], b, r);
    }
  }

  lemma {:induction false} DropTwice(q: seq<Entry>, a: set<ObjId>, b: set<ObjId>)
    ensures Drop(Drop(q, a), b) == Drop(q, a + b)
  {
    if q == [] {
    } else {
      DropTwice(q[1..], a, b);
    }
  }

  lemma {:induction false} DropNone(q: seq<Entry>, dead: set<ObjId>)
    requires forall e :: e in q ==> e.receiver !in dead
    ensures Drop(q, dead) == q
  {
    if q == [] {
    } else {
      DropNone(q[1..], dead);
    }
  }

  /** Removing other receivers leaves the order of `r`'s entries alone. */
  lemma {:induction false} OnlyAfterDrop(q: seq<Entry>, r: ObjId, dead: set<ObjId>)
    ensures Only(Drop(q, dead), r) == if r in dead then [] else Only(q, r)
  {
    if q == [] {
    } else {
      OnlyAfterDrop(q[1..], r, dead);
    }
  }

  lemma {:induction false} OnlyNone(q: seq<Entry>, r: ObjId)
    requires forall e :: e in q ==> e.receiver != r
    ensures Only(q, r) == []
  {
    if q == [] {
    } else {
      OnlyNone(q[1..], r);
    }
  }

  lemma {:induction false} OnlyAll(q: seq<Entry>, r: ObjId)
    requires forall e :: e in q ==> e.receiver == r
    ensures Only(q, r) == q
  {
    if q == [] {
    } else {
      OnlyAll(q[1..], r);
    }
  }

  // ---- counting the deferred deletes of one receiver ----

  function Requests(q: seq<Entry>, o: ObjId): nat {
    if q == [] then 0
    else (if q[0].receiver == o && q[0].kind.DeferredDelete? then 1 else 0) + Requests(q[1..], o)
  }

  lemma {:induction false} RequestsConcat(a: seq<Entry>, b: seq<Entry>, o: ObjId)
    ensures Requests(a + b, o) == Requests(a, o) + Requests(b, o)
  {
    if a == [] {
      assert a + b == b;
    } else {
      assert (a + b)[1..] == a[1..] + b;
      RequestsConcat(a[1..], b, o);
    }
  }

  lemma {:induction false} RequestsInserted(q: seq<Entry>, e: Entry, o: ObjId)
    ensures Requests(Inserted(q, e), o) == Requests(q, o) + if e.receiver == o && e.kind.DeferredDelete? then 1 else 0
  {
    if q == [] || q[0].priority < e.priority {
      assert ([e] + q)[1..] == q;
    } else {
      RequestsInserted(q[1..], e, o);
      assert ([q[0]] + Inserted(q[1..], e))[1..] == Inserted(q[1..], e);
    }
  }

  lemma {:induction false} RequestsDropped(q: seq<Entry>, dead: set<ObjId>, o: ObjId)
    ensures Requests(Drop(q, dead), o) == if o in dead then 0 else Requests(q, o)
  {
    if q == [] {
    } else {
      RequestsDropped(q[1..], dead, o);
      assert q[0].receiver !in dead ==> ([q[0]] + Drop(q[1..], dead))[1..] == Drop(q[1..], dead);
    }
  }

  lemma {:induction false} RequestsOfOnly(q: seq<Entry>, o: ObjId)
    ensures Requests(Only(q, o), o) == Requests(q, o)
  {
    if q == [] {
    } else {
      RequestsOfOnly(q[1..], o);
      assert q[0].receiver == o ==> ([q[0]] + Only(q[1..], o))[1..] == Only(q[1..], o);
    }
  }

  lemma {:induction false} RequestsNone(q: seq<Entry>, o: ObjId)
    requires forall e :: e in q ==> e.receiver != o
    ensures Requests(q, o) == 0
  {
    if q == [] {
    } else {
      RequestsNone(q[1..], o);
    }
  }

  /** There is one exactly when the count says so. */
  lemma {:induction false} RequestedIff(q: seq<Entry>, o: ObjId)
    ensures HasDeferred(q, o) <==> Requests(q, o) > 0
  {
    if q == [] {
    } else {
      RequestedIff(q[1..], o);
      if HasDeferred(q, o) {
        var i :| 0 <= i < |q| && q[i].receiver == o && q[i].kind.DeferredDelete?;
        assert i == 0 || q[1..][i - 1] == q[i];
      }
      if HasDeferred(q[1..], o) {
        var i :| 0 <= i < |q[1..]| && q[1..][i].receiver == o && q[1..][i].kind.DeferredDelete?;
        assert q[i + 1] == q[1..][i];
      }
    }
  }

  /** `e` changes nothing if it would be the second deferred delete of its receiver; otherwise it is in the
      queue, once more than before, and everything else is there as before. */
  lemma {:induction false} EnqueuedCounts(q: seq<Entry>, e: Entry)
    ensures e.kind.DeferredDelete? && Requests(q, e.receiver) > 0 ==> Enqueued(q, e) == q
    ensures !(e.kind.DeferredDelete? && Requests(q, e.receiver) > 0) ==>
      multiset(Enqueued(q, e)) == multiset(q) + multiset{e}
  {
    RequestedIff(q, e.receiver);
    InsertedOnce(q, e);
  }

  lemma {:induction false} InsertedOnce(q: seq<Entry>, e: Entry)
    ensures multiset(Inserted(q, e)) == multiset(q) + multiset{e}
  {
    if q == [] || q[0].priority < e.priority {
    } else {
      InsertedOnce(q[1..], e);
      assert q == [q[0]] + q[1..];
    }
  }

  // ---- the code ----

  method EnqueueEvent(q: seq<Entry>, e: Entry) returns (r: seq<Entry>, accepted: bool)
    ensures r == Enqueued(q, e)
    ensures accepted == !Compresses(q, e)
    ensures if e.kind.DeferredDelete? && Requests(q, e.receiver) > 0 then r == q && !accepted
      else multiset(r) == multiset(q) + multiset{e} && accepted
  {
    EnqueuedCounts(q, e);
    RequestedIff(q, e.receiver);
    if e.kind.DeferredDelete? {
      for k := 0 to |q|
        invariant forall j :: 0 <= j < k ==> !(q[j].receiver == e.receiver && q[j].kind.DeferredDelete?)
      {
        if q[k].receiver == e.receiver && q[k].kind.DeferredDelete? {
          return q, false;
        }
      }
    }
    var at := 0;
    while at < |q| && !(q[at].priority < e.priority)
      invariant 0 <= at <= |q|
      invariant forall j :: 0 <= j < at ==> q[j].priority >= e.priority
    {
      at := at + 1;
    }
    InsertedAt(q, e, at);
    return q[..at] + [e] + q[at..], true;
  }

  method RemovePendingEvents(q: seq<Entry>, r: ObjId) returns (rest: seq<Entry>, ghost deleted: seq<Entry>)
    ensures rest == Drop(q, {r}) && deleted == Only(q, r)
  {
    rest, deleted := q, [];
    var k := 0;
    while k < |rest|
      invariant 0 <= k <= |rest|
      invariant forall j :: 0 <= j < k ==> rest[j].receiver != r
      invariant Drop(rest, {r}) == Drop(q, {r})
      invariant deleted + Only(rest, r) == Only(q, r)
      decreases |rest| - k
    {
      if rest[k].receiver == r {
        DropRemoveAt(rest, k, {r});
        OnlyRemoveAt(rest, k, r);
        deleted := deleted + [rest[k]];
        rest := rest[..k] + rest[k + 1..];
      } else {
        k := k + 1;
      }
    }
    DropNone(rest, {r});
    OnlyNone(rest, r);
  }

  lemma {:induction false} OnlyRemoveAt(q: seq<Entry>, k: nat, r: ObjId)
    requires k < |q| && q[k].receiver == r && forall j :: 0 <= j < k ==> q[j].receiver != r
    ensures Only(q, r) == [q[k]] + Only(q[..k] + q[k + 1..], r)
  {
    assert q == q[..k] + ([q[k]] + q[k + 1..]);
    OnlyConcat(q[..k], [q[k]] + q[k + 1..], r);
    OnlyConcat(q[..k], q[k + 1..], r);
    OnlyNone(q[..k], r);
    assert Only([q[k]] + q[k + 1..], r) == [q[k]] + Only(q[k + 1..], r);
  }

  method TakeEventsFor(q: seq<Entry>, r: ObjId) returns (rest: seq<Entry>, taken: seq<Entry>)
    ensures rest == Drop(q, {r}) && taken == Only(q, r)
  {
    taken, rest := [], [];
    var entries := q;
    while entries != []
      invariant rest + Drop(entries, {r}) == Drop(q, {r})
      invariant taken + Only(entries, r) == Only(q, r)
      decreases |entries|
    {
      var entry := entries[0];
      entries := entries[1..];
      if entry.receiver == r {
        taken := taken + [entry];
      } else {
        rest := rest + [entry];
      }
    }
  }

  method PopEventEntry(q: seq<Entry>) returns (entry: Option<Entry>, rest: seq<Entry>)
    ensures q == [] ==> entry == None && rest == []
    ensures q != [] ==> entry.Some? && q == [entry.value] + rest
  {
    if q == [] {
      return None, [];
    }
    return Some(q[0]), q[1..];
  }

  /** push_back of one entry after the other. */
  method AppendAll(q: seq<Entry>, entries: seq<Entry>) returns (r: seq<Entry>)
    ensures r == q + entries
  {
    r := q;
    var left := entries;
    while left != []
      invariant r + left == q + entries
      decreases |left|
    {
      r, left := r + [left[0]], left[1..];
    }
  }

  /** The events of the entries are deleted, nothing is dispatched. */
  method DeleteAll(entries: seq<Entry>) returns (ghost deleted: seq<Entry>)
    ensures deleted == entries
  {
    deleted := [];
    var left := entries;
    while left != []
      invariant deleted + left == entries
      decreases |left|
    {
      deleted, left := deleted + [left[0]], left[1..];
    }
  }
}
