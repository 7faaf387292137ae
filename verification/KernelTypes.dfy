/** Identifiers, queue entries and the list operations shared by the kernel modules. */
module KernelTypes {

  datatype Option<+T> = None | Some(value: T)

  type ObjId = nat
  type LoopId = nat
  type EventId = nat

  datatype EventKind = DeferredDelete | Ordinary

  /** One element of a loop's event queue: the queue owns the event. */
  datatype Entry = Entry(receiver: ObjId, event: EventId, kind: EventKind, priority: int)

  ghost predicate NoDup<T>(s: seq<T>) {
    forall i, j :: 0 <= i < j < |s| ==> s[i] != s[j]
  }

  /** `s` without the members of `dead`, order kept (std::list::remove, erase-remove). */
  function Minus<T(==,!new)>(s: seq<T>, dead: set<T>): (r: seq<T>)
    ensures forall x {:trigger x in r} :: x in r <==> x in s && x !in dead
    ensures |r| <= |s|
  {
    if s == [] then []
    else if s[0] in dead then Minus(s[1..], dead)
    else [s[0]] + Minus(s[1..], dead)
  }

  lemma {:induction false} MinusNoDup<T(!new)>(s: seq<T>, dead: set<T>)
    requires NoDup(s)
    ensures NoDup(Minus(s, dead))
  {
    if s == [] {
    } else {
      MinusNoDup(s[1..], dead);
      assert s[0] !in s[1..];
      var rest := Minus(s[1..], dead);
      assert s[0] !in rest;
      assert forall j :: 0 <= j < |rest| ==> rest[j] in rest;
    }
  }

  lemma {:induction false} MinusNone<T(!new)>(s: seq<T>, dead: set<T>)
    requires forall x :: x in s ==> x !in dead
    ensures Minus(s, dead) == s
  {
    if s == [] {
    } else {
      MinusNone(s[1..], dead);
    }
  }

  lemma {:induction false} MinusTwice<T(!new)>(s: seq<T>, a: set<T>, b: set<T>)
    ensures Minus(Minus(s, a), b) == Minus(s, a + b)
  {
    if s == [] {
    } else {
      MinusTwice(s[1..], a, b);
    }
  }

  lemma {:induction false} MinusConcat<T(!new)>(s: seq<T>, t: seq<T>, dead: set<T>)
    ensures Minus(s + t, dead) == Minus(s, dead) + Minus(t, dead)
  {
    if s == [] {
      assert s + t == t;
    } else {
      assert (s + t)[1..] == s[1..] + t;
      MinusConcat(s[1..], t, dead);
    }
  }

  lemma {:induction false} MinusLast<T(!new)>(s: seq<T>)
    requires s != [] && NoDup(s)
    ensures Minus(s, {s[|s| - 1]}) == s[..|s| - 1]
  {
    var n := |s| - 1;
    var rest := s[..n];
    assert s == rest + [s[n]];
    MinusConcat(rest, [s[n]], {s[n]});
    MinusNone(rest, {s[n]});
    assert Minus([s[n]], {s[n]}) == [];
  }

  lemma {:induction false} Associate<T>(a: seq<T>, b: seq<T>, c: seq<T>)
    ensures a + b + c == a + (b + c)
  {
  }

  lemma {:induction false} NoDupCount<T>(s: seq<T>, x: T)
    requires NoDup(s)
    ensures multiset(s)[x] == if x in s then 1 else 0
  {
    if s == [] {
    } else {
      NoDupCount(s[1..], x);
      assert s == [s[0]] + s[1..] && s[0] !in s[1..];
    }
  }
}
