/** The slot list of a signal: groups in ascending order, slots that remember where they are listed,
    removal by swapping with the last slot of the group. */
module SlotList {

  type SlotId = nat
  type GroupId = int

  datatype Group = Group(gid: GroupId, slots: seq<SlotId>)

  /** SlotState: the stored position and the flags that callers see. */
  datatype Slot = Slot(group: GroupId, index: nat, connected: bool, blocked: bool)

  type Slots = map<SlotId, Slot>

  /** Whether an emission that reaches the slot calls it. */
  predicate Live(slots: Slots, s: SlotId) {
    s in slots && slots[s].connected && !slots[s].blocked
  }

  ghost predicate Ascending(groups: seq<Group>) {
    forall i, j :: 0 <= i < j < |groups| ==> groups[i].gid < groups[j].gid
  }

  /** Every slot of the group stores its real position and this group. */
  ghost predicate Indexed(slots: Slots, g: Group) {
    forall i :: 0 <= i < |g.slots| ==> At(slots, g.slots[i], g.gid, i)
  }

  predicate At(slots: Slots, s: SlotId, gid: GroupId, i: nat) {
    s in slots && slots[s].index == i && slots[s].group == gid
  }

  ghost predicate WellListed(groups: seq<Group>, slots: Slots) {
    && Ascending(groups)
    && forall g :: 0 <= g < |groups| ==> Indexed(slots, groups[g])
  }

  ghost predicate Listed(groups: seq<Group>, s: SlotId) {
    exists g :: 0 <= g < |groups| && s in groups[g].slots
  }

  /** The invocation order: group after group. */
  function Order(groups: seq<Group>): seq<SlotId> {
    if groups == [] then [] else groups[0].slots + Order(groups[1..])
  }

  /** How many slots the groups before the g-th hold. */
  function Before(groups: seq<Group>, g: nat): nat
    requires g <= |groups|
  {
    if g == 0 then 0 else Before(groups, g - 1) + |groups[g - 1].slots|
  }

  lemma {:induction false} BeforeRest(groups: seq<Group>, g: nat)
    requires 0 < g <= |groups|
    ensures Before(groups, g) == |groups[0].slots| + Before(groups[1..], g - 1)
  {
    if g == 1 {
    } else {
      BeforeRest(groups, g - 1);
    }
  }

  /** The i-th slot of the g-th group is called behind all groups before it and behind the slots that stand
      before it in its own group. */
  lemma {:induction false} OrderPlaces(groups: seq<Group>, g: nat, i: nat)
    requires g < |groups| && i < |groups[g].slots|
    ensures |Order(groups)| == Before(groups, |groups|)
    ensures Before(groups, g) + i < |Order(groups)| && Order(groups)[Before(groups, g) + i] == groups[g].slots[i]
  {
    OrderLength(groups);
    if g == 0 {
    } else {
      BeforeRest(groups, g);
      OrderPlaces(groups[1..], g - 1, i);
    }
  }

  lemma {:induction false} OrderLength(groups: seq<Group>)
    ensures |Order(groups)| == Before(groups, |groups|)
  {
    if groups == [] {
    } else {
      OrderLength(groups[1..]);
      BeforeRest(groups, |groups|);
    }
  }

  /** No slot is listed twice. */
  lemma {:induction false} ListedOnce(groups: seq<Group>, slots: Slots, g: nat, i: nat, h: nat, j: nat)
    requires WellListed(groups, slots)
    requires g < |groups| && i < |groups[g].slots| && h < |groups| && j < |groups[h].slots|
    requires groups[g].slots[i] == groups[h].slots[j]
    ensures g == h && i == j
  {
    assert Indexed(slots, groups[g]) && Indexed(slots, groups[h]);
    assert At(slots, groups[g].slots[i], groups[g].gid, i) && At(slots, groups[h].slots[j], groups[h].gid, j);
  }

  lemma {:induction false} OrderMembers(groups: seq<Group>, s: SlotId)
    ensures s in Order(groups) <==> Listed(groups, s)
  {
    if groups == [] {
    } else {
      OrderMembers(groups[1..], s);
      if Listed(groups, s) {
        var g :| 0 <= g < |groups| && s in groups[g].slots;
        if g > 0 {
          assert groups[1..][g - 1] == groups[g];
        }
      }
      if Listed(groups[1..], s) {
        var g :| 0 <= g < |groups[1..]| && s in groups[1..][g].slots;
        assert groups[g + 1] == groups[1..][g];
      }
    }
  }

  lemma {:induction false} ListedIsKnown(groups: seq<Group>, slots: Slots, s: SlotId)
    requires WellListed(groups, slots) && s in Order(groups)
    ensures s in slots
  {
    OrderMembers(groups, s);
    var g :| 0 <= g < |groups| && s in groups[g].slots;
    var i :| 0 <= i < |groups[g].slots| && groups[g].slots[i] == s;
    assert Indexed(slots, groups[g]) && At(slots, s, groups[g].gid, i);
  }

  /** The invocation order is ascending in groups and free of repetitions. */
  lemma {:induction false} OrderIsAscending(groups: seq<Group>, slots: Slots)
    requires WellListed(groups, slots)
    ensures var order := Order(groups);
      && (forall i :: 0 <= i < |order| ==> order[i] in slots)
      && (forall i, j :: 0 <= i < j < |order| && order[i] in slots && order[j] in slots ==>
            slots[order[i]].group <= slots[order[j]].group && order[i] != order[j])
  {
    if groups == [] {
    } else {
      var head, rest := groups[0].slots, groups[1..];
      assert forall g :: 0 <= g < |rest| ==> rest[g] == groups[g + 1];
      OrderIsAscending(rest, slots);
      assert Indexed(slots, groups[0]);
      forall j | 0 <= j < |Order(rest)| ensures Order(rest)[j] in slots && slots[Order(rest)[j]].group > groups[0].gid {
        LaterGroups(rest, slots, groups[0].gid, Order(rest)[j]);
      }
      var order := Order(groups);
      assert order == head + Order(rest);
      forall i, j | 0 <= i < j < |order| && order[i] in slots && order[j] in slots
        ensures slots[order[i]].group <= slots[order[j]].group && order[i] != order[j]
      {
        if i < |head| {
          assert At(slots, head[i], groups[0].gid, i);
          if j < |head| {
            assert At(slots, head[j], groups[0].gid, j);
          } else {
            assert order[j] == Order(rest)[j - |head|];
          }
        } else {
          assert order[i] == Order(rest)[i - |head|] && order[j] == Order(rest)[j - |head|];
        }
      }
    }
  }

  lemma {:induction false} LaterGroups(groups: seq<Group>, slots: Slots, gid: GroupId, s: SlotId)
    requires forall g :: 0 <= g < |groups| ==> groups[g].gid > gid && Indexed(slots, groups[g])
    requires s in Order(groups)
    ensures s in slots && slots[s].group > gid
  {
    OrderMembers(groups, s);
    var g :| 0 <= g < |groups| && s in groups[g].slots;
    var i :| 0 <= i < |groups[g].slots| && groups[g].slots[i] == s;
    assert At(slots, s, groups[g].gid, i);
  }

  // ---- changes to one group ----

  /** The last slot takes the place of the i-th. */
  function SwapRemoved(s: seq<SlotId>, i: nat): (r: seq<SlotId>)
    requires i < |s|
    ensures |r| == |s| - 1 && forall j :: 0 <= j < |r| ==> r[j] == if j == i then s[|s| - 1] else s[j]
  {
    s[i := s[|s| - 1]][..|s| - 1]
  }

  /** How many slots of the list satisfy `cond`. */
  function Matching(s: seq<SlotId>, cond: SlotId -> bool): nat {
    if s == [] then 0 else (if cond(s[0]) then 1 else 0) + Matching(s[1..], cond)
  }

  lemma {:induction false} MatchingConcat(a: seq<SlotId>, b: seq<SlotId>, cond: SlotId -> bool)
    ensures Matching(a + b, cond) == Matching(a, cond) + Matching(b, cond)
  {
    if a == [] {
      assert a + b == b;
    } else {
      assert (a + b)[1..] == a[1..] + b;
      MatchingConcat(a[1..], b, cond);
    }
  }

  lemma {:induction false} MatchingNone(s: seq<SlotId>, cond: SlotId -> bool)
    requires forall x :: x in s ==> !cond(x)
    ensures Matching(s, cond) == 0
  {
    if s == [] {
    } else {
      MatchingNone(s[1..], cond);
    }
  }

  /** Swap and drop removes one occurrence of the slot at `i`, nothing else. */
  lemma {:induction false} MatchingSwapRemoved(s: seq<SlotId>, i: nat, cond: SlotId -> bool)
    requires i < |s|
    ensures Matching(s, cond) == Matching(SwapRemoved(s, i), cond) + if cond(s[i]) then 1 else 0
  {
    var n := |s| - 1;
    assert s == s[..n] + [s[n]];
    MatchingConcat(s[..n], [s[n]], cond);
    if i < n {
      var a, b := s[..i], s[i + 1..n];
      assert s[..n] == a + [s[i]] + b && SwapRemoved(s, i) == a + [s[n]] + b;
      MatchingConcat(a + [s[i]], b, cond);
      MatchingConcat(a + [s[n]], b, cond);
      MatchingConcat(a, [s[i]], cond);
      MatchingConcat(a, [s[n]], cond);
    } else {
      assert SwapRemoved(s, i) == s[..n];
    }
  }

  /** Re-indexing the slot that moved into place `i` keeps the group indexed. */
  lemma {:induction false} SwapRemoveKeepsIndex(slots: Slots, g: Group, i: nat)
    requires Indexed(slots, g) && i < |g.slots|
    ensures var last := g.slots[|g.slots| - 1];
      last in slots && Indexed(slots[last := slots[last].(index := i)], g.(slots := SwapRemoved(g.slots, i)))
    ensures forall x :: x in SwapRemoved(g.slots, i) <==> x in g.slots && x != g.slots[i]
  {
    var n := |g.slots| - 1;
    var last := g.slots[n];
    assert At(slots, last, g.gid, n);
    var less := SwapRemoved(g.slots, i);
    forall k | 0 <= k < |g.slots| ensures At(slots, g.slots[k], g.gid, k) && (g.slots[k] == g.slots[i] ==> k == i) && (g.slots[k] == last ==> k == n) {
      assert At(slots, g.slots[i], g.gid, i);
    }
    forall x | x in g.slots && x != g.slots[i] ensures x in less {
      var k :| 0 <= k < |g.slots| && g.slots[k] == x;
      assert if k == n then less[i] == x else less[k] == x;
    }
  }

  /** A slot of this group can be re-indexed without disturbing any other group. */
  lemma {:induction false} OtherGroupsStay(slots: Slots, s: SlotId, i: nat, g: Group)
    requires s in slots && slots[s].group != g.gid && Indexed(slots, g)
    ensures Indexed(slots[s := slots[s].(index := i)], g)
  {
    var slots' := slots[s := slots[s].(index := i)];
    forall k | 0 <= k < |g.slots| ensures At(slots', g.slots[k], g.gid, k) {
      assert At(slots, g.slots[k], g.gid, k);
    }
  }

  /** A slot object made later is in no list yet. */
  lemma {:induction false} NewSlotIsUnlisted(slots: Slots, s: SlotId, x: Slot, g: Group)
    requires s !in slots && Indexed(slots, g)
    ensures Indexed(slots[s := x], g) && s !in g.slots
  {
    forall k | 0 <= k < |g.slots| ensures At(slots[s := x], g.slots[k], g.gid, k) && g.slots[k] != s {
      assert At(slots, g.slots[k], g.gid, k);
    }
  }

  // ---- add_slot ----

  /** The list after add_slot: last in its group, which is made in place if it is missing. */
  function Added(groups: seq<Group>, s: SlotId, gid: GroupId): seq<Group> {
    if groups == [] || gid < groups[0].gid then [Group(gid, [s])] + groups
    else if groups[0].gid == gid then [Group(gid, groups[0].slots + [s])] + groups[1..]
    else [groups[0]] + Added(groups[1..], s, gid)
  }

  /** How many slots the group holds already. */
  function Room(groups: seq<Group>, gid: GroupId): nat {
    if groups == [] || gid < groups[0].gid then 0
    else if groups[0].gid == gid then |groups[0].slots|
    else Room(groups[1..], gid)
  }

  lemma {:induction false} AddedAt(groups: seq<Group>, s: SlotId, gid: GroupId, at: nat)
    requires at <= |groups| && (forall g :: 0 <= g < at ==> groups[g].gid < gid)
    requires at < |groups| ==> groups[at].gid >= gid
    ensures at < |groups| && groups[at].gid == gid ==>
      Room(groups, gid) == |groups[at].slots| && Added(groups, s, gid) == groups[at := Group(gid, groups[at].slots + [s])]
    ensures at == |groups| || groups[at].gid != gid ==>
      Room(groups, gid) == 0 && Added(groups, s, gid) == groups[..at] + [Group(gid, [s])] + groups[at..]
  {
    if at > 0 {
      AddedAt(groups[1..], s, gid, at - 1);
      if at < |groups| && groups[at].gid == gid {
        ConsUpdate(groups, at, Group(gid, groups[at].slots + [s]));
      } else {
        ConsInsert(groups, at, Group(gid, [s]));
      }
    } else if at < |groups| && groups[0].gid == gid {
      assert groups[0 := Group(gid, groups[0].slots + [s])] == [Group(gid, groups[0].slots + [s])] + groups[1..];
    } else {
      assert groups[..0] == [] && groups[0..] == groups;
    }
  }

  lemma {:induction false} ConsUpdate(groups: seq<Group>, at: nat, g: Group)
    requires 0 < at < |groups|
    ensures [groups[0]] + groups[1..][at - 1 := g] == groups[at := g]
  {
  }

  lemma {:induction false} ConsInsert(groups: seq<Group>, at: nat, g: Group)
    requires 0 < at <= |groups|
    ensures [groups[0]] + (groups[1..][..at - 1] + [g] + groups[1..][at - 1..]) == groups[..at] + [g] + groups[at..]
  {
    assert groups[..at] == [groups[0]] + groups[1..][..at - 1] && groups[1..][at - 1..] == groups[at..];
  }

  lemma {:induction false} AddedGids(groups: seq<Group>, s: SlotId, gid: GroupId, low: GroupId)
    requires low < gid && forall g :: 0 <= g < |groups| ==> low < groups[g].gid
    ensures forall g :: 0 <= g < |Added(groups, s, gid)| ==> low < Added(groups, s, gid)[g].gid
  {
    if groups != [] && groups[0].gid < gid {
      AddedGids(groups[1..], s, gid, low);
    }
  }

  lemma {:induction false} AddedAscending(groups: seq<Group>, s: SlotId, gid: GroupId)
    requires Ascending(groups)
    ensures Ascending(Added(groups, s, gid))
  {
    if groups != [] && groups[0].gid < gid {
      AddedAscending(groups[1..], s, gid);
      AddedGids(groups[1..], s, gid, groups[0].gid);
    }
  }

  lemma {:induction false} AddedIndexed(groups: seq<Group>, slots: Slots, s: SlotId, gid: GroupId, x: Slot)
    requires s !in slots && x.group == gid && x.index == Room(groups, gid)
    requires forall g :: 0 <= g < |groups| ==> Indexed(slots, groups[g])
    ensures forall g :: 0 <= g < |Added(groups, s, gid)| ==> Indexed(slots[s := x], Added(groups, s, gid)[g])
  {
    var after := Added(groups, s, gid);
    forall g | 0 <= g < |groups| ensures Indexed(slots[s := x], groups[g]) {
      NewSlotIsUnlisted(slots, s, x, groups[g]);
    }
    if groups == [] || gid < groups[0].gid {
      assert forall g :: 0 < g < |after| ==> after[g] == groups[g - 1];
    } else if groups[0].gid == gid {
      assert forall g :: 0 < g < |after| ==> after[g] == groups[g];
      assert Indexed(slots[s := x], groups[0]);
    } else {
      AddedIndexed(groups[1..], slots, s, gid, x);
    }
  }

  /** add_slot lists exactly one slot more. */
  lemma {:induction false} AddedMembers(groups: seq<Group>, s: SlotId, gid: GroupId, y: SlotId)
    ensures y in Order(Added(groups, s, gid)) <==> y in Order(groups) || y == s
  {
    var after := Added(groups, s, gid);
    if groups == [] || gid < groups[0].gid {
      assert after[1..] == groups;
    } else if groups[0].gid == gid {
      assert after[1..] == groups[1..];
    } else {
      AddedMembers(groups[1..], s, gid, y);
      assert after[1..] == Added(groups[1..], s, gid);
    }
  }

  // ---- the list as the signal keeps it ----

  /** Only stored positions differ. */
  ghost predicate SameFlags(slots: Slots, slots': Slots) {
    slots'.Keys == slots.Keys && forall s :: s in slots ==> slots'[s] == slots[s].(index := slots'[s].index)
  }

  /** `after` is `before` with the slots in `gone` taken off, group by group. */
  ghost predicate TakenOff(before: seq<Group>, after: seq<Group>, gone: SlotId -> bool) {
    && |after| == |before|
    && forall g :: 0 <= g < |before| ==> GroupTakenOff(before[g], after[g], gone)
  }

  ghost predicate GroupTakenOff(before: Group, after: Group, gone: SlotId -> bool) {
    after.gid == before.gid && forall x :: x in after.slots <==> x in before.slots && !gone(x)
  }

  /** `now` has lost some of `start`, but nothing that does not match. */
  ghost predicate Between(start: seq<SlotId>, now: seq<SlotId>, cond: SlotId -> bool) {
    && (forall x :: x in now ==> x in start)
    && (forall x :: x in start && !cond(x) ==> x in now)
  }

  ghost predicate NoneBefore(s: seq<SlotId>, i: nat, cond: SlotId -> bool) {
    i <= |s| && forall k :: 0 <= k < i ==> !cond(s[k])
  }

  lemma {:induction false} SwapRemovedAfter(s: seq<SlotId>, i: nat, cond: SlotId -> bool)
    requires i < |s| && NoneBefore(s, i, cond)
    ensures NoneBefore(SwapRemoved(s, i), i, cond)
  {
  }

  lemma {:induction false} NoneBeforeNext(s: seq<SlotId>, i: nat, cond: SlotId -> bool)
    requires i < |s| && NoneBefore(s, i, cond) && !cond(s[i])
    ensures NoneBefore(s, i + 1, cond)
  {
  }

  lemma {:induction false} SwapRemovedBetween(slots: Slots, start: seq<SlotId>, g: Group, i: nat, cond: SlotId -> bool)
    requires Indexed(slots, g) && i < |g.slots| && Between(start, g.slots, cond) && cond(g.slots[i])
    ensures Between(start, SwapRemoved(g.slots, i), cond)
  {
    SwapRemoveKeepsIndex(slots, g, i);
  }

  lemma {:induction false} AllKept(start: seq<SlotId>, now: seq<SlotId>, cond: SlotId -> bool)
    requires Between(start, now, cond) && forall k :: 0 <= k < |now| ==> !cond(now[k])
    ensures forall x :: x in now <==> x in start && !cond(x)
  {
  }

  class SignalSlots {
    var groups: seq<Group>
    var slots: Slots

    ghost predicate Valid()
      reads this
    {
      WellListed(groups, slots)
    }

    constructor ()
      ensures Valid() && groups == [] && slots == map[]
    {
      groups, slots := [], map[];
    }

    method AddSlot(s: SlotId, gid: GroupId)
      requires Valid() && s !in slots
      modifies this
      ensures Valid()
      ensures groups == Added(old(groups), s, gid)
      ensures slots == old(slots)[s := Slot(gid, Room(old(groups), gid), true, false)]
    {
      var at := 0;
      while at < |groups| && groups[at].gid < gid
        invariant 0 <= at <= |groups| && groups == old(groups) && slots == old(slots)
        invariant forall g :: 0 <= g < at ==> groups[g].gid < gid
      {
        at := at + 1;
      }
      AddedAt(groups, s, gid, at);
      AddedAscending(groups, s, gid);
      AddedIndexed(groups, slots, s, gid, Slot(gid, Room(groups, gid), true, false));
      ghost var before := groups;
      if at == |groups| || groups[at].gid != gid {
        groups := groups[..at] + [Group(gid, [])] + groups[at..];
        assert groups[at := Group(gid, [s])] == before[..at] + [Group(gid, [s])] + before[at..];
        assert groups[at].slots + [s] == [s];
      }
      var index := |groups[at].slots|;
      groups := groups[at := Group(gid, groups[at].slots + [s])];
      assert groups == Added(before, s, gid);
      slots := slots[s := Slot(gid, index, true, false)];
    }

    /** Swap place `i` of group `g` with its last slot, re-index that one, drop the last place. */
    method RemoveAt(g: nat, i: nat)
      requires Valid() && g < |groups| && i < |groups[g].slots|
      modifies this
      ensures Valid() && SameFlags(old(slots), slots)
      ensures groups == old(groups)[g := Group(old(groups)[g].gid, SwapRemoved(old(groups)[g].slots, i))]
    {
      var group := groups[g];
      var last := group.slots[|group.slots| - 1];
      assert Indexed(slots, group) && At(slots, last, group.gid, |group.slots| - 1);
      SwapRemoveKeepsIndex(slots, group, i);
      forall h | 0 <= h < |groups| && h != g ensures Indexed(slots[last := slots[last].(index := i)], groups[h]) {
        OtherGroupsStay(slots, last, i, groups[h]);
      }
      groups := groups[g := Group(group.gid, SwapRemoved(group.slots, i))];
      slots := slots[last := slots[last].(index := i)];
    }

    /** SignalBase::clean. However stale the stored position, it takes off the slot itself or nothing. */
    method Clean(s: SlotId)
      requires Valid() && s in slots
      modifies this
      ensures Valid() && SameFlags(old(slots), slots)
      ensures TakenOff(old(groups), groups, x => x == s)
      ensures !Listed(old(groups), s) ==> groups == old(groups) && slots == old(slots)
    {
      var idx, gid := slots[s].index, slots[s].group;
      var g := 0;
      while g < |groups|
        invariant 0 <= g <= |groups| && groups == old(groups) && slots == old(slots)
        invariant forall h :: 0 <= h < g ==> groups[h].gid != gid
      {
        if groups[g].gid == gid {
          OnlyAtItsIndex(groups, slots, s, g);
          if idx < |groups[g].slots| && groups[g].slots[idx] == s {
            SwapRemoveKeepsIndex(slots, groups[g], idx);
            RemoveAt(g, idx);
          }
          return;
        }
        g := g + 1;
      }
      NoGroupNotListed(groups, slots, s);
    }

    /** The inner loop of disconnect_if on one group. */
    method SiftGroup(g: nat, cond: SlotId -> bool) returns (count: nat)
      requires Valid() && g < |groups|
      modifies this
      ensures Valid() && SameFlags(old(slots), slots)
      ensures |groups| == |old(groups)| && groups == old(groups)[g := groups[g]]
      ensures GroupTakenOff(old(groups)[g], groups[g], cond)
      ensures count == Matching(old(groups)[g].slots, cond) == |old(groups)[g].slots| - |groups[g].slots|
    {
      count := 0;
      var i := 0;
      ghost var start := groups[g];
      while i < |groups[g].slots|
        invariant Valid() && SameFlags(old(slots), slots) && |groups| == |old(groups)|
        invariant groups[g].gid == start.gid && forall h :: 0 <= h < |groups| && h != g ==> groups[h] == old(groups)[h]
        invariant i <= |groups[g].slots| && count + Matching(groups[g].slots, cond) == Matching(start.slots, cond)
        invariant count + |groups[g].slots| == |start.slots|
        invariant NoneBefore(groups[g].slots, i, cond)
        invariant Between(start.slots, groups[g].slots, cond)
        decreases |groups[g].slots| - i
      {
        if cond(groups[g].slots[i]) {
          ghost var now := groups[g];
          assert Indexed(slots, now);
          SwapRemovedBetween(slots, start.slots, now, i, cond);
          SwapRemovedAfter(now.slots, i, cond);
          MatchingSwapRemoved(now.slots, i, cond);
          RemoveAt(g, i);
          assert groups[g] == Group(now.gid, SwapRemoved(now.slots, i));
          count := count + 1;
        } else {
          NoneBeforeNext(groups[g].slots, i, cond);
          i := i + 1;
        }
      }
      MatchingNone(groups[g].slots, cond);
      AllKept(start.slots, groups[g].slots, cond);
    }

    /** disconnect_if: exactly the matching slots go, and their exact number is returned. The flags,
        connected among them, stay as they are. */
    method DisconnectIf(cond: SlotId -> bool) returns (count: nat)
      requires Valid()
      modifies this
      ensures Valid() && SameFlags(old(slots), slots)
      ensures TakenOff(old(groups), groups, cond)
      ensures count == Matching(Order(old(groups)), cond) == |Order(old(groups))| - |Order(groups)|
    {
      count := 0;
      assert groups[..0] == [];
      for g := 0 to |groups|
        invariant Valid() && SameFlags(old(slots), slots) && |groups| == |old(groups)|
        invariant forall h :: 0 <= h < g ==> GroupTakenOff(old(groups)[h], groups[h], cond)
        invariant forall h :: g <= h < |groups| ==> groups[h] == old(groups)[h]
        invariant count == Matching(Order(old(groups)[..g]), cond) == |Order(old(groups))| - |Order(groups)|
      {
        ghost var before := groups;
        var n := SiftGroup(g, cond);
        OrderUpdate(before, g, groups[g]);
        OrderOfOneMore(old(groups), g);
        MatchingConcat(Order(old(groups)[..g]), old(groups)[g].slots, cond);
        count := count + n;
      }
      assert old(groups)[..|groups|] == old(groups);
    }

    /** disconnect(gid) empties the group and leaves the flags alone. */
    method DisconnectGroup(gid: GroupId) returns (count: nat)
      requires Valid()
      modifies this`groups
      ensures Valid()
      ensures count == |Order(old(groups))| - |Order(groups)|
      ensures |groups| == |old(groups)|
      ensures forall g :: 0 <= g < |groups| ==>
        groups[g] == if old(groups)[g].gid == gid then Group(gid, []) else old(groups)[g]
    {
      var g := 0;
      while g < |groups|
        invariant 0 <= g <= |groups| && groups == old(groups)
        invariant forall h :: 0 <= h < g ==> groups[h].gid != gid
      {
        if groups[g].gid == gid {
          count := |groups[g].slots|;
          OrderUpdate(groups, g, Group(gid, []));
          groups := groups[g := Group(gid, [])];
          return;
        }
        g := g + 1;
      }
      count := 0;
    }

    /** SlotState::disconnect through a Connection: the flag first, then the list. */
    method Disconnect(s: SlotId) returns (was: bool)
      requires Valid() && s in slots
      modifies this
      ensures Valid() && was == old(slots)[s].connected
      ensures SameFlags(old(slots)[s := old(slots)[s].(connected := false)], slots)
      ensures was ==> TakenOff(old(groups), groups, x => x == s)
      ensures !was ==> groups == old(groups) && slots == old(slots)
    {
      was := slots[s].connected;
      if was {
        FlagsKeepIndex(groups, slots, s, slots[s].(connected := false));
        slots := slots[s := slots[s].(connected := false)];
        Clean(s);
      }
    }
  }

  lemma {:induction false} OnlyAtItsIndex(groups: seq<Group>, slots: Slots, s: SlotId, g: nat)
    requires WellListed(groups, slots) && s in slots && g < |groups| && groups[g].gid == slots[s].group
    ensures forall h :: 0 <= h < |groups| && h != g ==> s !in groups[h].slots
    ensures s in groups[g].slots <==> slots[s].index < |groups[g].slots| && groups[g].slots[slots[s].index] == s
  {
    forall h | 0 <= h < |groups| && s in groups[h].slots ensures h == g && slots[s].index < |groups[g].slots| && groups[g].slots[slots[s].index] == s {
      var i :| 0 <= i < |groups[h].slots| && groups[h].slots[i] == s;
      assert Indexed(slots, groups[h]) && At(slots, s, groups[h].gid, i);
    }
  }

  lemma {:induction false} NoGroupNotListed(groups: seq<Group>, slots: Slots, s: SlotId)
    requires WellListed(groups, slots) && s in slots
    requires forall h :: 0 <= h < |groups| ==> groups[h].gid != slots[s].group
    ensures forall h :: 0 <= h < |groups| ==> s !in groups[h].slots
  {
    forall h | 0 <= h < |groups| ensures s !in groups[h].slots {
      assert Indexed(slots, groups[h]);
      forall i | 0 <= i < |groups[h].slots| ensures groups[h].slots[i] != s {
        assert At(slots, groups[h].slots[i], groups[h].gid, i);
      }
    }
  }

  lemma {:induction false} FlagsKeepIndex(groups: seq<Group>, slots: Slots, s: SlotId, x: Slot)
    requires WellListed(groups, slots) && s in slots && x.group == slots[s].group && x.index == slots[s].index
    ensures WellListed(groups, slots[s := x])
  {
    forall g | 0 <= g < |groups| ensures Indexed(slots[s := x], groups[g]) {
      forall i | 0 <= i < |groups[g].slots| ensures At(slots[s := x], groups[g].slots[i], groups[g].gid, i) {
        assert Indexed(slots, groups[g]) && At(slots, groups[g].slots[i], groups[g].gid, i);
      }
    }
  }

  lemma {:induction false} OrderOfOneMore(groups: seq<Group>, g: nat)
    requires g < |groups|
    ensures Order(groups[..g + 1]) == Order(groups[..g]) + groups[g].slots
  {
    if g == 0 {
      assert groups[..1][1..] == [] && Order([]) == [];
    } else {
      assert groups[..g + 1][1..] == groups[1..][..g] && groups[..g][1..] == groups[1..][..g - 1];
      OrderOfOneMore(groups[1..], g - 1);
    }
  }

  lemma {:induction false} OrderUpdate(groups: seq<Group>, g: nat, x: Group)
    requires g < |groups|
    ensures |Order(groups[g := x])| == |Order(groups)| - |groups[g].slots| + |x.slots|
  {
    if g == 0 {
      assert groups[0 := x][1..] == groups[1..];
    } else {
      assert groups[g := x][1..] == groups[1..][g - 1 := x];
      OrderUpdate(groups[1..], g - 1, x);
    }
  }
}
