/** The posted-closure queue of a loop: post, and the snapshot drain of process_events. */
module PostQueue {
  import opened KernelTypes

  type Task = nat

  /** Everything that running `tasks` one after the other posts, when running `t` posts `posts(t)`. */
  function Spawned(tasks: seq<Task>, posts: Task -> seq<Task>): seq<Task> {
    if tasks == [] then [] else posts(tasks[0]) + Spawned(tasks[1..], posts)
  }

  /** How many closures running `tasks` posts. */
  function Posts(tasks: seq<Task>, posts: Task -> seq<Task>): nat {
    if tasks == [] then 0 else Posts(tasks[..|tasks| - 1], posts) + |posts(tasks[|tasks| - 1])|
  }

  /** `queue` is what running `tasks` posts: the j-th closure that the i-th of them posts comes behind all
      that the ones before it post, and nothing else is there. */
  ghost predicate PostsInTurn(queue: seq<Task>, tasks: seq<Task>, posts: Task -> seq<Task>) {
    && |queue| == Posts(tasks, posts)
    && forall i, j :: 0 <= i < |tasks| && 0 <= j < |posts(tasks[i])| ==> PostedAt(queue, tasks, posts, i, j)
  }

  ghost predicate PostedAt(queue: seq<Task>, tasks: seq<Task>, posts: Task -> seq<Task>, i: nat, j: nat)
    requires i < |tasks| && j < |posts(tasks[i])|
  {
    Posts(tasks[..i], posts) + j < |queue| && queue[Posts(tasks[..i], posts) + j] == posts(tasks[i])[j]
  }

  lemma {:induction false} PostsOfOneMore(queue: seq<Task>, tasks: seq<Task>, posts: Task -> seq<Task>, t: Task)
    requires PostsInTurn(queue, tasks, posts)
    ensures PostsInTurn(queue + posts(t), tasks + [t], posts)
  {
    var more := tasks + [t];
    assert more[..|tasks|] == tasks;
    forall i, j | 0 <= i < |more| && 0 <= j < |posts(more[i])| ensures PostedAt(queue + posts(t), more, posts, i, j) {
      assert more[..i] == tasks[..i];
      if i < |tasks| {
        assert PostedAt(queue, tasks, posts, i, j);
      } else {
        assert tasks[..i] == tasks;
      }
    }
  }

  lemma {:induction false} SpawnedSnoc(tasks: seq<Task>, posts: Task -> seq<Task>, t: Task)
    ensures Spawned(tasks + [t], posts) == Spawned(tasks, posts) + posts(t)
  {
    if tasks == [] {
      assert tasks + [t] == [t] && [t][1..] == [];
    } else {
      assert (tasks + [t])[1..] == tasks[1..] + [t];
      SpawnedSnoc(tasks[1..], posts, t);
      Associate(posts(tasks[0]), Spawned(tasks[1..], posts), posts(t));
    }
  }

  lemma {:induction false} SpawnedInTurn(tasks: seq<Task>, posts: Task -> seq<Task>)
    ensures PostsInTurn(Spawned(tasks, posts), tasks, posts)
    decreases |tasks|
  {
    if tasks == [] {
    } else {
      var front, t := tasks[..|tasks| - 1], tasks[|tasks| - 1];
      assert tasks == front + [t];
      SpawnedInTurn(front, posts);
      SpawnedSnoc(front, posts, t);
      PostsOfOneMore(Spawned(front, posts), front, posts, t);
    }
  }

  /** `history` lists the closures ever posted in post order, `executed` those that have run in run order. */
  class ClosureQueue {
    var queue: seq<Task>
    ghost var history: seq<Task>
    ghost var executed: seq<Task>

    /** What has run is an initial stretch of what was posted; the rest is queued, in post order. */
    ghost predicate Valid()
      reads this
    {
      executed + queue == history
    }

    constructor ()
      ensures Valid() && queue == [] && history == []
    {
      queue, history, executed := [], [], [];
    }

    /** EventLoop::post. */
    method Post(t: Task)
      modifies this
      ensures queue == old(queue) + [t] && history == old(history) + [t] && executed == old(executed)
    {
      queue := queue + [t];
      history := history + [t];
    }

    method PostAll(ts: seq<Task>)
      modifies this
      ensures queue == old(queue) + ts && history == old(history) + ts && executed == old(executed)
    {
      for i := 0 to |ts|
        invariant queue == old(queue) + ts[..i] && history == old(history) + ts[..i] && executed == old(executed)
      {
        Post(ts[i]);
      }
      assert ts[..|ts|] == ts;
    }

    /** The closure drain of one process_events round: the queue is swapped out and run to its end;
        what the closures post goes to the new queue and waits for a later round. */
    method ProcessRound(posts: Task -> seq<Task>)
      requires Valid()
      modifies this
      ensures Valid()
      ensures executed == old(executed) + old(queue)
      ensures queue == Spawned(old(queue), posts) && PostsInTurn(queue, old(queue), posts)
      ensures history == old(history) + Spawned(old(queue), posts)
    {
      var tasks := queue;
      queue := [];
      ghost var all := tasks;
      while tasks != []
        invariant executed + tasks == old(executed) + all
        invariant queue + Spawned(tasks, posts) == Spawned(all, posts)
        invariant history == old(history) + queue
        decreases |tasks|
      {
        var t := tasks[0];
        tasks := tasks[1..];
        executed := executed + [t];
        PostAll(posts(t));
      }
      SpawnedInTurn(all, posts);
    }

    /** `n` rounds run the first `n` generations in order, whatever the closures post. */
    method ProcessRounds(n: nat, posts: Task -> seq<Task>)
      requires Valid()
      modifies this
      ensures Valid()
      ensures executed == old(executed) + Generations(old(queue), posts, n)
      ensures queue == Generation(old(queue), posts, n)
    {
      for i := 0 to n
        invariant Valid()
        invariant executed == old(executed) + Generations(old(queue), posts, i)
        invariant queue == Generation(old(queue), posts, i)
      {
        ProcessRound(posts);
      }
    }
  }

  /** The queue after `n` rounds. */
  function Generation(start: seq<Task>, posts: Task -> seq<Task>, n: nat): seq<Task> {
    if n == 0 then start else Spawned(Generation(start, posts, n - 1), posts)
  }

  function Generations(start: seq<Task>, posts: Task -> seq<Task>, n: nat): seq<Task> {
    if n == 0 then [] else Generations(start, posts, n - 1) + Generation(start, posts, n - 1)
  }

  /** The first of several rounds runs what is queued, and the others run what that posts. */
  lemma {:induction false} RoundsFromFront(start: seq<Task>, posts: Task -> seq<Task>, n: nat)
    ensures Generation(start, posts, n + 1) == Generation(Spawned(start, posts), posts, n)
    ensures Generations(start, posts, n + 1) == start + Generations(Spawned(start, posts), posts, n)
  {
    if n == 0 {
      assert Generation(start, posts, 1) == Spawned(Generation(start, posts, 0), posts);
      assert Generations(start, posts, 1) == Generations(start, posts, 0) + Generation(start, posts, 0);
    } else {
      RoundsFromFront(start, posts, n - 1);
      var next := Spawned(start, posts);
      Associate(start, Generations(next, posts, n - 1), Generation(next, posts, n - 1));
    }
  }

  // ---- arbitrary interleavings, nested drains included ----

  /** `drains` are the snapshots being run, innermost last. */
  datatype Loop = Loop(drains: seq<seq<Task>>, posted: seq<Task>, executed: seq<Task>, history: seq<Task>)

  datatype Action = Post(task: Task) | BeginRound | RunNext | EndRound

  predicate Enabled(s: Loop, a: Action) {
    match a
    case Post(_) => true
    case BeginRound => true
    case RunNext => s.drains != [] && s.drains[|s.drains| - 1] != []
    case EndRound => s.drains != [] && s.drains[|s.drains| - 1] == []
  }

  function Next(s: Loop, a: Action): Loop
    requires Enabled(s, a)
  {
    var n := |s.drains| - 1;
    match a
    case Post(t) => s.(posted := s.posted + [t], history := s.history + [t])
    case BeginRound => s.(drains := s.drains + [s.posted], posted := [])
    case RunNext => s.(drains := s.drains[n := s.drains[n][1..]], executed := s.executed + [s.drains[n][0]])
    case EndRound => s.(drains := s.drains[..n])
  }

  ghost predicate Run(states: seq<Loop>, actions: seq<Action>) {
    && |states| == |actions| + 1
    && states[0] == Loop([], [], [], [])
    && forall i :: 0 <= i < |actions| ==> Enabled(states[i], actions[i]) && states[i + 1] == Next(states[i], actions[i])
  }

  /** What the snapshots still hold, in the order in which it will run: innermost first. */
  function Flatten(drains: seq<seq<Task>>): seq<Task> {
    if drains == [] then [] else Flatten(drains[1..]) + drains[0]
  }

  lemma {:induction false} FlattenLast(drains: seq<seq<Task>>, last: seq<Task>)
    ensures Flatten(drains + [last]) == last + Flatten(drains)
  {
    if drains == [] {
      assert drains + [last] == [last] && [last][1..] == [];
    } else {
      assert (drains + [last])[1..] == drains[1..] + [last] && (drains + [last])[0] == drains[0];
      FlattenLast(drains[1..], last);
      Associate(last, Flatten(drains[1..]), drains[0]);
    }
  }

  /** How often `t` has run, is being drained, or waits. */
  function Places(s: Loop, t: Task): nat {
    multiset(s.executed)[t] + multiset(Flatten(s.drains))[t] + multiset(s.posted)[t]
  }

  ghost predicate NothingLost(s: Loop) {
    forall t: Task :: Places(s, t) == multiset(s.history)[t]
  }

  lemma {:induction false} StepCount(s: Loop, a: Action, t: Task)
    requires Enabled(s, a)
    ensures Places(Next(s, a), t) == Places(s, t) + if a == Post(t) then 1 else 0
  {
    match a
    case Post(x) =>
    case BeginRound => FlattenLast(s.drains, s.posted);
    case RunNext => RunNextFlatten(s);
    case EndRound => EndRoundFlatten(s);
  }

  lemma {:induction false} RunNextFlatten(s: Loop)
    requires Enabled(s, RunNext)
    ensures var n := |s.drains| - 1; Flatten(s.drains) == [s.drains[n][0]] + Flatten(Next(s, RunNext).drains)
  {
    var n := |s.drains| - 1;
    var outer, top := s.drains[..n], s.drains[n];
    assert s.drains == outer + [top] && s.drains[n := top[1..]] == outer + [top[1..]];
    FlattenLast(outer, top);
    FlattenLast(outer, top[1..]);
    assert top == [top[0]] + top[1..];
    Associate([top[0]], top[1..], Flatten(outer));
  }

  lemma {:induction false} EndRoundFlatten(s: Loop)
    requires Enabled(s, EndRound)
    ensures Flatten(s.drains) == Flatten(Next(s, EndRound).drains)
  {
    var n := |s.drains| - 1;
    assert s.drains == s.drains[..n] + [s.drains[n]];
    FlattenLast(s.drains[..n], s.drains[n]);
  }

  lemma {:induction false} StepLosesNothing(s: Loop, a: Action)
    requires Enabled(s, a) && NothingLost(s)
    ensures NothingLost(Next(s, a))
  {
    forall t: Task ensures Places(Next(s, a), t) == multiset(Next(s, a).history)[t] {
      StepCount(s, a, t);
      assert Places(s, t) == multiset(s.history)[t];
    }
  }

  /** Over every run, nested or not, each posted closure has run once or is still to run once. */
  lemma {:induction false} EachRunsOnce(states: seq<Loop>, actions: seq<Action>, i: nat)
    requires Run(states, actions) && i < |states|
    ensures NothingLost(states[i])
  {
    if i == 0 {
    } else {
      EachRunsOnce(states, actions, i - 1);
      StepLosesNothing(states[i - 1], actions[i - 1]);
    }
  }

  predicate CanTake(s: Loop, acts: seq<Action>)
    decreases |acts|
  {
    acts != [] ==> Enabled(s, acts[0]) && CanTake(Next(s, acts[0]), acts[1..])
  }

  function Take(s: Loop, acts: seq<Action>): Loop
    requires CanTake(s, acts)
    decreases |acts|
  {
    if acts == [] then s else Take(Next(s, acts[0]), acts[1..])
  }

  /** However deep rounds are nested, they can be run to their end: each closure that is left runs, innermost
      round first, and an enclosing round goes on where it was. */
  lemma {:induction false} RoundsRunOut(s: Loop) returns (acts: seq<Action>)
    ensures forall i :: 0 <= i < |acts| ==> acts[i] == RunNext || acts[i] == EndRound
    ensures CanTake(s, acts) && Take(s, acts) == s.(drains := [], executed := s.executed + Flatten(s.drains))
    decreases |Flatten(s.drains)| + |s.drains|
  {
    if s.drains == [] {
      acts := [];
      assert s.executed + Flatten(s.drains) == s.executed;
    } else {
      var a := if s.drains[|s.drains| - 1] == [] then EndRound else RunNext;
      if a == EndRound {
        EndRoundFlatten(s);
      } else {
        RunNextFlatten(s);
        Associate(s.executed, [s.drains[|s.drains| - 1][0]], Flatten(Next(s, a).drains));
      }
      var rest := RoundsRunOut(Next(s, a));
      acts := [a] + rest;
      assert acts[1..] == rest;
    }
  }

  /** What has run and what will run, in running order. */
  function Plan(s: Loop): seq<Task> {
    s.executed + Flatten(s.drains) + s.posted
  }

  ghost predicate InPostOrder(s: Loop) {
    Plan(s) == s.history
  }

  lemma {:induction false} StepKeepsPlan(s: Loop, a: Action)
    requires Enabled(s, a) && !a.BeginRound?
    ensures Plan(Next(s, a)) == if a.Post? then Plan(s) + [a.task] else Plan(s)
  {
    match a
    case Post(t) => Associate(s.executed + Flatten(s.drains), s.posted, [t]);
    case RunNext =>
      RunNextFlatten(s);
      Associate(s.executed, [s.drains[|s.drains| - 1][0]], Flatten(Next(s, a).drains));
    case EndRound => EndRoundFlatten(s);
  }

  /** A round puts what was posted since ahead of what enclosing rounds have left to run. The global post
      order survives it exactly when one of the two is empty. */
  lemma {:induction false} RoundKeepsOrderIff(s: Loop)
    requires InPostOrder(s)
    requires forall i, j :: 0 <= i < j < |s.history| ==> s.history[i] != s.history[j]
    ensures InPostOrder(Next(s, BeginRound)) <==> Flatten(s.drains) == [] || s.posted == []
  {
    var s', left := Next(s, BeginRound), Flatten(s.drains);
    FlattenLast(s.drains, s.posted);
    assert Plan(s') == s.executed + (s.posted + left);
    if left != [] && s.posted != [] {
      var n := |s.executed|;
      assert s.history[n] == left[0] && s.history[n + |left|] == s.posted[0];
      assert Plan(s')[n] == s.posted[0];
    } else {
      SwapEmpty(s.executed, left, s.posted);
    }
  }

  lemma {:induction false} SwapEmpty(a: seq<Task>, b: seq<Task>, c: seq<Task>)
    requires b == [] || c == []
    ensures a + (c + b) == a + b + c
  {
  }

  lemma {:induction false} RoundKeepsOrder(s: Loop)
    requires InPostOrder(s) && (Flatten(s.drains) == [] || s.posted == [])
    ensures InPostOrder(Next(s, BeginRound))
  {
    FlattenLast(s.drains, s.posted);
    SwapEmpty(s.executed, Flatten(s.drains), s.posted);
  }

  /** As long as no round starts while an enclosing one has closures left and new ones are posted, in
      particular without nested rounds, closures run in global post order: what has run is a prefix of
      what was posted. */
  lemma {:induction false} RunsInPostOrder(states: seq<Loop>, actions: seq<Action>, i: nat)
    requires Run(states, actions) && i < |states|
    requires forall j :: 0 <= j < |actions| && actions[j].BeginRound? ==>
      Flatten(states[j].drains) == [] || states[j].posted == []
    ensures InPostOrder(states[i]) && states[i].executed <= states[i].history
  {
    if i == 0 {
    } else {
      RunsInPostOrder(states, actions, i - 1);
      if actions[i - 1].BeginRound? {
        RoundKeepsOrder(states[i - 1]);
      } else {
        StepKeepsPlan(states[i - 1], actions[i - 1]);
      }
    }
  }

  ghost function Overtaking(i: nat): Loop {
    if i == 0 then Loop([], [], [], [])
    else if i == 1 then Loop([], [0], [], [0])
    else if i == 2 then Loop([], [0, 1], [], [0, 1])
    else if i == 3 then Loop([[0, 1]], [], [], [0, 1])
    else if i == 4 then Loop([[1]], [], [0], [0, 1])
    else if i == 5 then Loop([[1]], [2], [0], [0, 1, 2])
    else Loop([[1], [2]], [], [0], [0, 1, 2])
  }

  ghost function OvertakingAction(i: nat): Action {
    if i == 0 then Post(0) else if i == 1 then Post(1) else if i == 3 then RunNext else if i == 4 then Post(2) else BeginRound
  }

  lemma {:induction false} OvertakingStep(i: nat)
    requires i < 6
    ensures Enabled(Overtaking(i), OvertakingAction(i)) && Overtaking(i + 1) == Next(Overtaking(i), OvertakingAction(i))
  {
    if i == 3 {
      assert [0, 1][1..] == [1] && [[0, 1]][0 := [1]] == [[1]];
    }
  }

  /** A run in which a nested round overtakes its enclosing one. */
  lemma {:induction false} OvertakingRun() returns (states: seq<Loop>, actions: seq<Action>)
    ensures Run(states, actions) && |states| == 7 && InPostOrder(states[5]) && !InPostOrder(states[6])
  {
    states := seq(7, i requires 0 <= i < 7 => Overtaking(i));
    actions := seq(6, i requires 0 <= i < 6 => OvertakingAction(i));
    forall i | 0 <= i < |actions|
      ensures Enabled(states[i], actions[i]) && states[i + 1] == Next(states[i], actions[i])
    {
      OvertakingStep(i);
    }
    var s := Overtaking(5);
    assert s.drains[1..] == [] && Flatten(s.drains) == [1];
    assert Plan(s) == [0, 1, 2];
    RoundKeepsOrderIff(s);
    OvertakingStep(5);
  }
}
