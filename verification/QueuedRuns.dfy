/** Runs of queued connections that lose an emission or deliver out of order. */
module QueuedRuns {
  import opened KernelTypes
  import opened QueuedConnection

  lemma {:induction false} RunCons(st: State, a: Action, acts: seq<Action>)
    requires Enabled(st, a) && CanRun(Step(st, a), acts)
    ensures CanRun(st, [a] + acts) && Run(st, [a] + acts) == Run(Step(st, a), acts)
  {
    assert ([a] + acts)[1..] == acts;
  }

  /** One connection to a loop whose destructor is draining. */
  ghost function Draining(): State {
    State(map[0 := Conn(0, None, true, [], [], [], [])], map[0 := Loop(Closing, [], [])], map[], [])
  }

  lemma {:induction false} DrainingReachable() returns (acts: seq<Action>)
    ensures CanRun(START, acts) && Run(START, acts) == Draining()
  {
    var s1 := Step(START, NewLoop(0));
    var s2 := Step(s1, Connect(0, 0, None));
    var s3 := Step(s2, BeginTeardown(0));
    assert s3.conns == Draining().conns && s3.loops == Draining().loops && Run(s3, []) == s3;
    RunCons(s2, BeginTeardown(0), []);
    acts := [BeginTeardown(0)] + [];
    RunCons(s1, Connect(0, 0, None), acts);
    acts := [Connect(0, 0, None)] + acts;
    RunCons(START, NewLoop(0), acts);
    acts := [NewLoop(0)] + acts;
  }

  lemma {:induction false} DrainingLoses() returns (acts: seq<Action>)
    ensures CanRun(Draining(), acts) && 0 in Run(Draining(), acts).conns && Run(Draining(), acts).conns[0].lost == [7]
  {
    var s1 := Draining();
    var s2 := Step(s1, Emit(0, 7));
    assert s2.passed[0] == Item(0, 7);
    var s3 := Step(s2, Enqueue(0));
    assert s3.loops[0] == Loop(Closing, [Item(0, 7)], []);
    assert Pending([Item(0, 7)], 0) == [7];
    var s4 := Step(s3, EndTeardown(0));
    RunCons(s3, EndTeardown(0), []);
    acts := [EndTeardown(0)] + [];
    RunCons(s2, Enqueue(0), acts);
    acts := [Enqueue(0)] + acts;
    RunCons(s1, Emit(0, 7), acts);
    acts := [Emit(0, 7)] + acts;
    assert Run(s4, []) == s4;
  }

  lemma {:induction false} RunConcat(st: State, a: seq<Action>, b: seq<Action>)
    requires CanRun(st, a) && CanRun(Run(st, a), b)
    ensures CanRun(st, a + b) && Run(st, a + b) == Run(Run(st, a), b)
    decreases |a|
  {
    if a == [] {
      assert a + b == b;
    } else {
      RunConcat(Step(st, a[0]), a[1..], b);
      RunCons(st, a[0], a[1..] + b);
      assert a + b == [a[0]] + (a[1..] + b);
    }
  }

  /** A run that loses an emission. */
  lemma {:induction false} LosingRun() returns (acts: seq<Action>)
    ensures CanRun(START, acts) && 0 in Run(START, acts).conns && Run(START, acts).conns[0].lost == [7]
  {
    var first := DrainingReachable();
    var second := DrainingLoses();
    RunConcat(START, first, second);
    acts := first + second;
  }

  // ---- a round inside a round ----

  /** One connection, without a receiver, to one open loop. */
  ghost function Lone(posted: seq<Arg>, delivered: seq<Arg>, queue: seq<Item>, drain: seq<Item>): State {
    State(map[0 := Conn(0, None, true, posted, delivered, [], [])], map[0 := Loop(Open, queue, drain)], map[], [])
  }

  lemma {:induction false} LoneReachable() returns (acts: seq<Action>)
    ensures CanRun(START, acts) && Run(START, acts) == Lone([], [], [], [])
  {
    var s1 := Step(START, NewLoop(0));
    var s2 := Step(s1, Connect(0, 0, None));
    assert s2.conns == Lone([], [], [], []).conns && s2.loops == Lone([], [], [], []).loops && Run(s2, []) == s2;
    RunCons(s1, Connect(0, 0, None), []);
    acts := [Connect(0, 0, None)] + [];
    RunCons(START, NewLoop(0), acts);
    acts := [NewLoop(0)] + acts;
  }

  lemma {:induction false} LonePosts(posted: seq<Arg>, delivered: seq<Arg>, queue: seq<Item>, drain: seq<Item>, x: Arg)
    ensures var st, acts := Lone(posted, delivered, queue, drain), [Emit(0, x)] + ([Enqueue(0)] + []);
      CanRun(st, acts) && Run(st, acts) == Lone(posted + [x], delivered, queue + [Item(0, x)], drain)
  {
    var st := Lone(posted, delivered, queue, drain);
    var s1 := Step(st, Emit(0, x));
    assert s1.passed == [Item(0, x)];
    var s2 := Step(s1, Enqueue(0));
    var end := Lone(posted + [x], delivered, queue + [Item(0, x)], drain);
    assert s2.passed == [] && s2.conns == end.conns && s2.loops == end.loops && Run(s2, []) == s2;
    RunCons(s1, Enqueue(0), []);
    RunCons(st, Emit(0, x), [Enqueue(0)] + []);
  }

  lemma {:induction false} LoneTakes(posted: seq<Arg>, delivered: seq<Arg>, queue: seq<Item>, drain: seq<Item>)
    ensures var st := Lone(posted, delivered, queue, drain);
      CanRun(st, [TakeRound(0)] + []) && Run(st, [TakeRound(0)] + []) == Lone(posted, delivered, [], queue + drain)
  {
    var st := Lone(posted, delivered, queue, drain);
    var s1 := Step(st, TakeRound(0));
    assert s1.loops == Lone(posted, delivered, [], queue + drain).loops && Run(s1, []) == s1;
    RunCons(st, TakeRound(0), []);
  }

  lemma {:induction false} LoneRuns(posted: seq<Arg>, delivered: seq<Arg>, queue: seq<Item>, x: Arg, rest: seq<Item>)
    ensures var st := Lone(posted, delivered, queue, [Item(0, x)] + rest);
      CanRun(st, [RunNext(0)] + []) && Run(st, [RunNext(0)] + []) == Lone(posted, delivered + [x], queue, rest)
  {
    var st := Lone(posted, delivered, queue, [Item(0, x)] + rest);
    var s1 := Step(st, RunNext(0));
    var end := Lone(posted, delivered + [x], queue, rest);
    assert ([Item(0, x)] + rest)[1..] == rest;
    assert s1.conns == end.conns && s1.loops == end.loops && Run(s1, []) == s1;
    RunCons(st, RunNext(0), []);
  }

  lemma {:induction false} TwoPosted() returns (acts: seq<Action>)
    ensures CanRun(START, acts) && Run(START, acts) == Lone([1, 2], [], [Item(0, 1), Item(0, 2)], [])
  {
    acts := LoneReachable();
    LonePosts([], [], [], [], 1);
    assert [] + [1] == [1] && [] + [Item(0, 1)] == [Item(0, 1)];
    RunConcat(START, acts, [Emit(0, 1)] + ([Enqueue(0)] + []));
    acts := acts + ([Emit(0, 1)] + ([Enqueue(0)] + []));
    LonePosts([1], [], [Item(0, 1)], [], 2);
    assert [1] + [2] == [1, 2] && [Item(0, 1)] + [Item(0, 2)] == [Item(0, 1), Item(0, 2)];
    RunConcat(START, acts, [Emit(0, 2)] + ([Enqueue(0)] + []));
    acts := acts + ([Emit(0, 2)] + ([Enqueue(0)] + []));
  }

  lemma {:induction false} NestedRound() returns (acts: seq<Action>)
    ensures CanRun(Lone([1, 2], [1], [], [Item(0, 2)]), acts)
    ensures Run(Lone([1, 2], [1], [], [Item(0, 2)]), acts) == Lone([1, 2, 3], [1, 3], [], [Item(0, 2)])
  {
    var st, i2, i3 := Lone([1, 2], [1], [], [Item(0, 2)]), Item(0, 2), Item(0, 3);
    LonePosts([1, 2], [1], [], [i2], 3);
    assert [1, 2] + [3] == [1, 2, 3] && [] + [i3] == [i3];
    acts := [Emit(0, 3)] + ([Enqueue(0)] + []);
    LoneTakes([1, 2, 3], [1], [i3], [i2]);
    RunConcat(st, acts, [TakeRound(0)] + []);
    acts := acts + ([TakeRound(0)] + []);
    LoneRuns([1, 2, 3], [1], [], 3, [i2]);
    assert [1] + [3] == [1, 3];
    RunConcat(st, acts, [RunNext(0)] + []);
    acts := acts + ([RunNext(0)] + []);
  }

  lemma {:induction false} RoundBegun() returns (acts: seq<Action>)
    ensures CanRun(START, acts) && Run(START, acts) == Lone([1, 2], [1], [], [Item(0, 2)])
  {
    var i1, i2 := Item(0, 1), Item(0, 2);
    acts := TwoPosted();
    LoneTakes([1, 2], [], [i1, i2], []);
    assert [i1, i2] + [] == [i1] + [i2] && [] + [1] == [1];
    RunConcat(START, acts, [TakeRound(0)] + []);
    acts := acts + ([TakeRound(0)] + []);
    LoneRuns([1, 2], [], [], 1, [i2]);
    RunConcat(START, acts, [RunNext(0)] + []);
    acts := acts + ([RunNext(0)] + []);
  }

  /** Emissions 1 and 2 are posted and their round begun; the callable of 1 emits 3 and processes events. */
  lemma {:induction false} OvertakingRun() returns (acts: seq<Action>)
    ensures CanRun(START, acts) && 0 in Run(START, acts).conns
    ensures Run(START, acts).conns[0].delivered == [1, 3] && Run(START, acts).conns[0].posted == [1, 2, 3]
    ensures !(Run(START, acts).conns[0].delivered <= Run(START, acts).conns[0].posted)
  {
    var first := RoundBegun();
    var second := NestedRound();
    RunConcat(START, first, second);
    acts := first + second;
    var k := Run(START, acts).conns[0];
    assert k.delivered[1] != k.posted[1];
  }

  /** One connection with a receiver. */
  ghost function Tied(life: Life, posted: seq<Arg>, dropped: seq<Arg>, queue: seq<Item>, drain: seq<Item>): State {
    State(map[0 := Conn(0, Some(0), true, posted, [], dropped, [])], map[0 := Loop(Open, queue, drain)], map[0 := life], [])
  }

  lemma {:induction false} TiedReachable() returns (acts: seq<Action>)
    ensures CanRun(START, acts) && Run(START, acts) == Tied(Alive, [], [], [], [])
  {
    var s1 := Step(START, NewLoop(0));
    var s2 := Step(s1, NewReceiver(0));
    var s3 := Step(s2, Connect(0, 0, Some(0)));
    var end := Tied(Alive, [], [], [], []);
    assert s3.conns == end.conns && s3.loops == end.loops && s3.life == end.life && Run(s3, []) == s3;
    RunCons(s2, Connect(0, 0, Some(0)), []);
    acts := [Connect(0, 0, Some(0))] + [];
    RunCons(s1, NewReceiver(0), acts);
    acts := [NewReceiver(0)] + acts;
    RunCons(START, NewLoop(0), acts);
    acts := [NewLoop(0)] + acts;
  }

  lemma {:induction false} TiedPosts() returns (acts: seq<Action>)
    ensures CanRun(Tied(Alive, [], [], [], []), acts) && Run(Tied(Alive, [], [], [], []), acts) == Tied(Alive, [7], [], [Item(0, 7)], [])
  {
    var s0 := Tied(Alive, [], [], [], []);
    var s1 := Step(s0, Emit(0, 7));
    assert s1.passed == [Item(0, 7)] && [] + [7] == [7];
    var s2 := Step(s1, Enqueue(0));
    var end := Tied(Alive, [7], [], [Item(0, 7)], []);
    assert s2.passed == [] && s2.conns == end.conns && s2.loops == end.loops && Run(s2, []) == s2;
    RunCons(s1, Enqueue(0), []);
    acts := [Enqueue(0)] + [];
    RunCons(s0, Emit(0, 7), acts);
    acts := [Emit(0, 7)] + acts;
  }

  lemma {:induction false} TiedTakes()
    ensures var st := Tied(Alive, [7], [], [Item(0, 7)], []);
      CanRun(st, [TakeRound(0)] + []) && Run(st, [TakeRound(0)] + []) == Tied(Alive, [7], [], [], [Item(0, 7)])
  {
    var st := Tied(Alive, [7], [], [Item(0, 7)], []);
    var s1 := Step(st, TakeRound(0));
    assert [Item(0, 7)] + [] == [Item(0, 7)];
    assert s1.loops == Tied(Alive, [7], [], [], [Item(0, 7)]).loops && Run(s1, []) == s1;
    RunCons(st, TakeRound(0), []);
  }

  lemma {:induction false} TiedDrops() returns (acts: seq<Action>)
    ensures CanRun(Tied(Alive, [7], [], [], [Item(0, 7)]), acts) && |acts| == 2 && acts[0] == FlipToken(0)
    ensures Run(Tied(Alive, [7], [], [], [Item(0, 7)]), acts) == Tied(Flipped, [7], [7], [], [])
  {
    var s0 := Tied(Alive, [7], [], [], [Item(0, 7)]);
    var s1 := Step(s0, FlipToken(0));
    assert s1.life == map[0 := Flipped];
    var s2 := Step(s1, RunNext(0));
    var end := Tied(Flipped, [7], [7], [], []);
    assert [Item(0, 7)][1..] == [] && [] + [7] == [7];
    assert s2.conns == end.conns && s2.loops == end.loops && Run(s2, []) == s2;
    RunCons(s1, RunNext(0), []);
    acts := [RunNext(0)] + [];
    RunCons(s0, FlipToken(0), acts);
    acts := [FlipToken(0)] + acts;
  }

  /** An emission whose round has begun when the receiver's token is cleared is dropped. */
  lemma {:induction false} DroppingRun() returns (acts: seq<Action>)
    ensures CanRun(START, acts) && 0 in Run(START, acts).conns
    ensures Run(START, acts).conns[0].posted == [7] && Run(START, acts).conns[0].delivered == [] && Run(START, acts).conns[0].dropped == [7]
  {
    var take := [TakeRound(0)] + [];
    acts := TiedReachable();
    var post := TiedPosts();
    var drop := TiedDrops();
    RunConcat(START, acts, post);
    acts := acts + post;
    TiedTakes();
    RunConcat(START, acts, take);
    acts := acts + take;
    RunConcat(START, acts, drop);
    acts := acts + drop;
  }
}
