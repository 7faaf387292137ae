/** connect_queued: emissions hop onto a loop as posted closures, guarded by the loop's liveness token
    when they are posted and, in the receiver form, by the receiver's token when they run. */
module QueuedConnection {
  import opened KernelTypes

  type ConnId = nat
  type Arg = nat

  /** A closure on a post queue: the connection it belongs to and the arguments it copied. */
  datatype Item = Item(conn: ConnId, arg: Arg)

  /** `connected` says whether the signal still holds the slot. The histories say what became of the
      emissions: posted to the loop, delivered to the callable, dropped by the receiver check, or lost in
      the queue of a loop that was being destroyed. */
  datatype Conn = Conn(
    loop: LoopId,
    receiver: Option<ObjId>,
    connected: bool,
    posted: seq<Arg>,
    delivered: seq<Arg>,
    dropped: seq<Arg>,
    lost: seq<Arg>)

  datatype Phase = Open | Closing | Closed
  /** `drain` is what the rounds under way have left to run: a round started inside another one runs its
      snapshot first. */
  datatype Loop = Loop(phase: Phase, queue: seq<Item>, drain: seq<Item>)

  /** Flipped: ~Object has cleared the token and not yet released the connections. */
  datatype Life = Alive | Flipped | Released

  /** `passed` are the emissions, on whatever thread, that found their slot connected and have not run it. */
  datatype State = State(conns: map<ConnId, Conn>, loops: map<LoopId, Loop>, life: map<ObjId, Life>, passed: seq<Item>)

  ghost const START := State(map[], map[], map[], [])

  datatype Action =
    | NewLoop(l: LoopId)
    | NewReceiver(r: ObjId)
    | Connect(c: ConnId, l: LoopId, receiver: Option<ObjId>)
    | Emit(c: ConnId, x: Arg)      // the slot is found connected
    | Enqueue(i: nat)              // the slot runs: loop token, then post
    | Disconnect(c: ConnId)
    | TakeRound(l: LoopId)
    | RunNext(l: LoopId)
    | FlipToken(r: ObjId)
    | DisconnectAll(r: ObjId)
    | BeginTeardown(l: LoopId)
    | EndTeardown(l: LoopId)

  /** A loop's token expires with the loop, a receiver's is cleared by hand. */
  predicate LoopAlive(st: State, l: LoopId) {
    l in st.loops && !st.loops[l].phase.Closed?
  }

  predicate ReceiverAlive(st: State, r: Option<ObjId>) {
    r.Some? ==> r.value in st.life && st.life[r.value].Alive?
  }

  predicate Enabled(st: State, a: Action) {
    match a
    case NewLoop(l) => l !in st.loops
    case NewReceiver(r) => r !in st.life
    case Connect(c, l, receiver) => c !in st.conns && LoopAlive(st, l) && ReceiverAlive(st, receiver)
    case Emit(c, _) => c in st.conns && st.conns[c].connected
    case Enqueue(i) => i < |st.passed| && st.passed[i].conn in st.conns && st.conns[st.passed[i].conn].loop in st.loops
    case Disconnect(c) => c in st.conns
    case TakeRound(l) => LoopAlive(st, l)
    case RunNext(l) => l in st.loops && st.loops[l].drain != [] && st.loops[l].drain[0].conn in st.conns
    case FlipToken(r) => r in st.life && st.life[r].Alive?
    case DisconnectAll(r) => r in st.life && st.life[r].Flipped?
    case BeginTeardown(l) => l in st.loops && st.loops[l].phase.Open? && st.loops[l].drain == []
    case EndTeardown(l) => l in st.loops && st.loops[l].phase.Closing? && st.loops[l].drain == []
  }

  /** What the queue holds of one connection, oldest first. */
  function Pending(items: seq<Item>, c: ConnId): seq<Arg> {
    if items == [] then []
    else (if items[0].conn == c then [items[0].arg] else []) + Pending(items[1..], c)
  }

  function Ran(st: State, k: Conn, x: Arg): Conn {
    if ReceiverAlive(st, k.receiver) then k.(delivered := k.delivered + [x]) else k.(dropped := k.dropped + [x])
  }

  function Released(k: Conn, r: ObjId): Conn {
    if k.receiver == Some(r) then k.(connected := false) else k
  }

  function LostWith(k: Conn, c: ConnId, l: LoopId, queue: seq<Item>): Conn {
    if k.loop == l then k.(lost := k.lost + Pending(queue, c)) else k
  }

  /** A dead loop is skipped silently. */
  function Posted(st: State, item: Item): State
    requires item.conn in st.conns && st.conns[item.conn].loop in st.loops
  {
    var k := st.conns[item.conn];
    if !LoopAlive(st, k.loop) then st
    else
      var loop := st.loops[k.loop];
      st.(loops := st.loops[k.loop := loop.(queue := loop.queue + [item])],
          conns := st.conns[item.conn := k.(posted := k.posted + [item.arg])])
  }

  function Step(st: State, a: Action): State
    requires Enabled(st, a)
  {
    match a
    case NewLoop(l) => st.(loops := st.loops[l := Loop(Open, [], [])])
    case NewReceiver(r) => st.(life := st.life[r := Alive])
    case Connect(c, l, receiver) => st.(conns := st.conns[c := Conn(l, receiver, true, [], [], [], [])])
    case Emit(c, x) => st.(passed := st.passed + [Item(c, x)])
    case Enqueue(i) => Posted(st.(passed := st.passed[..i] + st.passed[i + 1..]), st.passed[i])
    case Disconnect(c) => st.(conns := st.conns[c := st.conns[c].(connected := false)])
    case TakeRound(l) =>
      var loop := st.loops[l];
      st.(loops := st.loops[l := loop.(queue := [], drain := loop.queue + loop.drain)])
    case RunNext(l) =>
      var loop := st.loops[l];
      var item := loop.drain[0];
      st.(loops := st.loops[l := loop.(drain := loop.drain[1..])],
          conns := st.conns[item.conn := Ran(st, st.conns[item.conn], item.arg)])
    case FlipToken(r) => st.(life := st.life[r := Flipped])
    case DisconnectAll(r) =>
      st.(life := st.life[r := Life.Released], conns := map c | c in st.conns :: Released(st.conns[c], r))
    case BeginTeardown(l) => st.(loops := st.loops[l := Loop(Closing, [], st.loops[l].queue)])
    case EndTeardown(l) =>
      st.(loops := st.loops[l := Loop(Closed, [], [])],
          conns := map c | c in st.conns :: LostWith(st.conns[c], c, l, st.loops[l].queue))
  }

  // ---- invariants ----

  /** Every closure on a loop belongs to a connection bound to that loop. */
  ghost predicate Homed(st: State, l: LoopId) {
    l in st.loops ==>
      && (forall i :: 0 <= i < |st.loops[l].queue| ==> Bound(st, st.loops[l].queue[i], l))
      && (forall i :: 0 <= i < |st.loops[l].drain| ==> Bound(st, st.loops[l].drain[i], l))
  }

  predicate Bound(st: State, item: Item, l: LoopId) {
    item.conn in st.conns && st.conns[item.conn].loop == l
  }

  /** What has become or will become of the posts, in running order; what is lost comes last. */
  ghost function Plan(st: State, c: ConnId): seq<Arg>
    requires Located(st, c) && c in st.conns
  {
    var k := st.conns[c];
    k.delivered + k.dropped + Pending(st.loops[k.loop].drain, c) + Pending(st.loops[k.loop].queue, c) + k.lost
  }

  ghost predicate Located(st: State, c: ConnId) {
    c in st.conns ==> st.conns[c].loop in st.loops
  }

  /** Each post is delivered, dropped, pending or lost, and once. */
  ghost predicate Accounted(st: State, c: ConnId) {
    Located(st, c) && (c in st.conns ==> multiset(st.conns[c].posted) == multiset(Plan(st, c)))
  }

  /** And everything keeps its order. */
  ghost predicate InOrder(st: State, c: ConnId) {
    Located(st, c) && (c in st.conns ==> st.conns[c].posted == Plan(st, c))
  }

  /** What waits for a round, or is lost, was posted last. */
  ghost predicate Tailed(st: State, c: ConnId) {
    Located(st, c) && (c in st.conns ==>
      EndsWith(st.conns[c].posted, Pending(st.loops[st.conns[c].loop].queue, c) + st.conns[c].lost))
  }

  predicate EndsWith(s: seq<Arg>, t: seq<Arg>) {
    |t| <= |s| && s[|s| - |t|..] == t
  }

  /** Drops need a dead receiver, losses a dead loop, and a released receiver has no slot left. */
  ghost predicate Justified(st: State, c: ConnId) {
    c in st.conns ==>
      var k := st.conns[c];
      && (k.dropped != [] ==> !ReceiverAlive(st, k.receiver))
      && (k.lost != [] ==> !LoopAlive(st, k.loop))
      && (k.receiver.Some? ==> k.receiver.value in st.life)
      && (k.receiver.Some? && st.life[k.receiver.value].Released? ==> !k.connected)
  }

  ghost predicate Quiet(st: State, l: LoopId) {
    l in st.loops && st.loops[l].phase.Closed? ==> st.loops[l].queue == [] && st.loops[l].drain == []
  }

  ghost predicate Invariant(st: State) {
    && (forall l {:trigger Homed(st, l)} {:trigger Quiet(st, l)} :: Homed(st, l) && Quiet(st, l))
    && (forall c {:trigger Accounted(st, c)} {:trigger Justified(st, c)} {:trigger Tailed(st, c)} ::
          Accounted(st, c) && Justified(st, c) && Tailed(st, c))
  }

  lemma {:induction false} PendingConcat(a: seq<Item>, b: seq<Item>, c: ConnId)
    ensures Pending(a + b, c) == Pending(a, c) + Pending(b, c)
  {
    if a == [] {
      assert a + b == b;
    } else {
      assert (a + b)[0] == a[0] && (a + b)[1..] == a[1..] + b;
      PendingConcat(a[1..], b, c);
      Associate(if a[0].conn == c then [a[0].arg] else [], Pending(a[1..], c), Pending(b, c));
    }
  }

  lemma {:induction false} BoundStays(st: State, a: Action, item: Item, l: LoopId)
    requires Enabled(st, a) && Bound(st, item, l)
    ensures Bound(Step(st, a), item, l)
  {
  }

  lemma {:induction false} QueuesAfter(st: State, a: Action, l: LoopId, item: Item)
    requires Enabled(st, a) && l in Step(st, a).loops
    requires item in Step(st, a).loops[l].queue || item in Step(st, a).loops[l].drain
    ensures l in st.loops ==> item in st.loops[l].queue || item in st.loops[l].drain ||
                              (a.Enqueue? && item == st.passed[a.i] && st.conns[item.conn].loop == l)
    ensures l in st.loops
  {
  }

  lemma {:induction false} StepKeepsHomes(st: State, a: Action, l: LoopId)
    requires Enabled(st, a) && Homed(st, l)
    ensures Homed(Step(st, a), l)
  {
    var after := Step(st, a);
    if l in after.loops {
      forall item | item in after.loops[l].queue || item in after.loops[l].drain ensures Bound(after, item, l) {
        QueuesAfter(st, a, l, item);
        BoundStays(st, a, item, l);
      }
      assert forall i :: 0 <= i < |after.loops[l].queue| ==> after.loops[l].queue[i] in after.loops[l].queue;
      assert forall i :: 0 <= i < |after.loops[l].drain| ==> after.loops[l].drain[i] in after.loops[l].drain;
    }
  }

  lemma {:induction false} StepKeepsQuiet(st: State, a: Action, l: LoopId)
    requires Enabled(st, a) && Quiet(st, l)
    ensures Quiet(Step(st, a), l)
  {
  }

  lemma {:induction false} RunJustifies(st: State, l: LoopId, c: ConnId)
    requires Enabled(st, RunNext(l)) && Justified(st, c)
    ensures Justified(Step(st, RunNext(l)), c)
  {
  }

  lemma {:induction false} StepJustifies(st: State, a: Action, c: ConnId)
    requires Enabled(st, a) && Justified(st, c) && (c in st.conns ==> st.conns[c].loop in st.loops)
    ensures Justified(Step(st, a), c)
  {
    if a.RunNext? {
      RunJustifies(st, a.l, c);
    }
  }

  // ---- what a step does to the plan ----

  /** What the step posts for connection `c`, if its loop still takes it. */
  function Arrives(st: State, a: Action, c: ConnId): seq<Arg> {
    if a.Enqueue? && a.i < |st.passed| && st.passed[a.i].conn == c then [st.passed[a.i].arg] else []
  }

  function Grown(st: State, a: Action, c: ConnId): seq<Arg> {
    if c in st.conns && LoopAlive(st, st.conns[c].loop) then Arrives(st, a, c) else []
  }

  lemma {:induction false} PostPlan(st: State, item: Item, c: ConnId)
    requires item.conn in st.conns && st.conns[item.conn].loop in st.loops
    requires c in st.conns && Located(st, c) && Justified(st, c)
    ensures c in Posted(st, item).conns && Located(Posted(st, item), c)
    ensures var g := if item.conn == c && LoopAlive(st, st.conns[c].loop) then [item.arg] else [];
      Posted(st, item).conns[c].posted == st.conns[c].posted + g && Plan(Posted(st, item), c) == Plan(st, c) + g
  {
    var k, loop := st.conns[c], st.loops[st.conns[c].loop];
    if st.conns[item.conn].loop == k.loop && LoopAlive(st, k.loop) {
      PendingConcat(loop.queue, [item], c);
      assert Pending([item], c) == if item.conn == c then [item.arg] else [];
      assert k.lost == [];
      Lengthen(k.delivered + k.dropped + Pending(loop.drain, c), Pending(loop.queue, c), Pending([item], c));
    }
  }

  lemma {:induction false} Lengthen(done: seq<Arg>, queued: seq<Arg>, more: seq<Arg>)
    ensures done + queued + [] + more == done + (queued + more) + []
  {
  }

  lemma {:induction false} RunPlan(st: State, l: LoopId, c: ConnId)
    requires Enabled(st, RunNext(l)) && c in st.conns && Located(st, c) && Justified(st, c)
    requires Bound(st, st.loops[l].drain[0], l)
    ensures var after := Step(st, RunNext(l));
      c in after.conns && Located(after, c) && after.conns[c].posted == st.conns[c].posted && Plan(after, c) == Plan(st, c)
  {
    if st.loops[l].drain[0].conn == c {
      var k, drain := st.conns[c], st.loops[l].drain;
      assert Pending(drain, c) == [drain[0].arg] + Pending(drain[1..], c);
      Regroup(k, drain[0].arg, Pending(drain[1..], c), Pending(st.loops[l].queue, c));
    } else {
      assert Pending(st.loops[l].drain, c) == Pending(st.loops[l].drain[1..], c);
    }
  }

  lemma {:induction false} Regroup(k: Conn, x: Arg, rest: seq<Arg>, queued: seq<Arg>)
    ensures k.delivered + (k.dropped + [x]) + rest + queued + k.lost == k.delivered + k.dropped + ([x] + rest) + queued + k.lost
    ensures k.dropped == [] ==>
      k.delivered + [x] + k.dropped + rest + queued + k.lost == k.delivered + k.dropped + ([x] + rest) + queued + k.lost
  {
  }

  lemma {:induction false} TeardownPlan(st: State, a: Action, c: ConnId)
    requires Enabled(st, a) && (a.EndTeardown? || a.BeginTeardown?) && c in st.conns && Located(st, c) && Justified(st, c)
    ensures var after := Step(st, a);
      c in after.conns && Located(after, c) && after.conns[c].posted == st.conns[c].posted && Plan(after, c) == Plan(st, c)
  {
    if st.conns[c].loop == a.l {
      assert st.conns[c].lost == [];
    }
  }

  /** Every step but a new round leaves the plan and extends it by what is posted. */
  lemma {:induction false} StepPlan(st: State, a: Action, c: ConnId)
    requires Enabled(st, a) && c in st.conns && Located(st, c) && Justified(st, c)
    requires a.RunNext? ==> Bound(st, st.loops[a.l].drain[0], a.l)
    ensures var after := Step(st, a);
      && c in after.conns && Located(after, c) && after.conns[c].loop == st.conns[c].loop
      && after.conns[c].posted == st.conns[c].posted + Grown(st, a, c)
      && (a != TakeRound(st.conns[c].loop) ==> Plan(after, c) == Plan(st, c) + Grown(st, a, c))
  {
    match a {
      case Enqueue(i) => PostPlan(st.(passed := st.passed[..i] + st.passed[i + 1..]), st.passed[i], c);
      case RunNext(l) => RunPlan(st, l, c);
      case EndTeardown(l) => TeardownPlan(st, a, c);
      case BeginTeardown(l) => TeardownPlan(st, a, c);
      case _ => OtherPlan(st, a, c);
    }
  }

  lemma {:induction false} OtherPlan(st: State, a: Action, c: ConnId)
    requires Enabled(st, a) && c in st.conns && Located(st, c)
    requires !a.Enqueue? && !a.RunNext? && !a.EndTeardown? && !a.BeginTeardown?
    ensures var after := Step(st, a);
      && c in after.conns && Located(after, c) && after.conns[c].loop == st.conns[c].loop
      && after.conns[c].posted == st.conns[c].posted
      && (a != TakeRound(st.conns[c].loop) ==> Plan(after, c) == Plan(st, c))
  {
  }

  /** A new round runs what was queued ahead of what was being drained. */
  lemma {:induction false} RoundPlan(st: State, c: ConnId)
    requires c in st.conns && Located(st, c) && Enabled(st, TakeRound(st.conns[c].loop)) && Justified(st, c)
    ensures var after, k := Step(st, TakeRound(st.conns[c].loop)), st.conns[c];
      && c in after.conns && Located(after, c) && after.conns[c] == k && k.lost == []
      && Plan(after, c) == k.delivered + k.dropped + (Pending(st.loops[k.loop].queue, c) + Pending(st.loops[k.loop].drain, c))
  {
    var loop := st.loops[st.conns[c].loop];
    PendingConcat(loop.queue, loop.drain, c);
  }

  lemma {:induction false} ConnectPlan(st: State, d: ConnId, l: LoopId, receiver: Option<ObjId>)
    requires Enabled(st, Connect(d, l, receiver)) && Homed(st, l)
    ensures var after := Step(st, Connect(d, l, receiver));
      d in after.conns && Located(after, d) && after.conns[d].posted == [] && after.conns[d].lost == [] && Plan(after, d) == []
      && Pending(after.loops[l].queue, d) == [] && after.conns[d].loop == l
  {
    NothingPending(st.loops[l].queue, d);
    NothingPending(st.loops[l].drain, d);
  }

  lemma {:induction false} StepAccounts(st: State, a: Action, c: ConnId)
    requires Enabled(st, a) && Accounted(st, c) && Justified(st, c)
    requires a.RunNext? ==> Bound(st, st.loops[a.l].drain[0], a.l)
    requires a.Connect? ==> Homed(st, a.l)
    ensures Accounted(Step(st, a), c)
  {
    if c in st.conns {
      StepPlan(st, a, c);
      if a == TakeRound(st.conns[c].loop) {
        RoundPlan(st, c);
        var k, loop := st.conns[c], st.loops[st.conns[c].loop];
        SameMembers(k.delivered + k.dropped, Pending(loop.drain, c), Pending(loop.queue, c));
      }
    } else if a.Connect? && a.c == c {
      ConnectPlan(st, c, a.l, a.receiver);
    }
  }

  lemma {:induction false} SameMembers(done: seq<Arg>, drain: seq<Arg>, queue: seq<Arg>)
    ensures multiset(done + drain + queue + []) == multiset(done + (queue + drain))
  {
    assert done + drain + queue + [] == done + drain + queue;
  }

  lemma {:induction false} StepTails(st: State, a: Action, c: ConnId)
    requires Enabled(st, a) && Tailed(st, c) && Justified(st, c)
    requires a.RunNext? ==> Bound(st, st.loops[a.l].drain[0], a.l)
    requires a.Connect? ==> Homed(st, a.l)
    ensures Tailed(Step(st, a), c)
  {
    if c in st.conns {
      StepPlan(st, a, c);
      TailAfter(st, a, c);
    } else if a.Connect? && a.c == c {
      ConnectPlan(st, c, a.l, a.receiver);
    }
  }

  ghost function Tail(st: State, c: ConnId): seq<Arg>
    requires c in st.conns && Located(st, c)
  {
    Pending(st.loops[st.conns[c].loop].queue, c) + st.conns[c].lost
  }

  lemma {:induction false} TailAfterPost(st: State, item: Item, c: ConnId)
    requires item.conn in st.conns && st.conns[item.conn].loop in st.loops
    requires c in st.conns && Located(st, c) && Justified(st, c)
    ensures c in Posted(st, item).conns && Located(Posted(st, item), c)
    ensures Tail(Posted(st, item), c) ==
      Tail(st, c) + if item.conn == c && LoopAlive(st, st.conns[c].loop) then [item.arg] else []
  {
    var k, loop := st.conns[c], st.loops[st.conns[c].loop];
    if st.conns[item.conn].loop == k.loop && LoopAlive(st, k.loop) {
      PendingConcat(loop.queue, [item], c);
      assert Pending([item], c) == if item.conn == c then [item.arg] else [];
      assert k.lost == [];
    }
  }

  lemma {:induction false} TailAfter(st: State, a: Action, c: ConnId)
    requires Enabled(st, a) && c in st.conns && Located(st, c) && Justified(st, c)
    requires c in Step(st, a).conns && Located(Step(st, a), c)
    ensures Tail(Step(st, a), c) == [] || Tail(Step(st, a), c) == Tail(st, c) + Grown(st, a, c)
  {
    if a.Enqueue? {
      TailAfterPost(st.(passed := st.passed[..a.i] + st.passed[a.i + 1..]), st.passed[a.i], c);
    } else if a.EndTeardown? || a.TakeRound? || a.BeginTeardown? {
      TailAfterTake(st, a, c);
    }
  }

  lemma {:induction false} TailAfterTake(st: State, a: Action, c: ConnId)
    requires Enabled(st, a) && c in st.conns && Located(st, c) && Justified(st, c)
    requires a.EndTeardown? || a.TakeRound? || a.BeginTeardown?
    ensures c in Step(st, a).conns && Located(Step(st, a), c)
    ensures Tail(Step(st, a), c) == [] || Tail(Step(st, a), c) == Tail(st, c)
  {
    if a.l == st.conns[c].loop {
      assert st.conns[c].lost == [];
    }
  }

  lemma {:induction false} NothingPending(items: seq<Item>, c: ConnId)
    requires forall i :: 0 <= i < |items| ==> items[i].conn != c
    ensures Pending(items, c) == []
  {
    if items == [] {
    } else {
      NothingPending(items[1..], c);
    }
  }

  // ---- runs ----

  predicate CanRun(st: State, acts: seq<Action>)
    decreases |acts|
  {
    acts != [] ==> Enabled(st, acts[0]) && CanRun(Step(st, acts[0]), acts[1..])
  }

  function Run(st: State, acts: seq<Action>): State
    requires CanRun(st, acts)
    decreases |acts|
  {
    if acts == [] then st else Run(Step(st, acts[0]), acts[1..])
  }

  lemma {:induction false} StepKeepsInvariant(st: State, a: Action)
    requires Invariant(st) && Enabled(st, a)
    ensures Invariant(Step(st, a))
  {
    forall l: LoopId ensures Homed(Step(st, a), l) && Quiet(Step(st, a), l) {
      assert Homed(st, l) && Quiet(st, l);
      StepKeepsHomes(st, a, l);
      StepKeepsQuiet(st, a, l);
    }
    forall c: ConnId ensures Accounted(Step(st, a), c) && Justified(Step(st, a), c) && Tailed(Step(st, a), c) {
      assert Accounted(st, c) && Justified(st, c) && Tailed(st, c);
      StepJustifies(st, a, c);
      if a.RunNext? || a.Connect? {
        assert Homed(st, a.l);
      }
      StepAccounts(st, a, c);
      StepTails(st, a, c);
    }
  }

  lemma {:induction false} RunKeepsInvariant(st: State, acts: seq<Action>)
    requires Invariant(st) && CanRun(st, acts)
    ensures Invariant(Run(st, acts))
    decreases |acts|
  {
    if acts == [] {
    } else {
      StepKeepsInvariant(st, acts[0]);
      RunKeepsInvariant(Step(st, acts[0]), acts[1..]);
    }
  }

  predicate CaughtUp(loop: Loop) {
    loop.queue == [] && loop.drain == []
  }

  /** In every run, rounds inside rounds included, each post of a connection is delivered, dropped, pending
      or lost, and once; without a receiver, or while the receiver lives, nothing is dropped, and once the
      loop has caught up everything posted has been delivered. */
  lemma {:induction false} EachPostOnce(acts: seq<Action>, c: ConnId)
    requires CanRun(START, acts) && c in Run(START, acts).conns
    ensures var st := Run(START, acts);
      var k := st.conns[c];
      && Located(st, c) && multiset(k.posted) == multiset(Plan(st, c))
      && (ReceiverAlive(st, k.receiver) ==> k.dropped == [])
      && (ReceiverAlive(st, k.receiver) && LoopAlive(st, k.loop) && CaughtUp(st.loops[k.loop]) ==>
            multiset(k.delivered) == multiset(k.posted))
  {
    RunKeepsInvariant(START, acts);
    assert Accounted(Run(START, acts), c) && Justified(Run(START, acts), c);
    var k := Run(START, acts).conns[c];
    assert k.delivered + [] + [] + [] + [] == k.delivered;
  }

  // ---- order ----

  /** The step does not start a round that overtakes posts of `c` still being drained. */
  ghost predicate Harmless(st: State, a: Action, c: ConnId) {
    c in st.conns && a == TakeRound(st.conns[c].loop) && st.conns[c].loop in st.loops ==>
      Pending(st.loops[st.conns[c].loop].queue, c) == [] || Pending(st.loops[st.conns[c].loop].drain, c) == []
  }

  ghost predicate HarmlessRounds(st: State, acts: seq<Action>, c: ConnId)
    requires CanRun(st, acts)
    decreases |acts|
  {
    acts != [] ==> Harmless(st, acts[0], c) && HarmlessRounds(Step(st, acts[0]), acts[1..], c)
  }

  lemma {:induction false} SwapEmpty(done: seq<Arg>, drain: seq<Arg>, queue: seq<Arg>)
    requires queue == [] || drain == []
    ensures done + (queue + drain) == done + drain + queue + []
  {
  }

  lemma {:induction false} SwapDistinct(done: seq<Arg>, drain: seq<Arg>, queue: seq<Arg>)
    requires queue != [] && drain != [] && NoDup(done + drain + queue + [])
    ensures done + (queue + drain) != done + drain + queue + []
  {
    var s, t := done + drain + queue + [], done + (queue + drain);
    assert s[|done|] == drain[0] && s[|done| + |drain|] == queue[0] && t[|done|] == queue[0];
  }

  /** For distinct posts, a round keeps the order exactly when the loop has nothing queued or nothing left to
      drain for the connection. */
  lemma {:induction false} RoundKeepsOrderIff(st: State, c: ConnId)
    requires c in st.conns && InOrder(st, c) && Justified(st, c) && Enabled(st, TakeRound(st.conns[c].loop))
    requires NoDup(st.conns[c].posted)
    ensures InOrder(Step(st, TakeRound(st.conns[c].loop)), c) <==> Harmless(st, TakeRound(st.conns[c].loop), c)
  {
    RoundPlan(st, c);
    var k, loop := st.conns[c], st.loops[st.conns[c].loop];
    var done, drain, queue := k.delivered + k.dropped, Pending(loop.drain, c), Pending(loop.queue, c);
    if queue == [] || drain == [] {
      SwapEmpty(done, drain, queue);
    } else {
      SwapDistinct(done, drain, queue);
    }
  }

  lemma {:induction false} StepKeepsOrder(st: State, a: Action, c: ConnId)
    requires Enabled(st, a) && InOrder(st, c) && Justified(st, c) && Harmless(st, a, c)
    requires a.RunNext? ==> Bound(st, st.loops[a.l].drain[0], a.l)
    requires a.Connect? ==> Homed(st, a.l)
    ensures InOrder(Step(st, a), c)
  {
    if c in st.conns {
      StepPlan(st, a, c);
      if a == TakeRound(st.conns[c].loop) {
        RoundPlan(st, c);
        var k, loop := st.conns[c], st.loops[st.conns[c].loop];
        SwapEmpty(k.delivered + k.dropped, Pending(loop.drain, c), Pending(loop.queue, c));
      }
    } else if a.Connect? && a.c == c {
      ConnectPlan(st, c, a.l, a.receiver);
    }
  }

  /** If the posts start with something else than what has run and is being drained, no later order helps:
      the newest post would have to come last, but what is being drained comes after it. */
  lemma {:induction false} SwapNeverHelps(posted: seq<Arg>, done: seq<Arg>, drain: seq<Arg>, queue: seq<Arg>)
    requires NoDup(posted) && EndsWith(posted, queue + []) && multiset(posted) == multiset(done + drain + queue + [])
    requires posted != done + drain + queue + []
    ensures posted != done + (queue + drain)
  {
    if queue == [] || drain == [] {
      SwapEmpty(done, drain, queue);
    } else {
      var t, x, y := done + (queue + drain), drain[|drain| - 1], queue[|queue| - 1];
      assert queue + [] == queue && posted[|posted| - |queue|..][|queue| - 1] == y;
      assert t[|t| - 1] == x && posted[|posted| - 1] == y;
      if x in queue {
        SharedTwice(done, drain, queue, x);
        NoDupCount(posted, x);
      }
    }
  }

  lemma {:induction false} SharedTwice(done: seq<Arg>, drain: seq<Arg>, queue: seq<Arg>, x: Arg)
    requires x in drain && x in queue
    ensures multiset(done + drain + queue + [])[x] >= 2
  {
    assert done + drain + queue + [] == done + drain + queue;
  }

  /** Disorder is for good. */
  lemma {:induction false} DisorderStays(st: State, a: Action, c: ConnId)
    requires Enabled(st, a) && c in st.conns && Accounted(st, c) && Tailed(st, c) && Justified(st, c) && !InOrder(st, c)
    requires a.RunNext? ==> Bound(st, st.loops[a.l].drain[0], a.l)
    requires NoDup(st.conns[c].posted)
    ensures !InOrder(Step(st, a), c)
  {
    StepPlan(st, a, c);
    var k, loop := st.conns[c], st.loops[st.conns[c].loop];
    if a == TakeRound(k.loop) {
      RoundPlan(st, c);
      SwapNeverHelps(k.posted, k.delivered + k.dropped, Pending(loop.drain, c), Pending(loop.queue, c));
    } else {
      assert |multiset(k.posted)| == |k.posted| && |multiset(Plan(st, c))| == |Plan(st, c)|;
      SameExtension(k.posted, Plan(st, c), Grown(st, a, c));
    }
  }

  lemma {:induction false} SameExtension(s: seq<Arg>, t: seq<Arg>, more: seq<Arg>)
    requires s != t && |s| == |t|
    ensures s + more != t + more
  {
    assert (s + more)[..|s|] == s && (t + more)[..|s|] == t;
  }

  lemma {:induction false} PostedGrows(st: State, acts: seq<Action>, c: ConnId)
    requires Invariant(st) && CanRun(st, acts) && c in st.conns
    ensures c in Run(st, acts).conns && st.conns[c].posted <= Run(st, acts).conns[c].posted
    decreases |acts|
  {
    if acts == [] {
    } else {
      assert Accounted(st, c) && Justified(st, c);
      if acts[0].RunNext? {
        assert Homed(st, acts[0].l);
      }
      StepPlan(st, acts[0], c);
      StepKeepsInvariant(st, acts[0]);
      PostedGrows(Step(st, acts[0]), acts[1..], c);
    }
  }

  lemma {:induction false} StaysDisordered(st: State, acts: seq<Action>, c: ConnId)
    requires Invariant(st) && CanRun(st, acts) && c in st.conns && !InOrder(st, c)
    requires c in Run(st, acts).conns && NoDup(Run(st, acts).conns[c].posted)
    ensures !InOrder(Run(st, acts), c)
    decreases |acts|
  {
    if acts == [] {
    } else {
      assert Accounted(st, c) && Justified(st, c) && Tailed(st, c);
      PostedGrows(st, acts, c);
      if acts[0].RunNext? {
        assert Homed(st, acts[0].l);
      }
      DisorderStays(st, acts[0], c);
      StepPlan(st, acts[0], c);
      StepKeepsInvariant(st, acts[0]);
      StaysDisordered(Step(st, acts[0]), acts[1..], c);
    }
  }

  lemma {:induction false} HarmlessKeepsOrder(st: State, acts: seq<Action>, c: ConnId)
    requires Invariant(st) && CanRun(st, acts) && InOrder(st, c) && HarmlessRounds(st, acts, c)
    ensures InOrder(Run(st, acts), c)
    decreases |acts|
  {
    if acts == [] {
    } else {
      assert Justified(st, c);
      if acts[0].RunNext? || acts[0].Connect? {
        assert Homed(st, acts[0].l);
      }
      StepKeepsOrder(st, acts[0], c);
      StepKeepsInvariant(st, acts[0]);
      HarmlessKeepsOrder(Step(st, acts[0]), acts[1..], c);
    }
  }

  lemma {:induction false} HarmBreaksOrder(st: State, acts: seq<Action>, c: ConnId)
    requires Invariant(st) && CanRun(st, acts) && InOrder(st, c) && !HarmlessRounds(st, acts, c)
    requires c in Run(st, acts).conns && NoDup(Run(st, acts).conns[c].posted)
    ensures !InOrder(Run(st, acts), c)
    decreases |acts|
  {
    var a := acts[0];
    assert Justified(st, c) && Accounted(st, c);
    StepKeepsInvariant(st, a);
    if Harmless(st, a, c) {
      if a.RunNext? || a.Connect? {
        assert Homed(st, a.l);
      }
      StepKeepsOrder(st, a, c);
      HarmBreaksOrder(Step(st, a), acts[1..], c);
    } else {
      PostedGrows(st, acts, c);
      RoundKeepsOrderIff(st, c);
      StepPlan(st, a, c);
      StaysDisordered(Step(st, a), acts[1..], c);
    }
  }

  /** Over every run with distinct posts, the plan of a connection is its posting order exactly when no round
      was started over unfinished posts of it while newer ones were queued. */
  lemma {:induction false} OrderKeptIff(acts: seq<Action>, c: ConnId)
    requires CanRun(START, acts) && c in Run(START, acts).conns && NoDup(Run(START, acts).conns[c].posted)
    ensures InOrder(Run(START, acts), c) <==> HarmlessRounds(START, acts, c)
  {
    if HarmlessRounds(START, acts, c) {
      HarmlessKeepsOrder(START, acts, c);
    } else {
      HarmBreaksOrder(START, acts, c);
    }
  }

  /** In such runs the deliveries are an initial stretch of what was posted, and what is dropped follows them. */
  lemma {:induction false} DeliveriesArePrefix(acts: seq<Action>, c: ConnId)
    requires CanRun(START, acts) && c in Run(START, acts).conns && HarmlessRounds(START, acts, c)
    ensures var st := Run(START, acts);
      var k := st.conns[c];
      && k.delivered <= k.posted && k.delivered + k.dropped <= k.posted
      && (ReceiverAlive(st, k.receiver) && LoopAlive(st, k.loop) && k.loop in st.loops && CaughtUp(st.loops[k.loop]) ==>
            k.delivered == k.posted)
  {
    HarmlessKeepsOrder(START, acts, c);
    RunKeepsInvariant(START, acts);
    assert Justified(Run(START, acts), c);
  }

  /** A released receiver, one past disconnect_all, has no slot left in the signal. */
  lemma {:induction false} DeadReceiverHasNoSlot(acts: seq<Action>, c: ConnId)
    requires CanRun(START, acts)
    requires c in Run(START, acts).conns
    ensures var st := Run(START, acts);
      var k := st.conns[c];
      k.receiver.Some? && k.receiver.value in st.life && st.life[k.receiver.value].Released? ==> !k.connected
  {
    RunKeepsInvariant(START, acts);
    assert Justified(Run(START, acts), c);
  }

  /** The emissions of `c` in the gap between the check and the slot. */
  function InGap(st: State, c: ConnId): nat {
    |Pending(st.passed, c)|
  }

  lemma {:induction false} PendingRemoved(items: seq<Item>, i: nat, c: ConnId)
    requires i < |items|
    ensures |Pending(items, c)| == |Pending(items[..i] + items[i + 1..], c)| + if items[i].conn == c then 1 else 0
  {
    assert items == items[..i] + ([items[i]] + items[i + 1..]);
    PendingConcat(items[..i], [items[i]] + items[i + 1..], c);
    PendingConcat(items[..i], items[i + 1..], c);
    assert ([items[i]] + items[i + 1..])[1..] == items[i + 1..];
  }

  lemma {:induction false} DeadStep(st: State, a: Action, c: ConnId)
    requires Enabled(st, a) && c in st.conns && Justified(st, c)
    ensures c in Step(st, a).conns && Step(st, a).conns[c].receiver == st.conns[c].receiver
    ensures !ReceiverAlive(st, st.conns[c].receiver) ==>
      !ReceiverAlive(Step(st, a), st.conns[c].receiver) && Step(st, a).conns[c].delivered == st.conns[c].delivered
  {
  }

  lemma {:induction false} DisconnectedStep(st: State, a: Action, c: ConnId)
    requires Enabled(st, a) && c in st.conns && !st.conns[c].connected
    ensures var after := Step(st, a);
      && c in after.conns && !after.conns[c].connected && after.conns[c].loop == st.conns[c].loop
      && st.conns[c].posted <= after.conns[c].posted
      && |after.conns[c].posted| + InGap(after, c) <= |st.conns[c].posted| + InGap(st, c)
      && (LoopAlive(st, st.conns[c].loop) ==>
            |after.conns[c].posted| + InGap(after, c) == |st.conns[c].posted| + InGap(st, c))
  {
    if a.Emit? {
      PendingConcat(st.passed, [Item(a.c, a.x)], c);
      assert Pending([Item(a.c, a.x)], c) == [];
    } else if a.Enqueue? {
      PendingRemoved(st.passed, a.i, c);
    }
  }

  lemma {:induction false} ClosedForGood(st: State, a: Action, l: LoopId)
    requires Enabled(st, a) && l in st.loops && LoopAlive(Step(st, a), l)
    ensures LoopAlive(st, l)
  {
  }

  /** From the moment the receiver's token is cleared no delivery happens. */
  lemma {:induction false} NothingAfterDeath(st: State, acts: seq<Action>, c: ConnId)
    requires Invariant(st) && CanRun(st, acts) && c in st.conns && !ReceiverAlive(st, st.conns[c].receiver)
    ensures c in Run(st, acts).conns && Run(st, acts).conns[c].delivered == st.conns[c].delivered
    decreases |acts|
  {
    if acts == [] {
    } else {
      assert Justified(st, c);
      DeadStep(st, acts[0], c);
      StepKeepsInvariant(st, acts[0]);
      NothingAfterDeath(Step(st, acts[0]), acts[1..], c);
    }
  }

  /** Once a connection is gone only the emissions that had passed the check by then can still post: all of
      them do while the loop lives, and none is added. */
  lemma {:induction false} LatePostsWerePassed(st: State, acts: seq<Action>, c: ConnId)
    requires CanRun(st, acts) && c in st.conns && !st.conns[c].connected && st.conns[c].loop in st.loops
    ensures c in Run(st, acts).conns && st.conns[c].posted <= Run(st, acts).conns[c].posted
    ensures |Run(st, acts).conns[c].posted| + InGap(Run(st, acts), c) <= |st.conns[c].posted| + InGap(st, c)
    ensures LoopAlive(Run(st, acts), st.conns[c].loop) ==>
      |Run(st, acts).conns[c].posted| + InGap(Run(st, acts), c) == |st.conns[c].posted| + InGap(st, c)
    decreases |acts|
  {
    if acts == [] {
    } else {
      DisconnectedStep(st, acts[0], c);
      LoopsStay(st, acts[0], st.conns[c].loop);
      LatePostsWerePassed(Step(st, acts[0]), acts[1..], c);
      if LoopAlive(Run(st, acts), st.conns[c].loop) {
        AliveBefore(Step(st, acts[0]), acts[1..], st.conns[c].loop);
        ClosedForGood(st, acts[0], st.conns[c].loop);
      }
    }
  }

  lemma {:induction false} LoopsStay(st: State, a: Action, l: LoopId)
    requires Enabled(st, a) && l in st.loops
    ensures l in Step(st, a).loops
  {
  }

  lemma {:induction false} AliveBefore(st: State, acts: seq<Action>, l: LoopId)
    requires CanRun(st, acts) && l in st.loops && LoopAlive(Run(st, acts), l)
    ensures LoopAlive(st, l)
    decreases |acts|
  {
    if acts == [] {
    } else {
      LoopsStay(st, acts[0], l);
      AliveBefore(Step(st, acts[0]), acts[1..], l);
      ClosedForGood(st, acts[0], l);
    }
  }

  // ---- destroying the loop ----

  /** What is queued for `c` at the end of the run, if `queued` is at its start: rounds take it away. */
  ghost function StillQueued(st: State, acts: seq<Action>, c: ConnId, l: LoopId, queued: seq<Arg>): seq<Arg>
    requires CanRun(st, acts)
    decreases |acts|
  {
    if acts == [] then queued
    else StillQueued(Step(st, acts[0]), acts[1..], c, l,
                     if acts[0] == TakeRound(l) then [] else queued + Arrives(st, acts[0], c))
  }

  lemma {:induction false} ClosingStep(st: State, a: Action, c: ConnId)
    requires Enabled(st, a) && c in st.conns && st.conns[c].loop in st.loops
    requires st.loops[st.conns[c].loop].phase.Closing? && a != EndTeardown(st.conns[c].loop)
    ensures var after, l := Step(st, a), st.conns[c].loop;
      && c in after.conns && after.conns[c].loop == l && l in after.loops && after.loops[l].phase.Closing?
      && after.conns[c].lost == st.conns[c].lost
      && Pending(after.loops[l].queue, c) ==
           if a == TakeRound(l) then [] else Pending(st.loops[l].queue, c) + Arrives(st, a, c)
  {
    if a.Enqueue? {
      var item := st.passed[a.i];
      PendingConcat(st.loops[st.conns[c].loop].queue, [item], c);
      assert Pending([item], c) == if item.conn == c then [item.arg] else [];
    }
  }

  /** A loop that dies runs everything enqueued before its destructor. What a connection loses is exactly what
      arrives while the destructor drains and no round started by a closure takes up. */
  lemma {:induction false} TeardownLosesLateEmissions(st: State, acts: seq<Action>, c: ConnId)
    requires CanRun(st, acts) && acts != [] && c in st.conns && st.conns[c].loop in st.loops
    requires st.loops[st.conns[c].loop].phase.Closing?
    requires acts[|acts| - 1] == EndTeardown(st.conns[c].loop)
    requires forall i :: 0 <= i < |acts| - 1 ==> acts[i] != EndTeardown(st.conns[c].loop)
    ensures c in Run(st, acts).conns
    ensures Run(st, acts).conns[c].lost == st.conns[c].lost
      + StillQueued(st, acts, c, st.conns[c].loop, Pending(st.loops[st.conns[c].loop].queue, c))
    decreases |acts|
  {
    var l := st.conns[c].loop;
    if |acts| == 1 {
      assert acts == [EndTeardown(l)] && acts[1..] == [];
    } else {
      assert acts[0] != EndTeardown(l);
      ClosingStep(st, acts[0], c);
      assert forall i :: 0 <= i < |acts[1..]| ==> acts[1..][i] == acts[i + 1];
      TeardownLosesLateEmissions(Step(st, acts[0]), acts[1..], c);
    }
  }
}
