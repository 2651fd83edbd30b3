/**
 What `QueuePolicy::Block` and a queue limit bound in the ring build.  The in-flight test counts the
 worker's own pop attempt and nothing else, so it acts for a limit of one only; what bounds the
 backlog is the ring, whose capacity follows the limit.
 */
module BlockLimit {
  import opened QueuePolicies
  import opened TaskExecutor
  import opened TaskExecutorSafety
  import opened TaskExecutorRuns
  import S = StrandedTask
  import R = MpscRing

  // --------------------------------------------------------- the in-flight test

  /** On every run the in-flight test holds a producer back exactly at limit one, while the worker is at a task. */
  lemma LimitReachedExactlyWhen(trace: seq<State>, steps: seq<Action>, n: nat, policy: QueuePolicy)
    requires IsRun(trace, steps) && n < |trace|
    ensures LimitReached(trace[n], policy) <==> policy.Block? && trace[n].limit == 1 && trace[n].activeTasks == 1
  {
    hide Linked, Conserved, Ordered, Tickets, Reasons;
    RunKeepsInv(trace, steps, n);
  }

  // ------------------------------------------------------------- the real bound

  /** The capacity of the ring that a limit asks for. */
  function CapacityFor(limit: nat): nat
  {
    if limit == 0 then DEFAULT_RING_CAPACITY else if limit < 2 then 2 else limit
  }

  lemma StepKeepsCapacity(s: State, a: Action)
    requires Enabled(s, a) && s.ring.Capacity() == CapacityFor(s.limit)
    ensures Step(s, a).ring.Capacity() == CapacityFor(Step(s, a).limit)
  {
    hide AddStep, WorkStep, LifeStep, AddEnabled, WorkEnabled, LifeEnabled;
    match a
    case Producer(p, op) => AddKeepsQueue(s, p, op);
    case Worker(op) => WorkKeepsQueue(s, op);
    case Manager(op) => LifeKeepsCapacity(s, op);
    case Waiter(w, op) => WaitKeepsQueue(s, w, op);
    case ResetDrops => ResetKeepsQueue(s);
  }

  lemma LifeKeepsCapacity(s: State, op: LifeOp)
    requires LifeEnabled(s, op) && s.ring.Capacity() == CapacityFor(s.limit)
    ensures LifeStep(s, op).ring.Capacity() == CapacityFor(LifeStep(s, op).limit)
  {
  }

  /** The ring's capacity is always the one its limit asks for. */
  lemma {:induction false} CapacityFollowsLimit(trace: seq<State>, steps: seq<Action>, n: nat)
    requires IsRun(trace, steps) && n < |trace|
    ensures trace[n].ring.Capacity() == CapacityFor(trace[n].limit)
  {
    if n > 0 {
      hide Step, Enabled;
      CapacityFollowsLimit(trace, steps, n - 1);
      StepKeepsCapacity(trace[n - 1], steps[n - 1]);
    }
  }

  /** Tasks accepted and not yet started. */
  ghost function Backlog(s: State): int
  {
    |s.Accepted()| - |s.executed|
  }

  /** The backlog is bounded by the ring, and one task in the worker's hands. */
  lemma BacklogIsBounded(trace: seq<State>, steps: seq<Action>, n: nat)
    requires IsRun(trace, steps) && n < |trace|
    ensures 0 <= Backlog(trace[n]) <= CapacityFor(trace[n].limit) + 1
  {
    hide Conserved, Tickets, Reasons, Barrier, Flags;
    RunKeepsInv(trace, steps, n);
    CapacityFollowsLimit(trace, steps, n);
    assert |trace[n].ring.popped| >= trace[n].ring.Released();
  }

  // -------------------------------------------------- whole calls as sequences of steps

  lemma ReachableInv(s: State)
    requires Reachable(s)
    ensures Inv(s)
  {
    hide Inv;
    var trace: seq<State>, steps: seq<Action> :| IsRun(trace, steps) && trace[|steps|] == s;
    RunKeepsInv(trace, steps, |steps|);
  }

  /** `s` with thread `p` inside `add_task` at `pc`, its ticket reserved. */
  ghost function Inside(s: State, p: ThreadId, pc: AddPc, ring: R.Ring<Ticket>): State
  {
    s.(adders := s.adders[p := pc], activeProducers := s.activeProducers + 1, submitted := s.submitted + 1,
       quiet := false, ring := ring)
  }

  /** `s` with thread `p` registered at the barrier. */
  ghost function Registered(s: State, p: ThreadId, pc: AddPc): State
  {
    s.(adders := s.adders[p := pc], activeProducers := s.activeProducers + 1)
  }

  lemma Registers(s: State, p: ThreadId)
    requires Reachable(s) && p !in s.adders && !s.resizing
    ensures Reachable(Registered(s, p, Recheck))
  {
    hide Reachable;
    var s1 := s.(adders := s.adders[p := AwaitBarrier]);
    Continue(s, Producer(p, CallAdd), s1);
    var s2 := s.(adders := s.adders[p := Register]);
    assert s1.adders[p := Register] == s2.adders;
    Continue(s1, Producer(p, AddMove), s2);
    assert s2.adders[p := Recheck] == Registered(s, p, Recheck).adders;
    Continue(s2, Producer(p, AddRegister), Registered(s, p, Recheck));
  }

  lemma Reserves(s: State, p: ThreadId)
    requires Reachable(Registered(s, p, Recheck)) && !s.resizing
    ensures Reachable(Inside(s, p, CheckStop(s.submitted), s.ring))
  {
    hide Reachable;
    var s1, s2 := Registered(s, p, Recheck), Registered(s, p, Reserve).(quiet := false);
    assert s1.adders[p := Reserve] == s2.adders;
    Continue(s1, Producer(p, AddEnter), s2);
    var s3 := Inside(s, p, CheckStop(s.submitted), s.ring);
    assert s2.adders[p := CheckStop(s.submitted)] == s3.adders;
    Continue(s2, Producer(p, AddReserve), s3);
  }

  /** A thread may walk up to the in-flight test whenever no resize and no stop is in its way. */
  lemma WalksIn(s: State, p: ThreadId)
    requires Reachable(s) && p !in s.adders && !s.resizing && !s.stop
    ensures Reachable(Inside(s, p, CheckLimit(s.submitted, s.policy), s.ring))
  {
    hide Reachable;
    var t := s.submitted;
    Registers(s, p);
    Reserves(s, p);
    WalksOn(s, p, CheckStop(t), LoadPolicy(t));
    WalksOn(s, p, LoadPolicy(t), CheckLimit(t, s.policy));
  }

  lemma WalksOn(s: State, p: ThreadId, pc: AddPc, pc': AddPc)
    requires Reachable(Inside(s, p, pc, s.ring)) && AddMoves(Inside(s, p, pc, s.ring), p)
    requires AddMoved(Inside(s, p, pc, s.ring), p) == pc'
    ensures Reachable(Inside(s, p, pc', s.ring))
  {
    hide Reachable, AddMoved;
    var from, to := Inside(s, p, pc, s.ring), Inside(s, p, pc', s.ring);
    assert from.adders[p := pc'] == to.adders;
    Continue(from, Producer(p, AddMove), to);
  }

  /** One atomic operation of the push of `p`. */
  lemma Pushes(s: State, p: ThreadId, pc: AddPc, ring: R.Ring<Ticket>)
    requires Reachable(Inside(s, p, pc, ring)) && pc.Pushing? && R.CanPush(ring, p)
    ensures Reachable(Inside(s, p, pc, R.PushStep(ring, p, false)))
  {
    hide Reachable, R.PushStep;
    Continue(Inside(s, p, pc, ring), Producer(p, AddPush(false)), Inside(s, p, pc, R.PushStep(ring, p, false)));
  }

  ghost predicate CanAdd(s: State, p: ThreadId)
  {
    && p !in s.adders && p !in s.ring.pushers && !s.resizing && !s.stop && !LimitReached(s, s.policy)
    && s.ring.Capacity() > 0
    && s.ring.cells[R.Slot(s.ring.enqueuePos, s.ring.Capacity())].sequence == s.ring.enqueuePos
  }

  /** The state after an uninterrupted `add_task` that finds room. */
  ghost function Added(s: State, p: ThreadId): State
    requires CanAdd(s, p)
  {
    s.(ring := R.WholePush(s.ring, p, s.submitted), submitted := s.submitted + 1, quiet := false)
  }

  lemma Adds(s: State, p: ThreadId)
    requires Reachable(s) && CanAdd(s, p)
    ensures Reachable(Added(s, p))
  {
    hide Reachable;
    var pc, r := Pushing(s.submitted, s.policy), R.BeginPush(s.ring, p, s.submitted);
    BeginsPush(s, p);
    PushesThrough(s, p, pc, r);
    Leaves(s, p, pc, PushedThrough(r, p));
  }

  lemma BeginsPush(s: State, p: ThreadId)
    requires Reachable(s) && p !in s.adders && !s.resizing && !s.stop && !LimitReached(s, s.policy)
    ensures Reachable(Inside(s, p, Pushing(s.submitted, s.policy), R.BeginPush(s.ring, p, s.submitted)))
  {
    hide Reachable;
    WalksIn(s, p);
    var s0 := Inside(s, p, CheckLimit(s.submitted, s.policy), s.ring);
    var s1 := Inside(s, p, Pushing(s.submitted, s.policy), R.BeginPush(s.ring, p, s.submitted));
    assert s0.adders[p := Pushing(s.submitted, s.policy)] == s1.adders;
    Continue(s0, Producer(p, AddBeginPush), s1);
  }

  /** The five operations of an uninterrupted push. */
  ghost function PushedThrough(r: R.Ring<Ticket>, p: ThreadId): (r5: R.Ring<Ticket>)
    requires Poised(r, p)
    ensures p in r5.pushers && r5.pushers[p].pc == R.PushReturned(true)
    ensures r5.claimed == r.claimed + [r.pushers[p].item]
  {
    var r1 := R.PushStep(r, p, false);
    var r2 := R.PushStep(r1, p, false);
    var r3 := R.PushStep(r2, p, false);
    var r4 := R.PushStep(r3, p, false);
    R.PushStep(r4, p, false)
  }

  /** `p` is about to push, and the tail cell is free. */
  ghost predicate Poised(r: R.Ring<Ticket>, p: ThreadId)
  {
    && r.Capacity() > 0 && p in r.pushers && r.pushers[p].pc.LoadTail?
    && r.cells[R.Slot(r.enqueuePos, r.Capacity())].sequence == r.enqueuePos
  }

  lemma PushesThrough(s: State, p: ThreadId, pc: AddPc, r: R.Ring<Ticket>)
    requires Poised(r, p) && pc.Pushing? && Reachable(Inside(s, p, pc, r))
    ensures Reachable(Inside(s, p, pc, PushedThrough(r, p)))
  {
    hide Reachable;
    Pushes(s, p, pc, r);
    var r1 := R.PushStep(r, p, false);
    Pushes(s, p, pc, r1);
    var r2 := R.PushStep(r1, p, false);
    Pushes(s, p, pc, r2);
    var r3 := R.PushStep(r2, p, false);
    Pushes(s, p, pc, r3);
    var r4 := R.PushStep(r3, p, false);
    Pushes(s, p, pc, r4);
  }

  lemma Leaves(s: State, p: ThreadId, pc: AddPc, ring: R.Ring<Ticket>)
    requires Reachable(Inside(s, p, pc, ring)) && pc.Pushing? && p !in s.adders
    requires p in ring.pushers && ring.pushers[p].pc == R.PushReturned(true)
    ensures Reachable(s.(ring := R.EndPush(ring, p), submitted := s.submitted + 1, quiet := false))
  {
    hide Reachable;
    var s0, s1 := Inside(s, p, pc, ring), Inside(s, p, Leave, R.EndPush(ring, p));
    assert s0.adders[p := Leave] == s1.adders;
    Continue(s0, Producer(p, AddEndPush), s1);
    var s2 := s.(ring := R.EndPush(ring, p), submitted := s.submitted + 1, quiet := false);
    assert s1.adders - {p} == s.adders;
    Continue(s1, Producer(p, AddLeave), s2);
  }

  // ------------------------------------------------------------- a whole resize

  /** The executor after a resize on a fresh executor. */
  ghost function Resized(size: nat): State
  {
    Init.(ring := R.NewRing(if size == 0 then DEFAULT_RING_CAPACITY else size), limit := size, quiet := true)
  }

  /** The worker waits to read the stop flag, and the resize is at `pc`. */
  ghost function ResizeAt(pc: LifecyclePc, resizing: bool): State
  {
    Init.(worker := TestStop(false), quiet := true, lifecycle := pc, resizing := resizing)
  }

  lemma ResizeMoves(pc: LifecyclePc, resizing: bool, pc': LifecyclePc)
    requires Reachable(ResizeAt(pc, resizing)) && LifeMoves(ResizeAt(pc, resizing), false)
    requires LifeMoved(ResizeAt(pc, resizing), false) == pc'
    ensures Reachable(ResizeAt(pc', resizing))
  {
    hide Reachable;
    Continue(ResizeAt(pc, resizing), Manager(LifeMove(false)), ResizeAt(pc', resizing));
  }

  lemma ResizeQuiesces(size: nat)
    ensures Reachable(ResizeAt(StopWorker(size), true))
  {
    hide Reachable;
    S.WorkerTests();
    Continue(S.Tested, Worker(WorkMove), ResizeAt(Free, false));
    Continue(ResizeAt(Free, false), Manager(CallResize(size)), ResizeAt(ResizeCheck(size), false));
    ResizeMoves(ResizeCheck(size), false, RaiseBarrier(size));
    Continue(ResizeAt(RaiseBarrier(size), false), Manager(LifeRaiseBarrier), ResizeAt(AwaitProducers(size), true));
    ResizeMoves(AwaitProducers(size), true, LoadTarget(size));
    ResizeMoves(LoadTarget(size), true, AwaitTarget(size, 0));
    ResizeMoves(AwaitTarget(size, 0), true, IdleStop(size));
    ResizeMoves(IdleStop(size), true, IdleTest(size));
    ResizeMoves(IdleTest(size), true, StopWorker(size));
  }

  lemma Resizes(size: nat)
    ensures Reachable(Resized(size))
  {
    hide Reachable, R.NewRing;
    ResizeQuiesces(size);
    var s0 := ResizeAt(StopWorker(size), true);
    var s1 := s0.(stop := true, lifecycle := JoinWorker(size));
    Continue(s0, Manager(LifeRaiseStop), s1);
    var s2 := s1.(worker := Exited);
    HasCells();
    Continue(s1, Worker(WorkMove), s2);
    var s3 := s2.(lifecycle := Swap(size));
    Continue(s2, Manager(LifeMove(false)), s3);
    SwapsIn(size);
  }

  lemma HasCells()
    ensures Init.ring.Capacity() > 0
  {
  }

  lemma SwapsIn(size: nat)
    requires Reachable(ResizeAt(Swap(size), true).(stop := true, worker := Exited))
    ensures Reachable(Resized(size))
  {
    hide Reachable, R.NewRing;
    var s3 := ResizeAt(Swap(size), true).(stop := true, worker := Exited);
    NothingClaimed();
    var s4 := Resized(size).(stop := true, worker := Exited, lifecycle := ClearStop, resizing := true);
    Continue(s3, Manager(LifeSwap), s4);
    var s5 := s4.(stop := false, lifecycle := StartWorker);
    Continue(s4, Manager(LifeClearStop), s5);
    var s6 := s5.(worker := Restart, lifecycle := LowerBarrier);
    Continue(s5, Manager(LifeStartWorker), s6);
    Continue(s6, Manager(LifeLowerBarrier), Resized(size));
  }

  lemma NothingClaimed()
    ensures Init.Accepted() == []
  {
  }

  // ---------------------------------------------------------------- the worker

  lemma WorkerStarts(s: State)
    requires Reachable(s) && s.worker.Restart? && s.ring.Capacity() > 0
    ensures Reachable(s.(worker := Attempt(DRAIN_BUDGET, false)))
  {
    hide Reachable;
    Continue(s, Worker(WorkMove), s.(worker := Attempt(DRAIN_BUDGET, false)));
  }

  /** `s` with the worker inside its first pop. */
  ghost function Popping1(s: State, ring: R.Ring<Ticket>): State
  {
    s.(worker := Popping(DRAIN_BUDGET - 1, false), activeTasks := s.activeTasks + 1, ring := ring)
  }

  lemma WorkerPops(s: State, ring: R.Ring<Ticket>)
    requires Reachable(Popping1(s, ring)) && R.CanPop(ring)
    ensures Reachable(Popping1(s, R.PopStep(ring, false)))
  {
    hide Reachable, R.PopStep;
    Continue(Popping1(s, ring), Worker(WorkPop(false)), Popping1(s, R.PopStep(ring, false)));
  }

  lemma WorkerBegins(s: State)
    requires Reachable(s) && s.worker.Restart? && s.ring.Capacity() > 0
    ensures Reachable(Popping1(s, R.BeginPop(s.ring)))
  {
    hide Reachable;
    WorkerStarts(s);
    Continue(s.(worker := Attempt(DRAIN_BUDGET, false)), Worker(WorkBeginPop), Popping1(s, R.BeginPop(s.ring)));
  }

  // ------------------------------------------------------------------ the witnesses

  /** A producer stands before the in-flight test and is turned back. */
  ghost predicate HeldBack(s: State, p: ThreadId)
  {
    p in s.adders && s.adders[p].CheckLimit? && LimitReached(s, s.adders[p].policy)
  }

  lemma LimitOneHoldsBack()
    ensures exists s, p :: Reachable(s) && s.limit == 1 && HeldBack(s, p)
  {
    var s0 := Resized(1);
    Resizes(1);
    WorkerBegins(s0);
    var s1 := Popping1(s0, R.BeginPop(s0.ring));
    WalksIn(s1, 0);
    var s2 := Inside(s1, 0, CheckLimit(0, Block), s1.ring);
    assert Reachable(s2) && s2.limit == 1 && HeldBack(s2, 0);
  }

  /** The in-flight test ever holds a producer back under exactly one limit: one. */
  lemma HoldsBackExactlyAtOne(limit: nat)
    ensures (exists s, p :: Reachable(s) && s.limit == limit && HeldBack(s, p)) <==> limit == 1
  {
    if limit == 1 {
      LimitOneHoldsBack();
    } else {
      forall s, p | Reachable(s) && s.limit == limit ensures !HeldBack(s, p) {
        var trace: seq<State>, steps: seq<Action> :| IsRun(trace, steps) && trace[|steps|] == s;
        if p in s.adders && s.adders[p].CheckLimit? {
          LimitReachedExactlyWhen(trace, steps, |steps|, s.adders[p].policy);
        }
      }
    }
  }

  // ------------------------------------------------------------- the bound is met

  /** The head of the ring is published. */
  ghost predicate HeadReady(r: R.Ring<Ticket>)
  {
    r.Capacity() > 0 && r.popper.PopIdle? && !R.HeadEmpty(r) && r.cells[R.Slot(r.dequeuePos, r.Capacity())].storage.Some?
  }

  /** The state after the worker has taken the head task and not started it. */
  ghost function TakenHead(s: State): State
    requires HeadReady(s.ring)
  {
    s.(worker := RunTask(s.ring.cells[R.Slot(s.ring.dequeuePos, s.ring.Capacity())].storage.value, DRAIN_BUDGET - 1),
       activeTasks := s.activeTasks + 1, ring := R.WholePop(s.ring))
  }

  lemma WorkerTakes(s: State)
    requires Reachable(s) && s.worker.Restart? && HeadReady(s.ring)
    ensures Reachable(TakenHead(s))
  {
    hide Reachable;
    WorkerBegins(s);
    var r0 := R.BeginPop(s.ring);
    WorkerPops(s, r0);
    var r1 := R.PopStep(r0, false);
    WorkerPops(s, r1);
    var r2 := R.PopStep(r1, false);
    WorkerPops(s, r2);
    var r3 := R.PopStep(r2, false);
    WorkerPops(s, r3);
    var r4 := R.PopStep(r3, false);
    WorkerPops(s, r4);
    var r5 := R.PopStep(r4, false);
    Continue(Popping1(s, r5), Worker(WorkEndPop), TakenHead(s));
  }

  /** Nobody is inside, and the worker has not begun its round. */
  ghost predicate Calm(s: State)
  {
    && s.adders == map[] && s.ring.pushers == map[] && !s.resizing && !s.stop && s.activeTasks == 0
    && s.worker.Restart? && s.policy.Block? && s.executed == [] && s.earlier == [] && s.ring.popped == []
  }

  lemma RoomWhenCalm(s: State)
    requires Inv(s) && Calm(s) && |s.ring.claimed| < s.ring.Capacity()
    ensures CanAdd(s, 0)
  {
    hide Barrier, Flags, Conserved, Ordered, Tickets, Reasons;
    assert R.CellInv(s.ring, s.ring.enqueuePos);
  }

  lemma {:induction false} FillsUp(s: State, n: nat) returns (s': State)
    requires Reachable(s) && Calm(s) && |s.ring.claimed| + n <= s.ring.Capacity()
    ensures Reachable(s') && Calm(s') && s'.limit == s.limit && s'.ring.Capacity() == s.ring.Capacity()
    ensures |s'.ring.claimed| == |s.ring.claimed| + n
    decreases n
  {
    hide Reachable, Inv;
    s' := s;
    if n > 0 {
      ReachableInv(s);
      RoomWhenCalm(s);
      Adds(s, 0);
      R.WholePushIs(s.ring, 0, s.submitted);
      s' := FillsUp(Added(s, 0), n - 1);
    }
  }

  lemma FullHeadIsReady(s: State)
    requires Inv(s) && Calm(s) && |s.ring.claimed| == s.ring.Capacity()
    ensures HeadReady(s.ring) && s.ring.dequeuePos == 0 && s.ring.enqueuePos == s.ring.Capacity()
  {
    hide Barrier, Flags, Conserved, Ordered, Tickets, Reasons;
    assert R.CellInv(s.ring, 0);
  }

  /** After the head was taken from a full ring, the tail cell is the one it left. */
  lemma RoomAfterTaking(r: R.Ring<Ticket>, p: ThreadId)
    requires HeadReady(r) && r.dequeuePos == 0 && r.enqueuePos == r.Capacity()
    requires p in r.pushers && r.pushers[p].pc.LoadTail?
    ensures Poised(R.WholePop(r), p) && R.WholePop(r).claimed == r.claimed
  {
    hide R.WholePop;
    R.WholePopIs(r);
    R.SlotWraps(0, r.Capacity());
  }

  /** A producer past the in-flight test pushes into the cell the worker freed: one task more than the ring holds. */
  lemma Overfills(s: State) returns (s': State)
    requires Reachable(s) && Calm(s) && |s.ring.claimed| == s.ring.Capacity()
    ensures Reachable(s') && s'.limit == s.limit && s'.policy.Block? && Backlog(s') == s.ring.Capacity() + 1
  {
    hide Reachable, Inv, PushedThrough, R.WholePop, HeadReady;
    ReachableInv(s);
    FullHeadIsReady(s);
    var t, pc := s.submitted, Pushing(s.submitted, s.policy);
    var r := R.BeginPush(s.ring, 0, t);
    BeginsPush(s, 0);
    var s1 := Inside(s, 0, pc, r);
    HeadStaysReady(s.ring, r);
    WorkerTakes(s1);
    RoomAfterTaking(r, 0);
    var held := s.(worker := TakenHead(s1).worker, activeTasks := TakenHead(s1).activeTasks);
    var r' := R.WholePop(r);
    assert TakenHead(s1) == Inside(held, 0, pc, r');
    PushesThrough(held, 0, pc, r');
    s' := Inside(held, 0, pc, PushedThrough(r', 0));
  }

  lemma HeadStaysReady(r: R.Ring<Ticket>, r': R.Ring<Ticket>)
    requires HeadReady(r) && r' == r.(pushers := r'.pushers)
    ensures HeadReady(r')
  {
  }

  /**
   The bound is met under Block with every limit: a run whose backlog is the capacity and one.  So no
   limit keeps the backlog within itself.
   */
  lemma BacklogMeetsBound(limit: nat) returns (s: State)
    ensures Reachable(s) && s.limit == limit && s.policy.Block? && Backlog(s) == CapacityFor(limit) + 1
    ensures limit > 0 ==> Backlog(s) > limit
  {
    hide Reachable, R.NewRing, Backlog;
    Resizes(limit);
    FreshIsCalm(limit);
    var full := FillsUp(Resized(limit), CapacityFor(limit));
    s := Overfills(full);
  }

  lemma FreshIsCalm(limit: nat)
    ensures Calm(Resized(limit)) && Resized(limit).ring.Capacity() == CapacityFor(limit)
    ensures Resized(limit).ring.claimed == []
  {
  }
}
