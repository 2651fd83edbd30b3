/**
 The global task executor in its ring build, as a step machine.

 Any number of threads may be inside `add_task` or `wait`, one worker runs, and one
 thread at a time holds the lifecycle mutex (`shutdown`, `set_max_queue_size`,
 `set_queue_policy`).  Each atomic operation or critical section is one step; timed
 waits may end at any moment.  A task is identified with the completion ticket that
 `add_task` reserves for it.
 */
module TaskExecutor {
  import opened QueuePolicies
  import R = MpscRing

  type ThreadId = R.ThreadId
  type Ticket = nat

  const DRAIN_BUDGET: nat := 2048
  const DEFAULT_RING_CAPACITY: nat := 1024

  datatype Outcome = Executed | Dropped | Rejected

  /** Program counter of one `add_task`. */
  datatype AddPc =
    | AwaitBarrier
    | Register
    | Recheck
    | BackOut
    | Reserve
    | CheckStop(ticket: Ticket)
    | LoadPolicy(ticket: Ticket)
    | CheckLimit(ticket: Ticket, policy: QueuePolicy)
    | Pushing(ticket: Ticket, policy: QueuePolicy)
    | CountDrop(ticket: Ticket)
    | Settle(ticket: Ticket, outcome: Outcome)
    | Leave
  {
    /** Counted in `m_active_producers`. */
    predicate Counted() { !AwaitBarrier? && !Register? }

    /** Past `enter_producer_`. */
    predicate Entered() { !AwaitBarrier? && !Register? && !Recheck? && !BackOut? }

    predicate HasTicket() { Entered() && !Reserve? && !Leave? }
  }

  /** Program counter of `worker_function`. */
  datatype WorkerPc =
    | Restart
    | Attempt(budget: nat, drained: bool)
    | Popping(budget: nat, drained: bool)
    | Unmark(drained: bool)
    | RunTask(ticket: Ticket, budget: nat)
    | Complete(ticket: Ticket, budget: nat)
    | UnmarkDone(budget: nat)
    | TestEmpty(drained: bool)
    | TestActive(drained: bool)
    | TestStop(drained: bool)
    | ParkStop
    | ParkEmpty
    | Exited

  /** What the holder of the lifecycle mutex is doing. */
  datatype LifecyclePc =
    | Free
    | ResizeCheck(size: nat)
    | RaiseBarrier(size: nat)
    | AwaitProducers(size: nat)
    | LoadTarget(size: nat)
    | AwaitTarget(size: nat, target: nat)
    | IdleStop(size: nat)
    | IdleTest(size: nat)
    | StopWorker(size: nat)
    | JoinWorker(size: nat)
    | Swap(size: nat)
    | ClearStop
    | StartWorker
    | LowerBarrier
    | Abort
    | ShutdownStop
    | ShutdownJoin
    | PolicyChange(policy: QueuePolicy)
  {
    /** The resize has raised `m_resizing` and not lowered it yet. */
    predicate BarrierUp()
    {
      AwaitProducers? || Abort? || BarrierClosed()
    }

    /** The resize has seen `m_active_producers` at zero and goes on. */
    predicate BarrierClosed()
    {
      LoadTarget? || AwaitTarget? || IdleStop? || IdleTest? || Quiesced()
    }

    /** The resize has seen every ticket settled. */
    predicate Quiesced()
    {
      StopWorker? || JoinWorker? || Swap? || ClearStop? || StartWorker? || LowerBarrier?
    }

    /** The resize has raised `m_stop_flag` and not cleared it yet. */
    predicate StopRaised() { JoinWorker? || Swap? || ClearStop? }
  }

  /** Program counter of one `wait`. */
  datatype WaitPc =
    | WaitLoad
    | WaitReach(target: nat)
    | WaitStop
    | WaitCompare

  /**
   The fields after `waiters` are histories: the program never reads them.  `forgotten` is the size of
   `drops` at the last reset of the drop counter.
   */
  datatype State = State(
    ring: R.Ring<Ticket>,
    submitted: nat,
    completed: nat,
    resizing: bool,
    activeProducers: int,
    stop: bool,
    limit: nat,
    policy: QueuePolicy,
    dropped: nat,
    activeTasks: int,
    adders: map<ThreadId, AddPc>,
    worker: WorkerPc,
    lifecycle: LifecyclePc,
    waiters: map<ThreadId, WaitPc>,
    shutdownBegun: bool,
    settled: map<Ticket, Outcome>,
    drops: set<Ticket>,
    earlier: seq<Ticket>,
    executed: seq<Ticket>,
    quiet: bool,
    forgotten: nat)
  {
    /** Every ticket whose cell was ever claimed, over all rings, in claim order. */
    function Accepted(): seq<Ticket> { earlier + ring.claimed }

    /** How many of those the worker has taken out of a ring. */
    function Taken(): nat { |earlier| + |ring.popped| }

    /** The worker has a popped task that has not started. */
    predicate HasUnrunTask()
    {
      || worker.RunTask?
      || (worker.Popping? && (ring.popper.Release? || (ring.popper.PopReturned? && ring.popper.result.Some?)))
    }

    /** The worker has a popped task whose ticket is not settled. */
    predicate WorkerHolds() { worker.Complete? || HasUnrunTask() }
  }

  const Init := State(
    R.NewRing(DEFAULT_RING_CAPACITY), 0, 0, false, 0, false, 0, Block, 0, 0,
    map[], Restart, Free, map[], false, map[], {}, [], [], false, 0)

  /** The atomic operations and critical sections of `add_task`. */
  datatype AddOp =
    | CallAdd
    | AddMove
    | AddRegister
    | AddEnter
    | AddBackOut
    | AddReserve
    | AddBeginPush
    | AddPush(spurious: bool)
    | AddEndPush
    | AddCountDrop
    | AddSettle
    | AddLeave

  /** Those of `worker_function`. */
  datatype WorkOp =
    | WorkMove
    | WorkBeginPop
    | WorkPop(spurious: bool)
    | WorkEndPop
    | WorkUnmark
    | WorkRun
    | WorkComplete
    | WorkTestEmpty

  /** Those of `shutdown`, `set_max_queue_size` and `set_queue_policy`. */
  datatype LifeOp =
    | CallResize(size: nat)
    | CallShutdown
    | CallSetPolicy(policy: QueuePolicy)
    | LifeMove(deadline: bool)
    | LifeRaiseBarrier
    | LifeRaiseStop
    | LifeSwap
    | LifeClearStop
    | LifeStartWorker
    | LifeLowerBarrier
    | LifeSetPolicy

  /** Those of `wait`. */
  datatype WaitOp = CallWait | WaitMove | WaitReturn

  datatype Action =
    | Producer(p: ThreadId, add: AddOp)
    | Worker(work: WorkOp)
    | Manager(life: LifeOp)
    | Waiter(w: ThreadId, wait: WaitOp)
    | ResetDrops

  // ------------------------------------------------------------------ add_task

  /** The in-flight limit that `QueuePolicy::Block` checks before it tries the ring. */
  predicate LimitReached(s: State, policy: QueuePolicy)
  {
    policy.Block? && s.limit > 0 && s.activeTasks >= s.limit
  }

  predicate AddMoves(s: State, p: ThreadId)
  {
    && p in s.adders
    && match s.adders[p]
       case AwaitBarrier => !s.resizing
       case Recheck => s.resizing
       case CheckStop(_) => true
       case LoadPolicy(_) => true
       case CheckLimit(_, policy) => LimitReached(s, policy)
       case _ => false
  }

  /** Operations of `add_task` that only read shared state. */
  function AddMoved(s: State, p: ThreadId): (pc: AddPc)
    requires AddMoves(s, p)
    ensures pc.Counted() == s.adders[p].Counted() && pc.Entered() == s.adders[p].Entered()
    ensures pc.HasTicket() == s.adders[p].HasTicket() && !pc.Pushing?
    ensures pc.HasTicket() ==> pc.ticket == s.adders[p].ticket
    ensures pc.Settle? ==> pc.outcome == Rejected && s.stop
  {
    match s.adders[p]
    case AwaitBarrier => Register
    case Recheck => BackOut
    case CheckStop(t) => if s.stop then Settle(t, Rejected) else LoadPolicy(t)
    case LoadPolicy(t) => CheckLimit(t, s.policy)
    case CheckLimit(t, _) => CheckStop(t)
  }

  /** Where `add_task` goes when `try_push` returns. */
  function AfterPush(s: State, p: ThreadId): (pc: AddPc)
    requires p in s.adders && s.adders[p].Pushing? && p in s.ring.pushers && s.ring.pushers[p].pc.PushReturned?
    ensures pc.Counted() && pc.Entered() && !pc.Pushing? && !pc.Settle?
    ensures pc.HasTicket() == !s.ring.pushers[p].pc.ok
    ensures pc.HasTicket() ==> pc.ticket == s.adders[p].ticket
  {
    if s.ring.pushers[p].pc.ok then Leave
    else if s.adders[p].policy.Block? then CheckStop(s.adders[p].ticket)
    else CountDrop(s.adders[p].ticket)
  }

  function SetAdd(s: State, p: ThreadId, pc: AddPc): State
  {
    s.(adders := s.adders[p := pc])
  }

  /** `complete_task_` */
  function SettleTicket(s: State, t: Ticket, outcome: Outcome): State
  {
    s.(completed := s.completed + 1, settled := s.settled[t := outcome])
  }

  // -------------------------------------------------------------------- worker

  predicate WorkMoves(s: State)
  {
    && s.ring.Capacity() > 0
    && match s.worker
       case Restart => true
       case Attempt(budget, _) => budget == 0
       case TestActive(_) => true
       case TestStop(_) => true
       case ParkStop => true
       case _ => false
  }

  /** After the drain tests, a worker that drained something starts over at once. */
  function AfterTests(drained: bool): WorkerPc
  {
    if drained then Restart else ParkStop
  }

  /** Operations of the worker that only read shared state. */
  function WorkMoved(s: State): (pc: WorkerPc)
    requires WorkMoves(s)
    ensures !pc.Popping? && !pc.Unmark? && !pc.RunTask? && !pc.Complete? && !pc.UnmarkDone?
    ensures pc.Exited? || pc.ParkEmpty? ==> s.stop
    ensures pc.Exited? ==> s.worker.TestStop?
    ensures pc.TestStop? ==> s.worker.TestActive?
    ensures !pc.TestActive?
  {
    match s.worker
    case Restart => Attempt(DRAIN_BUDGET, false)
    case Attempt(_, drained) => TestEmpty(drained)
    case TestActive(drained) => if s.activeTasks == 0 then TestStop(drained) else AfterTests(drained)
    case TestStop(drained) => if s.stop then Exited else AfterTests(drained)
    case ParkStop => if s.stop then ParkEmpty else Restart
  }

  /** What the worker does with the result of `queue_empty_`. */
  function AfterEmptyTest(s: State): (pc: WorkerPc)
    requires (s.worker.TestEmpty? || s.worker.ParkEmpty?) && s.ring.Capacity() > 0
    ensures !pc.Popping? && !pc.Unmark? && !pc.RunTask? && !pc.Complete? && !pc.UnmarkDone? && !pc.TestStop? && !pc.ParkEmpty?
    ensures pc.Exited? || pc.TestActive? ==> R.HeadEmpty(s.ring)
    ensures pc.Exited? ==> s.worker.ParkEmpty?
  {
    match s.worker
    case TestEmpty(drained) => if R.HeadEmpty(s.ring) then TestActive(drained) else AfterTests(drained)
    case ParkEmpty => if R.HeadEmpty(s.ring) then Exited else Restart
  }

  /** Nobody is past `enter_producer_`. */
  ghost predicate NoneEntered(s: State)
  {
    forall p | p in s.adders :: !s.adders[p].Entered()
  }

  // ----------------------------------------------------------------- lifecycle

  predicate LifeMoves(s: State, deadline: bool)
  {
    match s.lifecycle
    case ResizeCheck(_) => true
    case AwaitProducers(_) => s.activeProducers == 0 || deadline
    case LoadTarget(_) => true
    case AwaitTarget(_, target) => s.completed >= target || s.stop || deadline
    case IdleStop(_) => true
    case IdleTest(_) => true
    case JoinWorker(_) => s.worker.Exited?
    case ShutdownJoin => s.worker.Exited?
    case _ => false
  }

  /** Operations of the lifecycle holder that only read shared state. */
  function LifeMoved(s: State, deadline: bool): LifecyclePc
    requires LifeMoves(s, deadline)
  {
    match s.lifecycle
    case ResizeCheck(size) => if s.stop then Free else RaiseBarrier(size)
    case AwaitProducers(size) => if s.activeProducers == 0 then LoadTarget(size) else Abort
    case LoadTarget(size) => AwaitTarget(size, s.submitted)
    case AwaitTarget(size, target) => if s.completed >= target || s.stop then IdleStop(size) else Abort
    case IdleStop(size) => if s.stop then StopWorker(size) else IdleTest(size)
    case IdleTest(size) =>
      if s.completed >= s.submitted then StopWorker(size) else if deadline then Abort else LoadTarget(size)
    case JoinWorker(size) => Swap(size)
    case ShutdownJoin => Free
  }

  // ---------------------------------------------------------------------- wait

  /** The next operation of `w` is the one that ends its call of `wait`. */
  predicate WaitEnds(s: State, w: ThreadId)
  {
    && w in s.waiters
    && ((s.waiters[w].WaitStop? && s.stop) || (s.waiters[w].WaitCompare? && s.completed >= s.submitted))
  }

  predicate WaitMoves(s: State, w: ThreadId)
  {
    && w in s.waiters
    && !WaitEnds(s, w)
    && (s.waiters[w].WaitReach? ==> s.completed >= s.waiters[w].target || s.stop)
  }

  function WaitMoved(s: State, w: ThreadId): WaitPc
    requires WaitMoves(s, w)
  {
    match s.waiters[w]
    case WaitLoad => WaitReach(s.submitted)
    case WaitReach(_) => WaitStop
    case WaitStop => WaitCompare
    case WaitCompare => WaitLoad
  }

  // ---------------------------------------------------------------- every step

  predicate AddEnabled(s: State, p: ThreadId, op: AddOp)
  {
    match op
    case CallAdd => p !in s.adders
    case AddMove => AddMoves(s, p)
    case AddRegister => p in s.adders && s.adders[p].Register?
    case AddEnter => p in s.adders && s.adders[p].Recheck? && !s.resizing
    case AddBackOut => p in s.adders && s.adders[p].BackOut?
    case AddReserve => p in s.adders && s.adders[p].Reserve?
    case AddBeginPush => p in s.adders && s.adders[p].CheckLimit? && !LimitReached(s, s.adders[p].policy)
    case AddPush(_) => p in s.adders && s.adders[p].Pushing? && R.CanPush(s.ring, p)
    case AddEndPush =>
      p in s.adders && s.adders[p].Pushing? && p in s.ring.pushers && s.ring.pushers[p].pc.PushReturned?
    case AddCountDrop => p in s.adders && s.adders[p].CountDrop?
    case AddSettle => p in s.adders && s.adders[p].Settle?
    case AddLeave => p in s.adders && s.adders[p].Leave?
  }

  function AddStep(s: State, p: ThreadId, op: AddOp): State
    requires AddEnabled(s, p, op)
  {
    match op
    case CallAdd => SetAdd(s, p, AwaitBarrier)
    case AddMove => SetAdd(s, p, AddMoved(s, p))
    case AddRegister => SetAdd(s, p, Recheck).(activeProducers := s.activeProducers + 1)
    case AddEnter => SetAdd(s, p, Reserve).(quiet := false)
    case AddBackOut => SetAdd(s, p, AwaitBarrier).(activeProducers := s.activeProducers - 1)
    case AddReserve => SetAdd(s, p, CheckStop(s.submitted)).(submitted := s.submitted + 1)
    case AddBeginPush =>
      SetAdd(s, p, Pushing(s.adders[p].ticket, s.adders[p].policy)).(ring := R.BeginPush(s.ring, p, s.adders[p].ticket))
    case AddPush(spurious) => s.(ring := R.PushStep(s.ring, p, spurious))
    case AddEndPush => SetAdd(s, p, AfterPush(s, p)).(ring := R.EndPush(s.ring, p))
    case AddCountDrop =>
      SetAdd(s, p, Settle(s.adders[p].ticket, Dropped)).(dropped := s.dropped + 1, drops := s.drops + {s.adders[p].ticket})
    case AddSettle => SetAdd(SettleTicket(s, s.adders[p].ticket, s.adders[p].outcome), p, Leave)
    case AddLeave => s.(adders := s.adders - {p}, activeProducers := s.activeProducers - 1)
  }

  predicate WorkEnabled(s: State, op: WorkOp)
  {
    match op
    case WorkMove => WorkMoves(s)
    case WorkBeginPop => s.worker.Attempt? && s.worker.budget > 0
    case WorkPop(_) => s.worker.Popping? && R.CanPop(s.ring)
    case WorkEndPop => s.worker.Popping? && s.ring.popper.PopReturned?
    case WorkUnmark => s.worker.Unmark? || s.worker.UnmarkDone?
    case WorkRun => s.worker.RunTask?
    case WorkComplete => s.worker.Complete?
    case WorkTestEmpty => (s.worker.TestEmpty? || s.worker.ParkEmpty?) && s.ring.Capacity() > 0
  }

  ghost function WorkStep(s: State, op: WorkOp): State
    requires WorkEnabled(s, op)
  {
    match op
    case WorkMove => s.(worker := WorkMoved(s))
    case WorkBeginPop =>
      s.(worker := Popping(s.worker.budget - 1, s.worker.drained), activeTasks := s.activeTasks + 1, ring := R.BeginPop(s.ring))
    case WorkPop(spurious) => s.(ring := R.PopStep(s.ring, spurious))
    case WorkEndPop =>
      s.(ring := R.EndPop(s.ring),
         worker := match s.ring.popper.result
                   case None => Unmark(s.worker.drained)
                   case Some(t) => RunTask(t, s.worker.budget))
    case WorkUnmark =>
      s.(activeTasks := s.activeTasks - 1,
         worker := if s.worker.Unmark? then TestEmpty(s.worker.drained) else Attempt(s.worker.budget, true))
    case WorkRun => s.(worker := Complete(s.worker.ticket, s.worker.budget), executed := s.executed + [s.worker.ticket])
    case WorkComplete => SettleTicket(s, s.worker.ticket, Executed).(worker := UnmarkDone(s.worker.budget))
    case WorkTestEmpty => s.(quiet := NoneEntered(s), worker := AfterEmptyTest(s))
  }

  predicate LifeEnabled(s: State, op: LifeOp)
  {
    match op
    case CallResize(_) => s.lifecycle.Free?
    case CallShutdown => s.lifecycle.Free?
    case CallSetPolicy(_) => s.lifecycle.Free?
    case LifeMove(deadline) => LifeMoves(s, deadline)
    case LifeRaiseBarrier => s.lifecycle.RaiseBarrier?
    case LifeRaiseStop => s.lifecycle.StopWorker? || s.lifecycle.ShutdownStop?
    case LifeSwap => s.lifecycle.Swap?
    case LifeClearStop => s.lifecycle.ClearStop?
    case LifeStartWorker => s.lifecycle.StartWorker?
    case LifeLowerBarrier => s.lifecycle.LowerBarrier? || s.lifecycle.Abort?
    case LifeSetPolicy => s.lifecycle.PolicyChange?
  }

  function LifeStep(s: State, op: LifeOp): State
    requires LifeEnabled(s, op)
  {
    match op
    case CallResize(size) => s.(lifecycle := ResizeCheck(size))
    case CallShutdown => s.(lifecycle := ShutdownStop, shutdownBegun := true)
    case CallSetPolicy(policy) => s.(lifecycle := PolicyChange(policy))
    case LifeMove(deadline) => s.(lifecycle := LifeMoved(s, deadline))
    case LifeRaiseBarrier => s.(lifecycle := AwaitProducers(s.lifecycle.size), resizing := true)
    case LifeRaiseStop =>
      s.(stop := true, lifecycle := if s.lifecycle.StopWorker? then JoinWorker(s.lifecycle.size) else ShutdownJoin)
    case LifeSwap =>
      s.(lifecycle := ClearStop,
         limit := s.lifecycle.size,
         ring := R.NewRing(if s.lifecycle.size == 0 then DEFAULT_RING_CAPACITY else s.lifecycle.size),
         earlier := s.Accepted(),
         activeTasks := 0)
    case LifeClearStop => s.(lifecycle := StartWorker, stop := false)
    case LifeStartWorker => s.(lifecycle := LowerBarrier, worker := Restart)
    case LifeLowerBarrier => s.(lifecycle := Free, resizing := false)
    case LifeSetPolicy => s.(lifecycle := Free, policy := if s.stop then s.policy else s.lifecycle.policy)
  }

  predicate WaitEnabled(s: State, w: ThreadId, op: WaitOp)
  {
    match op
    case CallWait => w !in s.waiters
    case WaitMove => WaitMoves(s, w)
    case WaitReturn => WaitEnds(s, w)
  }

  function WaitStep(s: State, w: ThreadId, op: WaitOp): State
    requires WaitEnabled(s, w, op)
  {
    match op
    case CallWait => s.(waiters := s.waiters[w := WaitLoad])
    case WaitMove => s.(waiters := s.waiters[w := WaitMoved(s, w)])
    case WaitReturn => s.(waiters := s.waiters - {w})
  }

  /** `reset_dropped_tasks` */
  function ResetStep(s: State): State
  {
    s.(dropped := 0, forgotten := |s.drops|)
  }

  predicate Enabled(s: State, a: Action)
  {
    match a
    case Producer(p, op) => AddEnabled(s, p, op)
    case Worker(op) => WorkEnabled(s, op)
    case Manager(op) => LifeEnabled(s, op)
    case Waiter(w, op) => WaitEnabled(s, w, op)
    case ResetDrops => true
  }

  ghost function Step(s: State, a: Action): State
    requires Enabled(s, a)
  {
    match a
    case Producer(p, op) => AddStep(s, p, op)
    case Worker(op) => WorkStep(s, op)
    case Manager(op) => LifeStep(s, op)
    case Waiter(w, op) => WaitStep(s, w, op)
    case ResetDrops => ResetStep(s)
  }
}
