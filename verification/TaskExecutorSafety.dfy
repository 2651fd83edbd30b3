/** Inductive invariants of the task executor, and what they say about every run. */
module TaskExecutorSafety {
  import opened TaskExecutor
  import R = MpscRing

  // ---------------------------------------------------------------- invariants

  /** The ring is sound, and the threads inside it are the ones that say so. */
  ghost predicate Linked(s: State)
  {
    && R.RingInv(s.ring)
    && s.ring.Capacity() > 0
    && (forall p :: p in s.ring.pushers <==> p in s.adders && s.adders[p].Pushing?)
    && (forall p | p in s.ring.pushers :: s.ring.pushers[p].item == s.adders[p].ticket)
    && (s.ring.popper.PopIdle? <==> !s.worker.Popping?)
  }

  ghost function Counted(s: State): set<ThreadId>
  {
    set p | p in s.adders && s.adders[p].Counted()
  }

  /** The resize barrier: a closed barrier leaves nobody inside. */
  ghost predicate Barrier(s: State)
  {
    && s.activeProducers == |Counted(s)|
    && (s.resizing <==> s.lifecycle.BarrierUp())
    && (s.lifecycle.BarrierClosed() ==> NoneEntered(s))
  }

  /** Who may have raised the stop flag, and when the worker may be gone. */
  ghost predicate Flags(s: State)
  {
    && (s.stop ==> s.shutdownBegun || s.lifecycle.StopRaised())
    && (s.lifecycle.StopRaised() ==> s.stop)
    && (s.shutdownBegun ==> s.stop || s.lifecycle.ShutdownStop?)
    && (s.lifecycle.BarrierUp() || s.lifecycle.RaiseBarrier? ==> !s.shutdownBegun)
    && (s.lifecycle.ShutdownStop? || s.lifecycle.ShutdownJoin? ==> s.shutdownBegun)
    && (s.worker.ParkEmpty? ==> s.stop)
    && (s.worker.Exited? ==> s.shutdownBegun || s.lifecycle.StopRaised() || s.lifecycle.StartWorker?)
    && (s.lifecycle.Swap? || s.lifecycle.ClearStop? || s.lifecycle.StartWorker? ==> s.worker.Exited?)
  }

  /** `m_active_tasks` marks the worker's pop attempt and nothing else. */
  ghost predicate Active(s: State)
  {
    s.activeTasks == if s.worker.Popping? || s.worker.Unmark? || s.worker.RunTask? || s.worker.Complete? || s.worker.UnmarkDone? then 1 else 0
  }

  /** Threads inside `add_task` whose ticket is neither settled nor published. */
  ghost function Holding(s: State): set<ThreadId>
  {
    set p | && p in s.adders && s.adders[p].HasTicket()
            && !(p in s.ring.pushers && s.ring.pushers[p].pc == R.PushReturned(true))
  }

  /** Every reserved ticket is settled, held, published or with the worker. */
  ghost predicate Conserved(s: State)
  {
    && s.ring.Capacity() > 0
    && s.submitted == s.completed + |Holding(s)| + |R.Published(s.ring)| + (if s.WorkerHolds() then 1 else 0)
  }

  ghost predicate QuiescedInv(s: State)
  {
    s.lifecycle.Quiesced() ==> s.completed == s.submitted
  }

  ghost predicate QuietInv(s: State)
  {
    s.quiet && (s.worker.TestActive? || s.worker.TestStop? || s.worker.Exited?) ==>
      NoneEntered(s) && s.ring.enqueuePos == |s.ring.popped| && s.completed == s.submitted
  }

  /** `p` holds its ticket and has not claimed a cell for it. */
  ghost predicate Unclaimed(s: State, p: ThreadId)
  {
    && p in s.adders && s.adders[p].HasTicket()
    && (p in s.ring.pushers ==>
          var pc := s.ring.pushers[p].pc;
          pc.LoadTail? || pc.ReadSequence? || pc.ClaimTail? || pc == R.PushReturned(false))
  }

  /** Accepted tickets below this index are settled, the rest are not. */
  ghost function Finished(s: State): int
  {
    s.Taken() - (if s.WorkerHolds() then 1 else 0)
  }

  /** Settling counts once: the counter is the number of settled tickets. */
  ghost predicate SettledOnce(s: State)
  {
    |s.settled| == s.completed && forall t | t in s.settled :: t < s.submitted
  }

  /** Held tickets are reserved, unsettled, unaccepted and different from each other. */
  ghost predicate HeldApart(s: State)
  {
    && (forall p | Unclaimed(s, p) ::
          var t := s.adders[p].ticket; t < s.submitted && t !in s.settled && t !in s.Accepted())
    && (forall p, q | Unclaimed(s, p) && Unclaimed(s, q) && p != q :: s.adders[p].ticket != s.adders[q].ticket)
  }

  /** Accepted tickets are different from each other; the finished ones ran, the others are unsettled. */
  ghost predicate AcceptedApart(s: State)
  {
    && (forall i, j | 0 <= i < j < |s.Accepted()| :: s.Accepted()[i] != s.Accepted()[j])
    && (forall i | 0 <= i < |s.Accepted()| ::
          var t := s.Accepted()[i];
          t < s.submitted && if i < Finished(s) then t in s.settled && s.settled[t] == Executed else t !in s.settled)
    && (forall t | t in s.settled && s.settled[t] != Executed :: t !in s.Accepted())
  }

  /** Each ticket is in one place, and settled tickets stay settled. */
  ghost predicate Tickets(s: State)
  {
    SettledOnce(s) && HeldApart(s) && AcceptedApart(s)
  }

  /** The ticket in the worker's hands is the one it took last; what ran is a prefix of what was accepted. */
  ghost predicate Ordered(s: State)
  {
    && |s.ring.popped| <= |s.ring.claimed|
    && (s.worker.RunTask? || s.worker.Complete? ==> s.Taken() > 0 && s.worker.ticket == s.Accepted()[s.Taken() - 1])
    && (s.HasUnrunTask() ==> s.Taken() > 0)
    && s.executed == s.Accepted()[..s.Taken() - (if s.HasUnrunTask() then 1 else 0)]
  }

  /** Executed tickets ran, rejections come only from a real shutdown, drops only from a counted overflow. */
  ghost predicate SettleReasons(s: State)
  {
    && (forall t | t in s.settled && s.settled[t] == Executed :: t in s.executed)
    && (forall t | t in s.settled && s.settled[t] == Rejected :: s.shutdownBegun)
    && (forall t | t in s.settled && s.settled[t] == Dropped :: t in s.drops)
    && (forall p | p in s.adders && s.adders[p].Settle? ::
          var pc := s.adders[p];
          (pc.outcome == Rejected && s.shutdownBegun) || (pc.outcome == Dropped && pc.ticket in s.drops))
  }

  /** The drop counter counts each ticket dropped since its last reset once. */
  ghost predicate DropsCounted(s: State)
  {
    && |s.drops| == s.dropped + s.forgotten
    && (forall t | t in s.drops :: t < s.submitted)
    && (forall p | Unclaimed(s, p) && !s.adders[p].Settle? :: s.adders[p].ticket !in s.drops)
  }

  ghost predicate Reasons(s: State)
  {
    SettleReasons(s) && DropsCounted(s)
  }

  ghost predicate Core(s: State)
  {
    Linked(s) && Barrier(s) && Flags(s) && Active(s)
  }

  ghost predicate Inv(s: State)
  {
    && Core(s)
    && Conserved(s) && QuiescedInv(s) && QuietInv(s)
    && Ordered(s) && Tickets(s) && Reasons(s)
  }

  lemma InitInv()
    ensures Inv(Init)
  {
    R.NewRingInv<Ticket>(DEFAULT_RING_CAPACITY);
    assert Counted(Init) == {};
    assert Holding(Init) == {};
    assert R.Published(Init.ring) == {};
  }

  // ------------------------------------------------------------- ring linkage

  lemma AddKeepsLinked(s: State, p: ThreadId, op: AddOp)
    requires Linked(s) && AddEnabled(s, p, op)
    ensures Linked(AddStep(s, p, op))
  {
    hide AddStep, Linked;
    match op
    case AddBeginPush => BeginPushKeepsLinked(s, p);
    case AddPush(spurious) => PushKeepsLinked(s, p, spurious);
    case AddEndPush => EndPushKeepsLinked(s, p);
    case _ => OutsideRingKeepsLinked(s, p, op);
  }

  lemma BeginPushKeepsLinked(s: State, p: ThreadId)
    requires Linked(s) && AddEnabled(s, p, AddBeginPush)
    ensures Linked(AddStep(s, p, AddBeginPush))
  {
    hide R.RingInv;
    R.BeginPushKeeps(s.ring, p, s.adders[p].ticket);
  }

  lemma PushKeepsLinked(s: State, p: ThreadId, spurious: bool)
    requires Linked(s) && AddEnabled(s, p, AddPush(spurious))
    ensures Linked(AddStep(s, p, AddPush(spurious)))
  {
    hide R.RingInv, R.PushStep;
    R.PushStepKeeps(s.ring, p, spurious);
    R.PushTouches(s.ring, p, spurious);
  }

  lemma EndPushKeepsLinked(s: State, p: ThreadId)
    requires Linked(s) && AddEnabled(s, p, AddEndPush)
    ensures Linked(AddStep(s, p, AddEndPush))
  {
    hide R.RingInv, AfterPush;
    R.EndPushKeeps(s.ring, p);
  }

  lemma OutsideRingKeepsLinked(s: State, p: ThreadId, op: AddOp)
    requires Linked(s) && AddEnabled(s, p, op) && !op.AddBeginPush? && !op.AddPush? && !op.AddEndPush?
    ensures Linked(AddStep(s, p, op))
  {
    hide R.RingInv, AddMoved;
    var s' := AddStep(s, p, op);
    assert s'.ring == s.ring && s'.worker == s.worker;
    assert forall q | q != p :: q in s'.adders <==> q in s.adders;
  }

  lemma WorkKeepsLinked(s: State, op: WorkOp)
    requires Linked(s) && WorkEnabled(s, op)
    ensures Linked(WorkStep(s, op))
  {
    hide R.RingInv, WorkMoved;
    match op
    case WorkBeginPop => R.ApplyKeeps(s.ring, R.CallPop);
    case WorkPop(spurious) => R.ApplyKeeps(s.ring, R.StepPop(spurious));
    case WorkEndPop => R.ApplyKeeps(s.ring, R.ReturnPop);
    case _ =>
  }

  lemma LifeKeepsLinked(s: State, op: LifeOp)
    requires Core(s) && LifeEnabled(s, op)
    ensures Linked(LifeStep(s, op))
  {
    hide R.RingInv;
    if op.LifeSwap? {
      R.NewRingInv<Ticket>(if s.lifecycle.size == 0 then DEFAULT_RING_CAPACITY else s.lifecycle.size);
    }
  }

  // ------------------------------------------------------- barrier and flags

  lemma AddKeepsBarrier(s: State, p: ThreadId, op: AddOp)
    requires Barrier(s) && AddEnabled(s, p, op)
    ensures Barrier(AddStep(s, p, op))
  {
    hide AddStep, Barrier;
    if op.AddRegister? {
      RegisterKeepsBarrier(s, p);
    } else if op.AddBackOut? || op.AddLeave? {
      LeaveKeepsBarrier(s, p, op);
    } else if op.CallAdd? || op.AddEnter? || op.AddPush? {
      OutsideKeepsBarrier(s, p, op);
    } else {
      InsideKeepsBarrier(s, p, op);
    }
  }

  lemma RegisterKeepsBarrier(s: State, p: ThreadId)
    requires Barrier(s) && AddEnabled(s, p, AddRegister)
    ensures Barrier(AddStep(s, p, AddRegister))
  {
    assert Counted(AddStep(s, p, AddRegister)) == Counted(s) + {p};
  }

  lemma LeaveKeepsBarrier(s: State, p: ThreadId, op: AddOp)
    requires Barrier(s) && AddEnabled(s, p, op) && (op.AddBackOut? || op.AddLeave?)
    ensures Barrier(AddStep(s, p, op))
  {
    assert Counted(AddStep(s, p, op)) == Counted(s) - {p};
  }

  lemma OutsideKeepsBarrier(s: State, p: ThreadId, op: AddOp)
    requires Barrier(s) && AddEnabled(s, p, op)
    requires op.CallAdd? || op.AddEnter? || op.AddPush?
    ensures Barrier(AddStep(s, p, op))
  {
    hide R.PushStep;
    assert Counted(AddStep(s, p, op)) == Counted(s);
  }

  /** A thread that keeps its standing with the barrier keeps the barrier. */
  lemma InsideKeepsBarrier(s: State, p: ThreadId, op: AddOp)
    requires Barrier(s) && AddEnabled(s, p, op)
    requires op.AddMove? || op.AddReserve? || op.AddBeginPush? || op.AddEndPush? || op.AddCountDrop? || op.AddSettle?
    ensures Barrier(AddStep(s, p, op))
  {
    hide R.BeginPush, R.EndPush;
    var s' := AddStep(s, p, op);
    assert Counted(s') == Counted(s);
  }

  lemma LifeKeepsBarrier(s: State, op: LifeOp)
    requires Barrier(s) && LifeEnabled(s, op)
    ensures Barrier(LifeStep(s, op))
  {
    var s' := LifeStep(s, op);
    assert Counted(s') == Counted(s);
    if s.lifecycle.AwaitProducers? && s.activeProducers == 0 {
      assert forall p | p in s.adders && s.adders[p].Entered() :: p in Counted(s);
    }
  }

  lemma LifeKeepsFlags(s: State, op: LifeOp)
    requires Core(s) && LifeEnabled(s, op)
    ensures Flags(LifeStep(s, op)) && Active(LifeStep(s, op))
  {
    hide R.RingInv;
  }

  lemma WorkKeepsFlags(s: State, op: WorkOp)
    requires Flags(s) && Active(s) && WorkEnabled(s, op)
    ensures Flags(WorkStep(s, op)) && Active(WorkStep(s, op))
  {
    hide R.PopStep;
  }

  lemma WaitKeepsCore(s: State, w: ThreadId, op: WaitOp)
    requires Core(s) && WaitEnabled(s, w, op)
    ensures Core(WaitStep(s, w, op))
  {
    hide R.RingInv;
    assert Counted(WaitStep(s, w, op)) == Counted(s);
  }

  lemma AddKeepsFlags(s: State, p: ThreadId, op: AddOp)
    requires Flags(s) && Active(s) && AddEnabled(s, p, op)
    ensures Flags(AddStep(s, p, op)) && Active(AddStep(s, p, op))
  {
    hide R.PushStep;
  }

  lemma WorkKeepsBarrier(s: State, op: WorkOp)
    requires Barrier(s) && WorkEnabled(s, op)
    ensures Barrier(WorkStep(s, op))
  {
    hide R.PopStep;
    assert Counted(WorkStep(s, op)) == Counted(s);
  }

  lemma StepKeepsCore(s: State, a: Action)
    requires Core(s) && Enabled(s, a)
    ensures Core(Step(s, a))
  {
    hide R.RingInv, AddStep, WorkStep, LifeStep, WaitStep, ResetStep, Linked, Barrier, Flags, Active;
    match a
    case Producer(p, op) =>
      AddKeepsLinked(s, p, op);
      AddKeepsBarrier(s, p, op);
      AddKeepsFlags(s, p, op);
    case Worker(op) =>
      WorkKeepsLinked(s, op);
      WorkKeepsBarrier(s, op);
      WorkKeepsFlags(s, op);
    case Manager(op) =>
      LifeKeepsLinked(s, op);
      LifeKeepsBarrier(s, op);
      LifeKeepsFlags(s, op);
    case Waiter(w, op) =>
      WaitKeepsCore(s, w, op);
    case ResetDrops =>
      ResetKeepsCore(s);
  }

  lemma ResetKeepsCore(s: State)
    requires Core(s)
    ensures Core(ResetStep(s))
  {
    hide R.RingInv;
    assert Counted(ResetStep(s)) == Counted(s);
  }

  // ------------------------------------------------------ ticket conservation

  ghost predicate CountInv(s: State)
  {
    Linked(s) && Conserved(s)
  }

  lemma SamePublished(r: R.Ring<Ticket>, r': R.Ring<Ticket>)
    requires r.Capacity() > 0 && r'.cells == r.cells && r'.enqueuePos == r.enqueuePos && r'.popped == r.popped
    ensures R.Published(r') == R.Published(r)
  {
  }

  /** Operations of `add_task` that neither take nor give up a ticket. */
  lemma AddMovesKeepConserved(s: State, p: ThreadId, op: AddOp)
    requires CountInv(s) && AddEnabled(s, p, op)
    requires !op.AddReserve? && !op.AddPush? && !op.AddSettle?
    ensures Conserved(AddStep(s, p, op))
  {
    hide R.RingInv, R.Published, AddMoved, AfterPush, Holding;
    var s' := AddStep(s, p, op);
    SamePublished(s.ring, s'.ring);
    SameHolding(s, p, op);
  }

  lemma SameHolding(s: State, p: ThreadId, op: AddOp)
    requires Linked(s) && AddEnabled(s, p, op)
    requires !op.AddReserve? && !op.AddPush? && !op.AddSettle?
    ensures Holding(AddStep(s, p, op)) == Holding(s)
  {
    hide R.RingInv, AddMoved, AfterPush;
  }

  lemma ReserveKeepsConserved(s: State, p: ThreadId)
    requires CountInv(s) && AddEnabled(s, p, AddReserve)
    ensures Conserved(AddStep(s, p, AddReserve))
  {
    hide R.RingInv, R.Published;
    assert Holding(AddStep(s, p, AddReserve)) == Holding(s) + {p};
  }

  lemma SettleKeepsConserved(s: State, p: ThreadId)
    requires CountInv(s) && AddEnabled(s, p, AddSettle)
    ensures Conserved(AddStep(s, p, AddSettle))
  {
    hide R.RingInv, R.Published;
    assert p in Holding(s);
    assert Holding(AddStep(s, p, AddSettle)) == Holding(s) - {p};
  }

  /** A ticket moves from its producer into the ring at the publishing store, and at no other step of a push. */
  lemma PushMovesTicket(s: State, p: ThreadId, spurious: bool)
    requires Linked(s) && AddEnabled(s, p, AddPush(spurious))
    ensures var s' := AddStep(s, p, AddPush(spurious));
            var pc := s.ring.pushers[p].pc;
            if pc.Publish? then
              && p in Holding(s) && Holding(s') == Holding(s) - {p}
              && pc.pos !in R.Published(s.ring) && R.Published(s'.ring) == R.Published(s.ring) + {pc.pos}
            else
              Holding(s') == Holding(s) && R.Published(s'.ring) == R.Published(s.ring)
  {
    hide R.RingInv, R.Published, Holding;
    R.PushPublishes(s.ring, p, spurious);
    PushMovesHolder(s, p, spurious);
  }

  lemma PushMovesHolder(s: State, p: ThreadId, spurious: bool)
    requires Linked(s) && AddEnabled(s, p, AddPush(spurious))
    ensures var s' := AddStep(s, p, AddPush(spurious));
            if s.ring.pushers[p].pc.Publish? then p in Holding(s) && Holding(s') == Holding(s) - {p}
            else Holding(s') == Holding(s)
  {
    hide R.RingInv, R.PushStep;
    R.PushTouches(s.ring, p, spurious);
  }

  lemma PushKeepsConserved(s: State, p: ThreadId, spurious: bool)
    requires CountInv(s) && AddEnabled(s, p, AddPush(spurious))
    ensures Conserved(AddStep(s, p, AddPush(spurious)))
  {
    hide R.RingInv, R.Published, R.PushStep, Holding;
    PushMovesTicket(s, p, spurious);
    R.PushTouches(s.ring, p, spurious);
  }

  lemma WorkKeepsConserved(s: State, op: WorkOp)
    requires CountInv(s) && WorkEnabled(s, op)
    ensures Conserved(WorkStep(s, op))
  {
    hide Conserved, WorkStep, Linked;
    if op.WorkPop? {
      PopKeepsConserved(s, op.spurious);
    } else {
      OtherWorkKeepsConserved(s, op);
    }
  }

  lemma SameHoldingWork(s: State, op: WorkOp)
    requires WorkEnabled(s, op)
    ensures Holding(WorkStep(s, op)) == Holding(s)
  {
    hide R.PopStep;
    if op.WorkPop? { R.PopTouches(s.ring, op.spurious); }
  }

  lemma PopKeepsConserved(s: State, spurious: bool)
    requires CountInv(s) && WorkEnabled(s, WorkPop(spurious))
    ensures Conserved(WorkStep(s, WorkPop(spurious)))
  {
    hide R.RingInv, R.Published, R.PopStep, Holding;
    SameHoldingWork(s, WorkPop(spurious));
    R.PopWithdraws(s.ring, spurious);
    R.PopTouches(s.ring, spurious);
  }

  lemma OtherWorkKeepsConserved(s: State, op: WorkOp)
    requires CountInv(s) && WorkEnabled(s, op) && !op.WorkPop?
    ensures Conserved(WorkStep(s, op))
  {
    hide R.RingInv, R.Published, Holding, WorkMoved, AfterEmptyTest;
    SameHoldingWork(s, op);
    SamePublished(s.ring, WorkStep(s, op).ring);
  }

  lemma LifeKeepsConserved(s: State, op: LifeOp)
    requires Core(s) && Conserved(s) && QuiescedInv(s) && LifeEnabled(s, op)
    ensures Conserved(LifeStep(s, op))
  {
    hide R.RingInv, R.Published;
    var s' := LifeStep(s, op);
    if op.LifeSwap? {
      EmptyPublished(s'.ring);
      assert Holding(s') == Holding(s) == {};
    } else {
      assert Holding(s') == Holding(s);
    }
  }

  lemma EmptyPublished(r: R.Ring<Ticket>)
    requires r.Capacity() > 0 && r.enqueuePos == |r.popped|
    ensures R.Published(r) == {}
  {
  }

  lemma AddKeepsConserved(s: State, p: ThreadId, op: AddOp)
    requires CountInv(s) && AddEnabled(s, p, op)
    ensures Conserved(AddStep(s, p, op))
  {
    hide CountInv, Conserved, AddStep;
    match op
    case AddReserve => ReserveKeepsConserved(s, p);
    case AddPush(spurious) => PushKeepsConserved(s, p, spurious);
    case AddSettle => SettleKeepsConserved(s, p);
    case _ => AddMovesKeepConserved(s, p, op);
  }

  lemma StepKeepsConserved(s: State, a: Action)
    requires Core(s) && Conserved(s) && QuiescedInv(s) && Enabled(s, a)
    ensures Conserved(Step(s, a))
  {
    hide R.RingInv, AddStep, WorkStep, LifeStep, WaitStep, ResetStep, Linked, Barrier, Flags, Active, Conserved;
    match a
    case Producer(p, op) => AddKeepsConserved(s, p, op);
    case Worker(op) => WorkKeepsConserved(s, op);
    case Manager(op) => LifeKeepsConserved(s, op);
    case Waiter(w, op) => WaitKeepsConserved(s, w, op);
    case ResetDrops => ResetKeepsConserved(s);
  }

  lemma ResetKeepsConserved(s: State)
    requires Conserved(s)
    ensures Conserved(ResetStep(s))
  {
    hide R.Published;
    assert Holding(ResetStep(s)) == Holding(s);
  }

  lemma WaitKeepsConserved(s: State, w: ThreadId, op: WaitOp)
    requires Conserved(s) && WaitEnabled(s, w, op)
    ensures Conserved(WaitStep(s, w, op))
  {
    hide R.Published;
    assert Holding(WaitStep(s, w, op)) == Holding(s);
  }

  // ------------------------------------------------------------- quiescence

  /** Nothing in flight: the completed and submitted counters meet exactly when every place is empty. */
  lemma MeetingCounters(s: State)
    requires Linked(s) && Conserved(s) && s.completed >= s.submitted
    ensures s.completed == s.submitted && Holding(s) == {} && R.Published(s.ring) == {} && !s.WorkerHolds()
  {
    hide R.RingInv, R.Published;
  }

  lemma AddKeepsQuiesced(s: State, p: ThreadId, op: AddOp)
    requires Core(s) && Conserved(s) && QuiescedInv(s) && AddEnabled(s, p, op)
    ensures QuiescedInv(AddStep(s, p, op))
  {
    hide R.RingInv, R.Published, R.PushStep;
    if s.lifecycle.Quiesced() {
      MeetingCounters(s);
      assert op.AddSettle? ==> p in Holding(s);
    }
  }

  lemma WorkKeepsQuiesced(s: State, op: WorkOp)
    requires Core(s) && Conserved(s) && QuiescedInv(s) && WorkEnabled(s, op)
    ensures QuiescedInv(WorkStep(s, op))
  {
    hide R.RingInv, R.Published, R.PopStep;
    if s.lifecycle.Quiesced() {
      MeetingCounters(s);
    }
  }

  lemma LifeKeepsQuiesced(s: State, op: LifeOp)
    requires Core(s) && Conserved(s) && QuiescedInv(s) && LifeEnabled(s, op)
    ensures QuiescedInv(LifeStep(s, op))
  {
    hide R.RingInv, R.Published;
    if s.completed >= s.submitted {
      MeetingCounters(s);
    }
  }

  lemma StepKeepsQuiesced(s: State, a: Action)
    requires Core(s) && Conserved(s) && QuiescedInv(s) && Enabled(s, a)
    ensures QuiescedInv(Step(s, a))
  {
    hide Core, Conserved, AddStep, WorkStep, LifeStep;
    match a
    case Producer(p, op) => AddKeepsQuiesced(s, p, op);
    case Worker(op) => WorkKeepsQuiesced(s, op);
    case Manager(op) => LifeKeepsQuiesced(s, op);
    case Waiter(w, op) =>
    case ResetDrops =>
  }

  /** An empty head cell with nobody inside means an empty ring and settled tickets. */
  lemma EmptyTestWithNobodyInside(s: State)
    requires Core(s) && Conserved(s) && NoneEntered(s) && (s.worker.TestEmpty? || s.worker.ParkEmpty?)
    requires R.HeadEmpty(s.ring)
    ensures s.ring.enqueuePos == |s.ring.popped| && s.completed == s.submitted
  {
    assert s.ring.pushers == map[];
    if |s.ring.popped| < s.ring.enqueuePos {
      R.QuietHeadIsPublished(s.ring);
      assert false;
    }
    EmptyPublished(s.ring);
    assert Holding(s) == {};
  }

  lemma AddKeepsQuiet(s: State, p: ThreadId, op: AddOp)
    requires Core(s) && Conserved(s) && QuietInv(s) && AddEnabled(s, p, op)
    ensures QuietInv(AddStep(s, p, op))
  {
    hide R.RingInv, R.Published, R.PushStep;
  }

  lemma WorkKeepsQuiet(s: State, op: WorkOp)
    requires Core(s) && Conserved(s) && QuietInv(s) && WorkEnabled(s, op)
    ensures QuietInv(WorkStep(s, op))
  {
    hide R.RingInv, R.Published, R.PopStep;
    if op.WorkTestEmpty? && NoneEntered(s) && R.HeadEmpty(s.ring) {
      EmptyTestWithNobodyInside(s);
    }
  }

  lemma StepKeepsQuiet(s: State, a: Action)
    requires Core(s) && Conserved(s) && QuietInv(s) && Enabled(s, a)
    ensures QuietInv(Step(s, a))
  {
    hide Core, Conserved, AddStep, WorkStep, LifeStep, WaitStep, ResetStep, QuietInv;
    match a
    case Producer(p, op) => AddKeepsQuiet(s, p, op);
    case Worker(op) => WorkKeepsQuiet(s, op);
    case Manager(op) => LifeKeepsQuiet(s, op);
    case Waiter(w, op) => WaitKeepsQuiet(s, w, op);
    case ResetDrops => ResetKeepsQuiet(s);
  }

  lemma ResetKeepsQuiet(s: State)
    requires QuietInv(s)
    ensures QuietInv(ResetStep(s))
  {
  }

  lemma WaitKeepsQuiet(s: State, w: ThreadId, op: WaitOp)
    requires QuietInv(s) && WaitEnabled(s, w, op)
    ensures QuietInv(WaitStep(s, w, op))
  {
  }

  lemma LifeKeepsQuiet(s: State, op: LifeOp)
    requires QuietInv(s) && LifeEnabled(s, op)
    ensures QuietInv(LifeStep(s, op))
  {
  }

  // ----------------------------------------------- acceptance and run order

  lemma WorkKeepsOrdered(s: State, op: WorkOp)
    requires Linked(s) && Ordered(s) && WorkEnabled(s, op)
    ensures Ordered(WorkStep(s, op))
  {
    hide Linked, Ordered, WorkStep;
    if op.WorkPop? {
      PopKeepsOrdered(s, op.spurious);
    } else {
      RingOrder(s);
      OtherWorkKeepsOrdered(s, op);
    }
  }

  lemma PopKeepsOrdered(s: State, spurious: bool)
    requires Linked(s) && Ordered(s) && WorkEnabled(s, WorkPop(spurious))
    ensures Ordered(WorkStep(s, WorkPop(spurious)))
  {
    hide R.PopStep, Linked;
    var s' := WorkStep(s, WorkPop(spurious));
    WorkKeepsLinked(s, WorkPop(spurious));
    RingOrder(s');
    R.PopTouches(s.ring, spurious);
    assert s'.Accepted() == s.Accepted();
  }

  lemma OtherWorkKeepsOrdered(s: State, op: WorkOp)
    requires Ordered(s) && WorkEnabled(s, op) && !op.WorkPop?
    requires s.ring.popper.PopReturned? && s.ring.popper.result.Some? ==>
               |s.ring.popped| > 0 && s.ring.popper.result.value == s.Accepted()[s.Taken() - 1]
    ensures Ordered(WorkStep(s, op))
  {
    var s' := WorkStep(s, op);
    assert s'.Accepted() == s.Accepted() && s'.Taken() == s.Taken();
  }

  /** What the ring contributes to the order. */
  lemma RingOrder(s: State)
    requires Linked(s)
    ensures s.ring.popped <= s.ring.claimed
    ensures s.ring.popper.PopReturned? && s.ring.popper.result.Some? ==>
              |s.ring.popped| > 0 && s.ring.popper.result.value == s.Accepted()[s.Taken() - 1]
    ensures s.ring.popper.Release? ==> |s.ring.popped| > 0
  {
    hide R.RingInv;
    R.PopReturnsNext(s.ring);
  }

  lemma AddKeepsOrdered(s: State, p: ThreadId, op: AddOp)
    requires Ordered(s) && AddEnabled(s, p, op)
    ensures Ordered(AddStep(s, p, op))
  {
    hide Ordered, R.PushStep, AddMoved;
    if op.AddPush? { R.PushTouches(s.ring, p, op.spurious); }
    GrowthKeepsOrdered(s, AddStep(s, p, op));
  }

  /** Claims may be added; the worker and what it took stay. */
  lemma GrowthKeepsOrdered(s: State, s': State)
    requires Ordered(s) && s'.worker == s.worker && s'.executed == s.executed && s'.earlier == s.earlier
    requires s.ring.claimed <= s'.ring.claimed && s'.ring.popped == s.ring.popped && s'.ring.popper == s.ring.popper
    ensures Ordered(s')
  {
    assert s.Accepted() <= s'.Accepted() && s'.Taken() == s.Taken();
  }

  lemma LifeKeepsOrdered(s: State, op: LifeOp)
    requires Core(s) && Conserved(s) && QuiescedInv(s) && Ordered(s) && LifeEnabled(s, op)
    ensures Ordered(LifeStep(s, op))
    ensures LifeStep(s, op).Accepted() == s.Accepted() && LifeStep(s, op).Taken() == s.Taken()
    ensures LifeStep(s, op).WorkerHolds() == s.WorkerHolds()
  {
    hide R.RingInv, R.Published;
    var s' := LifeStep(s, op);
    if op.LifeSwap? {
      SwapFindsNothing(s);
    }
    assert s'.Accepted() == s.Accepted();
  }

  /**
   At the moment the ring is replaced nobody is past the barrier, the worker is gone, no cell is
   claimed or published, and every reserved ticket is settled.
   */
  lemma SwapFindsNothing(s: State)
    requires Core(s) && Conserved(s) && QuiescedInv(s) && s.lifecycle.Swap?
    ensures NoneEntered(s) && s.worker.Exited? && s.ring.pushers == map[]
    ensures s.ring.enqueuePos == |s.ring.popped| == |s.ring.claimed|
    ensures s.completed == s.submitted
  {
    MeetingCounters(s);
    assert s.ring.pushers == map[];
    if |s.ring.popped| < s.ring.enqueuePos {
      R.QuietHeadIsPublished(s.ring);
      assert false;
    }
  }

  // -------------------------------------------------------- one place a ticket

  /** A step that settles nothing, claims nothing and reserves nothing leaves every ticket in place. */
  lemma SameTickets(s: State, s': State)
    requires Tickets(s)
    requires s'.submitted == s.submitted && s'.completed == s.completed && s'.settled == s.settled
    requires s'.Accepted() == s.Accepted() && Finished(s') == Finished(s)
    requires forall p | Unclaimed(s', p) :: Unclaimed(s, p) && s'.adders[p].ticket == s.adders[p].ticket
    ensures Tickets(s')
  {
  }

  lemma ReserveKeepsTickets(s: State, p: ThreadId)
    requires Linked(s) && Tickets(s) && AddEnabled(s, p, AddReserve)
    ensures Tickets(AddStep(s, p, AddReserve))
  {
    hide R.RingInv;
    var s' := AddStep(s, p, AddReserve);
    assert s'.Accepted() == s.Accepted();
    assert forall q | Unclaimed(s', q) && q != p :: Unclaimed(s, q);
    forall i | 0 <= i < |s.Accepted()| ensures s.Accepted()[i] != s.submitted { }
  }

  lemma SettleKeepsTickets(s: State, p: ThreadId)
    requires Linked(s) && Tickets(s) && Reasons(s) && AddEnabled(s, p, AddSettle)
    ensures Tickets(AddStep(s, p, AddSettle))
  {
    hide Reasons, Linked, Tickets;
    var s' := AddStep(s, p, AddSettle);
    SettlerIsUnclaimed(s, p);
    SettleMoves(s, p);
    SettleKeepsHeld(s, s', p);
    SettleKeepsAccepted(s, s', p);
    SettleKeepsSettled(s, s', p);
    TicketsInParts(s');
  }

  /** What a producer that settles does: its held ticket is settled otherwise than as executed. */
  ghost predicate Settled(s: State, s': State, p: ThreadId)
  {
    && Unclaimed(s, p) && s.adders[p].Settle? && s.adders[p].outcome != Executed
    && s'.submitted == s.submitted && s'.Accepted() == s.Accepted() && Finished(s') == Finished(s)
    && s'.completed == s.completed + 1 && s'.settled == s.settled[s.adders[p].ticket := s.adders[p].outcome]
    && forall q | Unclaimed(s', q) :: Unclaimed(s, q) && q != p && s'.adders[q] == s.adders[q]
  }

  lemma SettleMoves(s: State, p: ThreadId)
    requires AddEnabled(s, p, AddSettle) && Unclaimed(s, p) && s.adders[p].outcome != Executed
    ensures Settled(s, AddStep(s, p, AddSettle), p)
  {
    assert AddStep(s, p, AddSettle).Accepted() == s.Accepted();
  }

  lemma SettleKeepsHeld(s: State, s': State, p: ThreadId)
    requires Tickets(s) && Settled(s, s', p)
    ensures HeldApart(s')
  {
    hide SettledOnce, AcceptedApart;
  }

  lemma SettleKeepsAccepted(s: State, s': State, p: ThreadId)
    requires Tickets(s) && Settled(s, s', p)
    ensures AcceptedApart(s')
  {
    hide SettledOnce;
    assert s.adders[p].ticket !in s.Accepted();
  }

  lemma SettleKeepsSettled(s: State, s': State, p: ThreadId)
    requires Tickets(s) && Settled(s, s', p)
    ensures SettledOnce(s')
  {
    hide AcceptedApart;
    assert s.adders[p].ticket !in s.settled;
  }

  /** A producer about to settle holds its ticket, and does not settle it as executed. */
  lemma SettlerIsUnclaimed(s: State, p: ThreadId)
    requires Linked(s) && Reasons(s) && AddEnabled(s, p, AddSettle)
    ensures Unclaimed(s, p) && s.adders[p].outcome != Executed
  {
    hide R.RingInv;
  }

  lemma ClaimKeepsTickets(s: State, p: ThreadId, spurious: bool)
    requires Linked(s) && Ordered(s) && Tickets(s) && AddEnabled(s, p, AddPush(spurious))
    requires R.PushStep(s.ring, p, spurious).pushers[p].pc.Construct?
    ensures Tickets(AddStep(s, p, AddPush(spurious)))
  {
    hide R.RingInv, R.PushStep, Tickets;
    var s' := AddStep(s, p, AddPush(spurious));
    ClaimMoves(s, p, spurious);
    ClaimKeepsHeld(s, s', p);
    ClaimKeepsAccepted(s, s', p);
    SameSettledOnce(s, s');
  }

  /** What a claim does to the places of tickets: one held ticket becomes the last accepted one. */
  ghost predicate Claimed(s: State, s': State, p: ThreadId)
  {
    && Unclaimed(s, p) && s'.adders == s.adders && s'.submitted == s.submitted
    && s'.completed == s.completed && s'.settled == s.settled
    && s'.Accepted() == s.Accepted() + [s.adders[p].ticket] && Finished(s') == Finished(s) <= |s.Accepted()|
    && forall q | Unclaimed(s', q) :: Unclaimed(s, q) && q != p
  }

  lemma ClaimMoves(s: State, p: ThreadId, spurious: bool)
    requires Linked(s) && Ordered(s) && AddEnabled(s, p, AddPush(spurious))
    requires R.PushStep(s.ring, p, spurious).pushers[p].pc.Construct?
    ensures Claimed(s, AddStep(s, p, AddPush(spurious)), p)
  {
    hide R.RingInv, R.PushStep;
    R.PushTouches(s.ring, p, spurious);
  }

  lemma ClaimKeepsHeld(s: State, s': State, p: ThreadId)
    requires Tickets(s) && Claimed(s, s', p)
    ensures HeldApart(s')
  {
    hide AcceptedApart, SettledOnce;
  }

  lemma ClaimKeepsAccepted(s: State, s': State, p: ThreadId)
    requires Tickets(s) && Claimed(s, s', p)
    ensures AcceptedApart(s')
  {
    hide SettledOnce;
    assert s.adders[p].ticket !in s.Accepted();
  }

  lemma SameSettledOnce(s: State, s': State)
    requires Tickets(s) && s'.submitted == s.submitted && s'.completed == s.completed && s'.settled == s.settled
    ensures Tickets(s') <==> HeldApart(s') && AcceptedApart(s')
  {
    hide HeldApart, AcceptedApart;
  }

  lemma CompleteKeepsTickets(s: State)
    requires Linked(s) && Ordered(s) && Tickets(s) && WorkEnabled(s, WorkComplete)
    ensures Tickets(WorkStep(s, WorkComplete))
  {
    hide Linked, Tickets;
    var s' := WorkStep(s, WorkComplete);
    CompleteMoves(s);
    CompleteKeepsHeld(s, s');
    CompleteKeepsAccepted(s, s');
    CompleteKeepsSettled(s, s');
    TicketsInParts(s');
  }

  lemma TicketsInParts(s: State)
    requires SettledOnce(s) && HeldApart(s) && AcceptedApart(s)
    ensures Tickets(s)
  {
  }

  /** What the completion of a task does: the first unfinished accepted ticket is settled as executed. */
  ghost predicate Completed(s: State, s': State)
  {
    && s'.adders == s.adders && s'.ring == s.ring && s'.submitted == s.submitted && s'.Accepted() == s.Accepted()
    && 0 <= Finished(s) < |s.Accepted()| && Finished(s') == Finished(s) + 1
    && s'.completed == s.completed + 1 && s'.settled == s.settled[s.Accepted()[Finished(s)] := Executed]
  }

  lemma CompleteMoves(s: State)
    requires Ordered(s) && WorkEnabled(s, WorkComplete)
    ensures Completed(s, WorkStep(s, WorkComplete))
  {
    assert WorkStep(s, WorkComplete).Accepted() == s.Accepted();
  }

  lemma CompleteKeepsHeld(s: State, s': State)
    requires Tickets(s) && Completed(s, s')
    ensures HeldApart(s')
  {
    hide SettledOnce, AcceptedApart;
    assert forall q :: Unclaimed(s', q) <==> Unclaimed(s, q);
    assert s.Accepted()[Finished(s)] in s.Accepted();
  }

  lemma CompleteKeepsAccepted(s: State, s': State)
    requires Tickets(s) && Completed(s, s')
    ensures AcceptedApart(s')
  {
    hide SettledOnce, HeldApart;
  }

  lemma CompleteKeepsSettled(s: State, s': State)
    requires Tickets(s) && Completed(s, s')
    ensures SettledOnce(s')
  {
    hide HeldApart;
    assert s.Accepted()[Finished(s)] !in s.settled;
  }

  lemma PushKeepsTickets(s: State, p: ThreadId, spurious: bool)
    requires Linked(s) && Ordered(s) && Tickets(s) && AddEnabled(s, p, AddPush(spurious))
    ensures Tickets(AddStep(s, p, AddPush(spurious)))
  {
    hide R.RingInv, R.PushStep, Tickets, Ordered;
    R.PushTouches(s.ring, p, spurious);
    if R.PushStep(s.ring, p, spurious).pushers[p].pc.Construct? {
      ClaimKeepsTickets(s, p, spurious);
    } else {
      SameTickets(s, AddStep(s, p, AddPush(spurious)));
    }
  }

  lemma AddKeepsTickets(s: State, p: ThreadId, op: AddOp)
    requires Linked(s) && Ordered(s) && Tickets(s) && Reasons(s) && AddEnabled(s, p, op)
    ensures Tickets(AddStep(s, p, op))
  {
    hide Linked, Tickets, Reasons, Ordered, AddStep;
    match op
    case AddReserve => ReserveKeepsTickets(s, p);
    case AddSettle => SettleKeepsTickets(s, p);
    case AddPush(spurious) => PushKeepsTickets(s, p, spurious);
    case _ => OtherAddKeepsTickets(s, p, op);
  }

  lemma OtherAddKeepsTickets(s: State, p: ThreadId, op: AddOp)
    requires Linked(s) && Tickets(s) && AddEnabled(s, p, op) && !op.AddReserve? && !op.AddSettle? && !op.AddPush?
    ensures Tickets(AddStep(s, p, op))
  {
    hide R.RingInv, Tickets, AddMoved, AfterPush;
    var s' := AddStep(s, p, op);
    assert s'.Accepted() == s.Accepted();
    SameTickets(s, s');
  }

  lemma WorkKeepsTickets(s: State, op: WorkOp)
    requires Linked(s) && Ordered(s) && Tickets(s) && WorkEnabled(s, op)
    ensures Tickets(WorkStep(s, op))
  {
    hide R.RingInv, R.PopStep, Tickets, Ordered;
    if op.WorkComplete? {
      CompleteKeepsTickets(s);
    } else {
      if op.WorkPop? { R.PopTouches(s.ring, op.spurious); }
      assert WorkStep(s, op).Accepted() == s.Accepted();
      SameTickets(s, WorkStep(s, op));
    }
  }

  lemma LifeKeepsTickets(s: State, op: LifeOp)
    requires Core(s) && Conserved(s) && QuiescedInv(s) && Ordered(s) && Tickets(s) && LifeEnabled(s, op)
    ensures Tickets(LifeStep(s, op))
  {
    hide R.RingInv, R.Published, Tickets;
    LifeKeepsOrdered(s, op);
    SameTickets(s, LifeStep(s, op));
  }

  // ------------------------------------------------------- reasons for settling

  /** No thread past the barrier ever sees a stop flag that only a resize raised. */
  lemma StopSeenInsideIsShutdown(s: State, p: ThreadId)
    requires Core(s) && p in s.adders && s.adders[p].Entered() && s.stop
    ensures s.shutdownBegun
  {
    hide R.RingInv;
  }

  lemma AddKeepsSettleReasons(s: State, p: ThreadId, op: AddOp)
    requires Core(s) && SettleReasons(s) && AddEnabled(s, p, op)
    ensures SettleReasons(AddStep(s, p, op))
  {
    hide Core, SettleReasons, AddStep;
    match op
    case AddMove => MoveKeepsSettleReasons(s, p);
    case AddSettle => SettleKeepsSettleReasons(s, p);
    case _ => OtherAddKeepsSettleReasons(s, p, op);
  }

  lemma MoveKeepsSettleReasons(s: State, p: ThreadId)
    requires Core(s) && SettleReasons(s) && AddEnabled(s, p, AddMove)
    ensures SettleReasons(AddStep(s, p, AddMove))
  {
    hide Core, AddMoved;
    if s.adders[p].Entered() && s.stop { StopSeenInsideIsShutdown(s, p); }
  }

  lemma SettleKeepsSettleReasons(s: State, p: ThreadId)
    requires SettleReasons(s) && AddEnabled(s, p, AddSettle)
    ensures SettleReasons(AddStep(s, p, AddSettle))
  {
  }

  lemma OtherAddKeepsSettleReasons(s: State, p: ThreadId, op: AddOp)
    requires SettleReasons(s) && AddEnabled(s, p, op) && !op.AddMove? && !op.AddSettle?
    ensures SettleReasons(AddStep(s, p, op))
  {
    hide R.PushStep, AfterPush;
    var s' := AddStep(s, p, op);
    assert s'.settled == s.settled && s'.executed == s.executed && s.drops <= s'.drops;
  }

  /** A step that drops nothing keeps the count. */
  lemma SameDrops(s: State, s': State)
    requires DropsCounted(s)
    requires s'.drops == s.drops && s'.dropped + s'.forgotten == s.dropped + s.forgotten && s'.submitted >= s.submitted
    requires forall p | Unclaimed(s', p) && !s'.adders[p].Settle? ::
               || s'.adders[p].ticket >= s.submitted
               || (Unclaimed(s, p) && !s.adders[p].Settle? && s'.adders[p].ticket == s.adders[p].ticket)
    ensures DropsCounted(s')
  {
  }

  lemma CountDropKeepsDrops(s: State, p: ThreadId)
    requires Linked(s) && HeldApart(s) && DropsCounted(s) && AddEnabled(s, p, AddCountDrop)
    ensures DropsCounted(AddStep(s, p, AddCountDrop))
  {
    hide R.RingInv;
    var s' := AddStep(s, p, AddCountDrop);
    assert Unclaimed(s, p);
    assert forall q | Unclaimed(s', q) :: Unclaimed(s, q);
  }

  lemma AddKeepsDrops(s: State, p: ThreadId, op: AddOp)
    requires Linked(s) && HeldApart(s) && DropsCounted(s) && AddEnabled(s, p, op)
    ensures DropsCounted(AddStep(s, p, op))
  {
    hide R.RingInv, R.PushStep, HeldApart, DropsCounted;
    if op.AddCountDrop? {
      CountDropKeepsDrops(s, p);
    } else {
      if op.AddPush? { R.PushTouches(s.ring, p, op.spurious); }
      SameDrops(s, AddStep(s, p, op));
    }
  }

  lemma AddKeepsReasons(s: State, p: ThreadId, op: AddOp)
    requires Core(s) && Tickets(s) && Reasons(s) && AddEnabled(s, p, op)
    ensures Reasons(AddStep(s, p, op))
  {
    hide AddStep, SettleReasons, DropsCounted, Linked, HeldApart;
    AddKeepsSettleReasons(s, p, op);
    AddKeepsDrops(s, p, op);
  }

  lemma WorkKeepsReasons(s: State, op: WorkOp)
    requires Ordered(s) && Reasons(s) && WorkEnabled(s, op)
    ensures Reasons(WorkStep(s, op))
  {
    hide WorkStep, Ordered, Reasons;
    if op.WorkComplete? {
      CompleteKeepsReasons(s);
    } else {
      OtherWorkKeepsReasons(s, op);
    }
  }

  lemma CompleteKeepsReasons(s: State)
    requires Ordered(s) && Reasons(s) && WorkEnabled(s, WorkComplete)
    ensures Reasons(WorkStep(s, WorkComplete))
  {
    assert s.worker.ticket in s.executed;
  }

  lemma OtherWorkKeepsReasons(s: State, op: WorkOp)
    requires Reasons(s) && WorkEnabled(s, op) && !op.WorkComplete?
    ensures Reasons(WorkStep(s, op))
  {
    hide R.PopStep, WorkMoved, AfterEmptyTest, SettleReasons, DropsCounted;
    if op.WorkPop? { R.PopTouches(s.ring, op.spurious); }
    var s' := WorkStep(s, op);
    match op {
      case WorkRun => assert s.executed <= s'.executed;
      case _ => assert s.executed == s'.executed;
    }
    SameReasons(s, s');
  }

  lemma SameReasons(s: State, s': State)
    requires Reasons(s) && s'.settled == s.settled && s'.drops == s.drops && s'.adders == s.adders && s.executed <= s'.executed
    requires s'.shutdownBegun == s.shutdownBegun && s'.dropped == s.dropped && s'.forgotten == s.forgotten
    requires s'.submitted == s.submitted && s'.ring.pushers == s.ring.pushers
    ensures Reasons(s')
  {
    assert forall p :: Unclaimed(s', p) <==> Unclaimed(s, p);
  }

  lemma LifeKeepsReasons(s: State, op: LifeOp)
    requires Core(s) && Reasons(s) && LifeEnabled(s, op)
    ensures Reasons(LifeStep(s, op))
  {
    hide R.RingInv;
  }

  // ---------------------------------------------------------------- every step

  ghost predicate Second(s: State)
  {
    Ordered(s) && Tickets(s) && Reasons(s)
  }

  lemma WaitKeepsSecond(s: State, w: ThreadId, op: WaitOp)
    requires Second(s) && QuietInv(s) && WaitEnabled(s, w, op)
    ensures Second(WaitStep(s, w, op)) && QuietInv(WaitStep(s, w, op))
  {
    hide Tickets, DropsCounted;
    var s' := WaitStep(s, w, op);
    SameTickets(s, s');
    SameDrops(s, s');
  }

  lemma StepKeepsSecond(s: State, a: Action)
    requires Core(s) && Conserved(s) && QuiescedInv(s) && QuietInv(s) && Second(s) && Enabled(s, a)
    ensures Second(Step(s, a))
  {
    hide AddStep, WorkStep, LifeStep, WaitStep, ResetStep, Linked, Barrier, Flags, Active, Conserved, Ordered, Tickets, Reasons, QuietInv;
    match a
    case Producer(p, op) =>
      AddKeepsOrdered(s, p, op);
      AddKeepsTickets(s, p, op);
      AddKeepsReasons(s, p, op);
    case Worker(op) =>
      WorkKeepsOrdered(s, op);
      WorkKeepsTickets(s, op);
      WorkKeepsReasons(s, op);
    case Manager(op) =>
      LifeKeepsOrdered(s, op);
      LifeKeepsTickets(s, op);
      LifeKeepsReasons(s, op);
    case Waiter(w, op) => WaitKeepsSecond(s, w, op);
    case ResetDrops => ResetKeepsSecond(s);
  }

  lemma ResetKeepsSecond(s: State)
    requires Second(s)
    ensures Second(ResetStep(s))
  {
    hide R.RingInv, Tickets, DropsCounted;
    var s' := ResetStep(s);
    assert s'.Accepted() == s.Accepted();
    SameTickets(s, s');
    ResetKeepsDrops(s);
  }

  lemma ResetKeepsDrops(s: State)
    requires DropsCounted(s)
    ensures DropsCounted(ResetStep(s))
  {
    assert forall p :: Unclaimed(ResetStep(s), p) <==> Unclaimed(s, p);
  }

  lemma StepKeepsInv(s: State, a: Action)
    requires Inv(s) && Enabled(s, a)
    ensures Inv(Step(s, a))
  {
    hide Step, Core, Conserved, Ordered, Tickets, Reasons, QuietInv, QuiescedInv;
    StepKeepsCore(s, a);
    StepKeepsConserved(s, a);
    StepKeepsQuiesced(s, a);
    StepKeepsQuiet(s, a);
    StepKeepsSecond(s, a);
  }
}
