/**
 What the callers of the task executor ask for is what they get: the size of a resize, the policy of
 `set_queue_policy`, what a full ring does under each policy, and the refusal after a shutdown.
 */
module TaskExecutorRequests {
  import opened QueuePolicies
  import opened TaskExecutor
  import opened TaskExecutorSafety
  import opened TaskExecutorRuns
  import opened BlockLimit
  import R = MpscRing

  // ------------------------------------------------------------------- who changes what

  lemma AddKeepsSettings(s: State, p: ThreadId, op: AddOp)
    requires AddEnabled(s, p, op)
    ensures var s' := AddStep(s, p, op);
            s'.policy == s.policy && s'.stop == s.stop && s'.shutdownBegun == s.shutdownBegun && s'.submitted >= s.submitted
  {
    hide R.PushStep, R.CanPush, LimitReached, AddMoved, AfterPush;
    match op
    case AddSettle => assert SettleTicket(s, s.adders[p].ticket, s.adders[p].outcome).policy == s.policy;
    case _ =>
  }

  lemma WorkKeepsSettings(s: State, op: WorkOp)
    requires WorkEnabled(s, op)
    ensures var s' := WorkStep(s, op);
            && s'.policy == s.policy && s'.stop == s.stop && s'.shutdownBegun == s.shutdownBegun
            && s'.adders == s.adders && s'.drops == s.drops && s'.submitted == s.submitted
  {
    hide R.PopStep, WorkMoved, AfterEmptyTest, WorkEnabled;
  }

  lemma LifeKeepsCalls(s: State, op: LifeOp)
    requires LifeEnabled(s, op)
    ensures var s' := LifeStep(s, op); s'.adders == s.adders && s'.drops == s.drops && s'.submitted == s.submitted
  {
    hide LifeMoved, LifeMoves;
    match op
    case LifeSwap =>
    case LifeSetPolicy =>
    case LifeMove(_) =>
    case _ =>
  }

  /** The holder of the lifecycle mutex, the limit and the policy change with that holder's steps only. */
  lemma OnlyManagerManages(s: State, a: Action)
    requires Enabled(s, a) && !a.Manager?
    ensures var s' := Step(s, a);
            && s'.lifecycle == s.lifecycle && s'.limit == s.limit && s'.policy == s.policy
            && s'.stop == s.stop && s'.shutdownBegun == s.shutdownBegun
  {
    hide AddStep, WorkStep, AddEnabled, WorkEnabled;
    match a
    case Producer(p, op) => AddKeepsQueue(s, p, op); AddKeepsSettings(s, p, op);
    case Worker(op) => WorkKeepsQueue(s, op); WorkKeepsSettings(s, op);
    case Waiter(_, _) =>
    case ResetDrops =>
  }

  /** The calls of `add_task`, the tickets and the drops change with steps of `add_task` only. */
  lemma OnlyProducersAdd(s: State, a: Action)
    requires Enabled(s, a) && !a.Producer?
    ensures Step(s, a).adders == s.adders && Step(s, a).drops == s.drops && Step(s, a).submitted == s.submitted
  {
    hide AddStep, WorkStep, LifeStep, AddEnabled, WorkEnabled, LifeEnabled, WaitMoved, WaitMoves, WaitEnds;
    match a
    case Worker(op) => WorkKeepsSettings(s, op);
    case Manager(op) => LifeKeepsCalls(s, op);
    case Waiter(_, op) => match op { case CallWait => case _ => }
    case ResetDrops =>
  }

  // ---------------------------------------------------------------- set_max_queue_size

  /** A stage that still knows its size is working for `size`. */
  predicate ForSize(pc: LifecyclePc, size: nat)
  {
    match pc
    case ResizeCheck(n) => n == size
    case RaiseBarrier(n) => n == size
    case AwaitProducers(n) => n == size
    case LoadTarget(n) => n == size
    case AwaitTarget(n, _) => n == size
    case IdleStop(n) => n == size
    case IdleTest(n) => n == size
    case StopWorker(n) => n == size
    case JoinWorker(n) => n == size
    case Swap(n) => n == size
    case _ => true
  }

  lemma StaysForSize(s: State, a: Action, size: nat)
    requires Enabled(s, a) && !s.lifecycle.Free? && ForSize(s.lifecycle, size)
    ensures ForSize(Step(s, a).lifecycle, size)
  {
    hide LifeStep, LifeEnabled, AddStep, AddEnabled, WorkStep, WorkEnabled, ForSize;
    if a.Manager? { LifeStaysForSize(s, a.life, size); } else { OnlyManagerManages(s, a); }
  }

  lemma LifeStaysForSize(s: State, op: LifeOp, size: nat)
    requires LifeEnabled(s, op) && !s.lifecycle.Free? && ForSize(s.lifecycle, size)
    ensures ForSize(LifeStep(s, op).lifecycle, size)
  {
  }

  lemma {:induction false} ServesOneSize(trace: seq<State>, steps: seq<Action>, i: nat, j: nat, size: nat)
    requires IsRun(trace, steps) && i <= j < |trace| && ForSize(trace[i].lifecycle, size)
    requires forall k | i <= k < j :: !trace[k].lifecycle.Free?
    ensures ForSize(trace[j].lifecycle, size)
  {
    hide Step, Enabled, ForSize;
    if i < j {
      ServesOneSize(trace, steps, i, j - 1, size);
      StaysForSize(trace[j - 1], steps[j - 1], size);
    }
  }

  lemma {:induction false} LimitStays(trace: seq<State>, steps: seq<Action>, i: nat, j: nat)
    requires IsRun(trace, steps) && i <= j < |trace| && forall k | i <= k < j :: steps[k] != Manager(LifeSwap)
    ensures trace[j].limit == trace[i].limit
  {
    hide Step, Enabled;
    if i < j {
      LimitStays(trace, steps, i, j - 1);
      LimitStep(trace[j - 1], steps[j - 1]);
    }
  }

  lemma LimitStep(s: State, a: Action)
    requires Enabled(s, a) && a != Manager(LifeSwap)
    ensures Step(s, a).limit == s.limit
  {
    hide LifeStep, LifeEnabled, AddStep, AddEnabled, WorkStep, WorkEnabled;
    if a.Manager? { OnlySwapTouchesQueue(s, a.life); } else { OnlyManagerManages(s, a); }
  }

  /**
   A resize that replaces the ring sets the limit it was called with, and the ring has the cells which
   that limit asks for: 1024 without a limit, and at least two.  Both stay until the next replacement.
   */
  lemma ResizeSetsTheSize(trace: seq<State>, steps: seq<Action>, i: nat, j: nat, n: nat, size: nat)
    requires IsRun(trace, steps) && i < j < n < |trace|
    requires steps[i] == Manager(CallResize(size)) || trace[i].lifecycle == ResizeCheck(size)
    requires steps[j] == Manager(LifeSwap) && forall k | i < k < j :: !trace[k].lifecycle.Free?
    requires forall k | j < k < n :: steps[k] != Manager(LifeSwap)
    ensures trace[n].limit == size
    ensures trace[n].ring.Capacity() == if size == 0 then 1024 else if size == 1 then 2 else size
  {
    assert trace[i + 1] == Step(trace[i], steps[i]) && trace[j + 1] == Step(trace[j], steps[j]);
    if trace[i].lifecycle == ResizeCheck(size) { StaysForSize(trace[i], steps[i], size); }
    ServesOneSize(trace, steps, i + 1, j, size);
    LimitStays(trace, steps, j + 1, n);
    CapacityFollowsLimit(trace, steps, n);
  }

  // ------------------------------------------------------------------ set_queue_policy

  predicate ForPolicy(pc: LifecyclePc, policy: QueuePolicy)
  {
    pc.PolicyChange? ==> pc.policy == policy
  }

  lemma StaysForPolicy(s: State, a: Action, policy: QueuePolicy)
    requires Enabled(s, a) && ForPolicy(s.lifecycle, policy)
    requires !s.lifecycle.Free? || (a.Manager? && a.life.CallSetPolicy? ==> a.life.policy == policy)
    ensures ForPolicy(Step(s, a).lifecycle, policy)
  {
    hide LifeStep, LifeEnabled, AddStep, AddEnabled, WorkStep, WorkEnabled;
    if a.Manager? { LifeStaysForPolicy(s, a.life, policy); } else { OnlyManagerManages(s, a); }
  }

  lemma LifeStaysForPolicy(s: State, op: LifeOp, policy: QueuePolicy)
    requires LifeEnabled(s, op) && ForPolicy(s.lifecycle, policy)
    requires !s.lifecycle.Free? || (op.CallSetPolicy? ==> op.policy == policy)
    ensures ForPolicy(LifeStep(s, op).lifecycle, policy)
  {
  }

  lemma PolicyStep(s: State, a: Action)
    requires Enabled(s, a) && a != Manager(LifeSetPolicy)
    ensures Step(s, a).policy == s.policy
  {
    hide LifeStep, LifeEnabled, AddStep, AddEnabled, WorkStep, WorkEnabled;
    if a.Manager? { LifePolicy(s, a.life); } else { OnlyManagerManages(s, a); }
  }

  lemma LifePolicy(s: State, op: LifeOp)
    requires LifeEnabled(s, op) && !op.LifeSetPolicy?
    ensures LifeStep(s, op).policy == s.policy
  {
    hide LifeMoved, LifeMoves;
    match op
    case LifeSwap =>
    case _ =>
  }

  lemma {:induction false} PolicyStays(trace: seq<State>, steps: seq<Action>, i: nat, j: nat)
    requires IsRun(trace, steps) && i <= j < |trace| && forall k | i <= k < j :: steps[k] != Manager(LifeSetPolicy)
    ensures trace[j].policy == trace[i].policy
  {
    hide Step, Enabled;
    if i < j {
      PolicyStays(trace, steps, i, j - 1);
      PolicyStep(trace[j - 1], steps[j - 1]);
    }
  }

  lemma {:induction false} ServesOnePolicy(trace: seq<State>, steps: seq<Action>, i: nat, j: nat, policy: QueuePolicy)
    requires IsRun(trace, steps) && i <= j < |trace| && ForPolicy(trace[i].lifecycle, policy)
    requires forall k | i <= k < j :: !trace[k].lifecycle.Free?
    ensures ForPolicy(trace[j].lifecycle, policy)
  {
    hide Step, Enabled;
    if i < j {
      ServesOnePolicy(trace, steps, i, j - 1, policy);
      StaysForPolicy(trace[j - 1], steps[j - 1], policy);
    }
  }

  /** `set_queue_policy` puts the policy it was called with in force, unless a stop is up, until the next change. */
  lemma PolicyFollowsTheCall(trace: seq<State>, steps: seq<Action>, i: nat, j: nat, n: nat, policy: QueuePolicy)
    requires IsRun(trace, steps) && i < j < n < |trace|
    requires steps[i] == Manager(CallSetPolicy(policy)) && steps[j] == Manager(LifeSetPolicy)
    requires forall k | i < k < j :: !trace[k].lifecycle.Free?
    requires forall k | j < k < n :: steps[k] != Manager(LifeSetPolicy)
    ensures trace[n].policy == if trace[j].stop then trace[j].policy else policy
  {
    assert trace[i + 1] == Step(trace[i], steps[i]) && trace[j + 1] == Step(trace[j], steps[j]);
    ServesOnePolicy(trace, steps, i + 1, j, policy);
    PolicyStays(trace, steps, j + 1, n);
  }

  // ---------------------------------------------------------------- the policy of a call

  /** If the call has loaded a policy, it is this one. */
  predicate HasLoaded(s: State, p: ThreadId, policy: QueuePolicy)
  {
    p in s.adders && (s.adders[p].CheckLimit? || s.adders[p].Pushing?) ==> s.adders[p].policy == policy
  }

  lemma AddStaysLoaded(s: State, q: ThreadId, op: AddOp, p: ThreadId, policy: QueuePolicy)
    requires AddEnabled(s, q, op) && s.policy == policy && HasLoaded(s, p, policy)
    ensures HasLoaded(AddStep(s, q, op), p, policy)
  {
    hide R.PushStep, R.CanPush, LimitReached;
  }

  lemma StaysLoaded(s: State, a: Action, p: ThreadId, policy: QueuePolicy)
    requires Enabled(s, a) && s.policy == policy && HasLoaded(s, p, policy)
    ensures HasLoaded(Step(s, a), p, policy)
  {
    hide AddStep, AddEnabled, WorkStep, WorkEnabled, LifeStep, LifeEnabled;
    if a.Producer? { AddStaysLoaded(s, a.p, a.add, p, policy); } else { OnlyProducersAdd(s, a); }
  }

  /** While one policy is in force, it is the policy that `add_task` works with. */
  lemma {:induction false} CallsUseThePolicyInForce(
    trace: seq<State>, steps: seq<Action>, i: nat, j: nat, p: ThreadId, policy: QueuePolicy)
    requires IsRun(trace, steps) && i <= j < |trace| && forall k | i <= k <= j :: trace[k].policy == policy
    requires HasLoaded(trace[i], p, policy)
    ensures HasLoaded(trace[j], p, policy)
  {
    hide Step, Enabled, HasLoaded;
    if i < j {
      CallsUseThePolicyInForce(trace, steps, i, j - 1, p, policy);
      StaysLoaded(trace[j - 1], steps[j - 1], p, policy);
    }
  }

  // ------------------------------------------------------------------------- overflow

  /** The push of ticket `t` has found the ring full. */
  ghost predicate PushFailed(s: State, p: ThreadId, t: Ticket)
  {
    && p in s.adders && s.adders[p].Pushing? && s.adders[p].ticket == t
    && p in s.ring.pushers && s.ring.pushers[p].pc == R.PushReturned(false)
  }

  /** It has done so in a call that loaded a dropping policy. */
  ghost predicate Overflowed(s: State, p: ThreadId, t: Ticket)
  {
    PushFailed(s, p, t) && !s.adders[p].policy.Block?
  }

  /** The ticket is on its way to being dropped, or is dropped. */
  ghost predicate Dropping(s: State, p: ThreadId, t: Ticket)
  {
    || Overflowed(s, p, t)
    || (p in s.adders && (s.adders[p] == CountDrop(t) || s.adders[p] == Settle(t, Dropped)))
    || (t in s.settled && s.settled[t] == Dropped)
  }

  lemma AddKeepsDropping(s: State, q: ThreadId, op: AddOp, p: ThreadId, t: Ticket)
    requires AddEnabled(s, q, op) && Dropping(s, p, t) && Extends(s.settled, AddStep(s, q, op).settled)
    ensures Dropping(AddStep(s, q, op), p, t)
  {
    hide R.PushStep, AddMoved;
    if op.AddPush? { R.PushTouches(s.ring, q, op.spurious); }
  }

  lemma WorkKeepsDropping(s: State, op: WorkOp, p: ThreadId, t: Ticket)
    requires WorkEnabled(s, op) && Dropping(s, p, t) && Extends(s.settled, WorkStep(s, op).settled)
    ensures Dropping(WorkStep(s, op), p, t)
  {
    hide R.PopStep, WorkMoved, AfterEmptyTest;
    if op.WorkPop? { R.PopTouches(s.ring, op.spurious); }
  }

  lemma LifeKeepsDropping(s: State, op: LifeOp, p: ThreadId, t: Ticket)
    requires Barrier(s) && LifeEnabled(s, op) && Dropping(s, p, t) && LifeStep(s, op).settled == s.settled
    ensures Dropping(LifeStep(s, op), p, t)
  {
    hide LifeMoved;
  }

  lemma StepKeepsDropping(s: State, a: Action, p: ThreadId, t: Ticket)
    requires Inv(s) && Enabled(s, a) && Dropping(s, p, t)
    ensures Dropping(Step(s, a), p, t)
  {
    BarrierHolds(s);
    hide Inv, Barrier, Dropping, Extends, AddStep, WorkStep, LifeStep, WaitStep, ResetStep;
    hide AddEnabled, WorkEnabled, LifeEnabled, WaitEnabled;
    match a
    case Producer(q, op) => AddKeepsSettled(s, q, op); AddKeepsDropping(s, q, op, p, t);
    case Worker(op) => WorkKeepsSettled(s, op); WorkKeepsDropping(s, op, p, t);
    case Manager(op) => LifeLeavesHistory(s, op); LifeKeepsDropping(s, op, p, t);
    case Waiter(w, op) => WaitKeepsDropping(s, w, op, p, t);
    case ResetDrops => ResetKeepsDropping(s, p, t);
  }

  lemma BarrierHolds(s: State)
    requires Inv(s)
    ensures Barrier(s)
  {
    hide Linked, Barrier, Flags, Active, Conserved, Ordered, Tickets, Reasons, QuietInv;
  }

  lemma WaitKeepsDropping(s: State, w: ThreadId, op: WaitOp, p: ThreadId, t: Ticket)
    requires WaitEnabled(s, w, op) && Dropping(s, p, t)
    ensures Dropping(WaitStep(s, w, op), p, t)
  {
  }

  lemma ResetKeepsDropping(s: State, p: ThreadId, t: Ticket)
    requires Dropping(s, p, t)
    ensures Dropping(ResetStep(s), p, t)
  {
  }

  lemma {:induction false} RunKeepsDropping(trace: seq<State>, steps: seq<Action>, i: nat, j: nat, p: ThreadId, t: Ticket)
    requires IsRun(trace, steps) && i <= j < |trace| && Dropping(trace[i], p, t)
    ensures Dropping(trace[j], p, t)
  {
    hide Step, Enabled, Dropping, Inv;
    if i < j {
      RunKeepsDropping(trace, steps, i, j - 1, p, t);
      RunKeepsInv(trace, steps, j - 1);
      StepKeepsDropping(trace[j - 1], steps[j - 1], p, t);
    }
  }

  /**
   Under a dropping policy a full ring costs the task: the ticket is never pushed again and never
   accepted, and if it is settled it is settled as dropped.
   */
  lemma OverflowIsDropped(trace: seq<State>, steps: seq<Action>, i: nat, j: nat, p: ThreadId, t: Ticket)
    requires IsRun(trace, steps) && i <= j < |trace| && PushFailed(trace[i], p, t) && !trace[i].adders[p].policy.Block?
    ensures t !in trace[j].Accepted()
    ensures t in trace[j].settled ==> trace[j].settled[t] == Dropped
    ensures t !in trace[j].settled ==>
              && p in trace[j].adders
              && (PushFailed(trace[j], p, t) || trace[j].adders[p] == CountDrop(t) || trace[j].adders[p] == Settle(t, Dropped))
  {
    hide IsRun;
    RunKeepsDropping(trace, steps, i, j, p, t);
    RunKeepsInv(trace, steps, j);
    DroppingIsApart(trace[j], p, t);
  }

  lemma DroppingIsApart(s: State, p: ThreadId, t: Ticket)
    requires Inv(s) && Dropping(s, p, t)
    ensures t !in s.Accepted() && (t in s.settled ==> s.settled[t] == Dropped)
  {
    hide Barrier, Flags, Active, Conserved, Ordered, Reasons, QuietInv, R.RingInv;
    if !(t in s.settled && s.settled[t] == Dropped) {
      assert Unclaimed(s, p);
    }
  }

  /** Step `k` ends a push of `t` that found the ring full in a call with a dropping policy. */
  ghost predicate Overflows(trace: seq<State>, steps: seq<Action>, k: nat, p: ThreadId, t: Ticket)
  {
    k < |steps| && k < |trace| && steps[k] == Producer(p, AddEndPush) && Overflowed(trace[k], p, t)
  }

  lemma AddStartsDropping(s: State, q: ThreadId, op: AddOp, p: ThreadId, t: Ticket)
    requires AddEnabled(s, q, op) && p in AddStep(s, q, op).adders && AddStep(s, q, op).adders[p] == CountDrop(t)
    requires !(p in s.adders && s.adders[p] == CountDrop(t))
    ensures q == p && op.AddEndPush? && Overflowed(s, p, t)
  {
    hide R.PushStep, R.CanPush, LimitReached;
  }

  lemma StartsDropping(s: State, a: Action, p: ThreadId, t: Ticket)
    requires Enabled(s, a) && p in Step(s, a).adders && Step(s, a).adders[p] == CountDrop(t)
    requires !(p in s.adders && s.adders[p] == CountDrop(t))
    ensures a == Producer(p, AddEndPush) && Overflowed(s, p, t)
  {
    hide AddStep, AddEnabled, WorkStep, WorkEnabled, LifeStep, LifeEnabled, Overflowed;
    if a.Producer? { AddStartsDropping(s, a.p, a.add, p, t); } else { OnlyProducersAdd(s, a); }
  }

  lemma {:induction false} CountedDropHasACause(trace: seq<State>, steps: seq<Action>, n: nat, p: ThreadId, t: Ticket)
    requires IsRun(trace, steps) && n < |trace| && p in trace[n].adders && trace[n].adders[p] == CountDrop(t)
    ensures exists k: nat :: k < n && Overflows(trace, steps, k, p, t)
  {
    hide Step, Enabled;
    if n == 0 {
      NoCallsAtStart(trace, steps);
    } else {
      var s, a := trace[n - 1], steps[n - 1];
      if p in s.adders && s.adders[p] == CountDrop(t) {
        CountedDropHasACause(trace, steps, n - 1, p, t);
      } else {
        StartsDropping(s, a, p, t);
        assert Overflows(trace, steps, n - 1, p, t);
      }
    }
  }

  lemma AddNewDrop(s: State, p: ThreadId, op: AddOp, t: Ticket)
    requires AddEnabled(s, p, op) && t in AddStep(s, p, op).drops && t !in s.drops
    ensures p in s.adders && s.adders[p] == CountDrop(t)
  {
    hide R.PushStep, R.CanPush, LimitReached, AddMoved, AfterPush;
  }

  lemma NewDrop(s: State, a: Action, t: Ticket)
    requires Enabled(s, a) && t in Step(s, a).drops && t !in s.drops
    ensures a.Producer? && a.p in s.adders && s.adders[a.p] == CountDrop(t)
  {
    hide AddStep, AddEnabled, WorkStep, WorkEnabled, LifeStep, LifeEnabled;
    if a.Producer? { AddNewDrop(s, a.p, a.add, t); } else { OnlyProducersAdd(s, a); }
  }

  /** Nothing else costs a task: every dropped ticket has found the ring full in a call with a dropping policy. */
  lemma {:induction false} DropHasACause(trace: seq<State>, steps: seq<Action>, n: nat, t: Ticket)
    requires IsRun(trace, steps) && n < |trace| && t in trace[n].drops
    ensures exists k: nat, p :: k < n && Overflows(trace, steps, k, p, t)
  {
    if n > 0 {
      var s, a := trace[n - 1], steps[n - 1];
      hide Step, Enabled, Overflows;
      if t in s.drops {
        DropHasACause(trace, steps, n - 1, t);
      } else {
        NewDrop(s, a, t);
        CountedDropHasACause(trace, steps, n - 1, a.p, t);
      }
    }
  }

  /** No call has asked for a dropping policy before step `n`. */
  ghost predicate OnlyBlockAsked(steps: seq<Action>, n: nat)
    requires n <= |steps|
  {
    forall k, policy | 0 <= k < n && steps[k] == Manager(CallSetPolicy(policy)) :: policy == Block
  }

  lemma {:induction false} BlockStaysInForce(trace: seq<State>, steps: seq<Action>, n: nat)
    requires IsRun(trace, steps) && n < |trace| && OnlyBlockAsked(steps, n)
    ensures trace[n].policy == Block && ForPolicy(trace[n].lifecycle, Block)
  {
    if n > 0 {
      BlockStaysInForce(trace, steps, n - 1);
      BlockStep(trace[n - 1], steps[n - 1]);
    }
  }

  lemma BlockStep(s: State, a: Action)
    requires Enabled(s, a) && s.policy == Block && ForPolicy(s.lifecycle, Block)
    requires forall policy :: a == Manager(CallSetPolicy(policy)) ==> policy == Block
    ensures Step(s, a).policy == Block && ForPolicy(Step(s, a).lifecycle, Block)
  {
    StaysForPolicy(s, a, Block);
    if a != Manager(LifeSetPolicy) { PolicyStep(s, a); }
  }

  /**
   `QueuePolicy::Block` never drops: on a run that asks for no other policy nothing is dropped, and
   every settled ticket has run, or was rejected because a shutdown has begun.
   */
  lemma BlockNeverDrops(trace: seq<State>, steps: seq<Action>, n: nat)
    requires IsRun(trace, steps) && n < |trace| && OnlyBlockAsked(steps, n)
    ensures trace[n].drops == {}
    ensures forall t | t in trace[n].settled ::
              trace[n].settled[t] == Executed || (trace[n].settled[t] == Rejected && trace[n].shutdownBegun)
  {
    forall k | 0 <= k <= n ensures trace[k].policy == Block { BlockStaysInForce(trace, steps, k); }
    RunKeepsInv(trace, steps, n);
    hide IsRun, Core, Conserved, Ordered, Tickets, DropsCounted, QuietInv;
    forall t | t in trace[n].drops ensures false {
      DropHasACause(trace, steps, n, t);
      var k: nat, p :| k < n && Overflows(trace, steps, k, p, t);
      assert HasLoaded(trace[0], p, Block) by { assert IsRun(trace, steps); NoCallsAtStart(trace, steps); }
      CallsUseThePolicyInForce(trace, steps, 0, k, p, Block);
    }
  }

  lemma NoCallsAtStart(trace: seq<State>, steps: seq<Action>)
    requires IsRun(trace, steps)
    ensures trace[0].adders == map[] && trace[0].submitted == 0
  {
  }

  // ------------------------------------------------------------------------- shutdown

  /** A call of `shutdown` is under way, or the worker is gone for good. */
  ghost predicate Ending(s: State)
  {
    s.lifecycle.ShutdownStop? || s.lifecycle.ShutdownJoin? || Dead(s)
  }

  lemma StaysEnding(s: State, a: Action)
    requires Flags(s) && Enabled(s, a) && Ending(s)
    ensures Ending(Step(s, a))
  {
    hide AddStep, WorkStep, LifeStep, AddEnabled, WorkEnabled, LifeEnabled, Flags;
    if Dead(s) {
      StaysDead(s, a);
    } else if a.Manager? {
      LifeStaysEnding(s, a.life);
    } else {
      OnlyManagerManages(s, a);
    }
  }

  lemma LifeStaysEnding(s: State, op: LifeOp)
    requires Flags(s) && LifeEnabled(s, op) && (s.lifecycle.ShutdownStop? || s.lifecycle.ShutdownJoin?)
    ensures Ending(LifeStep(s, op))
  {
  }

  lemma {:induction false} RunStaysEnding(trace: seq<State>, steps: seq<Action>, i: nat, j: nat)
    requires IsRun(trace, steps) && i < j < |trace| && steps[i] == Manager(CallShutdown)
    ensures Ending(trace[j])
  {
    if i + 1 < j {
      hide Step, Enabled, Ending, Inv;
      RunStaysEnding(trace, steps, i, j - 1);
      RunKeepsInv(trace, steps, j - 1);
      FlagsHold(trace[j - 1]);
      StaysEnding(trace[j - 1], steps[j - 1]);
    } else {
      assert trace[j] == Step(trace[i], steps[i]);
    }
  }

  /** When `shutdown` has returned, the worker is gone, then and ever after, and nothing runs any more. */
  lemma ShutdownEndsTheWorker(trace: seq<State>, steps: seq<Action>, i: nat, j: nat, n: nat)
    requires IsRun(trace, steps) && i < j <= n < |trace|
    requires steps[i] == Manager(CallShutdown) && trace[j].lifecycle.Free?
    ensures trace[n].worker.Exited? && trace[n].executed == trace[j].executed
  {
    hide IsRun;
    RunStaysEnding(trace, steps, i, j);
    ExitAfterShutdownIsFinal(trace, steps, j, n);
  }

  // ----------------------------------------------------------------- after a shutdown

  /** A reserved ticket from `first` on is at its stop check, on its way to rejection, or rejected. */
  ghost predicate Refused(s: State, first: nat)
  {
    && s.shutdownBegun && s.stop
    && forall t: Ticket | first <= t < s.submitted ::
         (t in s.settled && s.settled[t] == Rejected) || Refusing(s, t)
  }

  ghost predicate Refusing(s: State, t: Ticket)
  {
    exists p :: p in s.adders && (s.adders[p] == CheckStop(t) || s.adders[p] == Settle(t, Rejected))
  }

  lemma AddRefuses(s: State, p: ThreadId, op: AddOp, first: nat)
    requires AddEnabled(s, p, op) && Refused(s, first) && first <= s.submitted && Extends(s.settled, AddStep(s, p, op).settled)
    ensures Refused(AddStep(s, p, op), first)
  {
    hide R.PushStep, R.CanPush, AfterPush;
    var s' := AddStep(s, p, op);
    forall t: Ticket | first <= t < s'.submitted ensures (t in s'.settled && s'.settled[t] == Rejected) || Refusing(s', t) {
      if t < s.submitted && Refusing(s, t) {
        var q :| q in s.adders && (s.adders[q] == CheckStop(t) || s.adders[q] == Settle(t, Rejected));
        assert q != p ==> q in s'.adders && s'.adders[q] == s.adders[q];
        assert q == p && q in s'.adders ==> s'.adders[q] == s'.adders[p];
      } else if t == s.submitted {
        assert s'.adders[p] == CheckStop(t);
      }
    }
  }

  lemma StepRefuses(s: State, a: Action, first: nat)
    requires Inv(s) && Enabled(s, a) && Refused(s, first) && first <= s.submitted
    ensures Refused(Step(s, a), first) && first <= Step(s, a).submitted
  {
    StepKeepsSettled(s, a);
    FlagsHold(s);
    hide Inv;
    if a.Producer? {
      AddRefuses(s, a.p, a.add, first);
      AddKeepsSettings(s, a.p, a.add);
    } else {
      OnlyProducersAdd(s, a);
      StopStaysUp(s, a);
      assert forall t :: Refusing(s, t) ==> Refusing(Step(s, a), t);
    }
  }

  lemma StopStaysUp(s: State, a: Action)
    requires Flags(s) && Enabled(s, a) && s.shutdownBegun && s.stop
    ensures Step(s, a).shutdownBegun && Step(s, a).stop
  {
    hide AddStep, AddEnabled, WorkStep, WorkEnabled, LifeMoved;
    if !a.Manager? { OnlyManagerManages(s, a); }
  }

  lemma {:induction false} RunRefuses(trace: seq<State>, steps: seq<Action>, i: nat, j: nat)
    requires IsRun(trace, steps) && i <= j < |trace| && trace[i].shutdownBegun && trace[i].stop
    ensures Refused(trace[j], trace[i].submitted) && trace[i].submitted <= trace[j].submitted
  {
    hide Step, Enabled, Inv;
    if i < j {
      hide Refused;
      RunRefuses(trace, steps, i, j - 1);
      RunKeepsInv(trace, steps, j - 1);
      StepRefuses(trace[j - 1], steps[j - 1], trace[i].submitted);
    }
  }

  /**
   Once a shutdown has raised the stop flag no later submission is taken: a ticket reserved afterwards
   is never accepted, and if it is settled it is settled as rejected.
   */
  lemma LateTasksAreRejected(trace: seq<State>, steps: seq<Action>, i: nat, j: nat, t: Ticket)
    requires IsRun(trace, steps) && i <= j < |trace| && trace[i].shutdownBegun && trace[i].stop
    requires trace[i].submitted <= t < trace[j].submitted
    ensures t !in trace[j].Accepted() && (t in trace[j].settled ==> trace[j].settled[t] == Rejected)
  {
    hide IsRun;
    RunRefuses(trace, steps, i, j);
    RunKeepsInv(trace, steps, j);
    RefusedIsApart(trace[j], trace[i].submitted, t);
  }

  lemma RefusedIsApart(s: State, first: nat, t: Ticket)
    requires Inv(s) && Refused(s, first) && first <= t < s.submitted
    ensures t !in s.Accepted() && (t in s.settled ==> s.settled[t] == Rejected)
  {
    hide Barrier, Flags, Active, Conserved, Ordered, Reasons, QuietInv, R.RingInv;
    if Refusing(s, t) {
      var p :| p in s.adders && (s.adders[p] == CheckStop(t) || s.adders[p] == Settle(t, Rejected));
      assert Unclaimed(s, p);
    }
  }
}
