/** What every run of the task executor promises to the threads that use it. */
module TaskExecutorRuns {
  import opened TaskExecutor
  import opened TaskExecutorSafety
  import R = MpscRing

  /** An interleaving from the freshly constructed executor. */
  ghost predicate IsRun(trace: seq<State>, steps: seq<Action>)
  {
    && |trace| == |steps| + 1
    && trace[0] == Init
    && forall i | 0 <= i < |steps| :: Enabled(trace[i], steps[i]) && trace[i + 1] == Step(trace[i], steps[i])
  }

  lemma {:induction false} RunKeepsInv(trace: seq<State>, steps: seq<Action>, n: nat)
    requires IsRun(trace, steps) && n < |trace|
    ensures Inv(trace[n])
  {
    hide Inv, Step;
    if n == 0 {
      InitInv();
    } else {
      RunKeepsInv(trace, steps, n - 1);
      StepKeepsInv(trace[n - 1], steps[n - 1]);
    }
  }

  ghost predicate Reachable(s: State)
  {
    exists trace: seq<State>, steps: seq<Action> :: IsRun(trace, steps) && trace[|steps|] == s
  }

  lemma Extend(trace: seq<State>, steps: seq<Action>, a: Action)
    requires IsRun(trace, steps) && Enabled(trace[|steps|], a)
    ensures IsRun(trace + [Step(trace[|steps|], a)], steps + [a])
  {
    hide Step, Enabled;
    var trace', steps' := trace + [Step(trace[|steps|], a)], steps + [a];
    forall i | 0 <= i < |steps'|
      ensures Enabled(trace'[i], steps'[i]) && trace'[i + 1] == Step(trace'[i], steps'[i])
    {
      if i < |steps| {
        assert trace'[i] == trace[i] && trace'[i + 1] == trace[i + 1] && steps'[i] == steps[i];
      }
    }
  }

  lemma Continue(s: State, a: Action, s': State)
    requires Reachable(s) && Enabled(s, a) && s' == Step(s, a)
    ensures Reachable(s')
  {
    hide Step, Enabled;
    var trace: seq<State>, steps: seq<Action> :| IsRun(trace, steps) && trace[|steps|] == s;
    Extend(trace, steps, a);
    assert (trace + [s'])[|steps + [a]|] == s';
  }

  /** Some run passes through `b` and then reaches `s`. */
  ghost predicate ReachableThrough(b: State, s: State)
  {
    exists trace: seq<State>, steps: seq<Action>, m: nat ::
      IsRun(trace, steps) && m <= |steps| && trace[m] == b && trace[|steps|] == s
  }

  lemma PassThrough(b: State)
    requires Reachable(b)
    ensures ReachableThrough(b, b)
  {
    hide Step, Enabled;
    var trace: seq<State>, steps: seq<Action> :| IsRun(trace, steps) && trace[|steps|] == b;
    assert trace[|steps|] == b;
  }

  lemma ContinueThrough(b: State, s: State, a: Action, s': State)
    requires ReachableThrough(b, s) && Enabled(s, a) && s' == Step(s, a)
    ensures ReachableThrough(b, s')
  {
    hide Step, Enabled;
    var trace: seq<State>, steps: seq<Action>, m: nat :|
      IsRun(trace, steps) && m <= |steps| && trace[m] == b && trace[|steps|] == s;
    Extend(trace, steps, a);
    assert (trace + [s'])[m] == b && (trace + [s'])[|steps + [a]|] == s';
  }

  lemma InitReachable()
    ensures Reachable(Init)
  {
    var none: seq<Action> := [];
    assert IsRun([Init], none) && [Init][|none|] == Init;
  }

  /**
   Ticket conservation: in every reachable state, the reserved tickets are the settled ones,
   those held inside `add_task`, those published in the ring and the one in the worker's hands.
   */
  lemma TicketConservation(trace: seq<State>, steps: seq<Action>, n: nat)
    requires IsRun(trace, steps) && n < |trace|
    ensures trace[n].ring.Capacity() > 0
    ensures trace[n].submitted == trace[n].completed + |Holding(trace[n])| + |R.Published(trace[n].ring)|
                                  + (if trace[n].WorkerHolds() then 1 else 0)
  {
    hide IsRun, Core, Ordered, Tickets, Reasons;
    RunKeepsInv(trace, steps, n);
  }

  /**
   What ran is a prefix of what was accepted, over all the rings a run goes through, and no
   ticket is accepted, hence run, twice.
   */
  lemma RunsInAcceptanceOrder(trace: seq<State>, steps: seq<Action>, n: nat)
    requires IsRun(trace, steps) && n < |trace|
    ensures trace[n].executed <= trace[n].Accepted()
    ensures forall i, j | 0 <= i < j < |trace[n].Accepted()| :: trace[n].Accepted()[i] != trace[n].Accepted()[j]
  {
    hide IsRun, Core, Conserved, Reasons;
    RunKeepsInv(trace, steps, n);
  }

  /**
   Each ticket is settled once and for good: the counter counts the settled tickets, the settled
   ones keep their outcome, executed ones ran and dropped or rejected ones never do.
   */
  lemma {:induction false} SettledOnceForGood(trace: seq<State>, steps: seq<Action>, i: nat, j: nat)
    requires IsRun(trace, steps) && i <= j < |trace|
    ensures |trace[j].settled| == trace[j].completed
    ensures forall t | t in trace[i].settled :: t in trace[j].settled && trace[j].settled[t] == trace[i].settled[t]
    ensures forall t | t in trace[i].settled ::
              if trace[i].settled[t] == Executed then t in trace[j].executed else t !in trace[j].executed
  {
    hide Inv, Step, Enabled;
    RunKeepsInv(trace, steps, j);
    OutcomeMatchesExecution(trace[j]);
    if i < j {
      SettledOnceForGood(trace, steps, i, j - 1);
      RunKeepsInv(trace, steps, j - 1);
      StepKeepsSettled(trace[j - 1], steps[j - 1]);
    }
  }

  lemma OutcomeMatchesExecution(s: State)
    requires Inv(s)
    ensures |s.settled| == s.completed
    ensures forall t | t in s.settled :: s.settled[t] == Executed <==> t in s.executed
  {
    hide Core, Conserved;
  }

  ghost predicate Extends(before: map<Ticket, Outcome>, after: map<Ticket, Outcome>)
  {
    forall t | t in before :: t in after && after[t] == before[t]
  }

  lemma AddKeepsSettled(s: State, p: ThreadId, op: AddOp)
    requires Inv(s) && AddEnabled(s, p, op)
    ensures Extends(s.settled, AddStep(s, p, op).settled)
  {
    hide Linked, Barrier, Flags, Conserved, Ordered, Reasons, AcceptedApart, R.PushStep;
    if op.AddSettle? {
      UnclaimedSettler(s, p);
    }
  }

  lemma WorkKeepsSettled(s: State, op: WorkOp)
    requires Inv(s) && WorkEnabled(s, op)
    ensures Extends(s.settled, WorkStep(s, op).settled)
  {
    hide Linked, Barrier, Flags, Conserved, Reasons, HeldApart, R.PopStep;
  }

  lemma StepKeepsSettled(s: State, a: Action)
    requires Inv(s) && Enabled(s, a)
    ensures Extends(s.settled, Step(s, a).settled)
  {
    hide Inv, AddStep, WorkStep, LifeStep, AddEnabled, WorkEnabled, LifeEnabled;
    match a
    case Producer(p, op) => AddKeepsSettled(s, p, op);
    case Worker(op) => WorkKeepsSettled(s, op);
    case Manager(op) => LifeLeavesHistory(s, op);
    case Waiter(w, op) =>
    case ResetDrops =>
  }

  lemma UnclaimedSettler(s: State, p: ThreadId)
    requires Linked(s) && p in s.adders && s.adders[p].Settle?
    ensures Unclaimed(s, p)
  {
    hide R.RingInv;
  }

  /**
   The guarantee of `wait`: unless a shutdown has begun, at the instant a call of `wait` ends,
   whichever way it ends, every ticket reserved until then is settled, by running or by a
   counted drop.
   */
  lemma WaitGuarantee(trace: seq<State>, steps: seq<Action>, n: nat, w: ThreadId)
    requires IsRun(trace, steps) && n < |steps| && steps[n] == Waiter(w, WaitReturn)
    requires !trace[n].shutdownBegun
    ensures forall t: Ticket | t < trace[n].submitted ::
              t in trace[n].settled && (trace[n].settled[t] == Executed || (trace[n].settled[t] == Dropped && t in trace[n].drops))
    ensures forall t: Ticket | t < trace[n].submitted && t !in trace[n].drops :: t in trace[n].executed
  {
    RunKeepsInv(trace, steps, n);
    var s := trace[n];
    CountersMeetAtReturn(s, w);
    AllSettled(s);
    OutcomesWithoutShutdown(s);
  }

  lemma CountersMeetAtReturn(s: State, w: ThreadId)
    requires Inv(s) && WaitEnds(s, w) && !s.shutdownBegun
    ensures s.completed == s.submitted
  {
    hide R.RingInv, R.Published, Tickets, Ordered, Reasons;
    if s.completed >= s.submitted {
      MeetingCounters(s);
    }
  }

  /** When the counters meet, every reserved ticket is among the settled ones. */
  lemma AllSettled(s: State)
    requires SettledOnce(s) && s.completed == s.submitted
    ensures forall t: Ticket | t < s.submitted :: t in s.settled
  {
    assert s.settled.Keys <= Below(s.submitted);
    SubsetOfSameSize(s.settled.Keys, Below(s.submitted));
  }

  ghost function Below(n: nat): (all: set<nat>)
    ensures |all| == n
    ensures forall t: nat :: t in all <==> t < n
  {
    if n == 0 then {} else Below(n - 1) + {n - 1}
  }

  lemma SubsetOfSameSize(a: set<nat>, b: set<nat>)
    requires a <= b && |a| == |b|
    ensures a == b
  {
    if x :| x in b && x !in a {
      assert |b - {x}| == |b| - 1;
      SubsetSize(a, b - {x});
    }
  }

  lemma {:induction false} SubsetSize(a: set<nat>, b: set<nat>)
    requires a <= b
    ensures |a| <= |b|
  {
    if x :| x in a {
      SubsetSize(a - {x}, b - {x});
    }
  }

  lemma OutcomesWithoutShutdown(s: State)
    requires Inv(s) && !s.shutdownBegun
    ensures forall t | t in s.settled ::
              (s.settled[t] == Executed && t in s.executed) || (s.settled[t] == Dropped && t in s.drops)
  {
    hide Core, Conserved, Ordered, Tickets, QuietInv;
  }

  /**
   Hot resize loses nothing: when the ring is replaced nobody is past the barrier, the worker is
   gone, no cell is claimed, every ticket is settled and every accepted task has run; and the
   replacement itself forgets none of it.
   */
  lemma ResizeLosesNothing(trace: seq<State>, steps: seq<Action>, n: nat)
    requires IsRun(trace, steps) && n < |steps| && steps[n] == Manager(LifeSwap)
    ensures NoneEntered(trace[n]) && trace[n].worker.Exited?
    ensures trace[n].ring.enqueuePos == |trace[n].ring.popped|
    ensures trace[n].completed == trace[n].submitted && trace[n].executed == trace[n].Accepted()
    ensures trace[n + 1].Accepted() == trace[n].Accepted() && trace[n + 1].settled == trace[n].settled
  {
    hide R.RingInv, R.Published, Tickets, Reasons;
    RunKeepsInv(trace, steps, n);
    SwapFindsNothing(trace[n]);
    LifeKeepsOrdered(trace[n], LifeSwap);
  }

  /** Only the replacement step of a resize touches the queue, the limit or the tickets. */
  lemma OnlySwapTouchesQueue(s: State, op: LifeOp)
    requires LifeEnabled(s, op) && !op.LifeSwap?
    ensures var s' := LifeStep(s, op);
            && s'.ring == s.ring && s'.limit == s.limit && s'.earlier == s.earlier
            && s'.submitted == s.submitted && s'.completed == s.completed && s'.settled == s.settled
  {
  }

  /** Stages of a resize before the point of no return. */
  predicate BeforeSwap(pc: LifecyclePc)
  {
    || pc.ResizeCheck? || pc.RaiseBarrier? || pc.AwaitProducers? || pc.LoadTarget? || pc.AwaitTarget?
    || pc.IdleStop? || pc.IdleTest? || pc.Abort?
  }

  /** A resize that gives up has not replaced the ring and has not changed the limit. */
  lemma {:induction false} AbortedResizeChangesNothing(trace: seq<State>, steps: seq<Action>, i: nat, j: nat)
    requires IsRun(trace, steps) && i <= j < |trace|
    requires trace[i].lifecycle.ResizeCheck? && BeforeSwap(trace[j].lifecycle)
    requires forall k | i <= k <= j :: !trace[k].lifecycle.Free?
    ensures trace[j].limit == trace[i].limit && trace[j].earlier == trace[i].earlier
    ensures trace[j].ring.Capacity() == trace[i].ring.Capacity()
    ensures trace[i].ring.claimed <= trace[j].ring.claimed && trace[i].ring.popped <= trace[j].ring.popped
  {
    hide Step, Enabled, BeforeSwap;
    if i < j {
      StageBefore(trace[j - 1], steps[j - 1]);
      AbortedResizeChangesNothing(trace, steps, i, j - 1);
    }
  }

  /** The same queue in place: tasks may have passed through it, but it was not replaced. */
  ghost predicate SameQueue(s: State, s': State)
  {
    && s'.limit == s.limit && s'.earlier == s.earlier && s'.ring.Capacity() == s.ring.Capacity()
    && s.ring.claimed <= s'.ring.claimed && s.ring.popped <= s'.ring.popped
  }

  lemma AddKeepsQueue(s: State, p: ThreadId, op: AddOp)
    requires AddEnabled(s, p, op)
    ensures SameQueue(s, AddStep(s, p, op)) && AddStep(s, p, op).lifecycle == s.lifecycle
  {
    hide R.PushStep;
    if op.AddPush? { R.PushTouches(s.ring, p, op.spurious); }
  }

  lemma WorkKeepsQueue(s: State, op: WorkOp)
    requires WorkEnabled(s, op)
    ensures SameQueue(s, WorkStep(s, op)) && WorkStep(s, op).lifecycle == s.lifecycle
  {
    hide R.PopStep;
    if op.WorkPop? { R.PopTouches(s.ring, op.spurious); }
  }

  lemma LifeStageBefore(s: State, op: LifeOp)
    requires LifeEnabled(s, op) && !s.lifecycle.Free? && BeforeSwap(LifeStep(s, op).lifecycle)
    ensures BeforeSwap(s.lifecycle) && SameQueue(s, LifeStep(s, op))
  {
  }

  lemma StageBefore(s: State, a: Action)
    requires Enabled(s, a) && !s.lifecycle.Free? && BeforeSwap(Step(s, a).lifecycle)
    ensures BeforeSwap(s.lifecycle) && SameQueue(s, Step(s, a))
  {
    hide AddStep, WorkStep, LifeStep, BeforeSwap, SameQueue, AddEnabled, WorkEnabled, LifeEnabled;
    match a
    case Producer(p, op) => AddKeepsQueue(s, p, op);
    case Worker(op) => WorkKeepsQueue(s, op);
    case Manager(op) => LifeStageBefore(s, op);
    case Waiter(w, op) => WaitKeepsQueue(s, w, op);
    case ResetDrops => ResetKeepsQueue(s);
  }

  lemma ResetKeepsQueue(s: State)
    ensures SameQueue(s, ResetStep(s)) && ResetStep(s).lifecycle == s.lifecycle
  {
  }

  lemma WaitKeepsQueue(s: State, w: ThreadId, op: WaitOp)
    requires WaitEnabled(s, w, op)
    ensures SameQueue(s, WaitStep(s, w, op)) && WaitStep(s, w, op).lifecycle == s.lifecycle
  {
  }

  /** No submission is ever rejected because of the stop flag a resize raises. */
  lemma ResizeNeverRejects(trace: seq<State>, steps: seq<Action>, n: nat, t: Ticket)
    requires IsRun(trace, steps) && n < |trace| && t in trace[n].settled && trace[n].settled[t] == Rejected
    ensures trace[n].shutdownBegun
  {
    hide Core, Conserved, Ordered, Tickets;
    RunKeepsInv(trace, steps, n);
  }

  lemma {:induction false} QuietSinceTest(trace: seq<State>, steps: seq<Action>, m: nat, n: nat)
    requires IsRun(trace, steps) && m < n < |trace| && steps[m] == Worker(WorkTestEmpty)
    requires forall k | m < k < n :: steps[k] != Worker(WorkTestEmpty)
    requires forall k | m <= k <= n :: NoneEntered(trace[k])
    ensures trace[n].quiet
  {
    hide Step, Enabled, NoneEntered;
    if n == m + 1 {
      TestSetsQuiet(trace[m]);
    } else {
      QuietSinceTest(trace, steps, m, n - 1);
      assert trace[n] == Step(trace[n - 1], steps[n - 1]) && NoneEntered(trace[n]);
      StaysQuiet(trace[n - 1], steps[n - 1]);
    }
  }

  lemma TestSetsQuiet(s: State)
    requires Enabled(s, Worker(WorkTestEmpty)) && NoneEntered(s)
    ensures Step(s, Worker(WorkTestEmpty)).quiet
  {
  }

  lemma StaysQuiet(s: State, a: Action)
    requires Enabled(s, a) && s.quiet && a != Worker(WorkTestEmpty) && NoneEntered(Step(s, a))
    ensures Step(s, a).quiet
  {
    hide AddStep, WorkStep, LifeStep, NoneEntered, AddEnabled, WorkEnabled, LifeEnabled;
    match a
    case Producer(p, op) => AddStaysQuiet(s, p, op);
    case Worker(op) => WorkStaysQuiet(s, op);
    case Manager(op) => LifeLeavesHistory(s, op);
    case Waiter(w, op) =>
    case ResetDrops =>
  }

  lemma AddStaysQuiet(s: State, p: ThreadId, op: AddOp)
    requires AddEnabled(s, p, op) && NoneEntered(AddStep(s, p, op))
    ensures AddStep(s, p, op).quiet == s.quiet
  {
    hide R.PushStep;
    if op.AddEnter? { assert AddStep(s, p, op).adders[p].Entered(); }
  }

  lemma WorkStaysQuiet(s: State, op: WorkOp)
    requires WorkEnabled(s, op) && !op.WorkTestEmpty?
    ensures WorkStep(s, op).quiet == s.quiet
  {
    hide R.PopStep;
  }

  lemma LifeLeavesHistory(s: State, op: LifeOp)
    requires LifeEnabled(s, op)
    ensures LifeStep(s, op).quiet == s.quiet && LifeStep(s, op).settled == s.settled
  {
  }

  /**
   Draining at shutdown: if nobody is past the barrier from the worker's last emptiness test to its
   exit, the exit leaves an empty ring, every ticket settled and every accepted task run.
   */
  lemma ExitDrains(trace: seq<State>, steps: seq<Action>, m: nat, n: nat)
    requires IsRun(trace, steps) && m < n < |trace| && steps[m] == Worker(WorkTestEmpty)
    requires forall k | m < k < n :: steps[k] != Worker(WorkTestEmpty)
    requires forall k | m <= k <= n :: NoneEntered(trace[k])
    requires trace[n].worker.Exited?
    ensures trace[n].ring.enqueuePos == |trace[n].ring.popped|
    ensures trace[n].completed == trace[n].submitted && trace[n].executed == trace[n].Accepted()
  {
    QuietSinceTest(trace, steps, m, n);
    RunKeepsInv(trace, steps, n);
    ExitedQuietly(trace[n]);
  }

  lemma ExitedQuietly(s: State)
    requires Inv(s) && s.quiet && s.worker.Exited?
    ensures s.ring.enqueuePos == |s.ring.popped| && s.completed == s.submitted && s.executed == s.Accepted()
  {
    hide Barrier, Conserved, Tickets, Reasons;
    ClaimCount(s);
  }

  lemma ClaimCount(s: State)
    requires Linked(s)
    ensures |s.ring.claimed| == s.ring.enqueuePos
  {
  }

  // ------------------------------------------- exactly when an exit drains

  /** This step is a successful claim of a ring cell. */
  ghost predicate Claims(s: State, a: Action)
  {
    && a.Producer? && a.add == AddPush(false) && a.p in s.ring.pushers
    && s.ring.pushers[a.p].pc == R.ClaimTail(s.ring.enqueuePos)
  }

  /** Some producer has claimed a cell and not published it. */
  ghost predicate ClaimPending(s: State)
  {
    exists p :: p in s.ring.pushers && (s.ring.pushers[p].pc.Construct? || s.ring.pushers[p].pc.Publish?)
  }

  /** The worker is between an emptiness test that succeeded and its exit. */
  predicate OnTheWayOut(pc: WorkerPc) { pc.TestActive? || pc.TestStop? || pc.Exited? }

  lemma AddAccepts(s: State, p: ThreadId, op: AddOp)
    requires AddEnabled(s, p, op)
    ensures AddStep(s, p, op).executed == s.executed && AddStep(s, p, op).worker == s.worker
    ensures if Claims(s, Producer(p, op)) then |AddStep(s, p, op).Accepted()| == |s.Accepted()| + 1
            else AddStep(s, p, op).Accepted() == s.Accepted()
  {
    hide R.PushStep;
    if op.AddPush? { R.PushTouches(s.ring, p, op.spurious); }
  }

  lemma WorkAccepts(s: State, op: WorkOp)
    requires WorkEnabled(s, op) && !op.WorkTestEmpty? && OnTheWayOut(WorkStep(s, op).worker)
    ensures OnTheWayOut(s.worker) && WorkStep(s, op).executed == s.executed
    ensures WorkStep(s, op).Accepted() == s.Accepted()
  {
    hide R.PopStep;
  }

  lemma LifeAccepts(s: State, op: LifeOp)
    requires Inv(s) && LifeEnabled(s, op) && OnTheWayOut(LifeStep(s, op).worker)
    ensures OnTheWayOut(s.worker) && LifeStep(s, op).executed == s.executed
    ensures LifeStep(s, op).Accepted() == s.Accepted()
  {
    hide R.RingInv, Tickets, Reasons;
    LifeKeepsOrdered(s, op);
  }

  lemma StepAccepts(s: State, a: Action)
    requires Inv(s) && Enabled(s, a) && a != Worker(WorkTestEmpty) && OnTheWayOut(Step(s, a).worker)
    ensures OnTheWayOut(s.worker) && Step(s, a).executed == s.executed
    ensures if Claims(s, a) then |Step(s, a).Accepted()| == |s.Accepted()| + 1
            else Step(s, a).Accepted() == s.Accepted()
  {
    hide Inv, AddStep, WorkStep, LifeStep, AddEnabled, WorkEnabled, LifeEnabled, WaitStep, OnTheWayOut;
    assert a.Producer? || !Claims(s, a);
    hide Claims;
    match a
    case Producer(p, op) => AddAccepts(s, p, op);
    case Worker(op) => WorkAccepts(s, op);
    case Manager(op) => LifeAccepts(s, op);
    case Waiter(w, op) => WaitAccepts(s, w, op);
    case ResetDrops => assert ResetStep(s).Accepted() == s.Accepted();
  }

  lemma WaitAccepts(s: State, w: ThreadId, op: WaitOp)
    requires WaitEnabled(s, w, op)
    ensures var s' := WaitStep(s, w, op);
            s'.worker == s.worker && s'.executed == s.executed && s'.Accepted() == s.Accepted()
  {
  }

  lemma {:induction false} SinceLastTest(trace: seq<State>, steps: seq<Action>, m: nat, n: nat)
    requires IsRun(trace, steps) && m < n < |trace|
    requires forall k | m < k < n :: steps[k] != Worker(WorkTestEmpty)
    requires OnTheWayOut(trace[n].worker)
    ensures OnTheWayOut(trace[m + 1].worker) && trace[n].executed == trace[m + 1].executed
    ensures if forall k | m < k < n :: !Claims(trace[k], steps[k]) then trace[n].Accepted() == trace[m + 1].Accepted()
            else |trace[n].Accepted()| > |trace[m + 1].Accepted()|
    ensures |trace[n].Accepted()| >= |trace[m + 1].Accepted()|
  {
    hide Inv, Step, Enabled, Claims;
    if n > m + 1 {
      RunKeepsInv(trace, steps, n - 1);
      StepAccepts(trace[n - 1], steps[n - 1]);
      SinceLastTest(trace, steps, m, n - 1);
    }
  }

  /** At a successful emptiness test, everything accepted has run unless a claim is pending. */
  lemma AtSuccessfulTest(s: State)
    requires Inv(s) && WorkEnabled(s, WorkTestEmpty) && R.HeadEmpty(s.ring)
    ensures s.executed == s.Accepted() <==> !ClaimPending(s)
  {
    hide Tickets, Reasons, Conserved;
    var r := s.ring;
    R.HeadCell(r);
    assert s.executed == s.Accepted()[..s.Taken()];
    if r.dequeuePos == r.enqueuePos {
      forall p | p in r.pushers ensures !r.pushers[p].pc.Construct? && !r.pushers[p].pc.Publish? {
        assert R.PusherInv(r, p);
      }
    } else {
      assert r.owners[r.dequeuePos] in r.pushers;
      assert |s.executed| < |s.Accepted()|;
    }
  }

  /**
   The exact condition.  The worker's exit leaves every accepted task run if and only if no claim
   was pending at its last emptiness test and no cell was claimed since.
   */
  lemma ExitDrainsExactlyWhen(trace: seq<State>, steps: seq<Action>, m: nat, n: nat)
    requires IsRun(trace, steps) && m < n < |trace| && steps[m] == Worker(WorkTestEmpty)
    requires forall k | m < k < n :: steps[k] != Worker(WorkTestEmpty)
    requires trace[n].worker.Exited?
    ensures trace[n].executed == trace[n].Accepted() <==>
              !ClaimPending(trace[m]) && forall k | m < k < n :: !Claims(trace[k], steps[k])
  {
    hide Inv, Step, Enabled, Claims, ClaimPending;
    SinceLastTest(trace, steps, m, n);
    RunKeepsInv(trace, steps, m);
    RunKeepsInv(trace, steps, n);
    TestStepKeeps(trace[m]);
    AtSuccessfulTest(trace[m]);
    PrefixLength(trace[m]);
  }

  lemma TestStepKeeps(s: State)
    requires Enabled(s, Worker(WorkTestEmpty))
    ensures WorkEnabled(s, WorkTestEmpty)
    ensures var s' := Step(s, Worker(WorkTestEmpty));
            && s'.executed == s.executed && s'.Accepted() == s.Accepted()
            && (OnTheWayOut(s'.worker) ==> R.HeadEmpty(s.ring))
  {
  }

  lemma PrefixLength(s: State)
    requires Inv(s)
    ensures |s.executed| <= |s.Accepted()|
  {
    hide Core, Conserved, Tickets, Reasons;
  }

  // ------------------------------------------------------- after the last exit

  /** The worker is gone and a shutdown has begun, so that nothing starts another. */
  ghost predicate Dead(s: State)
  {
    s.shutdownBegun && s.worker.Exited?
  }

  lemma LifeStaysDead(s: State, op: LifeOp)
    requires Flags(s) && Dead(s) && LifeEnabled(s, op)
    ensures var s' := LifeStep(s, op); Dead(s') && s'.executed == s.executed && s'.Accepted() == s.Accepted()
  {
  }

  lemma AddStaysDead(s: State, p: ThreadId, op: AddOp)
    requires Dead(s) && AddEnabled(s, p, op)
    ensures var s' := AddStep(s, p, op); Dead(s') && s'.executed == s.executed && s.Accepted() <= s'.Accepted()
  {
    hide R.PushStep;
    AddKeepsQueue(s, p, op);
  }

  lemma NoStepAfterExit(s: State)
    requires s.worker.Exited?
    ensures forall op: WorkOp :: !WorkEnabled(s, op)
  {
  }

  lemma StaysDead(s: State, a: Action)
    requires Flags(s) && Dead(s) && Enabled(s, a)
    ensures var s' := Step(s, a); Dead(s') && s'.executed == s.executed && s.Accepted() <= s'.Accepted()
  {
    NoStepAfterExit(s);
    hide AddStep, WorkStep, LifeStep, AddEnabled, WorkEnabled, LifeEnabled, Flags;
    match a
    case Producer(p, op) => AddStaysDead(s, p, op);
    case Manager(op) => LifeStaysDead(s, op);
    case Waiter(w, op) =>
    case ResetDrops =>
    case Worker(op) =>
  }

  lemma FlagsHold(s: State)
    requires Inv(s)
    ensures Flags(s)
  {
    hide Linked, Barrier, Flags, Active, Conserved, Ordered, Tickets, Reasons, QuietInv;
  }

  lemma NeverSettled(s: State)
    requires Inv(s)
    ensures forall t | t in s.Accepted() && t !in s.executed :: t !in s.settled
  {
    hide Core, Conserved, Ordered, DropsCounted, QuietInv;
  }

  /**
   The exit after a shutdown is final: on every continuation nothing runs any more, and an accepted
   task that had not run by then is never settled.
   */
  lemma {:induction false} ExitAfterShutdownIsFinal(trace: seq<State>, steps: seq<Action>, i: nat, j: nat)
    requires IsRun(trace, steps) && i <= j < |trace|
    requires trace[i].shutdownBegun && trace[i].worker.Exited?
    ensures trace[j].shutdownBegun && trace[j].worker.Exited? && trace[j].executed == trace[i].executed
    ensures trace[i].Accepted() <= trace[j].Accepted()
    ensures forall t | t in trace[i].Accepted() && t !in trace[i].executed :: t !in trace[j].settled
  {
    hide Step, Enabled, Core, Ordered, Tickets, SettleReasons, DropsCounted, Conserved, QuietInv;
    if i < j {
      ExitAfterShutdownIsFinal(trace, steps, i, j - 1);
      RunKeepsInv(trace, steps, j - 1);
      FlagsHold(trace[j - 1]);
      StaysDead(trace[j - 1], steps[j - 1]);
    }
    RunKeepsInv(trace, steps, j);
    NeverSettled(trace[j]);
  }

  // ------------------------------------------------------------ the drop counter

  lemma AddForgets(s: State, p: ThreadId, op: AddOp)
    requires AddEnabled(s, p, op)
    ensures AddStep(s, p, op).forgotten == s.forgotten
  {
    hide R.PushStep, AddMoved, AfterPush;
  }

  lemma WorkForgets(s: State, op: WorkOp)
    requires WorkEnabled(s, op)
    ensures WorkStep(s, op).forgotten == s.forgotten
  {
    hide R.PopStep;
  }

  lemma LifeForgets(s: State, op: LifeOp)
    requires LifeEnabled(s, op)
    ensures LifeStep(s, op).forgotten == s.forgotten
  {
  }

  lemma WaitForgets(s: State, w: ThreadId, op: WaitOp)
    requires WaitEnabled(s, w, op)
    ensures WaitStep(s, w, op).forgotten == s.forgotten
  {
  }

  lemma StepForgets(s: State, a: Action)
    requires Enabled(s, a) && !a.ResetDrops?
    ensures Step(s, a).forgotten == s.forgotten
  {
    hide AddStep, AddEnabled, WorkStep, WorkEnabled, LifeStep, LifeEnabled, WaitStep, WaitEnabled;
    match a
    case Producer(p, op) => AddForgets(s, p, op);
    case Worker(op) => WorkForgets(s, op);
    case Manager(op) => LifeForgets(s, op);
    case Waiter(w, op) => WaitForgets(s, w, op);
  }

  lemma {:induction false} NothingForgotten(trace: seq<State>, steps: seq<Action>, m: nat, n: nat)
    requires IsRun(trace, steps) && m <= n < |trace| && forall k | m <= k < n :: !steps[k].ResetDrops?
    ensures trace[n].forgotten == trace[m].forgotten
  {
    hide Step, Enabled;
    if m < n {
      NothingForgotten(trace, steps, m, n - 1);
      StepForgets(trace[n - 1], steps[n - 1]);
    }
  }

  /** Between two resets the drop counter grows by exactly the tickets that are dropped, and a reset starts it at zero. */
  lemma DropCounterCountsDrops(trace: seq<State>, steps: seq<Action>, m: nat, n: nat)
    requires IsRun(trace, steps) && m <= n < |trace| && forall k | m < k < n :: !steps[k].ResetDrops?
    ensures m < n && steps[m].ResetDrops? ==> trace[n].dropped == |trace[n].drops| - |trace[m].drops|
    ensures !(m < n && steps[m].ResetDrops?) ==> trace[n].dropped - trace[m].dropped == |trace[n].drops| - |trace[m].drops|
  {
    hide Core, Conserved, Ordered, Tickets, SettleReasons, QuietInv;
    RunKeepsInv(trace, steps, m);
    RunKeepsInv(trace, steps, n);
    if m < n && steps[m].ResetDrops? {
      assert trace[m + 1] == ResetStep(trace[m]);
      NothingForgotten(trace, steps, m + 1, n);
    } else {
      hide Step, Enabled;
      NothingForgotten(trace, steps, m, n);
    }
  }

  // ------------------------------------------------------- draining by `wait`

  /** When the counters meet, everything accepted has run. */
  lemma MetMeansRun(s: State)
    requires Inv(s) && s.completed == s.submitted
    ensures s.executed == s.Accepted()
  {
    hide Core, Reasons, QuietInv, QuiescedInv;
    AllSettled(s);
    if s.Accepted() != [] {
      assert s.Accepted()[|s.Accepted()| - 1] in s.settled;
    }
  }

  lemma AddCounts(s: State, p: ThreadId, op: AddOp)
    requires AddEnabled(s, p, op) && !op.AddReserve?
    ensures AddStep(s, p, op).submitted == s.submitted && AddStep(s, p, op).completed >= s.completed
  {
    hide R.PushStep, AddMoved, AfterPush;
  }

  lemma WorkCounts(s: State, op: WorkOp)
    requires WorkEnabled(s, op)
    ensures var s' := WorkStep(s, op);
            s'.submitted == s.submitted && s'.completed >= s.completed && s'.adders == s.adders
  {
    hide R.PopStep;
  }

  lemma LifeCounts(s: State, op: LifeOp)
    requires LifeEnabled(s, op)
    ensures var s' := LifeStep(s, op);
            s'.submitted == s.submitted && s'.completed == s.completed && s'.adders == s.adders
  {
  }

  lemma WaitCounts(s: State, w: ThreadId, op: WaitOp)
    requires WaitEnabled(s, w, op)
    ensures var s' := WaitStep(s, w, op);
            s'.submitted == s.submitted && s'.completed == s.completed && s'.adders == s.adders
  {
  }

  lemma StepCounts(s: State, a: Action)
    requires Enabled(s, a)
    ensures !(a.Producer? && a.add.AddReserve?) ==> Step(s, a).submitted == s.submitted && Step(s, a).completed >= s.completed
    ensures !a.Producer? ==> Step(s, a).adders == s.adders
  {
    hide AddStep, WorkStep, LifeStep, WaitStep, AddEnabled, WorkEnabled, LifeEnabled, WaitEnabled;
    match a
    case Producer(p, op) => if !op.AddReserve? { AddCounts(s, p, op); }
    case Worker(op) => WorkCounts(s, op);
    case Manager(op) => LifeCounts(s, op);
    case Waiter(w, op) => WaitCounts(s, w, op);
    case ResetDrops =>
  }

  lemma CountersBounded(s: State)
    requires Inv(s)
    ensures s.completed <= s.submitted
  {
    hide Core, QuiescedInv, QuietInv, Ordered, Tickets, Reasons, R.Published, Holding;
  }

  lemma {:induction false} MetUntilReserve(trace: seq<State>, steps: seq<Action>, m: nat, n: nat)
    requires IsRun(trace, steps) && m <= n < |trace| && trace[m].completed == trace[m].submitted
    requires forall k | m <= k < n :: !(steps[k].Producer? && steps[k].add.AddReserve?)
    ensures trace[n].completed == trace[n].submitted
  {
    hide Inv, Step, Enabled;
    if m < n {
      MetUntilReserve(trace, steps, m, n - 1);
      StepCounts(trace[n - 1], steps[n - 1]);
      RunKeepsInv(trace, steps, n);
      CountersBounded(trace[n]);
    }
  }

  /**
   Draining, seen from the callers: once a `wait` has ended with no shutdown begun, every accepted
   task has run, and this stays so, through a shutdown and the worker's exit, until some `add_task`
   takes another ticket.
   */
  lemma WaitDrains(trace: seq<State>, steps: seq<Action>, m: nat, n: nat)
    requires IsRun(trace, steps) && m < n < |trace| && !trace[m].shutdownBegun
    requires exists w :: steps[m] == Waiter(w, WaitReturn)
    requires forall k | m <= k < n :: !(steps[k].Producer? && steps[k].add.AddReserve?)
    ensures trace[n].executed == trace[n].Accepted() && trace[n].completed == trace[n].submitted
  {
    var w :| steps[m] == Waiter(w, WaitReturn);
    assert WaitEnds(trace[m], w);
    hide Inv, Step, Enabled;
    RunKeepsInv(trace, steps, m);
    CountersMeetAtReturn(trace[m], w);
    MetUntilReserve(trace, steps, m, n);
    RunKeepsInv(trace, steps, n);
    MetMeansRun(trace[n]);
  }

  /**
   In particular, if no `add_task` is under way when that `wait` ends and none is called afterwards,
   a shutdown leaves nothing behind.
   */
  lemma WaitThenShutdownDrains(trace: seq<State>, steps: seq<Action>, m: nat, n: nat)
    requires IsRun(trace, steps) && m < n < |trace| && !trace[m].shutdownBegun && trace[m].adders == map[]
    requires exists w :: steps[m] == Waiter(w, WaitReturn)
    requires forall k | m <= k < n :: !(steps[k].Producer? && steps[k].add.CallAdd?)
    ensures trace[n].executed == trace[n].Accepted() && trace[n].adders == map[]
  {
    NobodyComes(trace, steps, m, n);
    WaitDrains(trace, steps, m, n);
  }

  lemma OnlyCallsEnter(s: State, a: Action)
    requires Enabled(s, a) && s.adders == map[]
    ensures a.Producer? ==> a.add.CallAdd?
  {
  }

  lemma {:induction false} NobodyComes(trace: seq<State>, steps: seq<Action>, m: nat, n: nat)
    requires IsRun(trace, steps) && m <= n < |trace| && trace[m].adders == map[]
    requires forall k | m <= k < n :: !(steps[k].Producer? && steps[k].add.CallAdd?)
    ensures trace[n].adders == map[] && forall k | m <= k < n :: !steps[k].Producer?
  {
    if m < n {
      hide Step, Enabled;
      NobodyComes(trace, steps, m, n - 1);
      StepCounts(trace[n - 1], steps[n - 1]);
      OnlyCallsEnter(trace[n - 1], steps[n - 1]);
    }
  }
}
