/**
 The per-logger executor of single-threaded Emscripten builds.  There is one thread, and tasks may
 call back into the executor, so the state carries the call stack: calls of `add_task`, drain
 loops, and the user code that a drain loop runs.  The last frame is the one executing.
 */
module CooperativeExecutor {
  import opened QueuePolicies
  import S = SingleThreadExecutor

  datatype Frame<+T> =
    | AddFrame(task: T, drains: nat)
    | ScheduleFrame
    | DrainFrame
    | UserFrame(running: T)

  /**
   `pending` counts the callbacks handed to the event loop.  The fields after `stack` are histories: what
   was accepted, what left the queue and how, the tasks whose code was entered, and the tasks refused
   since the last reset of the drop counter, when `removed` had the length `resetAt`.
   */
  datatype State<T> = State(
    queue: seq<T>,
    limit: nat,
    policy: QueuePolicy,
    dropped: nat,
    scheduled: bool,
    shutdown: bool,
    pending: nat,
    stack: seq<Frame<T>>,
    accepted: seq<T>,
    removed: seq<S.Removal<T>>,
    ran: seq<T>,
    resetAt: nat,
    refused: seq<T>)

  datatype Action<T> =
    | CallAdd(task: T)
    | CallWait
    | CallShutdown
    | SetLimit(size: nat)
    | SetPolicy(policy: QueuePolicy)
    | ResetDropped
    | FireCallback
    | Continue

  function Init<T>(): State<T>
  {
    State([], 0, Block, 0, false, false, 0, [], [], [], [], 0, [])
  }

  function Top<T>(s: State<T>): Frame<T>
    requires s.stack != []
  {
    s.stack[|s.stack| - 1]
  }

  function Return<T>(s: State<T>): State<T>
    requires s.stack != []
  {
    s.(stack := s.stack[..|s.stack| - 1])
  }

  /** A call; entering user code is recorded. */
  function Call<T>(s: State<T>, f: Frame<T>): State<T>
  {
    s.(stack := s.stack + [f], ran := if f.UserFrame? then s.ran + [f.running] else s.ran)
  }

  predicate Full<T>(s: State<T>)
  {
    s.limit > 0 && |s.queue| >= s.limit
  }

  /** User code runs at the bottom of the stack and inside tasks. */
  predicate UserCodeRuns<T>(s: State<T>)
  {
    s.stack == [] || Top(s).UserFrame?
  }

  predicate Enabled<T>(s: State<T>, a: Action<T>)
  {
    match a
    case FireCallback => s.stack == [] && s.pending > 0
    case Continue => s.stack != []
    case _ => UserCodeRuns(s)
  }

  /** `push_back`, and the decision whether a callback is still needed. */
  function Enqueue<T>(s: State<T>, task: T): State<T>
    requires s.stack != []
  {
    var s' := Return(s).(queue := s.queue + [task], accepted := s.accepted + [task], scheduled := true);
    if s.scheduled then s' else Call(s', ScheduleFrame)
  }

  function Evict<T>(s: State<T>): State<T>
    requires s.queue != []
  {
    s.(queue := s.queue[1..], dropped := s.dropped + 1, removed := s.removed + [S.Removal(s.queue[0], true)])
  }

  /** The executing frame goes on to its next call, or returns. */
  function Advance<T>(s: State<T>): State<T>
    requires s.stack != []
  {
    match Top(s)
    case AddFrame(task, drains) =>
      if s.shutdown then Return(s)
      else if !Full(s) then Enqueue(s, task)
      else (match s.policy
            case DropNewest => Return(s).(dropped := s.dropped + 1, refused := s.refused + [task])
            case DropOldest => Enqueue(Evict(s), task)
            case Block => Call(Call(Return(s), AddFrame(task, drains + 1)), DrainFrame))
    case ScheduleFrame => Return(s).(pending := s.pending + 1)
    case DrainFrame =>
      if s.queue == [] then Return(s).(scheduled := false)
      else Call(s.(queue := s.queue[1..], removed := s.removed + [S.Removal(s.queue[0], false)]), UserFrame(s.queue[0]))
    case UserFrame(_) => Return(s)
  }

  function Step<T>(s: State<T>, a: Action<T>): State<T>
    requires Enabled(s, a)
  {
    match a
    case CallAdd(task) => Call(s, AddFrame(task, 0))
    case CallWait => Call(s, DrainFrame)
    case CallShutdown => if s.shutdown then s else Call(s.(shutdown := true), DrainFrame)
    case SetLimit(size) => if s.shutdown then s else s.(limit := size)
    case SetPolicy(policy) => if s.shutdown then s else s.(policy := policy)
    case ResetDropped => s.(dropped := 0, resetAt := |s.removed|, refused := [])
    case FireCallback => Call(s.(pending := s.pending - 1), DrainFrame)
    case Continue => Advance(s)
  }

  // ---------------------------------------------------------------- invariant

  /** A drain loop is on the stack. */
  ghost predicate HasDrain<T>(stack: seq<Frame<T>>)
  {
    stack != [] && (stack[|stack| - 1].DrainFrame? || HasDrain(stack[..|stack| - 1]))
  }

  ghost predicate DrainOnStack<T>(s: State<T>)
  {
    HasDrain(s.stack)
  }

  /** Frame `g` may sit right above frame `f`. */
  ghost predicate MayCall<T>(f: Frame<T>, g: Frame<T>)
  {
    match f
    case AddFrame(_, drains) => drains == 1 && g.DrainFrame?
    case ScheduleFrame => false
    case DrainFrame => g.UserFrame?
    case UserFrame(_) => !g.UserFrame? && (g.AddFrame? ==> g.drains <= 1)
  }

  ghost predicate Nested<T>(stack: seq<Frame<T>>)
  {
    |stack| > 1 ==> MayCall(stack[|stack| - 2], stack[|stack| - 1]) && Nested(stack[..|stack| - 1])
  }

  ghost predicate Shape<T>(s: State<T>)
  {
    Nested(s.stack)
  }

  /** A retried `add_task` finds the queue its own drain emptied. */
  ghost predicate RetryFindsRoom<T>(s: State<T>)
  {
    s.stack != [] && Top(s).AddFrame? ==> Top(s).drains <= 1 && (Top(s).drains == 1 ==> s.queue == [])
  }

  /** Queued work always has somebody who will drain it. */
  ghost predicate NeverStranded<T>(s: State<T>)
  {
    && (s.queue != [] ==> s.scheduled)
    && (s.scheduled ==> s.pending > 0 || DrainOnStack(s) || (s.stack != [] && Top(s).ScheduleFrame?))
  }

  ghost predicate Inv<T>(s: State<T>)
  {
    && Shape(s) && RetryFindsRoom(s) && NeverStranded(s)
    && Recorded(s)
  }

  /** The histories: what left the queue and what is in it were accepted, and what left and was not evicted ran. */
  ghost predicate Recorded<T>(s: State<T>)
  {
    && s.accepted == S.Tasks(s.removed) + s.queue
    && s.ran == S.Only(s.removed, false)
    && s.resetAt <= |s.removed|
    && s.dropped == |S.Only(s.removed[s.resetAt..], true)| + |s.refused|
  }

  /** Stacks before and after a call. */
  lemma Called<T>(s: State<T>, f: Frame<T>)
    ensures HasDrain(Call(s, f).stack) <==> f.DrainFrame? || HasDrain(s.stack)
    ensures Nested(Call(s, f).stack) <==> Nested(s.stack) && (s.stack != [] ==> MayCall(Top(s), f))
  {
    assert (s.stack + [f])[..|s.stack|] == s.stack;
  }

  lemma UserCallKeeps<T>(s: State<T>, a: Action<T>)
    requires Inv(s) && Enabled(s, a) && !a.Continue?
    ensures Inv(Step(s, a))
  {
    match a
    case CallAdd(task) => Called(s, AddFrame(task, 0));
    case CallWait => Called(s, DrainFrame);
    case CallShutdown => Called(s.(shutdown := true), DrainFrame);
    case FireCallback => Called(s.(pending := s.pending - 1), DrainFrame);
    case ResetDropped => S.NothingSince(s.removed);
    case _ =>
  }

  lemma EnqueueKeeps<T>(s: State<T>, task: T)
    requires Shape(s) && s.stack != [] && Top(s).AddFrame? && Recorded(s)
    requires s.scheduled ==> s.pending > 0 || DrainOnStack(s)
    ensures Inv(Enqueue(s, task))
  {
    hide Nested, HasDrain, S.Tasks, S.Only;
    var s1 := Return(s).(queue := s.queue + [task], accepted := s.accepted + [task], scheduled := true);
    Called(s1, ScheduleFrame);
    TopAfterReturn(s, s1);
    DrainStays(s, s1);
    assert S.Tasks(s.removed) + (s.queue + [task]) == S.Tasks(s.removed) + s.queue + [task];
  }

  lemma DrainStays<T>(s: State<T>, s': State<T>)
    requires s.stack != [] && !Top(s).DrainFrame? && s'.stack == s.stack[..|s.stack| - 1]
    ensures DrainOnStack(s') <==> DrainOnStack(s)
  {
  }

  /** The caller of the frame that returns. */
  lemma TopAfterReturn<T>(s: State<T>, s': State<T>)
    requires Shape(s) && s.stack != [] && s'.stack == s.stack[..|s.stack| - 1]
    ensures Shape(s')
    ensures s'.stack != [] ==> MayCall(Top(s'), Top(s))
  {
  }

  /** The head leaves the queue, evicted or for its turn. */
  lemma RemovalIsRecorded<T>(s: State<T>, s': State<T>, evicted: bool)
    requires Recorded(s) && s.queue != []
    requires s'.queue == s.queue[1..] && s'.removed == s.removed + [S.Removal(s.queue[0], evicted)]
    requires s'.accepted == s.accepted && s'.refused == s.refused && s'.resetAt == s.resetAt
    requires s'.ran == if evicted then s.ran else s.ran + [s.queue[0]]
    requires s'.dropped == if evicted then s.dropped + 1 else s.dropped
    ensures Recorded(s')
  {
    hide S.Tasks, S.Only;
    S.AppendRemoval(s.removed, S.Removal(s.queue[0], evicted));
    S.AppendSince(s.removed, s.resetAt, S.Removal(s.queue[0], evicted));
    assert s.queue == [s.queue[0]] + s.queue[1..];
  }

  lemma AddAdvanceKeeps<T>(s: State<T>)
    requires Inv(s) && s.stack != [] && Top(s).AddFrame?
    ensures Inv(Advance(s))
  {
    hide S.Tasks, S.Only, Enqueue, Nested, HasDrain;
    var AddFrame(task, drains) := Top(s);
    TopAfterReturn(s, Return(s));
    DrainStays(s, Return(s));
    if s.shutdown {
    } else if !Full(s) {
      EnqueueKeeps(s, task);
    } else if s.policy.DropOldest? {
      RemovalIsRecorded(s, Evict(s), true);
      DrainStays(Evict(s), Return(s));
      EnqueueKeeps(Evict(s), task);
    } else if s.policy.Block? {
      Called(Return(s), AddFrame(task, drains + 1));
      Called(Call(Return(s), AddFrame(task, drains + 1)), DrainFrame);
    }
  }

  lemma OtherAdvanceKeeps<T>(s: State<T>)
    requires Inv(s) && s.stack != [] && !Top(s).AddFrame?
    ensures Inv(Advance(s))
  {
    hide S.Tasks, S.Only;
    if Top(s).DrainFrame? && s.queue != [] {
      RemovalIsRecorded(s, Advance(s), false);
      Called(s.(queue := s.queue[1..], removed := s.removed + [S.Removal(s.queue[0], false)]), UserFrame(s.queue[0]));
    } else {
      TopAfterReturn(s, Advance(s));
    }
  }

  lemma StepKeepsInv<T>(s: State<T>, a: Action<T>)
    requires Inv(s) && Enabled(s, a)
    ensures Inv(Step(s, a))
  {
    hide Inv, Advance;
    if !a.Continue? {
      UserCallKeeps(s, a);
    } else if Top(s).AddFrame? {
      AddAdvanceKeeps(s);
    } else {
      OtherAdvanceKeeps(s);
    }
  }

  // --------------------------------------------------------------- whole runs

  ghost predicate IsRun<T>(trace: seq<State<T>>, steps: seq<Action<T>>)
  {
    && |trace| == |steps| + 1
    && trace[0] == Init<T>()
    && forall i | 0 <= i < |steps| :: Enabled(trace[i], steps[i]) && trace[i + 1] == Step(trace[i], steps[i])
  }

  lemma {:induction false} RunKeepsInv<T>(trace: seq<State<T>>, steps: seq<Action<T>>, n: nat)
    requires IsRun(trace, steps) && n < |trace|
    ensures Inv(trace[n])
  {
    if n > 0 {
      hide Inv, Step;
      RunKeepsInv(trace, steps, n - 1);
      StepKeepsInv(trace[n - 1], steps[n - 1]);
    }
  }

  /**
   Under arbitrary re-entrancy queued work is never stranded: a drain loop is on the stack, a callback
   is with the event loop, or the executing `add_task` is about to hand one over.
   */
  lemma WorkIsNeverStranded<T>(trace: seq<State<T>>, steps: seq<Action<T>>, n: nat)
    requires IsRun(trace, steps) && n < |trace| && trace[n].queue != []
    ensures trace[n].pending > 0 || DrainOnStack(trace[n]) || (trace[n].stack != [] && Top(trace[n]).ScheduleFrame?)
    ensures trace[n].stack == [] ==> trace[n].pending > 0
  {
    RunKeepsInv(trace, steps, n);
  }

  /** The retry loop of `QueuePolicy::Block` drains at most once, and its second attempt never finds the queue full. */
  lemma BlockDrainsAtMostOnce<T>(trace: seq<State<T>>, steps: seq<Action<T>>, n: nat, i: nat)
    requires IsRun(trace, steps) && n < |trace| && i < |trace[n].stack| && trace[n].stack[i].AddFrame?
    ensures trace[n].stack[i].drains <= 1
    ensures i == |trace[n].stack| - 1 && trace[n].stack[i].drains == 1 ==> !Full(trace[n])
  {
    RunKeepsInv(trace, steps, n);
    if i < |trace[n].stack| - 1 { CallersDrainOnce(trace[n].stack, i); }
  }

  lemma {:induction false} CallersDrainOnce<T>(stack: seq<Frame<T>>, i: nat)
    requires Nested(stack) && i < |stack| - 1 && stack[i].AddFrame?
    ensures stack[i].drains == 1
  {
    if i < |stack| - 2 { CallersDrainOnce(stack[..|stack| - 1], i); }
  }

  /**
   Tasks leave the queue in the order they were accepted, re-entrant ones included.  Those that left
   without being evicted are, in order, the tasks that were run; the drop counter counts the evicted and
   the refused ones since its reset.
   */
  lemma RemovedIsPrefixOfAccepted<T>(trace: seq<State<T>>, steps: seq<Action<T>>, n: nat)
    requires IsRun(trace, steps) && n < |trace|
    ensures trace[n].accepted == S.Tasks(trace[n].removed) + trace[n].queue
    ensures trace[n].ran == S.Only(trace[n].removed, false)
    ensures multiset(trace[n].accepted) ==
            multiset(trace[n].ran) + multiset(S.Only(trace[n].removed, true)) + multiset(trace[n].queue)
    ensures trace[n].resetAt <= |trace[n].removed|
    ensures trace[n].dropped == |S.Only(trace[n].removed[trace[n].resetAt..], true)| + |trace[n].refused|
  {
    RunKeepsInv(trace, steps, n);
    S.Split(trace[n].removed);
  }

  /** Whenever the code of a task is entered, a drain loop calls it and it is the head of the queue, which it leaves. */
  lemma RunsTheHead<T>(s: State<T>, a: Action<T>)
    requires Enabled(s, a) && Step(s, a).stack != [] && Top(Step(s, a)).UserFrame? && |Step(s, a).stack| > |s.stack|
    ensures a.Continue? && s.stack != [] && Top(s).DrainFrame? && s.queue != []
    ensures Top(Step(s, a)).running == s.queue[0] && Step(s, a).queue == s.queue[1..]
    ensures Step(s, a).ran == s.ran + [s.queue[0]]
  {
  }

  /** No call has asked for a dropping policy before step `n`. */
  ghost predicate OnlyBlockAsked<T>(steps: seq<Action<T>>, n: nat)
    requires n <= |steps|
  {
    forall k | 0 <= k < n && steps[k].SetPolicy? :: steps[k].policy == Block
  }

  /** Under `Block` every accepted task runs in its turn: what ran and what is queued is what was accepted. */
  lemma {:induction false} BlockRunsEverythingInOrder<T>(trace: seq<State<T>>, steps: seq<Action<T>>, n: nat)
    requires IsRun(trace, steps) && n < |trace| && OnlyBlockAsked(steps, n)
    ensures trace[n].policy == Block && trace[n].accepted == trace[n].ran + trace[n].queue && trace[n].dropped == 0
  {
    if n > 0 {
      BlockRunsEverythingInOrder(trace, steps, n - 1);
      BlockStep(trace[n - 1], steps[n - 1]);
    }
  }

  lemma BlockStep<T>(s: State<T>, a: Action<T>)
    requires Enabled(s, a) && s.policy == Block && (a.SetPolicy? ==> a.policy == Block)
    requires s.accepted == s.ran + s.queue && s.dropped == 0
    ensures var s' := Step(s, a); s'.policy == Block && s'.accepted == s'.ran + s'.queue && s'.dropped == 0
  {
    if a.Continue? && Top(s).DrainFrame? && s.queue != [] {
      assert s.queue == [s.queue[0]] + s.queue[1..];
    }
  }

  /**
   What an attempt of `add_task` does to a queue.  With room the task goes to its end.  Without room
   `DropNewest` refuses it and touches nothing else, `DropOldest` gives up the head for it, and `Block`
   drains before it tries again.
   */
  lemma AddByPolicy<T>(s: State<T>)
    requires s.stack != [] && Top(s).AddFrame?
    ensures var s', task := Step(s, Continue), Top(s).task;
            var full := s.limit > 0 && |s.queue| >= s.limit;
            if s.shutdown then s' == s.(stack := s.stack[..|s.stack| - 1])
            else
              && s'.ran == s.ran && s'.limit == s.limit && s'.policy == s.policy
              && s'.queue == (if !full then s.queue + [task]
                              else if s.policy == DropOldest then s.queue[1..] + [task]
                              else s.queue)
              && s'.accepted == s.accepted + (if !full || s.policy == DropOldest then [task] else [])
              && s'.removed == s.removed + (if full && s.policy == DropOldest then [S.Removal(s.queue[0], true)] else [])
              && s'.refused == s.refused + (if full && s.policy == DropNewest then [task] else [])
              && s'.dropped == s.dropped + (if full && s.policy != Block then 1 else 0)
              && (full && s.policy == Block ==>
                    |s'.stack| == |s.stack| + 1 && Top(s').DrainFrame? && s'.stack[|s.stack| - 1].AddFrame?
                    && s'.stack[|s.stack| - 1].task == task)
  {
  }

  /** An attempt of `add_task` that meets a full queue under a dropping policy. */
  predicate Overflows<T>(s: State<T>, a: Action<T>)
  {
    a.Continue? && s.stack != [] && Top(s).AddFrame? && !s.shutdown && Full(s) && s.policy != Block
  }

  /** How many of the steps from `m` to `n` were such. */
  ghost function OverflowCount<T>(trace: seq<State<T>>, steps: seq<Action<T>>, m: nat, n: nat): nat
    requires m <= n <= |steps| && |trace| == |steps| + 1
  {
    if m == n then 0 else OverflowCount(trace, steps, m, n - 1) + if Overflows(trace[n - 1], steps[n - 1]) then 1 else 0
  }

  lemma StepDrops<T>(s: State<T>, a: Action<T>)
    requires Enabled(s, a)
    ensures Step(s, a).dropped == if a.ResetDropped? then 0 else s.dropped + if Overflows(s, a) then 1 else 0
  {
  }

  /** The drop counter is the number of attempts that overflowed since its last reset, at step `m`. */
  lemma {:induction false} DropCounterSinceReset<T>(trace: seq<State<T>>, steps: seq<Action<T>>, m: nat, n: nat)
    requires IsRun(trace, steps) && m < n < |trace| && steps[m].ResetDropped?
    requires forall k | m < k < n :: !steps[k].ResetDropped?
    ensures trace[n].dropped == OverflowCount(trace, steps, m + 1, n)
  {
    hide Step, Enabled, Overflows;
    if m + 1 < n { DropCounterSinceReset(trace, steps, m, n - 1); }
    StepDrops(trace[n - 1], steps[n - 1]);
  }

  /** The limit and the policy in force are those asked for last, while no shutdown was requested. */
  lemma {:induction false} SettingsFollowTheCalls<T>(trace: seq<State<T>>, steps: seq<Action<T>>, i: nat, j: nat)
    requires IsRun(trace, steps) && i < j < |trace| && !trace[i].shutdown
    ensures steps[i].SetLimit? && (forall k | i < k < j :: !steps[k].SetLimit?) ==> trace[j].limit == steps[i].size
    ensures steps[i].SetPolicy? && (forall k | i < k < j :: !steps[k].SetPolicy?) ==> trace[j].policy == steps[i].policy
  {
    hide Step, Enabled;
    if i + 1 < j {
      SettingsFollowTheCalls(trace, steps, i, j - 1);
    }
    SettingsStep(trace[j - 1], steps[j - 1]);
  }

  lemma SettingsStep<T>(s: State<T>, a: Action<T>)
    requires Enabled(s, a)
    ensures Step(s, a).limit == if a.SetLimit? && !s.shutdown then a.size else s.limit
    ensures Step(s, a).policy == if a.SetPolicy? && !s.shutdown then a.policy else s.policy
  {
  }

  /** A call that drains: `wait`, the first `shutdown`, or a callback of the event loop. */
  predicate Drains<T>(s: State<T>, a: Action<T>)
  {
    a.CallWait? || a.FireCallback? || (a.CallShutdown? && !s.shutdown)
  }

  /** A step works at the top of the stack: what lies below stays, and a drain loop leaves only an empty queue. */
  lemma WorksAtTheTop<T>(s: State<T>, a: Action<T>, depth: nat)
    requires Enabled(s, a) && depth < |s.stack| && s.stack[depth].DrainFrame?
    ensures |Step(s, a).stack| >= |s.stack| - 1
    ensures |Step(s, a).stack| > depth ==> Step(s, a).stack[..depth + 1] == s.stack[..depth + 1]
    ensures |Step(s, a).stack| == depth ==> Step(s, a).queue == [] && Step(s, a).stack == s.stack[..depth]
  {
    if a.Continue? {
      match Top(s)
      case AddFrame(_, _) => assert !Full(s) || s.policy != Block ==> |Step(s, a).stack| <= |s.stack|;
      case _ =>
    }
  }

  lemma {:induction false} DrainStaysUntilReturn<T>(trace: seq<State<T>>, steps: seq<Action<T>>, i: nat, j: nat)
    requires IsRun(trace, steps) && i < j < |trace| && Drains(trace[i], steps[i])
    requires forall k | i < k <= j :: |trace[k].stack| > |trace[i].stack|
    ensures trace[j].stack[..|trace[i].stack| + 1] == trace[i].stack + [DrainFrame]
  {
    var depth := |trace[i].stack|;
    if j == i + 1 {
      assert trace[j] == Step(trace[i], steps[i]);
    } else {
      hide Step, Enabled;
      DrainStaysUntilReturn(trace, steps, i, j - 1);
      assert trace[j - 1].stack[depth] == trace[j - 1].stack[..depth + 1][depth];
      WorksAtTheTop(trace[j - 1], steps[j - 1], depth);
    }
  }

  /** When a call that drains returns, whatever ran inside it, the queue is empty and the caller goes on where it was. */
  lemma DrainReturnsWithEmptyQueue<T>(trace: seq<State<T>>, steps: seq<Action<T>>, i: nat, j: nat)
    requires IsRun(trace, steps) && i < j < |trace| && Drains(trace[i], steps[i])
    requires |trace[j].stack| == |trace[i].stack| && forall k | i < k < j :: |trace[k].stack| > |trace[i].stack|
    ensures j > i + 1 && trace[j].queue == [] && trace[j].stack == trace[i].stack
    ensures steps[i].CallShutdown? ==> trace[j].shutdown
  {
    assert trace[i + 1] == Step(trace[i], steps[i]);
    hide Step, Enabled;
    DrainStaysUntilReturn(trace, steps, i, j - 1);
    var depth := |trace[i].stack|;
    assert trace[j - 1].stack[depth] == trace[j - 1].stack[..depth + 1][depth];
    WorksAtTheTop(trace[j - 1], steps[j - 1], depth);
    assert trace[j - 1].stack[..depth] == trace[j - 1].stack[..depth + 1][..depth];
    ShutdownStays(trace, steps, i, j);
  }

  lemma {:induction false} ShutdownStays<T>(trace: seq<State<T>>, steps: seq<Action<T>>, i: nat, j: nat)
    requires IsRun(trace, steps) && i < j < |trace|
    ensures steps[i].CallShutdown? || trace[i].shutdown ==> trace[j].shutdown
  {
    if i + 1 < j { ShutdownStays(trace, steps, i, j - 1); }
    assert trace[j] == Step(trace[j - 1], steps[j - 1]);
  }

  /** Once a drain loop has ended after a shutdown request, the queue is empty for good. */
  lemma {:induction false} DrainedAfterShutdown<T>(trace: seq<State<T>>, steps: seq<Action<T>>, i: nat, j: nat)
    requires IsRun(trace, steps) && i < j < |trace|
    requires trace[i].shutdown && trace[i].stack != [] && Top(trace[i]).DrainFrame? && trace[i].queue == []
    requires steps[i].Continue?
    ensures trace[j].shutdown && trace[j].queue == [] && trace[j].accepted == trace[i].accepted
  {
    if j > i + 1 {
      DrainedAfterShutdown(trace, steps, i, j - 1);
      var s, a := trace[j - 1], steps[j - 1];
      assert trace[j] == Step(s, a);
    } else {
      assert trace[j] == Step(trace[i], steps[i]);
    }
  }
}
