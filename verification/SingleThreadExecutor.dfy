/**
 The per-logger executor of native builds: a deque under one mutex, a worker thread and three
 overflow policies.  Each critical section is one step.  A thread that `QueuePolicy::Block` puts
 to sleep is kept in `blocked`, and its wake-up condition guards the step that resumes it.
 */
module SingleThreadExecutor {
  import opened Options
  import opened QueuePolicies

  type ThreadId = nat

  datatype WorkerPc<+T> = Waiting | Running(task: T) | Exited

  /** A task that left the queue: taken by the worker, or evicted by `DropOldest`. */
  datatype Removal<+T> = Removal(task: T, evicted: bool)

  /**
   The fields after `worker` are histories: the program never reads them.  `resetAt` is the length of
   `removed`, and `refused` starts anew, at the last reset of the drop counter.
   */
  datatype State<T> = State(
    queue: seq<T>,
    stop: bool,
    limit: nat,
    policy: QueuePolicy,
    dropped: nat,
    active: nat,
    blocked: map<ThreadId, T>,
    worker: WorkerPc<T>,
    accepted: seq<T>,
    removed: seq<Removal<T>>,
    finished: seq<T>,
    resetAt: nat,
    refused: seq<T>)

  datatype Action<T> =
    | AddTask(p: ThreadId, task: T)
    | ResumeAdd(p: ThreadId)
    | TakeTask
    | FinishTask
    | RequestStop
    | SetLimit(size: nat)
    | SetPolicy(policy: QueuePolicy)
    | ResetDropped

  function Init<T>(): State<T>
  {
    State([], false, 0, Block, 0, 0, map[], Waiting, [], [], [], 0, [])
  }

  predicate Full<T>(s: State<T>)
  {
    s.limit > 0 && |s.queue| >= s.limit
  }

  function Push<T>(s: State<T>, task: T): State<T>
  {
    s.(queue := s.queue + [task], accepted := s.accepted + [task])
  }

  function Evict<T>(s: State<T>): State<T>
    requires s.queue != []
  {
    s.(queue := s.queue[1..],
       dropped := s.dropped + 1,
       removed := s.removed + [Removal(s.queue[0], true)])
  }

  predicate Enabled<T>(s: State<T>, a: Action<T>)
  {
    match a
    case AddTask(p, _) => p !in s.blocked
    case ResumeAdd(p) => p in s.blocked && (!Full(s) || s.stop)
    case TakeTask => s.worker.Waiting? && (s.queue != [] || s.stop)
    case FinishTask => s.worker.Running? && s.active > 0
    case _ => true
  }

  function Step<T>(s: State<T>, a: Action<T>): State<T>
    requires Enabled(s, a)
  {
    match a
    case AddTask(p, task) =>
      if s.stop then s
      else if !Full(s) then Push(s, task)
      else (match s.policy
            case DropNewest => s.(dropped := s.dropped + 1, refused := s.refused + [task])
            case DropOldest => Push(Evict(s), task)
            case Block => s.(blocked := s.blocked[p := task]))
    case ResumeAdd(p) =>
      var s' := s.(blocked := s.blocked - {p});
      if s.stop then s' else Push(s', s.blocked[p])
    case TakeTask =>
      if s.queue == [] then s.(worker := Exited)
      else s.(queue := s.queue[1..],
              removed := s.removed + [Removal(s.queue[0], false)],
              active := s.active + 1,
              worker := Running(s.queue[0]))
    case FinishTask =>
      s.(active := s.active - 1, worker := Waiting, finished := s.finished + [s.worker.task])
    case RequestStop => s.(stop := true)
    case SetLimit(size) => if s.stop then s else s.(limit := size)
    case SetPolicy(policy) => if s.stop then s else s.(policy := policy)
    case ResetDropped => s.(dropped := 0, resetAt := |s.removed|, refused := [])
  }

  // ---------------------------------------------------------------- invariant

  function Tasks<T>(removed: seq<Removal<T>>): (tasks: seq<T>)
    ensures |tasks| == |removed|
    ensures forall i | 0 <= i < |tasks| :: tasks[i] == removed[i].task
  {
    if removed == [] then [] else Tasks(removed[..|removed| - 1]) + [removed[|removed| - 1].task]
  }

  /** The removals of one kind, in order. */
  function Only<T>(removed: seq<Removal<T>>, evicted: bool): seq<T>
  {
    if removed == [] then []
    else
      var last := removed[|removed| - 1];
      Only(removed[..|removed| - 1], evicted) + (if last.evicted == evicted then [last.task] else [])
  }

  function InHand<T>(s: State<T>): seq<T>
  {
    if s.worker.Running? then [s.worker.task] else []
  }

  ghost predicate Inv<T>(s: State<T>)
  {
    && s.accepted == Tasks(s.removed) + s.queue
    && Only(s.removed, false) == s.finished + InHand(s)
    && s.resetAt <= |s.removed|
    && s.dropped == |Only(s.removed[s.resetAt..], true)| + |s.refused|
    && s.active == |InHand(s)|
    && (s.worker.Exited? ==> s.stop && s.queue == [])
  }

  lemma InitInv<T>()
    ensures Inv(Init<T>())
  {
  }

  lemma AppendRemoval<T>(removed: seq<Removal<T>>, r: Removal<T>)
    ensures Tasks(removed + [r]) == Tasks(removed) + [r.task]
    ensures Only(removed + [r], r.evicted) == Only(removed, r.evicted) + [r.task]
    ensures Only(removed + [r], !r.evicted) == Only(removed, !r.evicted)
  {
    assert (removed + [r])[..|removed|] == removed;
  }

  /** The same for the removals since a mark. */
  lemma AppendSince<T>(removed: seq<Removal<T>>, mark: nat, r: Removal<T>)
    requires mark <= |removed|
    ensures Only((removed + [r])[mark..], r.evicted) == Only(removed[mark..], r.evicted) + [r.task]
    ensures Only((removed + [r])[mark..], !r.evicted) == Only(removed[mark..], !r.evicted)
  {
    hide Tasks, Only;
    AppendRemoval(removed[mark..], r);
    assert (removed + [r])[mark..] == removed[mark..] + [r];
  }

  lemma EvictKeepsInv<T>(s: State<T>)
    requires Inv(s) && s.queue != []
    ensures Inv(Evict(s))
  {
    hide Tasks, Only;
    AppendRemoval(s.removed, Removal(s.queue[0], true));
    AppendSince(s.removed, s.resetAt, Removal(s.queue[0], true));
    assert s.queue == [s.queue[0]] + s.queue[1..];
  }

  lemma PushKeepsInv<T>(s: State<T>, task: T)
    requires Inv(s) && !s.stop
    ensures Inv(Push(s, task))
  {
    hide Tasks, Only;
  }

  lemma TakeKeepsInv<T>(s: State<T>)
    requires Inv(s) && Enabled(s, TakeTask)
    ensures Inv(Step(s, TakeTask))
  {
    hide Tasks, Only;
    if s.queue != [] {
      AppendRemoval(s.removed, Removal(s.queue[0], false));
      AppendSince(s.removed, s.resetAt, Removal(s.queue[0], false));
      assert s.queue == [s.queue[0]] + s.queue[1..];
    }
  }

  lemma StepKeepsInv<T>(s: State<T>, a: Action<T>)
    requires Inv(s) && Enabled(s, a)
    ensures Inv(Step(s, a))
  {
    hide Tasks, Only, Push, Evict;
    match a
    case AddTask(_, task) =>
      if !s.stop && !Full(s) { PushKeepsInv(s, task); }
      else if !s.stop && s.policy.DropOldest? {
        EvictKeepsInv(s);
        EvictedState(s);
        PushKeepsInv(Evict(s), task);
      }
    case ResumeAdd(p) =>
      if !s.stop { PushKeepsInv(s.(blocked := s.blocked - {p}), s.blocked[p]); }
    case TakeTask => TakeKeepsInv(s);
    case ResetDropped => NothingSince(s.removed);
    case _ =>
  }

  lemma NothingSince<T>(removed: seq<Removal<T>>)
    ensures Only(removed[|removed|..], true) == []
  {
  }

  lemma EvictedState<T>(s: State<T>)
    requires s.queue != []
    ensures Evict(s).stop == s.stop
  {
  }

  // --------------------------------------------------------------- whole runs

  ghost predicate IsRun<T>(trace: seq<State<T>>, steps: seq<Action<T>>)
  {
    && |trace| == |steps| + 1
    && trace[0] == Init<T>()
    && forall i | 0 <= i < |steps| :: Enabled(trace[i], steps[i]) && trace[i + 1] == Step(trace[i], steps[i])
  }

  lemma {:induction false} RunKeepsInv<T>(trace: seq<State<T>>, steps: seq<Action<T>>, n: nat)
    requires IsRun(trace, steps) && n < |trace|
    ensures Inv(trace[n])
  {
    if n > 0 {
      RunKeepsInv(trace, steps, n - 1);
      StepKeepsInv(trace[n - 1], steps[n - 1]);
    }
  }

  /**
   Over every run: what left the queue, run or evicted, is a prefix of what was accepted and the
   queue is the rest; and the drop counter counts the evicted removals and the refused tasks since
   its last reset.
   */
  lemma QueueIsTheRest<T>(trace: seq<State<T>>, steps: seq<Action<T>>, n: nat)
    requires IsRun(trace, steps) && n < |trace|
    ensures trace[n].accepted == Tasks(trace[n].removed) + trace[n].queue
    ensures trace[n].resetAt <= |trace[n].removed|
    ensures trace[n].dropped == |Only(trace[n].removed[trace[n].resetAt..], true)| + |trace[n].refused|
    ensures trace[n].finished <= Only(trace[n].removed, false)
  {
    RunKeepsInv(trace, steps, n);
  }

  /** A call of `add_task` that meets a full queue under a dropping policy. */
  predicate Overflows<T>(s: State<T>, a: Action<T>)
  {
    a.AddTask? && !s.stop && Full(s) && !s.policy.Block?
  }

  /** How many of the steps from `m` to `n` did. */
  ghost function OverflowCount<T>(trace: seq<State<T>>, steps: seq<Action<T>>, m: nat, n: nat): nat
    requires m <= n <= |steps| && |trace| == |steps| + 1
  {
    if m == n then 0 else OverflowCount(trace, steps, m, n - 1) + if Overflows(trace[n - 1], steps[n - 1]) then 1 else 0
  }

  /** Between two resets the drop counter grows by one exactly at the calls that overflow. */
  lemma {:induction false} DropCounterCountsOverflows<T>(trace: seq<State<T>>, steps: seq<Action<T>>, m: nat, n: nat)
    requires IsRun(trace, steps) && m <= n < |trace|
    requires forall k | m <= k < n :: !steps[k].ResetDropped?
    ensures trace[n].dropped == trace[m].dropped + OverflowCount(trace, steps, m, n)
  {
    if m < n {
      hide Step, Enabled, Overflows;
      DropCounterCountsOverflows(trace, steps, m, n - 1);
      StepDrops(trace[n - 1], steps[n - 1]);
    }
  }

  /** The drop counter is the number of calls that overflowed since its last reset, or since the start. */
  lemma DropCounterSinceReset<T>(trace: seq<State<T>>, steps: seq<Action<T>>, m: nat, n: nat)
    requires IsRun(trace, steps) && m < n < |trace| && forall k | m < k < n :: !steps[k].ResetDropped?
    ensures steps[m].ResetDropped? ==> trace[n].dropped == OverflowCount(trace, steps, m + 1, n)
    ensures m == 0 && !steps[0].ResetDropped? ==> trace[n].dropped == OverflowCount(trace, steps, 0, n)
  {
    assert trace[m + 1] == Step(trace[m], steps[m]);
    if steps[m].ResetDropped? {
      DropCounterCountsOverflows(trace, steps, m + 1, n);
    } else {
      DropCounterCountsOverflows(trace, steps, m, n);
    }
  }

  lemma StepDrops<T>(s: State<T>, a: Action<T>)
    requires Enabled(s, a) && !a.ResetDropped?
    ensures Step(s, a).dropped == s.dropped + if Overflows(s, a) then 1 else 0
  {
  }

  /** Counting with multiplicity: a removal is a taking or an eviction. */
  lemma {:induction false} Split<T>(removed: seq<Removal<T>>)
    ensures multiset(Tasks(removed)) == multiset(Only(removed, false)) + multiset(Only(removed, true))
  {
    if removed != [] {
      var init, last := removed[..|removed| - 1], removed[|removed| - 1];
      assert removed == init + [last];
      Split(init);
      AppendRemoval(init, last);
    }
  }

  /** When the worker has exited, every accepted task has run or was evicted, with nothing left over. */
  lemma ExitHasRunEverything<T>(trace: seq<State<T>>, steps: seq<Action<T>>, n: nat)
    requires IsRun(trace, steps) && n < |trace| && trace[n].worker.Exited?
    ensures trace[n].stop && trace[n].queue == []
    ensures Only(trace[n].removed, false) == trace[n].finished
    ensures multiset(trace[n].accepted) == multiset(trace[n].finished) + multiset(Only(trace[n].removed, true))
  {
    RunKeepsInv(trace, steps, n);
    Split(trace[n].removed);
    assert trace[n].accepted == Tasks(trace[n].removed);
  }

  /** The same at the instant `wait` returns, which is when the queue is empty and nothing is active. */
  lemma WaitHasRunEverything<T>(trace: seq<State<T>>, steps: seq<Action<T>>, n: nat)
    requires IsRun(trace, steps) && n < |trace| && trace[n].queue == [] && trace[n].active == 0
    ensures multiset(trace[n].accepted) == multiset(trace[n].finished) + multiset(Only(trace[n].removed, true))
  {
    RunKeepsInv(trace, steps, n);
    Split(trace[n].removed);
    assert trace[n].accepted == Tasks(trace[n].removed);
  }

  /**
   After the stop flag is up the remaining work is fixed: queue length plus active count goes down
   exactly as tasks finish, nothing is accepted or evicted any more, and the flag stays up.
   */
  lemma {:induction false} RemainingWorkIsFixed<T>(trace: seq<State<T>>, steps: seq<Action<T>>, i: nat, j: nat)
    requires IsRun(trace, steps) && i <= j < |trace| && trace[i].stop
    ensures trace[j].stop && trace[j].accepted == trace[i].accepted
    ensures trace[j].limit == trace[i].limit && trace[j].policy == trace[i].policy
    ensures |trace[j].finished| + |trace[j].queue| + trace[j].active == |trace[i].finished| + |trace[i].queue| + trace[i].active
    ensures trace[i].worker.Exited? ==>
              trace[j].worker.Exited? && trace[j].queue == [] && trace[j].finished == trace[i].finished
  {
    hide Inv, Step, Enabled;
    if i < j {
      RemainingWorkIsFixed(trace, steps, i, j - 1);
      RunKeepsInv(trace, steps, j - 1);
      StoppedStep(trace[j - 1], steps[j - 1]);
    } else {
      RunKeepsInv(trace, steps, i);
      if trace[i].worker.Exited? { ExitedState(trace[i]); }
    }
  }

  lemma ExitedState<T>(s: State<T>)
    requires Inv(s) && s.worker.Exited?
    ensures s.stop && s.queue == []
  {
    hide Tasks, Only;
  }

  lemma StoppedStep<T>(s: State<T>, a: Action<T>)
    requires Inv(s) && Enabled(s, a) && s.stop
    ensures var s' := Step(s, a);
            && s'.stop && s'.accepted == s.accepted && s'.limit == s.limit && s'.policy == s.policy
            && |s'.finished| + |s'.queue| + s'.active == |s.finished| + |s.queue| + s.active
            && (s.worker.Exited? ==> s'.worker.Exited? && s'.queue == [] && s'.finished == s.finished)
  {
    hide Tasks, Only;
  }

  /** Accepting a task never takes the queue past its limit. */
  lemma AcceptanceRespectsLimit<T>(s: State<T>, a: Action<T>)
    requires Inv(s) && Enabled(s, a) && s.limit > 0 && |s.queue| <= s.limit && !a.SetLimit?
    ensures |Step(s, a).queue| <= Step(s, a).limit
  {
  }

  /** Under `Block` a task is never lost while the executor runs: it is accepted or its thread sleeps. */
  lemma BlockNeverDrops<T>(s: State<T>, p: ThreadId, task: T)
    requires Enabled(s, AddTask(p, task)) && !s.stop && s.policy.Block?
    ensures var s' := Step(s, AddTask(p, task));
            && s'.dropped == s.dropped && s'.removed == s.removed
            && (s'.accepted == s.accepted + [task] || (p in s'.blocked && s'.blocked[p] == task))
  {
  }

  /**
   What `add_task` does to a queue.  With room the task goes to its end.  Without room `DropNewest`
   refuses the task and touches nothing else, `DropOldest` gives up the head for it, and `Block` puts
   the thread to sleep with it.
   */
  lemma AddByPolicy<T>(s: State<T>, p: ThreadId, task: T)
    requires p !in s.blocked && !s.stop
    ensures var s', full := Step(s, AddTask(p, task)), s.limit > 0 && |s.queue| >= s.limit;
            && s' == s.(queue := s'.queue, accepted := s'.accepted, removed := s'.removed, refused := s'.refused,
                        dropped := s'.dropped, blocked := s'.blocked)
            && (!full || s.policy == DropOldest <==> s'.accepted == s.accepted + [task])
            && (s'.accepted != s.accepted + [task] ==> s'.accepted == s.accepted && s'.queue == s.queue)
            && (!full ==> s'.queue == s.queue + [task])
            && (full && s.policy == DropOldest ==> s'.queue == s.queue[1..] + [task])
            && s'.removed == s.removed + (if full && s.policy == DropOldest then [Removal(s.queue[0], true)] else [])
            && s'.refused == s.refused + (if full && s.policy == DropNewest then [task] else [])
            && s'.dropped == s.dropped + (if full && s.policy != Block then 1 else 0)
            && s'.blocked == if full && s.policy == Block then s.blocked[p := task] else s.blocked
  {
  }

  /** The limit and the policy in force are those asked for last before the stop, and a stop is for good. */
  lemma {:induction false} SettingsFollowTheCalls<T>(trace: seq<State<T>>, steps: seq<Action<T>>, i: nat, j: nat)
    requires IsRun(trace, steps) && i < j < |trace|
    ensures steps[i].RequestStop? ==> trace[j].stop
    ensures !trace[i].stop && steps[i].SetLimit? && (forall k | i < k < j :: !steps[k].SetLimit?) ==> trace[j].limit == steps[i].size
    ensures !trace[i].stop && steps[i].SetPolicy? && (forall k | i < k < j :: !steps[k].SetPolicy?) ==> trace[j].policy == steps[i].policy
  {
    if i + 1 < j {
      SettingsFollowTheCalls(trace, steps, i, j - 1);
    }
    assert trace[j] == Step(trace[j - 1], steps[j - 1]);
  }

  // ----------------------------------------------------------- the executor object

  /** The executor as the object a logger owns; each method is one critical section. */
  class Executor<T(!new)> {
    var queue: seq<T>
    var stop: bool
    var limit: nat
    var policy: QueuePolicy
    var dropped: nat
    var active: nat
    var worker: WorkerPc<T>
    ghost var blocked: map<ThreadId, T>
    ghost var accepted: seq<T>
    ghost var removed: seq<Removal<T>>
    ghost var finished: seq<T>
    ghost var resetAt: nat
    ghost var refused: seq<T>

    ghost function View(): State<T>
      reads this
    {
      State(queue, stop, limit, policy, dropped, active, blocked, worker, accepted, removed, finished, resetAt, refused)
    }

    constructor ()
      ensures View() == Init<T>() && Inv(View())
    {
      queue, stop, limit, policy, dropped, active, worker := [], false, 0, Block, 0, 0, Waiting;
      blocked, accepted, removed, finished, resetAt, refused := map[], [], [], [], 0, [];
    }

    /** `add_task` up to its return or its sleep; `slept` tells which. */
    method AddTask(ghost p: ThreadId, task: T) returns (slept: bool)
      requires Inv(View()) && p !in blocked
      modifies this
      ensures View() == Step(old(View()), Action.AddTask(p, task)) && Inv(View())
      ensures slept <==> p in blocked
      ensures slept <==> !old(stop) && old(limit) > 0 && |old(queue)| >= old(limit) && old(policy) == Block
      ensures queue ==
              if old(stop) || slept then old(queue)
              else if old(limit) == 0 || |old(queue)| < old(limit) then old(queue) + [task]
              else if old(policy) == DropNewest then old(queue)
              else old(queue)[1..] + [task]
    {
      hide Inv;
      StepKeepsInv(View(), Action.AddTask(p, task));
      slept := false;
      if stop {
        return;
      }
      if limit > 0 && |queue| >= limit {
        match policy
        case DropNewest =>
          dropped, refused := dropped + 1, refused + [task];
          return;
        case DropOldest =>
          removed := removed + [Removal(queue[0], true)];
          queue := queue[1..];
          dropped := dropped + 1;
        case Block =>
          blocked := blocked[p := task];
          slept := true;
          return;
      }
      queue := queue + [task];
      accepted := accepted + [task];
    }

    /** The rest of `add_task` after its sleep. */
    method ResumeAdd(ghost p: ThreadId, task: T)
      requires Inv(View()) && p in blocked && blocked[p] == task && (!Full(View()) || stop)
      modifies this
      ensures View() == Step(old(View()), Action.ResumeAdd(p)) && Inv(View())
      ensures queue == if old(stop) then old(queue) else old(queue) + [task]
    {
      StepKeepsInv(View(), Action.ResumeAdd(p));
      blocked := blocked - {p};
      if stop {
        return;
      }
      queue := queue + [task];
      accepted := accepted + [task];
    }

    /** `shutdown` up to the join. */
    method RequestStop()
      requires Inv(View())
      modifies this
      ensures View() == Step(old(View()), Action.RequestStop) && Inv(View()) && stop && queue == old(queue)
    {
      StepKeepsInv(View(), Action.RequestStop);
      stop := true;
    }

    /** The first critical section of the worker's loop; no result means it exits. */
    method TakeTask() returns (task: Option<T>)
      requires Inv(View()) && worker.Waiting? && (queue != [] || stop)
      modifies this
      ensures View() == Step(old(View()), Action.TakeTask) && Inv(View())
      ensures task == (if worker.Running? then Some(worker.task) else None)
      ensures old(queue) == match task case None => queue case Some(head) => [head] + queue
      ensures task.None? <==> worker.Exited?
    {
      hide Inv;
      StepKeepsInv(View(), Action.TakeTask);
      if queue == [] {
        worker := Exited;
        return None;
      }
      task := Some(queue[0]);
      worker := Running(queue[0]);
      removed := removed + [Removal(queue[0], false)];
      queue := queue[1..];
      active := active + 1;
    }

    /** The second critical section of the worker's loop. */
    method FinishTask()
      requires Inv(View()) && worker.Running?
      modifies this
      ensures View() == Step(old(View()), Action.FinishTask) && Inv(View())
    {
      StepKeepsInv(View(), Action.FinishTask);
      finished := finished + [worker.task];
      worker := Waiting;
      active := active - 1;
    }

    /** `worker_loop` from a stopped executor to its end: the queue runs to the last task, in order. */
    method DrainLoop()
      requires Inv(View()) && stop && worker.Waiting?
      modifies this
      ensures Inv(View()) && worker.Exited? && queue == []
      ensures finished == old(finished) + old(queue) && accepted == old(accepted)
    {
      hide Inv;
      while true
        invariant Inv(View()) && stop && worker.Waiting?
        invariant finished + queue == old(finished) + old(queue) && accepted == old(accepted)
        decreases |queue|
      {
        var task := TakeTask();
        if task.None? {
          break;
        }
        FinishTask();
      }
    }
  }
}
