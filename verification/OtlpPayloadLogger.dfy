/**
 The payload splitter: a batch is cut into chunks whose serialized size stays within a limit.
 The serializer is foreign; only the size of what it produces matters here.
 */
module PayloadSplitter {
  function Flatten<T>(parts: seq<seq<T>>): seq<T>
  {
    if parts == [] then [] else Flatten(parts[..|parts| - 1]) + parts[|parts| - 1]
  }

  lemma FlattenAppend<T>(parts: seq<seq<T>>, part: seq<T>)
    ensures Flatten(parts + [part]) == Flatten(parts) + part
  {
    assert (parts + [part])[..|parts|] == parts;
  }

  /** A chunk within the limit, or a single record that no chunk can hold. */
  predicate Fits<T>(chunk: seq<T>, size: seq<T> -> nat, limit: nat)
  {
    chunk != [] && (size(chunk) <= limit || |chunk| == 1)
  }

  /** A chunk that was closed for a reason: it is over-long itself, or the next record is one too many. */
  predicate ClosedBy<T>(chunk: seq<T>, next: T, size: seq<T> -> nat, limit: nat)
  {
    size(chunk) > limit || size(chunk + [next]) > limit
  }

  /** Every chunk fits, and each but the last was closed for a reason. */
  predicate WellCut<T>(chunks: seq<seq<T>>, size: seq<T> -> nat, limit: nat)
  {
    chunks == [] ||
    var init, last := chunks[..|chunks| - 1], chunks[|chunks| - 1];
    && WellCut(init, size, limit)
    && Fits(last, size, limit)
    && (init != [] ==> ClosedBy(init[|init| - 1], last[0], size, limit))
  }

  lemma WellCutAppend<T>(chunks: seq<seq<T>>, chunk: seq<T>, size: seq<T> -> nat, limit: nat)
    requires WellCut(chunks, size, limit) && Fits(chunk, size, limit)
    requires chunks != [] ==> ClosedBy(chunks[|chunks| - 1], chunk[0], size, limit)
    ensures WellCut(chunks + [chunk], size, limit)
    ensures Flatten(chunks + [chunk]) == Flatten(chunks) + chunk
  {
    assert (chunks + [chunk])[..|chunks|] == chunks;
  }

  /** Nothing is lost or reordered, every chunk fits, and no chunk could have taken one record more. */
  method SplitBatch<T>(batch: seq<T>, size: seq<T> -> nat, limit: nat) returns (chunks: seq<seq<T>>)
    ensures Flatten(chunks) == batch
    ensures if limit == 0 then chunks == [batch] else WellCut(chunks, size, limit)
  {
    hide Flatten, WellCut;
    if limit == 0 {
      WholeBatch(batch);
      return [batch];
    }
    chunks := [];
    NoChunks(size, limit);
    var current: seq<T> := [];
    for i := 0 to |batch|
      invariant Flatten(chunks) + current == batch[..i] && WellCut(chunks, size, limit)
      invariant current != [] ==> Fits(current, size, limit)
      invariant current != [] && chunks != [] ==> ClosedBy(chunks[|chunks| - 1], current[0], size, limit)
      invariant current == [] && chunks != [] ==> size(chunks[|chunks| - 1]) > limit
    {
      var candidate := current + [batch[i]];
      assert batch[..i + 1] == batch[..i] + [batch[i]];
      if size(candidate) <= limit {
        current := candidate;
      } else if current == [] {
        WellCutAppend(chunks, candidate, size, limit);
        chunks := chunks + [candidate];
      } else {
        WellCutAppend(chunks, current, size, limit);
        chunks := chunks + [current];
        current := [batch[i]];
      }
    }
    if current != [] {
      WellCutAppend(chunks, current, size, limit);
      chunks := chunks + [current];
    }
  }

  lemma WholeBatch<T>(batch: seq<T>)
    ensures Flatten([batch]) == batch
  {
    FlattenAppend([], batch);
  }

  lemma NoChunks<T>(size: seq<T> -> nat, limit: nat)
    ensures Flatten<T>([]) == [] && WellCut<T>([], size, limit)
  {
  }
}

/**
 The payload logger in its asynchronous mode, with a callback set: a bounded queue, a worker that
 exports batches, and a stop that drains.  Each critical section is one step; a producer asleep
 until there is space is kept in `blocked`.
 */
module OtlpPayloadLogger {
  import opened PayloadSplitter

  type ThreadId = nat

  datatype Config = Config(maxBatch: nat, maxQueue: nat, dropOnOverflow: bool)

  datatype WorkerPc<+T> = Waiting | Exporting(batch: seq<T>) | Marking | Exited

  /** The stopping call: not made, waiting for the worker to end, or returned. */
  datatype StopPc = NoStop | Joining | Joined

  /** The fields after `stopper` are histories: the program never reads them. */
  datatype State<T> = State(
    config: Config,
    queue: seq<T>,
    stopping: bool,
    idle: bool,
    dropped: nat,
    blocked: map<ThreadId, T>,
    worker: WorkerPc<T>,
    stopper: StopPc,
    calls: nat,
    accepted: seq<T>,
    refused: seq<T>,
    exported: seq<seq<T>>,
    lateStops: nat)

  datatype Action<T> =
    | Log(p: ThreadId, item: T)
    | ResumeLog(p: ThreadId)
    | TakeBatch
    | Export
    | MarkIdle
    | Stop
    | Join

  function Init<T>(config: Config): State<T>
  {
    State(config, [], false, true, 0, map[], Waiting, NoStop, 0, [], [], [], 0)
  }

  function Accept<T>(s: State<T>, item: T): State<T>
  {
    s.(queue := s.queue + [item], accepted := s.accepted + [item])
  }

  function Refuse<T>(s: State<T>, item: T): State<T>
  {
    s.(dropped := s.dropped + 1, refused := s.refused + [item])
  }

  function Min(a: nat, b: nat): nat
  {
    if a < b then a else b
  }

  predicate Enabled<T>(s: State<T>, a: Action<T>)
  {
    match a
    case Log(p, _) => p !in s.blocked
    case ResumeLog(p) => p in s.blocked && (s.stopping || |s.queue| < s.config.maxQueue)
    case TakeBatch => s.worker.Waiting?
    case Export => s.worker.Exporting?
    case MarkIdle => s.worker.Marking?
    case Stop => true
    case Join => s.stopper.Joining? && s.worker.Exited?
  }

  function Step<T>(s: State<T>, a: Action<T>): State<T>
    requires Enabled(s, a)
  {
    match a
    case Log(p, item) =>
      var s' := s.(calls := s.calls + 1);
      if s.stopping then Refuse(s', item)
      else if |s.queue| < s.config.maxQueue then Accept(s', item)
      else if s.config.dropOnOverflow then Refuse(s', item)
      else s'.(blocked := s.blocked[p := item])
    case ResumeLog(p) =>
      var s' := s.(blocked := s.blocked - {p});
      if s.stopping then Refuse(s', s.blocked[p]) else Accept(s', s.blocked[p])
    case TakeBatch =>
      // The wait ends on work, on stop or on its timeout.
      if s.queue == [] then
        if s.stopping then s.(idle := true, worker := Exited) else s
      else
        var n := Min(|s.queue|, s.config.maxBatch);
        s.(queue := s.queue[n..], idle := false, worker := Exporting(s.queue[..n]))
    case Export =>
      s.(worker := Marking, exported := if s.worker.batch == [] then s.exported else s.exported + [s.worker.batch])
    case MarkIdle => s.(worker := Waiting, idle := true)
    case Stop =>
      if s.stopping then s.(lateStops := s.lateStops + 1) else s.(stopping := true, stopper := Joining)
    case Join => s.(stopper := Joined)
  }

  /** The condition on which `wait` returns. */
  predicate WaitReturns<T>(s: State<T>)
  {
    s.queue == [] && s.idle
  }

  // ---------------------------------------------------------------- invariant

  function InFlight<T>(s: State<T>): seq<T>
  {
    if s.worker.Exporting? then s.worker.batch else []
  }

  ghost predicate Bounded<T>(s: State<T>)
  {
    && |s.queue| <= s.config.maxQueue
    && |InFlight(s)| <= s.config.maxBatch
    && forall i | 0 <= i < |s.exported| :: 0 < |s.exported[i]| <= s.config.maxBatch
  }

  ghost predicate Inv<T>(s: State<T>)
  {
    && s.accepted == Flatten(s.exported) + InFlight(s) + s.queue
    && s.dropped == |s.refused|
    && s.calls == |s.accepted| + |s.refused| + |s.blocked|
    && Bounded(s)
    && (s.idle <==> s.worker.Waiting? || s.worker.Exited?)
    && (s.worker.Exited? ==> s.stopping && s.queue == [])
    && (s.stopping <==> !s.stopper.NoStop?)
    && (s.stopper.Joined? ==> s.worker.Exited?)
  }

  lemma TakeKeepsInv<T>(s: State<T>)
    requires Inv(s) && Enabled(s, TakeBatch)
    ensures Inv(Step(s, TakeBatch))
  {
    hide Flatten;
    var n := Min(|s.queue|, s.config.maxBatch);
    assert s.queue == s.queue[..n] + s.queue[n..];
  }

  lemma ExportKeepsInv<T>(s: State<T>)
    requires Inv(s) && Enabled(s, Export)
    ensures Inv(Step(s, Export))
  {
    hide Flatten;
    FlattenAppend(s.exported, s.worker.batch);
  }

  lemma BlockedLess<T>(s: State<T>, p: ThreadId)
    requires p in s.blocked
    ensures |s.blocked - {p}| == |s.blocked| - 1
  {
    assert (s.blocked - {p}).Keys == s.blocked.Keys - {p};
    assert |s.blocked.Keys - {p}| == |s.blocked.Keys| - 1;
    assert |s.blocked - {p}| == |(s.blocked - {p}).Keys|;
    assert |s.blocked| == |s.blocked.Keys|;
  }

  lemma LogKeepsInv<T>(s: State<T>, p: ThreadId, item: T)
    requires Inv(s) && Enabled(s, Log(p, item))
    ensures Inv(Step(s, Log(p, item)))
  {
    hide Flatten;
  }

  lemma StepKeepsInv<T>(s: State<T>, a: Action<T>)
    requires Inv(s) && Enabled(s, a)
    ensures Inv(Step(s, a))
  {
    hide Flatten;
    match a
    case Log(p, item) => LogKeepsInv(s, p, item);
    case ResumeLog(p) => BlockedLess(s, p);
    case TakeBatch => TakeKeepsInv(s);
    case Export => ExportKeepsInv(s);
    case _ =>
  }

  // --------------------------------------------------------------- whole runs

  ghost predicate IsRun<T>(config: Config, trace: seq<State<T>>, steps: seq<Action<T>>)
  {
    && |trace| == |steps| + 1
    && trace[0] == Init(config)
    && forall i | 0 <= i < |steps| :: Enabled(trace[i], steps[i]) && trace[i + 1] == Step(trace[i], steps[i])
  }

  lemma {:induction false} RunKeepsInv<T>(config: Config, trace: seq<State<T>>, steps: seq<Action<T>>, n: nat)
    requires IsRun(config, trace, steps) && n < |trace|
    ensures Inv(trace[n]) && trace[n].config == config
  {
    if n > 0 {
      hide Inv;
      RunKeepsInv(config, trace, steps, n - 1);
      StepKeepsInv(trace[n - 1], steps[n - 1]);
    } else {
      assert Inv(Init<T>(config));
    }
  }

  /**
   Exported batches, then the batch in flight, then the queue are the accepted records in order;
   both bounds hold; the drop counter counts the refused records; and every call of `log` ended in
   acceptance or refusal or is asleep.
   */
  lemma Conservation<T>(config: Config, trace: seq<State<T>>, steps: seq<Action<T>>, n: nat)
    requires IsRun(config, trace, steps) && n < |trace|
    ensures trace[n].accepted == Flatten(trace[n].exported) + InFlight(trace[n]) + trace[n].queue
    ensures |trace[n].queue| <= config.maxQueue && |InFlight(trace[n])| <= config.maxBatch
    ensures forall i | 0 <= i < |trace[n].exported| :: 0 < |trace[n].exported[i]| <= config.maxBatch
    ensures trace[n].dropped == |trace[n].refused|
    ensures trace[n].calls == |trace[n].accepted| + |trace[n].refused| + |trace[n].blocked|
  {
    RunKeepsInv(config, trace, steps, n);
  }

  /**
   What `log` does with a record: a stopping logger refuses it, a queue with room takes it at its end, and
   a full queue refuses it when overflow drops and puts its thread to sleep with it otherwise.
   */
  lemma LogByOverflow<T>(s: State<T>, p: ThreadId, item: T)
    requires p !in s.blocked
    ensures var s', full := Step(s, Log(p, item)), |s.queue| >= s.config.maxQueue;
            var refuses, sleeps := s.stopping || (full && s.config.dropOnOverflow), !s.stopping && full && !s.config.dropOnOverflow;
            && s'.queue == s.queue + (if refuses || sleeps then [] else [item])
            && s'.accepted == s.accepted + (if refuses || sleeps then [] else [item])
            && s'.refused == s.refused + (if refuses then [item] else [])
            && s'.blocked == (if sleeps then s.blocked[p := item] else s.blocked)
            && s'.worker == s.worker && s'.exported == s.exported && s'.stopping == s.stopping
  {
  }

  /** A batch is as long as the queue and the batch size allow, and is taken from the head of the queue. */
  lemma BatchIsTheHead<T>(s: State<T>)
    requires s.worker.Waiting?
    ensures var s' := Step(s, TakeBatch);
            && s.queue == InFlight(s') + s'.queue && (s'.worker.Exited? <==> s.queue == [] && s.stopping)
            && (s'.queue != [] ==> |InFlight(s')| == s.config.maxBatch)
            && |InFlight(s')| <= s.config.maxBatch
  {
  }

  /** `wait` returns only when all accepted records have been exported. */
  lemma WaitMeansExported<T>(config: Config, trace: seq<State<T>>, steps: seq<Action<T>>, n: nat)
    requires IsRun(config, trace, steps) && n < |trace| && WaitReturns(trace[n])
    ensures Flatten(trace[n].exported) == trace[n].accepted
  {
    RunKeepsInv(config, trace, steps, n);
  }

  /** Once the stopping call has returned, everything accepted is exported, then and ever after. */
  lemma {:induction false} StopDrains<T>(config: Config, trace: seq<State<T>>, steps: seq<Action<T>>, i: nat, j: nat)
    requires IsRun(config, trace, steps) && i <= j < |trace| && trace[i].stopper.Joined?
    ensures trace[j].stopper.Joined? && trace[j].accepted == trace[i].accepted
    ensures trace[j].exported == trace[i].exported && Flatten(trace[j].exported) == trace[j].accepted
  {
    hide Inv, Step, Enabled, Flatten;
    RunKeepsInv(config, trace, steps, i);
    JoinedIsDrained(trace[i]);
    if i < j {
      StopDrains(config, trace, steps, i, j - 1);
      RunKeepsInv(config, trace, steps, j - 1);
      JoinedStaysJoined(trace[j - 1], steps[j - 1]);
    }
  }

  lemma JoinedIsDrained<T>(s: State<T>)
    requires Inv(s) && s.stopper.Joined?
    ensures Flatten(s.exported) == s.accepted
  {
    hide Flatten;
  }

  lemma JoinedStaysJoined<T>(s: State<T>, a: Action<T>)
    requires Inv(s) && Enabled(s, a) && s.stopper.Joined?
    ensures Step(s, a).stopper.Joined? && Step(s, a).accepted == s.accepted && Step(s, a).exported == s.exported
  {
    hide Flatten;
  }

  /**
   The two sizes must be positive for anything to move.  With batches of size 0 nothing is ever
   exported, so a worker holding a record never exits and its stopping call never returns; with a
   queue of size 0 nothing is ever accepted.
   */
  lemma ZeroSizesAreUseless<T>(config: Config, trace: seq<State<T>>, steps: seq<Action<T>>, n: nat)
    requires IsRun(config, trace, steps) && n < |trace|
    ensures config.maxBatch == 0 ==>
              && trace[n].exported == [] && trace[n].accepted == trace[n].queue
              && (trace[n].worker.Exited? || trace[n].stopper.Joined? ==> trace[n].accepted == [])
    ensures config.maxQueue == 0 ==> trace[n].accepted == []
  {
    RunKeepsInv(config, trace, steps, n);
    if config.maxQueue == 0 { ZeroQueueAcceptsNothing(config, trace, steps, n); }
    assert trace[n].exported != [] ==> |trace[n].exported[0]| > 0;
  }

  lemma {:induction false} ZeroQueueAcceptsNothing<T>(config: Config, trace: seq<State<T>>, steps: seq<Action<T>>, n: nat)
    requires IsRun(config, trace, steps) && n < |trace| && config.maxQueue == 0
    ensures trace[n].accepted == []
  {
    if n > 0 {
      hide Inv, Flatten;
      ZeroQueueAcceptsNothing(config, trace, steps, n - 1);
      RunKeepsInv(config, trace, steps, n - 1);
    }
  }

  /** On every run, everything accepted is exported exactly when nothing is queued or in flight. */
  lemma ExportedExactlyWhen<T>(config: Config, trace: seq<State<T>>, steps: seq<Action<T>>, n: nat)
    requires IsRun(config, trace, steps) && n < |trace|
    ensures Flatten(trace[n].exported) == trace[n].accepted <==> trace[n].queue == [] && InFlight(trace[n]) == []
  {
    hide Flatten;
    RunKeepsInv(config, trace, steps, n);
    var s := trace[n];
    assert |s.accepted| == |Flatten(s.exported)| + |InFlight(s)| + |s.queue|;
  }

  // --------------------------------------------------------- the second stopper

  ghost predicate Reachable<T(!new)>(config: Config, s: State<T>)
  {
    exists trace: seq<State<T>>, steps: seq<Action<T>> :: IsRun(config, trace, steps) && trace[|steps|] == s
  }

  /** Some `stop` that found the stop flag as `late` says has returned. */
  predicate StopReturned<T>(s: State<T>, late: bool)
  {
    if late then s.lateStops > 0 else s.stopper.Joined?
  }

  ghost predicate Drained<T>(s: State<T>)
  {
    Flatten(s.exported) == s.accepted
  }

  /** Only the first `stop` joins the worker: a second one can return with a record still queued. */
  lemma SecondStopMayReturnEarly<T(!new)>(config: Config, item: T) returns (s: State<T>)
    requires config.maxQueue > 0
    ensures Reachable(config, s) && StopReturned(s, true) && s.queue == [item] && !Drained(s)
  {
    var s0: State<T> := Init(config);
    var s1 := Step(s0, Log(0, item));
    var s2 := Step(s1, Stop);
    s := Step(s2, Stop);
    var steps: seq<Action<T>> := [Log(0, item), Stop, Stop];
    var trace := [s0, s1, s2, s];
    assert IsRun(config, trace, steps) && trace[|steps|] == s;
  }

  lemma FirstStopDrains<T(!new)>(config: Config, s: State<T>)
    requires Reachable(config, s) && StopReturned(s, false)
    ensures Drained(s)
  {
    var trace: seq<State<T>>, steps: seq<Action<T>> :| IsRun(config, trace, steps) && trace[|steps|] == s;
    StopDrains(config, trace, steps, |steps|, |steps|);
  }

  lemma EmptyIsDrained<T(!new)>(config: Config, s: State<T>)
    requires Reachable(config, s) && config.maxQueue == 0
    ensures Drained(s)
  {
    var trace: seq<State<T>>, steps: seq<Action<T>> :| IsRun(config, trace, steps) && trace[|steps|] == s;
    ZeroQueueAcceptsNothing(config, trace, steps, |steps|);
    ExportedExactlyWhen(config, trace, steps, |steps|);
    Conservation(config, trace, steps, |steps|);
  }

  /**
   Exactly when `stop` can fail to drain: some `stop` that found the flag as `late` says can have
   returned with accepted records unexported if and only if it found the flag up already and the
   queue holds anything at all.
   */
  lemma StopFailsExactlyWhenLate<T(!new)>(config: Config, late: bool, item: T)
    ensures (exists s: State<T> :: Reachable(config, s) && StopReturned(s, late) && !Drained(s))
       <==> late && config.maxQueue > 0
  {
    hide Drained, Reachable;
    if late && config.maxQueue > 0 {
      var s := SecondStopMayReturnEarly(config, item);
    } else {
      forall s: State<T> | Reachable(config, s) && StopReturned(s, late) ensures Drained(s) {
        if late { EmptyIsDrained(config, s); } else { FirstStopDrains(config, s); }
      }
    }
  }

  // ------------------------------------------------------------ the logger object

  /** The logger object; each method is one critical section, or the worker's loop. */
  class Logger<T(!new)> {
    const config: Config
    var queue: seq<T>
    var stopping: bool
    var idle: bool
    var dropped: nat
    ghost var blocked: map<ThreadId, T>
    ghost var worker: WorkerPc<T>
    ghost var stopper: StopPc
    ghost var calls: nat
    ghost var accepted: seq<T>
    ghost var refused: seq<T>
    ghost var exported: seq<seq<T>>
    ghost var lateStops: nat

    ghost function View(): State<T>
      reads this
    {
      State(config, queue, stopping, idle, dropped, blocked, worker, stopper, calls, accepted, refused, exported, lateStops)
    }

    constructor (config: Config)
      ensures View() == Init<T>(config) && Inv(View())
    {
      this.config := config;
      queue, stopping, idle, dropped := [], false, true, 0;
      blocked, worker, stopper, calls := map[], Waiting, NoStop, 0;
      accepted, refused, exported, lateStops := [], [], [], 0;
    }

    /** `log` up to its return or its sleep; `slept` tells which. */
    method Log(ghost p: ThreadId, item: T) returns (slept: bool)
      requires Inv(View()) && p !in blocked
      modifies this
      ensures View() == Step(old(View()), Action.Log(p, item)) && Inv(View())
      ensures slept <==> p in blocked
      ensures slept <==> !old(stopping) && |old(queue)| >= config.maxQueue && !config.dropOnOverflow
      ensures queue == old(queue) + if !old(stopping) && |old(queue)| < config.maxQueue then [item] else []
      ensures dropped == old(dropped) + if old(stopping) || (|old(queue)| >= config.maxQueue && config.dropOnOverflow) then 1 else 0
    {
      hide Inv;
      StepKeepsInv(View(), Action.Log(p, item));
      slept := false;
      calls := calls + 1;
      if stopping {
        dropped, refused := dropped + 1, refused + [item];
        return;
      }
      if |queue| >= config.maxQueue {
        if config.dropOnOverflow {
          dropped, refused := dropped + 1, refused + [item];
          return;
        }
        blocked := blocked[p := item];
        return true;
      }
      queue, accepted := queue + [item], accepted + [item];
    }

    /** The rest of `log` after its sleep. */
    method ResumeLog(ghost p: ThreadId, item: T)
      requires Inv(View()) && Enabled(View(), Action.ResumeLog(p)) && blocked[p] == item
      modifies this
      ensures View() == Step(old(View()), Action.ResumeLog(p)) && Inv(View())
    {
      hide Inv;
      StepKeepsInv(View(), Action.ResumeLog(p));
      blocked := blocked - {p};
      if stopping {
        dropped, refused := dropped + 1, refused + [item];
        return;
      }
      queue, accepted := queue + [item], accepted + [item];
    }

    /** The worker's first critical section: fill a batch from the head of the queue. */
    method TakeBatch() returns (batch: seq<T>, exits: bool)
      requires Inv(View()) && worker.Waiting?
      modifies this
      ensures View() == Step(old(View()), Action.TakeBatch) && Inv(View())
      ensures exits <==> worker.Exited?
      ensures batch == InFlight(View())
      ensures batch == old(queue)[..if |old(queue)| < config.maxBatch then |old(queue)| else config.maxBatch]
      ensures old(queue) == batch + queue && (exits <==> old(stopping) && old(queue) == [])
    {
      hide Inv;
      StepKeepsInv(View(), Action.TakeBatch);
      batch := [];
      exits := stopping && queue == [];
      if exits {
        idle, worker := true, Exited;
        return;
      }
      if queue == [] {
        return;
      }
      idle := false;
      ghost var whole := queue;
      while queue != [] && |batch| < config.maxBatch
        invariant |batch| <= config.maxBatch && |batch| <= |whole|
        invariant batch == whole[..|batch|] && queue == whole[|batch|..]
        invariant View() == old(View()).(idle := false, queue := queue)
        decreases |queue|
      {
        batch, queue := batch + [queue[0]], queue[1..];
      }
      worker := Exporting(batch);
    }

    /** The worker's delivery of the batch and its second critical section. */
    method Deliver(batch: seq<T>)
      requires Inv(View()) && worker == Exporting(batch)
      modifies this
      ensures View() == Step(Step(old(View()), Action.Export), Action.MarkIdle) && Inv(View())
    {
      hide Inv;
      StepKeepsInv(View(), Action.Export);
      StepKeepsInv(Step(View(), Action.Export), Action.MarkIdle);
      if batch != [] {
        exported := exported + [batch];
      }
      worker, idle := Waiting, true;
    }

    /** `stop` up to the join; `joins` tells whether this is the call that waits for the worker. */
    method Stop() returns (joins: bool)
      requires Inv(View())
      modifies this
      ensures View() == Step(old(View()), Action.Stop) && Inv(View())
      ensures (joins <==> !old(stopping)) && stopping && queue == old(queue)
    {
      StepKeepsInv(View(), Action.Stop);
      joins := !stopping;
      if joins {
        stopping, stopper := true, Joining;
      } else {
        lateStops := lateStops + 1;
      }
    }

    /** `worker_loop` from a stopped logger to its end: with batches of any positive size it drains. */
    method DrainLoop()
      requires Inv(View()) && stopping && worker.Waiting? && config.maxBatch > 0
      modifies this
      ensures Inv(View()) && worker.Exited? && queue == []
      ensures Flatten(exported) == accepted == old(accepted)
    {
      while true
        invariant Inv(View()) && stopping && worker.Waiting? && accepted == old(accepted)
        decreases |queue|
      {
        var batch, exits := TakeBatch();
        if exits {
          break;
        }
        Deliver(batch);
      }
    }
  }
}
