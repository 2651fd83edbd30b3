/**
 The logger singleton: a registry of strategies under a read-write lock, an immutable snapshot of it
 published for lock-free dispatch, and an orderly shutdown.  A strategy is a backend with its
 formatter; it is serialized by its own mutex unless it declares concurrent dispatch.
 */
module LoggerRegistry {
  import opened Options

  type ThreadId = nat
  type StrategyId = nat

  datatype Flags = Flags(singleMode: bool, enabled: bool, level: int)

  /** `down` counts the calls of the backend's `shutdown()` (history). */
  datatype Strategy = Strategy(concurrent: bool, flags: Flags, locked: Option<ThreadId>, down: nat)

  /** `target` is the index a targeted record addresses. */
  datatype Record = Record(target: Option<nat>, rawMode: bool, level: int)

  // ------------------------------------------------------------------ dispatch

  /** The filter of `dispatch_to_strategy_if_allowed_unlocked`. */
  predicate Passes(f: Flags, r: Record)
  {
    && (r.target.Some? || !f.singleMode)
    && f.enabled
    && (r.rawMode || r.level >= f.level)
  }

  /** Whom a record visits, given the published snapshot. */
  function SnapshotVisits(snapshot: seq<StrategyId>, r: Record): seq<StrategyId>
  {
    if r.target.Some? then
      if r.target.value < |snapshot| then [snapshot[r.target.value]] else []
    else snapshot
  }

  /** The legacy path copies the registry, or its one targeted entry, under the read lock. */
  function LegacyCopy(registry: seq<StrategyId>, r: Record): seq<StrategyId>
  {
    if r.target.Some? then
      if r.target.value < |registry| then [registry[r.target.value]] else []
    else registry
  }

  /** It then dispatches to index 0 of that copy, or to all of it. */
  function LegacyVisits(registry: seq<StrategyId>, r: Record): seq<StrategyId>
  {
    var copy := LegacyCopy(registry, r);
    if r.target.Some? then
      if 0 < |copy| then [copy[0]] else []
    else copy
  }

  /** The strategies whose backend gets a record, in order, while no flag changes and nothing shuts down. */
  function Receivers(visits: seq<StrategyId>, flags: seq<Flags>, r: Record): (ids: seq<StrategyId>)
    requires forall i | 0 <= i < |visits| :: visits[i] < |flags|
    ensures forall id :: id in ids <==> id in visits && Passes(flags[id], r)
  {
    if visits == [] then []
    else
      var rest := Receivers(visits[..|visits| - 1], flags, r);
      var last := visits[|visits| - 1];
      if Passes(flags[last], r) then rest + [last] else rest
  }

  /**
   `log` undisturbed: dispatch over the published snapshot reaches, in order, exactly the strategies
   that the locked legacy path would reach and whose flags let the record pass.
   */
  method Dispatch(snapshot: seq<StrategyId>, flags: seq<Flags>, r: Record) returns (delivered: seq<StrategyId>)
    requires forall i | 0 <= i < |snapshot| :: snapshot[i] < |flags|
    ensures delivered == Receivers(LegacyVisits(snapshot, r), flags, r)
    ensures forall id :: id in delivered <==>
              && (if r.target.Some? then r.target.value < |snapshot| && id == snapshot[r.target.value]
                  else id in snapshot && !flags[id].singleMode)
              && flags[id].enabled && (r.rawMode || r.level >= flags[id].level)
  {
    delivered := [];
    if r.target.Some? {
      if r.target.value >= |snapshot| {
        return;
      }
      delivered := DispatchIfAllowed(snapshot[r.target.value], flags, r, delivered);
      return;
    }
    for i := 0 to |snapshot|
      invariant delivered == Receivers(snapshot[..i], flags, r)
    {
      assert snapshot[..i + 1][..i] == snapshot[..i];
      delivered := DispatchIfAllowed(snapshot[i], flags, r, delivered);
    }
    assert snapshot[..|snapshot|] == snapshot;
  }

  /** One strategy's turn: single mode, then the enabled flag, then the level. */
  method DispatchIfAllowed(id: StrategyId, flags: seq<Flags>, r: Record, before: seq<StrategyId>)
    returns (delivered: seq<StrategyId>)
    requires id < |flags|
    ensures delivered == if Passes(flags[id], r) then before + [id] else before
  {
    delivered := before;
    if r.target.None? && flags[id].singleMode {
      return;
    }
    if !flags[id].enabled {
      return;
    }
    if !r.rawMode && r.level < flags[id].level {
      return;
    }
    delivered := before + [id];
  }

  /**
   What the filter means: broadcasting reaches exactly the strategies that addressing each one would
   reach and that are not in single mode; a raw record passes wherever any record does; and a more
   severe record passes wherever a less severe one does.
   */
  lemma FilterLaws(f: Flags, r: Record, index: nat, severer: Record)
    requires r.target.None? && severer == r.(level := severer.level) && r.level <= severer.level
    ensures Passes(f, r) <==> Passes(f, r.(target := Some(index))) && !f.singleMode
    ensures Passes(f, r) ==> Passes(f, severer) && Passes(f, r.(rawMode := true))
    ensures Passes(f, r.(rawMode := true)) ==> exists level :: Passes(f, r.(level := level))
  {
    if Passes(f, r.(rawMode := true)) { assert Passes(f, r.(level := f.level)); }
  }

  // --------------------------------------------------------------------- state

  datatype AddPc =
    | AddEnter(concurrent: bool, flags: Flags)
    | AddLock(concurrent: bool, flags: Flags)
    | AddCheck(concurrent: bool, flags: Flags)
    | AddPush(concurrent: bool, flags: Flags)
    | AddPublish
  {
    predicate HoldsLock() { AddCheck? || AddPush? || AddPublish? }
  }

  /** `visits` is what is left to visit; the first entry is the strategy at hand. */
  datatype LogPc =
    | LogEnter(record: Record)
    | LogLoad(record: Record)
    | LogNext(record: Record, visits: seq<StrategyId>)
    | LogCheck(record: Record, visits: seq<StrategyId>)
    | LogReady(record: Record, visits: seq<StrategyId>)
    | LogInside(record: Record, visits: seq<StrategyId>)
  {
    /** Between taking the strategy's turn and giving it back. */
    predicate Engaged() { LogCheck? || LogReady? || LogInside? }

    predicate Visiting() { LogNext? || Engaged() }
  }

  /** The one call of `shutdown` that found the flag down. */
  datatype ClosePc =
    | Open
    | CloseCopy
    | CloseNext(list: seq<StrategyId>, at: nat)
    | CloseInside(list: seq<StrategyId>, at: nat)
    | CloseDone

  const CLOSER: ThreadId := 0

  datatype State = State(
    registry: seq<StrategyId>,
    snapshot: seq<StrategyId>,
    shutdown: bool,
    writer: Option<ThreadId>,
    strategies: seq<Strategy>,
    adders: map<ThreadId, AddPc>,
    logs: map<ThreadId, LogPc>,
    closer: ClosePc)

  const Init := State([], [], false, None, [], map[], map[], Open)

  datatype AddOp = CallAdd(concurrent: bool, flags: Flags) | AddFirstCheck | AddTakeLock | AddSecondCheck | AddAppend | AddPublishSnapshot
  datatype LogOp = CallLog(record: Record) | LogFirstCheck | LogLoadSnapshot | LogTakeTurn | LogSecondCheck | LogBegin | LogEnd
  datatype CloseOp = CallShutdown | CloseCopyList | CloseTakeTurn | CloseCall

  datatype Action =
    | Adder(p: ThreadId, add: AddOp)
    | Logger(p: ThreadId, log: LogOp)
    | Closer(close: CloseOp)
    | SetFlags(id: StrategyId, flags: Flags)

  // ---------------------------------------------------------------- add_logger

  predicate AddEnabled(s: State, p: ThreadId, op: AddOp)
  {
    match op
    case CallAdd(_, _) => p !in s.adders
    case AddFirstCheck => p in s.adders && s.adders[p].AddEnter?
    case AddTakeLock => p in s.adders && s.adders[p].AddLock? && s.writer.None?
    case AddSecondCheck => p in s.adders && s.adders[p].AddCheck?
    case AddAppend => p in s.adders && s.adders[p].AddPush?
    case AddPublishSnapshot => p in s.adders && s.adders[p].AddPublish?
  }

  function SetAdd(s: State, p: ThreadId, pc: AddPc): State
  {
    s.(adders := s.adders[p := pc])
  }

  function LeaveAdd(s: State, p: ThreadId): State
  {
    s.(adders := s.adders - {p})
  }

  function AddStep(s: State, p: ThreadId, op: AddOp): State
    requires AddEnabled(s, p, op)
  {
    match op
    case CallAdd(concurrent, flags) => SetAdd(s, p, AddEnter(concurrent, flags))
    case AddFirstCheck =>
      if s.shutdown then LeaveAdd(s, p) else SetAdd(s, p, AddLock(s.adders[p].concurrent, s.adders[p].flags))
    case AddTakeLock => SetAdd(s, p, AddCheck(s.adders[p].concurrent, s.adders[p].flags)).(writer := Some(p))
    case AddSecondCheck =>
      if s.shutdown then LeaveAdd(s, p).(writer := None)
      else SetAdd(s, p, AddPush(s.adders[p].concurrent, s.adders[p].flags))
    case AddAppend =>
      SetAdd(s, p, AddPublish).(
        registry := s.registry + [|s.strategies|],
        strategies := s.strategies + [Strategy(s.adders[p].concurrent, s.adders[p].flags, None, 0)])
    case AddPublishSnapshot => LeaveAdd(s, p).(snapshot := s.registry, writer := None)
  }

  // ----------------------------------------------------------------------- log

  /** The strategy a visiting thread has at hand. */
  predicate AtHand(s: State, pc: LogPc)
  {
    pc.Visiting() && pc.visits != [] && pc.visits[0] < |s.strategies|
  }

  predicate LogEnabled(s: State, p: ThreadId, op: LogOp)
  {
    match op
    case CallLog(_) => p != CLOSER && p !in s.logs
    case LogFirstCheck => p in s.logs && s.logs[p].LogEnter?
    case LogLoadSnapshot => p in s.logs && s.logs[p].LogLoad?
    case LogTakeTurn =>
      && p in s.logs && s.logs[p].LogNext?
      && (s.logs[p].visits != [] ==>
            && AtHand(s, s.logs[p])
            && (s.strategies[s.logs[p].visits[0]].concurrent || s.strategies[s.logs[p].visits[0]].locked.None?))
    case LogSecondCheck => p in s.logs && s.logs[p].LogCheck? && AtHand(s, s.logs[p])
    case LogBegin => p in s.logs && s.logs[p].LogReady?
    case LogEnd => p in s.logs && s.logs[p].LogInside? && AtHand(s, s.logs[p])
  }

  function SetLog(s: State, p: ThreadId, pc: LogPc): State
  {
    s.(logs := s.logs[p := pc])
  }

  function SetHolder(s: State, id: StrategyId, holder: Option<ThreadId>): State
    requires id < |s.strategies|
  {
    s.(strategies := s.strategies[id := s.strategies[id].(locked := holder)])
  }

  /** Give the turn back and go to the next strategy. */
  function NextVisit(s: State, p: ThreadId): State
    requires p in s.logs && AtHand(s, s.logs[p])
  {
    var id := s.logs[p].visits[0];
    var s' := SetLog(s, p, LogNext(s.logs[p].record, s.logs[p].visits[1..]));
    if s.strategies[id].concurrent then s' else SetHolder(s', id, None)
  }

  function LogStep(s: State, p: ThreadId, op: LogOp): State
    requires LogEnabled(s, p, op)
  {
    match op
    case CallLog(record) => SetLog(s, p, LogEnter(record))
    case LogFirstCheck => if s.shutdown then s.(logs := s.logs - {p}) else SetLog(s, p, LogLoad(s.logs[p].record))
    case LogLoadSnapshot => SetLog(s, p, LogNext(s.logs[p].record, SnapshotVisits(s.snapshot, s.logs[p].record)))
    case LogTakeTurn =>
      if s.logs[p].visits == [] then s.(logs := s.logs - {p})
      else
        var id := s.logs[p].visits[0];
        var s' := SetLog(s, p, LogCheck(s.logs[p].record, s.logs[p].visits));
        if s.strategies[id].concurrent then s' else SetHolder(s', id, Some(p))
    case LogSecondCheck =>
      if s.shutdown || !Passes(s.strategies[s.logs[p].visits[0]].flags, s.logs[p].record) then NextVisit(s, p)
      else SetLog(s, p, LogReady(s.logs[p].record, s.logs[p].visits))
    case LogBegin => SetLog(s, p, LogInside(s.logs[p].record, s.logs[p].visits))
    case LogEnd => NextVisit(s, p)
  }

  // ------------------------------------------------------------------ shutdown

  predicate CloseEnabled(s: State, op: CloseOp)
  {
    match op
    case CallShutdown => true
    case CloseCopyList => s.closer.CloseCopy? && s.writer.None?
    case CloseTakeTurn =>
      && s.closer.CloseNext?
      && (s.closer.at < |s.closer.list| ==>
            s.closer.list[s.closer.at] < |s.strategies| && s.strategies[s.closer.list[s.closer.at]].locked.None?)
    case CloseCall =>
      s.closer.CloseInside? && s.closer.at < |s.closer.list| && s.closer.list[s.closer.at] < |s.strategies|
  }

  function CloseStep(s: State, op: CloseOp): State
    requires CloseEnabled(s, op)
  {
    match op
    case CallShutdown => if s.shutdown then s else s.(shutdown := true, closer := CloseCopy)
    case CloseCopyList => s.(closer := CloseNext(s.registry, 0))
    case CloseTakeTurn =>
      if s.closer.at < |s.closer.list| then
        SetHolder(s, s.closer.list[s.closer.at], Some(CLOSER)).(closer := CloseInside(s.closer.list, s.closer.at))
      else s.(closer := CloseDone)
    case CloseCall =>
      var id := s.closer.list[s.closer.at];
      s.(strategies := s.strategies[id := s.strategies[id].(locked := None, down := s.strategies[id].down + 1)],
         closer := CloseNext(s.closer.list, s.closer.at + 1))
  }

  // ---------------------------------------------------------------- every step

  predicate Enabled(s: State, a: Action)
  {
    match a
    case Adder(p, op) => AddEnabled(s, p, op)
    case Logger(p, op) => LogEnabled(s, p, op)
    case Closer(op) => CloseEnabled(s, op)
    case SetFlags(id, _) => id < |s.strategies|
  }

  function Step(s: State, a: Action): State
    requires Enabled(s, a)
  {
    match a
    case Adder(p, op) => AddStep(s, p, op)
    case Logger(p, op) => LogStep(s, p, op)
    case Closer(op) => CloseStep(s, op)
    case SetFlags(id, flags) => s.(strategies := s.strategies[id := s.strategies[id].(flags := flags)])
  }

  // ---------------------------------------------------------------- invariants

  /** The writer is the adder that holds the lock; a free lock means a snapshot up to date. */
  ghost predicate LockOk(s: State)
  {
    && (forall p | p in s.adders && s.adders[p].HoldsLock() :: s.writer == Some(p))
    && (s.writer.Some? ==> s.writer.value in s.adders && s.adders[s.writer.value].HoldsLock())
    && (if s.writer.Some? && s.adders[s.writer.value].AddPublish? then
          s.registry != [] && s.snapshot == s.registry[..|s.registry| - 1]
        else s.snapshot == s.registry)
    && |s.registry| == |s.strategies|
    && (forall k | 0 <= k < |s.registry| :: s.registry[k] == k)
    && (forall k | 0 <= k < |s.snapshot| :: s.snapshot[k] < |s.strategies|)
  }

  ghost predicate LogOk(s: State, p: ThreadId)
    requires p in s.logs
  {
    var pc := s.logs[p];
    && p != CLOSER
    && (pc.Visiting() ==> forall k | 0 <= k < |pc.visits| :: pc.visits[k] < |s.strategies|)
    && (pc.Engaged() ==>
          && AtHand(s, pc)
          && (s.strategies[pc.visits[0]].concurrent || s.strategies[pc.visits[0]].locked == Some(p)))
    && ((pc.LogReady? || pc.LogInside?) && !s.strategies[pc.visits[0]].concurrent ==> s.strategies[pc.visits[0]].down == 0)
  }

  ghost predicate CloseOk(s: State)
  {
    && (s.closer.Open? <==> !s.shutdown)
    && (s.closer.Open? || s.closer.CloseCopy? ==> forall k | 0 <= k < |s.strategies| :: s.strategies[k].down == 0)
    && (s.closer.CloseNext? || s.closer.CloseInside? ==>
          && s.closer.list == s.registry && s.closer.at <= |s.registry|
          && (s.closer.CloseInside? ==> s.closer.at < |s.strategies| && s.strategies[s.closer.at].locked == Some(CLOSER))
          && forall k | 0 <= k < |s.strategies| :: s.strategies[k].down == if k < s.closer.at then 1 else 0)
    && (s.closer.CloseDone? ==> forall k | 0 <= k < |s.strategies| :: s.strategies[k].down == 1)
    && (!s.closer.Open? && !s.closer.CloseCopy? ==>
          forall p | p in s.adders :: !s.adders[p].AddPush? && !s.adders[p].AddPublish?)
  }

  ghost predicate Inv(s: State)
  {
    && LockOk(s)
    && (forall p | p in s.logs :: LogOk(s, p))
    && CloseOk(s)
  }

  lemma AddKeepsInv(s: State, p: ThreadId, op: AddOp)
    requires Inv(s) && AddEnabled(s, p, op)
    ensures Inv(AddStep(s, p, op))
  {
    var s' := AddStep(s, p, op);
    forall q | q in s'.logs ensures LogOk(s', q) { assert LogOk(s, q); }
  }

  /** A logging step moves its own thread, and at most locks that were free or its own. */
  ghost predicate OnlyMoves(s: State, s': State, p: ThreadId)
  {
    && s' == s.(strategies := s'.strategies, logs := s'.logs)
    && s'.logs - {p} == s.logs - {p}
    && |s'.strategies| == |s.strategies|
    && forall k | 0 <= k < |s.strategies| ::
         && s'.strategies[k] == s.strategies[k].(locked := s'.strategies[k].locked)
         && (s'.strategies[k].locked == s.strategies[k].locked || s.strategies[k].locked in {None, Some(p)})
  }

  lemma LogStepFrame(s: State, p: ThreadId, op: LogOp)
    requires Inv(s) && LogEnabled(s, p, op)
    ensures p != CLOSER && OnlyMoves(s, LogStep(s, p, op), p)
  {
    if p in s.logs { assert LogOk(s, p); }
    assert LogStep(s, p, op).logs - {p} == s.logs - {p};
  }

  lemma OnlyMovesKeepsLog(s: State, s': State, p: ThreadId, q: ThreadId)
    requires OnlyMoves(s, s', p) && q in s'.logs && q != p && (q in s.logs ==> LogOk(s, q))
    ensures q in s.logs && LogOk(s', q)
  {
    assert q in s'.logs - {p};
    assert (s'.logs - {p})[q] == (s.logs - {p})[q];
  }

  lemma LogStepOwn(s: State, p: ThreadId, op: LogOp)
    requires Inv(s) && LogEnabled(s, p, op)
    ensures p in LogStep(s, p, op).logs ==> LogOk(LogStep(s, p, op), p)
  {
    if p in s.logs { assert LogOk(s, p); }
  }

  lemma LogKeepsInv(s: State, p: ThreadId, op: LogOp)
    requires Inv(s) && LogEnabled(s, p, op)
    ensures Inv(LogStep(s, p, op))
  {
    hide LogStep, LogEnabled, LogOk;
    var s' := LogStep(s, p, op);
    LogStepFrame(s, p, op);
    forall q | q in s'.logs ensures LogOk(s', q) {
      if q == p { LogStepOwn(s, p, op); } else { OnlyMovesKeepsLog(s, s', p, q); }
    }
  }

  lemma CloseKeepsInv(s: State, op: CloseOp)
    requires Inv(s) && CloseEnabled(s, op)
    ensures Inv(CloseStep(s, op))
  {
    var s' := CloseStep(s, op);
    forall q | q in s'.logs ensures LogOk(s', q) { assert LogOk(s, q); }
  }

  lemma StepKeepsInv(s: State, a: Action)
    requires Inv(s) && Enabled(s, a)
    ensures Inv(Step(s, a))
  {
    hide AddStep, LogStep, CloseStep;
    match a
    case Adder(p, op) => AddKeepsInv(s, p, op);
    case Logger(p, op) => LogKeepsInv(s, p, op);
    case Closer(op) => CloseKeepsInv(s, op);
    case SetFlags(id, flags) =>
      var s' := Step(s, a);
      forall q | q in s'.logs ensures LogOk(s', q) { assert LogOk(s, q); }
  }

  // --------------------------------------------------------------- whole runs

  ghost predicate IsRun(trace: seq<State>, steps: seq<Action>)
  {
    && |trace| == |steps| + 1
    && trace[0] == Init
    && forall i | 0 <= i < |steps| :: Enabled(trace[i], steps[i]) && trace[i + 1] == Step(trace[i], steps[i])
  }

  lemma {:induction false} RunKeepsInv(trace: seq<State>, steps: seq<Action>, n: nat)
    requires IsRun(trace, steps) && n < |trace|
    ensures Inv(trace[n])
  {
    if n > 0 {
      hide Inv, Step, Enabled;
      RunKeepsInv(trace, steps, n - 1);
      StepKeepsInv(trace[n - 1], steps[n - 1]);
    }
  }

  /**
   Whenever the registry lock is free, lock-free dispatch visits whom the locked legacy path would;
   at any other moment the snapshot lacks at most the strategy that the lock's holder is publishing.
   */
  lemma SnapshotFollowsRegistry(trace: seq<State>, steps: seq<Action>, n: nat, r: Record)
    requires IsRun(trace, steps) && n < |trace|
    ensures var s := trace[n];
            && (s.writer.None? ==>
                  s.snapshot == s.registry && SnapshotVisits(s.snapshot, r) == LegacyVisits(s.registry, r))
            && (s.snapshot != s.registry ==>
                  && s.registry != [] && s.snapshot == s.registry[..|s.registry| - 1]
                  && s.writer.Some? && s.writer.value in s.adders && s.adders[s.writer.value].AddPublish?)
  {
    hide LogOk, CloseOk;
    RunKeepsInv(trace, steps, n);
  }

  /** No strategy is shut down twice, and when `shutdown` has finished each registered one was, once. */
  lemma EachStrategyClosedOnce(trace: seq<State>, steps: seq<Action>, n: nat, k: nat)
    requires IsRun(trace, steps) && n < |trace| && k < |trace[n].strategies|
    ensures k in trace[n].registry
    ensures trace[n].strategies[k].down <= 1
    ensures trace[n].closer.CloseDone? ==> trace[n].strategies[k].down == 1
  {
    hide LogOk;
    RunKeepsInv(trace, steps, n);
    assert trace[n].registry[k] == k;
  }

  /** No `log()` begins on a serialized strategy after its `shutdown()`, nor does one run during it. */
  lemma NoLogAfterClose(trace: seq<State>, steps: seq<Action>, n: nat, p: ThreadId)
    requires IsRun(trace, steps) && n < |trace| && p in trace[n].logs
    requires trace[n].logs[p].LogReady? || trace[n].logs[p].LogInside?
    ensures AtHand(trace[n], trace[n].logs[p])
    ensures var id := trace[n].logs[p].visits[0];
            !trace[n].strategies[id].concurrent ==>
              trace[n].strategies[id].down == 0 && !(trace[n].closer.CloseInside? && trace[n].closer.at == id)
  {
    RunKeepsInv(trace, steps, n);
    assert LogOk(trace[n], p);
  }

  /** Two threads are never inside the same serialized strategy. */
  lemma SerializedStrategiesAreExclusive(trace: seq<State>, steps: seq<Action>, n: nat, p: ThreadId, q: ThreadId)
    requires IsRun(trace, steps) && n < |trace| && p in trace[n].logs && q in trace[n].logs && p != q
    requires trace[n].logs[p].LogInside? && trace[n].logs[q].LogInside?
    requires AtHand(trace[n], trace[n].logs[p]) && AtHand(trace[n], trace[n].logs[q])
    requires trace[n].logs[p].visits[0] == trace[n].logs[q].visits[0]
    ensures trace[n].strategies[trace[n].logs[p].visits[0]].concurrent
  {
    RunKeepsInv(trace, steps, n);
    assert LogOk(trace[n], p) && LogOk(trace[n], q);
  }

  // -------------------------------------------------------- the lock-free case

  ghost predicate Reachable(s: State)
  {
    exists trace: seq<State>, steps: seq<Action> :: IsRun(trace, steps) && trace[|steps|] == s
  }

  lemma Continue(s: State, a: Action, s': State)
    requires Reachable(s) && Enabled(s, a) && s' == Step(s, a)
    ensures Reachable(s')
  {
    hide Step, Enabled;
    var trace: seq<State>, steps: seq<Action> :| IsRun(trace, steps) && trace[|steps|] == s;
    var trace', steps' := trace + [s'], steps + [a];
    forall i | 0 <= i < |steps'|
      ensures Enabled(trace'[i], steps'[i]) && trace'[i + 1] == Step(trace'[i], steps'[i])
    {
      if i < |steps| {
        assert trace'[i] == trace[i] && trace'[i + 1] == trace[i + 1] && steps'[i] == steps[i];
      }
    }
    assert IsRun(trace', steps') && trace'[|steps'|] == s';
  }

  lemma InitReachable()
    ensures Reachable(Init)
  {
    var none: seq<Action> := [];
    assert IsRun([Init], none) && [Init][|none|] == Init;
  }

  const PLAIN := Flags(false, true, 0)

  const RECORD := Record(None, false, 0)

  /** One concurrent strategy is registered. */
  const Registered: State := State([0], [0], false, None, [Strategy(true, PLAIN, None, 0)], map[], map[], Open)

  lemma RegistersOne()
    ensures Reachable(Registered)
  {
    hide Reachable;
    InitReachable();
    var s1 := Init.(adders := map[1 := AddEnter(true, PLAIN)]);
    Continue(Init, Adder(1, CallAdd(true, PLAIN)), s1);
    var s2 := Init.(adders := map[1 := AddLock(true, PLAIN)]);
    assert s2.adders == s1.adders[1 := AddLock(true, PLAIN)];
    Continue(s1, Adder(1, AddFirstCheck), s2);
    var s3 := Init.(adders := map[1 := AddCheck(true, PLAIN)], writer := Some(1));
    assert s3.adders == s2.adders[1 := AddCheck(true, PLAIN)];
    Continue(s2, Adder(1, AddTakeLock), s3);
    var s4 := s3.(adders := map[1 := AddPush(true, PLAIN)]);
    assert s4.adders == s3.adders[1 := AddPush(true, PLAIN)];
    Continue(s3, Adder(1, AddSecondCheck), s4);
    var s5 := Registered.(adders := map[1 := AddPublish], writer := Some(1), snapshot := []);
    assert s5.adders == s4.adders[1 := AddPublish];
    Continue(s4, Adder(1, AddAppend), s5);
    assert s5.adders - {1} == map[];
    Continue(s5, Adder(1, AddPublishSnapshot), Registered);
  }

  ghost function LoggingAt(pc: LogPc): State
  {
    Registered.(logs := map[1 := pc])
  }

  lemma LogsMove(s: State, op: LogOp, pc: LogPc)
    requires Reachable(s) && LogEnabled(s, 1, op) && 1 in s.logs && s == LoggingAt(s.logs[1])
    requires LogStep(s, 1, op) == SetLog(s, 1, pc)
    ensures Reachable(LoggingAt(pc))
  {
    hide Reachable;
    assert s.logs[1 := pc] == LoggingAt(pc).logs;
    Continue(s, Logger(1, op), LoggingAt(pc));
  }

  lemma PassesTheChecks()
    ensures Reachable(LoggingAt(LogReady(RECORD, [0])))
  {
    hide Reachable;
    RegistersOne();
    Continue(Registered, Logger(1, CallLog(RECORD)), LoggingAt(LogEnter(RECORD)));
    LogsMove(LoggingAt(LogEnter(RECORD)), LogFirstCheck, LogLoad(RECORD));
    LogsMove(LoggingAt(LogLoad(RECORD)), LogLoadSnapshot, LogNext(RECORD, [0]));
    LogsMove(LoggingAt(LogNext(RECORD, [0])), LogTakeTurn, LogCheck(RECORD, [0]));
    LogsMove(LoggingAt(LogCheck(RECORD, [0])), LogSecondCheck, LogReady(RECORD, [0]));
  }

  lemma ChecksThenCloses()
    ensures Reachable(LoggingAt(LogReady(RECORD, [0])).(
                        shutdown := true, strategies := [Strategy(true, PLAIN, None, 1)], closer := CloseNext([0], 1)))
  {
    hide Reachable;
    PassesTheChecks();
    var s0 := LoggingAt(LogReady(RECORD, [0]));
    var s1 := s0.(shutdown := true, closer := CloseCopy);
    Continue(s0, Closer(CallShutdown), s1);
    var s2 := s1.(closer := CloseNext([0], 0));
    Continue(s1, Closer(CloseCopyList), s2);
    var s3 := s1.(closer := CloseInside([0], 0), strategies := [Strategy(true, PLAIN, Some(CLOSER), 0)]);
    Continue(s2, Closer(CloseTakeTurn), s3);
    Continue(s3, Closer(CloseCall), s1.(strategies := [Strategy(true, PLAIN, None, 1)], closer := CloseNext([0], 1)));
  }

  /** Thread `p` is past every check and its next step calls `log()` on a strategy already shut down. */
  ghost predicate LogsLate(s: State, p: ThreadId, concurrent: bool)
  {
    && p in s.logs && s.logs[p].LogReady? && AtHand(s, s.logs[p])
    && s.strategies[s.logs[p].visits[0]].concurrent == concurrent
    && s.strategies[s.logs[p].visits[0]].down > 0
  }

  /** A `log()` can reach a backend after its `shutdown()` exactly when the strategy is not serialized. */
  lemma LateLogExactlyWhenConcurrent(concurrent: bool)
    ensures (exists s, p :: Reachable(s) && LogsLate(s, p, concurrent)) <==> concurrent
  {
    if concurrent {
      ChecksThenCloses();
      var s := LoggingAt(LogReady(RECORD, [0])).(
        shutdown := true, strategies := [Strategy(true, PLAIN, None, 1)], closer := CloseNext([0], 1));
      assert Reachable(s) && LogsLate(s, 1, true);
    } else {
      forall s, p | Reachable(s) ensures !LogsLate(s, p, concurrent) {
        var trace: seq<State>, steps: seq<Action> :| IsRun(trace, steps) && trace[|steps|] == s;
        if p in s.logs && s.logs[p].LogReady? { NoLogAfterClose(trace, steps, |steps|, p); }
      }
    }
  }
}
