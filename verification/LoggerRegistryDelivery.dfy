/** Which records reach which strategies, over all interleavings of the registry. */
module LoggerRegistryDelivery {
  import opened Options
  import opened LoggerRegistry

  /** Only the thread itself moves inside `log`. */
  lemma OthersLeaveTheCall(s: State, a: Action, p: ThreadId)
    requires Inv(s) && Enabled(s, a) && !(a.Logger? && a.p == p)
    ensures p in Step(s, a).logs <==> p in s.logs
    ensures p in s.logs ==> Step(s, a).logs[p] == s.logs[p]
  {
    hide Inv, AddStep, LogStep, CloseStep, AddEnabled, LogEnabled, CloseEnabled;
    match a
    case Adder(q, op) => AddLeavesLogs(s, q, op);
    case Logger(q, op) =>
      LogStepFrame(s, q, op);
      assert p in s.logs <==> p in s.logs - {q};
      assert p in LogStep(s, q, op).logs <==> p in LogStep(s, q, op).logs - {q};
      assert p in s.logs ==> (s.logs - {q})[p] == s.logs[p];
    case Closer(op) => CloseLeavesLogs(s, op);
    case SetFlags(_, _) =>
  }

  lemma AddLeavesLogs(s: State, p: ThreadId, op: AddOp)
    requires AddEnabled(s, p, op)
    ensures AddStep(s, p, op).logs == s.logs
  {
  }

  lemma CloseLeavesLogs(s: State, op: CloseOp)
    requires CloseEnabled(s, op)
    ensures CloseStep(s, op).logs == s.logs
  {
  }

  // -------------------------------------------------------------------------- the call

  lemma OwnCall(s: State, p: ThreadId, op: LogOp)
    requires LogEnabled(s, p, op) && p in s.logs && p in LogStep(s, p, op).logs
    ensures LogStep(s, p, op).logs[p].record == s.logs[p].record
    ensures s.shutdown && s.logs[p].LogEnter? ==> LogStep(s, p, op).logs[p].LogEnter?
  {
  }

  lemma CallStep(s: State, a: Action, p: ThreadId)
    requires Inv(s) && Enabled(s, a) && p in s.logs && p in Step(s, a).logs
    ensures Step(s, a).logs[p].record == s.logs[p].record
    ensures s.shutdown ==> Step(s, a).shutdown && (s.logs[p].LogEnter? ==> Step(s, a).logs[p].LogEnter?)
  {
    ShutdownStays(s, a);
    hide Inv, LogStep, LogEnabled, AddStep, CloseStep, AddEnabled, CloseEnabled;
    if a.Logger? && a.p == p { OwnCall(s, p, a.log); } else { OthersLeaveTheCall(s, a, p); }
  }

  lemma ShutdownStays(s: State, a: Action)
    requires Inv(s) && Enabled(s, a)
    ensures s.shutdown ==> Step(s, a).shutdown
  {
    hide Inv, LogStep, LogEnabled;
    if a.Logger? { LogStepFrame(s, a.p, a.log); }
  }

  /**
   A call of `log` carries the record it was called with to its end, and a call that begins after the
   shutdown flag is up gets no further than its first check.
   */
  lemma {:induction false} RecordOfTheCall(trace: seq<State>, steps: seq<Action>, i: nat, j: nat, p: ThreadId, r: Record)
    requires IsRun(trace, steps) && i < j < |trace| && steps[i] == Logger(p, CallLog(r))
    requires forall m | i < m <= j :: p in trace[m].logs
    ensures trace[j].logs[p].record == r
    ensures trace[i].shutdown ==> trace[j].shutdown && trace[j].logs[p].LogEnter?
  {
    if j == i + 1 {
      assert trace[j] == Step(trace[i], steps[i]);
    } else {
      hide Step, Enabled, Inv;
      RecordOfTheCall(trace, steps, i, j - 1, p, r);
      RunKeepsInv(trace, steps, j - 1);
      assert p in trace[j].logs && p in trace[j - 1].logs;
      CallStep(trace[j - 1], steps[j - 1], p);
    }
  }

  // ------------------------------------------------------------------------ the filter

  /**
   At its check a record goes on to the backend exactly when no shutdown has begun, the strategy is
   enabled, it is addressed or the strategy takes broadcasts, and it is raw or severe enough; otherwise
   the thread goes on to its next strategy.
   */
  lemma DeliveredExactlyWhen(s: State, p: ThreadId)
    requires LogEnabled(s, p, LogSecondCheck)
    ensures var pc, f, s' := s.logs[p], s.strategies[s.logs[p].visits[0]].flags, LogStep(s, p, LogSecondCheck);
            && p in s'.logs
            && s'.logs[p] ==
               if && !s.shutdown && f.enabled && (pc.record.target.Some? || !f.singleMode)
                  && (pc.record.rawMode || pc.record.level >= f.level)
               then LogReady(pc.record, pc.visits)
               else LogNext(pc.record, pc.visits[1..])
  {
  }

  /** At step `k` thread `p` found the strategy at hand open to this record. */
  ghost predicate Allowed(trace: seq<State>, steps: seq<Action>, k: nat, p: ThreadId, r: Record, visits: seq<StrategyId>)
  {
    && k < |steps| && k < |trace| && steps[k] == Logger(p, LogSecondCheck)
    && p in trace[k].logs && trace[k].logs[p] == LogCheck(r, visits) && AtHand(trace[k], trace[k].logs[p])
    && !trace[k].shutdown
    && var f := trace[k].strategies[visits[0]].flags;
       f.enabled && (r.target.Some? || !f.singleMode) && (r.rawMode || r.level >= f.level)
  }

  lemma EntersDelivery(s: State, op: LogOp, p: ThreadId)
    requires LogEnabled(s, p, op) && p in LogStep(s, p, op).logs
    requires LogStep(s, p, op).logs[p].LogReady? || LogStep(s, p, op).logs[p].LogInside?
    ensures op.LogSecondCheck? || op.LogBegin?
    ensures op.LogBegin? ==> p in s.logs && s.logs[p].LogReady?
    ensures p in s.logs && (op.LogSecondCheck? ==> s.logs[p].LogCheck?)
    ensures LogStep(s, p, op).logs[p].record == s.logs[p].record && (s.logs[p].Visiting() && LogStep(s, p, op).logs[p].visits == s.logs[p].visits)
  {
  }

  /** A thread is at a backend because it was before, or because its check has just let it pass. */
  lemma DeliveryStep(s: State, a: Action, p: ThreadId)
    requires Inv(s) && Enabled(s, a) && p in Step(s, a).logs
    requires Step(s, a).logs[p].LogReady? || Step(s, a).logs[p].LogInside?
    ensures p in s.logs && (s.logs[p].LogCheck? || s.logs[p].LogReady? || s.logs[p].LogInside?)
    ensures Step(s, a).logs[p].record == s.logs[p].record && Step(s, a).logs[p].visits == s.logs[p].visits
    ensures s.logs[p].LogCheck? ==>
              && a == Logger(p, LogSecondCheck) && AtHand(s, s.logs[p]) && !s.shutdown
              && var r, f := s.logs[p].record, s.strategies[s.logs[p].visits[0]].flags;
                 f.enabled && (r.target.Some? || !f.singleMode) && (r.rawMode || r.level >= f.level)
  {
    hide Inv, LogStep, AddStep, CloseStep, AddEnabled, CloseEnabled;
    if a.Logger? && a.p == p {
      EntersDelivery(s, a.log, p);
      if a.log.LogSecondCheck? { DeliveredExactlyWhen(s, p); }
    } else {
      OthersLeaveTheCall(s, a, p);
    }
  }

  /** No backend gets a record that its strategy's flags did not let through at a check before the shutdown. */
  lemma {:induction false} DeliveryWasAllowed(trace: seq<State>, steps: seq<Action>, n: nat, p: ThreadId)
    requires IsRun(trace, steps) && n < |trace| && p in trace[n].logs
    requires trace[n].logs[p].LogReady? || trace[n].logs[p].LogInside?
    ensures exists k: nat :: k < n && Allowed(trace, steps, k, p, trace[n].logs[p].record, trace[n].logs[p].visits)
  {
    if n > 0 {
      hide Inv, Step, Enabled, AtHand;
      RunKeepsInv(trace, steps, n - 1);
      DeliveryStep(trace[n - 1], steps[n - 1], p);
      if trace[n - 1].logs[p].LogCheck? {
        assert Allowed(trace, steps, n - 1, p, trace[n].logs[p].record, trace[n].logs[p].visits);
      } else {
        DeliveryWasAllowed(trace, steps, n - 1, p);
      }
    }
  }

  // ------------------------------------------------------------------------ the visits

  /** Step `m` gives a strategy's turn back. */
  ghost predicate EndsTurn(trace: seq<State>, steps: seq<Action>, m: nat, p: ThreadId)
    requires m < |steps| && |trace| == |steps| + 1
  {
    || steps[m] == Logger(p, LogEnd)
    || (steps[m] == Logger(p, LogSecondCheck) && p in trace[m + 1].logs && trace[m + 1].logs[p].LogNext?)
  }

  /** How many turns the thread has given back from step `i` to step `j`. */
  ghost function Turns(trace: seq<State>, steps: seq<Action>, i: nat, j: nat, p: ThreadId): nat
    requires i <= j <= |steps| && |trace| == |steps| + 1
  {
    if i == j then 0 else Turns(trace, steps, i, j - 1, p) + if EndsTurn(trace, steps, j - 1, p) then 1 else 0
  }

  /** Whom a record is meant for: the strategy it addresses, or all of them. */
  function Addressed(registered: seq<StrategyId>, r: Record): seq<StrategyId>
  {
    match r.target
    case None => registered
    case Some(i) => if i < |registered| then [registered[i]] else []
  }

  lemma OwnVisit(s: State, p: ThreadId, op: LogOp)
    requires LogEnabled(s, p, op) && p in s.logs && s.logs[p].Visiting() && p in LogStep(s, p, op).logs
    ensures var pc, pc' := s.logs[p], LogStep(s, p, op).logs[p];
            && pc'.Visiting() && pc'.record == pc.record
            && var gives := op.LogEnd? || (op.LogSecondCheck? && pc'.LogNext?);
               (gives ==> pc.visits != []) && pc'.visits == if gives then pc.visits[1..] else pc.visits
  {
  }

  lemma VisitStep(s: State, a: Action, p: ThreadId)
    requires Inv(s) && Enabled(s, a) && p in s.logs && s.logs[p].Visiting() && p in Step(s, a).logs
    ensures var pc, pc' := s.logs[p], Step(s, a).logs[p];
            && pc'.Visiting() && pc'.record == pc.record
            && var gives := a == Logger(p, LogEnd) || (a == Logger(p, LogSecondCheck) && pc'.LogNext?);
               (gives ==> pc.visits != []) && pc'.visits == if gives then pc.visits[1..] else pc.visits
  {
    hide Inv, LogStep, LogEnabled, AddStep, CloseStep, AddEnabled, CloseEnabled;
    if a.Logger? && a.p == p { OwnVisit(s, p, a.log); } else { OthersLeaveTheCall(s, a, p); }
  }

  lemma LoadStep(s: State, p: ThreadId)
    requires LogEnabled(s, p, LogLoadSnapshot)
    ensures var s' := LogStep(s, p, LogLoadSnapshot);
            && p in s.logs && p in s'.logs && s'.logs[p] == LogNext(s.logs[p].record, Addressed(s.snapshot, s.logs[p].record))
  {
  }

  /**
   A record visits the strategies it is meant for one by one, in the order of the snapshot it loaded:
   those whose turn it has given back are a prefix, and what is left to visit is the rest.
   */
  lemma {:induction false} VisitsInOrder(trace: seq<State>, steps: seq<Action>, k: nat, n: nat, p: ThreadId)
    requires IsRun(trace, steps) && k < n < |trace| && steps[k] == Logger(p, LogLoadSnapshot)
    requires forall m | k < m <= n :: p in trace[m].logs
    ensures p in trace[k].logs && trace[n].logs[p].Visiting() && trace[n].logs[p].record == trace[k].logs[p].record
    ensures var all, done := Addressed(trace[k].snapshot, trace[k].logs[p].record), Turns(trace, steps, k + 1, n, p);
            done <= |all| && trace[n].logs[p].visits == all[done..]
  {
    if n == k + 1 {
      hide LogStep, LogEnabled, Addressed;
      assert trace[n] == Step(trace[k], steps[k]);
      LoadStep(trace[k], p);
    } else {
      hide Step, Enabled, Inv, Addressed;
      VisitsInOrder(trace, steps, k, n - 1, p);
      RunKeepsInv(trace, steps, n - 1);
      assert p in trace[n].logs;
      VisitStep(trace[n - 1], steps[n - 1], p);
    }
  }

  // --------------------------------------------------------------- what was registered

  predicate ForCall(s: State, p: ThreadId, concurrent: bool, flags: Flags)
  {
    p in s.adders && !s.adders[p].AddPublish? ==> s.adders[p].concurrent == concurrent && s.adders[p].flags == flags
  }

  lemma StaysForCall(s: State, a: Action, p: ThreadId, concurrent: bool, flags: Flags)
    requires Enabled(s, a) && ForCall(s, p, concurrent, flags) && p in s.adders
    ensures ForCall(Step(s, a), p, concurrent, flags)
  {
    hide LogStep, CloseStep, LogEnabled, CloseEnabled;
    match a
    case Adder(_, _) =>
    case Logger(q, op) => LogLeavesAdders(s, q, op);
    case Closer(op) => CloseLeavesAdders(s, op);
    case SetFlags(_, _) =>
  }

  lemma LogLeavesAdders(s: State, p: ThreadId, op: LogOp)
    requires LogEnabled(s, p, op)
    ensures LogStep(s, p, op).adders == s.adders
  {
  }

  lemma CloseLeavesAdders(s: State, op: CloseOp)
    requires CloseEnabled(s, op)
    ensures CloseStep(s, op).adders == s.adders
  {
  }

  lemma {:induction false} ServesOneCall(
    trace: seq<State>, steps: seq<Action>, i: nat, j: nat, p: ThreadId, concurrent: bool, flags: Flags)
    requires IsRun(trace, steps) && i <= j < |trace| && ForCall(trace[i], p, concurrent, flags)
    requires forall m | i <= m < j :: p in trace[m].adders
    ensures ForCall(trace[j], p, concurrent, flags)
  {
    hide Step, Enabled, ForCall;
    if i < j {
      ServesOneCall(trace, steps, i, j - 1, p, concurrent, flags);
      StaysForCall(trace[j - 1], steps[j - 1], p, concurrent, flags);
    }
  }

  /** The strategy that `add_logger` registers comes last and has the mode and the flags it was called with. */
  lemma RegisteredAsCalled(trace: seq<State>, steps: seq<Action>, i: nat, j: nat, p: ThreadId, concurrent: bool, flags: Flags)
    requires IsRun(trace, steps) && i < j < |steps|
    requires steps[i] == Adder(p, CallAdd(concurrent, flags)) && steps[j] == Adder(p, AddAppend)
    requires forall m | i < m < j :: p in trace[m].adders
    ensures trace[j + 1].registry == trace[j].registry + [|trace[j].strategies|]
    ensures trace[j + 1].strategies == trace[j].strategies + [Strategy(concurrent, flags, None, 0)]
  {
    assert trace[i + 1] == Step(trace[i], steps[i]) && trace[j + 1] == Step(trace[j], steps[j]);
    ServesOneCall(trace, steps, i + 1, j, p, concurrent, flags);
  }

  lemma FlagsStep(s: State, a: Action, id: StrategyId)
    requires Inv(s) && Enabled(s, a) && id < |s.strategies|
    ensures id < |Step(s, a).strategies|
    ensures Step(s, a).strategies[id].concurrent == s.strategies[id].concurrent
    ensures Step(s, a).strategies[id].flags == if a.SetFlags? && a.id == id then a.flags else s.strategies[id].flags
  {
    hide Inv, LogStep, LogEnabled;
    if a.Logger? { LogStepFrame(s, a.p, a.log); }
  }

  /** A strategy keeps its mode for good, and its flags until a setter changes them to what it was given. */
  lemma {:induction false} FlagsFollowTheCalls(trace: seq<State>, steps: seq<Action>, i: nat, j: nat, id: StrategyId)
    requires IsRun(trace, steps) && i <= j < |trace| && id < |trace[i].strategies|
    ensures id < |trace[j].strategies| && trace[j].strategies[id].concurrent == trace[i].strategies[id].concurrent
    ensures (forall k | i <= k < j :: !(steps[k].SetFlags? && steps[k].id == id)) ==>
              trace[j].strategies[id].flags == trace[i].strategies[id].flags
    ensures i < j && steps[i].SetFlags? && steps[i].id == id
            && (forall k | i < k < j :: !(steps[k].SetFlags? && steps[k].id == id)) ==>
              trace[j].strategies[id].flags == steps[i].flags
  {
    hide Step, Enabled, Inv;
    if i < j {
      FlagsFollowTheCalls(trace, steps, i, j - 1, id);
      RunKeepsInv(trace, steps, j - 1);
      FlagsStep(trace[j - 1], steps[j - 1], id);
    }
  }
}
