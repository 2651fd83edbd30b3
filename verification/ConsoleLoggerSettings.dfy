/** The console logger works with the configuration it was given last, and takes nothing after a shutdown. */
module ConsoleLoggerSettings {
  import opened ConsoleLogger
  import opened ConsoleLoggerSafety
  import E = SingleThreadExecutor

  // ------------------------------------------------------------- who changes what

  lemma LogKeepsSettings(s: State, p: ThreadId, op: LogOp)
    requires LogEnabled(s, p, op)
    ensures var s' := LogStep(s, p, op);
            && s'.config == s.config && s'.primary == s.primary && s'.shutdown == s.shutdown
            && s'.ops == s.ops && s'.current == s.current
            && (s.shutdown ==> s'.admitted == s.admitted)
  {
    hide E.Step, NewLine;
  }

  lemma LifeKeepsFlag(s: State, q: ThreadId, op: LifeOp)
    requires LifeEnabled(s, q, op)
    ensures var s' := LifeStep(s, q, op);
            && s'.primary == s.primary && s'.admitted == s.admitted && (s.shutdown ==> s'.shutdown)
            && (!op.ConfigApply? ==> s'.config == s.config)
  {
    hide E.Step, Configure, FreshExec;
    match op
    case ConfigApply =>
    case _ =>
  }

  lemma ExecKeepsSettings(s: State, e: ExecutorId, op: ExecOp)
    requires ExecEnabled(s, e, op)
    ensures var s' := ExecStep(s, e, op);
            && s'.config == s.config && s'.primary == s.primary && s'.shutdown == s.shutdown
            && s'.ops == s.ops && s'.current == s.current && s'.admitted == s.admitted
  {
    hide E.Step;
  }

  lemma StepKeepsSettings(s: State, a: Action)
    requires Enabled(s, a)
    ensures var s' := Step(s, a);
            && s'.primary == s.primary && (s.shutdown ==> s'.shutdown && s'.admitted == s.admitted)
            && (!(a.Manage? && a.life.ConfigApply?) ==> s'.config == s.config)
            && (!a.Manage? ==> s'.ops == s.ops && s'.current == s.current)
  {
    hide LogStep, ExecStep, LifeStep, LogEnabled, ExecEnabled, LifeEnabled;
    match a
    case Log(p, op) => LogKeepsSettings(s, p, op);
    case Execute(e, op) => ExecKeepsSettings(s, e, op);
    case Manage(q, op) => LifeKeepsFlag(s, q, op);
  }

  /** Once the shutdown flag is up no line is admitted any more. */
  lemma {:induction false} NothingAdmittedAfterShutdown(trace: seq<State>, steps: seq<Action>, i: nat, j: nat)
    requires IsRun(trace, steps) && i <= j < |trace| && trace[i].shutdown
    ensures trace[j].shutdown && trace[j].admitted == trace[i].admitted
  {
    hide Step, Enabled;
    if i < j {
      NothingAdmittedAfterShutdown(trace, steps, i, j - 1);
      StepKeepsSettings(trace[j - 1], steps[j - 1]);
    }
  }

  /** Every `shutdown` that gets past its first step leaves the flag up, and with it the logger closed, for good. */
  lemma ShutdownIsForGood(trace: seq<State>, steps: seq<Action>, i: nat, j: nat, q: ThreadId)
    requires IsRun(trace, steps) && i < j < |trace| && steps[i] == Manage(q, ShutdownFlag)
    ensures trace[j].shutdown && trace[j].admitted == trace[i].admitted
  {
    assert trace[i + 1] == Step(trace[i], steps[i]);
    NothingAdmittedAfterShutdown(trace, steps, i + 1, j);
  }

  // ------------------------------------------------------------------- set_config

  predicate ForConfig(s: State, q: ThreadId, c: Config)
  {
    q in s.ops && (s.ops[q].ConfigEnter? || s.ops[q].ConfigWait?) ==> s.ops[q].config == c
  }

  lemma StaysForConfig(s: State, a: Action, q: ThreadId, c: Config)
    requires Enabled(s, a) && q in s.ops && ForConfig(s, q, c)
    ensures ForConfig(Step(s, a), q, c)
  {
    hide LogStep, ExecStep, LifeStep, LogEnabled, ExecEnabled, LifeEnabled;
    if a.Manage? { LifeStaysForConfig(s, a.q, a.life, q, c); } else { StepKeepsSettings(s, a); }
  }

  lemma LifeStaysForConfig(s: State, o: ThreadId, op: LifeOp, q: ThreadId, c: Config)
    requires LifeEnabled(s, o, op) && q in s.ops && ForConfig(s, q, c)
    ensures ForConfig(LifeStep(s, o, op), q, c)
  {
    hide E.Step, Configure, FreshExec;
    match op
    case ConfigApply =>
    case _ =>
  }

  lemma {:induction false} ServesOneConfig(trace: seq<State>, steps: seq<Action>, i: nat, j: nat, q: ThreadId, c: Config)
    requires IsRun(trace, steps) && i <= j < |trace| && ForConfig(trace[i], q, c) && forall k | i <= k < j :: q in trace[k].ops
    ensures ForConfig(trace[j], q, c)
  {
    hide Step, Enabled, ForConfig;
    if i < j {
      ServesOneConfig(trace, steps, i, j - 1, q, c);
      StaysForConfig(trace[j - 1], steps[j - 1], q, c);
    }
  }

  lemma {:induction false} ConfigStays(trace: seq<State>, steps: seq<Action>, i: nat, j: nat)
    requires IsRun(trace, steps) && i <= j < |trace|
    requires forall k | i <= k < j :: !(steps[k].Manage? && steps[k].life.ConfigApply?)
    ensures trace[j].config == trace[i].config
  {
    hide Step, Enabled;
    if i < j {
      ConfigStays(trace, steps, i, j - 1);
      StepKeepsSettings(trace[j - 1], steps[j - 1]);
    }
  }

  /** A `set_config` that is applied puts the configuration it was called with in force, until another is applied. */
  lemma ConfigFollowsTheCall(trace: seq<State>, steps: seq<Action>, i: nat, j: nat, n: nat, q: ThreadId, c: Config)
    requires IsRun(trace, steps) && i < j < n < |trace|
    requires steps[i] == Manage(q, CallConfig(c)) && steps[j] == Manage(q, ConfigApply)
    requires forall k | i < k < j :: q in trace[k].ops
    requires forall k | j < k < n :: !(steps[k].Manage? && steps[k].life.ConfigApply?)
    ensures trace[n].config == c
  {
    assert trace[i + 1] == Step(trace[i], steps[i]) && trace[j + 1] == Step(trace[j], steps[j]);
    ServesOneConfig(trace, steps, i + 1, j, q, c);
    ConfigStays(trace, steps, j + 1, n);
  }

  // ---------------------------------------------------------------- the level of a call

  predicate ForLevel(s: State, p: ThreadId, level: Level)
  {
    p in s.logs && (s.logs[p].LogEnter? || s.logs[p].LogLock?) ==> s.logs[p].level == level
  }

  lemma LogStaysForLevel(s: State, q: ThreadId, op: LogOp, p: ThreadId, level: Level)
    requires LogEnabled(s, q, op) && p in s.logs && ForLevel(s, p, level)
    ensures ForLevel(LogStep(s, q, op), p, level)
  {
    hide E.Step, NewLine;
  }

  lemma ExecLeavesLogs(s: State, e: ExecutorId, op: ExecOp)
    requires ExecEnabled(s, e, op)
    ensures ExecStep(s, e, op).logs == s.logs
  {
    hide E.Step;
  }

  lemma LifeLeavesLogs(s: State, q: ThreadId, op: LifeOp)
    requires LifeEnabled(s, q, op)
    ensures LifeStep(s, q, op).logs == s.logs
  {
    hide E.Step, Configure, FreshExec;
    match op
    case ConfigApply =>
    case _ =>
  }

  lemma OthersLeaveLogs(s: State, a: Action)
    requires Enabled(s, a) && !a.Log?
    ensures Step(s, a).logs == s.logs
  {
    hide LogStep, ExecStep, LifeStep, LogEnabled, ExecEnabled, LifeEnabled;
    match a
    case Execute(e, op) => ExecLeavesLogs(s, e, op);
    case Manage(q, op) => LifeLeavesLogs(s, q, op);
  }

  lemma {:induction false} ServesOneLevel(trace: seq<State>, steps: seq<Action>, i: nat, j: nat, p: ThreadId, level: Level)
    requires IsRun(trace, steps) && i <= j < |trace| && ForLevel(trace[i], p, level) && forall k | i <= k < j :: p in trace[k].logs
    ensures ForLevel(trace[j], p, level)
  {
    hide LogStep, ExecStep, LifeStep, LogEnabled, ExecEnabled, LifeEnabled, ForLevel;
    if i < j {
      ServesOneLevel(trace, steps, i, j - 1, p, level);
      var s, a := trace[j - 1], steps[j - 1];
      if a.Log? { LogStaysForLevel(s, a.p, a.log, p, level); } else { SameLogs(s, a, p, level); }
    }
  }

  lemma SameLogs(s: State, a: Action, p: ThreadId, level: Level)
    requires Enabled(s, a) && !a.Log? && ForLevel(s, p, level)
    ensures ForLevel(Step(s, a), p, level)
  {
    hide Step, Enabled;
    OthersLeaveLogs(s, a);
  }

  /**
   A message goes to the stream that its own level and the routes in force when it is admitted promise,
   whatever is configured later.
   */
  lemma StreamFollowsTheCall(trace: seq<State>, steps: seq<Action>, i: nat, m: nat, n: nat, p: ThreadId, level: Level)
    requires IsRun(trace, steps) && i < m < n < |trace|
    requires steps[i] == Log(p, CallLog(level)) && steps[m] == Log(p, LogSection) && !trace[m].shutdown
    requires forall k | i < k < m :: p in trace[k].logs
    ensures |trace[m].admitted| < |trace[n].admitted|
    ensures Routed(trace[m].config.routes, trace[m].primary, level, trace[n].admitted[|trace[m].admitted|].stream)
  {
    assert trace[i + 1] == Step(trace[i], steps[i]);
    ServesOneLevel(trace, steps, i + 1, m, p, level);
    assert Enabled(trace[m], steps[m]);
    hide Step, Routed;
    StreamOfTheCall(trace, steps, m, n, p);
  }

  // -------------------------------------------------------------- the executor in use

  /** The executor in use has the limit and the policy of the configuration in force. */
  ghost predicate Configured(s: State)
  {
    s.current.Some? && s.current.value < |s.execs| ==>
      var core := s.execs[s.current.value].core; core.limit == s.config.capacity && core.policy == s.config.policy
  }

  lemma LogKeepsConfigured(s: State, p: ThreadId, op: LogOp)
    requires LogEnabled(s, p, op) && Configured(s)
    ensures Configured(LogStep(s, p, op))
  {
    hide NewLine;
  }

  lemma ExecKeepsConfigured(s: State, e: ExecutorId, op: ExecOp)
    requires ExecEnabled(s, e, op) && Configured(s)
    ensures Configured(ExecStep(s, e, op))
  {
  }

  lemma LifeKeepsConfigured(s: State, q: ThreadId, op: LifeOp)
    requires LifeEnabled(s, q, op) && Configured(s)
    requires s.current.Some? && s.current.value < |s.execs| ==> !s.execs[s.current.value].core.stop
    ensures Configured(LifeStep(s, q, op))
  {
  }

  lemma StepKeepsConfigured(s: State, a: Action)
    requires Inv(s) && Enabled(s, a) && Configured(s)
    ensures Configured(Step(s, a))
  {
    InUseIsOpen(s);
    hide Inv, Configured, LogStep, ExecStep, LifeStep, LogEnabled, ExecEnabled, LifeEnabled;
    match a
    case Log(p, op) => LogKeepsConfigured(s, p, op);
    case Execute(e, op) => ExecKeepsConfigured(s, e, op);
    case Manage(q, op) => LifeKeepsConfigured(s, q, op);
  }

  lemma InUseIsOpen(s: State)
    requires Inv(s)
    ensures s.current.Some? ==> s.current.value < |s.execs| && !s.execs[s.current.value].core.stop
  {
    hide CoreOk, AcceptedOk, LogOk, PlaceOk, WrittenOk, OpOk, BlockedOk;
    if s.current.Some? { assert ExecOk(s, s.current.value); }
  }

  /** On every run the executor in use has the queue limit and the policy of the configuration in force. */
  lemma {:induction false} ExecutorFollowsConfig(trace: seq<State>, steps: seq<Action>, n: nat)
    requires IsRun(trace, steps) && n < |trace|
    ensures trace[n].current.Some? ==>
              && trace[n].current.value < |trace[n].execs|
              && var core := trace[n].execs[trace[n].current.value].core;
                 core.limit == trace[n].config.capacity && core.policy == trace[n].config.policy
  {
    hide Step, Enabled, Inv;
    RunKeepsInv(trace, steps, n);
    InUseIsOpen(trace[n]);
    if n > 0 {
      ExecutorFollowsConfig(trace, steps, n - 1);
      RunKeepsInv(trace, steps, n - 1);
      StepKeepsConfigured(trace[n - 1], steps[n - 1]);
    }
  }
}
