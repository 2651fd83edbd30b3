/**
 The console logger's life cycle.  Threads call `log`, `set_config` and `shutdown` while dedicated
 executors, modelled by `SingleThreadExecutor`, run the queued writes.  Each critical section of the
 logger's mutex and of an executor's mutex is one step.  The configurations covered are the
 synchronous ones and the asynchronous ones with a dedicated executor under `QueuePolicy::Block`.
 */
module ConsoleLogger {
  import opened Options
  import opened QueuePolicies
  import E = SingleThreadExecutor

  type ThreadId = nat
  type ExecutorId = nat
  type Stream = nat
  type Level = int

  const COUT: Stream := 0
  const CERR: Stream := 1

  datatype Kind = Cout | Cerr | Custom(stream: Option<Stream>)

  datatype Route = Route(minLevel: Level, maxLevel: Level, kind: Kind)

  datatype Config = Config(async: bool, dedicated: bool, capacity: nat, policy: QueuePolicy, routes: seq<Route>)
  {
    /** The configurations for which the logger alone decides that nothing is lost. */
    predicate Covered() { async ==> dedicated && policy.Block? }
  }

  // ------------------------------------------------------------------- routing

  /** The route applies to the level and names a stream. */
  predicate Applies(r: Route, level: Level)
  {
    r.minLevel <= level <= r.maxLevel && !(r.kind.Custom? && r.kind.stream.None?)
  }

  function Target(r: Route): Stream
    requires !(r.kind.Custom? && r.kind.stream.None?)
  {
    match r.kind
    case Cout => COUT
    case Cerr => CERR
    case Custom(stream) => stream.value
  }

  /** The stream of the first route that applies, or the primary stream. */
  function Select(routes: seq<Route>, primary: Stream, level: Level): Stream
  {
    if routes == [] then primary
    else if Applies(routes[0], level) then Target(routes[0])
    else Select(routes[1..], primary, level)
  }

  /**
   What routing promises: the first route whose range holds the level and which names a stream decides,
   and without one the stream is the primary one.
   */
  ghost predicate Routed(routes: seq<Route>, primary: Stream, level: Level, stream: Stream)
  {
    && (forall i | 0 <= i < |routes|
                   && routes[i].minLevel <= level <= routes[i].maxLevel && routes[i].kind != Custom(None)
                   && (forall k | 0 <= k < i ::
                         level < routes[k].minLevel || routes[k].maxLevel < level || routes[k].kind == Custom(None)) ::
          match routes[i].kind
          case Cout => stream == COUT
          case Cerr => stream == CERR
          case Custom(target) => target == Some(stream))
    && ((forall k | 0 <= k < |routes| ::
           level < routes[k].minLevel || routes[k].maxLevel < level || routes[k].kind == Custom(None)) ==> stream == primary)
  }

  lemma {:induction false} SelectIsRouted(routes: seq<Route>, primary: Stream, level: Level)
    ensures Routed(routes, primary, level, Select(routes, primary, level))
  {
    if routes != [] && !Applies(routes[0], level) {
      SelectIsRouted(routes[1..], primary, level);
      assert forall k | 0 < k < |routes| :: routes[k] == routes[1..][k - 1];
      assert forall k | 0 <= k < |routes| - 1 :: routes[1..][k] == routes[k + 1];
    }
  }

  /** `select_stream_for` */
  method SelectStreamFor(routes: seq<Route>, primary: Stream, level: Level) returns (stream: Stream)
    ensures stream == Select(routes, primary, level)
    ensures Routed(routes, primary, level, stream)
  {
    SelectIsRouted(routes, primary, level);
    var i := 0;
    while i < |routes|
      invariant 0 <= i <= |routes|
      invariant Select(routes, primary, level) == Select(routes[i..], primary, level)
    {
      var route := routes[i];
      assert routes[i..][1..] == routes[i + 1..];
      i := i + 1;
      if route.minLevel > route.maxLevel { continue; }
      if level < route.minLevel || level > route.maxLevel { continue; }
      match route.kind
      case Cout => return COUT;
      case Cerr => return CERR;
      case Custom(target) =>
        if target.Some? { return target.value; }
    }
    return primary;
  }

  // --------------------------------------------------------------------- state

  /** One message that passed the shutdown check, and the stream chosen for it. */
  datatype Line = Line(id: nat, stream: Stream)

  datatype LogPc =
    | LogEnter(level: Level)
    | LogLock(level: Level)
    | LogEnqueue(line: Line, to: ExecutorId)
    | LogBlocked(line: Line, to: ExecutorId)
    | LogFinish
  {
    /** Counted in `m_pending_enqueues`. */
    predicate Counted() { LogEnqueue? || LogBlocked? || LogFinish? }

    predicate Carries() { LogEnqueue? || LogBlocked? }
  }

  /** Program counter of one `set_config` or `shutdown`. */
  datatype OpPc =
    | ConfigEnter(config: Config)
    | ConfigWait(config: Config)
    | ShutdownEnter
    | ShutdownWait
    | StopOld(victim: ExecutorId)
    | JoinOld(victim: ExecutorId)
  {
    predicate Closes(e: ExecutorId) { (StopOld? || JoinOld?) && victim == e }
  }

  /** Who is responsible for an executor (history). */
  datatype Status = InUse | Closing(closer: ThreadId) | Closed

  /** `wrote` tells whether the running task has done its write yet. */
  datatype Exec = Exec(core: E.State<Line>, wrote: bool, status: Status)

  /** Where an admitted line went (history). */
  datatype Place = Direct | WithThread(p: ThreadId) | WithExecutor(e: ExecutorId)

  /** The fields after `ops` are histories. */
  datatype State = State(
    config: Config,
    primary: Stream,
    shutdown: bool,
    current: Option<ExecutorId>,
    pending: int,
    execs: seq<Exec>,
    logs: map<ThreadId, LogPc>,
    ops: map<ThreadId, OpPc>,
    taken: bool,
    admitted: seq<Line>,
    places: seq<Place>,
    written: seq<Line>)

  /** `configure_executor` */
  function Configure(x: Exec, c: Config): Exec
  {
    x.(core := E.Step(E.Step(x.core, E.SetLimit(c.capacity)), E.SetPolicy(c.policy)))
  }

  function FreshExec(c: Config): Exec
  {
    Configure(Exec(E.Init(), false, InUse), c)
  }

  /** The constructor. */
  function Init(config: Config, primary: Stream): State
  {
    if config.async && config.dedicated then
      State(config, primary, false, Some(0), 0, [FreshExec(config)], map[], map[], false, [], [], [])
    else
      State(config, primary, false, None, 0, [], map[], map[], false, [], [], [])
  }

  datatype LogOp = CallLog(level: Level) | LogCheck | LogSection | LogAdd | LogResume | LogDone
  datatype ExecOp = ExecTake | ExecWrite | ExecFinish
  datatype LifeOp =
    | CallConfig(config: Config) | ConfigCheck | ConfigApply
    | CallShutdown | ShutdownFlag | ShutdownTake
    | StopExec | JoinExec

  datatype Action =
    | Log(p: ThreadId, log: LogOp)
    | Execute(e: ExecutorId, exec: ExecOp)
    | Manage(q: ThreadId, life: LifeOp)

  // ----------------------------------------------------------------------- log

  predicate LogEnabled(s: State, p: ThreadId, op: LogOp)
  {
    match op
    case CallLog(_) => p !in s.logs
    case LogCheck => p in s.logs && s.logs[p].LogEnter?
    case LogSection => p in s.logs && s.logs[p].LogLock? && (!s.shutdown && s.config.async ==> s.current.Some?)
    case LogAdd =>
      && p in s.logs && s.logs[p].LogEnqueue? && s.logs[p].to < |s.execs|
      && E.Enabled(s.execs[s.logs[p].to].core, E.AddTask(p, s.logs[p].line))
    case LogResume =>
      && p in s.logs && s.logs[p].LogBlocked? && s.logs[p].to < |s.execs|
      && E.Enabled(s.execs[s.logs[p].to].core, E.ResumeAdd(p))
    case LogDone => p in s.logs && s.logs[p].LogFinish?
  }

  function SetLog(s: State, p: ThreadId, pc: LogPc): State
  {
    s.(logs := s.logs[p := pc])
  }

  function LeaveLog(s: State, p: ThreadId): State
  {
    s.(logs := s.logs - {p})
  }

  /** The line a call of `log` at this instant is turned into. */
  function NewLine(s: State, level: Level): Line
  {
    Line(|s.admitted|, Select(s.config.routes, s.primary, level))
  }

  /** The executor accepted the line, so it is no longer with the thread. */
  function HandOver(s: State, p: ThreadId, x: Exec): State
    requires p in s.logs && s.logs[p].Carries() && s.logs[p].to < |s.execs|
  {
    var e := s.logs[p].to;
    var id := s.logs[p].line.id;
    s.(execs := s.execs[e := x],
       logs := s.logs[p := LogFinish],
       places := if id < |s.places| then s.places[id := WithExecutor(e)] else s.places)
  }

  function LogStep(s: State, p: ThreadId, op: LogOp): State
    requires LogEnabled(s, p, op)
  {
    match op
    case CallLog(level) => SetLog(s, p, LogEnter(level))
    case LogCheck => if s.shutdown then LeaveLog(s, p) else SetLog(s, p, LogLock(s.logs[p].level))
    case LogSection =>
      if s.shutdown then LeaveLog(s, p)
      else
        var line := NewLine(s, s.logs[p].level);
        if !s.config.async then
          LeaveLog(s, p).(admitted := s.admitted + [line], places := s.places + [Direct], written := s.written + [line])
        else
          SetLog(s, p, LogEnqueue(line, s.current.value)).(
            admitted := s.admitted + [line], places := s.places + [WithThread(p)], pending := s.pending + 1)
    case LogAdd =>
      var x := s.execs[s.logs[p].to];
      var x' := x.(core := E.Step(x.core, E.AddTask(p, s.logs[p].line)));
      if p in x'.core.blocked then
        SetLog(s, p, LogBlocked(s.logs[p].line, s.logs[p].to)).(execs := s.execs[s.logs[p].to := x'])
      else
        HandOver(s, p, x')
    case LogResume =>
      var x := s.execs[s.logs[p].to];
      HandOver(s, p, x.(core := E.Step(x.core, E.ResumeAdd(p))))
    case LogDone => LeaveLog(s, p).(pending := s.pending - 1)
  }

  // ----------------------------------------------------------------- executors

  predicate ExecEnabled(s: State, e: ExecutorId, op: ExecOp)
  {
    && e < |s.execs|
    && var x := s.execs[e];
       match op
       case ExecTake => E.Enabled(x.core, E.TakeTask)
       case ExecWrite => x.core.worker.Running? && !x.wrote
       case ExecFinish => E.Enabled(x.core, E.FinishTask) && x.wrote
  }

  function ExecStep(s: State, e: ExecutorId, op: ExecOp): State
    requires ExecEnabled(s, e, op)
  {
    var x := s.execs[e];
    match op
    case ExecTake => s.(execs := s.execs[e := x.(core := E.Step(x.core, E.TakeTask))])
    case ExecWrite => s.(execs := s.execs[e := x.(wrote := true)], written := s.written + [x.core.worker.task])
    case ExecFinish => s.(execs := s.execs[e := x.(core := E.Step(x.core, E.FinishTask), wrote := false)])
  }

  // ----------------------------------------------------- set_config, shutdown

  predicate LifeEnabled(s: State, q: ThreadId, op: LifeOp)
  {
    match op
    case CallConfig(config) => q !in s.ops && config.Covered()
    case ConfigCheck => q in s.ops && s.ops[q].ConfigEnter?
    case ConfigApply => q in s.ops && s.ops[q].ConfigWait? && s.pending == 0 && (s.current.Some? ==> s.current.value < |s.execs|)
    case CallShutdown => q !in s.ops
    case ShutdownFlag => q in s.ops && s.ops[q].ShutdownEnter?
    case ShutdownTake => q in s.ops && s.ops[q].ShutdownWait? && s.pending == 0 && (s.current.Some? ==> s.current.value < |s.execs|)
    case StopExec => q in s.ops && s.ops[q].StopOld? && s.ops[q].victim < |s.execs|
    case JoinExec => q in s.ops && s.ops[q].JoinOld? && s.ops[q].victim < |s.execs| && s.execs[s.ops[q].victim].core.worker.Exited?
  }

  function SetOp(s: State, q: ThreadId, pc: OpPc): State
  {
    s.(ops := s.ops[q := pc])
  }

  function LeaveOp(s: State, q: ThreadId): State
  {
    s.(ops := s.ops - {q})
  }

  /** The logger lets go of its executor; the caller will stop and join it. */
  function Detach(s: State, q: ThreadId): State
    requires s.current.Some? && s.current.value < |s.execs|
  {
    var e := s.current.value;
    SetOp(s, q, StopOld(e)).(current := None, execs := s.execs[e := s.execs[e].(status := Closing(q))])
  }

  function LifeStep(s: State, q: ThreadId, op: LifeOp): State
    requires LifeEnabled(s, q, op)
  {
    match op
    case CallConfig(config) => SetOp(s, q, ConfigEnter(config))
    case ConfigCheck => if s.shutdown then LeaveOp(s, q) else SetOp(s, q, ConfigWait(s.ops[q].config))
    case ConfigApply =>
      var c := s.ops[q].config;
      if c.async && c.dedicated then
        if s.current.None? then
          LeaveOp(s, q).(config := c, current := Some(|s.execs|), execs := s.execs + [FreshExec(c)])
        else
          var e := s.current.value;
          LeaveOp(s, q).(config := c, execs := s.execs[e := Configure(s.execs[e], c)])
      else if s.current.Some? then Detach(s, q).(config := c)
      else LeaveOp(s, q).(config := c)
    case CallShutdown => SetOp(s, q, ShutdownEnter)
    case ShutdownFlag => if s.shutdown then LeaveOp(s, q) else SetOp(s, q, ShutdownWait).(shutdown := true)
    case ShutdownTake =>
      if s.current.Some? then Detach(s, q).(taken := true) else LeaveOp(s, q).(taken := true)
    case StopExec =>
      var e := s.ops[q].victim;
      var x := s.execs[e];
      SetOp(s, q, JoinOld(e)).(execs := s.execs[e := x.(core := E.Step(x.core, E.RequestStop))])
    case JoinExec =>
      var e := s.ops[q].victim;
      LeaveOp(s, q).(execs := s.execs[e := s.execs[e].(status := Closed)])
  }

  // ---------------------------------------------------------------- every step

  predicate Enabled(s: State, a: Action)
  {
    match a
    case Log(p, op) => LogEnabled(s, p, op)
    case Execute(e, op) => ExecEnabled(s, e, op)
    case Manage(q, op) => LifeEnabled(s, q, op)
  }

  function Step(s: State, a: Action): State
    requires Enabled(s, a)
  {
    match a
    case Log(p, op) => LogStep(s, p, op)
    case Execute(e, op) => ExecStep(s, e, op)
    case Manage(q, op) => LifeStep(s, q, op)
  }
}
