/**
 What the console logger's `wait` guarantees.  It only reads, so a call is given by two instants of a
 run: the critical section in which it finds no pending enqueue and picks the executor, and its return.
 The runs at the end show what neither `wait` nor the order of the calls rules out.
 */
module ConsoleLoggerWait {
  import opened Options
  import opened QueuePolicies
  import opened ConsoleLogger
  import opened ConsoleLoggerSafety
  import opened ConsoleLoggerOrder
  import E = SingleThreadExecutor

  /**
   A call of `wait` whose critical section is at `i` may return at `j`.  With an executor in use it waits
   for that executor's queue and worker; without one nothing that is modelled holds it.
   */
  ghost predicate WaitReturns(trace: seq<State>, i: nat, j: nat)
  {
    && i <= j < |trace| && trace[i].pending == 0
    && match trace[i].current
       case None => true
       case Some(e) => e < |trace[j].execs| && trace[j].execs[e].core.queue == [] && trace[j].execs[e].core.active == 0
  }

  /** The line is still with an executor that `set_config` or `shutdown` has taken away from the logger. */
  ghost predicate LeftBehind(s: State, k: nat, e: ExecutorId)
  {
    PlacedWith(s, k, e) && e < |s.execs| && s.execs[e].status.Closing? && s.admitted[k] !in s.written
  }

  // --------------------------------------------------------------- what is written

  lemma NobodyCarries(s: State, k: nat)
    requires Inv(s) && s.pending == 0 && k < |s.admitted|
    ensures |s.places| == |s.admitted| && !s.places[k].WithThread?
  {
    hide ExecOk, AcceptedOk, LogOk, OpOk;
    assert PlaceOk(s, k);
    assert forall p | p in s.logs && s.logs[p].Carries() :: p in Pending(s);
  }

  /** A line whose executor is closed, or which never went through one, is written already. */
  lemma WrittenOrWaitedFor(s: State, k: nat)
    requires Inv(s) && s.pending == 0 && k < |s.admitted| && forall e :: !LeftBehind(s, k, e)
    ensures s.admitted[k] in s.written || (s.current.Some? && PlacedWith(s, k, s.current.value))
  {
    hide AcceptedOk, LogOk, OpOk, E.Tasks, E.Only;
    NobodyCarries(s, k);
    assert PlaceOk(s, k);
    if s.places[k].WithExecutor? {
      var e := s.places[k].e;
      assert ExecOk(s, e) && !LeftBehind(s, k, e);
      if s.execs[e].status.Closed? { assert s.execs[e].core.accepted == s.execs[e].core.finished; }
    }
  }

  /** An executor with an empty queue and an idle worker has written all it accepted. */
  lemma IdleHasWritten(s: State, e: ExecutorId, line: Line)
    requires Inv(s) && e < |s.execs| && s.execs[e].core.queue == [] && s.execs[e].core.active == 0
    requires line in s.execs[e].core.accepted
    ensures line in s.written
  {
    hide LogOk, OpOk, E.Tasks, E.Only;
    var c := s.execs[e].core;
    assert ExecOk(s, e) && AcceptedOk(s, e);
    assert c.accepted == c.finished;
    var k :| 0 <= k < |c.accepted| && c.accepted[k] == line;
    assert PlaceOk(s, line.id);
  }

  /**
   When `wait` returns, every line that was admitted by its critical section has been written, exactly
   once, unless the line was left behind with an executor being closed.
   */
  lemma WaitWrites(trace: seq<State>, steps: seq<Action>, i: nat, j: nat, k: nat)
    requires IsRun(trace, steps) && WaitReturns(trace, i, j) && k < |trace[i].admitted|
    requires forall e :: !LeftBehind(trace[i], k, e)
    ensures TimesWritten(trace[j], trace[i].admitted[k]) == 1
  {
    hide IsRun, Inv, LeftBehind;
    RunKeepsInv(trace, steps, i);
    RunKeepsInv(trace, steps, j);
    RunGrows(trace, steps, i, j);
    var line := trace[i].admitted[k];
    WrittenOrWaitedFor(trace[i], k);
    if line !in trace[i].written {
      var l := AcceptedAt(trace[i], k, trace[i].current.value);
      assert trace[j].execs[trace[i].current.value].core.accepted[l] == line;
      IdleHasWritten(trace[j], trace[i].current.value, line);
    }
    AtMostOnce(trace, steps, j, k);
  }

  // -------------------------------------------------------------- what may be missed

  lemma Extend(trace: seq<State>, steps: seq<Action>, a: Action) returns (trace': seq<State>, steps': seq<Action>)
    requires IsRun(trace, steps) && Enabled(trace[|steps|], a)
    ensures trace' == trace + [Step(trace[|steps|], a)] && steps' == steps + [a] && IsRun(trace', steps')
  {
    hide Step, Enabled, Init;
    trace', steps' := trace + [Step(trace[|steps|], a)], steps + [a];
    forall i | 0 <= i < |steps'|
      ensures Enabled(trace'[i], steps'[i]) && trace'[i + 1] == Step(trace'[i], steps'[i])
    {
      if i < |steps| {
        assert trace'[i] == trace[i] && trace'[i + 1] == trace[i + 1] && steps'[i] == steps[i];
      }
    }
  }

  /** How many steps the executor needs until it is idle. */
  ghost function Work(x: Exec): nat
  {
    3 * |x.core.queue| + if x.core.worker.Running? then if x.wrote then 1 else 2 else 0
  }

  ghost function NextOp(x: Exec): ExecOp
  {
    if x.core.worker.Running? then if x.wrote then ExecFinish else ExecWrite else ExecTake
  }

  lemma WorkGoesDown(s: State, e: ExecutorId)
    requires e < |s.execs| && CoreOk(s.execs[e]) && Work(s.execs[e]) > 0
    ensures ExecEnabled(s, e, NextOp(s.execs[e]))
    ensures var s' := ExecStep(s, e, NextOp(s.execs[e]));
            && s' == s.(execs := s.execs[e := s'.execs[e]], written := s'.written)
            && Work(s'.execs[e]) + 1 == Work(s.execs[e])
  {
    hide E.Tasks, E.Only;
  }

  lemma NoWorkIsIdle(x: Exec)
    requires CoreOk(x) && Work(x) == 0
    ensures x.core.queue == [] && x.core.active == 0
  {
    hide E.Tasks, E.Only;
  }

  /** The executor can always work off its queue while everybody else rests. */
  lemma {:induction false} WorksOff(trace: seq<State>, steps: seq<Action>, e: ExecutorId)
    returns (trace': seq<State>, steps': seq<Action>)
    requires IsRun(trace, steps) && e < |trace[|steps|].execs|
    ensures IsRun(trace', steps') && trace <= trace'
    ensures var s, s' := trace[|steps|], trace'[|steps'|];
            && |s'.execs| == |s.execs| && s'.execs[e].core.queue == [] && s'.execs[e].core.active == 0
            && s' == s.(execs := s.execs[e := s'.execs[e]], written := s'.written)
    decreases Work(trace[|steps|].execs[e])
  {
    hide Inv, Work, NextOp, ExecStep, ExecEnabled, CoreOk, Init;
    var s := trace[|steps|];
    RunKeepsInv(trace, steps, |steps|);
    ExecFacts(s, e);
    if Work(s.execs[e]) == 0 {
      NoWorkIsIdle(s.execs[e]);
      trace', steps' := trace, steps;
      assert s.execs[e := s.execs[e]] == s.execs;
    } else {
      WorkGoesDown(s, e);
      var longer, more := Extend(trace, steps, Execute(e, NextOp(s.execs[e])));
      trace', steps' := WorksOff(longer, more, e);
    }
  }

  lemma UnwrittenUntilDone(s: State, k: nat, e: ExecutorId)
    requires Inv(s) && PlacedWith(s, k, e) && e < |s.execs|
    ensures s.admitted[k] in s.written <==> s.admitted[k] in Done(s.execs[e])
  {
    hide ExecOk, AcceptedOk, LogOk, OpOk, Done;
    assert PlaceOk(s, k);
  }

  lemma ClosingIsNotCurrent(s: State, e: ExecutorId)
    requires Inv(s) && e < |s.execs| && s.execs[e].status.Closing? && s.current.Some?
    ensures s.current.value < |s.execs| && s.current.value != e
  {
    hide ExecOk, AcceptedOk, LogOk, OpOk, PlaceOk;
  }

  /**
   A line left behind may be missed: the run can go on so that `wait` returns while the line is not
   written.  With `WaitWrites` this makes the condition exact.
   */
  lemma WaitMayMiss(trace: seq<State>, steps: seq<Action>, k: nat, e: ExecutorId)
    requires IsRun(trace, steps) && trace[|steps|].pending == 0 && LeftBehind(trace[|steps|], k, e)
    ensures exists trace': seq<State>, steps': seq<Action> ::
              && IsRun(trace', steps') && trace <= trace'
              && WaitReturns(trace', |steps|, |steps'|)
              && trace[|steps|].admitted[k] !in trace'[|steps'|].written
  {
    hide Inv, Done, Init;
    var s := trace[|steps|];
    RunKeepsInv(trace, steps, |steps|);
    if s.current.None? {
      assert WaitReturns(trace, |steps|, |steps|);
    } else {
      ClosingIsNotCurrent(s, e);
      var trace', steps' := WorksOff(trace, steps, s.current.value);
      var s' := trace'[|steps'|];
      RunKeepsInv(trace', steps', |steps'|);
      UnwrittenUntilDone(s, k, e);
      UnwrittenUntilDone(s', k, e);
      assert trace'[|steps|] == s;
      assert WaitReturns(trace', |steps|, |steps'|);
    }
  }

  // ------------------------------------------------------------------ witness runs

  ghost predicate Reachable(s: State)
  {
    exists trace: seq<State>, steps: seq<Action> :: IsRun(trace, steps) && trace[|steps|] == s
  }

  lemma Continue(s: State, a: Action, s': State)
    requires Reachable(s) && Enabled(s, a) && s' == Step(s, a)
    ensures Reachable(s')
  {
    hide Step, Enabled, Init;
    var trace: seq<State>, steps: seq<Action> :| IsRun(trace, steps) && trace[|steps|] == s;
    var trace', steps' := Extend(trace, steps, a);
    assert trace'[|steps'|] == s';
  }

  const ASYNCHRONOUS: Config := Config(true, true, 0, Block, [])
  const SYNCHRONOUS: Config := Config(false, false, 0, Block, [])

  const Start: State := Init(ASYNCHRONOUS, COUT)

  lemma StartReachable()
    ensures Reachable(Start)
  {
    var none: seq<Action> := [];
    assert IsRun([Start], none) && [Start][|none|] == Start;
  }

  /** Thread `p` has been admitted and is about to hand its line over. */
  ghost function Admitted(s: State, p: ThreadId): State
  {
    s.(logs := s.logs[p := LogEnqueue(Line(|s.admitted|, COUT), 0)], pending := s.pending + 1,
       admitted := s.admitted + [Line(|s.admitted|, COUT)], places := s.places + [WithThread(p)])
  }

  /** The state is a plain one of the asynchronous logger, with a first executor that takes everything. */
  ghost predicate Open(s: State)
  {
    && s.config == ASYNCHRONOUS && s.primary == COUT && s.current == Some(0) && !s.shutdown
    && |s.execs| == 1 && !s.execs[0].core.stop && s.execs[0].core.limit == 0 && s.execs[0].core.blocked == map[]
  }

  lemma Admits(s: State, p: ThreadId)
    requires Reachable(s) && Open(s) && p !in s.logs
    ensures Reachable(Admitted(s, p))
  {
    hide Reachable;
    var s1 := s.(logs := s.logs[p := LogEnter(0)]);
    Continue(s, Log(p, CallLog(0)), s1);
    var s2 := s.(logs := s.logs[p := LogLock(0)]);
    assert s1.logs[p := LogLock(0)] == s2.logs;
    Continue(s1, Log(p, LogCheck), s2);
    var s3 := Admitted(s, p);
    assert s2.logs[p := LogEnqueue(Line(|s.admitted|, COUT), 0)] == s3.logs;
    Continue(s2, Log(p, LogSection), s3);
  }

  ghost function HandedOver(s: State, p: ThreadId): State
    requires p in s.logs && s.logs[p].Carries() && s.logs[p].to < |s.execs|
  {
    var x := s.execs[s.logs[p].to];
    HandOver(s, p, x.(core := E.Push(x.core, s.logs[p].line)))
  }

  lemma HandsOver(s: State, p: ThreadId)
    requires Reachable(s) && Open(s) && p in s.logs && s.logs[p].LogEnqueue? && s.logs[p].to == 0
    ensures Reachable(HandedOver(s, p))
  {
    hide Reachable;
    Continue(s, Log(p, LogAdd), HandedOver(s, p));
  }

  /** The first executor takes its next line, writes it and is done with it. */
  ghost function Wrote(s: State): State
    requires |s.execs| > 0 && s.execs[0].core.queue != []
  {
    var c := s.execs[0].core;
    var line := c.queue[0];
    s.(written := s.written + [line],
       execs := s.execs[0 := s.execs[0].(core := c.(queue := c.queue[1..],
                                                    removed := c.removed + [E.Removal(line, false)],
                                                    finished := c.finished + [line]))])
  }

  lemma Writes(s: State)
    requires Reachable(s) && |s.execs| > 0 && s.execs[0].core.queue != [] && s.execs[0].core.worker.Waiting? && !s.execs[0].wrote
    ensures Reachable(Wrote(s))
  {
    hide Reachable;
    var s1 := ExecStep(s, 0, ExecTake);
    Continue(s, Execute(0, ExecTake), s1);
    var s2 := ExecStep(s1, 0, ExecWrite);
    Continue(s1, Execute(0, ExecWrite), s2);
    Continue(s2, Execute(0, ExecFinish), Wrote(s));
  }

  /**
   Calls that overlap may be written the other way round: thread 0 is admitted first, but thread 1
   hands its line over before it.
   */
  lemma OverlappingCallsMayBeReversed()
    ensures exists s: State ::
              && Reachable(s)
              && s.admitted == [Line(0, COUT), Line(1, COUT)] && s.places == [WithExecutor(0), WithExecutor(0)]
              && s.written == [Line(1, COUT), Line(0, COUT)]
  {
    hide Reachable;
    StartReachable();
    Admits(Start, 0);
    var s1 := Admitted(Start, 0);
    Admits(s1, 1);
    var s2 := Admitted(s1, 1);
    HandsOver(s2, 1);
    var s3 := HandedOver(s2, 1);
    HandsOver(s3, 0);
    var s4 := HandedOver(s3, 0);
    Writes(s4);
    Writes(Wrote(s4));
    var s := Wrote(Wrote(s4));
    assert s.written == [Line(1, COUT), Line(0, COUT)];
  }

  /**
   Lines can be left behind although no shutdown has begun and every call of `log` has returned: another
   thread has switched the logger to synchronous writing and not yet joined the old executor.
   */
  lemma WaitMayReturnBeforeALineIsWritten()
    ensures exists s: State ::
              && Reachable(s)
              && s.pending == 0 && s.logs == map[] && !s.shutdown && s.current == None
              && |s.admitted| == 1 && LeftBehind(s, 0, 0)
  {
    hide Reachable;
    StartReachable();
    Admits(Start, 0);
    var s1 := Admitted(Start, 0);
    HandsOver(s1, 0);
    var s2 := HandedOver(s1, 0);
    var s3 := s2.(logs := map[], pending := 0);
    assert s2.logs - {0} == map[];
    Continue(s2, Log(0, LogDone), s3);
    var s4 := s3.(ops := map[0 := ConfigEnter(SYNCHRONOUS)]);
    Continue(s3, Manage(0, CallConfig(SYNCHRONOUS)), s4);
    var s5 := s3.(ops := map[0 := ConfigWait(SYNCHRONOUS)]);
    assert s4.ops[0 := ConfigWait(SYNCHRONOUS)] == s5.ops;
    Continue(s4, Manage(0, ConfigCheck), s5);
    var s6 := LifeStep(s5, 0, ConfigApply);
    Continue(s5, Manage(0, ConfigApply), s6);
    assert LeftBehind(s6, 0, 0);
  }
}
