/** The order of the console logger's writes, over all interleavings. */
module ConsoleLoggerOrder {
  import opened ConsoleLogger
  import opened ConsoleLoggerSafety
  import E = SingleThreadExecutor

  // ------------------------------------------------------- the writes of one executor

  /** The written lines that went through executor `e`, in the order of the writes. */
  ghost function WritesOf(written: seq<Line>, places: seq<Place>, e: ExecutorId): seq<Line>
  {
    if written == [] then []
    else
      var rest, last := written[..|written| - 1], written[|written| - 1];
      WritesOf(rest, places, e) + if last.id < |places| && places[last.id] == WithExecutor(e) then [last] else []
  }

  /** Every executor has written what it is done with, in that order. */
  ghost predicate OrderOk(s: State)
  {
    forall e | 0 <= e < |s.execs| :: WritesOf(s.written, s.places, e) == Done(s.execs[e])
  }

  /** The place of each written line is the same in both. */
  ghost predicate SamePlaces(written: seq<Line>, places: seq<Place>, places': seq<Place>)
  {
    forall line | line in written :: line.id < |places| && line.id < |places'| && places'[line.id] == places[line.id]
  }

  lemma {:induction false} WritesAreKept(written: seq<Line>, places: seq<Place>, places': seq<Place>, e: ExecutorId)
    requires SamePlaces(written, places, places')
    ensures WritesOf(written, places', e) == WritesOf(written, places, e)
  {
    if written != [] {
      var rest, last := written[..|written| - 1], written[|written| - 1];
      assert last in written && forall line | line in rest :: line in written;
      WritesAreKept(rest, places, places', e);
    }
  }

  lemma {:induction false} NothingWrittenBy(written: seq<Line>, places: seq<Place>, e: ExecutorId)
    requires forall line | line in written :: line.id < |places| && places[line.id] != WithExecutor(e)
    ensures WritesOf(written, places, e) == []
  {
    if written != [] {
      var rest, last := written[..|written| - 1], written[|written| - 1];
      assert last in written && forall line | line in rest :: line in written;
      NothingWrittenBy(rest, places, e);
    }
  }

  lemma OneMoreWrite(written: seq<Line>, places: seq<Place>, line: Line, e: ExecutorId)
    ensures WritesOf(written + [line], places, e) ==
            WritesOf(written, places, e) + if line.id < |places| && places[line.id] == WithExecutor(e) then [line] else []
  {
    assert (written + [line])[..|written|] == written;
  }

  // ------------------------------------------------------------- one executor's steps

  /** What no step of an executor undoes: nothing it accepted is forgotten. */
  lemma CoreStep(x: Exec, a: E.Action<Line>)
    requires E.Enabled(x.core, a) && !a.TakeTask? && !a.FinishTask?
    ensures var x' := x.(core := E.Step(x.core, a)); Done(x') == Done(x) && x.core.accepted <= x'.core.accepted
  {
  }

  lemma ConfigureStep(x: Exec, c: Config)
    ensures Done(Configure(x, c)) == Done(x) && x.core.accepted == Configure(x, c).core.accepted
  {
  }

  /** Nothing is written; executors, old and new, are done with what they were done with. */
  lemma OrderFrame(s: State, s': State)
    requires Inv(s) && OrderOk(s)
    requires s'.written == s.written && SamePlaces(s.written, s.places, s'.places)
    requires |s.execs| <= |s'.execs|
    requires forall e | 0 <= e < |s.execs| :: Done(s'.execs[e]) == Done(s.execs[e])
    requires forall e | |s.execs| <= e < |s'.execs| :: Done(s'.execs[e]) == []
    ensures OrderOk(s')
  {
    hide ExecOk, AcceptedOk, LogOk, Done;
    forall e | 0 <= e < |s'.execs| ensures WritesOf(s'.written, s'.places, e) == Done(s'.execs[e]) {
      WritesAreKept(s.written, s.places, s'.places, e);
      if e >= |s.execs| {
        forall line | line in s.written ensures line.id < |s.places| && s.places[line.id] != WithExecutor(e) {
          assert PlaceOk(s, line.id);
        }
        NothingWrittenBy(s.written, s.places, e);
      }
    }
  }

  /** Only places of unwritten lines change when lines are admitted or handed over. */
  lemma PlacesStay(s: State)
    requires Inv(s)
    ensures SamePlaces(s.written, s.places, s.places)
    ensures forall place :: SamePlaces(s.written, s.places, s.places + [place])
  {
    hide ExecOk, AcceptedOk, LogOk, PlaceOk;
  }

  lemma HandOverPlaces(s: State, p: ThreadId, place: Place)
    requires Inv(s) && p in s.logs && s.logs[p].Carries()
    ensures s.logs[p].line.id < |s.places| && SamePlaces(s.written, s.places, s.places[s.logs[p].line.id := place])
  {
    hide ExecOk, AcceptedOk;
    assert LogOk(s, p);
    var line := s.logs[p].line;
    assert PlaceOk(s, line.id);
    assert line !in s.written;
  }

  lemma HandOverKeepsOrder(s: State, p: ThreadId, x: Exec)
    requires Inv(s) && OrderOk(s) && p in s.logs && s.logs[p].Carries() && s.logs[p].to < |s.execs|
    requires Done(x) == Done(s.execs[s.logs[p].to])
    ensures OrderOk(HandOver(s, p, x))
  {
    hide Inv, OrderOk, Done;
    HandOverPlaces(s, p, WithExecutor(s.logs[p].to));
    OrderFrame(s, HandOver(s, p, x));
  }

  lemma SectionKeepsOrder(s: State, p: ThreadId)
    requires Inv(s) && OrderOk(s) && LogEnabled(s, p, LogSection) && !s.shutdown
    ensures OrderOk(LogStep(s, p, LogSection))
  {
    hide Inv, Done, Select;
    PlacesStay(s);
    var s' := LogStep(s, p, LogSection);
    var line := NewLine(s, s.logs[p].level);
    if s.config.async {
      OrderFrame(s, s');
    } else {
      OrderFrame(s, s'.(written := s.written));
      LengthsAgree(s);
      forall e | 0 <= e < |s'.execs| ensures WritesOf(s'.written, s'.places, e) == Done(s'.execs[e]) {
        OneMoreWrite(s.written, s'.places, line, e);
      }
    }
  }

  lemma LengthsAgree(s: State)
    requires Inv(s)
    ensures |s.places| == |s.admitted|
  {
    hide ExecOk, AcceptedOk, LogOk, PlaceOk, WrittenOk, OpOk;
  }

  lemma LogKeepsOrder(s: State, p: ThreadId, op: LogOp)
    requires Inv(s) && OrderOk(s) && LogEnabled(s, p, op)
    ensures OrderOk(LogStep(s, p, op))
  {
    hide Inv, OrderOk, Done, HandOver, NewLine, E.Step;
    PlacesStay(s);
    match op
    case LogSection => if s.shutdown { OrderFrame(s, LogStep(s, p, op)); } else { SectionKeepsOrder(s, p); }
    case LogAdd =>
      var x := s.execs[s.logs[p].to];
      var x' := x.(core := E.Step(x.core, E.AddTask(p, s.logs[p].line)));
      CoreStep(x, E.AddTask(p, s.logs[p].line));
      if p in x'.core.blocked { OrderFrame(s, LogStep(s, p, op)); } else { HandOverKeepsOrder(s, p, x'); }
    case LogResume =>
      var x := s.execs[s.logs[p].to];
      CoreStep(x, E.ResumeAdd(p));
      HandOverKeepsOrder(s, p, x.(core := E.Step(x.core, E.ResumeAdd(p))));
    case _ => OrderFrame(s, LogStep(s, p, op));
  }

  lemma WriteKeepsOrder(s: State, e: ExecutorId)
    requires Inv(s) && OrderOk(s) && ExecEnabled(s, e, ExecWrite)
    ensures OrderOk(ExecStep(s, e, ExecWrite))
  {
    hide Inv, WritesOf;
    var s' := ExecStep(s, e, ExecWrite);
    var line := s.execs[e].core.worker.task;
    RunningLineIsPlaced(s, e);
    forall k | 0 <= k < |s'.execs| ensures WritesOf(s'.written, s'.places, k) == Done(s'.execs[k]) {
      OneMoreWrite(s.written, s.places, line, k);
    }
  }

  lemma RunningLineIsPlaced(s: State, e: ExecutorId)
    requires Inv(s) && e < |s.execs| && s.execs[e].core.worker.Running?
    ensures var id := s.execs[e].core.worker.task.id; id < |s.places| && s.places[id] == WithExecutor(e)
  {
    hide E.Tasks, E.Only, PlaceOk, LogOk, OpOk, WrittenOk;
    var c := s.execs[e].core;
    assert ExecOk(s, e) && AcceptedOk(s, e);
    assert c.accepted == c.finished + [c.worker.task] + c.queue;
    assert c.accepted[|c.finished|] == c.worker.task;
  }

  lemma ExecKeepsOrder(s: State, e: ExecutorId, op: ExecOp)
    requires Inv(s) && OrderOk(s) && ExecEnabled(s, e, op)
    ensures OrderOk(ExecStep(s, e, op))
  {
    hide Inv, OrderOk, Done, CoreOk, E.Step;
    PlacesStay(s);
    ExecFacts(s, e);
    match op
    case ExecTake => TakeCore(s.execs[e]); OrderFrame(s, ExecStep(s, e, op));
    case ExecWrite => WriteKeepsOrder(s, e);
    case ExecFinish => FinishCore(s.execs[e]); OrderFrame(s, ExecStep(s, e, op));
  }

  lemma FreshIsDoneWithNothing(c: Config)
    ensures Done(FreshExec(c)) == []
  {
  }

  lemma SameDone(x: Exec, status: Status)
    ensures Done(x.(status := status)) == Done(x)
  {
  }

  lemma LifeKeepsOrder(s: State, q: ThreadId, op: LifeOp)
    requires Inv(s) && OrderOk(s) && LifeEnabled(s, q, op)
    ensures OrderOk(LifeStep(s, q, op))
  {
    hide Inv, OrderOk, Done, E.Step, Configure, FreshExec;
    PlacesStay(s);
    LifeKeepsDone(s, q, op);
    OrderFrame(s, LifeStep(s, q, op));
  }

  /** No life-cycle call writes, hands over or accepts a line. */
  lemma LifeKeepsDone(s: State, q: ThreadId, op: LifeOp)
    requires LifeEnabled(s, q, op)
    ensures var s' := LifeStep(s, q, op);
            && s'.written == s.written && s'.places == s.places && |s.execs| <= |s'.execs|
            && (forall e | 0 <= e < |s.execs| ::
                  Done(s'.execs[e]) == Done(s.execs[e]) && s'.execs[e].core.accepted == s.execs[e].core.accepted)
            && (forall e | |s.execs| <= e < |s'.execs| :: Done(s'.execs[e]) == [])
  {
    hide Done, Configure, FreshExec;
    match op
    case ConfigApply =>
      var c := s.ops[q].config;
      FreshIsDoneWithNothing(c);
      if s.current.Some? {
        ConfigureStep(s.execs[s.current.value], c);
        SameDone(s.execs[s.current.value], Closing(q));
      }
    case ShutdownTake => if s.current.Some? { SameDone(s.execs[s.current.value], Closing(q)); }
    case StopExec => CoreStep(s.execs[s.ops[q].victim], E.RequestStop);
    case JoinExec => SameDone(s.execs[s.ops[q].victim], Closed);
    case _ =>
  }

  lemma StepKeepsOrder(s: State, a: Action)
    requires Inv(s) && OrderOk(s) && Enabled(s, a)
    ensures OrderOk(Step(s, a))
  {
    hide Inv, OrderOk, LogStep, ExecStep, LifeStep;
    match a
    case Log(p, op) => LogKeepsOrder(s, p, op);
    case Execute(e, op) => ExecKeepsOrder(s, e, op);
    case Manage(q, op) => LifeKeepsOrder(s, q, op);
  }

  lemma {:induction false} RunKeepsOrder(trace: seq<State>, steps: seq<Action>, n: nat)
    requires IsRun(trace, steps) && n < |trace|
    ensures OrderOk(trace[n])
  {
    hide Step, Enabled;
    if n > 0 {
      RunKeepsOrder(trace, steps, n - 1);
      RunKeepsInv(trace, steps, n - 1);
      hide Inv, OrderOk;
      StepKeepsOrder(trace[n - 1], steps[n - 1]);
    }
  }

  /** In every interleaving an executor's lines are written in the order it accepted them, none skipped. */
  lemma WritesFollowAcceptance(trace: seq<State>, steps: seq<Action>, n: nat, e: ExecutorId)
    requires IsRun(trace, steps) && n < |trace| && e < |trace[n].execs|
    ensures WritesOf(trace[n].written, trace[n].places, e) <= trace[n].execs[e].core.accepted
  {
    hide IsRun, Inv, CoreOk;
    RunKeepsOrder(trace, steps, n);
    RunKeepsInv(trace, steps, n);
    ExecFacts(trace[n], e);
    DoneIsPrefix(trace[n].execs[e]);
  }

  lemma DoneIsPrefix(x: Exec)
    requires CoreOk(x)
    ensures Done(x) <= x.core.accepted
  {
    hide E.Tasks, E.Only;
    assert x.core.accepted == x.core.finished + E.InHand(x.core) + x.core.queue;
  }

  // ------------------------------------------------------------- what only grows

  ghost predicate Grows(s: State, s': State)
  {
    && s.written <= s'.written && s.admitted <= s'.admitted && |s.execs| <= |s'.execs|
    && forall e | 0 <= e < |s.execs| :: s.execs[e].core.accepted <= s'.execs[e].core.accepted
  }

  lemma LogGrows(s: State, p: ThreadId, op: LogOp)
    requires LogEnabled(s, p, op)
    ensures Grows(s, LogStep(s, p, op))
  {
    hide E.Step, NewLine;
    if op.LogAdd? { CoreStep(s.execs[s.logs[p].to], E.AddTask(p, s.logs[p].line)); }
    if op.LogResume? { CoreStep(s.execs[s.logs[p].to], E.ResumeAdd(p)); }
  }

  lemma ExecGrows(s: State, e: ExecutorId, op: ExecOp)
    requires ExecEnabled(s, e, op)
    ensures Grows(s, ExecStep(s, e, op))
  {
  }

  lemma StepGrows(s: State, a: Action)
    requires Enabled(s, a)
    ensures Grows(s, Step(s, a))
  {
    hide LogStep, ExecStep, LifeStep, LogEnabled, ExecEnabled, LifeEnabled;
    match a
    case Log(p, op) => LogGrows(s, p, op);
    case Execute(e, op) => ExecGrows(s, e, op);
    case Manage(q, op) => LifeKeepsDone(s, q, op); LifeAdmits(s, q, op);
  }

  lemma {:induction false} RunGrows(trace: seq<State>, steps: seq<Action>, i: nat, j: nat)
    requires IsRun(trace, steps) && i <= j < |trace|
    ensures Grows(trace[i], trace[j])
  {
    hide Step, Enabled;
    if i < j {
      RunGrows(trace, steps, i, j - 1);
      StepGrows(trace[j - 1], steps[j - 1]);
    }
  }

  // -------------------------------------------------------------- calls in real time

  /** Two lines of one executor are written in the order in which it is done with them. */
  lemma {:induction false} Positions(written: seq<Line>, places: seq<Place>, e: ExecutorId, k: nat, l: nat)
    returns (a: nat, b: nat)
    requires k < l < |WritesOf(written, places, e)|
    ensures a < b < |written|
    ensures written[a] == WritesOf(written, places, e)[k] && written[b] == WritesOf(written, places, e)[l]
  {
    var rest := written[..|written| - 1];
    if l < |WritesOf(rest, places, e)| {
      a, b := Positions(rest, places, e, k, l);
    } else {
      b := |written| - 1;
      a := Position(rest, places, e, k);
    }
  }

  lemma {:induction false} Position(written: seq<Line>, places: seq<Place>, e: ExecutorId, k: nat) returns (a: nat)
    requires k < |WritesOf(written, places, e)|
    ensures a < |written| && written[a] == WritesOf(written, places, e)[k]
  {
    var rest := written[..|written| - 1];
    if k < |WritesOf(rest, places, e)| { a := Position(rest, places, e, k); } else { a := |written| - 1; }
  }

  /** A line that stands at two indices is counted twice. */
  lemma TwoPositions(written: seq<Line>, a: nat, b: nat)
    requires a < b < |written| && written[a] == written[b]
    ensures multiset(written)[written[a]] >= 2
  {
    assert written == written[..a] + [written[a]] + written[a + 1..b] + [written[b]] + written[b + 1..];
  }

  /** Executor `e` has accepted line `i`. */
  ghost predicate PlacedWith(s: State, i: nat, e: ExecutorId)
  {
    i < |s.admitted| && i < |s.places| && s.places[i] == WithExecutor(e)
  }

  /**
   Calls that do not overlap are written in order.  Once the executor has accepted line `i`, which it has
   by the time that call of `log` returns, every line that is admitted later and goes to the same executor
   is written after it.
   */
  lemma EarlierCallIsWrittenFirst(
    trace: seq<State>, steps: seq<Action>, m: nat, n: nat, i: nat, j: nat, e: ExecutorId, b: nat)
    requires IsRun(trace, steps) && m <= n < |trace|
    requires PlacedWith(trace[m], i, e) && PlacedWith(trace[n], j, e) && |trace[m].admitted| <= j
    requires b < |trace[n].written| && trace[n].written[b] == trace[n].admitted[j]
    ensures exists a | 0 <= a < b :: trace[n].written[a] == trace[m].admitted[i]
  {
    hide IsRun, Inv, Done, WritesOf, CoreOk;
    RunKeepsInv(trace, steps, m);
    RunKeepsInv(trace, steps, n);
    RunKeepsOrder(trace, steps, n);
    RunGrows(trace, steps, m, n);
    var s := trace[n];
    var k := AcceptedAt(trace[m], i, e);
    WrittenIsDone(s, j, e);
    ExecFacts(s, e);
    DoneIsPrefix(s.execs[e]);
    var l :| 0 <= l < |Done(s.execs[e])| && Done(s.execs[e])[l] == s.admitted[j];
    LaterIsAcceptedLater(trace[m], s, j, e, l);
    var a', b' := Positions(s.written, s.places, e, k, l);
    AtMostOnce(trace, steps, n, j);
    if b < b' { TwoPositions(s.written, b, b'); } else if b' < b { TwoPositions(s.written, b', b); }
  }

  lemma AcceptedAt(s: State, i: nat, e: ExecutorId) returns (k: nat)
    requires Inv(s) && PlacedWith(s, i, e)
    ensures e < |s.execs| && k < |s.execs[e].core.accepted| && s.execs[e].core.accepted[k] == s.admitted[i]
  {
    hide ExecOk, AcceptedOk, LogOk, OpOk, Done;
    assert PlaceOk(s, i);
    k :| 0 <= k < |s.execs[e].core.accepted| && s.execs[e].core.accepted[k] == s.admitted[i];
  }

  lemma WrittenIsDone(s: State, j: nat, e: ExecutorId)
    requires Inv(s) && PlacedWith(s, j, e) && s.admitted[j] in s.written
    ensures e < |s.execs| && s.admitted[j] in Done(s.execs[e])
  {
    hide ExecOk, AcceptedOk, LogOk, OpOk, Done;
    assert PlaceOk(s, j);
  }

  /** What the executor had accepted by then comes before a line that is admitted afterwards. */
  lemma LaterIsAcceptedLater(before: State, s: State, j: nat, e: ExecutorId, l: nat)
    requires Inv(before) && Inv(s) && Grows(before, s) && |before.admitted| <= j < |s.admitted| && e < |before.execs|
    requires l < |s.execs[e].core.accepted| && s.execs[e].core.accepted[l] == s.admitted[j]
    ensures |before.execs[e].core.accepted| <= l
  {
    hide ExecOk, LogOk, OpOk, Done;
    assert PlaceOk(s, j) && AcceptedOk(before, e);
  }
}
