/** Exactly-once delivery of the console logger, over all interleavings. */
module ConsoleLoggerSafety {
  import opened Options
  import opened ConsoleLogger
  import E = SingleThreadExecutor

  // ---------------------------------------------------------------- invariants

  ghost function Pending(s: State): set<ThreadId>
  {
    set p | p in s.logs && s.logs[p].Counted()
  }

  /** The pending-enqueue counter, the configuration in force and the executor it needs. */
  ghost predicate Flow(s: State)
  {
    && s.pending == |Pending(s)|
    && |s.places| == |s.admitted|
    && s.config.Covered()
    && (s.taken ==> s.shutdown && s.pending == 0)
    && (!s.taken ==> (s.config.async <==> s.current.Some?))
    && (s.current.Some? ==> s.current.value < |s.execs| && s.execs[s.current.value].status.InUse?)
  }

  ghost predicate OpOk(s: State, q: ThreadId)
    requires q in s.ops
  {
    match s.ops[q]
    case ConfigEnter(c) => c.Covered()
    case ConfigWait(c) => c.Covered()
    case StopOld(e) => e < |s.execs| && s.execs[e].status == Closing(q)
    case JoinOld(e) => e < |s.execs| && s.execs[e].status == Closing(q)
    case ShutdownWait => s.shutdown
    case ShutdownEnter => true
  }

  /** The executor is in use, being closed by exactly one thread, or closed and finished. */
  ghost predicate StatusOk(s: State, e: ExecutorId)
    requires e < |s.execs|
  {
    match s.execs[e].status
    case InUse => s.current == Some(e) && !s.execs[e].core.stop && (s.taken ==> s.execs[e].core.accepted == [])
    case Closing(q) => q in s.ops && s.ops[q].Closes(e)
    case Closed => s.execs[e].core.worker.Exited?
  }

  /** The executor's own invariant; under `Block` nothing is ever evicted. */
  ghost predicate CoreOk(x: Exec)
  {
    && E.Inv(x.core) && x.core.policy.Block?
    && E.Tasks(x.core.removed) == x.core.finished + E.InHand(x.core)
    && (x.wrote ==> x.core.worker.Running?)
  }

  ghost predicate BlockedOk(s: State, e: ExecutorId)
    requires e < |s.execs|
  {
    forall p | p in s.execs[e].core.blocked :: p in s.logs && s.logs[p] == LogBlocked(s.execs[e].core.blocked[p], e)
  }

  ghost predicate ExecOk(s: State, e: ExecutorId)
    requires e < |s.execs|
  {
    StatusOk(s, e) && CoreOk(s.execs[e]) && BlockedOk(s, e)
  }

  /** What an executor accepted are admitted lines, each accepted there once and nowhere else. */
  ghost predicate AcceptedOk(s: State, e: ExecutorId)
    requires e < |s.execs| && |s.places| == |s.admitted|
  {
    var lines := s.execs[e].core.accepted;
    && (forall k | 0 <= k < |lines| ::
          lines[k].id < |s.admitted| && s.admitted[lines[k].id] == lines[k] && s.places[lines[k].id] == WithExecutor(e))
    && (forall k, l | 0 <= k < l < |lines| :: lines[k] != lines[l])
  }

  /** A thread with a line in its hands delivers to the executor in use. */
  ghost predicate LogOk(s: State, p: ThreadId)
    requires p in s.logs && |s.places| == |s.admitted|
  {
    var pc := s.logs[p];
    pc.Carries() ==>
      && s.current == Some(pc.to) && pc.to < |s.execs|
      && pc.line.id < |s.admitted| && s.admitted[pc.line.id] == pc.line && s.places[pc.line.id] == WithThread(p)
      && (pc.LogBlocked? <==> p in s.execs[pc.to].core.blocked)
      && (pc.LogBlocked? ==> s.execs[pc.to].core.blocked[p] == pc.line)
  }

  /** Lines an executor has written out. */
  ghost function Done(x: Exec): seq<Line>
  {
    x.core.finished + (if x.wrote then E.InHand(x.core) else [])
  }

  ghost function TimesWritten(s: State, line: Line): nat
  {
    multiset(s.written)[line]
  }

  ghost predicate PlaceOk(s: State, i: nat)
    requires i < |s.admitted| == |s.places|
  {
    var line := s.admitted[i];
    && line.id == i
    && match s.places[i]
       case Direct => TimesWritten(s, line) == 1
       case WithThread(p) => p in s.logs && s.logs[p].Carries() && s.logs[p].line == line && TimesWritten(s, line) == 0
       case WithExecutor(e) =>
         && e < |s.execs| && line in s.execs[e].core.accepted
         && TimesWritten(s, line) == (if line in Done(s.execs[e]) then 1 else 0)
  }

  /** Nothing is written that was not admitted. */
  ghost predicate WrittenOk(s: State)
  {
    forall line | line in s.written :: line.id < |s.admitted| && s.admitted[line.id] == line
  }

  ghost predicate Inv(s: State)
  {
    && Flow(s)
    && (forall q | q in s.ops :: OpOk(s, q))
    && (forall e | 0 <= e < |s.execs| :: ExecOk(s, e))
    && (forall e | 0 <= e < |s.execs| :: AcceptedOk(s, e))
    && (forall p | p in s.logs :: LogOk(s, p))
    && (forall i | 0 <= i < |s.admitted| :: PlaceOk(s, i))
    && WrittenOk(s)
  }

  lemma InitInv(config: Config, primary: Stream)
    requires config.Covered()
    ensures Inv(Init(config, primary))
  {
    var s := Init(config, primary);
    assert Pending(s) == {};
  }

  // ------------------------------------------------------------ frame lemmas

  /** The lines, the executors and the writes stay; only threads move on without touching a line. */
  lemma ThreadsMove(s: State, s': State)
    requires Inv(s) && Flow(s') && (s.shutdown ==> s'.shutdown)
    requires s'.execs == s.execs && s'.current == s.current && s'.taken == s.taken
    requires s'.admitted == s.admitted && s'.places == s.places && s'.written == s.written
    requires forall p | p in s'.logs && s'.logs[p].Carries() :: p in s.logs && s.logs[p] == s'.logs[p]
    requires forall p | p in s.logs && s.logs[p].Carries() :: p in s'.logs && s'.logs[p] == s.logs[p]
    requires forall q | q in s'.ops :: OpOk(s', q)
    requires forall q, e: ExecutorId | q in s.ops && s.ops[q].Closes(e) :: q in s'.ops && s'.ops[q].Closes(e)
    ensures Inv(s')
  {
    hide E.Inv, E.Tasks;
    forall e | 0 <= e < |s'.execs| ensures ExecOk(s', e) && AcceptedOk(s', e) {
      assert ExecOk(s, e) && AcceptedOk(s, e);
    }
    forall p | p in s'.logs ensures LogOk(s', p) {
      if s'.logs[p].Carries() { assert LogOk(s, p); }
    }
    forall i | 0 <= i < |s'.admitted| ensures PlaceOk(s', i) {
      assert PlaceOk(s, i);
    }
  }

  lemma LogMovesKeep(s: State, p: ThreadId, op: LogOp)
    requires Inv(s) && LogEnabled(s, p, op)
    requires op.CallLog? || op.LogCheck? || op.LogDone? || (op.LogSection? && s.shutdown)
    ensures Inv(LogStep(s, p, op))
  {
    hide ExecOk, AcceptedOk, PlaceOk, WrittenOk, LogOk;
    var s' := LogStep(s, p, op);
    if op.LogDone? {
      assert Pending(s') == Pending(s) - {p};
    } else {
      assert Pending(s') == Pending(s);
    }
    forall q | q in s'.ops ensures OpOk(s', q) { assert OpOk(s, q); }
    ThreadsMove(s, s');
  }

  // ----------------------------------------------------------------------- log

  /** Admitting a line: older lines keep their places and their counts. */
  lemma AdmitKeepsOld(s: State, s': State, line: Line, place: Place)
    requires Inv(s) && line.id == |s.admitted|
    requires s'.admitted == s.admitted + [line] && s'.places == s.places + [place]
    requires s'.written == s.written || s'.written == s.written + [line]
    requires s'.execs == s.execs && s'.current == s.current && s'.taken == s.taken && s'.ops == s.ops
    requires forall q | q in s.logs && s.logs[q].Carries() :: q in s'.logs && s'.logs[q] == s.logs[q]
    ensures forall i | 0 <= i < |s.admitted| :: PlaceOk(s', i)
    ensures forall e | 0 <= e < |s.execs| :: ExecOk(s', e) && AcceptedOk(s', e)
    ensures forall q | q in s'.logs && q in s.logs && s.logs[q] == s'.logs[q] :: LogOk(s', q)
    ensures TimesWritten(s, line) == 0
  {
    hide E.Inv, E.Tasks;
    assert line !in s.written;
    forall i | 0 <= i < |s.admitted| ensures PlaceOk(s', i) {
      assert PlaceOk(s, i);
    }
    forall e | 0 <= e < |s.execs| ensures ExecOk(s', e) && AcceptedOk(s', e) {
      assert ExecOk(s, e) && AcceptedOk(s, e);
    }
    forall q | q in s'.logs && q in s.logs && s.logs[q] == s'.logs[q] ensures LogOk(s', q) {
      assert LogOk(s, q);
    }
  }

  lemma SectionKeeps(s: State, p: ThreadId)
    requires Inv(s) && LogEnabled(s, p, LogSection) && !s.shutdown
    ensures Inv(LogStep(s, p, LogSection))
  {
    hide ExecOk, AcceptedOk, LogOk, PlaceOk;
    var s' := LogStep(s, p, LogSection);
    var line := NewLine(s, s.logs[p].level);
    AdmitKeepsOld(s, s', line, if s.config.async then WithThread(p) else Direct);
    SectionNewLine(s, p);
    if s.config.async {
      assert Pending(s') == Pending(s) + {p};
    } else {
      assert Pending(s') == Pending(s);
    }
    forall q | q in s'.ops ensures OpOk(s', q) { assert OpOk(s, q); }
  }

  lemma SectionNewLine(s: State, p: ThreadId)
    requires Inv(s) && LogEnabled(s, p, LogSection) && !s.shutdown
    ensures var s' := LogStep(s, p, LogSection);
            && |s'.admitted| == |s'.places| == |s.admitted| + 1 && PlaceOk(s', |s.admitted|)
            && (s.config.async ==> LogOk(s', p))
  {
    hide E.Inv, E.Tasks, AcceptedOk, PlaceOk;
    var line := NewLine(s, s.logs[p].level);
    assert line !in s.written;
    if s.config.async { assert ExecOk(s, s.current.value); }
    NewPlaceOk(s, p);
  }

  lemma NewPlaceOk(s: State, p: ThreadId)
    requires Flow(s) && LogEnabled(s, p, LogSection) && !s.shutdown
    requires NewLine(s, s.logs[p].level) !in s.written
    ensures PlaceOk(LogStep(s, p, LogSection), |s.admitted|)
  {
  }

  /** What accepting `line` from thread `p` does to the executor. */
  ghost predicate Accepts(x: Exec, x': Exec, p: ThreadId, line: Line)
  {
    && x'.wrote == x.wrote && x'.status == x.status
    && x'.core.accepted == x.core.accepted + [line] && x'.core.blocked == x.core.blocked - {p}
    && x'.core.finished == x.core.finished && x'.core.worker == x.core.worker && x'.core.stop == x.core.stop
    && CoreOk(x')
  }

  lemma HandOverKeepsLines(s: State, p: ThreadId, x': Exec)
    requires Inv(s) && p in s.logs && s.logs[p].Carries() && s.logs[p].to < |s.execs|
    requires Accepts(s.execs[s.logs[p].to], x', p, s.logs[p].line)
    ensures var s' := HandOver(s, p, x');
            && |s'.places| == |s'.admitted|
            && (forall i | 0 <= i < |s'.admitted| :: PlaceOk(s', i))
            && (forall e | 0 <= e < |s'.execs| :: AcceptedOk(s', e))
  {
    hide E.Inv, E.Tasks, ExecOk, CoreOk;
    var s' := HandOver(s, p, x');
    var pc := s.logs[p];
    assert LogOk(s, p) && PlaceOk(s, pc.line.id) && AcceptedOk(s, pc.to);
    DoneIsAccepted(s, pc.to);
    assert Done(x') == Done(s.execs[pc.to]);
    assert pc.line !in s.execs[pc.to].core.accepted;
    forall i | 0 <= i < |s'.admitted| ensures PlaceOk(s', i) {
      assert PlaceOk(s, i);
      if i == pc.line.id { assert x'.core.accepted[|x'.core.accepted| - 1] == pc.line; }
    }
    forall e | 0 <= e < |s'.execs| ensures AcceptedOk(s', e) {
      assert AcceptedOk(s, e);
    }
  }

  /** An executor writes only what it accepted. */
  lemma DoneIsAccepted(s: State, e: ExecutorId)
    requires Inv(s) && e < |s.execs|
    ensures forall line | line in Done(s.execs[e]) :: line in s.execs[e].core.accepted
  {
    hide AcceptedOk, PlaceOk, LogOk, E.Tasks;
    var c := s.execs[e].core;
    assert ExecOk(s, e);
    assert c.accepted == c.finished + E.InHand(c) + c.queue;
  }

  lemma HandOverKeeps(s: State, p: ThreadId, x': Exec)
    requires Inv(s) && p in s.logs && s.logs[p].Carries() && s.logs[p].to < |s.execs| && !s.taken
    requires Accepts(s.execs[s.logs[p].to], x', p, s.logs[p].line)
    ensures Inv(HandOver(s, p, x'))
  {
    hide E.Inv, E.Tasks, AcceptedOk, PlaceOk;
    var s' := HandOver(s, p, x');
    HandOverKeepsLines(s, p, x');
    assert Pending(s') == Pending(s);
    assert LogOk(s, p);
    forall e | 0 <= e < |s'.execs| ensures ExecOk(s', e) {
      assert ExecOk(s, e);
    }
    forall q | q in s'.logs ensures LogOk(s', q) {
      assert LogOk(s, q);
      if q != p && s.logs[q].Carries() { assert s.logs[q].line.id != s.logs[p].line.id; }
    }
    forall q | q in s'.ops ensures OpOk(s', q) { assert OpOk(s, q); }
  }

  /** While a thread carries a line, the executor it delivers to is in use and not stopped. */
  lemma CarrierFindsOpenExecutor(s: State, p: ThreadId)
    requires Inv(s) && p in s.logs && s.logs[p].Carries()
    ensures s.logs[p].to < |s.execs| && !s.execs[s.logs[p].to].core.stop && !s.taken
  {
    hide CoreOk, AcceptedOk, PlaceOk;
    assert LogOk(s, p);
    assert ExecOk(s, s.logs[p].to);
    assert p in Pending(s);
  }

  lemma PushAccepts(x: Exec, p: ThreadId, line: Line)
    requires CoreOk(x) && !x.core.stop
    ensures Accepts(x, x.(core := E.Push(x.core.(blocked := x.core.blocked - {p}), line)), p, line)
  {
    hide E.Tasks, E.Only;
    E.PushKeepsInv(x.core.(blocked := x.core.blocked - {p}), line);
  }

  lemma ResumeKeeps(s: State, p: ThreadId)
    requires Inv(s) && LogEnabled(s, p, LogResume)
    ensures Inv(LogStep(s, p, LogResume))
  {
    hide Inv, HandOver, CoreOk;
    CarrierFindsOpenExecutor(s, p);
    ExecFacts(s, s.logs[p].to);
    var x := s.execs[s.logs[p].to];
    CarrierFacts(s, p);
    PushAccepts(x, p, s.logs[p].line);
    HandOverKeeps(s, p, x.(core := E.Step(x.core, E.ResumeAdd(p))));
  }

  lemma ExecFacts(s: State, e: ExecutorId)
    requires Inv(s) && e < |s.execs|
    ensures CoreOk(s.execs[e]) && BlockedOk(s, e)
  {
    hide CoreOk, AcceptedOk, PlaceOk, LogOk;
    assert ExecOk(s, e);
  }

  lemma CarrierFacts(s: State, p: ThreadId)
    requires Inv(s) && p in s.logs && s.logs[p].Carries()
    ensures s.logs[p].to < |s.execs|
    ensures s.logs[p].LogBlocked? <==> p in s.execs[s.logs[p].to].core.blocked
    ensures s.logs[p].LogBlocked? ==> s.execs[s.logs[p].to].core.blocked[p] == s.logs[p].line
  {
    hide ExecOk, AcceptedOk, PlaceOk;
    assert LogOk(s, p);
  }

  lemma AddKeeps(s: State, p: ThreadId)
    requires Inv(s) && LogEnabled(s, p, LogAdd)
    ensures Inv(LogStep(s, p, LogAdd))
  {
    hide Inv, HandOver, CoreOk;
    CarrierFindsOpenExecutor(s, p);
    ExecFacts(s, s.logs[p].to);
    CarrierFacts(s, p);
    var x := s.execs[s.logs[p].to];
    var line := s.logs[p].line;
    if E.Full(x.core) {
      BlockKeeps(s, p);
    } else {
      PushAccepts(x, p, line);
      assert x.core.blocked - {p} == x.core.blocked;
      HandOverKeeps(s, p, x.(core := E.Step(x.core, E.AddTask(p, line))));
    }
  }

  lemma BlockKeeps(s: State, p: ThreadId)
    requires Inv(s) && LogEnabled(s, p, LogAdd) && E.Full(s.execs[s.logs[p].to].core)
    ensures Inv(LogStep(s, p, LogAdd))
  {
    hide E.Tasks, E.Only, AcceptedOk, PlaceOk, ExecOk, LogOk;
    CarrierFindsOpenExecutor(s, p);
    ExecFacts(s, s.logs[p].to);
    var s' := LogStep(s, p, LogAdd);
    assert Pending(s') == Pending(s);
    BlockKeepsLines(s, p);
    BlockKeepsThreads(s, p);
    forall q | q in s'.ops ensures OpOk(s', q) { assert OpOk(s, q); }
  }

  lemma BlockKeepsThreads(s: State, p: ThreadId)
    requires Inv(s) && LogEnabled(s, p, LogAdd) && E.Full(s.execs[s.logs[p].to].core)
    requires !s.execs[s.logs[p].to].core.stop && CoreOk(s.execs[s.logs[p].to])
    ensures var s' := LogStep(s, p, LogAdd);
            && |s'.places| == |s'.admitted|
            && (forall e | 0 <= e < |s'.execs| :: ExecOk(s', e))
            && (forall q | q in s'.logs :: LogOk(s', q))
  {
    hide E.Tasks, E.Only, AcceptedOk, PlaceOk, OpOk, WrittenOk;
    var s' := LogStep(s, p, LogAdd);
    forall e | 0 <= e < |s'.execs| ensures ExecOk(s', e) {
      assert ExecOk(s, e);
    }
    forall q | q in s'.logs ensures LogOk(s', q) {
      assert LogOk(s, q);
    }
  }

  lemma BlockKeepsLines(s: State, p: ThreadId)
    requires Inv(s) && LogEnabled(s, p, LogAdd) && E.Full(s.execs[s.logs[p].to].core)
    requires !s.execs[s.logs[p].to].core.stop && CoreOk(s.execs[s.logs[p].to])
    ensures var s' := LogStep(s, p, LogAdd);
            && (forall i | 0 <= i < |s'.admitted| :: PlaceOk(s', i))
            && (forall e | 0 <= e < |s'.execs| :: AcceptedOk(s', e))
  {
    hide E.Inv, E.Tasks, ExecOk;
    var s' := LogStep(s, p, LogAdd);
    forall i | 0 <= i < |s'.admitted| ensures PlaceOk(s', i) {
      assert PlaceOk(s, i);
    }
    forall e | 0 <= e < |s'.execs| ensures AcceptedOk(s', e) {
      assert AcceptedOk(s, e);
    }
  }

  // ----------------------------------------------------------------- executors

  /** Executors change without accepting or writing a line; carriers keep their executor. */
  lemma ExecsChange(s: State, s': State)
    requires Inv(s) && Flow(s') && |s'.execs| >= |s.execs|
    requires s'.logs == s.logs && s'.admitted == s.admitted && s'.places == s.places && s'.written == s.written
    requires s'.current == s.current || s.pending == 0
    requires forall e | 0 <= e < |s'.execs| :: ExecOk(s', e)
    requires forall e | 0 <= e < |s.execs| ::
               && s'.execs[e].core.accepted == s.execs[e].core.accepted
               && s'.execs[e].core.blocked == s.execs[e].core.blocked
               && Done(s'.execs[e]) == Done(s.execs[e])
    requires forall e | |s.execs| <= e < |s'.execs| :: s'.execs[e].core.accepted == []
    requires forall q | q in s'.ops :: OpOk(s', q)
    ensures Inv(s')
  {
    hide E.Inv, E.Tasks, ExecOk, Done;
    forall e | 0 <= e < |s'.execs| ensures AcceptedOk(s', e) {
      if e < |s.execs| { assert AcceptedOk(s, e); }
    }
    forall i | 0 <= i < |s'.admitted| ensures PlaceOk(s', i) {
      assert PlaceOk(s, i);
    }
    forall p | p in s'.logs ensures LogOk(s', p) {
      assert LogOk(s, p);
      if s.logs[p].Carries() { assert p in Pending(s); }
    }
  }

  /** One executor changes and the rest of the logger stays. */
  lemma OneExecChanges(s: State, e: ExecutorId, x': Exec)
    requires Inv(s) && e < |s.execs| && CoreOk(x') && x'.status == s.execs[e].status
    requires x'.core.accepted == s.execs[e].core.accepted && x'.core.blocked == s.execs[e].core.blocked
    requires x'.core.stop == s.execs[e].core.stop && Done(x') == Done(s.execs[e])
    requires s.execs[e].core.worker.Exited? ==> x'.core.worker.Exited?
    ensures Inv(s.(execs := s.execs[e := x']))
  {
    hide E.Inv, E.Tasks, CoreOk, Done, AcceptedOk, PlaceOk, LogOk, WrittenOk;
    var s' := s.(execs := s.execs[e := x']);
    assert Pending(s') == Pending(s);
    forall k | 0 <= k < |s'.execs| ensures ExecOk(s', k) {
      assert ExecOk(s, k);
    }
    forall q | q in s'.ops ensures OpOk(s', q) { assert OpOk(s, q); }
    ExecsChange(s, s');
  }

  lemma TakeCore(x: Exec)
    requires CoreOk(x) && E.Enabled(x.core, E.TakeTask)
    ensures var x' := x.(core := E.Step(x.core, E.TakeTask));
            CoreOk(x') && Done(x') == Done(x)
  {
    hide E.Tasks, E.Only;
    E.TakeKeepsInv(x.core);
    if x.core.queue != [] {
      E.AppendRemoval(x.core.removed, E.Removal(x.core.queue[0], false));
    }
  }

  lemma FinishCore(x: Exec)
    requires CoreOk(x) && E.Enabled(x.core, E.FinishTask) && x.wrote
    ensures var x' := x.(core := E.Step(x.core, E.FinishTask), wrote := false);
            CoreOk(x') && Done(x') == Done(x)
  {
    hide E.Tasks, E.Only;
  }

  lemma WriteKeepsLines(s: State, e: ExecutorId)
    requires Inv(s) && ExecEnabled(s, e, ExecWrite)
    ensures var s' := ExecStep(s, e, ExecWrite);
            && (forall i | 0 <= i < |s'.admitted| :: PlaceOk(s', i))
            && (forall k | 0 <= k < |s'.execs| :: AcceptedOk(s', k))
            && WrittenOk(s')
  {
    hide E.Tasks, E.Only, LogOk;
    var s' := ExecStep(s, e, ExecWrite);
    var c := s.execs[e].core;
    var line := c.worker.task;
    assert ExecOk(s, e) && AcceptedOk(s, e);
    assert c.accepted == c.finished + [line] + c.queue;
    assert c.accepted[|c.finished|] == line;
    assert forall k | 0 <= k < |c.finished| :: c.accepted[k] == c.finished[k];
    assert line !in c.finished;
    assert Done(s'.execs[e]) == Done(s.execs[e]) + [line];
    forall i | 0 <= i < |s'.admitted| ensures PlaceOk(s', i) {
      assert PlaceOk(s, i);
    }
    forall k | 0 <= k < |s'.execs| ensures AcceptedOk(s', k) {
      assert AcceptedOk(s, k);
    }
  }

  lemma WriteKeeps(s: State, e: ExecutorId)
    requires Inv(s) && ExecEnabled(s, e, ExecWrite)
    ensures Inv(ExecStep(s, e, ExecWrite))
  {
    hide E.Inv, E.Tasks, AcceptedOk, PlaceOk, WrittenOk;
    var s' := ExecStep(s, e, ExecWrite);
    WriteKeepsLines(s, e);
    assert Pending(s') == Pending(s);
    forall k | 0 <= k < |s'.execs| ensures ExecOk(s', k) {
      assert ExecOk(s, k);
    }
    forall p | p in s'.logs ensures LogOk(s', p) {
      assert LogOk(s, p);
    }
    forall q | q in s'.ops ensures OpOk(s', q) { assert OpOk(s, q); }
  }

  lemma ExecKeeps(s: State, e: ExecutorId, op: ExecOp)
    requires Inv(s) && ExecEnabled(s, e, op)
    ensures Inv(ExecStep(s, e, op))
  {
    hide Inv, CoreOk, Done;
    ExecFacts(s, e);
    var x := s.execs[e];
    match op
    case ExecTake =>
      TakeCore(x);
      OneExecChanges(s, e, x.(core := E.Step(x.core, E.TakeTask)));
    case ExecWrite => WriteKeeps(s, e);
    case ExecFinish =>
      FinishCore(x);
      OneExecChanges(s, e, x.(core := E.Step(x.core, E.FinishTask), wrote := false));
  }

  // ----------------------------------------------------- set_config, shutdown

  lemma LifeMovesKeep(s: State, q: ThreadId, op: LifeOp)
    requires Inv(s) && LifeEnabled(s, q, op)
    requires op.CallConfig? || op.ConfigCheck? || op.CallShutdown? || op.ShutdownFlag?
    ensures Inv(LifeStep(s, q, op))
  {
    hide ExecOk, AcceptedOk, PlaceOk, WrittenOk, LogOk;
    var s' := LifeStep(s, q, op);
    assert Pending(s') == Pending(s);
    assert q in s.ops ==> OpOk(s, q);
    forall o | o in s'.ops ensures OpOk(s', o) { assert o != q ==> OpOk(s, o); }
    ThreadsMove(s, s');
  }

  lemma ConfigureCore(x: Exec, c: Config)
    requires CoreOk(x) && c.policy.Block?
    ensures CoreOk(Configure(x, c)) && Done(Configure(x, c)) == Done(x)
    ensures Configure(x, c).core.accepted == x.core.accepted && Configure(x, c).core.blocked == x.core.blocked
    ensures Configure(x, c).core.stop == x.core.stop && Configure(x, c).core.worker == x.core.worker
  {
    hide E.Tasks, E.Only;
  }

  lemma FreshCore(c: Config)
    requires c.policy.Block?
    ensures CoreOk(FreshExec(c)) && FreshExec(c).core.accepted == [] && FreshExec(c).core.blocked == map[]
    ensures FreshExec(c).status == InUse && !FreshExec(c).core.stop
  {
  }

  lemma NewExecutorKeeps(s: State, q: ThreadId)
    requires Inv(s) && LifeEnabled(s, q, ConfigApply)
    requires s.ops[q].config.async && s.ops[q].config.dedicated && s.current.None?
    ensures Inv(LifeStep(s, q, ConfigApply))
  {
    hide E.Inv, E.Tasks, CoreOk, Done, AcceptedOk, PlaceOk, LogOk, WrittenOk, FreshExec;
    var s' := LifeStep(s, q, ConfigApply);
    assert OpOk(s, q);
    FreshCore(s.ops[q].config);
    assert Pending(s') == Pending(s);
    forall e | 0 <= e < |s'.execs| ensures ExecOk(s', e) {
      if e < |s.execs| { assert ExecOk(s, e); }
    }
    forall o | o in s'.ops ensures OpOk(s', o) { assert OpOk(s, o); }
    ExecsChange(s, s');
  }

  lemma ReconfigureKeeps(s: State, q: ThreadId)
    requires Inv(s) && LifeEnabled(s, q, ConfigApply)
    requires s.ops[q].config.async && s.ops[q].config.dedicated && s.current.Some?
    ensures Inv(LifeStep(s, q, ConfigApply))
  {
    hide E.Inv, E.Tasks, CoreOk, Done, AcceptedOk, PlaceOk, LogOk, WrittenOk, Configure;
    var s' := LifeStep(s, q, ConfigApply);
    assert OpOk(s, q);
    assert ExecOk(s, s.current.value);
    ConfigureCore(s.execs[s.current.value], s.ops[q].config);
    ConfigureStatus(s.execs[s.current.value], s.ops[q].config);
    assert Pending(s') == Pending(s);
    forall e | 0 <= e < |s'.execs| ensures ExecOk(s', e) {
      assert ExecOk(s, e);
    }
    forall o | o in s'.ops ensures OpOk(s', o) { assert OpOk(s, o); }
    ExecsChange(s, s');
  }

  lemma ConfigureStatus(x: Exec, c: Config)
    ensures Configure(x, c).status == x.status
  {
  }

  /** Detaching at a moment with no pending enqueue, for `set_config` and `shutdown` alike. */
  lemma DetachKeeps(s: State, q: ThreadId, s': State)
    requires Inv(s) && s.pending == 0 && q in s.ops && s.current.Some? && s.current.value < |s.execs|
    requires forall e: ExecutorId :: !s.ops[q].Closes(e)
    requires s' == Detach(s, q).(config := s'.config, taken := s'.taken)
    requires s'.config.Covered() && (s'.taken ==> s.shutdown) && (s.taken ==> s'.taken) && (!s'.taken ==> !s'.config.async)
    ensures Inv(s')
  {
    hide E.Inv, E.Tasks, CoreOk, AcceptedOk, PlaceOk, LogOk, WrittenOk;
    assert Pending(s') == Pending(s);
    forall e | 0 <= e < |s'.execs| ensures ExecOk(s', e) {
      assert ExecOk(s, e);
      SameCore(s.execs[e], s'.execs[e]);
    }
    forall o | o in s'.ops ensures OpOk(s', o) { assert OpOk(s, o); }
    ExecsChange(s, s');
  }

  lemma SameCore(x: Exec, x': Exec)
    requires CoreOk(x) && x'.core == x.core && x'.wrote == x.wrote
    ensures CoreOk(x')
  {
  }

  /** A life-cycle call that finds no executor to change. */
  lemma NothingToDetach(s: State, q: ThreadId, s': State)
    requires Inv(s) && s.pending == 0 && q in s.ops && s.current.None?
    requires forall e: ExecutorId :: !s.ops[q].Closes(e)
    requires s' == LeaveOp(s, q).(config := s'.config, taken := s'.taken)
    requires s'.config.Covered() && (s'.taken ==> s.shutdown) && (s.taken ==> s'.taken) && (!s'.taken ==> !s'.config.async)
    ensures Inv(s')
  {
    hide E.Inv, E.Tasks, CoreOk, AcceptedOk, PlaceOk, LogOk, WrittenOk;
    assert Pending(s') == Pending(s);
    forall e | 0 <= e < |s'.execs| ensures ExecOk(s', e) {
      assert ExecOk(s, e);
    }
    forall o | o in s'.ops ensures OpOk(s', o) { assert OpOk(s, o); }
    ExecsChange(s, s');
  }

  lemma ApplyKeeps(s: State, q: ThreadId)
    requires Inv(s) && LifeEnabled(s, q, ConfigApply)
    ensures Inv(LifeStep(s, q, ConfigApply))
  {
    var c := s.ops[q].config;
    assert OpOk(s, q);
    assert Flow(s);
    hide Inv, Detach, LeaveOp;
    if c.async && c.dedicated {
      if s.current.None? { NewExecutorKeeps(s, q); } else { ReconfigureKeeps(s, q); }
    } else if s.current.Some? {
      DetachKeeps(s, q, LifeStep(s, q, ConfigApply));
    } else {
      NothingToDetach(s, q, LifeStep(s, q, ConfigApply));
    }
  }

  lemma TakeOverKeeps(s: State, q: ThreadId)
    requires Inv(s) && LifeEnabled(s, q, ShutdownTake)
    ensures Inv(LifeStep(s, q, ShutdownTake))
  {
    assert Flow(s) && OpOk(s, q);
    hide Inv, Detach, LeaveOp;
    if s.current.Some? {
      DetachKeeps(s, q, LifeStep(s, q, ShutdownTake));
    } else {
      NothingToDetach(s, q, LifeStep(s, q, ShutdownTake));
    }
  }

  lemma StopCore(x: Exec)
    requires CoreOk(x)
    ensures var x' := x.(core := E.Step(x.core, E.RequestStop));
            CoreOk(x') && Done(x') == Done(x)
  {
    hide E.Tasks, E.Only;
  }

  lemma StopKeeps(s: State, q: ThreadId)
    requires Inv(s) && LifeEnabled(s, q, StopExec)
    ensures Inv(LifeStep(s, q, StopExec))
  {
    hide E.Inv, E.Tasks, CoreOk, AcceptedOk, PlaceOk, LogOk, WrittenOk;
    var s' := LifeStep(s, q, StopExec);
    assert OpOk(s, q);
    assert Pending(s') == Pending(s);
    forall e | 0 <= e < |s'.execs| ensures ExecOk(s', e) && Done(s'.execs[e]) == Done(s.execs[e]) {
      assert ExecOk(s, e);
      StopCore(s.execs[e]);
    }
    forall o | o in s'.ops ensures OpOk(s', o) { assert OpOk(s, o); }
    ExecsChange(s, s');
  }

  lemma JoinKeeps(s: State, q: ThreadId)
    requires Inv(s) && LifeEnabled(s, q, JoinExec)
    ensures Inv(LifeStep(s, q, JoinExec))
  {
    hide E.Inv, E.Tasks, CoreOk, AcceptedOk, PlaceOk, LogOk, WrittenOk;
    var s' := LifeStep(s, q, JoinExec);
    assert OpOk(s, q);
    assert Pending(s') == Pending(s);
    forall e | 0 <= e < |s'.execs| ensures ExecOk(s', e) {
      assert ExecOk(s, e);
      SameCore(s.execs[e], s'.execs[e]);
    }
    forall o | o in s'.ops ensures OpOk(s', o) { assert OpOk(s, o); }
    ExecsChange(s, s');
  }

  // ---------------------------------------------------------------- every step

  lemma LogKeeps(s: State, p: ThreadId, op: LogOp)
    requires Inv(s) && LogEnabled(s, p, op)
    ensures Inv(LogStep(s, p, op))
  {
    hide Inv, LogStep;
    match op
    case LogSection => if s.shutdown { LogMovesKeep(s, p, op); } else { SectionKeeps(s, p); }
    case LogAdd => AddKeeps(s, p);
    case LogResume => ResumeKeeps(s, p);
    case _ => LogMovesKeep(s, p, op);
  }

  lemma LifeKeeps(s: State, q: ThreadId, op: LifeOp)
    requires Inv(s) && LifeEnabled(s, q, op)
    ensures Inv(LifeStep(s, q, op))
  {
    hide Inv, LifeStep;
    match op
    case ConfigApply => ApplyKeeps(s, q);
    case ShutdownTake => TakeOverKeeps(s, q);
    case StopExec => StopKeeps(s, q);
    case JoinExec => JoinKeeps(s, q);
    case _ => LifeMovesKeep(s, q, op);
  }

  lemma StepKeepsInv(s: State, a: Action)
    requires Inv(s) && Enabled(s, a)
    ensures Inv(Step(s, a))
  {
    hide Inv, LogStep, ExecStep, LifeStep;
    match a
    case Log(p, op) => LogKeeps(s, p, op);
    case Execute(e, op) => ExecKeeps(s, e, op);
    case Manage(q, op) => LifeKeeps(s, q, op);
  }

  // --------------------------------------------------------------- whole runs

  ghost predicate IsRun(trace: seq<State>, steps: seq<Action>)
  {
    && |trace| == |steps| + 1
    && trace[0].config.Covered() && trace[0] == Init(trace[0].config, trace[0].primary)
    && forall i | 0 <= i < |steps| :: Enabled(trace[i], steps[i]) && trace[i + 1] == Step(trace[i], steps[i])
  }

  lemma {:induction false} RunKeepsInv(trace: seq<State>, steps: seq<Action>, n: nat)
    requires IsRun(trace, steps) && n < |trace|
    ensures Inv(trace[n])
  {
    hide Inv, Step, Enabled;
    if n == 0 {
      InitInv(trace[0].config, trace[0].primary);
    } else {
      RunKeepsInv(trace, steps, n - 1);
      StepKeepsInv(trace[n - 1], steps[n - 1]);
    }
  }

  /** No line is ever written twice, whatever the interleaving, and nothing unadmitted is written. */
  lemma AtMostOnce(trace: seq<State>, steps: seq<Action>, n: nat, i: nat)
    requires IsRun(trace, steps) && n < |trace| && i < |trace[n].admitted|
    ensures TimesWritten(trace[n], trace[n].admitted[i]) <= 1
    ensures forall line | line in trace[n].written :: line in trace[n].admitted
  {
    hide ExecOk, AcceptedOk, LogOk, IsRun;
    RunKeepsInv(trace, steps, n);
    assert PlaceOk(trace[n], i);
  }

  /** Some thread has raised the shutdown flag and not yet taken the executor away. */
  ghost predicate ShutdownUnderWay(s: State)
  {
    exists q :: q in s.ops && s.ops[q].ShutdownWait?
  }

  lemma LifeKeepsShutdown(s: State, q: ThreadId, op: LifeOp)
    requires LifeEnabled(s, q, op) && (s.shutdown ==> s.taken || ShutdownUnderWay(s))
    ensures var s' := LifeStep(s, q, op); s'.shutdown ==> s'.taken || ShutdownUnderWay(s')
  {
    var s' := LifeStep(s, q, op);
    if op.ShutdownFlag? && !s.shutdown {
      assert s'.ops[q].ShutdownWait?;
    } else if s.shutdown && !s'.taken {
      var o :| o in s.ops && s.ops[o].ShutdownWait?;
      assert o != q && s'.ops[o].ShutdownWait?;
    }
  }

  lemma {:induction false} ShutdownIsUnderWayOrDone(trace: seq<State>, steps: seq<Action>, n: nat)
    requires IsRun(trace, steps) && n < |trace|
    ensures trace[n].shutdown ==> trace[n].taken || ShutdownUnderWay(trace[n])
  {
    if n > 0 {
      ShutdownIsUnderWayOrDone(trace, steps, n - 1);
      hide LifeStep, ShutdownUnderWay;
      var s, a := trace[n - 1], steps[n - 1];
      if a.Manage? {
        LifeKeepsShutdown(s, a.q, a.life);
      } else {
        OpsUntouched(s, a);
        SameOps(s, trace[n]);
      }
    }
  }

  lemma SameOps(s: State, s': State)
    requires s'.ops == s.ops
    ensures ShutdownUnderWay(s') == ShutdownUnderWay(s)
  {
  }

  lemma OpsUntouched(s: State, a: Action)
    requires Enabled(s, a) && !a.Manage?
    ensures var s' := Step(s, a); s'.ops == s.ops && s'.shutdown == s.shutdown && s'.taken == s.taken
  {
    hide E.Step;
  }

  /** After the take-over no thread carries a line any more. */
  lemma NoCarriers(s: State)
    requires Inv(s) && s.taken
    ensures forall p | p in s.logs :: !s.logs[p].Carries()
  {
    hide ExecOk, AcceptedOk, PlaceOk, LogOk;
    assert forall p | p in s.logs && s.logs[p].Carries() :: p in Pending(s);
  }

  /** No call is between raising the shutdown flag and the end of its join, or stopping an executor it replaced. */
  ghost predicate NobodyCloses(s: State)
  {
    forall q | q in s.ops :: s.ops[q].ConfigEnter? || s.ops[q].ConfigWait? || s.ops[q].ShutdownEnter?
  }

  /**
   Exactly once: when the shutdown flag is up and every call that took on a shutdown or a replaced
   executor has returned, each admitted line has been written exactly once.  Calls that have only
   begun do not matter, and when no call is left at all this is so in particular.
   */
  lemma ExactlyOnce(trace: seq<State>, steps: seq<Action>, n: nat, i: nat)
    requires IsRun(trace, steps) && n < |trace| && i < |trace[n].admitted|
    requires trace[n].shutdown && NobodyCloses(trace[n])
    ensures TimesWritten(trace[n], trace[n].admitted[i]) == 1
  {
    hide IsRun, AcceptedOk, E.Tasks, E.Only;
    var s := trace[n];
    ShutdownIsUnderWayOrDone(trace, steps, n);
    RunKeepsInv(trace, steps, n);
    NoCarriers(s);
    assert PlaceOk(s, i);
    if s.places[i].WithExecutor? {
      var c := s.execs[s.places[i].e].core;
      assert ExecOk(s, s.places[i].e);
      assert c.accepted == c.finished;
    }
  }

  /** A task never reaches an executor that was told to stop. */
  lemma NoTaskReachesAStoppedExecutor(trace: seq<State>, steps: seq<Action>, n: nat, p: ThreadId)
    requires IsRun(trace, steps) && n < |trace| && p in trace[n].logs && trace[n].logs[p].Carries()
    ensures trace[n].logs[p].to < |trace[n].execs| && !trace[n].execs[trace[n].logs[p].to].core.stop
  {
    hide IsRun, Inv;
    RunKeepsInv(trace, steps, n);
    CarrierFindsOpenExecutor(trace[n], p);
  }

  /** The stream of a line is the one the routes in force at that call promise, and it never changes. */
  lemma StreamOfTheCall(trace: seq<State>, steps: seq<Action>, m: nat, n: nat, p: ThreadId)
    requires IsRun(trace, steps) && m < |steps| && m < n < |trace|
    requires steps[m] == Log(p, LogSection) && !trace[m].shutdown
    ensures |trace[m].admitted| < |trace[n].admitted|
    ensures var line := trace[n].admitted[|trace[m].admitted|];
            line.id == |trace[m].admitted| && Routed(trace[m].config.routes, trace[m].primary, trace[m].logs[p].level, line.stream)
  {
    hide Routed;
    assert trace[m + 1] == Step(trace[m], steps[m]);
    SelectIsRouted(trace[m].config.routes, trace[m].primary, trace[m].logs[p].level);
    AdmittedOnlyGrows(trace, steps, m + 1, n);
  }

  lemma {:induction false} AdmittedOnlyGrows(trace: seq<State>, steps: seq<Action>, i: nat, j: nat)
    requires IsRun(trace, steps) && i <= j < |trace|
    ensures trace[i].admitted <= trace[j].admitted
  {
    hide Step, Enabled;
    if i < j {
      AdmittedOnlyGrows(trace, steps, i, j - 1);
      StepAdmits(trace[j - 1], steps[j - 1]);
    }
  }

  lemma StepAdmits(s: State, a: Action)
    requires Enabled(s, a)
    ensures s.admitted <= Step(s, a).admitted
  {
    hide LogStep, ExecStep, LifeStep, LogEnabled, ExecEnabled, LifeEnabled;
    match a
    case Log(p, op) => LogAdmits(s, p, op);
    case Execute(e, op) => ExecAdmits(s, e, op);
    case Manage(q, op) => LifeAdmits(s, q, op);
  }

  lemma LogAdmits(s: State, p: ThreadId, op: LogOp)
    requires LogEnabled(s, p, op)
    ensures s.admitted <= LogStep(s, p, op).admitted
  {
    hide E.Step, Select;
  }

  lemma ExecAdmits(s: State, e: ExecutorId, op: ExecOp)
    requires ExecEnabled(s, e, op)
    ensures ExecStep(s, e, op).admitted == s.admitted
  {
    hide E.Step;
  }

  lemma LifeAdmits(s: State, q: ThreadId, op: LifeOp)
    requires LifeEnabled(s, q, op)
    ensures LifeStep(s, q, op).admitted == s.admitted
  {
    hide E.Step;
  }
}
