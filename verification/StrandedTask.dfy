/**
 Why the proviso of `TaskExecutorRuns.ExitDrains` is needed: the worker tests the ring for
 emptiness before it reads the stop flag, so a task submitted in between is left behind.
 */
module StrandedTask {
  import opened Options
  import opened QueuePolicies
  import opened TaskExecutor
  import opened TaskExecutorRuns
  import R = MpscRing

  /** The worker has found the ring empty and is about to read the stop flag. */
  const Tested: State := Init.(worker := TestActive(false), quiet := true)

  lemma WorkerTests()
    ensures Reachable(Tested)
  {
    hide Reachable;
    InitReachable();
    var s1 := Init.(worker := Attempt(DRAIN_BUDGET, false));
    Continue(Init, Worker(WorkMove), s1);
    var s2 := s1.(worker := Popping(DRAIN_BUDGET - 1, false), activeTasks := 1, ring := R.BeginPop(Init.ring));
    Continue(s1, Worker(WorkBeginPop), s2);
    var s3 := s2.(ring := Init.ring.(popper := R.ReadHead(0)));
    Continue(s2, Worker(WorkPop(false)), s3);
    var s4 := s2.(ring := Init.ring.(popper := R.PopReturned(None)));
    Continue(s3, Worker(WorkPop(false)), s4);
    var s5 := Init.(worker := Unmark(false), activeTasks := 1);
    Continue(s4, Worker(WorkEndPop), s5);
    var s6 := Init.(worker := TestEmpty(false));
    Continue(s5, Worker(WorkUnmark), s6);
    Continue(s6, Worker(WorkTestEmpty), Tested);
  }

  /** The state in which thread 0 is inside `add_task` at `pc`, with its ticket reserved. */
  ghost function Inside(pc: AddPc, ring: R.Ring<Ticket>): State
  {
    Tested.(adders := map[0 := pc], activeProducers := 1, submitted := 1, quiet := false, ring := ring)
  }

  lemma ProducerEnters()
    ensures Reachable(Inside(CheckLimit(0, Block), Init.ring))
  {
    hide Reachable;
    WorkerTests();
    var s1 := Tested.(adders := map[0 := AwaitBarrier]);
    Continue(Tested, Producer(0, CallAdd), s1);
    var s2 := Tested.(adders := map[0 := Register]);
    assert s1.adders[0 := Register] == s2.adders;
    Continue(s1, Producer(0, AddMove), s2);
    var s3 := Tested.(adders := map[0 := Recheck], activeProducers := 1);
    assert s2.adders[0 := Recheck] == s3.adders;
    Continue(s2, Producer(0, AddRegister), s3);
    var s4 := Tested.(adders := map[0 := Reserve], activeProducers := 1, quiet := false);
    assert s3.adders[0 := Reserve] == s4.adders;
    Continue(s3, Producer(0, AddEnter), s4);
    var s5 := Inside(CheckStop(0), Init.ring);
    assert s4.adders[0 := CheckStop(0)] == s5.adders;
    Continue(s4, Producer(0, AddReserve), s5);
    var s6 := Inside(LoadPolicy(0), Init.ring);
    assert s5.adders[0 := LoadPolicy(0)] == s6.adders;
    Continue(s5, Producer(0, AddMove), s6);
    var s7 := Inside(CheckLimit(0, Block), Init.ring);
    assert s6.adders[0 := CheckLimit(0, Block)] == s7.adders;
    Continue(s6, Producer(0, AddMove), s7);
  }

  /** The ring with thread 0 at `pc`, after the first `n` stores of its push. */
  ghost function Pushed(pc: R.PushPc, cell: R.Cell<Ticket>, claimed: bool): R.Ring<Ticket>
  {
    Init.ring.(
      cells := Init.ring.cells[0 := cell],
      pushers := map[0 := R.Pusher(0, pc)],
      enqueuePos := if claimed then 1 else 0,
      claimed := if claimed then [0] else [],
      owners := if claimed then [0] else [])
  }

  lemma PushesCompletely()
    ensures Reachable(Inside(Pushing(0, Block), Pushed(R.PushReturned(true), R.Cell(1, Some(0)), true)))
  {
    hide Reachable;
    ProducerEnters();
    var free: R.Cell<Ticket>, full: R.Cell<Ticket> := R.Cell(0, None), R.Cell(0, Some(0));
    var s0 := Inside(CheckLimit(0, Block), Init.ring);
    var s1 := Inside(Pushing(0, Block), Pushed(R.LoadTail, free, false));
    assert s0.adders[0 := Pushing(0, Block)] == s1.adders;
    assert Init.ring.cells[0 := free] == Init.ring.cells;
    Continue(s0, Producer(0, AddBeginPush), s1);
    var s2 := PushOn(s1, R.ReadSequence(0), free, false);
    var s3 := PushOn(s2, R.ClaimTail(0), free, false);
    var s4 := PushOn(s3, R.Construct(0), free, true);
    var s5 := PushOn(s4, R.Publish(0), full, true);
    var s6 := PushOn(s5, R.PushReturned(true), R.Cell(1, Some(0)), true);
  }

  /** One atomic operation of thread 0's push. */
  lemma PushOn(s: State, pc: R.PushPc, cell: R.Cell<Ticket>, claimed: bool) returns (s': State)
    requires Reachable(s) && s.adders == map[0 := Pushing(0, Block)] && R.CanPush(s.ring, 0)
    requires s == Inside(Pushing(0, Block), s.ring)
    requires 0 in s.ring.pushers && s.ring.pushers == map[0 := s.ring.pushers[0]]
    requires R.PushStep(s.ring, 0, false).cells == Init.ring.cells[0 := cell]
    requires R.PushStep(s.ring, 0, false).pushers[0] == R.Pusher(0, pc)
    requires var r := R.PushStep(s.ring, 0, false);
             r == Init.ring.(cells := r.cells, pushers := r.pushers,
                             enqueuePos := if claimed then 1 else 0,
                             claimed := if claimed then [0] else [],
                             owners := if claimed then [0] else [])
    ensures Reachable(s') && s' == Inside(Pushing(0, Block), Pushed(pc, cell, claimed))
  {
    hide Reachable;
    s' := Inside(Pushing(0, Block), Pushed(pc, cell, claimed));
    var r := R.PushStep(s.ring, 0, false);
    assert r.pushers == map[0 := R.Pusher(0, pc)];
    Continue(s, Producer(0, AddPush(false)), s');
  }

  /** The task sits in the ring and thread 0 has returned from `add_task`; no shutdown has begun. */
  ghost function Returned(): State
  {
    Inside(Leave, Pushed(R.PushReturned(true), R.Cell(1, Some(0)), true).(pushers := map[]))
      .(adders := map[], activeProducers := 0)
  }

  lemma AddReturns()
    ensures Reachable(Returned())
  {
    hide Reachable;
    PushesCompletely();
    var pushed := Pushed(R.PushReturned(true), R.Cell(1, Some(0)), true);
    var s0 := Inside(Pushing(0, Block), pushed);
    var ring := pushed.(pushers := map[]);
    assert pushed.pushers - {0} == map[];
    var s1 := Inside(Leave, ring);
    assert s0.adders[0 := Leave] == s1.adders;
    Continue(s0, Producer(0, AddEndPush), s1);
    var s2 := Returned();
    assert s1.adders - {0} == map[];
    Continue(s1, Producer(0, AddLeave), s2);
  }

  /**
   A task whose `add_task` returned before `shutdown` was called may never run.  The run passes through
   a state in which the call has returned and no shutdown has begun; when the shutdown has returned, the
   worker is gone, no producer is left, and the task still sits, published and unsettled, in the ring.
   By `TaskExecutorRuns.ExitAfterShutdownIsFinal` it stays there on every continuation.
   */
  lemma ShutdownMayStrandATask()
    ensures exists b: State, s: State ::
              && ReachableThrough(b, s)
              && !b.shutdownBegun && !b.stop && b.adders == map[] && b.Accepted() == [0]
              && s.shutdownBegun && s.worker.Exited? && s.lifecycle.Free? && s.stop && s.adders == map[]
              && s.Accepted() == [0] && s.executed == [] && s.settled == map[]
              && s.submitted == 1 && s.completed == 0
  {
    hide Reachable, ReachableThrough;
    AddReturns();
    var b := Returned();
    PassThrough(b);
    var s1 := b.(lifecycle := ShutdownStop, shutdownBegun := true);
    ContinueThrough(b, b, Manager(CallShutdown), s1);
    var s2 := s1.(lifecycle := ShutdownJoin, stop := true);
    ContinueThrough(b, s1, Manager(LifeRaiseStop), s2);
    var s3 := s2.(worker := TestStop(false));
    ContinueThrough(b, s2, Worker(WorkMove), s3);
    var s4 := s3.(worker := Exited);
    ContinueThrough(b, s3, Worker(WorkMove), s4);
    var s5 := s4.(lifecycle := Free);
    ContinueThrough(b, s4, Manager(LifeMove(false)), s5);
    assert b.Accepted() == [0] && s5.Accepted() == [0];
  }
}
