/**
 The bounded multi-producer, single-consumer ring as a step machine.

 Every atomic operation of `try_push` and `try_pop` is one step, any number of
 producers may be part-way through a push, and one consumer may be part-way
 through a pop.  Positions are unbounded naturals.  The fields `claimed`,
 `owners` and `popped` are histories: the program never reads them.
 */
module MpscRing {
  import opened Options
  import opened Remainders

  type ThreadId = nat

  datatype Cell<+T> = Cell(sequence: nat, storage: Option<T>)

  /** Program counter of one `try_push`; `PushReturned` carries its result. */
  datatype PushPc =
    | LoadTail
    | ReadSequence(pos: nat)
    | ClaimTail(pos: nat)
    | Construct(pos: nat)
    | Publish(pos: nat)
    | PushReturned(ok: bool)

  datatype Pusher<+T> = Pusher(item: T, pc: PushPc)

  /** Program counter of the single consumer's `try_pop`. */
  datatype PopPc<+T> =
    | PopIdle
    | LoadHead
    | ReadHead(pos: nat)
    | ClaimHead(pos: nat)
    | MoveOut(pos: nat)
    | Release(pos: nat, item: T)
    | PopReturned(result: Option<T>)

  datatype Ring<T> = Ring(
    cells: seq<Cell<T>>,
    enqueuePos: nat,
    dequeuePos: nat,
    pushers: map<ThreadId, Pusher<T>>,
    popper: PopPc<T>,
    claimed: seq<T>,
    owners: seq<ThreadId>,
    popped: seq<T>)
  {
    function Capacity(): nat { |cells| }

    /** Number of cells the consumer has handed back to the producers. */
    function Released(): int
    {
      if popper.MoveOut? || popper.Release? then dequeuePos - 1 else dequeuePos
    }
  }

  function Slot(pos: nat, capacity: nat): (i: nat)
    requires capacity > 0
    ensures i < capacity
  {
    pos % capacity
  }

  /** The ring with exactly `capacity` cells, before the constructor's clamp. */
  function RawRing<T>(capacity: nat): Ring<T>
  {
    Ring(seq(capacity, i requires 0 <= i < capacity => Cell(i, None)), 0, 0, map[], PopIdle, [], [], [])
  }

  /** The constructor: fewer than two cells become two. */
  function NewRing<T>(capacity: nat): Ring<T>
  {
    RawRing(if capacity < 2 then 2 else capacity)
  }

  function BeginPush<T>(r: Ring<T>, p: ThreadId, item: T): Ring<T>
  {
    r.(pushers := r.pushers[p := Pusher(item, LoadTail)])
  }

  function EndPush<T>(r: Ring<T>, p: ThreadId): Ring<T>
  {
    r.(pushers := r.pushers - {p})
  }

  function SetPush<T>(r: Ring<T>, p: ThreadId, pc: PushPc): Ring<T>
    requires p in r.pushers
  {
    r.(pushers := r.pushers[p := r.pushers[p].(pc := pc)])
  }

  predicate CanPush<T>(r: Ring<T>, p: ThreadId)
  {
    r.Capacity() > 0 && p in r.pushers && !r.pushers[p].pc.PushReturned?
  }

  /** One atomic operation of producer `p`; `spurious` makes a weak exchange fail for no reason. */
  function PushStep<T>(r: Ring<T>, p: ThreadId, spurious: bool): Ring<T>
    requires CanPush(r, p)
  {
    match r.pushers[p].pc
    case LoadTail =>
      SetPush(r, p, ReadSequence(r.enqueuePos))
    case ReadSequence(pos) =>
      var seen := r.cells[Slot(pos, r.Capacity())].sequence;
      SetPush(r, p, if seen == pos then ClaimTail(pos)
                    else if seen < pos then PushReturned(false)
                    else LoadTail)
    case ClaimTail(pos) =>
      if r.enqueuePos == pos && !spurious then
        SetPush(r, p, Construct(pos)).(
          enqueuePos := pos + 1,
          claimed := r.claimed + [r.pushers[p].item],
          owners := r.owners + [p])
      else
        SetPush(r, p, ReadSequence(r.enqueuePos))
    case Construct(pos) =>
      var i := Slot(pos, r.Capacity());
      SetPush(r, p, Publish(pos)).(cells := r.cells[i := r.cells[i].(storage := Some(r.pushers[p].item))])
    case Publish(pos) =>
      var i := Slot(pos, r.Capacity());
      SetPush(r, p, PushReturned(true)).(cells := r.cells[i := r.cells[i].(sequence := pos + 1)])
  }

  function BeginPop<T>(r: Ring<T>): Ring<T>
  {
    r.(popper := LoadHead)
  }

  function EndPop<T>(r: Ring<T>): Ring<T>
  {
    r.(popper := PopIdle)
  }

  predicate CanPop<T>(r: Ring<T>)
  {
    && r.Capacity() > 0
    && !r.popper.PopIdle?
    && !r.popper.PopReturned?
    && (r.popper.MoveOut? ==> r.cells[Slot(r.popper.pos, r.Capacity())].storage.Some?)
  }

  /** One atomic operation of the consumer. */
  function PopStep<T>(r: Ring<T>, spurious: bool): Ring<T>
    requires CanPop(r)
  {
    match r.popper
    case LoadHead =>
      r.(popper := ReadHead(r.dequeuePos))
    case ReadHead(pos) =>
      if r.cells[Slot(pos, r.Capacity())].sequence == pos + 1
      then r.(popper := ClaimHead(pos))
      else r.(popper := PopReturned(None))
    case ClaimHead(pos) =>
      if r.dequeuePos == pos && !spurious
      then r.(dequeuePos := pos + 1, popper := MoveOut(pos))
      else r.(popper := LoadHead)
    case MoveOut(pos) =>
      var i := Slot(pos, r.Capacity());
      var item := r.cells[i].storage.value;
      r.(popper := Release(pos, item),
         cells := r.cells[i := r.cells[i].(storage := None)],
         popped := r.popped + [item])
    case Release(pos, item) =>
      var i := Slot(pos, r.Capacity());
      r.(popper := PopReturned(Some(item)),
         cells := r.cells[i := r.cells[i].(sequence := pos + r.Capacity())])
  }

  /** `empty()`: looks only at the cell under the consumer position. */
  predicate HeadEmpty<T>(r: Ring<T>)
    requires r.Capacity() > 0
  {
    r.cells[Slot(r.dequeuePos, r.Capacity())].sequence != r.dequeuePos + 1
  }

  // ---------------------------------------------------------------- invariant

  /** The producer that claimed `pos` has not published it yet. */
  ghost predicate InConstruction<T>(r: Ring<T>, pos: nat)
    requires pos < |r.owners|
  {
    && r.owners[pos] in r.pushers
    && (r.pushers[r.owners[pos]].pc == Construct(pos) || r.pushers[r.owners[pos]].pc == Publish(pos))
  }

  ghost predicate CellInv<T>(r: Ring<T>, pos: nat)
    requires r.Capacity() > 0 && |r.owners| == |r.claimed| == r.enqueuePos
  {
    var c := r.cells[Slot(pos, r.Capacity())];
    if pos >= r.enqueuePos then
      c == Cell(pos, None)
    else
      || (c.sequence == pos && InConstruction(r, pos))
      || (c.sequence == pos + 1 && (c.storage == Some(r.claimed[pos]) || (c.storage == None && r.popper.Release? && r.popper.pos == pos)))
  }

  ghost predicate PusherInv<T>(r: Ring<T>, p: ThreadId)
    requires r.Capacity() > 0 && |r.owners| == |r.claimed| == r.enqueuePos && p in r.pushers
  {
    var item := r.pushers[p].item;
    match r.pushers[p].pc
    case ReadSequence(pos) => pos <= r.enqueuePos
    case ClaimTail(pos) => pos <= r.enqueuePos && pos < r.Released() + r.Capacity()
    case Construct(pos) =>
      && r.dequeuePos <= pos < r.enqueuePos && r.owners[pos] == p && r.claimed[pos] == item
      && r.cells[Slot(pos, r.Capacity())].sequence == pos
    case Publish(pos) =>
      && r.dequeuePos <= pos < r.enqueuePos && r.owners[pos] == p && r.claimed[pos] == item
      && r.cells[Slot(pos, r.Capacity())] == Cell(pos, Some(item))
    case _ => true
  }

  ghost predicate PopperInv<T>(r: Ring<T>)
    requires r.Capacity() > 0 && |r.claimed| == r.enqueuePos && r.dequeuePos <= r.enqueuePos
  {
    && (r.popper.MoveOut? || r.popped == r.claimed[..r.dequeuePos])
    && match r.popper
       case ReadHead(pos) => pos == r.dequeuePos
       case ClaimHead(pos) =>
         pos == r.dequeuePos < r.enqueuePos && r.cells[Slot(pos, r.Capacity())].sequence == pos + 1
       case MoveOut(pos) =>
         && pos + 1 == r.dequeuePos && r.popped == r.claimed[..pos]
         && r.cells[Slot(pos, r.Capacity())] == Cell(pos + 1, Some(r.claimed[pos]))
       case Release(pos, item) =>
         && pos + 1 == r.dequeuePos && item == r.claimed[pos]
         && r.cells[Slot(pos, r.Capacity())] == Cell(pos + 1, None)
       case PopReturned(Some(item)) => r.dequeuePos > 0 && item == r.claimed[r.dequeuePos - 1]
       case _ => true
  }

  ghost predicate Shape<T>(r: Ring<T>)
  {
    && r.Capacity() >= 2
    && |r.claimed| == |r.owners| == r.enqueuePos
    && 0 <= r.Released() <= r.dequeuePos <= r.enqueuePos <= r.Released() + r.Capacity()
  }

  ghost predicate RingInv<T>(r: Ring<T>)
  {
    && Shape(r)
    && (forall pos: nat {:trigger Slot(pos, r.Capacity())} {:trigger CellInv(r, pos)} | r.Released() <= pos < r.Released() + r.Capacity() :: CellInv(r, pos))
    && (forall p | p in r.pushers :: PusherInv(r, p))
    && PopperInv(r)
  }

  // ---------------------------------------------------------- slot arithmetic

  lemma SlotsApart(a: nat, b: nat, capacity: nat)
    requires a < b < a + capacity
    ensures Slot(a, capacity) != Slot(b, capacity)
  {
    Advance(a, b - a, capacity);
  }

  lemma SlotWraps(a: nat, capacity: nat)
    requires capacity > 0
    ensures Slot(a + capacity, capacity) == Slot(a, capacity)
  {
    var q, rem := a / capacity, a % capacity;
    assert a == q * capacity + rem;
    assert (q + 1) * capacity == q * capacity + capacity;
    RemainderOf(q + 1, rem, a + capacity, capacity);
  }

  /** Each position shares its cell with exactly one position of any full-length window. */
  lemma WindowMate(pos: nat, start: nat, capacity: nat) returns (mate: nat)
    requires capacity > 0
    ensures start <= mate < start + capacity
    ensures Slot(mate, capacity) == Slot(pos, capacity)
  {
    var d := Slot(pos, capacity) as int - Slot(start, capacity);
    mate := if d >= 0 then start + d else start + d + capacity;
    var q := start / capacity;
    assert start == q * capacity + start % capacity;
    if d >= 0 {
      RemainderOf(q, Slot(pos, capacity), mate, capacity);
    } else {
      assert (q + 1) * capacity == q * capacity + capacity;
      RemainderOf(q + 1, Slot(pos, capacity), mate, capacity);
    }
  }

  /** No two live positions share a cell. */
  lemma WindowApart(start: nat, pos: nat, capacity: nat)
    requires start <= pos < start + capacity
    ensures forall other: nat {:trigger Slot(other, capacity)} | start <= other < start + capacity && other != pos ::
              Slot(other, capacity) != Slot(pos, capacity)
  {
    forall other: nat | start <= other < start + capacity && other != pos
      ensures Slot(other, capacity) != Slot(pos, capacity)
    {
      if other < pos { SlotsApart(other, pos, capacity); } else { SlotsApart(pos, other, capacity); }
    }
  }

  /** What a producer can conclude from one read of a cell, however stale its position. */
  lemma ReadCell<T>(r: Ring<T>, pos: nat)
    requires RingInv(r) && pos <= r.enqueuePos
    ensures var seen := r.cells[Slot(pos, r.Capacity())].sequence;
            && (seen == pos ==> r.Released() <= pos < r.Released() + r.Capacity())
            && (seen < pos ==> pos == r.enqueuePos == r.Released() + r.Capacity())
            && (seen > pos ==> pos < r.enqueuePos)
  {
    var capacity := r.Capacity();
    var mate := WindowMate(pos, r.Released(), capacity);
    assert CellInv(r, mate);
    var seen := r.cells[Slot(pos, capacity)].sequence;
    if seen == pos && mate != pos {
      SlotsApart(mate, pos, capacity);
      assert false;
    }
    if seen < pos && pos < mate + capacity {
      SlotsApart(mate, pos, capacity);
      assert false;
    }
  }

  // -------------------------------------------------- every step keeps RingInv

  lemma NewRingInv<T>(capacity: nat)
    ensures RingInv(NewRing<T>(capacity))
  {
    var r := NewRing<T>(capacity);
    forall pos: nat | r.Released() <= pos < r.Released() + r.Capacity()
      ensures CellInv(r, pos)
    {
      RemainderOf(0, pos, pos, r.Capacity());
    }
  }

  /** Moving one producer to a program counter that owns no cell keeps every cell's claim. */
  lemma MovePusher<T>(r: Ring<T>, p: ThreadId, pc: PushPc)
    requires RingInv(r) && p in r.pushers
    requires !r.pushers[p].pc.Construct? && !r.pushers[p].pc.Publish?
    requires PusherInv(SetPush(r, p, pc), p)
    ensures RingInv(SetPush(r, p, pc))
  {
    var r' := SetPush(r, p, pc);
    forall pos: nat | r'.Released() <= pos < r'.Released() + r'.Capacity()
      ensures CellInv(r', pos)
    {
      assert CellInv(r, pos);
    }
    forall o | o in r'.pushers
      ensures PusherInv(r', o)
    {
      if o != p { assert PusherInv(r, o); }
    }
  }

  lemma BeginPushKeeps<T>(r: Ring<T>, p: ThreadId, item: T)
    requires RingInv(r) && p !in r.pushers
    ensures RingInv(BeginPush(r, p, item))
  {
    var r' := BeginPush(r, p, item);
    forall pos: nat | r'.Released() <= pos < r'.Released() + r'.Capacity()
      ensures CellInv(r', pos)
    {
      assert CellInv(r, pos);
    }
    forall o | o in r'.pushers
      ensures PusherInv(r', o)
    {
      if o != p { assert PusherInv(r, o); }
    }
  }

  lemma EndPushKeeps<T>(r: Ring<T>, p: ThreadId)
    requires RingInv(r) && p in r.pushers && r.pushers[p].pc.PushReturned?
    ensures RingInv(EndPush(r, p))
  {
    var r' := EndPush(r, p);
    forall pos: nat | r'.Released() <= pos < r'.Released() + r'.Capacity()
      ensures CellInv(r', pos)
    {
      assert CellInv(r, pos);
    }
    forall o | o in r'.pushers
      ensures PusherInv(r', o)
    {
      assert PusherInv(r, o);
    }
  }

  lemma ClaimKeeps<T>(r: Ring<T>, p: ThreadId)
    requires RingInv(r) && CanPush(r, p) && r.pushers[p].pc == ClaimTail(r.enqueuePos)
    ensures RingInv(PushStep(r, p, false))
  {
    var r' := PushStep(r, p, false);
    assert PusherInv(r, p);
    assert CellInv(r, r.enqueuePos);
    forall pos: nat | r'.Released() <= pos < r'.Released() + r'.Capacity()
      ensures CellInv(r', pos)
    {
      assert CellInv(r, pos);
      if pos < r.enqueuePos { assert r'.owners[pos] == r.owners[pos] && r'.claimed[pos] == r.claimed[pos]; }
    }
    forall o | o in r'.pushers
      ensures PusherInv(r', o)
    {
      if o != p { assert PusherInv(r, o); }
    }
    assert PopperInv(r');
  }

  lemma ConstructKeeps<T>(r: Ring<T>, p: ThreadId)
    requires RingInv(r) && CanPush(r, p) && r.pushers[p].pc.Construct?
    ensures RingInv(PushStep(r, p, false))
  {
    var r' := PushStep(r, p, false);
    var mine := r.pushers[p].pc.pos;
    assert PusherInv(r, p);
    WindowApart(r.Released(), mine, r.Capacity());
    forall pos: nat | r'.Released() <= pos < r'.Released() + r'.Capacity()
      ensures CellInv(r', pos)
    {
      assert CellInv(r, pos);
    }
    forall o | o in r'.pushers
      ensures PusherInv(r', o)
    {
      if o != p { assert PusherInv(r, o); }
    }
    assert CellInv(r, r.dequeuePos) || r.dequeuePos == r.Released() + r.Capacity();
  }

  lemma PublishKeeps<T>(r: Ring<T>, p: ThreadId)
    requires RingInv(r) && CanPush(r, p) && r.pushers[p].pc.Publish?
    ensures RingInv(PushStep(r, p, false))
  {
    var r' := PushStep(r, p, false);
    var mine := r.pushers[p].pc.pos;
    assert PusherInv(r, p);
    WindowApart(r.Released(), mine, r.Capacity());
    forall pos: nat | r'.Released() <= pos < r'.Released() + r'.Capacity()
      ensures CellInv(r', pos)
    {
      assert CellInv(r, pos);
    }
    forall o | o in r'.pushers
      ensures PusherInv(r', o)
    {
      if o != p { assert PusherInv(r, o); }
    }
  }

  lemma PushStepKeeps<T>(r: Ring<T>, p: ThreadId, spurious: bool)
    requires RingInv(r) && CanPush(r, p)
    ensures RingInv(PushStep(r, p, spurious))
  {
    assert PusherInv(r, p);
    match r.pushers[p].pc
    case LoadTail =>
      MovePusher(r, p, ReadSequence(r.enqueuePos));
    case ReadSequence(pos) =>
      ReadCell(r, pos);
      MovePusher(r, p, PushStep(r, p, spurious).pushers[p].pc);
    case ClaimTail(pos) =>
      if r.enqueuePos == pos && !spurious {
        ClaimKeeps(r, p);
      } else {
        MovePusher(r, p, ReadSequence(r.enqueuePos));
      }
    case Construct(_) => ConstructKeeps(r, p);
    case Publish(_) => PublishKeeps(r, p);
  }

  /** The consumer may always take its next step: a claimed head cell is never found empty. */
  lemma PopEnabled<T>(r: Ring<T>)
    requires RingInv(r) && !r.popper.PopIdle? && !r.popper.PopReturned?
    ensures CanPop(r)
  {
  }

  /** A consumer step that touches neither cells nor positions keeps the producers' half. */
  lemma MovePopper<T>(r: Ring<T>, pc: PopPc<T>)
    requires RingInv(r) && !r.popper.MoveOut? && !r.popper.Release? && !pc.MoveOut? && !pc.Release?
    requires PopperInv(r.(popper := pc))
    ensures RingInv(r.(popper := pc))
  {
    var r' := r.(popper := pc);
    forall pos: nat | r'.Released() <= pos < r'.Released() + r'.Capacity()
      ensures CellInv(r', pos)
    {
      assert CellInv(r, pos);
    }
    forall o | o in r'.pushers
      ensures PusherInv(r', o)
    {
      assert PusherInv(r, o);
    }
  }

  lemma ClaimHeadKeeps<T>(r: Ring<T>)
    requires RingInv(r) && CanPop(r) && r.popper.ClaimHead?
    ensures RingInv(PopStep(r, false))
  {
    var r' := PopStep(r, false);
    var head := r.dequeuePos;
    assert CellInv(r, head);
    WindowApart(r.Released(), head, r.Capacity());
    forall pos: nat | r'.Released() <= pos < r'.Released() + r'.Capacity()
      ensures CellInv(r', pos)
    {
      assert CellInv(r, pos);
    }
    forall o | o in r'.pushers
      ensures PusherInv(r', o)
    {
      assert PusherInv(r, o);
    }
  }

  lemma MoveOutKeeps<T>(r: Ring<T>)
    requires RingInv(r) && CanPop(r) && r.popper.MoveOut?
    ensures RingInv(PopStep(r, false))
  {
    var r' := PopStep(r, false);
    var head := r.popper.pos;
    WindowApart(r.Released(), head, r.Capacity());
    forall pos: nat | r'.Released() <= pos < r'.Released() + r'.Capacity()
      ensures CellInv(r', pos)
    {
      assert CellInv(r, pos);
    }
    forall o | o in r'.pushers
      ensures PusherInv(r', o)
    {
      assert PusherInv(r, o);
    }
    assert r.claimed[..head + 1] == r.claimed[..head] + [r.claimed[head]];
  }

  lemma ReleaseKeeps<T>(r: Ring<T>)
    requires RingInv(r) && CanPop(r) && r.popper.Release?
    ensures RingInv(PopStep(r, false))
  {
    var r' := PopStep(r, false);
    var head := r.popper.pos;
    assert CellInv(r, head);
    WindowApart(r.Released(), head, r.Capacity());
    SlotWraps(head, r.Capacity());
    forall pos: nat | r'.Released() <= pos < r'.Released() + r'.Capacity()
      ensures CellInv(r', pos)
    {
      if pos < r.Released() + r.Capacity() { assert CellInv(r, pos); }
    }
    forall o | o in r'.pushers
      ensures PusherInv(r', o)
    {
      assert PusherInv(r, o);
    }
  }

  lemma PopStepKeeps<T>(r: Ring<T>, spurious: bool)
    requires RingInv(r) && CanPop(r)
    ensures RingInv(PopStep(r, spurious))
  {
    match r.popper
    case LoadHead => MovePopper(r, ReadHead(r.dequeuePos));
    case ReadHead(pos) =>
      if pos < r.Released() + r.Capacity() { assert CellInv(r, pos); }
      HeadCell(r);
      MovePopper(r, PopStep(r, spurious).popper);
    case ClaimHead(pos) =>
      if spurious { MovePopper(r, LoadHead); } else { ClaimHeadKeeps(r); }
    case MoveOut(_) => MoveOutKeeps(r);
    case Release(_, _) => ReleaseKeeps(r);
  }

  /** What the head cell says: published exactly when its sequence is one past the position. */
  lemma HeadCell<T>(r: Ring<T>)
    requires RingInv(r) && r.Released() == r.dequeuePos
    ensures !HeadEmpty(r) ==> r.dequeuePos < r.enqueuePos
    ensures HeadEmpty(r) && r.dequeuePos < r.enqueuePos ==> InConstruction(r, r.dequeuePos)
  {
    assert CellInv(r, r.dequeuePos);
  }

  /** The part of the ring a producer's step can reach. */
  lemma PushTouches<T>(r: Ring<T>, p: ThreadId, spurious: bool)
    requires CanPush(r, p)
    ensures var r' := PushStep(r, p, spurious);
            var pc, pc' := r.pushers[p].pc, PushStep(r, p, spurious).pushers[p].pc;
            && p in r'.pushers && r'.pushers == r.pushers[p := Pusher(r.pushers[p].item, pc')]
            && r'.popper == r.popper && r'.popped == r.popped && r'.Capacity() == r.Capacity() && r.claimed <= r'.claimed
            && (pc.Publish? <==> pc' == PushReturned(true))
            && (pc'.Construct? <==> r'.claimed != r.claimed)
            && (pc'.Construct? <==> pc == ClaimTail(r.enqueuePos) && !spurious)
            && r'.claimed == (if pc'.Construct? then r.claimed + [r.pushers[p].item] else r.claimed)
            && (pc'.Publish? <==> pc.Construct?)
  {
  }

  /** The part of the ring a consumer's step can reach. */
  lemma PopTouches<T>(r: Ring<T>, spurious: bool)
    requires CanPop(r)
    ensures var r' := PopStep(r, spurious);
            && r'.pushers == r.pushers && r'.claimed == r.claimed && r'.Capacity() == r.Capacity() && r.popped <= r'.popped
            && !r'.popper.PopIdle?
            && (r'.popper.Release? <==> r.popper.MoveOut?)
            && (r'.popper.PopReturned? && r'.popper.result.Some? <==> r.popper.Release?)
            && |r'.popped| == |r.popped| + (if r.popper.MoveOut? then 1 else 0)
  {
  }

  // ------------------------------------------------------- published positions

  /** Positions whose value is in the ring, ready for the consumer and not yet moved out. */
  ghost function Published<T>(r: Ring<T>): set<nat>
    requires r.Capacity() > 0
  {
    set pos: nat | |r.popped| <= pos < r.enqueuePos && r.cells[Slot(pos, r.Capacity())].sequence == pos + 1
  }

  /** A push publishes exactly one position, in its last store, and disturbs no other. */
  lemma PushPublishes<T>(r: Ring<T>, p: ThreadId, spurious: bool)
    requires RingInv(r) && CanPush(r, p)
    ensures var pc := r.pushers[p].pc;
            if pc.Publish? then
              pc.pos !in Published(r) && Published(PushStep(r, p, spurious)) == Published(r) + {pc.pos}
            else
              Published(PushStep(r, p, spurious)) == Published(r)
  {
    var pc := r.pushers[p].pc;
    var r' := PushStep(r, p, spurious);
    assert PusherInv(r, p);
    if pc.Publish? {
      WindowApart(r.Released(), pc.pos, r.Capacity());
      assert Published(r') == Published(r) + {pc.pos};
    } else if pc.ClaimTail? && r.enqueuePos == pc.pos && !spurious {
      assert CellInv(r, r.enqueuePos);
      assert Published(r') == Published(r);
    } else {
      assert Published(r') == Published(r);
    }
  }

  /** A pop withdraws exactly one position, when it moves the value out. */
  lemma PopWithdraws<T>(r: Ring<T>, spurious: bool)
    requires RingInv(r) && CanPop(r)
    ensures if r.popper.MoveOut? then
              r.popper.pos in Published(r) && Published(PopStep(r, spurious)) == Published(r) - {r.popper.pos}
            else
              Published(PopStep(r, spurious)) == Published(r)
  {
    var r' := PopStep(r, spurious);
    if r.popper.MoveOut? {
      assert Published(r') == Published(r) - {r.popper.pos};
    } else if r.popper.Release? {
      WindowApart(r.Released(), r.popper.pos, r.Capacity());
      assert Published(r') == Published(r);
    } else {
      assert Published(r') == Published(r);
    }
  }

  /** With no push in progress, a claimed value is a published one. */
  lemma QuietHeadIsPublished<T>(r: Ring<T>)
    requires RingInv(r) && r.pushers == map[] && |r.popped| < r.enqueuePos
    ensures |r.popped| in Published(r)
  {
    assert CellInv(r, |r.popped|);
  }

  // --------------------------------------------------------------- whole runs

  datatype Action<T> =
    | CallPush(p: ThreadId, item: T)
    | StepPush(p: ThreadId, spurious: bool)
    | ReturnPush(p: ThreadId)
    | CallPop
    | StepPop(spurious: bool)
    | ReturnPop

  predicate Enabled<T>(r: Ring<T>, a: Action<T>)
  {
    match a
    case CallPush(p, _) => p !in r.pushers
    case StepPush(p, _) => CanPush(r, p)
    case ReturnPush(p) => p in r.pushers && r.pushers[p].pc.PushReturned?
    case CallPop => r.popper.PopIdle?
    case StepPop(_) => CanPop(r)
    case ReturnPop => r.popper.PopReturned?
  }

  function Apply<T>(r: Ring<T>, a: Action<T>): Ring<T>
    requires Enabled(r, a)
  {
    match a
    case CallPush(p, item) => BeginPush(r, p, item)
    case StepPush(p, spurious) => PushStep(r, p, spurious)
    case ReturnPush(p) => EndPush(r, p)
    case CallPop => BeginPop(r)
    case StepPop(spurious) => PopStep(r, spurious)
    case ReturnPop => EndPop(r)
  }

  /** `trace` is an interleaving: each state is the previous one after one enabled step. */
  ghost predicate IsRun<T>(trace: seq<Ring<T>>, steps: seq<Action<T>>)
  {
    && |trace| == |steps| + 1
    && forall i | 0 <= i < |steps| :: Enabled(trace[i], steps[i]) && trace[i + 1] == Apply(trace[i], steps[i])
  }

  lemma ApplyKeeps<T>(r: Ring<T>, a: Action<T>)
    requires RingInv(r) && Enabled(r, a)
    ensures RingInv(Apply(r, a))
  {
    match a
    case CallPush(p, item) => BeginPushKeeps(r, p, item);
    case StepPush(p, spurious) => PushStepKeeps(r, p, spurious);
    case ReturnPush(p) => EndPushKeeps(r, p);
    case CallPop => MovePopper(r, LoadHead);
    case StepPop(spurious) => PopStepKeeps(r, spurious);
    case ReturnPop => MovePopper(r, PopIdle);
  }

  lemma {:induction false} RunKeeps<T>(trace: seq<Ring<T>>, steps: seq<Action<T>>, n: nat)
    requires IsRun(trace, steps) && RingInv(trace[0]) && n < |trace|
    ensures RingInv(trace[n])
  {
    if n > 0 {
      RunKeeps(trace, steps, n - 1);
      ApplyKeeps(trace[n - 1], steps[n - 1]);
    }
  }

  /**
   Linearizability.  In every interleaving, at every instant, what has been popped is a
   prefix of what has been claimed, in claim order, and no more than the capacity is live.
   */
  lemma PoppedIsPrefixOfClaimed<T>(trace: seq<Ring<T>>, steps: seq<Action<T>>, capacity: nat, n: nat)
    requires IsRun(trace, steps) && trace[0] == NewRing<T>(capacity) && n < |trace|
    ensures trace[n].popped <= trace[n].claimed
    ensures |trace[n].claimed| == trace[n].enqueuePos
    ensures 0 <= trace[n].enqueuePos - trace[n].Released() <= trace[n].Capacity()
  {
    NewRingInv<T>(capacity);
    RunKeeps(trace, steps, n);
  }

  /** The cell whose storage a producer is writing. */
  ghost predicate Builds<T>(r: Ring<T>, p: ThreadId, pos: nat)
  {
    p in r.pushers && (r.pushers[p].pc == Construct(pos) || r.pushers[p].pc == Publish(pos))
  }

  /** The cell whose storage the consumer is emptying. */
  ghost predicate Empties<T>(r: Ring<T>, pos: nat)
  {
    (r.popper.MoveOut? || r.popper.Release?) && r.popper.pos == pos
  }

  /**
   A cell's storage has one user at a time.  In every interleaving, two producers never build into
   the same cell, and none builds into the cell the consumer is emptying.
   */
  lemma StorageIsExclusive<T>(trace: seq<Ring<T>>, steps: seq<Action<T>>, n: nat, p: ThreadId, pos: nat, other: nat)
    requires IsRun(trace, steps) && RingInv(trace[0]) && n < |trace| && Builds(trace[n], p, pos)
    requires Empties(trace[n], other) || exists q :: q != p && Builds(trace[n], q, other)
    ensures trace[n].Capacity() > 0 && Slot(pos, trace[n].Capacity()) != Slot(other, trace[n].Capacity())
  {
    RunKeeps(trace, steps, n);
    var r := trace[n];
    assert PusherInv(r, p);
    if !Empties(r, other) {
      var q :| q != p && Builds(r, q, other);
      assert PusherInv(r, q);
      assert r.owners[pos] == p && r.owners[other] == q;
    }
    if pos < other { SlotsApart(pos, other, r.Capacity()); } else { SlotsApart(other, pos, r.Capacity()); }
  }

  /** How many of its own steps a pop still needs, unless a weak exchange fails for no reason. */
  function StepsLeft<T>(pc: PopPc<T>): nat
  {
    match pc
    case LoadHead => 5
    case ReadHead(_) => 4
    case ClaimHead(_) => 3
    case MoveOut(_) => 2
    case Release(_, _) => 1
    case _ => 0
  }

  /**
   Producers cannot hold the consumer up: in every interleaving a pop that has not returned has a step
   to take, and no step of a producer moves it or takes that step away.
   */
  lemma ConsumerIsNeverBlocked<T>(trace: seq<Ring<T>>, steps: seq<Action<T>>, n: nat)
    requires IsRun(trace, steps) && RingInv(trace[0]) && n < |trace|
    ensures StepsLeft(trace[n].popper) > 0 ==> CanPop(trace[n])
    ensures n < |steps| && (steps[n].CallPush? || steps[n].StepPush? || steps[n].ReturnPush?) ==>
              trace[n + 1].popper == trace[n].popper
  {
    RunKeeps(trace, steps, n);
    var r := trace[n];
    if !r.popper.PopIdle? && !r.popper.PopReturned? { PopEnabled(r); }
    if n < |steps| { assert trace[n + 1] == Apply(r, steps[n]); }
  }

  /** How many steps of the consumer from `i` to `j` were, or were not, chosen to fail spuriously. */
  function PopSteps<T>(steps: seq<Action<T>>, i: nat, j: nat, spurious: bool): nat
    requires i <= j <= |steps|
  {
    if i == j then 0
    else PopSteps(steps, i, j - 1, spurious) + if steps[j - 1].StepPop? && steps[j - 1].spurious == spurious then 1 else 0
  }

  lemma PopStepsLeft<T>(r: Ring<T>, spurious: bool)
    requires RingInv(r) && CanPop(r)
    ensures var left := StepsLeft(PopStep(r, spurious).popper);
            if spurious then left <= StepsLeft(r.popper) + 2 else left < StepsLeft(r.popper)
  {
  }

  lemma OthersLeavePop<T>(r: Ring<T>, a: Action<T>)
    requires Enabled(r, a) && !a.CallPop? && !a.StepPop?
    ensures StepsLeft(Apply(r, a).popper) == StepsLeft(r.popper)
  {
    hide PushStep;
    if a.StepPush? { PushTouches(r, a.p, a.spurious); }
  }

  /**
   The steps of a pop are bounded by its spurious failures alone.  In every interleaving, from the call
   on, a pop takes at most five steps that do not fail, and two more for each that does; so a pop whose
   exchange never fails spuriously returns within five steps, whatever the producers do.
   */
  lemma {:induction false} PopStepsAreBounded<T>(trace: seq<Ring<T>>, steps: seq<Action<T>>, i: nat, j: nat)
    requires IsRun(trace, steps) && RingInv(trace[0]) && i <= j < |trace|
    requires forall k | i <= k < j :: !steps[k].CallPop?
    ensures PopSteps(steps, i, j, false) + StepsLeft(trace[j].popper)
            <= StepsLeft(trace[i].popper) + 2 * PopSteps(steps, i, j, true)
  {
    hide RingInv, CanPop, PopStep, CanPush, PushStep;
    if i < j {
      PopStepsAreBounded(trace, steps, i, j - 1);
      RunKeeps(trace, steps, j - 1);
      var r, a := trace[j - 1], steps[j - 1];
      if a.StepPop? { PopStepsLeft(r, a.spurious); } else { OthersLeavePop(r, a); }
    }
  }

  /**
   No bound holds without counting those failures: a pop that finds an element and whose exchange then
   fails spuriously is back where it was called, and may go round again.
   */
  lemma SpuriousFailureRestartsPop<T>(r: Ring<T>)
    requires RingInv(r) && r.popper.PopIdle? && !HeadEmpty(r)
    ensures var called := BeginPop(r);
            && CanPop(called)
            && CanPop(PopStep(called, false))
            && CanPop(PopStep(PopStep(called, false), false))
            && PopStep(PopStep(PopStep(called, false), false), true) == called
  {
  }

  /** Claims are never withdrawn or reordered: the claim history only grows along a run. */
  lemma {:induction false} ClaimsOnlyGrow<T>(trace: seq<Ring<T>>, steps: seq<Action<T>>, i: nat, j: nat)
    requires IsRun(trace, steps) && i <= j < |trace|
    ensures trace[i].claimed <= trace[j].claimed && trace[i].popped <= trace[j].popped
  {
    if i < j {
      ClaimsOnlyGrow(trace, steps, i, j - 1);
      assert trace[j] == Apply(trace[j - 1], steps[j - 1]);
    }
  }

  /** What a pop hands over is the next value in claim order, and only pops remove values. */
  lemma PopReturnsNext<T>(r: Ring<T>)
    requires RingInv(r)
    ensures r.popped <= r.claimed
    ensures r.popper.PopReturned? && r.popper.result.Some? ==>
              r.popped != [] && r.popper.result.value == r.popped[|r.popped| - 1]
    ensures r.popper.Release? ==> r.popped != []
  {
  }

  /** Cell `i` is claimed and not yet released. */
  ghost predicate CellTaken<T>(r: Ring<T>, i: nat)
    requires r.Capacity() > 0
  {
    exists pos: nat :: r.Released() <= pos < r.enqueuePos && Slot(pos, r.Capacity()) == i
  }

  /** "Full" is truthful at the instant of the read, even when the producer's position is stale. */
  lemma FullVerdictIsTruthful<T>(r: Ring<T>, p: ThreadId, spurious: bool)
    requires RingInv(r) && CanPush(r, p)
    requires PushStep(r, p, spurious).pushers[p].pc == PushReturned(false)
    ensures PushStep(r, p, spurious) == SetPush(r, p, PushReturned(false))
    ensures r.enqueuePos - r.Released() == r.Capacity()
    ensures forall i: nat | i < r.Capacity() :: CellTaken(r, i)
  {
    assert PusherInv(r, p);
    ReadCell(r, r.pushers[p].pc.pos);
    forall i: nat | i < r.Capacity()
      ensures CellTaken(r, i)
    {
      RemainderOf(0, i, i, r.Capacity());
      var mate := WindowMate(i, r.Released(), r.Capacity());
    }
  }

  /** "Empty" means that the next value is unclaimed, or claimed by a producer still constructing it. */
  lemma EmptyVerdictIsTruthful<T>(r: Ring<T>)
    requires RingInv(r) && CanPop(r) && PopStep(r, false).popper == PopReturned(None)
    ensures r.dequeuePos == r.enqueuePos || InConstruction(r, r.dequeuePos)
  {
    HeadCell(r);
  }

  /** Two positions that are claimed and not yet released never occupy the same cell. */
  lemma LivePositionsHaveOwnCells<T>(r: Ring<T>, a: nat, b: nat)
    requires RingInv(r) && r.Released() <= a < b < r.enqueuePos
    ensures Slot(a, r.Capacity()) != Slot(b, r.Capacity())
  {
    SlotsApart(a, b, r.Capacity());
  }

  /** Six uninterrupted steps: a whole `try_push` on a ring with a free tail cell. */
  function WholePush<T>(r: Ring<T>, p: ThreadId, item: T): (r': Ring<T>)
    requires r.Capacity() > 0 && p !in r.pushers
    requires r.cells[Slot(r.enqueuePos, r.Capacity())].sequence == r.enqueuePos
  {
    var r1 := PushStep(BeginPush(r, p, item), p, false);
    var r2 := PushStep(r1, p, false);
    var r3 := PushStep(r2, p, false);
    var r4 := PushStep(r3, p, false);
    EndPush(PushStep(r4, p, false), p)
  }

  /**
   Why the constructor insists on two cells.  With a single cell the marks "published" and
   "free for the next lap" coincide: a second push succeeds with nothing popped, the ring
   holds more values than cells, the first value is gone and the consumer finds nothing.
   */
  lemma OneCellLosesValues(p: ThreadId, first: int, second: int)
    ensures var one := WholePush(RawRing<int>(1), p, first);
            && one.cells[Slot(one.enqueuePos, 1)].sequence == one.enqueuePos
            && var two := WholePush(one, p, second);
            && two.claimed == [first, second]
            && two.popped == []
            && two.cells[0].storage == Some(second)
            && two.enqueuePos - two.Released() > two.Capacity()
            && HeadEmpty(two)
            && !RingInv(two)
  {
    var zero := RawRing<int>(1);
    var one := WholePush(zero, p, first);
    assert one.cells == [Cell(1, Some(first))];
    assert one.pushers == map[];
    var two := WholePush(one, p, second);
    assert two.cells == [Cell(2, Some(second))];
  }

  // --------------------------------------------------- the ring object itself

  /**
   The ring as the object the executor owns: a cell array and two positions updated in place.
   The methods run without interference; `View` ties them to the step machine above.
   */
  class RingBuffer<T(!new)> {
    var cells: array<Cell<T>>
    var enqueuePos: nat
    var dequeuePos: nat
    ghost var claimed: seq<T>
    ghost var owners: seq<ThreadId>

    ghost function View(): Ring<T>
      reads this, cells
    {
      Ring(cells[..], enqueuePos, dequeuePos, map[], PopIdle, claimed, owners,
           if dequeuePos <= |claimed| then claimed[..dequeuePos] else claimed)
    }

    ghost predicate Valid()
      reads this, cells
    {
      RingInv(View())
    }

    /** Values pushed and not yet popped, oldest first. */
    ghost function Contents(): seq<T>
      reads this, cells
      requires Valid()
    {
      claimed[dequeuePos..]
    }

    constructor (capacity: nat)
      ensures Valid() && fresh(cells)
      ensures cells.Length == (if capacity < 2 then 2 else capacity)
      ensures Contents() == []
    {
      var n := if capacity < 2 then 2 else capacity;
      cells := new Cell<T>[n](i requires 0 <= i < n => Cell(i, None));
      enqueuePos, dequeuePos := 0, 0;
      claimed, owners := [], [];
      new;
      NewRingInv<T>(capacity);
      assert View() == NewRing<T>(capacity);
    }

    /** `try_push`, with `weakFailures` spurious failures of the weak exchange. */
    method TryPush(item: T, ghost caller: ThreadId, weakFailures: nat) returns (ok: bool)
      requires Valid()
      modifies this, cells
      ensures Valid() && cells == old(cells)
      ensures ok <==> |old(Contents())| < cells.Length
      ensures !ok ==> View() == old(View())
      ensures ok ==> Contents() == old(Contents()) + [item]
    {
      hide WholePush;
      var pos := enqueuePos;
      var failures := weakFailures;
      ghost var start := View();
      ReadCell(start, pos);
      assert pos < start.Released() + start.Capacity() ==> CellInv(start, pos);
      while true
        invariant View() == start == old(View()) && cells == old(cells) && pos == enqueuePos
        decreases failures
      {
        var i := pos % cells.Length;
        assert i == Slot(pos, start.Capacity());
        var seen := cells[i].sequence;
        if seen == pos {
          if failures > 0 {
            failures := failures - 1;
          } else {
            enqueuePos := pos + 1;
            cells[i] := cells[i].(storage := Some(item));
            cells[i] := cells[i].(sequence := pos + 1);
            claimed := claimed + [item];
            owners := owners + [caller];
            WholePushKeeps(start, caller, item);
            WholePushIs(start, caller, item);
            assert View() == WholePush(start, caller, item);
            return true;
          }
        } else if seen < pos {
          return false;
        } else {
          pos := enqueuePos;
        }
      }
    }

    /** `try_pop` */
    method TryPop(weakFailures: nat) returns (out: Option<T>)
      requires Valid()
      modifies this, cells
      ensures Valid() && cells == old(cells)
      ensures out.None? <==> old(Contents()) == []
      ensures out.None? ==> View() == old(View())
      ensures out.Some? ==> [out.value] + Contents() == old(Contents())
    {
      hide WholePop;
      var failures := weakFailures;
      ghost var start := View();
      HeadCell(start);
      while true
        invariant View() == start == old(View()) && cells == old(cells)
        decreases failures
      {
        var pos := dequeuePos;
        var i := pos % cells.Length;
        assert i == Slot(pos, start.Capacity());
        if cells[i].sequence != pos + 1 {
          return None;
        }
        if failures > 0 {
          failures := failures - 1;
        } else {
          assert CellInv(start, pos);
          dequeuePos := pos + 1;
          out := cells[i].storage;
          cells[i] := cells[i].(storage := None);
          cells[i] := cells[i].(sequence := pos + cells.Length);
          WholePopKeeps(start);
          WholePopIs(start);
          assert View() == WholePop(start);
          return;
        }
      }
    }

    /** `empty` */
    method Empty() returns (empty: bool)
      requires Valid()
      ensures empty <==> Contents() == []
    {
      HeadCell(View());
      var i := dequeuePos % cells.Length;
      assert i == Slot(dequeuePos, View().Capacity());
      empty := cells[i].sequence != dequeuePos + 1;
    }

    /** `destroy_all_`: visits the outstanding range and destroys exactly the live values. */
    method DestroyAll() returns (destroyed: seq<T>)
      requires Valid()
      ensures destroyed == Contents()
    {
      destroyed := [];
      var pos := dequeuePos;
      while pos != enqueuePos
        invariant dequeuePos <= pos <= enqueuePos
        invariant destroyed == claimed[dequeuePos..pos]
        decreases enqueuePos - pos
      {
        var i := pos % cells.Length;
        assert i == Slot(pos, View().Capacity());
        assert CellInv(View(), pos);
        if cells[i].sequence == pos + 1 {
          destroyed := destroyed + [cells[i].storage.value];
        }
        pos := pos + 1;
      }
    }
  }

  lemma WholePushIs<T>(r: Ring<T>, p: ThreadId, item: T)
    requires r.Capacity() > 0 && p !in r.pushers
    requires r.cells[Slot(r.enqueuePos, r.Capacity())].sequence == r.enqueuePos
    ensures WholePush(r, p, item)
         == r.(cells := r.cells[Slot(r.enqueuePos, r.Capacity()) := Cell(r.enqueuePos + 1, Some(item))],
               enqueuePos := r.enqueuePos + 1, claimed := r.claimed + [item], owners := r.owners + [p])
  {
    assert WholePush(r, p, item).pushers == r.pushers;
  }

  lemma WholePushKeeps<T>(r: Ring<T>, p: ThreadId, item: T)
    requires RingInv(r) && p !in r.pushers && r.cells[Slot(r.enqueuePos, r.Capacity())].sequence == r.enqueuePos
    ensures RingInv(WholePush(r, p, item))
    ensures WholePush(r, p, item).pushers == r.pushers
  {
    hide RingInv;
    var r0 := BeginPush(r, p, item);
    BeginPushKeeps(r, p, item);
    PushStepKeeps(r0, p, false);
    var r1 := PushStep(r0, p, false);
    PushStepKeeps(r1, p, false);
    var r2 := PushStep(r1, p, false);
    PushStepKeeps(r2, p, false);
    var r3 := PushStep(r2, p, false);
    PushStepKeeps(r3, p, false);
    var r4 := PushStep(r3, p, false);
    PushStepKeeps(r4, p, false);
    EndPushKeeps(PushStep(r4, p, false), p);
  }

  function WholePop<T>(r: Ring<T>): Ring<T>
    requires r.Capacity() > 0 && !HeadEmpty(r) && r.cells[Slot(r.dequeuePos, r.Capacity())].storage.Some?
  {
    var r1 := PopStep(BeginPop(r), false);
    var r2 := PopStep(r1, false);
    var r3 := PopStep(r2, false);
    var r4 := PopStep(r3, false);
    EndPop(PopStep(r4, false))
  }

  lemma WholePopIs<T>(r: Ring<T>)
    requires r.Capacity() > 0 && !HeadEmpty(r) && r.cells[Slot(r.dequeuePos, r.Capacity())].storage.Some?
    requires r.popper.PopIdle?
    ensures var i := Slot(r.dequeuePos, r.Capacity());
            WholePop(r) == r.(cells := r.cells[i := Cell(r.dequeuePos + r.Capacity(), None)],
                              dequeuePos := r.dequeuePos + 1,
                              popped := r.popped + [r.cells[i].storage.value])
  {
  }

  lemma WholePopKeeps<T>(r: Ring<T>)
    requires RingInv(r) && r.popper.PopIdle? && !HeadEmpty(r)
    ensures r.cells[Slot(r.dequeuePos, r.Capacity())].storage.Some?
    ensures RingInv(WholePop(r))
  {
    HeadCell(r);
    assert CellInv(r, r.dequeuePos);
    var r0 := BeginPop(r);
    MovePopper(r, LoadHead);
    PopStepKeeps(r0, false);
    var r1 := PopStep(r0, false);
    PopStepKeeps(r1, false);
    var r2 := PopStep(r1, false);
    PopStepKeeps(r2, false);
    var r3 := PopStep(r2, false);
    PopStepKeeps(r3, false);
    var r4 := PopStep(r3, false);
    PopStepKeeps(r4, false);
    MovePopper(PopStep(r4, false), PopIdle);
  }
}
