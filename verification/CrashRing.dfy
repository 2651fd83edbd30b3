/**
 The crash logger's byte ring: every message and its newline are copied, with at most one wrap,
 into a fixed buffer, and a crash dumps what the buffer holds.  Calls are serialized here.
 */
module CrashRing {
  import opened Decimal
  import opened Remainders

  const MAX_BUFFER_SIZE: nat := 65536

  const DEFAULT_LOG_LEVEL := 0

  datatype Entry = Entry(message: string, level: int, rawMode: bool)

  // ------------------------------------------------------------- specification

  function Min(a: nat, b: nat): nat
  {
    if a < b then a else b
  }

  /** The last `n` characters, or all of them. */
  function Tail(s: string, n: nat): (t: string)
    ensures |t| == Min(|s|, n)
  {
    s[|s| - Min(|s|, n)..]
  }

  predicate Passes(e: Entry, logLevel: int)
  {
    e.rawMode || e.level >= logLevel
  }

  /** A call on the logger: a message, or a new minimal level. */
  datatype Call = Write(entry: Entry) | SetLevel(level: int)

  /** The level in force after some calls. */
  function LevelAfter(calls: seq<Call>): int
  {
    if calls == [] then DEFAULT_LOG_LEVEL
    else
      var last := calls[|calls| - 1];
      if last.SetLevel? then last.level else LevelAfter(calls[..|calls| - 1])
  }

  /** Everything that was logged: each message that passes the level in force, whole, and its newline. */
  function Stream(calls: seq<Call>): string
  {
    if calls == [] then ""
    else
      var before, last := calls[..|calls| - 1], calls[|calls| - 1];
      Stream(before) + if last.Write? && Passes(last.entry, LevelAfter(before)) then last.entry.message + "\n" else ""
  }

  /** `window` is what the ring holds just before the position `end`. */
  ghost predicate Holds(buffer: string, capacity: nat, end: nat, window: string)
  {
    && 0 < capacity <= |buffer|
    && |window| <= capacity && |window| <= end
    && forall j | 0 <= j < |window| :: buffer[(end - |window| + j) % capacity] == window[j]
  }

  /** Storing characters one by one at the positions from `end` on. */
  function PutAll(buffer: string, capacity: nat, end: nat, data: string): (r: string)
    requires 0 < capacity <= |buffer|
    ensures |r| == |buffer|
  {
    if data == "" then buffer
    else
      var n := |data| - 1;
      PutAll(buffer, capacity, end, data[..n])[(end + n) % capacity := data[n]]
  }

  // -------------------------------------------------- the window of the stream

  lemma TailOfTail(s: string, t: string, n: nat)
    ensures Tail(s + t, n) == Tail(Tail(s, n) + t, n)
  {
  }

  lemma WholeTail(s: string, n: nat)
    requires |s| <= n
    ensures Tail(s, n) == s
  {
  }

  /** Cutting a message that is too long does not show in the window. */
  lemma CutIsInvisible(s: string, m: string, n: nat)
    requires n > 0
    ensures Tail(s + m + "\n", n) == Tail(s + Tail(m, n - 1) + "\n", n)
  {
  }

  lemma PutOne(buffer: string, capacity: nat, end: nat, window: string, c: char)
    requires Holds(buffer, capacity, end, window)
    requires |window| == Min(end, capacity)
    ensures Holds(buffer[end % capacity := c], capacity, end + 1, Tail(window + [c], capacity))
  {
    var buffer' := buffer[end % capacity := c];
    var window' := Tail(window + [c], capacity);
    forall j | 0 <= j < |window'| ensures buffer'[(end + 1 - |window'| + j) % capacity] == window'[j] {
      var position := end + 1 - |window'| + j;
      if position < end { Advance(position, end - position, capacity); }
    }
  }

  lemma {:induction false} PutAllHolds(buffer: string, capacity: nat, end: nat, window: string, data: string)
    requires 0 < capacity <= |buffer| && Holds(buffer, capacity, end, window)
    requires |window| == Min(end, capacity)
    ensures Holds(PutAll(buffer, capacity, end, data), capacity, end + |data|, Tail(window + data, capacity))
  {
    hide Holds, Tail;
    if data == "" {
      WholeTail(window, capacity);
      assert window + data == window;
    } else {
      var n := |data| - 1;
      PutAllHolds(buffer, capacity, end, window, data[..n]);
      PutOne(PutAll(buffer, capacity, end, data[..n]), capacity, end + n, Tail(window + data[..n], capacity), data[n]);
      TailOfTail(window + data[..n], [data[n]], capacity);
      assert window + data == window + data[..n] + [data[n]];
    }
  }

  /** The ring holds the last `capacity` characters of the stream, although its positions skip what was cut. */
  ghost predicate Remembers(buffer: string, capacity: nat, end: nat, stream: string)
  {
    && Min(end, capacity) == Min(|stream|, capacity)
    && Holds(buffer, capacity, end, Tail(stream, capacity))
  }

  lemma EmptyRemembers(buffer: string, capacity: nat)
    requires 0 < capacity <= |buffer|
    ensures Remembers(buffer, capacity, 0, "")
  {
  }

  /** Storing the cut message is as good as storing the whole one. */
  lemma StoringRemembers(buffer: string, capacity: nat, end: nat, stream: string, message: string)
    requires 0 < capacity <= |buffer| && Remembers(buffer, capacity, end, stream)
    ensures var data := Tail(message, capacity - 1) + "\n";
            Remembers(PutAll(buffer, capacity, end, data), capacity, end + |data|, stream + (message + "\n"))
  {
    hide Holds, PutAll;
    var data := Tail(message, capacity - 1) + "\n";
    PutAllHolds(buffer, capacity, end, Tail(stream, capacity), data);
    TailOfTail(stream, data, capacity);
    CutIsInvisible(stream, message, capacity);
    assert stream + data == stream + Tail(message, capacity - 1) + "\n";
    assert stream + (message + "\n") == stream + message + "\n";
  }

  /** Reading the ring in two pieces gives the window back. */
  lemma ReadsBack(buffer: string, capacity: nat, end: nat, stream: string, start: nat, chunk: nat)
    requires Remembers(buffer, capacity, end, stream)
    requires var available := Min(end, capacity);
             start == (end - available) % capacity && chunk == Min(capacity - start, available)
    ensures buffer[start..start + chunk] + buffer[..Min(end, capacity) - chunk] == Tail(stream, capacity)
  {
    var available, window := Min(end, capacity), Tail(stream, capacity);
    var dump := buffer[start..start + chunk] + buffer[..available - chunk];
    assert |dump| == |window|;
    forall j | 0 <= j < available ensures dump[j] == window[j] {
      Advance(end - available, j, capacity);
      assert buffer[(end - available + j) % capacity] == window[j];
    }
  }

  // --------------------------------------------------------- copies in two parts

  lemma {:induction false} PutAllSplits(buffer: string, capacity: nat, end: nat, first: string, second: string)
    requires 0 < capacity <= |buffer|
    ensures PutAll(buffer, capacity, end, first + second)
         == PutAll(PutAll(buffer, capacity, end, first), capacity, end + |first|, second)
  {
    if second == "" {
      assert first + second == first;
    } else {
      var n := |second| - 1;
      PutAllSplits(buffer, capacity, end, first, second[..n]);
      assert (first + second)[..|first| + n] == first + second[..n];
    }
  }

  /** Where no wrap falls inside, storing one by one is one block copy. */
  lemma {:induction false} PutAllIsBlockCopy(buffer: string, capacity: nat, end: nat, data: string)
    requires 0 < capacity <= |buffer| && end % capacity + |data| <= capacity
    ensures PutAll(buffer, capacity, end, data)
         == buffer[..end % capacity] + data + buffer[end % capacity + |data|..]
  {
    if data != "" {
      var n := |data| - 1;
      PutAllIsBlockCopy(buffer, capacity, end, data[..n]);
      Advance(end, n, capacity);
      assert data == data[..n] + [data[n]];
    }
  }

  lemma NothingPut(buffer: string, capacity: nat, end: nat)
    requires 0 < capacity <= |buffer|
    ensures PutAll(buffer, capacity, end, "") == buffer
  {
  }

  lemma NewlineSlot(start: nat, length: nat, capacity: nat)
    requires length < capacity
    ensures (start % capacity + length) % capacity == (start + length) % capacity
  {
    Advance(start, length, capacity);
    Advance(start % capacity, length, capacity);
    RemainderOf(0, start % capacity, start % capacity, capacity);
  }

  lemma PutNewline(buffer: string, capacity: nat, end: nat, data: string)
    requires 0 < capacity <= |buffer|
    ensures PutAll(buffer, capacity, end, data + "\n")
         == PutAll(buffer, capacity, end, data)[(end + |data|) % capacity := '\n']
  {
    assert (data + "\n")[..|data|] == data;
  }

  /** A block copy into the buffer. */
  method CopyBytes(buffer: array<char>, at: nat, data: string)
    requires at + |data| <= buffer.Length
    modifies buffer
    ensures buffer[..] == old(buffer[..at]) + data + old(buffer[at + |data|..])
  {
    for i := 0 to |data|
      invariant buffer[..] == old(buffer[..at]) + data[..i] + old(buffer[at + i..])
    {
      buffer[at + i] := data[i];
    }
  }

  // ------------------------------------------------------------------ the logger

  class CrashLogger {
    const buffer: array<char>
    const capacity: nat
    const isOpen: bool
    var nextOffset: nat
    var committed: nat
    var logLevel: int
    ghost var stream: string

    ghost predicate Valid()
      reads this, buffer
    {
      && 0 < capacity <= MAX_BUFFER_SIZE == buffer.Length
      && nextOffset == committed
      && Remembers(buffer[..], capacity, committed, stream)
    }

    constructor (bufferSize: nat, isOpen: bool)
      ensures Valid() && fresh(buffer) && stream == "" && logLevel == DEFAULT_LOG_LEVEL && this.isOpen == isOpen
      ensures capacity == if bufferSize == 0 then 1 else Min(bufferSize, MAX_BUFFER_SIZE)
    {
      hide Remembers;
      buffer := new char[MAX_BUFFER_SIZE];
      var size := if bufferSize > MAX_BUFFER_SIZE then MAX_BUFFER_SIZE else bufferSize;
      capacity := if size == 0 then 1 else size;
      this.isOpen := isOpen;
      nextOffset, committed, logLevel, stream := 0, 0, DEFAULT_LOG_LEVEL, "";
      new;
      EmptyRemembers(buffer[..], capacity);
    }

    method Log(e: Entry)
      requires Valid()
      modifies this, buffer
      ensures Valid() && logLevel == old(logLevel)
      ensures stream == old(stream) + if e.rawMode || e.level >= logLevel then e.message + "\n" else ""
    {
      hide Remembers, PutAll;
      if !e.rawMode && e.level < logLevel {
        return;
      }
      var data := e.message;
      if |e.message| >= capacity {
        data := if capacity > 1 then e.message[|e.message| - (capacity - 1)..] else e.message[|e.message|..];
      }
      StoringRemembers(buffer[..], capacity, committed, stream, e.message);
      var start := nextOffset;
      nextOffset := nextOffset + (|data| + 1);
      Store(start, data);
      if committed < start + (|data| + 1) {
        committed := start + (|data| + 1);
      }
      stream := stream + (e.message + "\n");
    }

    /** The copies of `log`: the message, with at most one wrap, and the newline. */
    method Store(start: nat, data: string)
      requires 0 < capacity <= buffer.Length && |data| < capacity
      modifies buffer
      ensures buffer[..] == PutAll(old(buffer[..]), capacity, start, data + "\n")
    {
      hide PutAll;
      var index := start % capacity;
      ghost var before := buffer[..];
      NothingPut(before, capacity, start);
      if |data| > 0 {
        StoreWrapped(start, data);
      }
      NewlineSlot(start, |data|, capacity);
      PutNewline(before, capacity, start, data);
      buffer[(index + |data|) % capacity] := '\n';
    }

    /** The part before the end of the buffer, then the part after the wrap. */
    method StoreWrapped(start: nat, data: string)
      requires 0 < capacity <= buffer.Length && |data| < capacity
      modifies buffer
      ensures buffer[..] == PutAll(old(buffer[..]), capacity, start, data)
    {
      hide PutAll;
      var index := start % capacity;
      var first := if capacity - index > |data| then |data| else capacity - index;
      var head, tail := data[..first], data[first..];
      assert data == head + tail;
      PutAllIsBlockCopy(buffer[..], capacity, start, head);
      CopyBytes(buffer, index, head);
      Advance(start, first, capacity);
      PutAllSplits(old(buffer[..]), capacity, start, head, tail);
      if |tail| > 0 {
        PutAllIsBlockCopy(buffer[..], capacity, start + first, tail);
        CopyBytes(buffer, 0, tail);
      } else {
        NothingPut(buffer[..], capacity, start + first);
      }
    }

    method SetLogLevel(level: int)
      requires Valid()
      modifies this`logLevel
      ensures Valid() && logLevel == level
    {
      logLevel := level;
    }

    /** The bytes a crash writes ahead of its marker: the last `capacity` bytes of everything logged. */
    method Snapshot() returns (dump: string)
      requires Valid()
      ensures dump == if isOpen then Tail(stream, capacity) else ""
    {
      if !isOpen {
        return "";
      }
      dump := "";
      var available := if committed > capacity then capacity else committed;
      var startOffset := committed - available;
      var startIndex := startOffset % capacity;
      if available > 0 {
        var chunk := if capacity - startIndex > available then available else capacity - startIndex;
        dump := buffer[startIndex..startIndex + chunk];
        if available - chunk > 0 {
          dump := dump + buffer[..available - chunk];
        }
        ReadsBack(buffer[..], capacity, committed, stream, startIndex, chunk);
        assert dump == buffer[..][startIndex..startIndex + chunk] + buffer[..][..available - chunk];
      }
    }
  }

  /** Over every serialized sequence of calls, with every buffer size: the last bytes of the stream. */
  method RunThenCrash(bufferSize: nat, calls: seq<Call>) returns (dump: string)
    ensures dump == Tail(Stream(calls), if bufferSize == 0 then 1 else Min(bufferSize, MAX_BUFFER_SIZE))
  {
    var logger := new CrashLogger(bufferSize, true);
    for i := 0 to |calls|
      invariant logger.Valid() && logger.logLevel == LevelAfter(calls[..i])
      invariant fresh(logger) && fresh(logger.buffer)
      invariant logger.stream == Stream(calls[..i])
    {
      assert calls[..i + 1][..i] == calls[..i];
      match calls[i]
      case Write(entry) => logger.Log(entry);
      case SetLevel(level) => logger.SetLogLevel(level);
    }
    assert calls[..|calls|] == calls;
    dump := logger.Snapshot();
  }

  // ------------------------------------------------------------------ the marker

  /** The line that names the signal; it always fits its buffer, and the number reads back. */
  method Marker(signal: int) returns (marker: string)
    requires -0x8000_0000 < signal < 0x8000_0000
    ensures marker == "\n== CRASH SIGNAL " + Text(signal) + " ==\n"
    ensures |marker| <= 64
  {
    hide Digits;
    marker := "\n== CRASH SIGNAL ";
    var value := signal;
    if value < 0 {
      marker := marker + "-";
      value := -value;
    }
    var digits := ReversedDigits(value);
    SignalFits(value);
    marker := AppendReversed(marker, digits);
    assert marker == "\n== CRASH SIGNAL " + Text(signal);
    marker := marker + " ==\n";
  }

  /** The digits are copied behind the prefix last to first, within the marker's 64 bytes. */
  method AppendReversed(head: string, digits: string) returns (marker: string)
    requires |head| + |digits| <= 64
    ensures marker == head + Reversed(digits)
  {
    marker := head;
    var count := |digits|;
    while count > 0 && |marker| < 64
      invariant 0 <= count <= |digits| && marker == head + Reversed(digits)[..|digits| - count]
    {
      count := count - 1;
      marker := marker + [digits[count]];
    }
  }

  function Reversed(s: string): (r: string)
    ensures |r| == |s| && forall i | 0 <= i < |s| :: r[i] == s[|s| - 1 - i]
  {
    if s == "" then "" else [s[|s| - 1]] + Reversed(s[..|s| - 1])
  }

  lemma SignalFits(value: nat)
    requires value < 0x8000_0000
    ensures |Digits(value)| <= 10
  {
    DigitsFit(value, 10, 10_000_000_000);
  }

  /** The digits, least significant first, as repeated division yields them. */
  method ReversedDigits(value: nat) returns (digits: string)
    requires value < 0x8000_0000
    ensures Reversed(digits) == Digits(value)
  {
    if value == 0 {
      return "0";
    }
    digits := "";
    var rest: nat := value;
    SignalFits(value);
    while rest > 0 && |digits| < 32
      invariant (if rest > 0 then Digits(rest) else "") + Reversed(digits) == Digits(value)
    {
      var digit := DigitOf(rest % 10);
      assert (digits + [digit])[..|digits|] == digits;
      digits := digits + [digit];
      rest := rest / 10;
    }
  }
}
