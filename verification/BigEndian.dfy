/** Fixed-width big-endian numbers over bytes. */
module BigEndian {
  type Byte = x: int | 0 <= x < 256

  const TWO_8: int := 0x100
  const TWO_32: int := 0x1_0000_0000
  const TWO_63: int := 0x8000_0000_0000_0000
  const TWO_64: int := 0x1_0000_0000_0000_0000

  type Int64 = x: int | -TWO_63 <= x < TWO_63
  type UInt32 = x: int | 0 <= x < TWO_32
  type UInt64 = x: int | 0 <= x < TWO_64

  /** The two's complement bits of a signed number. */
  function Bits(value: Int64): (bits: UInt64)
    ensures (bits - value) % TWO_64 == 0
  {
    if value < 0 then value + TWO_64 else value
  }

  /** The number of values that fit a width. */
  function Span(width: nat): (n: nat)
    ensures n > 0
  {
    if width == 0 then 1 else TWO_8 * Span(width - 1)
  }

  lemma Spans()
    ensures Span(1) == TWO_8 && Span(4) == TWO_32 && Span(8) == TWO_64
  {
    assert Span(2) == 0x1_0000 && Span(3) == 0x100_0000;
    assert Span(5) == 0x100_0000_0000 && Span(6) == 0x1_0000_0000_0000 && Span(7) == 0x100_0000_0000_0000;
  }

  /** The low `width` bytes of a number, most significant first. */
  function Bytes(value: nat, width: nat): (bytes: seq<Byte>)
    ensures |bytes| == width
  {
    if width == 0 then [] else Bytes(value / TWO_8, width - 1) + [value % TWO_8]
  }

  function Value(bytes: seq<Byte>): nat
  {
    if bytes == [] then 0 else TWO_8 * Value(bytes[..|bytes| - 1]) + bytes[|bytes| - 1]
  }

  lemma {:induction false} ValueFits(bytes: seq<Byte>)
    ensures Value(bytes) < Span(|bytes|)
  {
    if bytes != [] { ValueFits(bytes[..|bytes| - 1]); }
  }

  lemma {:induction false} ValueOfBytes(value: nat, width: nat)
    requires value < Span(width)
    ensures Value(Bytes(value, width)) == value
  {
    if width > 0 {
      ValueOfBytes(value / TWO_8, width - 1);
      assert Bytes(value, width)[..width - 1] == Bytes(value / TWO_8, width - 1);
    }
  }

  lemma {:induction false} BytesOfValue(bytes: seq<Byte>)
    ensures Bytes(Value(bytes), |bytes|) == bytes
  {
    if bytes != [] { BytesOfValue(bytes[..|bytes| - 1]); }
  }

  /** Unsigned lexicographic order. */
  predicate Before(a: seq<Byte>, b: seq<Byte>)
  {
    b != [] && (a == [] || a[0] < b[0] || (a[0] == b[0] && Before(a[1..], b[1..])))
  }

  lemma {:induction false} BeforeOfAppend(a: seq<Byte>, b: seq<Byte>, x: Byte, y: Byte)
    requires |a| == |b|
    ensures Before(a + [x], b + [y]) <==> Before(a, b) || (a == b && x < y)
  {
    if a != [] {
      assert (a + [x])[1..] == a[1..] + [x] && (b + [y])[1..] == b[1..] + [y];
      BeforeOfAppend(a[1..], b[1..], x, y);
    }
  }

  lemma {:induction false} SameValue(a: seq<Byte>, b: seq<Byte>)
    requires |a| == |b| && Value(a) == Value(b)
    ensures a == b
  {
    BytesOfValue(a);
    BytesOfValue(b);
  }

  /** Between byte strings of one width, lexicographic order is numeric order. */
  lemma {:induction false} BeforeIsLess(a: seq<Byte>, b: seq<Byte>)
    requires |a| == |b|
    ensures Before(a, b) <==> Value(a) < Value(b)
  {
    if a != [] {
      var n := |a| - 1;
      assert a == a[..n] + [a[n]] && b == b[..n] + [b[n]];
      BeforeOfAppend(a[..n], b[..n], a[n], b[n]);
      BeforeIsLess(a[..n], b[..n]);
      if Value(a[..n]) == Value(b[..n]) { SameValue(a[..n], b[..n]); }
    }
  }

  /** Lexicographic order of two-part strings whose first parts have one width. */
  lemma {:induction false} BeforeInParts(a: seq<Byte>, b: seq<Byte>, a': seq<Byte>, b': seq<Byte>)
    requires |a| == |b|
    ensures Before(a + a', b + b') <==> Before(a, b) || (a == b && Before(a', b'))
  {
    if a == [] {
      assert a + a' == a' && b + b' == b';
    } else {
      assert (a + a')[1..] == a[1..] + a' && (b + b')[1..] == b[1..] + b';
      BeforeInParts(a[1..], b[1..], a', b');
    }
  }

  // ------------------------------------------------------------------- shifting

  /** The machine's logical right shift. */
  function ShiftRight(value: nat, bits: nat): nat
  {
    if bits == 0 then value else ShiftRight(value, bits - 1) / 2
  }

  lemma ShiftByByte(value: nat, bits: nat)
    ensures ShiftRight(value, bits + 8) == ShiftRight(value, bits) / TWO_8
  {
    var v := ShiftRight(value, bits);
    assert ShiftRight(value, bits + 2) == v / 4;
    assert ShiftRight(value, bits + 4) == v / 16;
    assert ShiftRight(value, bits + 6) == v / 64;
  }

  /** One more byte of the shift loop. */
  lemma NextByte(value: nat, bits: nat, width: nat)
    ensures Bytes(ShiftRight(value, bits), width + 1)
         == Bytes(ShiftRight(value, bits + 8), width) + [ShiftRight(value, bits) % TWO_8]
  {
    ShiftByByte(value, bits);
  }
}
