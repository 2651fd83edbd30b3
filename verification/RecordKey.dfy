/**
 The 12-byte keys under which records are stored: the timestamp with its sign bit flipped, then
 the sequence number, both big-endian, so that the store's byte order is the records' order.
 */
module RecordKey {
  import opened BigEndian

  const KEY_SIZE: nat := 12

  /** Exclusive or with the top bit, as a number. */
  function FlipTop(bits: UInt64): UInt64
  {
    if bits >= TWO_63 then bits - TWO_63 else bits + TWO_63
  }

  /** The number that a machine word denotes. */
  function Number(x: bv64): UInt64
  {
    x as int
  }

  function XorTop(x: bv64): bv64
  {
    x ^ 0x8000_0000_0000_0000
  }

  lemma WordPlusTop(x: bv64)
    requires x < 0x8000_0000_0000_0000
    ensures (x + 0x8000_0000_0000_0000) as int == x as int + 0x8000_0000_0000_0000
  {
  }

  lemma WordMinusTop(x: bv64)
    requires x >= 0x8000_0000_0000_0000
    ensures (x - 0x8000_0000_0000_0000) as int == x as int - 0x8000_0000_0000_0000
  {
  }

  lemma XorTopOfLow(x: bv64)
    requires x < 0x8000_0000_0000_0000
    ensures Number(XorTop(x)) == Number(x) + TWO_63 && Number(x) < TWO_63
  {
    assert x ^ 0x8000_0000_0000_0000 == x + 0x8000_0000_0000_0000;
    WordPlusTop(x);
  }

  lemma XorTopOfHigh(x: bv64)
    requires x >= 0x8000_0000_0000_0000
    ensures Number(XorTop(x)) == Number(x) - TWO_63 && Number(x) >= TWO_63
  {
    assert x ^ 0x8000_0000_0000_0000 == x - 0x8000_0000_0000_0000;
    WordMinusTop(x);
  }

  /** The machine's exclusive or with the top bit is `FlipTop` of the number that the word denotes. */
  lemma FlipTopIsXor(x: bv64)
    ensures Number(XorTop(x)) == FlipTop(Number(x))
  {
    hide Number, XorTop;
    if x < 0x8000_0000_0000_0000 { XorTopOfLow(x); } else { XorTopOfHigh(x); }
  }

  /** The key as a value. */
  function Key(timestamp: Int64, sequence: UInt32): (key: seq<Byte>)
    ensures |key| == KEY_SIZE
  {
    Bytes(FlipTop(Bits(timestamp)), 8) + Bytes(sequence, 4)
  }

  /** The loop shared by both writers: one byte a turn, the highest first. */
  method WriteBigEndian(key: array<Byte>, value: nat, offset: nat, width: nat)
    requires width > 0 && offset + width <= key.Length
    modifies key
    ensures key[..] == old(key[..offset]) + Bytes(value, width) + old(key[offset + width..])
  {
    var shift := 8 * (width - 1);
    var at := offset;
    while shift >= 0
      invariant -8 <= shift && shift % 8 == 0 && at == offset + width - (shift + 8) / 8 && offset <= at
      invariant key[..] == old(key[..offset]) + Bytes(ShiftRight(value, shift + 8), at - offset) + old(key[at..])
      decreases shift
    {
      NextByte(value, shift, at - offset);
      key[at] := ShiftRight(value, shift) % TWO_8;
      at := at + 1;
      shift := shift - 8;
    }
  }

  method MakeRecordKey(timestamp: Int64, sequence: UInt32) returns (key: seq<Byte>)
    ensures key == Key(timestamp, sequence)
  {
    var buffer := new Byte[KEY_SIZE](_ => 0);
    WriteBigEndian(buffer, FlipTop(Bits(timestamp)), 0, 8);
    WriteBigEndian(buffer, sequence, 8, 4);
    key := buffer[..];
  }

  /** Flipping the sign bit is adding 2^63: signed order becomes unsigned order. */
  lemma FlipIsShift(value: Int64)
    ensures FlipTop(Bits(value)) == value + TWO_63
  {
  }

  predicate Earlier(t1: Int64, s1: UInt32, t2: Int64, s2: UInt32)
  {
    t1 < t2 || (t1 == t2 && s1 < s2)
  }

  lemma PartValues(timestamp: Int64, sequence: UInt32)
    ensures Value(Bytes(FlipTop(Bits(timestamp)), 8)) == timestamp + TWO_63
    ensures Value(Bytes(sequence, 4)) == sequence
  {
    Spans();
    FlipIsShift(timestamp);
    ValueOfBytes(FlipTop(Bits(timestamp)), 8);
    ValueOfBytes(sequence, 4);
  }

  /** The encoding is an order embedding, hence injective. */
  lemma KeysAreOrdered(t1: Int64, s1: UInt32, t2: Int64, s2: UInt32)
    ensures Before(Key(t1, s1), Key(t2, s2)) <==> Earlier(t1, s1, t2, s2)
    ensures Key(t1, s1) == Key(t2, s2) <==> t1 == t2 && s1 == s2
  {
    hide Bytes, Value, Before, Bits, FlipTop;
    var a, b := Bytes(FlipTop(Bits(t1)), 8), Bytes(FlipTop(Bits(t2)), 8);
    var a', b' := Bytes(s1, 4), Bytes(s2, 4);
    PartValues(t1, s1);
    PartValues(t2, s2);
    BeforeInParts(a, b, a', b');
    BeforeIsLess(a, b);
    BeforeIsLess(a', b');
    if t1 == t2 { SameValue(a, b); }
    if Key(t1, s1) == Key(t2, s2) { assert a == Key(t1, s1)[..8] && a' == Key(t1, s1)[8..]; }
  }

  /** A scan of the keys from key(from, 0) up to key(to, 0) finds exactly the records of that interval. */
  lemma RangeIsInterval(from: Int64, to: Int64, timestamp: Int64, sequence: UInt32)
    ensures !Before(Key(timestamp, sequence), Key(from, 0)) && Before(Key(timestamp, sequence), Key(to, 0))
       <==> from <= timestamp < to
  {
    hide Key, Before;
    KeysAreOrdered(timestamp, sequence, from, 0);
    KeysAreOrdered(timestamp, sequence, to, 0);
  }
}
