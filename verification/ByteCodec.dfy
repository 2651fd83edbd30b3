/**
 The record codec: a writer that appends fields to a byte vector and a reader that consumes them.
 Machine shifts and ors are written as arithmetic, which is exact because no bits overlap or fall off.
 */
module ByteCodec {
  import opened BigEndian
  import opened Options

  // -------------------------------------------------------------- specification

  datatype Kind = KindU8 | KindU32 | KindU64 | KindI64 | KindString

  datatype Field =
    | U8(byte: Byte)
    | U32(word: UInt32)
    | U64(long: UInt64)
    | I64(signed: Int64)
    | Str(text: seq<Byte>)
  {
    function Kind(): Kind
    {
      match this
      case U8(_) => KindU8
      case U32(_) => KindU32
      case U64(_) => KindU64
      case I64(_) => KindI64
      case Str(_) => KindString
    }

    /** The writer refuses strings whose length does not fit 32 bits. */
    predicate Writable()
    {
      Str? ==> |text| < TWO_32
    }
  }

  function Encode(f: Field): seq<Byte>
    requires f.Writable()
  {
    match f
    case U8(v) => [v]
    case U32(v) => Bytes(v, 4)
    case U64(v) => Bytes(v, 8)
    case I64(v) => Bytes(Bits(v), 8)
    case Str(t) => Bytes(|t|, 4) + t
  }

  predicate AllWritable(fields: seq<Field>)
  {
    forall i | 0 <= i < |fields| :: fields[i].Writable()
  }

  function EncodeAll(fields: seq<Field>): seq<Byte>
    requires AllWritable(fields)
  {
    if fields == [] then [] else Encode(fields[0]) + EncodeAll(fields[1..])
  }

  function Schema(fields: seq<Field>): (kinds: seq<Kind>)
    ensures |kinds| == |fields|
  {
    if fields == [] then [] else [fields[0].Kind()] + Schema(fields[1..])
  }

  function Unsign(bits: UInt64): Int64
  {
    if bits >= TWO_63 then bits - TWO_64 else bits
  }

  function Width(kind: Kind): nat
  {
    match kind
    case KindU8 => 1
    case KindU32 => 4
    case KindU64 => 8
    case KindI64 => 8
    case KindString => 4
  }

  /** The unsigned number in the first `width` bytes. */
  function Head(bytes: seq<Byte>, width: nat): (n: nat)
    requires width in {1, 4, 8} && width <= |bytes|
    ensures n < Span(width) && (width == 1 ==> n < TWO_8) && (width == 4 ==> n < TWO_32) && (width == 8 ==> n < TWO_64)
  {
    Spans();
    ValueFits(bytes[..width]);
    Value(bytes[..width])
  }

  /** Reads one field off the head of a byte string: the field, and the rest. */
  function Parse(kind: Kind, bytes: seq<Byte>): Option<(Field, seq<Byte>)>
  {
    var width := Width(kind);
    if |bytes| < width then None
    else
      var n, rest := Head(bytes, width), bytes[width..];
      match kind
      case KindU8 => Some((U8(n), rest))
      case KindU32 => Some((U32(n), rest))
      case KindU64 => Some((U64(n), rest))
      case KindI64 => Some((I64(Unsign(n)), rest))
      case KindString => if |rest| < n then None else Some((Str(rest[..n]), rest[n..]))
  }

  function ParseAll(schema: seq<Kind>, bytes: seq<Byte>): Option<(seq<Field>, seq<Byte>)>
  {
    if schema == [] then Some(([], bytes))
    else
      match Parse(schema[0], bytes)
      case None => None
      case Some((field, rest)) =>
        match ParseAll(schema[1..], rest)
        case None => None
        case Some((fields, rest')) => Some(([field] + fields, rest'))
  }

  /** Reading a whole value: every field of the schema, and then `finish`. */
  function Decode(schema: seq<Kind>, bytes: seq<Byte>): Option<seq<Field>>
  {
    match ParseAll(schema, bytes)
    case None => None
    case Some((fields, rest)) => if rest == [] then Some(fields) else None
  }

  // ------------------------------------------------------------------ one field

  /** The bytes a field takes and the number they denote, the highest byte first. */
  lemma Layout(f: Field)
    requires f.Writable()
    ensures f.U8? ==> Encode(f) == [f.byte]
    ensures f.U32? ==> |Encode(f)| == 4 && Value(Encode(f)) == f.word
    ensures f.U64? ==> |Encode(f)| == 8 && Value(Encode(f)) == f.long
    ensures f.I64? ==> |Encode(f)| == 8 && (Value(Encode(f)) - f.signed) % TWO_64 == 0
    ensures f.Str? ==> |Encode(f)| == 4 + |f.text| && Value(Encode(f)[..4]) == |f.text| && Encode(f)[4..] == f.text
  {
    Spans();
    match f
    case U8(_) =>
    case U32(v) => ValueOfBytes(v, 4);
    case U64(v) => ValueOfBytes(v, 8);
    case I64(v) => ValueOfBytes(Bits(v), 8);
    case Str(t) =>
      ValueOfBytes(|t|, 4);
      assert Encode(f)[..4] == Bytes(|t|, 4);
  }

  lemma HeadOfBytes(value: nat, width: nat, rest: seq<Byte>)
    requires width in {1, 4, 8} && value < Span(width)
    ensures Head(Bytes(value, width) + rest, width) == value
    ensures (Bytes(value, width) + rest)[width..] == rest
  {
    assert (Bytes(value, width) + rest)[..width] == Bytes(value, width);
    ValueOfBytes(value, width);
  }

  lemma BytesOfHead(bytes: seq<Byte>, width: nat)
    requires width in {1, 4, 8} && width <= |bytes|
    ensures Bytes(Head(bytes, width), width) + bytes[width..] == bytes
  {
    BytesOfValue(bytes[..width]);
  }

  lemma OneByte(v: Byte)
    ensures Bytes(v, 1) == [v]
  {
  }

  lemma ParseEncoded(f: Field, rest: seq<Byte>)
    requires f.Writable()
    ensures Parse(f.Kind(), Encode(f) + rest) == Some((f, rest))
  {
    hide Bytes, Head, Span;
    Spans();
    match f
    case U8(v) =>
      OneByte(v);
      HeadOfBytes(v, 1, rest);
    case U32(v) => HeadOfBytes(v, 4, rest);
    case U64(v) => HeadOfBytes(v, 8, rest);
    case I64(v) => HeadOfBytes(Bits(v), 8, rest);
    case Str(t) =>
      HeadOfBytes(|t|, 4, t + rest);
      assert Encode(f) + rest == Bytes(|t|, 4) + (t + rest);
      assert (t + rest)[..|t|] == t && (t + rest)[|t|..] == rest;
  }

  lemma EncodeParsed(kind: Kind, bytes: seq<Byte>)
    requires Parse(kind, bytes).Some?
    ensures var (f, rest) := Parse(kind, bytes).value; f.Kind() == kind && f.Writable() && Encode(f) + rest == bytes
  {
    hide Bytes, Head, Span;
    Spans();
    var width := Width(kind);
    BytesOfHead(bytes, width);
    if kind.KindU8? { OneByte(Head(bytes, 1)); }
    if kind.KindString? {
      var n, rest := Head(bytes, 4), bytes[4..];
      assert Bytes(n, 4) + rest[..n] + rest[n..] == bytes;
    }
  }

  // ------------------------------------------------------------------ the record

  lemma {:induction false} ParseAllEncoded(fields: seq<Field>, rest: seq<Byte>)
    requires AllWritable(fields)
    ensures ParseAll(Schema(fields), EncodeAll(fields) + rest) == Some((fields, rest))
  {
    hide Parse, Encode;
    if fields == [] {
      assert EncodeAll(fields) + rest == rest;
    } else {
      ParseEncoded(fields[0], EncodeAll(fields[1..]) + rest);
      ParseAllEncoded(fields[1..], rest);
      assert EncodeAll(fields) + rest == Encode(fields[0]) + (EncodeAll(fields[1..]) + rest);
      assert Schema(fields)[1..] == Schema(fields[1..]);
      assert [fields[0]] + fields[1..] == fields;
    }
  }

  lemma {:induction false} EncodeAllParsed(schema: seq<Kind>, bytes: seq<Byte>)
    requires ParseAll(schema, bytes).Some?
    ensures var (fields, rest) := ParseAll(schema, bytes).value;
            Schema(fields) == schema && AllWritable(fields) && EncodeAll(fields) + rest == bytes
  {
    hide Parse, Encode;
    if schema != [] {
      EncodeParsed(schema[0], bytes);
      var (field, tail) := Parse(schema[0], bytes).value;
      EncodeAllParsed(schema[1..], tail);
      var (fields, rest) := ParseAll(schema[1..], tail).value;
      assert ([field] + fields)[1..] == fields;
      assert EncodeAll([field] + fields) + rest == Encode(field) + (EncodeAll(fields) + rest);
    }
  }

  /** Reading what was written returns the fields, and nothing is left over. */
  lemma RoundTrip(fields: seq<Field>)
    requires AllWritable(fields)
    ensures Decode(Schema(fields), EncodeAll(fields)) == Some(fields)
  {
    ParseAllEncoded(fields, []);
    assert EncodeAll(fields) + [] == EncodeAll(fields);
  }

  /** Whatever is accepted is exactly what writing its fields produces. */
  lemma AcceptedReencodes(schema: seq<Kind>, bytes: seq<Byte>)
    requires Decode(schema, bytes).Some?
    ensures var fields := Decode(schema, bytes).value;
            Schema(fields) == schema && AllWritable(fields) && EncodeAll(fields) == bytes
  {
    EncodeAllParsed(schema, bytes);
  }

  /** Cutting anything off the end of a value makes it unreadable. */
  lemma PrefixRejected(fields: seq<Field>, bytes: seq<Byte>)
    requires AllWritable(fields) && bytes < EncodeAll(fields)
    ensures Decode(Schema(fields), bytes).None?
  {
    hide ParseAll, EncodeAll, Schema;
    if Decode(Schema(fields), bytes).Some? {
      AcceptedReencodes(Schema(fields), bytes);
      var other := Decode(Schema(fields), bytes).value;
      var rest := EncodeAll(fields)[|bytes|..];
      assert EncodeAll(other) + rest == EncodeAll(fields) + [];
      ParseAllEncoded(other, rest);
      ParseAllEncoded(fields, []);
    }
  }

  /** So does adding anything to it. */
  lemma TrailingRejected(fields: seq<Field>, extra: seq<Byte>)
    requires AllWritable(fields) && extra != []
    ensures Decode(Schema(fields), EncodeAll(fields) + extra).None?
  {
    ParseAllEncoded(fields, extra);
  }

  // ------------------------------------------------------------------ the writer

  datatype Written = Done | TooLong

  class ByteWriter {
    var out: seq<Byte>

    constructor ()
      ensures out == []
    {
      out := [];
    }

    method WriteU8(value: Byte)
      modifies this
      ensures out == old(out) + Encode(U8(value))
    {
      out := out + [value];
    }

    /** The shift loop of the fixed-width writers, from the top byte down. */
    method WriteShifted(value: nat, width: nat)
      requires width > 0
      modifies this
      ensures out == old(out) + Bytes(value, width)
    {
      var shift := 8 * (width - 1);
      ghost var done := 0;
      while shift >= 0
        invariant -8 <= shift && shift == 8 * (width - 1 - done)
        invariant out == old(out) + Bytes(ShiftRight(value, shift + 8), done)
        decreases shift
      {
        NextByte(value, shift, done);
        out := out + [ShiftRight(value, shift) % TWO_8];
        shift := shift - 8;
        done := done + 1;
      }
    }

    method WriteU32(value: UInt32)
      modifies this
      ensures out == old(out) + Encode(U32(value))
    {
      WriteShifted(value, 4);
    }

    method WriteU64(value: UInt64)
      modifies this
      ensures out == old(out) + Encode(U64(value))
    {
      WriteShifted(value, 8);
    }

    method WriteI64(value: Int64)
      modifies this
      ensures out == old(out) + Encode(I64(value))
    {
      WriteU64(Bits(value));
    }

    /** A string that is too long leaves the output untouched. */
    method WriteString(value: seq<Byte>) returns (r: Written)
      modifies this
      ensures r.Done? <==> Str(value).Writable()
      ensures out == old(out) + if r.Done? then Encode(Str(value)) else []
    {
      if |value| > TWO_32 - 1 {
        return TooLong;
      }
      WriteU32(|value|);
      out := out + value;
      return Done;
    }

    method Write(f: Field) returns (r: Written)
      modifies this
      ensures r.Done? <==> f.Writable()
      ensures out == old(out) + if r.Done? then Encode(f) else []
    {
      r := Done;
      match f
      case U8(v) => WriteU8(v);
      case U32(v) => WriteU32(v);
      case U64(v) => WriteU64(v);
      case I64(v) => WriteI64(v);
      case Str(t) => r := WriteString(t);
    }
  }

  // ------------------------------------------------------------------ the reader

  datatype Failure = NullValue | Corrupted | TrailingBytes

  datatype Result<+T> = Ok(value: T) | Err(error: Failure)

  class ByteReader {
    const bytes: seq<Byte>
    var cur: nat

    ghost predicate Valid()
      reads this
    {
      cur <= |bytes|
    }

    ghost function Rest(): seq<Byte>
      requires Valid()
      reads this
    {
      bytes[cur..]
    }

    constructor (bytes: seq<Byte>)
      ensures Valid() && Rest() == bytes
    {
      this.bytes := bytes;
      cur := 0;
    }

    /** The accumulation loop of the fixed-width readers. */
    method ReadShifted(width: nat) returns (r: Result<nat>)
      requires Valid() && width in {1, 4, 8}
      modifies this
      ensures Valid()
      ensures if |old(Rest())| < width then r == Err(Corrupted) && cur == old(cur)
              else r == Ok(Head(old(Rest()), width)) && Rest() == old(Rest())[width..]
    {
      if |bytes| - cur < width {
        return Err(Corrupted);
      }
      var value := 0;
      ghost var start := cur;
      for i := 0 to width
        invariant cur == start + i && cur <= |bytes| && value == Value(bytes[start..start + i])
      {
        assert bytes[start..start + i + 1][..i] == bytes[start..start + i];
        value := value * TWO_8 + bytes[cur];
        cur := cur + 1;
      }
      assert bytes[start..][..width] == bytes[start..start + width];
      return Ok(value);
    }

    method ReadString() returns (r: Result<seq<Byte>>)
      requires Valid()
      modifies this
      ensures Valid()
      ensures match Parse(KindString, old(Rest()))
              case None => r == Err(Corrupted)
              case Some((f, rest)) => r == Ok(f.text) && Rest() == rest
    {
      var size := ReadShifted(4);
      if size.Err? {
        return Err(Corrupted);
      }
      if |bytes| - cur < size.value {
        return Err(Corrupted);
      }
      assert bytes[cur..][..size.value] == bytes[cur..cur + size.value];
      r := Ok(bytes[cur..cur + size.value]);
      cur := cur + size.value;
    }

    method Read(kind: Kind) returns (r: Result<Field>)
      requires Valid()
      modifies this
      ensures Valid()
      ensures match Parse(kind, old(Rest()))
              case None => r == Err(Corrupted)
              case Some((f, rest)) => r == Ok(f) && Rest() == rest
    {
      if kind == KindString {
        var text := ReadString();
        return match text case Ok(t) => Ok(Str(t)) case Err(e) => Err(e);
      }
      var n := ReadShifted(Width(kind));
      if n.Err? {
        return Err(Corrupted);
      }
      match kind
      case KindU8 => return Ok(U8(n.value));
      case KindU32 => return Ok(U32(n.value));
      case KindU64 => return Ok(U64(n.value));
      case KindI64 => return Ok(I64(Unsign(n.value)));
    }

    method Finish() returns (r: Result<()>)
      requires Valid()
      ensures r == if Rest() == [] then Ok(()) else Err(TrailingBytes)
    {
      r := if cur != |bytes| then Err(TrailingBytes) else Ok(());
    }
  }

  /** Writing a list of fields, up to the first that is refused. */
  method WriteAll(fields: seq<Field>) returns (r: Option<seq<Byte>>)
    ensures r == if AllWritable(fields) then Some(EncodeAll(fields)) else None
  {
    var writer := new ByteWriter();
    for i := 0 to |fields|
      invariant AllWritable(fields[..i]) && writer.out == EncodeAll(fields[..i])
    {
      var w := writer.Write(fields[i]);
      if w.TooLong? {
        return None;
      }
      EncodeAllAppend(fields[..i], fields[i]);
      assert fields[..i + 1] == fields[..i] + [fields[i]];
    }
    assert fields[..|fields|] == fields;
    return Some(writer.out);
  }

  lemma {:induction false} EncodeAllAppend(fields: seq<Field>, f: Field)
    requires AllWritable(fields) && f.Writable()
    ensures AllWritable(fields + [f]) && EncodeAll(fields + [f]) == EncodeAll(fields) + Encode(f)
  {
    hide Encode;
    if fields == [] {
      assert [f][1..] == [] && fields + [f] == [f];
    } else {
      EncodeAllAppend(fields[1..], f);
      assert (fields + [f])[1..] == fields[1..] + [f];
    }
  }

  /** Reading a value by its schema: what is returned on each of the ways it can end. */
  method ReadAll(schema: seq<Kind>, data: Option<seq<Byte>>, size: nat) returns (r: Result<seq<Field>>)
    requires data.Some? ==> |data.value| == size
    ensures r.Ok? <==> (data.Some? || size == 0) && Decode(schema, if data.Some? then data.value else []).Some?
    ensures r.Ok? ==> Some(r.value) == Decode(schema, if data.Some? then data.value else [])
    ensures r == Err(NullValue) <==> data.None? && size != 0
  {
    if data.None? && size != 0 {
      return Err(NullValue);
    }
    var bytes := if data.Some? then data.value else [];
    var reader := new ByteReader(bytes);
    var fields: seq<Field> := [];
    PrependNothing(ParseAll(schema, bytes));
    assert schema[0..] == schema;
    for i := 0 to |schema|
      invariant fresh(reader) && reader.Valid()
      invariant ParseAll(schema, bytes) == Prepend(fields, ParseAll(schema[i..], reader.Rest()))
    {
      PrependNext(fields, schema[i..], reader.Rest());
      assert schema[i..][1..] == schema[i + 1..];
      var f := reader.Read(schema[i]);
      if f.Err? {
        return Err(Corrupted);
      }
      fields := fields + [f.value];
    }
    assert fields + [] == fields;
    var end := reader.Finish();
    return match end case Ok(_) => Ok(fields) case Err(e) => Err(e);
  }

  ghost function Prepend(fields: seq<Field>, r: Option<(seq<Field>, seq<Byte>)>): Option<(seq<Field>, seq<Byte>)>
  {
    match r
    case None => None
    case Some((more, rest)) => Some((fields + more, rest))
  }

  lemma PrependNothing(r: Option<(seq<Field>, seq<Byte>)>)
    ensures Prepend([], r) == r
  {
    if r.Some? { assert [] + r.value.0 == r.value.0; }
  }

  lemma PrependNext(fields: seq<Field>, schema: seq<Kind>, bytes: seq<Byte>)
    requires schema != []
    ensures Prepend(fields, ParseAll(schema, bytes))
         == match Parse(schema[0], bytes)
            case None => None
            case Some((f, rest)) => Prepend(fields + [f], ParseAll(schema[1..], rest))
  {
    hide Parse;
    if Parse(schema[0], bytes).Some? {
      var (f, rest) := Parse(schema[0], bytes).value;
      var more := ParseAll(schema[1..], rest);
      if more.Some? { assert fields + ([f] + more.value.0) == fields + [f] + more.value.0; }
    }
  }
}
