/** Bytes, parse results, and the variable-length integer of section 16 of RFC 9000. */
module Varint {

  type Byte = b: int | 0 <= b < 256 witness 0
  type Bytes = seq<Byte>

  /** One past the largest integer that can be written. */
  const LIMIT := 0x4000_0000_0000_0000

  type VarInt = v: int | 0 <= v < LIMIT witness 0

  datatype WireError =
    | Eof                      // no byte left where one is needed
    | Truncated                // the input ends inside an item
    | LengthMismatch
    | InvalidGroupOrder
    | InvalidForwardFlag
    | InvalidFilterType
    | InvalidFetchType
    | InvalidContentExists
    | InvalidMessageType
    | InvalidStreamType
    | OutOfRange               // a slice bound beyond the data: the program would panic
    | TooLarge                 // a body longer than the 16-bit length can say
    | Unwritable               // a number above 2^62 - 1: the program would panic

  datatype Result<+T> = Success(value: T) | Failure(error: WireError) {
    predicate IsFailure() { Failure? }

    function PropagateFailure<U>(): Result<U>
      requires Failure?
    {
      Failure(error)
    }

    function Extract(): T
      requires Success?
    {
      value
    }
  }

  /** A parsed value and the input that is left. */
  type Parsed<+T> = Result<(T, Bytes)>

  // ----- Big-endian integers -----

  function Unit(n: nat): nat {
    if n == 0 then 1 else 256 * Unit(n - 1)
  }

  function BigEndian(v: nat, n: nat): (s: Bytes)
    ensures |s| == n
  {
    if n == 0 then [] else BigEndian(v / 256, n - 1) + [v % 256]
  }

  /** The number in the first `n` bytes. */
  function Value(s: Bytes, n: nat): nat
    requires n <= |s|
  {
    if n == 0 then 0 else 256 * Value(s, n - 1) + s[n - 1]
  }

  lemma {:induction false} ValueBound(s: Bytes, n: nat)
    requires n <= |s|
    ensures Value(s, n) < Unit(n)
  {
    if n > 0 {
      ValueBound(s, n - 1);
    }
  }

  lemma Snoc(init: Bytes, last: Byte, rest: Bytes)
    ensures (init + [last]) + rest == init + ([last] + rest) && ((init + [last]) + rest)[|init|] == last
  {}

  lemma {:induction false} ValueOfBigEndian(v: nat, n: nat, rest: Bytes)
    requires v < Unit(n)
    ensures Value(BigEndian(v, n) + rest, n) == v
  {
    if n > 0 {
      var init, last := BigEndian(v / 256, n - 1), v % 256;
      Snoc(init, last, rest);
      ValueOfBigEndian(v / 256, n - 1, [last] + rest);
    }
  }

  lemma Scaled(x: nat, u: nat, v: nat, last: Byte)
    requires x * u <= v < (x + 1) * u
    ensures x * (256 * u) <= 256 * v + last < (x + 1) * (256 * u)
  {
    assert x * (256 * u) == 256 * (x * u) && (x + 1) * (256 * u) == 256 * ((x + 1) * u);
  }

  lemma {:induction false} FirstByteRange(s: Bytes, n: nat)
    requires 0 < n <= |s|
    ensures s[0] * Unit(n - 1) <= Value(s, n) < (s[0] + 1) * Unit(n - 1)
  {
    if n > 1 {
      FirstByteRange(s, n - 1);
      Scaled(s[0], Unit(n - 2), Value(s, n - 1), s[n - 1]);
    } else {
      assert Value(s, 1) == 256 * Value(s, 0) + s[0];
    }
  }

  // ----- The encoding -----

  /** Bytes of the shortest encoding. */
  function Len(v: VarInt): nat {
    if v < 0x40 then 1 else if v < 0x4000 then 2 else if v < 0x4000_0000 then 4 else 8
  }

  /** The two most significant bits, which give the length, in place. */
  function Tag(length: nat): nat {
    if length == 1 then 0
    else if length == 2 then 0x4000
    else if length == 4 then 0x8000_0000
    else 0xc000_0000_0000_0000
  }

  function Encode(v: VarInt): (s: Bytes)
    ensures |s| == Len(v)
  {
    BigEndian(v + Tag(Len(v)), Len(v))
  }

  function LengthOf(first: Byte): nat {
    if first < 0x40 then 1 else if first < 0x80 then 2 else if first < 0xc0 then 4 else 8
  }

  lemma UnitValues()
    ensures Unit(0) == 1 && Unit(1) == 0x100 && Unit(3) == 0x100_0000 && Unit(7) == 0x100_0000_0000_0000
    ensures Unit(2) == 0x1_0000 && Unit(4) == 0x1_0000_0000 && Unit(8) == 0x1_0000_0000_0000_0000
  {
    assert Unit(2) == 256 * (256 * Unit(0));
    assert Unit(3) == 256 * Unit(2);
    assert Unit(4) == 256 * Unit(3);
    assert Unit(7) == 256 * (256 * (256 * Unit(4)));
    assert Unit(8) == 256 * Unit(7);
  }

  /** The number in the bytes the first byte asks for, its tag removed. */
  function Untagged(s: Bytes): VarInt
    requires s != [] && LengthOf(s[0]) <= |s|
  {
    UnitValues();
    FirstByteRange(s, LengthOf(s[0]));
    Value(s, LengthOf(s[0])) - Tag(LengthOf(s[0]))
  }

  lemma UntaggedFits(s: Bytes)
    requires s != [] && LengthOf(s[0]) <= |s|
    ensures Len(Untagged(s)) <= LengthOf(s[0])
  {
    UnitValues();
    FirstByteRange(s, LengthOf(s[0]));
  }

  /** Parse also accepts encodings that are longer than needed. */
  function Parse(s: Bytes): (r: Parsed<VarInt>)
    ensures r.Success? ==> |r.value.1| < |s|
    ensures s == [] ==> r == Failure(Eof)
  {
    if s == [] then Failure(Eof)
    else if |s| < LengthOf(s[0]) then Failure(Truncated)
    else Success((Untagged(s), s[LengthOf(s[0])..]))
  }

  /** Whatever integer is accepted, minimal or not, needs no more bytes than were consumed. */
  lemma ParseFits(s: Bytes)
    ensures var r := Parse(s); r.Success? ==> Len(r.value.0) + |r.value.1| <= |s|
  {
    if Parse(s).Success? {
      UntaggedFits(s);
    }
  }

  /** The same from a stream, read byte by byte: where the bytes run out, the stream has ended. */
  function ReadInt(s: Bytes): (r: Parsed<VarInt>)
    ensures r.Success? ==> |r.value.1| < |s|
    ensures s == [] || r.Failure? ==> r == Failure(Eof)
  {
    if Parse(s).Success? then Parse(s) else Failure(Eof)
  }

  lemma EncodedFirstByte(v: VarInt, rest: Bytes)
    ensures var s := Encode(v) + rest;
      s[0] == Encode(v)[0] && LengthOf(s[0]) == Len(v) && Value(s, Len(v)) == v + Tag(Len(v))
  {
    UnitValues();
    ValueOfBigEndian(v + Tag(Len(v)), Len(v), rest);
    FirstByteRange(Encode(v) + rest, Len(v));
  }

  /** Parsing undoes encoding and leaves exactly what follows. */
  lemma EncodeParse(v: VarInt, rest: Bytes)
    ensures Parse(Encode(v) + rest) == Success((v, rest))
  {
    var e, s := Encode(v), Encode(v) + rest;
    EncodedFirstByte(v, rest);
    assert s[|e|..] == rest;
  }

  lemma EncodeReadInt(v: VarInt, rest: Bytes)
    ensures ReadInt(Encode(v) + rest) == Success((v, rest))
  {
    EncodeParse(v, rest);
  }
}
