/** The pieces control messages are made of: byte strings, namespaces, key/value lists, versions and
    locations.  Each has an encoding and a parser; the loops of the source are methods proved to compute
    them. */
module Fields {
  import opened Varint

  /** A byte string whose length can be written. */
  type Blob = s: Bytes | |s| < LIMIT witness []

  lemma ConsTail<T>(x: T, xs: seq<T>)
    ensures ([x] + xs)[0] == x && ([x] + xs)[1..] == xs
  {}

  lemma HeadTail<T>(xs: seq<T>)
    requires xs != []
    ensures [xs[0]] + xs[1..] == xs
  {}

  lemma Assoc(a: Bytes, b: Bytes, c: Bytes)
    ensures (a + b) + c == a + (b + c)
  {}

  lemma TwoBytes(a: Byte, b: Byte, c: Bytes, rest: Bytes)
    ensures var s := ([a, b] + c) + rest; |s| >= 2 && s[0] == a && s[1] == b && s[2..] == c + rest
  {}

  lemma ThreeBytes(a: Byte, b: Byte, c: Byte, d: Bytes, rest: Bytes)
    ensures var s := ([a, b, c] + d) + rest; |s| >= 3 && s[0] == a && s[1] == b && s[2] == c && s[3..] == d + rest
  {}

  // ----- Length-prefixed byte strings -----

  function EncodeBlob(b: Blob): Bytes {
    Encode(|b|) + b
  }

  /** The callers differ only in the error for a length beyond the data. */
  function ParseBlob(s: Bytes, overrun: WireError): (r: Parsed<Blob>)
    ensures r.Success? ==> |r.value.1| < |s|
  {
    var (l, rest) :- Parse(s);
    if |rest| < l then Failure(overrun) else Success((rest[..l], rest[l..]))
  }

  lemma BlobFits(s: Bytes, overrun: WireError)
    ensures var r := ParseBlob(s, overrun); r.Success? ==> |EncodeBlob(r.value.0)| + |r.value.1| <= |s|
  {
    ParseFits(s);
  }

  lemma BlobRoundTrip(b: Blob, rest: Bytes, overrun: WireError)
    ensures ParseBlob(EncodeBlob(b) + rest, overrun) == Success((b, rest))
  {
    EncodeParse(|b|, b + rest);
    Assoc(Encode(|b|), b, rest);
    assert (b + rest)[..|b|] == b && (b + rest)[|b|..] == rest;
  }

  // ----- Namespaces -----

  type Tuple = t: seq<Blob> | |t| < LIMIT witness []

  function EncodeStrings(t: seq<Blob>): Bytes {
    if t == [] then [] else EncodeBlob(t[0]) + EncodeStrings(t[1..])
  }

  function EncodeTuple(t: Tuple): Bytes {
    Encode(|t|) + EncodeStrings(t)
  }

  function ParseStrings(n: nat, s: Bytes): (r: Parsed<seq<Blob>>)
    ensures r.Success? ==> |r.value.0| == n && n + |r.value.1| <= |s|
  {
    if n == 0 then Success(([], s))
    else
      var (b, rest) :- ParseBlob(s, LengthMismatch);
      var (bs, rest2) :- ParseStrings(n - 1, rest);
      Success(([b] + bs, rest2))
  }

  /** The bytes a list of strings takes. */
  function StringsSize(bs: seq<Blob>): nat {
    if bs == [] then 0 else Len(|bs[0]|) + |bs[0]| + StringsSize(bs[1..])
  }

  lemma {:induction false} StringsSizeIs(bs: seq<Blob>)
    ensures |EncodeStrings(bs)| == StringsSize(bs)
  {
    if bs != [] {
      StringsSizeIs(bs[1..]);
    }
  }

  lemma ConsStrings(b: Blob, bs: seq<Blob>)
    ensures StringsSize([b] + bs) == Len(|b|) + |b| + StringsSize(bs)
  {
    ConsTail(b, bs);
  }

  /** Strings that fit into `length` bytes with `left` to spare. */
  ghost predicate StringsFit(bs: seq<Blob>, left: nat, length: nat) {
    StringsSize(bs) + left <= length
  }

  lemma StringsGrow(length: nat, b: Blob, between: nat, bs: seq<Blob>, left: nat)
    requires Len(|b|) + |b| + between <= length && StringsFit(bs, left, between)
    ensures StringsFit([b] + bs, left, length)
  {
    ConsStrings(b, bs);
  }

  /** The first element and the others of a list that was accepted. */
  lemma StringsSplit(n: nat, s: Bytes) returns (b: Blob, between: Bytes, bs: seq<Blob>, rest: Bytes)
    requires n > 0 && ParseStrings(n, s).Success?
    ensures ParseBlob(s, LengthMismatch) == Success((b, between)) && ParseStrings(n - 1, between) == Success((bs, rest))
    ensures ParseStrings(n, s) == Success(([b] + bs, rest)) && Len(|b|) + |b| + |between| <= |s|
  {
    BlobFits(s, LengthMismatch);
    b, between := ParseBlob(s, LengthMismatch).value.0, ParseBlob(s, LengthMismatch).value.1;
    bs, rest := ParseStrings(n - 1, between).value.0, ParseStrings(n - 1, between).value.1;
  }

  lemma {:induction false} StringsFits(n: nat, s: Bytes, bs: seq<Blob>, rest: Bytes)
    requires ParseStrings(n, s) == Success((bs, rest))
    ensures StringsFit(bs, |rest|, |s|)
    decreases n
  {
    if n > 0 {
      var c, between, cs, left := StringsSplit(n, s);
      StringsFits(n - 1, between, cs, left);
      StringsGrow(|s|, c, |between|, cs, |left|);
    }
  }

  /** Each element takes at least one byte, so a tuple never has more elements than the input bytes. */
  function ParseTuple(s: Bytes): (r: Parsed<Tuple>)
    ensures r.Success? ==> |r.value.0| + |r.value.1| < |s|
  {
    var (n, rest) :- Parse(s);
    ParseStrings(n, rest)
  }

  /** Whatever tuple is accepted has no more elements than bytes consumed, and takes no more bytes when written
      again. */
  lemma TupleFits(s: Bytes)
    ensures var r := ParseTuple(s);
      r.Success? ==> |r.value.0| + |r.value.1| < |s| && |EncodeTuple(r.value.0)| + |r.value.1| <= |s|
  {
    ParseFits(s);
    var n := Parse(s);
    if n.Success? {
      var bs := ParseStrings(n.value.0, n.value.1);
      if bs.Success? {
        StringsFits(n.value.0, n.value.1, bs.value.0, bs.value.1);
        StringsSizeIs(bs.value.0);
      }
    }
  }

  lemma StringsCons(head: Bytes, tail: Bytes, rest: Bytes, x: Blob, xs: seq<Blob>)
    requires ParseBlob(head + (tail + rest), LengthMismatch) == Success((x, tail + rest))
    requires ParseStrings(|xs|, tail + rest) == Success((xs, rest))
    ensures ParseStrings(|xs| + 1, (head + tail) + rest) == Success(([x] + xs, rest))
  {
    Assoc(head, tail, rest);
  }

  lemma StringsStep(x: Blob, tail: Bytes, rest: Bytes, xs: seq<Blob>)
    requires ParseStrings(|xs|, tail + rest) == Success((xs, rest))
    ensures ParseStrings(|xs| + 1, (EncodeBlob(x) + tail) + rest) == Success(([x] + xs, rest))
  {
    BlobRoundTrip(x, tail + rest, LengthMismatch);
    StringsCons(EncodeBlob(x), tail, rest, x, xs);
  }

  lemma {:induction false} StringsRoundTrip(t: seq<Blob>, rest: Bytes)
    ensures ParseStrings(|t|, EncodeStrings(t) + rest) == Success((t, rest))
  {
    if t == [] {
      assert [] + rest == rest;
    } else {
      StringsRoundTrip(t[1..], rest);
      StringsStep(t[0], EncodeStrings(t[1..]), rest, t[1..]);
      HeadTail(t);
    }
  }

  lemma TupleRoundTrip(t: Tuple, rest: Bytes)
    ensures ParseTuple(EncodeTuple(t) + rest) == Success((t, rest))
  {
    Assoc(Encode(|t|), EncodeStrings(t), rest);
    EncodeParse(|t|, EncodeStrings(t) + rest);
    StringsRoundTrip(t, rest);
  }

  // ----- Key/value pairs -----

  /** Odd keys carry bytes, even keys an integer; the other field is ignored when writing. */
  datatype KeyValue = KeyValue(key: VarInt, bytes: Blob, number: VarInt)

  type KvpList = ps: seq<KeyValue> | |ps| < LIMIT witness []

  function EncodeKvp(p: KeyValue): Bytes {
    Encode(p.key) + if p.key % 2 == 1 then EncodeBlob(p.bytes) else Encode(p.number)
  }

  /** What a reader can recover: the field that goes with the key. */
  function Canonical(p: KeyValue): KeyValue {
    if p.key % 2 == 1 then p.(number := 0) else p.(bytes := [])
  }

  function ParseKvp(s: Bytes): (r: Parsed<KeyValue>)
    ensures r.Success? ==> |r.value.1| < |s|
  {
    var (key, rest) :- Parse(s);
    if key % 2 == 1 then
      var (bytes, rest2) :- ParseBlob(rest, OutOfRange);
      Success((KeyValue(key, bytes, 0), rest2))
    else
      var (number, rest2) :- Parse(rest);
      Success((KeyValue(key, [], number), rest2))
  }

  lemma KvpFits(s: Bytes)
    ensures var r := ParseKvp(s);
      r.Success? ==> |EncodeKvp(r.value.0)| + |r.value.1| <= |s| && Canonical(r.value.0) == r.value.0
  {
    ParseFits(s);
    var key := Parse(s);
    if key.Success? {
      BlobFits(key.value.1, OutOfRange);
      ParseFits(key.value.1);
    }
  }

  lemma KvpRoundTrip(p: KeyValue, rest: Bytes)
    ensures ParseKvp(EncodeKvp(p) + rest) == Success((Canonical(p), rest))
  {
    var body := if p.key % 2 == 1 then EncodeBlob(p.bytes) else Encode(p.number);
    Assoc(Encode(p.key), body, rest);
    EncodeParse(p.key, body + rest);
    if p.key % 2 == 1 {
      BlobRoundTrip(p.bytes, rest, OutOfRange);
    } else {
      EncodeParse(p.number, rest);
    }
  }

  function EncodeKvps(ps: seq<KeyValue>): Bytes {
    if ps == [] then [] else EncodeKvp(ps[0]) + EncodeKvps(ps[1..])
  }

  function EncodeParams(ps: KvpList): Bytes {
    Encode(|ps|) + EncodeKvps(ps)
  }

  function CanonicalList(ps: seq<KeyValue>): (cs: seq<KeyValue>)
    ensures |cs| == |ps|
  {
    if ps == [] then [] else [Canonical(ps[0])] + CanonicalList(ps[1..])
  }

  function ParseKvps(n: nat, s: Bytes): (r: Parsed<seq<KeyValue>>)
    ensures r.Success? ==> |r.value.0| == n && n + |r.value.1| <= |s|
  {
    if n == 0 then Success(([], s))
    else
      var (p, rest) :- ParseKvp(s);
      var (ps, rest2) :- ParseKvps(n - 1, rest);
      Success(([p] + ps, rest2))
  }

  /** The bytes a pair takes, and a list of them. */
  function KvpSize(p: KeyValue): nat {
    Len(p.key) + if p.key % 2 == 1 then Len(|p.bytes|) + |p.bytes| else Len(p.number)
  }

  function KvpsSize(ps: seq<KeyValue>): nat {
    if ps == [] then 0 else KvpSize(ps[0]) + KvpsSize(ps[1..])
  }

  lemma KvpSizeIs(p: KeyValue)
    ensures |EncodeKvp(p)| == KvpSize(p)
  {}

  lemma {:induction false} KvpsSizeIs(ps: seq<KeyValue>)
    ensures |EncodeKvps(ps)| == KvpsSize(ps)
  {
    if ps != [] {
      KvpSizeIs(ps[0]);
      KvpsSizeIs(ps[1..]);
    }
  }

  lemma ConsKvps(p: KeyValue, ps: seq<KeyValue>)
    ensures KvpsSize([p] + ps) == KvpSize(p) + KvpsSize(ps)
    ensures CanonicalList([p] + ps) == [Canonical(p)] + CanonicalList(ps)
  {
    ConsTail(p, ps);
  }

  /** The first pair and the others of a list that was accepted. */
  lemma KvpsSplit(n: nat, s: Bytes) returns (p: KeyValue, between: Bytes, ps: seq<KeyValue>, rest: Bytes)
    requires n > 0 && ParseKvps(n, s).Success?
    ensures ParseKvp(s) == Success((p, between)) && ParseKvps(n - 1, between) == Success((ps, rest))
    ensures ParseKvps(n, s) == Success(([p] + ps, rest))
    ensures KvpSize(p) + |between| <= |s| && Canonical(p) == p
  {
    KvpFits(s);
    p, between := ParseKvp(s).value.0, ParseKvp(s).value.1;
    KvpSizeIs(p);
    ps, rest := ParseKvps(n - 1, between).value.0, ParseKvps(n - 1, between).value.1;
  }

  lemma KvpsGrow(length: nat, p: KeyValue, between: nat, ps: seq<KeyValue>, left: nat)
    requires KvpSize(p) + between <= length && Canonical(p) == p && KvpsFit(ps, left, between)
    ensures KvpsFit([p] + ps, left, length)
  {
    ConsKvps(p, ps);
  }

  /** A list that fits into `length` bytes with `left` to spare, and reads back as itself. */
  ghost predicate KvpsFit(ps: seq<KeyValue>, left: nat, length: nat) {
    KvpsSize(ps) + left <= length && CanonicalList(ps) == ps
  }

  lemma {:induction false} KvpsFits(n: nat, s: Bytes, ps: seq<KeyValue>, rest: Bytes)
    requires ParseKvps(n, s) == Success((ps, rest))
    ensures KvpsFit(ps, |rest|, |s|)
    decreases n
  {
    if n > 0 {
      var q, between, qs, left := KvpsSplit(n, s);
      KvpsFits(n - 1, between, qs, left);
      KvpsGrow(|s|, q, |between|, qs, |left|);
    }
  }

  /** A counted list; what follows it in a message body is ignored by every caller. */
  function ParseParams(s: Bytes): (r: Parsed<KvpList>)
    ensures r.Success? ==> |r.value.0| + |r.value.1| < |s|
  {
    var (n, rest) :- Parse(s);
    ParseKvps(n, rest)
  }

  /** Whatever list is accepted has no more pairs than bytes consumed, takes no more bytes when written again and has
      nothing a second reading changes. */
  lemma ParamsFits(s: Bytes)
    ensures var r := ParseParams(s);
      r.Success? ==>
        && |r.value.0| + |r.value.1| < |s| && |EncodeParams(r.value.0)| + |r.value.1| <= |s|
        && CanonicalList(r.value.0) == r.value.0
  {
    ParseFits(s);
    var n := Parse(s);
    if n.Success? {
      var ps := ParseKvps(n.value.0, n.value.1);
      if ps.Success? {
        KvpsFits(n.value.0, n.value.1, ps.value.0, ps.value.1);
        KvpsSizeIs(ps.value.0);
      }
    }
  }

  lemma KvpsCons(head: Bytes, tail: Bytes, rest: Bytes, x: KeyValue, xs: seq<KeyValue>)
    requires ParseKvp(head + (tail + rest)) == Success((x, tail + rest))
    requires ParseKvps(|xs|, tail + rest) == Success((xs, rest))
    ensures ParseKvps(|xs| + 1, (head + tail) + rest) == Success(([x] + xs, rest))
  {
    Assoc(head, tail, rest);
  }

  lemma {:induction false} KvpsRoundTrip(ps: seq<KeyValue>, rest: Bytes)
    ensures ParseKvps(|ps|, EncodeKvps(ps) + rest) == Success((CanonicalList(ps), rest))
  {
    if ps == [] {
      assert [] + rest == rest;
    } else {
      KvpRoundTrip(ps[0], EncodeKvps(ps[1..]) + rest);
      KvpsRoundTrip(ps[1..], rest);
      KvpsCons(EncodeKvp(ps[0]), EncodeKvps(ps[1..]), rest, Canonical(ps[0]), CanonicalList(ps[1..]));
    }
  }

  lemma ParamsRoundTrip(ps: KvpList, rest: Bytes)
    ensures ParseParams(EncodeParams(ps) + rest) == Success((CanonicalList(ps), rest))
  {
    Assoc(Encode(|ps|), EncodeKvps(ps), rest);
    EncodeParse(|ps|, EncodeKvps(ps) + rest);
    KvpsRoundTrip(ps, rest);
  }

  // ----- Versions and locations -----

  type Versions = vs: seq<VarInt> | |vs| < LIMIT witness []

  function EncodeInts(vs: seq<VarInt>): Bytes {
    if vs == [] then [] else Encode(vs[0]) + EncodeInts(vs[1..])
  }

  function EncodeVersions(vs: Versions): Bytes {
    Encode(|vs|) + EncodeInts(vs)
  }

  function ParseInts(n: nat, s: Bytes): (r: Parsed<seq<VarInt>>)
    ensures r.Success? ==> |r.value.0| == n && n + |r.value.1| <= |s|
  {
    if n == 0 then Success(([], s))
    else
      var (v, rest) :- Parse(s);
      var (vs, rest2) :- ParseInts(n - 1, rest);
      Success(([v] + vs, rest2))
  }

  lemma ConsInts(v: VarInt, vs: seq<VarInt>)
    ensures EncodeInts([v] + vs) == Encode(v) + EncodeInts(vs)
  {
    ConsTail(v, vs);
  }

  lemma {:induction false} IntsFits(n: nat, s: Bytes)
    ensures var r := ParseInts(n, s); r.Success? ==> |EncodeInts(r.value.0)| + |r.value.1| <= |s|
  {
    if n > 0 {
      ParseFits(s);
      var v := Parse(s);
      if v.Success? {
        IntsFits(n - 1, v.value.1);
        var vs := ParseInts(n - 1, v.value.1);
        if vs.Success? {
          ConsInts(v.value.0, vs.value.0);
        }
      }
    }
  }

  function ParseVersions(s: Bytes): (r: Parsed<Versions>)
    ensures r.Success? ==> |r.value.0| + |r.value.1| < |s|
  {
    var (n, rest) :- Parse(s);
    ParseInts(n, rest)
  }

  lemma VersionsFits(s: Bytes)
    ensures var r := ParseVersions(s); r.Success? ==> |EncodeVersions(r.value.0)| + |r.value.1| <= |s|
  {
    ParseFits(s);
    var n := Parse(s);
    if n.Success? {
      IntsFits(n.value.0, n.value.1);
    }
  }

  lemma IntsCons(head: Bytes, tail: Bytes, rest: Bytes, x: VarInt, xs: seq<VarInt>)
    requires Parse(head + (tail + rest)) == Success((x, tail + rest))
    requires ParseInts(|xs|, tail + rest) == Success((xs, rest))
    ensures ParseInts(|xs| + 1, (head + tail) + rest) == Success(([x] + xs, rest))
  {
    Assoc(head, tail, rest);
  }

  lemma {:induction false} IntsRoundTrip(vs: seq<VarInt>, rest: Bytes)
    ensures ParseInts(|vs|, EncodeInts(vs) + rest) == Success((vs, rest))
  {
    if vs == [] {
      assert [] + rest == rest;
    } else {
      EncodeParse(vs[0], EncodeInts(vs[1..]) + rest);
      IntsRoundTrip(vs[1..], rest);
      IntsCons(Encode(vs[0]), EncodeInts(vs[1..]), rest, vs[0], vs[1..]);
      HeadTail(vs);
    }
  }

  lemma VersionsRoundTrip(vs: Versions, rest: Bytes)
    ensures ParseVersions(EncodeVersions(vs) + rest) == Success((vs, rest))
  {
    Assoc(Encode(|vs|), EncodeInts(vs), rest);
    EncodeParse(|vs|, EncodeInts(vs) + rest);
    IntsRoundTrip(vs, rest);
  }

  datatype Location = Location(group: VarInt, object_: VarInt)

  const ORIGIN := Location(0, 0)

  function EncodeLocation(l: Location): Bytes {
    Encode(l.group) + Encode(l.object_)
  }

  function ParseLocation(s: Bytes): (r: Parsed<Location>)
    ensures r.Success? ==> |r.value.1| < |s|
  {
    var (group, rest) :- Parse(s);
    var (object_, rest2) :- Parse(rest);
    Success((Location(group, object_), rest2))
  }

  lemma LocationFits(s: Bytes)
    ensures var r := ParseLocation(s); r.Success? ==> |EncodeLocation(r.value.0)| + |r.value.1| <= |s|
  {
    ParseFits(s);
    var group := Parse(s);
    if group.Success? {
      ParseFits(group.value.1);
    }
  }

  lemma LocationRoundTrip(l: Location, rest: Bytes)
    ensures ParseLocation(EncodeLocation(l) + rest) == Success((l, rest))
  {
    Assoc(Encode(l.group), Encode(l.object_), rest);
    EncodeParse(l.group, Encode(l.object_) + rest);
    EncodeParse(l.object_, rest);
  }
}
