/** The loops that grow a buffer or advance a cursor over the input, each proved to compute its encoding or
    its parser. */
module WireLoops {
  import opened Varint
  import opened Fields

  lemma PrefixSnoc<T>(xs: seq<T>, i: nat)
    requires i < |xs|
    ensures xs[..i + 1] == xs[..i] + [xs[i]]
  {}

  // ----- Cursors -----

  /** `rest` is what a cursor into `s` still has to read. */
  ghost predicate IsSuffix(rest: Bytes, s: Bytes) {
    rest == s || (s != [] && IsSuffix(rest, s[1..]))
  }

  lemma {:induction false} SuffixIs(rest: Bytes, s: Bytes)
    requires IsSuffix(rest, s)
    ensures |rest| <= |s| && s[|s| - |rest|..] == rest
  {
    if rest != s {
      SuffixIs(rest, s[1..]);
    }
  }

  lemma {:induction false} DropIsSuffix(s: Bytes, n: nat)
    requires n <= |s|
    ensures IsSuffix(s[n..], s)
  {
    if n > 0 {
      DropIsSuffix(s[1..], n - 1);
      assert s[1..][n - 1..] == s[n..];
    }
  }

  lemma {:induction false} SuffixTrans(rest: Bytes, mid: Bytes, s: Bytes)
    requires IsSuffix(rest, mid) && IsSuffix(mid, s)
    ensures IsSuffix(rest, s)
  {
    if mid != s {
      SuffixTrans(rest, mid, s[1..]);
    }
  }

  /** A parser that goes on from `mid`, where another one stopped. */
  lemma Chained<T>(spec: Parsed<T>, mid: Bytes, s: Bytes)
    requires IsSuffix(mid, s) && (spec.Success? ==> IsSuffix(spec.value.1, mid))
    ensures spec.Success? ==> IsSuffix(spec.value.1, s)
  {
    if spec.Success? {
      SuffixTrans(spec.value.1, mid, s);
    }
  }

  lemma ParseSuffix(s: Bytes)
    ensures Parse(s).Success? ==> IsSuffix(Parse(s).value.1, s)
  {
    if Parse(s).Success? {
      DropIsSuffix(s, LengthOf(s[0]));
    }
  }

  /** The result and the bytes consumed, as a parsing loop reports them, against a parser of `data`. */
  ghost predicate Agrees<T>(r: Result<T>, parsed: nat, data: Bytes, spec: Parsed<T>) {
    && r == (if spec.Success? then Success(spec.value.0) else Failure(spec.error))
    && parsed <= |data|
    && (spec.Success? ==> parsed + |spec.value.1| == |data| && IsSuffix(spec.value.1, data))
  }

  /** What is already read, in front of what is still to come. */
  ghost function Onto<T>(done: seq<T>, more: Parsed<seq<T>>): Parsed<seq<T>> {
    if more.Failure? then Failure(more.error) else Success((done + more.value.0, more.value.1))
  }

  lemma OntoNone<T>(more: Parsed<seq<T>>)
    ensures Onto([], more) == more
  {
    if more.Success? {
      assert [] + more.value.0 == more.value.0;
    }
  }

  /** One more element: `here` is what the parser makes of the cursor, `first` and `after` its two halves. */
  lemma OntoTurn<T>(goal: Parsed<seq<T>>, done: seq<T>, here: Parsed<seq<T>>, first: Parsed<T>, after: Parsed<seq<T>>)
    requires goal == Onto(done, here)
    requires here == if first.Failure? then Failure(first.error) else Onto([first.value.0], after)
    ensures first.Failure? ==> goal == Failure(first.error)
    ensures first.Success? ==> goal == Onto(done + [first.value.0], after)
  {
    if first.Success? && after.Success? {
      assert done + ([first.value.0] + after.value.0) == done + [first.value.0] + after.value.0;
    }
  }

  /** The cursor moves on by the `k` bytes of one element. */
  lemma Moved<T>(x: Result<T>, k: nat, first: Parsed<T>, parsed: nat, data: Bytes, input: Bytes)
    requires Agrees(x, k, data, first) && first.Success?
    requires parsed + |data| == |input| && IsSuffix(data, input)
    ensures data[k..] == first.value.1 && x == Success(first.value.0)
    ensures parsed + k + |data[k..]| == |input| && IsSuffix(data[k..], input)
  {
    SuffixIs(first.value.1, data);
    SuffixTrans(first.value.1, data, input);
  }

  lemma BlobSuffix(s: Bytes, overrun: WireError)
    ensures ParseBlob(s, overrun).Success? ==> IsSuffix(ParseBlob(s, overrun).value.1, s)
  {
    ParseSuffix(s);
    var l := Parse(s);
    if l.Success? && l.value.0 <= |l.value.1| {
      DropIsSuffix(l.value.1, l.value.0);
      SuffixTrans(l.value.1[l.value.0..], l.value.1, s);
    }
  }

  // ----- Byte strings and locations -----

  method AppendBlob(buf: Bytes, data: Blob) returns (out: Bytes)
    ensures out == buf + EncodeBlob(data)
  {
    out := buf + Encode(|data|);
    out := out + data;
    Assoc(buf, Encode(|data|), data);
  }

  method AppendLocation(buf: Bytes, l: Location) returns (out: Bytes)
    ensures out == buf + EncodeLocation(l)
  {
    out := buf + Encode(l.group);
    out := out + Encode(l.object_);
    Assoc(buf, Encode(l.group), Encode(l.object_));
  }

  // ----- Namespaces -----

  lemma {:induction false} StringsSnoc(t: seq<Blob>, b: Blob)
    ensures EncodeStrings(t + [b]) == EncodeStrings(t) + EncodeBlob(b)
  {
    if t == [] {
      assert t + [b] == [b];
    } else {
      StringsSnoc(t[1..], b);
      assert (t + [b])[1..] == t[1..] + [b];
      Assoc(EncodeBlob(t[0]), EncodeStrings(t[1..]), EncodeBlob(b));
    }
  }

  method AppendTuple(buf: Bytes, t: Tuple) returns (out: Bytes)
    ensures out == buf + EncodeTuple(t)
  {
    var start := buf + Encode(|t|);
    out := start;
    for i := 0 to |t|
      invariant out == start + EncodeStrings(t[..i])
    {
      var before := out;
      out := out + Encode(|t[i]|);
      out := out + t[i];
      Assoc(before, Encode(|t[i]|), t[i]);
      StringsSnoc(t[..i], t[i]);
      PrefixSnoc(t, i);
      Assoc(start, EncodeStrings(t[..i]), EncodeBlob(t[i]));
    }
    assert t[..|t|] == t;
    Assoc(buf, Encode(|t|), EncodeStrings(t));
  }

  lemma StringsStep(n: nat, s: Bytes)
    requires n > 0
    ensures var first := ParseBlob(s, LengthMismatch);
      ParseStrings(n, s) == if first.Failure? then Failure(first.error)
                            else Onto([first.value.0], ParseStrings(n - 1, first.value.1))
  {}

  /** The loop has read `done` and stands at `data`. */
  ghost predicate StringsSoFar(n: nat, input: Bytes, done: seq<Blob>, parsed: nat, data: Bytes) {
    && |done| <= n && |done| <= parsed && parsed + |data| == |input| && IsSuffix(data, input)
    && ParseStrings(n, input) == Onto(done, ParseStrings(n - |done|, data))
  }

  lemma StringsTurn(n: nat, input: Bytes, done: seq<Blob>, parsed: nat, data: Bytes, x: Result<Blob>, k: nat)
    requires StringsSoFar(n, input, done, parsed, data) && |done| < n
    requires Agrees(x, k, data, ParseBlob(data, LengthMismatch)) && (x.Success? ==> 0 < k)
    ensures x.Failure? ==> Agrees(Failure(x.error), parsed, input, ParseStrings(n, input))
    ensures x.Success? ==> StringsSoFar(n, input, done + [x.value], parsed + k, data[k..])
  {
    var first, left := ParseBlob(data, LengthMismatch), n - |done| - 1;
    StringsStep(left + 1, data);
    var after: Parsed<seq<Blob>> := if first.Success? then ParseStrings(left, first.value.1) else Failure(first.error);
    OntoTurn(ParseStrings(n, input), done, ParseStrings(left + 1, data), first, after);
    if first.Success? {
      Moved(x, k, first, parsed, data, input);
    }
  }

  lemma StringsEnd(n: nat, input: Bytes, done: seq<Blob>, parsed: nat, data: Bytes)
    requires StringsSoFar(n, input, done, parsed, data) && |done| == n
    ensures Agrees(Success(done), parsed, input, ParseStrings(n, input))
  {
    assert done + [] == done;
  }

  /** One length-prefixed string of a namespace. */
  method ReadString(input: Bytes) returns (r: Result<Blob>, parsed: nat)
    ensures Agrees(r, parsed, input, ParseBlob(input, LengthMismatch))
    ensures r.Success? ==> 0 < parsed
  {
    var l := Parse(input);
    if l.Failure? {
      return Failure(l.error), 0;
    }
    var data := l.value.1;
    parsed := |input| - |data|;
    if |data| < l.value.0 {
      return Failure(LengthMismatch), parsed;
    }
    BlobSuffix(input, LengthMismatch);
    return Success(data[..l.value.0]), parsed + l.value.0;
  }

  method ReadStrings(n: nat, input: Bytes) returns (r: Result<seq<Blob>>, parsed: nat)
    ensures Agrees(r, parsed, input, ParseStrings(n, input))
    ensures r.Success? ==> n <= parsed
  {
    var data, tuple: seq<Blob>, i := input, [], 0;
    parsed := 0;
    OntoNone(ParseStrings(n, input));
    while i < n
      invariant |tuple| == i && StringsSoFar(n, input, tuple, parsed, data)
    {
      var b, k := ReadString(data);
      StringsTurn(n, input, tuple, parsed, data, b, k);
      if b.Failure? {
        return Failure(b.error), parsed;
      }
      tuple, data, parsed, i := tuple + [b.value], data[k..], parsed + k, i + 1;
    }
    StringsEnd(n, input, tuple, parsed, data);
    r := Success(tuple);
  }

  /** On any input the loop ends with no more elements than bytes consumed. */
  method ReadTuple(input: Bytes) returns (r: Result<seq<Blob>>, parsed: nat)
    ensures Agrees(r, parsed, input, ParseTuple(input))
    ensures r.Success? ==> |r.value| < parsed
  {
    var length := Parse(input);
    if length.Failure? {
      return Failure(length.error), 0;
    }
    var data := length.value.1;
    var n;
    r, n := ReadStrings(length.value.0, data);
    parsed := |input| - |data| + n;
    ParseSuffix(input);
    Chained(ParseStrings(length.value.0, data), data, input);
  }

  // ----- Key/value lists -----

  /** The size computed without writing. */
  function KvpLength(p: KeyValue): (n: nat)
    ensures n == |EncodeKvp(p)|
  {
    Len(p.key) + if p.key % 2 == 1 then Len(|p.bytes|) + |p.bytes| else Len(p.number)
  }

  lemma {:induction false} KvpsSnoc(ps: seq<KeyValue>, p: KeyValue)
    ensures EncodeKvps(ps + [p]) == EncodeKvps(ps) + EncodeKvp(p)
  {
    if ps == [] {
      assert ps + [p] == [p];
    } else {
      KvpsSnoc(ps[1..], p);
      assert (ps + [p])[1..] == ps[1..] + [p];
      Assoc(EncodeKvp(ps[0]), EncodeKvps(ps[1..]), EncodeKvp(p));
    }
  }

  /** The byte length announced before a list is the number of bytes the list then takes. */
  method KvpsLength(ps: seq<KeyValue>) returns (length: nat)
    ensures length == |EncodeKvps(ps)|
  {
    length := 0;
    for i := 0 to |ps|
      invariant length == |EncodeKvps(ps[..i])|
    {
      length := length + KvpLength(ps[i]);
      KvpsSnoc(ps[..i], ps[i]);
      PrefixSnoc(ps, i);
    }
    assert ps[..|ps|] == ps;
  }

  method AppendKvp(buf: Bytes, p: KeyValue) returns (out: Bytes)
    ensures out == buf + EncodeKvp(p)
  {
    out := buf + Encode(p.key);
    if p.key % 2 == 1 {
      Assoc(buf, Encode(p.key), EncodeBlob(p.bytes));
      out := AppendBlob(out, p.bytes);
    } else {
      Assoc(buf, Encode(p.key), Encode(p.number));
      out := out + Encode(p.number);
    }
  }

  lemma KvpsPrefix(ps: seq<KeyValue>, i: nat)
    requires i < |ps|
    ensures EncodeKvps(ps[..i + 1]) == EncodeKvps(ps[..i]) + EncodeKvp(ps[i])
  {
    KvpsSnoc(ps[..i], ps[i]);
    PrefixSnoc(ps, i);
  }

  method AppendKvps(buf: Bytes, ps: seq<KeyValue>) returns (out: Bytes)
    ensures out == buf + EncodeKvps(ps)
  {
    out := buf;
    for i := 0 to |ps|
      invariant out == buf + EncodeKvps(ps[..i])
    {
      out := AppendKvp(out, ps[i]);
      KvpsPrefix(ps, i);
      Assoc(buf, EncodeKvps(ps[..i]), EncodeKvp(ps[i]));
    }
    assert ps[..|ps|] == ps;
  }

  method AppendNum(buf: Bytes, ps: KvpList) returns (out: Bytes)
    ensures out == buf + EncodeParams(ps)
  {
    out := AppendKvps(buf + Encode(|ps|), ps);
    Assoc(buf, Encode(|ps|), EncodeKvps(ps));
  }

  /** With the length in bytes in front, as objects carry their extension headers. */
  method AppendLength(buf: Bytes, ps: seq<KeyValue>) returns (out: Bytes)
    requires |EncodeKvps(ps)| < LIMIT
    ensures out == buf + EncodeBlob(EncodeKvps(ps))
  {
    var length := KvpsLength(ps);
    out := AppendKvps(buf + Encode(length), ps);
    Assoc(buf, Encode(length), EncodeKvps(ps));
  }

  method ReadKvp(input: Bytes) returns (r: Result<KeyValue>, parsed: nat)
    ensures Agrees(r, parsed, input, ParseKvp(input))
    ensures r.Success? ==> 0 < parsed
  {
    var key := Parse(input);
    if key.Failure? {
      return Failure(key.error), 0;
    }
    ParseSuffix(input);
    var data := key.value.1;
    parsed := |input| - |data|;
    if key.value.0 % 2 == 1 {
      BlobSuffix(data, OutOfRange);
      Chained(ParseBlob(data, OutOfRange), data, input);
      var l := Parse(data);
      if l.Failure? {
        return Failure(l.error), parsed;
      }
      parsed := parsed + (|data| - |l.value.1|);
      data := l.value.1;
      if |data| < l.value.0 {
        return Failure(OutOfRange), parsed;
      }
      return Success(KeyValue(key.value.0, data[..l.value.0], 0)), parsed + l.value.0;
    }
    ParseSuffix(data);
    Chained(Parse(data), data, input);
    var number := Parse(data);
    if number.Failure? {
      return Failure(number.error), parsed;
    }
    return Success(KeyValue(key.value.0, [], number.value.0)), parsed + (|data| - |number.value.1|);
  }

  lemma KvpsStep(n: nat, s: Bytes)
    requires n > 0
    ensures var first := ParseKvp(s);
      ParseKvps(n, s) == if first.Failure? then Failure(first.error)
                         else Onto([first.value.0], ParseKvps(n - 1, first.value.1))
  {}

  /** The loop has read `done` and stands at `data`. */
  ghost predicate KvpsSoFar(n: nat, input: Bytes, done: seq<KeyValue>, parsed: nat, data: Bytes) {
    && |done| <= n && |done| <= parsed && parsed + |data| == |input| && IsSuffix(data, input)
    && ParseKvps(n, input) == Onto(done, ParseKvps(n - |done|, data))
  }

  lemma KvpsTurn(n: nat, input: Bytes, done: seq<KeyValue>, parsed: nat, data: Bytes, x: Result<KeyValue>, k: nat)
    requires KvpsSoFar(n, input, done, parsed, data) && |done| < n
    requires Agrees(x, k, data, ParseKvp(data)) && (x.Success? ==> 0 < k)
    ensures x.Failure? ==> Agrees(Failure(x.error), parsed, input, ParseKvps(n, input))
    ensures x.Success? ==> KvpsSoFar(n, input, done + [x.value], parsed + k, data[k..])
  {
    var first, left := ParseKvp(data), n - |done| - 1;
    KvpsStep(left + 1, data);
    var after: Parsed<seq<KeyValue>> := if first.Success? then ParseKvps(left, first.value.1) else Failure(first.error);
    OntoTurn(ParseKvps(n, input), done, ParseKvps(left + 1, data), first, after);
    if first.Success? {
      Moved(x, k, first, parsed, data, input);
    }
  }

  lemma KvpsEnd(n: nat, input: Bytes, done: seq<KeyValue>, parsed: nat, data: Bytes)
    requires KvpsSoFar(n, input, done, parsed, data) && |done| == n
    ensures Agrees(Success(done), parsed, input, ParseKvps(n, input))
  {
    assert done + [] == done;
  }

  method ReadKvps(n: nat, input: Bytes) returns (r: Result<seq<KeyValue>>, parsed: nat)
    ensures Agrees(r, parsed, input, ParseKvps(n, input))
    ensures r.Success? ==> n <= parsed
  {
    var data, ps: seq<KeyValue>, i := input, [], 0;
    parsed := 0;
    OntoNone(ParseKvps(n, input));
    while i < n
      invariant |ps| == i && KvpsSoFar(n, input, ps, parsed, data)
    {
      var p, k := ReadKvp(data);
      KvpsTurn(n, input, ps, parsed, data, p, k);
      if p.Failure? {
        return Failure(p.error), parsed;
      }
      ps, data, parsed, i := ps + [p.value], data[k..], parsed + k, i + 1;
    }
    KvpsEnd(n, input, ps, parsed, data);
    r := Success(ps);
  }

  method ReadNum(input: Bytes) returns (r: Result<seq<KeyValue>>, parsed: nat)
    ensures Agrees(r, parsed, input, ParseParams(input))
    ensures r.Success? ==> |r.value| < parsed
  {
    var count := Parse(input);
    if count.Failure? {
      return Failure(count.error), 0;
    }
    var data := count.value.1;
    var n;
    r, n := ReadKvps(count.value.0, data);
    parsed := |input| - |data| + n;
    ParseSuffix(input);
    Chained(ParseKvps(count.value.0, data), data, input);
  }

  // ----- Versions -----

  lemma {:induction false} IntsSnoc(vs: seq<VarInt>, v: VarInt)
    ensures EncodeInts(vs + [v]) == EncodeInts(vs) + Encode(v)
  {
    if vs == [] {
      assert vs + [v] == [v];
    } else {
      IntsSnoc(vs[1..], v);
      assert (vs + [v])[1..] == vs[1..] + [v];
      Assoc(Encode(vs[0]), EncodeInts(vs[1..]), Encode(v));
    }
  }

  method AppendVersions(buf: Bytes, vs: Versions) returns (out: Bytes)
    ensures out == buf + EncodeVersions(vs)
  {
    var start := buf + Encode(|vs|);
    out := start;
    for i := 0 to |vs|
      invariant out == start + EncodeInts(vs[..i])
    {
      out := out + Encode(vs[i]);
      IntsSnoc(vs[..i], vs[i]);
      PrefixSnoc(vs, i);
      Assoc(start, EncodeInts(vs[..i]), Encode(vs[i]));
    }
    assert vs[..|vs|] == vs;
    Assoc(buf, Encode(|vs|), EncodeInts(vs));
  }

  lemma IntsStep(n: nat, s: Bytes)
    requires n > 0
    ensures var first := Parse(s);
      ParseInts(n, s) == if first.Failure? then Failure(first.error)
                         else Onto([first.value.0], ParseInts(n - 1, first.value.1))
  {}

  /** The loop has read `done` and stands at `data`. */
  ghost predicate IntsSoFar(n: nat, input: Bytes, done: seq<VarInt>, parsed: nat, data: Bytes) {
    && |done| <= n && |done| <= parsed && parsed + |data| == |input| && IsSuffix(data, input)
    && ParseInts(n, input) == Onto(done, ParseInts(n - |done|, data))
  }

  lemma IntsTurn(n: nat, input: Bytes, done: seq<VarInt>, parsed: nat, data: Bytes, x: Result<VarInt>, k: nat)
    requires IntsSoFar(n, input, done, parsed, data) && |done| < n
    requires Agrees(x, k, data, Parse(data)) && (x.Success? ==> 0 < k)
    ensures x.Failure? ==> Agrees(Failure(x.error), parsed, input, ParseInts(n, input))
    ensures x.Success? ==> IntsSoFar(n, input, done + [x.value], parsed + k, data[k..])
  {
    var first, left := Parse(data), n - |done| - 1;
    IntsStep(left + 1, data);
    var after: Parsed<seq<VarInt>> := if first.Success? then ParseInts(left, first.value.1) else Failure(first.error);
    OntoTurn(ParseInts(n, input), done, ParseInts(left + 1, data), first, after);
    if first.Success? {
      Moved(x, k, first, parsed, data, input);
    }
  }

  lemma IntsEnd(n: nat, input: Bytes, done: seq<VarInt>, parsed: nat, data: Bytes)
    requires IntsSoFar(n, input, done, parsed, data) && |done| == n
    ensures Agrees(Success(done), parsed, input, ParseInts(n, input))
  {
    assert done + [] == done;
  }

  method ReadInts(n: nat, input: Bytes) returns (r: Result<seq<VarInt>>, parsed: nat)
    ensures Agrees(r, parsed, input, ParseInts(n, input))
    ensures r.Success? ==> n <= parsed
  {
    var data, vs: seq<VarInt>, i := input, [], 0;
    parsed := 0;
    OntoNone(ParseInts(n, input));
    while i < n
      invariant |vs| == i && IntsSoFar(n, input, vs, parsed, data)
    {
      var v := Parse(data);
      ParseSuffix(data);
      if v.Failure? {
        IntsTurn(n, input, vs, parsed, data, Failure(v.error), 0);
        return Failure(v.error), parsed;
      }
      var k := |data| - |v.value.1|;
      IntsTurn(n, input, vs, parsed, data, Success(v.value.0), k);
      vs, data, parsed, i := vs + [v.value.0], v.value.1, parsed + k, i + 1;
    }
    IntsEnd(n, input, vs, parsed, data);
    r := Success(vs);
  }

  method ReadVersions(input: Bytes) returns (r: Result<seq<VarInt>>, parsed: nat)
    ensures Agrees(r, parsed, input, ParseVersions(input))
    ensures r.Success? ==> |r.value| < parsed
  {
    var count := Parse(input);
    if count.Failure? {
      return Failure(count.error), 0;
    }
    var data := count.value.1;
    var n;
    r, n := ReadInts(count.value.0, data);
    parsed := |input| - |data| + n;
    ParseSuffix(input);
    Chained(ParseInts(count.value.0, data), data, input);
  }
}
