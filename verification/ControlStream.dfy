/** The two ends of the control stream: the writer that patches the length into its buffer, and the parser
    that takes one frame after the other off its reader. */
module ControlStream {
  import opened Varint
  import opened Fields
  import opened WireLoops
  import opened PlainBodies
  import opened ControlMessages
  import opened Framing
  import opened ByteReaders
  import B = MessageBuffers

  // ----- CLIENT_SETUP -----

  lemma ClientSetupBody(vs: Versions, ps: KvpList)
    ensures EncodeFields([Numbers(vs), Params(ps)]) == EncodeVersions(vs) + EncodeParams(ps)
  {
    var fields := [Numbers(vs), Params(ps)];
    assert fields[1..] == [Params(ps)] && [Params(ps)][1..] == [];
    assert EncodeFields([Params(ps)]) == EncodeParams(ps) + [] == EncodeParams(ps);
  }

  method AppendClientSetup(buf: Bytes, vs: Versions, ps: KvpList) returns (out: Bytes)
    ensures out == buf + EncodeFields([Numbers(vs), Params(ps)])
  {
    out := AppendVersions(buf, vs);
    out := AppendNum(out, ps);
    ClientSetupBody(vs, ps);
    Assoc(buf, EncodeVersions(vs), EncodeParams(ps));
  }

  lemma FieldsCons(layout: seq<Shape>, s: Bytes, f: Field, after: Bytes, fs: seq<Field>, rest: Bytes)
    requires layout != [] && ParseField(layout[0], s) == Success((f, after))
    requires ParseFields(layout[1..], after) == Success((fs, rest))
    ensures ParseFields(layout, s) == Success(([f] + fs, rest))
  {}

  lemma FieldsFail(layout: seq<Shape>, s: Bytes, e: WireError)
    requires layout != []
    requires ParseField(layout[0], s) == Failure(e) ||
      (ParseField(layout[0], s).Success? && ParseFields(layout[1..], ParseField(layout[0], s).value.1) == Failure(e))
    ensures ParseFields(layout, s) == Failure(e)
  {}

  method ReadClientSetup(data: Bytes) returns (r: Result<Message>)
    ensures r == ParseBody(ClientSetup, data)
  {
    ghost var layout := [SomeNumbers, SomeParams];
    assert layout[1..] == [SomeParams] && layout[1..][1..] == [];
    var vs, n := ReadVersions(data);
    if vs.Failure? {
      FieldsFail(layout, data, vs.error);
      return Failure(vs.error);
    }
    var params := B.Skip(data, n, ParseVersions(data));
    var ps, _ := ReadNum(params);
    if ps.Failure? {
      FieldsFail(layout[1..], params, ps.error);
      FieldsFail(layout, data, ps.error);
      return Failure(ps.error);
    }
    ghost var rest := ParseParams(params).value.1;
    FieldsCons(layout[1..], params, Params(ps.value), rest, [], rest);
    FieldsCons(layout, data, Numbers(vs.value), params, [Params(ps.value)] + [], rest);
    assert [Numbers(vs.value)] + ([Params(ps.value)] + []) == [Numbers(vs.value), Params(ps.value)];
    return Success(PlainMessage(ClientSetup, [Numbers(vs.value), Params(ps.value)]));
  }

  // ----- Writing -----

  method AppendBody(buf: Bytes, m: Message) returns (out: Bytes)
    requires WellFormed(m) && Sendable(m)
    ensures out == buf + Body(m)
  {
    match m
    case PlainMessage(k, fields) =>
      if k == ClientSetup {
        assert fields == [Numbers(fields[0].versions), Params(fields[1].params)];
        out := AppendClientSetup(buf, fields[0].versions, fields[1].params);
      } else {
        out := buf + EncodeFields(fields);
      }
    case ASubscribe(b) => out := B.AppendSubscribe(buf, b);
    case ASubscribeOk(b) => out := B.AppendSubscribeOk(buf, b);
    case ASubscribeUpdate(b) => out := B.AppendSubscribeUpdate(buf, b);
    case AFetch(b) => out := B.AppendFetch(buf, b);
    case AFetchOk(b) => out := B.AppendFetchOk(buf, b);
  }

  lemma TwoDigits(v: nat)
    requires v <= MAX_BODY
    ensures BigEndian(v, 2) == [v / 256, v % 256]
  {
    assert BigEndian(v / 256, 1) == [] + [v / 256];
  }

  lemma Patched(code: Bytes, hi: Byte, lo: Byte, body: Bytes)
    ensures (code + [0, 0] + body)[|code| := hi][|code| + 1 := lo] == code + ([hi, lo] + body)
  {}

  method CompileMessage(m: Message) returns (r: Result<Bytes>)
    requires WellFormed(m)
    ensures r == Frame(m)
  {
    if !Sendable(m) {
      return Failure(Unwritable);
    }
    var buf := Encode(TypeOf(KindOfMessage(m)));
    var tl := |buf|;
    ghost var code := buf;
    buf := buf + [0, 0];
    buf := AppendBody(buf, m);
    var length := |buf[tl + 2..]|;
    if length > MAX_BODY {
      return Failure(TooLarge);
    }
    TwoDigits(length);
    Patched(code, length / 256, length % 256, Body(m));
    buf := buf[tl := length / 256];
    buf := buf[tl + 1 := length % 256];
    r := Success(buf);
  }

  // ----- Reading -----

  method ReadBody(k: Kind, data: Bytes) returns (r: Result<Message>)
    ensures r == ParseBody(k, data)
  {
    match k
    case Subscribe => r := ReadASubscribe(data);
    case SubscribeOk => r := ReadASubscribeOk(data);
    case SubscribeUpdate => r := ReadAnUpdate(data);
    case Fetch => r := ReadAFetch(data);
    case FetchOk => r := ReadAFetchOk(data);
    case ClientSetup => r := ReadClientSetup(data);
    case _ => r := FromPlain(k, ParseFields(Layout(k), data));
  }

  method ReadASubscribe(data: Bytes) returns (r: Result<Message>)
    ensures r == ParseBody(Subscribe, data)
  {
    var b := B.ReadSubscribe(data);
    SubscribeDispatched(data);
    r := if b.Success? then Success(ASubscribe(b.value)) else Failure(b.error);
  }

  method ReadASubscribeOk(data: Bytes) returns (r: Result<Message>)
    ensures r == ParseBody(SubscribeOk, data)
  {
    var b := B.ReadSubscribeOk(data);
    SubscribeOkDispatched(data);
    r := if b.Success? then Success(ASubscribeOk(b.value)) else Failure(b.error);
  }

  method ReadAnUpdate(data: Bytes) returns (r: Result<Message>)
    ensures r == ParseBody(SubscribeUpdate, data)
  {
    var b := B.ReadSubscribeUpdate(data);
    SubscribeUpdateDispatched(data);
    r := if b.Success? then Success(ASubscribeUpdate(b.value)) else Failure(b.error);
  }

  method ReadAFetch(data: Bytes) returns (r: Result<Message>)
    ensures r == ParseBody(Fetch, data)
  {
    var b := B.ReadFetch(data);
    FetchDispatched(data);
    r := if b.Success? then Success(AFetch(b.value)) else Failure(b.error);
  }

  method ReadAFetchOk(data: Bytes) returns (r: Result<Message>)
    ensures r == ParseBody(FetchOk, data)
  {
    var b := B.ReadFetchOk(data);
    FetchOkDispatched(data);
    r := if b.Success? then Success(AFetchOk(b.value)) else Failure(b.error);
  }

  class ControlMessageParser {
    const reader: ByteReader

    constructor (r: ByteReader)
      ensures reader == r
    {
      reader := r;
    }

    /** One message or one error; the reader is left exactly after the frame. */
    method Next() returns (r: Result<Message>)
      modifies reader
      ensures (r, reader.rest) == ParseFrame(old(reader.rest))
    {
      var code := reader.ReadVarint();
      if code.Failure? {
        return Failure(code.error);
      }
      ghost var after := reader.rest;
      var hi := reader.ReadByte();
      if hi.Failure? {
        return Failure(hi.error);
      }
      var lo := reader.ReadByte();
      if lo.Failure? {
        return Failure(lo.error);
      }
      var length := 256 * (hi.value as nat) + lo.value;
      LengthOfTwo(after, hi.value, lo.value);
      var data := reader.ReadFull(length);
      if data.Failure? {
        return Failure(data.error);
      }
      var kind := KindOf(code.value);
      if kind.Failure? {
        return Failure(kind.error);
      }
      r := ReadBody(kind.value, data.value);
    }

    /** The loop of the session's reader, with the messages it hands over. */
    method ReadControlStream() returns (ms: seq<Message>, e: WireError)
      modifies reader
      ensures (ms, e) == ReadAll(old(reader.rest))
    {
      ms := [];
      ghost var all := ReadAll(reader.rest);
      SoFarStart(reader.rest);
      while true
        invariant SoFar(all, ms, reader.rest)
        decreases |reader.rest|
      {
        ghost var before := reader.rest;
        var m := Next();
        SoFarStep(all, ms, before, m, reader.rest);
        if m.Failure? {
          return ms, m.error;
        }
        ms := ms + [m.value];
      }
    }
  }

  /** `ms` has been handed over and `reader` is left, of a stream that holds `all`. */
  ghost predicate SoFar(all: (seq<Message>, WireError), ms: seq<Message>, reader: Bytes) {
    Joined(all, ms, ReadAll(reader))
  }

  ghost predicate Joined(all: (seq<Message>, WireError), ms: seq<Message>, left: (seq<Message>, WireError)) {
    all == (ms + left.0, left.1)
  }

  lemma JoinNext(all: (seq<Message>, WireError), ms: seq<Message>, m: Message, left: (seq<Message>, WireError))
    requires Joined(all, ms, ([m] + left.0, left.1))
    ensures Joined(all, ms + [m], left)
  {
    assert ms + ([m] + left.0) == ms + [m] + left.0;
  }

  lemma SoFarStart(s: Bytes)
    ensures SoFar(ReadAll(s), [], s)
  {
    assert [] + ReadAll(s).0 == ReadAll(s).0;
  }

  lemma ReadAllStep(s: Bytes)
    ensures var (m, rest) := ParseFrame(s);
      ReadAll(s) == if m.Failure? then ([], m.error) else ([m.value] + ReadAll(rest).0, ReadAll(rest).1)
    ensures ParseFrame(s).0.Success? ==> |ParseFrame(s).1| < |s|
  {}

  /** One more call of the parser. */
  lemma SoFarStep(all: (seq<Message>, WireError), ms: seq<Message>, s: Bytes, m: Result<Message>, rest: Bytes)
    requires SoFar(all, ms, s) && (m, rest) == ParseFrame(s)
    ensures m.Failure? ==> all == (ms, m.error)
    ensures m.Success? ==> |rest| < |s| && SoFar(all, ms + [m.value], rest)
  {
    ReadAllStep(s);
    if m.Success? {
      JoinNext(all, ms, m.value, ReadAll(rest));
    } else {
      assert ms + [] == ms;
    }
  }

  lemma LengthOfTwo(s: Bytes, hi: Byte, lo: Byte)
    requires |s| >= 2 && s[0] == hi && s[1] == lo
    ensures Value(s, 2) == 256 * hi + lo && s[1..][1..] == s[2..]
  {
    assert Value(s, 1) == 256 * Value(s, 0) + hi;
  }
}
