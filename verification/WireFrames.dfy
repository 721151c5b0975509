/** The frames of every control message, with their type codes and the order of their fields written out. */
module WireFrames {
  import opened Varint
  import opened Fields
  import opened PlainBodies
  import opened SubscribeCodec
  import opened SubscribeOkCodec
  import opened FetchCodec
  import opened ControlMessages
  import opened Framing
  import opened WireFormat

  /** One byte of type, two of length, the body. */
  function InFrame(code: Byte, body: Bytes): Bytes
    requires |body| <= 0xffff
  {
    [code, |body| / 0x100, |body| % 0x100] + body
  }

  lemma Cut(body: Bytes, rest: Bytes)
    ensures (body + rest)[..|body|] == body && (body + rest)[|body|..] == rest
  {}

  /** The reader's answer to a frame, once type and length are known. */
  lemma CutRead(code: Byte, k: Kind, body: Bytes, rest: Bytes, r: Result<Message>)
    requires KindOf(code) == Success(k) && ParseBody(k, body) == r
    ensures ParseCut(code, |body|, body + rest) == (r, rest)
  {
    Cut(body, rest);
  }

  lemma CutUnknown(code: Byte, body: Bytes, rest: Bytes)
    requires KindOf(code) == Failure(InvalidMessageType)
    ensures ParseCut(code, |body|, body + rest) == (Failure(InvalidMessageType), rest)
  {
    Cut(body, rest);
  }

  lemma LengthBytes(n: nat)
    requires n <= 0xffff
    ensures BigEndian(n, 2) == [n / 0x100, n % 0x100]
  {
    BigEndianTwo(n);
  }

  lemma Plus(code: Byte, n: Bytes, hi: Byte, lo: Byte, body: Bytes, rest: Bytes)
    requires n == [hi, lo]
    ensures ([code, hi, lo] + body) + rest == [code] + (n + (body + rest))
    ensures [code] + (n + body) == [code, hi, lo] + body
  {}

  /** The frame and what follows it: the type, the length in two bytes, the rest. */
  lemma FrameShape(code: Byte, n: Bytes, body: Bytes, rest: Bytes)
    requires |body| <= 0xffff && n == BigEndian(|body|, 2)
    ensures InFrame(code, body) + rest == [code] + (n + (body + rest))
    ensures [code] + (n + body) == InFrame(code, body)
  {
    LengthBytes(|body|);
    Plus(code, n, |body| / 0x100, |body| % 0x100, body, rest);
  }

  lemma LengthRead(length: nat, after: Bytes)
    requires length <= 0xffff
    ensures var s := BigEndian(length, 2) + after; |s| >= 2 && Value(s, 2) == length && s[2..] == after
  {
    assert Unit(2) == 0x1_0000;
    ValueOfBigEndian(length, 2, after);
  }

  lemma CodeRead(code: Byte, after: Bytes)
    requires code < 0x40
    ensures ReadInt([code] + after) == Success((code, after))
  {
    OneByte(code);
    EncodeReadInt(code, after);
  }

  lemma HeadRead(s: Bytes, code: VarInt, after: Bytes, out: (Result<Message>, Bytes))
    requires ReadInt(s) == Success((code, after)) && |after| >= 2
    requires ParseCut(code, Value(after, 2), after[2..]) == out
    ensures ParseFrame(s) == out
  {}

  lemma FrameRead(code: Byte, body: Bytes, rest: Bytes, r: Result<Message>)
    requires code < 0x40 && |body| <= 0xffff && ParseCut(code, |body|, body + rest) == (r, rest)
    ensures ParseFrame(InFrame(code, body) + rest) == (r, rest)
  {
    var s, after := InFrame(code, body) + rest, BigEndian(|body|, 2) + (body + rest);
    FrameShape(code, BigEndian(|body|, 2), body, rest);
    CodeRead(code, after);
    LengthRead(|body|, body + rest);
    HeadRead(s, code, after, (r, rest));
  }

  /** A body whose parser answers `r`. */
  lemma BodyRead(code: Byte, k: Kind, body: Bytes, rest: Bytes, r: Result<Message>)
    requires code < 0x40 && |body| <= 0xffff && KindOf(code) == Success(k) && ParseBody(k, body) == r
    ensures ParseFrame(InFrame(code, body) + rest) == (r, rest)
  {
    CutRead(code, k, body, rest, r);
    FrameRead(code, body, rest, r);
  }

  /** A body that is cut short: end of input when nothing of it is there, a truncated input otherwise. */
  lemma ShortFrame(code: Byte, length: nat, part: Bytes)
    requires code < 0x40 && |part| < length <= 0xffff
    ensures ParseFrame([code] + ([length / 0x100, length % 0x100] + part)) ==
            (Failure(if part == [] then Eof else Truncated), [])
  {
    var after := BigEndian(length, 2) + part;
    LengthBytes(length);
    CodeRead(code, after);
    LengthRead(length, part);
    HeadRead([code] + after, code, after, (Failure(if part == [] then Eof else Truncated), []));
  }

  lemma FrameWritten(m: Message, code: Byte, body: Bytes)
    requires Sendable(m) && TypeOf(KindOfMessage(m)) == code < 0x40 && Body(m) == body && |body| <= 0xffff
    ensures Frame(m) == Success(InFrame(code, body))
  {
    OneByte(code);
    FrameShape(code, BigEndian(|body|, 2), body, []);
  }

  // ----- Lists of fields -----

  /** A message in its frame with type `code`: written so, and read back as the fields `read`. */
  ghost predicate OnWire(k: Kind, fields: seq<Field>, code: Byte, body: Bytes, read: seq<Field>, rest: Bytes) {
    |body| <= 0xffff ==>
      && Frame(PlainMessage(k, fields)) == Success(InFrame(code, body))
      && ParseFrame(InFrame(code, body) + rest) == (Success(PlainMessage(k, read)), rest)
  }

  lemma PlainRead(k: Kind, fields: seq<Field>, code: Byte, rest: Bytes)
    requires IsPlain(k) && Fits(fields, Layout(k)) && code < 0x40 && KindOf(code) == Success(k)
    requires |EncodeFields(fields)| <= 0xffff
    ensures ParseFrame(InFrame(code, EncodeFields(fields)) + rest) ==
            (Success(PlainMessage(k, ReadableFields(fields))), rest)
  {
    PlainBodyArrives(PlainMessage(k, fields));
    BodyRead(code, k, EncodeFields(fields), rest, Success(PlainMessage(k, ReadableFields(fields))));
  }

  lemma PlainOnWire(k: Kind, fields: seq<Field>, code: Byte, rest: Bytes)
    requires IsPlain(k) && Fits(fields, Layout(k)) && code < 0x40
    requires TypeOf(k) == code && KindOf(code) == Success(k)
    ensures OnWire(k, fields, code, EncodeFields(fields), ReadableFields(fields), rest)
  {
    var m, body := PlainMessage(k, fields), EncodeFields(fields);
    if |body| <= 0xffff {
      FrameWritten(m, code, body);
      PlainRead(k, fields, code, rest);
    }
  }

  lemma OneField(a: Field)
    ensures EncodeFields([a]) == EncodeField(a) && ReadableFields([a]) == [ReadableField(a)]
  {
    ConsFields(a, []);
    assert [a] + [] == [a];
  }

  lemma TwoFields(a: Field, b: Field)
    ensures EncodeFields([a, b]) == EncodeField(a) + EncodeField(b)
    ensures ReadableFields([a, b]) == [ReadableField(a), ReadableField(b)]
  {
    OneField(b);
    ConsFields(a, [b]);
    assert [a] + [b] == [a, b];
  }

  lemma ThreeFields(a: Field, b: Field, c: Field)
    ensures EncodeFields([a, b, c]) == EncodeField(a) + EncodeField(b) + EncodeField(c)
    ensures ReadableFields([a, b, c]) == [ReadableField(a), ReadableField(b), ReadableField(c)]
  {
    TwoFields(b, c);
    ConsFields(a, [b, c]);
    assert [a] + [b, c] == [a, b, c];
    Assoc(EncodeField(a), EncodeField(b), EncodeField(c));
  }

  lemma FourFields(a: Field, b: Field, c: Field, d: Field)
    ensures EncodeFields([a, b, c, d]) == EncodeField(a) + EncodeField(b) + EncodeField(c) + EncodeField(d)
    ensures ReadableFields([a, b, c, d]) == [ReadableField(a), ReadableField(b), ReadableField(c), ReadableField(d)]
  {
    ThreeFields(b, c, d);
    ConsFields(a, [b, c, d]);
    assert [a] + [b, c, d] == [a, b, c, d];
    Assoc(EncodeField(a), EncodeField(b) + EncodeField(c), EncodeField(d));
    Assoc(EncodeField(a), EncodeField(b), EncodeField(c));
  }

  // ----- Each message -----

  lemma NumberFrame(k: Kind, code: Byte, n: VarInt, rest: Bytes)
    requires (k, code) in {(MaxRequestId, 0x15), (RequestsBlocked, 0x1a), (Unsubscribe, 0x0a), (FetchCancel, 0x17),
                           (AnnounceOk, 0x07), (SubscribeAnnouncesOk, 0x12)}
    ensures OnWire(k, [Number(n)], code, Encode(n), [Number(n)], rest)
  {
    OneField(Number(n));
    PlainOnWire(k, [Number(n)], code, rest);
  }

  /** Request ID, error code, reason. */
  lemma ErrorFrame(k: Kind, code: Byte, id: VarInt, error: VarInt, reason: Blob, rest: Bytes)
    requires (k, code) in {(SubscribeError, 0x05), (FetchError, 0x19), (AnnounceError, 0x08),
                           (SubscribeAnnouncesError, 0x13)}
    ensures var fields := [Number(id), Number(error), Text(reason)];
      OnWire(k, fields, code, Encode(id) + Encode(error) + (Encode(|reason|) + reason), fields, rest)
  {
    ThreeFields(Number(id), Number(error), Text(reason));
    PlainOnWire(k, [Number(id), Number(error), Text(reason)], code, rest);
  }

  /** Request ID, status, number of streams, reason. */
  lemma SubscribeDoneFrame(id: VarInt, status: VarInt, streams: VarInt, reason: Blob, rest: Bytes)
    ensures var fields := [Number(id), Number(status), Number(streams), Text(reason)];
      OnWire(SubscribeDone, fields, 0x0b, Encode(id) + Encode(status) + Encode(streams) + (Encode(|reason|) + reason),
             fields, rest)
  {
    FourFields(Number(id), Number(status), Number(streams), Text(reason));
    PlainOnWire(SubscribeDone, [Number(id), Number(status), Number(streams), Text(reason)], 0x0b, rest);
  }

  lemma NamespaceFrame(k: Kind, code: Byte, names: Tuple, rest: Bytes)
    requires (k, code) in {(Unannounce, 0x09), (UnsubscribeAnnounces, 0x14)}
    ensures OnWire(k, [Names(names)], code, EncodeTuple(names), [Names(names)], rest)
  {
    OneField(Names(names));
    PlainOnWire(k, [Names(names)], code, rest);
  }

  /** Request ID, namespace or prefix, parameters. */
  lemma AnnounceFrame(k: Kind, code: Byte, id: VarInt, names: Tuple, ps: KvpList, rest: Bytes)
    requires (k, code) in {(Announce, 0x06), (SubscribeAnnounces, 0x11)}
    ensures OnWire(k, [Number(id), Names(names), Params(ps)], code, Encode(id) + EncodeTuple(names) + EncodeParams(ps),
                   [Number(id), Names(names), Params(CanonicalList(ps))], rest)
  {
    ThreeFields(Number(id), Names(names), Params(ps));
    PlainOnWire(k, [Number(id), Names(names), Params(ps)], code, rest);
  }

  lemma CancelWritten(fields: seq<Field>)
    requires |EncodeFields(fields)| <= 0xffff
    ensures Frame(PlainMessage(AnnounceCancel, fields)) == Success(InFrame(0x06, EncodeFields(fields)))
  {
    FrameWritten(PlainMessage(AnnounceCancel, fields), 0x06, EncodeFields(fields));
  }

  /** Namespace, error code, reason; written with type 0x06, read with type 0x0c. */
  lemma AnnounceCancelFrame(names: Tuple, error: VarInt, reason: Blob, rest: Bytes)
    ensures var m, body := PlainMessage(AnnounceCancel, [Names(names), Number(error), Text(reason)]),
              EncodeTuple(names) + Encode(error) + (Encode(|reason|) + reason);
      |body| <= 0xffff ==>
        && Frame(m) == Success(InFrame(0x06, body))
        && ParseFrame(InFrame(0x0c, body) + rest) == (Success(m), rest)
  {
    ThreeFields(Names(names), Number(error), Text(reason));
    if |EncodeTuple(names) + Encode(error) + EncodeBlob(reason)| <= 0xffff {
      CancelWritten([Names(names), Number(error), Text(reason)]);
      PlainRead(AnnounceCancel, [Names(names), Number(error), Text(reason)], 0x0c, rest);
    }
  }

  /** Number of versions, versions, parameters. */
  lemma ClientSetupFrame(versions: Versions, ps: KvpList, rest: Bytes)
    ensures OnWire(ClientSetup, [Numbers(versions), Params(ps)], 0x20,
                   (Encode(|versions|) + EncodeInts(versions)) + EncodeParams(ps),
                   [Numbers(versions), Params(CanonicalList(ps))], rest)
  {
    TwoFields(Numbers(versions), Params(ps));
    PlainOnWire(ClientSetup, [Numbers(versions), Params(ps)], 0x20, rest);
  }

  lemma ServerSetupFrame(version: VarInt, ps: KvpList, rest: Bytes)
    ensures OnWire(ServerSetup, [Number(version), Params(ps)], 0x21, Encode(version) + EncodeParams(ps),
                   [Number(version), Params(CanonicalList(ps))], rest)
  {
    TwoFields(Number(version), Params(ps));
    PlainOnWire(ServerSetup, [Number(version), Params(ps)], 0x21, rest);
  }

  lemma GoAwayFrame(uri: Blob, rest: Bytes)
    ensures OnWire(GoAway, [Text(uri)], 0x10, Encode(|uri|) + uri, [Text(uri)], rest)
  {
    OneField(Text(uri));
    PlainOnWire(GoAway, [Text(uri)], 0x10, rest);
  }

  /** Request ID, namespace, track name, parameters. */
  lemma TrackStatusRequestFrame(id: VarInt, names: Tuple, name: Blob, ps: KvpList, rest: Bytes)
    ensures OnWire(TrackStatusRequest, [Number(id), Names(names), Text(name), Params(ps)], 0x0d,
                   Encode(id) + EncodeTuple(names) + (Encode(|name|) + name) + EncodeParams(ps),
                   [Number(id), Names(names), Text(name), Params(CanonicalList(ps))], rest)
  {
    FourFields(Number(id), Names(names), Text(name), Params(ps));
    PlainOnWire(TrackStatusRequest, [Number(id), Names(names), Text(name), Params(ps)], 0x0d, rest);
  }

  /** Request ID, status, largest group and object, parameters. */
  lemma TrackStatusFrame(id: VarInt, status: VarInt, largest: Location, ps: KvpList, rest: Bytes)
    ensures OnWire(TrackStatus, [Number(id), Number(status), Place(largest), Params(ps)], 0x0e,
                   Encode(id) + Encode(status) + (Encode(largest.group) + Encode(largest.object_)) + EncodeParams(ps),
                   [Number(id), Number(status), Place(largest), Params(CanonicalList(ps))], rest)
  {
    FourFields(Number(id), Number(status), Place(largest), Params(ps));
    PlainOnWire(TrackStatus, [Number(id), Number(status), Place(largest), Params(ps)], 0x0e, rest);
  }

  /** The bodies with flags, laid out in `WireFormat`. */
  lemma FlaggedFrame(k: Kind, code: Byte, body: Bytes, rest: Bytes)
    requires (k, code) in {(SubscribeUpdate, 0x02), (Subscribe, 0x03), (SubscribeOk, 0x04), (Fetch, 0x16),
                           (FetchOk, 0x18)}
    requires |body| <= 0xffff
    ensures ParseFrame(InFrame(code, body) + rest) == (ParseBody(k, body), rest)
  {
    BodyRead(code, k, body, rest, ParseBody(k, body));
  }

  lemma SubscribeWritten(b: SubscribeMessage)
    requires |EncodeSubscribe(b)| <= 0xffff
    ensures Frame(ASubscribe(b)) == Success(InFrame(0x03, EncodeSubscribe(b)))
  {
    FrameWritten(ASubscribe(b), 0x03, EncodeSubscribe(b));
  }

  lemma SubscribeOkWritten(b: SubscribeOkMessage)
    requires Writable(b) && |EncodeSubscribeOk(b)| <= 0xffff
    ensures Frame(ASubscribeOk(b)) == Success(InFrame(0x04, EncodeSubscribeOk(b)))
  {
    FrameWritten(ASubscribeOk(b), 0x04, EncodeSubscribeOk(b));
  }

  lemma SubscribeUpdateWritten(b: SubscribeUpdateMessage)
    requires |EncodeSubscribeUpdate(b)| <= 0xffff
    ensures Frame(ASubscribeUpdate(b)) == Success(InFrame(0x02, EncodeSubscribeUpdate(b)))
  {
    FrameWritten(ASubscribeUpdate(b), 0x02, EncodeSubscribeUpdate(b));
  }

  lemma FetchWritten(b: FetchMessage)
    requires |EncodeFetch(b)| <= 0xffff
    ensures Frame(AFetch(b)) == Success(InFrame(0x16, EncodeFetch(b)))
  {
    FrameWritten(AFetch(b), 0x16, EncodeFetch(b));
  }

  lemma FetchOkWritten(b: FetchOkMessage)
    requires |EncodeFetchOk(b)| <= 0xffff
    ensures Frame(AFetchOk(b)) == Success(InFrame(0x18, EncodeFetchOk(b)))
  {
    FrameWritten(AFetchOk(b), 0x18, EncodeFetchOk(b));
  }

  lemma NoKind(code: Byte)
    requires code in {0x00, 0x01, 0x0f, 0x1b, 0x1c, 0x1d, 0x1e, 0x1f} || 0x22 <= code
    ensures KindOf(code) == Failure(InvalidMessageType)
  {}

  lemma UnknownRead(code: Byte, body: Bytes, rest: Bytes)
    requires code < 0x40 && |body| <= 0xffff && KindOf(code) == Failure(InvalidMessageType)
    ensures ParseFrame(InFrame(code, body) + rest) == (Failure(InvalidMessageType), rest)
  {
    CutUnknown(code, body, rest);
    FrameRead(code, body, rest, Failure(InvalidMessageType));
  }

  /** The codes no message of the parser has; the reader stays in step. */
  lemma UnknownFrame(code: Byte, body: Bytes, rest: Bytes)
    requires |body| <= 0xffff && code < 0x40
    requires code in {0x00, 0x01, 0x0f, 0x1b, 0x1c, 0x1d, 0x1e, 0x1f} || 0x22 <= code
    ensures ParseFrame(InFrame(code, body) + rest) == (Failure(InvalidMessageType), rest)
  {
    NoKind(code);
    UnknownRead(code, body, rest);
  }
}
