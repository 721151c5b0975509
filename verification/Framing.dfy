/** Control message frames: a type, a 16-bit length patched into a placeholder, and the body.  The stream
    theorems say what a reader gets for any list of messages that was written. */
module Framing {
  import opened Varint
  import opened Fields
  import opened PlainBodies
  import opened SubscribeCodec
  import opened SubscribeOkCodec
  import opened FetchCodec
  import opened ControlMessages

  const MAX_BODY := 0xffff

  function Frame(m: Message): Result<Bytes> {
    if !Sendable(m) then Failure(Unwritable)
    else if |Body(m)| > MAX_BODY then Failure(TooLarge)
    else Success(Encode(TypeOf(KindOfMessage(m))) + (BigEndian(|Body(m)|, 2) + Body(m)))
  }

  /** The body, once the type and the length are known; the reader stays in step even if it is refused. */
  function ParseCut(code: VarInt, length: nat, s: Bytes): (Result<Message>, Bytes) {
    if |s| < length then (Failure(if s == [] then Eof else Truncated), [])
    else
      var kind := KindOf(code);
      (if kind.Failure? then Failure(kind.error) else ParseBody(kind.value, s[..length]), s[length..])
  }

  /** One call of the parser: a message or an error, and what is left in the reader. */
  function ParseFrame(s: Bytes): (Result<Message>, Bytes) {
    var code := ReadInt(s);
    if code.Failure? then (Failure(code.error), [])
    else if |code.value.1| < 2 then (Failure(Eof), [])
    else ParseCut(code.value.0, Value(code.value.1, 2), code.value.1[2..])
  }

  /** What the peer's parser returns for a message that was framed. */
  function Arrives(m: Message): Result<Message>
    requires Sendable(m)
  {
    if KindOfMessage(m).AnnounceCancel? then ParseBody(Announce, Body(m)) else Understood(m)
  }

  lemma CutArrives(m: Message, rest: Bytes)
    requires WellFormed(m) && Sendable(m)
    ensures ParseCut(TypeOf(KindOfMessage(m)), |Body(m)|, Body(m) + rest) == (Arrives(m), rest)
  {
    var k, body := KindOfMessage(m), Body(m);
    CodeArrives(k);
    BodyArrives(m);
    assert (body + rest)[..|body|] == body && (body + rest)[|body|..] == rest;
  }

  /** A frame is read as exactly one message or error, and nothing after it is touched. */
  lemma FrameArrives(m: Message, rest: Bytes)
    requires WellFormed(m) && Frame(m).Success?
    ensures ParseFrame(Frame(m).value + rest) == (Arrives(m), rest)
  {
    var code, n, body := Encode(TypeOf(KindOfMessage(m))), BigEndian(|Body(m)|, 2), Body(m);
    Assoc(code, n + body, rest);
    Assoc(n, body, rest);
    EncodeReadInt(TypeOf(KindOfMessage(m)), n + (body + rest));
    assert Unit(2) == 0x1_0000;
    ValueOfBigEndian(|body|, 2, body + rest);
    assert (n + (body + rest))[2..] == body + rest;
    CutArrives(m, rest);
  }

  // ----- Streams -----

  /** The reading loop: messages up to the first error. */
  function ReadAll(s: Bytes): (r: (seq<Message>, WireError))
    decreases |s|
  {
    var (m, rest) := ParseFrame(s);
    if m.Failure? then ([], m.error)
    else
      var (ms, e) := ReadAll(rest);
      ([m.value] + ms, e)
  }

  predicate Framed(ms: seq<Message>) {
    forall i :: 0 <= i < |ms| ==> WellFormed(ms[i]) && Frame(ms[i]).Success?
  }

  function Frames(ms: seq<Message>): Bytes
    requires Framed(ms)
  {
    if ms == [] then [] else Frame(ms[0]).value + Frames(ms[1..])
  }

  /** What each call of the parser returns. */
  function Outcomes(ms: seq<Message>): (os: seq<Result<Message>>)
    requires Framed(ms)
    ensures |os| == |ms| && forall i :: 0 <= i < |ms| ==> os[i] == Arrives(ms[i])
  {
    seq(|ms|, i requires 0 <= i < |ms| => Arrives(ms[i]))
  }

  /** The messages of `outcomes` up to the first error, and if there is none what comes `after`. */
  function Received(outcomes: seq<Result<Message>>, after: (seq<Message>, WireError)): (seq<Message>, WireError) {
    if outcomes == [] then after
    else if outcomes[0].Failure? then ([], outcomes[0].error)
    else
      var (rest, e) := Received(outcomes[1..], after);
      ([outcomes[0].value] + rest, e)
  }

  /** Any framed messages, followed by anything: the reader gets what each message arrives as, in order, stops
      at the first one that is refused, and otherwise goes on with what follows. */
  lemma {:induction false} StreamArrives(ms: seq<Message>, tail: Bytes)
    requires Framed(ms)
    ensures ReadAll(Frames(ms) + tail) == Received(Outcomes(ms), ReadAll(tail))
  {
    if ms == [] {
      assert [] + tail == tail;
    } else {
      Assoc(Frame(ms[0]).value, Frames(ms[1..]), tail);
      FrameArrives(ms[0], Frames(ms[1..]) + tail);
      StreamArrives(ms[1..], tail);
      assert Outcomes(ms)[1..] == Outcomes(ms[1..]);
    }
  }

  // ----- When nothing is lost -----

  /** Each parameter sets only the value that goes with its key. */
  predicate Clean(ps: seq<KeyValue>) {
    forall i :: 0 <= i < |ps| ==> if ps[i].key % 2 == 1 then ps[i].number == 0 else ps[i].bytes == []
  }

  lemma {:induction false} CleanIff(ps: seq<KeyValue>)
    ensures CanonicalList(ps) == ps <==> Clean(ps)
  {
    if ps != [] {
      CleanIff(ps[1..]);
      assert ps == [ps[0]] + ps[1..];
      assert CanonicalList(ps) == ps <==> Canonical(ps[0]) == ps[0] && CanonicalList(ps[1..]) == ps[1..] by {
        assert CanonicalList(ps)[0] == Canonical(ps[0]) && CanonicalList(ps)[1..] == CanonicalList(ps[1..]);
      }
      assert Clean(ps) <==> Canonical(ps[0]) == ps[0] && Clean(ps[1..]) by {
        if Clean(ps[1..]) && Canonical(ps[0]) == ps[0] {
          forall i | 0 <= i < |ps|
            ensures if ps[i].key % 2 == 1 then ps[i].number == 0 else ps[i].bytes == []
          {
            assert i > 0 ==> ps[i] == ps[1..][i - 1];
          }
        }
        if Clean(ps) {
          assert forall i :: 0 <= i < |ps| - 1 ==> ps[1..][i] == ps[i + 1];
        }
      }
    }
  }

  predicate FaithfulSubscribe(b: SubscribeMessage) {
    && b.groupOrder <= 2 && b.forward <= 1 && 1 <= b.filter <= 4 && Clean(b.params)
    && (b.filter >= 3 || b.start == Location(0, 0)) && (b.filter == 4 || b.endGroup == 0)
  }

  predicate FaithfulSubscribeOk(b: SubscribeOkMessage) {
    b.groupOrder <= 2 && b.expires == 0 && (b.contentExists || b.largest == Location(0, 0)) && Clean(b.params)
  }

  predicate FaithfulFetch(b: FetchMessage) {
    && b.groupOrder <= 2 && 1 <= b.fetchType <= 3 && Clean(b.params)
    && if b.fetchType == 1 then b.joiningId == 0 && b.joiningStart == 0
       else b.track == [] && b.name == [] && b.start == Location(0, 0) && b.end == Location(0, 0)
  }

  /** The messages a writer may send and find unchanged at the other end. */
  predicate Faithful(m: Message) {
    match m
    case PlainMessage(k, fields) =>
      !k.AnnounceCancel? && forall i :: 0 <= i < |fields| && fields[i].Params? ==> Clean(fields[i].params)
    case ASubscribe(b) => FaithfulSubscribe(b)
    case ASubscribeOk(b) => FaithfulSubscribeOk(b)
    case ASubscribeUpdate(b) => b.forward <= 2 && Clean(b.params)
    case AFetch(b) => FaithfulFetch(b)
    case AFetchOk(b) => b.groupOrder <= 2 && Clean(b.params)
  }

  lemma {:induction false} FieldsFaithfulIff(fields: seq<Field>)
    ensures ReadableFields(fields) == fields <==>
            forall i :: 0 <= i < |fields| && fields[i].Params? ==> Clean(fields[i].params)
  {
    if fields != [] {
      var f, rest := fields[0], fields[1..];
      FieldsFaithfulIff(rest);
      if f.Params? {
        CleanIff(f.params);
      }
      assert fields == [f] + rest;
      assert ReadableFields(fields)[0] == ReadableField(f) && ReadableFields(fields)[1..] == ReadableFields(rest);
      assert forall i :: 0 < i < |fields| ==> fields[i] == rest[i - 1];
      assert forall i :: 0 <= i < |rest| ==> rest[i] == fields[i + 1];
    }
  }

  lemma AnnouncedInstead(m: Message)
    requires m.PlainMessage? && m.plain.AnnounceCancel?
    ensures Arrives(m) != Success(m)
  {
    BodyKept(Announce, Body(m));
  }

  lemma PlainFaithfulIff(m: Message)
    requires m.PlainMessage? && WellFormed(m)
    ensures Arrives(m) == Success(m) <==> Faithful(m)
  {
    if m.plain.AnnounceCancel? {
      AnnouncedInstead(m);
    } else {
      FieldsFaithfulIff(m.fields);
    }
  }

  lemma SubscribeFaithfulIff(m: Message)
    requires m.ASubscribe?
    ensures Understood(m) == Success(m) <==> Faithful(m)
  {
    CleanIff(m.subscribe.params);
  }

  lemma SubscribeOkFaithfulIff(m: Message)
    requires m.ASubscribeOk? && Sendable(m)
    ensures Understood(m) == Success(m) <==> Faithful(m)
  {
    CleanIff(m.subscribeOk.params);
    ExpiresSurvivesIff(m.subscribeOk.expires);
  }

  lemma SubscribeUpdateFaithfulIff(m: Message)
    requires m.ASubscribeUpdate?
    ensures Understood(m) == Success(m) <==> Faithful(m)
  {
    CleanIff(m.update.params);
  }

  lemma FetchFaithfulIff(m: Message)
    requires m.AFetch?
    ensures Understood(m) == Success(m) <==> Faithful(m)
  {
    CleanIff(m.fetch.params);
  }

  lemma FetchOkFaithfulIff(m: Message)
    requires m.AFetchOk?
    ensures Understood(m) == Success(m) <==> Faithful(m)
  {
    CleanIff(m.fetchOk.params);
  }

  /** A message arrives unchanged exactly when it is faithful; ANNOUNCE_CANCEL never does. */
  lemma ArrivesUnchangedIff(m: Message)
    requires WellFormed(m) && Sendable(m)
    ensures Arrives(m) == Success(m) <==> Faithful(m)
  {
    if m.PlainMessage? {
      PlainFaithfulIff(m);
    } else {
      assert Arrives(m) == Understood(m);
      if m.ASubscribe? {
        SubscribeFaithfulIff(m);
      } else if m.ASubscribeOk? {
        SubscribeOkFaithfulIff(m);
      } else if m.ASubscribeUpdate? {
        SubscribeUpdateFaithfulIff(m);
      } else if m.AFetch? {
        FetchFaithfulIff(m);
      } else {
        FetchOkFaithfulIff(m);
      }
    }
  }

  predicate AllFaithful(ms: seq<Message>) {
    forall i :: 0 <= i < |ms| ==> Faithful(ms[i])
  }

  lemma {:induction false} ReceivedWhole(os: seq<Result<Message>>, ms: seq<Message>, after: (seq<Message>, WireError))
    requires |os| == |ms| && forall i :: 0 <= i < |ms| ==> os[i] == Success(ms[i])
    ensures Received(os, after) == (ms + after.0, after.1)
  {
    if ms == [] {
      assert ms + after.0 == after.0;
    } else {
      ReceivedWhole(os[1..], ms[1..], after);
      assert ms + after.0 == [ms[0]] + (ms[1..] + after.0);
    }
  }

  lemma {:induction false} WholeReceived(os: seq<Result<Message>>, ms: seq<Message>)
    requires |os| == |ms| && Received(os, ([], Eof)) == (ms, Eof)
    ensures forall i :: 0 <= i < |ms| ==> os[i] == Success(ms[i])
  {
    if ms != [] {
      assert ms == [os[0].value] + Received(os[1..], ([], Eof)).0;
      assert ms[1..] == Received(os[1..], ([], Eof)).0;
      WholeReceived(os[1..], ms[1..]);
      forall i | 0 <= i < |ms|
        ensures os[i] == Success(ms[i])
      {
        if i > 0 {
          assert os[i] == os[1..][i - 1] && ms[i] == ms[1..][i - 1];
        }
      }
    }
  }

  /** The framed stream round trip: reading back a list of framed messages gives that list, in order, and a
      clean end of input, exactly when every one of them is faithful. */
  lemma StreamRoundTripIff(ms: seq<Message>)
    requires Framed(ms)
    ensures ReadAll(Frames(ms)) == (ms, Eof) <==> AllFaithful(ms)
  {
    StreamArrives(ms, []);
    assert Frames(ms) + [] == Frames(ms);
    EmptyInput();
    var os := Outcomes(ms);
    forall i | 0 <= i < |ms|
      ensures os[i] == Success(ms[i]) <==> Faithful(ms[i])
    {
      ArrivesUnchangedIff(ms[i]);
    }
    if AllFaithful(ms) {
      ReceivedWhole(os, ms, ([], Eof));
      assert ms + [] == ms;
    }
    if Received(os, ([], Eof)) == (ms, Eof) {
      WholeReceived(os, ms);
    }
  }

  lemma EmptyInput()
    ensures ReadAll([]) == ([], Eof)
  {}

  // ----- Sending a received message on -----

  lemma CutOf(s: Bytes) returns (k: Kind, body: Bytes)
    requires ParseFrame(s).0.Success?
    ensures ParseFrame(s).0 == ParseBody(k, body)
    ensures |body| <= MAX_BODY && 3 + |body| + |ParseFrame(s).1| <= |s|
  {
    var code := ReadInt(s).value;
    var n, rest := Value(code.1, 2), code.1[2..];
    ValueBound(code.1, 2);
    assert Unit(2) == 0x1_0000;
    k, body := KindOf(code.0).value, rest[..n];
  }

  /** Whether a received message can be sent on as it is. */
  predicate Relayable(m: Message) {
    !KindOfMessage(m).AnnounceCancel? && (m.ASubscribeOk? ==> m.subscribeOk.expires == 0)
  }

  /** Whatever was received, non-minimal integers and trailing bytes included, can be framed again: it is no
      longer than before and is read as the same message.  Only ANNOUNCE_CANCEL and SUBSCRIBE_OK with a
      duration cannot. */
  lemma ReframingStableIff(s: Bytes, rest: Bytes)
    requires ParseFrame(s).0.Success?
    ensures var m := ParseFrame(s).0.value;
      && (Relayable(m) ==> Frame(m).Success? && |Frame(m).value| + |ParseFrame(s).1| <= |s|)
      && (Relayable(m) <==> Frame(m).Success? && ParseFrame(Frame(m).value + rest) == (Success(m), rest))
  {
    var m := ParseFrame(s).0.value;
    var k, body := CutOf(s);
    BodyKept(k, body);
    if Relayable(m) {
      KeptReframes(m, body, rest);
    } else if Frame(m).Success? {
      FrameArrives(m, rest);
      ArrivesUnchangedIff(m);
    }
  }

  lemma KeptFrame(m: Message, body: Bytes)
    requires Kept(m, body) && |body| <= MAX_BODY && Relayable(m)
    ensures Frame(m).Success? && |Frame(m).value| <= 3 + |body|
  {
    ShortCode(KindOfMessage(m));
  }

  lemma KeptArrives(m: Message, body: Bytes)
    requires Kept(m, body) && Relayable(m)
    ensures Sendable(m) && Arrives(m) == Success(m)
  {}

  lemma KeptReframes(m: Message, body: Bytes, rest: Bytes)
    requires WellFormed(m) && Kept(m, body) && |body| <= MAX_BODY
    requires Relayable(m)
    ensures Frame(m).Success? && |Frame(m).value| <= 3 + |body|
    ensures ParseFrame(Frame(m).value + rest) == (Success(m), rest)
  {
    KeptFrame(m, body);
    KeptArrives(m, body);
    FrameArrives(m, rest);
  }

  lemma ShortCode(k: Kind)
    ensures Len(TypeOf(k)) == 1
  {}
}
