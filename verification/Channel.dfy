/** The control channel of the session model and the bytes of the wire: framing, parsing and everything the
    codec drops or normalises on the way leave what the session logic looks at as it was. */
module Channel {
  import opened Varint
  import opened Fields
  import opened PlainBodies
  import opened SubscribeCodec
  import opened SubscribeOkCodec
  import opened FetchCodec
  import opened ControlMessages
  import opened Framing
  import S = SessionTypes
  import M = SessionModel

  // ----- What a session sees of a message -----

  const MAX_REQUEST_ID_KEY := 0x02

  /** The limit in a setup message: the first parameter with its key, or 0. */
  function MaxRequestIdOf(ps: seq<KeyValue>): VarInt {
    if ps == [] then 0
    else if ps[0].key == MAX_REQUEST_ID_KEY then ps[0].number
    else MaxRequestIdOf(ps[1..])
  }

  predicate NamespaceOk(names: Tuple) {
    1 <= |names| <= 32
  }

  predicate StartsWithNumber(k: Kind) {
    IsPlain(k) && Layout(k) != [] && Layout(k)[0] == ANumber
  }

  function FirstNumber(m: Message): VarInt
    requires m.PlainMessage? && WellFormed(m) && StartsWithNumber(m.plain)
  {
    assert ShapeOf(m.fields[0]) == ANumber;
    m.fields[0].n
  }

  /** Messages that carry a request ID or a limit first, and what they mean to a session. */
  function OfNumber(k: Kind, n: VarInt): S.Option<S.Msg> {
    match k
    case MaxRequestId => S.Some(S.MaxRequestId(n))
    case RequestsBlocked => S.Some(S.RequestsBlocked(n))
    case SubscribeError => S.Some(S.Error(S.Subscribe, n))
    case Unsubscribe => S.Some(S.Unsubscribe(n))
    case FetchError => S.Some(S.Error(S.Fetch, n))
    case FetchCancel => S.Some(S.FetchCancel(n))
    case AnnounceOk => S.Some(S.Ok(S.Announce, n))
    case AnnounceError => S.Some(S.Error(S.Announce, n))
    case SubscribeAnnounces => S.Some(S.Request(S.SubscribeAnnounces, n, true))
    case SubscribeAnnouncesOk => S.Some(S.Ok(S.SubscribeAnnounces, n))
    case SubscribeAnnouncesError => S.Some(S.Error(S.SubscribeAnnounces, n))
    case _ => S.None
  }

  function OfPlain(m: Message): S.Option<S.Msg>
    requires m.PlainMessage? && WellFormed(m)
  {
    match m.plain
    case ClientSetup =>
      assert ShapeOf(m.fields[1]) == SomeParams;
      S.Some(S.ClientSetup(MaxRequestIdOf(m.fields[1].params)))
    case ServerSetup =>
      assert ShapeOf(m.fields[1]) == SomeParams;
      S.Some(S.ServerSetup(MaxRequestIdOf(m.fields[1].params)))
    case Announce =>
      assert ShapeOf(m.fields[1]) == SomeNames;
      S.Some(S.Request(S.Announce, FirstNumber(m), NamespaceOk(m.fields[1].names)))
    case SubscribeDone =>
      assert ShapeOf(m.fields[2]) == ANumber;
      S.Some(S.SubscribeDone(FirstNumber(m), m.fields[2].n))
    case _ => if StartsWithNumber(m.plain) then OfNumber(m.plain, FirstNumber(m)) else S.None
  }

  /** The session's view; `None` for messages outside the session model.  A joining FETCH names no track. */
  function Meaning(m: Message): S.Option<S.Msg>
    requires WellFormed(m)
  {
    match m
    case PlainMessage(_, _) => OfPlain(m)
    case ASubscribe(b) => S.Some(S.Request(S.Subscribe, b.id, NamespaceOk(b.track)))
    case ASubscribeOk(b) => S.Some(S.Ok(S.Subscribe, b.id))
    case ASubscribeUpdate(b) => S.Some(S.SubscribeUpdate(b.id))
    case AFetch(b) => S.Some(S.Request(S.Fetch, b.id, b.fetchType == STANDALONE && NamespaceOk(b.track)))
    case AFetchOk(b) => S.Some(S.Ok(S.Fetch, b.id))
  }

  // ----- Reading keeps the meaning -----

  /** Odd keys lose their number and even keys their bytes, so the limit is still there. */
  lemma {:induction false} LimitSurvives(ps: seq<KeyValue>)
    ensures MaxRequestIdOf(CanonicalList(ps)) == MaxRequestIdOf(ps)
  {
    if ps != [] {
      LimitSurvives(ps[1..]);
      assert CanonicalList(ps)[1..] == CanonicalList(ps[1..]);
    }
  }

  lemma {:induction false} FieldSurvives(fields: seq<Field>, i: nat)
    requires i < |fields|
    ensures ReadableFields(fields)[i] == ReadableField(fields[i])
  {
    if i > 0 {
      FieldSurvives(fields[1..], i - 1);
      assert ReadableFields(fields)[i] == ReadableFields(fields[1..])[i - 1];
    }
  }

  lemma PlainMeaningSurvives(m: Message)
    requires m.PlainMessage? && WellFormed(m)
    ensures var n := PlainMessage(m.plain, ReadableFields(m.fields)); WellFormed(n) && OfPlain(n) == OfPlain(m)
  {
    forall i | 0 <= i < |m.fields|
      ensures ReadableFields(m.fields)[i] == ReadableField(m.fields[i])
    {
      FieldSurvives(m.fields, i);
    }
    if m.plain.ClientSetup? || m.plain.ServerSetup? {
      assert ShapeOf(m.fields[1]) == SomeParams;
      LimitSurvives(m.fields[1].params);
    }
  }

  /** Whatever reading a message drops or normalises, its meaning to the session stays. */
  lemma MeaningSurvives(m: Message)
    requires WellFormed(m) && Sendable(m)
    ensures WellFormed(Readable(m)) && Meaning(Readable(m)) == Meaning(m)
  {
    if m.PlainMessage? {
      PlainMeaningSurvives(m);
    }
  }

  // ----- The channel -----

  /** The reader accepts the message: its flags are in range, and it is not ANNOUNCE_CANCEL. */
  predicate Accepted(m: Message) {
    Refusal(m).Success? && !KindOfMessage(m).AnnounceCancel?
  }

  /** The FIFO channel of the session model is what the wire provides: the peer's reader hands over as many
      messages as were written, in order, each with the meaning it was written with. */
  lemma ChannelDelivers(ms: seq<Message>)
    requires Framed(ms) && forall i :: 0 <= i < |ms| ==> Accepted(ms[i])
    ensures var r := ReadAll(Frames(ms));
      && r.1 == Eof && |r.0| == |ms|
      && forall i :: 0 <= i < |ms| ==> WellFormed(r.0[i]) && Meaning(r.0[i]) == Meaning(ms[i])
  {
    var rs := seq(|ms|, i requires 0 <= i < |ms| => Readable(ms[i]));
    forall i | 0 <= i < |ms|
      ensures Outcomes(ms)[i] == Success(rs[i]) && WellFormed(rs[i]) && Meaning(rs[i]) == Meaning(ms[i])
    {
      AcceptedArrives(ms[i]);
      MeaningSurvives(ms[i]);
    }
    StreamArrives(ms, []);
    assert Frames(ms) + [] == Frames(ms);
    EmptyInput();
    ReceivedWhole(Outcomes(ms), rs, ([], Eof));
    assert rs + [] == rs;
  }

  lemma AcceptedArrives(m: Message)
    requires Sendable(m) && Accepted(m)
    ensures Arrives(m) == Success(Readable(m))
  {}

  // ----- A joining FETCH -----

  lemma JoiningNamesNothing(b: FetchMessage)
    requires STANDALONE < b.fetchType <= ABSOLUTE_JOINING && b.groupOrder <= 2
    ensures Arrives(AFetch(b)) == Success(AFetch(ReadableFetch(b))) && ReadableFetch(b).track == []
    ensures Meaning(AFetch(ReadableFetch(b))) == S.Some(S.Request(S.Fetch, b.id, false))
  {}

  /** Every joining FETCH that is written well is read, without a namespace, and ends the session that reads it. */
  lemma JoiningFetchEnds(b: FetchMessage, s: M.SessionState, c: M.Choice)
    requires STANDALONE < b.fetchType <= ABSOLUTE_JOINING && b.groupOrder <= 2 && s.ready
    ensures Arrives(AFetch(b)).Success? && WellFormed(Arrives(AFetch(b)).value)
    ensures var m := Meaning(Arrives(AFetch(b)).value);
      m.Some? && M.Receive(s, m.value, c) == M.Fail(s)
  {
    JoiningNamesNothing(b);
    JoiningReceived(s, b.id, c);
  }

  lemma JoiningReceived(s: M.SessionState, id: nat, c: M.Choice)
    requires s.ready
    ensures M.Receive(s, S.Request(S.Fetch, id, false), c) == M.Fail(s)
  {}
}
