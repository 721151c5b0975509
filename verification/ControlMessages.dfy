/** Every control message the parser knows: its type code, its body, its frame, and what a peer reads. */
module ControlMessages {
  import opened Varint
  import opened Fields
  import opened PlainBodies
  import opened SubscribeCodec
  import opened SubscribeOkCodec
  import opened FetchCodec

  // ----- Kinds and type codes -----

  datatype Kind =
    | ClientSetup | ServerSetup | GoAway | MaxRequestId | RequestsBlocked
    | Subscribe | SubscribeOk | SubscribeError | SubscribeUpdate | Unsubscribe | SubscribeDone
    | Fetch | FetchOk | FetchError | FetchCancel
    | TrackStatusRequest | TrackStatus
    | Announce | AnnounceOk | AnnounceError | Unannounce | AnnounceCancel
    | SubscribeAnnounces | SubscribeAnnouncesOk | SubscribeAnnouncesError | UnsubscribeAnnounces

  /** The code a writer puts in front; ANNOUNCE_CANCEL is written with the code of ANNOUNCE. */
  function TypeOf(k: Kind): VarInt {
    match k
    case ClientSetup => 0x20
    case ServerSetup => 0x21
    case GoAway => 0x10
    case MaxRequestId => 0x15
    case RequestsBlocked => 0x1a
    case Subscribe => 0x03
    case SubscribeOk => 0x04
    case SubscribeError => 0x05
    case SubscribeUpdate => 0x02
    case Unsubscribe => 0x0a
    case SubscribeDone => 0x0b
    case Fetch => 0x16
    case FetchOk => 0x18
    case FetchError => 0x19
    case FetchCancel => 0x17
    case TrackStatusRequest => 0x0d
    case TrackStatus => 0x0e
    case Announce => 0x06
    case AnnounceOk => 0x07
    case AnnounceError => 0x08
    case Unannounce => 0x09
    case AnnounceCancel => 0x06
    case SubscribeAnnounces => 0x11
    case SubscribeAnnouncesOk => 0x12
    case SubscribeAnnouncesError => 0x13
    case UnsubscribeAnnounces => 0x14
  }

  /** The reader's dispatch. */
  function KindOf(code: VarInt): Result<Kind> {
    match code
    case 0x20 => Success(ClientSetup)
    case 0x21 => Success(ServerSetup)
    case 0x10 => Success(GoAway)
    case 0x15 => Success(MaxRequestId)
    case 0x1a => Success(RequestsBlocked)
    case 0x03 => Success(Subscribe)
    case 0x04 => Success(SubscribeOk)
    case 0x05 => Success(SubscribeError)
    case 0x02 => Success(SubscribeUpdate)
    case 0x0a => Success(Unsubscribe)
    case 0x0b => Success(SubscribeDone)
    case 0x16 => Success(Fetch)
    case 0x18 => Success(FetchOk)
    case 0x19 => Success(FetchError)
    case 0x17 => Success(FetchCancel)
    case 0x0d => Success(TrackStatusRequest)
    case 0x0e => Success(TrackStatus)
    case 0x06 => Success(Announce)
    case 0x07 => Success(AnnounceOk)
    case 0x08 => Success(AnnounceError)
    case 0x09 => Success(Unannounce)
    case 0x0c => Success(AnnounceCancel)
    case 0x11 => Success(SubscribeAnnounces)
    case 0x12 => Success(SubscribeAnnouncesOk)
    case 0x13 => Success(SubscribeAnnouncesError)
    case 0x14 => Success(UnsubscribeAnnounces)
    case _ => Failure(InvalidMessageType)
  }

  /** The writer's code is read back as the same kind, ANNOUNCE_CANCEL apart. */
  lemma CodeArrives(k: Kind)
    ensures KindOf(TypeOf(k)) == Success(if k.AnnounceCancel? then Announce else k)
  {}

  // ----- Messages -----

  predicate IsPlain(k: Kind) {
    !k.Subscribe? && !k.SubscribeOk? && !k.SubscribeUpdate? && !k.Fetch? && !k.FetchOk?
  }

  function Layout(k: Kind): seq<Shape>
    requires IsPlain(k)
  {
    match k
    case ClientSetup => [SomeNumbers, SomeParams]
    case ServerSetup => [ANumber, SomeParams]
    case GoAway => [AText]
    case MaxRequestId => [ANumber]
    case RequestsBlocked => [ANumber]
    case SubscribeError => [ANumber, ANumber, AText]
    case Unsubscribe => [ANumber]
    case SubscribeDone => [ANumber, ANumber, ANumber, AText]
    case FetchError => [ANumber, ANumber, AText]
    case FetchCancel => [ANumber]
    case TrackStatusRequest => [ANumber, SomeNames, AText, SomeParams]
    case TrackStatus => [ANumber, ANumber, APlace, SomeParams]
    case Announce => [ANumber, SomeNames, SomeParams]
    case AnnounceOk => [ANumber]
    case AnnounceError => [ANumber, ANumber, AText]
    case Unannounce => [SomeNames]
    case AnnounceCancel => [SomeNames, ANumber, AText]
    case SubscribeAnnounces => [ANumber, SomeNames, SomeParams]
    case SubscribeAnnouncesOk => [ANumber]
    case SubscribeAnnouncesError => [ANumber, ANumber, AText]
    case UnsubscribeAnnounces => [SomeNames]
  }

  datatype Message =
    | PlainMessage(plain: Kind, fields: seq<Field>)
    | ASubscribe(subscribe: SubscribeMessage)
    | ASubscribeOk(subscribeOk: SubscribeOkMessage)
    | ASubscribeUpdate(update: SubscribeUpdateMessage)
    | AFetch(fetch: FetchMessage)
    | AFetchOk(fetchOk: FetchOkMessage)

  predicate WellFormed(m: Message) {
    m.PlainMessage? ==> IsPlain(m.plain) && Fits(m.fields, Layout(m.plain))
  }

  function KindOfMessage(m: Message): Kind {
    match m
    case PlainMessage(k, _) => k
    case ASubscribe(_) => Subscribe
    case ASubscribeOk(_) => SubscribeOk
    case ASubscribeUpdate(_) => SubscribeUpdate
    case AFetch(_) => Fetch
    case AFetchOk(_) => FetchOk
  }

  /** A duration that is negative or too large cannot be written. */
  predicate Sendable(m: Message) {
    m.ASubscribeOk? ==> Writable(m.subscribeOk)
  }

  function Body(m: Message): Bytes
    requires Sendable(m)
  {
    match m
    case PlainMessage(_, fields) => EncodeFields(fields)
    case ASubscribe(b) => EncodeSubscribe(b)
    case ASubscribeOk(b) => EncodeSubscribeOk(b)
    case ASubscribeUpdate(b) => EncodeSubscribeUpdate(b)
    case AFetch(b) => EncodeFetch(b)
    case AFetchOk(b) => EncodeFetchOk(b)
  }

  // ----- What arrives -----

  /** Whether the reader refuses the values of a message. */
  function Refusal(m: Message): Result<()> {
    match m
    case PlainMessage(_, _) => Success(())
    case ASubscribe(b) =>
      if b.groupOrder > 2 then Failure(InvalidGroupOrder)
      else if b.forward > 1 then Failure(InvalidForwardFlag) else Success(())
    case ASubscribeOk(b) => if b.groupOrder > 2 then Failure(InvalidGroupOrder) else Success(())
    case ASubscribeUpdate(b) => if b.forward > 2 then Failure(InvalidForwardFlag) else Success(())
    case AFetch(b) =>
      if b.groupOrder > 2 then Failure(InvalidGroupOrder)
      else if b.fetchType < STANDALONE || b.fetchType > ABSOLUTE_JOINING then Failure(InvalidFetchType) else Success(())
    case AFetchOk(b) => if b.groupOrder > 2 then Failure(InvalidGroupOrder) else Success(())
  }

  /** The message as its reader sees it. */
  function Readable(m: Message): Message
    requires Sendable(m)
  {
    match m
    case PlainMessage(k, fields) => PlainMessage(k, ReadableFields(fields))
    case ASubscribe(b) => ASubscribe(ReadableSubscribe(b))
    case ASubscribeOk(b) => ASubscribeOk(ReadableSubscribeOk(b))
    case ASubscribeUpdate(b) => ASubscribeUpdate(b.(params := CanonicalList(b.params)))
    case AFetch(b) => AFetch(ReadableFetch(b))
    case AFetchOk(b) => AFetchOk(b.(params := CanonicalList(b.params)))
  }

  function Understood(m: Message): Result<Message>
    requires Sendable(m)
  {
    var _ :- Refusal(m);
    Success(Readable(m))
  }

  // ----- Reading bodies -----

  /** A parsed message fits into the bytes it came from, and a second reading neither refuses nor changes it;
      in SUBSCRIBE_OK this takes a duration of zero. */
  predicate Kept(m: Message, s: Bytes) {
    (m.ASubscribeOk? ==> m.subscribeOk.expires == 0) ==>
      Sendable(m) && |Body(m)| <= |s| && Understood(m) == Success(m)
  }

  predicate Good(k: Kind, r: Result<Message>, s: Bytes) {
    r.Success? ==> WellFormed(r.value) && KindOfMessage(r.value) == k && Kept(r.value, s)
  }

  function FromSubscribe(p: Parsed<SubscribeMessage>): Result<Message> {
    if p.Failure? then Failure(p.error) else Success(ASubscribe(p.value.0))
  }

  lemma SubscribeKept(p: Parsed<SubscribeMessage>, s: Bytes)
    requires p.Success? ==> var b := p.value.0;
      |EncodeSubscribe(b)| <= |s| && ReadableSubscribe(b) == b && b.groupOrder <= 2 && b.forward <= 1
    ensures Good(Subscribe, FromSubscribe(p), s)
  {}

  function FromSubscribeOk(p: Parsed<SubscribeOkMessage>): Result<Message> {
    if p.Failure? then Failure(p.error) else Success(ASubscribeOk(p.value.0))
  }

  lemma SubscribeOkKept(p: Parsed<SubscribeOkMessage>, s: Bytes)
    requires p.Success? ==> var b := p.value.0;
      && b.groupOrder <= 2 && (b.contentExists || b.largest == ORIGIN) && CanonicalList(b.params) == b.params
      && (b.expires == 0 ==> |EncodeSubscribeOk(b)| <= |s|)
    ensures Good(SubscribeOk, FromSubscribeOk(p), s)
  {
    if p.Success? && p.value.0.expires == 0 {
      UndatedOk(p.value.0);
      OkKept(p.value.0, s);
    }
  }

  lemma UndatedOk(b: SubscribeOkMessage)
    requires b.expires == 0 && (b.contentExists || b.largest == ORIGIN) && CanonicalList(b.params) == b.params
    ensures Writable(b) && ReadableSubscribeOk(b) == b
  {}

  lemma OkKept(b: SubscribeOkMessage, s: Bytes)
    requires b.groupOrder <= 2 && Writable(b) && |EncodeSubscribeOk(b)| <= |s| && ReadableSubscribeOk(b) == b
    ensures Kept(ASubscribeOk(b), s)
  {}

  function FromSubscribeUpdate(p: Parsed<SubscribeUpdateMessage>): Result<Message> {
    if p.Failure? then Failure(p.error) else Success(ASubscribeUpdate(p.value.0))
  }

  lemma SubscribeUpdateKept(p: Parsed<SubscribeUpdateMessage>, s: Bytes)
    requires p.Success? ==> var b := p.value.0;
      |EncodeSubscribeUpdate(b)| <= |s| && CanonicalList(b.params) == b.params && b.forward <= 2
    ensures Good(SubscribeUpdate, FromSubscribeUpdate(p), s)
  {}

  function FromFetch(p: Parsed<FetchMessage>): Result<Message> {
    if p.Failure? then Failure(p.error) else Success(AFetch(p.value.0))
  }

  lemma FetchKept(p: Parsed<FetchMessage>, s: Bytes)
    requires p.Success? ==> var b := p.value.0;
      && |EncodeFetch(b)| <= |s| && ReadableFetch(b) == b && b.groupOrder <= 2
      && STANDALONE <= b.fetchType <= ABSOLUTE_JOINING
    ensures Good(Fetch, FromFetch(p), s)
  {}

  function FromFetchOk(p: Parsed<FetchOkMessage>): Result<Message> {
    if p.Failure? then Failure(p.error) else Success(AFetchOk(p.value.0))
  }

  lemma FetchOkKept(p: Parsed<FetchOkMessage>, s: Bytes)
    requires p.Success? ==> var b := p.value.0;
      |EncodeFetchOk(b)| <= |s| && CanonicalList(b.params) == b.params && b.groupOrder <= 2
    ensures Good(FetchOk, FromFetchOk(p), s)
  {}

  function FromPlain(k: Kind, p: Parsed<seq<Field>>): Result<Message> {
    if p.Failure? then Failure(p.error) else Success(PlainMessage(k, p.value.0))
  }

  lemma PlainKept(k: Kind, s: Bytes)
    requires IsPlain(k)
    ensures Good(k, FromPlain(k, ParseFields(Layout(k), s)), s)
  {
    FieldsFits(Layout(k), s);
  }

  function ReadFlat(k: Kind, s: Bytes): Result<Message>
    requires IsPlain(k)
  {
    FromPlain(k, ParseFields(Layout(k), s))
  }

  function ReadSubscribe(s: Bytes): Result<Message> {
    FromSubscribe(ParseSubscribe(s))
  }

  function ReadSubscribeOk(s: Bytes): Result<Message> {
    FromSubscribeOk(ParseSubscribeOk(s))
  }

  function ReadSubscribeUpdate(s: Bytes): Result<Message> {
    FromSubscribeUpdate(ParseSubscribeUpdate(s))
  }

  function ReadFetch(s: Bytes): Result<Message> {
    FromFetch(ParseFetch(s))
  }

  function ReadFetchOk(s: Bytes): Result<Message> {
    FromFetchOk(ParseFetchOk(s))
  }

  /** Bytes after the last field are ignored. */
  function ParseBody(k: Kind, s: Bytes): Result<Message> {
    if k.FetchOk? then ReadFetchOk(s)
    else if k.Fetch? then ReadFetch(s)
    else if k.SubscribeUpdate? then ReadSubscribeUpdate(s)
    else if k.SubscribeOk? then ReadSubscribeOk(s)
    else if k.Subscribe? then ReadSubscribe(s)
    else ReadFlat(k, s)
  }

  lemma SubscribeGood(s: Bytes)
    ensures Good(Subscribe, ReadSubscribe(s), s)
  {
    SubscribeFits(s);
    SubscribeKept(ParseSubscribe(s), s);
  }

  lemma SubscribeOkGood(s: Bytes)
    ensures Good(SubscribeOk, ReadSubscribeOk(s), s)
  {
    SubscribeOkFits(s);
    SubscribeOkKept(ParseSubscribeOk(s), s);
  }

  lemma SubscribeUpdateGood(s: Bytes)
    ensures Good(SubscribeUpdate, ReadSubscribeUpdate(s), s)
  {
    SubscribeUpdateFits(s);
    SubscribeUpdateKept(ParseSubscribeUpdate(s), s);
  }

  lemma FetchGood(s: Bytes)
    ensures Good(Fetch, ReadFetch(s), s)
  {
    FetchFits(s);
    FetchKept(ParseFetch(s), s);
  }

  lemma FetchOkGood(s: Bytes)
    ensures Good(FetchOk, ReadFetchOk(s), s)
  {
    FetchOkFits(s);
    FetchOkKept(ParseFetchOk(s), s);
  }

  /** Every body that is accepted, whatever its bytes, is a message of its kind that fits into those bytes when it
      is written again and then reads back as itself. */
  lemma BodyKept(k: Kind, s: Bytes)
    ensures Good(k, ParseBody(k, s), s)
  {
    match k
    case Subscribe => SubscribeGood(s);
    case SubscribeOk => SubscribeOkGood(s);
    case SubscribeUpdate => SubscribeUpdateGood(s);
    case Fetch => FetchGood(s);
    case FetchOk => FetchOkGood(s);
    case _ => PlainKept(k, s);
  }

  lemma SubscribeRead(b: SubscribeMessage, p: Parsed<SubscribeMessage>)
    requires p == if b.groupOrder > 2 then Failure(InvalidGroupOrder)
      else if b.forward > 1 then Failure(InvalidForwardFlag) else Success((ReadableSubscribe(b), []))
    ensures FromSubscribe(p) == Understood(ASubscribe(b))
  {}

  lemma SubscribeDispatched(s: Bytes)
    ensures ParseBody(Subscribe, s) == ReadSubscribe(s)
  {}

  lemma SubscribeBodyArrives(m: Message)
    requires m.ASubscribe?
    ensures ParseBody(KindOfMessage(m), Body(m)) == Understood(m)
  {
    var s := EncodeSubscribe(m.subscribe);
    SubscribeArrivesAlone(m.subscribe);
    SubscribeDispatched(s);
    SubscribeRead(m.subscribe, ParseSubscribe(s));
  }

  lemma SubscribeOkRead(b: SubscribeOkMessage, p: Parsed<SubscribeOkMessage>)
    requires Writable(b)
    requires p == if b.groupOrder > 2 then Failure(InvalidGroupOrder) else Success((ReadableSubscribeOk(b), []))
    ensures FromSubscribeOk(p) == Understood(ASubscribeOk(b))
  {}

  lemma SubscribeOkDispatched(s: Bytes)
    ensures ParseBody(SubscribeOk, s) == ReadSubscribeOk(s)
  {}

  lemma SubscribeOkBodyArrives(m: Message)
    requires m.ASubscribeOk? && Sendable(m)
    ensures ParseBody(KindOfMessage(m), Body(m)) == Understood(m)
  {
    var s := EncodeSubscribeOk(m.subscribeOk);
    SubscribeOkArrivesAlone(m.subscribeOk);
    SubscribeOkDispatched(s);
    SubscribeOkRead(m.subscribeOk, ParseSubscribeOk(s));
  }

  lemma SubscribeUpdateRead(b: SubscribeUpdateMessage, p: Parsed<SubscribeUpdateMessage>)
    requires p == if b.forward > 2 then Failure(InvalidForwardFlag)
      else Success((b.(params := CanonicalList(b.params)), []))
    ensures FromSubscribeUpdate(p) == Understood(ASubscribeUpdate(b))
  {}

  lemma SubscribeUpdateDispatched(s: Bytes)
    ensures ParseBody(SubscribeUpdate, s) == ReadSubscribeUpdate(s)
  {}

  lemma SubscribeUpdateBodyArrives(m: Message)
    requires m.ASubscribeUpdate?
    ensures ParseBody(KindOfMessage(m), Body(m)) == Understood(m)
  {
    var s := EncodeSubscribeUpdate(m.update);
    SubscribeUpdateArrivesAlone(m.update);
    SubscribeUpdateDispatched(s);
    SubscribeUpdateRead(m.update, ParseSubscribeUpdate(s));
  }

  lemma FetchRead(b: FetchMessage, p: Parsed<FetchMessage>)
    requires p == if b.groupOrder > 2 then Failure(InvalidGroupOrder)
      else if b.fetchType < STANDALONE || b.fetchType > ABSOLUTE_JOINING then Failure(InvalidFetchType)
      else Success((ReadableFetch(b), []))
    ensures FromFetch(p) == Understood(AFetch(b))
  {}

  lemma FetchDispatched(s: Bytes)
    ensures ParseBody(Fetch, s) == ReadFetch(s)
  {}

  lemma FetchBodyArrives(m: Message)
    requires m.AFetch?
    ensures ParseBody(KindOfMessage(m), Body(m)) == Understood(m)
  {
    var s := EncodeFetch(m.fetch);
    FetchArrivesAlone(m.fetch);
    FetchDispatched(s);
    FetchRead(m.fetch, ParseFetch(s));
  }

  lemma FetchOkRead(b: FetchOkMessage, p: Parsed<FetchOkMessage>)
    requires p == if b.groupOrder > 2 then Failure(InvalidGroupOrder)
      else Success((b.(params := CanonicalList(b.params)), []))
    ensures FromFetchOk(p) == Understood(AFetchOk(b))
  {}

  lemma FetchOkDispatched(s: Bytes)
    ensures ParseBody(FetchOk, s) == ReadFetchOk(s)
  {}

  lemma FetchOkBodyArrives(m: Message)
    requires m.AFetchOk?
    ensures ParseBody(KindOfMessage(m), Body(m)) == Understood(m)
  {
    var s := EncodeFetchOk(m.fetchOk);
    FetchOkArrivesAlone(m.fetchOk);
    FetchOkDispatched(s);
    FetchOkRead(m.fetchOk, ParseFetchOk(s));
  }

  lemma PlainBodyArrives(m: Message)
    requires m.PlainMessage? && WellFormed(m)
    ensures ParseBody(KindOfMessage(m), Body(m)) == Understood(m)
  {
    assert EncodeFields(m.fields) + [] == EncodeFields(m.fields);
    FieldsRoundTrip(m.fields, Layout(m.plain), []);
  }

  /** A body is read, under its own kind, as exactly what `Understood` says. */
  lemma BodyArrives(m: Message)
    requires WellFormed(m) && Sendable(m)
    ensures ParseBody(KindOfMessage(m), Body(m)) == Understood(m)
  {
    match m
    case PlainMessage(_, _) => PlainBodyArrives(m);
    case ASubscribe(_) => SubscribeBodyArrives(m);
    case ASubscribeOk(_) => SubscribeOkBodyArrives(m);
    case ASubscribeUpdate(_) => SubscribeUpdateBodyArrives(m);
    case AFetch(_) => FetchBodyArrives(m);
    case AFetchOk(_) => FetchOkBodyArrives(m);
  }
}
