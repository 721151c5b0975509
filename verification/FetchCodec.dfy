/** The bodies of SUBSCRIBE_UPDATE, FETCH and FETCH_OK. */
module FetchCodec {
  import opened Varint
  import opened Fields

  // ----- SUBSCRIBE_UPDATE -----

  datatype SubscribeUpdateMessage = SubscribeUpdateMessage(
    id: VarInt, start: Location, endGroup: VarInt, priority: Byte, forward: Byte, params: KvpList)

  function EncodeUpdateTail(m: SubscribeUpdateMessage): Bytes {
    [m.priority, m.forward] + EncodeParams(m.params)
  }

  function EncodeSubscribeUpdate(m: SubscribeUpdateMessage): Bytes {
    Encode(m.id) + (EncodeLocation(m.start) + (Encode(m.endGroup) + EncodeUpdateTail(m)))
  }

  /** The reader accepts a forward byte of 2 here, unlike in SUBSCRIBE. */
  function ParseUpdateTail(m: SubscribeUpdateMessage, s: Bytes): (r: Parsed<SubscribeUpdateMessage>)
    ensures r.Success? ==> |r.value.1| < |s|
  {
    if |s| < 2 then Failure(LengthMismatch)
    else if s[1] > 2 then Failure(InvalidForwardFlag)
    else
      var (params, rest) :- ParseParams(s[2..]);
      Success((m.(priority := s[0], forward := s[1], params := params), rest))
  }

  lemma UpdateTailFits(m: SubscribeUpdateMessage, s: Bytes)
    ensures var r := ParseUpdateTail(m, s);
      r.Success? ==>
        var n := r.value.0;
        && |EncodeUpdateTail(n)| + |r.value.1| <= |s| && CanonicalList(n.params) == n.params && n.forward <= 2
        && n.id == m.id && n.start == m.start && n.endGroup == m.endGroup
  {
    if |s| >= 2 {
      ParamsFits(s[2..]);
    }
  }

  const NEW_UPDATE := SubscribeUpdateMessage(0, ORIGIN, 0, 0, 0, [])

  function ParseSubscribeUpdate(s: Bytes): (r: Parsed<SubscribeUpdateMessage>)
    ensures r.Success? ==> |r.value.1| < |s|
  {
    var (id, rest) :- Parse(s);
    var (start, rest2) :- ParseLocation(rest);
    var (endGroup, rest3) :- Parse(rest2);
    ParseUpdateTail(NEW_UPDATE.(id := id, start := start, endGroup := endGroup), rest3)
  }

  lemma SubscribeUpdateFits(s: Bytes)
    ensures var r := ParseSubscribeUpdate(s);
      r.Success? ==>
        && |EncodeSubscribeUpdate(r.value.0)| + |r.value.1| <= |s|
        && CanonicalList(r.value.0.params) == r.value.0.params && r.value.0.forward <= 2
  {
    ParseFits(s);
    var id := Parse(s);
    if id.Success? {
      LocationFits(id.value.1);
      var start := ParseLocation(id.value.1);
      if start.Success? {
        ParseFits(start.value.1);
        var end := Parse(start.value.1);
        if end.Success? {
          UpdateTailFits(NEW_UPDATE.(id := id.value.0, start := start.value.0, endGroup := end.value.0), end.value.1);
        }
      }
    }
  }

  lemma UpdateTailRoundTrip(m: SubscribeUpdateMessage, n: SubscribeUpdateMessage, rest: Bytes)
    requires n.id == m.id && n.start == m.start && n.endGroup == m.endGroup
    ensures ParseUpdateTail(n, EncodeUpdateTail(m) + rest) ==
      if m.forward > 2 then Failure(InvalidForwardFlag)
      else Success((m.(params := CanonicalList(m.params)), rest))
  {
    TwoBytes(m.priority, m.forward, EncodeParams(m.params), rest);
    ParamsRoundTrip(m.params, rest);
  }

  lemma SubscribeUpdateArrives(m: SubscribeUpdateMessage, rest: Bytes)
    ensures ParseSubscribeUpdate(EncodeSubscribeUpdate(m) + rest) ==
      if m.forward > 2 then Failure(InvalidForwardFlag)
      else Success((m.(params := CanonicalList(m.params)), rest))
  {
    var id, start, end, tail := Encode(m.id), EncodeLocation(m.start), Encode(m.endGroup), EncodeUpdateTail(m);
    Assoc(id, start + (end + tail), rest);
    Assoc(start, end + tail, rest);
    Assoc(end, tail, rest);
    EncodeParse(m.id, start + (end + (tail + rest)));
    LocationRoundTrip(m.start, end + (tail + rest));
    EncodeParse(m.endGroup, tail + rest);
    UpdateTailRoundTrip(m, NEW_UPDATE.(id := m.id, start := m.start, endGroup := m.endGroup), rest);
  }

  lemma SubscribeUpdateArrivesAlone(m: SubscribeUpdateMessage)
    ensures ParseSubscribeUpdate(EncodeSubscribeUpdate(m)) == if m.forward > 2 then Failure(InvalidForwardFlag)
      else Success((m.(params := CanonicalList(m.params)), []))
  {
    assert EncodeSubscribeUpdate(m) + [] == EncodeSubscribeUpdate(m);
    SubscribeUpdateArrives(m, []);
  }

  // ----- FETCH -----

  const STANDALONE := 1
  const ABSOLUTE_JOINING := 3

  /** A standalone fetch names a track and a range; a joining one names a subscription. */
  datatype FetchMessage = FetchMessage(
    id: VarInt, priority: Byte, groupOrder: Byte, fetchType: VarInt,
    track: Tuple, name: Blob, start: Location, end: Location,
    joiningId: VarInt, joiningStart: VarInt, params: KvpList)

  function EncodeStandalone(m: FetchMessage): Bytes {
    EncodeTuple(m.track) + (EncodeBlob(m.name) + (EncodeLocation(m.start) + EncodeLocation(m.end)))
  }

  /** The same layout as a location: two integers. */
  function Joining(m: FetchMessage): Location {
    Location(m.joiningId, m.joiningStart)
  }

  function EncodeTarget(m: FetchMessage): Bytes {
    if m.fetchType == STANDALONE then EncodeStandalone(m) else EncodeLocation(Joining(m))
  }

  function EncodeTyped(m: FetchMessage): Bytes {
    Encode(m.fetchType) + (EncodeTarget(m) + EncodeParams(m.params))
  }

  function EncodeFetchFlags(m: FetchMessage): Bytes {
    [m.priority, m.groupOrder] + EncodeTyped(m)
  }

  function EncodeFetch(m: FetchMessage): Bytes {
    Encode(m.id) + EncodeFetchFlags(m)
  }

  /** The fields the fetch type makes use of. */
  function ReadableFetch(m: FetchMessage): FetchMessage {
    var n := m.(params := CanonicalList(m.params));
    if m.fetchType == STANDALONE then n.(joiningId := 0, joiningStart := 0)
    else n.(track := [], name := [], start := ORIGIN, end := ORIGIN)
  }

  const NEW_FETCH := FetchMessage(0, 0, 0, 0, [], [], ORIGIN, ORIGIN, 0, 0, [])

  /** A message of which only the fields before the fetch type's are set. */
  predicate Fresh(m: FetchMessage) {
    m == NEW_FETCH.(id := m.id, priority := m.priority, groupOrder := m.groupOrder, fetchType := m.fetchType)
  }

  ghost predicate SameHeader(m: FetchMessage, n: FetchMessage) {
    n.id == m.id && n.priority == m.priority && n.groupOrder == m.groupOrder && n.fetchType == m.fetchType
    && n.params == m.params
  }

  function ParseFullName(s: Bytes): (r: Parsed<(Tuple, Blob)>)
    ensures r.Success? ==> |r.value.1| < |s|
  {
    var (track, rest) :- ParseTuple(s);
    var (name, rest2) :- ParseBlob(rest, Truncated);
    Success(((track, name), rest2))
  }

  lemma FullNameFits(s: Bytes)
    ensures var r := ParseFullName(s);
      r.Success? ==> |EncodeTuple(r.value.0.0)| + |EncodeBlob(r.value.0.1)| + |r.value.1| <= |s|
  {
    TupleFits(s);
    var track := ParseTuple(s);
    if track.Success? {
      BlobFits(track.value.1, Truncated);
    }
  }

  function ParseTwo(s: Bytes): (r: Parsed<(Location, Location)>)
    ensures r.Success? ==> |r.value.1| < |s|
  {
    var (start, rest) :- ParseLocation(s);
    var (end, rest2) :- ParseLocation(rest);
    Success(((start, end), rest2))
  }

  lemma TwoFits(s: Bytes)
    ensures var r := ParseTwo(s);
      r.Success? ==> |EncodeLocation(r.value.0.0)| + |EncodeLocation(r.value.0.1)| + |r.value.1| <= |s|
  {
    LocationFits(s);
    var start := ParseLocation(s);
    if start.Success? {
      LocationFits(start.value.1);
    }
  }

  function ParseStandalone(m: FetchMessage, s: Bytes): (r: Parsed<FetchMessage>)
    requires Fresh(m) && m.fetchType == STANDALONE
    ensures r.Success? ==> |r.value.1| < |s|
  {
    var (names, rest) :- ParseFullName(s);
    var (range, rest2) :- ParseTwo(rest);
    Success((m.(track := names.0, name := names.1, start := range.0, end := range.1), rest2))
  }

  lemma StandaloneFits(m: FetchMessage, s: Bytes)
    requires Fresh(m) && m.fetchType == STANDALONE
    ensures var r := ParseStandalone(m, s);
      r.Success? ==>
        && |EncodeTarget(r.value.0)| + |r.value.1| <= |s| && SameHeader(m, r.value.0)
        && ReadableFetch(r.value.0) == r.value.0
  {
    FullNameFits(s);
    var names := ParseFullName(s);
    if names.Success? {
      TwoFits(names.value.1);
    }
  }

  function ParseTarget(m: FetchMessage, s: Bytes): (r: Parsed<FetchMessage>)
    requires Fresh(m)
    ensures r.Success? ==> |r.value.1| < |s|
    ensures r.Success? ==> r.value.0.fetchType == m.fetchType
  {
    if m.fetchType == STANDALONE then ParseStandalone(m, s)
    else
      var (joining, rest) :- ParseLocation(s);
      Success((m.(joiningId := joining.group, joiningStart := joining.object_), rest))
  }

  lemma TargetFits(m: FetchMessage, s: Bytes)
    requires Fresh(m)
    ensures var r := ParseTarget(m, s);
      r.Success? ==>
        && |EncodeTarget(r.value.0)| + |r.value.1| <= |s| && SameHeader(m, r.value.0)
        && ReadableFetch(r.value.0) == r.value.0
  {
    if m.fetchType == STANDALONE {
      StandaloneFits(m, s);
    } else {
      LocationFits(s);
    }
  }

  function ParseTyped(m: FetchMessage, s: Bytes): (r: Parsed<FetchMessage>)
    requires Fresh(m)
    ensures r.Success? ==> |r.value.1| < |s|
  {
    var (fetchType, rest) :- Parse(s);
    if fetchType < STANDALONE || fetchType > ABSOLUTE_JOINING then Failure(InvalidFetchType)
    else
      var (n, rest2) :- ParseTarget(m.(fetchType := fetchType), rest);
      var (params, rest3) :- ParseParams(rest2);
      Success((n.(params := params), rest3))
  }

  lemma TypedFits(m: FetchMessage, s: Bytes)
    requires Fresh(m)
    ensures var r := ParseTyped(m, s);
      r.Success? ==>
        var n := r.value.0;
        && |EncodeTyped(n)| + |r.value.1| <= |s| && ReadableFetch(n) == n
        && n.id == m.id && n.priority == m.priority && n.groupOrder == m.groupOrder
        && STANDALONE <= n.fetchType <= ABSOLUTE_JOINING
  {
    ParseFits(s);
    var fetchType := Parse(s);
    if fetchType.Success? && STANDALONE <= fetchType.value.0 <= ABSOLUTE_JOINING {
      TargetFits(m.(fetchType := fetchType.value.0), fetchType.value.1);
      var n := ParseTarget(m.(fetchType := fetchType.value.0), fetchType.value.1);
      if n.Success? {
        ParamsFits(n.value.1);
      }
    }
  }

  function ParseFetchFlags(m: FetchMessage, s: Bytes): (r: Parsed<FetchMessage>)
    requires Fresh(m)
    ensures r.Success? ==> |r.value.1| < |s|
  {
    if |s| < 2 then Failure(LengthMismatch)
    else if s[1] > 2 then Failure(InvalidGroupOrder)
    else ParseTyped(m.(priority := s[0], groupOrder := s[1]), s[2..])
  }

  lemma FetchFlagsFits(m: FetchMessage, s: Bytes)
    requires Fresh(m)
    ensures var r := ParseFetchFlags(m, s);
      r.Success? ==>
        && |EncodeFetchFlags(r.value.0)| + |r.value.1| <= |s| && ReadableFetch(r.value.0) == r.value.0
        && r.value.0.id == m.id && r.value.0.groupOrder <= 2 && STANDALONE <= r.value.0.fetchType <= ABSOLUTE_JOINING
  {
    if |s| >= 2 {
      TypedFits(m.(priority := s[0], groupOrder := s[1]), s[2..]);
    }
  }

  function ParseFetch(s: Bytes): (r: Parsed<FetchMessage>)
    ensures r.Success? ==> |r.value.1| < |s|
  {
    var (id, rest) :- Parse(s);
    ParseFetchFlags(NEW_FETCH.(id := id), rest)
  }

  /** Whatever FETCH is accepted takes no more bytes when written again, and a second reading would neither refuse
      nor change it. */
  lemma FetchFits(s: Bytes)
    ensures var r := ParseFetch(s);
      r.Success? ==>
        && |EncodeFetch(r.value.0)| + |r.value.1| <= |s| && ReadableFetch(r.value.0) == r.value.0
        && r.value.0.groupOrder <= 2 && STANDALONE <= r.value.0.fetchType <= ABSOLUTE_JOINING
  {
    ParseFits(s);
    var id := Parse(s);
    if id.Success? {
      FetchFlagsFits(NEW_FETCH.(id := id.value.0), id.value.1);
    }
  }

  lemma TargetRoundTrip(m: FetchMessage, rest: Bytes)
    ensures ParseTarget(NEW_FETCH.(id := m.id, priority := m.priority, groupOrder := m.groupOrder,
                                   fetchType := m.fetchType),
                        EncodeTarget(m) + rest) ==
            Success((ReadableFetch(m).(params := []), rest))
  {
    if m.fetchType == STANDALONE {
      var track, name, start, end :=
        EncodeTuple(m.track), EncodeBlob(m.name), EncodeLocation(m.start), EncodeLocation(m.end);
      Assoc(track, name + (start + end), rest);
      Assoc(name, start + end, rest);
      Assoc(start, end, rest);
      TupleRoundTrip(m.track, name + (start + (end + rest)));
      BlobRoundTrip(m.name, start + (end + rest), Truncated);
      LocationRoundTrip(m.start, end + rest);
      LocationRoundTrip(m.end, rest);
    } else {
      LocationRoundTrip(Joining(m), rest);
    }
  }

  /** Fetch type, target and parameters, each read by its own parser. */
  lemma TypedFields(m: FetchMessage, typ: Bytes, target: Bytes, params: Bytes, rest: Bytes,
                    fetchType: VarInt, n: FetchMessage, ps: KvpList)
    requires Fresh(m) && Parse(typ + (target + (params + rest))) == Success((fetchType, target + (params + rest)))
    requires ParseTarget(m.(fetchType := fetchType), target + (params + rest)) == Success((n, params + rest))
    requires ParseParams(params + rest) == Success((ps, rest))
    ensures ParseTyped(m, (typ + (target + params)) + rest) ==
      if fetchType < STANDALONE || fetchType > ABSOLUTE_JOINING then Failure(InvalidFetchType)
      else Success((n.(params := ps), rest))
  {
    Assoc(typ, target + params, rest);
    Assoc(target, params, rest);
  }

  lemma TypedRoundTrip(m: FetchMessage, rest: Bytes)
    ensures ParseTyped(NEW_FETCH.(id := m.id, priority := m.priority, groupOrder := m.groupOrder),
                       EncodeTyped(m) + rest) ==
      if m.fetchType < STANDALONE || m.fetchType > ABSOLUTE_JOINING then Failure(InvalidFetchType)
      else Success((ReadableFetch(m), rest))
  {
    var typ, target, params := Encode(m.fetchType), EncodeTarget(m), EncodeParams(m.params);
    EncodeParse(m.fetchType, target + (params + rest));
    TargetRoundTrip(m, params + rest);
    ParamsRoundTrip(m.params, rest);
    TypedFields(NEW_FETCH.(id := m.id, priority := m.priority, groupOrder := m.groupOrder), typ, target, params, rest,
                m.fetchType, ReadableFetch(m).(params := []), CanonicalList(m.params));
  }

  lemma FetchFlagsRoundTrip(m: FetchMessage, rest: Bytes)
    ensures ParseFetchFlags(NEW_FETCH.(id := m.id), EncodeFetchFlags(m) + rest) ==
      if m.groupOrder > 2 then Failure(InvalidGroupOrder)
      else if m.fetchType < STANDALONE || m.fetchType > ABSOLUTE_JOINING then Failure(InvalidFetchType)
      else Success((ReadableFetch(m), rest))
  {
    TwoBytes(m.priority, m.groupOrder, EncodeTyped(m), rest);
    TypedRoundTrip(m, rest);
  }

  /** What the peer reads for any FETCH that is written. */
  lemma FetchArrives(m: FetchMessage, rest: Bytes)
    ensures ParseFetch(EncodeFetch(m) + rest) ==
      if m.groupOrder > 2 then Failure(InvalidGroupOrder)
      else if m.fetchType < STANDALONE || m.fetchType > ABSOLUTE_JOINING then Failure(InvalidFetchType)
      else Success((ReadableFetch(m), rest))
  {
    Assoc(Encode(m.id), EncodeFetchFlags(m), rest);
    EncodeParse(m.id, EncodeFetchFlags(m) + rest);
    FetchFlagsRoundTrip(m, rest);
  }

  lemma FetchArrivesAlone(m: FetchMessage)
    ensures ParseFetch(EncodeFetch(m)) == if m.groupOrder > 2 then Failure(InvalidGroupOrder)
      else if m.fetchType < STANDALONE || m.fetchType > ABSOLUTE_JOINING then Failure(InvalidFetchType)
      else Success((ReadableFetch(m), []))
  {
    assert EncodeFetch(m) + [] == EncodeFetch(m);
    FetchArrives(m, []);
  }

  // ----- FETCH_OK -----

  datatype FetchOkMessage = FetchOkMessage(
    id: VarInt, groupOrder: Byte, endOfTrack: Byte, end: Location, params: KvpList)

  function EncodeFetchOkTail(m: FetchOkMessage): Bytes {
    [m.groupOrder, m.endOfTrack] + (EncodeLocation(m.end) + EncodeParams(m.params))
  }

  function EncodeFetchOk(m: FetchOkMessage): Bytes {
    Encode(m.id) + EncodeFetchOkTail(m)
  }

  function ParseFetchOkTail(id: VarInt, s: Bytes): (r: Parsed<FetchOkMessage>)
    ensures r.Success? ==> |r.value.1| < |s|
  {
    if |s| < 2 then Failure(LengthMismatch)
    else if s[0] > 2 then Failure(InvalidGroupOrder)
    else
      var (end, rest) :- ParseLocation(s[2..]);
      var (params, rest2) :- ParseParams(rest);
      Success((FetchOkMessage(id, s[0], s[1], end, params), rest2))
  }

  lemma FetchOkTailFits(id: VarInt, s: Bytes)
    ensures var r := ParseFetchOkTail(id, s);
      r.Success? ==>
        && |EncodeFetchOkTail(r.value.0)| + |r.value.1| <= |s| && r.value.0.id == id
        && CanonicalList(r.value.0.params) == r.value.0.params && r.value.0.groupOrder <= 2
  {
    if |s| >= 2 {
      LocationFits(s[2..]);
      var end := ParseLocation(s[2..]);
      if end.Success? {
        ParamsFits(end.value.1);
      }
    }
  }

  function ParseFetchOk(s: Bytes): (r: Parsed<FetchOkMessage>)
    ensures r.Success? ==> |r.value.1| < |s|
  {
    var (id, rest) :- Parse(s);
    ParseFetchOkTail(id, rest)
  }

  lemma FetchOkFits(s: Bytes)
    ensures var r := ParseFetchOk(s);
      r.Success? ==>
        && |EncodeFetchOk(r.value.0)| + |r.value.1| <= |s|
        && CanonicalList(r.value.0.params) == r.value.0.params && r.value.0.groupOrder <= 2
  {
    ParseFits(s);
    var id := Parse(s);
    if id.Success? {
      FetchOkTailFits(id.value.0, id.value.1);
    }
  }

  lemma FetchOkTailRoundTrip(m: FetchOkMessage, rest: Bytes)
    ensures ParseFetchOkTail(m.id, EncodeFetchOkTail(m) + rest) ==
      if m.groupOrder > 2 then Failure(InvalidGroupOrder)
      else Success((m.(params := CanonicalList(m.params)), rest))
  {
    var end, params := EncodeLocation(m.end), EncodeParams(m.params);
    TwoBytes(m.groupOrder, m.endOfTrack, end + params, rest);
    Assoc(end, params, rest);
    LocationRoundTrip(m.end, params + rest);
    ParamsRoundTrip(m.params, rest);
  }

  lemma FetchOkArrives(m: FetchOkMessage, rest: Bytes)
    ensures ParseFetchOk(EncodeFetchOk(m) + rest) ==
      if m.groupOrder > 2 then Failure(InvalidGroupOrder)
      else Success((m.(params := CanonicalList(m.params)), rest))
  {
    Assoc(Encode(m.id), EncodeFetchOkTail(m), rest);
    EncodeParse(m.id, EncodeFetchOkTail(m) + rest);
    FetchOkTailRoundTrip(m, rest);
  }

  lemma FetchOkArrivesAlone(m: FetchOkMessage)
    ensures ParseFetchOk(EncodeFetchOk(m)) == if m.groupOrder > 2 then Failure(InvalidGroupOrder)
      else Success((m.(params := CanonicalList(m.params)), []))
  {
    assert EncodeFetchOk(m) + [] == EncodeFetchOk(m);
    FetchOkArrives(m, []);
  }
}
