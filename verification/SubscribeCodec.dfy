/** The SUBSCRIBE body.  Reading drops what the writer cannot express, so the lemma at the end says exactly
    what arrives. */
module SubscribeCodec {
  import opened Varint
  import opened Fields

  // ----- SUBSCRIBE -----

  const NEXT_GROUP_START := 1
  const ABSOLUTE_START := 3
  const ABSOLUTE_RANGE := 4

  datatype SubscribeMessage = SubscribeMessage(
    id: VarInt, track: Tuple, name: Blob, priority: Byte, groupOrder: Byte, forward: Byte,
    filter: VarInt, start: Location, endGroup: VarInt, params: KvpList)

  predicate HasStart(filter: VarInt) {
    filter == ABSOLUTE_START || filter == ABSOLUTE_RANGE
  }

  /** Filter types outside 1..4 are written as 1. */
  function KnownFilter(filter: VarInt): VarInt {
    if 1 <= filter <= 4 then filter else NEXT_GROUP_START
  }

  function EncodeRange(filter: VarInt, start: Location, endGroup: VarInt): Bytes {
    (if HasStart(filter) then EncodeLocation(start) else []) +
    (if filter == ABSOLUTE_RANGE then Encode(endGroup) else [])
  }

  function EncodeFilter(m: SubscribeMessage): Bytes {
    Encode(KnownFilter(m.filter)) + (EncodeRange(m.filter, m.start, m.endGroup) + EncodeParams(m.params))
  }

  function EncodeFlags(m: SubscribeMessage): Bytes {
    [m.priority, m.groupOrder, m.forward] + EncodeFilter(m)
  }

  function EncodeSubscribe(m: SubscribeMessage): Bytes {
    Encode(m.id) + (EncodeTuple(m.track) + (EncodeBlob(m.name) + EncodeFlags(m)))
  }

  /** The fields a reader can recover. */
  function ReadableSubscribe(m: SubscribeMessage): SubscribeMessage {
    m.(filter := KnownFilter(m.filter),
       start := if HasStart(m.filter) then m.start else ORIGIN,
       endGroup := if m.filter == ABSOLUTE_RANGE then m.endGroup else 0,
       params := CanonicalList(m.params))
  }

  function ParseRange(filter: VarInt, s: Bytes): (r: Parsed<(Location, VarInt)>)
    ensures r.Success? ==> |r.value.1| <= |s|
  {
    var (start, rest) :- if HasStart(filter) then ParseLocation(s) else Success((ORIGIN, s));
    if filter == ABSOLUTE_RANGE then
      var (endGroup, rest2) :- Parse(rest);
      Success(((start, endGroup), rest2))
    else Success(((start, 0), rest))
  }

  lemma RangeFits(filter: VarInt, s: Bytes)
    ensures var r := ParseRange(filter, s);
      r.Success? ==>
        && |EncodeRange(filter, r.value.0.0, r.value.0.1)| + |r.value.1| <= |s|
        && (!HasStart(filter) ==> r.value.0.0 == ORIGIN) && (filter != ABSOLUTE_RANGE ==> r.value.0.1 == 0)
  {
    LocationFits(s);
    var start := if HasStart(filter) then ParseLocation(s) else Success((ORIGIN, s));
    if start.Success? {
      ParseFits(start.value.1);
    }
  }

  /** Filter, range and parameters, stored in `m`. */
  function ParseFilter(m: SubscribeMessage, s: Bytes): (r: Parsed<SubscribeMessage>)
    ensures r.Success? ==> |r.value.1| < |s|
  {
    var (filter, rest) :- Parse(s);
    if filter == 0 || filter > 4 then Failure(InvalidFilterType)
    else
      var (range, rest2) :- ParseRange(filter, rest);
      var (params, rest3) :- ParseParams(rest2);
      Success((m.(filter := filter, start := range.0, endGroup := range.1, params := params), rest3))
  }

  lemma FilterFits(m: SubscribeMessage, s: Bytes)
    ensures var r := ParseFilter(m, s);
      r.Success? ==>
        var n := r.value.0;
        && |EncodeFilter(n)| + |r.value.1| <= |s| && ReadableSubscribe(n) == n
        && n == m.(filter := n.filter, start := n.start, endGroup := n.endGroup, params := n.params)
  {
    ParseFits(s);
    var filter := Parse(s);
    if filter.Success? {
      RangeFits(filter.value.0, filter.value.1);
      var range := ParseRange(filter.value.0, filter.value.1);
      if range.Success? {
        ParamsFits(range.value.1);
      }
    }
  }

  const NEW_SUBSCRIBE := SubscribeMessage(0, [], [], 0, 0, 0, 0, ORIGIN, 0, [])

  function ParseFlags(m: SubscribeMessage, s: Bytes): (r: Parsed<SubscribeMessage>)
    ensures r.Success? ==> |r.value.1| < |s|
  {
    if |s| < 3 then Failure(LengthMismatch)
    else if s[1] > 2 then Failure(InvalidGroupOrder)
    else if s[2] > 1 then Failure(InvalidForwardFlag)
    else ParseFilter(m.(priority := s[0], groupOrder := s[1], forward := s[2]), s[3..])
  }

  lemma FlagsFits(m: SubscribeMessage, s: Bytes)
    ensures var r := ParseFlags(m, s);
      r.Success? ==>
        var n := r.value.0;
        && |EncodeFlags(n)| + |r.value.1| <= |s| && ReadableSubscribe(n) == n && n.groupOrder <= 2 && n.forward <= 1
        && n.id == m.id && n.track == m.track && n.name == m.name
  {
    if |s| >= 3 {
      FilterFits(m.(priority := s[0], groupOrder := s[1], forward := s[2]), s[3..]);
    }
  }

  function ParseSubscribe(s: Bytes): (r: Parsed<SubscribeMessage>)
    ensures r.Success? ==> |r.value.1| < |s|
  {
    var (id, rest) :- Parse(s);
    var (track, rest2) :- ParseTuple(rest);
    var (name, rest3) :- ParseBlob(rest2, Truncated);
    ParseFlags(NEW_SUBSCRIBE.(id := id, track := track, name := name), rest3)
  }

  /** Whatever SUBSCRIBE is accepted takes no more bytes when written again, and a second reading would neither
      refuse nor change it. */
  lemma SubscribeFits(s: Bytes)
    ensures var r := ParseSubscribe(s);
      r.Success? ==>
        && |EncodeSubscribe(r.value.0)| + |r.value.1| <= |s|
        && ReadableSubscribe(r.value.0) == r.value.0 && r.value.0.groupOrder <= 2 && r.value.0.forward <= 1
  {
    ParseFits(s);
    var id := Parse(s);
    if id.Success? {
      TupleFits(id.value.1);
      var track := ParseTuple(id.value.1);
      if track.Success? {
        BlobFits(track.value.1, Truncated);
        var name := ParseBlob(track.value.1, Truncated);
        if name.Success? {
          FlagsFits(NEW_SUBSCRIBE.(id := id.value.0, track := track.value.0, name := name.value.0), name.value.1);
        }
      }
    }
  }

  lemma RangeRoundTrip(filter: VarInt, start: Location, endGroup: VarInt, rest: Bytes)
    ensures ParseRange(filter, EncodeRange(filter, start, endGroup) + rest) ==
            Success(((if HasStart(filter) then start else ORIGIN,
                      if filter == ABSOLUTE_RANGE then endGroup else 0), rest))
  {
    var end := if filter == ABSOLUTE_RANGE then Encode(endGroup) else [];
    if HasStart(filter) {
      Assoc(EncodeLocation(start), end, rest);
      LocationRoundTrip(start, end + rest);
      EncodeParse(endGroup, rest);
    } else {
      assert EncodeRange(filter, start, endGroup) + rest == rest;
    }
    assert [] + rest == rest;
  }

  /** Filter, range and parameters, each read by its own parser. */
  lemma FilterFields(n: SubscribeMessage, filter: VarInt, code: Bytes, range: Bytes, params: Bytes, rest: Bytes,
                     start: Location, endGroup: VarInt, ps: KvpList)
    requires 1 <= filter <= 4 && Parse(code + (range + (params + rest))) == Success((filter, range + (params + rest)))
    requires ParseRange(filter, range + (params + rest)) == Success(((start, endGroup), params + rest))
    requires ParseParams(params + rest) == Success((ps, rest))
    ensures ParseFilter(n, (code + (range + params)) + rest) ==
            Success((n.(filter := filter, start := start, endGroup := endGroup, params := ps), rest))
  {
    Assoc(code, range + params, rest);
    Assoc(range, params, rest);
  }

  lemma FilterRoundTrip(m: SubscribeMessage, n: SubscribeMessage, rest: Bytes)
    requires n == m.(filter := n.filter, start := n.start, endGroup := n.endGroup, params := n.params)
    ensures ParseFilter(n, EncodeFilter(m) + rest) == Success((ReadableSubscribe(m), rest))
  {
    var filter := KnownFilter(m.filter);
    var range, params := EncodeRange(m.filter, m.start, m.endGroup), EncodeParams(m.params);
    EncodeParse(filter, range + (params + rest));
    RangeRoundTrip(filter, m.start, m.endGroup, params + rest);
    ParamsRoundTrip(m.params, rest);
    FilterFields(n, filter, Encode(filter), range, params, rest, ReadableSubscribe(m).start,
                 ReadableSubscribe(m).endGroup, CanonicalList(m.params));
  }

  lemma FlagsRoundTrip(m: SubscribeMessage, n: SubscribeMessage, rest: Bytes)
    requires n.id == m.id && n.track == m.track && n.name == m.name
    ensures ParseFlags(n, EncodeFlags(m) + rest) ==
      if m.groupOrder > 2 then Failure(InvalidGroupOrder)
      else if m.forward > 1 then Failure(InvalidForwardFlag)
      else Success((ReadableSubscribe(m), rest))
  {
    ThreeBytes(m.priority, m.groupOrder, m.forward, EncodeFilter(m), rest);
    if m.groupOrder <= 2 && m.forward <= 1 {
      FilterRoundTrip(m, n.(priority := m.priority, groupOrder := m.groupOrder, forward := m.forward), rest);
    }
  }

  /** What the peer reads for any SUBSCRIBE that is written. */
  lemma SubscribeArrives(m: SubscribeMessage, rest: Bytes)
    ensures ParseSubscribe(EncodeSubscribe(m) + rest) ==
      if m.groupOrder > 2 then Failure(InvalidGroupOrder)
      else if m.forward > 1 then Failure(InvalidForwardFlag)
      else Success((ReadableSubscribe(m), rest))
  {
    var id, track, name, flags := Encode(m.id), EncodeTuple(m.track), EncodeBlob(m.name), EncodeFlags(m);
    Assoc(id, track + (name + flags), rest);
    Assoc(track, name + flags, rest);
    Assoc(name, flags, rest);
    EncodeParse(m.id, track + (name + (flags + rest)));
    TupleRoundTrip(m.track, name + (flags + rest));
    BlobRoundTrip(m.name, flags + rest, Truncated);
    FlagsRoundTrip(m, NEW_SUBSCRIBE.(id := m.id, track := m.track, name := m.name), rest);
  }

  lemma SubscribeArrivesAlone(m: SubscribeMessage)
    ensures ParseSubscribe(EncodeSubscribe(m)) == if m.groupOrder > 2 then Failure(InvalidGroupOrder)
      else if m.forward > 1 then Failure(InvalidForwardFlag) else Success((ReadableSubscribe(m), []))
  {
    assert EncodeSubscribe(m) + [] == EncodeSubscribe(m);
    SubscribeArrives(m, []);
  }
}
