/** The bodies as the source writes and reads them: a buffer that grows field by field, a cursor that moves
    over the input while the receiver's fields are set. */
module MessageBuffers {
  import opened Varint
  import opened Fields
  import opened WireLoops
  import opened SubscribeCodec
  import opened SubscribeOkCodec
  import opened FetchCodec
  import opened WireFormat

  /** A body reader's answer against a parser; what is left of the body is ignored. */
  ghost predicate Answers<T>(r: Result<T>, spec: Parsed<T>) {
    r == if spec.Success? then Success(spec.value.0) else Failure(spec.error)
  }

  method ReadLocation(input: Bytes) returns (r: Result<Location>, n: nat)
    ensures Agrees(r, n, input, ParseLocation(input))
  {
    var group := Parse(input);
    if group.Failure? {
      return Failure(group.error), 0;
    }
    ParseSuffix(input);
    n := |input| - |group.value.1|;
    var object_ := Parse(group.value.1);
    if object_.Failure? {
      return Failure(object_.error), n;
    }
    ParseSuffix(group.value.1);
    Chained(object_, group.value.1, input);
    return Success(Location(group.value.0, object_.value.0)), |input| - |object_.value.1|;
  }

  method ReadText(input: Bytes) returns (r: Result<Blob>, n: nat)
    ensures Agrees(r, n, input, ParseBlob(input, Truncated))
  {
    BlobSuffix(input, Truncated);
    var l := Parse(input);
    if l.Failure? {
      return Failure(l.error), 0;
    }
    n := |input| - |l.value.1|;
    if l.value.0 == 0 {
      assert l.value.1[..0] == [] && l.value.1[0..] == l.value.1;
      return Success([]), n;
    }
    if |l.value.1| < l.value.0 {
      return Failure(Truncated), |input|;
    }
    return Success(l.value.1[..l.value.0]), n + l.value.0;
  }

  /** The cursor after a reader that agrees with `spec` and consumed `n` bytes. */
  method Skip<T>(data: Bytes, n: nat, ghost spec: Parsed<T>) returns (rest: Bytes)
    requires n <= |data| && spec.Success? && n + |spec.value.1| == |data| && IsSuffix(spec.value.1, data)
    ensures rest == spec.value.1
  {
    SuffixIs(spec.value.1, data);
    rest := data[n..];
  }

  // ----- SUBSCRIBE -----

  /** Input that starts with a SUBSCRIBE of acceptable flags: all its fields are read, the start for filter types 3
      and 4, the last group for 4; other filter types read as 1. */
  ghost predicate ReadAsWritten(r: Result<SubscribeMessage>, input: Bytes) {
    forall m: SubscribeMessage, rest: Bytes ::
      m.groupOrder <= 2 && m.forward <= 1 && input == EncodeSubscribe(m) + rest ==>
        r == Success(SubscribeMessage(m.id, m.track, m.name, m.priority, m.groupOrder, m.forward,
                                      if m.filter == 0 || m.filter > 4 then 1 else m.filter,
                                      if m.filter == 3 || m.filter == 4 then m.start else Location(0, 0),
                                      if m.filter == 4 then m.endGroup else 0, CanonicalList(m.params)))
  }

  lemma AnswersAsWritten(r: Result<SubscribeMessage>, input: Bytes)
    requires Answers(r, ParseSubscribe(input))
    ensures ReadAsWritten(r, input)
  {
    forall m: SubscribeMessage, rest: Bytes | m.groupOrder <= 2 && m.forward <= 1 && input == EncodeSubscribe(m) + rest
      ensures r == Success(SubscribeMessage(m.id, m.track, m.name, m.priority, m.groupOrder, m.forward,
                                            if m.filter == 0 || m.filter > 4 then 1 else m.filter,
                                            if m.filter == 3 || m.filter == 4 then m.start else Location(0, 0),
                                            if m.filter == 4 then m.endGroup else 0, CanonicalList(m.params)))
    {
      SubscribeArrives(m, rest);
    }
  }

  method AppendFilter(buf: Bytes, m: SubscribeMessage) returns (out: Bytes)
    ensures out == buf + EncodeFilter(m)
  {
    ghost var f, start, end := Encode(KnownFilter(m.filter)),
      if HasStart(m.filter) then EncodeLocation(m.start) else [],
      if m.filter == ABSOLUTE_RANGE then Encode(m.endGroup) else [];
    out := buf + Encode(KnownFilter(m.filter));
    if m.filter == ABSOLUTE_START || m.filter == ABSOLUTE_RANGE {
      out := AppendLocation(out, m.start);
    }
    assert out == (buf + f) + start;
    if m.filter == ABSOLUTE_RANGE {
      out := out + Encode(m.endGroup);
    }
    assert out == ((buf + f) + start) + end;
    out := AppendNum(out, m.params);
    ghost var params := EncodeParams(m.params);
    Assoc(buf + f, start, end);
    Assoc(buf + f, start + end, params);
    Assoc(buf, f, (start + end) + params);
  }

  method AppendSubscribe(buf: Bytes, m: SubscribeMessage) returns (out: Bytes)
    ensures out == buf + EncodeSubscribe(m)
    ensures var head := Encode(m.id) + EncodeTuple(m.track) + (Encode(|m.name|) + m.name) +
                        [m.priority, m.groupOrder, m.forward];
      var place, params := Encode(m.start.group) + Encode(m.start.object_), EncodeParams(m.params);
      && (m.filter == 1 || m.filter == 2 ==> out == buf + (head + ([m.filter] + params)))
      && (m.filter == 3 ==> out == buf + (head + ([3] + place + params)))
      && (m.filter == 4 ==> out == buf + (head + ([4] + place + Encode(m.endGroup) + params)))
      && (m.filter == 0 || m.filter > 4 ==> out == buf + (head + ([1] + params)))
  {
    ghost var id, track, name := Encode(m.id), EncodeTuple(m.track), EncodeBlob(m.name);
    out := buf + Encode(m.id);
    out := AppendTuple(out, m.track);
    out := AppendBlob(out, m.name);
    ghost var head := out;
    out := out + [m.priority];
    out := out + [m.groupOrder];
    out := out + [m.forward];
    assert out == head + [m.priority, m.groupOrder, m.forward];
    out := AppendFilter(out, m);
    Assoc(head, [m.priority, m.groupOrder, m.forward], EncodeFilter(m));
    Assoc((buf + id) + track, name, EncodeFlags(m));
    Assoc(buf + id, track, name + EncodeFlags(m));
    Assoc(buf, id, track + (name + EncodeFlags(m)));
    SubscribeBytes(m);
    FilterBytes(m);
  }

  /** From the filter on; the earlier fields of `m` are set. */
  method ReadFilter(m0: SubscribeMessage, input: Bytes) returns (r: Result<SubscribeMessage>)
    requires m0.start == ORIGIN && m0.endGroup == 0
    ensures Answers(r, ParseFilter(m0, input))
  {
    var m := m0;
    var filter := Parse(input);
    if filter.Failure? {
      return Failure(filter.error);
    }
    m := m.(filter := filter.value.0);
    if m.filter == 0 || m.filter > 4 {
      return Failure(InvalidFilterType);
    }
    var range := ParseRange(m.filter, filter.value.1);
    var data := filter.value.1;
    if m.filter == ABSOLUTE_START || m.filter == ABSOLUTE_RANGE {
      var start, n := ReadLocation(data);
      if start.Failure? {
        return Failure(start.error);
      }
      m := m.(start := start.value);
      data := Skip(data, n, ParseLocation(data));
    }
    if m.filter == ABSOLUTE_RANGE {
      var endGroup := Parse(data);
      if endGroup.Failure? {
        return Failure(endGroup.error);
      }
      m := m.(endGroup := endGroup.value.0);
      data := endGroup.value.1;
    }
    assert range == Success(((m.start, m.endGroup), data));
    var params, _ := ReadNum(data);
    if params.Failure? {
      return Failure(params.error);
    }
    return Success(m.(params := params.value));
  }

  method ReadSubscribeFields(input: Bytes) returns (r: Result<SubscribeMessage>)
    ensures Answers(r, ParseSubscribe(input))
  {
    var m := NEW_SUBSCRIBE;
    var id := Parse(input);
    if id.Failure? {
      return Failure(id.error);
    }
    m := m.(id := id.value.0);
    var data := id.value.1;
    var track, n := ReadTuple(data);
    if track.Failure? {
      return Failure(track.error);
    }
    m := m.(track := track.value);
    data := Skip(data, n, ParseTuple(data));
    var name, k := ReadText(data);
    if name.Failure? {
      return Failure(name.error);
    }
    m := m.(name := name.value);
    data := Skip(data, k, ParseBlob(data, Truncated));
    assert ParseSubscribe(input) == ParseFlags(m, data);
    if |data| < 3 {
      return Failure(LengthMismatch);
    }
    m := m.(priority := data[0], groupOrder := data[1]);
    if m.groupOrder > 2 {
      return Failure(InvalidGroupOrder);
    }
    m := m.(forward := data[2]);
    if m.forward > 1 {
      return Failure(InvalidForwardFlag);
    }
    r := ReadFilter(m, data[3..]);
  }

  method ReadSubscribe(input: Bytes) returns (r: Result<SubscribeMessage>)
    ensures Answers(r, ParseSubscribe(input)) && ReadAsWritten(r, input)
  {
    r := ReadSubscribeFields(input);
    AnswersAsWritten(r, input);
  }

  // ----- SUBSCRIBE_OK -----

  method AppendSubscribeOk(buf: Bytes, m: SubscribeOkMessage) returns (out: Bytes)
    requires Writable(m)
    ensures out == buf + EncodeSubscribeOk(m)
  {
    ghost var id, alias, expires, params := Encode(m.id), Encode(m.alias), Encode(m.expires), EncodeParams(m.params);
    ghost var largest := if m.contentExists then EncodeLocation(m.largest) else [];
    out := buf + Encode(m.id);
    out := out + Encode(m.alias);
    out := out + Encode(m.expires);
    ghost var head := out;
    out := out + [m.groupOrder];
    if m.contentExists {
      out := out + [1];
      assert out == head + [m.groupOrder, 1];
      out := AppendLocation(out, m.largest);
    } else {
      out := out + [0];
      assert out == (head + [m.groupOrder, 0]) + [];
    }
    ghost var flags := [m.groupOrder, if m.contentExists then 1 else 0];
    assert out == (head + flags) + largest;
    out := AppendNum(out, m.params);
    Assoc(head + flags, largest, params);
    Assoc(head, flags, largest + params);
    Assoc((buf + id) + alias, expires, EncodeContent(m));
    Assoc(buf + id, alias, expires + EncodeContent(m));
    Assoc(buf, id, alias + (expires + EncodeContent(m)));
  }

  method ReadContent(m0: SubscribeOkMessage, input: Bytes) returns (r: Result<SubscribeOkMessage>)
    requires m0.largest == ORIGIN
    ensures Answers(r, ParseContent(m0, input))
  {
    var m := m0;
    if |input| < 2 {
      return Failure(LengthMismatch);
    }
    m := m.(groupOrder := input[0]);
    if m.groupOrder > 2 {
      return Failure(InvalidGroupOrder);
    }
    if input[1] != 0 && input[1] != 1 {
      return Failure(InvalidContentExists);
    }
    m := m.(contentExists := input[1] == 1);
    var data := input[2..];
    if m.contentExists {
      var largest, n := ReadLocation(data);
      if largest.Failure? {
        return Failure(largest.error);
      }
      m := m.(largest := largest.value);
      data := Skip(data, n, ParseLocation(data));
    }
    var params, _ := ReadNum(data);
    if params.Failure? {
      return Failure(params.error);
    }
    return Success(m.(params := params.value));
  }

  method ReadSubscribeOk(input: Bytes) returns (r: Result<SubscribeOkMessage>)
    ensures Answers(r, ParseSubscribeOk(input))
  {
    var id := Parse(input);
    if id.Failure? {
      return Failure(id.error);
    }
    var alias := Parse(id.value.1);
    if alias.Failure? {
      return Failure(alias.error);
    }
    var expires := Parse(alias.value.1);
    if expires.Failure? {
      return Failure(expires.error);
    }
    var m := NEW_SUBSCRIBE_OK.(id := id.value.0, alias := alias.value.0, expires := AsMilliseconds(expires.value.0));
    r := ReadContent(m, expires.value.1);
  }

  // ----- SUBSCRIBE_UPDATE -----

  method AppendSubscribeUpdate(buf: Bytes, m: SubscribeUpdateMessage) returns (out: Bytes)
    ensures out == buf + EncodeSubscribeUpdate(m)
  {
    ghost var id, start, end := Encode(m.id), EncodeLocation(m.start), Encode(m.endGroup);
    out := buf + Encode(m.id);
    out := AppendLocation(out, m.start);
    out := out + Encode(m.endGroup);
    ghost var head := out;
    out := out + [m.priority];
    out := out + [m.forward];
    assert out == head + [m.priority, m.forward];
    out := AppendNum(out, m.params);
    Assoc(head, [m.priority, m.forward], EncodeParams(m.params));
    Assoc((buf + id) + start, end, EncodeUpdateTail(m));
    Assoc(buf + id, start, end + EncodeUpdateTail(m));
    Assoc(buf, id, start + (end + EncodeUpdateTail(m)));
  }

  method ReadSubscribeUpdate(input: Bytes) returns (r: Result<SubscribeUpdateMessage>)
    ensures Answers(r, ParseSubscribeUpdate(input))
  {
    var m := NEW_UPDATE;
    var id := Parse(input);
    if id.Failure? {
      return Failure(id.error);
    }
    m := m.(id := id.value.0);
    var start, n := ReadLocation(id.value.1);
    if start.Failure? {
      return Failure(start.error);
    }
    m := m.(start := start.value);
    var data := Skip(id.value.1, n, ParseLocation(id.value.1));
    var endGroup := Parse(data);
    if endGroup.Failure? {
      return Failure(endGroup.error);
    }
    m := m.(endGroup := endGroup.value.0);
    data := endGroup.value.1;
    assert ParseSubscribeUpdate(input) == ParseUpdateTail(m, data);
    if |data| < 2 {
      return Failure(LengthMismatch);
    }
    m := m.(priority := data[0], forward := data[1]);
    if m.forward > 2 {
      return Failure(InvalidForwardFlag);
    }
    var params, _ := ReadNum(data[2..]);
    if params.Failure? {
      return Failure(params.error);
    }
    return Success(m.(params := params.value));
  }

  // ----- FETCH -----

  method AppendTarget(buf: Bytes, m: FetchMessage) returns (out: Bytes)
    ensures out == buf + EncodeTarget(m)
  {
    if m.fetchType == STANDALONE {
      ghost var track, name, start, end :=
        EncodeTuple(m.track), EncodeBlob(m.name), EncodeLocation(m.start), EncodeLocation(m.end);
      out := AppendTuple(buf, m.track);
      out := AppendBlob(out, m.name);
      out := AppendLocation(out, m.start);
      out := AppendLocation(out, m.end);
      Assoc((buf + track) + name, start, end);
      Assoc(buf + track, name, start + end);
      Assoc(buf, track, name + (start + end));
    } else {
      out := AppendLocation(buf, Joining(m));
    }
  }

  method AppendFetch(buf: Bytes, m: FetchMessage) returns (out: Bytes)
    ensures out == buf + EncodeFetch(m)
    ensures var head, params := Encode(m.id) + [m.priority, m.groupOrder], EncodeParams(m.params);
      && (m.fetchType == 1 ==>
            out == buf + (head + [1] + (EncodeTuple(m.track) + (Encode(|m.name|) + m.name) +
              (Encode(m.start.group) + Encode(m.start.object_)) + (Encode(m.end.group) + Encode(m.end.object_))) +
              params))
      && (m.fetchType != 1 ==>
            out == buf + (head + Encode(m.fetchType) + (Encode(m.joiningId) + Encode(m.joiningStart)) + params))
  {
    ghost var id, typ, target, params := Encode(m.id), Encode(m.fetchType), EncodeTarget(m), EncodeParams(m.params);
    out := buf + Encode(m.id);
    out := out + [m.priority];
    out := out + [m.groupOrder];
    assert out == (buf + id) + [m.priority, m.groupOrder];
    ghost var head := out;
    out := out + Encode(m.fetchType);
    out := AppendTarget(out, m);
    out := AppendNum(out, m.params);
    Assoc(head + typ, target, params);
    Assoc(head, typ, target + params);
    Assoc(buf + id, [m.priority, m.groupOrder], EncodeTyped(m));
    Assoc(buf, id, EncodeFetchFlags(m));
    FetchBytes(m);
  }

  method ReadStandalone(m0: FetchMessage, input: Bytes) returns (r: Result<FetchMessage>, parsed: nat)
    requires Fresh(m0) && m0.fetchType == STANDALONE
    ensures Agrees(r, parsed, input, ParseStandalone(m0, input))
  {
    var names, n := ReadFullName(input);
    if names.Failure? {
      return Failure(names.error), 0;
    }
    var m := m0.(track := names.value.0, name := names.value.1);
    var data := Skip(input, n, ParseFullName(input));
    var range, k := ReadRange(data);
    if range.Failure? {
      return Failure(range.error), 0;
    }
    Chained(ParseTwo(data), data, input);
    return Success(m.(start := range.value.0, end := range.value.1)), n + k;
  }

  method ReadTarget(m: FetchMessage, input: Bytes) returns (r: Result<FetchMessage>, parsed: nat)
    requires Fresh(m)
    ensures Agrees(r, parsed, input, ParseTarget(m, input))
  {
    if m.fetchType == STANDALONE {
      r, parsed := ReadStandalone(m, input);
    } else {
      var joining;
      joining, parsed := ReadLocation(input);
      if joining.Failure? {
        return Failure(joining.error), parsed;
      }
      r := Success(m.(joiningId := joining.value.group, joiningStart := joining.value.object_));
    }
  }

  method ReadFullName(input: Bytes) returns (r: Result<(Tuple, Blob)>, parsed: nat)
    ensures Agrees(r, parsed, input, ParseFullName(input))
  {
    var track, n := ReadTuple(input);
    if track.Failure? {
      return Failure(track.error), 0;
    }
    var data := Skip(input, n, ParseTuple(input));
    var name, k := ReadText(data);
    if name.Failure? {
      return Failure(name.error), 0;
    }
    Chained(ParseBlob(data, Truncated), data, input);
    return Success((track.value, name.value)), n + k;
  }

  method ReadRange(input: Bytes) returns (r: Result<(Location, Location)>, parsed: nat)
    ensures Agrees(r, parsed, input, ParseTwo(input))
  {
    var start, n := ReadLocation(input);
    if start.Failure? {
      return Failure(start.error), 0;
    }
    var data := Skip(input, n, ParseLocation(input));
    var end, k := ReadLocation(data);
    if end.Failure? {
      return Failure(end.error), 0;
    }
    Chained(ParseLocation(data), data, input);
    return Success((start.value, end.value)), n + k;
  }

  method ReadTyped(m0: FetchMessage, input: Bytes) returns (r: Result<FetchMessage>)
    requires Fresh(m0)
    ensures Answers(r, ParseTyped(m0, input))
  {
    var fetchType := Parse(input);
    if fetchType.Failure? {
      return Failure(fetchType.error);
    }
    if fetchType.value.0 < STANDALONE || fetchType.value.0 > ABSOLUTE_JOINING {
      return Failure(InvalidFetchType);
    }
    var m, n := ReadTarget(m0.(fetchType := fetchType.value.0), fetchType.value.1);
    if m.Failure? {
      return Failure(m.error);
    }
    var data := Skip(fetchType.value.1, n, ParseTarget(m0.(fetchType := fetchType.value.0), fetchType.value.1));
    var params, _ := ReadNum(data);
    if params.Failure? {
      return Failure(params.error);
    }
    return Success(m.value.(params := params.value));
  }

  method ReadFetch(input: Bytes) returns (r: Result<FetchMessage>)
    ensures Answers(r, ParseFetch(input))
  {
    var id := Parse(input);
    if id.Failure? {
      return Failure(id.error);
    }
    var data := id.value.1;
    if |data| < 2 {
      return Failure(LengthMismatch);
    }
    if data[1] > 2 {
      return Failure(InvalidGroupOrder);
    }
    r := ReadTyped(NEW_FETCH.(id := id.value.0, priority := data[0], groupOrder := data[1]), data[2..]);
  }

  // ----- FETCH_OK -----

  method AppendFetchOk(buf: Bytes, m: FetchOkMessage) returns (out: Bytes)
    ensures out == buf + EncodeFetchOk(m)
  {
    ghost var id, end, params := Encode(m.id), EncodeLocation(m.end), EncodeParams(m.params);
    out := buf + Encode(m.id);
    out := out + [m.groupOrder];
    out := out + [m.endOfTrack];
    assert out == (buf + id) + [m.groupOrder, m.endOfTrack];
    ghost var head := out;
    out := AppendLocation(out, m.end);
    out := AppendNum(out, m.params);
    Assoc(head, end, params);
    Assoc(buf + id, [m.groupOrder, m.endOfTrack], end + params);
    Assoc(buf, id, EncodeFetchOkTail(m));
  }

  method ReadFetchOk(input: Bytes) returns (r: Result<FetchOkMessage>)
    ensures Answers(r, ParseFetchOk(input))
  {
    var id := Parse(input);
    if id.Failure? {
      return Failure(id.error);
    }
    var data := id.value.1;
    assert ParseFetchOk(input) == ParseFetchOkTail(id.value.0, data);
    if |data| < 2 {
      return Failure(LengthMismatch);
    }
    if data[0] > 2 {
      return Failure(InvalidGroupOrder);
    }
    var end, n := ReadLocation(data[2..]);
    if end.Failure? {
      return Failure(end.error);
    }
    var rest := Skip(data[2..], n, ParseLocation(data[2..]));
    var params, _ := ReadNum(rest);
    if params.Failure? {
      return Failure(params.error);
    }
    return Success(FetchOkMessage(id.value.0, data[0], data[1], end.value, params.value));
  }
}
