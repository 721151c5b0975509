/** The SUBSCRIBE_OK body, whose duration is written in one unit and read in another. */
module SubscribeOkCodec {
  import opened Varint
  import opened Fields

  // ----- SUBSCRIBE_OK -----

  /** `expires` is a time.Duration: a signed 64-bit count of nanoseconds. */
  datatype SubscribeOkMessage = SubscribeOkMessage(
    id: VarInt, alias: VarInt, expires: int, groupOrder: Byte, contentExists: bool, largest: Location, params: KvpList)

  /** Two's complement in 64 bits. */
  function Wrap64(x: int): int {
    (x + 0x8000_0000_0000_0000) % 0x1_0000_0000_0000_0000 - 0x8000_0000_0000_0000
  }

  /** The writer puts the nanoseconds on the wire; the reader takes the number for milliseconds. */
  function AsMilliseconds(v: VarInt): int {
    Wrap64(v * 1_000_000)
  }

  function EncodeContent(m: SubscribeOkMessage): Bytes {
    [m.groupOrder, if m.contentExists then 1 else 0] +
    ((if m.contentExists then EncodeLocation(m.largest) else []) + EncodeParams(m.params))
  }

  predicate Writable(m: SubscribeOkMessage) {
    0 <= m.expires < LIMIT
  }

  function EncodeSubscribeOk(m: SubscribeOkMessage): Bytes
    requires Writable(m)
  {
    Encode(m.id) + (Encode(m.alias) + (Encode(m.expires) + EncodeContent(m)))
  }

  const NEW_SUBSCRIBE_OK := SubscribeOkMessage(0, 0, 0, 0, false, ORIGIN, [])

  function ParseContent(m: SubscribeOkMessage, s: Bytes): (r: Parsed<SubscribeOkMessage>)
    requires m.largest == ORIGIN
    ensures r.Success? ==> |r.value.1| < |s|
  {
    if |s| < 2 then Failure(LengthMismatch)
    else if s[0] > 2 then Failure(InvalidGroupOrder)
    else if s[1] != 0 && s[1] != 1 then Failure(InvalidContentExists)
    else
      var (largest, rest) :- if s[1] == 1 then ParseLocation(s[2..]) else Success((m.largest, s[2..]));
      var (params, rest2) :- ParseParams(rest);
      Success((m.(groupOrder := s[0], contentExists := s[1] == 1, largest := largest, params := params), rest2))
  }

  lemma ContentFits(m: SubscribeOkMessage, s: Bytes)
    requires m.largest == ORIGIN
    ensures var r := ParseContent(m, s);
      r.Success? ==>
        var n := r.value.0;
        && |EncodeContent(n)| + |r.value.1| <= |s| && n.id == m.id && n.alias == m.alias && n.expires == m.expires
        && n.groupOrder <= 2 && (!n.contentExists ==> n.largest == ORIGIN) && CanonicalList(n.params) == n.params
  {
    if |s| >= 2 {
      LocationFits(s[2..]);
      var largest := if s[1] == 1 then ParseLocation(s[2..]) else Success((m.largest, s[2..]));
      if largest.Success? {
        ParamsFits(largest.value.1);
      }
    }
  }

  function ParseSubscribeOk(s: Bytes): (r: Parsed<SubscribeOkMessage>)
    ensures r.Success? ==> |r.value.1| < |s|
  {
    var (id, rest) :- Parse(s);
    var (alias, rest2) :- Parse(rest);
    var (expires, rest3) :- Parse(rest2);
    ParseContent(NEW_SUBSCRIBE_OK.(id := id, alias := alias, expires := AsMilliseconds(expires)), rest3)
  }

  lemma SubscribeOkFits(s: Bytes)
    ensures var r := ParseSubscribeOk(s);
      r.Success? ==>
        var n := r.value.0;
        && n.groupOrder <= 2 && (!n.contentExists ==> n.largest == ORIGIN) && CanonicalList(n.params) == n.params
        && (n.expires == 0 ==> |EncodeSubscribeOk(n)| + |r.value.1| <= |s|)
  {
    ParseFits(s);
    var id := Parse(s);
    if id.Success? {
      ParseFits(id.value.1);
      var alias := Parse(id.value.1);
      if alias.Success? {
        ParseFits(alias.value.1);
        var expires := Parse(alias.value.1);
        if expires.Success? {
          ContentFits(NEW_SUBSCRIBE_OK.(id := id.value.0, alias := alias.value.0,
                                        expires := AsMilliseconds(expires.value.0)), expires.value.1);
        }
      }
    }
  }

  /** What arrives, its duration apart. */
  function ReadableSubscribeOk(m: SubscribeOkMessage): SubscribeOkMessage
    requires Writable(m)
  {
    m.(expires := AsMilliseconds(m.expires), largest := if m.contentExists then m.largest else ORIGIN,
       params := CanonicalList(m.params))
  }

  lemma ContentRoundTrip(m: SubscribeOkMessage, n: SubscribeOkMessage, rest: Bytes)
    requires n.largest == ORIGIN
    ensures ParseContent(n, EncodeContent(m) + rest) ==
      if m.groupOrder > 2 then Failure(InvalidGroupOrder)
      else Success((m.(id := n.id, alias := n.alias, expires := n.expires,
                       largest := if m.contentExists then m.largest else ORIGIN,
                       params := CanonicalList(m.params)), rest))
  {
    var largest, params := if m.contentExists then EncodeLocation(m.largest) else [], EncodeParams(m.params);
    TwoBytes(m.groupOrder, if m.contentExists then 1 else 0, largest + params, rest);
    Assoc(largest, params, rest);
    assert [] + (params + rest) == params + rest;
    LocationRoundTrip(m.largest, params + rest);
    ParamsRoundTrip(m.params, rest);
  }

  lemma SubscribeOkArrives(m: SubscribeOkMessage, rest: Bytes)
    requires Writable(m)
    ensures ParseSubscribeOk(EncodeSubscribeOk(m) + rest) ==
      if m.groupOrder > 2 then Failure(InvalidGroupOrder) else Success((ReadableSubscribeOk(m), rest))
  {
    var id, alias, expires, content := Encode(m.id), Encode(m.alias), Encode(m.expires), EncodeContent(m);
    Assoc(id, alias + (expires + content), rest);
    Assoc(alias, expires + content, rest);
    Assoc(expires, content, rest);
    EncodeParse(m.id, alias + (expires + (content + rest)));
    EncodeParse(m.alias, expires + (content + rest));
    EncodeParse(m.expires, content + rest);
    ContentRoundTrip(m, NEW_SUBSCRIBE_OK.(id := m.id, alias := m.alias, expires := AsMilliseconds(m.expires)), rest);
  }

  lemma SubscribeOkArrivesAlone(m: SubscribeOkMessage)
    requires Writable(m)
    ensures ParseSubscribeOk(EncodeSubscribeOk(m)) ==
      if m.groupOrder > 2 then Failure(InvalidGroupOrder) else Success((ReadableSubscribeOk(m), []))
  {
    assert EncodeSubscribeOk(m) + [] == EncodeSubscribeOk(m);
    SubscribeOkArrives(m, []);
  }

  /** The inverse of 999,999 modulo 2^64: the factor is odd, so it hides no power of two. */
  const INVERSE := 1672254362768354751

  lemma InverseWorks()
    ensures 999_999 * INVERSE == 1 + 90653 * 0x1_0000_0000_0000_0000
  {}

  /** No duration but zero survives SUBSCRIBE_OK, not even through the 64-bit wrap-around. */
  lemma ExpiresSurvivesIff(e: VarInt)
    ensures AsMilliseconds(e) == e <==> e == 0
  {
    if AsMilliseconds(e) == e {
      var q := (e * 1_000_000 + 0x8000_0000_0000_0000) / 0x1_0000_0000_0000_0000;
      assert 999_999 * e == q * 0x1_0000_0000_0000_0000;
      InverseWorks();
      var t := INVERSE * q - 90653 * e;
      assert e == 0x1_0000_0000_0000_0000 * t;
    }
  }
}
