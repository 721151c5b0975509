/** The bytes of the draft written out: integers in the four lengths of RFC 9000, section 16, the fields made of
    them, and the bodies whose layout depends on a number in them.  Every number is a literal here, so these
    lemmas say which bytes a peer sees, not only that the two directions fit together. */
module WireFormat {
  import opened Modular
  import opened Varint
  import opened Fields
  import opened SubscribeCodec
  import opened SubscribeOkCodec
  import opened FetchCodec

  // ----- Integers -----

  lemma OneByte(v: VarInt)
    requires v < 0x40
    ensures Encode(v) == [v]
  {
    assert BigEndian(v, 1) == BigEndian(v / 256, 0) + [v];
  }

  lemma TwoByte(v: VarInt)
    requires 0x40 <= v < 0x4000
    ensures Encode(v) == [0x40 + v / 0x100, v % 0x100]
  {
    BigEndianTwo(v + 0x4000);
  }

  lemma BigEndianTwo(x: nat)
    ensures BigEndian(x, 2) == [x / 0x100 % 0x100, x % 0x100]
  {
    assert BigEndian(x / 256, 1) == BigEndian(x / 256 / 256, 0) + [x / 256 % 256];
  }

  lemma BigEndianFour(x: nat)
    ensures BigEndian(x, 4) == [x / 0x100_0000 % 0x100, x / 0x1_0000 % 0x100, x / 0x100 % 0x100, x % 0x100]
  {
    BigEndianTwo(x / 256 / 256);
    assert BigEndian(x / 256, 3) == BigEndian(x / 256 / 256, 2) + [x / 256 % 256];
  }

  /** Multiples of the next unit do not show in a byte. */
  lemma ByteAt(t: nat, u: nat, v: nat)
    requires u > 0
    ensures (u * (0x100 * t) + v) / u == 0x100 * t + v / u
    ensures (u * (0x100 * t) + v) / u % 0x100 == v / u % 0x100
  {
    var q := 0x100 * t + v / u;
    Distributes(u, q, v / u);
    Unique(u * (0x100 * t) + v, u, q, v % u);
  }

  /** The lower four bytes of a number with `top` above its lower 32 bits. */
  lemma LowBytes(top: nat, v: nat)
    ensures var x := 0x1_0000_0000 * top + v;
      && x / 0x100_0000 % 0x100 == v / 0x100_0000 % 0x100 && x / 0x1_0000 % 0x100 == v / 0x1_0000 % 0x100
      && x / 0x100 % 0x100 == v / 0x100 % 0x100 && x % 0x100 == v % 0x100
  {
    ByteAt(top, 0x100_0000, v);
    ByteAt(0x100 * top, 0x1_0000, v);
    ByteAt(0x1_0000 * top, 0x100, v);
  }

  /** A tag in the highest of four bytes. */
  lemma TagBits(tag: nat, v: nat)
    requires tag <= 0xc0 && v < 0x4000_0000
    ensures var x := 0x100_0000 * tag + v;
      && x / 0x100_0000 % 0x100 == tag + v / 0x100_0000 < 0x100
      && x / 0x1_0000 % 0x100 == v / 0x1_0000 % 0x100 && x / 0x100 % 0x100 == v / 0x100 % 0x100
      && x % 0x100 == v % 0x100
  {
    Distributes(0x100_0000, tag + v / 0x100_0000, v / 0x100_0000);
    Unique(0x100_0000 * tag + v, 0x100_0000, tag + v / 0x100_0000, v % 0x100_0000);
    ByteAt(tag, 0x1_0000, v);
    ByteAt(0x100 * tag, 0x100, v);
  }

  lemma TaggedFour(tag: nat, v: nat)
    requires tag <= 0xc0 && v < 0x4000_0000
    ensures BigEndian(0x100_0000 * tag + v, 4) ==
            [tag + v / 0x100_0000, v / 0x1_0000 % 0x100, v / 0x100 % 0x100, v % 0x100]
  {
    BigEndianFour(0x100_0000 * tag + v);
    TagBits(tag, v);
  }

  lemma FourByte(v: VarInt)
    requires 0x4000 <= v < 0x4000_0000
    ensures Encode(v) == [0x80 + v / 0x100_0000, v / 0x1_0000 % 0x100, v / 0x100 % 0x100, v % 0x100]
  {
    TaggedFour(0x80, v);
  }

  lemma Thirds(x: nat)
    ensures x / 256 / 256 == x / 0x1_0000 && x / 0x1_0000 / 256 == x / 0x100_0000
    ensures x / 0x100_0000 / 256 == x / 0x1_0000_0000
  {}

  /** One more byte below. */
  lemma Below(x: nat, n: nat)
    ensures BigEndian(x, n + 1) == BigEndian(x / 256, n) + [x % 256]
  {}

  lemma BigEndianEight(x: nat)
    ensures BigEndian(x, 8) == BigEndian(x / 0x1_0000_0000, 4) + BigEndian(x, 4)
  {
    Thirds(x);
    Below(x, 7);
    Below(x / 0x100, 6);
    Below(x / 0x1_0000, 5);
    Below(x / 0x100_0000, 4);
    BigEndianFour(x);
    Joined(BigEndian(x / 0x1_0000_0000, 4), x / 0x100_0000 % 0x100, x / 0x1_0000 % 0x100, x / 0x100 % 0x100, x % 0x100);
  }

  lemma Joined(s: Bytes, a: Byte, b: Byte, c: Byte, d: Byte)
    ensures (((s + [a]) + [b]) + [c]) + [d] == s + [a, b, c, d]
  {}

  lemma Halves(v: VarInt)
    ensures var x := v + 0xc000_0000_0000_0000;
      x / 0x1_0000_0000 == 0xc000_0000 + v / 0x1_0000_0000 && x % 0x1_0000_0000 == v % 0x1_0000_0000
  {}

  lemma LowFour(top: nat, low: nat)
    ensures BigEndian(0x1_0000_0000 * top + low, 4) ==
            [low / 0x100_0000 % 0x100, low / 0x1_0000 % 0x100, low / 0x100 % 0x100, low % 0x100]
  {
    BigEndianFour(0x1_0000_0000 * top + low);
    LowBytes(top, low);
  }

  lemma EightByte(v: VarInt)
    requires 0x4000_0000 <= v
    ensures var high, low := v / 0x1_0000_0000, v % 0x1_0000_0000;
      Encode(v) == [0xc0 + high / 0x100_0000, high / 0x1_0000 % 0x100, high / 0x100 % 0x100, high % 0x100] +
                   [low / 0x100_0000 % 0x100, low / 0x1_0000 % 0x100, low / 0x100 % 0x100, low % 0x100]
  {
    var x, high, low := v + 0xc000_0000_0000_0000, v / 0x1_0000_0000, v % 0x1_0000_0000;
    assert x == 0x1_0000_0000 * (0xc000_0000 + high) + low;
    BigEndianEight(x);
    TaggedFour(0xc0, high);
    LowFour(0xc000_0000 + high, low);
    Halves(v);
  }

  // ----- Reading integers -----

  /** An integer is read by the top two bits of its first byte, also where fewer bytes would do. */
  lemma ReadOne(a: Byte, rest: Bytes)
    ensures a < 0x40 ==> Parse([a] + rest) == Success((a, rest))
  {
    assert ([a] + rest)[1..] == rest;
    if a < 0x40 {
      assert Value([a] + rest, 1) == 256 * Value([a] + rest, 0) + a;
    }
  }

  lemma ReadTwo(a: Byte, b: Byte, rest: Bytes)
    requires 0x40 <= a < 0x80
    ensures Parse([a, b] + rest) == Success(((a - 0x40) * 0x100 + b, rest))
  {
    var s := [a, b] + rest;
    assert s[2..] == rest;
    assert Value(s, 1) == 256 * Value(s, 0) + s[0];
    assert Value(s, 2) == 256 * Value(s, 1) + s[1];
  }

  /** The number in four bytes, the highest first. */
  function Word(a: int, b: int, c: int, d: int): int {
    ((a * 0x100 + b) * 0x100 + c) * 0x100 + d
  }

  lemma FourBytes(a: Byte, b: Byte, c: Byte, d: Byte, rest: Bytes)
    ensures var s := [a, b, c, d] + rest; s[4..] == rest && Value(s, 4) == Word(a, b, c, d)
  {
    var s := [a, b, c, d] + rest;
    assert Value(s, 1) == 256 * Value(s, 0) + s[0];
    assert Value(s, 2) == 256 * Value(s, 1) + s[1];
    assert Value(s, 3) == 256 * Value(s, 2) + s[2];
    assert Value(s, 4) == 256 * Value(s, 3) + s[3];
  }

  lemma ReadFour(a: Byte, b: Byte, c: Byte, d: Byte, rest: Bytes)
    requires 0x80 <= a < 0xc0
    ensures Parse([a, b, c, d] + rest) == Success((Word(a - 0x80, b, c, d), rest))
  {
    FourBytes(a, b, c, d, rest);
  }

  lemma EightBytes(s: Bytes)
    requires |s| >= 8
    ensures Value(s, 8) == Value(s, 4) * 0x1_0000_0000 + Word(s[4], s[5], s[6], s[7])
    ensures Value(s, 4) == Word(s[0], s[1], s[2], s[3])
  {
    assert Value(s, 1) == 256 * Value(s, 0) + s[0];
    assert Value(s, 2) == 256 * Value(s, 1) + s[1];
    assert Value(s, 3) == 256 * Value(s, 2) + s[2];
    assert Value(s, 4) == 256 * Value(s, 3) + s[3];
    assert Value(s, 5) == 256 * Value(s, 4) + s[4];
    assert Value(s, 6) == 256 * Value(s, 5) + s[5];
    assert Value(s, 7) == 256 * Value(s, 6) + s[6];
    assert Value(s, 8) == 256 * Value(s, 7) + s[7];
  }

  lemma ReadEight(s: Bytes)
    requires |s| >= 8 && s[0] >= 0xc0
    ensures var v := Word(s[0] - 0xc0, s[1], s[2], s[3]) * 0x1_0000_0000 + Word(s[4], s[5], s[6], s[7]);
      0 <= v < LIMIT && Parse(s) == Success((v, s[8..]))
  {
    EightBytes(s);
  }

  // ----- Fields -----

  /** A byte string is its length and its bytes; a namespace is the number of its elements and each of them. */
  lemma NamespaceBytes(first: Blob, rest: Tuple)
    requires |rest| + 1 < LIMIT
    ensures EncodeTuple([]) == [0]
    ensures EncodeTuple([first] + rest) == Encode(|rest| + 1) + (Encode(|first|) + first) + EncodeStrings(rest)
  {
    OneByte(0);
    ConsTail(first, rest);
    Assoc(Encode(|rest| + 1), Encode(|first|) + first, EncodeStrings(rest));
  }

  /** A parameter is its key and, for an odd key, a byte string, for an even one, an integer. */
  lemma ParameterBytes(p: KeyValue, rest: KvpList)
    requires |rest| + 1 < LIMIT
    ensures EncodeParams([]) == [0]
    ensures p.key % 2 == 1 ==>
      EncodeParams([p] + rest) ==
      Encode(|rest| + 1) + (Encode(p.key) + (Encode(|p.bytes|) + p.bytes)) + EncodeKvps(rest)
    ensures p.key % 2 == 0 ==>
      EncodeParams([p] + rest) == Encode(|rest| + 1) + (Encode(p.key) + Encode(p.number)) + EncodeKvps(rest)
  {
    OneByte(0);
    ConsTail(p, rest);
    Assoc(Encode(|rest| + 1), EncodeKvp(p), EncodeKvps(rest));
  }

  /** Reading keeps, key by key, the value that was written and blanks the other. */
  lemma {:induction false} ParameterRead(ps: KvpList, i: nat)
    requires i < |ps|
    ensures CanonicalList(ps)[i] ==
            if ps[i].key % 2 == 1 then KeyValue(ps[i].key, ps[i].bytes, 0) else KeyValue(ps[i].key, [], ps[i].number)
  {
    if i > 0 {
      ParameterRead(ps[1..], i - 1);
    }
  }

  // ----- SUBSCRIBE -----

  /** The filter types: 1 (next group) and 2 (latest object) stand alone, 3 (absolute start) is followed by a group
      and an object, 4 (absolute range) by a group, an object and the last group; any other is written as 1. */
  lemma FilterBytes(m: SubscribeMessage)
    ensures var params := EncodeParams(m.params);
      && (m.filter == 1 || m.filter == 2 ==> EncodeFilter(m) == [m.filter] + params)
      && (m.filter == 3 ==>
            EncodeFilter(m) == [3] + (Encode(m.start.group) + Encode(m.start.object_)) + params)
      && (m.filter == 4 ==>
            EncodeFilter(m) == [4] + (Encode(m.start.group) + Encode(m.start.object_)) + Encode(m.endGroup) + params)
      && (m.filter == 0 || m.filter > 4 ==> EncodeFilter(m) == [1] + params)
  {
    var start, end, params := EncodeLocation(m.start), Encode(m.endGroup), EncodeParams(m.params);
    OneByte(if 1 <= m.filter <= 4 then m.filter else 1);
    if m.filter == 3 {
      assert start + [] == start;
      Assoc([3], start, params);
    } else if m.filter == 4 {
      Assoc([4], start, end);
      Assoc([4], start + end, params);
    } else {
      assert [] + params == params;
    }
  }

  /** The whole body: id, namespace, name, three flag bytes, and from the filter on as `FilterBytes` says. */
  lemma SubscribeBytes(m: SubscribeMessage)
    ensures EncodeSubscribe(m) ==
            Encode(m.id) + EncodeTuple(m.track) + (Encode(|m.name|) + m.name) +
            [m.priority, m.groupOrder, m.forward] + EncodeFilter(m)
  {
    var id, track, name, flags := Encode(m.id), EncodeTuple(m.track), EncodeBlob(m.name),
      [m.priority, m.groupOrder, m.forward];
    Assoc(id + track + name, flags, EncodeFilter(m));
    Assoc(id + track, name, EncodeFlags(m));
    Assoc(id, track, name + EncodeFlags(m));
  }

  /** What is read from such bytes, whoever wrote them. */
  lemma SubscribeRead(m: SubscribeMessage, tail: Bytes, rest: Bytes)
    requires m.groupOrder <= 2 && m.forward <= 1 && 1 <= m.filter <= 4
    requires tail == if m.filter <= 2 then [m.filter]
                     else if m.filter == 3 then [3] + (Encode(m.start.group) + Encode(m.start.object_))
                     else [4] + (Encode(m.start.group) + Encode(m.start.object_)) + Encode(m.endGroup)
    ensures var head := Encode(m.id) + EncodeTuple(m.track) + (Encode(|m.name|) + m.name) +
                        [m.priority, m.groupOrder, m.forward];
      ParseSubscribe(head + (tail + EncodeParams(m.params)) + rest) ==
      Success((SubscribeMessage(m.id, m.track, m.name, m.priority, m.groupOrder, m.forward, m.filter,
                                if m.filter <= 2 then Location(0, 0) else m.start,
                                if m.filter <= 3 then 0 else m.endGroup, CanonicalList(m.params)), rest))
  {
    FilterBytes(m);
    SubscribeBytes(m);
    SubscribeArrives(m, rest);
  }

  lemma FilterRefused(n: SubscribeMessage, filter: VarInt, rest: Bytes)
    requires filter == 0 || filter > 4
    ensures ParseFilter(n, Encode(filter) + rest) == Failure(InvalidFilterType)
  {
    EncodeParse(filter, rest);
  }

  // ----- FETCH -----

  /** Type 1 (standalone) names a namespace, a track and two places; the joining types and any other are followed by
      two integers, the ID of a subscription and where to start. */
  lemma FetchBytes(m: FetchMessage)
    ensures var head, params := Encode(m.id) + [m.priority, m.groupOrder], EncodeParams(m.params);
      && (m.fetchType == 1 ==>
            EncodeFetch(m) ==
            head + [1] + (EncodeTuple(m.track) + (Encode(|m.name|) + m.name) +
            (Encode(m.start.group) + Encode(m.start.object_)) + (Encode(m.end.group) + Encode(m.end.object_))) + params)
      && (m.fetchType != 1 ==>
            EncodeFetch(m) == head + Encode(m.fetchType) + (Encode(m.joiningId) + Encode(m.joiningStart)) + params)
  {
    var id, flags, typ, target, params := Encode(m.id), [m.priority, m.groupOrder], Encode(m.fetchType),
      EncodeTarget(m), EncodeParams(m.params);
    OneByte(1);
    Assoc(id + flags + typ, target, params);
    Assoc(id + flags, typ, target + params);
    Assoc(id, flags, typ + (target + params));
    var track, name, start, end :=
      EncodeTuple(m.track), EncodeBlob(m.name), EncodeLocation(m.start), EncodeLocation(m.end);
    Assoc(track + name, start, end);
    Assoc(track, name, start + end);
  }

  /** Types 1, 2 and 3 are read, each with the fields of its own; no other is. */
  lemma FetchRead(m: FetchMessage, target: Bytes, rest: Bytes)
    requires m.groupOrder <= 2
    requires target == if m.fetchType == 1
                       then EncodeTuple(m.track) + (Encode(|m.name|) + m.name) +
                            (Encode(m.start.group) + Encode(m.start.object_)) +
                            (Encode(m.end.group) + Encode(m.end.object_))
                       else Encode(m.joiningId) + Encode(m.joiningStart)
    ensures var body := Encode(m.id) + [m.priority, m.groupOrder] + Encode(m.fetchType) + target +
                        EncodeParams(m.params);
      var none, ps := Location(0, 0), CanonicalList(m.params);
      ParseFetch(body + rest) ==
      if m.fetchType == 1
      then Success((FetchMessage(m.id, m.priority, m.groupOrder, 1, m.track, m.name, m.start, m.end, 0, 0, ps), rest))
      else if m.fetchType == 2 || m.fetchType == 3
      then Success((FetchMessage(m.id, m.priority, m.groupOrder, m.fetchType, [], [], none, none, m.joiningId,
                                 m.joiningStart, ps), rest))
      else Failure(InvalidFetchType)
  {
    OneByte(1);
    FetchBytes(m);
    FetchArrives(m, rest);
  }

  // ----- The other bodies with flags -----

  lemma SubscribeUpdateBytes(m: SubscribeUpdateMessage)
    ensures EncodeSubscribeUpdate(m) ==
            Encode(m.id) + (Encode(m.start.group) + Encode(m.start.object_)) + Encode(m.endGroup) +
            [m.priority, m.forward] + EncodeParams(m.params)
  {
    var id, start, end, flags := Encode(m.id), EncodeLocation(m.start), Encode(m.endGroup), [m.priority, m.forward];
    Assoc(id + start + end, flags, EncodeParams(m.params));
    Assoc(id + start, end, EncodeUpdateTail(m));
    Assoc(id, start, end + EncodeUpdateTail(m));
  }

  /** The largest location is there exactly when the content byte is 1. */
  lemma SubscribeOkBytes(m: SubscribeOkMessage)
    requires Writable(m)
    ensures var head := Encode(m.id) + Encode(m.alias) + Encode(m.expires);
      EncodeSubscribeOk(m) ==
      if m.contentExists
      then head + [m.groupOrder, 1] + (Encode(m.largest.group) + Encode(m.largest.object_)) + EncodeParams(m.params)
      else head + [m.groupOrder, 0] + EncodeParams(m.params)
  {
    var id, alias, expires, params := Encode(m.id), Encode(m.alias), Encode(m.expires), EncodeParams(m.params);
    var flags, largest := [m.groupOrder, if m.contentExists then 1 else 0],
      if m.contentExists then EncodeLocation(m.largest) else [];
    Assoc(id, alias, expires + EncodeContent(m));
    Assoc(id + alias, expires, EncodeContent(m));
    Assoc(id + alias + expires, flags, largest + params);
    Assoc(id + alias + expires + flags, largest, params);
    assert [] + params == params;
  }

  lemma WrapShifts(x: int)
    ensures var w := Wrap64(x);
      -0x8000_0000_0000_0000 <= w < 0x8000_0000_0000_0000 && (x - w) % 0x1_0000_0000_0000_0000 == 0
  {
    var q := (x + 0x8000_0000_0000_0000) / 0x1_0000_0000_0000_0000;
    Unique(x - Wrap64(x), 0x1_0000_0000_0000_0000, q, 0);
  }

  lemma WrapFits(x: int)
    requires -0x8000_0000_0000_0000 <= x < 0x8000_0000_0000_0000
    ensures Wrap64(x) == x
  {
    Unique(x + 0x8000_0000_0000_0000, 0x1_0000_0000_0000_0000, 0, x + 0x8000_0000_0000_0000);
  }

  /** The reader takes the number for milliseconds, a million nanoseconds each, in a signed 64-bit integer. */
  lemma Milliseconds(v: VarInt)
    ensures var x := AsMilliseconds(v);
      -0x8000_0000_0000_0000 <= x < 0x8000_0000_0000_0000 && (v * 1_000_000 - x) % 0x1_0000_0000_0000_0000 == 0
    ensures v <= 9_223_372_036_854 ==> AsMilliseconds(v) == v * 1_000_000
  {
    WrapShifts(v * 1_000_000);
    if v <= 9_223_372_036_854 {
      WrapFits(v * 1_000_000);
    }
  }

  lemma SubscribeOkRead(m: SubscribeOkMessage, rest: Bytes)
    requires Writable(m) && m.groupOrder <= 2 && m.expires <= 9_223_372_036_854
    ensures ParseSubscribeOk(EncodeSubscribeOk(m) + rest) ==
            Success((SubscribeOkMessage(m.id, m.alias, m.expires * 1_000_000, m.groupOrder, m.contentExists,
                                        if m.contentExists then m.largest else Location(0, 0),
                                        CanonicalList(m.params)), rest))
  {
    Milliseconds(m.expires);
    OkRead(m, AsMilliseconds(m.expires), rest);
  }

  lemma OkRead(m: SubscribeOkMessage, expires: int, rest: Bytes)
    requires Writable(m) && m.groupOrder <= 2 && expires == AsMilliseconds(m.expires)
    ensures ParseSubscribeOk(EncodeSubscribeOk(m) + rest) ==
            Success((SubscribeOkMessage(m.id, m.alias, expires, m.groupOrder, m.contentExists,
                                        if m.contentExists then m.largest else Location(0, 0),
                                        CanonicalList(m.params)), rest))
  {
    SubscribeOkArrives(m, rest);
  }

  lemma FetchOkBytes(m: FetchOkMessage)
    ensures EncodeFetchOk(m) ==
            Encode(m.id) + [m.groupOrder, m.endOfTrack] + (Encode(m.end.group) + Encode(m.end.object_)) +
            EncodeParams(m.params)
  {
    var id, flags, end, params := Encode(m.id), [m.groupOrder, m.endOfTrack], EncodeLocation(m.end),
      EncodeParams(m.params);
    Assoc(id + flags, end, params);
    Assoc(id, flags, end + params);
  }
}
