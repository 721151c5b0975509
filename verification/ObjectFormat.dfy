/** The bytes of object streams written out: what writers produce, and what a reader makes of every stream type,
    also those that no writer here produces. */
module ObjectFormat {
  import opened Varint
  import opened Fields
  import opened ObjectStream
  import opened WireFormat

  // ----- Stream headers -----

  /** A subgroup stream has type 0x0d, a fetch stream 0x05. */
  lemma HeaderBytes(id: VarInt, group: VarInt, subgroup: VarInt, priority: Byte)
    ensures EncodeSubgroupHeader(id, group, subgroup, priority) ==
            [0x0d] + Encode(id) + Encode(group) + Encode(subgroup) + [priority]
    ensures EncodeFetchHeader(id) == [0x05] + Encode(id)
  {
    OneByte(0x0d);
    OneByte(0x05);
    Assoc([0x0d] + Encode(id) + Encode(group), Encode(subgroup), [priority]);
    Assoc([0x0d] + Encode(id), Encode(group), Encode(subgroup) + [priority]);
    Assoc([0x0d], Encode(id), Encode(group) + (Encode(subgroup) + [priority]));
  }

  lemma TypeRead(kind: Byte, after: Bytes)
    requires kind < 0x40
    ensures ReadInt([kind] + after) == Success((kind, after))
  {
    OneByte(kind);
    EncodeReadInt(kind, after);
  }

  lemma HeaderRead(kind: Byte, s0: Bytes, s1: Bytes, s2: Bytes, s3: Bytes, alias: VarInt, group: VarInt,
                   subgroup: VarInt)
    requires kind in {0x08, 0x09, 0x0a, 0x0b, 0x0c, 0x0d} && s3 != []
    requires ReadInt(s0) == Success((alias, s1)) && ReadInt(s1) == Success((group, s2))
    requires if kind == 0x0c || kind == 0x0d then ReadInt(s2) == Success((subgroup, s3)) else s3 == s2 && subgroup == 0
    ensures OpenStream([kind] + s0) ==
            Success((Header(kind, alias, kind == 0x09 || kind == 0x0b || kind == 0x0d, group, subgroup, s3[0]),
                     s3[1..]))
  {
    TypeRead(kind, s0);
  }

  /** Types 0x0c and 0x0d carry a subgroup ID, the others do not; the odd ones have objects with extension headers. */
  lemma SubgroupHeaderRead(kind: Byte, alias: VarInt, group: VarInt, subgroup: VarInt, priority: Byte, rest: Bytes)
    requires kind == 0x0c || kind == 0x0d
    ensures OpenStream([kind] + (Encode(alias) + (Encode(group) + (Encode(subgroup) + ([priority] + rest))))) ==
            Success((Header(kind, alias, kind == 0x0d, group, subgroup, priority), rest))
  {
    var s3 := [priority] + rest;
    var s2 := Encode(subgroup) + s3;
    var s1 := Encode(group) + s2;
    EncodeReadInt(alias, s1);
    EncodeReadInt(group, s2);
    EncodeReadInt(subgroup, s3);
    ConsTail(priority, rest);
    HeaderRead(kind, Encode(alias) + s1, s1, s2, s3, alias, group, subgroup);
  }

  lemma ShortHeaderRead(kind: Byte, alias: VarInt, group: VarInt, priority: Byte, rest: Bytes)
    requires kind in {0x08, 0x09, 0x0a, 0x0b}
    ensures OpenStream([kind] + (Encode(alias) + (Encode(group) + ([priority] + rest)))) ==
            Success((Header(kind, alias, kind == 0x09 || kind == 0x0b, group, 0, priority), rest))
  {
    var s2 := [priority] + rest;
    var s1 := Encode(group) + s2;
    EncodeReadInt(alias, s1);
    EncodeReadInt(group, s2);
    ConsTail(priority, rest);
    HeaderRead(kind, Encode(alias) + s1, s1, s2, s2, alias, group, 0);
  }

  lemma FetchHeaderRead(id: VarInt, rest: Bytes)
    ensures OpenStream([0x05] + (Encode(id) + rest)) == Success((Header(0x05, id, true, 0, 0, 0), rest))
  {
    TypeRead(0x05, Encode(id) + rest);
    EncodeReadInt(id, rest);
  }

  lemma OtherStreamRefused(kind: VarInt, rest: Bytes)
    requires kind != 0x05 && !(0x08 <= kind <= 0x0d)
    ensures OpenStream(Encode(kind) + rest) == Failure(InvalidStreamType)
  {
    EncodeReadInt(kind, rest);
  }

  // ----- Objects -----

  /** Object ID, the byte length of the extension headers and the headers, the payload length, then the status of an
      object without a payload or the payload. */
  lemma SubgroupObjectBytes(o: Object)
    ensures EncodeSubgroupObject(o) ==
            Encode(o.id) + (Encode(|EncodeKvps(o.extensions)|) + EncodeKvps(o.extensions)) +
            (if o.payload == [] then [0] + Encode(o.status) else Encode(|o.payload|) + o.payload)
  {
    OneByte(0);
    Assoc(Encode(o.id), EncodeBlob(EncodeKvps(o.extensions)), EncodeContent(o));
  }

  /** In a fetch stream, group, subgroup, object ID and priority come first. */
  lemma FetchObjectBytes(o: Object)
    ensures EncodeFetchObject(o) ==
            Encode(o.group) + Encode(o.subgroup) + Encode(o.id) + [o.priority] +
            (Encode(|EncodeKvps(o.extensions)|) + EncodeKvps(o.extensions)) +
            (if o.payload == [] then [0] + Encode(o.status) else Encode(|o.payload|) + o.payload)
  {
    var group, subgroup, id, prio := Encode(o.group), Encode(o.subgroup), Encode(o.id), [o.priority];
    OneByte(0);
    Assoc(group + subgroup + id + prio, EncodeBlob(EncodeKvps(o.extensions)), EncodeContent(o));
    Assoc(group + subgroup + id, prio, EncodeTail(o));
    Assoc(group + subgroup, id, prio + EncodeTail(o));
    Assoc(group, subgroup, id + (prio + EncodeTail(o)));
  }

  lemma ContentRead(n: Object, status: VarInt, payload: Blob, rest: Bytes)
    requires n.status == 0 && n.payload == []
    ensures ReadContent(n, if payload == [] then [0] + (Encode(status) + rest)
                           else Encode(|payload|) + (payload + rest)) ==
            Success((n.(status := if payload == [] then status else 0, payload := payload), rest))
  {
    if payload == [] {
      TypeRead(0, Encode(status) + rest);
      EncodeReadInt(status, rest);
    } else {
      EncodeReadInt(|payload|, payload + rest);
      assert (payload + rest)[..|payload|] == payload && (payload + rest)[|payload|..] == rest;
    }
  }

  /** A payload that is cut short: end of input when nothing of it is there, a truncated input otherwise. */
  lemma ShortPayload(n: Object, length: VarInt, part: Bytes)
    requires |part| < length
    ensures ReadContent(n, Encode(length) + part) == Failure(if part == [] then Eof else Truncated)
  {
    EncodeReadInt(length, part);
  }

  /** An empty list of extension headers is one zero byte; types without extension headers have no such byte. */
  lemma TailRead(n: Object, hasExtensions: bool, content: Bytes, r: Parsed<Object>)
    requires ReadContent(n, content) == r
    ensures ReadTail(n, hasExtensions, (if hasExtensions then [0] else []) + content) == r
  {
    TypeRead(0, content);
    assert [] + content == content;
  }

  /** An object of a subgroup stream, whichever of the six types: everything but ID, status and payload is the
      header's. */
  lemma SubgroupObjectRead(h: Header, id: VarInt, status: VarInt, payload: Blob, rest: Bytes)
    requires h.kind in {0x08, 0x09, 0x0a, 0x0b, 0x0c, 0x0d}
    ensures ParseObject(h, Encode(id) + ((if h.hasExtensions then [0] else []) +
                        (if payload == [] then [0] + (Encode(status) + rest)
                         else Encode(|payload|) + (payload + rest)))) ==
            Success((Object(h.identifier, h.group, h.subgroup, id, h.priority, [],
                            if payload == [] then status else 0, payload), rest))
  {
    var n := Object(h.identifier, h.group, h.subgroup, id, h.priority, [], 0, []);
    var content := if payload == [] then [0] + (Encode(status) + rest) else Encode(|payload|) + (payload + rest);
    var tail := (if h.hasExtensions then [0] else []) + content;
    ContentRead(n, status, payload, rest);
    TailRead(n, h.hasExtensions, content, ReadContent(n, content));
    EncodeReadInt(id, tail);
  }

  /** An object of a fetch stream has its own group, subgroup and priority. */
  lemma FetchObjectRead(request: VarInt, o: Object, rest: Bytes)
    requires o.alias == 0 && o.extensions == [] && (o.payload == [] || o.status == 0)
    ensures ParseObject(Header(0x05, request, true, 0, 0, 0),
                        Encode(o.group) + (Encode(o.subgroup) + (Encode(o.id) + ([o.priority] +
                        ([0] + (if o.payload == [] then [0] + (Encode(o.status) + rest)
                                else Encode(|o.payload|) + (o.payload + rest))))))) ==
            Success((o, rest))
  {
    var n := o.(status := 0, payload := []);
    var content := if o.payload == [] then [0] + (Encode(o.status) + rest)
      else Encode(|o.payload|) + (o.payload + rest);
    ContentRead(n, o.status, o.payload, rest);
    TailRead(n, true, content, ReadContent(n, content));
    FetchHeadArrives(o, Object(0, 0, 0, 0, 0, [], 0, []), [0] + content);
  }
}
