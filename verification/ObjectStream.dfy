/** Object streams: a subgroup or fetch header and the objects after it.  Writers always use the layouts with
    extension headers, whose reader only ever succeeds on an empty list. */
module ObjectStream {
  import opened Varint
  import opened Fields

  // ----- Objects -----

  /** Extension headers whose length in bytes can be written. */
  type Extensions = ps: seq<KeyValue> | |EncodeKvps(ps)| < LIMIT witness []

  datatype Object = Object(
    alias: VarInt, group: VarInt, subgroup: VarInt, id: VarInt, priority: Byte,
    extensions: Extensions, status: VarInt, payload: Blob)

  /** A status is written only when there is no payload. */
  function EncodeContent(o: Object): Bytes {
    Encode(|o.payload|) + if o.payload == [] then Encode(o.status) else o.payload
  }

  function EncodeTail(o: Object): Bytes {
    EncodeBlob(EncodeKvps(o.extensions)) + EncodeContent(o)
  }

  function EncodeSubgroupObject(o: Object): Bytes {
    Encode(o.id) + EncodeTail(o)
  }

  function EncodeFetchObject(o: Object): Bytes {
    Encode(o.group) + (Encode(o.subgroup) + (Encode(o.id) + ([o.priority] + EncodeTail(o))))
  }

  // ----- Reading objects -----

  /** The error that ends the extension reader: it parses pair after pair until the list's bytes run out. */
  function ExtensionError(s: Bytes): WireError
    decreases |s|
  {
    var p := ReadPair(s);
    if p.Failure? then p.error else ExtensionError(p.value)
  }

  /** One pair read from a reader; what is left. */
  function ReadPair(s: Bytes): (r: Result<Bytes>)
    ensures r.Success? ==> |r.value| < |s|
  {
    var (key, rest) :- ReadInt(s);
    if key % 2 == 1 then
      var (l, rest2) :- ReadInt(rest);
      if |rest2| < l then Failure(if rest2 == [] then Eof else Truncated) else Success(rest2[l..])
    else
      var (_, rest2) :- ReadInt(rest);
      Success(rest2)
  }

  function Limited(s: Bytes, n: nat): Bytes {
    if |s| < n then s else s[..n]
  }

  /** Succeeds on the empty list only. */
  function ReadExtensions(s: Bytes): (r: Result<Bytes>)
    ensures r.Success? ==> |r.value| < |s|
  {
    var (l, rest) :- ReadInt(s);
    if l == 0 then Success(rest) else Failure(ExtensionError(Limited(rest, l)))
  }

  function ReadContent(o: Object, s: Bytes): (r: Parsed<Object>)
    ensures r.Success? ==> |r.value.1| < |s|
  {
    var (l, rest) :- ReadInt(s);
    if l == 0 then
      var (status, rest2) :- ReadInt(rest);
      Success((o.(status := status), rest2))
    else if |rest| < l then Failure(if rest == [] then Eof else Truncated)
    else Success((o.(payload := rest[..l]), rest[l..]))
  }

  function ReadTail(o: Object, hasExtensions: bool, s: Bytes): (r: Parsed<Object>)
    ensures r.Success? ==> |r.value.1| < |s|
  {
    var rest :- if hasExtensions then ReadExtensions(s) else Success(s);
    ReadContent(o, rest)
  }

  // ----- Streams -----

  const FETCH := 0x05
  const SUBGROUP_SID_EXT := 0x0d

  /** What the parser remembers of a stream header. */
  datatype Header = Header(
    kind: VarInt, identifier: VarInt, hasExtensions: bool, group: VarInt, subgroup: VarInt, priority: Byte)

  predicate KnownType(kind: VarInt) {
    kind == FETCH || 0x08 <= kind <= 0x0d
  }

  function EncodeSubgroupHeader(alias: VarInt, group: VarInt, subgroup: VarInt, priority: Byte): Bytes {
    Encode(SUBGROUP_SID_EXT) + (Encode(alias) + (Encode(group) + (Encode(subgroup) + [priority])))
  }

  function EncodeFetchHeader(id: VarInt): Bytes {
    Encode(FETCH) + Encode(id)
  }

  /** The subgroup ID is in the header only for types 0x0c and 0x0d, otherwise it stays zero. */
  function OpenSubgroup(kind: VarInt, s: Bytes): Parsed<Header> {
    var (alias, rest) :- ReadInt(s);
    var (group, rest2) :- ReadInt(rest);
    var (subgroup, rest3) :- if kind == 0x0c || kind == 0x0d then ReadInt(rest2) else Success((0, rest2));
    if rest3 == [] then Failure(Eof)
    else Success((Header(kind, alias, kind % 2 == 1, group, subgroup, rest3[0]), rest3[1..]))
  }

  function OpenStream(s: Bytes): Parsed<Header> {
    var (kind, rest) :- ReadInt(s);
    if kind == FETCH then
      var (id, rest2) :- ReadInt(rest);
      Success((Header(FETCH, id, true, 0, 0, 0), rest2))
    else if KnownType(kind) then OpenSubgroup(kind, rest)
    else Failure(InvalidStreamType)
  }

  function NewObject(h: Header): Object {
    Object(if h.kind == FETCH then 0 else h.identifier, h.group, h.subgroup, 0, h.priority, [], 0, [])
  }

  function ReadFetchHead(o: Object, s: Bytes): (r: Parsed<Object>)
    ensures r.Success? ==> |r.value.1| < |s|
  {
    var (group, rest) :- ReadInt(s);
    var (subgroup, rest2) :- ReadInt(rest);
    var (id, rest3) :- ReadInt(rest2);
    if rest3 == [] then Failure(Eof)
    else Success((o.(group := group, subgroup := subgroup, id := id, priority := rest3[0]), rest3[1..]))
  }

  function ReadSubgroupHead(o: Object, s: Bytes): (r: Parsed<Object>)
    ensures r.Success? ==> |r.value.1| < |s|
  {
    var (id, rest) :- ReadInt(s);
    Success((o.(id := id), rest))
  }

  /** One call of the parser. */
  function ParseObject(h: Header, s: Bytes): (r: Parsed<Object>)
    ensures r.Success? ==> |r.value.1| < |s|
  {
    if !KnownType(h.kind) then Failure(InvalidStreamType)
    else
      var (o, rest) :- if h.kind == FETCH then ReadFetchHead(NewObject(h), s) else ReadSubgroupHead(NewObject(h), s);
      ReadTail(o, h.hasExtensions, rest)
  }

  /** The reading loop: objects up to the first error; end of input is how a stream ends well. */
  function ReadObjects(h: Header, s: Bytes): (seq<Object>, WireError)
    decreases |s|
  {
    var o := ParseObject(h, s);
    if o.Failure? then ([], o.error)
    else
      var (os, e) := ReadObjects(h, o.value.1);
      ([o.value.0] + os, e)
  }

  // ----- What arrives -----

  /** The object a reader of the stream reports. */
  function Arrived(h: Header, o: Object): Object {
    var p := o.(extensions := [], status := if o.payload == [] then o.status else 0);
    if h.kind == FETCH then p.(alias := 0)
    else p.(alias := h.identifier, group := h.group, subgroup := h.subgroup, priority := h.priority)
  }

  lemma ContentRoundTrip(o: Object, n: Object, rest: Bytes)
    requires n == o.(status := 0, payload := [])
    ensures ReadContent(n, EncodeContent(o) + rest) ==
            Success((o.(status := if o.payload == [] then o.status else 0), rest))
  {
    var content := if o.payload == [] then Encode(o.status) else o.payload;
    Assoc(Encode(|o.payload|), content, rest);
    EncodeReadInt(|o.payload|, content + rest);
    if o.payload == [] {
      EncodeReadInt(o.status, rest);
    } else {
      assert (content + rest)[..|content|] == content && (content + rest)[|content|..] == rest;
    }
  }

  lemma PairRead(p: KeyValue, rest: Bytes)
    ensures ReadPair(EncodeKvp(p) + rest) == Success(rest)
  {
    var body := if p.key % 2 == 1 then EncodeBlob(p.bytes) else Encode(p.number);
    Assoc(Encode(p.key), body, rest);
    EncodeReadInt(p.key, body + rest);
    if p.key % 2 == 1 {
      Assoc(Encode(|p.bytes|), p.bytes, rest);
      EncodeReadInt(|p.bytes|, p.bytes + rest);
      assert (p.bytes + rest)[|p.bytes|..] == rest;
    } else {
      EncodeReadInt(p.number, rest);
    }
  }

  /** The extension reader takes the end of any complete list for the end of the stream. */
  lemma {:induction false} ExtensionsEndStream(ps: seq<KeyValue>)
    ensures ExtensionError(EncodeKvps(ps)) == Eof
  {
    if ps != [] {
      PairRead(ps[0], EncodeKvps(ps[1..]));
      ExtensionsEndStream(ps[1..]);
    }
  }

  lemma KvpsEmptyIff(ps: seq<KeyValue>)
    ensures EncodeKvps(ps) == [] <==> ps == []
  {
    if ps != [] {
      assert |EncodeKvp(ps[0])| > 0;
    }
  }

  /** The length of the extensions, the extensions, then the content. */
  lemma TailFields(n: Object, length: Bytes, kvps: Bytes, content: Bytes, rest: Bytes, r: Parsed<Object>)
    requires |kvps| < LIMIT && ReadInt(length + (kvps + (content + rest))) == Success((|kvps|, kvps + (content + rest)))
    requires if kvps == [] then ReadContent(n, content + rest) == r else r == Failure(ExtensionError(kvps))
    ensures ReadTail(n, true, ((length + kvps) + content) + rest) == r
  {
    Assoc(length + kvps, content, rest);
    Assoc(length, kvps, content + rest);
    if kvps == [] {
      assert kvps + (content + rest) == content + rest;
    } else {
      assert Limited(kvps + (content + rest), |kvps|) == kvps;
    }
  }

  lemma TailArrives(o: Object, n: Object, rest: Bytes)
    requires n == o.(status := 0, payload := [], extensions := [])
    ensures ReadTail(n, true, EncodeTail(o) + rest) ==
      if o.extensions != [] then Failure(Eof)
      else Success((o.(status := if o.payload == [] then o.status else 0), rest))
  {
    var kvps, content := EncodeKvps(o.extensions), EncodeContent(o);
    EncodeReadInt(|kvps|, kvps + (content + rest));
    KvpsEmptyIff(o.extensions);
    if o.extensions == [] {
      ContentRoundTrip(o, n, rest);
    } else {
      ExtensionsEndStream(o.extensions);
    }
    TailFields(n, Encode(|kvps|), kvps, content, rest,
               if o.extensions != [] then Failure(Eof)
               else Success((o.(status := if o.payload == [] then o.status else 0), rest)));
  }

  function EncodeObject(h: Header, o: Object): Bytes {
    if h.kind == FETCH then EncodeFetchObject(o) else EncodeSubgroupObject(o)
  }

  /** The headers writers produce. */
  predicate Written(h: Header) {
    h.hasExtensions && (if h.kind == FETCH then h.group == 0 && h.subgroup == 0 && h.priority == 0
                        else h.kind == SUBGROUP_SID_EXT)
  }

  lemma FetchHeadArrives(o: Object, n: Object, rest: Bytes)
    ensures var head := Encode(o.group) + (Encode(o.subgroup) + (Encode(o.id) + ([o.priority] + rest)));
      ReadFetchHead(n, head) ==
      Success((n.(group := o.group, subgroup := o.subgroup, id := o.id, priority := o.priority), rest))
  {
    EncodeReadInt(o.group, Encode(o.subgroup) + (Encode(o.id) + ([o.priority] + rest)));
    EncodeReadInt(o.subgroup, Encode(o.id) + ([o.priority] + rest));
    EncodeReadInt(o.id, [o.priority] + rest);
    assert ([o.priority] + rest)[1..] == rest;
  }

  lemma FetchObjectArrives(h: Header, o: Object, rest: Bytes)
    requires Written(h) && h.kind == FETCH
    ensures ParseObject(h, EncodeObject(h, o) + rest) ==
      if o.extensions != [] then Failure(Eof) else Success((Arrived(h, o), rest))
  {
    var group, subgroup, id := Encode(o.group), Encode(o.subgroup), Encode(o.id);
    var prio, tail := [o.priority], EncodeTail(o);
    Assoc(group, subgroup + (id + (prio + tail)), rest);
    Assoc(subgroup, id + (prio + tail), rest);
    Assoc(id, prio + tail, rest);
    Assoc(prio, tail, rest);
    FetchHeadArrives(o, NewObject(h), tail + rest);
    TailArrives(o.(alias := 0), o.(alias := 0, status := 0, payload := [], extensions := []), rest);
  }

  /** Object ID, then the rest of the object. */
  lemma SubgroupFields(h: Header, id: Bytes, tail: Bytes, rest: Bytes, v: VarInt, r: Parsed<Object>)
    requires h.kind != FETCH && KnownType(h.kind) && ReadInt(id + (tail + rest)) == Success((v, tail + rest))
    requires ReadTail(NewObject(h).(id := v), h.hasExtensions, tail + rest) == r
    ensures ParseObject(h, (id + tail) + rest) == r
  {
    Assoc(id, tail, rest);
  }

  lemma SubgroupObjectArrives(h: Header, o: Object, rest: Bytes)
    requires Written(h) && h.kind != FETCH
    ensures ParseObject(h, EncodeObject(h, o) + rest) ==
      if o.extensions != [] then Failure(Eof) else Success((Arrived(h, o), rest))
  {
    EncodeReadInt(o.id, EncodeTail(o) + rest);
    var p := o.(alias := h.identifier, group := h.group, subgroup := h.subgroup, priority := h.priority);
    TailArrives(p, p.(status := 0, payload := [], extensions := []), rest);
    SubgroupFields(h, Encode(o.id), EncodeTail(o), rest, o.id,
                   if o.extensions != [] then Failure(Eof) else Success((Arrived(h, o), rest)));
  }

  lemma ObjectArrives(h: Header, o: Object, rest: Bytes)
    requires Written(h)
    ensures ParseObject(h, EncodeObject(h, o) + rest) ==
      if o.extensions != [] then Failure(Eof) else Success((Arrived(h, o), rest))
  {
    if h.kind == FETCH {
      FetchObjectArrives(h, o, rest);
    } else {
      SubgroupObjectArrives(h, o, rest);
    }
  }

  function EncodeObjects(h: Header, os: seq<Object>): Bytes {
    if os == [] then [] else EncodeObject(h, os[0]) + EncodeObjects(h, os[1..])
  }

  /** The objects a reader gets: all those before the first with extension headers. */
  function Readable(h: Header, os: seq<Object>): (rs: seq<Object>)
    ensures |rs| <= |os| && forall i :: 0 <= i < |rs| ==> rs[i] == Arrived(h, os[i])
  {
    if os == [] || os[0].extensions != [] then [] else [Arrived(h, os[0])] + Readable(h, os[1..])
  }

  /** Any objects written after a header are read back in order with the header's fields filled in, up to the
      first that has extension headers; either way the reader reports a clean end of stream. */
  lemma {:induction false} ObjectsArrive(h: Header, os: seq<Object>)
    requires Written(h)
    ensures ReadObjects(h, EncodeObjects(h, os)) == (Readable(h, os), Eof)
  {
    if os == [] {
      assert EncodeObjects(h, os) == [];
    } else {
      ObjectArrives(h, os[0], EncodeObjects(h, os[1..]));
      ObjectsArrive(h, os[1..]);
    }
  }

  predicate Plain(os: seq<Object>) {
    forall i :: 0 <= i < |os| ==> os[i].extensions == []
  }

  lemma {:induction false} ReadableAllIff(h: Header, os: seq<Object>)
    ensures |Readable(h, os)| == |os| <==> Plain(os)
  {
    if os != [] {
      ReadableAllIff(h, os[1..]);
      assert Plain(os) <==> os[0].extensions == [] && Plain(os[1..]) by {
        assert forall i :: 0 < i < |os| ==> os[i] == os[1..][i - 1];
        assert forall i :: 0 <= i < |os| - 1 ==> os[1..][i] == os[i + 1];
      }
    }
  }

  /** An object that has nothing the stream drops or replaces. */
  predicate Intact(h: Header, o: Object) {
    && o.extensions == [] && (o.payload == [] || o.status == 0)
    && if h.kind == FETCH then o.alias == 0
       else o.alias == h.identifier && o.group == h.group && o.subgroup == h.subgroup && o.priority == h.priority
  }

  lemma IntactIff(h: Header, o: Object)
    ensures o.extensions == [] && Arrived(h, o) == o <==> Intact(h, o)
  {}

  /** The object stream round trip: all objects are read back, each with the header's fields, exactly when none
      has extension headers, and read back unchanged exactly when they are intact. */
  lemma ObjectsRoundTripIff(h: Header, os: seq<Object>)
    requires Written(h)
    ensures var r := ReadObjects(h, EncodeObjects(h, os));
      && r.1 == Eof
      && (|r.0| == |os| <==> Plain(os))
      && (r.0 == os <==> forall i :: 0 <= i < |os| ==> Intact(h, os[i]))
  {
    ObjectsArrive(h, os);
    ReadableAllIff(h, os);
    forall i | 0 <= i < |os|
      ensures os[i].extensions == [] && Arrived(h, os[i]) == os[i] <==> Intact(h, os[i])
    {
      IntactIff(h, os[i]);
    }
  }

  /** The five header fields, each read in turn. */
  lemma HeaderFields(k: Bytes, a: Bytes, g: Bytes, s: Bytes, priority: Byte, rest: Bytes,
                     alias: VarInt, group: VarInt, subgroup: VarInt)
    requires var t := [priority] + rest;
      && ReadInt(k + (a + (g + (s + t)))) == Success((SUBGROUP_SID_EXT, a + (g + (s + t))))
      && ReadInt(a + (g + (s + t))) == Success((alias, g + (s + t)))
      && ReadInt(g + (s + t)) == Success((group, s + t)) && ReadInt(s + t) == Success((subgroup, t))
    ensures OpenStream((k + (a + (g + (s + [priority])))) + rest) ==
            Success((Header(SUBGROUP_SID_EXT, alias, true, group, subgroup, priority), rest))
  {
    var p := [priority];
    Assoc(k, a + (g + (s + p)), rest);
    Assoc(a, g + (s + p), rest);
    Assoc(g, s + p, rest);
    Assoc(s, p, rest);
    assert (p + rest)[1..] == rest;
  }

  lemma SubgroupHeaderArrives(alias: VarInt, group: VarInt, subgroup: VarInt, priority: Byte, rest: Bytes)
    ensures var h := Header(SUBGROUP_SID_EXT, alias, true, group, subgroup, priority);
      Written(h) && OpenStream(EncodeSubgroupHeader(alias, group, subgroup, priority) + rest) == Success((h, rest))
  {
    var a, g, s, p := Encode(alias), Encode(group), Encode(subgroup), [priority];
    EncodeReadInt(SUBGROUP_SID_EXT, a + (g + (s + (p + rest))));
    EncodeReadInt(alias, g + (s + (p + rest)));
    EncodeReadInt(group, s + (p + rest));
    EncodeReadInt(subgroup, p + rest);
    HeaderFields(Encode(SUBGROUP_SID_EXT), a, g, s, priority, rest, alias, group, subgroup);
  }

  lemma FetchHeaderArrives(id: VarInt, rest: Bytes)
    ensures var h := Header(FETCH, id, true, 0, 0, 0);
      Written(h) && OpenStream(EncodeFetchHeader(id) + rest) == Success((h, rest))
  {
    Assoc(Encode(FETCH), Encode(id), rest);
    EncodeReadInt(FETCH, Encode(id) + rest);
    EncodeReadInt(id, rest);
  }

  /** A subgroup stream as it leaves the publisher. */
  lemma SubgroupStreamArrives(alias: VarInt, group: VarInt, subgroup: VarInt, priority: Byte, os: seq<Object>)
    ensures var h := Header(SUBGROUP_SID_EXT, alias, true, group, subgroup, priority);
      var s := OpenStream(EncodeSubgroupHeader(alias, group, subgroup, priority) + EncodeObjects(h, os));
      && s.Success? && s.value.0 == h
      && ReadObjects(h, s.value.1) == (Readable(h, os), Eof)
  {
    var h := Header(SUBGROUP_SID_EXT, alias, true, group, subgroup, priority);
    SubgroupHeaderArrives(alias, group, subgroup, priority, EncodeObjects(h, os));
    ObjectsArrive(h, os);
  }

  lemma FetchStreamArrives(id: VarInt, os: seq<Object>)
    ensures var h := Header(FETCH, id, true, 0, 0, 0);
      var s := OpenStream(EncodeFetchHeader(id) + EncodeObjects(h, os));
      && s.Success? && s.value.0 == h
      && ReadObjects(h, s.value.1) == (Readable(h, os), Eof)
  {
    var h := Header(FETCH, id, true, 0, 0, 0);
    FetchHeaderArrives(id, EncodeObjects(h, os));
    ObjectsArrive(h, os);
  }
}
