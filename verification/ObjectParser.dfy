/** The object stream parser as the source has it: a reader, the header's fields, and one object per call;
    and the writers that grow a buffer. */
module ObjectParser {
  import opened Varint
  import opened Fields
  import opened ByteReaders
  import opened ObjectStream
  import WireLoops

  // ----- Writing -----

  method AppendTail(buf: Bytes, o: Object) returns (out: Bytes)
    ensures out == buf + EncodeTail(o)
  {
    ghost var ext := EncodeBlob(EncodeKvps(o.extensions));
    out := WireLoops.AppendLength(buf, o.extensions);
    out := out + Encode(|o.payload|);
    if |o.payload| == 0 {
      Assoc(buf + ext, Encode(|o.payload|), Encode(o.status));
      out := out + Encode(o.status);
    } else {
      Assoc(buf + ext, Encode(|o.payload|), o.payload);
      out := out + o.payload;
    }
    Assoc(buf, ext, EncodeContent(o));
  }

  method AppendSubgroup(buf: Bytes, o: Object) returns (out: Bytes)
    ensures out == buf + EncodeSubgroupObject(o)
  {
    out := buf + Encode(o.id);
    out := AppendTail(out, o);
    Assoc(buf, Encode(o.id), EncodeTail(o));
  }

  method AppendFetch(buf: Bytes, o: Object) returns (out: Bytes)
    ensures out == buf + EncodeFetchObject(o)
  {
    ghost var group, subgroup, id, prio, tail :=
      Encode(o.group), Encode(o.subgroup), Encode(o.id), [o.priority], EncodeTail(o);
    out := buf + Encode(o.group);
    out := out + Encode(o.subgroup);
    out := out + Encode(o.id);
    out := out + [o.priority];
    out := AppendTail(out, o);
    Assoc(((buf + group) + subgroup) + id, prio, tail);
    Assoc((buf + group) + subgroup, id, prio + tail);
    Assoc(buf + group, subgroup, id + (prio + tail));
    Assoc(buf, group, subgroup + (id + (prio + tail)));
  }

  method AppendSubgroupHeader(buf: Bytes, alias: VarInt, group: VarInt, subgroup: VarInt, priority: Byte)
    returns (out: Bytes)
    ensures out == buf + EncodeSubgroupHeader(alias, group, subgroup, priority)
  {
    ghost var k, a, g, s, p := Encode(SUBGROUP_SID_EXT), Encode(alias), Encode(group), Encode(subgroup), [priority];
    out := buf + Encode(SUBGROUP_SID_EXT);
    out := out + Encode(alias);
    out := out + Encode(group);
    out := out + Encode(subgroup);
    out := out + [priority];
    Assoc(((buf + k) + a) + g, s, p);
    Assoc((buf + k) + a, g, s + p);
    Assoc(buf + k, a, g + (s + p));
    Assoc(buf, k, a + (g + (s + p)));
  }

  // ----- Reading -----

  /** The outcome of a reading step, and what it left in the reader, against a parser. */
  ghost predicate Follows<T>(r: Result<T>, left: Bytes, spec: Parsed<T>) {
    if spec.Success? then r == Success(spec.value.0) && left == spec.value.1 else r == Failure(spec.error)
  }

  /** Pair after pair until the list's bytes run out, so never without an error unless the list is empty. */
  method SkipExtensions(reader: ByteReader) returns (r: Result<()>)
    modifies reader
    ensures var spec := ReadExtensions(old(reader.rest));
      if spec.Success? then r == Success(()) && reader.rest == spec.value else r == Failure(spec.error)
  {
    var length := reader.ReadVarint();
    if length.Failure? {
      return Failure(length.error);
    }
    if length.value == 0 {
      return Success(());
    }
    var lr := new ByteReader(Limited(reader.rest, length.value));
    ghost var e := ExtensionError(lr.rest);
    while true
      invariant fresh(lr) && e == ExtensionError(lr.rest)
      decreases |lr.rest|
    {
      ghost var before := lr.rest;
      var pair := SkipPair(lr);
      if pair.Failure? {
        return Failure(pair.error);
      }
    }
  }

  method SkipPair(lr: ByteReader) returns (r: Result<()>)
    modifies lr
    ensures var spec := ReadPair(old(lr.rest));
      if spec.Success? then r == Success(()) && lr.rest == spec.value else r == Failure(spec.error)
  {
    var key := lr.ReadVarint();
    if key.Failure? {
      return Failure(key.error);
    }
    if key.value % 2 == 1 {
      var length := lr.ReadVarint();
      if length.Failure? {
        return Failure(length.error);
      }
      var bytes := lr.ReadFull(length.value);
      if bytes.Failure? {
        return Failure(bytes.error);
      }
      return Success(());
    }
    var number := lr.ReadVarint();
    if number.Failure? {
      return Failure(number.error);
    }
    r := Success(());
  }

  method ReadObjectContent(o: Object, reader: ByteReader) returns (r: Result<Object>)
    modifies reader
    ensures Follows(r, reader.rest, ReadContent(o, old(reader.rest)))
  {
    var length := reader.ReadVarint();
    if length.Failure? {
      return Failure(length.error);
    }
    if length.value == 0 {
      var status := reader.ReadVarint();
      if status.Failure? {
        return Failure(status.error);
      }
      return Success(o.(status := status.value));
    }
    var payload := reader.ReadFull(length.value);
    if payload.Failure? {
      return Failure(payload.error);
    }
    r := Success(o.(payload := payload.value));
  }

  method ReadObjectTail(o: Object, hasExtensions: bool, reader: ByteReader) returns (r: Result<Object>)
    modifies reader
    ensures Follows(r, reader.rest, ReadTail(o, hasExtensions, old(reader.rest)))
  {
    if hasExtensions {
      var ext := SkipExtensions(reader);
      if ext.Failure? {
        return Failure(ext.error);
      }
    }
    r := ReadObjectContent(o, reader);
  }

  method ReadFetch(o: Object, reader: ByteReader) returns (r: Result<Object>)
    modifies reader
    ensures Follows(r, reader.rest, ReadFetchHead(o, old(reader.rest)))
  {
    var group := reader.ReadVarint();
    if group.Failure? {
      return Failure(group.error);
    }
    var subgroup := reader.ReadVarint();
    if subgroup.Failure? {
      return Failure(subgroup.error);
    }
    var id := reader.ReadVarint();
    if id.Failure? {
      return Failure(id.error);
    }
    var priority := reader.ReadByte();
    if priority.Failure? {
      return Failure(priority.error);
    }
    r := Success(o.(group := group.value, subgroup := subgroup.value, id := id.value, priority := priority.value));
  }

  method ReadSubgroupHeader(kind: VarInt, reader: ByteReader) returns (r: Result<Header>)
    modifies reader
    ensures Follows(r, reader.rest, OpenSubgroup(kind, old(reader.rest)))
  {
    var alias := reader.ReadVarint();
    if alias.Failure? {
      return Failure(alias.error);
    }
    var group := reader.ReadVarint();
    if group.Failure? {
      return Failure(group.error);
    }
    var subgroup: Result<VarInt> := Success(0);
    if kind == 0x0c || kind == 0x0d {
      subgroup := reader.ReadVarint();
      if subgroup.Failure? {
        return Failure(subgroup.error);
      }
    }
    var priority := reader.ReadByte();
    if priority.Failure? {
      return Failure(priority.error);
    }
    r := Success(Header(kind, alias.value, kind % 2 == 1, group.value, subgroup.value, priority.value));
  }

  class ObjectStreamParser {
    const reader: ByteReader
    const kind: VarInt
    const identifier: VarInt    // track alias or request ID
    var hasSubgroupId: bool
    const hasExtensions: bool
    const priority: Byte
    const group: VarInt
    var subgroup: VarInt

    ghost function HeaderOf(): Header
      reads this
    {
      Header(kind, identifier, hasExtensions, group, subgroup, priority)
    }

    constructor (r: ByteReader, h: Header)
      ensures reader == r && HeaderOf() == h
    {
      reader, kind, identifier, hasExtensions := r, h.kind, h.identifier, h.hasExtensions;
      hasSubgroupId := h.kind != 0x0a && h.kind != 0x0b;
      priority, group, subgroup := h.priority, h.group, h.subgroup;
    }

    /** NewObjectStreamParser: reads the stream header. */
    static method Open(reader: ByteReader) returns (r: Result<ObjectStreamParser>)
      modifies reader
      ensures var spec := OpenStream(old(reader.rest));
        if spec.Failure? then r == Failure(spec.error)
        else r.Success? && fresh(r.value) && r.value.reader == reader && r.value.HeaderOf() == spec.value.0
             && reader.rest == spec.value.1
    {
      var kind := reader.ReadVarint();
      if kind.Failure? {
        return Failure(kind.error);
      }
      if kind.value == FETCH {
        var id := reader.ReadVarint();
        if id.Failure? {
          return Failure(id.error);
        }
        var p := new ObjectStreamParser(reader, Header(FETCH, id.value, true, 0, 0, 0));
        return Success(p);
      }
      if 0x08 <= kind.value <= 0x0d {
        var h := ReadSubgroupHeader(kind.value, reader);
        if h.Failure? {
          return Failure(h.error);
        }
        var p := new ObjectStreamParser(reader, h.value);
        return Success(p);
      }
      r := Failure(InvalidStreamType);
    }

    method Next() returns (r: Result<Object>)
      modifies this, reader
      ensures Follows(r, reader.rest, ParseObject(old(HeaderOf()), old(reader.rest)))
      ensures HeaderOf() == old(HeaderOf())
    {
      var o := Object(if kind == FETCH then 0 else identifier, group, subgroup, 0, priority, [], 0, []);
      if kind == FETCH {
        var head := ReadFetch(o, reader);
        if head.Failure? {
          return Failure(head.error);
        }
        r := ReadObjectTail(head.value, hasExtensions, reader);
      } else if 0x08 <= kind <= 0x0d {
        var id := reader.ReadVarint();
        if id.Failure? {
          return Failure(id.error);
        }
        r := ReadObjectTail(o.(id := id.value), hasExtensions, reader);
        if r.Success? && !hasSubgroupId {
          subgroup := r.value.subgroup;
          hasSubgroupId := true;
        }
      } else {
        r := Failure(InvalidStreamType);
      }
    }
  }
}
