/** A buffered reader over the bytes a peer has sent, shared by the stream parsers. */
module ByteReaders {
  import opened Varint

  class ByteReader {
    var rest: Bytes    // what has been sent and nobody has read

    constructor (input: Bytes)
      ensures rest == input
    {
      rest := input;
    }

    method ReadByte() returns (b: Result<Byte>)
      modifies this
      ensures old(rest) == [] ==> b == Failure(Eof) && rest == []
      ensures old(rest) != [] ==> b == Success(old(rest)[0]) && rest == old(rest)[1..]
    {
      if rest == [] {
        return Failure(Eof);
      }
      b := Success(rest[0]);
      rest := rest[1..];
    }

    method ReadVarint() returns (v: Result<VarInt>)
      modifies this
      ensures Parse(old(rest)).Failure? ==> v == Failure(Eof) && rest == []
      ensures Parse(old(rest)).Success? ==> v == Success(Parse(old(rest)).value.0) && rest == Parse(old(rest)).value.1
    {
      var p := Parse(rest);
      if p.Failure? {
        rest := [];
        return Failure(Eof);
      }
      rest := p.value.1;
      v := Success(p.value.0);
    }

    /** All of `length` bytes or an error: end of input if there was nothing at all. */
    method ReadFull(length: nat) returns (data: Result<Bytes>)
      modifies this
      ensures |old(rest)| < length ==> data == Failure(if old(rest) == [] then Eof else Truncated) && rest == []
      ensures |old(rest)| >= length ==> data == Success(old(rest)[..length]) && rest == old(rest)[length..]
    {
      if |rest| < length {
        data := Failure(if rest == [] then Eof else Truncated);
        rest := [];
      } else {
        data := Success(rest[..length]);
        rest := rest[length..];
      }
    }
  }
}
