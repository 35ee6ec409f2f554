/** A download stream that reports its end only when size and digest match. */
module VerifiedReader {
  import opened Bytes

  datatype Error = Nil | EndOfFile | Broken | Exceeded | SizeMismatch | DigestMismatch

  /** One answer of the response body; only these three kinds of error come from it. */
  datatype Chunk = Chunk(bytes: seq<Byte>, error: Error)

  ghost predicate FromBody(chunks: seq<Chunk>) {
    forall i | 0 <= i < |chunks| :: chunks[i].error in {Nil, EndOfFile, Broken}
  }

  /** All bytes the body gives before its first error, and that error. */
  ghost function Stream(chunks: seq<Chunk>): (seq<Byte>, Error) {
    if chunks == [] then ([], EndOfFile)
    else if chunks[0].error != Nil then (chunks[0].bytes, chunks[0].error)
    else (chunks[0].bytes + Stream(chunks[1..]).0, Stream(chunks[1..]).1)
  }

  ghost function Weight(chunks: seq<Chunk>): nat {
    if chunks == [] then 0 else |chunks[0].bytes| + 1 + Weight(chunks[1..])
  }

  class Reader {
    const expectedSize: int
    const expectedDigest: string
    const maximum: int
    const sha256: seq<Byte> -> string
    var body: seq<Chunk>
    /** What was fed to the running digest. */
    var digest: seq<Byte>
    var read: int
    var complete: bool

    constructor (body: seq<Chunk>, size: int, expected: string, maximum: int, sha256: seq<Byte> -> string)
      requires FromBody(body)
      ensures Valid() && !complete && digest == [] && this.body == body && this.maximum == maximum
      ensures expectedSize == size && expectedDigest == expected && this.sha256 == sha256
    {
      this.body, this.expectedSize, this.expectedDigest, this.maximum := body, size, expected, maximum;
      this.sha256, digest, read, complete := sha256, [], 0, false;
    }

    ghost predicate Valid()
      reads this
    {
      read == |digest| && FromBody(body)
    }

    /** Everything this body delivers from the start of the download. */
    ghost function Whole(): seq<Byte>
      reads this
    {
      digest + Stream(body).0
    }

    ghost predicate Oversized(data: seq<Byte>) { |data| > expectedSize || (maximum >= 0 && |data| > maximum) }

    ghost predicate Matches(data: seq<Byte>) {
      |data| == expectedSize && "sha256:" + sha256(data) == expectedDigest
    }

    /** The error that a body of these bytes, ending this way, must lead to. */
    ghost function Fate(data: seq<Byte>, end: Error): Error {
      if Oversized(data) then Exceeded
      else if end != EndOfFile then end
      else if |data| != expectedSize then SizeMismatch
      else if "sha256:" + sha256(data) != expectedDigest then DigestMismatch
      else EndOfFile
    }

    method BodyRead(capacity: nat) returns (bytes: seq<Byte>, error: Error)
      requires Valid()
      modifies this`body
      ensures FromBody(body) && |bytes| <= capacity && error in {Nil, EndOfFile, Broken}
      ensures error == Nil ==> (bytes + Stream(body).0, Stream(body).1) == old(Stream(body))
      ensures error == Nil && capacity > 0 ==> Weight(body) < old(Weight(body))
      ensures error != Nil ==> (bytes, error) == old(Stream(body))
    {
      if body == [] { return [], EndOfFile; }
      var c := body[0];
      if |c.bytes| <= capacity {
        body := body[1..];
        return c.bytes, c.error;
      }
      ghost var rest := body[1..];
      body := [c.(bytes := c.bytes[capacity..])] + body[1..];
      assert body[1..] == rest;
      Resplit(c.bytes, capacity, Stream(rest).0);
      return c.bytes[..capacity], Nil;
    }

    /** At most `capacity` bytes, and how the stream goes on. */
    method Read(capacity: nat) returns (bytes: seq<Byte>, error: Error)
      requires Valid()
      modifies this`body, this`digest, this`read, this`complete
      ensures Valid() && |bytes| <= capacity
      ensures old(complete) ==> bytes == [] && error == EndOfFile && complete && digest == old(digest)
      ensures !old(complete) ==> old(digest) <= digest <= old(Whole())
      ensures !old(complete) ==> bytes == if error == Exceeded then [] else digest[|old(digest)|..]
      ensures !old(complete) ==> (error == Exceeded <==> Oversized(digest) && digest != old(digest))
      ensures !old(complete) && error == Nil ==>
        !complete && Whole() == old(Whole()) && Stream(body).1 == old(Stream(body).1)
      ensures !old(complete) && error == Nil && capacity > 0 ==> Weight(body) < old(Weight(body))
      ensures !old(complete) && error !in {Nil, Exceeded} ==> digest == old(Whole())
      ensures !old(complete) && !old(Oversized(digest)) && error != Nil ==> error == old(Fate(Whole(), Stream(body).1))
      ensures complete <==> error in {EndOfFile, SizeMismatch, DigestMismatch}
      ensures error == EndOfFile && !old(complete) ==> Matches(digest)
    {
      if complete { return [], EndOfFile; }
      bytes, error := BodyRead(capacity);
      assert (digest + bytes) + Stream(body).0 == digest + (bytes + Stream(body).0);
      if |bytes| > 0 {
        read := read + |bytes|;
        digest := digest + bytes;
        if (maximum >= 0 && read > maximum) || read > expectedSize { return [], Exceeded; }
      }
      if error == EndOfFile {
        complete := true;
        if read != expectedSize { return bytes, SizeMismatch; }
        if "sha256:" + sha256(digest) != expectedDigest { return bytes, DigestMismatch; }
      }
    }

    /** A consumer that stops at the first error. */
    method Consume(capacity: nat) returns (data: seq<Byte>, error: Error)
      requires Valid() && digest == [] && !complete && capacity > 0
      requires 0 <= expectedSize && (maximum >= 0 ==> expectedSize <= maximum)
      modifies this`body, this`digest, this`read, this`complete
      ensures Valid() && |data| <= expectedSize && data <= old(Stream(body).0)
      ensures error == old(Fate(Stream(body).0, Stream(body).1))
      ensures error == EndOfFile <==> (
        && old(Stream(body).1) == EndOfFile && |old(Stream(body).0)| == expectedSize
        && "sha256:" + sha256(old(Stream(body).0)) == expectedDigest)
      ensures error != Exceeded ==> data == old(Stream(body).0)
      ensures complete <==> error in {EndOfFile, SizeMismatch, DigestMismatch}
      ensures error in {EndOfFile, SizeMismatch, DigestMismatch} ==> digest == old(Stream(body).0)
    {
      data, error := [], Nil;
      ghost var all, end := Stream(body).0, Stream(body).1;
      assert Whole() == all;
      while error == Nil
        invariant Valid() && !Oversized(data) && data <= all
        invariant error == Nil ==> !complete && data == digest && Whole() == all && Stream(body).1 == end
        invariant error != Nil ==> error == Fate(all, end) && (error != Exceeded ==> data == all)
        invariant complete <==> error in {EndOfFile, SizeMismatch, DigestMismatch}
        invariant complete ==> digest == all
        decreases if error == Nil then 1 else 0, Weight(body)
      {
        var bytes;
        bytes, error := Read(capacity);
        data := data + bytes;
      }
    }

    /** Reading on after an error looks like a clean end without a verified download exactly when the error
        was a mismatch. */
    method ReadOn(capacity: nat) returns (data: seq<Byte>, error: Error, again: Error)
      requires Valid() && digest == [] && !complete && capacity > 0
      requires 0 <= expectedSize && (maximum >= 0 ==> expectedSize <= maximum)
      modifies this`body, this`digest, this`read, this`complete
      ensures again == EndOfFile && !Matches(digest) <==>
        old(Fate(Stream(body).0, Stream(body).1)) in {SizeMismatch, DigestMismatch}
    {
      StreamEnds(body);
      data, error := Consume(capacity);
      var _, e := Read(capacity);
      again := e;
    }
  }

  lemma {:induction false} StreamEnds(chunks: seq<Chunk>)
    requires FromBody(chunks)
    ensures Stream(chunks).1 in {EndOfFile, Broken}
  {
    if chunks != [] && chunks[0].error == Nil { StreamEnds(chunks[1..]); }
  }

  lemma Resplit(bytes: seq<Byte>, k: nat, later: seq<Byte>)
    requires k <= |bytes|
    ensures bytes[..k] + (bytes[k..] + later) == bytes + later
    ensures bytes[..k] + bytes[k..] == bytes
  {
  }
}
