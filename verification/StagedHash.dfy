/**
 Bounded positional readers of a staged release file.  A read may return any
 non-empty part of what was asked for, so results must not depend on how reads
 are split.
 */
module StagedHash {
  import opened Wrappers
  import opened Sha256
  import Sha256Hasher

  const U64_MAX := 0xffff_ffff_ffff_ffff
  const READ_CHUNK_BYTES := 16 * 1024

  datatype ReadError = BoundOverflows | ExceedsLimit

  function HexDigit(v: Byte): char
    requires v < 16
  {
    ['0', '1', '2', '3', '4', '5', '6', '7', '8', '9', 'a', 'b', 'c', 'd', 'e', 'f'][v as int]
  }

  function HexOf(b: Byte): string { [HexDigit(b >> 4), HexDigit(b & 0x0f)] }

  function HexEncode(bytes: seq<Byte>): string {
    if bytes == [] then "" else HexOf(bytes[0]) + HexEncode(bytes[1..])
  }

  lemma Nibbles(b: Byte)
    ensures (b >> 4) as int == b as int / 16 && (b & 0x0f) as int == b as int % 16
  {
    assert b == ((b >> 4) << 4) | (b & 0x0f);
  }

  lemma DigitIs(v: Byte)
    requires v < 16
    ensures HexDigit(v) == "0123456789abcdef"[v as int]
  {
    assert ['0', '1', '2', '3', '4', '5', '6', '7', '8', '9', 'a', 'b', 'c', 'd', 'e', 'f'] == "0123456789abcdef";
  }

  lemma HexOfIs(b: Byte)
    ensures HexOf(b) == ["0123456789abcdef"[b as int / 16], "0123456789abcdef"[b as int % 16]]
  {
    Nibbles(b);
    DigitIs(b >> 4);
    DigitIs(b & 0x0f);
  }

  lemma {:induction false} HexPairs(bytes: seq<Byte>, i: nat)
    requires i < |bytes|
    ensures |HexEncode(bytes)| == 2 * |bytes| && HexEncode(bytes)[2 * i..2 * i + 2] == HexOf(bytes[i])
  {
    if |bytes| > 1 {
      HexPairs(bytes[1..], if i == 0 then 0 else i - 1);
      if i > 0 { assert HexEncode(bytes)[2 * i..2 * i + 2] == HexEncode(bytes[1..])[2 * (i - 1)..2 * (i - 1) + 2]; }
    }
  }

  /** Two lower-case hexadecimal digits per byte, the high one first. */
  lemma HexDigits(bytes: seq<Byte>, i: nat)
    requires i < |bytes|
    ensures |HexEncode(bytes)| == 2 * |bytes|
    ensures HexEncode(bytes)[2 * i] == "0123456789abcdef"[bytes[i] as int / 16]
    ensures HexEncode(bytes)[2 * i + 1] == "0123456789abcdef"[bytes[i] as int % 16]
  {
    HexPairs(bytes, i);
    HexOfIs(bytes[i]);
    assert HexEncode(bytes)[2 * i] == HexOf(bytes[i])[0] && HexEncode(bytes)[2 * i + 1] == HexOf(bytes[i])[1];
  }

  /** `read_at` on a regular file: nothing at or past the end, otherwise at least one byte. */
  method ReadAt(file: seq<Byte>, limit: nat, offset: nat) returns (chunk: seq<Byte>)
    requires limit > 0
    ensures offset >= |file| ==> chunk == []
    ensures offset < |file| ==> 1 <= |chunk| <= limit && offset + |chunk| <= |file| && chunk == file[offset..offset + |chunk|]
  {
    if offset >= |file| { return []; }
    assert 1 <= limit && offset + 1 <= |file|;
    var count: nat :| 1 <= count <= limit && offset + count <= |file|;
    return file[offset..offset + count];
  }

  /** What a bounded reader may return: the whole file, or a refusal that depends on its size alone. */
  function Bounded(file: seq<Byte>, maximum: nat): Result<seq<Byte>, ReadError> {
    if maximum + 1 > U64_MAX then Err(BoundOverflows)
    else if |file| > maximum then Err(ExceedsLimit)
    else Ok(file)
  }

  method ReadBounded(file: seq<Byte>, maximum: nat) returns (result: Result<seq<Byte>, ReadError>)
    ensures result == Bounded(file, maximum)
    ensures result.Ok? <==> |file| <= maximum < U64_MAX
    ensures result.Ok? ==> result.value == file
    ensures result.Err? ==> (result.error.BoundOverflows? <==> maximum >= U64_MAX)
  {
    if maximum + 1 > U64_MAX { return Err(BoundOverflows); }
    var bytes: seq<Byte> := [];
    var bound, offset := maximum + 1, 0;
    while offset < bound
      invariant offset <= |file| && offset <= maximum && bytes == file[..offset]
      decreases bound - offset
    {
      var limit := if bound - offset < READ_CHUNK_BYTES then bound - offset else READ_CHUNK_BYTES;
      var chunk := ReadAt(file, limit, offset);
      if chunk == [] { break; }
      bytes := bytes + chunk;
      offset := offset + |chunk|;
      if |bytes| > maximum { return Err(ExceedsLimit); }
    }
    assert file[..|file|] == file;
    result := Ok(bytes);
  }

  /** One read of the hashing loop. */
  method Feed(hasher: Sha256Hasher.Hasher, file: seq<Byte>, bound: nat, offset: nat) returns (read: nat)
    requires hasher.Valid() && offset < bound && offset <= |file| && hasher.message == file[..offset]
    modifies hasher, hasher.state, hasher.buffer
    ensures hasher.Valid() && hasher.state == old(hasher.state) && hasher.buffer == old(hasher.buffer)
    ensures offset + read <= |file| && offset + read <= bound && hasher.message == file[..offset + read]
    ensures read == 0 <==> offset == |file|
  {
    var limit := if bound - offset < READ_CHUNK_BYTES then bound - offset else READ_CHUNK_BYTES;
    var chunk := ReadAt(file, limit, offset);
    if chunk == [] { return 0; }
    hasher.Update(chunk);
    assert file[..offset] + chunk == file[..offset + |chunk|];
    read := |chunk|;
  }

  /** The hashing loop: the whole file, or the discovery that it exceeds the limit. */
  method FeedAll(hasher: Sha256Hasher.Hasher, file: seq<Byte>, maximum: nat) returns (length: nat)
    requires hasher.Valid() && hasher.message == []
    modifies hasher, hasher.state, hasher.buffer
    ensures hasher.Valid() && hasher.state == old(hasher.state) && hasher.buffer == old(hasher.buffer)
    ensures length > maximum <==> |file| > maximum
    ensures length <= maximum ==> length == |file| && hasher.message == file
  {
    length := 0;
    while length < maximum + 1
      invariant length <= |file| && length <= maximum
      invariant hasher.Valid() && hasher.state == old(hasher.state) && hasher.buffer == old(hasher.buffer)
      invariant hasher.message == file[..length]
      decreases maximum + 1 - length
    {
      var read := Feed(hasher, file, maximum + 1, length);
      if read == 0 { break; }
      length := length + read;
      if length > maximum { return; }
    }
    assert file[..|file|] == file;
  }

  method HashBounded(file: seq<Byte>, maximum: nat) returns (length: nat, digest: seq<Byte>)
    ensures length > maximum <==> |file| > maximum
    ensures length <= maximum ==> length == |file| && digest == Hash(file)
  {
    var hasher := new Sha256Hasher.Hasher();
    digest := [];
    length := FeedAll(hasher, file, maximum);
    if length <= maximum { digest := hasher.Finalize(); }
  }

  method DigestBounded(file: seq<Byte>, maximum: nat) returns (result: Result<(string, nat), ReadError>)
    ensures result.Ok? <==> |file| <= maximum < U64_MAX
    ensures result.Ok? ==> result.value == (HexEncode(Hash(file)), |file|)
    ensures result.Err? ==> (result.error.BoundOverflows? <==> maximum >= U64_MAX)
  {
    if maximum + 1 > U64_MAX { return Err(BoundOverflows); }
    var length, digest := HashBounded(file, maximum);
    if length > maximum { return Err(ExceedsLimit); }
    result := Ok((HexEncode(digest), length));
  }
}
