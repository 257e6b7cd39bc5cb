/**
 SHA-256 as an incremental hasher with a 64-byte buffer, against the one-shot
 definition of FIPS 180-4: padding (section 5.1.1), parsing into blocks (section
 5.2.1) and the compression function (section 6.2.2).
 */
module Sha256 {

  type Byte = bv8
  type Word = bv32

  const BLOCK := 64
  const ROUNDS := 64
  const LENGTH_MODULUS := 0x1_0000_0000_0000_0000

  const INITIAL: seq<Word> := [
    0x6a09e667, 0xbb67ae85, 0x3c6ef372, 0xa54ff53a, 0x510e527f, 0x9b05688c, 0x1f83d9ab, 0x5be0cd19]

  const ROUND_KEYS: seq<Word> := [
    0x428a2f98, 0x71374491, 0xb5c0fbcf, 0xe9b5dba5, 0x3956c25b, 0x59f111f1, 0x923f82a4, 0xab1c5ed5,
    0xd807aa98, 0x12835b01, 0x243185be, 0x550c7dc3, 0x72be5d74, 0x80deb1fe, 0x9bdc06a7, 0xc19bf174,
    0xe49b69c1, 0xefbe4786, 0x0fc19dc6, 0x240ca1cc, 0x2de92c6f, 0x4a7484aa, 0x5cb0a9dc, 0x76f988da,
    0x983e5152, 0xa831c66d, 0xb00327c8, 0xbf597fc7, 0xc6e00bf3, 0xd5a79147, 0x06ca6351, 0x14292967,
    0x27b70a85, 0x2e1b2138, 0x4d2c6dfc, 0x53380d13, 0x650a7354, 0x766a0abb, 0x81c2c92e, 0x92722c85,
    0xa2bfe8a1, 0xa81a664b, 0xc24b8b70, 0xc76c51a3, 0xd192e819, 0xd6990624, 0xf40e3585, 0x106aa070,
    0x19a4c116, 0x1e376c08, 0x2748774c, 0x34b0bcb5, 0x391c0cb3, 0x4ed8aa4a, 0x5b9cca4f, 0x682e6ff3,
    0x748f82ee, 0x78a5636f, 0x84c87814, 0x8cc70208, 0x90befffa, 0xa4506ceb, 0xbef9a3f7, 0xc67178f2]

  // ----- the standard -----

  function RotateRight(x: Word, n: nat): Word
    requires n < 32
  {
    x.RotateRight(n)
  }

  /** Addition modulo 2^32. */
  function Add(x: Word, y: Word): Word { x + y }

  function Choice(x: Word, y: Word, z: Word): Word { (x & y) ^ (!x & z) }

  function Majority(x: Word, y: Word, z: Word): Word { (x & y) ^ (x & z) ^ (y & z) }

  function BigSigma0(x: Word): Word { RotateRight(x, 2) ^ RotateRight(x, 13) ^ RotateRight(x, 22) }

  function BigSigma1(x: Word): Word { RotateRight(x, 6) ^ RotateRight(x, 11) ^ RotateRight(x, 25) }

  function SmallSigma0(x: Word): Word { RotateRight(x, 7) ^ RotateRight(x, 18) ^ (x >> 3) }

  function SmallSigma1(x: Word): Word { RotateRight(x, 17) ^ RotateRight(x, 19) ^ (x >> 10) }

  function BigEndian(a: Byte, b: Byte, c: Byte, d: Byte): Word {
    ((a as Word) << 24) | ((b as Word) << 16) | ((c as Word) << 8) | (d as Word)
  }

  function BlockWord(block: seq<Byte>, t: nat): Word
    requires |block| == BLOCK && t < 16
  {
    BigEndian(block[4 * t], block[4 * t + 1], block[4 * t + 2], block[4 * t + 3])
  }

  /** The first `n` words of the message schedule. */
  function Schedule(block: seq<Byte>, n: nat): (w: seq<Word>)
    requires |block| == BLOCK && n <= ROUNDS
    ensures |w| == n
  {
    if n == 0 then []
    else
      var w := Schedule(block, n - 1);
      var t := n - 1;
      w + [if t < 16 then BlockWord(block, t)
           else Add(Add(Add(w[t - 16], SmallSigma0(w[t - 15])), w[t - 7]), SmallSigma1(w[t - 2]))]
  }

  function Temp1(s: seq<Word>, key: Word, word: Word): Word
    requires |s| == 8
  {
    Add(Add(Add(Add(s[7], BigSigma1(s[4])), Choice(s[4], s[5], s[6])), key), word)
  }

  function Temp2(s: seq<Word>): Word
    requires |s| == 8
  {
    Add(BigSigma0(s[0]), Majority(s[0], s[1], s[2]))
  }

  /** One round on the eight working variables. */
  function Round(s: seq<Word>, key: Word, word: Word): (r: seq<Word>)
    requires |s| == 8
    ensures |r| == 8
  {
    var t1, t2 := Temp1(s, key, word), Temp2(s);
    [Add(t1, t2), s[0], s[1], s[2], Add(s[3], t1), s[4], s[5], s[6]]
  }

  function AddWords(a: seq<Word>, b: seq<Word>): (r: seq<Word>)
    requires |a| == 8 && |b| == 8
    ensures |r| == 8
  {
    seq(8, i requires 0 <= i < 8 => Add(a[i], b[i]))
  }

  function LastBlock(data: seq<Byte>): (block: seq<Byte>)
    requires data != [] && |data| % BLOCK == 0
    ensures |block| == BLOCK
  {
    data[|data| - BLOCK..]
  }

  /** The hash value after all blocks of `data`. */
  function Fold(data: seq<Byte>): (r: seq<Word>)
    requires |data| % BLOCK == 0
    ensures |r| == 8
    decreases |data|, BLOCK + 1
  {
    if data == [] then INITIAL
    else AddWords(Fold(data[..|data| - BLOCK]), Working(data, ROUNDS))
  }

  /** The working variables after `t` rounds of the last block of `data`. */
  function Working(data: seq<Byte>, t: nat): (r: seq<Word>)
    requires data != [] && |data| % BLOCK == 0 && t <= ROUNDS
    ensures |r| == 8
    decreases |data|, t
  {
    if t == 0 then Fold(data[..|data| - BLOCK])
    else Round(Working(data, t - 1), ROUND_KEYS[t - 1], Schedule(LastBlock(data), ROUNDS)[t - 1])
  }

  function ByteOf(n: nat, shift: nat): Byte
    requires shift > 0
  {
    ((n / shift) % 256) as Byte
  }

  /** A 64-bit number, most significant byte first. */
  function LengthBytes(n: nat): (b: seq<Byte>)
    ensures |b| == 8
  {
    [ByteOf(n, 0x100_0000_0000_0000), ByteOf(n, 0x1_0000_0000_0000), ByteOf(n, 0x100_0000_0000), ByteOf(n, 0x1_0000_0000),
     ByteOf(n, 0x100_0000), ByteOf(n, 0x1_0000), ByteOf(n, 0x100), ByteOf(n, 1)]
  }

  function Zeros(n: nat): (z: seq<Byte>)
    ensures |z| == n
  {
    seq(n, _ => 0)
  }

  /** Bytes of zero padding: the least number that leaves room for the length at the end of a block. */
  function ZeroCount(length: nat): (n: nat)
    ensures n < BLOCK && (length + 1 + n) % BLOCK == 56
  {
    (55 - length) % 64
  }

  /** The bit count the standard appends, which is kept in 64 bits. */
  function BitLength(length: nat): nat { (8 * length) % LENGTH_MODULUS }

  lemma WholeBlocks(n: nat)
    requires n % BLOCK == 56
    ensures (n + 8) % BLOCK == 0
  {
  }

  function Pad(message: seq<Byte>): (padded: seq<Byte>)
    ensures |padded| % BLOCK == 0
  {
    WholeBlocks(|message| + 1 + ZeroCount(|message|));
    message + [0x80] + Zeros(ZeroCount(|message|)) + LengthBytes(BitLength(|message|))
  }

  function WordByte(w: Word, i: nat): Byte
    requires i < 4
  {
    ((w >> (24 - 8 * i)) & 0xff) as Byte
  }

  function DigestBytes(state: seq<Word>): (d: seq<Byte>)
    requires |state| == 8
    ensures |d| == 32
  {
    seq(32, i requires 0 <= i < 32 => WordByte(state[i / 4], i % 4))
  }

  function Hash(message: seq<Byte>): (d: seq<Byte>)
    ensures |d| == 32
  {
    DigestBytes(Fold(Pad(message)))
  }
}
