/**
 The buffered hasher: a state of eight words, a 64-byte buffer, and a bit count
 that wraps at 64 bits.  However a message is cut into updates, the digest is the
 standard's hash of the whole message.
 */
module Sha256Hasher {
  import opened Sha256

  lemma NextBlock(past: seq<Byte>, block: seq<Byte>)
    requires |past| % BLOCK == 0 && |block| == BLOCK
    ensures |past + block| % BLOCK == 0 && past + block != []
    ensures (past + block)[..|past + block| - BLOCK] == past && LastBlock(past + block) == block
  {
  }

  class Hasher {
    var state: array<Word>
    var buffer: array<Byte>
    var buffered: nat
    var lengthBits: nat
    ghost var message: seq<Byte>

    /** The blocks compressed so far and the bytes still waiting make up the data. */
    ghost predicate Holds(data: seq<Byte>)
      reads this`state, this`buffer, this`buffered, state, buffer
    {
      && state.Length == 8 && buffer.Length == BLOCK && buffered < BLOCK && buffered <= |data|
      && (|data| - buffered) % BLOCK == 0
      && buffer[..buffered] == data[|data| - buffered..]
      && state[..] == Fold(data[..|data| - buffered])
    }

    ghost predicate Valid()
      reads this, state, buffer
    {
      Holds(message) && lengthBits == BitLength(|message|)
    }

    constructor ()
      ensures Valid() && fresh(state) && fresh(buffer) && message == []
    {
      var words := FromSeq(INITIAL);
      var bytes := FromSeq(Zeros(BLOCK));
      state, buffer := words, bytes;
      buffered, lengthBits, message := 0, 0, [];
    }

    static method FromSeq<T>(s: seq<T>) returns (a: array<T>)
      ensures fresh(a) && a.Length == |s| && a[..] == s
    {
      a := new T[|s|](i requires 0 <= i < |s| => s[i]);
    }

    static method LoadBlock(block: seq<Byte>, words: array<Word>)
      requires |block| == BLOCK && words.Length == ROUNDS
      modifies words
      ensures words[..|block| / 4] == Schedule(block, |block| / 4)
    {
      for t := 0 to 16
        invariant words[..t] == Schedule(block, t)
      {
        words[t] := BigEndian(block[4 * t], block[4 * t + 1], block[4 * t + 2], block[4 * t + 3]);
        assert words[..t + 1] == words[..t] + [words[t]];
      }
    }

    static method Expand(block: seq<Byte>, words: array<Word>)
      requires |block| == BLOCK && words.Length == ROUNDS && words[..|block| / 4] == Schedule(block, |block| / 4)
      modifies words
      ensures words[..] == Schedule(block, ROUNDS)
    {
      var loaded := |block| / 4;
      for t := loaded to ROUNDS
        invariant words[..t] == Schedule(block, t)
      {
        ExpandOne(block, words, t);
      }
      assert words[..ROUNDS] == words[..];
    }

    static method ExpandOne(block: seq<Byte>, words: array<Word>, t: nat)
      requires |block| == BLOCK && words.Length == ROUNDS && 16 <= t < ROUNDS
      requires words[..t] == Schedule(block, t)
      modifies words
      ensures words[..t + 1] == Schedule(block, t + 1)
    {
      ghost var before := words[..t];
      var s0 := SmallSigma0(words[t - 15]);
      var s1 := SmallSigma1(words[t - 2]);
      words[t] := Add(Add(Add(words[t - 16], s0), words[t - 7]), s1);
      assert words[..t + 1] == before + [words[t]];
    }

    static method Prepare(block: seq<Byte>) returns (words: array<Word>)
      requires |block| == BLOCK
      ensures fresh(words) && words.Length == ROUNDS && words[..] == Schedule(block, ROUNDS)
    {
      words := FromSeq(seq(ROUNDS, _ => 0));
      LoadBlock(block, words);
      Expand(block, words);
    }

    /** `compress`: one more block after the data already folded in. */
    method CompressNext(ghost past: seq<Byte>, block: seq<Byte>)
      requires state.Length == 8 && |past| % BLOCK == 0 && |block| == BLOCK && state[..] == Fold(past)
      modifies state
      ensures |past + block| % BLOCK == 0 && state[..] == Fold(past + block)
    {
      var words := Prepare(block);
      NextBlock(past, block);
      var work := FromSeq(state[..]);
      RunRounds(past + block, work, words);
      AddInto(work);
    }

    static method RunRounds(ghost data: seq<Byte>, work: array<Word>, words: array<Word>)
      requires data != [] && |data| % BLOCK == 0 && work.Length == 8 && words.Length == ROUNDS && work != words
      requires work[..] == Fold(data[..|data| - BLOCK]) && words[..] == Schedule(LastBlock(data), ROUNDS)
      modifies work
      ensures work[..] == Working(data, ROUNDS)
    {
      for t := 0 to ROUNDS
        invariant work[..] == Working(data, t)
      {
        OneRound(work, ROUND_KEYS[t], words[t]);
      }
    }

    method AddInto(work: array<Word>)
      requires state.Length == 8 && work.Length == 8 && work != state
      modifies state
      ensures state[..] == AddWords(old(state[..]), work[..])
    {
      ghost var start := state[..];
      for i := 0 to 8
        invariant forall k :: 0 <= k < i ==> state[k] == Add(start[k], work[k])
        invariant forall k :: i <= k < 8 ==> state[k] == start[k]
      {
        state[i] := Add(state[i], work[i]);
      }
    }

    static method OneRound(work: array<Word>, key: Word, word: Word)
      requires work.Length == 8
      modifies work
      ensures work[..] == Round(old(work[..]), key, word)
    {
      var temp1, temp2 := Temps(work, key, word);
      Shift(work, Add(temp1, temp2), Add(work[3], temp1));
    }

    static method Temps(work: array<Word>, key: Word, word: Word) returns (temp1: Word, temp2: Word)
      requires work.Length == 8
      ensures temp1 == Temp1(work[..], key, word) && temp2 == Temp2(work[..])
    {
      var choice := Choice(work[4], work[5], work[6]);
      var majority := Majority(work[0], work[1], work[2]);
      var sigma0, sigma1 := BigSigma0(work[0]), BigSigma1(work[4]);
      temp1 := Add(Add(Add(Add(work[7], sigma1), choice), key), word);
      temp2 := Add(sigma0, majority);
    }

    /** The working variables move down one place, with new values at the first and fifth. */
    static method Shift<T>(work: array<T>, first: T, fifth: T)
      requires work.Length == 8
      modifies work
      ensures var s := old(work[..]); work[..] == [first, s[0], s[1], s[2], fifth, s[4], s[5], s[6]]
    {
      work[7] := work[6];
      work[6] := work[5];
      work[5] := work[4];
      work[4] := fifth;
      work[3] := work[2];
      work[2] := work[1];
      work[1] := work[0];
      work[0] := first;
    }

    // ----- updates -----

    method Put(offset: nat, bytes: seq<Byte>)
      requires buffer.Length == BLOCK && offset + |bytes| <= BLOCK
      modifies buffer
      ensures buffer[..] == old(buffer[..offset]) + bytes + old(buffer[offset + |bytes|..])
    {
      ghost var start := buffer[..];
      for i := 0 to |bytes|
        invariant buffer[..] == start[..offset] + bytes[..i] + start[offset + i..]
      {
        buffer[offset + i] := bytes[i];
      }
    }

    /** Compresses every whole block of `input`, which follows `past`, and returns what is left. */
    method CompressBlocks(ghost past: seq<Byte>, input: seq<Byte>) returns (rest: seq<Byte>)
      requires state.Length == 8 && |past| % BLOCK == 0 && state[..] == Fold(past)
      modifies state
      ensures |rest| < BLOCK && |rest| <= |input| && rest == input[|input| - |rest|..]
      ensures |past + input[..|input| - |rest|]| % BLOCK == 0
      ensures state[..] == Fold(past + input[..|input| - |rest|])
    {
      rest := input;
      assert past + input[..0] == past;
      while |rest| >= BLOCK
        invariant |rest| <= |input| && rest == input[|input| - |rest|..]
        invariant |past + input[..|input| - |rest|]| % BLOCK == 0
        invariant state[..] == Fold(past + input[..|input| - |rest|])
      {
        ghost var done := input[..|input| - |rest|];
        var block := rest[..BLOCK];
        assert past + done + block == past + input[..|input| - |rest| + BLOCK];
        CompressNext(past + done, block);
        rest := rest[BLOCK..];
      }
    }

    /** Bytes that do not fill the buffer are only kept. */
    method Keep(ghost data: seq<Byte>, input: seq<Byte>)
      requires Holds(data) && buffered + |input| < BLOCK
      modifies this`buffered, buffer
      ensures Holds(data + input) && buffered == old(buffered) + |input|
    {
      Slices(data, input, buffered);
      Put(buffered, input);
      buffered := buffered + |input|;
    }

    /** Bytes that exactly fill the buffer complete a block. */
    method Complete(ghost data: seq<Byte>, input: seq<Byte>)
      requires Holds(data) && buffered + |input| == BLOCK
      modifies this`buffered, buffer, state
      ensures Holds(data + input) && buffered == 0
      ensures |data + input| % BLOCK == 0 && state[..] == Fold(data + input)
    {
      ghost var past := data[..|data| - buffered];
      Parts(data, input, buffered);
      Put(buffered, input);
      ghost var all := data + input;
      assert past + buffer[..] == all;
      CompressNext(past, buffer[..]);
      buffered := 0;
      NothingBuffered(all);
    }

    method Blocks(ghost data: seq<Byte>, input: seq<Byte>)
      requires Holds(data) && buffered == 0
      modifies this`buffered, buffer, state
      ensures Holds(data + input)
    {
      ghost var all := data + input;
      assert data[..|data|] == data;
      var rest := CompressBlocks(data, input);
      Put(0, rest);
      buffered := |rest|;
      assert all[..|all| - buffered] == data + input[..|input| - |rest|];
      assert all[|all| - buffered..] == rest;
    }

    method Absorb(ghost data: seq<Byte>, input: seq<Byte>)
      requires Holds(data)
      modifies this`buffered, buffer, state
      ensures Holds(data + input)
    {
      if buffered == 0 {
        Blocks(data, input);
      } else if |input| < BLOCK - buffered {
        Keep(data, input);
      } else {
        var needed := BLOCK - buffered;
        Complete(data, input[..needed]);
        Blocks(data + input[..needed], input[needed..]);
        Rejoin(data, input, needed);
      }
    }

    method CountBits(ghost before: nat, more: nat)
      requires lengthBits == BitLength(before)
      modifies this`lengthBits
      ensures lengthBits == BitLength(before + more)
    {
      Lengths(before, more);
      lengthBits := (lengthBits + (8 * more) % LENGTH_MODULUS) % LENGTH_MODULUS;
    }

    method Update(bytes: seq<Byte>)
      requires Valid()
      modifies this, state, buffer
      ensures Valid() && message == old(message) + bytes
      ensures state == old(state) && buffer == old(buffer)
    {
      CountBits(|message|, |bytes|);
      Absorb(message, bytes);
      message := message + bytes;
    }

    // ----- the digest -----

    method Emit() returns (digest: seq<Byte>)
      requires state.Length == 8
      ensures digest == DigestBytes(state[..])
    {
      digest := [];
      for i := 0 to 8
        invariant digest == DigestBytes(state[..])[..4 * i]
      {
        var w := state[i];
        digest := digest + [WordByte(w, 0), WordByte(w, 1), WordByte(w, 2), WordByte(w, 3)];
      }
    }

    /** The end marker, and the rest of the block if the length no longer fits into it. */
    method EndMarker(ghost data: seq<Byte>) returns (ghost padded: seq<Byte>)
      requires Holds(data)
      modifies this`buffered, buffer, state
      ensures padded == Marked(data, old(buffered)) && Holds(padded) && buffered == TailAfter(old(buffered))
    {
      if buffered + 1 > 56 {
        padded := data + ([0x80] + Zeros(BLOCK - buffered - 1));
        Complete(data, [0x80] + Zeros(BLOCK - buffered - 1));
      } else {
        padded := data + [0x80];
        Keep(data, [0x80]);
      }
    }

    method Close(ghost data: seq<Byte>)
      requires Holds(data) && lengthBits == BitLength(|data|)
      modifies this`buffered, buffer, state
      ensures state.Length == 8 && state[..] == Fold(Pad(data))
    {
      PadIs(data, buffered);
      ghost var padded := EndMarker(data);
      var ending := Zeros(56 - buffered) + LengthBytes(lengthBits);
      Complete(padded, ending);
    }

    /** Consumes the hasher: the object is not valid for further updates afterwards. */
    method Finalize() returns (digest: seq<Byte>)
      requires Valid()
      modifies this, state, buffer
      ensures digest == Hash(old(message))
    {
      Close(message);
      digest := Emit();
    }
  }

  function Concat(chunks: seq<seq<Byte>>): seq<Byte> {
    if chunks == [] then [] else Concat(chunks[..|chunks| - 1]) + chunks[|chunks| - 1]
  }

  /** However a message is cut into updates, the digest is the hash of the whole message. */
  method HashChunks(chunks: seq<seq<Byte>>) returns (digest: seq<Byte>)
    ensures digest == Hash(Concat(chunks))
  {
    var hasher := new Hasher();
    for i := 0 to |chunks|
      invariant hasher.Valid() && fresh(hasher) && fresh(hasher.state) && fresh(hasher.buffer)
      invariant hasher.message == Concat(chunks[..i])
    {
      assert chunks[..i + 1][..i] == chunks[..i];
      hasher.Update(chunks[i]);
    }
    assert chunks[..|chunks|] == chunks;
    digest := hasher.Finalize();
  }

  /** The message with its end marker, filled up to the block end if the length no longer fits. */
  function Marked(data: seq<Byte>, tail: nat): seq<Byte>
    requires tail < BLOCK
  {
    if tail <= 55 then data + [0x80] else data + ([0x80] + Zeros(63 - tail))
  }

  function TailAfter(tail: nat): (n: nat)
    ensures n <= 56
  {
    if tail <= 55 then tail + 1 else 0
  }

  lemma Slices(data: seq<Byte>, input: seq<Byte>, tail: nat)
    requires tail <= |data|
    ensures (data + input)[|data| - tail..] == data[|data| - tail..] + input
    ensures (data + input)[..|data| - tail] == data[..|data| - tail]
  {
  }

  lemma NothingBuffered(all: seq<Byte>)
    ensures all[..|all| - 0] == all && all[|all| - 0..] == []
  {
  }

  lemma Parts(data: seq<Byte>, input: seq<Byte>, tail: nat)
    requires tail <= |data|
    ensures data[..|data| - tail] + (data[|data| - tail..] + input) == data + input
    ensures (data + input)[..|data + input|] == data + input
  {
  }

  lemma Rejoin(data: seq<Byte>, input: seq<Byte>, n: nat)
    requires n <= |input|
    ensures data + input[..n] + input[n..] == data + input
  {
  }

  lemma Lengths(m: nat, n: nat)
    ensures (BitLength(m) + (8 * n) % LENGTH_MODULUS) % LENGTH_MODULUS == BitLength(m + n)
  {
  }

  lemma ZeroCountIs(length: nat, tail: nat)
    requires tail < BLOCK && tail <= length && (length - tail) % BLOCK == 0
    ensures ZeroCount(length) == if tail <= 55 then 55 - tail else 119 - tail
  {
  }

  /** Where padding falls: in the last, partly filled block, or in that and one more. */
  lemma PadIs(message: seq<Byte>, tail: nat)
    requires tail < BLOCK && tail <= |message| && (|message| - tail) % BLOCK == 0
    ensures Pad(message)
         == Marked(message, tail) + (Zeros(56 - TailAfter(tail)) + LengthBytes(BitLength(|message|)))
  {
    ZeroCountIs(|message|, tail);
    if tail > 55 { assert Zeros(119 - tail) == Zeros(63 - tail) + Zeros(56); }
  }
}
