/**
 Strict base64: the decoder takes both alphabets of RFC 4648 (sections 4 and 5),
 insists on padding, and refuses text whose unused bits are not zero (section
 3.5).
 */
module Base64 {
  import opened Wrappers

  type Byte = bv8

  const PAD: Byte := 61

  // ----- alphabet -----

  /** The character of section 4 for a six-bit value. */
  function Letter(v: Byte): Byte
    requires v < 64
  {
    if v < 26 then 65 + v else if v < 52 then 97 + (v - 26) else if v < 62 then 48 + (v - 52)
    else if v == 62 then 43 else 47
  }

  /** `base64_value`: the six-bit value of a character of either alphabet. */
  function ValueOf(c: Byte): (v: Option<Byte>)
    ensures v.Some? ==> v.value < 64
  {
    if 65 <= c <= 90 then Some(c - 65)
    else if 97 <= c <= 122 then Some(c - 97 + 26)
    else if 48 <= c <= 57 then Some(c - 48 + 52)
    else if c == 43 || c == 45 then Some(62)
    else if c == 47 || c == 95 then Some(63)
    else None
  }

  /** The section 4 spelling of a character: `-` and `_` become `+` and `/`. */
  function Standard(c: Byte): Byte { if c == 45 then 43 else if c == 95 then 47 else c }

  function Normalise(text: seq<Byte>): (r: seq<Byte>)
    ensures |r| == |text|
  {
    seq(|text|, i requires 0 <= i < |text| => Standard(text[i]))
  }

  lemma LetterValue(v: Byte)
    requires v < 64
    ensures ValueOf(Letter(v)) == Some(v) && Letter(v) != PAD
  {
  }

  lemma ValueLetter(c: Byte)
    requires ValueOf(c).Some?
    ensures Letter(ValueOf(c).value) == Standard(c)
  {
  }

  // ----- encoder of RFC 4648, section 4 -----

  function First(x: Byte): Byte { x >> 2 }

  function Second(x: Byte, y: Byte): Byte { ((x & 0x03) << 4) | (y >> 4) }

  function Third(y: Byte, z: Byte): Byte { ((y & 0x0f) << 2) | (z >> 6) }

  function Fourth(z: Byte): Byte { z & 0x3f }

  lemma SixBits(x: Byte, y: Byte, z: Byte)
    ensures First(x) < 64 && Second(x, y) < 64 && Third(y, z) < 64 && Fourth(z) < 64
  {
  }

  function EncodeThree(x: Byte, y: Byte, z: Byte): (s: seq<Byte>)
    ensures |s| == 4
  {
    SixBits(x, y, z);
    [Letter(First(x)), Letter(Second(x, y)), Letter(Third(y, z)), Letter(Fourth(z))]
  }

  function EncodeTwo(x: Byte, y: Byte): (s: seq<Byte>)
    ensures |s| == 4
  {
    SixBits(x, y, 0);
    [Letter(First(x)), Letter(Second(x, y)), Letter(Third(y, 0)), PAD]
  }

  function EncodeOne(x: Byte): (s: seq<Byte>)
    ensures |s| == 4
  {
    SixBits(x, 0, 0);
    [Letter(First(x)), Letter(Second(x, 0)), PAD, PAD]
  }

  function Encode(bytes: seq<Byte>): (s: seq<Byte>)
    ensures |s| % 4 == 0 && (bytes != [] ==> s != [])
  {
    if bytes == [] then []
    else if |bytes| == 1 then EncodeOne(bytes[0])
    else if |bytes| == 2 then EncodeTwo(bytes[0], bytes[1])
    else EncodeThree(bytes[0], bytes[1], bytes[2]) + Encode(bytes[3..])
  }

  /** The two alphabets of RFC 4648: letters, digits, then `+` and `/` or `-` and `_`. */
  lemma AlphabetIs(c: Byte)
    ensures 'A' as Byte <= c <= 'Z' as Byte ==> ValueOf(c) == Some(c - 'A' as Byte)
    ensures 'a' as Byte <= c <= 'z' as Byte ==> ValueOf(c) == Some(26 + (c - 'a' as Byte))
    ensures '0' as Byte <= c <= '9' as Byte ==> ValueOf(c) == Some(52 + (c - '0' as Byte))
    ensures c == '+' as Byte || c == '-' as Byte ==> ValueOf(c) == Some(62)
    ensures c == '/' as Byte || c == '_' as Byte ==> ValueOf(c) == Some(63)
    ensures ValueOf(c).Some? ==>
      || 'A' as Byte <= c <= 'Z' as Byte || 'a' as Byte <= c <= 'z' as Byte || '0' as Byte <= c <= '9' as Byte
      || c == '+' as Byte || c == '-' as Byte || c == '/' as Byte || c == '_' as Byte
  {
  }

  /** Four characters carry the 24 bits of three bytes, most significant bits first. */
  lemma GroupCarriesBits(x: Byte, y: Byte, z: Byte)
    ensures ((First(x) as bv24) << 18) | ((Second(x, y) as bv24) << 12) | ((Third(y, z) as bv24) << 6) | (Fourth(z) as bv24)
         == ((x as bv24) << 16) | ((y as bv24) << 8) | (z as bv24)
  {
  }

  // ----- decoder -----

  function High(a: Byte, b: Byte): Byte { (a << 2) | (b >> 4) }

  function Middle(b: Byte, c: Byte): Byte { (b << 4) | (c >> 2) }

  function Low(c: Byte, d: Byte): Byte { (c << 6) | d }

  /** One group of four characters; padding only in the last group, unused bits zero. */
  function DecodeGroup(g: seq<Byte>, last: bool): Option<seq<Byte>>
    requires |g| == 4
  {
    var a, b := ValueOf(g[0]), ValueOf(g[1]);
    if a.None? || b.None? then None
    else if g[2] == PAD then
      if !last || g[3] != PAD || b.value & 0x0f != 0 then None else Some([High(a.value, b.value)])
    else
      var c := ValueOf(g[2]);
      if c.None? then None
      else if g[3] == PAD then
        if !last || c.value & 0x03 != 0 then None else Some([High(a.value, b.value), Middle(b.value, c.value)])
      else
        var d := ValueOf(g[3]);
        if d.None? then None
        else Some([High(a.value, b.value), Middle(b.value, c.value), Low(c.value, d.value)])
  }

  function DecodeGroups(text: seq<Byte>): Option<seq<Byte>>
    requires |text| % 4 == 0
  {
    if text == [] then Some([])
    else
      var head := DecodeGroup(text[..4], |text| == 4);
      var tail := DecodeGroups(text[4..]);
      if head.None? || tail.None? then None else Some(head.value + tail.value)
  }

  function Decode(text: seq<Byte>): Option<seq<Byte>> {
    if text == [] || |text| % 4 != 0 then None else DecodeGroups(text)
  }

  // ----- bits -----

  lemma ThreeBytesBack(x: Byte, y: Byte, z: Byte)
    ensures High(First(x), Second(x, y)) == x
    ensures Middle(Second(x, y), Third(y, z)) == y
    ensures Low(Third(y, z), Fourth(z)) == z
  {
  }

  lemma UnusedBitsZero(x: Byte, y: Byte)
    ensures Second(x, 0) & 0x0f == 0 && Third(y, 0) & 0x03 == 0
  {
  }

  lemma FourValuesBack(a: Byte, b: Byte, c: Byte, d: Byte)
    requires a < 64 && b < 64 && c < 64 && d < 64
    ensures First(High(a, b)) == a && Second(High(a, b), Middle(b, c)) == b
    ensures Third(Middle(b, c), Low(c, d)) == c && Fourth(Low(c, d)) == d
  {
  }

  lemma TwoValuesBack(a: Byte, b: Byte)
    requires a < 64 && b < 64 && b & 0x0f == 0
    ensures First(High(a, b)) == a && Second(High(a, b), 0) == b
  {
  }

  lemma ThreeValuesBack(a: Byte, b: Byte, c: Byte)
    requires a < 64 && b < 64 && c < 64 && c & 0x03 == 0
    ensures First(High(a, b)) == a && Second(High(a, b), Middle(b, c)) == b && Third(Middle(b, c), 0) == c
  {
  }

  // ----- groups -----

  lemma ThreeDecodes(x: Byte, y: Byte, z: Byte, last: bool)
    ensures DecodeGroup(EncodeThree(x, y, z), last) == Some([x, y, z])
  {
    SixBits(x, y, z);
    LetterValue(First(x));
    LetterValue(Second(x, y));
    LetterValue(Third(y, z));
    LetterValue(Fourth(z));
    ThreeBytesBack(x, y, z);
  }

  lemma TwoDecodes(x: Byte, y: Byte)
    ensures DecodeGroup(EncodeTwo(x, y), true) == Some([x, y])
  {
    SixBits(x, y, 0);
    LetterValue(First(x));
    LetterValue(Second(x, y));
    LetterValue(Third(y, 0));
    ThreeBytesBack(x, y, 0);
    UnusedBitsZero(x, y);
  }

  lemma OneDecodes(x: Byte)
    ensures DecodeGroup(EncodeOne(x), true) == Some([x])
  {
    SixBits(x, 0, 0);
    LetterValue(First(x));
    LetterValue(Second(x, 0));
    ThreeBytesBack(x, 0, 0);
    UnusedBitsZero(x, 0);
  }

  lemma LettersBack(g: seq<Byte>)
    requires |g| == 4
    ensures forall i :: 0 <= i < 4 && ValueOf(g[i]).Some? ==> Letter(ValueOf(g[i]).value) == Standard(g[i])
    ensures Standard(PAD) == PAD
  {
    forall i | 0 <= i < 4 && ValueOf(g[i]).Some? ensures Letter(ValueOf(g[i]).value) == Standard(g[i]) { ValueLetter(g[i]); }
  }

  lemma OneEncodes(g: seq<Byte>)
    requires |g| == 4 && ValueOf(g[0]).Some? && ValueOf(g[1]).Some? && g[2] == PAD && g[3] == PAD
    requires ValueOf(g[1]).value & 0x0f == 0
    ensures EncodeOne(High(ValueOf(g[0]).value, ValueOf(g[1]).value)) == Normalise(g)
  {
    LettersBack(g);
    TwoValuesBack(ValueOf(g[0]).value, ValueOf(g[1]).value);
  }

  lemma TwoEncodes(g: seq<Byte>)
    requires |g| == 4 && ValueOf(g[0]).Some? && ValueOf(g[1]).Some? && ValueOf(g[2]).Some? && g[3] == PAD
    requires ValueOf(g[2]).value & 0x03 == 0
    ensures var a, b, c := ValueOf(g[0]).value, ValueOf(g[1]).value, ValueOf(g[2]).value;
      EncodeTwo(High(a, b), Middle(b, c)) == Normalise(g)
  {
    LettersBack(g);
    ThreeValuesBack(ValueOf(g[0]).value, ValueOf(g[1]).value, ValueOf(g[2]).value);
  }

  lemma ThreeEncodes(g: seq<Byte>)
    requires |g| == 4 && ValueOf(g[0]).Some? && ValueOf(g[1]).Some? && ValueOf(g[2]).Some? && ValueOf(g[3]).Some?
    ensures var a, b, c, d := ValueOf(g[0]).value, ValueOf(g[1]).value, ValueOf(g[2]).value, ValueOf(g[3]).value;
      EncodeThree(High(a, b), Middle(b, c), Low(c, d)) == Normalise(g)
  {
    LettersBack(g);
    FourValuesBack(ValueOf(g[0]).value, ValueOf(g[1]).value, ValueOf(g[2]).value, ValueOf(g[3]).value);
  }

  /** A group that decodes is, after normalisation, the encoding of its bytes. */
  lemma GroupEncodes(g: seq<Byte>, last: bool)
    requires |g| == 4 && DecodeGroup(g, last).Some?
    ensures var bytes := DecodeGroup(g, last).value;
      1 <= |bytes| <= 3 && (|bytes| < 3 ==> last) && Encode(bytes) == Normalise(g)
  {
    var bytes := DecodeGroup(g, last).value;
    if g[2] == PAD {
      OneEncodes(g);
    } else if g[3] == PAD {
      TwoEncodes(g);
    } else {
      ThreeEncodes(g);
      EncodeOfThree(bytes);
    }
  }

  lemma EncodeOfThree(bytes: seq<Byte>)
    requires |bytes| == 3
    ensures Encode(bytes) == EncodeThree(bytes[0], bytes[1], bytes[2])
  {
    assert bytes[3..] == [];
  }

  // ----- whole texts -----

  lemma LastGroup(g: seq<Byte>)
    requires |g| == 4
    ensures DecodeGroups(g) == DecodeGroup(g, true)
  {
    assert g[..4] == g && g[4..] == [];
    if DecodeGroup(g, true).Some? { assert DecodeGroup(g, true).value + [] == DecodeGroup(g, true).value; }
  }

  /** Decoding undoes the standard encoding of any non-empty byte string. */
  lemma {:induction false} DecodeUndoesEncode(bytes: seq<Byte>)
    requires bytes != []
    ensures Decode(Encode(bytes)) == Some(bytes)
    decreases |bytes|
  {
    if |bytes| == 1 {
      LastGroup(EncodeOne(bytes[0]));
      OneDecodes(bytes[0]);
      assert bytes == [bytes[0]];
    } else if |bytes| == 2 {
      LastGroup(EncodeTwo(bytes[0], bytes[1]));
      TwoDecodes(bytes[0], bytes[1]);
      assert bytes == [bytes[0], bytes[1]];
    } else {
      var head, tail := EncodeThree(bytes[0], bytes[1], bytes[2]), Encode(bytes[3..]);
      assert (head + tail)[..4] == head && (head + tail)[4..] == tail;
      ThreeDecodes(bytes[0], bytes[1], bytes[2], |head + tail| == 4);
      if bytes[3..] != [] { DecodeUndoesEncode(bytes[3..]); }
      assert DecodeGroups(tail) == Some(bytes[3..]);
      assert [bytes[0], bytes[1], bytes[2]] + bytes[3..] == bytes;
    }
  }

  lemma EncodeGroups(head: seq<Byte>, tail: seq<Byte>)
    requires |head| == 3
    ensures Encode(head + tail) == Encode(head) + Encode(tail)
  {
    assert (head + tail)[3..] == tail && head[3..] == [];
  }

  lemma {:induction false} GroupsEncode(text: seq<Byte>)
    requires |text| % 4 == 0 && DecodeGroups(text).Some?
    ensures Encode(DecodeGroups(text).value) == Normalise(text)
    decreases |text|
  {
    if text != [] {
      var head, tail := DecodeGroup(text[..4], |text| == 4).value, DecodeGroups(text[4..]).value;
      GroupEncodes(text[..4], |text| == 4);
      GroupsEncode(text[4..]);
      assert Normalise(text) == Normalise(text[..4]) + Normalise(text[4..]);
      if |text| == 4 {
        assert head + tail == head;
      } else {
        EncodeGroups(head, tail);
      }
    }
  }

  /** Any accepted text is, with `-` and `_` respelled, the one standard encoding of its result. */
  lemma AcceptedIsCanonical(text: seq<Byte>)
    requires Decode(text).Some?
    ensures Decode(text).value != [] && Encode(Decode(text).value) == Normalise(text)
  {
    GroupsEncode(text);
  }

  /** Two accepted texts decode alike if and only if they normalise alike. */
  lemma DecodesAlikeIff(s: seq<Byte>, t: seq<Byte>)
    requires Decode(s).Some? && Decode(t).Some?
    ensures Decode(s) == Decode(t) <==> Normalise(s) == Normalise(t)
  {
    AcceptedIsCanonical(s);
    AcceptedIsCanonical(t);
    DecodeUndoesEncode(Decode(s).value);
    DecodeUndoesEncode(Decode(t).value);
  }

  method DecodeChunk(chunk: seq<Byte>, last: bool) returns (bytes: Option<seq<Byte>>)
    requires |chunk| == 4
    ensures bytes == DecodeGroup(chunk, last)
  {
    var a := ValueOf(chunk[0]);
    if a.None? { return None; }
    var b := ValueOf(chunk[1]);
    if b.None? { return None; }
    if chunk[2] == PAD {
      if !last || chunk[3] != PAD { return None; }
      if b.value & 0x0f != 0 { return None; }
      return Some([High(a.value, b.value)]);
    }
    var c := ValueOf(chunk[2]);
    if c.None? { return None; }
    if chunk[3] == PAD {
      if !last { return None; }
      if c.value & 0x03 != 0 { return None; }
      return Some([High(a.value, b.value), Middle(b.value, c.value)]);
    }
    var d := ValueOf(chunk[3]);
    if d.None? { return None; }
    return Some([High(a.value, b.value), Middle(b.value, c.value), Low(c.value, d.value)]);
  }

  method DecodeStrict(text: seq<Byte>) returns (result: Option<seq<Byte>>)
    ensures result == Decode(text)
  {
    if text == [] || |text| % 4 != 0 { return None; }
    var output: seq<Byte> := [];
    var index := 0;
    assert text[0..] == text;
    assert DecodeGroups(text).Some? ==> output + DecodeGroups(text).value == DecodeGroups(text).value;
    while 4 * index < |text|
      invariant 4 * index <= |text|
      invariant var more := DecodeGroups(text[4 * index..]);
        DecodeGroups(text) == if more.None? then None else Some(output + more.value)
    {
      var chunk := text[4 * index..4 * index + 4];
      ghost var left := text[4 * index..];
      assert left[..4] == chunk && left[4..] == text[4 * (index + 1)..];
      var bytes := DecodeChunk(chunk, 4 * (index + 1) == |text|);
      if bytes.None? { return None; }
      ghost var more := DecodeGroups(left[4..]);
      assert more.Some? ==> output + (bytes.value + more.value) == output + bytes.value + more.value;
      output := output + bytes.value;
      index := index + 1;
    }
    assert text[4 * index..] == [] && output + [] == output;
    result := Some(output);
  }
}
