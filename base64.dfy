/**
 * The base64 encoding of section 4 of RFC 4648 (alphabet A-Z a-z 0-9 + /,
 * `=` padding), which `Buffer.prototype.toString('base64')` produces.
 */
module Base64 {
  import opened Wrappers
  import opened Octets

  type sextet = x: int | 0 <= x < 64

  /** The character for a 6-bit value (Table 1 of RFC 4648). */
  function Digit(v: sextet): (c: char)
    ensures IsAlphabet(c)
  {
    if v < 26 then ('A' as int + v) as char
    else if v < 52 then ('a' as int + (v - 26)) as char
    else if v < 62 then ('0' as int + (v - 52)) as char
    else if v == 62 then '+'
    else '/'
  }

  predicate IsAlphabet(c: char)
  {
    'A' <= c <= 'Z' || 'a' <= c <= 'z' || '0' <= c <= '9' || c == '+' || c == '/'
  }

  /** The 6-bit value of an alphabet character; `None` for any other character. */
  function Value(c: char): (r: Option<sextet>)
    ensures r.Some? <==> IsAlphabet(c)
  {
    if 'A' <= c <= 'Z' then Some(c as int - 'A' as int)
    else if 'a' <= c <= 'z' then Some(c as int - 'a' as int + 26)
    else if '0' <= c <= '9' then Some(c as int - '0' as int + 52)
    else if c == '+' then Some(62)
    else if c == '/' then Some(63)
    else None
  }

  lemma ValueOfDigit(v: sextet)
    ensures Value(Digit(v)) == Some(v)
  {
  }

  /** Three octets as four characters. */
  function EncodeGroup(b0: byte, b1: byte, b2: byte): string
  {
    [Digit(b0 / 4), Digit((b0 % 4) * 16 + b1 / 16), Digit((b1 % 16) * 4 + b2 / 64), Digit(b2 % 64)]
  }

  /** The encoding of `bs`, padded with `=` to a multiple of four characters. */
  function Encode(bs: seq<byte>): (s: string)
    ensures |s| % 4 == 0
    ensures forall i :: 0 <= i < |s| ==> IsAlphabet(s[i]) || s[i] == '='
    decreases |bs|
  {
    if |bs| == 0 then ""
    else if |bs| == 1 then [Digit(bs[0] / 4), Digit((bs[0] % 4) * 16), '=', '=']
    else if |bs| == 2 then
      [Digit(bs[0] / 4), Digit((bs[0] % 4) * 16 + bs[1] / 16), Digit((bs[1] % 16) * 4), '=']
    else EncodeGroup(bs[0], bs[1], bs[2]) + Encode(bs[3..])
  }

  /** Four alphabet characters as three octets. */
  function DecodeFull(q: string): Option<seq<byte>>
    requires |q| == 4
  {
    var v0, v1, v2, v3 := Value(q[0]), Value(q[1]), Value(q[2]), Value(q[3]);
    if v0.None? || v1.None? || v2.None? || v3.None? then None
    else Some([v0.value * 4 + v1.value / 16, (v1.value % 16) * 16 + v2.value / 4, (v2.value % 4) * 64 + v3.value])
  }

  /** The last group, which may end in one or two `=` with zero bits under them. */
  function DecodeFinal(q: string): Option<seq<byte>>
    requires |q| == 4
  {
    if q[3] != '=' then DecodeFull(q)
    else
      var v0, v1 := Value(q[0]), Value(q[1]);
      if v0.None? || v1.None? then None
      else if q[2] == '=' then
        if v1.value % 16 == 0 then Some([v0.value * 4 + v1.value / 16]) else None
      else
        var v2 := Value(q[2]);
        if v2.Some? && v2.value % 4 == 0
        then Some([v0.value * 4 + v1.value / 16, (v1.value % 16) * 16 + v2.value / 4])
        else None
  }

  /**
   * Strict decoding: the length is a multiple of four, every character is in
   * the alphabet, and padding appears only at the end of the last group with
   * zero bits under it. Anything else is `None`.
   */
  function Decode(s: string): Option<seq<byte>>
    decreases |s|
  {
    if |s| == 0 then Some([])
    else if |s| < 4 then None
    else if |s| == 4 then DecodeFinal(s)
    else match DecodeFull(s[..4])
      case None => None
      case Some(group) =>
        match Decode(s[4..])
        case None => None
        case Some(rest) => Some(group + rest)
  }

  lemma GroupArithmetic(b0: byte, b1: byte, b2: byte)
    ensures (b0 / 4) * 4 + ((b0 % 4) * 16 + b1 / 16) / 16 == b0
    ensures (((b0 % 4) * 16 + b1 / 16) % 16) * 16 + ((b1 % 16) * 4 + b2 / 64) / 4 == b1
    ensures (((b1 % 16) * 4 + b2 / 64) % 4) * 64 + b2 % 64 == b2
  {
  }

  lemma DecodeOne(b0: byte)
    ensures Decode(Encode([b0])) == Some([b0])
  {
    ValueOfDigit(b0 / 4);
    ValueOfDigit((b0 % 4) * 16);
  }

  lemma DecodeTwo(b0: byte, b1: byte)
    ensures Decode(Encode([b0, b1])) == Some([b0, b1])
  {
    ValueOfDigit(b0 / 4);
    ValueOfDigit((b0 % 4) * 16 + b1 / 16);
    ValueOfDigit((b1 % 16) * 4);
    GroupArithmetic(b0, b1, 0);
  }

  lemma DecodeFullGroup(b0: byte, b1: byte, b2: byte)
    ensures DecodeFull(EncodeGroup(b0, b1, b2)) == Some([b0, b1, b2])
    ensures DecodeFinal(EncodeGroup(b0, b1, b2)) == Some([b0, b1, b2])
  {
    ValueOfDigit(b0 / 4);
    ValueOfDigit((b0 % 4) * 16 + b1 / 16);
    ValueOfDigit((b1 % 16) * 4 + b2 / 64);
    ValueOfDigit(b2 % 64);
    GroupArithmetic(b0, b1, b2);
  }

  /** A full group in front of a decodable rest decodes to its three octets. */
  lemma DecodeGroup(b0: byte, b1: byte, b2: byte, rest: string)
    requires |rest| % 4 == 0
    requires Decode(rest).Some?
    ensures Decode(EncodeGroup(b0, b1, b2) + rest) == Some([b0, b1, b2] + Decode(rest).value)
  {
    var s := EncodeGroup(b0, b1, b2) + rest;
    DecodeFullGroup(b0, b1, b2);
    assert s[..4] == EncodeGroup(b0, b1, b2);
    assert s[4..] == rest;
    if rest == [] {
      assert s == EncodeGroup(b0, b1, b2);
      assert [b0, b1, b2] + Decode(rest).value == [b0, b1, b2];
    }
  }

  /** Inputs of one or two octets, which end in padding. */
  lemma DecodeShort(bs: seq<byte>)
    requires 1 <= |bs| <= 2
    ensures Decode(Encode(bs)) == Some(bs)
  {
    if |bs| == 1 {
      DecodeOne(bs[0]);
      assert bs == [bs[0]];
    } else {
      DecodeTwo(bs[0], bs[1]);
      assert bs == [bs[0], bs[1]];
    }
  }

  /** Every three octets, and a last one or two, take four characters. */
  lemma {:induction false} EncodedLength(bs: seq<byte>)
    ensures |Encode(bs)| == 4 * ((|bs| + 2) / 3)
    decreases |bs|
  {
    if |bs| >= 3 {
      EncodedLength(bs[3..]);
      assert |Encode(bs)| == 4 + |Encode(bs[3..])|;
      assert (|bs| + 2) / 3 == (|bs[3..]| + 2) / 3 + 1;
    }
  }

  lemma SplitThree<T>(s: seq<T>)
    requires |s| >= 3
    ensures s == [s[0], s[1], s[2]] + s[3..]
  {
  }

  /** A longer input decodes when what follows its first three octets does. */
  lemma DecodeLong(bs: seq<byte>)
    requires |bs| >= 3
    requires Decode(Encode(bs[3..])) == Some(bs[3..])
    ensures Decode(Encode(bs)) == Some(bs)
  {
    var rest := Encode(bs[3..]);
    DecodeGroup(bs[0], bs[1], bs[2], rest);
    assert Encode(bs) == EncodeGroup(bs[0], bs[1], bs[2]) + rest;
    SplitThree(bs);
  }

  /** Decoding undoes encoding. */
  lemma {:induction false} DecodeEncode(bs: seq<byte>)
    ensures Decode(Encode(bs)) == Some(bs)
    decreases |bs|
  {
    if |bs| == 0 {
    } else if |bs| <= 2 {
      DecodeShort(bs);
    } else {
      DecodeEncode(bs[3..]);
      DecodeLong(bs);
    }
  }
}
