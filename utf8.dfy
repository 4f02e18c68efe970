/** Octets, the unit both UTF-8 and base64 work on. */
module Octets {
  type byte = x: int | 0 <= x < 256
}

/**
 * UTF-8 (RFC 3629, section 3), the encoding `Buffer.from(text, 'utf-8')` and
 * `encodeURIComponent` apply to text before they turn it into base64 or into
 * percent escapes. A Dafny `char` is a Unicode scalar value, so every string
 * has an encoding.
 */
module Utf8 {
  import opened Wrappers
  import opened Octets

  predicate IsScalar(n: int)
  {
    0 <= n < 0xD800 || 0xE000 <= n < 0x11_0000
  }

  /** The one to four octets that encode `c`. */
  function EncodeChar(c: char): (bs: seq<byte>)
    ensures 1 <= |bs| <= 4
    ensures (c as int < 0x80) <==> bs == [c as int]
  {
    var n := c as int;
    if n < 0x80 then [n]
    else if n < 0x800 then [0xC0 + n / 64, 0x80 + n % 64]
    else if n < 0x1_0000 then [0xE0 + n / 4096, 0x80 + (n / 64) % 64, 0x80 + n % 64]
    else [0xF0 + n / 262144, 0x80 + (n / 4096) % 64, 0x80 + (n / 64) % 64, 0x80 + n % 64]
  }

  /** The length of the sequence a lead octet starts; 0 for an octet that cannot start one. */
  function SequenceLength(lead: byte): nat
  {
    if lead < 0x80 then 1
    else if 0xC2 <= lead < 0xE0 then 2
    else if 0xE0 <= lead < 0xF0 then 3
    else if 0xF0 <= lead < 0xF5 then 4
    else 0
  }

  predicate IsContinuation(b: byte)
  {
    0x80 <= b < 0xC0
  }

  /** The code point that a lead octet and its continuation octets carry. */
  function CodePoint(bs: seq<byte>): int
    requires 1 <= |bs| <= 4
  {
    var b := seq(|bs|, i requires 0 <= i < |bs| => bs[i] as int);
    if |b| == 1 then b[0]
    else if |b| == 2 then (b[0] - 0xC0) * 64 + (b[1] - 0x80)
    else if |b| == 3 then (b[0] - 0xE0) * 4096 + (b[1] - 0x80) * 64 + (b[2] - 0x80)
    else (b[0] - 0xF0) * 262144 + (b[1] - 0x80) * 4096 + (b[2] - 0x80) * 64 + (b[3] - 0x80)
  }

  /** The smallest code point a sequence of this length may carry (no overlong forms). */
  function MinimumFor(length: nat): int
  {
    if length <= 1 then 0 else if length == 2 then 0x80 else if length == 3 then 0x800 else 0x1_0000
  }

  /** Decodes exactly one well-formed sequence; `None` for anything else. */
  function DecodeChar(bs: seq<byte>): Option<char>
  {
    if |bs| == 0 || SequenceLength(bs[0]) != |bs| then None
    else if exists i :: 1 <= i < |bs| && !IsContinuation(bs[i]) then None
    else
      var n := CodePoint(bs);
      if MinimumFor(|bs|) <= n && IsScalar(n) then Some(n as char) else None
  }

  lemma TwoOctets(n: int)
    requires 0x80 <= n < 0x800
    ensures 0xC2 <= 0xC0 + n / 64 < 0xE0
    ensures ((0xC0 + n / 64) - 0xC0) * 64 + ((0x80 + n % 64) - 0x80) == n
  {
  }

  lemma ThreeOctets(n: int)
    requires 0x800 <= n < 0x1_0000
    ensures 0xE0 <= 0xE0 + n / 4096 < 0xF0
    ensures (n / 4096) * 4096 + ((n / 64) % 64) * 64 + n % 64 == n
  {
    assert (n / 4096) * 64 + (n / 64) % 64 == n / 64;
  }

  lemma FourOctets(n: int)
    requires 0x1_0000 <= n < 0x11_0000
    ensures 0xF0 <= 0xF0 + n / 262144 < 0xF5
    ensures (n / 262144) * 262144 + ((n / 4096) % 64) * 4096 + ((n / 64) % 64) * 64 + n % 64 == n
  {
    assert (n / 262144) * 64 + (n / 4096) % 64 == n / 4096;
    assert (n / 4096) * 64 + (n / 64) % 64 == n / 64;
  }

  /** The encoding of one character announces its own length and decodes back to it. */
  lemma EncodeCharDecodes(c: char)
    ensures SequenceLength(EncodeChar(c)[0]) == |EncodeChar(c)|
    ensures DecodeChar(EncodeChar(c)) == Some(c)
  {
    var n := c as int;
    var bs := EncodeChar(c);
    if n < 0x80 {
    } else if n < 0x800 {
      TwoOctets(n);
    } else if n < 0x1_0000 {
      ThreeOctets(n);
    } else {
      FourOctets(n);
    }
    assert CodePoint(bs) == n;
    assert (n as char) == c;
  }

  /** `Buffer.from(s, 'utf-8')`: the encodings of the characters, in order. */
  function Encode(s: string): (bs: seq<byte>)
    ensures |bs| >= |s|
    decreases |s|
  {
    if |s| == 0 then [] else EncodeChar(s[0]) + Encode(s[1..])
  }

  /** Strict UTF-8 decoding: `None` when the octets are not well-formed UTF-8. */
  function Decode(bs: seq<byte>): Option<string>
    decreases |bs|
  {
    if |bs| == 0 then Some("")
    else
      var n := SequenceLength(bs[0]);
      if n == 0 || n > |bs| then None
      else match DecodeChar(bs[..n])
        case None => None
        case Some(c) =>
          match Decode(bs[n..])
          case None => None
          case Some(rest) => Some([c] + rest)
  }

  /** Decoding undoes encoding. */
  lemma {:induction false} DecodeEncode(s: string)
    ensures Decode(Encode(s)) == Some(s)
    decreases |s|
  {
    if |s| > 0 {
      var head := EncodeChar(s[0]);
      var bs := Encode(s);
      EncodeCharDecodes(s[0]);
      DecodeEncode(s[1..]);
      assert bs[..|head|] == head;
      assert bs[|head|..] == Encode(s[1..]);
      assert s == [s[0]] + s[1..];
    }
  }

  /** Encoding distributes over concatenation. */
  lemma {:induction false} EncodeAppend(a: string, b: string)
    ensures Encode(a + b) == Encode(a) + Encode(b)
    decreases |a|
  {
    if |a| > 0 {
      EncodeAppend(a[1..], b);
      assert (a + b)[1..] == a[1..] + b;
    } else {
      assert a + b == b;
    }
  }
}
