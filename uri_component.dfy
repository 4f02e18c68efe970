/**
 * ECMAScript's `encodeURIComponent` and `decodeURIComponent`: percent-encoding
 * (section 2.1 of RFC 3986) of the UTF-8 octets of every character outside the
 * unreserved set A-Z a-z 0-9 - _ . ! ~ * ' ( ), with upper-case hex digits.
 * Dafny characters are Unicode scalar values, so the lone-surrogate `URIError`
 * of `encodeURIComponent` cannot arise.
 */
module UriComponent {
  import opened Wrappers
  import opened Octets
  import Utf8

  /** The characters `encodeURIComponent` leaves as they are. */
  predicate IsUnreserved(c: char)
  {
    || 'A' <= c <= 'Z' || 'a' <= c <= 'z' || '0' <= c <= '9'
    || c == '-' || c == '_' || c == '.' || c == '!' || c == '~' || c == '*' || c == '\'' || c == '(' || c == ')'
  }

  function HexDigit(v: nat): (c: char)
    requires v < 16
    ensures IsUnreserved(c) && c != '%'
  {
    if v < 10 then ('0' as int + v) as char else ('A' as int + (v - 10)) as char
  }

  /** The value of a hex digit of either case; `None` for any other character. */
  function HexValue(c: char): (r: Option<nat>)
    ensures r.Some? ==> r.value < 16
  {
    if '0' <= c <= '9' then Some(c as int - '0' as int)
    else if 'A' <= c <= 'F' then Some(c as int - 'A' as int + 10)
    else if 'a' <= c <= 'f' then Some(c as int - 'a' as int + 10)
    else None
  }

  lemma HexValueOfDigit(v: nat)
    requires v < 16
    ensures HexValue(HexDigit(v)) == Some(v)
  {
  }

  /** One octet as `%XY`. */
  function Escape(b: byte): string
  {
    ['%', HexDigit(b / 16), HexDigit(b % 16)]
  }

  function EscapeAll(bs: seq<byte>): (s: string)
    ensures |s| == 3 * |bs|
    decreases |bs|
  {
    if |bs| == 0 then "" else Escape(bs[0]) + EscapeAll(bs[1..])
  }

  /** The encoding of one character. */
  function EncodeChar(c: char): string
  {
    if IsUnreserved(c) then [c] else EscapeAll(Utf8.EncodeChar(c))
  }

  /**
   * `encodeURIComponent(s)`. Its result holds only unreserved characters and
   * `%`, so none of the delimiters `&`, `=`, `?`, `#`, space or line feed.
   */
  function Encode(s: string): (r: string)
    ensures forall i :: 0 <= i < |r| ==> IsUnreserved(r[i]) || r[i] == '%'
    ensures forall i :: 0 <= i < |s| && IsUnreserved(s[i]) ==> s[i] in r
    decreases |s|
  {
    if |s| == 0 then ""
    else
      var head := EncodeChar(s[0]);
      assert forall i :: 0 <= i < |head| ==> IsUnreserved(head[i]) || head[i] == '%' by {
        if !IsUnreserved(s[0]) { EscapedCharacters(Utf8.EncodeChar(s[0])); }
      }
      var r := head + Encode(s[1..]);
      assert forall i :: 1 <= i < |s| ==> s[i] == s[1..][i - 1];
      r
  }

  lemma {:induction false} EscapedCharacters(bs: seq<byte>)
    ensures forall i :: 0 <= i < |EscapeAll(bs)| ==> IsUnreserved(EscapeAll(bs)[i]) || EscapeAll(bs)[i] == '%'
    decreases |bs|
  {
    if |bs| > 0 {
      EscapedCharacters(bs[1..]);
    }
  }

  /** Reads one `%XY` escape at the start of `t`. */
  function ParseEscape(t: string): Option<byte>
  {
    if |t| < 3 || t[0] != '%' then None
    else match (HexValue(t[1]), HexValue(t[2]))
      case (Some(h), Some(l)) => Some(h * 16 + l)
      case _ => None
  }

  /** Reads `n` consecutive escapes at the start of `t`. */
  function ParseEscapes(t: string, n: nat): Option<seq<byte>>
    decreases n
  {
    if n == 0 then Some([])
    else if |t| < 3 then None
    else match ParseEscape(t)
      case None => None
      case Some(b) =>
        match ParseEscapes(t[3..], n - 1)
        case None => None
        case Some(rest) => Some([b] + rest)
  }

  /**
   * The character that the escapes at the start of `t` encode, and how many
   * characters of `t` they take; `None` when they are not one well-formed
   * UTF-8 sequence.
   */
  function DecodeEscapes(t: string): (r: Option<(char, nat)>)
    ensures r.Some? ==> 3 <= r.value.1 <= |t|
  {
    match ParseEscape(t)
    case None => None
    case Some(lead) =>
      var n := Utf8.SequenceLength(lead);
      if n == 0 || |t| < 3 * n then None
      else match ParseEscapes(t, n)
        case None => None
        case Some(bs) =>
          match Utf8.DecodeChar(bs)
          case None => None
          case Some(c) => Some((c, 3 * n))
  }

  function Prepend(c: char, rest: Option<string>): Option<string>
  {
    match rest
    case None => None
    case Some(s) => Some([c] + s)
  }

  /**
   * `decodeURIComponent(t)`; `None` where it throws `URIError` (a malformed
   * escape, or escapes that are not one well-formed UTF-8 sequence).
   */
  function Decode(t: string): Option<string>
    decreases |t|
  {
    if |t| == 0 then Some("")
    else if t[0] != '%' then Prepend(t[0], Decode(t[1..]))
    else match DecodeEscapes(t)
      case None => None
      case Some((c, k)) => Prepend(c, Decode(t[k..]))
  }

  lemma ParseEscapeOf(b: byte, rest: string)
    ensures ParseEscape(Escape(b) + rest) == Some(b)
  {
    HexValueOfDigit(b / 16);
    HexValueOfDigit(b % 16);
  }

  lemma {:induction false} ParseEscapesOf(bs: seq<byte>, rest: string)
    ensures ParseEscapes(EscapeAll(bs) + rest, |bs|) == Some(bs)
    decreases |bs|
  {
    if |bs| > 0 {
      var t := EscapeAll(bs) + rest;
      ParseEscapeOf(bs[0], EscapeAll(bs[1..]) + rest);
      assert t == Escape(bs[0]) + (EscapeAll(bs[1..]) + rest);
      assert t[3..] == EscapeAll(bs[1..]) + rest;
      ParseEscapesOf(bs[1..], rest);
      assert bs == [bs[0]] + bs[1..];
    }
  }

  lemma DecodeEscapesOf(c: char, rest: string)
    requires !IsUnreserved(c)
    ensures DecodeEscapes(EncodeChar(c) + rest) == Some((c, |EncodeChar(c)|))
  {
    var bs := Utf8.EncodeChar(c);
    var t := EscapeAll(bs) + rest;
    Utf8.EncodeCharDecodes(c);
    assert t == Escape(bs[0]) + (EscapeAll(bs[1..]) + rest);
    ParseEscapeOf(bs[0], EscapeAll(bs[1..]) + rest);
    ParseEscapesOf(bs, rest);
  }

  lemma EscapesStartWithPercent(c: char)
    requires !IsUnreserved(c)
    ensures |EncodeChar(c)| >= 3 && EncodeChar(c)[0] == '%'
  {
    var bs := Utf8.EncodeChar(c);
    assert EncodeChar(c) == Escape(bs[0]) + EscapeAll(bs[1..]);
  }

  lemma DecodeEscapedStep(c: char, rest: string)
    requires !IsUnreserved(c)
    requires Decode(rest).Some?
    ensures Decode(EncodeChar(c) + rest) == Some([c] + Decode(rest).value)
  {
    var e := EncodeChar(c);
    var t := e + rest;
    DecodeEscapesOf(c, rest);
    EscapesStartWithPercent(c);
    assert t[0] == '%' && |t| > 0;
    assert t[|e|..] == rest;
    calc {
      Decode(t);
      Prepend(c, Decode(t[|e|..]));
      Prepend(c, Decode(rest));
    }
  }

  /** Decoding the encoding of one character in front of a decodable rest. */
  lemma DecodeCharStep(c: char, rest: string)
    requires Decode(rest).Some?
    ensures Decode(EncodeChar(c) + rest) == Some([c] + Decode(rest).value)
  {
    if IsUnreserved(c) {
      var t := EncodeChar(c) + rest;
      assert t[1..] == rest;
    } else {
      DecodeEscapedStep(c, rest);
    }
  }

  /** `decodeURIComponent(encodeURIComponent(s)) === s`. */
  lemma {:induction false} DecodeEncode(s: string)
    ensures Decode(Encode(s)) == Some(s)
    decreases |s|
  {
    if |s| > 0 {
      DecodeEncode(s[1..]);
      DecodeCharStep(s[0], Encode(s[1..]));
      assert s == [s[0]] + s[1..];
    }
  }
}
