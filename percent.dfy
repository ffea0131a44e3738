/** `encodeURIComponent` and `decodeURIComponent` (section 19.2.6 of
    ECMA-262): characters outside the unreserved set travel as the
    percent-escaped bytes of their UTF-8 encoding. */
module Percent {
  import opened Wrappers
  import JsString

  /** The characters `encodeURIComponent` leaves as they are. */
  predicate IsUnreserved(c: char) {
    ('A' <= c <= 'Z') || ('a' <= c <= 'z') || ('0' <= c <= '9')
    || c == '-' || c == '_' || c == '.' || c == '!' || c == '~' || c == '*'
    || c == '\'' || c == '(' || c == ')'
  }

  predicate IsHexDigit(c: char) {
    ('0' <= c <= '9') || ('a' <= c <= 'f') || ('A' <= c <= 'F')
  }

  function HexValue(c: char): (v: int)
    requires IsHexDigit(c)
    ensures 0 <= v < 16
  {
    if '0' <= c <= '9' then c as int - '0' as int
    else if 'a' <= c <= 'f' then c as int - 'a' as int + 10
    else c as int - 'A' as int + 10
  }

  /** Upper-case hexadecimal digit, as `encodeURIComponent` writes it. */
  function HexDigit(v: int): (c: char)
    requires 0 <= v < 16
    ensures IsHexDigit(c) && HexValue(c) == v
  {
    if v < 10 then ('0' as int + v) as char else ('A' as int + v - 10) as char
  }

  predicate IsBytes(b: seq<int>) {
    forall i :: 0 <= i < |b| ==> 0 <= b[i] < 256
  }

  /** `%XY` for one byte. */
  function EscapeByte(b: int): (r: string)
    requires 0 <= b < 256
    ensures |r| == 3 && r[0] == '%' && IsHexDigit(r[1]) && IsHexDigit(r[2])
  {
    ['%', HexDigit(b / 16), HexDigit(b % 16)]
  }

  function EscapeBytes(b: seq<int>): (r: string)
    requires IsBytes(b)
    ensures |r| == 3 * |b|
    ensures forall i :: 0 <= i < |r| ==> r[i] == '%' || IsHexDigit(r[i])
  {
    if b == [] then "" else EscapeByte(b[0]) + EscapeBytes(b[1..])
  }

  /** The UTF-8 encoding of a Unicode scalar value. */
  function Utf8Encode(c: char): (b: seq<int>)
    ensures IsBytes(b) && 1 <= |b| <= 4
  {
    var cp := c as int;
    if cp < 0x80 then [cp]
    else if cp < 0x800 then [0xC0 + cp / 64, 0x80 + cp % 64]
    else if cp < 0x10000 then [0xE0 + cp / 4096, 0x80 + (cp / 64) % 64, 0x80 + cp % 64]
    else [0xF0 + cp / 262144, 0x80 + (cp / 4096) % 64, 0x80 + (cp / 64) % 64, 0x80 + cp % 64]
  }

  function EncodeChar(c: char): (r: string)
    ensures forall i :: 0 <= i < |r| ==> IsUnreserved(r[i]) || r[i] == '%' || IsHexDigit(r[i])
  {
    if IsUnreserved(c) then [c] else EscapeBytes(Utf8Encode(c))
  }

  /** `encodeURIComponent(s)`. A Dafny string holds no lone surrogate, so
      the `URIError` the built-in raises for one cannot arise. */
  function EncodeUriComponent(s: string): (r: string)
    ensures forall i :: 0 <= i < |r| ==> IsUnreserved(r[i]) || r[i] == '%' || IsHexDigit(r[i])
  {
    if s == [] then "" else EncodeChar(s[0]) + EncodeUriComponent(s[1..])
  }

  /** The byte of a `%XY` escape at the start of `s`, if there is one. */
  function ReadEscape(s: string): (r: Option<int>)
    ensures r.Some? ==> 0 <= r.value < 256
  {
    if |s| >= 3 && s[0] == '%' && IsHexDigit(s[1]) && IsHexDigit(s[2]) then
      Some(HexValue(s[1]) * 16 + HexValue(s[2]))
    else None
  }

  /** The number of leading one bits of a byte (5 stands for "more than 4"). */
  function LeadingOnes(b: int): (n: int)
    requires 0 <= b < 256
    ensures 0 <= n <= 5
  {
    if b < 0x80 then 0 else if b < 0xC0 then 1 else if b < 0xE0 then 2
    else if b < 0xF0 then 3 else if b < 0xF8 then 4 else 5
  }

  /** The fixed high bits of a lead byte of an `n`-byte sequence. */
  function LeadMark(n: int): int {
    if n == 2 then 0xC0 else if n == 3 then 0xE0 else 0xF0
  }

  /** `m` escaped continuation bytes (`10xxxxxx`), as their six payload bits. */
  function ReadContinuations(s: string, m: nat): (r: Option<seq<int>>)
    ensures r.Some? ==> |r.value| == m && forall i :: 0 <= i < m ==> 0 <= r.value[i] < 64
  {
    if m == 0 then Some([])
    else match ReadEscape(s)
      case Some(b) =>
        if 0x80 <= b < 0xC0 then
          match ReadContinuations(s[3..], m - 1)
          case Some(rest) => Some([b - 0x80] + rest)
          case None => None
        else None
      case None => None
  }

  /** The code point of a lead payload followed by continuation payloads. */
  function Combine(lead: int, cont: seq<int>): int
    decreases cont
  {
    if cont == [] then lead else Combine(lead * 64 + cont[0], cont[1..])
  }

  /** A decoded value is a valid `n`-byte encoding: not overlong, not a
      surrogate, not above U+10FFFF. */
  predicate ValidScalar(n: int, cp: int) {
    if n == 2 then 0x80 <= cp < 0x800
    else if n == 3 then 0x800 <= cp < 0x10000 && !(0xD800 <= cp < 0xE000)
    else 0x10000 <= cp <= 0x10FFFF
  }

  function Prepend(p: string, r: Result<string>): (q: Result<string>)
    ensures q.Ok? <==> r.Ok?
    ensures q.Ok? ==> q.value == p + r.value
  {
    match r
    case Ok(t) => Ok(p + t)
    case Err(e) => Err(e)
  }

  const UriError := "URIError: URI malformed"

  /** `decodeURIComponent(s)`: characters other than `%` pass through; each
      `%XY` starts a UTF-8 sequence whose length its lead byte fixes and
      whose further bytes must be `%XY` continuation bytes; a missing or
      non-hex digit, a stray continuation byte as lead, a lead of more than
      four bytes, a truncated sequence or an invalid encoding throws. */
  function DecodeUriComponent(s: string): (r: Result<string>)
    decreases |s|
  {
    if s == [] then Ok("")
    else if s[0] != '%' then Prepend([s[0]], DecodeUriComponent(s[1..]))
    else match ReadEscape(s)
      case None => Err(UriError)
      case Some(b) =>
        var n := LeadingOnes(b);
        if n == 0 then Prepend([b as char], DecodeUriComponent(s[3..]))
        else if n == 1 || n > 4 then Err(UriError)
        else if |s| < 3 * n then Err(UriError)
        else match ReadContinuations(s[3..], n - 1)
          case None => Err(UriError)
          case Some(cont) =>
            var cp := Combine(b - LeadMark(n), cont);
            if ValidScalar(n, cp) then Prepend([cp as char], DecodeUriComponent(s[3 * n..]))
            else Err(UriError)
  }

  lemma EscapeByteRead(b: int, rest: string)
    requires 0 <= b < 256
    ensures ReadEscape(EscapeByte(b) + rest) == Some(b)
    ensures (EscapeByte(b) + rest)[3..] == rest
  {
    var e := EscapeByte(b) + rest;
    assert e[1] == HexDigit(b / 16) && e[2] == HexDigit(b % 16);
  }

  /** The six payload bits of each continuation byte. */
  function Payloads(bs: seq<int>): (p: seq<int>)
    ensures |p| == |bs|
    ensures forall i :: 0 <= i < |bs| ==> p[i] == bs[i] - 0x80
  {
    if bs == [] then [] else [bs[0] - 0x80] + Payloads(bs[1..])
  }

  /** Reading back the escapes of continuation bytes gives their payloads. */
  lemma {:induction false} ContinuationsRead(bs: seq<int>, rest: string)
    requires forall i :: 0 <= i < |bs| ==> 0x80 <= bs[i] < 0xC0
    ensures ReadContinuations(EscapeBytes(bs) + rest, |bs|) == Some(Payloads(bs))
    ensures (EscapeBytes(bs) + rest)[3 * |bs|..] == rest
    decreases |bs|
  {
    if bs != [] {
      var e := EscapeBytes(bs) + rest;
      var tail := EscapeBytes(bs[1..]) + rest;
      EscapedSplit(bs, rest);
      EscapeByteRead(bs[0], tail);
      ContinuationsRead(bs[1..], rest);
      JsString.DropPrefix(EscapeByte(bs[0]), tail, 3 * (|bs| - 1));
      ContinuationStep(e, |bs|, bs[0], Payloads(bs[1..]));
    }
  }

  /** One continuation escape read off the front of `s`. */
  lemma ContinuationStep(s: string, m: nat, b: int, more: seq<int>)
    requires m >= 1 && ReadEscape(s) == Some(b) && 0x80 <= b < 0xC0
    requires ReadContinuations(s[3..], m - 1) == Some(more)
    ensures ReadContinuations(s, m) == Some([b - 0x80] + more)
  {
  }

  lemma TwoByteValue(cp: int)
    requires 0x80 <= cp < 0x800
    ensures LeadingOnes(0xC0 + cp / 64) == 2
    ensures Combine(cp / 64, [cp % 64]) == cp
  {
    assert Combine(cp / 64, [cp % 64]) == Combine((cp / 64) * 64 + cp % 64, []);
  }

  lemma ThreeByteValue(cp: int)
    requires 0x800 <= cp < 0x10000
    ensures LeadingOnes(0xE0 + cp / 4096) == 3
    ensures Combine(cp / 4096, [(cp / 64) % 64, cp % 64]) == cp
  {
    var q := cp / 64;
    assert q / 64 == cp / 4096;
    assert (q / 64) * 64 + q % 64 == q;
    assert Combine(cp / 4096, [q % 64, cp % 64]) == Combine((cp / 4096) * 64 + q % 64, [cp % 64]);
    assert Combine(q, [cp % 64]) == Combine(q * 64 + cp % 64, []);
  }

  lemma FourByteValue(cp: int)
    requires 0x10000 <= cp <= 0x10FFFF
    ensures LeadingOnes(0xF0 + cp / 262144) == 4
    ensures Combine(cp / 262144, [(cp / 4096) % 64, (cp / 64) % 64, cp % 64]) == cp
  {
    var q := cp / 64;
    var r := q / 64;
    assert r == cp / 4096 && r / 64 == cp / 262144;
    assert (r / 64) * 64 + r % 64 == r;
    assert r * 64 + q % 64 == q;
    assert Combine(r / 64, [r % 64, q % 64, cp % 64]) == Combine(r, [q % 64, cp % 64]);
    assert Combine(r, [q % 64, cp % 64]) == Combine(q, [cp % 64]);
    assert Combine(q, [cp % 64]) == Combine(q * 64 + cp % 64, []);
  }

  /** The lead byte of a multi-byte encoding announces its length, and the
      payloads combine back into the code point. */
  lemma Utf8Shape(c: char)
    requires c as int >= 0x80
    ensures 2 <= |Utf8Encode(c)| <= 4
    ensures LeadingOnes(Utf8Encode(c)[0]) == |Utf8Encode(c)|
    ensures forall i :: 1 <= i < |Utf8Encode(c)| ==> 0x80 <= Utf8Encode(c)[i] < 0xC0
    ensures ValidScalar(|Utf8Encode(c)|, c as int)
    ensures Combine(Utf8Encode(c)[0] - LeadMark(|Utf8Encode(c)|), Payloads(Utf8Encode(c)[1..])) == c as int
  {
    var cp := c as int;
    var bs := Utf8Encode(c);
    if cp < 0x800 {
      TwoByteValue(cp);
      assert Payloads(bs[1..]) == [cp % 64];
    } else if cp < 0x10000 {
      ThreeByteValue(cp);
      assert Payloads(bs[1..]) == [(cp / 64) % 64, cp % 64];
    } else {
      FourByteValue(cp);
      assert Payloads(bs[1..]) == [(cp / 4096) % 64, (cp / 64) % 64, cp % 64];
    }
  }

  /** The escapes of a multi-byte character decode to that character. */
  lemma MultiByteDecodes(c: char, rest: string)
    requires c as int >= 0x80
    ensures DecodeUriComponent(EscapeBytes(Utf8Encode(c)) + rest)
            == Prepend([c], DecodeUriComponent(rest))
  {
    var bs := Utf8Encode(c);
    Utf8Shape(c);
    SequenceDecodes(bs, c as int, rest);
  }

  /** The escapes of a well-formed UTF-8 sequence of two to four bytes
      decode to the code point it encodes. */
  lemma SequenceDecodes(bs: seq<int>, cp: int, rest: string)
    requires IsBytes(bs) && 2 <= |bs| <= 4 && LeadingOnes(bs[0]) == |bs|
    requires forall i :: 1 <= i < |bs| ==> 0x80 <= bs[i] < 0xC0
    requires ValidScalar(|bs|, cp) && Combine(bs[0] - LeadMark(|bs|), Payloads(bs[1..])) == cp
    ensures DecodeUriComponent(EscapeBytes(bs) + rest) == Prepend([cp as char], DecodeUriComponent(rest))
  {
    var e := EscapeBytes(bs) + rest;
    EscapedLead(bs, rest, e);
    EscapedContinuations(bs, rest, e);
    LeadDecodes(e, bs[0], |bs|, Payloads(bs[1..]), cp);
  }

  /** The escaped text `e` of a lead byte and its continuation bytes
      starts with the lead escape ... */
  lemma EscapedLead(bs: seq<int>, rest: string, e: string)
    requires IsBytes(bs) && 1 <= |bs|
    requires e == EscapeBytes(bs) + rest
    ensures |e| >= 3 * |bs| && e[0] == '%' && ReadEscape(e) == Some(bs[0])
  {
    var tail := EscapeBytes(bs[1..]) + rest;
    EscapedSplit(bs, rest);
    EscapeByteRead(bs[0], tail);
  }

  /** ... then the continuations' payloads, then what follows. */
  lemma EscapedContinuations(bs: seq<int>, rest: string, e: string)
    requires IsBytes(bs) && 1 <= |bs|
    requires forall i :: 1 <= i < |bs| ==> 0x80 <= bs[i] < 0xC0
    requires e == EscapeBytes(bs) + rest
    ensures |e| >= 3 * |bs|
    ensures ReadContinuations(e[3..], |bs| - 1) == Some(Payloads(bs[1..]))
    ensures e[3 * |bs|..] == rest
  {
    var lead := EscapeByte(bs[0]);
    var tail := EscapeBytes(bs[1..]) + rest;
    EscapedSplit(bs, rest);
    ContinuationsRead(bs[1..], rest);
    JsString.DropPrefix(lead, tail, 3 * (|bs| - 1));
  }

  /** The escapes of a byte sequence and what follows: the first
      byte's escape, then the rest. */
  lemma EscapedSplit(bs: seq<int>, rest: string)
    requires IsBytes(bs) && 1 <= |bs|
    ensures EscapeBytes(bs) + rest == EscapeByte(bs[0]) + (EscapeBytes(bs[1..]) + rest)
  {
    JsString.ConcatAssoc(EscapeByte(bs[0]), EscapeBytes(bs[1..]), rest);
  }


  /** One step of the decoder on a lead escape of an `n`-byte sequence
      whose continuations read back and combine into a valid scalar. */
  lemma LeadDecodes(s: string, b: int, n: int, cont: seq<int>, cp: int)
    requires 2 <= n <= 4 && 0 <= b < 256 && LeadingOnes(b) == n
    requires |s| >= 3 * n && s[0] == '%' && ReadEscape(s) == Some(b)
    requires ReadContinuations(s[3..], n - 1) == Some(cont)
    requires Combine(b - LeadMark(n), cont) == cp && ValidScalar(n, cp)
    ensures DecodeUriComponent(s) == Prepend([cp as char], DecodeUriComponent(s[3 * n..]))
  {
  }

  lemma CharDecodes(c: char, rest: string)
    ensures DecodeUriComponent(EncodeChar(c) + rest) == Prepend([c], DecodeUriComponent(rest))
  {
    if IsUnreserved(c) {
      assert ([c] + rest)[1..] == rest;
    } else if c as int < 0x80 {
      EscapeByteRead(c as int, rest);
    } else {
      MultiByteDecodes(c, rest);
    }
  }

  /** `decodeURIComponent(encodeURIComponent(s)) == s` for every string. */
  lemma {:induction false} DecodeEncode(s: string)
    ensures DecodeUriComponent(EncodeUriComponent(s)) == Ok(s)
    decreases |s|
  {
    if s != [] {
      DecodeEncode(s[1..]);
      EncodeCons(s);
      CharDecodes(s[0], EncodeUriComponent(s[1..]));
      assert [s[0]] + s[1..] == s;
    }
  }

  lemma EncodeCons(s: string)
    requires s != []
    ensures EncodeUriComponent(s) == EncodeChar(s[0]) + EncodeUriComponent(s[1..])
  {
  }
}
