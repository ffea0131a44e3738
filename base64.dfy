/** The browser's `btoa` and `atob`: standard base64 with padding on the way
    out, the forgiving base64 decoder of the HTML standard on the way in. */
module Base64 {
  import opened Wrappers

  /** A string `btoa` accepts: every character is one byte (Latin-1). */
  predicate IsLatin1(s: string) {
    forall i :: 0 <= i < |s| ==> s[i] as int < 256
  }

  predicate IsSextets(v: seq<int>) {
    forall i :: 0 <= i < |v| ==> 0 <= v[i] < 64
  }

  /** The base64 alphabet `A-Z a-z 0-9 + /`. */
  function SextetChar(v: int): (c: char)
    requires 0 <= v < 64
  {
    if v < 26 then ('A' as int + v) as char
    else if v < 52 then ('a' as int + v - 26) as char
    else if v < 62 then ('0' as int + v - 52) as char
    else if v == 62 then '+' else '/'
  }

  predicate IsAlphabet(c: char) {
    ('A' <= c <= 'Z') || ('a' <= c <= 'z') || ('0' <= c <= '9') || c == '+' || c == '/'
  }

  function SextetValue(c: char): (v: int)
    requires IsAlphabet(c)
    ensures 0 <= v < 64 && SextetChar(v) == c
  {
    if 'A' <= c <= 'Z' then c as int - 'A' as int
    else if 'a' <= c <= 'z' then c as int - 'a' as int + 26
    else if '0' <= c <= '9' then c as int - '0' as int + 52
    else if c == '+' then 62 else 63
  }

  lemma SextetCharValue(v: int)
    requires 0 <= v < 64
    ensures IsAlphabet(SextetChar(v)) && SextetValue(SextetChar(v)) == v
  {
  }

  /** The four sextets of the byte group `b0 b1 b2`, high bits first. */
  function Sextet0(b0: int): int { b0 / 4 }
  function Sextet1(b0: int, b1: int): int { (b0 % 4) * 16 + b1 / 16 }
  function Sextet2(b1: int, b2: int): int { (b1 % 16) * 4 + b2 / 64 }
  function Sextet3(b2: int): int { b2 % 64 }

  /** The three bytes of the sextet group `v0 v1 v2 v3`. */
  function Byte0(v0: int, v1: int): int { v0 * 4 + v1 / 16 }
  function Byte1(v1: int, v2: int): int { (v1 % 16) * 16 + v2 / 4 }
  function Byte2(v2: int, v3: int): int { (v2 % 4) * 64 + v3 }

  lemma SextetBounds(b0: int, b1: int, b2: int)
    requires 0 <= b0 < 256 && 0 <= b1 < 256 && 0 <= b2 < 256
    ensures 0 <= Sextet0(b0) < 64 && 0 <= Sextet1(b0, b1) < 64
    ensures 0 <= Sextet2(b1, b2) < 64 && 0 <= Sextet3(b2) < 64
  {
  }

  lemma ByteBounds(v0: int, v1: int, v2: int, v3: int)
    requires 0 <= v0 < 64 && 0 <= v1 < 64 && 0 <= v2 < 64 && 0 <= v3 < 64
    ensures 0 <= Byte0(v0, v1) < 256 && 0 <= Byte1(v1, v2) < 256 && 0 <= Byte2(v2, v3) < 256
  {
  }

  /** Cuts the bytes into groups of three and each group into four sextets; a
      final group of one or two bytes gives two or three sextets, its missing
      low bits zero. */
  function ToSextets(s: string): (v: seq<int>)
    requires IsLatin1(s)
    ensures IsSextets(v)
  {
    if |s| == 0 then []
    else
      var b0 := s[0] as int;
      var b1 := if |s| > 1 then s[1] as int else 0;
      var b2 := if |s| > 2 then s[2] as int else 0;
      SextetBounds(b0, b1, b2);
      if |s| == 1 then [Sextet0(b0), Sextet1(b0, 0)]
      else if |s| == 2 then [Sextet0(b0), Sextet1(b0, b1), Sextet2(b1, 0)]
      else [Sextet0(b0), Sextet1(b0, b1), Sextet2(b1, b2), Sextet3(b2)] + ToSextets(s[3..])
  }

  /** The inverse grouping: four sextets give three bytes; a final two or
      three give one or two bytes and their left-over bits are dropped. */
  function FromSextets(v: seq<int>): (s: string)
    requires IsSextets(v)
    ensures IsLatin1(s)
    ensures |s| == |v| * 3 / 4
  {
    if |v| <= 1 then ""
    else
      var v2 := if |v| > 2 then v[2] else 0;
      var v3 := if |v| > 3 then v[3] else 0;
      ByteBounds(v[0], v[1], v2, v3);
      if |v| == 2 then [Byte0(v[0], v[1]) as char]
      else if |v| == 3 then [Byte0(v[0], v[1]) as char, Byte1(v[1], v[2]) as char]
      else [Byte0(v[0], v[1]) as char, Byte1(v[1], v[2]) as char, Byte2(v[2], v[3]) as char] + FromSextets(v[4..])
  }

  /** The number of sextets modulo four: 0, 2 or 3 as the byte count is 0,
      1 or 2 modulo three. */
  lemma {:induction false} ToSextetsLength(s: string)
    requires IsLatin1(s)
    ensures |s| % 3 == 0 ==> |ToSextets(s)| % 4 == 0
    ensures |s| % 3 == 1 ==> |ToSextets(s)| % 4 == 2
    ensures |s| % 3 == 2 ==> |ToSextets(s)| % 4 == 3
    decreases |s|
  {
    if |s| >= 3 {
      var rest := s[3..];
      ToSextetsLength(rest);
      assert |rest| % 3 == |s| % 3 by {
        assert |rest| == |s| - 3;
      }
      assert |ToSextets(s)| == 4 + |ToSextets(rest)|;
      assert |ToSextets(s)| % 4 == |ToSextets(rest)| % 4;
    } else if |s| == 1 {
      assert |ToSextets(s)| == 2;
    } else if |s| == 2 {
      assert |ToSextets(s)| == 3;
    }
  }

  function SextetsToChars(v: seq<int>): (r: string)
    requires IsSextets(v)
    ensures |r| == |v|
    ensures forall i :: 0 <= i < |r| ==> IsAlphabet(r[i]) && SextetValue(r[i]) == v[i]
  {
    seq(|v|, i requires 0 <= i < |v| => SextetChar(v[i]))
  }

  function CharsToSextets(r: string): (v: seq<int>)
    requires forall i :: 0 <= i < |r| ==> IsAlphabet(r[i])
    ensures |v| == |r| && IsSextets(v)
    ensures forall i :: 0 <= i < |r| ==> SextetChar(v[i]) == r[i]
  {
    seq(|r|, i requires 0 <= i < |r| => SextetValue(r[i]))
  }

  function Padding(n: nat): string {
    if n % 3 == 1 then "==" else if n % 3 == 2 then "=" else ""
  }

  /** `btoa(s)`: throws on a character above 255; otherwise sextets in the
      base64 alphabet padded with `=` to a multiple of four. */
  function Btoa(s: string): (r: Result<string>)
    ensures r.Ok? <==> IsLatin1(s)
  {
    if IsLatin1(s) then Ok(SextetsToChars(ToSextets(s)) + Padding(|s|)) else Err("InvalidCharacterError")
  }

  /** The ASCII white space forgiving base64 ignores. */
  predicate IsAsciiWhitespace(c: char) {
    c == '\t' || c == '\n' || c == '\U{000C}' || c == '\r' || c == ' '
  }

  function RemoveWhitespace(s: string): (r: string)
    ensures forall i :: 0 <= i < |r| ==> !IsAsciiWhitespace(r[i])
    ensures (forall i :: 0 <= i < |s| ==> !IsAsciiWhitespace(s[i])) ==> r == s
  {
    if s == [] then []
    else if IsAsciiWhitespace(s[0]) then RemoveWhitespace(s[1..])
    else [s[0]] + RemoveWhitespace(s[1..])
  }

  /** When the length is a multiple of four, one or two trailing `=` go. */
  function StripPadding(s: string): string {
    if |s| % 4 != 0 then s
    else if |s| >= 2 && s[|s| - 2..] == "==" then s[..|s| - 2]
    else if |s| >= 1 && s[|s| - 1] == '=' then s[..|s| - 1]
    else s
  }

  /** `atob(s)`: drop white space and final padding; a length of 1 modulo 4
      or a character outside the alphabet throws; otherwise the bytes, six
      bits per remaining character with the left-over bits dropped. */
  function Atob(s: string): (r: Result<string>)
    ensures var t := StripPadding(RemoveWhitespace(s));
      && (r.Err? <==> |t| % 4 == 1 || exists i :: 0 <= i < |t| && !IsAlphabet(t[i]))
      && (r.Err? ==> r.message == "InvalidCharacterError")
      && (r.Ok? ==> IsLatin1(r.value) && |r.value| == |t| * 3 / 4)
  {
    var t := StripPadding(RemoveWhitespace(s));
    if |t| % 4 == 1 then Err("InvalidCharacterError")
    else if exists i :: 0 <= i < |t| && !IsAlphabet(t[i]) then Err("InvalidCharacterError")
    else Ok(FromSextets(CharsToSextets(t)))
  }

  lemma GroupRoundTrip(b0: int, b1: int, b2: int)
    requires 0 <= b0 < 256 && 0 <= b1 < 256 && 0 <= b2 < 256
    ensures Byte0(Sextet0(b0), Sextet1(b0, b1)) == b0
    ensures Byte1(Sextet1(b0, b1), Sextet2(b1, b2)) == b1
    ensures Byte2(Sextet2(b1, b2), Sextet3(b2)) == b2
  {
    var r0, q1, r1, q2 := b0 % 4, b1 / 16, b1 % 16, b2 / 64;
    assert (r0 * 16 + q1) / 16 == r0 && (r0 * 16 + q1) % 16 == q1;
    assert (r1 * 4 + q2) / 4 == r1 && (r1 * 4 + q2) % 4 == q2;
  }

  lemma FirstGroup(s: string)
    requires IsLatin1(s) && |s| >= 3
    ensures |FromSextets(ToSextets(s))| >= 3
    ensures FromSextets(ToSextets(s))[0] == s[0]
    ensures FromSextets(ToSextets(s))[1] == s[1]
    ensures FromSextets(ToSextets(s))[2] == s[2]
    ensures FromSextets(ToSextets(s))[3..] == FromSextets(ToSextets(s[3..]))
  {
    var b0, b1, b2 := s[0] as int, s[1] as int, s[2] as int;
    var v := ToSextets(s);
    assert v[4..] == ToSextets(s[3..]);
    assert Byte0(v[0], v[1]) == b0 && Byte1(v[1], v[2]) == b1 && Byte2(v[2], v[3]) == b2 by {
      GroupRoundTrip(b0, b1, b2);
    }
  }

  lemma OneByteRoundTrip(s: string)
    requires IsLatin1(s) && |s| == 1
    ensures FromSextets(ToSextets(s)) == s
  {
    var b0 := s[0] as int;
    SextetBounds(b0, 0, 0);
    var v := [Sextet0(b0), Sextet1(b0, 0)];
    assert ToSextets(s) == v;
    assert Byte0(v[0], v[1]) == b0 by {
      GroupRoundTrip(b0, 0, 0);
    }
  }

  lemma TwoBytesRoundTrip(s: string)
    requires IsLatin1(s) && |s| == 2
    ensures FromSextets(ToSextets(s)) == s
  {
    var b0, b1 := s[0] as int, s[1] as int;
    SextetBounds(b0, b1, 0);
    var v := [Sextet0(b0), Sextet1(b0, b1), Sextet2(b1, 0)];
    assert ToSextets(s) == v;
    assert Byte0(v[0], v[1]) == b0 && Byte1(v[1], v[2]) == b1 by {
      GroupRoundTrip(b0, b1, 0);
    }
  }

  lemma ThreeBytesRoundTrip(s: string)
    requires IsLatin1(s) && |s| >= 3
    ensures FromSextets(ToSextets(s)) == s[..3] + FromSextets(ToSextets(s[3..]))
  {
    FirstGroup(s);
    PrefixOfThree(FromSextets(ToSextets(s)), s);
  }

  /** A string that starts with the same three characters as `s`. */
  lemma PrefixOfThree(d: string, s: string)
    requires |d| >= 3 && |s| >= 3 && d[0] == s[0] && d[1] == s[1] && d[2] == s[2]
    ensures d == s[..3] + d[3..]
  {
    assert d[..3] == s[..3];
  }

  /** Regrouping the sextets gives the bytes back. */
  lemma {:induction false} SextetsRoundTrip(s: string)
    requires IsLatin1(s)
    ensures FromSextets(ToSextets(s)) == s
    decreases |s|
  {
    if |s| == 1 {
      OneByteRoundTrip(s);
    } else if |s| == 2 {
      TwoBytesRoundTrip(s);
    } else if |s| >= 3 {
      ThreeBytesRoundTrip(s);
      SextetsRoundTrip(s[3..]);
      assert s == s[..3] + s[3..];
    }
  }

  lemma CharsSextetsRoundTrip(v: seq<int>)
    requires IsSextets(v)
    ensures CharsToSextets(SextetsToChars(v)) == v
  {
  }

  lemma ModFour(n: nat)
    ensures n % 4 == 3 ==> n > 0 && (n + 1) % 4 == 0
    ensures n % 4 == 2 ==> n > 0 && (n + 2) % 4 == 0
  {
  }

  /** Stripping the padding off alphabet characters followed by the padding
      their count calls for leaves the characters. */
  lemma StripPaddingAfter(body: string, pad: string)
    requires forall i :: 0 <= i < |body| ==> IsAlphabet(body[i])
    requires (pad == "" && |body| % 4 == 0) || (pad == "=" && |body| % 4 == 3) || (pad == "==" && |body| % 4 == 2)
    ensures StripPadding(body + pad) == body
  {
    var e := body + pad;
    var n := |body|;
    ModFour(n);
    if pad == "" {
      assert e == body;
      if n > 0 {
        assert IsAlphabet(body[n - 1]);
        assert e[n - 2..] != "==" by { assert e[n - 1] != '='; }
      }
    } else if pad == "=" {
      assert IsAlphabet(body[n - 1]);
      assert e[|e| - 2..] != "==" by { assert e[n - 1] == body[n - 1]; }
      assert e[..|e| - 1] == body;
    } else {
      assert e[|e| - 2..] == "==";
      assert e[..|e| - 2] == body;
    }
  }

  lemma PaddingStripped(s: string)
    requires IsLatin1(s)
    ensures StripPadding(SextetsToChars(ToSextets(s)) + Padding(|s|)) == SextetsToChars(ToSextets(s))
  {
    ToSextetsLength(s);
    StripPaddingAfter(SextetsToChars(ToSextets(s)), Padding(|s|));
  }

  lemma NoWhitespaceAfter(body: string, pad: string)
    requires forall i :: 0 <= i < |body| ==> IsAlphabet(body[i])
    requires pad == "" || pad == "=" || pad == "=="
    ensures RemoveWhitespace(body + pad) == body + pad
  {
    var e := body + pad;
    forall i | 0 <= i < |e| ensures !IsAsciiWhitespace(e[i]) {
      if i < |body| { assert IsAlphabet(body[i]); }
    }
  }

  /** `atob(btoa(s)) == s` for every string `btoa` accepts. */
  lemma BtoaAtob(s: string)
    requires IsLatin1(s)
    ensures Atob(Btoa(s).value) == Ok(s)
  {
    var v := ToSextets(s);
    var body := SextetsToChars(v);
    NoWhitespaceAfter(body, Padding(|s|));
    PaddingStripped(s);
    ToSextetsLength(s);
    assert |body| % 4 != 1;
    SextetsRoundTrip(s);
    CharsSextetsRoundTrip(v);
  }
}
