/** The logo of a network or token: the image path it tries (`.svg`, then
    `.png`, then none), and the gradient drawn behind it, whose two hues
    come from a 32-bit hash of the identifier. */
module AssetLogo {
  import opened Wrappers
  import opened JsString
  import DonationConfig

  datatype LogoKind = NetworkLogo | TokenLogo

  /** The image path without its extension: under `logos/networks/` with
      the network key as given, or under `logos/tokens/` with the symbol
      lower-cased; `root` is the deployment's base path, `/` when unset. */
  function BasePath(root: Option<string>, kind: LogoKind, id: string): string {
    root.GetOr("/") + (if kind == NetworkLogo then "logos/networks/" + id else "logos/tokens/" + AsciiLower(id))
  }

  /** Token symbols that differ only in case share a logo; network keys
      are used as given. */
  lemma TokenPathIgnoresCase(root: Option<string>, a: string, b: string)
    requires AsciiLower(a) == AsciiLower(b)
    ensures BasePath(root, TokenLogo, a) == BasePath(root, TokenLogo, b)
    ensures BasePath(root, TokenLogo, a) == BasePath(root, TokenLogo, AsciiLower(a))
    ensures BasePath(root, NetworkLogo, a) == root.GetOr("/") + "logos/networks/" + a
  {
    DonationConfig.AsciiLowerIdempotent(a);
  }

  // ---------------------------------------------------------------------
  // The gradient hash
  // ---------------------------------------------------------------------

  const TwoTo31 := 0x8000_0000
  const TwoTo32 := 0x1_0000_0000

  /** `x | 0`: the integer taken modulo 2^32 into the signed 32-bit range. */
  function ToInt32(x: int): (r: int)
    ensures -TwoTo31 <= r < TwoTo31
    ensures (r - x) % TwoTo32 == 0
  {
    (x + TwoTo31) % TwoTo32 - TwoTo31
  }

  /** `x >>> 0`: the integer taken modulo 2^32 into the unsigned range. */
  function ToUint32(x: int): (r: nat)
    ensures r < TwoTo32
    ensures (r - x) % TwoTo32 == 0
  {
    x % TwoTo32
  }

  /** The UTF-16 code units of a string, as `charCodeAt` reads them. */
  function CodeUnits(s: string): (u: seq<int>)
    ensures forall i :: 0 <= i < |u| ==> 0 <= u[i] < 0x1_0000
    ensures |u| >= |s|
  {
    if s == [] then []
    else
      var cp := s[0] as int;
      var first := if cp < 0x1_0000 then [cp]
                   else [0xD800 + (cp - 0x1_0000) / 0x400, 0xDC00 + (cp - 0x1_0000) % 0x400];
      first + CodeUnits(s[1..])
  }

  /** Reading UTF-16 code units back as text: a high surrogate followed
      by a low one is one supplementary character; a lone surrogate reads
      as U+FFFD. */
  function FromCodeUnits(u: seq<int>): (s: string)
    requires forall i :: 0 <= i < |u| ==> 0 <= u[i] < 0x1_0000
    ensures |s| <= |u|
  {
    if u == [] then []
    else if 0xD800 <= u[0] < 0xDC00 && |u| >= 2 && 0xDC00 <= u[1] < 0xE000 then
      [(0x1_0000 + (u[0] - 0xD800) * 0x400 + (u[1] - 0xDC00)) as char] + FromCodeUnits(u[2..])
    else if 0xD800 <= u[0] < 0xE000 then
      ['\U{FFFD}'] + FromCodeUnits(u[1..])
    else
      [u[0] as char] + FromCodeUnits(u[1..])
  }

  /** A character below U+10000 is one code unit, which reads back as
      that character. */
  lemma OneUnitDecodes(c: char, rest: seq<int>)
    requires c as int < 0x1_0000
    requires forall i :: 0 <= i < |rest| ==> 0 <= rest[i] < 0x1_0000
    ensures FromCodeUnits([c as int] + rest) == [c] + FromCodeUnits(rest)
  {
    assert ([c as int] + rest)[1..] == rest;
  }

  /** A supplementary code point is a surrogate pair, which reads back as
      that code point. */
  lemma PairDecodes(cp: int, rest: seq<int>)
    requires 0x1_0000 <= cp < 0x11_0000
    requires forall i :: 0 <= i < |rest| ==> 0 <= rest[i] < 0x1_0000
    ensures var u := [0xD800 + (cp - 0x1_0000) / 0x400, 0xDC00 + (cp - 0x1_0000) % 0x400] + rest;
      (forall i :: 0 <= i < |u| ==> 0 <= u[i] < 0x1_0000) && FromCodeUnits(u) == [cp as char] + FromCodeUnits(rest)
  {
    var q, r := (cp - 0x1_0000) / 0x400, (cp - 0x1_0000) % 0x400;
    var u := [0xD800 + q, 0xDC00 + r] + rest;
    assert u[2..] == rest;
    assert 0x1_0000 + q * 0x400 + r == cp;
  }

  /** `CodeUnits` of a non-empty string: the first character's units, then
      the rest's. */
  lemma CodeUnitsCons(s: string)
    requires s != []
    ensures CodeUnits(s) == CodeUnits([s[0]]) + CodeUnits(s[1..])
  {
    assert [s[0]][1..] == [];
  }

  /** `charCodeAt` over the whole string loses nothing: the code units
      read back as the string. */
  lemma {:induction false} CodeUnitsRoundTrip(s: string)
    ensures FromCodeUnits(CodeUnits(s)) == s
  {
    if s != [] {
      var rest := CodeUnits(s[1..]);
      CodeUnitsCons(s);
      var cp := s[0] as int;
      if cp < 0x1_0000 {
        assert CodeUnits([s[0]]) == [cp] + CodeUnits([]);
        OneUnitDecodes(s[0], rest);
      } else {
        assert CodeUnits([s[0]]) == [0xD800 + (cp - 0x1_0000) / 0x400, 0xDC00 + (cp - 0x1_0000) % 0x400] + CodeUnits([]);
        PairDecodes(cp, rest);
      }
      CodeUnitsRoundTrip(s[1..]);
      assert [s[0]] + s[1..] == s;
    }
  }

  /** The hash of a sequence of code units: `h := (h * 31 + unit) | 0`
      from `h = 0`, one unit after the other. */
  function HashOf(units: seq<int>): (h: int)
    ensures -TwoTo31 <= h < TwoTo31
  {
    if units == [] then 0 else ToInt32(HashOf(units[..|units| - 1]) * 31 + units[|units| - 1])
  }

  /** The loop of the gradient memo. */
  method GradientHash(id: string) returns (h: int)
    ensures h == HashOf(CodeUnits(id))
    ensures -TwoTo31 <= h < TwoTo31
  {
    var units := CodeUnits(id);
    h := 0;
    var i := 0;
    while i < |units|
      invariant 0 <= i <= |units|
      invariant h == HashOf(units[..i])
    {
      assert units[..i + 1][..i] == units[..i];
      h := ToInt32(h * 31 + units[i]);
      i := i + 1;
    }
    assert units[..|units|] == units;
  }

  /** The same hash on unbounded integers: the polynomial
      `units[0] * 31^(n-1) + ... + units[n-1]`. */
  function Polynomial(units: seq<int>): int {
    if units == [] then 0 else Polynomial(units[..|units| - 1]) * 31 + units[|units| - 1]
  }

  /** Two integers that differ by a multiple of 2^32. */
  predicate Congruent(x: int, y: int) {
    (x - y) % TwoTo32 == 0
  }

  lemma CongruentStep(a: int, p: int, c: int)
    requires Congruent(a, p)
    ensures Congruent(ToInt32(a * 31 + c), p * 31 + c)
  {
    var v := a * 31 + c;
    CongruentShift(ToInt32(v), v, a, p, c);
  }

  /** A value congruent to `a * 31 + c` is congruent to `p * 31 + c`
      when `a` and `p` are. */
  lemma CongruentShift(x: int, v: int, a: int, p: int, c: int)
    requires Congruent(x, v) && v == a * 31 + c && Congruent(a, p)
    ensures Congruent(x, p * 31 + c)
  {
    var j := (x - v) / TwoTo32;
    var k := (a - p) / TwoTo32;
    assert x - v == j * TwoTo32;
    assert a - p == k * TwoTo32;
    var m := j + 31 * k;
    assert x - (p * 31 + c) == m * TwoTo32;
    assert (m * TwoTo32) % TwoTo32 == 0;
  }

  /** The wrap-around of `| 0` at every step loses nothing modulo 2^32:
      the hash is the polynomial hash reduced to 32 bits. */
  lemma {:induction false} HashIsPolynomial(units: seq<int>)
    ensures Congruent(HashOf(units), Polynomial(units))
    ensures ToUint32(HashOf(units)) == Polynomial(units) % TwoTo32
  {
    if units != [] {
      var init := units[..|units| - 1];
      HashIsPolynomial(init);
      CongruentStep(HashOf(init), Polynomial(init), units[|units| - 1]);
    }
    CongruentUnsigned(HashOf(units), Polynomial(units));
  }

  /** Congruent integers have the same unsigned 32-bit value. */
  lemma CongruentUnsigned(h: int, p: int)
    requires Congruent(h, p)
    ensures ToUint32(h) == p % TwoTo32
  {
    var k := (h - p) / TwoTo32;
    assert h == p + k * TwoTo32;
    var q := p / TwoTo32;
    assert p == q * TwoTo32 + p % TwoTo32;
    assert h == (q + k) * TwoTo32 + p % TwoTo32;
  }

  /** The two hues: the unsigned hash modulo 360, and a second hue 90 to
      179 degrees further round the wheel. */
  function Hue1(h: int): (hue: nat)
    ensures hue < 360
  {
    ToUint32(h) % 360
  }

  function Hue2(h: int): (hue: nat)
    ensures hue < 360
  {
    (Hue1(h) + 90 + (ToUint32(h) / 32) % 90) % 360
  }

  lemma HuesApart(h: int)
    ensures 90 <= (Hue2(h) - Hue1(h)) % 360 <= 179
  {
    ArcApart(Hue1(h), (ToUint32(h) / 32) % 90);
  }

  /** Turning a hue `a` by `90 + d` degrees, `d` under 90, lands 90 to 179
      degrees further round the wheel. */
  lemma ArcApart(a: int, d: int)
    requires 0 <= a < 360 && 0 <= d < 90
    ensures 90 <= ((a + 90 + d) % 360 - a) % 360 <= 179
  {
    var x := a + 90 + d;
    if x < 360 {
      assert x % 360 == x;
    } else {
      assert x % 360 == x - 360;
      assert (x - 360 - a) + 360 == 90 + d;
    }
  }

  /** The CSS gradient the fallback paints. */
  function Gradient(h: int): string {
    "linear-gradient(135deg, hsl(" + NatToString(Hue1(h)) + " 70% 50%), hsl(" + NatToString(Hue2(h)) + " 70% 50%))"
  }

  // ---------------------------------------------------------------------
  // The extension fallback
  // ---------------------------------------------------------------------

  datatype Extension = Svg | Png

  /** The extension after a failed load: `svg` falls back to `png`, and
      anything else to none. */
  function AfterError(ext: Option<Extension>): (r: Option<Extension>)
    ensures r != Some(Svg)
    ensures r == Some(Png) <==> ext == Some(Svg)
  {
    if ext == Some(Svg) then Some(Png) else None
  }

  function AfterErrors(n: nat, ext: Option<Extension>): Option<Extension> {
    if n == 0 then ext else AfterError(AfterErrors(n - 1, ext))
  }

  /** Two failed loads exhaust the attempts, whatever came before. */
  lemma {:induction false} ErrorsExhaust(n: nat, ext: Option<Extension>)
    requires n >= 2
    ensures AfterErrors(n, ext) == None
  {
    if n > 2 {
      ErrorsExhaust(n - 1, ext);
    } else {
      assert AfterErrors(1, ext) != Some(Svg);
    }
  }

  /** The logo's state: the base path it loads and the extension it tries. */
  class Logo {
    var base: string
    var ext: Option<Extension>

    constructor (root: Option<string>, kind: LogoKind, id: string)
      ensures base == BasePath(root, kind, id) && ext == Some(Svg)
    {
      base := BasePath(root, kind, id);
      ext := Some(Svg);
    }

    /** A new identifier: when the base path changes the attempts start
        again from `svg`. */
    method SetTarget(root: Option<string>, kind: LogoKind, id: string)
      modifies this
      ensures base == BasePath(root, kind, id)
      ensures base != old(base) ==> ext == Some(Svg)
      ensures base == old(base) ==> ext == old(ext)
    {
      var b := BasePath(root, kind, id);
      if b != base {
        base := b;
        ext := Some(Svg);
      }
    }

    /** The image reported an error. */
    method ImageError()
      modifies this
      ensures ext == AfterError(old(ext)) && base == old(base)
    {
      ext := if ext == Some(Svg) then Some(Png) else None;
    }

    /** The image source, rendered only while an extension remains. */
    function ImageSource(): (src: Option<string>)
      reads this
      ensures src.Some? <==> ext.Some?
      ensures ext == Some(Svg) ==> src == Some(base + ".svg")
      ensures ext == Some(Png) ==> src == Some(base + ".png")
    {
      match ext
      case None => None
      case Some(Svg) => Some(base + ".svg")
      case Some(Png) => Some(base + ".png")
    }
  }
}
