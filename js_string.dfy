/** The JavaScript string and number built-ins the model relies on, stated
    over Dafny strings: truthiness, `startsWith`/`endsWith`/`includes`,
    `slice`, `split`/`join`, `trim`, ASCII lower-casing, `parseInt`,
    `Number(...)` and decimal printing of integers. */
module JsString {
  import opened Wrappers

  /** JavaScript's white space and line terminators: the `\s` class of
      regular expressions, and what `trim`, `parseInt` and `Number` skip. */
  predicate IsWhitespace(c: char) {
    c == '\t' || c == '\n' || c == '\U{000B}' || c == '\U{000C}' || c == '\r' || c == ' '
    || c == '\U{00A0}' || c == '\U{1680}' || ('\U{2000}' <= c <= '\U{200A}')
    || c == '\U{2028}' || c == '\U{2029}' || c == '\U{202F}' || c == '\U{205F}'
    || c == '\U{3000}' || c == '\U{FEFF}'
  }

  /** An optional string is truthy when it is present and not empty. */
  predicate Truthy(o: Option<string>) {
    o.Some? && o.value != ""
  }

  /** `o || fallback` for an optional string. */
  function OrElse(o: Option<string>, fallback: string): (r: string)
    ensures Truthy(o) ==> r == o.value
    ensures !Truthy(o) ==> r == fallback
  {
    if Truthy(o) then o.value else fallback
  }

  predicate StartsWith(s: string, prefix: string) {
    |prefix| <= |s| && s[..|prefix|] == prefix
  }

  predicate EndsWith(s: string, suffix: string) {
    |suffix| <= |s| && s[|s| - |suffix|..] == suffix
  }

  /** `s.includes(p)`: `p` occurs in `s` at some position. */
  predicate Contains(s: string, p: string)
    decreases |s|
  {
    StartsWith(s, p) || (|s| > 0 && Contains(s[1..], p))
  }

  lemma {:induction false} ContainsAt(s: string, p: string, i: nat)
    requires i + |p| <= |s| && s[i..i + |p|] == p
    ensures Contains(s, p)
    decreases i
  {
    if i == 0 {
      assert s[..|p|] == s[0..|p|];
    } else {
      assert s[1..][i - 1..i - 1 + |p|] == s[i..i + |p|];
      ContainsAt(s[1..], p, i - 1);
    }
  }

  lemma {:induction false} ContainsWitness(s: string, p: string) returns (i: nat)
    requires Contains(s, p)
    ensures i + |p| <= |s| && s[i..i + |p|] == p
    decreases |s|
  {
    if StartsWith(s, p) {
      i := 0;
    } else {
      var j := ContainsWitness(s[1..], p);
      i := j + 1;
      assert s[i..i + |p|] == s[1..][j..j + |p|];
    }
  }

  /** `s.slice(0, n)`: the first `n` characters, or all of a shorter string. */
  function Take(s: string, n: nat): (r: string)
    ensures |r| == if n < |s| then n else |s|
    ensures StartsWith(s, r)
  {
    if n < |s| then s[..n] else s
  }

  /** `s.slice(-n)` for `n > 0`: the last `n` characters, or all of a shorter string. */
  function TakeLast(s: string, n: nat): (r: string)
    ensures |r| == if n < |s| then n else |s|
    ensures EndsWith(s, r)
  {
    if n < |s| then s[|s| - n..] else s
  }

  /** `${s.slice(0, 6)}...${s.slice(-4)}`: how the site shortens an address. */
  function Abbreviate(s: string): (r: string)
    ensures |s| >= 10 ==> |r| == 13 && r[..6] == s[..6] && r[6..9] == "..." && r[9..] == s[|s| - 4..]
    ensures |s| < 10 ==> EndsWith(r, TakeLast(s, 4))
  {
    Take(s, 6) + "..." + TakeLast(s, 4)
  }

  /** Index of the first occurrence of `c`. */
  function IndexOf(s: string, c: char): (i: nat)
    requires c in s
    ensures i < |s| && s[i] == c && c !in s[..i]
  {
    if s[0] == c then 0 else 1 + IndexOf(s[1..], c)
  }

  /** `parts.join(sep)`. */
  function Join(parts: seq<string>, sep: string): string {
    if |parts| == 0 then ""
    else if |parts| == 1 then parts[0]
    else parts[0] + sep + Join(parts[1..], sep)
  }

  /** Every part occurs in the joined string. */
  lemma {:induction false} JoinContains(parts: seq<string>, sep: string, i: nat)
    requires i < |parts|
    ensures Contains(Join(parts, sep), parts[i])
    decreases |parts|
  {
    var s := Join(parts, sep);
    if i == 0 {
      assert s[0..|parts[0]|] == parts[0];
      ContainsAt(s, parts[0], 0);
    } else {
      var rest := Join(parts[1..], sep);
      JoinContains(parts[1..], sep, i - 1);
      var j := ContainsWitness(rest, parts[i]);
      var off := |parts[0] + sep|;
      assert s == parts[0] + sep + rest;
      assert s[off + j..off + j + |parts[i]|] == rest[j..j + |parts[i]|];
      ContainsAt(s, parts[i], off + j);
    }
  }

  /** `s.split(sep)` for a one-character separator: the pieces between
      separators, never empty, none holding the separator, and joined back
      with the separator they give `s` again. */
  function Split(s: string, sep: char): (parts: seq<string>)
    ensures |parts| >= 1
    ensures forall i :: 0 <= i < |parts| ==> sep !in parts[i]
    ensures Join(parts, [sep]) == s
    decreases |s|
  {
    if sep !in s then [s]
    else
      var i := IndexOf(s, sep);
      var rest := Split(s[i + 1..], sep);
      assert s == s[..i] + [sep] + s[i + 1..];
      [s[..i]] + rest
  }

  /** The part of `s` before the first `sep` (`s.split(sep)[0]`). */
  function BeforeFirst(s: string, sep: char): (r: string)
    ensures sep !in r && StartsWith(s, r)
    ensures sep in s ==> |r| < |s| && s[|r|] == sep
    ensures sep !in s ==> r == s
  {
    if sep in s then s[..IndexOf(s, sep)] else s
  }

  lemma {:induction false} SplitFirst(s: string, sep: char)
    ensures Split(s, sep)[0] == BeforeFirst(s, sep)
  {
  }

  /** Splitting at a first separator gives the part before it, then the
      pieces of the rest. */
  lemma SplitCons(a: string, b: string, sep: char)
    requires sep !in a
    ensures Split(a + [sep] + b, sep) == [a] + Split(b, sep)
  {
    var s := a + [sep] + b;
    var i := IndexOf(s, sep);
    assert s[|a|] == sep;
    assert s[..i] == a;
    assert s[i + 1..] == b;
  }

  lemma ConcatAssoc(a: string, b: string, c: string)
    ensures a + b + c == a + (b + c)
  {
  }

  lemma HeadTail<T>(s: seq<T>)
    requires s != []
    ensures [s[0]] + s[1..] == s
  {
  }

  /** A sequence with `p` in front starts with `p`; dropping `p` and then
      `k` more elements leaves what follows. */
  lemma DropPrefix<T>(p: seq<T>, t: seq<T>, k: int)
    requires 0 <= k <= |t|
    ensures (p + t)[..|p|] == p
    ensures (p + t)[|p|..] == t
    ensures (p + t)[|p| + k..] == t[k..]
  {
    assert (p + t)[..|p|] == p;
    assert (p + t)[|p|..] == t;
  }

  lemma LastSplit<T>(a: seq<T>, b: seq<T>)
    requires b != []
    ensures b == b[..|b| - 1] + [b[|b| - 1]]
    ensures a + b == (a + b[..|b| - 1]) + [b[|b| - 1]]
  {
    assert b == b[..|b| - 1] + [b[|b| - 1]];
  }

  /** `SplitCons` for a path joined with `/`, its pieces already known. */
  lemma SplitPath(a: string, b: string, parts: seq<string>)
    requires '/' !in a && Split(b, '/') == parts
    ensures Split(a + "/" + b, '/') == [a] + parts
  {
    SplitCons(a, b, '/');
  }

  function LowerChar(c: char): (d: char)
    ensures 'A' <= c <= 'Z' ==> d as int == c as int + 32
    ensures !('A' <= c <= 'Z') ==> d == c
  {
    if 'A' <= c <= 'Z' then (c as int + 32) as char else c
  }

  /** Lower-casing of the ASCII letters; other characters are kept. */
  function AsciiLower(s: string): (r: string)
    ensures |r| == |s|
    ensures forall i :: 0 <= i < |s| ==> r[i] == LowerChar(s[i])
  {
    seq(|s|, i requires 0 <= i < |s| => LowerChar(s[i]))
  }

  /** Removes leading white space (`trimStart`). */
  function TrimStart(s: string): (r: string)
    ensures EndsWith(s, r)
    ensures r == [] || !IsWhitespace(r[0])
    ensures forall i :: 0 <= i < |s| - |r| ==> IsWhitespace(s[i])
  {
    if |s| > 0 && IsWhitespace(s[0]) then
      var r := TrimStart(s[1..]);
      assert s[1..][|s[1..]| - |r|..] == s[|s| - |r|..];
      r
    else s
  }

  /** Removes trailing white space (`trimEnd`). */
  function TrimEnd(s: string): (r: string)
    ensures StartsWith(s, r)
    ensures r == [] || !IsWhitespace(r[|r| - 1])
    ensures forall i :: |r| <= i < |s| ==> IsWhitespace(s[i])
  {
    if |s| > 0 && IsWhitespace(s[|s| - 1]) then
      var r := TrimEnd(s[..|s| - 1]);
      assert s[..|s| - 1][..|r|] == s[..|r|];
      r
    else s
  }

  /** `s.trim()`. */
  function Trim(s: string): string {
    TrimEnd(TrimStart(s))
  }

  predicate IsDigit(c: char) {
    '0' <= c <= '9'
  }

  predicate AllDigits(s: string) {
    forall i :: 0 <= i < |s| ==> IsDigit(s[i])
  }

  /** A digit of the given radix (10 or 16), either case for hex letters. */
  predicate IsRadixDigit(c: char, radix: nat) {
    if radix == 16 then IsDigit(c) || ('a' <= c <= 'f') || ('A' <= c <= 'F')
    else '0' <= c && (c as int) < ('0' as int) + radix && radix <= 10
  }

  function DigitValue(c: char, radix: nat): (v: nat)
    requires IsRadixDigit(c, radix)
    ensures v < radix
  {
    if IsDigit(c) then c as int - '0' as int
    else if 'a' <= c <= 'f' then c as int - 'a' as int + 10
    else c as int - 'A' as int + 10
  }

  predicate AllRadixDigits(s: string, radix: nat) {
    forall i :: 0 <= i < |s| ==> IsRadixDigit(s[i], radix)
  }

  /** The value of a run of digits, most significant first. */
  function DigitsValue(ds: string, radix: nat): nat
    requires AllRadixDigits(ds, radix)
  {
    if ds == [] then 0
    else DigitsValue(ds[..|ds| - 1], radix) * radix + DigitValue(ds[|ds| - 1], radix)
  }

  /** Length of the longest prefix of `s` made of digits of `radix`. */
  function DigitRun(s: string, radix: nat): (n: nat)
    ensures n <= |s| && AllRadixDigits(s[..n], radix)
    ensures n < |s| ==> !IsRadixDigit(s[n], radix)
  {
    if |s| > 0 && IsRadixDigit(s[0], radix) then
      var n := 1 + DigitRun(s[1..], radix);
      assert forall i :: 1 <= i < n ==> s[..n][i] == s[1..][..n - 1][i - 1];
      n
    else 0
  }

  function DigitChar(d: nat): (c: char)
    requires d < 10
    ensures IsDigit(c) && DigitValue(c, 10) == d
  {
    ('0' as int + d) as char
  }

  /** Decimal digits of a natural number, as `String(n)` prints them. */
  function NatToString(n: nat): (s: string)
    ensures |s| >= 1 && AllDigits(s)
    decreases n
  {
    if n < 10 then [DigitChar(n)] else NatToString(n / 10) + [DigitChar(n % 10)]
  }

  /** `String(n)` for an integer. */
  function IntToString(n: int): (s: string)
    ensures |s| >= 1
  {
    if n < 0 then "-" + NatToString(-n) else NatToString(n)
  }

  lemma {:induction false} AllDigitsRadix10(s: string)
    requires AllDigits(s)
    ensures AllRadixDigits(s, 10)
  {
    forall i | 0 <= i < |s| ensures IsRadixDigit(s[i], 10) {
      assert IsDigit(s[i]);
    }
  }

  /** Printing a natural number and reading its digits back gives it again. */
  lemma {:induction false} NatToStringValue(n: nat)
    ensures AllRadixDigits(NatToString(n), 10)
    ensures DigitsValue(NatToString(n), 10) == n
    decreases n
  {
    AllDigitsRadix10(NatToString(n));
    if n >= 10 {
      var s := NatToString(n);
      NatToStringValue(n / 10);
      assert s[..|s| - 1] == NatToString(n / 10);
    }
  }

  lemma {:induction false} NatToStringHead(n: nat)
    ensures NatToString(n)[0] != '0' || n == 0
    decreases n
  {
    if n >= 10 {
      NatToStringHead(n / 10);
    }
  }

  /** `parseInt(s)` with no radix: skip leading white space, take an
      optional sign, switch to radix 16 on a `0x`/`0X` prefix, and read the
      longest run of digits; no digits at all is `NaN` (None). */
  function ParseInt(s: string): Option<int> {
    var t := TrimStart(s);
    if |t| > 0 && t[0] == '-' then
      match ParseUnsigned(t[1..])
      case Some(m) => Some(-m)
      case None => None
    else if |t| > 0 && t[0] == '+' then ParseUnsigned(t[1..])
    else ParseUnsigned(t)
  }

  /** The unsigned part of `parseInt`: hexadecimal after `0x`/`0X`, else decimal. */
  function ParseUnsigned(u: string): Option<int> {
    if StartsWith(u, "0x") || StartsWith(u, "0X") then ParseDigits(u[2..], 16)
    else ParseDigits(u, 10)
  }

  /** The value of the longest run of digits at the start of `v`, if any. */
  function ParseDigits(v: string, radix: nat): (r: Option<int>)
    ensures r.Some? <==> |v| > 0 && IsRadixDigit(v[0], radix)
  {
    var n := DigitRun(v, radix);
    if n == 0 then None else Some(DigitsValue(v[..n], radix))
  }

  lemma {:induction false} DigitRunAll(s: string, radix: nat)
    requires AllRadixDigits(s, radix)
    ensures DigitRun(s, radix) == |s|
    decreases |s|
  {
    if |s| > 0 {
      DigitRunAll(s[1..], radix);
    }
  }

  lemma {:induction false} ParseUnsignedOfNatToString(m: nat)
    ensures ParseUnsigned(NatToString(m)) == Some(m)
  {
    var d := NatToString(m);
    NatToStringValue(m);
    DigitRunAll(d, 10);
    assert !StartsWith(d, "0x") && !StartsWith(d, "0X") by {
      if |d| >= 2 { assert IsDigit(d[1]); }
    }
    assert d[..|d|] == d;
  }

  /** `parseInt(String(n))` gives `n` back, for every integer `n`. */
  lemma {:induction false} ParseIntOfIntToString(n: int)
    ensures ParseInt(IntToString(n)) == Some(n)
  {
    var m: nat := if n < 0 then -n else n;
    ParseUnsignedOfNatToString(m);
    var t := IntToString(n);
    assert t[0] == '-' || IsDigit(t[0]);
    assert !IsWhitespace(t[0]);
    assert TrimStart(t) == t;
    if n < 0 {
      assert t[1..] == NatToString(m);
    }
  }

  /** `parseInt(s) || 0`: `NaN` (and zero) become 0. */
  function ParseIntOrZero(s: string): int {
    match ParseInt(s)
    case Some(n) => n
    case None => 0
  }

  /** A JavaScript number, exactly: doubles are not modelled, so a finite
      number is the real that its decimal text denotes. */
  datatype JsNumber = NaN | Finite(value: real) | Infinity(negative: bool)

  function Pow10(n: nat): (r: real)
    ensures r >= 1.0
  {
    if n == 0 then 1.0 else 10.0 * Pow10(n - 1)
  }

  /** The unsigned decimal literal of `Number(...)`, after the sign:
      `Infinity`, or digits with an optional fraction and exponent. */
  function UnsignedDecimal(u: string): JsNumber {
    if u == "Infinity" then Infinity(false)
    else
      var i := DigitRun(u, 10);
      var afterInt := u[i..];
      var hasDot := |afterInt| > 0 && afterInt[0] == '.';
      var fracText := if hasDot then afterInt[1..] else afterInt;
      var f := if hasDot then DigitRun(fracText, 10) else 0;
      if i == 0 && f == 0 then NaN
      else WithExponent(DecimalValue(u[..i], fracText[..f]), fracText[f..])
  }

  /** The value of the decimal `intDigits.fracDigits`. */
  function DecimalValue(intDigits: string, fracDigits: string): real
    requires AllRadixDigits(intDigits, 10) && AllRadixDigits(fracDigits, 10)
  {
    DigitsValue(intDigits, 10) as real + DigitsValue(fracDigits, 10) as real / Pow10(|fracDigits|)
  }

  /** The optional exponent part `e[+-]digits` that follows the mantissa;
      any other trailing text makes the literal `NaN`. */
  function WithExponent(mantissa: real, rest: string): JsNumber {
    if rest == "" then Finite(mantissa)
    else if rest[0] != 'e' && rest[0] != 'E' then NaN
    else
      var e := rest[1..];
      var expNegative := |e| > 0 && e[0] == '-';
      var eDigits := if |e| > 0 && (e[0] == '-' || e[0] == '+') then e[1..] else e;
      var k := DigitRun(eDigits, 10);
      if k == 0 || k != |eDigits| then NaN
      else
        var exp := DigitsValue(eDigits, 10);
        Finite(if expNegative then mantissa / Pow10(exp) else mantissa * Pow10(exp))
  }

  /** `Number(s)`: trim white space; the empty string is 0; `0x`, `0o` and
      `0b` literals; otherwise an optionally signed decimal literal. */
  function ToNumber(s: string): JsNumber {
    var t := Trim(s);
    if t == "" then Finite(0.0)
    else if |t| >= 2 && t[0] == '0' && t[1] in "xXoObB" then
      var radix := if t[1] in "xX" then 16 else if t[1] in "oO" then 8 else 2;
      var ds := t[2..];
      if ds != "" && AllRadixDigits(ds, radix) then Finite(DigitsValue(ds, radix) as real) else NaN
    else if t[0] == '-' || t[0] == '+' then
      match UnsignedDecimal(t[1..])
      case Finite(v) => Finite(if t[0] == '-' then -v else v)
      case Infinity(_) => Infinity(t[0] == '-')
      case NaN => NaN
    else UnsignedDecimal(t)
  }
}
