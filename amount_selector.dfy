/** The amount picker of the donation page: six preset buttons and a
    free-text amount that is sanitised as it is typed. */
module AmountSelector {
  import opened Wrappers
  import opened JsString
  import opened Amounts
  import JsArray

  const PresetAmounts: seq<string> := ["0.1", "1", "5", "10", "25", "50"]

  /** The first preset, in `presets`, whose `Number` value is `num`. */
  function FirstEqual(presets: seq<string>, num: JsNumber): (r: Option<string>)
    ensures r.Some? ==> r.value in presets && ToNumber(r.value) == num
    ensures r.None? <==> forall i :: 0 <= i < |presets| ==> ToNumber(presets[i]) != num
  {
    if presets == [] then None
    else if ToNumber(presets[0]) == num then Some(presets[0])
    else
      assert forall i :: 1 <= i < |presets| ==> presets[i] == presets[1..][i - 1];
      FirstEqual(presets[1..], num)
  }

  /** The match is the first one: every preset before it differs. */
  lemma {:induction false} FirstEqualIsFirst(presets: seq<string>, num: JsNumber)
    ensures var r := FirstEqual(presets, num);
      r.Some? ==> exists k :: 0 <= k < |presets| && presets[k] == r.value
                    && forall j :: 0 <= j < k ==> ToNumber(presets[j]) != num
  {
    if presets != [] && ToNumber(presets[0]) != num {
      var r := FirstEqual(presets[1..], num);
      FirstEqualIsFirst(presets[1..], num);
      if r.Some? {
        var k :| 0 <= k < |presets[1..]| && presets[1..][k] == r.value
                 && forall j :: 0 <= j < k ==> ToNumber(presets[1..][j]) != num;
        NoEarlierMatch(presets, num, k);
        assert presets[k + 1] == r.value;
      }
    } else if presets != [] {
      assert presets[0] == FirstEqual(presets, num).value;
    }
  }

  /** A miss at the head, followed by `k` misses in the tail, is `k + 1`
      misses. */
  lemma NoEarlierMatch(presets: seq<string>, num: JsNumber, k: nat)
    requires presets != [] && ToNumber(presets[0]) != num && k < |presets| - 1
    requires forall j :: 0 <= j < k ==> ToNumber(presets[1..][j]) != num
    ensures forall j :: 0 <= j < k + 1 ==> ToNumber(presets[j]) != num
  {
    forall j | 0 <= j < k + 1 ensures ToNumber(presets[j]) != num {
      if j > 0 { assert presets[j] == presets[1..][j - 1]; }
    }
  }

  /** `findPresetMatch`: no preset for `""`, `"."`, `"$"` or a value whose
      `Number` is `NaN`; otherwise the first preset numerically equal to
      the value. */
  function FindPresetMatch(value: string): (r: Option<string>)
    ensures (value == "" || value == "." || value == "$" || ToNumber(value).NaN?) ==> r.None?
    ensures r.Some? ==> r.value in PresetAmounts && ToNumber(r.value) == ToNumber(value)
    ensures value != "" && value != "." && value != "$" && !ToNumber(value).NaN? && r.None? ==>
      forall i :: 0 <= i < |PresetAmounts| ==> ToNumber(PresetAmounts[i]) != ToNumber(value)
  {
    if value == "" || value == "." || value == "$" then None
    else
      var num := ToNumber(value);
      if num.NaN? then None else FirstEqual(PresetAmounts, num)
  }

  /** The digit run of a text that starts with the digits `ds` and goes on
      with a non-digit is `ds`. */
  lemma DigitRunOf(ds: string, rest: string)
    requires AllDigits(ds) && (rest == [] || !IsDigit(rest[0]))
    ensures DigitRun(ds + rest, 10) == |ds|
    decreases |ds|
  {
    var s := ds + rest;
    if ds != [] {
      assert s[1..] == ds[1..] + rest;
      DigitRunOf(ds[1..], rest);
    }
  }

  /** A text that starts and ends with a digit is `Number`-ed as an
      unsigned decimal literal. */
  lemma PlainNumber(t: string)
    requires t != [] && IsDigit(t[0]) && IsDigit(t[|t| - 1])
    requires |t| >= 2 ==> t[1] !in "xXoObB"
    ensures ToNumber(t) == UnsignedDecimal(t)
  {
    assert !IsWhitespace(t[0]) && !IsWhitespace(t[|t| - 1]);
    assert TrimStart(t) == t;
    assert TrimEnd(t) == t;
    assert Trim(t) == t;
    assert t[0] != '-' && t[0] != '+';
  }

  /** `Number` of a run of decimal digits is its value. */
  lemma IntegerNumber(ds: string)
    requires ds != [] && AllDigits(ds)
    ensures ToNumber(ds) == Finite(DigitsValue(ds, 10) as real)
  {
    PlainNumber(ds);
    DigitRunOf(ds, "");
    assert ds + "" == ds;
    assert ds[..|ds|] == ds && ds[|ds|..] == "";
    assert ds != "Infinity" by { assert "Infinity"[0] == 'I'; }
    var empty: string := "";
    assert ds[|ds|..][..0] == empty;
    assert DecimalValue(ds, empty) == DigitsValue(ds, 10) as real;
    assert UnsignedDecimal(ds) == WithExponent(DecimalValue(ds, empty), empty);
  }

  lemma UnsignedDecimalOf(ip: string, fp: string)
    requires ip != [] && fp != [] && AllDigits(ip) && AllDigits(fp)
    ensures UnsignedDecimal(ip + "." + fp) == Finite(DecimalValue(ip, fp))
  {
    var u := ip + "." + fp;
    assert u == ip + ("." + fp);
    assert u != "Infinity" by { assert u[0] == ip[0]; assert "Infinity"[0] == 'I'; }
    DigitRunOf(ip, "." + fp);
    var i := DigitRun(u, 10);
    assert i == |ip|;
    var afterInt := u[i..];
    assert u[..i] == ip;
    assert afterInt == "." + fp;
    assert |afterInt| > 0 && afterInt[0] == '.';
    var fracText := afterInt[1..];
    assert fracText == fp;
    DigitRunOf(fp, "");
    assert fp + "" == fp;
    var f := DigitRun(fracText, 10);
    assert f == |fp|;
    assert fracText[..f] == fp && fracText[f..] == "";
    var m := DecimalValue(ip, fp);
    assert WithExponent(m, "") == Finite(m);
    assert UnsignedDecimal(u) == WithExponent(m, fracText[f..]);
  }

  /** `Number` of `ip.fp`, both runs of decimal digits, is the decimal it denotes. */
  lemma DecimalNumber(ip: string, fp: string)
    requires ip != [] && fp != [] && AllDigits(ip) && AllDigits(fp)
    ensures ToNumber(ip + "." + fp) == Finite(DecimalValue(ip, fp))
  {
    var s := ip + "." + fp;
    assert s[0] == ip[0] && s[|s| - 1] == fp[|fp| - 1];
    assert |s| >= 2 ==> s[1] !in "xXoObB" by {
      if |ip| == 1 { assert s[1] == '.'; } else { assert s[1] == ip[1]; }
    }
    PlainNumber(s);
    UnsignedDecimalOf(ip, fp);
  }

  lemma DigitsValueOne(c: char)
    requires IsDigit(c)
    ensures DigitsValue([c], 10) == c as int - '0' as int
  {
    assert [c][..0] == [];
  }

  lemma DigitsValueTwo(c: char, d: char)
    requires IsDigit(c) && IsDigit(d)
    ensures DigitsValue([c, d], 10) == (c as int - '0' as int) * 10 + (d as int - '0' as int)
  {
    assert [c, d][..1] == [c];
    DigitsValueOne(c);
  }

  /** The `Number` values of the presets. */
  lemma PresetNumbers()
    ensures ToNumber("0.1") == Finite(0.1)
    ensures ToNumber("1") == Finite(1.0)
    ensures ToNumber("5") == Finite(5.0)
    ensures ToNumber("10") == Finite(10.0)
    ensures ToNumber("25") == Finite(25.0)
    ensures ToNumber("50") == Finite(50.0)
  {
    OneDigitNumber('1');
    OneDigitNumber('5');
    TwoDigitNumber('1', '0');
    TwoDigitNumber('2', '5');
    TwoDigitNumber('5', '0');
    TenthsNumber('0', '1');
  }

  /** `IntegerNumber` for a run of digits whose value is already known. */
  lemma IntegerNumberIs(ds: string, n: int)
    requires ds != [] && AllDigits(ds) && DigitsValue(ds, 10) == n
    ensures ToNumber(ds) == Finite(n as real)
  {
    IntegerNumber(ds);
  }

  lemma OneDigitNumber(c: char)
    requires IsDigit(c)
    ensures ToNumber([c]) == Finite((c as int - '0' as int) as real)
  {
    var s := [c];
    assert AllDigits(s) by { assert s[0] == c; }
    DigitsValueOne(c);
    IntegerNumberIs(s, c as int - '0' as int);
  }

  lemma TwoDigitNumber(c: char, d: char)
    requires IsDigit(c) && IsDigit(d)
    ensures ToNumber([c, d]) == Finite(((c as int - '0' as int) * 10 + (d as int - '0' as int)) as real)
  {
    var s := [c, d];
    assert AllDigits(s) by { assert s[0] == c && s[1] == d; }
    DigitsValueTwo(c, d);
    IntegerNumberIs(s, (c as int - '0' as int) * 10 + (d as int - '0' as int));
  }

  lemma TenthsNumber(c: char, d: char)
    requires IsDigit(c) && IsDigit(d)
    ensures ToNumber([c, '.', d]) == Finite((c as int - '0' as int) as real + (d as int - '0' as int) as real / 10.0)
  {
    assert AllDigits([c]) && AllDigits([d]);
    DecimalNumber([c], [d]);
    TenthsValue(c, d);
    assert [c] + "." + [d] == [c, '.', d];
  }

  lemma TenthsValue(c: char, d: char)
    requires IsDigit(c) && IsDigit(d)
    ensures AllRadixDigits([c], 10) && AllRadixDigits([d], 10)
    ensures DecimalValue([c], [d]) == (c as int - '0' as int) as real + (d as int - '0' as int) as real / 10.0
  {
    assert AllDigits([c]) && AllDigits([d]);
    AllDigitsRadix10([c]);
    AllDigitsRadix10([d]);
    DigitsValueOne(c);
    DigitsValueOne(d);
    assert Pow10(1) == 10.0 by {
      assert Pow10(0) == 1.0;
    }
  }

  /** Past the guards, the match is the first preset of equal value. */
  lemma FindViaFirst(value: string)
    requires value != "" && value != "." && value != "$" && !ToNumber(value).NaN?
    ensures FindPresetMatch(value) == FirstEqual(PresetAmounts, ToNumber(value))
  {
  }

  /** Every preset matches itself: their values are distinct, so the
      search passes every earlier preset. */
  lemma PresetsMatchThemselves()
    ensures FindPresetMatch("0.1") == Some("0.1")
    ensures FindPresetMatch("1") == Some("1")
    ensures FindPresetMatch("5") == Some("5")
    ensures FindPresetMatch("10") == Some("10")
    ensures FindPresetMatch("25") == Some("25")
    ensures FindPresetMatch("50") == Some("50")
  {
    PresetNumbers();
    var p0 := PresetAmounts;
    var p1 := p0[1..];
    var p2 := p1[1..];
    var p3 := p2[1..];
    var p4 := p3[1..];
    var p5 := p4[1..];
    assert p1[0] == "1" && p2[0] == "5" && p3[0] == "10" && p4[0] == "25" && p5[0] == "50";
    FindViaFirst("0.1");
    assert FirstEqual(p0, Finite(0.1)) == Some("0.1") by {
      assert FirstEqual(p0, Finite(0.1)) == Some("0.1");
    }
    FindViaFirst("1");
    assert FirstEqual(p0, Finite(1.0)) == Some("1") by {
      assert FirstEqual(p0, Finite(1.0)) == FirstEqual(p1, Finite(1.0));
      assert FirstEqual(p1, Finite(1.0)) == Some("1");
    }
    FindViaFirst("5");
    assert FirstEqual(p0, Finite(5.0)) == Some("5") by {
      assert FirstEqual(p0, Finite(5.0)) == FirstEqual(p1, Finite(5.0)) && FirstEqual(p1, Finite(5.0)) == FirstEqual(p2, Finite(5.0));
      assert FirstEqual(p2, Finite(5.0)) == Some("5");
    }
    FindViaFirst("10");
    assert FirstEqual(p0, Finite(10.0)) == Some("10") by {
      assert FirstEqual(p0, Finite(10.0)) == FirstEqual(p1, Finite(10.0)) && FirstEqual(p1, Finite(10.0)) == FirstEqual(p2, Finite(10.0)) && FirstEqual(p2, Finite(10.0)) == FirstEqual(p3, Finite(10.0));
      assert FirstEqual(p3, Finite(10.0)) == Some("10");
    }
    FindViaFirst("25");
    assert FirstEqual(p0, Finite(25.0)) == Some("25") by {
      assert FirstEqual(p0, Finite(25.0)) == FirstEqual(p1, Finite(25.0)) && FirstEqual(p1, Finite(25.0)) == FirstEqual(p2, Finite(25.0)) && FirstEqual(p2, Finite(25.0)) == FirstEqual(p3, Finite(25.0)) && FirstEqual(p3, Finite(25.0)) == FirstEqual(p4, Finite(25.0));
      assert FirstEqual(p4, Finite(25.0)) == Some("25");
    }
    FindViaFirst("50");
    assert FirstEqual(p0, Finite(50.0)) == Some("50") by {
      assert FirstEqual(p0, Finite(50.0)) == FirstEqual(p1, Finite(50.0)) && FirstEqual(p1, Finite(50.0)) == FirstEqual(p2, Finite(50.0)) && FirstEqual(p2, Finite(50.0)) == FirstEqual(p3, Finite(50.0)) && FirstEqual(p3, Finite(50.0)) == FirstEqual(p4, Finite(50.0)) && FirstEqual(p4, Finite(50.0)) == FirstEqual(p5, Finite(50.0));
      assert FirstEqual(p5, Finite(50.0)) == Some("50");
    }
  }

  /** A trailing zero fraction still selects the preset: `"5.0"` is `"5"`. */
  lemma TrailingZeroMatches()
    ensures FindPresetMatch("5.0") == Some("5")
  {
    var five := "5.0";
    assert ToNumber(five) == Finite(5.0) by {
      TenthsNumber('5', '0');
      assert five == ['5', '.', '0'];
    }
    FindViaFirst(five);
    PresetsMatchThemselves();
    PresetNumbers();
    FindViaFirst("5");
  }

  /** `normalizeAmount`. */
  function NormalizeAmount(amount: string): (r: string)
    ensures !StartsWith(amount, "$") ==> r == amount
    ensures StartsWith(amount, "$") ==> EndsWith(amount, r) && |r| < |amount|
  {
    StripDollarPrefix(amount)
  }

  /** The amount the selector starts from: the normalised default, or `"5"`. */
  function InitialAmount(defaultAmount: Option<string>): (r: string)
    ensures !Truthy(defaultAmount) ==> r == "5"
    ensures Truthy(defaultAmount) ==> r == NormalizeAmount(defaultAmount.value)
  {
    assert !StartsWith("5", "$") by { assert "5"[..1][0] != "$"[0]; }
    NormalizeAmount(OrElse(defaultAmount, "5"))
  }

  /** With no default the selector starts on the `"5"` preset. */
  lemma NoDefaultSelectsFive()
    ensures InitialAmount(None) == "5" && FindPresetMatch(InitialAmount(None)) == Some("5")
  {
    PresetsMatchThemselves();
  }

  predicate AmountChar(c: char) {
    IsDigit(c) || c == '.'
  }

  /** Replacing `[^0-9.]` by nothing, everywhere: every digit and dot is
      kept, as often as it occurs and in its order, and nothing else. */
  function CleanAmount(value: string): (r: string)
    ensures forall i :: 0 <= i < |r| ==> AmountChar(r[i])
    ensures forall i :: 0 <= i < |value| && AmountChar(value[i]) ==> value[i] in r
    ensures forall i :: 0 <= i < |value| && AmountChar(value[i]) ==> multiset(r)[value[i]] == multiset(value)[value[i]]
    ensures multiset(r) <= multiset(value)
    ensures (forall i :: 0 <= i < |value| ==> AmountChar(value[i])) ==> r == value
    ensures JsArray.IsSubsequence(r, value)
  {
    JsArray.FilterIsSubsequence(value, AmountChar);
    JsArray.FilterCounts(value, AmountChar);
    JsArray.Filter(value, AmountChar)
  }

  /** Cleaning is idempotent. */
  lemma CleanIdempotent(value: string)
    ensures CleanAmount(CleanAmount(value)) == CleanAmount(value)
  {
  }

  /** Whether `Number.parseFloat(s)` is a number: after leading white space
      and a sign, the text starts with `Infinity`, with a digit, or with a
      dot followed by a digit. */
  predicate ParseFloatIsNumber(s: string) {
    var t := TrimStart(s);
    var u := if |t| > 0 && (t[0] == '+' || t[0] == '-') then t[1..] else t;
    StartsWith(u, "Infinity") || (|u| > 0 && IsDigit(u[0])) || (|u| > 1 && u[0] == '.' && IsDigit(u[1]))
  }

  /** The rule for telling the parent about a typed amount. */
  predicate ShouldNotify(clean: string) {
    ParseFloatIsNumber(clean) && clean != ""
  }

  /** A cleaned amount reaches the parent exactly when it starts with a
      digit or with a dot and a digit: `"."` and `".."` do not, and
      `"1.2.3"` does although `Number` gives `NaN` for it. */
  lemma NotifyIff(value: string)
    ensures var c := CleanAmount(value);
      ShouldNotify(c) <==> |c| > 0 && (IsDigit(c[0]) || (|c| > 1 && c[0] == '.' && IsDigit(c[1])))
  {
    AmountTextNotify(CleanAmount(value));
  }

  /** The notify rule on any text made of digits and dots. */
  lemma AmountTextNotify(c: string)
    requires forall i :: 0 <= i < |c| ==> AmountChar(c[i])
    ensures ShouldNotify(c) <==> |c| > 0 && (IsDigit(c[0]) || (|c| > 1 && c[0] == '.' && IsDigit(c[1])))
  {
    if |c| > 0 {
      var first := c[0];
      assert AmountChar(first);
      assert !IsWhitespace(first) && first != '+' && first != '-';
      assert TrimStart(c) == c;
      assert !StartsWith(c, "Infinity") by {
        if |c| >= 8 { assert c[..8][0] == first && "Infinity"[0] == 'I'; }
      }
    }
  }

  /** The selector: the text in the custom box and the highlighted preset. */
  class Selector {
    var customAmount: string
    var selectedPreset: Option<string>

    constructor (defaultAmount: Option<string>)
      ensures customAmount == InitialAmount(defaultAmount)
      ensures selectedPreset == FindPresetMatch(InitialAmount(defaultAmount))
    {
      customAmount := InitialAmount(defaultAmount);
      selectedPreset := FindPresetMatch(InitialAmount(defaultAmount));
    }

    /** The effect on a new `defaultAmount`: a truthy one replaces the
        custom amount and is passed on; otherwise nothing happens. */
    method DefaultAmountChanged(defaultAmount: Option<string>) returns (notified: Option<string>)
      modifies this
      ensures Truthy(defaultAmount) ==>
        && customAmount == NormalizeAmount(defaultAmount.value)
        && selectedPreset == FindPresetMatch(customAmount)
        && notified == Some(customAmount)
      ensures !Truthy(defaultAmount) ==>
        customAmount == old(customAmount) && selectedPreset == old(selectedPreset) && notified.None?
    {
      notified := None;
      if Truthy(defaultAmount) {
        var normalized := NormalizeAmount(defaultAmount.value);
        customAmount := normalized;
        selectedPreset := FindPresetMatch(normalized);
        notified := Some(normalized);
      }
    }

    /** A preset button: the preset becomes the custom amount, the selection
        and the parent's amount. */
    method HandlePresetClick(amount: string) returns (notified: string)
      modifies this
      ensures customAmount == amount && selectedPreset == Some(amount) && notified == amount
    {
      customAmount := amount;
      selectedPreset := Some(amount);
      notified := amount;
    }

    /** Typing in the custom box: the cleaned text is kept, the matching
        preset is highlighted, and the parent hears of it only when
        `ShouldNotify` holds. */
    method HandleCustomAmountChange(value: string) returns (notified: Option<string>)
      modifies this
      ensures customAmount == CleanAmount(value)
      ensures selectedPreset == FindPresetMatch(CleanAmount(value))
      ensures notified == if ShouldNotify(CleanAmount(value)) then Some(CleanAmount(value)) else None
    {
      var clean := CleanAmount(value);
      customAmount := clean;
      selectedPreset := FindPresetMatch(clean);
      notified := None;
      if ParseFloatIsNumber(clean) && clean != "" {
        notified := Some(clean);
      }
    }
  }
}
