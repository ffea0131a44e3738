/** The donation amount as the user or a configuration writes it: a
    decimal with an optional leading `$`. */
module Amounts {
  import opened JsString

  /** Replacing the pattern `^\$\s*` by nothing: drops a leading `$` and
      the white space after it; any other text is unchanged. */
  function StripDollarPrefix(amount: string): (r: string)
    ensures !StartsWith(amount, "$") ==> r == amount
    ensures StartsWith(amount, "$") ==> EndsWith(amount, r) && |r| < |amount|
    ensures StartsWith(amount, "$") ==> r == [] || !IsWhitespace(r[0])
    ensures StartsWith(amount, "$") ==> forall i :: 1 <= i < |amount| - |r| ==> IsWhitespace(amount[i])
  {
    if StartsWith(amount, "$") then
      var r := TrimStart(amount[1..]);
      TailOfTail(amount, r);
      r
    else amount
  }

  /** What `TrimStart` says of the text after the first character, said of the whole text. */
  lemma TailOfTail(s: string, r: string)
    requires |s| > 0 && EndsWith(s[1..], r)
    requires forall i :: 0 <= i < |s[1..]| - |r| ==> IsWhitespace(s[1..][i])
    ensures EndsWith(s, r) && |r| < |s|
    ensures forall i :: 1 <= i < |s| - |r| ==> IsWhitespace(s[i])
  {
    var t := s[1..];
    assert t[|t| - |r|..] == s[|s| - |r|..];
    forall i | 1 <= i < |s| - |r|
      ensures IsWhitespace(s[i])
    {
      assert s[i] == t[i - 1];
    }
  }

  /** The prefix makes no difference: `"$" + spaces + s` and `s` normalise
      alike when `s` itself starts with neither. */
  lemma {:induction false} DollarPrefixIrrelevant(spaces: string, s: string)
    requires forall i :: 0 <= i < |spaces| ==> IsWhitespace(spaces[i])
    requires !StartsWith(s, "$") && (s == [] || !IsWhitespace(s[0]))
    ensures StripDollarPrefix("$" + spaces + s) == StripDollarPrefix(s) == s
  {
    var a := "$" + spaces + s;
    assert a[..1] == "$";
    assert a[1..] == spaces + s;
    TrimLeadingSpaces(spaces, s);
  }

  lemma {:induction false} TrimLeadingSpaces(spaces: string, s: string)
    requires forall i :: 0 <= i < |spaces| ==> IsWhitespace(spaces[i])
    requires s == [] || !IsWhitespace(s[0])
    ensures TrimStart(spaces + s) == s
    decreases |spaces|
  {
    if spaces == [] {
      assert spaces + s == s;
    } else {
      assert (spaces + s)[1..] == spaces[1..] + s;
      TrimLeadingSpaces(spaces[1..], s);
    }
  }

  /** Normalising twice is normalising once, unless what remains starts
      with another `$`. */
  lemma StripDollarPrefixIdempotent(amount: string)
    requires !StartsWith(StripDollarPrefix(amount), "$")
    ensures StripDollarPrefix(StripDollarPrefix(amount)) == StripDollarPrefix(amount)
  {
  }
}
