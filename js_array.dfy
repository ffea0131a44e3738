/** The JavaScript array built-ins the model relies on: `filter`, and the
    order-preserving selection it performs. */
module JsArray {

  /** `xs` is `ys` with some elements left out, order kept. */
  predicate IsSubsequence<T(==)>(xs: seq<T>, ys: seq<T>)
    decreases |ys|
  {
    if ys == [] then xs == []
    else (xs != [] && xs[0] == ys[0] && IsSubsequence(xs[1..], ys[1..])) || IsSubsequence(xs, ys[1..])
  }

  /** `xs.filter(keep)`: the elements `keep` accepts, in their order. */
  function Filter<T>(xs: seq<T>, keep: T -> bool): (r: seq<T>)
    ensures |r| <= |xs|
    ensures forall i :: 0 <= i < |r| ==> keep(r[i]) && r[i] in xs
    ensures forall i :: 0 <= i < |xs| && keep(xs[i]) ==> xs[i] in r
    ensures (forall i :: 0 <= i < |xs| ==> keep(xs[i])) ==> r == xs
    ensures (forall i :: 0 <= i < |xs| ==> !keep(xs[i])) ==> r == []
  {
    if xs == [] then []
    else
      var rest := Filter(xs[1..], keep);
      FilterStep(xs, keep, rest);
      if keep(xs[0]) then [xs[0]] + rest else rest
  }

  /** `filter` keeps each accepted element as often as it occurs and no
      element more often than it occurs. (Kept apart from `Filter`'s own
      contract so that these multiset facts enter only the proofs that ask
      for them.) */
  lemma {:induction false} FilterCounts<T>(xs: seq<T>, keep: T -> bool)
    ensures multiset(Filter(xs, keep)) <= multiset(xs)
    ensures forall i :: 0 <= i < |xs| && keep(xs[i]) ==>
              multiset(Filter(xs, keep))[xs[i]] == multiset(xs)[xs[i]]
    decreases |xs|
  {
    if xs != [] {
      FilterCounts(xs[1..], keep);
      CountsStep(xs, keep, Filter(xs[1..], keep));
    }
  }

  /** One step of `Filter`'s all-or-nothing clauses: what they say of
      `rest` for the tail holds of the step's result for the whole sequence. */
  lemma FilterStep<T>(xs: seq<T>, keep: T -> bool, rest: seq<T>)
    requires xs != []
    requires (forall i :: 0 <= i < |xs[1..]| ==> keep(xs[1..][i])) ==> rest == xs[1..]
    requires (forall i :: 0 <= i < |xs[1..]| ==> !keep(xs[1..][i])) ==> rest == []
    ensures var r := if keep(xs[0]) then [xs[0]] + rest else rest;
      && ((forall i :: 0 <= i < |xs| ==> keep(xs[i])) ==> r == xs)
      && ((forall i :: 0 <= i < |xs| ==> !keep(xs[i])) ==> r == [])
  {
    assert xs == [xs[0]] + xs[1..];
    if forall i :: 0 <= i < |xs| ==> keep(xs[i]) {
      forall i | 0 <= i < |xs[1..]| ensures keep(xs[1..][i]) { assert xs[1..][i] == xs[i + 1]; }
    }
    if forall i :: 0 <= i < |xs| ==> !keep(xs[i]) {
      forall i | 0 <= i < |xs[1..]| ensures !keep(xs[1..][i]) { assert xs[1..][i] == xs[i + 1]; }
    }
  }

  /** One step of `FilterCounts`. */
  lemma CountsStep<T>(xs: seq<T>, keep: T -> bool, rest: seq<T>)
    requires xs != []
    requires multiset(rest) <= multiset(xs[1..])
    requires forall i :: 0 <= i < |xs[1..]| && keep(xs[1..][i]) ==> multiset(rest)[xs[1..][i]] == multiset(xs[1..])[xs[1..][i]]
    ensures var r := if keep(xs[0]) then [xs[0]] + rest else rest;
      && multiset(r) <= multiset(xs)
      && forall i :: 0 <= i < |xs| && keep(xs[i]) ==> multiset(r)[xs[i]] == multiset(xs)[xs[i]]
  {
    var r := if keep(xs[0]) then [xs[0]] + rest else rest;
    assert xs == [xs[0]] + xs[1..];
    assert multiset(xs) == multiset{xs[0]} + multiset(xs[1..]);
    forall i | 0 <= i < |xs| && keep(xs[i])
      ensures multiset(r)[xs[i]] == multiset(xs)[xs[i]]
    {
      if xs[i] != xs[0] {
        assert xs[i] == xs[1..][i - 1];
      }
    }
  }

  /** What `filter` keeps is a subsequence of what it was given. */
  lemma {:induction false} FilterIsSubsequence<T>(xs: seq<T>, keep: T -> bool)
    ensures IsSubsequence(Filter(xs, keep), xs)
    decreases |xs|
  {
    if xs != [] {
      FilterIsSubsequence(xs[1..], keep);
      if keep(xs[0]) {
        assert Filter(xs, keep)[1..] == Filter(xs[1..], keep);
      }
    }
  }
}
