/** Numeric columns in the style of pandas: a column is a sequence of
    optional reals aligned index-for-index with the price series, `None`
    standing for a missing (NaN) entry. This module holds the column
    operations the analysis uses (`diff`, `clip`, negation, `rolling(n).mean()`,
    `iloc[-1]`) and the facts about sums and means that the indicator proofs
    rest on. */
module Series {

  datatype Option<T> = None | Some(value: T)

  // ---------------------------------------------------------------------
  // Sums, means, extremes of plain real sequences
  // ---------------------------------------------------------------------

  function Sum(s: seq<real>): real
  {
    if |s| == 0 then 0.0 else s[0] + Sum(s[1..])
  }

  function Mean(s: seq<real>): real
    requires |s| > 0
  {
    Sum(s) / (|s| as real)
  }

  /** Smallest element; it bounds every element from below and occurs in s. */
  function Min(s: seq<real>): (m: real)
    requires |s| > 0
    ensures forall k :: 0 <= k < |s| ==> m <= s[k]
    ensures exists k :: 0 <= k < |s| && s[k] == m
  {
    if |s| == 1 then s[0]
    else
      var rest := Min(s[1..]);
      assert forall k :: 1 <= k < |s| ==> s[k] == s[1..][k - 1];
      if s[0] <= rest then s[0] else rest
  }

  /** Largest element; it bounds every element from above and occurs in s. */
  function Max(s: seq<real>): (m: real)
    requires |s| > 0
    ensures forall k :: 0 <= k < |s| ==> s[k] <= m
    ensures exists k :: 0 <= k < |s| && s[k] == m
  {
    if |s| == 1 then s[0]
    else
      var rest := Max(s[1..]);
      assert forall k :: 1 <= k < |s| ==> s[k] == s[1..][k - 1];
      if s[0] >= rest then s[0] else rest
  }

  lemma {:induction false} SumAppend(s: seq<real>, t: seq<real>)
    ensures Sum(s + t) == Sum(s) + Sum(t)
  {
    if |s| == 0 {
      assert s + t == t;
    } else {
      assert (s + t)[1..] == s[1..] + t;
      SumAppend(s[1..], t);
    }
  }

  /** A sum of |s| terms, each in [lo, hi], lies in [|s|·lo, |s|·hi]. */
  lemma {:induction false} SumBounds(s: seq<real>, lo: real, hi: real)
    requires forall k :: 0 <= k < |s| ==> lo <= s[k] <= hi
    ensures (|s| as real) * lo <= Sum(s) <= (|s| as real) * hi
  {
    if |s| > 0 {
      SumBounds(s[1..], lo, hi);
      assert (|s| as real) * lo == (|s[1..]| as real) * lo + lo;
      assert (|s| as real) * hi == (|s[1..]| as real) * hi + hi;
    }
  }

  /** Strict version: a sum of |s| > 0 terms, each above lo, exceeds |s|·lo. */
  lemma {:induction false} SumAbove(s: seq<real>, lo: real)
    requires |s| > 0
    requires forall k :: 0 <= k < |s| ==> lo < s[k]
    ensures (|s| as real) * lo < Sum(s)
  {
    if |s| > 1 {
      SumAbove(s[1..], lo);
      assert (|s| as real) * lo == (|s[1..]| as real) * lo + lo;
    }
  }

  /** Strict version: a sum of |s| > 0 terms, each below hi, is under |s|·hi. */
  lemma {:induction false} SumBelow(s: seq<real>, hi: real)
    requires |s| > 0
    requires forall k :: 0 <= k < |s| ==> s[k] < hi
    ensures Sum(s) < (|s| as real) * hi
  {
    if |s| > 1 {
      SumBelow(s[1..], hi);
      assert (|s| as real) * hi == (|s[1..]| as real) * hi + hi;
    }
  }

  /** A sum of non-negative terms is zero exactly when every term is. */
  lemma {:induction false} SumZeroIff(s: seq<real>)
    requires forall k :: 0 <= k < |s| ==> 0.0 <= s[k]
    ensures Sum(s) >= 0.0
    ensures Sum(s) == 0.0 <==> forall k :: 0 <= k < |s| ==> s[k] == 0.0
  {
    if |s| > 0 {
      SumZeroIff(s[1..]);
      assert forall k :: 1 <= k < |s| ==> s[k] == s[1..][k - 1];
    }
  }

  /** Summing termwise differences: Σa − Σb = Σ(a − b). */
  lemma {:induction false} SumDifference(a: seq<real>, b: seq<real>, d: seq<real>)
    requires |a| == |b| == |d|
    requires forall k :: 0 <= k < |d| ==> a[k] - b[k] == d[k]
    ensures Sum(a) - Sum(b) == Sum(d)
  {
    if |d| > 0 {
      SumDifference(a[1..], b[1..], d[1..]);
    }
  }

  /** The steps between neighbouring elements: s[k+1] − s[k]. */
  function Steps(s: seq<real>): seq<real>
    requires |s| > 0
  {
    seq(|s| - 1, k requires 0 <= k < |s| - 1 => s[k + 1] - s[k])
  }

  /** Telescoping: the steps of s add up to its last element minus its first. */
  lemma {:induction false} SumSteps(s: seq<real>)
    requires |s| > 0
    ensures Sum(Steps(s)) == s[|s| - 1] - s[0]
  {
    if |s| > 1 {
      assert Steps(s)[1..] == Steps(s[1..]);
      SumSteps(s[1..]);
    }
  }

  /** A sequence has no step up or down exactly when all its elements equal the last. */
  lemma {:induction false} FlatIff(s: seq<real>)
    requires |s| > 0
    ensures (forall k :: 0 <= k < |s| - 1 ==> s[k + 1] == s[k])
        <==> (forall k :: 0 <= k < |s| ==> s[k] == s[|s| - 1])
  {
    if |s| > 1 {
      var t := s[1..];
      FlatIff(t);
      if forall k :: 0 <= k < |s| - 1 ==> s[k + 1] == s[k] {
        assert forall k :: 0 <= k < |t| - 1 ==> t[k + 1] == t[k] by {
          forall k | 0 <= k < |t| - 1 ensures t[k + 1] == t[k] {
            assert t[k + 1] == s[k + 2] && t[k] == s[k + 1];
          }
        }
        forall k | 0 <= k < |s| ensures s[k] == s[|s| - 1] {
          if k == 0 {
            assert s[0] == s[1] == t[0];
          } else {
            assert s[k] == t[k - 1];
          }
        }
      }
    }
  }

  // Means

  lemma MeanBounds(s: seq<real>, lo: real, hi: real)
    requires |s| > 0
    requires forall k :: 0 <= k < |s| ==> lo <= s[k] <= hi
    ensures lo <= Mean(s) <= hi
  {
    SumBounds(s, lo, hi);
    DivideBounds(Sum(s), |s| as real, lo, hi);
  }

  /** The mean of a non-empty sequence lies between its minimum and maximum. */
  lemma MeanBetweenExtremes(s: seq<real>)
    requires |s| > 0
    ensures Min(s) <= Mean(s) <= Max(s)
  {
    MeanBounds(s, Min(s), Max(s));
  }

  /** The mean of equal terms is that term. */
  lemma MeanConstant(s: seq<real>, p: real)
    requires |s| > 0
    requires forall k :: 0 <= k < |s| ==> s[k] == p
    ensures Mean(s) == p
  {
    MeanBounds(s, p, p);
  }

  /** n·lo <= x <= n·hi with n > 0 gives lo <= x/n <= hi. */
  lemma DivideBounds(x: real, n: real, lo: real, hi: real)
    requires n > 0.0 && n * lo <= x <= n * hi
    ensures lo <= x / n <= hi
  {
    assert x / n * n == x;
  }

  // ---------------------------------------------------------------------
  // Columns with missing entries
  // ---------------------------------------------------------------------

  predicate AllDefined(w: seq<Option<real>>)
  {
    forall k :: 0 <= k < |w| ==> w[k].Some?
  }

  /** Values of a column that has no missing entry. */
  function Values(w: seq<Option<real>>): seq<real>
    requires AllDefined(w)
  {
    seq(|w|, k requires 0 <= k < |w| => w[k].value)
  }

  /** A column with every entry present (how a price column is read). */
  function Lift(s: seq<real>): seq<Option<real>>
  {
    seq(|s|, k requires 0 <= k < |s| => Some(s[k]))
  }

  /** Every present entry is at least zero. */
  predicate NonNegative(xs: seq<Option<real>>)
  {
    forall k :: 0 <= k < |xs| && xs[k].Some? ==> xs[k].value >= 0.0
  }

  /** `shift(1)`: each entry moves one place later, a missing entry enters at the front. */
  function Shift(xs: seq<Option<real>>): seq<Option<real>>
  {
    if |xs| == 0 then [] else [None] + xs[..|xs| - 1]
  }

  /** Column subtraction; missing when either operand is. */
  function Subtract(a: seq<Option<real>>, b: seq<Option<real>>): seq<Option<real>>
    requires |a| == |b|
  {
    seq(|a|, k requires 0 <= k < |a| =>
      if a[k].Some? && b[k].Some? then Some(a[k].value - b[k].value) else None)
  }

  /** `diff()`: the column minus the column shifted by one. */
  function Diff(xs: seq<Option<real>>): seq<Option<real>>
  {
    Subtract(xs, Shift(xs))
  }

  /** `clip(lower=lo)`: entries below lo become lo; missing entries stay missing. */
  function ClipLower(xs: seq<Option<real>>, lo: real): seq<Option<real>>
  {
    seq(|xs|, k requires 0 <= k < |xs| =>
      match xs[k]
      case None => None
      case Some(x) => Some(if x < lo then lo else x))
  }

  /** `clip(upper=hi)`: entries above hi become hi; missing entries stay missing. */
  function ClipUpper(xs: seq<Option<real>>, hi: real): seq<Option<real>>
  {
    seq(|xs|, k requires 0 <= k < |xs| =>
      match xs[k]
      case None => None
      case Some(x) => Some(if x > hi then hi else x))
  }

  /** Unary minus on a column. */
  function Negate(xs: seq<Option<real>>): seq<Option<real>>
  {
    seq(|xs|, k requires 0 <= k < |xs| =>
      match xs[k]
      case None => None
      case Some(x) => Some(-x))
  }

  /** Mean of the n entries ending at index i, as `rolling(n).mean()` gives
      it with its default `min_periods = n`: missing when the window would
      reach before the first entry or holds a missing entry. */
  function WindowMean(xs: seq<Option<real>>, n: nat, i: nat): Option<real>
    requires 0 < n && i < |xs|
  {
    if i + 1 < n then None
    else
      var w := xs[i + 1 - n .. i + 1];
      if AllDefined(w) then Some(Mean(Values(w))) else None
  }

  /** `rolling(n).mean()` over a whole column. */
  function RollingMean(xs: seq<Option<real>>, n: nat): (r: seq<Option<real>>)
    requires 0 < n
    ensures |r| == |xs|
  {
    seq(|xs|, i requires 0 <= i < |xs| => WindowMean(xs, n, i))
  }

  /** A rolling mean of a column without negative entries has none either. */
  lemma RollingMeanNonNegative(xs: seq<Option<real>>, n: nat)
    requires 0 < n
    requires NonNegative(xs)
    ensures NonNegative(RollingMean(xs, n))
  {
    forall i | 0 <= i < |xs| && RollingMean(xs, n)[i].Some?
      ensures RollingMean(xs, n)[i].value >= 0.0
    {
      var w := xs[i + 1 - n .. i + 1];
      var v := Values(w);
      forall k | 0 <= k < |v| ensures 0.0 <= v[k] {
        assert v[k] == xs[i + 1 - n + k].value;
      }
      SumZeroIff(v);
    }
  }

  /** `iloc[-1]`: the last entry. */
  function Last<T>(xs: seq<T>): T
    requires |xs| > 0
  {
    xs[|xs| - 1]
  }
}
