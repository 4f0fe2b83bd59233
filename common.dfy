/** Small value types and sequence helpers shared by every view and by the back end. */
module Common {

  /** JavaScript `null`/`undefined` versus a present value. */
  datatype Option<+T> = None | Some(value: T)

  /** A call that either produced a payload or failed. */
  datatype Result<+T, +E> = Ok(value: T) | Err(error: E)

  function Min(a: int, b: int): int { if a <= b then a else b }

  function Max(a: int, b: int): int { if a >= b then a else b }

  function MinReal(a: real, b: real): real { if a <= b then a else b }

  /** Python `xs[:n]` and JavaScript `xs.slice(0, n)` for a non-negative `n`. */
  function Take<T>(xs: seq<T>, n: nat): (r: seq<T>)
    ensures |r| == Min(n, |xs|)
    ensures r == xs[..|r|]
  {
    xs[..Min(n, |xs|)]
  }

  /** Sum of a sequence of reals, accumulated left to right. */
  function Sum(s: seq<real>): real
  {
    if s == [] then 0.0 else Sum(s[..|s| - 1]) + s[|s| - 1]
  }

  predicate NonNegative(s: seq<real>)
  {
    forall k :: 0 <= k < |s| ==> 0.0 <= s[k]
  }

  /** Extending a prefix by one element adds that element to the sum. */
  lemma SumSnoc(s: seq<real>, k: nat)
    requires k < |s|
    ensures Sum(s[..k + 1]) == Sum(s[..k]) + s[k]
  {
    assert s[..k + 1][..k] == s[..k];
  }

  /** For non-negative values, a longer prefix never has a smaller sum. */
  lemma {:induction false} SumPrefixMonotone(s: seq<real>, a: nat, b: nat)
    requires NonNegative(s)
    requires a <= b <= |s|
    ensures 0.0 <= Sum(s[..a]) <= Sum(s[..b])
  {
    if a == b {
      if a > 0 {
        SumPrefixMonotone(s, a - 1, a);
      } else {
        assert s[..0] == [];
      }
    } else {
      SumPrefixMonotone(s, a, b - 1);
      SumSnoc(s, b - 1);
    }
  }

  /** For non-negative values, every element is at most the whole sum. */
  lemma ElementAtMostSum(s: seq<real>, k: nat)
    requires NonNegative(s)
    requires k < |s|
    ensures 0.0 <= s[k] <= Sum(s)
  {
    SumSnoc(s, k);
    SumPrefixMonotone(s, k, k);
    SumPrefixMonotone(s, k + 1, |s|);
    assert s[..|s|] == s;
  }
}
