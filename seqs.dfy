/**
 * Python's `sum(...)` and `sum(1 for x in xs if p(x))` over lists, and the
 * guarded mean `total / n if n else 0.0` that the pipeline uses for every rate.
 */
module Seqs {
  import opened Wrappers

  /** `sum(1 for x in s if p(x))`. */
  function Count<T>(s: seq<T>, p: T -> bool): (n: nat)
    ensures n <= |s|
  {
    if s == [] then 0 else Count(s[..|s| - 1], p) + (if p(s[|s| - 1]) then 1 else 0)
  }

  /** Every element satisfies `p` exactly when all of them are counted. */
  lemma {:induction false} CountAll<T>(s: seq<T>, p: T -> bool)
    ensures Count(s, p) == |s| <==> forall i :: 0 <= i < |s| ==> p(s[i])
  {
    if s != [] {
      assert forall i :: 0 <= i < |s| - 1 ==> s[..|s| - 1][i] == s[i];
      CountAll(s[..|s| - 1], p);
    }
  }

  /** No element satisfies `p` exactly when none is counted. */
  lemma {:induction false} CountNone<T>(s: seq<T>, p: T -> bool)
    ensures Count(s, p) == 0 <==> forall i :: 0 <= i < |s| ==> !p(s[i])
  {
    if s != [] {
      CountNone(s[..|s| - 1], p);
      assert forall i :: 0 <= i < |s| - 1 ==> s[..|s| - 1][i] == s[i];
    }
  }

  /** `sum(f(x) for x in s)` over reals. */
  function SumReal<T>(s: seq<T>, f: T -> real): real {
    if s == [] then 0.0 else SumReal(s[..|s| - 1], f) + f(s[|s| - 1])
  }

  /** `sum(f(x) for x in s)` over integers. */
  function SumInt<T>(s: seq<T>, f: T -> int): int {
    if s == [] then 0 else SumInt(s[..|s| - 1], f) + f(s[|s| - 1])
  }

  /** A sum of `|s|` terms each within `[lo, hi]` lies within `[lo * |s|, hi * |s|]`. */
  lemma {:induction false} SumRealBounds<T>(s: seq<T>, f: T -> real, lo: real, hi: real)
    requires forall i :: 0 <= i < |s| ==> lo <= f(s[i]) <= hi
    ensures lo * |s| as real <= SumReal(s, f) <= hi * |s| as real
  {
    if s != [] {
      assert forall i :: 0 <= i < |s| - 1 ==> s[..|s| - 1][i] == s[i];
      SumRealBounds(s[..|s| - 1], f, lo, hi);
    }
  }

  /** A sum of non-negative integer terms is non-negative. */
  lemma {:induction false} SumIntNonNegative<T>(s: seq<T>, f: T -> int)
    requires forall i :: 0 <= i < |s| ==> f(s[i]) >= 0
    ensures SumInt(s, f) >= 0
  {
    if s != [] {
      assert forall i :: 0 <= i < |s| - 1 ==> s[..|s| - 1][i] == s[i];
      SumIntNonNegative(s[..|s| - 1], f);
    }
  }

  /** `total / n if n else 0.0`. */
  function Mean(total: real, n: nat): real {
    if n == 0 then 0.0 else total / n as real
  }

  /** A mean of values within `[lo, hi]` lies within `[lo, hi]`. */
  lemma MeanBounds(total: real, n: nat, lo: real, hi: real)
    requires n > 0
    requires lo * n as real <= total <= hi * n as real
    ensures lo <= Mean(total, n) <= hi
  {
    var m := total / n as real;
    assert m * n as real == total;
    if m < lo { assert m * n as real < lo * n as real; }
    if m > hi { assert m * n as real > hi * n as real; }
  }

  /** Scaling a positive amount by a factor below, at or above one. */
  lemma Scale(q: real, d: real)
    requires d > 0.0
    ensures q < 0.0 ==> q * d < 0.0
    ensures q < 1.0 ==> q * d < d
    ensures q > 1.0 ==> q * d > d
  {
  }

  /** A part over a positive whole lies in `[0, 1]`: 0 for nothing, 1 for all of it. */
  lemma RatioInUnit(x: real, d: real)
    requires d > 0.0 && 0.0 <= x <= d
    ensures 0.0 <= x / d <= 1.0
    ensures x / d == 1.0 <==> x == d
    ensures x / d == 0.0 <==> x == 0.0
  {
    var q := x / d;
    assert q * d == x;
    Scale(q, d);
  }

  /** A count over a length, as a rate, lies in `[0, 1]`: 1 when everything is counted, 0 when nothing is. */
  lemma RateInUnit(count: nat, n: nat)
    requires count <= n
    ensures 0.0 <= Mean(count as real, n) <= 1.0
    ensures n > 0 ==> (Mean(count as real, n) == 1.0 <==> count == n)
    ensures n > 0 ==> (Mean(count as real, n) == 0.0 <==> count == 0)
  {
    if n > 0 { RatioInUnit(count as real, n as real); }
  }

  /** A loop over `xs` whose step may raise: the first failure ends it. */
  function FoldResult<A, S, E>(xs: seq<A>, init: S, step: (S, A) -> Result<S, E>): Result<S, E> {
    if xs == [] then Ok(init)
    else
      match FoldResult(xs[..|xs| - 1], init, step)
      case Err(e) => Err(e)
      case Ok(acc) => step(acc, xs[|xs| - 1])
  }

  /** Once a prefix of the loop has failed, the whole loop fails with the same error. */
  lemma {:induction false} FoldResultErrStays<A, S, E>(xs: seq<A>, n: nat, init: S, step: (S, A) -> Result<S, E>)
    requires n <= |xs|
    requires FoldResult(xs[..n], init, step).Err?
    ensures FoldResult(xs, init, step) == FoldResult(xs[..n], init, step)
  {
    if n < |xs| {
      var front := xs[..|xs| - 1];
      assert front[..n] == xs[..n];
      FoldResultErrStays(front, n, init, step);
    } else {
      assert xs[..n] == xs;
    }
  }

  /** Appending one element after a concatenation is appending it to the second part. */
  lemma AppendOne<T>(a: seq<T>, b: seq<T>, x: T)
    ensures a + (b + [x]) == (a + b) + [x]
  {
  }

  /** A prefix of `all` extended by the next element of `all` is the next prefix. */
  lemma SnocPrefix<T>(xs: seq<T>, x: T, all: seq<T>)
    requires |xs| < |all| && xs == all[..|xs|] && x == all[|xs|]
    ensures xs + [x] == all[..|xs| + 1]
  {
  }

  /** Concatenation is associative. */
  lemma Assoc<T>(a: seq<T>, b: seq<T>, c: seq<T>)
    ensures (a + b) + c == a + (b + c)
  {
  }
}
