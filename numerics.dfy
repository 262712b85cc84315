/** Shared numeric vocabulary of the three analysis pipelines: clamps, means,
    Python's `round(x, n)` on exact reals, and the library routines (numpy,
    scipy) whose numerics lie outside the model, passed in as a `Lib` value
    together with the few facts the pipelines rely on. */
module Numerics {

  function Abs(x: real): (r: real)
    ensures r >= 0.0 && (r == x || r == -x)
  {
    if x < 0.0 then -x else x
  }

  /** Python's `max(a, b)`. */
  function Max(a: real, b: real): (r: real)
    ensures r >= a && r >= b && (r == a || r == b)
  {
    if b > a then b else a
  }

  /** Python's `min(a, b)`. */
  function Min(a: real, b: real): (r: real)
    ensures r <= a && r <= b && (r == a || r == b)
  {
    if b < a then b else a
  }

  /** `np.clip(x, lo, hi)`. */
  function Clip(x: real, lo: real, hi: real): (r: real)
    requires lo <= hi
    ensures lo <= r <= hi
    ensures lo <= x <= hi ==> r == x
    ensures x < lo ==> r == lo
    ensures x > hi ==> r == hi
  {
    Min(Max(x, lo), hi)
  }

  /** Ceiling of a real, as `int(np.ceil(x))`. */
  function Ceil(x: real): (r: int)
    ensures (r - 1) as real < x <= r as real
  {
    -((-x).Floor)
  }

  /** Python's `int(x)` on a float: truncation toward zero. */
  function Trunc(x: real): (r: int)
    ensures x >= 0.0 ==> r >= 0 && r as real <= x < r as real + 1.0
    ensures x < 0.0 ==> r <= 0 && r as real - 1.0 < x <= r as real
  {
    if x >= 0.0 then x.Floor else -((-x).Floor)
  }

  // ---------- rounding ----------

  function Pow10(n: nat): (r: int)
    ensures r >= 1
  {
    if n == 0 then 1 else 10 * Pow10(n - 1)
  }

  /** Python's `round(x, n)`, taken on exact reals as round-half-up to the
      grid of step 10^-n. */
  function Round(x: real, n: nat): real
  {
    Units(x, n) as real / Pow10(n) as real
  }

  /** The number of grid steps 10^-n that `round(x, n)` lands on. */
  function Units(x: real, n: nat): int
  {
    (x * Pow10(n) as real + 0.5).Floor
  }

  lemma MulMonotone(x: real, y: real, p: real)
    requires x <= y && p > 0.0
    ensures x * p <= y * p
  {
    assert y * p - x * p == (y - x) * p;
  }

  lemma DivMonotone(a: real, b: real, p: real)
    requires a <= b && p > 0.0
    ensures a / p <= b / p
  {
    assert b / p - a / p == (b - a) / p;
  }

  /** A point of the grid is left where it is. */
  lemma RoundGrid(k: int, n: nat)
    ensures Round(k as real / Pow10(n) as real, n) == k as real / Pow10(n) as real
  {
    var p := Pow10(n) as real;
    var x := k as real / p;
    assert x * p == k as real;
    assert Units(x, n) == k;
  }

  lemma RoundInt(k: int, n: nat)
    ensures Round(k as real, n) == k as real
  {
    var p := Pow10(n) as real;
    var x := k as real;
    assert x * p == (k * Pow10(n)) as real;
    assert Units(x, n) == k * Pow10(n);
    assert Round(x, n) == (k * Pow10(n)) as real / p;
  }

  lemma RoundMonotone(x: real, y: real, n: nat)
    requires x <= y
    ensures Round(x, n) <= Round(y, n)
  {
    var p := Pow10(n) as real;
    MulMonotone(x, y, p);
    assert Units(x, n) <= Units(y, n);
    DivMonotone(Units(x, n) as real, Units(y, n) as real, p);
  }

  /** Rounding never leaves an interval whose ends are whole numbers. */
  lemma RoundBetween(x: real, lo: int, hi: int, n: nat)
    requires lo as real <= x <= hi as real
    ensures lo as real <= Round(x, n) <= hi as real
  {
    RoundMonotone(lo as real, x, n);
    RoundMonotone(x, hi as real, n);
    RoundInt(lo, n);
    RoundInt(hi, n);
  }

  /** Rounding twice to the same number of places is rounding once. */
  lemma RoundIdempotent(x: real, n: nat)
    ensures Round(Round(x, n), n) == Round(x, n)
  {
    RoundGrid(Units(x, n), n);
  }

  /** Rounding keeps a whole-number upper bound. */
  lemma RoundBelow(x: real, hi: int, n: nat)
    ensures x <= hi as real ==> Round(x, n) <= hi as real
  {
    if x <= hi as real {
      RoundMonotone(x, hi as real, n);
      RoundInt(hi, n);
    }
  }

  /** Rounding keeps a whole-number lower bound. */
  lemma RoundAbove(x: real, lo: int, n: nat)
    ensures lo as real <= x ==> lo as real <= Round(x, n)
  {
    if lo as real <= x {
      RoundMonotone(lo as real, x, n);
      RoundInt(lo, n);
    }
  }

  // ---------- sequences of reals ----------

  ghost predicate Within(s: seq<real>, lo: real, hi: real)
  {
    forall i :: 0 <= i < |s| ==> lo <= s[i] <= hi
  }

  ghost predicate AtLeast(s: seq<real>, lo: real)
  {
    forall i :: 0 <= i < |s| ==> lo <= s[i]
  }

  ghost predicate AtMost(s: seq<real>, hi: real)
  {
    forall i :: 0 <= i < |s| ==> s[i] <= hi
  }

  ghost predicate IsConstant(s: seq<real>)
  {
    forall i, j :: 0 <= i < |s| && 0 <= j < |s| ==> s[i] == s[j]
  }

  /** Growing a prefix by one element. */
  lemma PrefixSnoc<X>(s: seq<X>, i: nat)
    requires i < |s|
    ensures s[..i + 1] == s[..i] + [s[i]]
  {
  }

  function Sum(s: seq<real>): real
  {
    if s == [] then 0.0 else Sum(s[..|s| - 1]) + s[|s| - 1]
  }

  /** `np.mean(s)` of a non-empty list. */
  function Mean(s: seq<real>): real
    requires |s| > 0
  {
    Sum(s) / |s| as real
  }

  lemma {:induction false} SumBetween(s: seq<real>, lo: real, hi: real)
    requires Within(s, lo, hi)
    ensures |s| as real * lo <= Sum(s) <= |s| as real * hi
  {
    if s != [] {
      var t := s[..|s| - 1];
      assert Within(t, lo, hi);
      SumBetween(t, lo, hi);
      var n := |t| as real;
      assert Sum(s) == Sum(t) + s[|s| - 1];
      assert |s| as real == n + 1.0;
      assert lo <= s[|s| - 1] <= hi;
      assert n * lo <= Sum(t) <= n * hi;
      assert (n + 1.0) * lo == n * lo + lo <= Sum(s);
      assert Sum(s) <= n * hi + hi == (n + 1.0) * hi;
    }
  }

  /** A mean lies between the bounds of its samples. */
  lemma MeanBetween(s: seq<real>, lo: real, hi: real)
    requires |s| > 0 && Within(s, lo, hi)
    ensures lo <= Mean(s) <= hi
  {
    SumBetween(s, lo, hi);
    var n := |s| as real;
    DivMonotone(n * lo, Sum(s), n);
    DivMonotone(Sum(s), n * hi, n);
    assert n * lo / n == lo && n * hi / n == hi;
  }

  /** The mean of a list of equal values is that value. */
  lemma MeanOfConstant(s: seq<real>, c: real)
    requires |s| > 0 && Within(s, c, c)
    ensures Mean(s) == c
  {
    MeanBetween(s, c, c);
  }

  lemma ConstantWithin(s: seq<real>)
    requires |s| > 0 && IsConstant(s)
    ensures Within(s, s[0], s[0])
  {
  }

  // ---------- library routines outside the model ----------

  /** The numpy/scipy routines the pipelines call. Their numerics are not
      modelled; `Lawful` lists what the pipelines rely on. */
  datatype Lib = Lib(
    sqrt: real -> real,                          // np.sqrt
    log10: real -> real,                         // np.log10
    std: seq<real> -> real,                      // np.std (population)
    gaussian: (seq<real>, real) -> seq<real>,    // scipy gaussian_filter1d(x, sigma)
    medfilt: seq<real> -> seq<real>,             // scipy medfilt(x, kernel_size=3)
    findPeaks: seq<real> -> seq<nat>             // scipy find_peaks(x)[0]
  )

  ghost predicate Lawful(lib: Lib)
  {
    // a standard deviation is never negative, and is 0 for equal samples
    && (forall s :: lib.std(s) >= 0.0)
    && (forall s :: IsConstant(s) ==> lib.std(s) == 0.0)
    // Gaussian smoothing keeps the length and, its kernel being a normalised
    // non-negative weighting, stays within the bounds of its input
    && (forall s, sigma :: |lib.gaussian(s, sigma)| == |s|)
    && (forall s, sigma, lo :: AtLeast(s, lo) ==> AtLeast(lib.gaussian(s, sigma), lo))
    && (forall s, sigma, hi :: AtMost(s, hi) ==> AtMost(lib.gaussian(s, sigma), hi))
    // the median filter keeps the length
    && (forall s :: |lib.medfilt(s)| == |s|)
    // peak indices point into the searched signal
    && (forall s, k :: 0 <= k < |lib.findPeaks(s)| ==> lib.findPeaks(s)[k] < |s|)
  }

  /** Smoothing keeps a sequence within the bounds of its input. */
  lemma GaussianWithin(lib: Lib, s: seq<real>, sigma: real, lo: real, hi: real)
    requires Lawful(lib) && Within(s, lo, hi)
    ensures Within(lib.gaussian(s, sigma), lo, hi)
  {
    assert AtLeast(s, lo) && AtMost(s, hi);
    var g := lib.gaussian(s, sigma);
    assert AtLeast(g, lo) && AtMost(g, hi);
  }

  /** Smoothing a constant sequence returns it unchanged. */
  lemma GaussianOfConstant(lib: Lib, s: seq<real>, sigma: real)
    requires Lawful(lib) && |s| > 0 && IsConstant(s)
    ensures lib.gaussian(s, sigma) == s
  {
    var c := s[0];
    assert Within(s, c, c);
    assert AtLeast(s, c) && AtMost(s, c);
    var g := lib.gaussian(s, sigma);
    assert AtLeast(g, c) && AtMost(g, c);
    assert |g| == |s|;
    forall i | 0 <= i < |s| ensures g[i] == s[i] {
      assert g[i] == c;
    }
  }
}
