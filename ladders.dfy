/** Threshold ladders: every label and advisory table of the analysis layer is
    an `if`/`elif` chain scanned first-match over a fixed list of thresholds.
    The three comparison forms the source uses (`x < t`, `x > t`, `x >= t`)
    each give the index of the band the value falls in; with the thresholds
    ordered, the bands are contiguous, disjoint and cover every real. */
module Ladders {

  ghost predicate Ascending(bounds: seq<real>)
  {
    forall i, j :: 0 <= i < j < |bounds| ==> bounds[i] < bounds[j]
  }

  ghost predicate Descending(bounds: seq<real>)
  {
    forall i, j :: 0 <= i < j < |bounds| ==> bounds[i] > bounds[j]
  }

  /** First-match scan of `if x < bounds[0] ... elif x < bounds[1] ... else`. */
  function BandBelow(x: real, bounds: seq<real>): (k: nat)
    ensures k <= |bounds|
    ensures forall j :: 0 <= j < k ==> bounds[j] <= x
    ensures k < |bounds| ==> x < bounds[k]
  {
    if bounds == [] then 0
    else if x < bounds[0] then 0
    else 1 + BandBelow(x, bounds[1..])
  }

  /** First-match scan of `if x > bounds[0] ... elif x > bounds[1] ... else`. */
  function BandAbove(x: real, bounds: seq<real>): (k: nat)
    ensures k <= |bounds|
    ensures forall j :: 0 <= j < k ==> x <= bounds[j]
    ensures k < |bounds| ==> x > bounds[k]
  {
    if bounds == [] then 0
    else if x > bounds[0] then 0
    else 1 + BandAbove(x, bounds[1..])
  }

  /** First-match scan of `if x >= bounds[0] ... elif x >= bounds[1] ... else`. */
  function BandAtLeast(x: real, bounds: seq<real>): (k: nat)
    ensures k <= |bounds|
    ensures forall j :: 0 <= j < k ==> x < bounds[j]
    ensures k < |bounds| ==> x >= bounds[k]
  {
    if bounds == [] then 0
    else if x >= bounds[0] then 0
    else 1 + BandAtLeast(x, bounds[1..])
  }

  /** With ascending thresholds, band k is exactly the interval
      [bounds[k-1], bounds[k]) (open-ended at both extremes). */
  lemma BandBelowExact(x: real, bounds: seq<real>, k: nat)
    requires Ascending(bounds)
    ensures BandBelow(x, bounds) == k <==>
            k <= |bounds| && (k == 0 || bounds[k - 1] <= x) && (k == |bounds| || x < bounds[k])
  {
  }

  /** With descending thresholds, band k of a `>` ladder is exactly the
      interval (bounds[k], bounds[k-1]]. */
  lemma BandAboveExact(x: real, bounds: seq<real>, k: nat)
    requires Descending(bounds)
    ensures BandAbove(x, bounds) == k <==>
            k <= |bounds| && (k == 0 || x <= bounds[k - 1]) && (k == |bounds| || x > bounds[k])
  {
  }

  /** With descending thresholds, band k of a `>=` ladder is exactly the
      interval [bounds[k], bounds[k-1]). */
  lemma BandAtLeastExact(x: real, bounds: seq<real>, k: nat)
    requires Descending(bounds)
    ensures BandAtLeast(x, bounds) == k <==>
            k <= |bounds| && (k == 0 || x < bounds[k - 1]) && (k == |bounds| || x >= bounds[k])
  {
  }

  /** Sweeping the score upwards never moves an ascending `<` ladder back. */
  lemma BandBelowMonotone(x: real, y: real, bounds: seq<real>)
    requires Ascending(bounds) && x <= y
    ensures BandBelow(x, bounds) <= BandBelow(y, bounds)
  {
  }

  /** Sweeping the score upwards never moves a descending `>` ladder forward. */
  lemma BandAboveMonotone(x: real, y: real, bounds: seq<real>)
    requires Descending(bounds) && x <= y
    ensures BandAbove(y, bounds) <= BandAbove(x, bounds)
  {
  }

  /** Sweeping the score upwards never moves a descending `>=` ladder forward. */
  lemma BandAtLeastMonotone(x: real, y: real, bounds: seq<real>)
    requires Descending(bounds) && x <= y
    ensures BandAtLeast(y, bounds) <= BandAtLeast(x, bounds)
  {
  }
}
