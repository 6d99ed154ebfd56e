/** The energy estimator of python/core/utils.py (`EnergyCalculator`): raw
    movement energy between two frames by greedy nearest-neighbour matching
    of hip centres, normalised to the original resolution, then exponential
    smoothing. `np.linalg.norm` is not modelled: the distance is a
    parameter, assumed only non-negative. */
module EnergyEstimator {
  import opened Wrappers
  import opened Numeric
  import opened Configuration
  import opened Geometry

  /** Stand-in for `np.linalg.norm(np.array(curr) - np.array(prev))`. */
  type Distance = (Point, Point) -> real

  ghost predicate NonNegative(dist: Distance)
  {
    forall p, q :: dist(p, q) >= 0.0
  }

  /** The inner loop of `calculate` after scanning the previous points
      `[0, n)`: the unused point nearest to `curr` among those strictly closer
      than `maxDist`, the lowest index winning a tie; `None` if there is none. */
  function BestMatch(curr: Point, prev: seq<Point>, used: set<nat>, dist: Distance, maxDist: real, n: nat): (r: Option<nat>)
    requires n <= |prev|
    ensures r.Some? ==> r.value < n
  {
    if n == 0 then None
    else
      var best := BestMatch(curr, prev, used, dist, maxDist, n - 1);
      var d := dist(curr, prev[n - 1]);
      if n - 1 !in used && d < maxDist && (best.None? || d < dist(curr, prev[best.value]))
      then Some(n - 1)
      else best
  }

  /** The scan finds the nearest unused point strictly under the ceiling,
      the lowest index among equally near ones, and finds none exactly when
      every unused point is at or beyond the ceiling. */
  lemma {:induction false} BestMatchIsNearest(curr: Point, prev: seq<Point>, used: set<nat>, dist: Distance, maxDist: real, n: nat)
    requires n <= |prev|
    ensures var r := BestMatch(curr, prev, used, dist, maxDist, n);
      && (r.Some? ==> r.value !in used && dist(curr, prev[r.value]) < maxDist)
      && (r.Some? ==> forall j :: 0 <= j < n && j !in used && dist(curr, prev[j]) < maxDist ==>
            dist(curr, prev[r.value]) <= dist(curr, prev[j])
            && (dist(curr, prev[j]) == dist(curr, prev[r.value]) ==> r.value <= j))
      && (r.None? <==> forall j :: 0 <= j < n && j !in used ==> dist(curr, prev[j]) >= maxDist)
  {
    if n > 0 {
      BestMatchIsNearest(curr, prev, used, dist, maxDist, n - 1);
    }
  }

  /** The state of the outer loop of `calculate` after the first `k` current
      points: the accumulated movement, the used previous indices, and (for
      the proofs) which previous point each current point was matched to. */
  datatype Matching = Matching(total: real, used: set<nat>, pairs: seq<Option<nat>>)

  function Greedy(curr: seq<Point>, prev: seq<Point>, dist: Distance, maxDist: real, k: nat): (m: Matching)
    requires k <= |curr|
    ensures |m.pairs| == k
  {
    if k == 0 then Matching(0.0, {}, [])
    else
      var m := Greedy(curr, prev, dist, maxDist, k - 1);
      var best := BestMatch(curr[k - 1], prev, m.used, dist, maxDist, |prev|);
      if best.Some? then
        Matching(m.total + dist(curr[k - 1], prev[best.value]), m.used + {best.value}, m.pairs + [best])
      else
        Matching(m.total, m.used, m.pairs + [None])
  }

  /** Each current point is matched to at most one previous point, a valid
      index strictly closer than the ceiling and recorded as used; the used
      set holds valid indices, at most one per current point. */
  lemma {:induction false} GreedyMatchesValid(curr: seq<Point>, prev: seq<Point>, dist: Distance, maxDist: real, k: nat)
    requires k <= |curr|
    ensures var m := Greedy(curr, prev, dist, maxDist, k);
      && (forall i :: 0 <= i < k && m.pairs[i].Some? ==>
            m.pairs[i].value < |prev| && m.pairs[i].value in m.used
            && dist(curr[i], prev[m.pairs[i].value]) < maxDist)
      && (forall x :: x in m.used ==> x < |prev|)
      && |m.used| <= k
  {
    if k > 0 {
      GreedyMatchesValid(curr, prev, dist, maxDist, k - 1);
      var m := Greedy(curr, prev, dist, maxDist, k - 1);
      BestMatchIsNearest(curr[k - 1], prev, m.used, dist, maxDist, |prev|);
      var m' := Greedy(curr, prev, dist, maxDist, k);
      assert forall i :: 0 <= i < k - 1 ==> m'.pairs[i] == m.pairs[i];
      assert |m'.used| <= |m.used| + 1;
    }
  }

  /** No previous point appears twice among the matches. */
  predicate DistinctMatches(pairs: seq<Option<nat>>)
  {
    forall i, j :: 0 <= i < j < |pairs| && pairs[i].Some? && pairs[j].Some? ==>
      pairs[i].value != pairs[j].value
  }

  /** What the greedy pass promises on top: no previous point is matched to
      two current points. */
  lemma {:induction false} GreedyMatchesAtMostOnce(curr: seq<Point>, prev: seq<Point>, dist: Distance, maxDist: real, k: nat)
    requires k <= |curr|
    ensures DistinctMatches(Greedy(curr, prev, dist, maxDist, k).pairs)
  {
    if k > 0 {
      var m := Greedy(curr, prev, dist, maxDist, k - 1);
      var m' := Greedy(curr, prev, dist, maxDist, k);
      var best := BestMatch(curr[k - 1], prev, m.used, dist, maxDist, |prev|);
      assert best.Some? ==> best.value !in m.used by {
        BestMatchIsNearest(curr[k - 1], prev, m.used, dist, maxDist, |prev|);
      }
      assert forall i :: 0 <= i < k - 1 && m.pairs[i].Some? ==> m.pairs[i].value in m.used by {
        GreedyMatchesValid(curr, prev, dist, maxDist, k - 1);
      }
      GreedyMatchesAtMostOnce(curr, prev, dist, maxDist, k - 1);
      assert DistinctMatches(m.pairs);
      assert m'.pairs == m.pairs + [best];
      forall i, j | 0 <= i < j < k && m'.pairs[i].Some? && m'.pairs[j].Some?
        ensures m'.pairs[i].value != m'.pairs[j].value
      {
        assert m'.pairs[i] == m.pairs[i];
        if j == k - 1 {
          assert m'.pairs[j] == best;
          assert m.pairs[i].value in m.used;
        } else {
          assert m'.pairs[j] == m.pairs[j];
        }
      }
    }
  }

  /** The used set is exactly the set of matched indices. */
  lemma {:induction false} GreedyUsedIsMatched(curr: seq<Point>, prev: seq<Point>, dist: Distance, maxDist: real, k: nat)
    requires k <= |curr|
    ensures var m := Greedy(curr, prev, dist, maxDist, k);
      forall x :: x in m.used <==> exists i :: 0 <= i < k && m.pairs[i] == Some(x)
  {
    if k > 0 {
      GreedyUsedIsMatched(curr, prev, dist, maxDist, k - 1);
      var m := Greedy(curr, prev, dist, maxDist, k - 1);
      var m' := Greedy(curr, prev, dist, maxDist, k);
      assert forall i :: 0 <= i < k - 1 ==> m'.pairs[i] == m.pairs[i];
      assert m'.pairs[k - 1] == BestMatch(curr[k - 1], prev, m.used, dist, maxDist, |prev|);
    }
  }

  /** `n` match-distance ceilings added up. */
  function Ceiling(n: nat, maxDist: real): real
  {
    if n == 0 then 0.0 else Ceiling(n - 1, maxDist) + maxDist
  }

  /** Each match adds less than the ceiling to the total. */
  lemma {:induction false} GreedyTotalCeiling(curr: seq<Point>, prev: seq<Point>, dist: Distance, maxDist: real, k: nat)
    requires k <= |curr|
    ensures Greedy(curr, prev, dist, maxDist, k).total <= Ceiling(|Greedy(curr, prev, dist, maxDist, k).used|, maxDist)
  {
    if k > 0 {
      GreedyTotalCeiling(curr, prev, dist, maxDist, k - 1);
      var m := Greedy(curr, prev, dist, maxDist, k - 1);
      var best := BestMatch(curr[k - 1], prev, m.used, dist, maxDist, |prev|);
      if best.Some? {
        BestMatchIsNearest(curr[k - 1], prev, m.used, dist, maxDist, |prev|);
        assert best.value !in m.used;
        assert |m.used + {best.value}| == |m.used| + 1;
      }
    }
  }

  /** With a non-negative distance every match adds a non-negative amount. */
  lemma {:induction false} GreedyTotalNonNegative(curr: seq<Point>, prev: seq<Point>, dist: Distance, maxDist: real, k: nat)
    requires k <= |curr| && NonNegative(dist)
    ensures 0.0 <= Greedy(curr, prev, dist, maxDist, k).total
  {
    if k > 0 {
      GreedyTotalNonNegative(curr, prev, dist, maxDist, k - 1);
    }
  }

  lemma {:induction false} CeilingMonotone(a: nat, b: nat, maxDist: real)
    requires a <= b && maxDist >= 0.0
    ensures Ceiling(a, maxDist) <= Ceiling(b, maxDist)
  {
    if a < b {
      CeilingMonotone(a, b - 1, maxDist);
    }
  }

  lemma {:induction false} CeilingIsProduct(n: nat, maxDist: real)
    ensures Ceiling(n, maxDist) == n as real * maxDist
  {
    if n > 0 {
      CeilingIsProduct(n - 1, maxDist);
      assert (n - 1) as real * maxDist + maxDist == n as real * maxDist;
    }
  }

  /** A set of indices below `n` has at most `n` elements. */
  lemma {:induction false} IndexSetBound(s: set<nat>, n: nat)
    requires forall x :: x in s ==> x < n
    ensures |s| <= n
  {
    if n > 0 {
      IndexSetBound(s - {n - 1}, n - 1);
    } else {
      assert s == {};
    }
  }

  /** The value `calculate` returns for the given previous and current hip
      centres. */
  function RawEnergy(prev: seq<Point>, curr: seq<Point>, dist: Distance, maxDist: real, scale: real): (r: real)
    requires scale != 0.0
    ensures prev == [] || curr == [] ==> r == 0.0
  {
    if prev == [] || curr == [] then 0.0
    else
      var total := Greedy(curr, prev, dist, maxDist, |curr|).total;
      if scale != 1.0 then total * (1.0 / scale) else total
  }

  /** Raw energy is non-negative and at most one match-distance ceiling per
      matchable pair, measured at the original resolution. */
  lemma RawEnergyBounds(prev: seq<Point>, curr: seq<Point>, dist: Distance, maxDist: real, scale: real)
    requires NonNegative(dist) && scale > 0.0 && maxDist >= 0.0
    ensures 0.0 <= RawEnergy(prev, curr, dist, maxDist, scale)
    ensures RawEnergy(prev, curr, dist, maxDist, scale) <= Pairable(curr, prev) as real * maxDist / scale
  {
    var bound := Pairable(curr, prev) as real * maxDist;
    if prev != [] && curr != [] {
      GreedyTotalAtMostPairs(curr, prev, dist, maxDist);
      CeilingIsProduct(Pairable(curr, prev), maxDist);
      ScaleDown(Greedy(curr, prev, dist, maxDist, |curr|).total, bound, scale);
    } else {
      MulNonNegative(Pairable(curr, prev) as real, maxDist);
      ScaleDown(0.0, bound, scale);
    }
  }

  /** `min(len(current), len(previous))`: the most pairs a matching can have. */
  function Pairable(curr: seq<Point>, prev: seq<Point>): nat
  {
    if |curr| < |prev| then |curr| else |prev|
  }

  /** The full greedy pass adds at most one ceiling per matchable pair. */
  lemma GreedyTotalAtMostPairs(curr: seq<Point>, prev: seq<Point>, dist: Distance, maxDist: real)
    requires NonNegative(dist) && maxDist >= 0.0
    ensures 0.0 <= Greedy(curr, prev, dist, maxDist, |curr|).total <= Ceiling(Pairable(curr, prev), maxDist)
  {
    var m := Greedy(curr, prev, dist, maxDist, |curr|);
    var pairs := Pairable(curr, prev);
    assert |m.used| <= pairs by {
      GreedyMatchesValid(curr, prev, dist, maxDist, |curr|);
      IndexSetBound(m.used, |prev|);
    }
    assert m.total <= Ceiling(pairs, maxDist) by {
      GreedyTotalCeiling(curr, prev, dist, maxDist, |curr|);
      CeilingMonotone(|m.used|, pairs, maxDist);
    }
    assert 0.0 <= m.total by {
      GreedyTotalNonNegative(curr, prev, dist, maxDist, |curr|);
    }
  }

  lemma ScaleDown(t: real, b: real, scale: real)
    requires scale > 0.0 && 0.0 <= t <= b
    ensures 0.0 <= t * (1.0 / scale) <= b / scale
    ensures scale == 1.0 ==> t <= b / scale
  {
  }

  /** One hip centre in each frame, closer than the ceiling: the raw energy is
      their distance `dist(current, previous)`, in that argument order (at
      unit scale). */
  lemma SinglePairEnergy(p: Point, q: Point, dist: Distance, maxDist: real)
    requires dist(q, p) < maxDist
    ensures RawEnergy([p], [q], dist, maxDist, 1.0) == dist(q, p)
  {
    assert BestMatch(q, [p], {}, dist, maxDist, 0) == None;
    assert [p][0] == p;
    assert BestMatch(q, [p], {}, dist, maxDist, 1) == Some(0);
    assert Greedy([q], [p], dist, maxDist, 0) == Matching(0.0, {}, []);
    assert Greedy([q], [p], dist, maxDist, 1).total == dist(q, p);
  }

  /** Exponential smoothing as `update_smooth` computes it. */
  function Smooth(alpha: real, previous: real, raw: real): (r: real)
    // The distance to the raw value shrinks by the factor (1 - alpha).
    ensures r - raw == (1.0 - alpha) * (previous - raw)
    ensures 0.0 < alpha <= 1.0 ==> Min(previous, raw) <= r <= Max(previous, raw)
    ensures alpha == 1.0 ==> r == raw
  {
    var r := raw * alpha + previous * (1.0 - alpha);
    SmoothBetween(alpha, previous, raw, r);
    r
  }

  lemma SmoothBetween(alpha: real, previous: real, raw: real, r: real)
    requires r == raw * alpha + previous * (1.0 - alpha)
    ensures r - raw == (1.0 - alpha) * (previous - raw)
    ensures 0.0 < alpha <= 1.0 ==> Min(previous, raw) <= r <= Max(previous, raw)
  {
    assert r - previous == alpha * (raw - previous);
    if 0.0 < alpha <= 1.0 {
      if previous >= raw {
        MulNonNegative(1.0 - alpha, previous - raw);
        MulNonNegative(alpha, previous - raw);
      } else {
        MulNonNegative(1.0 - alpha, raw - previous);
        MulNonNegative(alpha, raw - previous);
      }
    }
  }

  lemma MulNonNegative(a: real, b: real)
    requires 0.0 <= a && 0.0 <= b
    ensures 0.0 <= a * b && a * (-b) <= 0.0
  {
  }

  /** The smoothed value after feeding the same raw value `n` times. */
  function SmoothRepeated(alpha: real, start: real, raw: real, n: nat): real
  {
    if n == 0 then start else Smooth(alpha, SmoothRepeated(alpha, start, raw, n - 1), raw)
  }

  function Pow(x: real, n: nat): real
  {
    if n == 0 then 1.0 else x * Pow(x, n - 1)
  }

  /** Closed form: the gap to the repeated raw value decays geometrically. */
  lemma {:induction false} SmoothRepeatedGap(alpha: real, start: real, raw: real, n: nat)
    ensures SmoothRepeated(alpha, start, raw, n) - raw == Pow(1.0 - alpha, n) * (start - raw)
  {
    if n > 0 {
      SmoothRepeatedGap(alpha, start, raw, n - 1);
      var prev := SmoothRepeated(alpha, start, raw, n - 1);
      assert SmoothRepeated(alpha, start, raw, n) - raw == (1.0 - alpha) * (prev - raw);
      Regroup(1.0 - alpha, Pow(1.0 - alpha, n - 1), start - raw);
    }
  }

  lemma Regroup(x: real, p: real, d: real)
    ensures x * (p * d) == (x * p) * d
  {
  }

  /** Feeding the same raw value repeatedly moves the smoothed value
      monotonically toward it, never past it. */
  lemma {:induction false} SmoothRepeatedMonotone(alpha: real, start: real, raw: real, n: nat)
    requires 0.0 < alpha <= 1.0
    ensures start <= raw ==>
      SmoothRepeated(alpha, start, raw, n) <= SmoothRepeated(alpha, start, raw, n + 1) <= raw
    ensures raw <= start ==>
      raw <= SmoothRepeated(alpha, start, raw, n + 1) <= SmoothRepeated(alpha, start, raw, n)
  {
    if n > 0 {
      SmoothRepeatedMonotone(alpha, start, raw, n - 1);
    }
  }

  class EnergyCalculator {
    const config: Config
    var prevSkeletons: seq<Point>
    var smoothEnergy: real
    var scaleFactor: real

    ghost predicate Valid()
      reads this
    {
      Configuration.Valid(config) && scaleFactor != 0.0
    }

    constructor (config: Config)
      requires Configuration.Valid(config)
      ensures Valid() && this.config == config
      ensures prevSkeletons == [] && smoothEnergy == 0.0 && scaleFactor == 1.0
    {
      this.config := config;
      prevSkeletons := [];
      smoothEnergy := 0.0;
      scaleFactor := 1.0;
    }

    /** `set_scale_factor`: the ratio processed width / original width. A zero
        factor would make `calculate` divide by zero, so it is excluded. */
    method SetScaleFactor(scaleFactor: real)
      requires Valid() && scaleFactor != 0.0
      modifies this`scaleFactor
      ensures Valid() && this.scaleFactor == scaleFactor
    {
      this.scaleFactor := scaleFactor;
    }

    /** `calculate`: greedy matching against the previous frame, whose hip
        centres are then replaced by the current ones. */
    method Calculate(current: seq<Point>, dist: Distance) returns (energy: real)
      requires Valid()
      modifies this`prevSkeletons
      ensures Valid()
      ensures energy == RawEnergy(old(prevSkeletons), current, dist, config.maxSkeletonMatchDistance, scaleFactor)
      ensures prevSkeletons == current
    {
      if prevSkeletons == [] || current == [] {
        prevSkeletons := current;
        return 0.0;
      }
      var prev := prevSkeletons;
      var totalMovement := 0.0;
      var usedIndices: set<nat> := {};
      var maxDist := config.maxSkeletonMatchDistance;
      var k := 0;
      while k < |current|
        invariant 0 <= k <= |current|
        invariant Greedy(current, prev, dist, maxDist, k).total == totalMovement
        invariant Greedy(current, prev, dist, maxDist, k).used == usedIndices
      {
        var curr := current[k];
        var minDist := 0.0;
        var bestMatch: Option<nat> := None;
        var i := 0;
        while i < |prev|
          invariant 0 <= i <= |prev|
          invariant bestMatch == BestMatch(curr, prev, usedIndices, dist, maxDist, i)
          invariant bestMatch.Some? ==> minDist == dist(curr, prev[bestMatch.value])
        {
          if i !in usedIndices {
            var d := dist(curr, prev[i]);
            if d < maxDist && (bestMatch.None? || d < minDist) {
              minDist := d;
              bestMatch := Some(i);
            }
          }
          i := i + 1;
        }
        if bestMatch.Some? {
          totalMovement := totalMovement + minDist;
          usedIndices := usedIndices + {bestMatch.value};
        }
        k := k + 1;
      }
      prevSkeletons := current;
      if scaleFactor != 1.0 {
        totalMovement := totalMovement * (1.0 / scaleFactor);
      }
      energy := totalMovement;
    }

    /** `update_smooth`. */
    method UpdateSmooth(rawEnergy: real) returns (smoothed: real)
      requires Valid()
      modifies this`smoothEnergy
      ensures Valid()
      ensures smoothEnergy == Smooth(config.energySmoothingFactor, old(smoothEnergy), rawEnergy)
      ensures smoothed == smoothEnergy
    {
      var alpha := config.energySmoothingFactor;
      smoothEnergy := rawEnergy * alpha + smoothEnergy * (1.0 - alpha);
      smoothed := smoothEnergy;
    }

    /** `reset`: forget the previous frame and the smoothed value; the scale
        factor is kept. */
    method Reset()
      requires Valid()
      modifies this`prevSkeletons, this`smoothEnergy
      ensures Valid()
      ensures prevSkeletons == [] && smoothEnergy == 0.0 && scaleFactor == old(scaleFactor)
    {
      prevSkeletons := [];
      smoothEnergy := 0.0;
    }
  }
}
