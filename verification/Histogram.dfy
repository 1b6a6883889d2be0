/** Quantiles of a cumulative histogram by linear interpolation, as the server and as the runner compute them. */
module Histogram {
  import opened Common

  datatype Bound = Finite(le: real) | Inf

  datatype Bucket = Bucket(bound: Bound, count: real)

  /** The number of finite buckets: all of them, but for a final +Inf. */
  function Fin(b: seq<Bucket>): nat {
    if b != [] && b[|b| - 1].bound == Inf then |b| - 1 else |b|
  }

  /** What the parser returns: distinct bounds in order, so +Inf only at the end; possibly no bucket at all. */
  predicate Sorted(b: seq<Bucket>) {
    && (forall i | 0 <= i < Fin(b) :: b[i].bound.Finite?)
    && (forall i, j | 0 <= i < j < Fin(b) :: b[i].bound.le < b[j].bound.le)
  }

  /** A histogram as the exposition format defines it: positive bounds and cumulative counts. */
  predicate WellFormed(b: seq<Bucket>) {
    && Sorted(b)
    && (forall i | 0 <= i < Fin(b) :: b[i].bound.le > 0.0)
    && (forall i | 0 <= i < |b| :: b[i].count >= 0.0)
    && (forall i, j | 0 <= i <= j < |b| :: b[i].count <= b[j].count)
  }

  function Total(b: seq<Bucket>): real {
    if b == [] then 0.0 else b[|b| - 1].count
  }

  /** The boundary and the count below bucket i. */
  function LowBound(b: seq<Bucket>, i: nat): real
    requires Sorted(b) && i <= Fin(b)
  {
    if i == 0 then 0.0 else b[i - 1].bound.le
  }

  function LowCount(b: seq<Bucket>, i: nat): real
    requires i <= Fin(b)
  {
    if i == 0 then 0.0 else b[i - 1].count
  }

  /** Bucket i is where the cumulative count first reaches the target; the number of finite buckets if none does. */
  predicate FirstReach(b: seq<Bucket>, target: real, i: nat) {
    && i <= Fin(b)
    && (forall j | 0 <= j < i :: b[j].count < target)
    && (i < Fin(b) ==> b[i].count >= target)
  }

  function ReachFrom(b: seq<Bucket>, target: real, i: nat): (k: nat)
    requires i <= Fin(b) && forall j | 0 <= j < i :: b[j].count < target
    ensures FirstReach(b, target, k)
    decreases Fin(b) - i
  {
    if i == Fin(b) || b[i].count >= target then i else ReachFrom(b, target, i + 1)
  }

  lemma FirstReachUnique(b: seq<Bucket>, target: real, i: nat, j: nat)
    requires FirstReach(b, target, i) && FirstReach(b, target, j)
    ensures i == j
  {
  }

  lemma BelowTarget(b: seq<Bucket>, target: real, i: nat)
    requires WellFormed(b) && target > 0.0 && FirstReach(b, target, i)
    ensures LowCount(b, i) < target
    ensures i < Fin(b) ==> LowCount(b, i) < b[i].count && LowBound(b, i) < b[i].bound.le
    ensures LowBound(b, i) >= 0.0 && (i > 0 ==> LowBound(b, i) > 0.0)
  {
  }

  /** The point of the line from (lowCount, low) to (count, high) at `target`. */
  function Lerp(low: real, high: real, lowCount: real, count: real, target: real): real
    requires lowCount != count
  {
    low + (target - lowCount) / (count - lowCount) * (high - low)
  }

  /** The value at a positive target, in seconds. */
  function Value(b: seq<Bucket>, target: real): real
    requires WellFormed(b) && target > 0.0
  {
    var i := ReachFrom(b, target, 0);
    BelowTarget(b, target, i);
    if i == Fin(b) then LowBound(b, i)
    else Lerp(LowBound(b, i), b[i].bound.le, LowCount(b, i), b[i].count, target)
  }

  // ------------------------------------------------------------------- properties

  lemma Share(x: real, y: real, d: real, w: real)
    requires 0.0 <= x <= y <= d && d > 0.0 && w >= 0.0
    ensures 0.0 <= x / d * w <= y / d * w <= w
  {
    assert 0.0 <= x / d <= y / d <= 1.0;
  }

  lemma LerpMonotone(low: real, high: real, lowCount: real, count: real, s: real, t: real)
    requires lowCount <= s <= t <= count && lowCount < count && low <= high
    ensures low <= Lerp(low, high, lowCount, count, s) <= Lerp(low, high, lowCount, count, t) <= high
  {
    var w := high - low;
    Share(s - lowCount, t - lowCount, count - lowCount, w);
    assert Lerp(low, high, lowCount, count, s) == low + (s - lowCount) / (count - lowCount) * w;
    assert Lerp(low, high, lowCount, count, t) == low + (t - lowCount) / (count - lowCount) * w;
  }

  /** The value lies in the bucket where the count first reaches the target, on the line through its two ends, or is the
      largest finite bound. */
  lemma ValueInBucket(b: seq<Bucket>, target: real)
    requires WellFormed(b) && target > 0.0
    ensures var i := ReachFrom(b, target, 0);
            if i == Fin(b) then Value(b, target) == LowBound(b, Fin(b))
            else
              && LowBound(b, i) <= Value(b, target) <= b[i].bound.le
              && (Value(b, target) - LowBound(b, i)) * (b[i].count - LowCount(b, i))
                 == (target - LowCount(b, i)) * (b[i].bound.le - LowBound(b, i))
  {
    var i := ReachFrom(b, target, 0);
    BelowTarget(b, target, i);
    if i < Fin(b) {
      LerpMonotone(LowBound(b, i), b[i].bound.le, LowCount(b, i), b[i].count, target, target);
      LerpOnLine(LowBound(b, i), b[i].bound.le, LowCount(b, i), b[i].count, target);
    }
  }

  /** A larger target never gives a smaller value. */
  lemma ValueMonotone(b: seq<Bucket>, s: real, t: real)
    requires WellFormed(b) && 0.0 < s <= t
    ensures Value(b, s) <= Value(b, t)
  {
    var i, j := ReachFrom(b, s, 0), ReachFrom(b, t, 0);
    ReachMonotone(b, s, t);
    BelowTarget(b, s, i);
    if i == j {
      if i < Fin(b) {
        LerpMonotone(LowBound(b, i), b[i].bound.le, LowCount(b, i), b[i].count, s, t);
      }
    } else {
      ValueInBucket(b, s);
      ValueInBucket(b, t);
      assert b[i].bound.le <= LowBound(b, j);
    }
  }

  lemma ReachMonotone(b: seq<Bucket>, s: real, t: real)
    requires s <= t
    ensures ReachFrom(b, s, 0) <= ReachFrom(b, t, 0)
  {
  }

  // --------------------------------------------------------------- the two results

  /** Where interpolation ends up in bucket i; `flat` is the answer where the count does not rise. */
  function InBucket(b: seq<Bucket>, target: real, i: nat, flat: real): real
    requires Sorted(b) && i < Fin(b)
  {
    if b[i].count == LowCount(b, i) then flat
    else Lerp(LowBound(b, i), b[i].bound.le, LowCount(b, i), b[i].count, target)
  }

  /** What the server makes of a target, in milliseconds, whatever the counts: the lower end of a flat bucket, and
      nothing when no finite bucket reaches the target and the largest bound is not positive. */
  function ServerAt(b: seq<Bucket>, target: real): Option<real>
    requires Sorted(b)
  {
    var i := ReachFrom(b, target, 0);
    if i < Fin(b) then Some(InBucket(b, target, i, LowBound(b, i)) * 1000.0)
    else if LowBound(b, i) > 0.0 then Some(LowBound(b, i) * 1000.0)
    else None
  }

  /** What the runner makes of it: the upper end of a flat bucket, and the largest bound, or 0 ms, past all buckets. */
  function RunnerAt(b: seq<Bucket>, target: real): Option<real>
    requires Sorted(b)
  {
    var i := ReachFrom(b, target, 0);
    if i < Fin(b) then Some(InBucket(b, target, i, b[i].bound.le) * 1000.0)
    else Some(LowBound(b, i) * 1000.0)
  }

  function ServerResult(b: seq<Bucket>, quantile: real): Option<real>
    requires Sorted(b)
  {
    if Total(b) == 0.0 then None else ServerAt(b, quantile * Total(b))
  }

  function RunnerResult(b: seq<Bucket>, quantile: real): Option<real>
    requires Sorted(b)
  {
    if Total(b) == 0.0 then None else RunnerAt(b, quantile * Total(b))
  }

  /** The count does not rise in the bucket that reaches the target, or no finite bucket reaches it and the largest
      bound is not positive. */
  predicate Disputed(b: seq<Bucket>, target: real)
    requires Sorted(b)
  {
    var i := ReachFrom(b, target, 0);
    if i < Fin(b) then b[i].count == LowCount(b, i) && LowBound(b, i) != b[i].bound.le
    else LowBound(b, i) <= 0.0
  }

  /** Whatever the counts, this is all they disagree on. */
  lemma AgreeExactly(b: seq<Bucket>, quantile: real)
    requires Sorted(b)
    ensures ServerResult(b, quantile) == RunnerResult(b, quantile) <==>
            Total(b) == 0.0 || !Disputed(b, quantile * Total(b))
  {
  }

  /** The point is on the line. */
  lemma LerpOnLine(low: real, high: real, lowCount: real, count: real, target: real)
    requires lowCount != count
    ensures (Lerp(low, high, lowCount, count, target) - low) * (count - lowCount) == (target - lowCount) * (high - low)
  {
    var d, w := count - lowCount, high - low;
    var x := (target - lowCount) / d;
    assert x * d == target - lowCount;
    assert (x * w) * d == (x * d) * w;
  }

  /** What the two report, in terms of the buckets. Let bucket i be the first whose count is at least the target. Where
      the count rises in it, both report the point of its line at the target; where it does not, the server its lower
      end and the runner its upper end. If no finite bucket reaches the target, both report the largest bound, but the
      server nothing if that is not positive. Without samples both report nothing. */
  lemma ReportsMean(b: seq<Bucket>, quantile: real, i: nat) returns (v: real)
    requires Sorted(b) && FirstReach(b, quantile * Total(b), i)
    ensures b == [] || b[|b| - 1].count == 0.0 ==> ServerResult(b, quantile) == None && RunnerResult(b, quantile) == None
    ensures b != [] && b[|b| - 1].count != 0.0 ==>
              var target := quantile * b[|b| - 1].count;
              var s, r := ServerResult(b, quantile), RunnerResult(b, quantile);
              var low, lowCount := if i == 0 then 0.0 else b[i - 1].bound.le, if i == 0 then 0.0 else b[i - 1].count;
              if i == Fin(b) then r == Some(low * 1000.0) && s == (if low > 0.0 then r else None)
              else if b[i].count == lowCount then s == Some(low * 1000.0) && r == Some(b[i].bound.le * 1000.0)
              else s == r == Some(v * 1000.0) && (v - low) * (b[i].count - lowCount) == (target - lowCount) * (b[i].bound.le - low)
  {
    FirstReachUnique(b, quantile * Total(b), ReachFrom(b, quantile * Total(b), 0), i);
    v := 0.0;
    if i < Fin(b) && b[i].count != LowCount(b, i) {
      v := Lerp(LowBound(b, i), b[i].bound.le, LowCount(b, i), b[i].count, quantile * Total(b));
      LerpOnLine(LowBound(b, i), b[i].bound.le, LowCount(b, i), b[i].count, quantile * Total(b));
    }
  }

  lemma Fifteen(b: seq<Bucket>)
    requires Total(b) == 20.0
    ensures 0.75 * Total(b) == 15.0
  {
  }

  /** Three quarters through two buckets of ten samples each, from 0 to 1 and from 1 to 2 seconds: 1500 ms. */
  lemma ThreeQuarters()
    ensures var b := [Bucket(Finite(1.0), 10.0), Bucket(Finite(2.0), 20.0), Bucket(Inf, 20.0)];
            WellFormed(b) && ServerResult(b, 0.75) == Some(1500.0) && RunnerResult(b, 0.75) == Some(1500.0)
  {
    var b := [Bucket(Finite(1.0), 10.0), Bucket(Finite(2.0), 20.0), Bucket(Inf, 20.0)];
    Fifteen(b);
    assert FirstReach(b, 15.0, 1);
    FirstReachUnique(b, 15.0, ReachFrom(b, 15.0, 0), 1);
    assert Lerp(1.0, 2.0, 10.0, 20.0, 15.0) == 1.5;
  }

  lemma Positive(x: real, y: real)
    requires x > 0.0 && y > 0.0
    ensures x * y > 0.0
  {
  }

  /** Of a well-formed histogram and a positive target both report the interpolated value, but that without a finite
      bucket the server reports nothing. */
  lemma BothReportValue(b: seq<Bucket>, target: real)
    requires WellFormed(b) && target > 0.0
    ensures RunnerAt(b, target) == Some(Value(b, target) * 1000.0)
    ensures ServerAt(b, target) == if Fin(b) > 0 then RunnerAt(b, target) else None
    ensures Disputed(b, target) <==> Fin(b) == 0
  {
    BelowTarget(b, target, ReachFrom(b, target, 0));
  }

  lemma DisputedAtZero(b: seq<Bucket>, target: real)
    requires WellFormed(b) && target <= 0.0
    ensures Disputed(b, target) <==> Fin(b) == 0 || b[0].count == 0.0
  {
    ReachedAtOnce(b, target);
  }

  /** Of a well-formed histogram the two agree if and only if it has no samples, or it has a finite bucket and, for a
      quantile of 0 or less, its first bucket is not empty. */
  lemma ServerAndRunnerAgree(b: seq<Bucket>, quantile: real)
    requires WellFormed(b)
    ensures ServerResult(b, quantile) == RunnerResult(b, quantile) <==>
            Total(b) == 0.0 || (Fin(b) > 0 && (quantile > 0.0 || b[0].count > 0.0))
  {
    AgreeExactly(b, quantile);
    if Total(b) > 0.0 {
      if quantile > 0.0 {
        Positive(quantile, Total(b));
        BothReportValue(b, quantile * Total(b));
      } else {
        Scale(quantile, 0.0, Total(b));
        DisputedAtZero(b, quantile * Total(b));
      }
    }
  }

  /** A target of 0 or less is reached by the first bucket. */
  lemma ReachedAtOnce(b: seq<Bucket>, target: real)
    requires WellFormed(b) && target <= 0.0
    ensures ReachFrom(b, target, 0) == 0
  {
  }

  lemma TargetMonotone(b: seq<Bucket>, p: real, q: real)
    requires 0.0 < p <= q && Total(b) > 0.0
    ensures 0.0 < p * Total(b) <= q * Total(b)
  {
    Positive(p, Total(b));
    Scale(p, q, Total(b));
  }

  lemma ServerAtMonotone(b: seq<Bucket>, s: real, t: real)
    requires WellFormed(b) && 0.0 < s <= t && Fin(b) > 0
    ensures ServerAt(b, s).Some? && ServerAt(b, t).Some? && ServerAt(b, s).value <= ServerAt(b, t).value
  {
    BothReportValue(b, s);
    BothReportValue(b, t);
    ValueMonotone(b, s, t);
  }

  /** Where there are samples and a finite bucket, a larger quantile never reports less. */
  lemma QuantileMonotone(b: seq<Bucket>, p: real, q: real)
    requires WellFormed(b) && 0.0 < p <= q && Total(b) > 0.0 && Fin(b) > 0
    ensures ServerResult(b, p).Some? && ServerResult(b, q).Some?
    ensures ServerResult(b, p).value <= ServerResult(b, q).value
  {
    TargetMonotone(b, p, q);
    ServerAtMonotone(b, p * Total(b), q * Total(b));
  }

  lemma Scale(x: real, y: real, w: real)
    requires x <= y && w >= 0.0
    ensures x * w <= y * w
  {
  }

  // -------------------------------------------------------------------- the code

  /** orca_server/monitoring.py */
  method ServerQuantile(b: seq<Bucket>, quantile: real) returns (r: Option<real>)
    requires Sorted(b)
    ensures r == ServerResult(b, quantile)
  {
    if Total(b) == 0.0 {
      return None;
    }
    var target := quantile * Total(b);
    var prevLe, prevCount := 0.0, 0.0;
    var i := 0;
    while i < |b|
      invariant 0 <= i <= Fin(b)
      invariant prevLe == LowBound(b, i) && prevCount == LowCount(b, i)
      invariant forall j | 0 <= j < i :: b[j].count < target
    {
      if b[i].bound == Inf {
        break;
      }
      var le, count := b[i].bound.le, b[i].count;
      if count >= target {
        FirstReachUnique(b, target, ReachFrom(b, target, 0), i);
        var result;
        if count == prevCount {
          result := prevLe;
        } else {
          result := Lerp(prevLe, le, prevCount, count, target);
        }
        return Some(result * 1000.0);
      }
      prevLe, prevCount := le, count;
      i := i + 1;
    }
    FirstReachUnique(b, target, ReachFrom(b, target, 0), Fin(b));
    return if prevLe > 0.0 then Some(prevLe * 1000.0) else None;
  }

  /** templates/vllm_batch_runner_chunked.py */
  method RunnerQuantile(b: seq<Bucket>, quantile: real) returns (r: Option<real>)
    requires Sorted(b)
    ensures r == RunnerResult(b, quantile)
  {
    if Total(b) == 0.0 {
      return None;
    }
    var target := quantile * Total(b);
    var prevLe, prevCount := 0.0, 0.0;
    var i := 0;
    while i < |b|
      invariant 0 <= i <= |b|
      invariant i <= Fin(b) ==> prevLe == LowBound(b, i) && prevCount == LowCount(b, i)
      invariant i > Fin(b) ==> prevLe == LowBound(b, Fin(b))
      invariant forall j | 0 <= j < i && j < Fin(b) :: b[j].count < target
    {
      if b[i].bound == Inf {
        assert i == Fin(b);
        if b[i].count >= target && prevCount < target {
          FirstReachUnique(b, target, ReachFrom(b, target, 0), Fin(b));
          return Some(prevLe * 1000.0);
        }
      } else {
        var le, count := b[i].bound.le, b[i].count;
        if count >= target {
          FirstReachUnique(b, target, ReachFrom(b, target, 0), i);
          if count == prevCount {
            return Some(le * 1000.0);
          }
          return Some(Lerp(prevLe, le, prevCount, count, target) * 1000.0);
        }
        prevLe, prevCount := le, count;
      }
      i := i + 1;
    }
    FirstReachUnique(b, target, ReachFrom(b, target, 0), Fin(b));
    return Some(prevLe * 1000.0);
  }
}
