/**
 * The track statistics of MonoDreams.Examples/System/TrackAnalysisSystem.cs that work on the
 * sampled velocity and distance profiles: finding overtaking opportunities (a long fast straight
 * followed by a strong braking zone), merging nearby ones, and the lap time of a profile.
 *
 * Floats are exact reals; the float literals the code compares against are given their exact
 * single-precision values where that differs from the decimal.
 */
module TrackAnalysis {
  import opened FloatBounds
  import opened Sorting

  datatype Opportunity = Opportunity(
    startPercentage: real, endPercentage: real, straightLength: real, entrySpeed: real,
    exitSpeed: real, speedDifferential: real, quality: real)

  const MinStraightLength: real := 100.0
  /** maxSpeed · minSpeedThreshold, 1000f · 0.4f, which rounds to 400 in single precision. */
  const HighSpeedThreshold: real := 400.0
  const MinSpeedDifferential: real := 200.0
  const SearchWindowSize: int := 80
  /** `(float)0.1` */
  const MergeThreshold: real := 0.100000001490116119384765625
  /** `0.001f` */
  const MinAverageVelocity: real := 0.001000000047497451305389404296875

  function Min1(x: real): real {
    if 1.0 <= x then 1.0 else x
  }

  function Max(a: real, b: real): real {
    if a >= b then a else b
  }

  /** `0.7f` */
  const LengthWeight: real := 0.699999988079071044921875
  /** `0.3f`; with LengthWeight it sums to exactly 1. */
  const SpeedWeight: real := 0.300000011920928955078125

  /** 70% straight length (saturating at 400 units), 30% speed loss (saturating at 500 units/s). */
  function Quality(straightLength: real, speedDifferential: real): real {
    Min1(straightLength / 400.0) * LengthWeight + Min1(speedDifferential / 500.0) * SpeedWeight
  }

  /** What the scan guarantees of every opportunity it adds. */
  predicate WellFormed(o: Opportunity) {
    o.straightLength >= MinStraightLength && o.speedDifferential >= MinSpeedDifferential &&
    o.quality == Quality(o.straightLength, o.speedDifferential) &&
    0.0 <= o.startPercentage < 1.0
  }

  /** What survives merging: the thresholds, a quality between 0.295 and 1, and a start on the track. */
  predicate Bounded(o: Opportunity) {
    o.straightLength >= MinStraightLength && o.speedDifferential >= MinSpeedDifferential &&
    0.295 <= o.quality <= 1.0 && 0.0 <= o.startPercentage < 1.0
  }

  lemma WellFormedIsBounded(o: Opportunity)
    requires WellFormed(o)
    ensures Bounded(o)
  {
    assert Min1(o.straightLength / 400.0) >= 0.25;
    assert Min1(o.speedDifferential / 500.0) >= 0.4;
  }

  /** The opportunity the scan records for a straight from `start` to a braking point. */
  function MakeOpportunity(velocities: seq<real>, start: int, minSpeedIndex: int, straightLength: real,
                           minSpeedAhead: real, speedDifferential: real): Opportunity
    requires 0 <= start < |velocities| && |velocities| > 1
  {
    var samples := |velocities|;
    Opportunity(start as real / (samples - 1) as real, minSpeedIndex as real / (samples - 1) as real,
                straightLength, velocities[start], minSpeedAhead, speedDifferential,
                Quality(straightLength, speedDifferential))
  }

  /** The window search: the least velocity in [from, to) and the first index holding it. */
  method MinInWindow(velocities: seq<real>, from: int, to: int) returns (minSpeed: real, minIndex: int)
    requires 0 <= from <= to <= |velocities|
    ensures minSpeed == MinFrom(FloatMax, velocities[from..to])
    ensures minIndex == -1 ==> minSpeed == FloatMax
    ensures minIndex != -1 ==> from <= minIndex < to && velocities[minIndex] == minSpeed
  {
    minSpeed, minIndex := FloatMax, -1;
    for j := from to to
      invariant minSpeed == MinFrom(FloatMax, velocities[from..j])
      invariant minIndex == -1 ==> minSpeed == FloatMax
      invariant minIndex != -1 ==> from <= minIndex < j && velocities[minIndex] == minSpeed
    {
      assert velocities[from..j + 1][..j - from] == velocities[from..j];
      if velocities[j] < minSpeed {
        minSpeed := velocities[j];
        minIndex := j;
      }
    }
  }

  /**
   * The main loop of AnalyzeOvertakingOpportunities: a straight starts at the first sample at or
   * above the high-speed threshold and ends at the next sample below it; the braking zone is the
   * slowest sample in the 80 samples from there. A straight of at least 100 units losing at least
   * 200 units/s is recorded. Returns the opportunities and the start of a straight still open.
   */
  method ScanStraights(velocities: seq<real>, distances: seq<real>)
    returns (found: seq<Opportunity>, straightStartIndex: int)
    requires |distances| == |velocities| > 10
    ensures forall o :: o in found ==> WellFormed(o)
    ensures -1 <= straightStartIndex < |velocities|
    ensures straightStartIndex != -1 ==> straightStartIndex < |velocities| - SearchWindowSize
  {
    var samples := |velocities|;
    found := [];
    straightStartIndex := -1;
    var i := 0;
    while i < samples - SearchWindowSize
      invariant 0 <= i && (i > 0 ==> i <= samples - SearchWindowSize)
      invariant -1 <= straightStartIndex < i
      invariant forall o :: o in found ==> WellFormed(o)
      decreases samples - SearchWindowSize - i
    {
      if straightStartIndex == -1 && velocities[i] >= HighSpeedThreshold {
        straightStartIndex := i;
      } else if straightStartIndex != -1 {
        if velocities[i] < HighSpeedThreshold {
          var straightLength := distances[i] - distances[straightStartIndex];
          var hi := if i + SearchWindowSize < samples then i + SearchWindowSize else samples;
          var minSpeedAhead, minSpeedIndex := MinInWindow(velocities, i, hi);
          var speedDifferential := velocities[i - 1] - minSpeedAhead;
          if straightLength >= MinStraightLength && speedDifferential >= MinSpeedDifferential {
            var opportunity := MakeOpportunity(velocities, straightStartIndex, minSpeedIndex, straightLength,
                                               minSpeedAhead, speedDifferential);
            StartPercentageBelowOne(straightStartIndex, samples);
            found := found + [opportunity];
          }
          straightStartIndex := -1;
        }
      }
      i := i + 1;
    }
  }

  lemma StartPercentageBelowOne(start: int, samples: int)
    requires 0 <= start < samples - 1
    ensures 0.0 <= start as real / (samples - 1) as real < 1.0
  {
  }

  /** Array.IndexOf: the first index holding x. */
  function IndexOf(xs: seq<real>, x: real): (r: int)
    ensures -1 <= r < |xs|
    ensures r >= 0 ==> xs[r] == x && forall j :: 0 <= j < r ==> xs[j] != x
    ensures r == -1 ==> forall j :: 0 <= j < |xs| ==> xs[j] != x
  {
    if xs == [] then -1
    else if xs[0] == x then 0
    else
      var r := IndexOf(xs[1..], x);
      if r == -1 then -1 else r + 1
  }

  /**
   * A straight still open at the end of the scan, if it began more than ten samples before the
   * end: the track is taken as a loop, so the braking zone is the slowest of the first
   * min(50, samples / 10) samples.
   */
  method EndStraight(velocities: seq<real>, distances: seq<real>, straightStartIndex: int)
    returns (extra: seq<Opportunity>)
    requires |distances| == |velocities| > 10
    requires -1 <= straightStartIndex < |velocities|
    ensures |extra| <= 1
    ensures forall o :: o in extra ==> WellFormed(o)
    ensures straightStartIndex == -1 || straightStartIndex >= |velocities| - 10 ==> extra == []
  {
    var samples := |velocities|;
    extra := [];
    if straightStartIndex != -1 && straightStartIndex < samples - 10 {
      var endIndex := samples - 1;
      var straightLength := distances[endIndex] - distances[straightStartIndex];
      var take := if 50 < samples / 10 then 50 else samples / 10;
      var minSpeedAhead := SeqMin(velocities[..take]);
      var minSpeedIndex := IndexOf(velocities, minSpeedAhead);
      var speedDifferential := velocities[endIndex] - minSpeedAhead;
      if straightLength >= MinStraightLength && speedDifferential >= MinSpeedDifferential {
        StartPercentageBelowOne(straightStartIndex, samples);
        extra := [MakeOpportunity(velocities, straightStartIndex, minSpeedIndex, straightLength,
                                  minSpeedAhead, speedDifferential)];
      }
    }
  }

  /** OrderBy(o => o.StartPercentage) */
  predicate ByStart(a: Opportunity, b: Opportunity) {
    a.startPercentage <= b.startPercentage
  }

  /** OrderByDescending(o => o.Quality) */
  predicate ByQualityDescending(a: Opportunity, b: Opportunity) {
    a.quality >= b.quality
  }

  /** The merge condition: the next one starts within the threshold after, or before, the current end. */
  predicate Near(current: Opportunity, next: Opportunity, threshold: real) {
    next.startPercentage - current.endPercentage <= threshold || next.startPercentage <= current.endPercentage
  }

  /** The current opportunity absorbing the next: the larger end, length, speed loss and quality. */
  function Absorb(current: Opportunity, next: Opportunity): Opportunity {
    current.(endPercentage := Max(current.endPercentage, next.endPercentage),
             straightLength := Max(current.straightLength, next.straightLength),
             speedDifferential := Max(current.speedDifferential, next.speedDifferential),
             quality := Max(current.quality, next.quality))
  }

  /** The merge loop's state: the finished opportunities and the one being extended. */
  datatype MergeState = MergeState(done: seq<Opportunity>, current: Opportunity)

  function MergeStep(s: MergeState, next: Opportunity, threshold: real): MergeState {
    if Near(s.current, next, threshold) then s.(current := Absorb(s.current, next))
    else MergeState(s.done + [s.current], next)
  }

  /** The state after the loop has visited sorted[1..k]. */
  function MergeRun(sorted: seq<Opportunity>, threshold: real, k: int): MergeState
    requires 1 <= k <= |sorted|
  {
    if k == 1 then MergeState([], sorted[0])
    else MergeStep(MergeRun(sorted, threshold, k - 1), sorted[k - 1], threshold)
  }

  /** What MergeNearbyOpportunities returns. */
  function Merged(opportunities: seq<Opportunity>, threshold: real): seq<Opportunity> {
    if |opportunities| <= 1 then opportunities
    else
      var sorted := SortBy(opportunities, ByStart);
      var s := MergeRun(sorted, threshold, |sorted|);
      s.done + [s.current]
  }

  /**
   * MergeNearbyOpportunities: lists of at most one element come back as they are; otherwise the
   * opportunities are taken in start order and each one near the current one is absorbed into it.
   */
  method MergeNearbyOpportunities(opportunities: seq<Opportunity>, threshold: real)
    returns (result: seq<Opportunity>)
    ensures result == Merged(opportunities, threshold)
  {
    if |opportunities| <= 1 {
      return opportunities;
    }
    var sorted := SortBy(opportunities, ByStart);
    result := [];
    var current := sorted[0];
    for i := 1 to |sorted|
      invariant MergeState(result, current) == MergeRun(sorted, threshold, i)
    {
      var next := sorted[i];
      if next.startPercentage - current.endPercentage <= threshold || next.startPercentage <= current.endPercentage {
        current := current.(endPercentage := Max(current.endPercentage, next.endPercentage),
                            straightLength := Max(current.straightLength, next.straightLength),
                            speedDifferential := Max(current.speedDifferential, next.speedDifferential),
                            quality := Max(current.quality, next.quality));
      } else {
        result := result + [current];
        current := next;
      }
    }
    result := result + [current];
  }

  /** Neighbours that stay apart: the later one starts more than the threshold after, and after, the earlier one's end. */
  predicate Apart(a: Opportunity, b: Opportunity, threshold: real) {
    !Near(a, b, threshold)
  }

  predicate Separated(s: seq<Opportunity>, threshold: real) {
    forall i :: 0 <= i < |s| - 1 ==> Apart(s[i], s[i + 1], threshold)
  }

  /** Some opportunity of s has at least quality q. */
  predicate Covered(q: real, s: seq<Opportunity>) {
    exists o :: o in s && q <= o.quality
  }

  lemma {:induction false} MergeRunShape(sorted: seq<Opportunity>, threshold: real, k: int)
    requires 1 <= k <= |sorted|
    ensures var s := MergeRun(sorted, threshold, k);
            |s.done| < k && Separated(s.done + [s.current], threshold)
  {
    if k > 1 {
      MergeRunShape(sorted, threshold, k - 1);
      var s := MergeRun(sorted, threshold, k - 1);
      var t := MergeRun(sorted, threshold, k);
      var before, after := s.done + [s.current], t.done + [t.current];
      if Near(s.current, sorted[k - 1], threshold) {
        forall i | 0 <= i < |after| - 1 ensures Apart(after[i], after[i + 1], threshold) {
          assert after[i] == before[i];
          assert Apart(before[i], before[i + 1], threshold);
          if i + 1 < |after| - 1 {
            assert after[i + 1] == before[i + 1];
          } else {
            assert after[i + 1].startPercentage == before[i + 1].startPercentage;
          }
        }
      } else {
        assert after == before + [sorted[k - 1]];
      }
    }
  }

  lemma {:induction false} MergeRunCovers(sorted: seq<Opportunity>, threshold: real, k: int)
    requires 1 <= k <= |sorted|
    ensures var s := MergeRun(sorted, threshold, k);
            forall j :: 0 <= j < k ==> Covered(sorted[j].quality, s.done + [s.current])
  {
    if k > 1 {
      MergeRunCovers(sorted, threshold, k - 1);
      var s := MergeRun(sorted, threshold, k - 1);
      var t := MergeRun(sorted, threshold, k);
      var before, after := s.done + [s.current], t.done + [t.current];
      forall j | 0 <= j < k ensures Covered(sorted[j].quality, after) {
        if j == k - 1 {
          if Near(s.current, sorted[k - 1], threshold) {
            assert t.current in after;
          } else {
            assert sorted[k - 1] in after;
          }
        } else {
          var o :| o in before && sorted[j].quality <= o.quality;
          if o in s.done {
            assert o in after;
          } else if Near(s.current, sorted[k - 1], threshold) {
            assert t.current in after;
          } else {
            assert o in after;
          }
        }
      }
    }
  }

  lemma AbsorbBounded(a: Opportunity, b: Opportunity)
    requires Bounded(a) && Bounded(b)
    ensures Bounded(Absorb(a, b))
  {
  }

  lemma {:induction false} MergeRunBounded(sorted: seq<Opportunity>, threshold: real, k: int)
    requires 1 <= k <= |sorted|
    requires forall j :: 0 <= j < |sorted| ==> Bounded(sorted[j])
    ensures var s := MergeRun(sorted, threshold, k);
            forall o :: o in s.done + [s.current] ==> Bounded(o)
  {
    if k > 1 {
      MergeRunBounded(sorted, threshold, k - 1);
      var s := MergeRun(sorted, threshold, k - 1);
      if Near(s.current, sorted[k - 1], threshold) {
        AbsorbBounded(s.current, sorted[k - 1]);
      }
    }
  }

  /**
   * The merged list is no longer than its input, no two neighbours in it would merge again, every
   * input's quality is matched or beaten by some merged opportunity, and the bounds on length,
   * speed loss, quality and start survive.
   */
  lemma MergedProperties(opportunities: seq<Opportunity>, threshold: real)
    ensures |Merged(opportunities, threshold)| <= |opportunities|
    ensures Separated(Merged(opportunities, threshold), threshold)
    ensures forall o :: o in opportunities ==> Covered(o.quality, Merged(opportunities, threshold))
    ensures (forall o :: o in opportunities ==> Bounded(o)) ==>
            forall o :: o in Merged(opportunities, threshold) ==> Bounded(o)
  {
    if |opportunities| > 1 {
      var sorted := SortBy(opportunities, ByStart);
      MergeRunShape(sorted, threshold, |sorted|);
      MergeRunCovers(sorted, threshold, |sorted|);
      forall o | o in opportunities ensures Covered(o.quality, Merged(opportunities, threshold)) {
        assert o in multiset(sorted);
        var j :| 0 <= j < |sorted| && sorted[j] == o;
      }
      if forall o :: o in opportunities ==> Bounded(o) {
        forall j | 0 <= j < |sorted| ensures Bounded(sorted[j]) {
          assert sorted[j] in multiset(opportunities);
        }
        MergeRunBounded(sorted, threshold, |sorted|);
      }
    }
  }

  lemma ByQualityDescendingOrders()
    ensures Total(ByQualityDescending) && Transitive(ByQualityDescending)
  {
  }

  /**
   * AnalyzeOvertakingOpportunities: no opportunities from ten samples or fewer; otherwise the
   * scan's finds (plus an open final straight), merged with threshold 0.1, best quality first.
   * The spline argument is unused by the computation.
   */
  method AnalyzeOvertakingOpportunities(velocities: seq<real>, distances: seq<real>)
    returns (result: seq<Opportunity>)
    requires |distances| == |velocities|
    ensures |velocities| <= 10 ==> result == []
    ensures SortedBy(result, ByQualityDescending)
    ensures forall o :: o in result ==> Bounded(o)
  {
    if |velocities| <= 10 || |distances| <= 10 {
      return [];
    }
    var found, straightStartIndex := ScanStraights(velocities, distances);
    var extra := EndStraight(velocities, distances, straightStartIndex);
    var opportunities := found + extra;
    forall o | o in opportunities ensures Bounded(o) {
      WellFormedIsBounded(o);
    }
    opportunities := MergeNearbyOpportunities(opportunities, MergeThreshold);
    MergedProperties(found + extra, MergeThreshold);
    result := SortBy(opportunities, ByQualityDescending);
    ByQualityDescendingOrders();
    SortBySorted(opportunities, ByQualityDescending);
    forall o | o in result ensures Bounded(o) {
      assert o in multiset(opportunities);
    }
  }

  /** Time over one segment at the mean of its two end velocities, or nothing when that is too slow. */
  function SegmentTime(velocities: seq<real>, distances: seq<real>, i: int): real
    requires |distances| == |velocities| && 1 <= i < |velocities|
  {
    var avgVelocity := (velocities[i] + velocities[i - 1]) / 2.0;
    if avgVelocity > MinAverageVelocity then (distances[i] - distances[i - 1]) / avgVelocity else 0.0
  }

  /** The total time of segments 1 .. k - 1. */
  function LapTimeUpTo(velocities: seq<real>, distances: seq<real>, k: int): real
    requires |distances| == |velocities| && 1 <= k <= |velocities|
  {
    if k == 1 then 0.0 else LapTimeUpTo(velocities, distances, k - 1) + SegmentTime(velocities, distances, k - 1)
  }

  /** CalculateLapTime: 0 for profiles of one sample or less or of different lengths, else the sum of segment times. */
  method CalculateLapTime(velocityProfile: seq<real>, distanceProfile: seq<real>) returns (totalTime: real)
    ensures |velocityProfile| <= 1 || |distanceProfile| <= 1 || |velocityProfile| != |distanceProfile| ==> totalTime == 0.0
    ensures |velocityProfile| > 1 && |velocityProfile| == |distanceProfile| ==>
      totalTime == LapTimeUpTo(velocityProfile, distanceProfile, |velocityProfile|)
  {
    if |velocityProfile| <= 1 || |distanceProfile| <= 1 || |velocityProfile| != |distanceProfile| {
      return 0.0;
    }
    totalTime := 0.0;
    for i := 1 to |velocityProfile|
      invariant totalTime == LapTimeUpTo(velocityProfile, distanceProfile, i)
    {
      var segmentDistance := distanceProfile[i] - distanceProfile[i - 1];
      var avgVelocity := (velocityProfile[i] + velocityProfile[i - 1]) / 2.0;
      if avgVelocity > MinAverageVelocity {
        totalTime := totalTime + segmentDistance / avgVelocity;
      }
    }
  }

  /** Along a profile whose distances never decrease, the lap time is never negative. */
  lemma {:induction false} LapTimeNonNegative(velocities: seq<real>, distances: seq<real>, k: int)
    requires |distances| == |velocities| && 1 <= k <= |velocities|
    requires forall i :: 1 <= i < |distances| ==> distances[i - 1] <= distances[i]
    ensures LapTimeUpTo(velocities, distances, k) >= 0.0
  {
    if k > 1 {
      LapTimeNonNegative(velocities, distances, k - 1);
      var avgVelocity := (velocities[k - 1] + velocities[k - 2]) / 2.0;
      if avgVelocity > MinAverageVelocity {
        QuotientNonNegative(distances[k - 1] - distances[k - 2], avgVelocity);
      }
    }
  }

  lemma QuotientNonNegative(a: real, b: real)
    requires a >= 0.0 && b > 0.0
    ensures a / b >= 0.0
  {
  }

  /** At one constant speed above the cut-off, the lap time is the distance covered over that speed. */
  lemma {:induction false} ConstantSpeedLapTime(velocities: seq<real>, distances: seq<real>, k: int, speed: real)
    requires |distances| == |velocities| && 1 <= k <= |velocities|
    requires speed > MinAverageVelocity
    requires forall i :: 0 <= i < |velocities| ==> velocities[i] == speed
    ensures LapTimeUpTo(velocities, distances, k) == (distances[k - 1] - distances[0]) / speed
  {
    if k > 1 {
      ConstantSpeedLapTime(velocities, distances, k - 1, speed);
      assert (velocities[k - 1] + velocities[k - 2]) / 2.0 == speed;
      QuotientsAdd(distances[k - 2] - distances[0], distances[k - 1] - distances[k - 2], speed);
    }
  }

  lemma QuotientsAdd(a: real, b: real, c: real)
    requires c > 0.0
    ensures a / c + b / c == (a + b) / c
  {
  }
}
