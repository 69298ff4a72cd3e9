/**
 * The race track score (MonoDreams.Examples/Component/TrackScoreComponent.cs): a score from top
 * speed and overtaking spots, and a grade from four ascending thresholds.
 */
module TrackScore {
  import opened Wrappers
  import opened Numerics

  /** Grade, best first as in the enum. */
  datatype Grade = Platinum | Gold | Silver | Bronze

  /** The grade as a number of thresholds met: null 0, Bronze 1 ... Platinum 4. */
  function Rank(g: Option<Grade>): nat {
    match g
    case None => 0
    case Some(Bronze) => 1
    case Some(Silver) => 2
    case Some(Gold) => 3
    case Some(Platinum) => 4
  }

  /**
   * CalculateGrade: the best grade whose threshold the score reaches, checking thresholds[3] down
   * to thresholds[0]; null below them all.
   */
  function CalculateGrade(thresholds: seq<int>, score: int): (g: Option<Grade>)
    requires |thresholds| >= 4
    ensures g == Some(Platinum) <==> score >= thresholds[3]
    ensures g == Some(Gold) <==> thresholds[2] <= score < thresholds[3]
    ensures g == Some(Silver) <==> thresholds[1] <= score < thresholds[2] && score < thresholds[3]
    ensures g == Some(Bronze) <==> thresholds[0] <= score < thresholds[1] && score < thresholds[2] && score < thresholds[3]
    ensures g.None? <==> score < thresholds[0] && score < thresholds[1] && score < thresholds[2] && score < thresholds[3]
  {
    if score >= thresholds[3] then Some(Platinum)
    else if score >= thresholds[2] then Some(Gold)
    else if score >= thresholds[1] then Some(Silver)
    else if score >= thresholds[0] then Some(Bronze)
    else None
  }

  /** How many of thresholds[0..k] the score reaches. */
  function ThresholdsMet(thresholds: seq<int>, score: int, k: nat): nat
    requires k <= |thresholds|
  {
    if k == 0 then 0
    else ThresholdsMet(thresholds, score, k - 1) + (if score >= thresholds[k - 1] then 1 else 0)
  }

  predicate Ascending(thresholds: seq<int>)
    requires |thresholds| >= 4
  {
    thresholds[0] <= thresholds[1] <= thresholds[2] <= thresholds[3]
  }

  /** With ascending thresholds, the grade counts the thresholds the score reaches. */
  lemma GradeCountsThresholdsMet(thresholds: seq<int>, score: int)
    requires |thresholds| >= 4 && Ascending(thresholds)
    ensures Rank(CalculateGrade(thresholds, score)) == ThresholdsMet(thresholds, score, 4)
  {
    assert ThresholdsMet(thresholds, score, 1) == (if score >= thresholds[0] then 1 else 0);
    assert ThresholdsMet(thresholds, score, 2) == ThresholdsMet(thresholds, score, 1) + (if score >= thresholds[1] then 1 else 0);
    assert ThresholdsMet(thresholds, score, 3) == ThresholdsMet(thresholds, score, 2) + (if score >= thresholds[2] then 1 else 0);
  }

  /** A higher score never earns a lower grade, whatever the thresholds. */
  lemma GradeMonotone(thresholds: seq<int>, s1: int, s2: int)
    requires |thresholds| >= 4 && s1 <= s2
    ensures Rank(CalculateGrade(thresholds, s1)) <= Rank(CalculateGrade(thresholds, s2))
  {
  }

  class TrackScoreComponent {
    const scoreThresholds: seq<int>
    var topSpeed: int
    var overtakingSpots: int
    var score: int
    var currentGrade: Option<Grade>

    constructor(thresholds: seq<int>)
      ensures scoreThresholds == thresholds
      ensures topSpeed == 0 && overtakingSpots == 0 && score == 0 && currentGrade == None
    {
      scoreThresholds := thresholds;
      topSpeed, overtakingSpots, score := 0, 0, 0;
      currentGrade := None;
    }

    /**
     * UpdateScore: top speed is divided by 5 with C# truncation, the score is the int32 product
     * (wrapping on overflow as unchecked C# does), and the grade follows the score. With fewer than
     * four thresholds CalculateGrade's first index throws after the three fields are assigned;
     * `thrown` reports that and the grade is left as it was.
     */
    method UpdateScore(topSpeed: int, overtakingSpots: int) returns (thrown: bool)
      requires IsInt32(topSpeed) && IsInt32(overtakingSpots)
      modifies this
      ensures this.topSpeed == TruncDiv(topSpeed, 5)
      ensures this.overtakingSpots == overtakingSpots
      ensures score == WrapInt32(this.topSpeed * overtakingSpots)
      ensures thrown <==> |scoreThresholds| < 4
      ensures !thrown ==> currentGrade == CalculateGrade(scoreThresholds, score)
      ensures thrown ==> currentGrade == old(currentGrade)
    {
      this.topSpeed := TruncDiv(topSpeed, 5);
      this.overtakingSpots := overtakingSpots;
      score := WrapInt32(this.topSpeed * this.overtakingSpots);
      if |scoreThresholds| < 4 {
        return true;
      }
      currentGrade := CalculateGrade(scoreThresholds, score);
      thrown := false;
    }
  }

  /** Without overflow, the score is exactly the truncated speed times the spots. */
  lemma ScoreWithoutOverflow(topSpeed: int, overtakingSpots: int)
    requires 0 <= topSpeed <= 5000 && 0 <= overtakingSpots <= 100000
    ensures WrapInt32(TruncDiv(topSpeed, 5) * overtakingSpots) == (topSpeed / 5) * overtakingSpots
  {
    var q := topSpeed / 5;
    assert 0 <= q <= 1000;
    assert 0 <= q * overtakingSpots <= 1000 * 100000 by {
      assert q * overtakingSpots <= 1000 * overtakingSpots;
    }
  }

  /**
   * C# division rounds toward zero, so for a negative speed that 5 does not divide, TopSpeed is one
   * more than floor division would give (-7 / 5 is -1, not -2).
   */
  lemma SpeedDivisionTruncates(topSpeed: int)
    ensures TruncDiv(topSpeed, 5) == topSpeed / 5 + (if topSpeed < 0 && topSpeed % 5 != 0 then 1 else 0)
  {
    if topSpeed < 0 {
      var q, r := (-topSpeed) / 5, (-topSpeed) % 5;
      assert -topSpeed == 5 * q + r;
      if r == 0 {
        assert topSpeed == 5 * (-q);
      } else {
        assert topSpeed == 5 * (-q - 1) + (5 - r);
      }
    }
  }
}
