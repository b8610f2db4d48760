/** The three-tier rating the coach attaches to a session score. */
module Ratings {

  /** "Tốt", "Trung bình" and "Cần điều chỉnh" in the application. */
  datatype Rating = Good | Average | NeedsAdjustment {
    /** The label the application stores in the log. */
    function Label(): string {
      match this
      case Good => "Tốt"
      case Average => "Trung bình"
      case NeedsAdjustment => "Cần điều chỉnh"
    }

    /** Position of the rating from worst (0) to best (2). */
    function Rank(): nat {
      match this
      case NeedsAdjustment => 0
      case Average => 1
      case Good => 2
    }
  }

  const GoodThreshold: int := 80
  const AverageThreshold: int := 60

  /** The rating of a score: total, inclusive at 80 and at 60. */
  function Rate(score: int): (r: Rating)
    ensures r == Good <==> score >= GoodThreshold
    ensures r == Average <==> AverageThreshold <= score < GoodThreshold
    ensures r == NeedsAdjustment <==> score < AverageThreshold
  {
    if score >= GoodThreshold then Good
    else if score >= AverageThreshold then Average
    else NeedsAdjustment
  }

  /** A higher score never yields a worse rating. */
  lemma RateMonotone(s1: int, s2: int)
    requires s1 <= s2
    ensures Rate(s1).Rank() <= Rate(s2).Rank()
  {
  }

  /** The boundaries are inclusive: 80 is Good, 79 and 60 are Average,
      59 needs adjustment. */
  lemma RateBoundaries()
    ensures Rate(80) == Good && Rate(79) == Average
    ensures Rate(60) == Average && Rate(59) == NeedsAdjustment
  {
  }

  /** The labels stored in the log tell the three ratings apart. */
  lemma LabelsDistinct(a: Rating, b: Rating)
    ensures a.Label() == b.Label() <==> a == b
  {
  }
}
