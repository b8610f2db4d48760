/** The session-scoring engine: every rule set is a list of point awards,
    each earned when its inclusive threshold test holds, and a score is the
    sum of the awards earned. */
module Scoring {
  import opened Ratings

  /** The measured attributes of one run. Pace is minutes per kilometre,
      kept exact so that thresholds such as 6.20 compare exactly. */
  datatype Measurements = Measurements(
    pace: real,
    hr: int,
    spo2Before: int,
    spo2After: int,
    rpe: int)

  /** The three kinds of session in the training plan. */
  datatype SessionType = Tempo | Interval | LongRun {
    /** The label the plan table and the session selector use. */
    function Name(): string {
      match this
      case Tempo => "Tempo"
      case Interval => "Interval"
      case LongRun => "Long run"
    }
  }

  /** A fixed number of points, earned when `holds`. */
  datatype Award = Award(holds: bool, points: nat)

  /** Points available from a list of awards. */
  function Possible(awards: seq<Award>): nat {
    if awards == [] then 0 else awards[0].points + Possible(awards[1..])
  }

  /** Points earned: the sum over exactly the awards whose test holds. */
  function Earned(awards: seq<Award>): (r: nat)
    ensures r <= Possible(awards)
  {
    if awards == [] then 0
    else (if awards[0].holds then awards[0].points else 0) + Earned(awards[1..])
  }

  /** Tempo rules: HR in [135,160] +30, RPE in [4,6] +30,
      pace in [6.20,6.45] +30, SpO2 after >= 94 +10. */
  function TempoAwards(m: Measurements): (a: seq<Award>)
    ensures |a| == 4 && Possible(a) == 100
  {
    var a := [ Award(135 <= m.hr <= 160, 30),
              Award(4 <= m.rpe <= 6, 30),
              Award(6.20 <= m.pace <= 6.45, 30),
              Award(m.spo2After >= 94, 10) ];
    SumOfFour(a);
    a
  }

  /** Interval rules: HR > 155 +35, RPE in [7,9] +35,
      SpO2 after >= 93 with a signed drop of at most 3 +20,
      pace in [6.10,6.30] +10. */
  function IntervalAwards(m: Measurements): (a: seq<Award>)
    ensures |a| == 4 && Possible(a) == 100
  {
    var a := [ Award(m.hr > 155, 35),
              Award(7 <= m.rpe <= 9, 35),
              Award(m.spo2After >= 93 && m.spo2Before - m.spo2After <= 3, 20),
              Award(6.10 <= m.pace <= 6.30, 10) ];
    SumOfFour(a);
    a
  }

  /** Absolute value, as Python's abs on integers. */
  function Abs(x: int): nat {
    if x < 0 then -x else x
  }

  /** Long-run rules: HR in [125,145] +30, SpO2 after >= 94 with an absolute
      difference of at most 2 +30, RPE in [3,5] +30, pace in [6.45,7.20] +10. */
  function LongRunAwards(m: Measurements): (a: seq<Award>)
    ensures |a| == 4 && Possible(a) == 100
  {
    var a := [ Award(125 <= m.hr <= 145, 30),
              Award(m.spo2After >= 94 && Abs(m.spo2Before - m.spo2After) <= 2, 30),
              Award(3 <= m.rpe <= 5, 30),
              Award(6.45 <= m.pace <= 7.20, 10) ];
    SumOfFour(a);
    a
  }

  /** Uniform rules: HR in [130,168] +40, SpO2 after >= 94 with a signed
      drop of at most 2 +30, RPE <= 6 +20, pace in [5.85,7.15] +10. */
  function UniformAwards(m: Measurements): (a: seq<Award>)
    ensures |a| == 4 && Possible(a) == 100
  {
    var a := [ Award(130 <= m.hr <= 168, 40),
              Award(m.spo2After >= 94 && m.spo2Before - m.spo2After <= 2, 30),
              Award(m.rpe <= 6, 20),
              Award(5.85 <= m.pace <= 7.15, 10) ];
    SumOfFour(a);
    a
  }

  /** The award list of the type-specific rule set for `kind`. */
  function TypeAwards(kind: SessionType, m: Measurements): seq<Award> {
    match kind
    case Tempo => TempoAwards(m)
    case Interval => IntervalAwards(m)
    case LongRun => LongRunAwards(m)
  }

  /** Score of a session under the rule set of its type. */
  function TypeScore(kind: SessionType, m: Measurements): (r: nat)
    ensures r <= 100
  {
    Earned(TypeAwards(kind, m))
  }

  /** Score of a session under the uniform rule set. */
  function UniformScore(m: Measurements): (r: nat)
    ensures r <= 100
  {
    Earned(UniformAwards(m))
  }

  /** The dispatch on the plan's type label: "Tempo" and "Interval" select
      their own rules and every other label the long-run rules. */
  function ScorerFor(typeName: string): (kind: SessionType)
    ensures kind == Tempo <==> typeName == Tempo.Name()
    ensures kind == Interval <==> typeName == Interval.Name()
  {
    if typeName == "Tempo" then Tempo
    else if typeName == "Interval" then Interval
    else LongRun
  }

  /** Every plan type label dispatches to the rules of its own type. */
  lemma ScorerForName(kind: SessionType)
    ensures ScorerFor(kind.Name()) == kind
  {
  }

  /** The Tempo scorer: adds each award's points as its test passes. */
  method ScoreTempo(m: Measurements) returns (score: int)
    ensures score == Earned(TempoAwards(m))
    ensures 0 <= score <= 100
  {
    score := 0;
    if 135 <= m.hr <= 160 { score := score + 30; }
    if 4 <= m.rpe <= 6 { score := score + 30; }
    if 6.20 <= m.pace <= 6.45 { score := score + 30; }
    if m.spo2After >= 94 { score := score + 10; }
    SumOfFour(TempoAwards(m));
  }

  /** The Interval scorer: adds each award's points as its test passes. */
  method ScoreInterval(m: Measurements) returns (score: int)
    ensures score == Earned(IntervalAwards(m))
    ensures 0 <= score <= 100
  {
    score := 0;
    if m.hr > 155 { score := score + 35; }
    if 7 <= m.rpe <= 9 { score := score + 35; }
    if m.spo2After >= 93 && m.spo2Before - m.spo2After <= 3 { score := score + 20; }
    if 6.10 <= m.pace <= 6.30 { score := score + 10; }
    SumOfFour(IntervalAwards(m));
  }

  /** The long-run scorer: adds each award's points as its test passes. */
  method ScoreLongRun(m: Measurements) returns (score: int)
    ensures score == Earned(LongRunAwards(m))
    ensures 0 <= score <= 100
  {
    score := 0;
    if 125 <= m.hr <= 145 { score := score + 30; }
    if m.spo2After >= 94 && Abs(m.spo2Before - m.spo2After) <= 2 { score := score + 30; }
    if 3 <= m.rpe <= 5 { score := score + 30; }
    if 6.45 <= m.pace <= 7.20 { score := score + 10; }
    SumOfFour(LongRunAwards(m));
  }

  /** The uniform scorer, identical in the three single-rule applications. */
  method CalculateScore(m: Measurements) returns (score: int)
    ensures score == UniformScore(m)
    ensures 0 <= score <= 100 && score % 10 == 0
  {
    score := 0;
    if 130 <= m.hr <= 168 { score := score + 40; }
    if m.spo2After >= 94 && m.spo2Before - m.spo2After <= 2 { score := score + 30; }
    if m.rpe <= 6 { score := score + 20; }
    if 5.85 <= m.pace <= 7.15 { score := score + 10; }
    SumOfFour(UniformAwards(m));
    UniformMultipleOfTen(m);
  }

  /** The scorer chosen by the session's type label. */
  method ScoreSession(typeName: string, m: Measurements) returns (score: int)
    ensures score == TypeScore(ScorerFor(typeName), m)
    ensures 0 <= score <= 100
  {
    if typeName == "Tempo" {
      score := ScoreTempo(m);
    } else if typeName == "Interval" {
      score := ScoreInterval(m);
    } else {
      score := ScoreLongRun(m);
    }
  }

  /** Points available and earned in a four-award list, written out. */
  lemma SumOfFour(a: seq<Award>)
    requires |a| == 4
    ensures Possible(a) == a[0].points + a[1].points + a[2].points + a[3].points
    ensures Earned(a) == (if a[0].holds then a[0].points else 0)
                       + (if a[1].holds then a[1].points else 0)
                       + (if a[2].holds then a[2].points else 0)
                       + (if a[3].holds then a[3].points else 0)
  {
    var a1 := a[1..];
    var a2 := a1[1..];
    var a3 := a2[1..];
    assert a1[0] == a[1] && a2[0] == a[2] && a3[0] == a[3];
    assert a3[1..] == [];
    assert Possible(a3) == a[3].points;
    assert Earned(a3) == (if a[3].holds then a[3].points else 0);
  }

  /** When every award is worth something, full points are earned exactly
      when every award's test holds. */
  lemma {:induction false} EarnedAll(awards: seq<Award>)
    requires forall i :: 0 <= i < |awards| ==> awards[i].points > 0
    ensures Earned(awards) == Possible(awards)
        <==> forall i :: 0 <= i < |awards| ==> awards[i].holds
  {
    if awards != [] {
      assert forall i :: 1 <= i < |awards| ==> awards[i] == awards[1..][i - 1];
      EarnedAll(awards[1..]);
    }
  }

  /** When every award is worth a multiple of 10, so is the total earned. */
  lemma {:induction false} EarnedMultipleOfTen(awards: seq<Award>)
    requires forall i :: 0 <= i < |awards| ==> awards[i].points % 10 == 0
    ensures Earned(awards) % 10 == 0
  {
    if awards != [] {
      assert forall i :: 0 <= i < |awards[1..]| ==> awards[1..][i] == awards[i + 1];
      EarnedMultipleOfTen(awards[1..]);
    }
  }

  /** Missing award `k` costs its points: at most Possible minus them is earned. */
  lemma {:induction false} EarnedWithoutAward(awards: seq<Award>, k: nat)
    requires k < |awards| && !awards[k].holds
    ensures Earned(awards) <= Possible(awards) - awards[k].points
  {
    if k > 0 {
      EarnedWithoutAward(awards[1..], k - 1);
    } else {
      assert Earned(awards[1..]) <= Possible(awards[1..]);
    }
  }

  /** The uniform score is a multiple of 10 in [0,100]. */
  lemma UniformMultipleOfTen(m: Measurements)
    ensures UniformScore(m) % 10 == 0 && UniformScore(m) <= 100
  {
    EarnedMultipleOfTen(UniformAwards(m));
  }

  /** Every rule set totals 100 points, and a score of 100 is reached exactly
      when every condition of the rule set holds. */
  lemma FullMarks(kind: SessionType, m: Measurements)
    ensures TypeScore(kind, m) == 100 <==> forall i :: 0 <= i < 4 ==> TypeAwards(kind, m)[i].holds
    ensures UniformScore(m) == 100 <==> forall i :: 0 <= i < 4 ==> UniformAwards(m)[i].holds
  {
    EarnedAll(TypeAwards(kind, m));
    EarnedAll(UniformAwards(m));
  }

  /** Interval HR points go only to HR strictly above 155: 155 earns nothing,
      156 earns the full 35. */
  lemma IntervalHrStrict(m: Measurements)
    ensures TypeScore(Interval, m.(hr := 156)) == TypeScore(Interval, m.(hr := 155)) + 35
    ensures TypeScore(Interval, m) >= 35 || m.hr <= 155
  {
  }

  /** Interval SpO2 uses the signed drop: when SpO2 rises after the run the
      delta test always passes and only the floor of 93 decides, so the score
      is the one of an unchanged reading. */
  lemma IntervalSpO2Rise(m: Measurements)
    requires m.spo2After >= m.spo2Before
    ensures IntervalAwards(m)[2].holds <==> m.spo2After >= 93
    ensures TypeScore(Interval, m) == TypeScore(Interval, m.(spo2Before := m.spo2After))
  {
  }

  /** A drop in SpO2 of more than 3 forfeits the Interval SpO2 award, so such
      a run scores at most 80. */
  lemma IntervalDropOverThree(m: Measurements)
    requires m.spo2Before - m.spo2After > 3
    ensures !IntervalAwards(m)[2].holds
    ensures TypeScore(Interval, m) <= 80
  {
    EarnedWithoutAward(IntervalAwards(m), 2);
  }

  /** Long-run SpO2 uses the absolute difference: a rise scores exactly like
      a drop of the same size. */
  lemma LongRunSpO2Symmetric(m: Measurements)
    ensures TypeScore(LongRun, m)
         == TypeScore(LongRun, m.(spo2Before := 2 * m.spo2After - m.spo2Before))
  {
  }

  /** A rise of more than 2 fails the long-run SpO2 test while the uniform
      rule, which only bounds the signed drop, accepts it. */
  lemma SpO2RiseAsymmetry()
    ensures var m := Measurements(6.0, 140, 90, 94, 5);
      !LongRunAwards(m)[1].holds && UniformAwards(m)[1].holds
      && TypeScore(LongRun, m) == 60 && UniformScore(m) == 100
  {
  }

  /** The uniform SpO2 test uses the signed drop: any rise in SpO2 scores as
      an unchanged reading. */
  lemma UniformSpO2Rise(m: Measurements)
    requires m.spo2After >= m.spo2Before
    ensures UniformScore(m) == UniformScore(m.(spo2Before := m.spo2After))
  {
  }

  /** The uniform RPE test has no lower bound: every RPE up to 6 scores as 6. */
  lemma UniformRpeNoFloor(m: Measurements)
    requires m.rpe <= 6
    ensures UniformScore(m) == UniformScore(m.(rpe := 6))
  {
  }

  /** Without the HR award the uniform score is at most 60, so a session with
      HR outside [130,168] is never rated Good. */
  lemma UniformHrNeededForGood(m: Measurements)
    requires !(130 <= m.hr <= 168)
    ensures UniformScore(m) <= 60
    ensures Rate(UniformScore(m)) != Good
  {
    EarnedWithoutAward(UniformAwards(m), 0);
  }

  /** Worked examples: a textbook tempo run earns 100, a slow easy run under
      the interval rules earns nothing (the SpO2 drop of 4 exceeds 3), and an
      overcooked run under the uniform rules earns only the pace award. */
  lemma WorkedExamples()
    ensures TypeScore(Tempo, Measurements(6.30, 150, 98, 95, 5)) == 100
    ensures Rate(TypeScore(Tempo, Measurements(6.30, 150, 98, 95, 5))) == Good
    ensures TypeScore(Interval, Measurements(6.50, 140, 98, 94, 5)) == 0
    ensures UniformScore(Measurements(6.0, 200, 98, 90, 8)) == 10
    ensures Rate(UniformScore(Measurements(6.0, 200, 98, 90, 8))) == NeedsAdjustment
  {
  }
}
