/** The free-form training diary of the single-rule applications: each save
    appends one dated row whose session type the user picks; the score comes
    from the uniform rules alone. */
module Diary {
  import opened Ratings
  import opened Scoring

  /** One diary row: run date (a day number), chosen type, measurements,
      score and rating. */
  datatype DiaryRow = DiaryRow(day: int, kind: SessionType, m: Measurements, score: int, rating: Rating)

  /** Every row carries the uniform score of its measurements and its rating. */
  ghost predicate DiaryScored(log: seq<DiaryRow>) {
    forall i :: 0 <= i < |log| ==>
      log[i].score == UniformScore(log[i].m) && log[i].rating == Rate(log[i].score)
  }

  /** Saves a run: the new row is appended after every earlier row, and its
      score depends on the measurements only, never on the chosen type. */
  method SaveDiaryEntry(log: seq<DiaryRow>, day: int, kind: SessionType, m: Measurements)
    returns (log': seq<DiaryRow>)
    ensures |log'| == |log| + 1 && log'[..|log|] == log
    ensures log'[|log|] == DiaryRow(day, kind, m, UniformScore(m), Rate(UniformScore(m)))
    ensures DiaryScored(log) ==> DiaryScored(log')
  {
    var score := CalculateScore(m);
    var row := DiaryRow(day, kind, m, score, Rate(score));
    log' := log + [row];
    assert log'[..|log|] == log;
  }
}
