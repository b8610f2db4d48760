/** The log of numbered sessions kept by the plan-driven applications.
    A row's `number` is the session's position in the 16-entry plan. Two save
    policies exist: one overwrites any earlier result for the chosen session
    number, the other always logs the next session in plan order and stops
    after the sixteenth. */
module SessionLog {
  import opened Wrappers
  import opened Seqs
  import opened Ratings
  import opened Scoring
  import opened Plan

  /** One logged session: number, run date (a day number), measurements,
      score and rating. */
  datatype SessionRow = SessionRow(number: int, day: int, m: Measurements, score: int, rating: Rating)

  /** The row tests used by the table filters. */
  function NumberIs(k: int): SessionRow -> bool {
    (r: SessionRow) => r.number == k
  }

  function NumberIsNot(k: int): SessionRow -> bool {
    (r: SessionRow) => r.number != k
  }

  /** The rows logged for session `k`, in log order. */
  function Only(log: seq<SessionRow>, k: int): (r: seq<SessionRow>)
    ensures forall i :: 0 <= i < |r| ==> r[i].number == k && r[i] in log
    ensures forall i :: 0 <= i < |log| && log[i].number == k ==> log[i] in r
  {
    Filter(log, NumberIs(k))
  }

  /** The log with every row for session `k` removed. */
  function Without(log: seq<SessionRow>, k: int): (r: seq<SessionRow>)
    ensures forall i :: 0 <= i < |r| ==> r[i].number != k && r[i] in log
    ensures forall i :: 0 <= i < |log| && log[i].number != k ==> log[i] in r
  {
    Filter(log, NumberIsNot(k))
  }

  /** Removing session `k` keeps every other row in its relative order, and
      leaves the rows of every other session exactly as they were. */
  lemma WithoutKeepsOthers(log: seq<SessionRow>, k: int, j: int)
    requires j != k
    ensures IsSubsequence(Without(log, k), log)
    ensures Only(Without(log, k), j) == Only(log, j)
    ensures Only(Without(log, k), k) == []
  {
    FilterIsSubsequence(log, NumberIsNot(k));
    FilterFilter(log, NumberIsNot(k), NumberIs(j));
    FilterNone(Without(log, k), NumberIs(k));
  }

  /** The log after saving `row` under the replace-by-number policy. */
  function Replace(log: seq<SessionRow>, row: SessionRow): seq<SessionRow> {
    Without(log, row.number) + [row]
  }

  /** After a replace, the new row is the only one for its session and the
      rows of every other session are untouched. */
  lemma {:induction false} ReplaceEffect(log: seq<SessionRow>, row: SessionRow, j: int)
    requires j != row.number
    ensures Only(Replace(log, row), row.number) == [row]
    ensures Only(Replace(log, row), j) == Only(log, j)
  {
    var k := row.number;
    WithoutKeepsOthers(log, k, j);
    FilterConcat(Without(log, k), [row], NumberIs(k));
    FilterConcat(Without(log, k), [row], NumberIs(j));
    assert Filter([row], NumberIs(k)) == [row] + Filter([row][1..], NumberIs(k));
    assert Filter([row], NumberIs(j)) == Filter([row][1..], NumberIs(j));
  }

  /** Saving the same session twice keeps only the second result. */
  lemma ReplaceTwice(log: seq<SessionRow>, first: SessionRow, second: SessionRow)
    requires first.number == second.number
    ensures Replace(Replace(log, first), second) == Replace(log, second)
  {
    var k := first.number;
    FilterConcat(Without(log, k), [first], NumberIsNot(k));
    assert Filter([first], NumberIsNot(k)) == Filter([first][1..], NumberIsNot(k));
    FilterFilter(log, NumberIsNot(k), NumberIsNot(k));
  }

  /** No session number appears in more than one row. */
  ghost predicate AtMostOncePerSession(log: seq<SessionRow>) {
    forall k :: |Only(log, k)| <= 1
  }

  /** The replace policy keeps session numbers unique. */
  lemma ReplaceKeepsUnique(log: seq<SessionRow>, row: SessionRow)
    requires AtMostOncePerSession(log)
    ensures AtMostOncePerSession(Replace(log, row))
  {
    forall k ensures |Only(Replace(log, row), k)| <= 1 {
      if k == row.number {
        ReplaceEffect(log, row, k + 1);
      } else {
        ReplaceEffect(log, row, k);
      }
    }
  }

  /** Every row is for a plan session and carries the score of that
      session's type-specific rules and the rating of that score. */
  ghost predicate PlanScored(log: seq<SessionRow>) {
    forall i :: 0 <= i < |log| ==> PlanScoredRow(log[i])
  }

  ghost predicate PlanScoredRow(row: SessionRow) {
    1 <= row.number <= PlanLength
    && row.score == TypeScore(Sessions()[row.number - 1].kind, row.m)
    && row.rating == Rate(row.score)
  }

  /** The replace policy keeps every row scored by its plan session's rules. */
  lemma ReplaceKeepsPlanScored(log: seq<SessionRow>, row: SessionRow)
    requires PlanScored(log) && PlanScoredRow(row)
    ensures PlanScored(Replace(log, row))
  {
  }

  /** Saves the result of plan session `number`: the plan's type label
      selects the scorer, the rating follows the score, any earlier result
      for the same session is dropped and the new row goes last. */
  method SaveSession(log: seq<SessionRow>, number: int, day: int, m: Measurements)
    returns (log': seq<SessionRow>)
    requires 1 <= number <= PlanLength
    ensures |log'| >= 1 && log'[..|log'| - 1] == Without(log, number)
    ensures log'[|log'| - 1].number == number && log'[|log'| - 1].day == day
    ensures log'[|log'| - 1].m == m
    ensures log'[|log'| - 1].score == TypeScore(Sessions()[number - 1].kind, m)
    ensures log'[|log'| - 1].rating == Rate(log'[|log'| - 1].score)
    ensures AtMostOncePerSession(log) ==> AtMostOncePerSession(log')
    ensures PlanScored(log) ==> PlanScored(log')
    ensures log' == Replace(log, log'[|log'| - 1])
  {
    var entry := Sessions()[number - 1];
    var score := ScoreSession(entry.kind.Name(), m);
    ScorerForName(entry.kind);
    var row := SessionRow(number, day, m, score, Rate(score));
    log' := Without(log, number) + [row];
    ReplaceInvariants(log, row);
  }

  /** The replace policy's result: the filtered log then the new row, with
      both log invariants carried over. */
  lemma ReplaceInvariants(log: seq<SessionRow>, row: SessionRow)
    ensures Replace(log, row)[..|Replace(log, row)| - 1] == Without(log, row.number)
    ensures AtMostOncePerSession(log) ==> AtMostOncePerSession(Replace(log, row))
    ensures PlanScored(log) && PlanScoredRow(row) ==> PlanScored(Replace(log, row))
  {
    assert Replace(log, row)[..|Replace(log, row)| - 1] == Without(log, row.number);
    if AtMostOncePerSession(log) {
      ReplaceKeepsUnique(log, row);
    }
    if PlanScored(log) && PlanScoredRow(row) {
      ReplaceKeepsPlanScored(log, row);
    }
  }

  /** What the history table shows for a logged session. */
  datatype Outcome = Outcome(rating: Rating, score: int)

  /** One line of the 16-line history table; `result` is None for a session
      not yet logged ("⏳ Chưa nhập" and an empty score). */
  datatype HistoryLine = HistoryLine(number: int, kind: SessionType, result: Option<Outcome>)

  /** The outcome of the first row logged for session `k`, if any. */
  function FirstOutcome(log: seq<SessionRow>, k: int): (r: Option<Outcome>)
    ensures r.None? <==> forall i :: 0 <= i < |log| ==> log[i].number != k
    ensures r.Some? ==>
      exists i :: 0 <= i < |log| && log[i].number == k && r.value == Outcome(log[i].rating, log[i].score)
  {
    var rows := Only(log, k);
    if rows == [] then None else Some(Outcome(rows[0].rating, rows[0].score))
  }

  /** The outcome shown for session `k` is the one of the earliest row
      logged for it. */
  lemma FirstOutcomeIsFirst(log: seq<SessionRow>, k: int, i: nat)
    requires i < |log| && log[i].number == k
    requires forall j :: 0 <= j < i ==> log[j].number != k
    ensures FirstOutcome(log, k) == Some(Outcome(log[i].rating, log[i].score))
  {
    FilterHead(log, NumberIs(k));
  }

  /** The history table: one line per plan session, in plan order. */
  function History(log: seq<SessionRow>): (h: seq<HistoryLine>)
    ensures |h| == PlanLength
    ensures forall i :: 0 <= i < |h| ==> h[i].number == i + 1 && h[i].kind == CycleKind(i)
    ensures forall i :: 0 <= i < |h| ==> h[i].result == FirstOutcome(log, i + 1)
  {
    seq(PlanLength, i requires 0 <= i < PlanLength =>
      HistoryLine(i + 1, Sessions()[i].kind, FirstOutcome(log, i + 1)))
  }

  /** After saving session k, its history line shows the new score and
      rating, and every other line is as before. */
  lemma HistoryAfterSave(log: seq<SessionRow>, row: SessionRow, i: nat)
    requires 1 <= row.number <= PlanLength && i < PlanLength
    ensures History(Replace(log, row))[row.number - 1].result == Some(Outcome(row.rating, row.score))
    ensures i != row.number - 1 ==> History(Replace(log, row))[i] == History(log)[i]
  {
    ReplaceEffect(log, row, row.number + 1);
    if i != row.number - 1 {
      ReplaceEffect(log, row, i + 1);
    }
  }

  /** Every row is numbered by its position: row j is session j + 1, and
      there are never more rows than plan sessions. */
  ghost predicate Sequential(log: seq<SessionRow>) {
    |log| <= PlanLength && forall j :: 0 <= j < |log| ==> log[j].number == j + 1
  }

  /** The plan entry of the next session, shown while the plan is not done. */
  function NextPlan(log: seq<SessionRow>): (r: Option<PlanEntry>)
    ensures r.Some? <==> |log| < PlanLength
    ensures r.Some? ==> r.value == Sessions()[|log|] && r.value.kind == CycleKind(|log|)
  {
    var current := |log| + 1;
    if current <= PlanLength then Some(Sessions()[current - 1]) else None
  }

  /** On a sequentially numbered log the next plan entry is the one after the
      last session logged. */
  lemma NextPlanFollowsLog(log: seq<SessionRow>)
    requires Sequential(log) && 0 < |log| < PlanLength
    ensures NextPlan(log) == Some(Sessions()[log[|log| - 1].number])
  {
  }

  /** Every row carries the uniform score of its measurements and its rating. */
  ghost predicate UniformScored(log: seq<SessionRow>) {
    forall i :: 0 <= i < |log| ==>
      log[i].score == UniformScore(log[i].m) && log[i].rating == Rate(log[i].score)
  }

  /** Saves the next session under the capped sequential policy: the new row
      is numbered one past the log's length and appended, and nothing is
      saved once sixteen rows are logged. */
  method SaveNextSession(log: seq<SessionRow>, day: int, m: Measurements)
    returns (log': seq<SessionRow>, saved: bool)
    ensures saved <==> |log| < PlanLength
    ensures !saved ==> log' == log
    ensures saved ==> |log'| == |log| + 1 && log'[..|log|] == log
    ensures saved ==> log'[|log|] == SessionRow(|log| + 1, day, m, UniformScore(m), Rate(UniformScore(m)))
    ensures Sequential(log) ==> Sequential(log')
    ensures UniformScored(log) ==> UniformScored(log')
  {
    var current := |log| + 1;
    if current > PlanLength {
      return log, false;
    }
    var score := CalculateScore(m);
    var row := SessionRow(current, day, m, score, Rate(score));
    log' := log + [row];
    saved := true;
    assert log'[..|log|] == log;
  }

  /** Sequential logs never hold two rows for one session. */
  lemma SequentialIsUnique(log: seq<SessionRow>)
    requires Sequential(log)
    ensures AtMostOncePerSession(log)
  {
    forall k ensures |Only(log, k)| <= 1 {
      if 1 <= k <= |log| {
        FilterSingle(log, NumberIs(k), k - 1);
      } else {
        FilterNone(log, NumberIs(k));
      }
    }
  }
}
