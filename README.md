# Running coach: session scoring and training-log model

A Dafny model of the logic in the running-coach Streamlit applications. A
runner records pace, average heart rate, SpO2 before and after the run, and
perceived exertion (RPE) against a fixed 16-session plan. The application
scores each session from 0 to 100, rates the score as Good ("Tốt"), Average
("Trung bình") or NeedsAdjustment ("Cần điều chỉnh"), and keeps a log.

The four applications each carry a copy of this logic. The model defines
each piece once:

- `Scoring`: the rule sets. A rule set is a list of point awards, and each
  award is earned when its inclusive threshold test holds. A score is the
  sum of the awards earned (`Earned`). There are three type-specific rule
  sets (Tempo, Interval, Long run) and one uniform rule set. The scorers
  build the score with `+=`, so they are methods, each proved equal to
  `Earned` of its award list. Pace is a `real`, so thresholds such as 6.20
  compare exactly.
- `Ratings`: the rating of a score, inclusive at 80 and at 60.
- `Plan`: the 16-entry plan table, which cycles Tempo, Interval, Long run.
- `SessionLog`: logs keyed by session number. It has two save policies.
  One drops any earlier row for the chosen session and appends the new row.
  The other numbers the new row `len + 1`, appends it, and saves nothing once
  16 rows are logged. It also holds the 16-line history table.
- `Diary`: the append-only diary. The user picks the session type, but the
  score uses the uniform rules only.
- `Schedule`: the dated schedule, with plan entry *i* on start + 2·*i*
  days, and the lookup of today's session.
- `Seqs`: row filters, the model of a boolean-mask selection on a table.
- `Wrappers`: `Option`.

Dates are whole day numbers. Each log is a sequence of rows. A save method
takes the old log and returns the new one.

Under the Interval rules a run whose SpO2 drops by more than 3 (98 before,
94 after, say) earns no SpO2 points and scores at most 80
(`Scoring.IntervalDropOverThree`); the run with HR 140, RPE 5, pace 6.50 and
SpO2 98→94 scores 0 (`Scoring.WorkedExamples`).

## Model

| member | source | states |
|---|---|---|
| `Scoring.Earned` | running-coach-advanced-full/app.py:19-41 | a score never exceeds the points its rule set makes available |
| `Scoring.TempoAwards` | running-coach-advanced-full/app.py:19-25 | Tempo rules: HR in [135,160] +30, RPE in [4,6] +30, pace in [6.20,6.45] +30, SpO2 after ≥ 94 +10; four awards, 100 points in all |
| `Scoring.IntervalAwards` | running-coach-advanced-full/app.py:27-33 | Interval rules: HR > 155 +35, RPE in [7,9] +35, SpO2 after ≥ 93 with a signed drop ≤ 3 +20, pace in [6.10,6.30] +10; 100 points in all |
| `Scoring.LongRunAwards` | running-coach-advanced-full/app.py:35-41 | Long-run rules: HR in [125,145] +30, SpO2 after ≥ 94 with an absolute difference ≤ 2 +30, RPE in [3,5] +30, pace in [6.45,7.20] +10; 100 points in all |
| `Scoring.UniformAwards` | running-coach-fixed/app.py:18-24 | uniform rules: HR in [130,168] +40, SpO2 after ≥ 94 with a signed drop ≤ 2 +30, RPE ≤ 6 +20, pace in [5.85,7.15] +10; 100 points in all |
| `Scoring.ScoreTempo` | running-coach-advanced-full/app.py:19-25 | the accumulated score equals the sum of the Tempo awards earned and lies in [0,100] |
| `Scoring.ScoreInterval` | running-coach-advanced-full/app.py:27-33 | the accumulated score equals the sum of the Interval awards earned and lies in [0,100] |
| `Scoring.ScoreLongRun` | running-coach-advanced-full/app.py:35-41 | the accumulated score equals the sum of the long-run awards earned and lies in [0,100] |
| `Scoring.CalculateScore` | running-coach-fixed/app.py:18-24 | the accumulated score equals the sum of the uniform awards earned, lies in [0,100] and is a multiple of 10 |
| `Scoring.UniformScore` | running-coach-session/app.py:17-23 | the uniform score lies in [0,100] |
| `Scoring.UniformMultipleOfTen` | running-coach-app/app.py:16-22 | the uniform score is a multiple of 10 in [0,100] |
| `Scoring.TypeScore` | running-coach-advanced-full/app.py:100-105 | the type-specific score lies in [0,100] for every type |
| `Scoring.FullMarks` | running-coach-advanced-full/app.py:19-41 | a score of 100 is reached exactly when all four conditions of the rule set hold, for each type and for the uniform rules |
| `Scoring.ScorerFor` | running-coach-advanced-full/app.py:100-105 | the label "Tempo" selects the Tempo rules, "Interval" the Interval rules, and every other label the long-run rules |
| `Scoring.ScorerForName` | running-coach-advanced-full/app.py:48-65 | every plan label selects the rules of its own type ("Long run" falls to the long-run branch) |
| `Scoring.ScoreSession` | running-coach-advanced-full/app.py:100-105 | the dispatched score is the type-specific score of the type the label selects, in [0,100] |
| `Scoring.IntervalHrStrict` | running-coach-advanced-full/app.py:29 | HR 156 scores exactly 35 more than HR 155 under the Interval rules; a score below 35 means HR ≤ 155 |
| `Scoring.IntervalSpO2Rise` | running-coach-advanced-full/app.py:31 | when SpO2 rises, the Interval SpO2 award depends only on the floor of 93, and the score equals that of an unchanged reading |
| `Scoring.IntervalDropOverThree` | running-coach-advanced-full/app.py:31 | a signed SpO2 drop of more than 3 forfeits the Interval SpO2 award, so the score is at most 80 |
| `Scoring.LongRunSpO2Symmetric` | running-coach-advanced-full/app.py:38 | the long-run score is unchanged when a drop in SpO2 is replaced by a rise of the same size |
| `Scoring.SpO2RiseAsymmetry` | running-coach-app/app.py:19 | a rise of 4 fails the long-run SpO2 test and passes the uniform one (scores 60 and 100) |
| `Scoring.UniformSpO2Rise` | running-coach-fixed/app.py:21 | under the uniform rules any rise in SpO2 scores as an unchanged reading: the delta test never fails on a rise |
| `Scoring.UniformRpeNoFloor` | running-coach-fixed/app.py:22 | under the uniform rules every RPE ≤ 6 scores the same as RPE 6: there is no lower bound |
| `Scoring.UniformHrNeededForGood` | running-coach-app/app.py:18-22 | with HR outside [130,168] the uniform score is at most 60 and the rating is never Good |
| `Scoring.WorkedExamples` | running-coach-advanced-full/app.py:19-33 | Tempo: HR 150, RPE 5, pace 6.30, SpO2 after 95 scores 100 (Good); Interval: HR 140, RPE 5, pace 6.50, SpO2 98→94 scores 0; uniform: HR 200, RPE 8, SpO2 98→90, pace 6.0 scores 10 (NeedsAdjustment) |
| `Ratings.Rate` | running-coach-advanced-full/app.py:43-46 | Good iff score ≥ 80, Average iff 60 ≤ score < 80, NeedsAdjustment iff score < 60 |
| `Ratings.RateMonotone` | running-coach-fixed/app.py:26-29 | a higher score never yields a worse rating |
| `Ratings.RateBoundaries` | running-coach-app/app.py:24-27 | the thresholds are inclusive: 80 is Good, 79 and 60 are Average, 59 is NeedsAdjustment |
| `Ratings.LabelsDistinct` | running-coach-session/app.py:25-28 | the three stored labels are pairwise different, so the stored label determines the rating |
| `Plan.Sessions` | running-coach-advanced-full/app.py:48-65 | the plan has exactly 16 entries and entry i is Tempo, Interval or Long run according to i mod 3 |
| `Plan.ZoneFollowsKind` | running-coach-session/app.py:30-47 | each entry's heart-rate zone is the one of its type: Tempo "Zone 3–4", Interval "Zone 4–5", Long run "Zone 2" |
| `SessionLog.Only` | running-coach-advanced-full/app.py:122 | the selection of a session's rows holds exactly the logged rows with that number |
| `SessionLog.Without` | running-coach-advanced-full/app.py:110 | the filtered log holds no row for the session and keeps every row for any other session |
| `SessionLog.WithoutKeepsOthers` | running-coach-advanced-full/app.py:110 | removing a session keeps the remaining rows in their relative order, leaves each other session's rows unchanged and removes all of its own |
| `SessionLog.ReplaceEffect` | running-coach-advanced-full/app.py:110-111 | after a save, the new row is the only row for its session and every other session's rows are as before |
| `SessionLog.ReplaceTwice` | running-coach-advanced-full/app.py:110-111 | saving a session twice leaves the same log as saving only the second result |
| `SessionLog.ReplaceKeepsUnique` | running-coach-advanced-full/app.py:110-111 | the replace policy preserves "at most one row per session number" |
| `SessionLog.ReplaceKeepsPlanScored` | running-coach-advanced-full/app.py:100-108 | the replace policy preserves "every row carries its plan type's score and the rating of that score" |
| `SessionLog.ReplaceInvariants` | running-coach-advanced-full/app.py:110-111 | the replaced log is the filtered log followed by the new row, and it keeps both log invariants (one row per session, plan-type scoring) |
| `SessionLog.SaveSession` | running-coach-advanced-full/app.py:89-111 | the new log is the old one without the session's rows, followed by the new row; the row's score uses the plan type's rules and its rating is Rate of its score; uniqueness and scoring invariants are preserved; the result is `Replace` of the old log and the new row, so the replace lemmas apply to it |
| `SessionLog.FirstOutcome` | running-coach-advanced-full/app.py:122-123 | a session shows no outcome iff no row is logged for it, and otherwise the rating and score of a row logged for it |
| `SessionLog.FirstOutcomeIsFirst` | running-coach-advanced-full/app.py:122-123 | the outcome shown for a session is the rating and score of the earliest row logged for it |
| `SessionLog.History` | running-coach-advanced-full/app.py:118-126 | the history has 16 lines; line i is session i + 1 with plan type i mod 3, and its rating and score columns are the outcome of the first row logged for session i + 1 (none when there is no such row) |
| `SessionLog.HistoryAfterSave` | running-coach-advanced-full/app.py:110-126 | after saving session k, line k shows the new rating and score and every other line is unchanged |
| `SessionLog.NextPlan` | running-coach-session/app.py:54-57 | the next plan entry is shown iff fewer than 16 rows are logged, and it is plan entry len(log) (0-based) with its type, description and zone |
| `SessionLog.NextPlanFollowsLog` | running-coach-session/app.py:54-57 | on a sequentially numbered log, the next entry is the one after the last logged session |
| `SessionLog.SaveNextSession` | running-coach-session/app.py:67-92 | nothing is saved once 16 rows are logged; otherwise one row numbered len + 1 with the uniform score and its rating is appended; sequential numbering (row j is session j + 1, at most 16 rows) and scoring are preserved |
| `SessionLog.SequentialIsUnique` | running-coach-session/app.py:82-92 | a sequentially numbered log never holds two rows for one session |
| `Diary.SaveDiaryEntry` | running-coach-fixed/app.py:98-100 | exactly one row is appended and earlier rows are unchanged; its score is the uniform score of the measurements, whatever the chosen type, and its rating is Rate of that score (the same save is running-coach-app/app.py lines 73-75) |
| `Schedule.GenerateSchedule` | running-coach-fixed/app.py:31-54 | the schedule has 16 rows in plan order; row i is dated start + 2·i and carries plan entry i's type, description and zone |
| `Schedule.TodayPlan` | running-coach-fixed/app.py:65 | a found row is in the schedule and dated today; nothing is found iff no row is dated today |
| `Schedule.TodayPlanOnSchedule` | running-coach-fixed/app.py:63-65 | on a generated schedule there is a session today iff today − start is even and in [0,30], and then it is plan entry (today − start)/2 |

## Left out

- Streamlit presentation: page setup, tabs, forms, widgets, messages and table display, including sorting a table for display.
- CSV persistence: `load_data` and `save_data`, and the bare `except:` fallbacks that substitute an empty table. The log is passed in and returned instead.
- `@st.cache_data` on `load_data`: within one server process every load returns the table as first read, so saves after the first start from that stale table. In running-coach-session/app.py:9-15 and 66-93 this means `len(df) + 1` does not advance, and a second save writes the first session again. The model threads each save's result into the next save, which is the behaviour the code evidently intends.
- Schedule.TodayPlan: the model gives the lookup the code evidently intends. As written, running-coach-fixed/app.py:52-53 fills the "Ngày" column with plain `datetime.date` values. That column has object dtype, so `schedule_df["Ngày"].dt` at line 65 raises AttributeError. The error also ends the script run before the save at lines 98-100.
- The reset tab (running-coach-advanced-full/app.py:145-148) writes an empty table; in the model that is the empty sequence.
- Reading `schedule.csv` in running-coach-app/app.py:35-46 is file I/O.
- Charts: all matplotlib code.
- Weekly averaging by ISO week (running-coach-fixed/app.py:110-111, running-coach-app/app.py:83-84) depends on calendar libraries and floating-point means.
- Binary floating-point rounding of pace: pace is an exact `real`, and only the comparisons are kept.
- The clock: "today" and the start day are parameters given as day numbers.
- running-coach-fixed/app.py keeps its own copy of the plan table inside `generate_schedule`. Its contents are identical, so the model uses `Plan.Sessions` for both.
- SessionLog.SaveSession: requires a session number in 1..16. The session selector only offers those, so Python's negative-index wrap-around is never reached.
- running-coach-session-updated (1)/app.py is not part of this model.
