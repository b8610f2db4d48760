/** The dated training schedule: plan entry i falls on the start day plus
    2·i days, and "today's session" is looked up by date. Dates are day
    numbers. */
module Schedule {
  import opened Wrappers
  import opened Seqs
  import opened Scoring
  import opened Plan

  /** One schedule row: date, type, description and target heart-rate zone. */
  datatype ScheduleRow = ScheduleRow(day: int, kind: SessionType, description: string, zone: string)

  /** `schedule` is the plan laid out every other day from `start`. */
  ghost predicate IsScheduleFrom(schedule: seq<ScheduleRow>, start: int) {
    |schedule| == PlanLength
    && forall i :: 0 <= i < |schedule| ==>
         schedule[i] == ScheduleRow(start + 2 * i, Sessions()[i].kind, Sessions()[i].description, Sessions()[i].zone)
  }

  /** Builds the schedule row by row in plan order. */
  method GenerateSchedule(start: int) returns (schedule: seq<ScheduleRow>)
    ensures IsScheduleFrom(schedule, start)
  {
    var sessions := Sessions();
    schedule := [];
    var i := 0;
    while i < |sessions|
      invariant 0 <= i <= |sessions|
      invariant |schedule| == i
      invariant forall j :: 0 <= j < i ==>
        schedule[j] == ScheduleRow(start + 2 * j, sessions[j].kind, sessions[j].description, sessions[j].zone)
    {
      var entry := sessions[i];
      schedule := schedule + [ScheduleRow(start + i * 2, entry.kind, entry.description, entry.zone)];
      i := i + 1;
    }
  }

  function OnDay(d: int): ScheduleRow -> bool {
    (r: ScheduleRow) => r.day == d
  }

  /** The first schedule row dated `today`, if any. */
  function TodayPlan(schedule: seq<ScheduleRow>, today: int): (r: Option<ScheduleRow>)
    ensures r.Some? ==> r.value in schedule && r.value.day == today
    ensures r.None? <==> forall i :: 0 <= i < |schedule| ==> schedule[i].day != today
  {
    var hits := Filter(schedule, OnDay(today));
    if hits == [] then None else Some(hits[0])
  }

  /** On a generated schedule there is a session today exactly when today is
      an even number of days, at most 30, after the start, and it is plan
      entry (today - start) / 2. */
  lemma TodayPlanOnSchedule(schedule: seq<ScheduleRow>, start: int, today: int)
    requires IsScheduleFrom(schedule, start)
    ensures TodayPlan(schedule, today).Some?
        <==> 0 <= today - start <= 2 * (PlanLength - 1) && (today - start) % 2 == 0
    ensures TodayPlan(schedule, today).Some? ==>
      var e := Sessions()[(today - start) / 2];
      TodayPlan(schedule, today).value == ScheduleRow(today, e.kind, e.description, e.zone)
  {
    var offset := today - start;
    if 0 <= offset <= 2 * (PlanLength - 1) && offset % 2 == 0 {
      var k := offset / 2;
      assert schedule[k].day == today;
      FilterSingle(schedule, OnDay(today), k);
    } else {
      assert forall i :: 0 <= i < |schedule| ==> schedule[i].day == start + 2 * i;
    }
  }
}
