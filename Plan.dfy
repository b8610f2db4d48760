/** The fixed 16-session training plan shared by the applications. */
module Plan {
  import opened Scoring

  /** One plan entry: its type, what to run and the target heart-rate zone. */
  datatype PlanEntry = PlanEntry(kind: SessionType, description: string, zone: string)

  const PlanLength: nat := 16

  /** The type of plan entry `i` (0-based): Tempo, Interval, Long run, repeating. */
  function CycleKind(i: nat): SessionType {
    if i % 3 == 0 then Tempo else if i % 3 == 1 then Interval else LongRun
  }

  /** The plan table, in session order. */
  function Sessions(): (p: seq<PlanEntry>)
    ensures |p| == PlanLength
    ensures forall i :: 0 <= i < |p| ==> p[i].kind == CycleKind(i)
  {
    [ PlanEntry(Tempo, "5–8km @ pace 6:45", "Zone 3–4"),
      PlanEntry(Interval, "6x800m @ pace 6:30", "Zone 4–5"),
      PlanEntry(LongRun, "10km @ pace 7:00–7:30", "Zone 2"),
      PlanEntry(Tempo, "6km @ pace 6:40", "Zone 3–4"),
      PlanEntry(Interval, "8x400m @ pace 6:20", "Zone 4–5"),
      PlanEntry(LongRun, "12km @ pace 7:00", "Zone 2"),
      PlanEntry(Tempo, "7km @ pace 6:35", "Zone 3–4"),
      PlanEntry(Interval, "4x1km @ pace 6:25", "Zone 4–5"),
      PlanEntry(LongRun, "14km @ pace 6:55", "Zone 2"),
      PlanEntry(Tempo, "8km @ pace 6:30", "Zone 3–4"),
      PlanEntry(Interval, "10x300m @ pace 6:10", "Zone 4–5"),
      PlanEntry(LongRun, "16km @ pace 6:50", "Zone 2"),
      PlanEntry(Tempo, "9km @ pace 6:25", "Zone 3–4"),
      PlanEntry(Interval, "5x1km @ pace 6:20", "Zone 4–5"),
      PlanEntry(LongRun, "18km @ pace 6:45", "Zone 2"),
      PlanEntry(Tempo, "10km @ pace 6:20", "Zone 3–4") ]
  }

  /** Each type's entries carry that type's heart-rate zone. */
  lemma ZoneFollowsKind(i: nat)
    requires i < PlanLength
    ensures Sessions()[i].zone == (match CycleKind(i)
                                   case Tempo => "Zone 3–4"
                                   case Interval => "Zone 4–5"
                                   case LongRun => "Zone 2")
  {
  }
}
