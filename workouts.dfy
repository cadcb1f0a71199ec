/**
 * The workout records (`Workout`, `Running`, `Cycling`): immutable values whose
 * derived metric and description are computed once, when they are built.
 */
module Workouts {
  import opened Labels

  /** `[lat, lng]` */
  datatype Coords = Coords(lat: real, lng: real)

  /**
   * A workout as the list and the storage slot hold it. The `id` is the last
   * ten digits of the creation time; `date` keeps only what the description uses.
   * Distances are in km, durations in minutes, pace in min/km, speed in km/h.
   */
  datatype Workout =
    | Running(id: string, date: CalendarDay, coords: Coords, distance: real, duration: real,
              cadence: real, pace: real, description: string)
    | Cycling(id: string, date: CalendarDay, coords: Coords, distance: real, duration: real,
              elevation: real, speed: real, description: string)

  function KindOf(w: Workout): Kind {
    if w.Running? then RunningType else CyclingType
  }

  /**
   * `new Running(coords, distance, duration, cadence)`. A zero distance would
   * make the JavaScript pace infinite or NaN; the form rule excludes it first.
   */
  function NewRunning(id: string, date: CalendarDay, coords: Coords,
                      distance: real, duration: real, cadence: real): (w: Workout)
    requires distance != 0.0
    requires date.month < 12
    ensures w.Running? && w.id == id && w.date == date && w.coords == coords
    ensures w.distance == distance && w.duration == duration && w.cadence == cadence
    ensures w.pace * distance == duration
    ensures distance > 0.0 && duration > 0.0 ==> w.pace > 0.0
    ensures w.description == Describe(RunningType, date)
  {
    Running(id, date, coords, distance, duration, cadence, duration / distance,
            Describe(RunningType, date))
  }

  /**
   * `new Cycling(coords, distance, duration, elevation)`. A zero duration would
   * make the JavaScript speed infinite or NaN; the form rule excludes it first.
   */
  function NewCycling(id: string, date: CalendarDay, coords: Coords,
                      distance: real, duration: real, elevation: real): (w: Workout)
    requires duration != 0.0
    requires date.month < 12
    ensures w.Cycling? && w.id == id && w.date == date && w.coords == coords
    ensures w.distance == distance && w.duration == duration && w.elevation == elevation
    ensures w.speed * duration == 60.0 * distance
    ensures distance > 0.0 && duration > 0.0 ==> w.speed > 0.0
    ensures w.description == Describe(CyclingType, date)
  {
    Cycling(id, date, coords, distance, duration, elevation, distance / (duration / 60.0),
            Describe(CyclingType, date))
  }

  /**
   * A record as validated construction leaves it: positive distance and
   * duration, the derived metric consistent with them, a positive cadence for
   * a run, and the description of its own type and day.
   */
  predicate WellFormed(w: Workout) {
    w.distance > 0.0 && w.duration > 0.0 && w.date.month < 12 &&
    w.description == Describe(KindOf(w), w.date) &&
    match w
    case Running(_, _, _, distance, duration, cadence, pace, _) =>
      cadence > 0.0 && pace * distance == duration
    case Cycling(_, _, _, distance, duration, _, speed, _) =>
      speed * duration == 60.0 * distance
  }

  /** Pace depends on distance and duration alone: two well-formed runs that agree on them carry the same pace. */
  lemma PaceDetermined(w1: Workout, w2: Workout)
    requires WellFormed(w1) && WellFormed(w2) && w1.Running? && w2.Running?
    requires w1.distance == w2.distance && w1.duration == w2.duration
    ensures w1.pace == w2.pace
  {
  }

  /** Same for the speed of a ride. */
  lemma SpeedDetermined(w1: Workout, w2: Workout)
    requires WellFormed(w1) && WellFormed(w2) && w1.Cycling? && w2.Cycling?
    requires w1.distance == w2.distance && w1.duration == w2.duration
    ensures w1.speed == w2.speed
  {
  }

  /** A well-formed record's description names its own type, month and day, and no other. */
  lemma DescriptionIdentifiesDay(w1: Workout, w2: Workout)
    requires WellFormed(w1) && WellFormed(w2)
    requires w1.description == w2.description
    ensures KindOf(w1) == KindOf(w2) && w1.date == w2.date
  {
    DescriptionDeterminesKindAndDay(KindOf(w1), w1.date, KindOf(w2), w2.date);
  }

  /** The scenario of a 5 km, 30 minute run: a pace of 6 min/km. */
  lemma RunningPaceExample(id: string, date: CalendarDay, coords: Coords)
    requires date.month < 12
    ensures NewRunning(id, date, coords, 5.0, 30.0, 170.0).pace == 6.0
  {
  }
}
