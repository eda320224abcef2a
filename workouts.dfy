/** The workout records: a Running or Cycling session, with the one derived
    metric its class computes at construction and the description built
    from its type tag and calendar day. */
module Workouts {
  import opened Text

  /** `[lat, lng]` of the map click a workout was created at. */
  type Coords = (real, real)

  /** The calendar day of the `date` a workout was created with. */
  datatype CalendarDate = CalendarDate(month: Month, day: DayOfMonth)

  /** The `type` tag a workout class sets. */
  datatype WorkoutType = RunningType | CyclingType

  function TypeTag(t: WorkoutType): string
  {
    match t
    case RunningType => "running"
    case CyclingType => "cycling"
  }

  /** "<Type> on <Month> <day>", e.g. "Running on March 5". */
  function Description(t: WorkoutType, date: CalendarDate): (r: string)
    ensures r == (if t == RunningType then "Running" else "Cycling")
                 + " on " + MonthName(date.month) + " " + DecimalString(date.day)
  {
    Capitalize(TypeTag(t)) + " on " + MonthName(date.month) + " " + DecimalString(date.day)
  }

  /** The id a workout takes from the millisecond clock: the last ten
      characters of its decimal numeral (all of it when it is shorter). */
  function WorkoutId(nowMs: nat): (id: string)
    ensures |id| <= 10 && EndsWith(DecimalString(nowMs), id)
    ensures |id| < 10 ==> id == DecimalString(nowMs)
  {
    var s := DecimalString(nowMs);
    if |s| <= 10 then s else s[|s| - 10..]
  }

  /** A workout once its constructor has run. Loaded records are plain data
      of the same shape, with no guarantee that their fields agree. */
  datatype Workout =
    | Running(id: string, date: CalendarDate, clicks: nat, coords: Coords,
              distance: real, duration: real, description: string,
              cadence: real, pace: real)
    | Cycling(id: string, date: CalendarDate, clicks: nat, coords: Coords,
              distance: real, duration: real, description: string,
              elevationGain: real, speed: real)
  {
    function Type(): WorkoutType
    {
      if Running? then RunningType else CyclingType
    }
  }

  /** Pace in minutes per kilometre. */
  function CalcPace(distance: real, duration: real): (pace: real)
    requires distance != 0.0
    ensures pace * distance == duration
  {
    duration / distance
  }

  /** Speed in kilometres per hour from minutes. */
  function CalcSpeed(distance: real, duration: real): (speed: real)
    requires duration != 0.0
    ensures speed * duration == 60.0 * distance
  {
    distance / (duration / 60.0)
  }

  /** The derived fields agree with the measured ones: the metric with
      distance and duration, the description with type and date. */
  predicate Derived(w: Workout)
  {
    && w.description == Description(w.Type(), w.date)
    && (w.Running? ==> w.distance != 0.0 && w.pace * w.distance == w.duration)
    && (w.Cycling? ==> w.duration != 0.0 && w.speed * w.duration == 60.0 * w.distance)
  }

  /** `new Running(coords, distance, duration, cadence)`. */
  function NewRunning(coords: Coords, distance: real, duration: real, cadence: real,
                      date: CalendarDate, nowMs: nat): (w: Workout)
    requires distance != 0.0
    ensures w.Running? && Derived(w)
    ensures w.coords == coords && w.distance == distance && w.duration == duration
    ensures w.cadence == cadence && w.pace == duration / distance
    ensures w.date == date && w.id == WorkoutId(nowMs) && w.clicks == 0
  {
    Running(WorkoutId(nowMs), date, 0, coords, distance, duration,
            Description(RunningType, date), cadence, CalcPace(distance, duration))
  }

  /** `new Cycling(coords, distance, duration, elevationGain)`. */
  function NewCycling(coords: Coords, distance: real, duration: real, elevationGain: real,
                      date: CalendarDate, nowMs: nat): (w: Workout)
    requires duration != 0.0
    ensures w.Cycling? && Derived(w)
    ensures w.coords == coords && w.distance == distance && w.duration == duration
    ensures w.elevationGain == elevationGain && w.speed == distance / (duration / 60.0)
    ensures w.date == date && w.id == WorkoutId(nowMs) && w.clicks == 0
  {
    Cycling(WorkoutId(nowMs), date, 0, coords, distance, duration,
            Description(CyclingType, date), elevationGain, CalcSpeed(distance, duration))
  }

  /** `_click`: one more click, and nothing else about the record changes. */
  function Click(w: Workout): (r: Workout)
    ensures r.clicks == w.clicks + 1
    ensures r.(clicks := w.clicks) == w
    ensures Derived(w) ==> Derived(r)
  {
    w.(clicks := w.clicks + 1)
  }

  /** The derived metric is the only value that satisfies its law. */
  lemma MetricDetermined(w: Workout)
    requires Derived(w)
    ensures w.Running? ==> w.pace == w.duration / w.distance
    ensures w.Cycling? ==> w.speed == w.distance / (w.duration / 60.0)
  {
  }

  /** The description names the type, the month and the day, and from it
      all three can be read back. */
  lemma DescriptionInjective(t1: WorkoutType, d1: CalendarDate, t2: WorkoutType, d2: CalendarDate)
    requires Description(t1, d1) == Description(t2, d2)
    ensures t1 == t2 && d1 == d2
  {
    var title1, title2 := Capitalize(TypeTag(t1)), Capitalize(TypeTag(t2));
    var rest1 := MonthName(d1.month) + " " + DecimalString(d1.day);
    var rest2 := MonthName(d2.month) + " " + DecimalString(d2.day);
    DescriptionParts(t1, d1);
    DescriptionParts(t2, d2);
    SplitAt(title1, " on " + rest1, title2, " on " + rest2);
    SplitAt(" on ", rest1, " on ", rest2);
    MonthNameFacts(d1.month, d2.month);
    MonthNameFacts(d2.month, d1.month);
    SplitAtSpace(MonthName(d1.month), DecimalString(d1.day),
                 MonthName(d2.month), DecimalString(d2.day));
    DecimalStringInjective(d1.day, d2.day);
  }

  /** The capitalised tag is a seven-letter word whose first letter tells
      the type apart, followed by " on " and the rest. */
  lemma DescriptionParts(t: WorkoutType, d: CalendarDate)
    ensures Capitalize(TypeTag(t)) == (if t == RunningType then "Running" else "Cycling")
    ensures Description(t, d)
         == Capitalize(TypeTag(t)) + (" on " + (MonthName(d.month) + " " + DecimalString(d.day)))
  {
  }

  lemma SplitAt(x1: string, y1: string, x2: string, y2: string)
    requires |x1| == |x2| && x1 + y1 == x2 + y2
    ensures x1 == x2 && y1 == y2
  {
    assert x1 == (x1 + y1)[..|x1|];
    assert y1 == (x1 + y1)[|x1|..];
  }

  lemma SplitAtSpace(a1: string, b1: string, a2: string, b2: string)
    requires NoSpace(a1) && NoSpace(a2)
    requires a1 + " " + b1 == a2 + " " + b2
    ensures a1 == a2 && b1 == b2
  {
    var s := a1 + " " + b1;
    assert s == a2 + " " + b2;
    assert |a1| == |a2| by {
      assert |a1| < |s| && s[|a1|] == ' ';
      assert |a2| < |s| && s[|a2|] == ' ';
    }
    assert a1 + " " + b1 == a1 + (" " + b1);
    assert a2 + " " + b2 == a2 + (" " + b2);
    SplitAt(a1, " " + b1, a2, " " + b2);
    SplitAt(" ", b1, " ", b2);
  }

  /** The example the description format is known by. */
  lemma DescriptionExample()
    ensures Description(RunningType, CalendarDate(2, 5)) == "Running on March 5"
  {
  }

  /** The id is the clock reading modulo 10^10, written in decimal. */
  lemma WorkoutIdDigits(nowMs: nat)
    ensures |WorkoutId(nowMs)| <= 10 && IsDigits(WorkoutId(nowMs))
    ensures ParseDecimal(WorkoutId(nowMs)) == nowMs % Pow10(10)
  {
    var s := DecimalString(nowMs);
    ParseDecimalString(nowMs);
    if |s| <= 10 {
      ParseDecimalBound(s);
      Pow10Monotone(|s|, 10);
      ModUnique(nowMs, Pow10(10), 0, nowMs);
    } else {
      ParseDecimalSuffix(s, 10);
    }
  }
}
