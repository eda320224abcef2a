/** The form values after `+input.value`, and the per-type check that
    `_newWorkout` runs on them before it builds a record. */
module Validation {
  import opened Workouts

  /** A JavaScript number: a finite value or one of the three non-finite ones. */
  datatype Number = Num(value: real) | NaN | Infinity | NegativeInfinity

  /** `val > 0` on a JavaScript number: false for NaN, true for +Infinity. */
  predicate GreaterThanZero(x: Number)
  {
    match x
    case Num(v) => v > 0.0
    case Infinity => true
    case _ => false
  }

  /** `isValid`: every value passes `Number.isFinite`. */
  function IsValid(values: seq<Number>): (r: bool)
    ensures r <==> forall i :: 0 <= i < |values| ==> values[i].Num?
  {
    if values == [] then true else values[0].Num? && IsValid(values[1..])
  }

  /** `isPositive`: every value is `> 0`. */
  function IsPositive(values: seq<Number>): (r: bool)
    ensures r <==> forall i :: 0 <= i < |values| ==> GreaterThanZero(values[i])
  {
    if values == [] then true else GreaterThanZero(values[0]) && IsPositive(values[1..])
  }

  /** The submitted form: the selected type and the four numeric inputs.
      Only the input that belongs to the type is consulted. */
  datatype Form = Form(kind: WorkoutType, distance: Number, duration: Number,
                       cadence: Number, elevation: Number)

  /** The check `_newWorkout` makes before it builds the record. */
  predicate Accepted(f: Form)
    ensures Accepted(f) ==>
      && f.distance.Num? && f.duration.Num?
      && f.distance.value > 0.0 && f.duration.value > 0.0
  {
    match f.kind
    case RunningType =>
      var values := [f.distance, f.duration, f.cadence];
      assert values[0] == f.distance && values[1] == f.duration;
      IsValid(values) && IsPositive(values)
    case CyclingType =>
      var values := [f.distance, f.duration, f.elevation];
      assert values[0] == f.distance && values[1] == f.duration;
      IsValid(values) && IsPositive([f.distance, f.duration])
  }

  /** A running form passes exactly when distance, duration and cadence are
      all finite and strictly positive. */
  lemma RunningAccepted(f: Form)
    requires f.kind == RunningType
    ensures Accepted(f) <==>
      && f.distance.Num? && f.duration.Num? && f.cadence.Num?
      && f.distance.value > 0.0 && f.duration.value > 0.0 && f.cadence.value > 0.0
  {
    var vs := [f.distance, f.duration, f.cadence];
    assert vs[0] == f.distance && vs[1] == f.duration && vs[2] == f.cadence;
  }

  /** A cycling form passes exactly when distance, duration and elevation
      are finite and distance and duration strictly positive; a zero or
      negative elevation gain passes. */
  lemma CyclingAccepted(f: Form)
    requires f.kind == CyclingType
    ensures Accepted(f) <==>
      && f.distance.Num? && f.duration.Num? && f.elevation.Num?
      && f.distance.value > 0.0 && f.duration.value > 0.0
  {
    var vs := [f.distance, f.duration, f.elevation];
    assert vs[0] == f.distance && vs[1] == f.duration && vs[2] == f.elevation;
    var ps := [f.distance, f.duration];
    assert ps[0] == f.distance && ps[1] == f.duration;
  }

  /** The inputs that must be rejected or accepted, one per case. */
  lemma ValidationExamples()
    ensures !Accepted(Form(RunningType, Num(0.0), Num(30.0), Num(150.0), NaN))
    ensures !Accepted(Form(RunningType, Num(5.0), Num(-1.0), Num(150.0), NaN))
    ensures !Accepted(Form(RunningType, Num(5.0), Num(30.0), NaN, NaN))
    ensures !Accepted(Form(RunningType, Num(5.0), Infinity, Num(150.0), NaN))
    ensures Accepted(Form(RunningType, Num(5.0), Num(30.0), Num(150.0), NaN))
    ensures Accepted(Form(CyclingType, Num(10.0), Num(40.0), NaN, Num(-5.0)))
    ensures !Accepted(Form(CyclingType, Num(10.0), Num(40.0), Num(150.0), NaN))
  {
    RunningAccepted(Form(RunningType, Num(0.0), Num(30.0), Num(150.0), NaN));
    RunningAccepted(Form(RunningType, Num(5.0), Num(-1.0), Num(150.0), NaN));
    RunningAccepted(Form(RunningType, Num(5.0), Num(30.0), NaN, NaN));
    RunningAccepted(Form(RunningType, Num(5.0), Infinity, Num(150.0), NaN));
    RunningAccepted(Form(RunningType, Num(5.0), Num(30.0), Num(150.0), NaN));
    CyclingAccepted(Form(CyclingType, Num(10.0), Num(40.0), NaN, Num(-5.0)));
    CyclingAccepted(Form(CyclingType, Num(10.0), Num(40.0), Num(150.0), NaN));
  }
}
