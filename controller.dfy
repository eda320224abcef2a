/** The application controller: the pending map click, the ordered list of
    workouts, and the events that change them (a map click, a form
    submission, restoring from storage) or read them (a list click). */
module Controller {
  import opened Wrappers
  import opened Text
  import opened Workouts
  import opened Validation

  /** What a form submission comes to. `NoMapEvent`: no map click was ever
      captured, so reading its `latlng` throws before anything changes.
      `Rejected`: the values failed the check and an alert was shown. */
  datatype Outcome = NoMapEvent | Rejected | Added(workout: Workout)

  /** The submission step of `_newWorkout`, given the pending click, the
      form values and the clock readings the record takes. */
  function Submit(pending: Option<Coords>, form: Form, date: CalendarDate, nowMs: nat): (r: Outcome)
    ensures r.NoMapEvent? <==> pending.None?
    ensures r.Rejected? <==> pending.Some? && !Accepted(form)
    ensures r.Added? ==> Built(r.workout) && r.workout.Type() == form.kind
    ensures r.Added? ==> r.workout.coords == pending.value
    ensures r.Added? ==> form.distance == Num(r.workout.distance) && form.duration == Num(r.workout.duration)
    ensures r.Added? && form.kind == RunningType ==> form.cadence == Num(r.workout.cadence)
    ensures r.Added? && form.kind == CyclingType ==> form.elevation == Num(r.workout.elevationGain)
    ensures r.Added? ==> r.workout.date == date && r.workout.id == WorkoutId(nowMs)
  {
    if pending.None? then NoMapEvent
    else if !Accepted(form) then Rejected
    else
      match form.kind
      case RunningType =>
        RunningAccepted(form);
        Added(NewRunning(pending.value, form.distance.value, form.duration.value,
                         form.cadence.value, date, nowMs))
      case CyclingType =>
        CyclingAccepted(form);
        Added(NewCycling(pending.value, form.distance.value, form.duration.value,
                         form.elevation.value, date, nowMs))
  }

  /** What holds of every record built in this session: its derived fields
      agree, it has not been clicked, and the measurements the check
      demands to be positive are positive. */
  predicate Built(w: Workout)
  {
    && Derived(w)
    && w.clicks == 0
    && w.distance > 0.0 && w.duration > 0.0
    && (w.Running? ==> w.cadence > 0.0)
  }

  /** The controller's state: `#workouts` and the click `#mapEvent` holds. */
  datatype AppState = AppState(workouts: seq<Workout>, pending: Option<Coords>)

  /** The events that change the state. */
  datatype Event =
    | MapClick(at: Coords)
    | FormSubmit(form: Form, date: CalendarDate, nowMs: nat)

  /** The records one event appends. */
  function Appended(s: AppState, e: Event): seq<Workout>
  {
    match e
    case MapClick(_) => []
    case FormSubmit(form, date, nowMs) =>
      match Submit(s.pending, form, date, nowMs)
      case Added(w) => [w]
      case _ => []
  }

  /** One event: a map click replaces the pending click and leaves the list;
      a submission keeps the pending click and appends at most one record. */
  function Step(s: AppState, e: Event): (r: AppState)
    ensures r.pending == (if e.MapClick? then Some(e.at) else s.pending)
    ensures |s.workouts| <= |r.workouts| <= |s.workouts| + (if e.FormSubmit? then 1 else 0)
    ensures r.workouts[..|s.workouts|] == s.workouts
  {
    match e
    case MapClick(at) => s.(pending := Some(at))
    case FormSubmit(_, _, _) => s.(workouts := s.workouts + Appended(s, e))
  }

  /** The state after a sequence of events. */
  function Run(s: AppState, events: seq<Event>): AppState
    decreases |events|
  {
    if events == [] then s else Run(Step(s, events[0]), events[1..])
  }

  /** The records a sequence of events appends, in the order of the events. */
  function CreatedBy(s: AppState, events: seq<Event>): seq<Workout>
    decreases |events|
  {
    if events == [] then [] else Appended(s, events[0]) + CreatedBy(Step(s, events[0]), events[1..])
  }

  /** The store only grows at its end: after any events it is the old store
      followed by the new records in submission order. */
  lemma {:induction false} RunAppends(s: AppState, events: seq<Event>)
    ensures Run(s, events).workouts == s.workouts + CreatedBy(s, events)
    decreases |events|
  {
    if events != [] {
      var e, rest := events[0], events[1..];
      var s' := Step(s, e);
      assert Run(s, events) == Run(s', rest);
      assert CreatedBy(s, events) == Appended(s, e) + CreatedBy(s', rest);
      RunAppends(s', rest);
      StepAppends(s, e);
      assert s.workouts + Appended(s, e) + CreatedBy(s', rest)
          == s.workouts + (Appended(s, e) + CreatedBy(s', rest));
    }
  }

  lemma StepAppends(s: AppState, e: Event)
    ensures Step(s, e).workouts == s.workouts + Appended(s, e)
  {
    if e.MapClick? {
      assert Appended(s, e) == [];
    }
  }

  /** Every record the events create is fully derived, and sits at a
      location that was clicked on the map: the one pending at the start or
      one of the clicks among the events. */
  lemma {:induction false} CreatedRecords(s: AppState, events: seq<Event>)
    ensures forall w :: w in CreatedBy(s, events) ==> Built(w)
    ensures forall w :: w in CreatedBy(s, events) ==>
      s.pending == Some(w.coords) || MapClick(w.coords) in events
    decreases |events|
  {
    if events != [] {
      var e, s' := events[0], Step(s, events[0]);
      CreatedRecords(s', events[1..]);
      forall w | w in CreatedBy(s, events)
        ensures Built(w)
        ensures s.pending == Some(w.coords) || MapClick(w.coords) in events
      {
        if w in Appended(s, e) {
          assert e.FormSubmit? && s.pending.Some? && w.coords == s.pending.value;
        } else {
          assert w in CreatedBy(s', events[1..]);
          assert e in events && (forall x :: x in events[1..] ==> x in events);
          if e.MapClick? {
            assert s'.pending == Some(e.at);
          }
        }
      }
    }
  }

  /** A rejected submission, or one with no captured click, leaves the
      whole state exactly as it was. */
  lemma RejectedChangesNothing(s: AppState, form: Form, date: CalendarDate, nowMs: nat)
    requires s.pending.None? || !Accepted(form)
    ensures Step(s, FormSubmit(form, date, nowMs)) == s
  {
  }

  /** The first position in `workouts` whose id is `id`, as `find` scans. */
  function FindIndex(workouts: seq<Workout>, id: string): (r: Option<nat>)
    ensures r.Some? ==> r.value < |workouts| && workouts[r.value].id == id
    ensures r.Some? ==> forall j :: 0 <= j < r.value ==> workouts[j].id != id
    ensures r.None? ==> forall j :: 0 <= j < |workouts| ==> workouts[j].id != id
  {
    if workouts == [] then None
    else if workouts[0].id == id then Some(0)
    else
      match FindIndex(workouts[1..], id)
      case None => None
      case Some(k) => Some(k + 1)
  }

  /** The scenario a running submission is known by: a click at
      (51.5, -0.1), then 5 km in 30 minutes at cadence 150. */
  lemma RunningScenario(date: CalendarDate, nowMs: nat)
    ensures
      var form := Form(RunningType, Num(5.0), Num(30.0), Num(150.0), NaN);
      var s := Run(AppState([], None), [MapClick((51.5, -0.1)), FormSubmit(form, date, nowMs)]);
      && |s.workouts| == 1
      && s.workouts[0].Running? && s.workouts[0].pace == 6.0
      && s.workouts[0].coords == (51.5, -0.1)
  {
    var form := Form(RunningType, Num(5.0), Num(30.0), Num(150.0), NaN);
    var s0 := AppState([], None);
    var events := [MapClick((51.5, -0.1)), FormSubmit(form, date, nowMs)];
    RunningAccepted(form);
    var s1 := Step(s0, events[0]);
    assert Run(s0, events) == Run(s1, events[1..]);
    assert events[1..] == [events[1]] && events[1..][1..] == [];
    assert Run(s1, events[1..]) == Run(Step(s1, events[1]), []);
  }

  /** A cycling submission with a negative elevation gain is still created,
      with speed 15 km/h for 10 km in 40 minutes. */
  lemma CyclingScenario(date: CalendarDate, nowMs: nat)
    ensures
      var form := Form(CyclingType, Num(10.0), Num(40.0), NaN, Num(-5.0));
      var r := Submit(Some((51.5, -0.1)), form, date, nowMs);
      r.Added? && r.workout.speed == 15.0 && r.workout.elevationGain == -5.0
  {
    CyclingAccepted(Form(CyclingType, Num(10.0), Num(40.0), NaN, Num(-5.0)));
  }

  /** `App`: owns `#workouts` and `#mapEvent`. Records restored from
      storage come first and are display-only; every record after them was
      built by a submission in this session. */
  class App {
    var workouts: seq<Workout>
    var pendingClick: Option<Coords>
    ghost var restored: nat

    ghost predicate Valid()
      reads this
    {
      && restored <= |workouts|
      && forall i :: restored <= i < |workouts| ==> Built(workouts[i])
    }

    function Snapshot(): AppState
      reads this
    {
      AppState(workouts, pendingClick)
    }

    /** Starts empty, with no click captured, then restores from storage. */
    constructor (stored: Option<seq<Workout>>)
      ensures Valid()
      ensures workouts == (if stored.Some? then stored.value else [])
      ensures pendingClick.None?
    {
      workouts := [];
      pendingClick := None;
      restored := 0;
      new;
      LoadFromStorage(stored);
    }

    /** `_getLocalStorage`: stored data, when there is any, replaces the
        whole list as it is, without rebuilding any record. */
    method LoadFromStorage(stored: Option<seq<Workout>>)
      requires Valid()
      modifies this
      ensures Valid()
      ensures workouts == (if stored.Some? then stored.value else old(workouts))
      ensures pendingClick == old(pendingClick)
    {
      if stored.None? {
        return;
      }
      workouts := stored.value;
      restored := |workouts|;
    }

    /** `_showForm`: remembers where the map was clicked. */
    method ShowForm(lat: real, lng: real)
      requires Valid()
      modifies this
      ensures Valid() && restored == old(restored)
      ensures pendingClick == Some((lat, lng)) && workouts == old(workouts)
      ensures Snapshot() == Step(old(Snapshot()), MapClick((lat, lng)))
    {
      pendingClick := Some((lat, lng));
    }

    /** `_newWorkout`: validates the form for its type and, if it passes,
        appends one record built at the pending click. */
    method NewWorkout(form: Form, date: CalendarDate, nowMs: nat) returns (outcome: Outcome)
      requires Valid()
      modifies this
      ensures Valid() && restored == old(restored)
      ensures outcome == Submit(old(pendingClick), form, date, nowMs)
      ensures workouts == if outcome.Added? then old(workouts) + [outcome.workout] else old(workouts)
      ensures pendingClick == old(pendingClick)
      ensures Snapshot() == Step(old(Snapshot()), FormSubmit(form, date, nowMs))
    {
      if pendingClick.None? {
        return NoMapEvent;
      }
      var (lat, lng) := pendingClick.value;
      var workout: Workout;
      match form.kind {
        case RunningType =>
          RunningAccepted(form);
          if !IsValid([form.distance, form.duration, form.cadence])
             || !IsPositive([form.distance, form.duration, form.cadence]) {
            return Rejected;
          }
          workout := NewRunning((lat, lng), form.distance.value, form.duration.value,
                                form.cadence.value, date, nowMs);
        case CyclingType =>
          CyclingAccepted(form);
          if !IsValid([form.distance, form.duration, form.elevation])
             || !IsPositive([form.distance, form.duration]) {
            return Rejected;
          }
          workout := NewCycling((lat, lng), form.distance.value, form.duration.value,
                                form.elevation.value, date, nowMs);
      }
      workouts := workouts + [workout];
      outcome := Added(workout);
    }

    /** `_moveToPopup`: the coordinates of the first workout with the
        clicked id, where the map is re-centred. `None` is the case the
        source does not guard: it reads `coords` of `undefined` and throws. */
    method MoveToPopup(id: string) returns (target: Option<Coords>)
      ensures target.None? <==> forall i :: 0 <= i < |workouts| ==> workouts[i].id != id
      ensures target.Some? ==>
        exists i :: && 0 <= i < |workouts| && workouts[i].id == id
                    && workouts[i].coords == target.value
                    && forall j :: 0 <= j < i ==> workouts[j].id != id
    {
      var found := FindIndex(workouts, id);
      if found.None? {
        return None;
      }
      target := Some(workouts[found.value].coords);
    }
  }
}
