# Mapty workouts in Dafny

A model of the logic of Mapty, a browser activity tracker: the user clicks
a location on a map, fills a form with a running or cycling session, and
the app builds a workout record at that location and appends it to its
list of workouts. The model covers:

- the record classes `Workout`, `Running` and `Cycling` (`workouts.dfy`):
  the stored measurements, the one derived metric each type computes
  (pace in min/km, speed in km/h), the description "Running on March 5"
  built from the type tag and the calendar day, the id taken from the
  millisecond clock, and the click counter;
- the form values and the per-type validation (`validation.dfy`): a
  JavaScript number is a finite real or one of NaN, +Infinity, -Infinity,
  so that `Number.isFinite` and `val > 0` keep their JavaScript meaning;
- the controller `App` (`controller.dfy`): the pending map click
  (`#mapEvent`), the append-only workout list (`#workouts`), the submission
  workflow of `_newWorkout`, the id lookup of `_moveToPopup` and the restore
  step of `_getLocalStorage`. `ShowForm` and `NewWorkout` are proved
  against the pure step function `Step` (which uses `Submit`), and
  `MoveToPopup` against `FindIndex`. Lemmas about runs of events state what
  holds over any sequence of clicks and submissions;
- decimal numerals and month names (`text.dfy`), which the description and
  the id need.

Three behaviours of the code that a reader might not expect, and that the
model keeps:

- After a successful submission the code does not clear `#mapEvent`, so a
  second submission without a new click reuses the old location. The model
  keeps the pending click.
- Cadence is accepted as any finite positive number, not only an integer.
  Elevation gain is accepted when it is zero or negative.
- A list click whose id matches no workout is not handled: the code reads
  `coords` of `undefined` and throws. `MoveToPopup` returns `None` for that
  case. It does not claim the case is handled.

## Model

| member | source | states |
|---|---|---|
| `Workouts.CalcPace` | script.js:48-51 | pace times distance gives back the duration |
| `Workouts.CalcSpeed` | script.js:66-69 | speed times duration (minutes) is 60 times the distance |
| `Workouts.NewRunning` | script.js:39-46 | a new running record stores coords, distance, duration and cadence, has pace = duration / distance, the running description for its date, the clock-derived id and zero clicks, and its derived fields agree (`Derived`) |
| `Workouts.NewCycling` | script.js:57-64 | a new cycling record stores coords, distance, duration and elevation gain, has speed = distance / (duration / 60), the cycling description, the clock-derived id and zero clicks, and its derived fields agree |
| `Workouts.Description` | script.js:25-29 | the description is "Running" or "Cycling" (the tag with its first letter upper-cased), " on ", the month name at index `getMonth()`, a space and the day numeral; `DescriptionInjective` shows it names all three unambiguously |
| `Workouts.WorkoutId` | script.js:17 | the id is the last ten characters of the clock's decimal numeral, or all of it when shorter; `WorkoutIdDigits` gives its value |
| `Workouts.MetricDetermined` | script.js:44-68 | in a record whose derived fields agree, the metric is the source's formula, and no other value |
| `Workouts.DescriptionInjective` | script.js:25-29 | two equal descriptions have the same type, month and day: the description names all three unambiguously |
| `Workouts.DescriptionExample` | script.js:28 | the running description for March 5 is "Running on March 5" |
| `Workouts.WorkoutIdDigits` | script.js:17 | the id is at most ten decimal digits and reads back as the clock value modulo 10^10 |
| `Workouts.Click` | script.js:31-33 | the click count goes up by one and no other field changes |
| `Text.DecimalString` | script.js:28 | the numeral written for a day or a clock reading is a non-empty string of decimal digits with no leading zero (only 0 itself starts with '0'); `ParseDecimalString` shows it reads back as the number |
| `Text.ParseDecimalString` | script.js:28 | the day numeral in a description reads back as the day of the month |
| `Validation.IsValid` | script.js:139 | true exactly when every value is finite |
| `Validation.IsPositive` | script.js:140 | true exactly when every value is greater than zero in JavaScript's sense (NaN is not, +Infinity is) |
| `Validation.Accepted` | script.js:154-176 | the per-type check of `_newWorkout`; a form that passes has finite, positive distance and duration; `RunningAccepted` and `CyclingAccepted` state the whole rule per type |
| `Validation.RunningAccepted` | script.js:154-160 | a running form passes exactly when distance, duration and cadence are all finite and strictly positive |
| `Validation.CyclingAccepted` | script.js:166-173 | a cycling form passes exactly when distance, duration and elevation are finite and distance and duration strictly positive; elevation may be zero or negative |
| `Validation.ValidationExamples` | script.js:154-173 | distance 0, duration -1, cadence NaN and an infinite duration are rejected; 5 km / 30 min / cadence 150 and a cycling form with elevation -5 are accepted |
| `Controller.Submit` | script.js:136-178 | with no captured click nothing is built; with one, the form is rejected exactly when the check fails; otherwise one record is built at the captured click from the form's values and the clock, fully derived, with positive distance and duration (and cadence for running) |
| `Controller.Step` | script.js:126-178 | a map click replaces the pending click and leaves the list; a submission keeps the pending click, and the old list is a prefix of the new one, which is at most one record longer; `RunAppends` extends this to any sequence of events |
| `Controller.RejectedChangesNothing` | script.js:157-160 | a rejected submission, or one with no captured click, leaves the list and the pending click exactly as they were |
| `Controller.RunAppends` | script.js:178 | after any sequence of clicks and submissions the list is the old list followed by the new records in submission order |
| `Controller.CreatedRecords` | script.js:126-178 | every record a sequence of events creates is fully derived, and its coords are the click pending at the start or one of the map clicks among the events |
| `Controller.FindIndex` | script.js:280 | the position found holds a workout with the id and no earlier one has it; no position means no workout has it |
| `Controller.RunningScenario` | script.js:154-162 | a click at (51.5, -0.1) followed by a 5 km, 30 min, cadence 150 run leaves one running record at that click with pace 6 |
| `Controller.CyclingScenario` | script.js:166-175 | a 10 km, 40 min ride with elevation -5 is created, with speed 15 |
| `Controller.App.constructor` | script.js:78-85 | the app starts with no pending click and with the stored list when there is one, the empty list otherwise |
| `Controller.App.LoadFromStorage` | script.js:297-307 | stored data, when present, replaces the whole list as it is; absent data leaves the list alone |
| `Controller.App.ShowForm` | script.js:126-129 | the clicked location becomes the pending click and the list is unchanged |
| `Controller.App.NewWorkout` | script.js:136-178 | the outcome is `Submit`'s for the pending click; on success exactly that record is appended at the end, otherwise the list is unchanged; the pending click stays; records built in the session stay fully derived (`Valid`) |
| `Controller.App.MoveToPopup` | script.js:275-291 | returns the coords of the first workout with the clicked id, and `None` exactly when no workout has it; the list is not modified |

## Left out

- Page plumbing: DOM queries, showing and hiding the form, toggling the
  cadence/elevation rows, clearing the inputs and the `setTimeout` that
  restores the layout (`_hideForm`, `_toggleElevationField`). They hold no
  logic.
- The Leaflet map: `_loadMap`, tile layer, `_renderWorkoutOnMap`, markers,
  popups and `setView`. `MoveToPopup` returns the coordinates the map is
  centred on instead of calling the map. The map's absence before
  geolocation succeeds is not modelled.
- Geolocation (`_getPosition`): an asynchronous browser service.
- `_renderWorkoutOnList`: HTML building and `toFixed(1)` formatting.
- `_setLocalStorage`, `_reset` and JSON (de)serialisation: the stored entry
  enters the model only as the parameter of the constructor and
  `LoadFromStorage`, already decoded into records.
- `+input.value`: string-to-number coercion. A form carries numbers that
  are already coerced.
- A form type other than "running" or "cycling": the code would push
  `undefined`; the type select offers only these two values.
- Floating point: the model computes in exact reals, so the metric laws
  hold exactly here and up to rounding in the source.
- Dates and the clock: the calendar day (`getMonth`, `getDate`) and the
  millisecond clock (`Date.now()`) are parameters. Time zones and the
  `Date` object are not modelled. Nothing is claimed about id uniqueness.
- `_click` updating the record object in place: records are values, and
  `Click` returns the updated record. The source never calls `_click`.
- `Workouts.NewRunning` and `Workouts.NewCycling` require a non-zero
  divisor. JavaScript would give Infinity, -Infinity or NaN there, but the
  only call sites (script.js:162 and script.js:175) run after validation
  has ensured distance > 0 and duration > 0.
- `Controller.App.MoveToPopup`: a click outside any list entry returns
  early in the source. That DOM check is not modelled.
