# workout-map, verified model

This project models the core of workout-map's `script.js`. The app is a browser
activity logger. A click on a map opens a form. Submitting the form creates a
running or cycling workout record at the clicked point. The record is appended to
the list, and the list is saved to local storage.

- `wrappers.dfy` (module `Wrappers`): the `Option` type.
- `workouts.dfy` (module `Workouts`): the `Workout`, `Running` and `Cycling`
  classes. They become one immutable datatype with a running and a cycling
  constructor, discriminated by `Type()`. It also holds the derived metrics
  `Pace` (min/km) and `Speed` (km/h from minutes), and the `description` string
  ("Running on March 5") built from a 12-entry month table and the decimal day.
- `app.dfy` (module `WorkoutApp`): the `App` controller as a class. Its fields are
  the workout list, the stored list, the "map loaded" flag, the pending anchor
  (`#mapI`), the form's visibility, the type selector, the four number inputs and
  the hidden flags of the cadence and elevation rows, and whether the event
  listeners were attached. Its methods are `LoadMap` (the success callback
  `_loadMap`), `ShowForm`, `HideForm`, `ToggleElevationField`, `ChangeType`
  (a change of the type selector, whose listener is `_toggleElevationField`),
  `NewWorkout`, `MoveToPopup`, `GetLocalStorage` and `SetLocalStorage`. The validation and
  construction step of `_newWorkout` is the pure function `BuildWorkout`, and
  the `find` by id is the pure function `FindById`.

Clock reads are parameters. The creation date (`getMonth()` in 0..11 and
`getDate()` in 1..31) and the id string are passed in by the caller.

A number input is a `Field`. It is `Blank` (the empty string) or `Entered(n)`,
where `n` is the number unary `+` produced, or `None` when that number is not
finite. `+''` is 0 in JavaScript. So a blank input passes the finiteness check
and becomes 0 (`BlankFormIsAccepted`).

Behaviour of the code that the model keeps:

- The code checks only finiteness (script.js:173, 185), so a zero or negative
  distance or duration is accepted. `Pace` and `Speed` are therefore partial:
  `None` when the divisor is 0, where JavaScript produces `Infinity` or `NaN`.
- A submission before any map click throws a TypeError at script.js:163, where
  `#mapI.latlng` is read before validation. The model returns `NoAnchor` and
  changes nothing. `_moveToPopup` throws when no record has the clicked id, or
  when the map never loaded (script.js:284-287). The model returns `Failed` for both.
- A record without a metric cannot be restored. `JSON.stringify` stores `NaN`
  and `Infinity` as `null` (script.js:291). On the next load `_renderWorkout`
  calls `toFixed` on that `null` (script.js:246, 303-304). The TypeError leaves
  `new App()` before the listeners of script.js:90-92 are attached, so
  submission, the type toggle and list clicks stay dead until storage is
  cleared. An empty form produces such a record (`BlankFormRecordHasNoMetric`),
  and `BlankReloadScenario` walks through it. The model records the outcome in
  the `listening` field; the three event methods require it.

## Model

| member | source | states |
|---|---|---|
| `Workouts.NewRunning` | script.js:42-54 | a Running record has type running, keeps id, date, coords, distance, duration and cadence as passed, starts with 0 clicks, carries the running description, and its pace exists exactly when the distance is non-zero and times the distance gives the duration |
| `Workouts.NewCycling` | script.js:57-69 | a Cycling record has type cycling, keeps id, date, coords, distance, duration and elevationGain as passed, starts with 0 clicks, carries the cycling description, and its speed exists exactly when the duration is non-zero and times the duration in hours gives the distance |
| `Workouts.Pace` | script.js:52-54 | pace is defined iff distance is non-zero and is the number that times the distance gives the duration (min/km) |
| `Workouts.Speed` | script.js:67-69 | speed is defined iff duration is non-zero and is the number that times the duration in hours (minutes / 60) gives the distance (km/h) |
| `Workouts.PaceSpeedReciprocal` | script.js:52-69 | for the same non-zero distance and duration, pace times speed is 60 |
| `Workouts.Click` | script.js:37-39 | `_click` adds one to the click counter and changes no other field |
| `Workouts.Describe` | script.js:30-35 | the reference definition of the description: the capitalised type ("Running on " or "Cycling on "), then the month's name from the 12-entry table, a space and the decimal day; its properties are `DescribeExample` and `DescriptionInjective` |
| `Workouts.DescribeExample` | script.js:30-35 | a running record created on day 5 of month index 2 is described "Running on March 5" |
| `Workouts.DescriptionInjective` | script.js:30-35 | two equal descriptions have the same kind, month and day: the description identifies the kind and the date |
| `Workouts.Decimal` | script.js:34 | the rendered day is a non-empty string of decimal digits with no leading zero |
| `Workouts.DecimalRoundTrip` | script.js:34 | reading the rendered day back as a decimal numeral gives the day |
| `Workouts.DecimalInjective` | script.js:34 | different days render differently |
| `WorkoutApp.BuildWorkout` | script.js:158-190 | a record is built iff distance, duration and the selected kind's own input are all finite; it has the selected kind, the anchor's coordinates, the given id and date, the parsed values, 0 clicks and the kind's description |
| `WorkoutApp.BuildIgnoresOtherInput` | script.js:169-190 | the input of the kind not selected does not affect the submission (running ignores elevation, cycling ignores cadence) |
| `WorkoutApp.BlankFormIsAccepted` | script.js:159-175 | a form whose inputs are all empty passes validation, because the empty string reads as 0 |
| `WorkoutApp.BuiltMetricPresence` | script.js:52-54 | a built record has its pace or speed exactly when the distance (running) or the duration (cycling) is non-zero |
| `WorkoutApp.BlankFormRecordHasNoMetric` | script.js:159-177 | the record of an all-empty form is accepted and has no metric, so it cannot be rendered after a reload |
| `WorkoutApp.ToggleTwice` | script.js:149-152 | toggling the rows twice restores both hidden flags |
| `WorkoutApp.ToggleKeepsExactlyOne` | script.js:149-152 | exactly one of the cadence and elevation rows is shown after the toggle iff exactly one was before |
| `WorkoutApp.ToggleFollowsTypeChange` | script.js:149-152 | if the shown row matches the selected kind, after switching to the other kind and toggling, the shown row matches the new kind, and conversely |
| `WorkoutApp.FindById` | script.js:284 | the result is the first index whose record has the id, or nothing when no record has it |
| `WorkoutApp.App.constructor` | script.js:80-93 | the list starts empty and is replaced by the stored list if one exists; no map, no anchor, form hidden with blank inputs; the listeners are attached iff every restored record has its metric |
| `WorkoutApp.App.GetLocalStorage` | script.js:294-306 | nothing stored leaves the list unchanged; a stored list replaces it, and its rendering succeeds iff every stored record has its metric |
| `WorkoutApp.App.SetLocalStorage` | script.js:290-292 | the stored list becomes the current list |
| `WorkoutApp.App.LoadMap` | script.js:104-130 | after loading, the map is available |
| `WorkoutApp.App.ShowForm` | script.js:133-137 | the clicked coordinates become the anchor and the form is shown |
| `WorkoutApp.App.HideForm` | script.js:139-147 | the four number inputs are empty and the form is hidden |
| `WorkoutApp.App.ToggleElevationField` | script.js:149-152 | both row-hidden flags are flipped |
| `WorkoutApp.App.ChangeType` | script.js:91 | called only once the change listener is attached; picking the other kind flips the selector and toggles both rows, keeping the shown row that of the selected kind |
| `WorkoutApp.App.NewWorkout` | script.js:154-209 | called only once the submit listener is attached; without an anchor the submission fails with nothing changed; with invalid input it is rejected with list, storage, visibility and inputs unchanged; otherwise exactly the built record is appended at the end, earlier entries are unchanged, its coords are the anchor and its kind the selected one, the list is stored, the form is hidden and the inputs are empty |
| `WorkoutApp.App.MoveToPopup` | script.js:278-288 | called only once the list-click listener is attached; a click outside an entry is ignored; otherwise the map recenters on the first record with the entry's id, and the call fails iff no record has that id or the map never loaded |

## Left out

- Leaflet: map creation, the tile layer, markers and popups (script.js:111-123, 211-224). These are calls into a foreign library. Only the "map loaded" flag is kept, and `_moveToPopup`'s `setView` becomes a returned `Recenter` outcome.
- Geolocation (script.js:95-102) is an asynchronous browser API. `LoadMap` stands for its success callback.
- Building list entries as HTML and inserting them (script.js:226-276) is presentation. It includes `toFixed(1)` formatting.
- The `setTimeout` in `_hideForm` that resets the form's display style after a second (script.js:146) is cosmetic and is not modelled.
- `localStorage` and JSON (script.js:290-296) are foreign I/O and a serialisation library. The stored value is an `Option<seq<Workout>>` field. The loss of class methods on reload does not arise, because records are values. The JSON rendering of `NaN` and `Infinity` as `null` is not modelled.
- `Date.now()` and `new Date()` (script.js:20-21) are clock reads: the id and the date are parameters. The `slice(-10)` truncation of the timestamp is not modelled.
- The `console.log` calls and the throwaway `run1`/`cycle1` objects (script.js:72-73, 194, 296) have no effect on the state.
- WorkoutApp.App.constructor: the restore's TypeError is modelled as the `listening` flag staying false. The map's geolocation callback, requested before the throw, still runs (`LoadMap`); the rest of the aborted constructor has no further effect in the model.
- Floating point: distances, durations and metrics are `real`. IEEE-754 rounding, `Infinity` and `NaN` are not modelled. A metric whose divisor is 0 is `None`.
- Workouts.Click: the record is a value, so `_click` returns an updated copy instead of changing a shared object in place. The source never calls `_click`.
- The type selector is two-valued. The code would push `undefined` for any other value (script.js:161, 193), but the page offers only the two kinds.
- The initial state of the form comes from index.html, which is not part of this model. The constructor assumes a hidden form, running selected, the cadence row shown and the elevation row hidden, and blank inputs.
- `ToggleElevationField` is reached only through `ChangeType`, as the selector's change event is its only caller. Called on its own it would leave the shown row out of step with the selector, so it does not promise `Valid()`.
- Text entry into the number inputs is done by the user through the DOM. The model's clients assign the input fields directly.
