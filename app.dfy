/**
 The `App` controller of script.js, reduced to its state effects.

 The DOM form becomes fields of the class: the visibility of the form, the
 value of the type selector, the four number inputs and the hidden flags of
 the cadence and elevation rows. `#mapI` is the pending anchor, `#map` is
 reduced to whether the map was loaded, and the `workouts` entry of local
 storage is a field holding the stored list (or nothing).
 */
module WorkoutApp {
  import opened Wrappers
  import opened Workouts

  /** The content of a number input. Unary `+` turns the empty string into 0,
      and any other text into a number, which may not be finite
      (`Entered(None)`). */
  datatype Field = Blank | Entered(number: Option<real>)

  /** `+input.value`, kept only when `Number.isFinite` accepts it. */
  function Parse(f: Field): Option<real> {
    match f
    case Blank => Some(0.0)
    case Entered(n) => n
  }

  /** Whether the cadence row and the elevation row carry `form__row--hidden`. */
  datatype Rows = Rows(cadenceHidden: bool, elevationHidden: bool) {
    /** Both rows toggled, as `_toggleElevationField` does. */
    function Toggled(): Rows {
      Rows(!cadenceHidden, !elevationHidden)
    }
  }

  /** The row of the type-specific input of kind `k` is shown, the other one hidden. */
  predicate RowsMatch(k: Kind, rows: Rows) {
    match k
    case Running => !rows.cadenceHidden && rows.elevationHidden
    case Cycling => rows.cadenceHidden && !rows.elevationHidden
  }

  /** Toggling twice restores both flags. */
  lemma ToggleTwice(rows: Rows)
    ensures rows.Toggled().Toggled() == rows
  {
  }

  /** Toggling keeps "exactly one of the two rows is shown". */
  lemma ToggleKeepsExactlyOne(rows: Rows)
    ensures (rows.cadenceHidden != rows.elevationHidden) <==>
            (rows.Toggled().cadenceHidden != rows.Toggled().elevationHidden)
  {
  }

  function Other(k: Kind): (o: Kind)
    ensures o != k
  {
    match k
    case Running => Cycling
    case Cycling => Running
  }

  /** A change of the two-valued selector followed by the toggle keeps the
      shown row the one of the selected kind. */
  lemma ToggleFollowsTypeChange(k: Kind, rows: Rows)
    ensures RowsMatch(k, rows) <==> RowsMatch(Other(k), rows.Toggled())
  {
  }

  /** The input that `_newWorkout` reads besides distance and duration. */
  function SpecificField(k: Kind, cadence: Field, elevation: Field): Field {
    match k
    case Running => cadence
    case Cycling => elevation
  }

  /** The validation and construction steps of `_newWorkout`: the record of
      the selected kind at the anchor, or nothing when distance, duration or
      the kind's own input is not a finite number. */
  function BuildWorkout(k: Kind, id: string, date: Date, at: Coords,
                        distance: Field, duration: Field, cadence: Field, elevation: Field): (r: Option<Workout>)
    ensures r.Some? <==> Parse(distance).Some? && Parse(duration).Some? && Parse(SpecificField(k, cadence, elevation)).Some?
    ensures r.Some? ==> r.value.Type() == k && r.value.coords == at && r.value.id == id && r.value.date == date
    ensures r.Some? ==> r.value.distance == Parse(distance).value && r.value.duration == Parse(duration).value
    ensures r.Some? && k == Running ==> r.value.cadence == Parse(cadence).value
    ensures r.Some? && k == Cycling ==> r.value.elevationGain == Parse(elevation).value
    ensures r.Some? ==> r.value.clicks == 0 && r.value.description == Describe(k, date)
  {
    match k
    case Running =>
      if Parse(distance).None? || Parse(duration).None? || Parse(cadence).None? then None
      else Some(NewRunning(id, date, at, Parse(distance).value, Parse(duration).value, Parse(cadence).value))
    case Cycling =>
      if Parse(distance).None? || Parse(duration).None? || Parse(elevation).None? then None
      else Some(NewCycling(id, date, at, Parse(distance).value, Parse(duration).value, Parse(elevation).value))
  }

  /** The input of the kind not selected plays no part in a submission. */
  lemma BuildIgnoresOtherInput(k: Kind, id: string, date: Date, at: Coords,
                               distance: Field, duration: Field, cadence: Field, elevation: Field,
                               cadence': Field, elevation': Field)
    requires SpecificField(k, cadence, elevation) == SpecificField(k, cadence', elevation')
    ensures BuildWorkout(k, id, date, at, distance, duration, cadence, elevation)
         == BuildWorkout(k, id, date, at, distance, duration, cadence', elevation')
  {
  }

  /** An empty form passes validation: every blank input reads as 0. */
  lemma BlankFormIsAccepted(k: Kind, id: string, date: Date, at: Coords)
    ensures BuildWorkout(k, id, date, at, Blank, Blank, Blank, Blank).Some?
  {
  }

  /** A built record has its metric exactly when the divisor of its formula
      (the distance for running, the duration for cycling) is non-zero. */
  lemma BuiltMetricPresence(k: Kind, id: string, date: Date, at: Coords,
                            distance: Field, duration: Field, cadence: Field, elevation: Field)
    requires BuildWorkout(k, id, date, at, distance, duration, cadence, elevation).Some?
    ensures HasMetric(BuildWorkout(k, id, date, at, distance, duration, cadence, elevation).value) <==>
            (if k == Running then Parse(distance).value != 0.0 else Parse(duration).value != 0.0)
  {
  }

  /** Every record has its metric, so every one renders after a reload. */
  predicate AllHaveMetric(ws: seq<Workout>) {
    forall i :: 0 <= i < |ws| ==> HasMetric(ws[i])
  }

  /** The record of an empty form has no metric, so once stored it cannot be
      rendered again on the next load. */
  lemma BlankFormRecordHasNoMetric(k: Kind, id: string, date: Date, at: Coords)
    ensures BuildWorkout(k, id, date, at, Blank, Blank, Blank, Blank).Some?
    ensures !HasMetric(BuildWorkout(k, id, date, at, Blank, Blank, Blank, Blank).value)
  {
  }

  /** `Array.prototype.find` by id: the index of the first record with that id. */
  function FindById(ws: seq<Workout>, id: string): (r: Option<nat>)
    ensures r.Some? ==> r.value < |ws| && ws[r.value].id == id
    ensures r.Some? ==> forall j :: 0 <= j < r.value ==> ws[j].id != id
    ensures r.None? ==> forall j :: 0 <= j < |ws| ==> ws[j].id != id
  {
    if ws == [] then None
    else if ws[0].id == id then Some(0)
    else
      match FindById(ws[1..], id)
      case None => None
      case Some(i) => Some(i + 1)
  }

  /** What submitting the form does. */
  datatype SubmitOutcome =
    | Added      // a record was appended, the form hidden and the list stored
    | Rejected   // the "Inputs have to be numbers" alert; nothing changes
    | NoAnchor   // `#mapI` was never set: reading its `latlng` throws; nothing changes

  /** What a click in the list does. */
  datatype PopupOutcome =
    | Ignored                              // the click was not inside a workout entry
    | Recenter(index: nat, coords: Coords) // `setView` on the found record's coordinates
    | Failed                               // no record has that id, or no map: a TypeError

  class App {
    var workouts: seq<Workout>
    var stored: Option<seq<Workout>>
    var mapLoaded: bool
    var anchor: Option<Coords>
    var formVisible: bool
    var selectedType: Kind
    var distanceInput: Field
    var durationInput: Field
    var cadenceInput: Field
    var elevationInput: Field
    var rows: Rows
    var listening: bool

    /** The map click handler is registered only once the map is loaded, so
        an anchor implies a map; the shown row follows the selector. */
    ghost predicate Valid()
      reads this
    {
      (anchor.Some? ==> mapLoaded) && RowsMatch(selectedType, rows)
    }

    /** `new App()`: the list starts empty and is then restored from storage;
        the form starts hidden with running selected and every input blank.
        The submit, change and list-click listeners are attached only when
        every restored entry rendered; otherwise the render's TypeError has
        already left the constructor. */
    constructor (stored: Option<seq<Workout>>)
      ensures Valid()
      ensures workouts == (if stored.Some? then stored.value else [])
      ensures this.stored == stored
      ensures !mapLoaded && anchor == None && !formVisible
      ensures selectedType == Running && rows == Rows(false, true)
      ensures distanceInput == durationInput == cadenceInput == elevationInput == Blank
      ensures listening <==> stored.None? || AllHaveMetric(stored.value)
    {
      workouts := [];
      this.stored := stored;
      mapLoaded := false;
      anchor := None;
      formVisible := false;
      selectedType := Running;
      distanceInput, durationInput, cadenceInput, elevationInput := Blank, Blank, Blank, Blank;
      rows := Rows(false, true);
      listening := false;
      new;
      var rendered := GetLocalStorage();
      listening := rendered;
    }

    /** `_getLocalStorage`: nothing stored leaves the list alone, a stored
        list replaces it and each entry is rendered in turn. Rendering reads
        the metric's `toFixed`, which throws on the `null` that storage made
        of a missing metric: `rendered` is false when that happened. */
    method GetLocalStorage() returns (rendered: bool)
      requires Valid()
      modifies this`workouts
      ensures Valid()
      ensures workouts == if stored.Some? then stored.value else old(workouts)
      ensures rendered <==> stored.None? || AllHaveMetric(stored.value)
    {
      if stored.None? {
        return true;
      }
      workouts := stored.value;
      var i := 0;
      while i < |workouts|
        invariant 0 <= i <= |workouts|
        invariant forall j :: 0 <= j < i ==> HasMetric(workouts[j])
      {
        if !HasMetric(workouts[i]) {
          return false;
        }
        i := i + 1;
      }
      rendered := true;
    }

    /** `_setLocalStorage`: the whole list overwrites the stored one. */
    method SetLocalStorage()
      requires Valid()
      modifies this`stored
      ensures Valid()
      ensures stored == Some(workouts)
    {
      stored := Some(workouts);
    }

    /** `_loadMap`, reduced to the map becoming available. */
    method LoadMap()
      requires Valid()
      modifies this`mapLoaded
      ensures Valid() && mapLoaded
    {
      mapLoaded := true;
    }

    /** `_showForm`: the map click's coordinates become the anchor and the
        form is shown. Only the loaded map calls it. */
    method ShowForm(at: Coords)
      requires Valid() && mapLoaded
      modifies this`anchor, this`formVisible
      ensures Valid()
      ensures anchor == Some(at) && formVisible
    {
      anchor := Some(at);
      formVisible := true;
    }

    /** `_hideForm`: the four number inputs are emptied and the form hidden. */
    method HideForm()
      requires Valid()
      modifies this`distanceInput, this`durationInput, this`cadenceInput, this`elevationInput, this`formVisible
      ensures Valid()
      ensures distanceInput == durationInput == cadenceInput == elevationInput == Blank
      ensures !formVisible
    {
      distanceInput := Blank;
      durationInput := Blank;
      cadenceInput := Blank;
      elevationInput := Blank;
      formVisible := false;
    }

    /** `_toggleElevationField`: both rows flip. Its only caller is the
        selector's `change` listener (`ChangeType`); on its own it would leave
        the shown row out of step with the selector. */
    method ToggleElevationField()
      modifies this`rows
      ensures rows == old(rows).Toggled()
    {
      rows := rows.Toggled();
    }

    /** The user picks the other kind in the selector, whose `change`
        listener is `_toggleElevationField`. */
    method ChangeType()
      requires Valid() && listening
      modifies this`selectedType, this`rows
      ensures Valid()
      ensures selectedType == Other(old(selectedType)) && rows == old(rows).Toggled()
    {
      ToggleFollowsTypeChange(selectedType, rows);
      selectedType := Other(selectedType);
      ToggleElevationField();
    }

    /** `_newWorkout`, with the clock's id and date as parameters. */
    method NewWorkout(id: string, date: Date) returns (outcome: SubmitOutcome)
      requires Valid() && listening
      modifies this`workouts, this`stored, this`formVisible,
               this`distanceInput, this`durationInput, this`cadenceInput, this`elevationInput
      ensures Valid()
      ensures old(anchor).None? ==> outcome == NoAnchor
      ensures old(anchor).Some? ==>
        var w := BuildWorkout(selectedType, id, date, old(anchor).value,
                              old(distanceInput), old(durationInput), old(cadenceInput), old(elevationInput));
        outcome == (if w.Some? then Added else Rejected) &&
        (w.Some? ==> workouts == old(workouts) + [w.value])
      ensures outcome != Added ==>
        workouts == old(workouts) && stored == old(stored) && formVisible == old(formVisible) &&
        distanceInput == old(distanceInput) && durationInput == old(durationInput) &&
        cadenceInput == old(cadenceInput) && elevationInput == old(elevationInput)
      ensures outcome == Added ==>
        |workouts| == |old(workouts)| + 1 && workouts[..|old(workouts)|] == old(workouts) &&
        workouts[|old(workouts)|].coords == old(anchor).value &&
        workouts[|old(workouts)|].Type() == selectedType &&
        stored == Some(workouts) && !formVisible &&
        distanceInput == durationInput == cadenceInput == elevationInput == Blank
    {
      if anchor.None? {
        return NoAnchor;
      }
      var w := BuildWorkout(selectedType, id, date, anchor.value,
                            distanceInput, durationInput, cadenceInput, elevationInput);
      if w.None? {
        return Rejected;
      }
      workouts := workouts + [w.value];
      HideForm();
      SetLocalStorage();
      outcome := Added;
    }

    /** `_moveToPopup`: `entry` is the `data-id` of the workout entry the
        click landed in, or nothing when it landed outside every entry. */
    method MoveToPopup(entry: Option<string>) returns (r: PopupOutcome)
      requires listening
      ensures entry.None? <==> r == Ignored
      ensures r.Recenter? ==>
        mapLoaded && r.index < |workouts| && workouts[r.index].id == entry.value &&
        r.coords == workouts[r.index].coords &&
        forall j :: 0 <= j < r.index ==> workouts[j].id != entry.value
      ensures r == Failed <==>
        entry.Some? && (!mapLoaded || forall j :: 0 <= j < |workouts| ==> workouts[j].id != entry.value)
    {
      if entry.None? {
        return Ignored;
      }
      var found := FindById(workouts, entry.value);
      if found.None? || !mapLoaded {
        return Failed;
      }
      r := Recenter(found.value, workouts[found.value].coords);
    }
  }

  /** A submission stores the list, and a new session restores it from
      storage and attaches its listeners. */
  method ReloadScenario(at: Coords, date: Date)
  {
    var app := new App(None);
    app.LoadMap();
    app.ShowForm(at);
    app.distanceInput, app.durationInput, app.cadenceInput := Entered(Some(5.0)), Entered(Some(25.0)), Entered(Some(170.0));
    assert BuildWorkout(Running, "1", date, at, Entered(Some(5.0)), Entered(Some(25.0)), Entered(Some(170.0)), Blank).Some?;
    var o := app.NewWorkout("1", date);
    assert o == Added && |app.workouts| == 1 && HasMetric(app.workouts[0]);
    var reloaded := new App(app.stored);
    assert reloaded.workouts == app.workouts && reloaded.listening;
  }

  /** An empty form is accepted and stored, and the next session's restore
      throws before its listeners are attached. */
  method BlankReloadScenario(at: Coords, date: Date)
  {
    var app := new App(None);
    app.LoadMap();
    app.ShowForm(at);
    BlankFormRecordHasNoMetric(Running, "1", date, at);
    var o := app.NewWorkout("1", date);
    assert o == Added && |app.workouts| == 1 && !HasMetric(app.workouts[0]);
    var reloaded := new App(app.stored);
    assert reloaded.workouts == app.workouts && !reloaded.listening;
  }
}
