/**
 * The exercise page: the workout log, the stopwatch and the settings
 * form. The workout list and the settings are React state that every
 * change also writes to browser storage (`workouts_v1`,
 * `workout_settings_v1`); the stopwatch lives only in state.
 */
module Exercise {
  import opened Wrappers
  import opened JsValue
  import opened Storage
  import opened Records
  import JsString
  import Lists

  /** The record the settings form saves. */
  datatype Settings = Settings(darkMode: bool, fontWeight: real, fontFamily: string, exercisesTarget: real)

  const DefaultSets := 3.0
  const DefaultReps := 8.0

  function DefaultSettings(): Settings {
    Settings(false, 400.0, "Arial", 5.0)
  }

  /** `Number(field) || d` for a text field of the form. */
  function NumberOrDefault(text: string, d: real): (x: real)
    requires d != 0.0
    ensures x != 0.0
    ensures JsString.NumberOfString(text).Some? && JsString.NumberOfString(text).value != 0.0 ==>
      x == JsString.NumberOfString(text).value
    ensures JsString.NumberOfString(text).None? || JsString.NumberOfString(text) == Some(0.0) ==> x == d
  {
    NumberOr(JsString.NumberOfString(text), d)
  }

  /** A workout record as `JSON.stringify` writes it. */
  function WorkoutRecord(id: real, name: string, sets: real, reps: real, weight: string, createdAt: string): (w: Value)
    ensures w.Obj? && HasId(w, id)
    ensures Property(w, "name") == Some(Str(name)) && Property(w, "weight") == Some(Str(weight))
    ensures Property(w, "sets") == Some(Num(sets)) && Property(w, "reps") == Some(Num(reps))
  {
    Obj(map["id" := Num(id), "name" := Str(name), "sets" := Num(sets), "reps" := Num(reps),
            "weight" := Str(weight), "createdAt" := Str(createdAt)])
  }

  /**
   * The record `addWorkout` prepends: trimmed name and weight, sets and
   * reps defaulting to 3 and 8; the id and timestamp come from the clock.
   */
  function NewWorkout(id: real, name: string, sets: string, reps: string, weight: string, createdAt: string): (w: Value)
    ensures w.Obj? && HasId(w, id)
    ensures Property(w, "name") == Some(Str(JsString.Trim(name)))
    ensures Property(w, "weight") == Some(Str(JsString.Trim(weight)))
    ensures Property(w, "sets") == Some(Num(NumberOrDefault(sets, DefaultSets)))
    ensures Property(w, "reps") == Some(Num(NumberOrDefault(reps, DefaultReps)))
  {
    WorkoutRecord(id, JsString.Trim(name), NumberOrDefault(sets, DefaultSets), NumberOrDefault(reps, DefaultReps),
                  JsString.Trim(weight), createdAt)
  }

  /** `JSON.parse(getItem('workouts_v1') || '[]')`, with `[]` for a parse error or a non-array. */
  function StoredWorkouts(store: Store): (ws: seq<Value>)
    ensures Read(store, WorkoutsKey).None? ==> ws == []
    ensures Parse(store, WorkoutsKey, Arr([])).None? ==> ws == []
    ensures Parse(store, WorkoutsKey, Arr([])).Some? && !Parse(store, WorkoutsKey, Arr([])).value.Arr? ==> ws == []
    ensures Parse(store, WorkoutsKey, Arr([])).Some? && Parse(store, WorkoutsKey, Arr([])).value.Arr? ==>
      ws == Parse(store, WorkoutsKey, Arr([])).value.items
  {
    match Parse(store, WorkoutsKey, Arr([]))
    case Some(Arr(items)) => items
    case _ => []
  }

  /** Loading what `addWorkout` and friends write gives the same list back. */
  lemma WorkoutsRoundTrip(store: Store, ws: seq<Value>)
    ensures StoredWorkouts(store[WorkoutsKey := Json(Arr(ws))]) == ws
  {
    ParseWritten(store, WorkoutsKey, Arr(ws), Arr([]));
  }

  /** The settings the form submits: a missing or non-numeric or zero field takes its default. */
  function SettingsFromForm(darkMode: Option<string>, fontWeight: Option<string>, fontFamily: Option<string>,
                            exercisesTarget: Option<string>): (s: Settings)
    ensures s.darkMode <==> darkMode == Some("on")
    ensures s.fontWeight != 0.0 && s.exercisesTarget != 0.0 && s.fontFamily != ""
    ensures fontWeight.None? || JsString.AllSpace(fontWeight.value) ==> s.fontWeight == 400.0
    ensures FieldNumber(fontWeight).None? || FieldNumber(fontWeight) == Some(0.0) ==> s.fontWeight == 400.0
    ensures FieldNumber(fontWeight).Some? && FieldNumber(fontWeight).value != 0.0 ==> s.fontWeight == FieldNumber(fontWeight).value
    ensures exercisesTarget.None? || JsString.AllSpace(exercisesTarget.value) ==> s.exercisesTarget == 5.0
    ensures FieldNumber(exercisesTarget).None? || FieldNumber(exercisesTarget) == Some(0.0) ==> s.exercisesTarget == 5.0
    ensures FieldNumber(exercisesTarget).Some? && FieldNumber(exercisesTarget).value != 0.0 ==>
      s.exercisesTarget == FieldNumber(exercisesTarget).value
    ensures fontFamily.None? || fontFamily == Some("") ==> s.fontFamily == "Arial"
    ensures fontFamily.Some? && fontFamily.value != "" ==> s.fontFamily == fontFamily.value
  {
    Settings(
      darkMode == Some("on"),
      NumberOr(FieldNumber(fontWeight), 400.0),
      if fontFamily.Some? && fontFamily.value != "" then fontFamily.value else "Arial",
      NumberOr(FieldNumber(exercisesTarget), 5.0))
  }

  /** `Number(formData.get(name))`: a missing field is `null`, which converts to 0. */
  function FieldNumber(field: Option<string>): (r: Option<real>)
    ensures field.None? ==> r == Some(0.0)
  {
    match field
    case None => Some(0.0)
    case Some(text) => JsString.NumberOfString(text)
  }

  /** `JSON.stringify(settings)`, as the home summary reads it back. */
  function SettingsValue(s: Settings): (v: Value)
    ensures Property(v, "exercisesTarget") == Some(Num(s.exercisesTarget))
  {
    Obj(map[
      "darkMode" := Bool(s.darkMode),
      "fontWeight" := Num(s.fontWeight),
      "fontFamily" := Str(s.fontFamily),
      "exercisesTarget" := Num(s.exercisesTarget)])
  }

  /** The stopwatch's minutes field: `String(Math.floor(seconds / 60)).padStart(2, '0')`. */
  function MinutesText(seconds: nat): (m: string)
    ensures |m| >= 2
  {
    JsString.PadStart2(JsString.ShowNat(seconds / 60))
  }

  /** The stopwatch's seconds field: `String(seconds % 60).padStart(2, '0')`. */
  function SecondsText(seconds: nat): (s: string)
    ensures |s| == 2
  {
    JsString.PadStart2(JsString.ShowNat(seconds % 60))
  }

  /** The stopwatch face, `mm:ss`. */
  function TimerDisplay(seconds: nat): (d: string)
    ensures |d| >= 5 && d[|d| - 3] == ':'
  {
    MinutesText(seconds) + ":" + SecondsText(seconds)
  }

  /** A zero-padded decimal field reads back as the number it shows. */
  lemma PaddedValue(n: nat)
    ensures JsString.AllDigits(JsString.PadStart2(JsString.ShowNat(n)))
    ensures JsString.DigitsValue(JsString.PadStart2(JsString.ShowNat(n))) == n
  {
    var s := JsString.ShowNat(n);
    var p := JsString.PadStart2(s);
    var z := p[..|p| - |s|];
    assert p == z + s;
    JsString.DigitsValueLeadingZeros(z, s);
  }

  /**
   * The face reads back as the elapsed time: both fields are at least two
   * digits, the seconds field is exactly two digits below 60, and
   * minutes * 60 + seconds is the count shown.
   */
  lemma TimerDisplayRoundTrip(seconds: nat)
    ensures var m := MinutesText(seconds); var s := SecondsText(seconds);
      TimerDisplay(seconds) == m + ":" + s &&
      |m| >= 2 && |s| == 2 &&
      JsString.AllDigits(m) && JsString.AllDigits(s) &&
      JsString.DigitsValue(s) < 60 &&
      JsString.DigitsValue(m) * 60 + JsString.DigitsValue(s) == seconds
  {
    PaddedValue(seconds / 60);
    PaddedValue(seconds % 60);
  }

  class ExercisePanel {
    var workouts: seq<Value>
    /** The browser storage the page writes its list and settings to. */
    var store: Store
    var timerActive: bool
    var timerSeconds: nat
    var settings: Settings

    constructor (store: Store)
      ensures workouts == [] && !timerActive && timerSeconds == 0
      ensures settings == DefaultSettings() && this.store == store
    {
      workouts := [];
      timerActive := false;
      timerSeconds := 0;
      settings := DefaultSettings();
      this.store := store;
    }

    /** `loadWorkouts`: the stored array, or `[]` when the item is missing, unparsable or not an array. */
    method LoadWorkouts()
      modifies this`workouts
      ensures workouts == StoredWorkouts(store)
    {
      workouts := StoredWorkouts(store);
    }

    /** `addWorkout`: prepends one workout, keeps the rest in order, and saves the list. */
    method AddWorkout(name: string, sets: string, reps: string, weight: string, id: real, createdAt: string)
      modifies this`workouts, this`store
      ensures workouts == [NewWorkout(id, name, sets, reps, weight, createdAt)] + old(workouts)
      ensures store == old(store)[WorkoutsKey := Json(Arr(workouts))]
      ensures StoredWorkouts(store) == workouts
    {
      workouts := [NewWorkout(id, name, sets, reps, weight, createdAt)] + workouts;
      WorkoutsRoundTrip(store, workouts);
      store := store[WorkoutsKey := Json(Arr(workouts))];
    }

    /** `deleteWorkout`: drops exactly the workouts with this id and saves; a `null` entry makes it throw. */
    method DeleteWorkout(id: real)
      modifies this`workouts, this`store
      ensures !old(AnyNullish(workouts)) ==> workouts == Lists.Filter(old(workouts), KeepOther(id))
      ensures !old(AnyNullish(workouts)) ==> store == old(store)[WorkoutsKey := Json(Arr(workouts))]
      ensures old(AnyNullish(workouts)) ==> workouts == old(workouts) && store == old(store)
    {
      var updated := Without(workouts, id);
      if updated.Some? {
        workouts := updated.value;
        store := store[WorkoutsKey := Json(Arr(workouts))];
      }
    }

    /** `clearAllWorkouts`: once confirmed, the list and the stored item are both empty. */
    method ClearAllWorkouts(confirmed: bool)
      modifies this`workouts, this`store
      ensures confirmed ==> workouts == [] && store == old(store)[WorkoutsKey := Json(Arr([]))]
      ensures !confirmed ==> workouts == old(workouts) && store == old(store)
    {
      if confirmed {
        workouts := [];
        store := store[WorkoutsKey := Json(Arr([]))];
      }
    }

    /** The workout form: a blank or white-space-only name adds nothing. */
    method SubmitWorkoutForm(name: string, sets: string, reps: string, weight: string, id: real, createdAt: string)
      returns (added: bool)
      modifies this`workouts, this`store
      ensures added <==> !JsString.AllSpace(name)
      ensures added ==> workouts == [NewWorkout(id, name, sets, reps, weight, createdAt)] + old(workouts)
      ensures added ==> store == old(store)[WorkoutsKey := Json(Arr(workouts))]
      ensures !added ==> workouts == old(workouts) && store == old(store)
    {
      var trimmed := JsString.Trim(name);
      JsString.TrimEmptyIff(name);
      added := name != "" && trimmed != "";
      assert name == "" ==> trimmed == "";
      if added {
        AddWorkout(name, sets, reps, weight, id, createdAt);
      }
    }

    /** `saveSettings`: the new settings become current and are stored. */
    method SaveSettings(s: Settings)
      modifies this`settings, this`store
      ensures settings == s
      ensures store == old(store)[SettingsKey := Json(SettingsValue(s))]
    {
      settings := s;
      store := store[SettingsKey := Json(SettingsValue(s))];
    }

    /** The settings form: fields that are missing, zero or not numbers take their defaults. */
    method SubmitSettingsForm(darkMode: Option<string>, fontWeight: Option<string>, fontFamily: Option<string>,
                              exercisesTarget: Option<string>)
      modifies this`settings, this`store
      ensures settings == SettingsFromForm(darkMode, fontWeight, fontFamily, exercisesTarget)
      ensures store == old(store)[SettingsKey := Json(SettingsValue(settings))]
    {
      SaveSettings(SettingsFromForm(darkMode, fontWeight, fontFamily, exercisesTarget));
    }

    method StartTimer()
      modifies this`timerActive
      ensures timerActive
    {
      timerActive := true;
    }

    method PauseTimer()
      modifies this`timerActive
      ensures !timerActive
    {
      timerActive := false;
    }

    /** The reset button stops the stopwatch and zeroes it. */
    method ResetTimer()
      modifies this`timerActive, this`timerSeconds
      ensures !timerActive && timerSeconds == 0
    {
      timerActive := false;
      timerSeconds := 0;
    }

    /** The interval's tick (the interval runs only while the stopwatch is active): one more second. */
    method Tick()
      modifies this`timerSeconds
      ensures timerSeconds == old(timerSeconds) + 1
    {
      timerSeconds := timerSeconds + 1;
    }

  }

  /** A workout deleted right after it was added leaves the list as it was. */
  lemma AddThenDelete(ws: seq<Value>, id: real, name: string, sets: string, reps: string, weight: string, createdAt: string)
    requires !AnyNullish(ws)
    requires forall i :: 0 <= i < |ws| ==> !HasId(ws[i], id)
    ensures Without([NewWorkout(id, name, sets, reps, weight, createdAt)] + ws, id) == Some(ws)
  {
    PrependThenWithout(NewWorkout(id, name, sets, reps, weight, createdAt), ws, id);
  }
}
