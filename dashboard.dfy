/**
 * How the home summary sees what the panels write. Each panel saves its
 * records under its own key; the summary re-reads every key from
 * scratch. These lemmas connect a panel's write to the numbers the
 * summary then shows, for a store whose summary does not fail.
 */
module Dashboard {
  import opened Wrappers
  import opened JsValue
  import opened Storage
  import opened HomeStats
  import Lists
  import Exercise
  import Macros
  import TodoPage
  import WaterPage

  /** Saving the workout list and the settings changes only those two readings. */
  lemma WorkoutsWriteReads(store: Store, ws: seq<Value>, sv: Value)
    ensures RawOf(store[WorkoutsKey := Json(Arr(ws))][SettingsKey := Json(sv)])
      == RawOf(store).(workouts := Some(Arr(ws)), settings := sv)
  {
    var after := store[WorkoutsKey := Json(Arr(ws))][SettingsKey := Json(sv)];
    OtherReadsKept(store, WorkoutsKey, Json(Arr(ws)));
    OtherReadsKept(store[WorkoutsKey := Json(Arr(ws))], SettingsKey, Json(sv));
    ParseWritten(store, WorkoutsKey, Arr(ws), Arr([]));
    ParseWritten(store[WorkoutsKey := Json(Arr(ws))], SettingsKey, sv, Obj(map[]));
    assert Parse(after, WorkoutsKey, Arr([])) == Some(Arr(ws));
    assert Parse(after, MacrosKey, Obj(map[])) == Parse(store, MacrosKey, Obj(map[]));
    assert TodoItems(after) == TodoItems(store);
    assert NumberAt(after, WaterKey) == NumberAt(store, WaterKey);
    assert NumberAt(after, WaterGoalKey) == NumberAt(store, WaterGoalKey);
    assert NumberAt(after, TimersKey) == NumberAt(store, TimersKey);
  }

  /**
   * After the exercise page saves its list and settings, the summary counts
   * that list against the saved target, whenever the summary of the saved
   * store does not fail (the save may have repaired a corrupt item).
   */
  lemma WorkoutsFeedHome(store: Store, ws: seq<Value>, st: Exercise.Settings)
    requires Aggregate(store[WorkoutsKey := Json(Arr(ws))][SettingsKey := Json(Exercise.SettingsValue(st))]).Some?
    requires st.exercisesTarget != 0.0
    ensures var s := LoadStats(store[WorkoutsKey := Json(Arr(ws))][SettingsKey := Json(Exercise.SettingsValue(st))]);
      s.exercises == |ws| &&
      s.exercisesPct == ExercisesPct(|ws|, st.exercisesTarget) &&
      s.recentExercises == Lists.Take(ws, RecentCount)
  {
    var sv := Exercise.SettingsValue(st);
    WorkoutsWriteReads(store, ws, sv);
    var r := RawOf(store).(workouts := Some(Arr(ws)), settings := sv);
    var j := InputsOf(r).value;
    assert j.workouts == Arr(ws) && j.exercisesTarget == Num(st.exercisesTarget);
    var s := Summarise(j);
    assert s.exercises == |ws|;
    assert s.exercisesPct == ExercisesPct(|ws|, st.exercisesTarget);
  }

  /** What the summary reads from a saved macros record: today's and the target's calories, and the entries. */
  lemma SavedMacrosReads(st: Macros.MacroState)
    ensures var v := Macros.StateValue(st);
      CaloriesOf(v, "today") == st.today.cal &&
      CaloriesOf(v, "target") == Macros.TargetNumber(st.target.cal) &&
      Property(v, "entries") == Some(Arr(Macros.EntryValues(st.entries)))
  {
    var t := Macros.TotalsValue(st.today);
    assert t.fields["cal"] == Num(st.today.cal);
    var g := Macros.TargetsValue(st.target);
    assert g.fields["cal"] == Macros.AmountValue(st.target.cal);
  }

  /** The summary's calorie percentage is the macros page's own `pct`. */
  lemma SamePercentage(n: real, target: Macros.Amount)
    ensures MacrosPct(n, Macros.TargetNumber(target)) == Macros.Pct(n, target)
  {
  }

  /** Saving the macro state changes only the macro reading. */
  lemma MacrosWriteReads(store: Store, v: Value)
    ensures RawOf(store[MacrosKey := Json(v)]) == RawOf(store).(macros := Some(v))
  {
    var after := store[MacrosKey := Json(v)];
    OtherReadsKept(store, MacrosKey, Json(v));
    ParseWritten(store, MacrosKey, v, Obj(map[]));
    assert Parse(after, WorkoutsKey, Arr([])) == Parse(store, WorkoutsKey, Arr([]));
    assert TodoItems(after) == TodoItems(store);
    assert SettingsData(after) == SettingsData(store);
    assert NumberAt(after, WaterKey) == NumberAt(store, WaterKey);
    assert NumberAt(after, WaterGoalKey) == NumberAt(store, WaterGoalKey);
    assert NumberAt(after, TimersKey) == NumberAt(store, TimersKey);
  }

  /**
   * After the macros page saves its state, the summary counts its entries
   * and shows the page's calorie percentage, whenever the summary of the
   * saved store does not fail.
   */
  lemma MacrosFeedHome(store: Store, st: Macros.MacroState)
    requires Aggregate(Macros.Saving(store, st)).Some?
    ensures var s := LoadStats(Macros.Saving(store, st));
      s.macroEntries == |st.entries| &&
      s.macrosPct == Macros.Pct(st.today.cal, st.target.cal) &&
      s.recentMacroEntries == Lists.Take(Macros.EntryValues(st.entries), RecentCount)
  {
    var v := Macros.StateValue(st);
    var es := Macros.EntryValues(st.entries);
    MacrosWriteReads(store, v);
    SavedMacrosReads(st);
    var r := RawOf(store).(macros := Some(v));
    var j := InputsOf(r).value;
    assert j.macros == v && j.entries == Arr(es);
    var s := Summarise(j);
    SamePercentage(st.today.cal, st.target.cal);
    assert s.macrosPct == Macros.Pct(st.today.cal, st.target.cal);
    assert s.recentMacroEntries == Lists.Take(es, RecentCount);
  }

  /** Saving the to-do list changes only the to-do reading. */
  lemma TodosWriteReads(store: Store, items: seq<Value>)
    ensures RawOf(store[TodosKey := Json(Arr(items))]) == RawOf(store).(todos := items)
  {
    var after := store[TodosKey := Json(Arr(items))];
    OtherReadsKept(store, TodosKey, Json(Arr(items)));
    ParseWritten(store, TodosKey, Arr(items), Arr([]));
    assert TodoItems(after) == items;
    assert Parse(after, WorkoutsKey, Arr([])) == Parse(store, WorkoutsKey, Arr([]));
    assert Parse(after, MacrosKey, Obj(map[])) == Parse(store, MacrosKey, Obj(map[]));
    assert SettingsData(after) == SettingsData(store);
    assert NumberAt(after, WaterKey) == NumberAt(store, WaterKey);
    assert NumberAt(after, WaterGoalKey) == NumberAt(store, WaterGoalKey);
    assert NumberAt(after, TimersKey) == NumberAt(store, TimersKey);
  }

  /** Prepending an item whose `done` is `false` to a readable to-do list keeps the done count. */
  lemma PrependTodoInputs(r: Raw, t: Value)
    requires InputsOf(r).Some?
    requires Property(t, "done") == Some(Bool(false))
    ensures InputsOf(r.(todos := [t] + r.todos)) == Some(InputsOf(r).value.(todos := [t] + r.todos))
  {
    assert CountDone([t] + r.todos) == CountDone(r.todos) by {
      assert ([t] + r.todos)[1..] == r.todos;
    }
  }

  /** A submitted to-do is one more open item in the summary and heads its recent list. */
  lemma SubmittedTodoReachesHome(store: Store, id: real, text: string, createdAt: string)
    requires Aggregate(store).Some?
    requires TodoPage.TodoList(store).Some?
    ensures var t := TodoPage.NewTodo(id, text, createdAt);
      var after := store[TodosKey := Json(Arr([t] + TodoPage.TodoList(store).value))];
      LoadStats(after).todos == LoadStats(store).todos + 1 &&
      LoadStats(after).todosDone == LoadStats(store).todosDone &&
      LoadStats(after).recentTodos[0] == t
  {
    var t := TodoPage.NewTodo(id, text, createdAt);
    var items := TodoPage.TodoList(store).value;
    var r := RawOf(store);
    assert r.todos == items;
    TodosWriteReads(store, [t] + items);
    var j := InputsOf(r).value.(todos := [t] + items);
    PrependTodoInputs(r, t);
    assert Summarise(j).recentTodos[0] == t;
  }

  /** With a non-negative goal the summary shows the water page's own intake and progress. */
  lemma WaterAgreesWithHome(store: Store)
    requires Aggregate(store).Some?
    requires NumberOrZeroAt(store, WaterGoalKey) >= 0.0
    ensures LoadStats(store).water == NumberOrZeroAt(store, WaterKey)
    ensures LoadStats(store).waterPct == WaterPage.Progress(NumberOrZeroAt(store, WaterKey), NumberOrZeroAt(store, WaterGoalKey))
  {
  }
}
