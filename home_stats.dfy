/**
 * The home page's summary: `loadStats` reads the workout, macro, to-do,
 * water, timer and settings items from storage and derives one snapshot of
 * counts, percentages and "recent" lists. Any exception inside it replaces
 * the whole snapshot by the all-zero one.
 */
module HomeStats {
  import opened Wrappers
  import opened JsMath
  import opened JsValue
  import opened Storage
  import Lists
  import DonutChart

  datatype Snapshot = Snapshot(
    exercises: nat, exercisesPct: int,
    macroEntries: nat, macrosPct: int,
    water: real, waterPct: int,
    todos: nat, todosPct: int, todosDone: nat, todosRemaining: int,
    timers: real,
    recentExercises: seq<Value>, recentMacroEntries: seq<Value>, recentTodos: seq<Value>)

  /** The snapshot shown before loading and after any exception. */
  const ZeroSnapshot := Snapshot(0, 0, 0, 0, 0.0, 0, 0, 0, 0, 0, 0.0, [], [], [])

  const RecentCount: nat := 5
  const DefaultExercisesTarget := 5.0

  /** Workouts logged against the daily target, capped at 100; the divisor is at least 1. */
  function ExercisesPct(count: nat, target: real): (pct: int)
    ensures 0 <= pct <= 100
  {
    PercentNonNegative(count as real, Max(1.0, target));
    MinInt(100, Percent(count as real, Max(1.0, target)))
  }

  /** Calories eaten against the calorie target; 0 without a target, not capped above. */
  function MacrosPct(todayCal: real, targetCal: real): (pct: int)
    ensures targetCal == 0.0 ==> pct == 0
    ensures targetCal > 0.0 && todayCal >= 0.0 ==> pct >= 0
  {
    if targetCal != 0.0 then
      PercentNonNegative(todayCal, targetCal); Percent(todayCal, targetCal)
    else 0
  }

  /** Water drunk against the goal, capped at 100; 0 without a goal. */
  function WaterPct(water: real, goal: real): (pct: int)
    ensures pct <= 100
    ensures goal == 0.0 ==> pct == 0
    ensures goal > 0.0 && water >= 0.0 ==> pct >= 0
  {
    if goal != 0.0 then
      PercentNonNegative(water, goal); MinInt(100, Percent(water, goal))
    else 0
  }

  /** Done to-dos against all to-dos; 0 for an empty list. */
  function TodosPct(done: nat, count: nat): (pct: int)
    requires done <= count
    ensures 0 <= pct <= 100
    ensures count == 0 ==> pct == 0
    ensures done == count > 0 ==> pct == 100
  {
    if count > 0 then
      PercentOfShare(done as real, count as real);
      PercentOfWhole(count as real);
      Percent(done as real, count as real)
    else 0
  }

  /** `Array.isArray(v) ? v.length : 0`. */
  function ArrayLength(v: Value): nat {
    if v.Arr? then |v.items| else 0
  }

  /** `Array.isArray(v) ? v.slice(0, 5) : []`. */
  function Recent(v: Value): (r: seq<Value>)
    ensures |r| <= RecentCount
    ensures v.Arr? ==> |r| == (if |v.items| < RecentCount then |v.items| else RecentCount) && r == v.items[..|r|]
    ensures !v.Arr? ==> r == []
  {
    if v.Arr? then Lists.Take(v.items, RecentCount) else []
  }

  /** The to-do list as read by the inner `try`: a parse failure or a non-array is the empty list. */
  function TodoItems(store: Store): seq<Value> {
    match Parse(store, TodosKey, Arr([]))
    case Some(Arr(items)) => items
    case _ => []
  }

  /** The settings object as read by the inner `try`: a parse failure is `{}`. */
  function SettingsData(store: Store): Value {
    Parse(store, SettingsKey, Obj(map[])).GetOr(Obj(map[]))
  }

  /** `it.done` is truthy (for an item whose `done` can be read). */
  predicate IsDone(it: Value) {
    Property(it, "done").Some? && Truthy(Property(it, "done").value)
  }

  /**
   * `todosArr.filter((it) => it.done).length`: the number of items with a
   * truthy `done`; `None` when an item is `null` (reading `.done` throws).
   */
  function CountDone(items: seq<Value>): (r: Option<nat>)
    ensures r.Some? ==> r.value <= |items|
    ensures r.Some? ==> r.value == |Lists.Filter(items, IsDone)|
    ensures r.None? <==> exists i :: 0 <= i < |items| && Nullish(items[i])
  {
    if items == [] then Some(0)
    else
      match Property(items[0], "done")
      case None => None
      case Some(d) =>
        match CountDone(items[1..])
        case None => (assert items[1..][0] == items[1]; None)
        case Some(k) =>
          assert forall i :: 1 <= i < |items| ==> items[i] == items[1..][i - 1];
          Some(k + if Truthy(d) then 1 else 0)
  }

  /** `(macros?.today && Number(macros.today.cal)) || 0`, for `part` "today" or "target". */
  function CaloriesOf(macros: Value, part: string): real {
    match Property(macros, part)
    case None => 0.0
    case Some(t) =>
      if Truthy(t) then
        match Property(t, "cal")
        case Some(c) => NumberOr(ToNumber(c), 0.0)
        case None => 0.0
      else 0.0
  }

  /**
   * Every reading `loadStats` takes from storage: the parsed workout and
   * macro items (`None` when not JSON), the to-do list and settings object
   * after their own `try`, and the three counters.
   */
  datatype Raw = Raw(
    workouts: Option<Value>, macros: Option<Value>,
    todos: seq<Value>, settings: Value,
    water: real, waterGoal: real, timers: real)

  function RawOf(store: Store): Raw {
    Raw(Parse(store, WorkoutsKey, Arr([])), Parse(store, MacrosKey, Obj(map[])),
      TodoItems(store), SettingsData(store),
      NumberOrZeroAt(store, WaterKey), NumberOrZeroAt(store, WaterGoalKey), NumberOrZeroAt(store, TimersKey))
  }

  /**
   * What the `try` block of `loadStats` has in hand before it computes
   * anything: the workout and macro items, the macro entries, the to-do
   * list with its done count, the settings' target and the three counters.
   */
  datatype Inputs = Inputs(
    workouts: Value, macros: Value, entries: Value,
    todos: seq<Value>, todosDone: nat,
    exercisesTarget: Value,
    water: real, waterGoal: real, timers: real)

  /** The property reads of the `try` block; `None` is an exception reaching the outer `catch`. */
  function InputsOf(r: Raw): (i: Option<Inputs>)
    ensures i.Some? ==> i.value.todosDone <= |i.value.todos| && i.value.todos == r.todos
  {
    match r.workouts
    case None => None
    case Some(wk) =>
    match r.macros
    case None => None
    case Some(macros) =>
    match Property(macros, "entries")
    case None => None
    case Some(entries) =>
    match CountDone(r.todos)
    case None => None
    case Some(todosDone) =>
    match Property(r.settings, "exercisesTarget")
    case None => None
    case Some(target) =>
    Some(Inputs(wk, macros, entries, r.todos, todosDone, target, r.water, r.waterGoal, r.timers))
  }

  function ReadInputs(store: Store): (r: Option<Inputs>)
    ensures r.Some? ==> r.value.todosDone <= |r.value.todos|
  {
    InputsOf(RawOf(store))
  }

  /**
   * The invariants of every snapshot: percentages other than the macro one
   * stay at most 100 (the exercise and to-do ones at least 0), the to-do
   * counts add up, and every recent list holds at most five items.
   */
  predicate Coherent(s: Snapshot) {
    && 0 <= s.exercisesPct <= 100
    && s.waterPct <= 100
    && s.todosRemaining >= 0 && s.todosDone + s.todosRemaining == s.todos
    && s.todosPct == TodosPct(s.todosDone, s.todos)
    && 0 <= s.todosPct <= 100
    && |s.recentExercises| <= RecentCount && |s.recentMacroEntries| <= RecentCount && |s.recentTodos| <= RecentCount
  }

  /** The snapshot computed from what was read. */
  function Summarise(i: Inputs): (s: Snapshot)
    requires i.todosDone <= |i.todos|
    ensures Coherent(s)
    ensures i.water >= 0.0 && i.waterGoal > 0.0 ==> s.waterPct >= 0
  {
    var todosCount := |i.todos|;
    var exercisesTarget := NumberOr(ToNumber(i.exercisesTarget), DefaultExercisesTarget);
    Snapshot(
      exercises := ArrayLength(i.workouts),
      exercisesPct := ExercisesPct(ArrayLength(i.workouts), exercisesTarget),
      macroEntries := ArrayLength(i.entries),
      macrosPct := MacrosPct(CaloriesOf(i.macros, "today"), CaloriesOf(i.macros, "target")),
      water := i.water,
      waterPct := WaterPct(i.water, i.waterGoal),
      todos := todosCount,
      todosPct := TodosPct(i.todosDone, todosCount),
      todosDone := i.todosDone,
      todosRemaining := if todosCount - i.todosDone > 0 then todosCount - i.todosDone else 0,
      timers := i.timers,
      recentExercises := Recent(i.workouts),
      recentMacroEntries := Recent(i.entries),
      recentTodos := Lists.Take(i.todos, RecentCount))
  }

  /** The body of `loadStats`' `try` block; `None` is an exception reaching the outer `catch`. */
  function Aggregate(store: Store): Option<Snapshot> {
    match ReadInputs(store)
    case None => None
    case Some(i) => Some(Summarise(i))
  }

  /**
   * `loadStats`: total over every store, and every snapshot it yields,
   * the all-zero one included, is coherent; the water percentage is not
   * negative for a non-negative reading against a positive goal.
   */
  function LoadStats(store: Store): (s: Snapshot)
    ensures Coherent(s)
    ensures s.water >= 0.0 && NumberOrZeroAt(store, WaterGoalKey) > 0.0 ==> s.waterPct >= 0
  {
    Aggregate(store).GetOr(ZeroSnapshot)
  }

  /** The snapshot fields come from the stored lists: counts are their lengths and recent lists their first five items. */
  lemma SnapshotFromLists(store: Store)
    requires Aggregate(store).Some?
    ensures var s := LoadStats(store);
      && (Parse(store, WorkoutsKey, Arr([])).value.Arr? ==>
            var xs := Parse(store, WorkoutsKey, Arr([])).value.items;
            s.exercises == |xs| && s.recentExercises == Lists.Take(xs, 5))
      && s.todos == |TodoItems(store)| && s.recentTodos == Lists.Take(TodoItems(store), 5)
      && s.todosDone == CountDone(TodoItems(store)).value
      && (var es := Property(Parse(store, MacrosKey, Obj(map[])).value, "entries").value;
          es.Arr? ==> s.macroEntries == |es.items| && s.recentMacroEntries == Lists.Take(es.items, 5))
  {
  }

  /**
   * `Number(settings.exercisesTarget) || 5` falls back to 5 when the
   * target is NaN or 0: the workout percentage is then taken against 5.
   */
  lemma ExercisesTargetFallback(store: Store)
    requires Aggregate(store).Some?
    requires var t := Property(SettingsData(store), "exercisesTarget");
      t.Some? && (ToNumber(t.value).None? || ToNumber(t.value) == Some(0.0))
    ensures LoadStats(store).exercisesPct == ExercisesPct(LoadStats(store).exercises, DefaultExercisesTarget)
  {
    var i := ReadInputs(store).value;
    assert i.exercisesTarget == Property(SettingsData(store), "exercisesTarget").value;
  }

  /** Without a saved settings item, or with one that is not JSON, the workout target is 5. */
  lemma UnsavedSettingsTargetFive(store: Store)
    requires Aggregate(store).Some?
    requires Read(store, SettingsKey).None? || Read(store, SettingsKey).value.NotJson?
    ensures LoadStats(store).exercisesPct == ExercisesPct(LoadStats(store).exercises, DefaultExercisesTarget)
  {
    assert SettingsData(store) == Obj(map[]);
    assert Property(Obj(map[]), "exercisesTarget") == Some(Undefined);
    ExercisesTargetFallback(store);
  }

  /**
   * When `loadStats` falls into its outer `catch`: the workout or macro item
   * is not JSON, the macro item is `null`, a to-do item is `null`, or the
   * settings item is `null`. Nothing else does.
   */
  predicate Throws(store: Store) {
    || Parse(store, WorkoutsKey, Arr([])).None?
    || Parse(store, MacrosKey, Obj(map[])).None?
    || Nullish(Parse(store, MacrosKey, Obj(map[])).value)
    || (exists i :: 0 <= i < |TodoItems(store)| && Nullish(TodoItems(store)[i]))
    || Nullish(SettingsData(store))
  }


  lemma AggregateFailsIff(store: Store)
    ensures Aggregate(store).None? <==> Throws(store)
    ensures ReadInputs(store).None? <==> Throws(store)
    ensures Throws(store) ==> LoadStats(store) == ZeroSnapshot
  {
    var items := TodoItems(store);
    assert CountDone(items).None? <==> exists i :: 0 <= i < |items| && Nullish(items[i]);
  }

  /**
   * Two stores that agree on every item but `key`, where `key` is the to-do
   * or settings item and its reading is the same in both, give the same
   * snapshot.
   */
  lemma SameReadsSameStats(a: Store, b: Store, key: Key)
    requires key == TodosKey || key == SettingsKey
    requires forall k :: k != key ==> Read(a, k) == Read(b, k)
    requires TodoItems(a) == TodoItems(b) && SettingsData(a) == SettingsData(b)
    ensures Aggregate(a) == Aggregate(b)
  {
    assert Parse(a, WorkoutsKey, Arr([])) == Parse(b, WorkoutsKey, Arr([]));
    assert Parse(a, MacrosKey, Obj(map[])) == Parse(b, MacrosKey, Obj(map[]));
    assert NumberAt(a, WaterKey) == NumberAt(b, WaterKey);
    assert NumberAt(a, WaterGoalKey) == NumberAt(b, WaterGoalKey);
    assert NumberAt(a, TimersKey) == NumberAt(b, TimersKey);
    assert RawOf(a) == RawOf(b);
  }

  /** An unreadable to-do item degrades to the empty list, exactly as a missing one does. */
  lemma TodosFailureIsolated(store: Store, junk: string)
    requires junk != ""
    ensures LoadStats(store[TodosKey := NotJson(junk)]) == LoadStats(store - {TodosKey})
  {
    var a, b := store[TodosKey := NotJson(junk)], store - {TodosKey};
    SameReadsSameStats(a, b, TodosKey);
  }

  /** An unreadable settings item degrades to `{}`, exactly as a missing one does: the target falls back to 5. */
  lemma SettingsFailureIsolated(store: Store, junk: string)
    requires junk != ""
    ensures LoadStats(store[SettingsKey := NotJson(junk)]) == LoadStats(store - {SettingsKey})
  {
    var a, b := store[SettingsKey := NotJson(junk)], store - {SettingsKey};
    SameReadsSameStats(a, b, SettingsKey);
  }

  /** An unreadable workout item is not isolated: the whole snapshot is zero. */
  lemma WorkoutsFailureZeroesAll(store: Store, junk: string)
    requires junk != ""
    ensures LoadStats(store[WorkoutsKey := NotJson(junk)]) == ZeroSnapshot
  {
  }

  /** The to-do pie of the home page (Done, Remaining); with no to-dos at all Remaining is 1. */
  function TodoPieData(s: Snapshot): (data: seq<DonutChart.Category>)
    ensures |data| == 2
    ensures data[0].value == s.todosDone as real
    ensures s.todos == 0 && s.todosRemaining == 0 ==> data[1].value == 1.0
    ensures s.todosRemaining != 0 ==> data[1].value == s.todosRemaining as real
    ensures s.todos != 0 && s.todosRemaining == 0 ==> data[1].value == 0.0
    ensures data[0].name == "Done" && data[0].color == "#50e3c2"
    ensures data[1].name == "Remaining" && data[1].color == "#f5a623"
  {
    [ DonutChart.Category("Done", s.todosDone as real, "#50e3c2"),
      DonutChart.Category("Remaining",
        if s.todosRemaining != 0 then s.todosRemaining as real else if s.todos == 0 then 1.0 else 0.0,
        "#f5a623") ]
  }

  /** For every coherent snapshot, hence every one `loadStats` produces, the to-do pie has a positive total: it is never the fallback ring. */
  lemma TodoPieNeverDegenerate(s: Snapshot)
    requires Coherent(s)
    ensures DonutChart.Total(TodoPieData(s)) > 0.0
  {
    var data := TodoPieData(s);
    assert data[..1][..0] == [];
    assert data[..|data| - 1] == data[..1];
  }

  /** The "Completed" figure under the pie (lines 194-195) is the snapshot's `todosPct`. */
  function CompletedPct(s: Snapshot): int {
    var total := s.todosDone + s.todosRemaining;
    if total != 0 then Percent(s.todosDone as real, total as real) else 0
  }

  lemma CompletedPctIsTodosPct(s: Snapshot)
    requires Coherent(s)
    ensures CompletedPct(s) == s.todosPct
  {
    assert s.todosDone + s.todosRemaining == s.todos;
  }

  /** The worked examples: 3 of 5 workouts is 60%, 2500 of 2000 ml is 100%, 2 of 5 to-dos is 40%, a zero calorie target is 0%. */
  lemma Examples()
    ensures ExercisesPct(3, 5.0) == 60
    ensures WaterPct(2500.0, 2000.0) == 100
    ensures TodosPct(2, 5) == 40
    ensures MacrosPct(1234.0, 0.0) == 0
    ensures MacrosPct(3000.0, 2000.0) == 150
  {
  }
}
