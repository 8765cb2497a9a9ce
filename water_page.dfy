/**
 * The water page. Its state is two counters in browser storage, the
 * running intake under `water_v1` and the daily goal under
 * `water_goal_v1`; both are read with `Number(...) || 0` on every render
 * and written back as decimal text.
 */
module WaterPage {
  import opened Wrappers
  import opened JsMath
  import opened JsValue
  import opened Storage
  import JsString

  /** What `setWaterGoal` receives: a preset button passes a number, the goal field its text. */
  datatype GoalInput = Preset(amount: real) | Typed(text: string)

  /** `Number(val) || 0`, then never below zero. */
  function GoalOf(val: GoalInput): (g: real)
    ensures g >= 0.0
    ensures val.Preset? && val.amount >= 0.0 ==> g == val.amount
    ensures val.Typed? && JsString.AllSpace(val.text) ==> g == 0.0
    ensures val.Typed? && JsString.NumberOfString(val.text).None? ==> g == 0.0
    ensures val.Typed? && JsString.NumberOfString(val.text).Some? && JsString.NumberOfString(val.text).value >= 0.0 ==>
      g == JsString.NumberOfString(val.text).value
  {
    var n := match val
      case Preset(x) => NumberOr(Some(x), 0.0)
      case Typed(s) => NumberOr(JsString.NumberOfString(s), 0.0);
    Max(0.0, n)
  }

  /** `Number(input.value) || 0` for the custom amount field. */
  function CustomAmount(text: string): (a: real)
    ensures JsString.AllSpace(text) ==> a == 0.0
    ensures JsString.NumberOfString(text).None? ==> a == 0.0
    ensures JsString.NumberOfString(text).Some? ==> a == JsString.NumberOfString(text).value
  {
    NumberOr(JsString.NumberOfString(text), 0.0)
  }

  /**
   * The progress bar: the goal is clamped to zero from below, a zero goal
   * shows 0%, and the bar never passes 100%. With a non-negative intake
   * it never goes below 0% either.
   */
  function Progress(water: real, goal: real): (pct: int)
    ensures Max(0.0, goal) == 0.0 ==> pct == 0
    ensures pct <= 100
    ensures water >= 0.0 ==> pct >= 0
    ensures goal > 0.0 && water >= goal ==> pct == 100
  {
    var g := Max(0.0, goal);
    if g != 0.0 then
      PercentNonNegative(water, g);
      if water >= g then
        PercentOfMore(water, g);
        MinInt(100, Percent(water, g))
      else
        MinInt(100, Percent(water, g))
    else 0
  }

  class WaterPanel {
    /** The browser storage the page reads and writes. */
    var store: Store

    constructor (store: Store)
      ensures this.store == store
    {
      this.store := store;
    }

    /** The running intake, `Number(getItem('water_v1') || '0') || 0`. */
    function Water(): real
      reads this`store
    {
      NumberOrZeroAt(store, WaterKey)
    }

    /** The daily goal, `Number(getItem('water_goal_v1') || '0') || 0`. */
    function Goal(): real
      reads this`store
    {
      NumberOrZeroAt(store, WaterGoalKey)
    }

    /** The percentage the progress bar shows. */
    function ProgressPct(): (pct: int)
      reads this`store
      ensures pct <= 100
      ensures Water() >= 0.0 ==> pct >= 0
      ensures Goal() <= 0.0 ==> pct == 0
    {
      Progress(Water(), Goal())
    }

    /** `addWaterAmount`: the intake grows by exactly `amount`; only `water_v1` is written. */
    method AddWaterAmount(amount: real)
      modifies this`store
      ensures store == old(store)[WaterKey := Json(Num(old(Water()) + amount))]
      ensures Water() == old(Water()) + amount
      ensures Goal() == old(Goal())
    {
      var cur := Water();
      NumberRoundTrip(store, WaterKey, cur + amount);
      OtherReadsKept(store, WaterKey, Json(Num(cur + amount)));
      store := store[WaterKey := Json(Num(cur + amount))];
    }

    /** `removeWaterAmount`: the intake shrinks by `amount` but never below zero. */
    method RemoveWaterAmount(amount: real)
      modifies this`store
      ensures store == old(store)[WaterKey := Json(Num(Max(0.0, old(Water()) - amount)))]
      ensures Water() >= 0.0
      ensures Water() == (if old(Water()) - amount >= 0.0 then old(Water()) - amount else 0.0)
      ensures Goal() == old(Goal())
    {
      var cur := Water();
      NumberRoundTrip(store, WaterKey, Max(0.0, cur - amount));
      OtherReadsKept(store, WaterKey, Json(Num(Max(0.0, cur - amount))));
      store := store[WaterKey := Json(Num(Max(0.0, cur - amount)))];
    }

    /** `resetWaterAmount`: the intake reads zero again; the goal is kept. */
    method ResetWaterAmount()
      modifies this`store
      ensures store == old(store)[WaterKey := Json(Num(0.0))]
      ensures Water() == 0.0 && ProgressPct() == 0
      ensures Goal() == old(Goal())
    {
      NumberRoundTrip(store, WaterKey, 0.0);
      OtherReadsKept(store, WaterKey, Json(Num(0.0)));
      store := store[WaterKey := Json(Num(0.0))];
    }

    /** `setWaterGoal`: the stored goal is the input's number, or zero when it is not a positive one. */
    method SetWaterGoal(val: GoalInput)
      modifies this`store
      ensures store == old(store)[WaterGoalKey := Json(Num(GoalOf(val)))]
      ensures Goal() == GoalOf(val) && Goal() >= 0.0
      ensures Water() == old(Water())
    {
      var g := GoalOf(val);
      NumberRoundTrip(store, WaterGoalKey, g);
      OtherReadsKept(store, WaterGoalKey, Json(Num(g)));
      store := store[WaterGoalKey := Json(Num(g))];
    }

    /** Adds `amount` when it is positive and otherwise leaves the store alone. */
    method AddIfPositive(amount: real) returns (added: bool)
      modifies this`store
      ensures added <==> amount > 0.0
      ensures added ==> store == old(store)[WaterKey := Json(Num(old(Water()) + amount))]
      ensures added ==> Water() == old(Water()) + amount
      ensures !added ==> store == old(store)
      ensures old(Water()) >= 0.0 ==> Water() >= 0.0
    {
      added := amount > 0.0;
      if added {
        AddWaterAmount(amount);
      }
    }

    /** The custom-amount button: adds the typed amount only when it is a positive number. */
    method AddCustomAmount(text: string) returns (added: bool)
      modifies this`store
      ensures added <==> CustomAmount(text) > 0.0
      ensures added ==> store == old(store)[WaterKey := Json(Num(old(Water()) + CustomAmount(text)))]
      ensures added ==> Water() == old(Water()) + CustomAmount(text)
      ensures !added ==> store == old(store)
      ensures old(Water()) >= 0.0 ==> Water() >= 0.0
    {
      added := AddIfPositive(CustomAmount(text));
    }
  }

  /** Removing what was just added restores a non-negative intake. */
  lemma AddThenRemove(store: Store, amount: real)
    requires NumberOrZeroAt(store, WaterKey) >= 0.0 && amount >= 0.0
    ensures var added := store[WaterKey := Json(Num(NumberOrZeroAt(store, WaterKey) + amount))];
      Max(0.0, NumberOrZeroAt(added, WaterKey) - amount) == NumberOrZeroAt(store, WaterKey)
  {
    NumberRoundTrip(store, WaterKey, NumberOrZeroAt(store, WaterKey) + amount);
  }
}
