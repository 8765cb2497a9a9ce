/**
 * JavaScript values as `JSON.parse` produces them (plus `undefined`, the
 * result of reading a missing field), and the three operations the pages
 * apply to them: truthiness, field access and `Number(v)`.
 */
module JsValue {
  import opened Wrappers
  import JsString

  datatype Value =
    | Undefined
    | Null
    | Bool(b: bool)
    | Num(n: real)
    | Str(s: string)
    | Arr(items: seq<Value>)
    | Obj(fields: map<string, Value>)

  /** Truthiness; NaN and -0 never occur among these values. */
  predicate Truthy(v: Value) {
    match v
    case Undefined => false
    case Null => false
    case Bool(b) => b
    case Num(n) => n != 0.0
    case Str(s) => s != ""
    case Arr(_) => true
    case Obj(_) => true
  }

  /** `null` or `undefined`: reading any field of these throws. */
  predicate Nullish(v: Value) {
    v.Null? || v.Undefined?
  }

  /**
   * `v.key`: `None` is the TypeError thrown for `null` and `undefined`;
   * a missing field, or a field of anything but an object, is `undefined`.
   */
  function Property(v: Value, key: string): (r: Option<Value>)
    ensures r.None? <==> v.Undefined? || v.Null?
    ensures v.Obj? && key in v.fields ==> r == Some(v.fields[key])
    ensures r.Some? && !(v.Obj? && key in v.fields) ==> r == Some(Undefined)
  {
    match v
    case Undefined => None
    case Null => None
    case Obj(m) => if key in m then Some(m[key]) else Some(Undefined)
    case _ => Some(Undefined)
  }

  /**
   * `Number(v)`; `None` is NaN. `null`, `false` and `[]` are 0, `true` is 1,
   * a string is read as a decimal literal, objects and `undefined` are NaN.
   */
  function ToNumber(v: Value): (r: Option<real>)
    ensures v.Num? ==> r == Some(v.n)
    ensures v.Undefined? || v.Obj? ==> r.None?
  {
    match v
    case Undefined => None
    case Null => Some(0.0)
    case Bool(b) => Some(if b then 1.0 else 0.0)
    case Num(n) => Some(n)
    case Str(s) => JsString.NumberOfString(s)
    case Arr(items) => if items == [] then Some(0.0) else None
    case Obj(_) => None
  }

  /** `Number(x) || fallback`: NaN and 0 are falsy and give way to the fallback. */
  function NumberOr(n: Option<real>, fallback: real): (r: real)
    ensures n.Some? && n.value != 0.0 ==> r == n.value
    ensures n.None? || n == Some(0.0) ==> r == fallback
  {
    match n
    case Some(x) => if x != 0.0 then x else fallback
    case None => fallback
  }

  /** `Number(x) || 0` never yields 0 unless the conversion did, and a non-zero fallback is never 0. */
  lemma NumberOrNonZero(n: Option<real>, fallback: real)
    requires fallback != 0.0
    ensures NumberOr(n, fallback) != 0.0
  {
  }
}

/**
 * The browser's key/value storage as an abstract map from keys to the text
 * stored under them, and the two ways the pages read an item:
 * `JSON.parse(getItem(k) || d)` and `Number(getItem(k) || '0')`.
 */
module Storage {
  import opened Wrappers
  import opened JsValue
  import JsString

  /**
   * The text stored under a key: either valid JSON (held as the value it
   * denotes) or some other text, which `JSON.parse` rejects.
   */
  datatype Text = Json(v: Value) | NotJson(s: string)

  /** The storage items the dashboard uses; `Name` gives the key each is stored under. */
  datatype Key = WorkoutsKey | MacrosKey | TodosKey | WaterKey | WaterGoalKey | TimersKey | SettingsKey

  function Name(k: Key): string {
    match k
    case WorkoutsKey => "workouts_v1"
    case MacrosKey => "macros_v1"
    case TodosKey => "todos_v1"
    case WaterKey => "water_v1"
    case WaterGoalKey => "water_goal_v1"
    case TimersKey => "timers_count_v1"
    case SettingsKey => "workout_settings_v1"
  }

  type Store = map<Key, Text>

  /** `getItem(key) || ...`: a missing item and an empty string both give way to the default. */
  function Read(store: Store, key: Key): (r: Option<Text>)
    ensures r.Some? ==> key in store && r.value == store[key] && r.value != NotJson("")
  {
    if key in store && store[key] != NotJson("") then Some(store[key]) else None
  }

  /** `JSON.parse(getItem(key) || fallbackText)`; `None` is the SyntaxError. */
  function Parse(store: Store, key: Key, fallback: Value): (r: Option<Value>)
    ensures Read(store, key).None? ==> r == Some(fallback)
    ensures r.None? <==> Read(store, key).Some? && Read(store, key).value.NotJson?
  {
    match Read(store, key)
    case None => Some(fallback)
    case Some(Json(v)) => Some(v)
    case Some(NotJson(_)) => None
  }

  /** `Number(getItem(key) || '0')`; `None` is NaN. The text of a JSON non-number is NaN. */
  function NumberAt(store: Store, key: Key): (r: Option<real>)
    ensures Read(store, key).None? ==> r == Some(0.0)
    ensures key in store && store[key].Json? && store[key].v.Num? ==> r == Some(store[key].v.n)
  {
    match Read(store, key)
    case None => Some(0.0)
    case Some(Json(v)) => if v.Num? then Some(v.n) else None
    case Some(NotJson(s)) => JsString.NumberOfString(s)
  }

  /** `Number(getItem(key) || '0') || 0`: the numeric reading every page applies to a counter. */
  function NumberOrZeroAt(store: Store, key: Key): real {
    NumberOr(NumberAt(store, key), 0.0)
  }

  /** `JSON.parse` of what `JSON.stringify(v)` wrote gives `v` back. */
  lemma ParseWritten(store: Store, key: Key, v: Value, fallback: Value)
    ensures Parse(store[key := Json(v)], key, fallback) == Some(v)
  {
    assert Json(v) != NotJson("");
  }

  /** Writing one item leaves what every other key reads unchanged. */
  lemma OtherReadsKept(store: Store, key: Key, t: Text)
    ensures forall k :: k != key ==> Read(store[key := t], k) == Read(store, k)
  {
  }

  /** Writing `String(x)` under a key and reading it back with `Number(...) || 0` gives `x`. */
  lemma NumberRoundTrip(store: Store, key: Key, x: real)
    ensures NumberOrZeroAt(store[key := Json(Num(x))], key) == x
  {
  }
}
