/**
 * The macro and diet tracker. Its React state is a record of daily
 * targets, running totals for today and the list of logged entries
 * (newest first, at most 50). An effect writes the whole record to
 * `macros_v1` whenever it changes; on mount a zero-delay timer loads the
 * saved record back.
 */
module Macros {
  import opened Wrappers
  import opened JsMath
  import opened JsValue
  import opened Storage
  import JsString
  import Lists

  /** The four tracked quantities, as `updateTarget` names them. */
  datatype Field = Cal | Protein | Carbs | Fat

  /** A target field: the empty string (field cleared or not a number) or a number. */
  datatype Amount = Blank | Amount(x: real)

  datatype Targets = Targets(cal: Amount, protein: Amount, carbs: Amount, fat: Amount)

  datatype Totals = Totals(cal: real, protein: real, carbs: real, fat: real)

  datatype Entry = Entry(id: real, cal: real, protein: real, carbs: real, fat: real, note: string, createdAt: string)

  datatype MacroState = MacroState(target: Targets, today: Totals, entries: seq<Entry>)

  /** How many entries the list keeps. */
  const EntryCap: nat := 50

  function Zero(): Totals {
    Totals(0.0, 0.0, 0.0, 0.0)
  }

  /** The state before anything is loaded. */
  function DefaultState(): MacroState {
    MacroState(Targets(Amount(2000.0), Amount(150.0), Amount(200.0), Amount(70.0)), Zero(), [])
  }

  /** `acc` with one entry's quantities added field by field. */
  function Plus(acc: Totals, e: Entry): (r: Totals)
    ensures r.cal - acc.cal == e.cal && r.protein - acc.protein == e.protein
    ensures r.carbs - acc.carbs == e.carbs && r.fat - acc.fat == e.fat
  {
    Totals(acc.cal + e.cal, acc.protein + e.protein, acc.carbs + e.carbs, acc.fat + e.fat)
  }

  /** Field-wise sum of two totals. */
  function Combine(a: Totals, b: Totals): Totals {
    Totals(a.cal + b.cal, a.protein + b.protein, a.carbs + b.carbs, a.fat + b.fat)
  }

  /** The `reduce` of `deleteEntry`: the entries' quantities summed from the front. */
  function Sum(es: seq<Entry>): Totals {
    if es == [] then Zero() else Plus(Sum(es[..|es| - 1]), es[|es| - 1])
  }

  /** Summing splits over concatenation. */
  lemma {:induction false} SumConcat(a: seq<Entry>, b: seq<Entry>)
    ensures Sum(a + b) == Combine(Sum(a), Sum(b))
  {
    if b == [] {
      assert a + b == a;
    } else {
      var c := a + b;
      assert c[..|c| - 1] == a + b[..|b| - 1];
      assert c[|c| - 1] == b[|b| - 1];
      SumConcat(a, b[..|b| - 1]);
    }
  }

  /** Adding an entry at the head adds its quantities to the sum. */
  lemma SumPrepend(e: Entry, es: seq<Entry>)
    ensures Sum([e] + es) == Plus(Sum(es), e)
  {
    SumConcat([e], es);
    assert [e][..0] == [];
  }

  /** `value === '' ? '' : Number(value)`, then `''` for NaN. */
  function TargetOf(value: string): (a: Amount)
    ensures value == "" ==> a == Blank
    ensures JsString.NumberOfString(value).None? ==> a == Blank
    ensures value != "" && JsString.NumberOfString(value).Some? ==> a == Amount(JsString.NumberOfString(value).value)
  {
    if value == "" then Blank
    else match JsString.NumberOfString(value)
      case None => Blank
      case Some(x) => Amount(x)
  }

  function Get(t: Targets, f: Field): Amount {
    match f
    case Cal => t.cal
    case Protein => t.protein
    case Carbs => t.carbs
    case Fat => t.fat
  }

  /** `{ ...target, [field]: a }`: only the named field changes. */
  function WithTarget(t: Targets, f: Field, a: Amount): (r: Targets)
    ensures Get(r, f) == a
    ensures forall g: Field :: g != f ==> Get(r, g) == Get(t, g)
  {
    match f
    case Cal => t.(cal := a)
    case Protein => t.(protein := a)
    case Carbs => t.(carbs := a)
    case Fat => t.(fat := a)
  }

  /** `Number(target)`: the empty string converts to 0. */
  function TargetNumber(a: Amount): real {
    match a
    case Blank => 0.0
    case Amount(x) => x
  }

  /**
   * `pct`: 0 when the target is 0 or blank, otherwise `n / t` as a rounded
   * percentage, which is not capped at 100.
   */
  function Pct(n: real, target: Amount): (p: int)
    ensures TargetNumber(target) == 0.0 ==> p == 0
    ensures TargetNumber(target) > 0.0 && n >= 0.0 ==> p >= 0
    ensures TargetNumber(target) > 0.0 && 0.0 <= n <= TargetNumber(target) ==> p <= 100
    ensures TargetNumber(target) != 0.0 && n == TargetNumber(target) ==> p == 100
  {
    var t := TargetNumber(target);
    if t == 0.0 then 0
    else
      PercentNonNegative(n, t);
      PercentOfWhole(t);
      if t > 0.0 && 0.0 <= n <= t then
        PercentOfShare(n, t);
        Percent(n, t)
      else Percent(n, t)
  }

  /** The entry `addEntry` builds: blank or non-numeric quantities count 0, the note is trimmed. */
  function NewEntry(id: real, cal: string, protein: string, carbs: string, fat: string, note: string,
                    createdAt: string): (e: Entry)
    ensures e.id == id && e.note == JsString.Trim(note) && e.createdAt == createdAt
    ensures e.cal == NumberOr(JsString.NumberOfString(cal), 0.0)
    ensures e.protein == NumberOr(JsString.NumberOfString(protein), 0.0)
    ensures e.carbs == NumberOr(JsString.NumberOfString(carbs), 0.0)
    ensures e.fat == NumberOr(JsString.NumberOfString(fat), 0.0)
    ensures JsString.AllSpace(cal) ==> e.cal == 0.0
    ensures JsString.AllSpace(protein) ==> e.protein == 0.0
    ensures JsString.AllSpace(carbs) ==> e.carbs == 0.0
    ensures JsString.AllSpace(fat) ==> e.fat == 0.0
    ensures JsString.NumberOfString(cal).None? ==> e.cal == 0.0
    ensures JsString.NumberOfString(protein).None? ==> e.protein == 0.0
    ensures JsString.NumberOfString(carbs).None? ==> e.carbs == 0.0
    ensures JsString.NumberOfString(fat).None? ==> e.fat == 0.0
  {
    Entry(id,
      NumberOr(JsString.NumberOfString(cal), 0.0),
      NumberOr(JsString.NumberOfString(protein), 0.0),
      NumberOr(JsString.NumberOfString(carbs), 0.0),
      NumberOr(JsString.NumberOfString(fat), 0.0),
      JsString.Trim(note),
      createdAt)
  }

  /** Keep the entries whose id differs. */
  function KeepOther(id: real): Entry -> bool {
    (e: Entry) => e.id != id
  }

  /** `[entry, ...entries].slice(0, 50)`. */
  function Prepended(e: Entry, es: seq<Entry>): (r: seq<Entry>)
    ensures |r| <= EntryCap && |r| >= 1 && r[0] == e
    ensures |es| < EntryCap ==> r == [e] + es
    ensures |es| >= EntryCap ==> r == [e] + es[..EntryCap - 1]
  {
    Lists.Take([e] + es, EntryCap)
  }

  /** While the list has room, adding an entry to both keeps the totals equal to the sum. */
  lemma PrependKeepsSum(today: Totals, e: Entry, es: seq<Entry>)
    requires |es| < EntryCap && today == Sum(es)
    ensures Plus(today, e) == Sum(Prepended(e, es))
  {
    SumPrepend(e, es);
  }

  /**
   * Once the list is full, the running totals still count the entry that
   * fell off the end: they exceed the sum of the kept entries by exactly
   * the dropped entry's quantities.
   */
  lemma TruncationKeepsDroppedTotals(today: Totals, e: Entry, es: seq<Entry>)
    requires |es| == EntryCap && today == Sum(es)
    ensures Plus(today, e) == Plus(Sum(Prepended(e, es)), es[EntryCap - 1])
  {
    var kept := es[..EntryCap - 1];
    assert es == kept + [es[EntryCap - 1]];
    SumConcat(kept, [es[EntryCap - 1]]);
    assert Sum([es[EntryCap - 1]]) == Plus(Zero(), es[EntryCap - 1]) by {
      assert [es[EntryCap - 1]][..0] == [];
    }
    SumPrepend(e, kept);
  }

  // ---- The saved record (`JSON.stringify(state)`) and what loading makes of it ----

  function AmountValue(a: Amount): Value {
    match a
    case Blank => Str("")
    case Amount(x) => Num(x)
  }

  function AmountOf(v: Value): (r: Option<Amount>)
    ensures r.Some? ==> AmountValue(r.value) == v
  {
    match v
    case Num(x) => Some(Amount(x))
    case Str(s) => if s == "" then Some(Blank) else None
    case _ => None
  }

  function TargetsValue(t: Targets): Value {
    Obj(map["cal" := AmountValue(t.cal), "protein" := AmountValue(t.protein),
            "carbs" := AmountValue(t.carbs), "fat" := AmountValue(t.fat)])
  }

  function TargetsOf(v: Value): Option<Targets> {
    if v.Obj? && "cal" in v.fields && "protein" in v.fields && "carbs" in v.fields && "fat" in v.fields then
      match (AmountOf(v.fields["cal"]), AmountOf(v.fields["protein"]), AmountOf(v.fields["carbs"]), AmountOf(v.fields["fat"]))
      case (Some(c), Some(p), Some(cb), Some(f)) => Some(Targets(c, p, cb, f))
      case _ => None
    else None
  }

  lemma TargetsRoundTrip(t: Targets)
    ensures TargetsOf(TargetsValue(t)) == Some(t)
  {
    var m := TargetsValue(t).fields;
    assert m["cal"] == AmountValue(t.cal) && m["protein"] == AmountValue(t.protein);
    assert m["carbs"] == AmountValue(t.carbs) && m["fat"] == AmountValue(t.fat);
    match t.cal { case Blank => case Amount(_) => }
    match t.protein { case Blank => case Amount(_) => }
    match t.carbs { case Blank => case Amount(_) => }
    match t.fat { case Blank => case Amount(_) => }
  }

  function TotalsValue(t: Totals): Value {
    Obj(map["cal" := Num(t.cal), "protein" := Num(t.protein), "carbs" := Num(t.carbs), "fat" := Num(t.fat)])
  }

  function NumField(v: Value, key: string): Option<real>
    requires v.Obj?
  {
    if key in v.fields && v.fields[key].Num? then Some(v.fields[key].n) else None
  }

  function StrField(v: Value, key: string): Option<string>
    requires v.Obj?
  {
    if key in v.fields && v.fields[key].Str? then Some(v.fields[key].s) else None
  }

  function TotalsOf(v: Value): Option<Totals> {
    if v.Obj? then
      match (NumField(v, "cal"), NumField(v, "protein"), NumField(v, "carbs"), NumField(v, "fat"))
      case (Some(c), Some(p), Some(cb), Some(f)) => Some(Totals(c, p, cb, f))
      case _ => None
    else None
  }

  lemma TotalsRoundTrip(t: Totals)
    ensures TotalsOf(TotalsValue(t)) == Some(t)
  {
    var m := TotalsValue(t).fields;
    assert m["cal"] == Num(t.cal) && m["protein"] == Num(t.protein);
    assert m["carbs"] == Num(t.carbs) && m["fat"] == Num(t.fat);
  }

  function EntryValue(e: Entry): Value {
    Obj(map["id" := Num(e.id), "cal" := Num(e.cal), "protein" := Num(e.protein), "carbs" := Num(e.carbs),
            "fat" := Num(e.fat), "note" := Str(e.note), "createdAt" := Str(e.createdAt)])
  }

  function EntryOf(v: Value): Option<Entry> {
    if v.Obj? then
      match (NumField(v, "id"), TotalsOf(v), StrField(v, "note"), StrField(v, "createdAt"))
      case (Some(id), Some(t), Some(note), Some(at)) => Some(Entry(id, t.cal, t.protein, t.carbs, t.fat, note, at))
      case _ => None
    else None
  }

  lemma EntryRoundTrip(e: Entry)
    ensures EntryOf(EntryValue(e)) == Some(e)
  {
    var m := EntryValue(e).fields;
    assert m["id"] == Num(e.id) && m["cal"] == Num(e.cal) && m["protein"] == Num(e.protein);
    assert m["carbs"] == Num(e.carbs) && m["fat"] == Num(e.fat);
    assert m["note"] == Str(e.note) && m["createdAt"] == Str(e.createdAt);
  }

  function EntryValues(es: seq<Entry>): (vs: seq<Value>)
    ensures |vs| == |es|
    ensures forall i :: 0 <= i < |es| ==> vs[i] == EntryValue(es[i])
  {
    seq(|es|, i requires 0 <= i < |es| => EntryValue(es[i]))
  }

  function EntriesOf(vs: seq<Value>): Option<seq<Entry>> {
    if vs == [] then Some([])
    else match (EntryOf(vs[0]), EntriesOf(vs[1..]))
      case (Some(e), Some(rest)) => Some([e] + rest)
      case _ => None
  }

  lemma {:induction false} EntriesRoundTrip(es: seq<Entry>)
    ensures EntriesOf(EntryValues(es)) == Some(es)
  {
    if es != [] {
      EntryRoundTrip(es[0]);
      assert EntryValues(es)[1..] == EntryValues(es[1..]);
      EntriesRoundTrip(es[1..]);
      assert [es[0]] + es[1..] == es;
    }
  }

  /** `JSON.stringify(state)`. */
  function StateValue(st: MacroState): (v: Value)
    ensures v.Obj? && "entries" in v.fields && v.fields["entries"] == Arr(EntryValues(st.entries))
    ensures "target" in v.fields && v.fields["target"] == TargetsValue(st.target)
    ensures "today" in v.fields && v.fields["today"] == TotalsValue(st.today)
  {
    var m := map["target" := TargetsValue(st.target), "today" := TotalsValue(st.today), "entries" := Arr(EntryValues(st.entries))];
    assert m["entries"] == Arr(EntryValues(st.entries));
    assert m["target"] == TargetsValue(st.target) && m["today"] == TotalsValue(st.today);
    Obj(m)
  }

  /**
   * What `loadMacros` finds under `macros_v1`: nothing (missing or empty),
   * an exception (not JSON, or `null`), or a record whose `target` and
   * `today` are `None` when falsy and whose `entries` are `[]` when not an
   * array. `Foreign` is a record with fields of other types.
   */
  datatype Saved = NoRecord | Throws | Record(target: Option<Targets>, today: Option<Totals>, entries: seq<Entry>) | Foreign

  function SavedOf(store: Store): Saved {
    match Read(store, MacrosKey)
    case None => NoRecord
    case Some(NotJson(_)) => Throws
    case Some(Json(v)) =>
      if Nullish(v) then Throws
      else
        var t := Property(v, "target").value;
        var d := Property(v, "today").value;
        var es := Property(v, "entries").value;
        var target := if Truthy(t) then TargetsOf(t) else None;
        var today := if Truthy(d) then TotalsOf(d) else None;
        var entries := if es.Arr? then EntriesOf(es.items) else Some([]);
        if (Truthy(t) && target.None?) || (Truthy(d) && today.None?) || entries.None? then Foreign
        else Record(target, today, entries.value)
  }

  /** Reading back what the persistence effect wrote. */
  lemma SavedRoundTrip(store: Store, st: MacroState)
    ensures SavedOf(store[MacrosKey := Json(StateValue(st))]) == Record(Some(st.target), Some(st.today), st.entries)
  {
    TargetsRoundTrip(st.target);
    TotalsRoundTrip(st.today);
    EntriesRoundTrip(st.entries);
    assert Json(StateValue(st)) != NotJson("");
  }

  /** The state `loadMacros` sets: the saved parts replace the current ones. */
  function Loaded(current: MacroState, saved: Saved): (st: MacroState)
    ensures saved.Record? ==> st.entries == saved.entries
    ensures saved.Record? && saved.target.None? ==> st.target == current.target
    ensures saved.Record? && saved.target.Some? ==> st.target == saved.target.value
    ensures saved.Record? && saved.today.None? ==> st.today == current.today
    ensures saved.Record? && saved.today.Some? ==> st.today == saved.today.value
    ensures !saved.Record? ==> st == current
  {
    match saved
    case Record(t, d, es) => MacroState(t.GetOr(current.target), d.GetOr(current.today), es)
    case _ => current
  }

  /** The store after the persistence effect has written `st`. */
  function Saving(store: Store, st: MacroState): Store {
    store[MacrosKey := Json(StateValue(st))]
  }

  /** Mounting as written: the effect saves the initial state before the timer loads. */
  function MountedAsWritten(store: Store): MacroState {
    Loaded(DefaultState(), SavedOf(Saving(store, DefaultState())))
  }

  /** Mounting with the load done before anything is saved. */
  function Mounted(store: Store): MacroState {
    Loaded(DefaultState(), SavedOf(store))
  }

  /** As written, whatever was saved, the page comes up with the defaults and no entries. */
  lemma MountAsWrittenDiscardsSaved(store: Store)
    ensures MountedAsWritten(store) == DefaultState()
  {
    SavedRoundTrip(store, DefaultState());
  }

  /** A saved day with one logged entry is lost by the mount as written. */
  lemma MountAsWrittenLosesEntry()
    ensures var e := Entry(1.0, 500.0, 30.0, 60.0, 10.0, "lunch", "");
      var st := DefaultState().(today := Plus(Zero(), e), entries := [e]);
      var store := map[MacrosKey := Json(StateValue(st))];
      SavedOf(store).Record? && SavedOf(store).entries == [e] && MountedAsWritten(store).entries == []
  {
    var e := Entry(1.0, 500.0, 30.0, 60.0, 10.0, "lunch", "");
    var st := DefaultState().(today := Plus(Zero(), e), entries := [e]);
    var store: Store := map[MacrosKey := Json(StateValue(st))];
    SavedRoundTrip(map[], st);
    assert store == map[][MacrosKey := Json(StateValue(st))];
    MountAsWrittenDiscardsSaved(store);
  }

  /** A saved record whose `entries` is not an array loads with no entries, its target and totals intact. */
  lemma NonArrayEntriesLoadEmpty(store: Store, target: Targets, today: Totals, entries: Value)
    requires !entries.Arr?
    ensures var v := Obj(map["target" := TargetsValue(target), "today" := TotalsValue(today), "entries" := entries]);
      Mounted(store[MacrosKey := Json(v)]) == MacroState(target, today, [])
  {
    TargetsRoundTrip(target);
    TotalsRoundTrip(today);
    var v := Obj(map["target" := TargetsValue(target), "today" := TotalsValue(today), "entries" := entries]);
    assert Json(v) != NotJson("");
  }

  /** Loading first brings back every state the page saved. */
  lemma MountRestoresSaved(store: Store, st: MacroState)
    ensures Mounted(store[MacrosKey := Json(StateValue(st))]) == st
  {
    SavedRoundTrip(store, st);
  }

  /** The running totals are the sum of the listed entries. */
  predicate Consistent(st: MacroState) {
    st.today == Sum(st.entries)
  }

  class MacrosPanel {
    /** The page's one state record. */
    var state: MacroState
    /** The browser storage the state is saved to. */
    var store: Store

    /** Mounting: load the saved record first, then save the state that results. */
    constructor Mount(store: Store)
      ensures state == Mounted(store)
      ensures this.store == Saving(store, state)
    {
      state := Mounted(store);
      this.store := Saving(store, Mounted(store));
    }

    /** Mounting as written: the initial state is saved first, then loaded back. */
    constructor MountAsWritten(store: Store)
      ensures state == DefaultState()
      ensures this.store == Saving(store, DefaultState())
    {
      var initial := Saving(store, DefaultState());
      MountAsWrittenDiscardsSaved(store);
      state := Loaded(DefaultState(), SavedOf(initial));
      this.store := initial;
    }

    /** The effect on `[state]`: save the whole state. */
    method Save()
      modifies this`store
      ensures store == Saving(old(store), state)
    {
      store := Saving(store, state);
    }

    /** `updateTarget`: only the named target changes; the new state is saved. */
    method UpdateTarget(f: Field, value: string)
      modifies this
      ensures state == old(state).(target := WithTarget(old(state).target, f, TargetOf(value)))
      ensures store == Saving(old(store), state)
    {
      state := state.(target := WithTarget(state.target, f, TargetOf(value)));
      Save();
    }

    /**
     * `addEntry`: the entry goes to the head of the list, which is cut to
     * 50, and its quantities are added to today's totals. While the list
     * has room the totals stay the sum of the entries.
     */
    method AddEntry(cal: string, protein: string, carbs: string, fat: string, note: string, id: real, createdAt: string)
      modifies this
      ensures var e := NewEntry(id, cal, protein, carbs, fat, note, createdAt);
        state == MacroState(old(state).target, Plus(old(state).today, e), Prepended(e, old(state).entries))
      ensures Consistent(old(state)) && |old(state).entries| < EntryCap ==> Consistent(state)
      ensures store == Saving(old(store), state)
    {
      var e := NewEntry(id, cal, protein, carbs, fat, note, createdAt);
      if Consistent(state) && |state.entries| < EntryCap {
        PrependKeepsSum(state.today, e, state.entries);
      }
      state := MacroState(state.target, Plus(state.today, e), Prepended(e, state.entries));
      Save();
    }

    /** `deleteEntry`: drops the entries with this id and recomputes today's totals from the rest. */
    method DeleteEntry(id: real)
      modifies this
      ensures state.entries == Lists.Filter(old(state).entries, KeepOther(id))
      ensures state.target == old(state).target
      ensures Consistent(state)
      ensures store == Saving(old(store), state)
    {
      var remaining := Lists.Filter(state.entries, KeepOther(id));
      state := MacroState(state.target, Sum(remaining), remaining);
      Save();
    }

    /** `resetToday`: zero totals and no entries; the targets are kept. */
    method ResetToday()
      modifies this
      ensures state == MacroState(old(state).target, Zero(), [])
      ensures Consistent(state)
      ensures store == Saving(old(store), state)
    {
      state := MacroState(state.target, Zero(), []);
      Save();
    }

    /** The progress shown for one quantity. */
    function Progress(f: Field): int
      reads this`state
    {
      match f
      case Cal => Pct(state.today.cal, state.target.cal)
      case Protein => Pct(state.today.protein, state.target.protein)
      case Carbs => Pct(state.today.carbs, state.target.carbs)
      case Fat => Pct(state.today.fat, state.target.fat)
    }
  }

  /** Deleting the entry just added restores the list and, for a consistent state, the totals. */
  lemma AddThenDelete(es: seq<Entry>, e: Entry)
    requires |es| < EntryCap
    requires forall i :: 0 <= i < |es| ==> es[i].id != e.id
    ensures Lists.Filter(Prepended(e, es), KeepOther(e.id)) == es
    ensures Sum(Lists.Filter(Prepended(e, es), KeepOther(e.id))) == Sum(es)
  {
    var all := [e] + es;
    assert all[1..] == es;
    assert !KeepOther(e.id)(all[0]);
    Lists.FilterKeepsAll(es, KeepOther(e.id));
  }
}
