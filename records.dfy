/**
 * Helpers shared by the pages that keep lists of JSON records with
 * numeric `id`s (to-dos and workouts): matching by id and the
 * `filter((it) => it.id !== id)` they delete with.
 */
module Records {
  import opened Wrappers
  import opened JsValue
  import Lists

  /** `it.id === id` for a numeric id. */
  predicate HasId(it: Value, id: real) {
    Property(it, "id") == Some(Num(id))
  }

  /** The test both delete actions filter with: keep the items without this id. */
  function KeepOther(id: real): Value -> bool {
    it => !HasId(it, id)
  }

  predicate AnyNullish(items: seq<Value>) {
    exists i :: 0 <= i < |items| && Nullish(items[i])
  }

  /** `items.filter((it) => it.id !== id)`: `None` when an item is `null` (reading `.id` throws). */
  function Without(items: seq<Value>, id: real): (r: Option<seq<Value>>)
    ensures r.None? <==> AnyNullish(items)
    ensures r.Some? ==> r.value == Lists.Filter(items, KeepOther(id))
    ensures r.Some? ==> forall i :: 0 <= i < |r.value| ==> !HasId(r.value[i], id)
    ensures r.Some? ==> forall i :: 0 <= i < |items| && !HasId(items[i], id) ==> items[i] in r.value
  {
    if AnyNullish(items) then None else Some(Lists.Filter(items, KeepOther(id)))
  }

  /** Deleting the id of a record just put at the head gives back the list it was added to. */
  lemma {:induction false} PrependThenWithout(item: Value, items: seq<Value>, id: real)
    requires HasId(item, id)
    requires !AnyNullish(items)
    requires forall i :: 0 <= i < |items| ==> !HasId(items[i], id)
    ensures Without([item] + items, id) == Some(items)
  {
    var all := [item] + items;
    assert !Nullish(item);
    assert !AnyNullish(all) by {
      forall i | 0 <= i < |all| ensures !Nullish(all[i]) {
        if i > 0 { assert all[i] == items[i - 1]; }
      }
    }
    assert all[1..] == items;
    assert !KeepOther(id)(all[0]);
    assert Lists.Filter(all, KeepOther(id)) == Lists.Filter(items, KeepOther(id));
    Lists.FilterKeepsAll(items, KeepOther(id));
  }
}
