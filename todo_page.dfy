/**
 * The to-do page. It keeps no list of its own: every action parses the
 * `todos_v1` item, changes the parsed array (`unshift`, `map`, `filter`)
 * and writes it back. An item that does not parse, or parses to something
 * other than an array, makes the action throw before it writes anything.
 */
module TodoPage {
  import opened Wrappers
  import opened JsValue
  import opened Storage
  import JsString
  import Lists
  import opened Records

  /** The record `submitQuickTodo` adds: the id and timestamp come from the clock. */
  function NewTodo(id: real, text: string, createdAt: string): (t: Value)
    ensures t.Obj? && Property(t, "id") == Some(Num(id)) && Property(t, "done") == Some(Bool(false))
    ensures Property(t, "text") == Some(Str(text))
  {
    Obj(map["id" := Num(id), "text" := Str(text), "done" := Bool(false), "createdAt" := Str(createdAt)])
  }

  /** The parsed to-do array; `None` when the item is not JSON or not an array (the action then throws). */
  function TodoList(store: Store): Option<seq<Value>> {
    match Parse(store, TodosKey, Arr([]))
    case Some(Arr(items)) => Some(items)
    case _ => None
  }

  /** Reading back the array the page has just written. */
  lemma TodoListWritten(store: Store, items: seq<Value>)
    ensures TodoList(store[TodosKey := Json(Arr(items))]) == Some(items)
  {
    ParseWritten(store, TodosKey, Arr(items), Arr([]));
  }

  /** `{ ...it, done: !it.done }`. */
  function Flip(it: Value): (r: Value)
    ensures it.Obj? ==> r.Obj? && r.fields.Keys == it.fields.Keys + {"done"}
    ensures it.Obj? ==> Property(r, "done") == Some(Bool(!Truthy(Property(it, "done").value)))
    ensures it.Obj? ==> forall k :: k in it.fields && k != "done" ==> r.fields[k] == it.fields[k]
  {
    match it
    case Obj(m) => Obj(m["done" := Bool(!Truthy(if "done" in m then m["done"] else Undefined))])
    case _ => it
  }

  /**
   * `t.map((it) => (it.id === id ? { ...it, done: !it.done } : it))`:
   * `None` when an item is `null` (reading `.id` throws). Otherwise the
   * list keeps its length, items with another id are untouched and the
   * matching ones have `done` negated.
   */
  function Toggled(items: seq<Value>, id: real): (r: Option<seq<Value>>)
    ensures r.None? <==> AnyNullish(items)
    ensures r.Some? ==> |r.value| == |items|
    ensures r.Some? ==> forall i :: 0 <= i < |items| && !HasId(items[i], id) ==> r.value[i] == items[i]
    ensures r.Some? ==> forall i :: 0 <= i < |items| && HasId(items[i], id) ==> r.value[i] == Flip(items[i])
  {
    if AnyNullish(items) then None
    else Some(seq(|items|, i requires 0 <= i < |items| => if HasId(items[i], id) then Flip(items[i]) else items[i]))
  }

  /** Every item carrying `id` is an object whose `done` is a boolean, as the page writes them. */
  predicate WellFormedFor(items: seq<Value>, id: real) {
    forall i :: 0 <= i < |items| && HasId(items[i], id) ==>
      items[i].Obj? && "done" in items[i].fields && items[i].fields["done"].Bool?
  }

  /** Toggling the same id twice restores the list, provided the matching items hold boolean `done` flags. */
  lemma ToggleTwice(items: seq<Value>, id: real)
    requires !AnyNullish(items) && WellFormedFor(items, id)
    ensures Toggled(items, id).Some?
    ensures Toggled(Toggled(items, id).value, id) == Some(items)
  {
    var once := Toggled(items, id).value;
    assert !AnyNullish(once) by {
      forall i | 0 <= i < |once| ensures !Nullish(once[i]) {
        assert !Nullish(items[i]);
      }
    }
    var twice := Toggled(once, id).value;
    forall i | 0 <= i < |items| ensures twice[i] == items[i] {
      if HasId(items[i], id) {
        var m := items[i].fields;
        var b := m["done"].b;
        var m1 := m["done" := Bool(!b)];
        assert once[i] == Obj(m1);
        assert HasId(once[i], id);
        assert twice[i] == Obj(m1["done" := Bool(b)]);
        assert m1["done" := Bool(b)] == m;
      }
    }
    assert twice == items;
  }

  /** Deleting the id of a just-submitted to-do gives back the list it was added to. */
  lemma SubmitThenDelete(items: seq<Value>, id: real, text: string, createdAt: string)
    requires !AnyNullish(items)
    requires forall i :: 0 <= i < |items| ==> !HasId(items[i], id)
    ensures Without([NewTodo(id, text, createdAt)] + items, id) == Some(items)
  {
    PrependThenWithout(NewTodo(id, text, createdAt), items, id);
  }

  class TodoPanel {
    /** The browser storage the page reads and writes. */
    var store: Store

    constructor (store: Store)
      ensures this.store == store
    {
      this.store := store;
    }

    /**
     * `submitQuickTodo`: prepends one not-done to-do with the trimmed text;
     * the rest of the list keeps its order. Nothing is written when the
     * stored item cannot be read as an array.
     */
    method SubmitQuickTodo(text: string, id: real, createdAt: string)
      modifies this
      ensures old(TodoList(store)).Some? ==>
        store == old(store)[TodosKey := Json(Arr([NewTodo(id, JsString.Trim(text), createdAt)] + old(TodoList(store)).value))]
      ensures old(TodoList(store)).Some? ==>
        TodoList(store) == Some([NewTodo(id, JsString.Trim(text), createdAt)] + old(TodoList(store)).value)
      ensures old(TodoList(store)).None? ==> store == old(store)
    {
      var t := TodoList(store);
      if t.Some? {
        var items := [NewTodo(id, JsString.Trim(text), createdAt)] + t.value;
        TodoListWritten(store, items);
        store := store[TodosKey := Json(Arr(items))];
      }
    }

    /** `toggleTodoDone`: writes the toggled list; nothing is written when reading or mapping throws. */
    method ToggleTodoDone(id: real)
      modifies this
      ensures old(TodoList(store)).Some? && Toggled(old(TodoList(store)).value, id).Some? ==>
        store == old(store)[TodosKey := Json(Arr(Toggled(old(TodoList(store)).value, id).value))]
      ensures old(TodoList(store)).None? || old(AnyNullish(TodoList(store).value)) ==> store == old(store)
    {
      var t := TodoList(store);
      if t.Some? {
        var updated := Toggled(t.value, id);
        if updated.Some? {
          store := store[TodosKey := Json(Arr(updated.value))];
        }
      }
    }

    /** `deleteTodo`: writes the list without the items carrying `id`, the others in their order. */
    method DeleteTodo(id: real)
      modifies this
      ensures old(TodoList(store)).Some? && !old(AnyNullish(TodoList(store).value)) ==>
        store == old(store)[TodosKey := Json(Arr(Lists.Filter(old(TodoList(store)).value, KeepOther(id))))]
      ensures old(TodoList(store)).None? || old(AnyNullish(TodoList(store).value)) ==> store == old(store)
    {
      var t := TodoList(store);
      if t.Some? {
        var updated := Without(t.value, id);
        if updated.Some? {
          store := store[TodosKey := Json(Arr(updated.value))];
        }
      }
    }

    /** `clearAllTodos`: once confirmed, writes the empty list whatever was stored before. */
    method ClearAllTodos(confirmed: bool)
      modifies this
      ensures confirmed ==> store == old(store)[TodosKey := Json(Arr([]))] && TodoList(store) == Some([])
      ensures !confirmed ==> store == old(store)
    {
      if confirmed {
        TodoListWritten(store, []);
        store := store[TodosKey := Json(Arr([]))];
      }
    }

    /** The form's submit handler: white-space-only input adds nothing. */
    method SubmitForm(input: string, id: real, createdAt: string) returns (submitted: bool)
      modifies this
      ensures submitted <==> !JsString.AllSpace(input)
      ensures !submitted ==> store == old(store)
      ensures submitted && old(TodoList(store)).Some? ==>
        store == old(store)[TodosKey := Json(Arr([NewTodo(id, JsString.Trim(input), createdAt)] + old(TodoList(store)).value))]
      ensures submitted && old(TodoList(store)).Some? ==>
        TodoList(store) == Some([NewTodo(id, JsString.Trim(input), createdAt)] + old(TodoList(store)).value)
      ensures old(TodoList(store)).None? ==> store == old(store)
    {
      JsString.TrimEmptyIff(input);
      submitted := JsString.Trim(input) != "";
      if submitted {
        JsString.TrimIdempotent(input);
        SubmitQuickTodo(JsString.Trim(input), id, createdAt);
      }
    }
  }
}
