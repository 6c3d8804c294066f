/**
 * The list arithmetic of the todo mutations (app/browser/api.mjs and
 * public/browser/todos-form-create.mjs): a copy of the todo list is pushed
 * to, or spliced at the index `findIndex` finds for the item's `key`.
 * When no todo has that key, `findIndex` gives -1 and the splice acts on
 * the last todo.
 */
module TodoList {
  import opened Wrappers
  import opened JsonValue
  import opened JsArray

  /** `t.key`: `None` stands for `undefined` (no such property, or not an object). */
  function KeyOf(t: Value): (r: Option<Value>)
    ensures r.Some? <==> t.Obj? && "key" in t.fields
  {
    if t.Obj? then Get(t.fields, "key") else None
  }

  /** `findIndex(i => i.key === item.key)` */
  function KeyIndex(list: seq<Value>, item: Value): (r: int)
    ensures -1 <= r < |list|
    ensures r >= 0 ==> KeyOf(list[r]) == KeyOf(item) && forall j :: 0 <= j < r ==> KeyOf(list[j]) != KeyOf(item)
    ensures r == -1 <==> forall j :: 0 <= j < |list| ==> KeyOf(list[j]) != KeyOf(item)
  {
    FindIndex(list, (i: Value) => KeyOf(i) == KeyOf(item))
  }

  /** createMutation: `copy.push(item)` */
  function Created(list: seq<Value>, item: Value): (r: seq<Value>)
    ensures |r| == |list| + 1 && r[..|list|] == list && r[|list|] == item
  {
    list + [item]
  }

  /** updateMutation: `copy.splice(copy.findIndex(…), 1, item)` */
  function Updated(list: seq<Value>, item: Value): seq<Value> {
    Splice(list, KeyIndex(list, item), 1, [item]).contents
  }

  /** destroyMutation: `copy.splice(copy.findIndex(…), 1)` */
  function Destroyed(list: seq<Value>, item: Value): seq<Value> {
    Splice(list, KeyIndex(list, item), 1, []).contents
  }

  /** The first todo with the item's key is the one replaced; nothing else changes. */
  lemma UpdateFirstMatch(list: seq<Value>, item: Value, i: nat)
    requires i < |list| && KeyOf(list[i]) == KeyOf(item)
    requires forall j :: 0 <= j < i ==> KeyOf(list[j]) != KeyOf(item)
    ensures Updated(list, item) == list[i := item]
  {
    assert KeyIndex(list, item) == i;
    SpliceReplace(list, i, item);
  }

  /** With no todo of that key, the last todo is replaced. */
  lemma UpdateNoMatch(list: seq<Value>, item: Value)
    requires |list| > 0
    requires forall j :: 0 <= j < |list| ==> KeyOf(list[j]) != KeyOf(item)
    ensures Updated(list, item) == list[|list| - 1 := item]
  {
    SpliceMinusOne(list, [item]);
  }

  /** Updating an empty list gives the one-element list of the item. */
  lemma UpdateEmpty(item: Value)
    ensures Updated([], item) == [item]
  {
    SpliceEmpty(KeyIndex([], item), [item]);
  }

  /** The first todo with the item's key is the one removed; the others keep their order. */
  lemma DestroyFirstMatch(list: seq<Value>, item: Value, i: nat)
    requires i < |list| && KeyOf(list[i]) == KeyOf(item)
    requires forall j :: 0 <= j < i ==> KeyOf(list[j]) != KeyOf(item)
    ensures Destroyed(list, item) == list[..i] + list[i + 1..]
  {
    assert KeyIndex(list, item) == i;
    SpliceAt(list, i, []);
  }

  /** With no todo of that key, the last todo is removed. */
  lemma DestroyNoMatch(list: seq<Value>, item: Value)
    requires |list| > 0
    requires forall j :: 0 <= j < |list| ==> KeyOf(list[j]) != KeyOf(item)
    ensures Destroyed(list, item) == list[..|list| - 1]
  {
    SpliceMinusOne(list, []);
  }

  /** Destroying from an empty list leaves it empty. */
  lemma DestroyEmpty(item: Value)
    ensures Destroyed([], item) == []
  {
    SpliceEmpty<Value>(KeyIndex([], item), []);
  }

  /** A list as the array value the store holds. */
  function ListValue(list: seq<Value>): (v: Value)
    ensures v.Arr? && |v.slots| == |list|
    ensures forall i :: 0 <= i < |list| ==> v.slots[i] == Some(list[i])
  {
    Arr(seq(|list|, i requires 0 <= i < |list| => Some(list[i])))
  }

  /** An array without holes. */
  predicate IsList(v: Value) {
    v.Arr? && forall i :: 0 <= i < |v.slots| ==> v.slots[i].Some?
  }

  /** The elements of an array without holes. */
  function Elements(v: Value): (list: seq<Value>)
    requires IsList(v)
    ensures ListValue(list) == v
  {
    var list := seq(|v.slots|, i requires 0 <= i < |v.slots| => v.slots[i].value);
    assert ListValue(list).slots == v.slots;
    list
  }

  /**
   * `store?.todos?.slice() || []`: a copy of the stored todo list, or the
   * empty list when there is none.
   */
  function TodosOf(state: map<string, Value>): (list: seq<Value>)
    requires "todos" in state ==> IsList(state["todos"])
    ensures "todos" in state ==> ListValue(list) == state["todos"]
    ensures "todos" !in state ==> list == []
  {
    if "todos" in state then Elements(state["todos"]) else []
  }

  /** `rest.todo || {}` (app/browser/api.mjs): a missing or falsy todo becomes `{}`. */
  function ApiTodo(todo: Option<Value>): (r: Value)
    ensures Truthy(r)
    ensures todo.Some? && Truthy(todo.value) ==> r == todo.value
    ensures !(todo.Some? && Truthy(todo.value)) ==> r == Obj(map[])
  {
    if todo.Some? && Truthy(todo.value) then todo.value else Obj(map[])
  }

  /** The default `todo={}` / `problems={}`: only a missing value becomes `{}`. */
  function OrEmpty(v: Option<Value>): (r: Value)
    ensures v.Some? ==> r == v.value
    ensures v.None? ==> r.Obj? && r.fields == map[]
  {
    if v.Some? then v.value else Obj(map[])
  }
}
