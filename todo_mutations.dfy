/**
 * createMutation, updateMutation and destroyMutation (app/browser/api.mjs
 * and public/browser/todos-form-create.mjs): each copies the stored todo
 * list, pushes to or splices the copy, and assigns the copy and the
 * message's `problems` through the store's `set`. The two files differ
 * only in how the message's todo is defaulted (TodoList.ApiTodo and
 * TodoList.OrEmpty); the methods take the defaulted todo.
 */
module TodoMutations {
  import opened JsonValue
  import opened TodoList
  import opened JsArray
  import opened ReactiveStore

  /** The todo list of a store is an array without holes, when there is one. */
  predicate HasTodoList(state: map<string, Value>) {
    "todos" in state ==> IsList(state["todos"])
  }

  /** The dirty properties one mutation adds: always `todos`, and `problems` when it differs. */
  function MutationDirty(state: map<string, Value>, problems: Value): seq<string> {
    ["todos"] + if Differs(Get(state, "problems"), problems) then ["problems"] else []
  }

  /** Assigns `store.todos = copy` and `store.problems = problems`. */
  method Commit(store: Store, copy: seq<Value>, problems: Value)
    requires store.Valid()
    modifies store
    ensures store.Valid()
    ensures store.state == old(store.state)["todos" := ListValue(copy)]["problems" := problems]
    ensures store.dirtyProps == old(store.dirtyProps) + MutationDirty(old(store.state), problems)
    ensures store.listeners == old(store.listeners)
  {
    var ok := store.Set("todos", ListValue(copy));
    assert Get(store.state, "problems") == Get(old(store.state), "problems");
    ok := store.Set("problems", problems);
  }

  /** createMutation: the todo is appended to a copy of the list. */
  method CreateMutation(store: Store, todo: Value, problems: Value)
    requires store.Valid() && HasTodoList(store.state)
    modifies store
    ensures store.Valid() && HasTodoList(store.state)
    ensures store.state == old(store.state)["todos" := ListValue(Created(TodosOf(old(store.state)), todo))]["problems" := problems]
    ensures store.dirtyProps == old(store.dirtyProps) + MutationDirty(old(store.state), problems)
    ensures store.listeners == old(store.listeners)
  {
    var copy := TodosOf(store.state);
    copy := copy + [todo];
    Commit(store, copy, problems);
  }

  /** updateMutation: the copy's first todo with the same key (or its last todo) is replaced. */
  method UpdateMutation(store: Store, todo: Value, problems: Value)
    requires store.Valid() && HasTodoList(store.state)
    modifies store
    ensures store.Valid() && HasTodoList(store.state)
    ensures store.state == old(store.state)["todos" := ListValue(Updated(TodosOf(old(store.state)), todo))]["problems" := problems]
    ensures store.dirtyProps == old(store.dirtyProps) + MutationDirty(old(store.state), problems)
    ensures store.listeners == old(store.listeners)
  {
    var copy := TodosOf(store.state);
    copy := Splice(copy, KeyIndex(copy, todo), 1, [todo]).contents;
    Commit(store, copy, problems);
  }

  /** destroyMutation: the copy's first todo with the same key (or its last todo) is removed. */
  method DestroyMutation(store: Store, todo: Value, problems: Value)
    requires store.Valid() && HasTodoList(store.state)
    modifies store
    ensures store.Valid() && HasTodoList(store.state)
    ensures store.state == old(store.state)["todos" := ListValue(Destroyed(TodosOf(old(store.state)), todo))]["problems" := problems]
    ensures store.dirtyProps == old(store.dirtyProps) + MutationDirty(old(store.state), problems)
    ensures store.listeners == old(store.listeners)
  {
    var copy := TodosOf(store.state);
    copy := Splice(copy, KeyIndex(copy, todo), 1, []).contents;
    Commit(store, copy, problems);
  }

  /**
   * listMutation (app/browser/api.mjs, where notifyOnInitialize is set):
   * the received list and problems are assigned through `set`.
   */
  method ApiListMutation(store: Store, todos: seq<Value>, problems: Value)
    requires store.Valid()
    modifies store
    ensures store.Valid() && HasTodoList(store.state)
    ensures store.state == old(store.state)["todos" := ListValue(todos)]["problems" := problems]
    ensures store.dirtyProps == old(store.dirtyProps) + MutationDirty(old(store.state), problems)
    ensures store.listeners == old(store.listeners)
  {
    Commit(store, todos, problems);
    assert store.state["todos"] == ListValue(todos);
  }

  /**
   * listMutation (public/browser/todos-form-create.mjs): the received list
   * and problems are merged in by `initialize`, so nothing is marked dirty
   * and no listener is notified.
   */
  method ListMutation(store: Store, todos: seq<Value>, problems: Value)
    requires store.Valid()
    modifies store
    ensures store.Valid() && HasTodoList(store.state)
    ensures store.state == old(store.state)["todos" := ListValue(todos)]["problems" := problems]
    ensures store.dirtyProps == old(store.dirtyProps) && store.listeners == old(store.listeners)
  {
    var initial := map["todos" := ListValue(todos), "problems" := problems];
    store.Initialize(Obj(initial));
    assert old(store.state) + initial == old(store.state)["todos" := ListValue(todos)]["problems" := problems];
  }
}
