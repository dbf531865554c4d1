/**
 * Sessions on the task page, checked against the contracts of the store and of the form: the
 * whole life of one task, and an edit of a task that is not in the list.
 */
module Session {
  import opened Wrappers
  import opened JsString
  import opened Todos
  import opened UseTodos
  import opened TodoForm

  /** Submitting "Buy milk" with no edit in progress adds it unchanged. */
  lemma SubmitBuyMilk()
    ensures SubmitAction("Buy milk", None) == Add("Buy milk")
  {
    var text := "Buy milk";
    assert IsTrimmed(text) by {
      assert text[0] == 'B' && text[|text| - 1] == 'k';
    }
    TrimFixedPoints(text);
    assert Trim(text) == text;
  }

  /**
   * A session from the first run (`EmptyStorageLoadsDefaults`): add "Buy milk", complete it, edit it, delete it while it is
   * being edited, then show the completed tasks.
   */
  method BuyMilkScenario(store: TodoStore)
    requires store.Valid() && store.todos == [] && store.editingTodo.None?
    modifies store
    ensures store.Valid() && store.todos == [] && store.filter == "completed"
    ensures store.editingTodo.None? && store.editingTodoId.None? && store.inputText == ""
    ensures EditingIdKey !in store.storage && FilteredTodos(store.todos, store.filter) == []
  {
    store.SetInputText("Buy milk");
    SubmitTypedBuyMilk(store);
    EditAndDelete(store);
  }

  /** Submitting the typed "Buy milk" adds it as the only task and clears the input. */
  method SubmitTypedBuyMilk(store: TodoStore)
    requires store.Valid() && store.todos == [] && store.editingTodo.None? && store.inputText == "Buy milk"
    modifies store
    ensures store.Valid() && store.todos == [Todo("1", "Buy milk", false, "t0")] && store.inputText == ""
  {
    var action := HandleSubmit(store, "1", "t0");
    assert action == Add("Buy milk") by { SubmitBuyMilk(); }
  }

  /** The rest of the session: complete the task, edit it, delete it while editing, show the completed ones. */
  method EditAndDelete(store: TodoStore)
    requires store.Valid() && store.todos == [Todo("1", "Buy milk", false, "t0")]
    modifies store
    ensures store.Valid() && store.todos == [] && store.filter == "completed"
    ensures store.editingTodo.None? && store.editingTodoId.None? && store.inputText == ""
    ensures EditingIdKey !in store.storage && FilteredTodos(store.todos, store.filter) == []
  {
    store.ToggleTodo("1");
    assert store.todos == [Todo("1", "Buy milk", true, "t0")];
    assert Counts(store.todos) == Stats(1, 1, 0);

    store.StartEdit(store.todos[0]);
    assert store.editingTodoId == Some("1") && store.inputText == "Buy milk";

    store.DeleteTodo("1");
    assert store.todos == [] && store.editingTodo.None? && store.editingTodoId.None? && store.inputText == "";
    assert EditingIdKey !in store.storage;

    store.HandleFilterChange("completed");
  }

  /**
   * Editing a task that is not in the list. The effect stores its id; the next render (here the
   * one after typing) erases it although the edit goes on, so a reload starts with no edit.
   */
  method UnlistedEditScenario(store: TodoStore)
    requires store.Valid() && store.todos == [] && store.editingTodo.None?
    modifies store
    ensures store.Valid() && store.editingTodoId == Some("z") && store.inputText == "abc"
    ensures EditingIdKey !in store.storage && !Mirrors(store.storage, store.State())
    ensures Load(store.storage).state.editingTodo.None?
  {
    store.StartEdit(Todo("z", "ghost", false, "t"));
    assert EditingIdKey in store.storage && store.storage[EditingIdKey] == "z";
    store.SetInputText("abc");
  }
}
