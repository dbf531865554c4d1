/**
 * The submit rule of the task form: it trims the input, does nothing when nothing is left, and
 * otherwise hands the trimmed text to `saveEdit` (an edit is in progress) or to `addTodo`.
 * The form keeps no state of its own; the input text it reads is the store's.
 */
module TodoForm {
  import opened Wrappers
  import opened JsString
  import opened Todos
  import opened UseTodos

  /** Which store handler a submit calls, and with what. */
  datatype Action = NoAction | Add(text: string) | Save(id: string, text: string)

  /**
   * The decision `handleSubmit` makes. Input that is empty after trimming calls nothing; otherwise
   * the edit target decides between saving and adding, and the text passed on is the trimmed input,
   * which is never empty and never starts or ends with whitespace.
   */
  function SubmitAction(inputText: string, editingTodo: Option<Todo>): (a: Action)
    ensures a.NoAction? <==> AllWhitespace(inputText)
    ensures a.Add? <==> !AllWhitespace(inputText) && editingTodo.None?
    ensures a.Save? <==> !AllWhitespace(inputText) && editingTodo.Some?
    ensures !a.NoAction? ==> a.text == Trim(inputText) && a.text != "" && IsTrimmed(a.text)
    ensures a.Save? ==> a.id == editingTodo.value.id
  {
    var trimmedValue := Trim(inputText);
    if trimmedValue != "" then
      if editingTodo.Some? then Save(editingTodo.value.id, trimmedValue) else Add(trimmedValue)
    else
      NoAction
  }

  /**
   * `handleSubmit` wired to the store, as the page wires it. Whitespace-only input changes nothing
   * at all; a save changes only the edited task's text and ends the session; an add puts the
   * trimmed text in front as an open task. The form itself never writes the input text.
   * `newId` and `createdAt` stand for the clock readings `addTodo` takes.
   */
  method HandleSubmit(store: TodoStore, newId: string, createdAt: string) returns (a: Action)
    requires store.Valid() && !HasId(store.todos, newId)
    modifies store
    ensures store.Valid()
    ensures a == SubmitAction(old(store.inputText), old(store.editingTodo))
    ensures a.NoAction? ==> unchanged(store)
    ensures a.Add? ==>
      && store.todos == [Todo(newId, a.text, false, createdAt)] + old(store.todos)
      && store.inputText == ""
      && store.editingTodo == old(store.editingTodo) && store.editingTodoId == old(store.editingTodoId)
      && store.filter == old(store.filter)
    ensures a.Save? ==>
      && old(store.editingTodoId) == Some(a.id)
      && store.todos == SetTextById(old(store.todos), a.id, a.text)
      && store.editingTodo.None? && store.editingTodoId.None? && store.inputText == ""
      && store.filter == old(store.filter)
    ensures UniqueIds(old(store.todos)) ==> UniqueIds(store.todos)
  {
    a := SubmitAction(store.inputText, store.editingTodo);
    match a
    case NoAction =>
    case Add(text) =>
      store.AddTodo(text, newId, createdAt);
    case Save(id, text) =>
      store.SaveEdit(id, text);
  }

  /** `handleCancel`: always calls `cancelEdit`, so the session and the input end whatever the state. */
  method HandleCancel(store: TodoStore)
    requires store.Valid()
    modifies store
    ensures store.Valid()
    ensures store.editingTodo.None? && store.editingTodoId.None? && store.inputText == ""
    ensures store.todos == old(store.todos) && store.filter == old(store.filter)
  {
    store.CancelEdit();
  }
}
