/**
 * The `useTodos` hook: the task store, its five pieces of state, the seven handlers and the input
 * setter, and the four storage slots the state is mirrored into. `initializeState` is `Load` below;
 * each `useEffect` is one `Save…` method of the store, run after the handler that changed its state.
 */
module UseTodos {
  import opened Wrappers
  import opened Todos
  import Json

  // The four localStorage keys.
  const TodosKey := "todos"
  const InputTextKey := "todoInputText"
  const EditingIdKey := "editingTodoId"
  const FilterKey := "todoFilter"

  /** The state the hook holds, as `initializeState` returns it. */
  datatype Snapshot = Snapshot(
    todos: seq<Todo>,
    inputText: string,
    editingTodo: Option<Todo>,
    editingTodoId: Option<string>,
    filter: string)

  /** What the catch block of `initializeState` returns. */
  const Defaults := Snapshot([], "", None, None, "all")

  /** The initial state together with the storage as `initializeState` leaves it. */
  datatype Loaded = Loaded(state: Snapshot, storage: map<string, string>)

  /** `localStorage.getItem(key)`: the stored text, or null. */
  function GetItem(storage: map<string, string>, key: string): Option<string> {
    if key in storage then Some(storage[key]) else None
  }

  /** JavaScript truthiness of a `string | null`: null and "" are falsy. */
  predicate Truthy(v: Option<string>) {
    v.Some? && v.value != ""
  }

  /** `editingTodoId` is null exactly when `editingTodo` is, and otherwise is that task's id. */
  predicate EditSessionConsistent(s: Snapshot) {
    && (s.editingTodo.None? <==> s.editingTodoId.None?)
    && (s.editingTodo.Some? ==> s.editingTodoId.value == s.editingTodo.value.id)
  }

  /** An edit in progress refers to a task that is in the list. */
  predicate EditTargetListed(s: Snapshot) {
    s.editingTodoId.Some? ==> HasId(s.todos, s.editingTodoId.value)
  }

  /** The task list, input and filter slots hold exactly what the state holds. */
  predicate ValueSlotsMirror(storage: map<string, string>, s: Snapshot) {
    && TodosKey in storage && storage[TodosKey] == Json.Encode(s.todos)
    && InputTextKey in storage && storage[InputTextKey] == s.inputText
    && FilterKey in storage && storage[FilterKey] == s.filter
  }

  /**
   * The four slots hold what the effects last wrote for this state: the task list as JSON, the
   * input and filter as raw text, and the edit id only while it is truthy (the key is removed otherwise).
   */
  predicate Mirrors(storage: map<string, string>, s: Snapshot) {
    && ValueSlotsMirror(storage, s)
    && if Truthy(s.editingTodoId) then EditingIdKey in storage && storage[EditingIdKey] == s.editingTodoId.value
       else EditingIdKey !in storage
  }

  /**
   * What the slots hold between two handler calls. Every render runs `initializeState` again, and
   * that erases a stored edit id naming no stored task; the effect on `editingTodoId` does not run
   * again until the id changes. So besides `Mirrors`, the edit-id key may be missing while the edit
   * target is not in the list.
   */
  predicate InStorage(storage: map<string, string>, s: Snapshot) {
    && ValueSlotsMirror(storage, s)
    && if Truthy(s.editingTodoId) then
         || (EditingIdKey in storage && storage[EditingIdKey] == s.editingTodoId.value)
         || (EditingIdKey !in storage && !HasId(s.todos, s.editingTodoId.value))
       else EditingIdKey !in storage
  }

  /** While the edit target is listed (or there is none), the slots hold the state exactly as `Mirrors` says. */
  lemma ListedTargetMirrors(storage: map<string, string>, s: Snapshot)
    requires EditTargetListed(s)
    ensures InStorage(storage, s) <==> Mirrors(storage, s)
  {
  }

  predicate IsSlot(key: string) {
    key == TodosKey || key == InputTextKey || key == FilterKey || key == EditingIdKey
  }

  /**
   * Storage after a render, when its slots hold `s`: the stored edit id is kept if a stored task
   * has it and erased otherwise; nothing else changes.
   */
  function AfterRender(storage: map<string, string>, s: Snapshot): (r: map<string, string>)
    ensures InStorage(storage, s) ==> InStorage(r, s)
    ensures EditTargetListed(s) ==> r == storage
  {
    if EditingIdKey in storage && Truthy(s.editingTodoId) && !HasId(s.todos, s.editingTodoId.value)
    then storage - {EditingIdKey}
    else storage
  }

  /** What `initializeState` does to storage whose slots hold `s` is `AfterRender`, and it reads back `s`'s tasks. */
  lemma RenderMatchesLoad(storage: map<string, string>, s: Snapshot)
    requires InStorage(storage, s)
    ensures Load(storage).storage == AfterRender(storage, s)
    ensures Load(storage).state.todos == s.todos
  {
    LoadTodosReadsEncoded(storage, s.todos);
  }

  /** A list with the same ids as `s`'s lists the edit target exactly when `s`'s does, and keeps ids unique. */
  lemma SameIdsKeepTarget(s: Snapshot, ts: seq<Todo>)
    requires SameIds(ts, s.todos)
    ensures s.editingTodoId.Some? ==> (HasId(ts, s.editingTodoId.value) <==> HasId(s.todos, s.editingTodoId.value))
    ensures UniqueIds(ts) <==> UniqueIds(s.todos)
  {
    SameIdsKeepIds(ts, s.todos);
  }

  /** The `todos` effect keeps the slots holding the state, as long as the new list does not bring back an erased edit target. */
  lemma WriteTodosSlot(m: map<string, string>, s: Snapshot, ts: seq<Todo>)
    requires InStorage(m, s)
    requires Truthy(s.editingTodoId) && EditingIdKey !in m ==> !HasId(ts, s.editingTodoId.value)
    ensures InStorage(m[TodosKey := Json.Encode(ts)], s.(todos := ts))
  {
  }

  /** The `todoInputText` effect keeps the slots holding the state once the input has changed. */
  lemma WriteInputSlot(m: map<string, string>, s: Snapshot, text: string)
    requires InStorage(m, s)
    ensures InStorage(m[InputTextKey := text], s.(inputText := text))
  {
  }

  /** The `todoFilter` effect keeps the slots holding the state once the filter has changed. */
  lemma WriteFilterSlot(m: map<string, string>, s: Snapshot, filter: string)
    requires InStorage(m, s)
    ensures InStorage(m[FilterKey := filter], s.(filter := filter))
  {
  }

  /** The `editingTodoId` effect makes the edit slot mirror the new edit target. */
  lemma WriteEditSlot(m: map<string, string>, s: Snapshot, todo: Option<Todo>, id: Option<string>)
    requires InStorage(m, s)
    ensures InStorage(if Truthy(id) then m[EditingIdKey := id.value] else m - {EditingIdKey},
                      s.(editingTodo := todo, editingTodoId := id))
  {
  }

  /** All four effects run once, as on the first render: the slots then mirror `s`, other keys are left alone. */
  function Persisted(storage: map<string, string>, s: Snapshot): (r: map<string, string>)
    ensures Mirrors(r, s)
    ensures forall k :: !IsSlot(k) ==> (k in r <==> k in storage) && (k in r ==> r[k] == storage[k])
  {
    var written := storage[TodosKey := Json.Encode(s.todos)][InputTextKey := s.inputText][FilterKey := s.filter];
    if Truthy(s.editingTodoId) then written[EditingIdKey := s.editingTodoId.value]
    else written - {EditingIdKey}
  }

  /** Writing the slots again for the state they already mirror changes nothing. */
  lemma PersistedWhenMirrored(storage: map<string, string>, s: Snapshot)
    requires Mirrors(storage, s)
    ensures Persisted(storage, s) == storage
  {
    var r := Persisted(storage, s);
    assert r.Keys == storage.Keys;
  }

  /**
   * The task list `initializeState` reads: a missing or empty slot gives no tasks, any other text is
   * parsed, and `None` stands for a parse that throws. The list is empty exactly when the slot is
   * missing, empty or holds `[]`.
   */
  function LoadTodos(storage: map<string, string>): (r: Option<seq<Todo>>)
    ensures !Truthy(GetItem(storage, TodosKey)) ==> r == Some([])
    ensures r == Some([]) <==> !Truthy(GetItem(storage, TodosKey)) || storage[TodosKey] == "[]"
  {
    var savedTodos := GetItem(storage, TodosKey);
    if Truthy(savedTodos) then
      Json.DecodeEmpty(savedTodos.value);
      Json.Decode(savedTodos.value)
    else Some([])
  }

  /** A slot holding what the `todos` effect wrote loads back as that list. */
  lemma LoadTodosReadsEncoded(storage: map<string, string>, ts: seq<Todo>)
    requires TodosKey in storage && storage[TodosKey] == Json.Encode(ts)
    ensures LoadTodos(storage) == Some(ts)
  {
    Json.DecodeEncode(ts);
  }

  /**
   * `initializeState`. A task list that does not parse lands in the catch block, which resets every
   * field to its default. Otherwise a missing input or filter slot defaults to "" and "all". A stored
   * edit id is kept only if a loaded task has it; a stale one is erased from storage.
   */
  function Load(storage: map<string, string>): (r: Loaded)
    ensures EditSessionConsistent(r.state) && EditTargetListed(r.state)
    ensures r.state.editingTodoId.Some? ==> Truthy(r.state.editingTodoId)
    ensures r.storage == storage || (r.storage == storage - {EditingIdKey} && r.state.editingTodoId.None?)
  {
    var savedInputText := GetItem(storage, InputTextKey);
    var savedEditingId := GetItem(storage, EditingIdKey);
    var savedFilter := GetItem(storage, FilterKey);
    match LoadTodos(storage)
    case None => Loaded(Defaults, storage)
    case Some(todos) =>
      var inputText := if Truthy(savedInputText) then savedInputText.value else "";
      var filter := if Truthy(savedFilter) then savedFilter.value else "all";
      if Truthy(savedEditingId) then
        var editingTodo := Find(todos, savedEditingId.value);
        if editingTodo.Some? then Loaded(Snapshot(todos, inputText, editingTodo, savedEditingId, filter), storage)
        else Loaded(Snapshot(todos, inputText, None, None, filter), storage - {EditingIdKey})
      else
        Loaded(Snapshot(todos, inputText, None, None, filter), storage)
  }

  /** A task list that does not parse discards everything, the readable input and filter slots included. */
  lemma LoadParseFailureResetsAll(storage: map<string, string>)
    requires LoadTodos(storage).None?
    ensures Load(storage) == Loaded(Snapshot([], "", None, None, "all"), storage)
  {
  }

  /** Missing slots load as their defaults, whether or not the task list parses. */
  lemma LoadMissingSlots(storage: map<string, string>)
    ensures TodosKey !in storage ==> Load(storage).state.todos == []
    ensures InputTextKey !in storage ==> Load(storage).state.inputText == ""
    ensures FilterKey !in storage ==> Load(storage).state.filter == "all"
  {
  }

  /** A stored edit id that names no loaded task is erased from storage and no edit is in progress. */
  lemma LoadRepairsStaleEditId(storage: map<string, string>)
    requires Truthy(GetItem(storage, EditingIdKey))
    requires LoadTodos(storage).Some? && !HasId(LoadTodos(storage).value, storage[EditingIdKey])
    ensures Load(storage).state.editingTodo.None? && Load(storage).state.editingTodoId.None?
    ensures Load(storage).state.todos == LoadTodos(storage).value
    ensures Load(storage).storage == storage - {EditingIdKey} && EditingIdKey !in Load(storage).storage
  {
  }

  /** The first run: nothing is stored and every field starts at its default. */
  lemma EmptyStorageLoadsDefaults()
    ensures Load(map[]) == Loaded(Defaults, map[])
  {
  }

  /** Only `editingTodoId = "X"` is stored and there is no task list: the edit is dropped and its key removed. */
  lemma StaleEditScenario()
    ensures Load(map[EditingIdKey := "X"]) == Loaded(Defaults, map[])
  {
    var storage := map[EditingIdKey := "X"];
    assert !HasId([], "X");
    assert storage - {EditingIdKey} == map[];
  }

  /**
   * Reloading from slots that mirror a consistent state gives back the task list and the input text,
   * and the edit id if it was truthy; the filter comes back as "all" if it was "". Storage is untouched.
   */
  lemma ReloadRestoresState(storage: map<string, string>, s: Snapshot)
    requires Mirrors(storage, s) && EditSessionConsistent(s) && EditTargetListed(s)
    ensures Load(storage).storage == storage
    ensures var l := Load(storage).state;
      && l.todos == s.todos
      && l.inputText == s.inputText
      && l.filter == (if s.filter == "" then "all" else s.filter)
      && l.editingTodoId == (if Truthy(s.editingTodoId) then s.editingTodoId else None)
      && (l.editingTodo.Some? ==> l.editingTodo.value.id == s.editingTodo.value.id)
  {
    Json.DecodeEncode(s.todos);
  }

  /** The hook's state and the browser storage it writes to. */
  class TodoStore {
    var todos: seq<Todo>
    var filter: string
    var editingTodo: Option<Todo>
    var inputText: string
    var editingTodoId: Option<string>
    /** The browser's localStorage. */
    var storage: map<string, string>

    function State(): Snapshot
      reads this
    {
      Snapshot(todos, inputText, editingTodo, editingTodoId, filter)
    }

    /**
     * Between two handler calls: the edit fields agree and the slots hold the state, exactly as
     * `Mirrors` says while the edit target is listed (`ListedTargetMirrors`).
     */
    predicate Valid()
      reads this
    {
      EditSessionConsistent(State()) && InStorage(storage, State())
    }

    /** Mounting the hook: `initializeState`, then every effect runs once. */
    constructor (browserStorage: map<string, string>)
      ensures Valid() && EditTargetListed(State())
      ensures State() == Load(browserStorage).state
      ensures storage == Persisted(Load(browserStorage).storage, State())
    {
      todos, filter, editingTodo, inputText, editingTodoId := [], "all", None, "", None;
      storage := browserStorage;
      new;
      ghost var loaded := Load(browserStorage);
      var init := InitializeState();
      todos, inputText, editingTodo, editingTodoId, filter :=
        init.todos, init.inputText, init.editingTodo, init.editingTodoId, init.filter;
      assert State() == init == loaded.state;
      SaveTodos();
      SaveInputText();
      SaveFilter();
      SaveEditingId();
      assert storage == Persisted(loaded.storage, State());
    }

    /** `initializeState`, reading the four slots and removing a stale edit id. */
    method InitializeState() returns (init: Snapshot)
      modifies this`storage
      ensures init == Load(old(storage)).state && storage == Load(old(storage)).storage
    {
      var savedInputText := GetItem(storage, InputTextKey);
      var savedEditingId := GetItem(storage, EditingIdKey);
      var savedFilter := GetItem(storage, FilterKey);
      var parsed := LoadTodos(storage);
      if parsed.None? {
        // JSON.parse threw: the catch block
        init := Defaults;
        return;
      }
      var loadedTodos := parsed.value;
      var loadedInput := if Truthy(savedInputText) then savedInputText.value else "";
      var loadedFilter := if Truthy(savedFilter) then savedFilter.value else "all";
      var found: Option<Todo> := None;
      if Truthy(savedEditingId) {
        found := Find(loadedTodos, savedEditingId.value);
        if found.None? {
          storage := storage - {EditingIdKey};
        }
      }
      init := Snapshot(loadedTodos, loadedInput, found, if found.Some? then savedEditingId else None, loadedFilter);
    }

    /**
     * One render of the hook. Its body calls `initializeState` every time and uses only the first
     * result as the state, but the erasure of a stale edit id happens at every render. Effects run
     * after the render, so storage still holds `committed`, the state before the handler.
     */
    method Render(ghost committed: Snapshot)
      requires InStorage(storage, committed)
      modifies this`storage
      ensures storage == AfterRender(old(storage), committed)
    {
      RenderMatchesLoad(storage, committed);
      var discarded := InitializeState();
    }

    /** A render caused by anything else on the page: at most the stale edit id goes. */
    method Rerender()
      requires Valid()
      modifies this`storage
      ensures Valid()
      ensures storage == AfterRender(old(storage), State())
    {
      Render(State());
    }

    /** The effect on `todos`. */
    method SaveTodos()
      modifies this`storage
      ensures storage == old(storage)[TodosKey := Json.Encode(todos)]
    {
      storage := storage[TodosKey := Json.Encode(todos)];
    }

    /** The effect on `inputText`. */
    method SaveInputText()
      modifies this`storage
      ensures storage == old(storage)[InputTextKey := inputText]
    {
      storage := storage[InputTextKey := inputText];
    }

    /** The effect on `filter`. */
    method SaveFilter()
      modifies this`storage
      ensures storage == old(storage)[FilterKey := filter]
    {
      storage := storage[FilterKey := filter];
    }

    /** The effect on `editingTodoId`: written while truthy, removed otherwise. */
    method SaveEditingId()
      modifies this`storage
      ensures storage == if Truthy(editingTodoId) then old(storage)[EditingIdKey := editingTodoId.value]
                         else old(storage) - {EditingIdKey}
    {
      if Truthy(editingTodoId) {
        storage := storage[EditingIdKey := editingTodoId.value];
      } else {
        storage := storage - {EditingIdKey};
      }
    }

    /**
     * `addTodo`: the new open task goes in front of the list and the input is cleared. The clock
     * gives an id no earlier task had, the edit target included.
     */
    method AddTodo(text: string, id: string, createdAt: string)
      requires Valid() && !HasId(todos, id) && editingTodoId != Some(id)
      modifies this
      ensures Valid()
      ensures todos == [Todo(id, text, false, createdAt)] + old(todos)
      ensures inputText == ""
      ensures filter == old(filter) && editingTodo == old(editingTodo) && editingTodoId == old(editingTodoId)
      ensures storage == AfterRender(old(storage), old(State()))[TodosKey := Json.Encode(todos)][InputTextKey := ""]
      ensures UniqueIds(old(todos)) ==> UniqueIds(todos)
      ensures EditTargetListed(old(State())) ==> EditTargetListed(State())
    {
      ghost var s0 := State();
      Render(s0);
      ghost var m1 := storage;
      todos := [Todo(id, text, false, createdAt)] + todos;
      inputText := "";
      SaveTodos();
      SaveInputText();
      PrependFresh(Todo(id, text, false, createdAt), old(todos));
      WriteTodosSlot(m1, s0, todos);
      WriteInputSlot(m1[TodosKey := Json.Encode(todos)], s0.(todos := todos), "");
      assert State() == s0.(todos := todos).(inputText := "");
    }

    /** `toggleTodo`: only the tasks with that id change, and only in `completed`. */
    method ToggleTodo(id: string)
      requires Valid()
      modifies this
      ensures Valid()
      ensures todos == ToggleById(old(todos), id)
      ensures inputText == old(inputText) && filter == old(filter)
      ensures editingTodo == old(editingTodo) && editingTodoId == old(editingTodoId)
      ensures storage == AfterRender(old(storage), old(State()))[TodosKey := Json.Encode(todos)]
      ensures UniqueIds(old(todos)) ==> UniqueIds(todos)
      ensures EditTargetListed(old(State())) ==> EditTargetListed(State())
    {
      ghost var s0 := State();
      Render(s0);
      ghost var m1 := storage;
      todos := ToggleById(todos, id);
      SaveTodos();
      SameIdsKeepTarget(s0, todos);
      WriteTodosSlot(m1, s0, todos);
      assert State() == s0.(todos := todos) && storage == m1[TodosKey := Json.Encode(todos)];
    }

    /**
     * `deleteTodo`: drops the tasks with that id. If the task being edited is deleted, the edit
     * session and the input are cleared; otherwise they are left alone.
     */
    method DeleteTodo(id: string)
      requires Valid()
      modifies this
      ensures Valid()
      ensures todos == RemoveById(old(todos), id) && filter == old(filter)
      ensures old(editingTodo).Some? && old(editingTodo).value.id == id ==>
        && editingTodo.None? && editingTodoId.None? && inputText == ""
        && storage == AfterRender(old(storage), old(State()))[TodosKey := Json.Encode(todos)][InputTextKey := ""]
                      - {EditingIdKey}
      ensures !(old(editingTodo).Some? && old(editingTodo).value.id == id) ==>
        && editingTodo == old(editingTodo) && editingTodoId == old(editingTodoId) && inputText == old(inputText)
        && storage == AfterRender(old(storage), old(State()))[TodosKey := Json.Encode(todos)]
      ensures UniqueIds(old(todos)) ==> UniqueIds(todos)
      ensures EditTargetListed(old(State())) ==> EditTargetListed(State())
    {
      ghost var s0 := State();
      Render(s0);
      ghost var m1 := storage;
      todos := RemoveById(todos, id);
      SaveTodos();
      WriteTodosSlot(m1, s0, todos);
      assert State() == s0.(todos := todos) && storage == m1[TodosKey := Json.Encode(todos)];
      if editingTodo.Some? && editingTodo.value.id == id {
        EndEditSession();
      }
    }

    /**
     * `startEdit`: the given task becomes the edit target and its text the input. It need not be in
     * the list. The effect on `editingTodoId` runs only when the id changes, so an id a render has
     * erased stays erased when the same task is edited again.
     */
    method StartEdit(todo: Todo)
      requires Valid()
      modifies this
      ensures Valid()
      ensures editingTodo == Some(todo) && editingTodoId == Some(todo.id) && inputText == todo.text
      ensures todos == old(todos) && filter == old(filter)
      ensures storage == (var rendered := AfterRender(old(storage), old(State()))[InputTextKey := todo.text];
                          if old(editingTodoId) == Some(todo.id) then rendered
                          else if todo.id != "" then rendered[EditingIdKey := todo.id]
                          else rendered - {EditingIdKey})
      ensures EditTargetListed(State()) <==> HasId(todos, todo.id)
      ensures HasId(todos, todo.id) ==> Mirrors(storage, State())
    {
      ghost var s0 := State();
      var previousId := editingTodoId;
      Render(s0);
      ghost var m1 := storage;
      editingTodo := Some(todo);
      editingTodoId := Some(todo.id);
      inputText := todo.text;
      SaveInputText();
      WriteInputSlot(m1, s0, todo.text);
      if previousId != editingTodoId {
        SaveEditingId();
        WriteEditSlot(m1[InputTextKey := todo.text], s0.(inputText := todo.text), Some(todo), Some(todo.id));
      }
    }

    /** `saveEdit`: only the text of the tasks with that id changes; the edit session and input always end. */
    method SaveEdit(id: string, newText: string)
      requires Valid()
      modifies this
      ensures Valid()
      ensures todos == SetTextById(old(todos), id, newText) && filter == old(filter)
      ensures editingTodo.None? && editingTodoId.None? && inputText == ""
      ensures storage == AfterRender(old(storage), old(State()))[TodosKey := Json.Encode(todos)][InputTextKey := ""]
                         - {EditingIdKey}
      ensures UniqueIds(old(todos)) ==> UniqueIds(todos)
      ensures EditTargetListed(State())
    {
      ghost var s0 := State();
      Render(s0);
      ghost var m1 := storage;
      todos := SetTextById(todos, id, newText);
      SaveTodos();
      SameIdsKeepTarget(s0, todos);
      WriteTodosSlot(m1, s0, todos);
      assert State() == s0.(todos := todos) && storage == m1[TodosKey := Json.Encode(todos)];
      EndEditSession();
    }

    /** `cancelEdit`: the edit session and input end, whatever the state before. */
    method CancelEdit()
      requires Valid()
      modifies this
      ensures Valid()
      ensures editingTodo.None? && editingTodoId.None? && inputText == ""
      ensures todos == old(todos) && filter == old(filter)
      ensures storage == AfterRender(old(storage), old(State()))[InputTextKey := ""] - {EditingIdKey}
      ensures EditTargetListed(State())
    {
      Render(State());
      EndEditSession();
    }

    /**
     * The three setters of `cancelEdit`, which `deleteTodo` and `saveEdit` call as well, and the
     * effects they trigger.
     */
    method EndEditSession()
      requires Valid()
      modifies this
      ensures Valid() && EditTargetListed(State())
      ensures editingTodo.None? && editingTodoId.None? && inputText == ""
      ensures todos == old(todos) && filter == old(filter)
      ensures storage == old(storage)[InputTextKey := ""] - {EditingIdKey}
    {
      ghost var s0, m0 := State(), storage;
      editingTodo := None;
      editingTodoId := None;
      inputText := "";
      SaveInputText();
      SaveEditingId();
      WriteInputSlot(m0, s0, "");
      WriteEditSlot(m0[InputTextKey := ""], s0.(inputText := ""), None, None);
    }

    /** `handleFilterChange`: any value is accepted and stored as it is. */
    method HandleFilterChange(newFilter: string)
      requires Valid()
      modifies this
      ensures Valid()
      ensures filter == newFilter
      ensures todos == old(todos) && inputText == old(inputText)
      ensures editingTodo == old(editingTodo) && editingTodoId == old(editingTodoId)
      ensures storage == AfterRender(old(storage), old(State()))[FilterKey := newFilter]
    {
      ghost var s0 := State();
      Render(s0);
      ghost var m1 := storage;
      filter := newFilter;
      SaveFilter();
      WriteFilterSlot(m1, s0, newFilter);
    }

    /** `setInputText`, exposed to the form's text field: no validation at all. */
    method SetInputText(text: string)
      requires Valid()
      modifies this
      ensures Valid()
      ensures inputText == text
      ensures todos == old(todos) && filter == old(filter)
      ensures editingTodo == old(editingTodo) && editingTodoId == old(editingTodoId)
      ensures storage == AfterRender(old(storage), old(State()))[InputTextKey := text]
    {
      ghost var s0 := State();
      Render(s0);
      ghost var m1 := storage;
      inputText := text;
      SaveInputText();
      WriteInputSlot(m1, s0, text);
    }
  }
}
