# Task list store: a Dafny model

This project models the state core of a small browser to-do list application. That core is the `useTodos` hook and the submit rule of the task form in front of it.

The hook holds five pieces of state:
- the task list;
- the filter string;
- the task being edited and its id;
- the draft input text.

It also mirrors that state into four `localStorage` slots: `todos`, `todoInputText`, `todoFilter` and `editingTodoId`. `initializeState` rebuilds the state from those slots. A stored edit id that names no stored task is repaired by erasing its slot.

`initializeState` is called in the hook's body, so it runs at every render, not only at mount. Only the first result becomes the state, but the erasure of a stale edit id happens each time. Effects run after the render, so each render checks the slots as the previous state left them. One consequence: if the edit target is a task that is not in the list, the effect stores its id and the next render erases it, while the edit goes on. The effect on `editingTodoId` does not run again until the id changes. The slots then no longer mirror the state, and a reload starts with no edit (`Session.UnlistedEditScenario`).

The modules:

- `Wrappers`: an `Option` type that supports `:-`.
- `JsString`: `String.prototype.trim`, using the ECMAScript WhiteSpace and LineTerminator code points. The contract states that the result is the middle slice of the input, with whitespace only on either side.
- `Todos`: the task record and the list transforms the handlers are built from:
  - `map` by id (toggle, set text);
  - `filter` (delete);
  - `find`;
  - the filtered view and the three counters.
- `Json`: `JSON.stringify` over a small JSON value type (strings, booleans, arrays, objects with ordered members), the value a task list becomes, and a `JSON.parse` for that shape that may fail. Decoding what was encoded gives the list back.
- `UseTodos`:
  - `Load` is `initializeState` as a function of the stored map. It returns the initial state and the storage as left behind.
  - `Mirrors` and `Persisted` describe what the four effects write. `AfterRender` is what one render does to storage, and `InStorage` is what the slots hold between handler calls: `Mirrors`, except that the edit-id key may be missing while the edit target is not in the list.
  - `class TodoStore` has the five state fields and a `storage: map<string, string>` field that stands for `localStorage`. Each handler is a method. It updates the fields, runs the render (`Render`, which calls `InitializeState` and drops its result), then runs the effects of the fields it changed. Its invariant `Valid()` is edit-session consistency plus `InStorage`. While the edit target is listed, that is exactly "the slots mirror the state" (`ListedTargetMirrors`). Each effect keeps the invariant; one lemma per slot states this.
  - `deleteTodo` (for the edit target) and `saveEdit` clear the session with the same three setters as `cancelEdit`. In the model that step is `EndEditSession`, and all three handlers call it.
- `TodoForm`: `handleSubmit` as a function from (input text, edit target) to the action it takes: nothing, add, or save. It also exists as a method composed with the store, next to `handleCancel`.
- `Session`: two sessions, verified against the contracts. The first:
  - add "Buy milk" from the form;
  - complete it;
  - edit it;
  - delete it while it is being edited;
  - show the completed view.

  The second edits a task that is not in the list, then types in the field.

The model follows the code, which differs from the design description of the system in these places:
- New tasks are prepended to the list.
- `addTodo` and `saveEdit` do not trim or reject anything. Only the form does, so "whitespace never changes the list" holds for the form composed with the store (`TodoForm.HandleSubmit`), not for the handlers alone.
- The filter value is stored and used without validation. Unknown values show every task.
- A task list that does not parse lands in the catch block of `initializeState`. That resets every field to its default, including input and filter slots that could have been read. The slots are not recovered one by one.

JavaScript truthiness is modelled exactly. An empty stored string counts as missing: a stored filter `""` loads as `"all"`, and an edit id `""` is never written to storage (the key is removed instead).

## Model

| member | source | states |
|---|---|---|
| JsString.Trim | src/components/TodoForm.jsx:10 | the trimmed text starts and ends with non-whitespace; it is empty exactly when the input is all whitespace; and it is a contiguous slice of the input with only whitespace before and after it |
| JsString.TrimFixedPoints | src/components/TodoForm.jsx:10 | trim leaves a string unchanged exactly when neither end is whitespace, and trimming twice is the same as trimming once |
| Todos.Filter | src/hooks/useTodos.js:100 | `Array.prototype.filter`: the result keeps every element that passes the predicate as many times as it occurs in the input and no element that fails it, in the original order (an order-preserving sub-list), and is no longer than the input |
| Todos.ActiveCompletedPartition | src/hooks/useTodos.js:144-146 | every task is in exactly one of the open and finished lists, so their lengths add up to the list's length |
| Todos.MapById | src/hooks/useTodos.js:95 | `prev.map` with an update for one id: the same length, and each position holds the updated task where its id matches and the unchanged task elsewhere |
| Todos.ToggleById | src/hooks/useTodos.js:94-96 | same length and the same ids position by position; text and creation time never change; `completed` is flipped exactly on the tasks with the given id |
| Todos.ToggleInvolutive | src/hooks/useTodos.js:93-97 | toggling the same id twice gives back the original list |
| Todos.SetTextById | src/hooks/useTodos.js:116 | same length and ids; `completed` and creation time never change; the text becomes the new text exactly on the tasks with the given id |
| Todos.SameIdsKeepIds | src/hooks/useTodos.js:95 | two lists with the same ids position by position contain the same ids and are equally free of duplicates |
| Todos.SubsequenceKeepsUniqueIds | src/hooks/useTodos.js:100 | an order-preserving sub-list of a list with distinct ids contains only elements of the original list and its ids are still distinct |
| Todos.PrependFresh | src/hooks/useTodos.js:89 | putting a task with an unused id in front of the list adds exactly that id to the ids present, and keeps the ids distinct |
| Todos.RemoveById | src/hooks/useTodos.js:100 | an order-preserving sub-list that keeps every occurrence of each task whose id differs from the given one and no task with that id; every other id is still present, and distinct ids stay distinct |
| Todos.Find | src/hooks/useTodos.js:17 | a task is found exactly when some task has the id; the result has that id and is the first such task in the list |
| Todos.FilteredTodos | src/hooks/useTodos.js:133-142 | an order-preserving sub-list of the tasks; "active" keeps every occurrence of each open task and no finished one, "completed" the reverse, and any other value returns the whole list |
| Todos.Counts | src/hooks/useTodos.js:144-146 | taken from the full list: the total is its length, the completed count is the number of finished tasks, the active count is the number of open tasks, both counts are at most the total, and they add up to the total |
| Todos.ViewsMatchCounts | src/hooks/useTodos.js:133-146 | the "active" and "completed" views are exactly as long as the active and completed counts, and any other view is as long as the total |
| Json.Stringify | src/hooks/useTodos.js:47 | `JSON.stringify` of a value is never empty; an array's text starts with `[` and has at least two characters, and an object's starts with `{` |
| Json.Encode | src/hooks/useTodos.js:47 | `JSON.stringify` of the task array (each task an object with keys `id`, `text`, `completed`, `createdAt` in that order) is a bracketed text of at least two characters, so it is truthy when read back |
| Json.Decode | src/hooks/useTodos.js:11 | only text that starts with `[` parses; that every written list parses back is `Json.DecodeEncode` |
| Json.DecodeEmpty | src/hooks/useTodos.js:11 | the empty list is parsed from `[]` and from no other text |
| Json.TodoRoundTrip | src/hooks/useTodos.js:11 | parsing the JSON text of one task, whatever text follows it, gives back that task and the following text |
| Json.TailRoundTrip | src/hooks/useTodos.js:11 | parsing the comma-separated JSON texts of any further tasks and the closing bracket gives back those tasks and the following text |
| Json.DecodeEncode | src/hooks/useTodos.js:11 | `JSON.parse` of what `JSON.stringify` wrote for any task list (any texts, including quotes, backslashes and control characters) succeeds and gives that list back |
| UseTodos.WriteTodosSlot | src/hooks/useTodos.js:45-51 | after the task list changes, writing its JSON to the `todos` slot keeps the slots holding the new state, provided the new list does not bring back an edit target whose id a render erased |
| UseTodos.WriteInputSlot | src/hooks/useTodos.js:53-59 | after the input changes, writing it to the `todoInputText` slot keeps the slots holding the new state |
| UseTodos.WriteFilterSlot | src/hooks/useTodos.js:61-67 | after the filter changes, writing it to the `todoFilter` slot keeps the slots holding the new state |
| UseTodos.WriteEditSlot | src/hooks/useTodos.js:69-79 | after the edit target changes, writing a truthy id to the `editingTodoId` slot (removing the key otherwise) keeps the slots holding the new state |
| UseTodos.Persisted | src/hooks/useTodos.js:45-79 | after the four effects run, the slots mirror the state (the task list as JSON, the input and filter as raw text, the edit id present exactly while it is truthy) and every other key is untouched |
| UseTodos.PersistedWhenMirrored | src/hooks/useTodos.js:45-79 | running the effects again for a state the slots already mirror leaves storage as it was |
| UseTodos.ListedTargetMirrors | src/hooks/useTodos.js:16-20 | while the edit target is listed or there is none, the slots holding the state between handler calls is the same as their mirroring it exactly |
| UseTodos.AfterRender | src/hooks/useTodos.js:36 | a render keeps the slots holding the state, and changes nothing while the edit target is listed |
| UseTodos.RenderMatchesLoad | src/hooks/useTodos.js:4-36 | the `initializeState` call of a render, on slots that hold a state, reads back that state's task list and removes the edit-id key exactly when it is stored, truthy and names no listed task |
| UseTodos.SameIdsKeepTarget | src/hooks/useTodos.js:95 | a list with the same ids position by position lists the edit target exactly when the old list did, and is as free of duplicate ids |
| UseTodos.LoadTodos | src/hooks/useTodos.js:11 | a missing or empty `todos` slot loads as no tasks; the loaded list is empty exactly when the slot is missing, empty or holds `[]` |
| UseTodos.LoadTodosReadsEncoded | src/hooks/useTodos.js:11 | a `todos` slot holding what the effect wrote for a list loads as that list |
| UseTodos.Load | src/hooks/useTodos.js:4-34 | the loaded edit fields agree (both null, or the id is the task's id); a loaded edit target is a listed task with a truthy id; storage is either untouched or only loses the edit-id key, and in that case no edit is in progress |
| UseTodos.LoadParseFailureResetsAll | src/hooks/useTodos.js:30-32 | a stored task list that does not parse resets every field to its default, even when the input and filter slots are readable, and leaves storage alone |
| UseTodos.LoadMissingSlots | src/hooks/useTodos.js:11-13 | a missing task, input or filter slot loads as the empty list, `""` or `"all"` |
| UseTodos.LoadRepairsStaleEditId | src/hooks/useTodos.js:15-21 | a stored edit id that names no loaded task: no edit is in progress, the list is the parsed one, and the edit-id key is removed from storage and nothing else is |
| UseTodos.EmptyStorageLoadsDefaults | src/hooks/useTodos.js:11-13 | on the first run, with nothing stored, every field starts at its default and storage stays empty |
| UseTodos.StaleEditScenario | src/hooks/useTodos.js:16-20 | when only the edit id "X" is stored, loading gives the defaults and removes that key |
| UseTodos.ReloadRestoresState | src/hooks/useTodos.js:4-34 | reloading from slots that mirror a consistent state gives back the task list, the input, the filter (`""` becomes `"all"`) and the edit id if it was truthy, without touching storage |
| UseTodos.TodoStore.constructor | src/hooks/useTodos.js:36-42 | the mounted store holds `Load` of the browser storage, satisfies the store invariant with its edit target listed, and storage is what the effects write after the load |
| UseTodos.TodoStore.InitializeState | src/hooks/useTodos.js:4-34 | the step-by-step reading returns `Load`'s state and leaves storage as `Load` says, removing a stale edit id |
| UseTodos.TodoStore.Render | src/hooks/useTodos.js:36 | a render, while the slots hold the previous state, leaves storage as `AfterRender` says: at most the stale edit-id key goes |
| UseTodos.TodoStore.Rerender | src/hooks/useTodos.js:36 | a render caused by anything else on the page keeps the store invariant and changes storage only as `AfterRender` says |
| UseTodos.TodoStore.SaveTodos | src/hooks/useTodos.js:45-51 | the `todos` slot becomes the JSON of the list and nothing else changes |
| UseTodos.TodoStore.SaveInputText | src/hooks/useTodos.js:53-59 | the `todoInputText` slot becomes the input text and nothing else changes |
| UseTodos.TodoStore.SaveFilter | src/hooks/useTodos.js:61-67 | the `todoFilter` slot becomes the filter and nothing else changes |
| UseTodos.TodoStore.SaveEditingId | src/hooks/useTodos.js:69-79 | the `editingTodoId` slot is written while the id is truthy and removed otherwise |
| UseTodos.TodoStore.AddTodo | src/hooks/useTodos.js:82-91 | an open task with the given text, id and time is put in front of the unchanged old list and the input is cleared; the edit session and filter are untouched; storage is the render's, with the `todos` and input slots rewritten; the invariant, distinct ids and a listed edit target are preserved |
| UseTodos.TodoStore.ToggleTodo | src/hooks/useTodos.js:93-97 | the list becomes `ToggleById` of the old list and no other field changes; storage is the render's with the `todos` slot rewritten; the invariant, distinct ids and a listed edit target are preserved |
| UseTodos.TodoStore.DeleteTodo | src/hooks/useTodos.js:99-107 | the list loses exactly the tasks with the id; if the edit target has that id, the edit session and input are cleared along with their slots, otherwise they are untouched; storage is the render's with those slots rewritten; the invariant, distinct ids and a listed edit target are preserved |
| UseTodos.TodoStore.StartEdit | src/hooks/useTodos.js:109-113 | any given task becomes the edit target, its id the edit id and its text the input, with no check that it is in the list; the edit-id slot is rewritten only when the id changed; the invariant is preserved; the target is listed exactly when its id is, and then the slots mirror the state exactly |
| UseTodos.TodoStore.SaveEdit | src/hooks/useTodos.js:115-120 | only the text of the tasks with the id changes, and the edit session and input always end, even if no task has the id; storage is the render's with the `todos`, input and edit-id slots rewritten; the invariant and distinct ids are preserved |
| UseTodos.TodoStore.CancelEdit | src/hooks/useTodos.js:122-126 | the edit session and input end whatever the state before; the list and filter are untouched; storage is the render's with the input and edit-id slots rewritten |
| UseTodos.TodoStore.EndEditSession | src/hooks/useTodos.js:122-126 | the three setters that end an edit, with their effects: session and input end, the input slot is cleared and the edit-id key removed, the invariant holds and no other field changes |
| UseTodos.TodoStore.HandleFilterChange | src/hooks/useTodos.js:128-130 | any filter value is taken and stored as it is; storage is the render's with only the `todoFilter` slot rewritten |
| UseTodos.TodoStore.SetInputText | src/hooks/useTodos.js:41 | the input becomes any given text without validation; storage is the render's with only the `todoInputText` slot rewritten |
| TodoForm.SubmitAction | src/components/TodoForm.jsx:8-20 | nothing is called exactly when the input is all whitespace; otherwise save with the edit target's id when an edit is active, add when none is; the text passed on is the trimmed input, non-empty and not starting or ending with whitespace |
| TodoForm.HandleSubmit | src/components/TodoForm.jsx:8-20 | composed with the store: whitespace-only input changes nothing at all; an add puts the trimmed text in front as an open task; a save changes only that task's text and ends the session; the form never writes the input text itself |
| TodoForm.HandleCancel | src/components/TodoForm.jsx:22-24 | the edit session and input end whatever the state before; the list and filter are untouched |
| Session.SubmitBuyMilk | src/components/TodoForm.jsx:10-16 | submitting "Buy milk" with no edit in progress adds "Buy milk" unchanged |
| Session.SubmitTypedBuyMilk | src/components/TodoForm.jsx:8-20 | submitting typed "Buy milk" in an empty store leaves it as the only task, open, and clears the input |
| Session.EditAndDelete | src/hooks/useTodos.js:99-107 | completing, editing and then deleting the only task ends with an empty list, no edit session, no edit-id key, an empty input and an empty "completed" view |
| Session.BuyMilkScenario | src/hooks/useTodos.js:82-130 | the whole session from an empty store ends in the state described for `EditAndDelete` |
| Session.UnlistedEditScenario | src/hooks/useTodos.js:36 | editing a task that is not in the list and then typing leaves the edit in progress but its id no longer stored, so the slots do not mirror the state and a reload starts with no edit |

## Left out

- Storage write failures (quota, storage unavailable) and the `console.error` calls in every catch block are not modelled. Writes always succeed.
- React's timing is simplified. Each `useEffect` runs only when its dependency changed. The model keeps that rule for the edit id (`UseTodos.TodoStore.StartEdit`), where it matters. For the other slots it runs the matching `Save…` method whenever the handler calls the setter. Under `Valid()` this gives the same storage, because rewriting a slot with the value it already holds changes nothing (`UseTodos.PersistedWhenMirrored`).
- Every handler call is followed by one render in the model. React may skip a render when no state value changed; the erasure of a stale edit id then happens at the next render instead. Renders caused by the rest of the page are `UseTodos.TodoStore.Rerender`.
- `Date.now().toString()` and `new Date().toISOString()` become the `id` and `createdAt` parameters of `AddTodo`. The fresh id is a precondition: no listed task and no edit target has it.
- `JSON.parse` is modelled only for task arrays in the exact form `JSON.stringify` writes: no whitespace between tokens, keys in creation order, escapes including `\uXXXX` for non-surrogates. Any other stored text, including valid JSON of another shape, counts as a parse failure and takes the catch path. In the original, JSON of another shape may parse and fail later or succeed.
- `Json.DecodeEncode` assumes `JSON.stringify` escapes lone surrogates as in ES2019 and later; strings are sequences of Unicode scalar values here, so lone surrogates do not arise.
- `useModal`, the presentation components and JSX rendering are not part of this model.
- `TodoForm.HandleSubmit` takes the input text from the store rather than as a separate prop, which is how the page wires them together.
