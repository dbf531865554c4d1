/**
 * The task records of the hook and the pure list transforms its handlers and derived values are
 * built from: `Array.prototype.map`, `filter` and `find` over the task list, the filtered view
 * and the counts.
 */
module Todos {
  import opened Wrappers

  /** One task as the hook creates it: `id` from the clock, `createdAt` an ISO timestamp string. */
  datatype Todo = Todo(id: string, text: string, completed: bool, createdAt: string)

  predicate IsCompleted(t: Todo) { t.completed }

  predicate IsActive(t: Todo) { !t.completed }

  predicate HasId(ts: seq<Todo>, id: string) {
    exists i :: 0 <= i < |ts| && ts[i].id == id
  }

  predicate UniqueIds(ts: seq<Todo>) {
    forall i, j :: 0 <= i < j < |ts| ==> ts[i].id != ts[j].id
  }

  /** Position by position, the two lists carry the same ids. */
  predicate SameIds(a: seq<Todo>, b: seq<Todo>) {
    |a| == |b| && forall i :: 0 <= i < |a| ==> a[i].id == b[i].id
  }

  /** `r` is obtained from `s` by deleting elements, keeping the order of the rest. */
  predicate IsSubsequence<T(==)>(r: seq<T>, s: seq<T>)
    decreases |s|
  {
    if r == [] then true
    else if s == [] then false
    else (r[0] == s[0] && IsSubsequence(r[1..], s[1..])) || IsSubsequence(r, s[1..])
  }

  /** `Array.prototype.filter`: the elements of `s` that pass `p`, in their original order. */
  function Filter(s: seq<Todo>, p: Todo -> bool): (r: seq<Todo>)
    ensures |r| <= |s|
    ensures forall x :: x in r <==> x in s && p(x)
    ensures forall x :: multiset(r)[x] == if p(x) then multiset(s)[x] else 0
    ensures IsSubsequence(r, s)
  {
    if s == [] then []
    else
      assert s == [s[0]] + s[1..];
      if p(s[0]) then [s[0]] + Filter(s[1..], p)
      else Filter(s[1..], p)
  }

  /** A filter that every element passes gives back the whole list. */
  lemma {:induction false} FilterAll(s: seq<Todo>, p: Todo -> bool)
    requires forall x :: x in s ==> p(x)
    ensures Filter(s, p) == s
  {
    if s != [] {
      FilterAll(s[1..], p);
    }
  }

  /** Filtering with two predicates that agree on every element gives the same list. */
  lemma {:induction false} FilterSame(s: seq<Todo>, p: Todo -> bool, q: Todo -> bool)
    requires forall x :: x in s ==> p(x) == q(x)
    ensures Filter(s, p) == Filter(s, q)
  {
    if s != [] {
      FilterSame(s[1..], p, q);
    }
  }

  /** Every task lands in exactly one of the active and completed lists. */
  lemma {:induction false} ActiveCompletedPartition(ts: seq<Todo>)
    ensures |Filter(ts, IsActive)| + |Filter(ts, IsCompleted)| == |ts|
  {
    if ts != [] {
      ActiveCompletedPartition(ts[1..]);
    }
  }

  /** Deleting elements keeps every surviving element and cannot create a duplicate id. */
  lemma {:induction false} SubsequenceKeepsUniqueIds(r: seq<Todo>, s: seq<Todo>)
    requires IsSubsequence(r, s) && UniqueIds(s)
    ensures forall x :: x in r ==> x in s
    ensures UniqueIds(r)
    decreases |s|
  {
    if r != [] && s != [] {
      if r[0] == s[0] && IsSubsequence(r[1..], s[1..]) {
        SubsequenceKeepsUniqueIds(r[1..], s[1..]);
        assert r == [r[0]] + r[1..] && s == [s[0]] + s[1..];
        forall j | 0 < j < |r| ensures r[0].id != r[j].id {
          assert r[j] in r[1..];
          var k :| 0 <= k < |s[1..]| && s[1..][k] == r[j];
          assert s[k + 1] == r[j];
        }
      } else {
        SubsequenceKeepsUniqueIds(r, s[1..]);
      }
    }
  }

  /** `prev.map(todo => todo.id === id ? f(todo) : todo)`. */
  function MapById(ts: seq<Todo>, id: string, f: Todo -> Todo): (r: seq<Todo>)
    ensures |r| == |ts|
    ensures forall i :: 0 <= i < |ts| ==> r[i] == if ts[i].id == id then f(ts[i]) else ts[i]
  {
    if ts == [] then []
    else [if ts[0].id == id then f(ts[0]) else ts[0]] + MapById(ts[1..], id, f)
  }

  function Toggled(t: Todo): Todo {
    t.(completed := !t.completed)
  }

  /** The list transform of `toggleTodo`: flip `completed` on the tasks with that id, touch nothing else. */
  function ToggleById(ts: seq<Todo>, id: string): (r: seq<Todo>)
    ensures SameIds(r, ts)
    ensures forall i :: 0 <= i < |ts| ==>
      && r[i].text == ts[i].text && r[i].createdAt == ts[i].createdAt
      && r[i].completed == (if ts[i].id == id then !ts[i].completed else ts[i].completed)
  {
    MapById(ts, id, Toggled)
  }

  /** Toggling the same id twice restores the list. */
  lemma ToggleInvolutive(ts: seq<Todo>, id: string)
    ensures ToggleById(ToggleById(ts, id), id) == ts
  {
    var r := ToggleById(ToggleById(ts, id), id);
    assert forall i :: 0 <= i < |ts| ==> r[i] == ts[i];
  }

  /** The list transform of `saveEdit`: replace the text of the tasks with that id, touch nothing else. */
  function SetTextById(ts: seq<Todo>, id: string, newText: string): (r: seq<Todo>)
    ensures SameIds(r, ts)
    ensures forall i :: 0 <= i < |ts| ==>
      && r[i].completed == ts[i].completed && r[i].createdAt == ts[i].createdAt
      && r[i].text == (if ts[i].id == id then newText else ts[i].text)
  {
    MapById(ts, id, (t: Todo) => t.(text := newText))
  }

  /** Lists with the same ids position by position contain the same ids and are equally duplicate-free. */
  lemma SameIdsKeepIds(a: seq<Todo>, b: seq<Todo>)
    requires SameIds(a, b)
    ensures forall id :: HasId(a, id) <==> HasId(b, id)
    ensures UniqueIds(a) <==> UniqueIds(b)
  {
  }

  /** Putting a task with a fresh id in front keeps every id and keeps the ids distinct. */
  lemma PrependFresh(t: Todo, ts: seq<Todo>)
    requires !HasId(ts, t.id)
    ensures forall id :: HasId([t] + ts, id) <==> id == t.id || HasId(ts, id)
    ensures UniqueIds(ts) ==> UniqueIds([t] + ts)
  {
    var r := [t] + ts;
    assert r[0] == t;
    forall id | HasId(ts, id) ensures HasId(r, id) {
      var i :| 0 <= i < |ts| && ts[i].id == id;
      assert r[i + 1] == ts[i];
    }
    forall id | HasId(r, id) && id != t.id ensures HasId(ts, id) {
      var i :| 0 <= i < |r| && r[i].id == id;
      assert ts[i - 1] == r[i];
    }
  }

  /** The list transform of `deleteTodo`: `prev.filter(todo => todo.id !== id)`. */
  function RemoveById(ts: seq<Todo>, id: string): (r: seq<Todo>)
    ensures IsSubsequence(r, ts)
    ensures forall t :: t in r <==> t in ts && t.id != id
    ensures forall t :: multiset(r)[t] == if t.id != id then multiset(ts)[t] else 0
    ensures !HasId(r, id)
    ensures forall other :: other != id ==> (HasId(r, other) <==> HasId(ts, other))
    ensures UniqueIds(ts) ==> UniqueIds(r)
  {
    var r := Filter(ts, (t: Todo) => t.id != id);
    assert forall other :: other != id && HasId(ts, other) ==> HasId(r, other) by {
      forall other | other != id && HasId(ts, other) ensures HasId(r, other) {
        var i :| 0 <= i < |ts| && ts[i].id == other;
        assert ts[i] in r;
      }
    }
    if UniqueIds(ts) then
      SubsequenceKeepsUniqueIds(r, ts);
      r
    else
      r
  }

  /** `todos.find(todo => todo.id === id) || null`: the first task with that id, if any. */
  function Find(ts: seq<Todo>, id: string): (r: Option<Todo>)
    ensures r.Some? <==> HasId(ts, id)
    ensures r.Some? ==> r.value.id == id && r.value in ts
    ensures r.Some? ==> exists i :: 0 <= i < |ts| && ts[i] == r.value && !HasId(ts[..i], id)
  {
    if ts == [] then None
    else if ts[0].id == id then
      assert ts[..0] == [];
      Some(ts[0])
    else
      var r := Find(ts[1..], id);
      if r.Some? then
        var i :| 0 <= i < |ts[1..]| && ts[1..][i] == r.value && !HasId(ts[1..][..i], id);
        assert ts[..i + 1] == [ts[0]] + ts[1..][..i];
        r
      else
        r
  }

  /** The callback of `filteredTodos`: which tasks the filter value shows. Unknown values show everything. */
  predicate Shows(filter: string, t: Todo) {
    if filter == "active" then !t.completed
    else if filter == "completed" then t.completed
    else true
  }

  /**
   * The derived `filteredTodos`: an order-preserving sub-list of the tasks. "active" keeps exactly
   * the open tasks, "completed" exactly the finished ones, and any other filter value the whole list.
   */
  function FilteredTodos(ts: seq<Todo>, filter: string): (r: seq<Todo>)
    ensures IsSubsequence(r, ts)
    ensures filter == "active" ==> forall t :: t in r <==> t in ts && !t.completed
    ensures filter == "active" ==> forall t :: multiset(r)[t] == if !t.completed then multiset(ts)[t] else 0
    ensures filter == "completed" ==> forall t :: t in r <==> t in ts && t.completed
    ensures filter == "completed" ==> forall t :: multiset(r)[t] == if t.completed then multiset(ts)[t] else 0
    ensures filter != "active" && filter != "completed" ==> r == ts
  {
    var r := Filter(ts, (t: Todo) => Shows(filter, t));
    if filter != "active" && filter != "completed" then
      FilterAll(ts, (t: Todo) => Shows(filter, t));
      r
    else
      r
  }

  /** The counters shown beside the list. */
  datatype Stats = Stats(total: int, completed: int, active: int)

  /**
   * `totalTodos`, `completedTodos` and `activeTodos`, all taken from the full list (never the
   * filtered one): the active count is the number of open tasks and the two counts add up to the total.
   */
  function Counts(ts: seq<Todo>): (r: Stats)
    ensures r.total == |ts|
    ensures r.completed == |Filter(ts, IsCompleted)|
    ensures r.active == |Filter(ts, IsActive)|
    ensures 0 <= r.completed <= r.total && 0 <= r.active <= r.total
    ensures r.active + r.completed == r.total
  {
    var completed := |Filter(ts, IsCompleted)|;
    ActiveCompletedPartition(ts);
    Stats(|ts|, completed, |ts| - completed)
  }

  /** The "active" and "completed" views are exactly as long as the counts say, and any other view has all tasks. */
  lemma ViewsMatchCounts(ts: seq<Todo>, filter: string)
    ensures |FilteredTodos(ts, "active")| == Counts(ts).active
    ensures |FilteredTodos(ts, "completed")| == Counts(ts).completed
    ensures filter != "active" && filter != "completed" ==> |FilteredTodos(ts, filter)| == Counts(ts).total
  {
    FilterSame(ts, (t: Todo) => Shows("active", t), IsActive);
    FilterSame(ts, (t: Todo) => Shows("completed", t), IsCompleted);
  }
}
