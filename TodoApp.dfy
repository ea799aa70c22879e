/** The todo list controller (src/components/TodoApp.tsx): one ordered list of todos,
    a loading flag, the form toggle and the filter criteria, changed by one handler per
    user action. Each handler is one atomic step: the response of the remote service is
    a parameter, and the handler returns the requests it sent, in order. */
module TodoApp {
  import opened Types
  import opened Seqs
  import opened TodoFilters

  /** `todos.map(todo => todo._id === id ? updated : todo)`: same length; every entry
      whose id is `id` becomes `updated`, every other entry is left as it was. */
  function ReplaceById(todos: seq<Todo>, id: string, updated: Todo): (r: seq<Todo>)
    ensures |r| == |todos|
    ensures forall i :: 0 <= i < |todos| ==>
              r[i] == if todos[i].id == id then updated else todos[i]
  {
    if todos == [] then []
    else [if todos[0].id == id then updated else todos[0]] + ReplaceById(todos[1..], id, updated)
  }

  predicate HasOtherId(id: string, t: Todo) { t.id != id }

  /** `todos.filter(todo => todo._id !== id)`: no entry with the id is left. */
  function RemoveById(todos: seq<Todo>, id: string): (r: seq<Todo>)
    ensures |r| <= |todos|
    ensures forall i :: 0 <= i < |r| ==> r[i].id != id
  {
    Filter(todos, t => HasOtherId(id, t))
  }

  /** Deleting removes exactly the entries whose id is `id`: what is left is in the old
      order, holds no entry with that id, and holds every other entry as often as before. */
  lemma RemoveByIdSpec(todos: seq<Todo>, id: string)
    ensures IsSubsequence(RemoveById(todos, id), todos)
    ensures forall i :: 0 <= i < |RemoveById(todos, id)| ==> RemoveById(todos, id)[i].id != id
    ensures forall t: Todo :: t.id != id ==> multiset(RemoveById(todos, id))[t] == multiset(todos)[t]
    ensures |RemoveById(todos, id)| == |todos| ==> RemoveById(todos, id) == todos
  {
    FilterIsSubsequence(todos, t => HasOtherId(id, t));
    forall t: Todo | t.id != id ensures multiset(RemoveById(todos, id))[t] == multiset(todos)[t] {
      FilterMultiplicity(todos, t => HasOtherId(id, t), t);
    }
    if |RemoveById(todos, id)| == |todos| {
      FilterDroppingNothing(todos, t => HasOtherId(id, t));
    }
  }

  /** An update touches nothing but the entries it targets: once those are deleted, the
      list after the update and the list before it are the same. */
  lemma {:induction false} UpdateChangesOnlyTarget(todos: seq<Todo>, id: string, updated: Todo)
    requires updated.id == id
    ensures RemoveById(ReplaceById(todos, id, updated), id) == RemoveById(todos, id)
  {
    if todos != [] {
      UpdateChangesOnlyTarget(todos[1..], id, updated);
      assert ReplaceById(todos, id, updated)[1..] == ReplaceById(todos[1..], id, updated);
    }
  }

  /** The payload of the drag-and-drop library's drop callback: the position the todo
      was picked up from and the position it was dropped at, if any. */
  datatype DragResult = DragResult(source: nat, destination: Option<nat>)

  /** Dragging uses positions in the filtered list but moves entries of the whole list.
      With a completed todo `a` hidden by the 'active' filter before `b` and `c`, dragging
      `b` (shown first) below `c` moves the hidden `a` instead, and the shown order stays
      `b`, `c`. */
  lemma DragUnderFilterMovesHiddenTodo(a: Todo, b: Todo, c: Todo)
    requires a.completed && !b.completed && !c.completed
    ensures FilteredTodos([a, b, c], Criteria("", ActiveOnly, AllPriorities)) == [b, c]
    ensures Move([a, b, c], 0, 1) == [b, a, c]
    ensures FilteredTodos([b, a, c], Criteria("", ActiveOnly, AllPriorities)) == [b, c]
  {
    var crit := Criteria("", ActiveOnly, AllPriorities);
    assert MatchesSearch(a, "") && MatchesSearch(b, "") && MatchesSearch(c, "");
    var p := (t: Todo) => Matches(t, crit);
    assert Filter([c], p) == [c] + Filter([], p);
    assert [b, c][1..] == [c];
    assert Filter([b, c], p) == [b] + Filter([c], p);
    assert [a, b, c][1..] == [b, c];
    assert Filter([a, b, c], p) == Filter([b, c], p);
    assert [a, c][1..] == [c];
    assert Filter([a, c], p) == Filter([c], p);
    assert [b, a, c][1..] == [a, c];
    assert Filter([b, a, c], p) == [b] + Filter([a, c], p);
    assert RemoveAt([a, b, c], 0) == [b, c];
  }

  /** `Array.from(todos)` followed by the two splices. */
  method CopyAndMove(todos: seq<Todo>, from: nat, to: nat) returns (items: seq<Todo>)
    requires from < |todos| && to < |todos|
    ensures items == Move(todos, from, to)
  {
    var buffer := new Todo[|todos|](i requires 0 <= i < |todos| => todos[i]);
    assert buffer[..] == todos;
    MoveInPlace(buffer, from, to);
    items := buffer[..];
  }

  class TodoApp {
    var todos: seq<Todo>
    var loading: bool
    var showForm: bool
    var criteria: Criteria

    /** The state the screen is mounted with, before its first load. */
    constructor ()
      ensures todos == [] && loading && !showForm && criteria == NoCriteria
    {
      todos := [];
      loading := true;
      showForm := false;
      criteria := NoCriteria;
    }

    /** The list that is shown, and whose positions the drag-and-drop library reports. */
    function Visible(): (r: seq<Todo>)
      reads this
      ensures |r| <= |todos|
    {
      FilteredTodos(todos, criteria)
    }

    /** The header counters. */
    function CurrentStats(): (st: Stats)
      reads this
      ensures st.total == |todos| == st.completed + st.active
    {
      ComputeStats(todos)
    }

    /** `fetchTodos`: a successful load replaces the whole list, a failed one leaves it
      alone; either way loading is over. */
    method FetchTodos(response: Response<seq<Todo>>) returns (calls: seq<ApiCall>)
      modifies this`todos, this`loading
      ensures calls == [GetTodos]
      ensures todos == if response.Ok? then response.value else old(todos)
      ensures !loading
    {
      calls := [GetTodos];
      if response.Ok? {
        todos := response.value;
      }
      loading := false;
    }

    /** `handleCreateTodo`: on success the new todo is put in front and the form closes;
      on failure nothing changes. */
    method HandleCreateTodo(draft: Draft, response: Response<Todo>) returns (calls: seq<ApiCall>)
      modifies this`todos, this`showForm
      ensures calls == [CreateTodo(draft)]
      ensures response.Ok? ==> todos == [response.value] + old(todos) && !showForm
      ensures response.Failed? ==> todos == old(todos) && showForm == old(showForm)
    {
      calls := [CreateTodo(draft)];
      if response.Ok? {
        todos := [response.value] + todos;
        showForm := false;
      }
    }

    /** `handleUpdateTodo`: on success every entry with the id is replaced by the todo the
      service returned; on failure nothing changes. */
    method HandleUpdateTodo(id: string, patch: Patch, response: Response<Todo>)
      returns (calls: seq<ApiCall>)
      modifies this`todos
      ensures calls == [UpdateTodo(id, patch)]
      ensures todos == if response.Ok? then ReplaceById(old(todos), id, response.value) else old(todos)
      ensures |todos| == |old(todos)|
    {
      calls := [UpdateTodo(id, patch)];
      if response.Ok? {
        todos := ReplaceById(todos, id, response.value);
      }
    }

    /** `handleDeleteTodo`: on success every entry with the id is removed; on failure
      nothing changes. */
    method HandleDeleteTodo(id: string, response: Response<()>) returns (calls: seq<ApiCall>)
      modifies this`todos
      ensures calls == [DeleteTodo(id)]
      ensures todos == if response.Ok? then RemoveById(old(todos), id) else old(todos)
    {
      calls := [DeleteTodo(id)];
      if response.Ok? {
        todos := RemoveById(todos, id);
      }
    }

    /** `handleDragEnd`: without a destination nothing happens and nothing is sent.
      Otherwise the entry of the whole list at the source position is moved to the
      destination position, that list is shown at once and sent to the service; if the
      service rejects it, the list is loaded again and a successful load supersedes the
      moved list. The positions are those of the shown list, which the drag-and-drop
      library keeps in range. */
    method HandleDragEnd(drag: DragResult, reorder: Response<()>, reload: Response<seq<Todo>>)
      returns (calls: seq<ApiCall>)
      requires drag.source < |Visible()|
      requires drag.destination.Some? ==> drag.destination.value < |Visible()|
      modifies this`todos, this`loading
      ensures drag.destination.None? ==>
                calls == [] && todos == old(todos) && loading == old(loading)
      ensures drag.destination.Some? ==>
                var moved := Move(old(todos), drag.source, drag.destination.value);
                && calls == [ReorderTodos(moved)] + (if reorder.Failed? then [GetTodos] else [])
                && todos == (if reorder.Failed? && reload.Ok? then reload.value else moved)
                && loading == (if reorder.Failed? then false else old(loading))
      ensures drag.destination.Some? && reorder.Ok? ==>
                && multiset(todos) == multiset(old(todos))
                && todos[drag.destination.value] == old(todos)[drag.source]
                && RemoveAt(todos, drag.destination.value) == RemoveAt(old(todos), drag.source)
    {
      if drag.destination.None? {
        return [];
      }
      var from, to := drag.source, drag.destination.value;
      todos := CopyAndMove(todos, from, to);
      MoveIsPermutation(old(todos), from, to);
      MovePlacesAndKeepsOrder(old(todos), from, to);
      calls := [ReorderTodos(todos)];
      if reorder.Failed? {
        var reloadCalls := FetchTodos(reload);
        calls := calls + reloadCalls;
      }
    }

    /** The search box's onChange. */
    method SetSearchTerm(search: string)
      modifies this`criteria
      ensures criteria == old(criteria).(search := search)
    {
      criteria := criteria.(search := search);
    }

    /** The status select's onChange. */
    method SetFilterStatus(status: StatusFilter)
      modifies this`criteria
      ensures criteria == old(criteria).(status := status)
    {
      criteria := criteria.(status := status);
    }

    /** The priority select's onChange. */
    method SetFilterPriority(priority: PriorityFilter)
      modifies this`criteria
      ensures criteria == old(criteria).(priority := priority)
    {
      criteria := criteria.(priority := priority);
    }

    /** The 'Add Todo' button and the form's cancel callback. */
    method SetShowForm(show: bool)
      modifies this`showForm
      ensures showForm == show
    {
      showForm := show;
    }
  }
}
