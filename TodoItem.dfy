/** One row of the list (src/components/TodoItem.tsx): a todo shown read-only or in an
    inline editor. The editor's three fields start from the todo, Save sends them as an
    update and Cancel puts them back. */
module TodoItem {
  import opened Types
  import opened Text
  import TodoApp

  /** A call of the row's `onUpdate(id, updates)` callback. */
  datatype UpdateRequest = UpdateRequest(id: string, patch: Patch)

  /** The text the description editor shows: the description, or "" when there is none. */
  function DescriptionText(t: Todo): string
  {
    if t.description.Some? then t.description.value else ""
  }

  /** The update `toggleComplete` sends: the flipped completed flag and nothing else. */
  function TogglePatch(t: Todo): (p: Patch)
    ensures p.completed == Some(!t.completed)
    ensures p.title.None? && p.description.None? && p.priority.None?
  {
    Patch(None, None, None, Some(!t.completed))
  }

  /** A service that honours the toggle returns the todo with only its flag flipped,
      and toggling that again gives the original todo back. */
  lemma ToggleFlipsOnlyCompleted(t: Todo)
    ensures ApplyPatch(t, TogglePatch(t)) == t.(completed := !t.completed)
    ensures ApplyPatch(ApplyPatch(t, TogglePatch(t)), TogglePatch(ApplyPatch(t, TogglePatch(t)))) == t
  {
  }

  /** With ids unique in the list, a toggle answered by a service that honours it flips
      the completed flag of the toggled todo only: every other entry, and every other
      field of that one, is unchanged. */
  lemma ToggleInListFlipsOne(todos: seq<Todo>, k: nat)
    requires k < |todos|
    requires forall i, j :: 0 <= i < j < |todos| ==> todos[i].id != todos[j].id
    ensures var r := TodoApp.ReplaceById(todos, todos[k].id, ApplyPatch(todos[k], TogglePatch(todos[k])));
            && |r| == |todos|
            && r[k] == todos[k].(completed := !todos[k].completed)
            && forall i :: 0 <= i < |todos| && i != k ==> r[i] == todos[i]
  {
  }

  const HighClass := "bg-red-500/20 text-red-300 border-red-500/30"
  const MediumClass := "bg-yellow-500/20 text-yellow-300 border-yellow-500/30"
  const LowClass := "bg-green-500/20 text-green-300 border-green-500/30"
  const DefaultClass := "bg-gray-500/20 text-gray-300 border-gray-500/30"

  /** `getPriorityColor`: red for "high", yellow for "medium", green for "low", and grey
      for any other string. */
  function PriorityColor(priority: string): (cls: string)
    ensures cls in {HighClass, MediumClass, LowClass, DefaultClass}
    ensures priority == "high" ==> cls == HighClass
    ensures priority == "medium" ==> cls == MediumClass
    ensures priority == "low" ==> cls == LowClass
    ensures cls == DefaultClass <==> priority !in {"high", "medium", "low"}
  {
    match priority
    case "high" => HighClass
    case "medium" => MediumClass
    case "low" => LowClass
    case _ => DefaultClass
  }

  /** The three priorities get three different colours, none of them the grey default. */
  lemma PriorityColorsDistinct(p: Priority, q: Priority)
    ensures PriorityColor(PriorityName(p)) != DefaultClass
    ensures p != q ==> PriorityColor(PriorityName(p)) != PriorityColor(PriorityName(q))
  {
  }

  /** The row of one todo, with its inline editor's state. */
  class Item {
    var todo: Todo
    var isEditing: bool
    var editTitle: string
    var editDescription: string
    var editPriority: Priority

    /** The editor starts closed, with the todo's title, description (or "") and priority. */
    constructor (todo: Todo)
      ensures this.todo == todo && !isEditing
      ensures editTitle == todo.title && editDescription == DescriptionText(todo)
      ensures editPriority == todo.priority
    {
      this.todo := todo;
      isEditing := false;
      editTitle := todo.title;
      editDescription := DescriptionText(todo);
      editPriority := todo.priority;
    }

    /** The parent renders the row again with a new `todo` prop, as it does under the same
      key after an honoured update. The edit fields are state initialised once, so they
      keep their values; Save, Cancel and Toggle use the new todo from now on. */
    method ReceiveTodo(t: Todo)
      modifies this`todo
      ensures todo == t
    {
      todo := t;
    }

    /** The edit button opens the editor without touching its fields. */
    method StartEditing()
      modifies this`isEditing
      ensures isEditing
    {
      isEditing := true;
    }

    /** The editor's title input. */
    method SetEditTitle(title: string)
      modifies this`editTitle
      ensures editTitle == title
    {
      editTitle := title;
    }

    /** The editor's description textarea. */
    method SetEditDescription(description: string)
      modifies this`editDescription
      ensures editDescription == description
    {
      editDescription := description;
    }

    /** The editor's priority select. */
    method SetEditPriority(priority: Priority)
      modifies this`editPriority
      ensures editPriority == priority
    {
      editPriority := priority;
    }

    /** `handleSave`: a blank edit title sends nothing and keeps the editor open;
      otherwise the three edit fields are sent as they are, not trimmed, for this todo's
      id, and the editor closes. */
    method HandleSave() returns (sent: Option<UpdateRequest>)
      modifies this`isEditing
      ensures IsBlank(editTitle) ==> sent.None? && isEditing == old(isEditing)
      ensures !IsBlank(editTitle) ==>
                && sent == Some(UpdateRequest(todo.id,
                     Patch(Some(editTitle), Some(editDescription), Some(editPriority), None)))
                && !isEditing
    {
      if Trim(editTitle) == "" {
        return None;
      }
      sent := Some(UpdateRequest(todo.id,
                Patch(Some(editTitle), Some(editDescription), Some(editPriority), None)));
      isEditing := false;
    }

    /** `handleCancel`: the three edit fields are back to the todo's values and the
      editor closes. */
    method HandleCancel()
      modifies this`isEditing, this`editTitle, this`editDescription, this`editPriority
      ensures editTitle == todo.title && editDescription == DescriptionText(todo)
      ensures editPriority == todo.priority && !isEditing
    {
      editTitle := todo.title;
      editDescription := DescriptionText(todo);
      editPriority := todo.priority;
      isEditing := false;
    }

    /** `toggleComplete`: an update of this todo carrying only the flipped flag. */
    method ToggleComplete() returns (sent: UpdateRequest)
      ensures sent.id == todo.id
      ensures sent.patch.completed == Some(!todo.completed)
      ensures sent.patch.title.None? && sent.patch.description.None? && sent.patch.priority.None?
    {
      sent := UpdateRequest(todo.id, TogglePatch(todo));
    }

    /** The delete button: `onDelete` is called with this todo's id. */
    method Delete() returns (id: string)
      ensures id == todo.id
    {
      id := todo.id;
    }
  }
}
