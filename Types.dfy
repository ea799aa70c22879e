/** The records the todo client exchanges with its remote service (src/types/index.ts),
    and the shapes of the requests it sends. */
module Types {

  datatype Option<+T> = None | Some(value: T)

  /** What an awaited request to the remote service yields: the resolved value, or a
      rejected promise (network failure, HTTP error, rejected token). The service itself
      is not modelled: every handler takes the response it receives as a parameter. */
  datatype Response<+T> = Ok(value: T) | Failed

  datatype Priority = Low | Medium | High

  /** The string the service and the page use for a priority. */
  function PriorityName(p: Priority): string
  {
    match p
    case Low => "low"
    case Medium => "medium"
    case High => "high"
  }

  datatype User = User(id: int, email: string, name: string)

  /** One task; `description` is absent or a string, `id` is always present. */
  datatype Todo = Todo(
    id: string,
    userId: int,
    title: string,
    description: Option<string>,
    completed: bool,
    priority: Priority,
    position: int,
    createdAt: string,
    updatedAt: string)

  /** The payload of a create request: a normalised form. */
  datatype Draft = Draft(title: string, description: Option<string>, priority: Priority)

  /** The payload of an update request: only the fields that are present are sent. */
  datatype Patch = Patch(
    title: Option<string>,
    description: Option<string>,
    priority: Option<Priority>,
    completed: Option<bool>)

  /** One request to the remote service (src/services/api.ts). */
  datatype ApiCall =
    | GetTodos
    | CreateTodo(draft: Draft)
    | UpdateTodo(id: string, patch: Patch)
    | DeleteTodo(id: string)
    | ReorderTodos(todos: seq<Todo>)

  /** The todo a service that honours an update request is assumed to return (the
      client only passes on what the service answers): each field the patch carries
      overwrites the stored one, each field it leaves out is kept, and the fields a patch
      cannot carry (id, owner, position, timestamps) are kept. An empty description
      string is stored as given. */
  function ApplyPatch(t: Todo, p: Patch): (r: Todo)
    ensures r.id == t.id && r.userId == t.userId && r.position == t.position
    ensures r.createdAt == t.createdAt && r.updatedAt == t.updatedAt
    ensures r.title == if p.title.Some? then p.title.value else t.title
    ensures r.description == if p.description.Some? then p.description else t.description
    ensures r.priority == if p.priority.Some? then p.priority.value else t.priority
    ensures r.completed == if p.completed.Some? then p.completed.value else t.completed
  {
    t.(title := if p.title.Some? then p.title.value else t.title,
       description := if p.description.Some? then p.description else t.description,
       priority := if p.priority.Some? then p.priority.value else t.priority,
       completed := if p.completed.Some? then p.completed.value else t.completed)
  }
}
