# Todo client: a Dafny model of its list controller, forms and session shell

The modelled program is a browser todo-list client. A user signs in. The client then
loads that user's todos from a remote service and shows them as a list. The user can
create, edit, toggle, delete, drag to reorder and filter todos. This project models the
logic inside the four components that hold that state:

- `TodoApp` (`TodoApp.dfy`): the list controller. It holds the ordered list `todos`, the
  `loading` flag, the form toggle and the filter criteria. It has one handler per action:
  load, create, update, delete and drag end. The filtered view and the header counters
  are pure functions of the list (`TodoFilters.dfy`).
- `TodoForm` (`TodoForm.dfy`): the creation form. Its record changes one field at a time.
  Submit rejects a blank title, trims the texts, turns an empty description into an
  absent one, and passes the priority through ('medium' by default).
- `TodoItem` (`TodoItem.dfy`): one row and its inline editor. Save rejects a blank title
  but sends the fields untrimmed. Cancel restores the fields. Toggle sends only the
  flipped flag. Priorities map to colour classes.
- `App` (`App.dfy`): the shell. It restores a stored session at start-up and handles
  login and logout. It decides which screen is shown.

The supporting modules are `Types.dfy` (records and request shapes), `Text.dfy`
(`trim`, ASCII `toLowerCase`, `includes`) and `Seqs.dfy` (`filter`, the two `splice`
calls of a move, and an in-place version of that move on an array).

Component state that the source changes in place is a class: `TodoApp.TodoApp`,
`TodoForm.Form`, `TodoItem.Item` and `App.App`. Each method states the whole new state,
usually as a function of the old one, and `modifies` names only the fields it may
change. The remote service is not modelled; only the lemmas about a toggle assume one
that applies an update as requested (`Types.ApplyPatch`). Each handler takes the response it receives
(`Ok(value)` or `Failed`) as a parameter and returns the requests it sent, in order. So
"sends nothing" and "reloads after a failure" can be stated directly. Each handler is
one atomic step.

Behaviour kept exactly as the code has it:

- A drag reports positions in the *filtered* list, but the move is applied to the
  *whole* list. With a filter active, the todo that moves can be a different one from
  the todo that was dragged. `TodoApp.DragUnderFilterMovesHiddenTodo` gives a concrete
  case: the dragged todo stays where it was and a hidden todo moves.
- Update replaces, and delete removes, *every* entry with the given id.
- Saving an edit sends all three edit fields, changed or not. The title is not trimmed,
  and an empty description is sent as `""`. The creation form instead trims and drops
  an empty description.
- A stored token or user that is the empty string counts as missing, because
  `token && userData` tests truthiness.
- When a reorder fails, the list is reloaded. If the reload also fails, the moved list
  stays.

## Model

| member | source | states |
|---|---|---|
| `Text.Trim` | src/components/TodoForm.tsx:19-23 | trim's result is the input with a blank prefix and a blank suffix cut off; it is empty exactly when the input is blank (the test `!s.trim()`), and otherwise it neither starts nor ends with white space |
| `Text.Lower` | src/components/TodoApp.tsx:85-86 | toLowerCase keeps the length and lowers each ASCII letter |
| `Text.LowerIdempotent` | src/components/TodoApp.tsx:85-86 | lowering the already lowered query changes nothing more |
| `Text.Contains` | src/components/TodoApp.tsx:85-86 | `includes` finds a text that is a prefix of the string and never a text longer than the string |
| `Text.ContainsIffOccurs` | src/components/TodoApp.tsx:85-86 | `includes` holds exactly when the searched text occurs at some position |
| `Seqs.Filter` | src/components/TodoApp.tsx:84 | Array filter keeps only elements satisfying the test and never grows the list |
| `Seqs.FilterIsSubsequence` | src/components/TodoApp.tsx:84 | a filtered list keeps the original order (it is a subsequence) |
| `Seqs.FilterMultiplicity` | src/components/TodoApp.tsx:84 | every element passing the test is kept as often as it occurs; no other element is kept |
| `Seqs.FilterComplement` | src/components/TodoApp.tsx:99-100 | filtering by a test and by its negation gives lengths that add up to the whole |
| `Seqs.FilterDroppingNothing` | src/components/TodoApp.tsx:61 | a filter whose result is as long as its input returns the input |
| `Seqs.RemoveAt` | src/components/TodoApp.tsx:71 | `splice(i, 1)` shortens the list by one; entries before i stay, entries after it shift down |
| `Seqs.InsertAt` | src/components/TodoApp.tsx:72 | `splice(i, 0, x)` lengthens the list by one; entries before i stay, x is at i, the rest shift up |
| `Seqs.Move` | src/components/TodoApp.tsx:71-72 | the two splices keep the length and put the taken entry at the destination index |
| `Seqs.InsertThenRemove` | src/components/TodoApp.tsx:71-72 | removing at the index just inserted at gives the list back |
| `Seqs.MoveIsPermutation` | src/components/TodoApp.tsx:70-72 | the splice move keeps the length and the multiset of todos |
| `Seqs.MovePlacesAndKeepsOrder` | src/components/TodoApp.tsx:71-72 | after the move the taken todo is at the destination index; without it, the others are in their old relative order |
| `Seqs.MoveInPlaceOfItself` | src/components/TodoApp.tsx:71-72 | dropping a todo where it was picked up changes nothing |
| `Seqs.MoveInPlace` | src/components/TodoApp.tsx:70-72 | the two splices on a fixed-size buffer (remove shifts down, insert shifts up) produce exactly the move |
| `TodoFilters.FilteredTodosSpec` | src/components/TodoApp.tsx:84-95 | the filtered list is a subsequence of the list; each kept todo passes search AND status AND priority; each todo passing all three is kept, as often as it occurs |
| `TodoFilters.MatchesSearch` | src/components/TodoApp.tsx:85-86 | the empty search matches every todo |
| `TodoFilters.MatchesStatus` | src/components/TodoApp.tsx:88-90 | 'all' keeps every todo, 'completed' exactly the completed ones, 'active' exactly the others |
| `TodoFilters.MatchesPriority` | src/components/TodoApp.tsx:92 | 'all' keeps every todo, a priority exactly the todos that have it |
| `TodoFilters.FilteredTodos` | src/components/TodoApp.tsx:84-95 | the shown list is no longer than the list and every todo in it passes all three tests |
| `TodoFilters.SearchIgnoresCase` | src/components/TodoApp.tsx:85-86 | a query matches a todo exactly when its lower-case form does, so letter case in the query never matters |
| `TodoFilters.NoCriteriaShowsAll` | src/components/TodoApp.tsx:84-95 | empty search, status 'all' and priority 'all' return the list unchanged |
| `TodoFilters.SearchExample` | src/components/TodoApp.tsx:84-95 | searching "ilk" among active todos finds "Buy milk" and not a completed "Walk dog" |
| `TodoFilters.UpperCaseSearchExample` | src/components/TodoApp.tsx:85-86 | the query "MILK" finds the todo titled "Buy milk" |
| `TodoFilters.ComputeStats` | src/components/TodoApp.tsx:97-101 | total is the length of the list and equals completed plus active |
| `TodoFilters.StatsAgreeWithStatusFilter` | src/components/TodoApp.tsx:97-101 | the completed and active counters equal the lengths of the lists shown under the 'completed' and 'active' status filters with no search |
| `TodoApp.ReplaceById` | src/components/TodoApp.tsx:52 | update keeps the length; entries with the id become the returned todo, all others are unchanged |
| `TodoApp.RemoveById` | src/components/TodoApp.tsx:61 | delete never grows the list and leaves no entry with the id |
| `TodoApp.RemoveByIdSpec` | src/components/TodoApp.tsx:61 | delete leaves a subsequence with no entry of that id that keeps every other todo as often as before; when nothing matches, the list is unchanged |
| `TodoApp.UpdateChangesOnlyTarget` | src/components/TodoApp.tsx:52 | once the targeted entries are set aside, the list after an update equals the list before it |
| `TodoApp.DragUnderFilterMovesHiddenTodo` | src/components/TodoApp.tsx:67-74 | visible drag positions are applied to the whole list: under the 'active' filter a hidden completed todo is moved and the shown order is unchanged |
| `TodoApp.CopyAndMove` | src/components/TodoApp.tsx:70-72 | copying the list and splicing twice yields the move of the source index to the destination index |
| `TodoApp.TodoApp.constructor` | src/components/TodoApp.tsx:17-22 | the screen mounts with an empty list, loading, form closed, no filter |
| `TodoApp.TodoApp.Visible` | src/components/TodoApp.tsx:84-95 | the shown list is never longer than the list |
| `TodoApp.TodoApp.CurrentStats` | src/components/TodoApp.tsx:97-101 | the counters of the current list: total = length = completed + active |
| `TodoApp.TodoApp.FetchTodos` | src/components/TodoApp.tsx:28-37 | load sends one request; success replaces the list, failure leaves it; loading is false afterwards either way |
| `TodoApp.TodoApp.HandleCreateTodo` | src/components/TodoApp.tsx:39-47 | success gives `[new] + old` and closes the form; failure changes nothing |
| `TodoApp.TodoApp.HandleUpdateTodo` | src/components/TodoApp.tsx:49-56 | success replaces the entries with the id; failure changes nothing; the length is kept |
| `TodoApp.TodoApp.HandleDeleteTodo` | src/components/TodoApp.tsx:58-65 | success removes the entries with the id; failure changes nothing |
| `TodoApp.TodoApp.HandleDragEnd` | src/components/TodoApp.tsx:67-82 | no destination: nothing changes and nothing is sent; otherwise the moved list is sent; on success it is a permutation with the taken entry at the destination and the others in their old relative order; on failure a reload follows and its list, when it succeeds, is the final list |
| `TodoApp.TodoApp.SetSearchTerm` | src/components/TodoApp.tsx:148 | the search box changes only the search text |
| `TodoApp.TodoApp.SetFilterStatus` | src/components/TodoApp.tsx:154 | the status select changes only the status filter |
| `TodoApp.TodoApp.SetFilterPriority` | src/components/TodoApp.tsx:163 | the priority select changes only the priority filter |
| `TodoApp.TodoApp.SetShowForm` | src/components/TodoApp.tsx:173 | the add button opens the form |
| `TodoForm.ApplyChange` | src/components/TodoForm.tsx:28-33 | a change event sets the named field and keeps the other two |
| `TodoForm.PriorityDefaultsToMedium` | src/components/TodoForm.tsx:11-15 | without a priority change the priority is 'medium' |
| `TodoForm.ApplyChanges` | src/components/TodoForm.tsx:28-33 | a run of change events without a priority change keeps the priority, and a run ending in a title input leaves the title it typed |
| `TodoForm.Submit` | src/components/TodoForm.tsx:17-26 | a blank title sends nothing; otherwise the sent title is the trimmed, non-empty title, the description is the trimmed one or absent when blank, and the priority is passed through |
| `TodoForm.SubmitIsNormal` | src/components/TodoForm.tsx:19-24 | typing a sent draft back into the form and submitting again sends the same draft |
| `TodoForm.Form.constructor` | src/components/TodoForm.tsx:11-15 | the form opens with empty texts and priority 'medium' |
| `TodoForm.Form.HandleChange` | src/components/TodoForm.tsx:28-33 | the record becomes the old one with only the named field changed |
| `TodoForm.Form.HandleSubmit` | src/components/TodoForm.tsx:17-26 | onSubmit is called exactly when the title is not blank, and with the normalised draft |
| `TodoItem.TogglePatch` | src/components/TodoItem.tsx:34-36 | the toggle update carries the flipped completed flag and no other field |
| `TodoItem.ToggleFlipsOnlyCompleted` | src/components/TodoItem.tsx:34-36 | applied to the todo, the toggle update flips only its flag; toggling twice restores the todo |
| `TodoItem.ToggleInListFlipsOne` | src/components/TodoApp.tsx:49-56 | with unique ids, an honoured toggle flips the flag of that one todo and leaves every other entry unchanged |
| `TodoItem.PriorityColor` | src/components/TodoItem.tsx:38-49 | "high" gives the red class, "medium" the yellow one, "low" the green one; the result is one of the four classes, and it is the grey default exactly for strings other than "high", "medium" and "low" |
| `TodoItem.PriorityColorsDistinct` | src/components/TodoItem.tsx:38-49 | high, medium and low get pairwise distinct classes, none of them the default |
| `TodoItem.Item.constructor` | src/components/TodoItem.tsx:12-15 | the editor starts closed with the todo's title, its description or "" and its priority |
| `TodoItem.Item.ReceiveTodo` | src/components/TodoApp.tsx:200-217 | a new `todo` prop for the row under the same key replaces the row's todo and keeps the edit fields, which are state initialised once |
| `TodoItem.Item.StartEditing` | src/components/TodoItem.tsx:155 | the edit button opens the editor |
| `TodoItem.Item.SetEditTitle` | src/components/TodoItem.tsx:69 | the title input sets the edit title |
| `TodoItem.Item.SetEditDescription` | src/components/TodoItem.tsx:75 | the description input sets the edit description |
| `TodoItem.Item.SetEditPriority` | src/components/TodoItem.tsx:82 | the priority select sets the edit priority |
| `TodoItem.Item.HandleSave` | src/components/TodoItem.tsx:17-25 | a blank edit title sends nothing and stays in edit mode; otherwise exactly the untrimmed title, description and priority are sent for the todo's id and edit mode ends |
| `TodoItem.Item.HandleCancel` | src/components/TodoItem.tsx:27-32 | the three edit fields are reset to the todo's values and edit mode ends |
| `TodoItem.Item.ToggleComplete` | src/components/TodoItem.tsx:34-36 | the update is for this todo and carries only `completed = !todo.completed` |
| `TodoItem.Item.Delete` | src/components/TodoItem.tsx:161 | the delete button reports this todo's id |
| `Types.ApplyPatch` | src/services/api.ts:44-47 | not the client's code, which only returns the service's answer: the answer of a service assumed to honour the update, where each field the update carries is written, each field it leaves out is kept, and id, owner, position and timestamps are kept |
| `App.Restore` | src/App.tsx:12-27 | both entries present and a parsable user: user set, page 'todos', storage untouched; both present but unparsable: both keys removed, user and page kept; either missing or empty: nothing but loading changes; loading false on every path |
| `App.Login` | src/App.tsx:29-34 | sets the user, writes the token and the serialised user, keeps other entries and adds no new one, moves to 'todos' |
| `App.Logout` | src/App.tsx:36-41 | clears the user, removes both keys, keeps other entries and adds none, moves to 'login' |
| `App.Gate` | src/App.tsx:43-69 | spinner exactly while loading; todo screen exactly when the page is 'todos' and a user is set; signup exactly on 'signup'; login otherwise |
| `App.LoginSurvivesReload` | src/App.tsx:12-34 | after login with a non-empty token and a round-tripping codec, the next start-up signs the same user in on the todo screen |
| `App.LogoutSurvivesReload` | src/App.tsx:12-41 | after logout, the next start-up shows the login screen and leaves storage as is |
| `App.RestoreHealsStorage` | src/App.tsx:17-24 | a second start-up over the storage a first one left changes nothing in storage |
| `App.App.constructor` | src/App.tsx:8-10 | a page load starts signed out, on 'login', loading, over the given storage |
| `App.App.RestoreSession` | src/App.tsx:12-27 | the start-up effect performs `Restore` on the shell's state |
| `App.App.HandleLogin` | src/App.tsx:29-34 | the login callback performs `Login` on the shell's state |
| `App.App.HandleLogout` | src/App.tsx:36-41 | the logout callback performs `Logout` on the shell's state |
| `App.App.SwitchPage` | src/App.tsx:55-68 | the links between login and signup set the page |
| `App.App.CurrentScreen` | src/App.tsx:43-69 | from the fields: spinner exactly while loading; todo screen for the signed-in user exactly on 'todos' with a user set; signup exactly on 'signup'; login otherwise |

## Left out

- The remote service and its HTTP client (`src/services/api.ts`): requests are values
  of `ApiCall`, and responses are parameters. The bearer-token header and the base URL
  are not modelled.
- The login and signup pages, and the authentication requests they make: their source
  is not part of this model. Only their use of `handleLogin` and of the page switches
  is modelled.
- Asynchrony. Each handler is one atomic step. Interleavings and stale captures of
  `todos` in a handler are not modelled. The reload after a failed reorder is not
  awaited in the source; here it completes within the same step.
- Rendering, icons (`getPriorityIcon`), date formatting, the portfolio animation
  (`src/components/Skills.tsx`) and the static display data
  (`src/components/StatsCards.tsx`).
- The placeholder key `todo-${index}` used only for rendering: every todo has an id.
- The `user` prop of the todo screen, which is only displayed.
- Ownership of todos by the signed-in user: only the service enforces it.
- Logging: every failure the controller catches is written with `console.error`; the
  model keeps the state as the code does but does not log.
- Text.Lower: lowers ASCII letters only. toLowerCase's full Unicode case mapping is not
  modelled, so search under non-ASCII letters may differ.
- Text.Trim: uses the ECMAScript white-space set written out. A different Unicode
  version could add characters to the Zs category.
- App.Restore: JSON.parse is given as a function that returns a user or `None` when it
  throws. Text that parses to a value other than a user (such as `null`) is not
  modelled.
- TodoApp.TodoApp.HandleDragEnd: requires both positions to lie within the shown list,
  which the drag-and-drop library guarantees. Out of range, `splice(k, 1)` would take
  nothing and the second splice would insert `undefined`; a destination past the end
  would be clamped, so the taken todo would be appended. Neither case is modelled.
- TodoForm.ApplyChange: the event names one of the three fields, and a priority change
  carries one of the three priorities, as the form's inputs and select allow. An
  arbitrary field name added to the record is not modelled.
- Types.ApplyPatch: is an assumption about the service, not code of the client. A real
  service may also refresh `updatedAt`, which the client never reads.
- TodoItem.Item.ReceiveTodo: the new prop is given as a call, not by a re-render.
  Whether the parent still renders the row (the filter may hide it) is not modelled.
