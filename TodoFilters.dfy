/** The two views the todo screen derives from its list: the filtered list that is shown
    and dragged (src/components/TodoApp.tsx:84-95) and the three counters in the header
    (src/components/TodoApp.tsx:97-101). Both are pure projections of the list. */
module TodoFilters {
  import opened Types
  import opened Text
  import opened Seqs

  /** The status select: 'all' | 'active' | 'completed'. */
  datatype StatusFilter = AllTasks | ActiveOnly | CompletedOnly

  /** The priority select: 'all' or one priority. */
  datatype PriorityFilter = AllPriorities | OnlyPriority(priority: Priority)

  /** The search box and the two selects. */
  datatype Criteria = Criteria(search: string, status: StatusFilter, priority: PriorityFilter)

  /** The criteria the screen starts with: empty search, all tasks, all priorities. */
  const NoCriteria := Criteria("", AllTasks, AllPriorities)

  /** Case-insensitive substring search in the title, or in the description when there
      is one that is not the empty string (the empty string is falsy). */
  function MatchesSearch(t: Todo, search: string): (m: bool)
    ensures search == "" ==> m
  {
    Contains(Lower(t.title), Lower(search)) ||
    (t.description.Some? && t.description.value != "" &&
     Contains(Lower(t.description.value), Lower(search)))
  }

  /** The status select: 'all' keeps every todo, 'completed' exactly the completed ones
      and 'active' exactly the others. */
  function MatchesStatus(t: Todo, status: StatusFilter): (m: bool)
    ensures status == AllTasks ==> m
    ensures status == CompletedOnly ==> (m <==> t.completed)
    ensures status == ActiveOnly ==> (m <==> !t.completed)
  {
    status == AllTasks ||
    (status == CompletedOnly && t.completed) ||
    (status == ActiveOnly && !t.completed)
  }

  /** The priority select: 'all' keeps every todo, a priority exactly the todos that
      have it. */
  function MatchesPriority(t: Todo, priority: PriorityFilter): (m: bool)
    ensures priority == AllPriorities ==> m
    ensures priority.OnlyPriority? ==> (m <==> t.priority == priority.priority)
  {
    priority == AllPriorities || (priority.OnlyPriority? && t.priority == priority.priority)
  }

  /** The three tests combined with AND. */
  predicate Matches(t: Todo, c: Criteria)
  {
    MatchesSearch(t, c.search) && MatchesStatus(t, c.status) && MatchesPriority(t, c.priority)
  }

  /** `filteredTodos`: the todos that pass all three tests, in list order. */
  function FilteredTodos(todos: seq<Todo>, c: Criteria): (r: seq<Todo>)
    ensures |r| <= |todos|
    ensures forall i :: 0 <= i < |r| ==> Matches(r[i], c)
  {
    Filter(todos, t => Matches(t, c))
  }

  /** The filtered list is a subsequence of the list; every todo in it passes the search,
      the status and the priority test; and every todo of the list that passes all
      three is in it, as often as it occurs in the list. */
  lemma FilteredTodosSpec(todos: seq<Todo>, c: Criteria)
    ensures IsSubsequence(FilteredTodos(todos, c), todos)
    ensures forall i :: 0 <= i < |FilteredTodos(todos, c)| ==>
              var t := FilteredTodos(todos, c)[i];
              MatchesSearch(t, c.search) && MatchesStatus(t, c.status) && MatchesPriority(t, c.priority)
    ensures forall t :: multiset(FilteredTodos(todos, c))[t] ==
              if Matches(t, c) then multiset(todos)[t] else 0
    ensures forall t :: t in todos && Matches(t, c) <==> t in FilteredTodos(todos, c)
  {
    FilterIsSubsequence(todos, t => Matches(t, c));
    forall t ensures multiset(FilteredTodos(todos, c))[t] == if Matches(t, c) then multiset(todos)[t] else 0 {
      FilterMultiplicity(todos, t => Matches(t, c), t);
    }
  }

  /** The search ignores letter case: a query matches exactly when its lower-case form
      does. */
  lemma SearchIgnoresCase(t: Todo, search: string)
    ensures MatchesSearch(t, search) <==> MatchesSearch(t, Lower(search))
  {
    LowerIdempotent(search);
  }

  /** With an empty search, status 'all' and priority 'all' nothing is hidden. */
  lemma NoCriteriaShowsAll(todos: seq<Todo>)
    ensures FilteredTodos(todos, NoCriteria) == todos
  {
    FilterKeepsAll(todos, t => Matches(t, NoCriteria));
  }

  /** The example of a filtered search: "ilk" among active todos finds "Buy milk" and
      not the completed "Walk dog". */
  lemma SearchExample(milk: Todo, dog: Todo)
    requires milk.title == "Buy milk" && milk.description.None? && !milk.completed
    requires dog.title == "Walk dog" && dog.description.None? && dog.completed
    ensures FilteredTodos([milk, dog], Criteria("ilk", ActiveOnly, AllPriorities)) == [milk]
  {
    var c := Criteria("ilk", ActiveOnly, AllPriorities);
    var lowered := Lower(milk.title);
    assert Lower("ilk") == "ilk";
    assert lowered[5] == 'i' && lowered[6] == 'l' && lowered[7] == 'k';
    assert lowered[5..8] == "ilk";
    assert OccursAt(lowered, "ilk", 5);
    ContainsIffOccurs(lowered, "ilk");
    assert Matches(milk, c) && !Matches(dog, c);
    var p := (t: Todo) => Matches(t, c);
    assert Filter([dog], p) == [];
    assert Filter([milk, dog], p) == [milk] + Filter([dog], p);
  }

  /** Letter case does not matter: "MILK" finds "Buy milk". */
  lemma UpperCaseSearchExample(milk: Todo)
    requires milk.title == "Buy milk"
    ensures MatchesSearch(milk, "MILK")
  {
    var lowered := Lower(milk.title);
    assert Lower("MILK") == "milk";
    assert lowered[4..8] == "milk";
    assert OccursAt(lowered, "milk", 4);
    ContainsIffOccurs(lowered, "milk");
  }

  /** The header counters. */
  datatype Stats = Stats(total: nat, completed: nat, active: nat)

  predicate IsCompleted(t: Todo) { t.completed }

  predicate IsActive(t: Todo) { !t.completed }

  /** `stats`: the length of the list and the numbers of completed and of active todos;
      completed and active todos add up to the total. */
  function ComputeStats(todos: seq<Todo>): (st: Stats)
    ensures st.total == |todos| == st.completed + st.active
  {
    FilterComplement(todos, IsCompleted, IsActive);
    Stats(|todos|, |Filter(todos, IsCompleted)|, |Filter(todos, IsActive)|)
  }

  /** The 'Completed' and 'Active' counters equal the lengths of the lists shown when
      the status select is set to 'completed' or 'active' with no search. */
  lemma StatsAgreeWithStatusFilter(todos: seq<Todo>)
    ensures ComputeStats(todos).completed ==
            |FilteredTodos(todos, Criteria("", CompletedOnly, AllPriorities))|
    ensures ComputeStats(todos).active ==
            |FilteredTodos(todos, Criteria("", ActiveOnly, AllPriorities))|
  {
    FilterAgree(todos, IsCompleted, t => Matches(t, Criteria("", CompletedOnly, AllPriorities)));
    FilterAgree(todos, IsActive, t => Matches(t, Criteria("", ActiveOnly, AllPriorities)));
  }
}
