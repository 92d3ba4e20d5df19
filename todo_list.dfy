/** The client-side to-do list: the items shown, the text being typed, and
    how adding, toggling, deleting, fetching and filtering change them. The
    server's answers are inputs. */
module TodoList {
  import opened Common
  import Seqs
  import Text

  datatype TodoItem = TodoItem(
    id: Id,
    text: string,
    completed: bool,
    category: string,
    priority: Option<string>,
    description: Option<string>)

  datatype FilterType = All | Active | Completed

  /** The body of the POST that adds an item. */
  datatype NewTodo = NewTodo(text: string, category: string, priority: string, description: string)

  /** Placeholder annotations the client attaches to every new item. */
  const PlaceholderPriority := "9/10"
  const PlaceholderDescription := "Developing a To-Do List web app is important for organization and productivity. Completing this task will enhance efficiency in managing tasks. However, the urgency may vary depending on deadlines for other projects."

  /** How a request the handler awaited ended. */
  datatype Response = Threw | Answered(ok: bool)

  /** The JSON the add request answered with: the created item or null. */
  datatype AddReply = AddThrew | AddAnswered(data: Option<TodoItem>)

  /** The JSON the list request answered with: with or without `todos`. */
  datatype FetchReply = FetchThrew | FetchAnswered(todos: Option<seq<TodoItem>>)

  // ---- the list transformations ----

  /** `todos.find(t => t.id === id)`: the first entry with that id. */
  function Find(todos: seq<TodoItem>, id: Id): (r: Option<TodoItem>)
    ensures r.None? <==> forall i :: 0 <= i < |todos| ==> todos[i].id != id
    ensures r.Some? ==> exists k :: 0 <= k < |todos| && todos[k] == r.value && r.value.id == id
                          && forall i :: 0 <= i < k ==> todos[i].id != id
  {
    if todos == [] then None
    else if todos[0].id == id then Some(todos[0])
    else
      Find(todos[1..], id)
  }

  /** The map of a successful toggle: every entry with the id has its
      `completed` flag flipped; every other field and entry is kept. */
  function ToggleById(todos: seq<TodoItem>, id: Id): (r: seq<TodoItem>)
    ensures |r| == |todos|
    ensures forall i :: 0 <= i < |todos| ==>
              r[i] == if todos[i].id == id then todos[i].(completed := !todos[i].completed) else todos[i]
  {
    if todos == [] then []
    else
      var t := todos[0];
      [if t.id == id then t.(completed := !t.completed) else t] + ToggleById(todos[1..], id)
  }

  /** The filter of a successful delete: no entry with the id is left, every
      other entry is kept in its order, and kept plus removed entries make up
      the list. */
  function RemoveById(todos: seq<TodoItem>, id: Id): (r: seq<TodoItem>)
    ensures forall i :: 0 <= i < |r| ==> r[i].id != id
    ensures forall i :: 0 <= i < |todos| && todos[i].id != id ==> todos[i] in r
    ensures Seqs.Subseq(r, todos)
    ensures |r| + |Seqs.Filter(todos, (t: TodoItem) => t.id == id)| == |todos|
  {
    Seqs.FilterIsSubseq(todos, (t: TodoItem) => t.id != id);
    Seqs.FilterPartition(todos, (t: TodoItem) => t.id != id, (t: TodoItem) => t.id == id);
    Seqs.Filter(todos, (t: TodoItem) => t.id != id)
  }

  function Matches(filter: FilterType): TodoItem -> bool
  {
    match filter
    case Active => (t: TodoItem) => !t.completed
    case Completed => (t: TodoItem) => t.completed
    case All => (t: TodoItem) => true
  }

  /** `filteredTodos`: `active` shows exactly the open entries, `completed`
      exactly the done ones, `all` the whole list; always in list order. */
  function Visible(todos: seq<TodoItem>, filter: FilterType): (r: seq<TodoItem>)
    ensures filter == Active ==>
              (forall i :: 0 <= i < |r| ==> !r[i].completed)
              && (forall i :: 0 <= i < |todos| && !todos[i].completed ==> todos[i] in r)
    ensures filter == Completed ==>
              (forall i :: 0 <= i < |r| ==> r[i].completed)
              && (forall i :: 0 <= i < |todos| && todos[i].completed ==> todos[i] in r)
    ensures filter == Active ==> |r| + |Seqs.Filter(todos, Matches(Completed))| == |todos|
    ensures filter == Completed ==> |Seqs.Filter(todos, Matches(Active))| + |r| == |todos|
    ensures filter == All ==> r == todos
    ensures Seqs.Subseq(r, todos)
  {
    Seqs.FilterIsSubseq(todos, Matches(filter));
    Seqs.FilterPartition(todos, Matches(Active), Matches(Completed));
    if filter == All then Seqs.FilterAll(todos, Matches(All)); Seqs.Filter(todos, Matches(filter))
    else Seqs.Filter(todos, Matches(filter))
  }

  // ---- properties of the transformations ----

  lemma ToggleTwiceRestores(todos: seq<TodoItem>, id: Id)
    ensures ToggleById(ToggleById(todos, id), id) == todos
  {
    var once := ToggleById(todos, id);
    var twice := ToggleById(once, id);
    assert forall i :: 0 <= i < |todos| ==> once[i].id == todos[i].id;
    assert forall i :: 0 <= i < |todos| ==> twice[i] == todos[i];
  }

  lemma ToggleAbsentIdChangesNothing(todos: seq<TodoItem>, id: Id)
    requires Find(todos, id).None?
    ensures ToggleById(todos, id) == todos
  {
  }

  lemma RemoveAbsentIdChangesNothing(todos: seq<TodoItem>, id: Id)
    requires Find(todos, id).None?
    ensures RemoveById(todos, id) == todos
  {
    Seqs.FilterAll(todos, (t: TodoItem) => t.id != id);
  }

  /** The `active` and `completed` views split the list: each entry shows in
      exactly one of them. */
  lemma ActiveAndCompletedPartition(todos: seq<TodoItem>)
    ensures |Visible(todos, Active)| + |Visible(todos, Completed)| == |todos|
  {
    // Follows from the count clauses of `Visible`.
  }

  // ---- the component's state ----

  /** The state the list component keeps; React's setters become field
      assignments and each handler runs to completion. */
  class TodoListView {
    var todos: seq<TodoItem>
    var newTodo: string
    var isLoading: bool
    var category: string
    var filter: FilterType

    constructor ()
      ensures todos == [] && newTodo == "" && isLoading
      ensures category == "other" && filter == Active
    {
      todos := [];
      newTodo := "";
      isLoading := true;
      category := "other";
      filter := Active;
    }

    method SetNewTodo(text: string)
      modifies this
      ensures newTodo == text
      ensures todos == old(todos) && isLoading == old(isLoading)
      ensures category == old(category) && filter == old(filter)
    {
      newTodo := text;
    }

    method SetCategory(c: string)
      modifies this
      ensures category == c
      ensures todos == old(todos) && newTodo == old(newTodo)
      ensures isLoading == old(isLoading) && filter == old(filter)
    {
      category := c;
    }

    method SetFilter(f: FilterType)
      modifies this
      ensures filter == f
      ensures todos == old(todos) && newTodo == old(newTodo)
      ensures isLoading == old(isLoading) && category == old(category)
    {
      filter := f;
    }

    /** `fetchTodos`: without a session email nothing happens; otherwise a
        reply carrying `todos` replaces the list and loading ends. */
    method FetchTodos(sessionEmail: Option<string>, reply: FetchReply)
      modifies this
      ensures !HasEmail(sessionEmail) ==> unchanged(this)
      ensures HasEmail(sessionEmail) ==>
                && !isLoading
                && todos == (if reply.FetchAnswered? && reply.todos.Some? then reply.todos.value else old(todos))
      ensures newTodo == old(newTodo) && category == old(category) && filter == old(filter)
    {
      if !HasEmail(sessionEmail) {
        return;
      }
      if reply.FetchAnswered? && reply.todos.Some? {
        todos := reply.todos.value;
      }
      isLoading := false;
    }

    /** `addTodo`: blank input or no session email sends nothing and changes
        nothing; otherwise the trimmed text is sent, and a returned item is
        appended and the input cleared. */
    method AddTodo(sessionEmail: Option<string>, reply: AddReply) returns (sent: Option<NewTodo>)
      modifies this
      ensures sent.None? <==> Text.Trim(old(newTodo)) == "" || !HasEmail(sessionEmail)
      ensures sent.None? ==> unchanged(this)
      ensures sent.Some? ==> sent.value == NewTodo(Text.Trim(old(newTodo)), old(category),
                                                   PlaceholderPriority, PlaceholderDescription)
      ensures sent.Some? && reply.AddAnswered? && reply.data.Some? ==>
                todos == old(todos) + [reply.data.value] && newTodo == ""
      ensures sent.Some? && !(reply.AddAnswered? && reply.data.Some?) ==>
                todos == old(todos) && newTodo == old(newTodo)
      ensures isLoading == old(isLoading) && category == old(category) && filter == old(filter)
    {
      var text := Text.Trim(newTodo);
      if text == "" || !HasEmail(sessionEmail) {
        return None;
      }
      sent := Some(NewTodo(text, category, PlaceholderPriority, PlaceholderDescription));
      if reply.AddAnswered? && reply.data.Some? {
        todos := todos + [reply.data.value];
        newTodo := "";
      }
    }

    /** `toggleTodo`: an id not in the list sends nothing; otherwise the new
        flag of the first entry with the id is sent and an ok response flips
        every entry with the id. */
    method ToggleTodo(id: Id, response: Response) returns (sent: Option<bool>)
      modifies this
      ensures sent.None? <==> Find(old(todos), id).None?
      ensures sent.Some? ==> sent.value == !Find(old(todos), id).value.completed
      ensures todos == if sent.Some? && response == Answered(true) then ToggleById(old(todos), id) else old(todos)
      ensures newTodo == old(newTodo) && isLoading == old(isLoading)
      ensures category == old(category) && filter == old(filter)
    {
      var todo := Find(todos, id);
      if todo.None? {
        return None;
      }
      sent := Some(!todo.value.completed);
      if response == Answered(true) {
        todos := ToggleById(todos, id);
      }
    }

    /** `deleteTodo`: an ok response removes every entry with the id. */
    method DeleteTodo(id: Id, response: Response)
      modifies this
      ensures todos == if response == Answered(true) then RemoveById(old(todos), id) else old(todos)
      ensures newTodo == old(newTodo) && isLoading == old(isLoading)
      ensures category == old(category) && filter == old(filter)
    {
      if response == Answered(true) {
        todos := RemoveById(todos, id);
      }
    }
  }
}
