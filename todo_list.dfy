/** The task store of src/todo-list.ts: the list of tasks and its persisted copy. */
module TodoListStore {
  import opened TodoModel
  import opened Trim
  import opened PriorityOrder
  import opened Storage

  /** The checks `addTodo` makes before it accepts a task. */
  predicate AcceptsInput(task: string, priority: int) {
    TrimString(task) != [] && 1 <= priority <= 3
  }

  /** The new task `addTodo` appends. */
  function NewTodo(id: string, task: string, priority: Priority, now: string): (t: Todo) {
    Todo(id, TrimString(task), false, priority, now, None)
  }

  /** Index `k` holds the first task of `s` whose id is `id`. */
  ghost predicate IsFirstMatch(s: seq<Todo>, id: string, k: int) {
    0 <= k < |s| && s[k].id == id && forall j :: 0 <= j < k ==> s[j].id != id
  }

  /** `todos.findIndex(todo => todo.id === id)`: the first index holding `id`, or -1. */
  method FindIndex(s: seq<Todo>, id: string) returns (index: int)
    ensures index == -1 <==> forall j :: 0 <= j < |s| ==> s[j].id != id
    ensures index != -1 ==> IsFirstMatch(s, id, index)
  {
    index := 0;
    while index < |s|
      invariant 0 <= index <= |s|
      invariant forall j :: 0 <= j < index ==> s[j].id != id
    {
      if s[index].id == id {
        return;
      }
      index := index + 1;
    }
    index := -1;
  }

  /** The task marked completed at time `now`; nothing else about it changes. */
  function Completed(t: Todo, now: string): (c: Todo) {
    t.(completed := true, completedAt := Some(now))
  }

  /** `todos.filter(todo => todo.id !== id)`: the tasks whose id is not `id`, in order. */
  function WithoutId(s: seq<Todo>, id: string): (r: seq<Todo>)
    ensures |r| <= |s|
    ensures forall i :: 0 <= i < |r| ==> r[i].id != id
  {
    if s == [] then []
    else
      var rest := WithoutId(s[1..], id);
      if s[0].id != id then [s[0]] + rest else rest
  }

  /** A task is kept exactly when it is in the list and its id is not `id`. */
  lemma {:induction false} WithoutIdMembers(s: seq<Todo>, id: string, t: Todo)
    ensures t in WithoutId(s, id) <==> t in s && t.id != id
  {
    if s != [] {
      WithoutIdMembers(s[1..], id, t);
      assert t in s <==> t == s[0] || t in s[1..] by { assert s == [s[0]] + s[1..]; }
    }
  }

  lemma {:induction false} WithoutIdConcat(a: seq<Todo>, b: seq<Todo>, id: string)
    ensures WithoutId(a + b, id) == WithoutId(a, id) + WithoutId(b, id)
  {
    if a == [] {
      assert a + b == b;
    } else {
      assert (a + b)[1..] == a[1..] + b;
      WithoutIdConcat(a[1..], b, id);
    }
  }

  /** Deleting an id that no task has leaves the list as it is. */
  lemma {:induction false} WithoutAbsentId(s: seq<Todo>, id: string)
    requires forall t :: t in s ==> t.id != id
    ensures WithoutId(s, id) == s
  {
    if s != [] {
      WithoutAbsentId(s[1..], id);
    }
  }

  lemma WithoutIdSplit(a: seq<Todo>, x: Todo, b: seq<Todo>)
    requires forall t :: t in a ==> t.id != x.id
    requires forall t :: t in b ==> t.id != x.id
    ensures WithoutId(a + [x] + b, x.id) == a + b
  {
    WithoutIdConcat(a + [x], b, x.id);
    WithoutIdConcat(a, [x], x.id);
    WithoutAbsentId(a, x.id);
    WithoutAbsentId(b, x.id);
    assert WithoutId([x], x.id) == [] by { assert [x][1..] == []; }
  }

  lemma UniqueApart(s: seq<Todo>, k: int)
    requires UniqueIds(s) && 0 <= k < |s|
    ensures forall t :: t in s[..k] ==> t.id != s[k].id
    ensures forall t :: t in s[k + 1..] ==> t.id != s[k].id
  {
    forall t | t in s[..k] ensures t.id != s[k].id {
      var j :| 0 <= j < k && s[..k][j] == t;
      assert s[j] == t;
    }
    forall t | t in s[k + 1..] ensures t.id != s[k].id {
      var j :| 0 <= j < |s| - k - 1 && s[k + 1..][j] == t;
      assert s[k + 1 + j] == t;
    }
  }

  /** With unique ids, deleting the id at index `k` removes exactly that task and keeps the order of the others. */
  lemma DeleteRemovesOne(s: seq<Todo>, k: int)
    requires UniqueIds(s) && 0 <= k < |s|
    ensures WithoutId(s, s[k].id) == s[..k] + s[k + 1..]
  {
    UniqueApart(s, k);
    WithoutIdSplit(s[..k], s[k], s[k + 1..]);
    assert s == s[..k] + [s[k]] + s[k + 1..];
  }

  /** Deleting keeps every completion flag matched by a completion time. */
  lemma {:induction false} WithoutIdStamped(s: seq<Todo>, id: string)
    requires CompletionStamped(s)
    ensures CompletionStamped(WithoutId(s, id))
  {
    if s != [] {
      assert CompletionStamped(s[1..]);
      WithoutIdStamped(s[1..], id);
    }
  }

  /** Deleting keeps ids unique. */
  lemma {:induction false} WithoutIdUnique(s: seq<Todo>, id: string)
    requires UniqueIds(s)
    ensures UniqueIds(WithoutId(s, id))
  {
    if s != [] {
      WithoutIdUnique(s[1..], id);
      var rest := WithoutId(s[1..], id);
      assert forall j :: 0 <= j < |rest| ==> rest[j].id != s[0].id by {
        forall j | 0 <= j < |rest| ensures rest[j].id != s[0].id {
          WithoutIdMembers(s[1..], id, rest[j]);
          assert rest[j] in s[1..];
          var m :| 0 <= m < |s[1..]| && s[1..][m] == rest[j];
          assert s[m + 1] == rest[j];
        }
      }
    }
  }

  class TodoList {
    /** The tasks, in storage (insertion) order. */
    var todos: seq<Todo>
    /** The `"todos"` entry of the key-value storage. */
    var persisted: Entry

    /** Reloading from storage would give back the list as it is now. */
    ghost predicate Valid()
      reads this
    {
      Rehydrate(persisted) == todos
    }

    /** Builds the list from whatever storage already holds under `"todos"`. */
    constructor (saved: Entry)
      ensures persisted == saved
      ensures todos == Rehydrate(saved)
      ensures Valid()
    {
      todos := [];
      persisted := saved;
      new;
      LoadFromLocalStorage();
    }

    /** `saveToLocalStorage`: overwrites the stored entry with the current list. */
    method SaveToLocalStorage()
      modifies this`persisted
      ensures persisted == Stringify(todos)
      ensures Valid()
    {
      persisted := Stringify(todos);
      RoundTrip(todos);
    }

    /**
     * `loadFromLocalStorage`: a missing or empty entry and a value that is not an array leave
     * the list as it is, a text that does not parse empties it, and an array becomes the
     * records that pass the filter.
     */
    method LoadFromLocalStorage()
      modifies this`todos
      ensures persisted.Text? && persisted.parsed.Records? ==> todos == KeepTodoShaped(persisted.parsed.items)
      ensures persisted.Text? && persisted.parsed.Malformed? ==> todos == []
      ensures !persisted.Text? || persisted.parsed.NonArray? ==> todos == old(todos)
    {
      match persisted {
        case Text(parsed) =>
          match parsed {
            case Records(items) => todos := KeepTodoShaped(items);
            case NonArray =>
            case Malformed => todos := [];
          }
        case _ =>
      }
    }

    /**
     * `addTodo`: refuses a task that is blank after trimming or a priority outside 1..3 and
     * then changes nothing; otherwise appends the trimmed task and saves.
     */
    method AddTodo(task: string, priority: int, id: string, now: string) returns (ok: bool)
      requires Valid()
      requires forall j :: 0 <= j < |todos| ==> todos[j].id != id
      modifies this
      ensures Valid()
      ensures ok <==> AcceptsInput(task, priority)
      ensures !ok ==> todos == old(todos) && persisted == old(persisted)
      ensures ok ==> todos == old(todos) + [NewTodo(id, task, priority, now)]
      ensures ok ==> persisted == Stringify(todos)
      ensures UniqueIds(old(todos)) ==> UniqueIds(todos)
      ensures CompletionStamped(old(todos)) ==> CompletionStamped(todos)
    {
      if TrimString(task) == [] || !(priority == 1 || priority == 2 || priority == 3) {
        return false;
      }
      var t := NewTodo(id, task, priority, now);
      todos := todos + [t];
      SaveToLocalStorage();
      return true;
    }

    /**
     * `markTodoCompleted`: marks the first task with this id completed at `now` (again, if it
     * already was) and saves; an unknown id changes nothing.
     */
    method MarkTodoCompleted(id: string, now: string)
      requires Valid()
      modifies this
      ensures Valid()
      ensures (forall j :: 0 <= j < |old(todos)| ==> old(todos)[j].id != id) ==>
                todos == old(todos) && persisted == old(persisted)
      ensures (exists j :: 0 <= j < |old(todos)| && old(todos)[j].id == id) ==>
                exists k :: IsFirstMatch(old(todos), id, k)
                            && todos == old(todos)[k := Completed(old(todos)[k], now)]
                            && persisted == Stringify(todos)
      ensures |todos| == |old(todos)|
      ensures UniqueIds(old(todos)) ==> UniqueIds(todos)
      ensures CompletionStamped(old(todos)) ==> CompletionStamped(todos)
    {
      var index := FindIndex(todos, id);
      if index != -1 {
        todos := todos[index := Completed(todos[index], now)];
        SaveToLocalStorage();
      }
    }

    /** `deleteTodo`: keeps the tasks whose id differs from `id`, in order, and always saves. */
    method DeleteTodo(id: string)
      requires Valid()
      modifies this
      ensures Valid()
      ensures todos == WithoutId(old(todos), id)
      ensures persisted == Stringify(todos)
      ensures UniqueIds(old(todos)) ==> UniqueIds(todos)
      ensures CompletionStamped(old(todos)) ==> CompletionStamped(todos)
    {
      todos := WithoutId(todos, id);
      SaveToLocalStorage();
      if UniqueIds(old(todos)) {
        WithoutIdUnique(old(todos), id);
      }
      if CompletionStamped(old(todos)) {
        WithoutIdStamped(old(todos), id);
      }
    }

    /**
     * `getTodos`: a sorted copy of the list. It holds the same tasks, in ascending priority,
     * tasks of equal priority in storage order; the list itself is left alone.
     */
    function GetTodos(): (r: seq<Todo>)
      reads this
      ensures multiset(r) == multiset(todos)
      ensures SortedByPriority(r)
      ensures r == Bands(todos)
    {
      SortSorted(todos);
      SortIsBands(todos);
      SortByPriority(todos)
    }
  }
}
