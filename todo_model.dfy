/** The task record stored by the to-do list (src/todo.model.ts). */
module TodoModel {

  datatype Option<T> = None | Some(value: T)

  /** The three priority levels a task may have. */
  type Priority = p: int | 1 <= p <= 3 witness 1

  /** One task. `completedAt` is absent until the task is marked completed. */
  datatype Todo = Todo(
    id: string,
    task: string,
    completed: bool,
    priority: Priority,
    createdAt: string,
    completedAt: Option<string>)

  /** Every task in `s` has an id of its own. */
  ghost predicate UniqueIds(s: seq<Todo>) {
    forall i, j :: 0 <= i < j < |s| ==> s[i].id != s[j].id
  }

  /** A task is completed exactly when it carries a completion time. */
  ghost predicate CompletionStamped(s: seq<Todo>) {
    forall i :: 0 <= i < |s| ==> (s[i].completed <==> s[i].completedAt.Some?)
  }
}
