# TodoList task store — a Dafny model

This project models the task store of a browser to-do list (`TodoList` in
`src/todo-list.ts`, the record in `src/todo.model.ts`). The store keeps an ordered
list of tasks, each with an id, a trimmed text, a completion flag, a priority 1..3,
a creation time and an optional completion time. It keeps that list in step with
one persisted copy under the storage key `"todos"`. Its operations:

- add a task: blank text and bad priorities are refused;
- mark a task completed by id;
- delete by id;
- list the tasks sorted by priority;
- rebuild the list from storage when the store is constructed.

Files and modules:

- `todo_model.dfy` (`TodoModel`): the `Todo` record, `Priority` as the subset type 1..3,
  and two list invariants: every task has an id of its own, and a task carries a
  completion time exactly when it is completed.
- `trim.dfy` (`Trim`): `String.prototype.trim` over a fixed white-space set.
- `priority_order.dfy` (`PriorityOrder`): the sort used by `getTodos`, with its
  reference definition `Bands`: the priority-1 tasks, then the priority-2 tasks,
  then the priority-3 tasks, each group in storage order.
- `storage.dfy` (`Storage`): the stored entry, what `JSON.parse` yields for it,
  the load filter, and the save/load round trip.
- `todo_list.dfy` (`TodoListStore`): `findIndex`, the delete filter and the class
  `TodoList`, with fields `todos` and `persisted`.
- `scenario.dfy` (`Scenario`): a short session with the store (two adds, one refused
  add, then a listing).

The class invariant `Valid()` says that reloading from `persisted` would rebuild
exactly `todos`. The constructor establishes it. Every operation keeps it, because
each save writes `Stringify(todos)` and `Storage.RoundTrip` proves that loading that
entry gives the same list back.

Environment inputs are parameters:

- the fresh id from `crypto.randomUUID()`;
- the timestamps from `new Date().toISOString()`;
- the entry that storage already holds when the store is constructed.

Behaviour of the code that the model keeps as it is:

- The code has no edit operation, so the model has none.
- `markTodoCompleted` overwrites `completedAt` on a task that is already completed.
  The model does the same.
- When the stored value parses but is not an array, the code does not reassign
  `todos`. `LoadFromLocalStorage` keeps `todos` unchanged in that case; since it only
  runs from the constructor, the list is still empty there.
- Loading does not enforce unique ids or "completed exactly when stamped". The model
  proves that add, complete and delete preserve those invariants, but loading does
  not establish them.

## Model

| member | source | states |
|---|---|---|
| Trim.TrimString | src/todo-list.ts:21 | the result is a slice `s[i..j]` of the input with only white space before `i` and after `j`, and it neither starts nor ends with white space |
| Trim.TrimEmptyIff | src/todo-list.ts:14 | the trimmed text is empty exactly when every character of the input is white space |
| Trim.TrimIdempotent | src/todo-list.ts:21 | trimming an already trimmed text changes nothing |
| PriorityOrder.Insert | src/todo-list.ts:61 | the insertion step of the sort; the result holds the inserted task plus the tasks it was inserted into (same multiset); `InsertSorted` and `WithPriorityInsert` state that it keeps ascending order and puts the new task first among equal priorities |
| PriorityOrder.Bands | src/todo-list.ts:61 | plain definition, the reference order: the priority-1 tasks, then the priority-2, then the priority-3, each group in storage order; used by `SortIsBands` and `GetTodos` |
| PriorityOrder.SortByPriority | src/todo-list.ts:61 | the sorted copy is a permutation of the list (same multiset of tasks) |
| PriorityOrder.SortSorted | src/todo-list.ts:61 | the sorted copy is in ascending priority |
| PriorityOrder.SortStable | src/todo-list.ts:61 | for each priority, the tasks of that priority appear in the sorted copy in their storage order (stability) |
| PriorityOrder.SortIsBands | src/todo-list.ts:61 | the sorted copy equals the priority-1 tasks, then the priority-2, then the priority-3, each group in storage order |
| Storage.IsPriority | src/todo-list.ts:87 | plain definition of `[1, 2, 3].includes(todo.priority)`: the value is the number 1, 2 or 3; used through `IsTodoShaped` in `KeepTodoShaped` |
| Storage.IsTodoShaped | src/todo-list.ts:85-87 | plain definition of the load filter: string `task`, boolean `completed`, priority accepted by `IsPriority`; used by the `ensures` of `KeepTodoShaped`, `ToRaw` and `DropsInvalid` |
| Storage.FromRaw | src/todo-list.ts:83-88 | plain definition: the task a record that passes the filter stands for, with its fields read off the record; used by the `ensures` of `KeepTodoShaped`, `ToRaw` and `KeepAll` |
| Storage.Stringify | src/todo-list.ts:67 | plain definition of the entry `JSON.stringify(this.todos)` leaves: an array holding `ToRaw` of each task, in order; its meaning is stated by `RoundTrip` and used by the `ensures` of `SaveToLocalStorage` |
| Storage.ToRaw | src/todo-list.ts:83-88 | the record a saved task is written as passes the load filter and reads back as the same task |
| Storage.KeepTodoShaped | src/todo-list.ts:83-88 | the loaded list holds exactly the tasks of the records with string `task`, boolean `completed` and priority 1, 2 or 3, and is no longer than the array |
| Storage.KeepConcat | src/todo-list.ts:83-88 | the filter handles the records one after the other, so the kept records keep their relative order |
| Storage.DropsInvalid | src/todo-list.ts:83-88 | a record that fails the filter (priority 4, say) is dropped and all records around it are kept as before |
| Storage.KeepAll | src/todo-list.ts:83-88 | when every record passes, the loaded list is the records, one for one, in order |
| Storage.Rehydrate | src/todo-list.ts:73-95 | a missing entry, an empty text, a text that does not parse or a value that is not an array all give an empty list |
| Storage.RoundTrip | src/todo-list.ts:65-94 | loading the entry a save writes gives back exactly the saved list |
| TodoListStore.AcceptsInput | src/todo-list.ts:14 | plain definition of the check `addTodo` makes: the trimmed text is non-empty and the priority is 1, 2 or 3; used by the `ensures` of `AddTodo` (`ok <==> AcceptsInput(task, priority)`) |
| TodoListStore.NewTodo | src/todo-list.ts:19-25 | plain definition of the new task: the given id, the trimmed text, not completed, the given priority and time, no completion time; used by the `ensures` of `AddTodo` |
| TodoListStore.Completed | src/todo-list.ts:45-46 | plain definition: the task with `completed` set and `completedAt` set to the given time, every other field the same; used by the `ensures` of `MarkTodoCompleted` |
| TodoListStore.FindIndex | src/todo-list.ts:40 | returns -1 exactly when no task has the id, and otherwise the index of the first task that has it |
| TodoListStore.WithoutId | src/todo-list.ts:55 | no task with the deleted id remains, and the result is no longer than the list |
| TodoListStore.WithoutIdMembers | src/todo-list.ts:55 | a task is kept exactly when it was in the list and its id differs from the deleted one |
| TodoListStore.WithoutIdConcat | src/todo-list.ts:55 | the filter handles the list part by part, so the kept tasks keep their relative order |
| TodoListStore.WithoutAbsentId | src/todo-list.ts:55 | deleting an id that no task has leaves the list unchanged |
| TodoListStore.DeleteRemovesOne | src/todo-list.ts:55 | with unique ids, deleting the id at index `k` removes exactly that task and keeps all others in order |
| TodoListStore.WithoutIdUnique | src/todo-list.ts:55 | deleting keeps ids unique |
| TodoListStore.WithoutIdStamped | src/todo-list.ts:55 | deleting keeps every task's completion flag matched by a completion time |
| TodoListStore.TodoList.constructor | src/todo-list.ts:7-9 | the new store's list is what loading the existing entry yields, and the invariant holds |
| TodoListStore.TodoList.SaveToLocalStorage | src/todo-list.ts:65-68 | the stored entry becomes the serialised list, and reloading it would give the list back |
| TodoListStore.TodoList.LoadFromLocalStorage | src/todo-list.ts:71-96 | an array entry gives the filtered records, a text that does not parse gives the empty list, and a missing or empty entry or a non-array value leaves the list as it was |
| TodoListStore.TodoList.AddTodo | src/todo-list.ts:11-35 | returns true exactly when the trimmed text is non-empty and the priority is 1, 2 or 3; on false nothing changes (list or storage); on true the trimmed, uncompleted, unstamped task is appended after the unchanged earlier tasks and saved; ids stay unique and completion stamps consistent |
| TodoListStore.TodoList.MarkTodoCompleted | src/todo-list.ts:38-50 | an unknown id changes nothing and does not save; otherwise only the first task with the id becomes completed with the given time (overwriting an earlier one), the length is unchanged and the list is saved |
| TodoListStore.TodoList.DeleteTodo | src/todo-list.ts:53-57 | the list becomes the tasks whose id differs, in order, and is always saved; ids stay unique and completion stamps consistent |
| TodoListStore.TodoList.GetTodos | src/todo-list.ts:60-62 | the listing is a permutation of the list, in ascending priority, ties in storage order; the list itself is not changed |
| Scenario.AddTwoAndList | src/todo-list.ts:11-62 | adding a priority-2 task, a blank task and a priority-1 task gives true, false, true, and the listing shows the priority-1 task first |

## Left out

- `src/main.ts` is not part of this model. It is the page rendering, the form and button handlers and the confirmation dialog.
- Browser storage is one field of the store. The model does not capture that `localStorage` is shared by every store on the page, nor a write that fails (for example when the quota is full), which the code does not detect either.
- `JSON.stringify` and `JSON.parse` are abstract. A stored text is represented by what it parses to (`Malformed`, `NonArray` or an array of records). The model assumes that parsing a saved list gives back the records written for it.
- An array element that is `null` makes the filter throw, so the `catch` empties the list. Elements are always records in the model, so this is not modelled.
- The load filter checks only `task`, `completed` and `priority`. The source keeps records whose `id`, `createdAt` or `completedAt` have the wrong JSON type, and keeps any extra properties. In the model those three fields are already typed, and the loaded record has only the six fields of `Todo`.
- `crypto.randomUUID()` and `new Date().toISOString()` are parameters. `AddTodo` requires that the id is not already in the list, which stands in for what random UUIDs provide.
- AddTodo: the priority argument is an `int`. Fractional numbers and `NaN`, which `[1, 2, 3].includes` always refuses, cannot be passed.
- GetTodos: returns values. In the source, `slice()` copies only the array and the task objects are shared, so a caller could change stored tasks through the listing. That aliasing is not modelled.
- `String.prototype.trim` uses a fixed set of white-space characters: the ECMAScript white space and line terminators, with the Unicode space separators listed one by one.
