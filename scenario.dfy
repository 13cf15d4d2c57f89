/**
 * A session with the list: a priority-2 task is added, a blank one is refused, a priority-1
 * task is added, and the listing shows the priority-1 task first.
 */
module Scenario {
  import opened TodoModel
  import opened Trim
  import opened PriorityOrder
  import opened Storage
  import opened TodoListStore

  lemma ListingOfTwo(first: Todo, second: Todo)
    requires first.priority == 2 && second.priority == 1
    ensures Bands([first, second]) == [second, first]
  {
    WithPriorityCons(first, [second], 1);
    WithPriorityCons(first, [second], 2);
    WithPriorityCons(first, [second], 3);
    WithPriorityCons(second, [], 1);
    WithPriorityCons(second, [], 2);
    WithPriorityCons(second, [], 3);
    assert [first, second] == [first] + [second] && [second] == [second] + [];
  }

  /**
   * For instance `milk` = "Buy milk", `blank` = "" and `call` = "Call Alice": the empty task
   * is refused and the listing is Call Alice (priority 1) before Buy milk (priority 2).
   */
  method AddTwoAndList(milk: string, blank: string, call: string,
                       milkId: string, callId: string, t1: string, t2: string)
    returns (accepted: seq<bool>, listed: seq<Todo>)
    requires milk != [] && !IsWhitespace(milk[0]) && !IsWhitespace(milk[|milk| - 1])
    requires call != [] && !IsWhitespace(call[0]) && !IsWhitespace(call[|call| - 1])
    requires forall i :: 0 <= i < |blank| ==> IsWhitespace(blank[i])
    requires milkId != callId
    ensures accepted == [true, false, true]
    ensures listed == [Todo(callId, call, false, 1, t2, None), Todo(milkId, milk, false, 2, t1, None)]
  {
    TrimOfTrimmed(milk);
    TrimOfTrimmed(call);
    TrimEmptyIff(blank);
    var list := new TodoList(NoEntry);
    var a := list.AddTodo(milk, 2, milkId, t1);
    var b := list.AddTodo(blank, 1, callId, t2);
    var c := list.AddTodo(call, 1, callId, t2);
    assert list.todos == [Todo(milkId, milk, false, 2, t1, None), Todo(callId, call, false, 1, t2, None)];
    accepted := [a, b, c];
    listed := list.GetTodos();
    ListingOfTwo(list.todos[0], list.todos[1]);
  }
}
