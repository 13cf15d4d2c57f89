/**
 * The persisted copy of the list: the `"todos"` entry of the browser's key-value storage,
 * what `JSON.parse` makes of it, and the record filter the list applies when it loads.
 */
module Storage {
  import opened TodoModel

  /** A JSON value as far as the load filter looks at it. */
  datatype JsonValue = JString(s: string) | JBoolean(b: bool) | JNumber(n: real) | JOther

  /** One element of the parsed array. Only `task`, `completed` and `priority` are checked by the filter. */
  datatype RawRecord = RawRecord(
    id: string,
    task: JsonValue,
    completed: JsonValue,
    priority: JsonValue,
    createdAt: string,
    completedAt: Option<string>)

  /** What `JSON.parse` yields for a non-empty stored text. */
  datatype Parsed = Malformed | NonArray | Records(items: seq<RawRecord>)

  /** The value `localStorage.getItem("todos")` returns; a text is given by what it parses to. */
  datatype Entry = NoEntry | EmptyString | Text(parsed: Parsed)

  /** `[1, 2, 3].includes(v)` */
  predicate IsPriority(v: JsonValue) {
    v.JNumber? && (v.n == 1.0 || v.n == 2.0 || v.n == 3.0)
  }

  /** The load filter: string `task`, boolean `completed`, priority 1, 2 or 3. */
  predicate IsTodoShaped(r: RawRecord) {
    r.task.JString? && r.completed.JBoolean? && IsPriority(r.priority)
  }

  /** The task a record that passes the filter stands for. */
  function FromRaw(r: RawRecord): (t: Todo)
    requires IsTodoShaped(r)
  {
    Todo(r.id, r.task.s, r.completed.b, r.priority.n.Floor, r.createdAt, r.completedAt)
  }

  /** The record `JSON.stringify` writes for a task and `JSON.parse` reads back. */
  function ToRaw(t: Todo): (r: RawRecord)
    ensures IsTodoShaped(r) && FromRaw(r) == t
  {
    RawRecord(t.id, JString(t.task), JBoolean(t.completed), JNumber(t.priority as real),
              t.createdAt, t.completedAt)
  }

  /** `parsed.filter(...)`: the records that pass the filter, in their order. */
  function KeepTodoShaped(items: seq<RawRecord>): (r: seq<Todo>)
    ensures |r| <= |items|
    ensures forall t :: t in r <==> exists x :: x in items && IsTodoShaped(x) && FromRaw(x) == t
  {
    if items == [] then []
    else
      var rest := KeepTodoShaped(items[1..]);
      assert forall x :: x in items <==> x == items[0] || x in items[1..];
      if IsTodoShaped(items[0]) then [FromRaw(items[0])] + rest else rest
  }

  /** `JSON.stringify(todos)`, as the entry it leaves in storage. */
  function Stringify(todos: seq<Todo>): (e: Entry) {
    Text(Records(seq(|todos|, i requires 0 <= i < |todos| => ToRaw(todos[i]))))
  }

  /** The list `loadFromLocalStorage` builds from a stored entry for a list that starts empty. */
  function Rehydrate(e: Entry): (r: seq<Todo>)
    ensures !(e.Text? && e.parsed.Records?) ==> r == []
  {
    match e
    case Text(Records(items)) => KeepTodoShaped(items)
    case _ => []
  }

  /** The filter treats the records of a concatenation one part after the other. */
  lemma {:induction false} KeepConcat(a: seq<RawRecord>, b: seq<RawRecord>)
    ensures KeepTodoShaped(a + b) == KeepTodoShaped(a) + KeepTodoShaped(b)
  {
    if a == [] {
      assert a + b == b;
    } else {
      assert (a + b)[1..] == a[1..] + b;
      KeepConcat(a[1..], b);
    }
  }

  /** A record that fails the filter is dropped and every other record is kept where it was. */
  lemma DropsInvalid(a: seq<RawRecord>, x: RawRecord, b: seq<RawRecord>)
    requires !IsTodoShaped(x)
    ensures KeepTodoShaped(a + [x] + b) == KeepTodoShaped(a) + KeepTodoShaped(b)
  {
    KeepConcat(a + [x], b);
    KeepConcat(a, [x]);
    assert [x][1..] == [];
  }

  /** When every record passes, each is kept, in order. */
  lemma {:induction false} KeepAll(items: seq<RawRecord>)
    requires forall i :: 0 <= i < |items| ==> IsTodoShaped(items[i])
    ensures |KeepTodoShaped(items)| == |items|
    ensures forall i :: 0 <= i < |items| ==> KeepTodoShaped(items)[i] == FromRaw(items[i])
  {
    if items != [] {
      KeepAll(items[1..]);
    }
  }

  /** Saving then loading gives back the same list: every task the list holds passes the filter. */
  lemma RoundTrip(todos: seq<Todo>)
    ensures Rehydrate(Stringify(todos)) == todos
  {
    var items := Stringify(todos).parsed.items;
    KeepAll(items);
  }
}
