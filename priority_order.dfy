/** The order `getTodos` returns: a stable sort of the tasks by ascending priority. */
module PriorityOrder {
  import opened TodoModel

  ghost predicate SortedByPriority(s: seq<Todo>) {
    forall i, j :: 0 <= i < j < |s| ==> s[i].priority <= s[j].priority
  }

  /** The tasks of `s` whose priority is `p`, in the order they have in `s`. */
  function WithPriority(s: seq<Todo>, p: Priority): (r: seq<Todo>)
  {
    if s == [] then []
    else (if s[0].priority == p then [s[0]] else []) + WithPriority(s[1..], p)
  }

  /** Puts `t` in front of the first task of `s` whose priority is not below its own. */
  function Insert(t: Todo, s: seq<Todo>): (r: seq<Todo>)
    ensures multiset(r) == multiset(s) + multiset{t}
  {
    if s == [] || t.priority <= s[0].priority then [t] + s
    else
      assert s == [s[0]] + s[1..];
      [s[0]] + Insert(t, s[1..])
  }

  /** `slice().sort((a, b) => a.priority - b.priority)`: a stable insertion sort on priority. */
  function SortByPriority(s: seq<Todo>): (r: seq<Todo>)
    ensures multiset(r) == multiset(s)
  {
    if s == [] then []
    else
      assert s == [s[0]] + s[1..];
      Insert(s[0], SortByPriority(s[1..]))
  }

  lemma {:induction false} InsertSorted(t: Todo, s: seq<Todo>)
    requires SortedByPriority(s)
    ensures SortedByPriority(Insert(t, s))
  {
    if s != [] && t.priority > s[0].priority {
      InsertSorted(t, s[1..]);
      var r := Insert(t, s[1..]);
      assert multiset(r) == multiset(s[1..]) + multiset{t};
      forall x | x in r ensures s[0].priority <= x.priority {
        assert x in multiset(r);
        if x != t {
          assert x in multiset(s[1..]);
          assert x in s[1..];
        }
      }
    }
  }

  /** The result of the sort is in ascending priority. */
  lemma {:induction false} SortSorted(s: seq<Todo>)
    ensures SortedByPriority(SortByPriority(s))
  {
    if s != [] {
      SortSorted(s[1..]);
      InsertSorted(s[0], SortByPriority(s[1..]));
    }
  }

  lemma {:induction false} WithPriorityInsert(t: Todo, s: seq<Todo>, p: Priority)
    ensures WithPriority(Insert(t, s), p)
            == (if t.priority == p then [t] else []) + WithPriority(s, p)
  {
    if s != [] && t.priority > s[0].priority {
      WithPriorityInsert(t, s[1..], p);
      WithPriorityCons(s[0], Insert(t, s[1..]), p);
      WithPriorityCons(s[0], s[1..], p);
      assert s == [s[0]] + s[1..];
    } else {
      WithPriorityCons(t, s, p);
    }
  }

  /** Stability: among tasks of equal priority, the sort keeps the storage order. */
  lemma {:induction false} SortStable(s: seq<Todo>, p: Priority)
    ensures WithPriority(SortByPriority(s), p) == WithPriority(s, p)
  {
    if s != [] {
      SortStable(s[1..], p);
      WithPriorityInsert(s[0], SortByPriority(s[1..]), p);
    }
  }

  lemma {:induction false} WithPriorityNone(s: seq<Todo>, p: Priority)
    requires forall i :: 0 <= i < |s| ==> s[i].priority != p
    ensures WithPriority(s, p) == []
  {
    if s != [] { WithPriorityNone(s[1..], p); }
  }

  lemma WithPriorityCons(x: Todo, rest: seq<Todo>, p: Priority)
    ensures WithPriority([x] + rest, p) == (if x.priority == p then [x] else []) + WithPriority(rest, p)
  {
    assert ([x] + rest)[1..] == rest;
  }

  /** The priority-1, priority-2 and priority-3 tasks of `s`, one group after the other. */
  function Bands(s: seq<Todo>): (r: seq<Todo>) {
    WithPriority(s, 1) + WithPriority(s, 2) + WithPriority(s, 3)
  }

  lemma BandsCons(x: Todo, rest: seq<Todo>)
    requires forall i :: 0 <= i < |rest| ==> x.priority <= rest[i].priority
    ensures Bands([x] + rest) == [x] + Bands(rest)
  {
    var b1, b2, b3 := WithPriority(rest, 1), WithPriority(rest, 2), WithPriority(rest, 3);
    WithPriorityCons(x, rest, 1);
    WithPriorityCons(x, rest, 2);
    WithPriorityCons(x, rest, 3);
    if x.priority == 1 {
      assert Bands([x] + rest) == ([x] + b1) + b2 + b3;
    } else if x.priority == 2 {
      WithPriorityNone(rest, 1);
      assert Bands([x] + rest) == [] + ([x] + b2) + b3;
    } else {
      WithPriorityNone(rest, 1);
      WithPriorityNone(rest, 2);
      assert Bands([x] + rest) == [] + [] + ([x] + b3);
    }
  }

  /** A sequence in ascending priority is its priority-1, priority-2 and priority-3 tasks, one group after the other. */
  lemma {:induction false} SortedIsBands(s: seq<Todo>)
    requires SortedByPriority(s)
    ensures Bands(s) == s
  {
    if s != [] {
      var rest := s[1..];
      assert SortedByPriority(rest);
      SortedIsBands(rest);
      assert forall i :: 0 <= i < |rest| ==> s[0].priority <= rest[i].priority by {
        forall i | 0 <= i < |rest| ensures s[0].priority <= rest[i].priority {
          assert rest[i] == s[i + 1];
        }
      }
      BandsCons(s[0], rest);
      assert s == [s[0]] + rest;
    }
  }

  /** The sort agrees with its reference definition: the tasks of priority 1, then 2, then 3, each group in storage order. */
  lemma SortIsBands(s: seq<Todo>)
    ensures SortByPriority(s) == Bands(s)
  {
    var r := SortByPriority(s);
    SortSorted(s);
    SortedIsBands(r);
    SortStable(s, 1);
    SortStable(s, 2);
    SortStable(s, 3);
  }
}
