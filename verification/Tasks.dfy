/** Tasks, the choice of a shared one, and sorting and deduplication of their names. */
module Tasks {
  import opened Basics
  import opened Messages

  /** What the signalling layer sees of a task: its name, its negotiation data and the message types it takes. */
  datatype Task = Task(name: string, data: TaskData, types: seq<string>)

  /** The first of our tasks that the peer also proposes. */
  function ChooseShared(ours: seq<Task>, theirs: seq<string>): Option<Task> {
    if ours == [] then None
    else if ours[0].name in theirs then Some(ours[0])
    else ChooseShared(ours[1..], theirs)
  }

  /** The first of our tasks with the given name. */
  function FindTask(ours: seq<Task>, name: string): Option<Task> {
    ChooseShared(ours, [name])
  }

  function Names(ts: seq<Task>): (names: seq<string>)
    ensures |names| == |ts|
    ensures forall i :: 0 <= i < |ts| ==> names[i] == ts[i].name
  {
    if ts == [] then [] else Names(ts[..|ts| - 1]) + [ts[|ts| - 1].name]
  }

  /** The data map after inserting the tasks one after the other; a later entry replaces an earlier one. */
  function DataOf(ts: seq<Task>): (data: map<string, TaskData>)
    ensures forall n :: n in data <==> n in Names(ts)
  {
    if ts == [] then map[]
    else
      var p := DataOf(ts[..|ts| - 1]);
      p[ts[|ts| - 1].name := ts[|ts| - 1].data]
  }

  // ---------- Sorting and deduplication, as the standard library provides them ----------

  /** Lexicographic order on strings. */
  predicate StringLe(a: string, b: string) {
    if a == [] then true
    else if b == [] then false
    else if a[0] != b[0] then a[0] < b[0]
    else StringLe(a[1..], b[1..])
  }

  lemma {:induction false} StringLeTotal(a: string, b: string)
    ensures StringLe(a, b) || StringLe(b, a)
    ensures StringLe(a, b) && StringLe(b, a) ==> a == b
  {
    if a != [] && b != [] && a[0] == b[0] {
      StringLeTotal(a[1..], b[1..]);
      assert a == [a[0]] + a[1..] && b == [b[0]] + b[1..];
    }
  }

  lemma {:induction false} StringLeTransitive(a: string, b: string, c: string)
    requires StringLe(a, b) && StringLe(b, c)
    ensures StringLe(a, c)
  {
    if a != [] && b != [] && c != [] && a[0] == b[0] == c[0] {
      StringLeTransitive(a[1..], b[1..], c[1..]);
    }
  }

  ghost predicate Sorted(q: seq<string>) {
    forall i, j :: 0 <= i < j < |q| ==> StringLe(q[i], q[j])
  }

  /** Insertion into a sorted sequence. */
  function Insert(x: string, q: seq<string>): (r: seq<string>)
    ensures multiset(r) == multiset(q) + multiset{x}
  {
    if q == [] then [x]
    else if StringLe(x, q[0]) then
      assert q == [q[0]] + q[1..];
      [x] + q
    else
      assert q == [q[0]] + q[1..];
      [q[0]] + Insert(x, q[1..])
  }

  function Sort(q: seq<string>): (r: seq<string>)
    ensures multiset(r) == multiset(q)
  {
    if q == [] then [] else
      assert q == [q[0]] + q[1..];
      Insert(q[0], Sort(q[1..]))
  }

  lemma {:induction false} InsertKeepsSorted(x: string, q: seq<string>)
    requires Sorted(q)
    ensures Sorted(Insert(x, q))
  {
    if q != [] {
      StringLeTotal(x, q[0]);
      if StringLe(x, q[0]) {
        forall j | 0 <= j < |q| ensures StringLe(x, q[j]) {
          if j > 0 { StringLeTransitive(x, q[0], q[j]); }
        }
      } else {
        InsertKeepsSorted(x, q[1..]);
        var r := Insert(x, q[1..]);
        forall j | 0 <= j < |r| ensures StringLe(q[0], r[j]) {
          assert r[j] in multiset(r);
          assert r[j] == x || r[j] in q[1..];
        }
      }
    }
  }

  lemma {:induction false} SortSorts(q: seq<string>)
    ensures Sorted(Sort(q))
  {
    if q != [] {
      SortSorts(q[1..]);
      InsertKeepsSorted(q[0], Sort(q[1..]));
    }
  }

  /** Removes consecutive repetitions, keeping the first of each run. */
  function Dedup<T(==)>(q: seq<T>): seq<T> {
    if |q| <= 1 then q
    else if q[|q| - 2] == q[|q| - 1] then Dedup(q[..|q| - 1])
    else Dedup(q[..|q| - 1]) + [q[|q| - 1]]
  }

  /** Equal entries have nothing else between them. */
  ghost predicate Grouped<T>(q: seq<T>) {
    forall i, k, j :: 0 <= i < k < j < |q| && q[i] == q[j] ==> q[k] == q[j]
  }

  lemma SortedIsGrouped(q: seq<string>)
    requires Sorted(q)
    ensures Grouped(q)
  {
    forall i, k, j | 0 <= i < k < j < |q| && q[i] == q[j] ensures q[k] == q[j] {
      StringLeTotal(q[k], q[j]);
    }
  }

  lemma LastOccursEarlier<T>(q: seq<T>)
    requires Grouped(q) && |q| >= 2
    ensures q[|q| - 1] in q[..|q| - 1] <==> q[|q| - 2] == q[|q| - 1]
  {
  }

  lemma ElementsOfSnoc<T>(p: seq<T>, x: T)
    ensures (set y | y in p + [x]) == (set y | y in p) + {x}
  {
  }

  lemma GroupedPrefix<T>(q: seq<T>)
    requires Grouped(q) && q != []
    ensures Grouped(q[..|q| - 1])
  {
  }

  /** The number of distinct entries grows exactly with a last entry that did not occur before. */
  lemma DistinctOfSnoc<T>(q: seq<T>)
    requires q != []
    ensures var p := q[..|q| - 1];
            |set x | x in q| == |set x | x in p| + if q[|q| - 1] in p then 0 else 1
  {
    var p, last := q[..|q| - 1], q[|q| - 1];
    assert q == p + [last];
    ElementsOfSnoc(p, last);
    var sp := set x | x in p;
    assert last in p <==> last in sp;
    assert |sp + {last}| == if last in sp then |sp| else |sp| + 1;
  }

  /** On a grouped sequence the length after deduplication is the number of distinct entries. */
  lemma {:induction false} DedupCounts<T>(q: seq<T>)
    requires Grouped(q)
    ensures |Dedup(q)| == |set x | x in q|
  {
    hide Grouped;
    if |q| == 0 {
      assert (set x | x in q) == {};
    } else if |q| == 1 {
      assert (set x | x in q) == {q[0]};
    } else {
      GroupedPrefix(q);
      DedupCounts(q[..|q| - 1]);
      DistinctOfSnoc(q);
      LastOccursEarlier(q);
    }
  }

  /** Whatever sorted arrangement is deduplicated, its length is unchanged exactly when no name repeats. */
  lemma DuplicateTestIsExact(names: seq<string>, sorted: seq<string>)
    requires Sorted(sorted) && multiset(sorted) == multiset(names)
    ensures |Dedup(sorted)| == |names| <==> NoDup(names)
  {
    SortedIsGrouped(sorted);
    DedupCounts(sorted);
    NoDupIffFullSize(names);
    assert (set x | x in sorted) == (set x | x in names) by {
      forall x ensures x in sorted <==> x in names {
        assert x in sorted <==> x in multiset(sorted);
        assert x in names <==> x in multiset(names);
      }
    }
  }

  // ---------- The list of supported tasks ----------

  /** A list of tasks that is never empty. */
  class TaskList {
    var tasks: seq<Task>

    ghost predicate Valid()
      reads this
    {
      tasks != []
    }

    constructor (first: Task)
      ensures Valid() && tasks == [first]
    {
      tasks := [first];
    }

    /** Refuses a second task of the same name, so a list built this way is free of repetitions. */
    method AddTask(t: Task) returns (ok: bool)
      requires Valid()
      modifies this
      ensures Valid()
      ensures ok <==> t.name !in Names(old(tasks))
      ensures tasks == if ok then old(tasks) + [t] else old(tasks)
      ensures NoDup(Names(old(tasks))) ==> NoDup(Names(tasks))
    {
      for k := 0 to |tasks|
        invariant tasks == old(tasks)
        invariant forall j :: 0 <= j < k ==> tasks[j].name != t.name
      {
        if tasks[k].name == t.name {
          assert Names(tasks)[k] == t.name;
          return false;
        }
      }
      tasks := tasks + [t];
      return true;
    }
  }
}
