/** The queue with set semantics: a FIFO that refuses an element it already holds. */
module QueueSets {
  import opened Bags

  ghost predicate Distinct<T(!new)>(s: seq<T>) {
    Unique(multiset(s))
  }

  ghost function Elements<T>(s: seq<T>): set<T> {
    set x | x in s
  }

  lemma DistinctAppend<T(!new)>(s: seq<T>, v: T)
    requires Distinct(s) && v !in s
    ensures Distinct(s + [v]) && Elements(s + [v]) == Elements(s) + {v}
  {
    assert forall x :: x in multiset(s + [v]) ==> x in multiset(s) || x == v;
    assert multiset(s + [v]) == multiset(s) + multiset{v};
  }

  lemma DistinctTail<T(!new)>(s: seq<T>)
    requires Distinct(s) && s != []
    ensures Distinct(s[1..]) && Elements(s[1..]) == Elements(s) - {s[0]}
  {
    assert s == [s[0]] + s[1..];
    assert multiset(s) == multiset{s[0]} + multiset(s[1..]);
    forall x | x in multiset(s[1..]) ensures multiset(s[1..])[x] == 1 { assert x in multiset(s); }
    assert multiset(s)[s[0]] == 1 + multiset(s[1..])[s[0]];
  }

  lemma {:induction false} DistinctSize<T(!new)>(s: seq<T>)
    requires Distinct(s)
    ensures |Elements(s)| == |s|
  {
    if s != [] {
      DistinctTail(s);
      DistinctSize(s[1..]);
    }
  }

  // ---- Any sequence of operations ----

  datatype QueueOp<T> = PushBack(value: T) | PopFront | Clear

  /** The contents with two histories: the pushes that were accepted and everything removed, in order. */
  datatype Ledger<T> = Ledger(contents: seq<T>, accepted: seq<T>, removed: seq<T>)

  function Operate<T(==)>(q: Ledger<T>, op: QueueOp<T>): Ledger<T> {
    match op
    case PushBack(v) =>
      if v in q.contents then q else q.(contents := q.contents + [v], accepted := q.accepted + [v])
    case PopFront =>
      if q.contents == [] then q
      else q.(contents := q.contents[1..], removed := q.removed + [q.contents[0]])
    case Clear =>
      q.(contents := [], removed := q.removed + q.contents)
  }

  function OperateAll<T(==)>(q: Ledger<T>, ops: seq<QueueOp<T>>): Ledger<T>
    decreases |ops|
  {
    if ops == [] then q else OperateAll(Operate(q, ops[0]), ops[1..])
  }

  /** First in, first out, each element once, over any sequence of operations: the initial contents
      followed by the accepted pushes are the removals so far followed by the current contents. */
  lemma {:induction false} FirstInFirstOut<T(!new)>(q: Ledger<T>, ops: seq<QueueOp<T>>, initial: seq<T>)
    requires Distinct(q.contents) && initial + q.accepted == q.removed + q.contents
    ensures var r := OperateAll(q, ops);
            Distinct(r.contents) && initial + r.accepted == r.removed + r.contents
    decreases |ops|
  {
    if ops != [] {
      var r := Operate(q, ops[0]);
      if ops[0].PushBack? && ops[0].value !in q.contents {
        DistinctAppend(q.contents, ops[0].value);
        assert initial + r.accepted == (initial + q.accepted) + [ops[0].value];
        assert r.removed + r.contents == (q.removed + q.contents) + [ops[0].value];
      } else if ops[0].PopFront? && q.contents != [] {
        DistinctTail(q.contents);
        assert r.removed + r.contents == q.removed + ([q.contents[0]] + q.contents[1..]);
      }
      FirstInFirstOut(r, ops[1..], initial);
    }
  }

  /** A queue and a set updated together. */
  class QueueSet<T(==, !new)> {
    var queue: seq<T>
    var elements: set<T>

    ghost var accepted: seq<T>
    ghost var removed: seq<T>

    ghost predicate Valid()
      reads this
    {
      Distinct(queue) && elements == Elements(queue)
    }

    ghost function View(): Ledger<T>
      reads this
    {
      Ledger(queue, accepted, removed)
    }

    constructor ()
      ensures Valid() && View() == Ledger([], [], [])
    {
      queue, elements := [], {};
      accepted, removed := [], [];
    }

    method PushBack(value: T) returns (inserted: bool)
      requires Valid()
      modifies this
      ensures Valid()
      ensures inserted <==> value !in old(queue)
      ensures View() == Operate(old(View()), QueueOp.PushBack(value))
    {
      inserted := value !in elements;
      if inserted {
        DistinctAppend(queue, value);
        elements := elements + {value};
        queue := queue + [value];
        accepted := accepted + [value];
      }
    }

    method PopFront() returns (front: Option<T>)
      requires Valid()
      modifies this
      ensures Valid()
      ensures front == if old(queue) == [] then None else Some(old(queue)[0])
      ensures View() == Operate(old(View()), QueueOp.PopFront)
    {
      if queue == [] {
        front := None;
      } else {
        DistinctTail(queue);
        front := Some(queue[0]);
        elements := elements - {queue[0]};
        removed := removed + [queue[0]];
        queue := queue[1..];
      }
    }

    method Clear()
      modifies this
      ensures Valid()
      ensures View() == Operate(old(View()), QueueOp.Clear)
    {
      removed := removed + queue;
      queue, elements := [], {};
    }

    /** Answered from the set, yet it is membership in the queue. */
    method Contains(value: T) returns (r: bool)
      requires Valid()
      ensures r <==> value in queue
    {
      r := value in elements;
    }

    /** Answered from the queue, yet it is the size of the set. */
    method Len() returns (n: nat)
      requires Valid()
      ensures n == |queue| == |elements|
    {
      DistinctSize(queue);
      n := |queue|;
    }

    method IsEmpty() returns (r: bool)
      requires Valid()
      ensures r <==> elements == {}
    {
      DistinctSize(queue);
      r := queue == [];
    }
  }
}
