/** The master's task queue: ordered by when a task is due, then by priority, then by when it was
    queued, and kept as a binary heap. */
module Scheduler {
  import opened Protocol

  /** What a task sends, as far as its successor depends on it. */
  datatype Job = Other | Selects(objects: seq<Octet>) | Operates(objects: seq<Octet>)

  /** One request the master wants to send.
      - `scan`: which periodic scan it is, if one.
      - `startup`, `later`: a startup step, and how many steps follow it.
      - `chained`: another kind of task that may name a successor.
      - `caller`: whoever is waiting for the outcome. */
  datatype Task = Task(
    job: Job, priority: int, period: int, scan: Option<nat>, startup: bool, later: nat,
    chained: bool, noResponse: bool, caller: Option<nat>, due: int, order: nat)

  /** Which of two tasks runs first. */
  predicate Less(a: Task, b: Task) {
    if a.due != b.due then a.due < b.due
    else if a.priority != b.priority then a.priority < b.priority
    else a.order < b.order
  }

  lemma LessOrders(a: Task, b: Task, c: Task)
    ensures !Less(a, a)
    ensures Less(a, b) ==> !Less(b, a)
    ensures a.order != b.order ==> Less(a, b) || Less(b, a)
    ensures Less(a, b) && !Less(c, b) ==> Less(a, c)
    ensures !Less(b, a) && !Less(c, b) ==> !Less(c, a)
  {
  }

  // ---------- The queue as a sorted list ----------

  ghost predicate Sorted(q: seq<Task>) {
    forall i, j :: 0 <= i < j < |q| ==> Less(q[i], q[j])
  }

  /** Puts a task in its place. */
  function Insert(q: seq<Task>, t: Task): seq<Task> {
    if q == [] || Less(q[|q| - 1], t) then q + [t] else Insert(q[..|q| - 1], t) + [q[|q| - 1]]
  }

  lemma {:induction false} InsertSorted(q: seq<Task>, t: Task)
    requires Sorted(q) && forall x :: x in q ==> x.order != t.order
    ensures Sorted(Insert(q, t)) && multiset(Insert(q, t)) == multiset(q) + multiset{t}
  {
    if q == [] {
    } else {
      var init, last := q[..|q| - 1], q[|q| - 1];
      assert q == init + [last];
      if Less(last, t) {
        forall i | 0 <= i < |q| ensures Less(q[i], t) { LessOrders(q[i], last, t); LessOrders(last, t, q[i]); }
      } else {
        InsertSorted(init, t);
        var ins := Insert(init, t);
        assert last in q;
        LessOrders(last, t, t);
        forall i | 0 <= i < |ins| ensures Less(ins[i], last) {
          assert ins[i] in multiset(ins);
          if ins[i] != t { InSeq(init, ins[i]); }
        }
      }
    }
  }

  lemma InSeq(q: seq<Task>, x: Task)
    requires x in multiset(q)
    ensures exists i :: 0 <= i < |q| && q[i] == x
  {
  }

  /** The tasks a restart keeps: the periodic ones. */
  function Kept(q: seq<Task>): seq<Task> {
    if q == [] then []
    else Kept(q[..|q| - 1]) + if q[|q| - 1].period > 0 then [q[|q| - 1]] else []
  }

  function Dropped(q: seq<Task>): seq<Task> {
    if q == [] then []
    else Dropped(q[..|q| - 1]) + if q[|q| - 1].period > 0 then [] else [q[|q| - 1]]
  }

  lemma {:induction false} KeptMembers(q: seq<Task>)
    ensures forall x :: x in Kept(q) ==> x in q && x.period > 0
    ensures forall x :: x in Dropped(q) ==> x in q && x.period <= 0
  {
    if q != [] { KeptMembers(q[..|q| - 1]); }
  }

  lemma {:induction false} KeptSorted(q: seq<Task>)
    requires Sorted(q)
    ensures Sorted(Kept(q))
  {
    hide Less;
    if q != [] {
      var init, last := q[..|q| - 1], q[|q| - 1];
      KeptSorted(init);
      KeptMembers(init);
      forall i | 0 <= i < |Kept(init)| ensures Less(Kept(init)[i], last) {
        var j :| 0 <= j < |init| && init[j] == Kept(init)[i];
        assert Less(q[j], last);
      }
    }
  }

  // ---------- The heap ----------

  function Parent(i: nat): nat
    requires i > 0
  {
    (i - 1) / 2
  }

  /** Node `i` does not come before node `p`. */
  predicate InPlace(q: seq<Task>, i: nat, p: nat) {
    i < |q| && p < |q| ==> !Less(q[i], q[p])
  }

  /** Every task whose parent is node `k` or later comes after its parent. */
  ghost predicate HeapFrom(q: seq<Task>, k: nat) {
    forall i: nat {:trigger Parent(i)} :: 0 < i < |q| && Parent(i) >= k ==> InPlace(q, i, Parent(i))
  }

  ghost predicate HeapOk(q: seq<Task>) {
    HeapFrom(q, 0)
  }

  function Swapped(q: seq<Task>, i: nat, j: nat): seq<Task>
    requires i < |q| && j < |q|
  {
    q[i := q[j]][j := q[i]]
  }

  lemma SwapKeeps(q: seq<Task>, i: nat, j: nat)
    requires i < |q| && j < |q|
    ensures multiset(Swapped(q, i, j)) == multiset(q)
  {
  }

  /** Only node `j` may come before its parent, and its children come after that parent too. */
  ghost predicate Rising(q: seq<Task>, j: nat) {
    && j < |q|
    && (forall i: nat {:trigger Parent(i)} :: 0 < i < |q| && i != j ==> InPlace(q, i, Parent(i)))
    && (forall i: nat {:trigger Parent(i)} :: 0 < i < |q| && j > 0 && Parent(i) == j ==> InPlace(q, i, Parent(j)))
  }

  lemma RisingStep(q: seq<Task>, j: nat)
    requires Rising(q, j) && j > 0 && Less(q[j], q[Parent(j)])
    ensures Rising(Swapped(q, Parent(j), j), Parent(j))
  {
    hide Less;
    var p := Parent(j);
    var r := Swapped(q, p, j);
    forall i: nat | 0 < i < |q| && i != p ensures InPlace(r, i, Parent(i)) {
      LessOrders(q[j], q[p], q[i]);
      LessOrders(q[j], q[p], q[p]);
    }
    forall i: nat | 0 < i < |q| && p > 0 && Parent(i) == p ensures InPlace(r, i, Parent(p)) {
      LessOrders(q[Parent(p)], q[p], q[i]);
    }
  }

  /** Lifts node `j` until its parent comes before it. */
  method Up(q0: seq<Task>, j0: nat) returns (q: seq<Task>)
    requires Rising(q0, j0)
    ensures HeapOk(q) && multiset(q) == multiset(q0)
  {
    hide Less;
    q := q0;
    var j: nat := j0;
    while j > 0 && Less(q[j], q[Parent(j)])
      invariant Rising(q, j) && multiset(q) == multiset(q0)
    {
      RisingStep(q, j);
      SwapKeeps(q, Parent(j), j);
      q := Swapped(q, Parent(j), j);
      j := Parent(j);
    }
  }

  /** Only the children of node `i` may come before it, and they come after its parent. */
  ghost predicate Sinking(q: seq<Task>, k: nat, i: nat) {
    && k <= i
    && (forall c: nat {:trigger Parent(c)} :: 0 < c < |q| && Parent(c) >= k && Parent(c) != i ==> InPlace(q, c, Parent(c)))
    && (forall c: nat {:trigger Parent(c)} ::
          0 < c < |q| && Parent(c) == i && i > 0 && Parent(i) >= k ==> InPlace(q, c, Parent(i)))
  }

  /** The child of `i` that comes first. */
  function FirstChild(q: seq<Task>, i: nat): (c: nat)
    requires 2 * i + 1 < |q|
    ensures i < c < |q| && Parent(c) == i
  {
    if 2 * i + 2 < |q| && Less(q[2 * i + 2], q[2 * i + 1]) then 2 * i + 2 else 2 * i + 1
  }

  lemma FirstChildFirst(q: seq<Task>, i: nat, x: nat)
    requires 2 * i + 1 < |q| && 0 < x < |q| && Parent(x) == i
    ensures !Less(q[x], q[FirstChild(q, i)])
  {
    assert x == 2 * i + 1 || x == 2 * i + 2;
    LessOrders(q[x], q[x], q[x]);
    if 2 * i + 2 < |q| { LessOrders(q[2 * i + 2], q[2 * i + 1], q[x]); }
  }

  lemma SinkingStep(q: seq<Task>, k: nat, i: nat)
    requires Sinking(q, k, i) && 2 * i + 1 < |q| && Less(q[FirstChild(q, i)], q[i])
    ensures var c := FirstChild(q, i); Sinking(Swapped(q, i, c), k, c)
  {
    hide Less, FirstChild;
    var c := FirstChild(q, i);
    var r := Swapped(q, i, c);
    forall x: nat | 0 < x < |q| && Parent(x) >= k && Parent(x) != c ensures InPlace(r, x, Parent(x)) {
      if Parent(x) == i {
        FirstChildFirst(q, i, x);
        LessOrders(q[c], q[i], q[x]);
      }
    }
    forall x: nat | 0 < x < |q| && Parent(x) == c && Parent(c) >= k ensures InPlace(r, x, Parent(c)) {
    }
  }

  lemma SinkingDone(q: seq<Task>, k: nat, i: nat)
    requires Sinking(q, k, i) && (2 * i + 1 >= |q| || !Less(q[FirstChild(q, i)], q[i]))
    ensures HeapFrom(q, k)
  {
    hide Less, FirstChild;
    forall x: nat | 0 < x < |q| && Parent(x) >= k ensures InPlace(q, x, Parent(x)) {
      if Parent(x) == i {
        FirstChildFirst(q, i, x);
        LessOrders(q[i], q[FirstChild(q, i)], q[x]);
      }
    }
  }

  /** Sinks node `k` until its children come after it. */
  method Down(q0: seq<Task>, k: nat) returns (q: seq<Task>)
    requires HeapFrom(q0, k + 1)
    ensures HeapFrom(q, k) && multiset(q) == multiset(q0) && |q| == |q0|
  {
    hide Less, FirstChild;
    q := q0;
    var i: nat := k;
    while 2 * i + 1 < |q| && Less(q[FirstChild(q, i)], q[i])
      invariant Sinking(q, k, i) && multiset(q) == multiset(q0) && |q| == |q0|
      decreases |q| - i
    {
      var c := FirstChild(q, i);
      SinkingStep(q, k, i);
      SwapKeeps(q, i, c);
      q := Swapped(q, i, c);
      i := c;
    }
    SinkingDone(q, k, i);
  }

  /** The root of a heap comes before everything else in it. */
  lemma {:induction false} RootFirst(q: seq<Task>, i: nat)
    requires HeapOk(q) && i < |q|
    ensures !Less(q[i], q[0])
  {
    hide Less;
    if i == 0 {
      LessOrders(q[0], q[0], q[0]);
    } else {
      RootFirst(q, Parent(i));
      assert InPlace(q, i, Parent(i));
      LessOrders(q[0], q[Parent(i)], q[i]);
    }
  }

  // ---------- The scheduler ----------

  /** The queue in heap order, with `line` the same tasks in the order they will run. */
  class TaskQueue {
    var q: seq<Task>
    var pushN: nat
    ghost var line: seq<Task>

    constructor ()
      ensures Valid() && line == [] && pushN == 0
    {
      q, pushN, line := [], 0, [];
    }

    ghost predicate Valid()
      reads this
    {
      && HeapOk(q) && Sorted(line) && multiset(q) == multiset(line)
      && forall x :: x in line ==> x.order <= pushN
    }

    method Push(t: Task)
      requires Valid()
      modifies this
      ensures Valid() && pushN == old(pushN) + 1
      ensures line == Insert(old(line), t.(order := pushN))
    {
      hide Less, HeapOk, Sorted, Insert;
      pushN := pushN + 1;
      var x := t.(order := pushN);
      AppendRises(q, x);
      InsertSorted(line, x);
      line := Insert(line, x);
      q := Up(q + [x], |q|);
      OrdersBounded(line, old(line), x);
    }

    /** The next task to run, without taking it. */
    method Peek() returns (t: Option<Task>)
      requires Valid()
      ensures t == if line == [] then None else Some(line[0])
    {
      hide Less;
      if |q| == 0 {
        EmptyAlike(q, line);
        return None;
      }
      HeadsAgree(q, line);
      return Some(q[0]);
    }

    /** Takes the next task to run. */
    method Pop() returns (t: Task)
      requires Valid() && line != []
      modifies this
      ensures Valid() && t == old(line)[0] && line == old(line)[1..] && pushN == old(pushN)
    {
      hide Less, HeapOk, Sorted;
      EmptyAlike(q, line);
      HeadsAgree(q, line);
      var n := |q| - 1;
      t := q[0];
      TakeRoot(q);
      var rest := Swapped(q, 0, n)[..n];
      q := Down(rest, 0);
      RestSorted(line);
      Cancel(multiset(rest), multiset(line[1..]), t);
      line := line[1..];
      HeapFromZero(q);
    }

    /** Keeps the periodic tasks and hands the rest over, to be failed. */
    method Clear() returns (dropped: seq<Task>)
      requires Valid()
      modifies this
      ensures Valid() && line == Kept(old(line)) && multiset(dropped) == multiset(Dropped(old(line)))
      ensures pushN == old(pushN)
    {
      hide Less, HeapOk, Sorted;
      var kept;
      kept, dropped := Separate(q);
      SameKept(q, line);
      KeptSorted(line);
      KeptMembers(line);
      q := Heapify(kept);
      line := Kept(line);
    }
  }

  /** Goes through the queue, keeping the periodic tasks. */
  method Separate(q: seq<Task>) returns (kept: seq<Task>, dropped: seq<Task>)
    ensures kept == Kept(q) && dropped == Dropped(q)
  {
    kept, dropped := [], [];
    for i := 0 to |q|
      invariant kept == Kept(q[..i]) && dropped == Dropped(q[..i])
    {
      assert q[..i + 1][..i] == q[..i];
      if q[i].period > 0 { kept := kept + [q[i]]; } else { dropped := dropped + [q[i]]; }
    }
    assert q[..|q|] == q;
  }

  lemma OrdersBounded(line: seq<Task>, was: seq<Task>, x: Task)
    requires multiset(line) == multiset(was) + multiset{x}
    ensures forall y :: y in line ==> y == x || y in was
  {
    forall y | y in line ensures y == x || y in was { assert y in multiset(line); }
  }

  lemma AppendRises(q: seq<Task>, x: Task)
    requires HeapOk(q)
    ensures Rising(q + [x], |q|)
  {
  }

  lemma EmptyAlike(q: seq<Task>, line: seq<Task>)
    requires multiset(q) == multiset(line)
    ensures |q| == |line|
  {
    assert |multiset(q)| == |q|;
  }

  /** The root of the heap is the head of the line. */
  lemma HeadsAgree(q: seq<Task>, line: seq<Task>)
    requires HeapOk(q) && Sorted(line) && multiset(q) == multiset(line) && |q| > 0 && |line| > 0
    ensures q[0] == line[0]
  {
    hide Less;
    assert line[0] in multiset(q) && q[0] in multiset(line);
    var i :| 0 <= i < |q| && q[i] == line[0];
    var j :| 0 <= j < |line| && line[j] == q[0];
    RootFirst(q, i);
  }

  lemma TakeRoot(q: seq<Task>)
    requires HeapOk(q) && |q| > 0
    ensures var rest := Swapped(q, 0, |q| - 1)[..|q| - 1];
      HeapFrom(rest, 1) && multiset(q) == multiset(rest) + multiset{q[0]}
  {
    hide Less;
    var n := |q| - 1;
    SwapKeeps(q, 0, n);
    var r := Swapped(q, 0, n);
    assert r == r[..n] + [q[0]];
  }

  lemma RestSorted(line: seq<Task>)
    requires Sorted(line) && |line| > 0
    ensures Sorted(line[1..]) && multiset(line) == multiset(line[1..]) + multiset{line[0]}
    ensures forall x :: x in line[1..] ==> x in line
  {
    assert line == [line[0]] + line[1..];
  }

  lemma Cancel(a: multiset<Task>, b: multiset<Task>, t: Task)
    requires a + multiset{t} == b + multiset{t}
    ensures a == b
  {
    assert a == a + multiset{t} - multiset{t};
  }

  lemma HeapFromZero(q: seq<Task>)
    requires HeapFrom(q, 0)
    ensures HeapOk(q)
  {
  }

  /** What is kept of a queue does not depend on the order it is held in. */
  lemma SameKept(a: seq<Task>, b: seq<Task>)
    requires multiset(a) == multiset(b)
    ensures multiset(Kept(a)) == multiset(Kept(b)) && multiset(Dropped(a)) == multiset(Dropped(b))
  {
    forall x ensures multiset(Kept(a))[x] == multiset(Kept(b))[x] && multiset(Dropped(a))[x] == multiset(Dropped(b))[x] {
      KeptCount(a, x);
      KeptCount(b, x);
    }
  }

  lemma {:induction false} KeptCount(q: seq<Task>, x: Task)
    ensures multiset(Kept(q))[x] == (if x.period > 0 then multiset(q)[x] else 0)
    ensures multiset(Dropped(q))[x] == (if x.period > 0 then 0 else multiset(q)[x])
  {
    if q != [] {
      KeptCount(q[..|q| - 1], x);
      assert q == q[..|q| - 1] + [q[|q| - 1]];
    }
  }

  /** Makes a heap of any order. */
  method Heapify(q0: seq<Task>) returns (q: seq<Task>)
    ensures HeapOk(q) && multiset(q) == multiset(q0)
  {
    hide Less;
    q := q0;
    var k := |q| / 2;
    while k > 0
      invariant 0 <= k && |q| == |q0| && multiset(q) == multiset(q0) && HeapFrom(q, k)
    {
      k := k - 1;
      q := Down(q, k);
    }
    HeapFromZero(q);
  }
}
