/**
 The in-memory email queue of Account Center as one critical section sees it: a binary heap in the
 layout of Go's container/heap whose elements know their own position.
 */
module EmailHeap {

  datatype Message = Message(id: nat, priority: int)

  class PriorityMessage {
    const msg: Message
    const timestamp: int
    var index: int

    constructor(msg: Message, timestamp: int)
      ensures this.msg == msg && this.timestamp == timestamp && index == 0
    {
      this.msg, this.timestamp, index := msg, timestamp, 0;
    }
  }

  /** Less: a higher priority first, then the earlier timestamp. */
  predicate Before(a: PriorityMessage, b: PriorityMessage) {
    if a.msg.priority != b.msg.priority then a.msg.priority > b.msg.priority else a.timestamp < b.timestamp
  }

  lemma NotBeforeTransitive(a: PriorityMessage, b: PriorityMessage, c: PriorityMessage)
    requires !Before(b, a) && !Before(c, b)
    ensures !Before(c, a)
  {
  }

  /** (j - 1) / 2 with Go's division, which truncates toward zero. */
  function Parent(j: nat): nat {
    if j == 0 then 0 else (j - 1) / 2
  }

  predicate Ordered(q: seq<PriorityMessage>, k: int) {
    0 < k < |q| ==> !Before(q[k], q[Parent(k)])
  }

  ghost predicate IsHeap(q: seq<PriorityMessage>) {
    forall k: nat :: Ordered(q, k)
  }

  /** Nothing in the queue is before its root. */
  lemma {:induction false} RootIsFirst(q: seq<PriorityMessage>, k: nat)
    requires IsHeap(q) && k < |q|
    ensures !Before(q[k], q[0])
    decreases k
  {
    if k > 0 {
      RootIsFirst(q, Parent(k));
      assert Ordered(q, k);
      NotBeforeTransitive(q[0], q[Parent(k)], q[k]);
    }
  }

  function Swapped<T>(q: seq<T>, i: nat, j: nat): (r: seq<T>)
    requires i < |q| && j < |q|
    ensures |r| == |q| && multiset(r) == multiset(q)
  {
    q[i := q[j]][j := q[i]]
  }

  // ---------- Sifting, on the sequence ----------

  /** Everything is ordered except that the element at j may belong further up. */
  predicate OrderedAbove(q: seq<PriorityMessage>, j: nat, k: nat) {
    && (k != j ==> Ordered(q, k))
    && (0 < j && 0 < k < |q| && Parent(k) == j ==> !Before(q[k], q[Parent(j)]))
  }

  ghost predicate HeapButUp(q: seq<PriorityMessage>, j: nat) {
    j < |q| && forall k: nat :: OrderedAbove(q, j, k)
  }

  /** Everything is ordered except that the element at i may belong further down. */
  predicate OrderedBelow(q: seq<PriorityMessage>, i: nat, k: nat) {
    && (Parent(k) != i ==> Ordered(q, k))
    && (0 < i && 0 < k < |q| && Parent(k) == i ==> !Before(q[k], q[Parent(i)]))
  }

  ghost predicate HeapButDown(q: seq<PriorityMessage>, i: nat) {
    forall k: nat :: OrderedBelow(q, i, k)
  }

  lemma SiftUpStep(q: seq<PriorityMessage>, j: nat)
    requires HeapButUp(q, j) && j > 0 && Before(q[j], q[Parent(j)])
    ensures HeapButUp(Swapped(q, Parent(j), j), Parent(j))
  {
    var i := Parent(j);
    var r := Swapped(q, i, j);
    forall k: nat ensures OrderedAbove(r, i, k) {
      assert OrderedAbove(q, j, k) && OrderedAbove(q, j, i);
    }
  }

  lemma SiftUpDone(q: seq<PriorityMessage>, j: nat)
    requires HeapButUp(q, j) && (j == 0 || !Before(q[j], q[Parent(j)]))
    ensures IsHeap(q)
  {
    forall k: nat ensures Ordered(q, k) { assert OrderedAbove(q, j, k); }
  }

  /** c is a child of i, and no child of i is before it. */
  ghost predicate FirstChild(q: seq<PriorityMessage>, i: nat, c: nat) {
    && 0 < c < |q| && Parent(c) == i
    && forall k: nat :: 0 < k < |q| && Parent(k) == i ==> !Before(q[k], q[c])
  }

  lemma ChildPicked(q: seq<PriorityMessage>, i: nat, c: nat)
    requires c < |q| && (c == 2 * i + 1 || c == 2 * i + 2)
    requires 2 * i + 2 < |q| ==> !Before(q[4 * i + 3 - c], q[c])
    ensures FirstChild(q, i, c)
  {
    forall k: nat | 0 < k < |q| && Parent(k) == i ensures !Before(q[k], q[c]) {
      assert k == 2 * i + 1 || k == 2 * i + 2;
    }
  }

  lemma SiftDownStep(q: seq<PriorityMessage>, i: nat, c: nat)
    requires HeapButDown(q, i) && FirstChild(q, i, c) && Before(q[c], q[i])
    ensures HeapButDown(Swapped(q, i, c), c)
  {
    var r := Swapped(q, i, c);
    forall k: nat ensures OrderedBelow(r, c, k) {
      assert OrderedBelow(q, i, k) && OrderedBelow(q, i, c);
    }
  }

  /** The element at i is in order with its children, if it has any. */
  ghost predicate Settled(q: seq<PriorityMessage>, i: nat) {
    forall k: nat :: 0 < k < |q| && Parent(k) == i ==> !Before(q[k], q[i])
  }

  lemma LeafIsSettled(q: seq<PriorityMessage>, i: nat)
    requires 2 * i + 1 >= |q|
    ensures Settled(q, i)
  {
  }

  lemma SettledByFirstChild(q: seq<PriorityMessage>, i: nat, c: nat)
    requires i < |q| && FirstChild(q, i, c) && !Before(q[c], q[i])
    ensures Settled(q, i)
  {
    forall k: nat | 0 < k < |q| && Parent(k) == i ensures !Before(q[k], q[i]) {
      NotBeforeTransitive(q[i], q[c], q[k]);
    }
  }

  lemma SiftDownDone(q: seq<PriorityMessage>, i: nat)
    requires HeapButDown(q, i) && Settled(q, i)
    ensures IsHeap(q)
  {
    forall k: nat ensures Ordered(q, k) { assert OrderedBelow(q, i, k); }
  }

  /** The last element moved to the root: only the root may be out of order. */
  lemma RootReplaced(q: seq<PriorityMessage>)
    requires IsHeap(q) && |q| > 0
    ensures HeapButDown(Swapped(q, 0, |q| - 1)[..|q| - 1], 0)
  {
    var r := Swapped(q, 0, |q| - 1)[..|q| - 1];
    forall k: nat ensures OrderedBelow(r, 0, k) { assert Ordered(q, k); }
  }

  lemma Appended(q: seq<PriorityMessage>, x: PriorityMessage)
    requires IsHeap(q)
    ensures HeapButUp(q + [x], |q|)
  {
    forall k: nat ensures OrderedAbove(q + [x], |q|, k) { assert Ordered(q, k); }
  }

  lemma SameMembers(q: seq<PriorityMessage>, r: seq<PriorityMessage>)
    requires multiset(q) == multiset(r)
    ensures forall m :: m in q <==> m in r
  {
    forall m ensures m in q <==> m in r { assert m in multiset(q) <==> m in multiset(r); }
  }

  class PriorityQueue {
    var queue: seq<PriorityMessage>

    /** The positions the messages know are the positions they have. */
    ghost predicate Indexed()
      reads this, queue
    {
      forall k :: 0 <= k < |queue| ==> queue[k].index == k
    }

    ghost predicate Valid()
      reads this, queue
    {
      Indexed() && IsHeap(queue)
    }

    ghost function Items(): set<PriorityMessage>
      reads this
    {
      set m | m in queue
    }

    constructor()
      ensures Valid() && queue == []
    {
      queue := [];
    }

    method Swap(i: nat, j: nat)
      requires Indexed() && i < |queue| && j < |queue|
      modifies this, {queue[i], queue[j]}
      ensures Indexed() && queue == Swapped(old(queue), i, j)
    {
      queue := Swapped(queue, i, j);
      queue[i].index := i;
      queue[j].index := j;
    }

    /** container/heap.up. */
    method Up(start: nat)
      requires Indexed() && HeapButUp(queue, start)
      modifies this, queue
      ensures Valid() && multiset(queue) == multiset(old(queue))
    {
      var j := start;
      while true
        invariant multiset(queue) == multiset(old(queue)) && forall m :: m in queue <==> m in old(queue)
        invariant Indexed() && HeapButUp(queue, j)
        decreases j
      {
        var i := Parent(j);
        if i == j || !Before(queue[j], queue[i]) { break; }
        SiftUpStep(queue, j);
        assert queue[i] in queue && queue[j] in queue;
        SameMembers(queue, Swapped(queue, i, j));
        Swap(i, j);
        j := i;
      }
      SiftUpDone(queue, j);
    }

    /** container/heap.Push: append, then sift up. */
    method Push(x: PriorityMessage)
      requires Valid() && x !in queue
      modifies this, queue, x
      ensures Valid() && multiset(queue) == multiset(old(queue)) + multiset{x}
    {
      x.index := |queue|;
      Appended(queue, x);
      queue := queue + [x];
      Up(|queue| - 1);
    }

    /** The child of i that comes first. */
    method FirstChildOf(i: nat) returns (j: nat)
      requires 2 * i + 1 < |queue|
      ensures FirstChild(queue, i, j)
    {
      j := 2 * i + 1;
      var right := j + 1;
      if right < |queue| && Before(queue[right], queue[j]) { j := right; }
      ChildPicked(queue, i, j);
    }

    /** container/heap.down from the root. */
    method Down()
      requires Indexed() && HeapButDown(queue, 0)
      modifies this, queue
      ensures Valid() && multiset(queue) == multiset(old(queue))
    {
      var i := 0;
      while true
        invariant multiset(queue) == multiset(old(queue)) && forall m :: m in queue <==> m in old(queue)
        invariant Indexed() && HeapButDown(queue, i)
        decreases |queue| - i
      {
        var left := 2 * i + 1;
        if left >= |queue| { LeafIsSettled(queue, i); break; }
        var j := FirstChildOf(i);
        if !Before(queue[j], queue[i]) { SettledByFirstChild(queue, i, j); break; }
        SiftDownStep(queue, i, j);
        assert queue[i] in queue && queue[j] in queue;
        SameMembers(queue, Swapped(queue, i, j));
        Swap(i, j);
        i := j;
      }
      SiftDownDone(queue, i);
    }

    /** container/heap.Pop: nothing that stays has a higher priority, or the same and an earlier timestamp. */
    method Pop() returns (item: PriorityMessage)
      requires Valid() && |queue| > 0
      modifies this, Items()
      ensures Valid() && multiset(old(queue)) == multiset(queue) + multiset{item}
      ensures forall m :: m in queue ==>
        item.msg.priority > m.msg.priority || (item.msg.priority == m.msg.priority && item.timestamp <= m.timestamp)
      ensures item.index == -1
    {
      RootIsFirstOf(queue);
      RootReplaced(queue);
      ghost var before := queue;
      var n := |queue| - 1;
      Swap(0, n);
      SameMembers(queue, before);
      item := queue[n];
      LastDropped(queue);
      item.index := -1;
      queue := queue[..n];
      ghost var rest := queue;
      assert forall m :: m in rest ==> m in before;
      Down();
      SameMembers(queue, rest);
    }
  }

  lemma RootIsFirstOf(q: seq<PriorityMessage>)
    requires IsHeap(q) && |q| > 0
    ensures forall m :: m in q ==> !Before(m, q[0])
  {
    forall m | m in q ensures !Before(m, q[0]) {
      var k: nat :| k < |q| && q[k] == m;
      RootIsFirst(q, k);
    }
  }

  lemma LastDropped(q: seq<PriorityMessage>)
    requires |q| > 0
    ensures multiset(q) == multiset(q[..|q| - 1]) + multiset{q[|q| - 1]}
  {
    assert q == q[..|q| - 1] + [q[|q| - 1]];
  }

}
