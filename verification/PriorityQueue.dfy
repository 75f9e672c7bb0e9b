/**
 * The priority task queue: a binary heap in the slice `tasks`, ordered by priority and then by the time of creation,
 * with the sifting of Go's container/heap written out.
 */
module PriorityQueue {

  datatype Option<T> = None | Some(value: T)

  datatype Task = Task(id: int, priority: int, createdAt: int)

  /** The task is to be taken first: a lower priority number, or the same and created earlier. */
  predicate Before(a: Task, b: Task) {
    if a.priority != b.priority then a.priority < b.priority else a.createdAt < b.createdAt
  }

  function Parent(k: nat): nat {
    if k == 0 then 0 else (k - 1) / 2
  }

  /** The task at k is not to be taken before the one at its parent. */
  predicate Ordered(s: seq<Task>, k: nat)
    requires 0 < k < |s|
  {
    !Before(s[k], s[Parent(k)])
  }

  ghost predicate IsHeap(s: seq<Task>, n: nat)
    requires n <= |s|
  {
    forall k :: 0 < k < n ==> Ordered(s, k)
  }

  /** A heap but for the task at j, which may belong further up. */
  ghost predicate IsHeapBelow(s: seq<Task>, j: nat)
    requires j < |s|
  {
    && (forall k :: 0 < k < |s| && k != j ==> Ordered(s, k))
    && (forall k :: 0 < k < |s| && j > 0 && Parent(k) == j ==> !Before(s[k], s[Parent(j)]))
  }

  /** A heap of n tasks but for the one at i, which may belong further down. */
  ghost predicate IsHeapAbove(s: seq<Task>, n: nat, i: nat)
    requires n <= |s|
  {
    && (forall k :: 0 < k < n && Parent(k) != i ==> Ordered(s, k))
    && (forall k :: 0 < k < n && i > 0 && Parent(k) == i && i < n ==> !Before(s[k], s[Parent(i)]))
  }

  function Swapped(s: seq<Task>, i: nat, j: nat): seq<Task>
    requires i < |s| && j < |s|
  {
    s[i := s[j]][j := s[i]]
  }

  /** The root of a heap is to be taken no later than any other task. */
  lemma {:induction false} RootIsFirst(s: seq<Task>, n: nat, k: nat)
    requires n <= |s| && IsHeap(s, n) && k < n
    ensures !Before(s[k], s[0])
  {
    if k > 0 {
      assert Ordered(s, k);
      RootIsFirst(s, n, Parent(k));
    }
  }

  /** One swap of the way up. */
  lemma UpStep(s: seq<Task>, j: nat)
    requires 0 < j < |s| && IsHeapBelow(s, j) && Before(s[j], s[Parent(j)])
    ensures IsHeapBelow(Swapped(s, Parent(j), j), Parent(j))
  {
    var i := Parent(j);
    var r := Swapped(s, i, j);
    forall k | 0 < k < |s| && k != i ensures Ordered(r, k) {
      if k != j { assert Ordered(s, k); }
    }
    forall k | 0 < k < |s| && i > 0 && Parent(k) == i ensures !Before(r[k], r[Parent(i)]) {
      assert Ordered(s, i);
      if k != j { assert Ordered(s, k); }
    }
  }

  /** One swap of the way down, with the child that is to be taken first. */
  lemma DownStep(s: seq<Task>, n: nat, i: nat, j: nat)
    requires n <= |s| && 0 < j < n && Parent(j) == i && IsHeapAbove(s, n, i) && Before(s[j], s[i])
    requires forall k :: 0 < k < n && Parent(k) == i ==> !Before(s[k], s[j])
    ensures IsHeapAbove(Swapped(s, i, j), n, j)
  {
    var r := Swapped(s, i, j);
    forall k | 0 < k < n && Parent(k) != j ensures Ordered(r, k) {
      if k != i && Parent(k) != i { assert Ordered(s, k); }
    }
    forall k | 0 < k < n && Parent(k) == j ensures !Before(r[k], r[Parent(j)]) {
      assert Ordered(s, k);
    }
  }

  lemma DownDone(s: seq<Task>, n: nat, i: nat)
    requires n <= |s| && IsHeapAbove(s, n, i)
    requires forall k :: 0 < k < n && Parent(k) == i ==> !Before(s[k], s[i])
    ensures IsHeap(s, n)
  {
    forall k | 0 < k < n ensures Ordered(s, k) {
      if Parent(k) == i { assert !Before(s[k], s[i]); }
    }
  }

  /** Of the one or two children that down compares, it goes on with one to be taken first. */
  lemma FirstChild(s: seq<Task>, n: nat, i: nat, j: nat)
    requires n <= |s| && 2 * i + 1 < n
    requires j == if 2 * i + 2 < n && Before(s[2 * i + 2], s[2 * i + 1]) then 2 * i + 2 else 2 * i + 1
    ensures Parent(j) == i && forall k :: 0 < k < n && Parent(k) == i ==> !Before(s[k], s[j])
  {
    forall k | 0 < k < n && Parent(k) == i ensures !Before(s[k], s[j]) {
    }
  }

  class PriorityTaskQueue {
    var tasks: seq<Task>
    var closed: bool

    ghost predicate Valid()
      reads this
    {
      IsHeap(tasks, |tasks|)
    }

    constructor ()
      ensures Valid() && tasks == [] && !closed
    {
      tasks, closed := [], false;
    }

    method Swap(i: nat, j: nat)
      requires i < |tasks| && j < |tasks|
      modifies this`tasks
      ensures tasks == Swapped(old(tasks), i, j) && multiset(tasks) == multiset(old(tasks))
    {
      tasks := tasks[i := tasks[j]][j := tasks[i]];
    }

    /** up of container/heap. */
    method Up(j0: nat)
      requires j0 < |tasks| && IsHeapBelow(tasks, j0)
      modifies this`tasks
      ensures Valid() && multiset(tasks) == multiset(old(tasks))
    {
      var j: nat := j0;
      while true
        invariant j < |tasks| && IsHeapBelow(tasks, j) && multiset(tasks) == multiset(old(tasks))
        decreases j
      {
        var i := Parent(j);
        if i == j || !Before(tasks[j], tasks[i]) { break; }
        UpStep(tasks, j);
        Swap(i, j);
        j := i;
      }
    }

    /** down of container/heap, among the first n tasks. */
    method Down(i0: nat, n: nat)
      requires n <= |tasks| && IsHeapAbove(tasks, n, i0)
      modifies this`tasks
      ensures |tasks| == |old(tasks)| && IsHeap(tasks, n) && multiset(tasks) == multiset(old(tasks))
      ensures tasks[n..] == old(tasks)[n..]
    {
      var i: nat := i0;
      while true
        invariant |tasks| == |old(tasks)| && IsHeapAbove(tasks, n, i) && multiset(tasks) == multiset(old(tasks))
        invariant tasks[n..] == old(tasks)[n..]
        decreases n - i
      {
        var j1 := 2 * i + 1;
        if j1 >= n {
          break;
        }
        var j := j1;
        var j2 := j1 + 1;
        if j2 < n && Before(tasks[j2], tasks[j1]) { j := j2; }
        FirstChild(tasks, n, i, j);
        if !Before(tasks[j], tasks[i]) { break; }
        DownStep(tasks, n, i, j);
        hide IsHeapAbove, Before, Parent;
        Swap(i, j);
        i := j;
      }
      DownDone(tasks, n, i);
    }

    /** Enqueue keeps the heap and adds the task, unless the queue is closed. */
    method Enqueue(task: Task)
      requires Valid()
      modifies this`tasks
      ensures Valid()
      ensures if closed then tasks == old(tasks) else multiset(tasks) == multiset(old(tasks)) + multiset{task}
    {
      if closed { return; }
      tasks := tasks + [task];
      forall k | 0 < k < |tasks| - 1 ensures Ordered(tasks, k) {
        assert Ordered(old(tasks), k);
      }
      Up(|tasks| - 1);
    }

    /**
     * What Dequeue does once it need not wait: the queue is not empty, or it has been closed, or the caller has given up.
     * The task that it takes is a first one; a closed queue is emptied before nothing is returned.
     */
    method Dequeue(cancelled: bool) returns (task: Option<Task>)
      requires Valid() && (tasks != [] || closed || cancelled)
      modifies this`tasks
      ensures Valid()
      ensures task.None? <==> old(tasks) == []
      ensures task.None? ==> tasks == []
      ensures task.Some? ==> multiset(old(tasks)) == multiset(tasks) + multiset{task.value}
      ensures task.Some? ==> forall t :: t in old(tasks) ==> !Before(t, task.value)
    {
      if |tasks| == 0 { return None; }
      var n := |tasks| - 1;
      ghost var first := tasks[0];
      forall t | t in tasks ensures !Before(t, first) {
        var k :| 0 <= k < |tasks| && tasks[k] == t;
        RootIsFirst(tasks, |tasks|, k);
      }
      Swap(0, n);
      forall k | 0 < k < n && Parent(k) != 0 ensures Ordered(tasks, k) {
        assert Ordered(old(tasks), k);
      }
      Down(0, n);
      var last := tasks[n];
      assert tasks[n..][0] == first;
      assert tasks == tasks[..n] + [last];
      ghost var before := tasks;
      tasks := tasks[..n];
      forall k | 0 < k < |tasks| ensures Ordered(tasks, k) {
        assert Ordered(before, k);
      }
      return Some(last);
    }

    method Close()
      requires Valid()
      modifies this`closed
      ensures Valid() && closed
    {
      closed := true;
    }

    /** A worker that takes all tasks gets a sorted permutation of them. */
    method Drain() returns (taken: seq<Task>)
      requires Valid()
      modifies this`tasks
      ensures tasks == [] && multiset(taken) == multiset(old(tasks))
      ensures forall i, j :: 0 <= i < j < |taken| ==> !Before(taken[j], taken[i])
    {
      taken := [];
      while tasks != []
        invariant Valid() && multiset(taken) + multiset(tasks) == multiset(old(tasks))
        invariant forall i, j :: 0 <= i < j < |taken| ==> !Before(taken[j], taken[i])
        invariant forall i, t :: 0 <= i < |taken| && t in tasks ==> !Before(t, taken[i])
        decreases |multiset(tasks)|
      {
        ghost var before := tasks;
        var task := Dequeue(false);
        forall t | t in tasks ensures t in before {
          assert t in multiset(tasks);
          assert t in multiset(before);
        }
        assert task.value in multiset(before);
        assert task.value in before;
        taken := taken + [task.value];
      }
    }
  }
}
