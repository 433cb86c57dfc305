/** The run queue as it is stored: a doubly linked list through the tasklets, headed by the main
    tasklet, with a cached tail and a cached length. */
module RunQueues {
  import opened Flags
  import opened Lists
  import opened Scheduler
  import opened TaskletNodes

  function Next(q: seq<TaskletNode>, i: int): TaskletNode?
    requires 0 <= i < |q|
  {
    if i + 1 < |q| then q[i + 1] else null
  }

  function Prev(q: seq<TaskletNode>, i: int): TaskletNode?
    requires 0 <= i < |q|
  {
    if i > 0 then q[i - 1] else null
  }

  ghost predicate LinkedAt(q: seq<TaskletNode>, i: int)
    requires 0 <= i < |q|
    reads q[i]
  {
    q[i].next == Next(q, i) && q[i].prev == Prev(q, i) && q[i].scheduled
  }

  ghost predicate Linked(q: seq<TaskletNode>)
    reads q
  {
    forall i :: 0 <= i < |q| ==> LinkedAt(q, i)
  }

  /** Linked, but for the two links between the nodes at `k` and `k + 1`. */
  ghost predicate LinkedButGap(q: seq<TaskletNode>, i: int, k: int)
    requires 0 <= i < |q|
    reads q[i]
  {
    (i != k ==> q[i].next == Next(q, i)) && (i != k + 1 ==> q[i].prev == Prev(q, i)) && q[i].scheduled
  }

  /** Linked, but for the two links to the node at `k`. */
  ghost predicate LinkedButHole(q: seq<TaskletNode>, i: int, k: int)
    requires 0 <= i < |q|
    reads q[i]
  {
    (i != k - 1 ==> q[i].next == Next(q, i)) && (i != k + 1 ==> q[i].prev == Prev(q, i)) && q[i].scheduled
  }

  lemma QueuedIsScheduled(q: seq<TaskletNode>, t: TaskletNode)
    requires Linked(q)
    ensures t in q ==> t.scheduled
  {
    if t in q {
      assert LinkedAt(q, IndexOf(q, t));
    }
  }

  /** `t` has been linked in behind the node at `k`. */
  lemma LinkedIn(q: seq<TaskletNode>, k: nat, t: TaskletNode)
    requires Distinct(q) && k < |q| && t !in q && t.scheduled
    requires forall i :: 0 <= i < |q| ==> LinkedButGap(q, i, k)
    requires q[k].next == t && t.prev == q[k] && t.next == Next(q, k)
    requires k + 1 < |q| ==> q[k + 1].prev == t
    ensures Linked(q[..k + 1] + [t] + q[k + 1..])
  {
    var q' := q[..k + 1] + [t] + q[k + 1..];
    forall i | 0 <= i < |q'|
      ensures LinkedAt(q', i)
    {
      if i <= k { assert LinkedButGap(q, i, k); }
      if i > k + 1 { assert LinkedButGap(q, i - 1, k); }
    }
  }

  /** The node at `k` has been unlinked. */
  lemma LinkedOut(q: seq<TaskletNode>, k: nat)
    requires Distinct(q) && 0 < k < |q|
    requires forall i :: 0 <= i < |q| && i != k ==> LinkedButHole(q, i, k)
    requires q[k - 1].next == Next(q, k)
    requires k + 1 < |q| ==> q[k + 1].prev == q[k - 1]
    ensures Linked(q[..k] + q[k + 1..])
  {
    var q' := q[..k] + q[k + 1..];
    forall i | 0 <= i < |q'|
      ensures LinkedAt(q', i)
    {
      assert LinkedButHole(q, if i < k then i else i + 1, k);
    }
  }

  lemma InsertedDistinct(q: seq<TaskletNode>, k: nat, t: TaskletNode)
    requires Distinct(q) && k < |q| && t !in q
    ensures Distinct(q[..k + 1] + [t] + q[k + 1..])
    ensures forall x :: x in q ==> x in q[..k + 1] + [t] + q[k + 1..]
  {
    var r := q[..k + 1] + [t] + q[k + 1..];
    assert forall i :: 0 <= i < |r| ==> r[i] == if i <= k then q[i] else if i == k + 1 then t else q[i - 1];
    forall x | x in q ensures x in r {
      var i := IndexOf(q, x);
      assert r[if i <= k then i else i + 1] == x;
    }
  }

  lemma RemovedDistinct(q: seq<TaskletNode>, k: nat)
    requires Distinct(q) && k < |q|
    ensures Distinct(q[..k] + q[k + 1..])
    ensures forall x :: x in q && x != q[k] ==> x in q[..k] + q[k + 1..]
  {
    var r := q[..k] + q[k + 1..];
    assert forall i :: 0 <= i < |r| ==> r[i] == q[if i < k then i else i + 1];
    forall x | x in q && x != q[k] ensures x in r {
      var i := IndexOf(q, x);
      assert r[if i < k then i else i - 1] == x;
    }
  }

  /** Taking out the node behind the head, inserting `t` behind the head and then that node again. */
  lemma FrontOrder(q: seq<TaskletNode>, t: TaskletNode)
    requires Distinct(q) && |q| >= 2 && t !in q
    ensures q[1] in q && q[0] in Without(q, q[1])
    ensures Without(q, q[1]) == [q[0]] + q[2..]
    ensures q[0] in [q[0], t] + q[2..]
    ensures InsertAfter([q[0]] + q[2..], q[0], t) == [q[0], t] + q[2..]
    ensures InsertAfter([q[0], t] + q[2..], q[0], q[1]) == q[..2] + [t] + q[2..]
    ensures q[1] !in [q[0], t] + q[2..]
  {
    WithoutAt(q, 1);
    assert ([q[0]] + q[2..])[0] == q[0] && ([q[0], t] + q[2..])[0] == q[0];
  }

  class RunQueue {
    const main: TaskletNode
    var current: TaskletNode
    var tail: TaskletNode
    var count: int
    ghost var queue: seq<TaskletNode>

    ghost predicate Shape()
      reads this, queue
    {
      && queue != [] && queue[0] == main && Distinct(queue) && Linked(queue)
      && count == |queue| - 1
    }

    ghost predicate Valid()
      reads this, queue
    {
      Shape() && tail == queue[|queue| - 1]
    }

    constructor (m: TaskletNode)
      requires m.Detached()
      modifies m
      ensures Valid() && queue == [m] && main == m == current
    {
      main, current, tail, count := m, m, m, 0;
      queue := [m];
      new;
      m.scheduled := true;
    }

    /** Append, or ask for rescheduling if the tasklet is queued already. */
    method InsertTasklet(t: TaskletNode)
      requires Valid() && (t in queue || t.Detached())
      modifies this, t`next, t`prev, t`scheduled, t`blocked, t`reschedule, tail`next
      ensures Valid() && current == old(current)
      ensures if old(t in queue) then queue == old(queue) && t.reschedule == Back && t.blocked == old(t.blocked)
              else queue == old(queue) + [t] && t.reschedule == old(t.reschedule) && !t.blocked
    {
      QueuedIsScheduled(queue, t);
      if !t.scheduled {
        ghost var k := |queue| - 1;
        tail.next := t;
        t.prev := tail;
        t.next := null;
        tail := t;
        t.blocked := false;
        t.scheduled := true;
        count := count + 1;
        forall i | 0 <= i < |queue| ensures LinkedButGap(queue, i, k) { assert old(LinkedAt(queue, i)); }
        LinkedIn(queue, k, t);
        InsertedDistinct(queue, k, t);
        assert queue[..k + 1] + [t] + queue[k + 1..] == queue + [t];
        queue := queue + [t];
      } else {
        t.reschedule := Back;
        forall i | 0 <= i < |queue| ensures LinkedAt(queue, i) { assert old(LinkedAt(queue, i)); }
      }
    }

    /** A detached tasklet is linked in behind the current one, which stands at `k`. */
    method LinkBehindCurrent(t: TaskletNode, ghost k: nat)
      requires Valid() && t.Detached() && t !in queue && k < |queue| && queue[k] == current
      modifies this, t`next, t`prev, t`scheduled, t`blocked, queue`next, queue`prev
      ensures Valid() && current == old(current) && queue == old(queue)[..k + 1] + [t] + old(queue)[k + 1..]
      ensures !t.blocked
    {
      assert LinkedAt(queue, k);
      t.next := current.next;
      t.prev := current;
      current.next := t;
      if t.next != null {
        t.next.prev := t;
      }
      if t.prev == tail {
        tail := t;
      }
      t.blocked := false;
      t.scheduled := true;
      count := count + 1;
      forall i | 0 <= i < |queue| ensures LinkedButGap(queue, i, k) { assert old(LinkedAt(queue, i)); }
      LinkedIn(queue, k, t);
      InsertedDistinct(queue, k, t);
      queue := queue[..k + 1] + [t] + queue[k + 1..];
    }

    /** Insertion right behind the current tasklet, or the same request for rescheduling. */
    method InsertTaskletToRunNext(t: TaskletNode)
      requires Valid() && (t in queue || t.Detached()) && current in queue
      modifies this, t`next, t`prev, t`scheduled, t`blocked, t`reschedule, queue`next, queue`prev
      ensures Valid() && current == old(current)
      ensures if old(t in queue) then queue == old(queue) && t.reschedule == Back && t.blocked == old(t.blocked)
              else queue == InsertAfter(old(queue), current, t) && t.reschedule == old(t.reschedule) && !t.blocked
    {
      QueuedIsScheduled(queue, t);
      if t.scheduled {
        t.reschedule := Back;
        forall i | 0 <= i < |queue| ensures LinkedAt(queue, i) { assert old(LinkedAt(queue, i)); }
        return;
      }
      LinkBehindCurrent(t, IndexOf(queue, current));
    }

    /** The node at `k` is bypassed. The cached tail may have been moved back already. */
    method Unlink(t: TaskletNode, ghost k: nat)
      requires Shape() && 0 < k < |queue| && queue[k] == t
      requires tail == queue[|queue| - 1] || (t == queue[|queue| - 1] && tail == t.prev)
      modifies this, t`next, t`prev, t`scheduled, queue`next, queue`prev
      ensures Valid() && current == old(current) && t.Detached()
      ensures queue == old(queue)[..k] + old(queue)[k + 1..]
    {
      assert LinkedAt(queue, k);
      var (previous, next) := (t.prev, t.next);
      if previous != null {
        previous.next := next;
      }
      if next != null {
        next.prev := previous;
      } else {
        tail := previous;
      }
      count := count - 1;
      t.next := null;
      t.prev := null;
      t.scheduled := false;
      forall i | 0 <= i < |queue| && i != k ensures LinkedButHole(queue, i, k) { assert old(LinkedAt(queue, i)); }
      LinkedOut(queue, k);
      RemovedDistinct(queue, k);
      queue := queue[..k] + queue[k + 1..];
    }

    /** Deletion; a tasklet that is not queued has equal links and is refused. */
    method RemoveTasklet(t: TaskletNode) returns (removed: bool)
      requires Shape() && (t in queue || t.Detached()) && t != main
      requires tail == queue[|queue| - 1] || (t == queue[|queue| - 1] && tail == t.prev)
      modifies this, t`next, t`prev, t`scheduled, queue`next, queue`prev
      ensures Valid() && current == old(current) && t.Detached()
      ensures removed <==> t in old(queue)
      ensures queue == Without(old(queue), t)
    {
      QueuedIsScheduled(queue, t);
      ghost var k := if t in queue then IndexOf(queue, t) else 0;
      assert t in queue ==> LinkedAt(queue, k);
      if t.prev == t.next {
        return false;
      }
      Unlink(t, k);
      return true;
    }

    method ClearReschedule(t: TaskletNode)
      requires Valid()
      modifies t`reschedule
      ensures Valid() && t.reschedule == Stay
    {
      t.reschedule := Stay;
      forall i | 0 <= i < |queue| ensures LinkedAt(queue, i) { assert old(LinkedAt(queue, i)); }
    }

    /** The front tasklet is taken out and put back so that `t` comes right behind it. */
    method InsertBehindFront(t: TaskletNode)
      requires Valid() && current == main && t !in queue && t.Detached() && |queue| >= 2
      modifies this, queue`next, queue`prev, queue`scheduled, queue`blocked, queue`reschedule,
               t`next, t`prev, t`scheduled, t`blocked, t`reschedule
      ensures Valid() && current == main && queue == old(queue)[..2] + [t] + old(queue)[2..]
    {
      assert LinkedAt(queue, 0);
      ghost var q := queue;
      FrontOrder(q, t);
      var front := current.next;
      var removed := RemoveTasklet(front);
      assert queue == [main] + q[2..] && current in queue;
      InsertTaskletToRunNext(t);
      assert queue == [main, t] + q[2..] && current in queue;
      InsertTaskletToRunNext(front);
    }

    /** What the loop of `Run` does to the queue when the turn of `t` has ended. */
    method EndTurn(t: TaskletNode)
      requires Valid() && current == t && t in queue && t != main
      requires t.reschedule == FrontPlusOne ==> |queue| >= 3
      modifies this, queue`next, queue`prev, queue`scheduled, queue`blocked, queue`reschedule
      ensures Valid() && current == main && queue == AfterTurn(old(queue), t, old(t.reschedule))
      ensures t.reschedule == Stay
    {
      ghost var k := IndexOf(queue, t);
      assert LinkedAt(queue, k);
      current := main;
      if t.next == null {
        tail := t.prev;
      }
      var removed := RemoveTasklet(t);
      assert forall x :: x in queue ==> x in old(queue);
      if t.reschedule == Back {
        InsertTasklet(t);
        ClearReschedule(t);
      } else if t.reschedule == FrontPlusOne {
        InsertBehindFront(t);
        ClearReschedule(t);
      }
    }

    /** The cached count and the one found by walking the links, both with the main tasklet. */
    method GetCachedTaskletCount() returns (n: int)
      requires Valid()
      ensures n == |queue|
    {
      return count + 1;
    }

    method GetCalculatedTaskletCount() returns (n: int)
      requires Valid()
      ensures n == |queue|
    {
      n := 0;
      var node := main;
      while node.next != null
        invariant 0 <= n < |queue| && node == queue[n]
        decreases |queue| - n
      {
        assert LinkedAt(queue, n);
        n := n + 1;
        node := node.next;
      }
      assert LinkedAt(queue, n);
      return n + 1;
    }
  }
}
