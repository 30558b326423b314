/**
 The bodies of src/gq/upthread.c on the linked lists themselves: the ready queue, the active queue and the queues
 of mutexes and condition variables, all through the one `next` link of a thread.
 */
module GqObject {
  import opened TailQueue
  import opened ThreadState

  /** A thread control block; `data` is its state. */
  type Upthread = Link<UState>

  /** q without its first x. */
  ghost function Dropped(q: seq<Upthread>, x: Upthread): seq<Upthread> {
    if q == [] then [] else if q[0] == x then q[1..] else [q[0]] + Dropped(q[1..], x)
  }

  lemma {:induction false} DroppedAt(q: seq<Upthread>, k: nat, x: Upthread)
    requires NoDupLinks(q) && k < |q| && q[k] == x
    ensures Dropped(q, x) == q[..k] + q[k + 1..]
  {
    if k > 0 {
      assert NoDupLinks(q[1..]);
      DroppedAt(q[1..], k - 1, x);
      assert [q[0]] + q[1..][..k - 1] == q[..k];
      assert q[1..][k..] == q[k + 1..];
    }
  }

  class Scheduler {
    const readyQueue: TailQ<UState>
    const activeQueue: TailQ<UState>
    var threadsReady: int
    var threadsActive: int

    ghost predicate Valid()
      reads this, readyQueue, activeQueue, readyQueue.elems`next, activeQueue.elems`next
    {
      && Linked()
      && threadsReady == |readyQueue.elems| && threadsActive == |activeQueue.elems|
    }

    /** u's link is in neither queue. */
    ghost predicate IsFree(u: Upthread)
      reads readyQueue, activeQueue
    {
      u !in readyQueue.elems && u !in activeQueue.elems
    }

    /** `upthread_lib_init` (257-267) with thread 0. */
    constructor (t: Upthread)
      modifies t
      ensures Valid() && fresh(readyQueue) && fresh(activeQueue)
      ensures readyQueue.elems == [] && activeQueue.elems == [t] && t.data == Running
    {
      readyQueue := new TailQ<UState>();
      activeQueue := new TailQ<UState>();
      threadsReady, threadsActive := 0, 0;
      new;
      t.data := Running;
      threadsActive := threadsActive + 1;
      activeQueue.InsertTail(t);
    }

    /** One round of `pth_sched_entry` (70-87): the oldest ready thread becomes active. */
    method SchedEntry() returns (newThread: Link?<UState>)
      requires Valid()
      modifies this, readyQueue, activeQueue, readyQueue.elems`next, activeQueue.elems`next
      ensures Valid()
      ensures newThread == null <==> old(readyQueue.elems) == []
      ensures newThread == null ==>
                readyQueue.elems == old(readyQueue.elems) && activeQueue.elems == old(activeQueue.elems)
      ensures newThread != null ==>
                && newThread == old(readyQueue.elems)[0] && readyQueue.elems == old(readyQueue.elems)[1..]
                && activeQueue.elems == old(activeQueue.elems) + [newThread]
    {
      newThread := readyQueue.first;
      if newThread != null {
        TakeFromReady(newThread);
        InsertActive(newThread);
        threadsActive := threadsActive + 1;
        threadsReady := threadsReady - 1;
      }
    }

    ghost predicate Linked()
      reads this, readyQueue, activeQueue, readyQueue.elems`next, activeQueue.elems`next
    {
      && readyQueue != activeQueue && readyQueue.Valid() && activeQueue.Valid()
      && Apart(readyQueue.elems, activeQueue.elems)
    }

    /** Line 74. */
    method TakeFromReady(u: Upthread)
      requires Linked() && readyQueue.first == u
      modifies readyQueue, readyQueue.elems`next
      ensures Linked() && IsFree(u)
      ensures old(readyQueue.elems) == [u] + readyQueue.elems && activeQueue.elems == old(activeQueue.elems)
    {
      assert u == readyQueue.elems[0];
      assert forall i | 0 <= i < |activeQueue.elems| :: activeQueue.elems[i] !in readyQueue.elems;
      ghost var k := readyQueue.Remove(u);
      StaysValid(activeQueue);
    }

    /** Line 75. */
    method InsertActive(u: Upthread)
      requires Linked() && IsFree(u)
      modifies activeQueue, activeQueue.elems`next, u`next
      ensures Linked()
      ensures readyQueue.elems == old(readyQueue.elems) && activeQueue.elems == old(activeQueue.elems) + [u]
    {
      assert forall i | 0 <= i < |readyQueue.elems| ::
          readyQueue.elems[i] !in activeQueue.elems && readyQueue.elems[i] != u;
      activeQueue.InsertTail(u);
      StaysValid(readyQueue);
    }

    /** `pth_thread_runnable` (108-135); `odd` tells whether the switch reached its default branch. */
    method Runnable(u: Upthread) returns (odd: bool)
      requires Valid() && IsFree(u)
      modifies this`threadsReady, readyQueue, readyQueue.elems`next, u
      ensures Valid() && u.data == UState.Runnable
      ensures odd == !IsAccepted(old(u.data))
      ensures readyQueue.elems == old(readyQueue.elems) + [u] && activeQueue.elems == old(activeQueue.elems)
    {
      odd := !IsAccepted(u.data);
      u.data := UState.Runnable;
      assert forall i | 0 <= i < |activeQueue.elems| ::
          activeQueue.elems[i] !in readyQueue.elems && activeQueue.elems[i] != u;
      readyQueue.InsertTail(u);
      StaysValid(activeQueue);
      threadsReady := threadsReady + 1;
    }

    /** Lines 330 and 455. */
    method RemoveActive(u: Upthread)
      requires Linked() && u in activeQueue.elems
      modifies activeQueue, activeQueue.elems`next
      ensures Linked() && IsFree(u)
      ensures activeQueue.elems == Dropped(old(activeQueue.elems), u) && readyQueue.elems == old(readyQueue.elems)
      ensures |activeQueue.elems| == |old(activeQueue.elems)| - 1
    {
      assert forall i | 0 <= i < |readyQueue.elems| :: readyQueue.elems[i] in readyQueue.elems;
      ghost var k := activeQueue.Remove(u);
      StaysValid(readyQueue);
      DroppedAt(old(activeQueue.elems), k, u);
      DroppedFrom(old(activeQueue.elems), u);
    }

    /** `__upthread_generic_yield` (325-332). */
    method GenericYield(u: Upthread)
      requires Valid() && u in activeQueue.elems
      modifies this`threadsActive, activeQueue, activeQueue.elems`next
      ensures Valid() && IsFree(u)
      ensures activeQueue.elems == Dropped(old(activeQueue.elems), u) && readyQueue.elems == old(readyQueue.elems)
    {
      threadsActive := threadsActive - 1;
      RemoveActive(u);
    }

    /** `pth_thread_has_blocked` (164-176). */
    method HasBlocked(u: Upthread)
      requires Valid() && u in activeQueue.elems
      modifies this`threadsActive, activeQueue, activeQueue.elems`next, u`data
      ensures Valid() && IsFree(u) && u.data == BlockedMutex
      ensures activeQueue.elems == Dropped(old(activeQueue.elems), u) && readyQueue.elems == old(readyQueue.elems)
    {
      GenericYield(u);
      u.data := BlockedMutex;
    }

    /** `__pth_yield_cb` (426-433) and, with `Paused`, `pth_thread_paused` (152-162): the thread goes from the
        active queue to the end of the ready queue. */
    method YieldCb(u: Upthread, why: UState) returns (odd: bool)
      requires Valid() && u in activeQueue.elems && (why == Yielding || why == Paused)
      modifies this, readyQueue, activeQueue, readyQueue.elems`next, activeQueue.elems`next, u
      ensures Valid() && u.data == UState.Runnable && !odd
      ensures activeQueue.elems == Dropped(old(activeQueue.elems), u)
      ensures readyQueue.elems == old(readyQueue.elems) + [u]
    {
      GenericYield(u);
      u.data := why;
      odd := Runnable(u);
    }

    /** `pth_blockon_syscall` (447-459). */
    method BlockOnSyscall(u: Upthread)
      requires Valid() && u in activeQueue.elems
      modifies this`threadsActive, activeQueue, activeQueue.elems`next, u`data
      ensures Valid() && IsFree(u) && u.data == Sysc
      ensures activeQueue.elems == Dropped(old(activeQueue.elems), u) && readyQueue.elems == old(readyQueue.elems)
    {
      u.data := Sysc;
      threadsActive := threadsActive - 1;
      RemoveActive(u);
    }

    /** The queue of a mutex or condition variable, which shares no thread with the scheduler's queues. */
    ghost predicate IsObjectQueue(q: TailQ<UState>)
      reads readyQueue, activeQueue, q, q.elems`next
    {
      && q != readyQueue && q != activeQueue && q.Valid()
      && Apart(q.elems, readyQueue.elems) && Apart(q.elems, activeQueue.elems)
    }

    method InsertObject(q: TailQ<UState>, u: Upthread)
      requires Linked() && IsObjectQueue(q) && IsFree(u) && u !in q.elems
      modifies q, q.elems`next, u`next
      ensures Linked() && IsObjectQueue(q) && q.elems == old(q.elems) + [u]
    {
      assert forall i | 0 <= i < |readyQueue.elems| :: readyQueue.elems[i] !in q.elems && readyQueue.elems[i] != u;
      assert forall i | 0 <= i < |activeQueue.elems| :: activeQueue.elems[i] !in q.elems && activeQueue.elems[i] != u;
      q.InsertTail(u);
      StaysValid(readyQueue);
      StaysValid(activeQueue);
    }

    /** The callback of a mutex (src/common/mutex.c:56-64) or a condition variable (src/common/condvar.c:37-38). */
    method BlockOn(q: TailQ<UState>, u: Upthread)
      requires Valid() && IsObjectQueue(q) && u in activeQueue.elems
      modifies this`threadsActive, activeQueue, activeQueue.elems`next, u, q, q.elems`next
      ensures Valid() && IsObjectQueue(q) && u.data == BlockedMutex
      ensures q.elems == old(q.elems) + [u]
      ensures activeQueue.elems == Dropped(old(activeQueue.elems), u) && readyQueue.elems == old(readyQueue.elems)
    {
      DroppedFrom(activeQueue.elems, u);
      assert forall i | 0 <= i < |q.elems| :: q.elems[i] !in activeQueue.elems && q.elems[i] != u;
      HasBlocked(u);
      StaysValid(q);
      InsertObject(q, u);
    }

    /** What mutex_unlock (src/common/mutex.c:120-127) and cond_signal (src/common/condvar.c:65-72) do with the
        oldest waiter. */
    method WakeFrom(q: TailQ<UState>) returns (u: Link?<UState>, odd: bool)
      requires Valid() && IsObjectQueue(q)
      modifies this`threadsReady, readyQueue, readyQueue.elems`next, q, q.elems
      ensures Valid() && IsObjectQueue(q) && activeQueue.elems == old(activeQueue.elems)
      ensures u == null <==> old(q.elems) == []
      ensures u == null ==> q.elems == old(q.elems) && readyQueue.elems == old(readyQueue.elems)
      ensures u != null ==>
                && u == old(q.elems)[0] && q.elems == old(q.elems)[1..] && u.data == UState.Runnable
                && readyQueue.elems == old(readyQueue.elems) + [u] && odd == !IsAccepted(old(q.elems[0].data))
    {
      u := q.first;
      odd := false;
      if u != null {
        assert u == q.elems[0];
        q.RemoveHead();
        label Popped:
        assert forall i | 0 <= i < |q.elems| :: q.elems[i] !in readyQueue.elems && q.elems[i] != u;
        odd := Runnable(u);
        StaysValid@Popped(q);
      }
    }
  }

  lemma {:induction false} DroppedFrom(q: seq<Upthread>, x: Upthread)
    ensures forall y | y in Dropped(q, x) :: y in q
  {
    if q != [] { DroppedFrom(q[1..], x); }
  }

  /** Why the order matters: a thread that is put into another queue while others follow it in the active queue
      cuts them off, whatever the two queues hold. */
  method ReuseBeforeRemoval(active: TailQ<UState>, q: TailQ<UState>, ghost i: nat, a: Upthread)
    requires active.Valid() && q.Valid() && active != q && Apart(active.elems, q.elems)
    requires i < |active.elems| - 1 && active.elems[i] == a
    modifies q, q.elems`next, a`next
    ensures q.Valid() && q.elems == old(q.elems) + [a]
    ensures active.elems == old(active.elems) && active.elems[i].next == null && !active.Valid()
  {
    assert a in active.elems;
    q.InsertTail(a);
    assert Successor(active.elems, i) == active.elems[i + 1];
    assert active.elems[i].next == null;
  }
}
