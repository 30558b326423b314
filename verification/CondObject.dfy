/** The condition variable in its own form, src/common/condvar.c:31-94, run without interference. */
module CondObject {
  import opened Seqs
  import opened TailQueue
  import opened MutexObject

  class Cond {
    var waitingMutex: Mutex?
    const queue: TailQ<Tid>

    constructor ()
      ensures Valid() && waitingMutex == null && queue.elems == [] && fresh(queue)
    {
      waitingMutex := null;
      queue := new TailQ<Tid>();
    }

    ghost predicate Valid()
      reads this, queue, queue.elems`next
    {
      queue.Valid()
    }
  }

  /** Line 38; the queue of the mutex is a different one. */
  method Enter(c: Cond, m: Mutex, u: Upthread)
    requires c.Valid() && u !in c.queue.elems && m.Valid()
    requires u !in m.queue.elems && c.queue != m.queue && Apart(c.queue.elems, m.queue.elems)
    modifies c.queue, c.queue.elems`next, u`next
    ensures c.Valid() && c.queue.elems == old(c.queue.elems) + [u]
    ensures m.Valid() && m.queue.elems == old(m.queue.elems)
  {
    assert forall i | 0 <= i < |m.queue.elems| :: m.queue.elems[i] !in c.queue.elems && m.queue.elems[i] != u;
    c.queue.InsertTail(u);
    StaysValid(m.queue);
  }

  /** The callback of a wait (31-40): it puts the thread into the condition queue and unlocks `waiting_mutex`;
      `woken` is the thread that the unlock makes runnable. */
  method Block(c: Cond, u: Upthread) returns (woken: Link?<Tid>)
    requires c.Valid() && u !in c.queue.elems && c.waitingMutex != null
    requires var m := c.waitingMutex;
      m.Valid() && m.locked == 1 && u !in m.queue.elems && c.queue != m.queue && Apart(c.queue.elems, m.queue.elems)
    modifies c.queue, c.queue.elems`next, u`next, c.waitingMutex, c.waitingMutex.queue
    ensures c.Valid() && c.queue.elems == old(c.queue.elems) + [u]
    ensures var m := c.waitingMutex;
      && m.Valid() && m.Held() == Holding(0, None)
      && (if woken == null then m.queue.elems == old(m.queue.elems) == []
          else old(m.queue.elems) == [woken] + m.queue.elems)
  {
    var m := c.waitingMutex;
    Enter(c, m, u);
    label Queued:
    var rc;
    rc, woken := Unlock(m);
    StaysValid@Queued(c.queue);
  }

  /** `upthread_cond_wait` (43-54) until the thread is off its vcore. */
  method WaitBlock(c: Cond?, m: Mutex?, u: Upthread) returns (rc: int, woken: Link?<Tid>)
    requires c != null ==> c.Valid() && u !in c.queue.elems
    requires m != null ==> m.Valid() && m.locked == 1 && u !in m.queue.elems
    requires c != null && m != null ==> c.queue != m.queue && Apart(c.queue.elems, m.queue.elems)
    modifies c, m, if c != null then {c.queue} else {}, if m != null then {m.queue} else {}
    modifies (if c != null then c.queue.elems else [])`next, u`next
    ensures c == null || m == null ==> rc == EINVAL && woken == null
    ensures c == null && m != null ==> unchanged(m) && unchanged(m.queue)
    ensures c != null && m == null ==> unchanged(c) && unchanged(c.queue)
    ensures c != null && m != null ==>
              && rc == 0 && c.Valid() && m.Valid() && c.waitingMutex == m
              && c.queue.elems == old(c.queue.elems) + [u] && m.Held() == Holding(0, None)
              && (if woken == null then m.queue.elems == old(m.queue.elems) == []
                  else old(m.queue.elems) == [woken] + m.queue.elems)
  {
    woken := null;
    if c == null { return EINVAL, null; }
    if m == null { return EINVAL, null; }
    c.waitingMutex := m;
    woken := Block(c, u);
    rc := 0;
  }

  /** What signal and broadcast do under the lock (65-67, 84-86). */
  method Pop(queue: TailQ<Tid>) returns (upthread: Link?<Tid>)
    requires queue.Valid()
    modifies queue
    ensures queue.Valid()
    ensures upthread == null ==> queue.elems == old(queue.elems) == []
    ensures upthread != null ==> old(queue.elems) == [upthread] + queue.elems
  {
    upthread := queue.first;
    if upthread != null {
      assert queue.elems[0] == upthread;
      queue.RemoveHead();
    }
  }

  /** `upthread_cond_signal` (58-74); `woken` is the thread it makes runnable. */
  method Signal(c: Cond?) returns (rc: int, woken: Link?<Tid>)
    requires c != null ==> c.Valid()
    modifies if c != null then {c.queue} else {}
    ensures c == null ==> rc == EINVAL && woken == null
    ensures c != null ==>
              && c.Valid() && rc == 0
              && (woken == null <==> old(c.queue.elems) == [])
              && (woken == null ==> c.queue.elems == [])
              && (woken != null ==> old(c.queue.elems) == [woken] + c.queue.elems)
  {
    woken := null;
    if c == null { return EINVAL, null; }
    woken := Pop(c.queue);
    rc := 0;
  }

  lemma Shift(a: seq<Upthread>, b: seq<Upthread>, x: Upthread, c: seq<Upthread>)
    requires b == [x] + c
    ensures a + b == (a + [x]) + c
  {
  }

  /** One turn of the loop of `upthread_cond_broadcast`; `before` are the threads woken so far. */
  method PopNext(queue: TailQ<Tid>, before: seq<Upthread>) returns (woken: seq<Upthread>, more: bool)
    requires queue.Valid()
    modifies queue
    ensures queue.Valid() && woken + queue.elems == before + old(queue.elems)
    ensures if more then |queue.elems| < |old(queue.elems)| else queue.elems == [] && woken == before
  {
    ghost var waiting := queue.elems;
    var upthread := Pop(queue);
    more := upthread != null;
    woken := before;
    if upthread != null {
      Shift(before, waiting, upthread, queue.elems);
      woken := woken + [upthread];
    }
  }

  /** The loop of `upthread_cond_broadcast` (82-91). */
  method PopAll(queue: TailQ<Tid>) returns (woken: seq<Upthread>)
    requires queue.Valid()
    modifies queue
    ensures queue.Valid() && woken == old(queue.elems) && queue.elems == []
  {
    woken := [];
    var more := true;
    ghost var all := queue.elems;
    assert woken + queue.elems == all;
    while more
      invariant queue.Valid() && woken + queue.elems == all
      invariant !more ==> queue.elems == []
      decreases |queue.elems|, more
    {
      woken, more := PopNext(queue, woken);
    }
    assert woken + [] == woken;
  }

  /** `upthread_cond_broadcast` (76-94): it makes every waiter runnable, oldest first, and then stops. */
  method Broadcast(c: Cond?) returns (rc: int, woken: seq<Upthread>)
    requires c != null ==> c.Valid()
    modifies if c != null then {c.queue} else {}
    ensures c == null ==> rc == EINVAL && woken == []
    ensures c != null ==> c.Valid() && rc == 0 && woken == old(c.queue.elems) && c.queue.elems == []
  {
    if c == null { return EINVAL, []; }
    woken := PopAll(c.queue);
    rc := 0;
  }
}
