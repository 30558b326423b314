/** The semaphore object in its own form, src/common/semaphore.c:18-76. */
module SemaphoreObject {
  import opened Futex
  import opened TailQueue

  const EINVAL := 22

  class Sem {
    var value: int
    var nwaiters: nat

    /** `upthread_sem_init`; a null semaphore is rejected like a negative count. */
    static method Init(sem: Sem?, count: int) returns (rc: int)
      modifies sem
      ensures rc == (if sem == null || count < 0 then EINVAL else 0)
      ensures sem != null && rc == 0 ==> sem.value == count && sem.nwaiters == 0
      ensures sem != null && rc != 0 ==> sem.value == old(sem.value) && sem.nwaiters == old(sem.nwaiters)
    {
      if sem == null { return EINVAL; }
      if count < 0 { return EINVAL; }
      sem.value := count;
      sem.nwaiters := 0;
      return 0;
    }

    /** `atomic_decrement_if_positive`. Between a read and its compare-and-swap other threads may store
        `interference[0]`, then `interference[1]`, and so on, until they leave the count alone.
        `current` is the count that the deciding access found. */
    method AtomicDecrementIfPositive(interference: seq<int>) returns (v: int, ghost current: int)
      modifies this`value
      ensures v > 0 ==> current == v && value == v - 1 && (v == old(value) || v in interference)
      ensures v <= 0 ==> value == v == current && (current == old(value) || current in interference)
      ensures interference == [] ==> current == old(value) && value == (if v > 0 then v - 1 else v)
    {
      var k := 0;
      while true
        invariant 0 <= k <= |interference|
        invariant value == old(value) || value in interference
        invariant k == 0 ==> value == old(value)
        decreases |interference| - k
      {
        v := value;
        current := v;
        if v <= 0 { return; }
        if k < |interference| {
          value := interference[k];
          k := k + 1;
          if value != v { continue; }
        }
        value := v - 1;
        return;
      }
    }
  }

  /** `upthread_sem_wait` (46-62) without interference, until it returns or its thread sleeps in the futex list of
      the count. */
  method WaitOrBlock(sem: Sem?, list: FutexList, e: Link<Futex.Tid>) returns (rc: int, blocked: bool)
    requires list.Valid() && e !in list.tailq.elems && (sem != null ==> sem.value >= 0)
    modifies sem, list.tailq, e`next, list.tailq.elems`next
    ensures list.Valid()
    ensures sem == null ==> rc == EINVAL && !blocked && list.Waiters() == old(list.Waiters())
    ensures sem != null ==>
              && rc == 0 && blocked == (old(sem.value) == 0)
              && sem.value == (if blocked then 0 else old(sem.value) - 1)
              && sem.nwaiters == (if blocked then old(sem.nwaiters) + 1 else old(sem.nwaiters))
              && list.Waiters() == old(list.Waiters()) + if blocked then [e.data] else []
  {
    if sem == null { return EINVAL, false; }
    ghost var current;
    var v;
    v, current := sem.AtomicDecrementIfPositive([]);
    if v > 0 { return 0, false; }
    sem.nwaiters := sem.nwaiters + 1;
    list.Insert(e);
    return 0, true;
  }

  /** `upthread_sem_post` (64-76) without interference; the result is the number of threads woken. */
  method Post(sem: Sem?, list: FutexList) returns (rc: int, woken: seq<Futex.Tid>)
    requires list.Valid()
    modifies sem, list.tailq, list.tailq.elems
    ensures list.Valid()
    ensures sem == null ==> rc == EINVAL && woken == [] && list.Waiters() == old(list.Waiters())
    ensures sem != null ==>
              && sem.value == old(sem.value) + 1 && sem.nwaiters == old(sem.nwaiters) && rc == |woken| <= 1
              && (sem.nwaiters > 0 ==>
                    woken == Woken(old(list.Waiters()), 1) && list.Waiters() == Left(old(list.Waiters()), 1))
              && (sem.nwaiters == 0 ==> woken == [] && list.Waiters() == old(list.Waiters()))
  {
    woken := [];
    if sem == null { return EINVAL, []; }
    sem.value := sem.value + 1;
    rc := 0;
    if sem.nwaiters > 0 {
      rc, woken := list.WakeSome(1);
    }
  }
}
