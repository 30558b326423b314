/** The mutex in its own form, src/common/mutex.c:56-134: fields and a linked queue of threads updated in place. */
module MutexObject {
  import opened Seqs
  import opened TailQueue

  type Tid = nat
  type Upthread = Link<Tid>

  const EINVAL := 22
  const EBUSY := 16

  /** `locked` and `owner`. */
  datatype Holding = Holding(locked: int, owner: Option<Tid>)

  predicate Consistent(recursive: bool, h: Holding) {
    && h.locked >= 0 && (h.owner.Some? <==> h.locked > 0)
    && (!recursive ==> h.locked <= 1)
  }

  /** What self finds when it tries to lock. */
  predicate IsFor(recursive: bool, h: Holding, self: Tid) {
    h.locked == 0 || (recursive && h.owner == Some(self))
  }

  function Locked(h: Holding, self: Tid): Holding { Holding(h.locked + 1, Some(self)) }

  function Unlocked(h: Holding): Holding {
    if h.locked - 1 == 0 then Holding(0, None) else Holding(h.locked - 1, h.owner)
  }

  /** An unlock undoes a lock that succeeded, at every depth, and the locker is the owner in between. */
  lemma UnlockUndoesLock(recursive: bool, h: Holding, self: Tid)
    requires Consistent(recursive, h) && IsFor(recursive, h, self)
    ensures Consistent(recursive, Locked(h, self)) && Locked(h, self).owner == Some(self)
    ensures Unlocked(Locked(h, self)) == h
  {
  }

  /** Nobody but the owner gets a mutex that is held. */
  lemma HeldIsExclusive(recursive: bool, h: Holding, self: Tid, other: Tid)
    requires Consistent(recursive, h) && IsFor(recursive, h, self) && other != self
    ensures !IsFor(recursive, Locked(h, self), other)
  {
  }

  class Mutex {
    const recursive: bool
    var locked: int
    var owner: Option<Tid>
    const queue: TailQ<Tid>

    constructor (recursive: bool)
      ensures Valid() && Held() == Holding(0, None) && queue.elems == [] && fresh(queue)
      ensures this.recursive == recursive
    {
      this.recursive := recursive;
      locked, owner := 0, None;
      queue := new TailQ<Tid>();
    }

    ghost predicate Valid()
      reads this, queue, queue.elems`next
    {
      queue.Valid() && Consistent(recursive, Held())
    }

    function Held(): Holding
      reads this
    {
      Holding(locked, owner)
    }
  }

  /** `upthread_mutex_trylock` (67-87). */
  method TryLock(mutex: Mutex?, self: Tid) returns (rc: int)
    requires mutex != null ==> mutex.Valid()
    modifies mutex
    ensures mutex == null ==> rc == EINVAL
    ensures mutex != null ==>
              && mutex.Valid() && mutex.queue.elems == old(mutex.queue.elems)
              && rc == (if IsFor(mutex.recursive, old(mutex.Held()), self) then 0 else EBUSY)
              && mutex.Held() == (if rc == 0 then Locked(old(mutex.Held()), self) else old(mutex.Held()))
  {
    if mutex == null { return EINVAL; }
    rc := 0;
    if mutex.recursive && mutex.owner == Some(self) {
      mutex.locked := mutex.locked + 1;
    } else if mutex.locked != 0 {
      rc := EBUSY;
    } else {
      mutex.owner := Some(self);
      mutex.locked := mutex.locked + 1;
    }
  }

  /** `upthread_mutex_lock` (89-110) until it returns, or until its callback (56-65) has put the thread into the
      queue. */
  method LockOrBlock(mutex: Mutex?, u: Upthread) returns (rc: int, blocked: bool)
    requires mutex != null ==> mutex.Valid() && u !in mutex.queue.elems
    modifies mutex, if mutex != null then {mutex.queue} else {}
    modifies (if mutex != null then mutex.queue.elems else [])`next, u`next
    ensures mutex == null ==> rc == EINVAL && !blocked
    ensures mutex != null ==>
              && mutex.Valid() && rc == 0
              && blocked == !IsFor(mutex.recursive, old(mutex.Held()), u.data)
              && mutex.Held() == (if blocked then old(mutex.Held()) else Locked(old(mutex.Held()), u.data))
              && mutex.queue.elems == old(mutex.queue.elems) + if blocked then [u] else []
  {
    if mutex == null { return EINVAL, false; }
    rc, blocked := 0, false;
    if mutex.recursive && mutex.owner == Some(u.data) {
      mutex.locked := mutex.locked + 1;
    } else if mutex.locked != 0 {
      mutex.queue.InsertTail(u);
      blocked := true;
    } else {
      mutex.owner := Some(u.data);
      mutex.locked := mutex.locked + 1;
    }
  }

  /** `upthread_mutex_unlock` (112-134); `woken` is the thread it makes runnable. */
  method Unlock(mutex: Mutex?) returns (rc: int, woken: Link?<Tid>)
    requires mutex != null ==> mutex.Valid() && mutex.locked > 0
    modifies mutex, if mutex != null then {mutex.queue} else {}
    ensures mutex == null ==> rc == EINVAL && woken == null
    ensures mutex != null ==>
              && mutex.Valid() && rc == 0 && mutex.Held() == Unlocked(old(mutex.Held()))
              && (woken == null <==> mutex.locked > 0 || old(mutex.queue.elems) == [])
              && (woken == null ==> mutex.queue.elems == old(mutex.queue.elems))
              && (woken != null ==> old(mutex.queue.elems) == [woken] + mutex.queue.elems)
  {
    woken := null;
    if mutex == null { return EINVAL, null; }
    rc := 0;
    mutex.locked := mutex.locked - 1;
    if mutex.locked == 0 {
      woken := mutex.queue.first;
      if woken != null {
        assert mutex.queue.elems[0] == woken;
        mutex.queue.RemoveHead();
      }
      mutex.owner := None;
    }
  }
}
