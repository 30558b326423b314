/**
 Mutexes and a condition variable as one small-step machine: any number of threads, any number of mutexes,
 one condition variable, any interleaving. A stretch of code that runs under the lock protecting everything
 it touches is one step. Line numbers refer to src/common/mutex.c, and to src/common/condvar.c where they
 start with c.
 */
module CondVar {
  import opened Seqs
  import opened ThreadState

  type Tid = nat

  /** `w` marks the calls that `upthread_cond_wait` makes: `upthread_mutex_unlock` in its callback and
      `upthread_mutex_lock` after it. `again` marks a waiter that was woken and tests anew. */
  datatype Pc =
    | Idle
    | LockSpin(w: bool, again: bool)  // 94, or 103 in the loop
    | LockTest(w: bool, again: bool)  // spin lock held (95-106)
    | Suspend(w: bool)                // callback, spin lock held (62)
    | Enqueue(w: bool)                // callback, spin lock held (63)
    | UnlockQueued(w: bool)           // callback, spin lock held, in the queue (64)
    | Blocked(w: bool)                // off its vcore, in the mutex queue
    | Dequeued(w: bool)               // off its vcore, taken from the mutex queue
    | LockDone(w: bool)               // spin lock held (108)
    | TrySpin                         // 73
    | TryTest                         // spin lock held (74-84)
    | TryDone(ok: bool)               // spin lock held (85)
    | UnlockSpin(w: bool)             // 117
    | Decrement(w: bool)              // spin lock held (118-123)
    | UnlockDone(w: bool)             // spin lock held (124, 131)
    | UnlockWake(w: bool)             // 126-128
    | WaitLock                        // c51
    | SetMutex                        // lock held (c52)
    | SetQnode                        // lock held (c53)
    | WaitSuspend                     // callback, lock held (c37)
    | WaitEnqueue                     // callback, lock held (c38)
    | ReadMutex                       // callback, lock held, in the queue (c39)
    | WaitUnlock                      // callback, lock held, in the queue, mutex released (c40)
    | WaitBlocked                     // off its vcore, in the condition queue
    | WaitDequeued                    // off its vcore, taken from the condition queue
    | PopLock(all: bool)              // signal (c64), broadcast (c83)
    | Pop(all: bool)                  // lock held (c65-67, c84-87)
    | PopUnlock(all: bool)            // lock held (c68, c88)
    | PopWake(all: bool)              // c70-72, c89
    | LastUnlock                      // lock held, the queue was empty (c92)

  /** A mutex. Its queue is log[first..]; the entries before `first` are history, like `heir`, the last thread an
      unlock took out. `depth` says how often a thread has locked without unlocking; callers owe that they unlock
      only what they hold. */
  datatype Mutex = Mutex(
    recursive: bool, locked: int, owner: Option<Tid>, log: seq<Tid>, first: nat, spin: Option<Tid>,
    depth: map<Tid, nat>, heir: Tid)

  /** The condition variable; its queue is log[first..]. */
  datatype Cond = Cond(
    lock: Option<Tid>, waitingMutex: nat, waitingQnode: Option<Tid>, log: seq<Tid>, first: nat)

  /** `m` is the mutex a thread locks or waits with, `um` the one it unlocks, `hand` the thread it took from
      a queue. History: `slot` is its last place in a queue, `waker` who took it from there, `target` the
      length of the condition log when the broadcast in progress first held the lock. */
  datatype Thread = Thread(
    pc: Pc, state: UState, m: nat, um: nat, hand: Option<Tid>, slot: nat, waker: Tid, target: Option<nat>)

  /** `odd` records a wake-up of a thread that is not off its vcore, or whose state pth_thread_runnable does not
      accept. */
  datatype State = State(mx: map<nat, Mutex>, cv: Cond, ts: seq<Thread>, odd: bool)

  datatype Call =
    | CallLock(m: nat)
    | CallTryLock(m: nat)
    | CallUnlock(m: nat)
    | CallWait(m: nat)
    | CallSignal
    | CallBroadcast

  const FreshThread := Thread(Idle, Running, 0, 0, None, 0, 0, None)
  const FreshCond := Cond(None, 0, None, [], 0)

  function FreshMutex(recursive: bool): Mutex {
    Mutex(recursive, 0, None, [], 0, None, map[], 0)
  }

  /** n threads; the mutexes numbered in `recursive` are of that type, all others are normal. */
  function Init(recursive: set<nat>, n: nat): State {
    State(map i | i in recursive :: FreshMutex(true), FreshCond, seq(n, _ => FreshThread), false)
  }

  function Mx(s: State, i: nat): Mutex {
    if i in s.mx then s.mx[i] else FreshMutex(false)
  }

  function SetMx(s: State, i: nat, mu: Mutex): State {
    s.(mx := s.mx[i := mu])
  }

  function Depth(mu: Mutex, t: Tid): nat {
    if t in mu.depth then mu.depth[t] else 0
  }

  // ---- Steps ----

  function Put(s: State, t: Tid, th: Thread): State
    requires t < |s.ts|
  {
    s.(ts := s.ts[t := th])
  }

  function Goto(s: State, t: Tid, pc: Pc): State
    requires t < |s.ts|
  {
    Put(s, t, s.ts[t].(pc := pc))
  }

  predicate Enabled(s: State, t: Tid)
    requires t < |s.ts|
  {
    var th := s.ts[t];
    match th.pc
    case Blocked(_) => false
    case Dequeued(_) => false
    case WaitBlocked => false
    case WaitDequeued => false
    case LockSpin(_, _) => Mx(s, th.m).spin.None?
    case TrySpin => Mx(s, th.m).spin.None?
    case UnlockSpin(_) => Mx(s, th.um).spin.None?
    case WaitLock => s.cv.lock.None?
    case PopLock(_) => s.cv.lock.None?
    case _ => true
  }

  predicate IsLocking(pc: Pc) {
    pc.LockSpin? || pc.LockTest? || pc.Suspend? || pc.Enqueue? || pc.UnlockQueued? || pc.LockDone?
  }

  /** t becomes the owner, or locks once more. */
  function Take(mu: Mutex, t: Tid): Mutex {
    mu.(owner := Some(t), locked := mu.locked + 1, depth := mu.depth[t := Depth(mu, t) + 1])
  }

  predicate Relocks(mu: Mutex, t: Tid) {
    mu.recursive && mu.owner == Some(t)
  }

  /** `upthread_mutex_lock`. The recursion test is made once, before the loop. */
  function LockStep(s: State, t: Tid): State
    requires t < |s.ts| && IsLocking(s.ts[t].pc)
  {
    var th := s.ts[t];
    var mu := Mx(s, th.m);
    match th.pc
    case LockSpin(w, again) => SetMx(Goto(s, t, LockTest(w, again)), th.m, mu.(spin := Some(t)))
    case LockTest(w, again) =>
      if (!again && Relocks(mu, t)) || mu.locked == 0 then SetMx(Goto(s, t, LockDone(w)), th.m, Take(mu, t))
      else Goto(s, t, Suspend(w))
    case Suspend(w) => Put(s, t, th.(pc := Enqueue(w), state := BlockedMutex))
    case Enqueue(w) =>
      SetMx(Put(s, t, th.(pc := UnlockQueued(w), slot := |mu.log|)), th.m, mu.(log := mu.log + [t]))
    case UnlockQueued(w) => SetMx(Goto(s, t, Blocked(w)), th.m, mu.(spin := None))
    case LockDone(_) => SetMx(Goto(s, t, Idle), th.m, mu.(spin := None))
  }

  predicate IsTrying(pc: Pc) { pc.TrySpin? || pc.TryTest? || pc.TryDone? }

  /** `upthread_mutex_trylock`. */
  function TryStep(s: State, t: Tid): State
    requires t < |s.ts| && IsTrying(s.ts[t].pc)
  {
    var th := s.ts[t];
    var mu := Mx(s, th.m);
    match th.pc
    case TrySpin => SetMx(Goto(s, t, TryTest), th.m, mu.(spin := Some(t)))
    case TryTest =>
      if Relocks(mu, t) || mu.locked == 0 then SetMx(Goto(s, t, TryDone(true)), th.m, Take(mu, t))
      else Goto(s, t, TryDone(false))
    case TryDone(_) => SetMx(Goto(s, t, Idle), th.m, mu.(spin := None))
  }

  predicate IsUnlocking(pc: Pc) { pc.UnlockSpin? || pc.Decrement? || pc.UnlockDone? || pc.UnlockWake? }

  /** Lines 118-123: the last unlock takes the head of the queue out and clears the owner. */
  function Release(s: State, t: Tid, w: bool): State
    requires t < |s.ts|
  {
    var th := s.ts[t];
    var mu := Mx(s, th.um);
    var mu1 := mu.(locked := mu.locked - 1, depth := mu.depth[t := if Depth(mu, t) > 0 then Depth(mu, t) - 1 else 0]);
    if mu1.locked == 0 && mu.first < |mu.log| && mu.log[mu.first] < |s.ts| then
      var e := mu.log[mu.first];
      var again := s.ts[e].pc.Blocked? && s.ts[e].pc.w;
      var s1 := Put(s, e, s.ts[e].(pc := Dequeued(again), waker := t));
      SetMx(Put(s1, t, s1.ts[t].(pc := UnlockDone(w), hand := Some(e))), th.um,
            mu1.(owner := None, first := mu.first + 1, heir := e))
    else
      SetMx(Put(s, t, th.(pc := UnlockDone(w), hand := None)), th.um,
            if mu1.locked == 0 then mu1.(owner := None) else mu1)
  }

  /** `uthread_runnable` on a thread taken from a mutex queue sends it back to the test of its loop. */
  function WakeLocker(s: State, t: Tid, w: bool): State
    requires t < |s.ts|
  {
    var after := if w then WaitUnlock else Idle;
    match s.ts[t].hand
    case None => Goto(s, t, after)
    case Some(e) =>
      if e < |s.ts| && s.ts[e].pc.Dequeued? && IsAccepted(s.ts[e].state) then
        Goto(Put(s, e, s.ts[e].(pc := LockSpin(s.ts[e].pc.w, true), state := Runnable)), t, after)
      else Goto(s, t, after).(odd := true)
  }

  /** `upthread_mutex_unlock`. */
  function UnlockStep(s: State, t: Tid): State
    requires t < |s.ts| && IsUnlocking(s.ts[t].pc)
  {
    var th := s.ts[t];
    var mu := Mx(s, th.um);
    match th.pc
    case UnlockSpin(w) => SetMx(Goto(s, t, Decrement(w)), th.um, mu.(spin := Some(t)))
    case Decrement(w) => Release(s, t, w)
    case UnlockDone(w) => SetMx(Goto(s, t, UnlockWake(w)), th.um, mu.(spin := None))
    case UnlockWake(w) => WakeLocker(s, t, w)
  }

  predicate IsCondWaiting(pc: Pc) {
    || pc.WaitLock? || pc.SetMutex? || pc.SetQnode? || pc.WaitSuspend? || pc.WaitEnqueue?
    || pc.ReadMutex? || pc.WaitUnlock?
  }

  /** `upthread_cond_wait` and its callback, around the unlock and the lock of the mutex. */
  function WaitStep(s: State, t: Tid): State
    requires t < |s.ts| && IsCondWaiting(s.ts[t].pc)
  {
    var th := s.ts[t];
    match th.pc
    case WaitLock => Goto(s, t, SetMutex).(cv := s.cv.(lock := Some(t)))
    case SetMutex => Goto(s, t, SetQnode).(cv := s.cv.(waitingMutex := th.m))
    case SetQnode => Goto(s, t, WaitSuspend).(cv := s.cv.(waitingQnode := Some(t)))
    case WaitSuspend => Put(s, t, th.(pc := WaitEnqueue, state := BlockedMutex))
    case WaitEnqueue =>
      Put(s, t, th.(pc := ReadMutex, slot := |s.cv.log|)).(cv := s.cv.(log := s.cv.log + [t]))
    case ReadMutex => Put(s, t, th.(pc := UnlockSpin(true), um := s.cv.waitingMutex))
    case WaitUnlock => Goto(s, t, WaitBlocked).(cv := s.cv.(lock := None))
  }

  predicate IsPopping(pc: Pc) { pc.PopLock? || pc.Pop? || pc.PopUnlock? || pc.PopWake? || pc.LastUnlock? }

  function PopHead(s: State, t: Tid, all: bool): State
    requires t < |s.ts|
  {
    if s.cv.first < |s.cv.log| && s.cv.log[s.cv.first] < |s.ts| then
      var e := s.cv.log[s.cv.first];
      var s1 := Put(s, e, s.ts[e].(pc := WaitDequeued, waker := t));
      Put(s1, t, s1.ts[t].(pc := PopUnlock(all), hand := Some(e))).(cv := s.cv.(first := s.cv.first + 1))
    else if all then Goto(s, t, LastUnlock)
    else Put(s, t, s.ts[t].(pc := PopUnlock(false), hand := None))
  }

  /** `uthread_runnable` on a thread taken from the condition queue sends it to relock its mutex. */
  function WakeWaiter(s: State, t: Tid, all: bool): State
    requires t < |s.ts|
  {
    var after := if all then PopLock(true) else Idle;
    match s.ts[t].hand
    case None => Goto(s, t, after)
    case Some(e) =>
      if e < |s.ts| && s.ts[e].pc.WaitDequeued? && IsAccepted(s.ts[e].state) then
        Goto(Put(s, e, s.ts[e].(pc := LockSpin(true, false), state := Runnable)), t, after)
      else Goto(s, t, after).(odd := true)
  }

  /** `upthread_cond_signal`, and `upthread_cond_broadcast` with `all`. */
  function PopStep(s: State, t: Tid): State
    requires t < |s.ts| && IsPopping(s.ts[t].pc)
  {
    var th := s.ts[t];
    match th.pc
    case PopLock(all) =>
      Put(s, t, th.(pc := Pop(all), target := if th.target.None? then Some(|s.cv.log|) else th.target))
      .(cv := s.cv.(lock := Some(t)))
    case Pop(all) => PopHead(s, t, all)
    case PopUnlock(all) => Goto(s, t, PopWake(all)).(cv := s.cv.(lock := None))
    case PopWake(all) => WakeWaiter(s, t, all)
    case LastUnlock => Goto(s, t, Idle).(cv := s.cv.(lock := None))
  }

  /** What the library asks of its callers: a thread unlocks what it holds, and waits on a condition while
      holding the mutex exactly once. */
  predicate Legal(s: State, t: Tid, call: Call) {
    match call
    case CallUnlock(m) => Depth(Mx(s, m), t) > 0
    case CallWait(m) => Depth(Mx(s, m), t) == 1
    case _ => true
  }

  function CallStep(s: State, t: Tid, call: Call): State
    requires t < |s.ts|
  {
    var th := s.ts[t].(hand := None, target := None);
    match call
    case CallLock(m) => Put(s, t, th.(pc := LockSpin(false, false), m := m))
    case CallTryLock(m) => Put(s, t, th.(pc := TrySpin, m := m))
    case CallUnlock(m) => Put(s, t, th.(pc := UnlockSpin(false), um := m))
    case CallWait(m) => Put(s, t, th.(pc := WaitLock, m := m))
    case CallSignal => Put(s, t, th.(pc := PopLock(false)))
    case CallBroadcast => Put(s, t, th.(pc := PopLock(true)))
  }

  predicate CanStep(s: State, t: Tid, call: Call) {
    t < |s.ts| && Enabled(s, t) && (s.ts[t].pc.Idle? ==> Legal(s, t, call))
  }

  /** One step of t; `call` is what an idle thread calls. */
  function Step(s: State, t: Tid, call: Call): State
    requires CanStep(s, t, call)
  {
    var pc := s.ts[t].pc;
    if IsLocking(pc) then LockStep(s, t)
    else if IsTrying(pc) then TryStep(s, t)
    else if IsUnlocking(pc) then UnlockStep(s, t)
    else if IsCondWaiting(pc) then WaitStep(s, t)
    else if IsPopping(pc) then PopStep(s, t)
    else CallStep(s, t, call)
  }

  ghost predicate Next(s: State, s': State) {
    exists t: Tid, call: Call :: CanStep(s, t, call) && s' == Step(s, t, call)
  }

  ghost predicate Run(run: seq<State>, recursive: set<nat>, n: nat) {
    && |run| > 0
    && run[0] == Init(recursive, n)
    && forall k :: 0 <= k < |run| - 1 ==> Next(run[k], run[k + 1])
  }

  // ---- The invariant ----

  /** The mutex whose spin lock a thread holds. */
  function SpinOf(th: Thread): Option<nat> {
    match th.pc
    case LockTest(_, _) => Some(th.m)
    case Suspend(_) => Some(th.m)
    case Enqueue(_) => Some(th.m)
    case UnlockQueued(_) => Some(th.m)
    case LockDone(_) => Some(th.m)
    case TryTest => Some(th.m)
    case TryDone(_) => Some(th.m)
    case Decrement(_) => Some(th.um)
    case UnlockDone(_) => Some(th.um)
    case _ => None
  }

  /** The mutex a thread was woken for and has not tested again yet. */
  function RetestOf(th: Thread): Option<nat> {
    match th.pc
    case Dequeued(_) => Some(th.m)
    case LockSpin(_, again) => if again then Some(th.m) else None
    case LockTest(_, again) => if again then Some(th.m) else None
    case _ => None
  }

  predicate OnCond(pc: Pc) {
    match pc
    case SetMutex => true
    case SetQnode => true
    case WaitSuspend => true
    case WaitEnqueue => true
    case ReadMutex => true
    case UnlockSpin(w) => w
    case Decrement(w) => w
    case UnlockDone(w) => w
    case UnlockWake(w) => w
    case WaitUnlock => true
    case Pop(_) => true
    case PopUnlock(_) => true
    case LastUnlock => true
    case _ => false
  }

  predicate InMutexQueue(pc: Pc) { pc.UnlockQueued? || pc.Blocked? }

  predicate InCondQueue(pc: Pc) {
    match pc
    case ReadMutex => true
    case UnlockSpin(w) => w
    case Decrement(w) => w
    case UnlockDone(w) => w
    case UnlockWake(w) => w
    case WaitUnlock => true
    case WaitBlocked => true
    case _ => false
  }

  ghost predicate QueuedAt(log: seq<Tid>, first: nat, slot: nat, t: int) {
    first <= slot < |log| && log[slot] == t
  }

  /** What is known at each program point about the mutexes `mu` (that t locks) and `um` (that it unlocks). */
  ghost predicate AtMutex(mu: Mutex, um: Mutex, t: nat, th: Thread) {
    var held := Depth(mu, t);
    match th.pc
    case LockSpin(w, _) => w ==> held == 0
    case LockTest(w, _) => mu.spin == Some(t) && (w ==> held == 0)
    case Suspend(w) => mu.spin == Some(t) && mu.locked != 0 && (w ==> held == 0)
    case Enqueue(w) => mu.spin == Some(t) && mu.locked != 0 && (w ==> held == 0)
    case UnlockQueued(w) => mu.spin == Some(t) && QueuedAt(mu.log, mu.first, th.slot, t) && (w ==> held == 0)
    case Blocked(w) => QueuedAt(mu.log, mu.first, th.slot, t) && (w ==> held == 0)
    case Dequeued(w) => w ==> held == 0
    case LockDone(w) => mu.spin == Some(t) && mu.owner == Some(t) && (w ==> held == 1)
    case TryTest => mu.spin == Some(t)
    case TryDone(ok) => mu.spin == Some(t) && (ok ==> mu.owner == Some(t))
    case UnlockSpin(w) => Depth(um, t) > 0 && (w ==> held == 1)
    case Decrement(w) => um.spin == Some(t) && Depth(um, t) > 0 && (w ==> held == 1)
    case UnlockDone(w) => um.spin == Some(t) && (w ==> held == 0)
    case UnlockWake(w) => w ==> held == 0
    case WaitLock => held == 1
    case SetMutex => held == 1
    case SetQnode => held == 1
    case WaitSuspend => held == 1
    case WaitEnqueue => held == 1
    case ReadMutex => held == 1
    case WaitUnlock => held == 0
    case WaitBlocked => held == 0
    case WaitDequeued => held == 0
    case _ => true
  }

  /** In the callback of a wait: the fields through which the wait talks to the callback are still t's own. */
  ghost predicate Handing(cv: Cond, t: int, th: Thread) {
    cv.lock == Some(t) && cv.waitingQnode == Some(t) && QueuedAt(cv.log, cv.first, th.slot, t)
  }

  /** What is known at each program point about the condition variable. */
  ghost predicate AtCond(cv: Cond, t: nat, th: Thread) {
    match th.pc
    case SetMutex => cv.lock == Some(t)
    case SetQnode => cv.lock == Some(t) && cv.waitingMutex == th.m
    case WaitSuspend => cv.lock == Some(t) && cv.waitingMutex == th.m && cv.waitingQnode == Some(t)
    case WaitEnqueue => cv.lock == Some(t) && cv.waitingMutex == th.m && cv.waitingQnode == Some(t)
    case ReadMutex => Handing(cv, t, th) && cv.waitingMutex == th.m
    case UnlockSpin(w) => w ==> Handing(cv, t, th) && th.um == th.m
    case Decrement(w) => w ==> Handing(cv, t, th) && th.um == th.m
    case UnlockDone(w) => w ==> Handing(cv, t, th)
    case UnlockWake(w) => w ==> Handing(cv, t, th)
    case WaitUnlock => Handing(cv, t, th)
    case WaitBlocked => QueuedAt(cv.log, cv.first, th.slot, t)
    case PopLock(_) => th.target.Some? ==> th.target.value <= |cv.log|
    case Pop(_) => cv.lock == Some(t) && th.target.Some? && th.target.value <= |cv.log|
    case PopUnlock(_) => cv.lock == Some(t) && th.target.Some? && th.target.value <= |cv.log|
    case PopWake(_) => th.target.Some? && th.target.value <= |cv.log|
    case LastUnlock => cv.lock == Some(t) && th.target.Some? && th.target.value <= |cv.log| == cv.first
    case _ => true
  }

  /** A thread that others can find in a queue, or have found there, has stored its state. */
  predicate Stored(th: Thread) {
    || !(th.pc.Enqueue? || InMutexQueue(th.pc) || th.pc.Dequeued? || th.pc.WaitEnqueue? || InCondQueue(th.pc)
         || th.pc.WaitDequeued?)
    || th.state.BlockedMutex?
  }

  ghost predicate InvThread(s: State, t: nat, th: Thread) {
    AtMutex(Mx(s, th.m), Mx(s, th.um), t, th) && AtCond(s.cv, t, th) && Stored(th)
  }

  /** The thread that t has taken from a mutex queue, or from the condition queue, and has to wake. */
  function LockerHand(th: Thread): Option<Tid> {
    match th.pc
    case UnlockDone(_) => th.hand
    case UnlockWake(_) => th.hand
    case _ => None
  }

  function WaiterHand(th: Thread): Option<Tid> {
    match th.pc
    case PopUnlock(_) => th.hand
    case PopWake(_) => th.hand
    case _ => None
  }

  ghost predicate InvHands(s: State, t: int, th: Thread) {
    && (LockerHand(th).Some? ==>
          var e := LockerHand(th).value; e < |s.ts| && s.ts[e].pc.Dequeued? && s.ts[e].waker == t)
    && (WaiterHand(th).Some? ==>
          var e := WaiterHand(th).value; e < |s.ts| && s.ts[e].pc.WaitDequeued? && s.ts[e].waker == t)
    && (th.pc.Dequeued? ==> th.waker < |s.ts| && LockerHand(s.ts[th.waker]) == Some(t))
    && (th.pc.WaitDequeued? ==> th.waker < |s.ts| && WaiterHand(s.ts[th.waker]) == Some(t))
  }

  /** Mutual exclusion: `owner` is set exactly while `locked` is positive, and then `locked` counts the
      owner's locks and nobody else has any. */
  ghost predicate InvOwner(mu: Mutex, n: nat) {
    && mu.locked >= 0
    && (mu.owner.Some? <==> mu.locked > 0)
    && (mu.owner.Some? ==> mu.owner.value < n && mu.locked == Depth(mu, mu.owner.value))
    && (forall u: nat :: mu.owner != Some(u) ==> Depth(mu, u) == 0)
    && (!mu.recursive ==> mu.locked <= 1)
  }

  ghost predicate EntryOk(s: State, i: nat, k: int, u: Tid) {
    u < |s.ts| && InMutexQueue(s.ts[u].pc) && s.ts[u].m == i && s.ts[u].slot == k
  }

  ghost predicate InvMutex(s: State, i: nat, mu: Mutex) {
    && mu.first <= |mu.log|
    && (forall k :: mu.first <= k < |mu.log| ==> EntryOk(s, i, k, mu.log[k]))
    && (mu.spin.Some? ==> mu.spin.value < |s.ts| && SpinOf(s.ts[mu.spin.value]) == Some(i))
    && (mu.locked == 0 && mu.first < |mu.log| ==> mu.heir < |s.ts| && RetestOf(s.ts[mu.heir]) == Some(i))
  }

  ghost predicate InvCond(s: State) {
    && s.cv.first <= |s.cv.log|
    && (forall k :: s.cv.first <= k < |s.cv.log| ==>
          s.cv.log[k] < |s.ts| && InCondQueue(s.ts[s.cv.log[k]].pc) && s.ts[s.cv.log[k]].slot == k)
    && (s.cv.lock.Some? ==> s.cv.lock.value < |s.ts| && OnCond(s.ts[s.cv.lock.value].pc))
  }

  ghost predicate InvThreads(s: State) {
    forall t :: 0 <= t < |s.ts| ==> InvThread(s, t, s.ts[t])
  }

  ghost predicate InvAllHands(s: State) {
    forall t :: 0 <= t < |s.ts| ==> InvHands(s, t, s.ts[t])
  }

  ghost predicate InvMutexes(s: State) {
    forall i: nat :: InvMutex(s, i, Mx(s, i)) && InvOwner(Mx(s, i), |s.ts|)
  }

  ghost predicate Inv(s: State) {
    InvThreads(s) && InvAllHands(s) && InvMutexes(s) && InvCond(s) && !s.odd
  }

  lemma InvInit(recursive: set<nat>, n: nat)
    ensures Inv(Init(recursive, n))
  {
  }

  // ---- Frames: what a step leaves alone ----

  /** What a step of t, which may take e out of the queue, does to a mutex under the other threads. */
  ghost predicate Gentle(mu: Mutex, mu': Mutex, t: Tid, e: Tid) {
    && mu'.recursive == mu.recursive
    && mu.log <= mu'.log
    && (mu'.first == mu.first || (mu'.first == mu.first + 1 && QueuedAt(mu.log, mu.first, mu.first, e)))
    && (mu'.spin == mu.spin || (mu.spin.None? && mu'.spin == Some(t)) || (mu.spin == Some(t) && mu'.spin.None?))
    && (mu.spin != Some(t) ==> mu'.(spin := mu.spin) == mu)
    && (mu'.depth == mu.depth || mu'.depth == mu.depth[t := Depth(mu', t)])
  }

  ghost predicate GentleCond(cv: Cond, cv': Cond, t: Tid, e: Tid) {
    && cv.log <= cv'.log
    && (cv'.first == cv.first || (cv'.first == cv.first + 1 && QueuedAt(cv.log, cv.first, cv.first, e)))
    && (cv'.lock == cv.lock || (cv.lock.None? && cv'.lock == Some(t)) || (cv.lock == Some(t) && cv'.lock.None?))
    && (cv.lock != Some(t) ==> cv'.(lock := cv.lock) == cv)
  }

  /** t moves, and with it at most e; they touch at most mutex i and the condition variable. */
  ghost predicate Moves(s: State, s': State, t: Tid, e: Tid, i: nat) {
    && t < |s.ts| == |s'.ts| && e < |s.ts|
    && s'.ts == s.ts[e := s'.ts[e]][t := s'.ts[t]]
    && s'.odd == s.odd
    && (s'.mx == s.mx || s'.mx == s.mx[i := Mx(s', i)])
    && Gentle(Mx(s, i), Mx(s', i), t, e)
    && GentleCond(s.cv, s'.cv, t, e)
  }

  /** x stays in its mutex queue, or is the head that leaves it. */
  ghost predicate StaysQueued(s: State, s': State, x: Tid, i: nat)
    requires x < |s.ts| && x < |s'.ts|
  {
    var th, th' := s.ts[x], s'.ts[x];
    InMutexQueue(th.pc) ==>
      || (InMutexQueue(th'.pc) && th'.m == th.m && th'.slot == th.slot)
      || (th.m == i && th.slot < Mx(s', i).first)
  }

  ghost predicate KeepsQueue(s: State, s': State, t: Tid, e: Tid, i: nat)
    requires t < |s.ts| && t < |s'.ts| && e < |s.ts| && e < |s'.ts|
  {
    && StaysQueued(s, s', t, i) && StaysQueued(s, s', e, i)
    && (Mx(s', i).log == Mx(s, i).log
        || (Mx(s', i).log == Mx(s, i).log + [t] && InMutexQueue(s'.ts[t].pc) && s'.ts[t].m == i
            && s'.ts[t].slot == |Mx(s, i).log| && Mx(s', i).locked != 0))
  }

  /** Spin locks follow program counters, and somebody retests whenever a free mutex has a queue. */
  ghost predicate KeepsMutex(s: State, s': State, t: Tid, e: Tid, i: nat)
    requires t < |s.ts| && t < |s'.ts| && e < |s.ts| && e < |s'.ts|
  {
    var th, th' := s.ts[t], s'.ts[t];
    var mu, mu' := Mx(s, i), Mx(s', i);
    && (SpinOf(th) == SpinOf(th') || SpinOf(th).None? || SpinOf(th) == Some(i))
    && (mu'.spin == Some(t) ==> SpinOf(th') == Some(i))
    && (e != t ==> SpinOf(s'.ts[e]) == SpinOf(s.ts[e]))
    && (e != t ==> RetestOf(s'.ts[e]) == RetestOf(s.ts[e]) || RetestOf(s.ts[e]).None?)
    && (RetestOf(th) == RetestOf(th') || RetestOf(th).None? || (RetestOf(th) == Some(i) && mu'.locked != 0))
    && (mu'.locked == 0 ==> || mu'.first == |mu'.log|
                            || (mu.locked == 0 && mu'.heir == mu.heir)
                            || (mu'.heir < |s'.ts| && RetestOf(s'.ts[mu'.heir]) == Some(i)))
    && InvOwner(mu', |s.ts|)
  }

  ghost predicate StaysInCond(s: State, s': State, x: Tid)
    requires x < |s.ts| && x < |s'.ts|
  {
    InCondQueue(s.ts[x].pc) ==>
      || (InCondQueue(s'.ts[x].pc) && s'.ts[x].slot == s.ts[x].slot)
      || s.ts[x].slot < s'.cv.first
  }

  ghost predicate KeepsCond(s: State, s': State, t: Tid, e: Tid)
    requires t < |s.ts| && t < |s'.ts| && e < |s.ts| && e < |s'.ts|
  {
    && StaysInCond(s, s', t) && StaysInCond(s, s', e)
    && (s'.cv.log == s.cv.log
        || (s'.cv.log == s.cv.log + [t] && InCondQueue(s'.ts[t].pc) && s'.ts[t].slot == |s.cv.log|))
    && (s'.cv.lock == Some(t) ==> OnCond(s'.ts[t].pc))
    && (e != t ==> OnCond(s.ts[e].pc) == OnCond(s'.ts[e].pc))
  }

  /** A step that keeps the invariant, hands aside. */
  ghost predicate Fits(s: State, s': State, t: Tid, e: Tid, i: nat) {
    && Moves(s, s', t, e, i) && InvThread(s', t, s'.ts[t]) && InvThread(s', e, s'.ts[e])
    && KeepsQueue(s, s', t, e, i) && KeepsMutex(s, s', t, e, i) && KeepsCond(s, s', t, e)
  }

  lemma OtherAtMutex(mu: Mutex, um: Mutex, mu': Mutex, um': Mutex, t: Tid, e: Tid, u: Tid, th: Thread)
    requires u != t && u != e && AtMutex(mu, um, u, th) && Gentle(mu, mu', t, e) && Gentle(um, um', t, e)
    ensures AtMutex(mu', um', u, th)
  {
  }

  lemma OtherAtCond(cv: Cond, cv': Cond, t: Tid, e: Tid, u: Tid, th: Thread)
    requires u != t && u != e && AtCond(cv, u, th) && GentleCond(cv, cv', t, e)
    ensures AtCond(cv', u, th)
  {
  }

  lemma OtherThread(s: State, s': State, t: Tid, e: Tid, i: nat, u: Tid)
    requires Moves(s, s', t, e, i) && u < |s.ts| && u != t && u != e && InvThread(s, u, s.ts[u])
    ensures InvThread(s', u, s'.ts[u])
  {
    var th := s.ts[u];
    OtherAtMutex(Mx(s, th.m), Mx(s, th.um), Mx(s', th.m), Mx(s', th.um), t, e, u, th);
    OtherAtCond(s.cv, s'.cv, t, e, u, th);
  }

  lemma MoveThreads(s: State, s': State, t: Tid, e: Tid, i: nat)
    requires InvThreads(s) && Moves(s, s', t, e, i) && InvThread(s', t, s'.ts[t]) && InvThread(s', e, s'.ts[e])
    ensures InvThreads(s')
  {
    forall u: nat | u < |s'.ts| ensures InvThread(s', u, s'.ts[u]) {
      if u != t && u != e { OtherThread(s, s', t, e, i, u); }
    }
  }

  lemma MoveEntries(s: State, s': State, t: Tid, e: Tid, i: nat, j: nat)
    requires InvMutex(s, j, Mx(s, j)) && Moves(s, s', t, e, i) && KeepsQueue(s, s', t, e, i)
    ensures Mx(s', j).first <= |Mx(s', j).log|
    ensures forall k :: Mx(s', j).first <= k < |Mx(s', j).log| ==> EntryOk(s', j, k, Mx(s', j).log[k])
  {
    var mu, mu' := Mx(s, j), Mx(s', j);
    forall k | mu'.first <= k < |mu'.log| ensures EntryOk(s', j, k, mu'.log[k]) {
      if k < |mu.log| { assert EntryOk(s, j, k, mu.log[k]); }
    }
  }

  lemma MoveMutex(s: State, s': State, t: Tid, e: Tid, i: nat, j: nat)
    requires InvMutex(s, j, Mx(s, j))
    requires Moves(s, s', t, e, i) && KeepsQueue(s, s', t, e, i) && KeepsMutex(s, s', t, e, i)
    ensures InvMutex(s', j, Mx(s', j))
  {
    MoveEntries(s, s', t, e, i, j);
    MoveSpin(s, s', t, e, i, j);
    MoveHeir(s, s', t, e, i, j);
  }

  lemma MoveSpin(s: State, s': State, t: Tid, e: Tid, i: nat, j: nat)
    requires InvMutex(s, j, Mx(s, j)) && Moves(s, s', t, e, i) && KeepsMutex(s, s', t, e, i)
    ensures var mu := Mx(s', j);
      mu.spin.Some? ==> mu.spin.value < |s'.ts| && SpinOf(s'.ts[mu.spin.value]) == Some(j)
  {
  }

  lemma MoveHeir(s: State, s': State, t: Tid, e: Tid, i: nat, j: nat)
    requires InvMutex(s, j, Mx(s, j))
    requires Moves(s, s', t, e, i) && KeepsQueue(s, s', t, e, i) && KeepsMutex(s, s', t, e, i)
    ensures var mu := Mx(s', j);
      mu.locked == 0 && mu.first < |mu.log| ==> mu.heir < |s'.ts| && RetestOf(s'.ts[mu.heir]) == Some(j)
  {
  }

  lemma MoveMutexes(s: State, s': State, t: Tid, e: Tid, i: nat)
    requires InvMutexes(s) && Moves(s, s', t, e, i) && KeepsQueue(s, s', t, e, i) && KeepsMutex(s, s', t, e, i)
    ensures InvMutexes(s')
  {
    forall j: nat ensures InvMutex(s', j, Mx(s', j)) && InvOwner(Mx(s', j), |s'.ts|) {
      assert InvMutex(s, j, Mx(s, j)) && InvOwner(Mx(s, j), |s.ts|);
      MoveMutex(s, s', t, e, i, j);
    }
  }

  lemma MoveCond(s: State, s': State, t: Tid, e: Tid, i: nat)
    requires InvCond(s) && Moves(s, s', t, e, i) && KeepsCond(s, s', t, e)
    ensures InvCond(s')
  {
  }

  lemma MoveStep(s: State, s': State, t: Tid, e: Tid, i: nat)
    requires Inv(s) && Fits(s, s', t, e, i) && InvAllHands(s')
    ensures Inv(s')
  {
    MoveThreads(s, s', t, e, i);
    MoveMutexes(s, s', t, e, i);
    MoveCond(s, s', t, e, i);
  }

  /** t neither takes a thread from a queue nor wakes one. */
  ghost predicate SameHands(th: Thread, th': Thread) {
    && !th.pc.Dequeued? && !th.pc.WaitDequeued? && !th'.pc.Dequeued? && !th'.pc.WaitDequeued?
    && LockerHand(th) == LockerHand(th') && WaiterHand(th) == WaiterHand(th')
  }

  /** A step that moves t alone. */
  ghost predicate FitsAlone(s: State, s': State, t: Tid, i: nat) {
    Fits(s, s', t, t, i) && SameHands(s.ts[t], s'.ts[t])
  }

  lemma SingleHands(s: State, s': State, t: Tid)
    requires InvAllHands(s) && t < |s.ts| == |s'.ts| && s'.ts == s.ts[t := s'.ts[t]] && SameHands(s.ts[t], s'.ts[t])
    ensures InvAllHands(s')
  {
    forall u | 0 <= u < |s'.ts| ensures InvHands(s', u, s'.ts[u]) {
      assert InvHands(s, u, s.ts[u]);
    }
  }

  lemma SingleStep(s: State, s': State, t: Tid, i: nat)
    requires Inv(s) && FitsAlone(s, s', t, i)
    ensures Inv(s')
  {
    SingleHands(s, s', t);
    MoveStep(s, s', t, t, i);
  }

  /** A step that leaves the mutexes and the condition variable alone. */
  lemma QuietFits(s: State, s': State, t: Tid, e: Tid, i: nat)
    requires t < |s.ts| == |s'.ts| && e < |s.ts| && s' == s.(ts := s.ts[e := s'.ts[e]][t := s'.ts[t]])
    requires InvThread(s', t, s'.ts[t]) && InvThread(s', e, s'.ts[e]) && Around(s, t, i)
    requires !InMutexQueue(s.ts[t].pc) && !InMutexQueue(s.ts[e].pc)
    requires StaysInCond(s, s', t) && StaysInCond(s, s', e)
    requires SpinOf(s'.ts[t]) == SpinOf(s.ts[t]) && SpinOf(s'.ts[e]) == SpinOf(s.ts[e])
    requires RetestOf(s'.ts[t]) == RetestOf(s.ts[t]) && RetestOf(s'.ts[e]) == RetestOf(s.ts[e])
    requires OnCond(s'.ts[t].pc) == OnCond(s.ts[t].pc) && OnCond(s'.ts[e].pc) == OnCond(s.ts[e].pc)
    ensures Fits(s, s', t, e, i)
  {
  }

  /** A step of t alone that leaves the mutexes alone. */
  lemma CondFits(s: State, s': State, t: Tid, i: nat)
    requires t < |s.ts| == |s'.ts| && s' == s.(ts := s.ts[t := s'.ts[t]], cv := s'.cv)
    requires InvThread(s', t, s'.ts[t]) && Around(s, t, i) && !InMutexQueue(s.ts[t].pc)
    requires GentleCond(s.cv, s'.cv, t, t) && KeepsCond(s, s', t, t)
    requires SpinOf(s'.ts[t]) == SpinOf(s.ts[t]) && RetestOf(s'.ts[t]) == RetestOf(s.ts[t])
    requires SameHands(s.ts[t], s'.ts[t])
    ensures FitsAlone(s, s', t, i)
  {
  }

  /** What the invariant says about one thread, one mutex and the condition variable. */
  ghost predicate Local(s: State, t: Tid, i: nat) {
    t < |s.ts| && InvThread(s, t, s.ts[t]) && Around(s, t, i)
  }

  ghost predicate Around(s: State, t: Tid, i: nat) {
    && t < |s.ts| && InvOwner(Mx(s, i), |s.ts|)
    && Mx(s, i).first <= |Mx(s, i).log| && s.cv.first <= |s.cv.log|
    && (Mx(s, i).spin == Some(t) ==> SpinOf(s.ts[t]) == Some(i))
    && (s.cv.lock == Some(t) ==> OnCond(s.ts[t].pc))
  }

  lemma Localise(s: State, t: Tid, i: nat)
    requires Inv(s) && t < |s.ts|
    ensures Local(s, t, i)
  {
    assert InvMutex(s, i, Mx(s, i)) && InvOwner(Mx(s, i), |s.ts|);
  }

  lemma LockSpinFits(s: State, t: Tid)
    requires t < |s.ts| && Local(s, t, s.ts[t].m) && Enabled(s, t) && s.ts[t].pc.LockSpin?
    ensures FitsAlone(s, LockStep(s, t), t, s.ts[t].m)
  {
  }

  lemma LockDoneFits(s: State, t: Tid)
    requires t < |s.ts| && Local(s, t, s.ts[t].m) && Enabled(s, t) && s.ts[t].pc.LockDone?
    ensures FitsAlone(s, LockStep(s, t), t, s.ts[t].m)
  {
  }

  predicate Takes(mu: Mutex, t: Tid, again: bool) { (!again && Relocks(mu, t)) || mu.locked == 0 }

  lemma TestFits(s: State, t: Tid)
    requires t < |s.ts| && Local(s, t, s.ts[t].m) && Enabled(s, t) && s.ts[t].pc.LockTest?
    requires !Takes(Mx(s, s.ts[t].m), t, s.ts[t].pc.again)
    ensures FitsAlone(s, LockStep(s, t), t, s.ts[t].m)
  {
  }

  lemma TakeOwner(mu: Mutex, t: Tid, n: nat)
    requires InvOwner(mu, n) && t < n && (Relocks(mu, t) || mu.locked == 0)
    ensures InvOwner(Take(mu, t), n)
  {
  }

  lemma TakeThread(s: State, t: Tid)
    requires t < |s.ts| && Local(s, t, s.ts[t].m) && s.ts[t].pc.LockTest?
    requires Takes(Mx(s, s.ts[t].m), t, s.ts[t].pc.again)
    ensures var s' := LockStep(s, t); |s'.ts| == |s.ts| && InvThread(s', t, s'.ts[t])
  {
  }

  lemma TakeFits(s: State, t: Tid)
    requires t < |s.ts| && Local(s, t, s.ts[t].m) && Enabled(s, t) && s.ts[t].pc.LockTest?
    requires Takes(Mx(s, s.ts[t].m), t, s.ts[t].pc.again)
    ensures FitsAlone(s, LockStep(s, t), t, s.ts[t].m)
  {
    TakeOwner(Mx(s, s.ts[t].m), t, |s.ts|);
    TakeThread(s, t);
  }

  lemma SuspendFits(s: State, t: Tid)
    requires t < |s.ts| && Local(s, t, s.ts[t].m) && Enabled(s, t) && s.ts[t].pc.Suspend?
    ensures FitsAlone(s, LockStep(s, t), t, s.ts[t].m)
  {
  }

  lemma EnqueueFits(s: State, t: Tid)
    requires t < |s.ts| && Local(s, t, s.ts[t].m) && Enabled(s, t) && s.ts[t].pc.Enqueue?
    ensures FitsAlone(s, LockStep(s, t), t, s.ts[t].m)
  {
  }

  lemma UnlockQueuedFits(s: State, t: Tid)
    requires t < |s.ts| && Local(s, t, s.ts[t].m) && Enabled(s, t) && s.ts[t].pc.UnlockQueued?
    ensures FitsAlone(s, LockStep(s, t), t, s.ts[t].m)
  {
  }

  lemma TrySpinFits(s: State, t: Tid)
    requires t < |s.ts| && Local(s, t, s.ts[t].m) && Enabled(s, t) && s.ts[t].pc.TrySpin?
    ensures FitsAlone(s, TryStep(s, t), t, s.ts[t].m)
  {
  }

  lemma TryDoneFits(s: State, t: Tid)
    requires t < |s.ts| && Local(s, t, s.ts[t].m) && Enabled(s, t) && s.ts[t].pc.TryDone?
    ensures FitsAlone(s, TryStep(s, t), t, s.ts[t].m)
  {
  }

  lemma TryTestFits(s: State, t: Tid)
    requires t < |s.ts| && Local(s, t, s.ts[t].m) && Enabled(s, t) && s.ts[t].pc.TryTest?
    requires !Takes(Mx(s, s.ts[t].m), t, false)
    ensures FitsAlone(s, TryStep(s, t), t, s.ts[t].m)
  {
  }

  lemma TryTakeFits(s: State, t: Tid)
    requires t < |s.ts| && Local(s, t, s.ts[t].m) && Enabled(s, t) && s.ts[t].pc.TryTest?
    requires Takes(Mx(s, s.ts[t].m), t, false)
    ensures FitsAlone(s, TryStep(s, t), t, s.ts[t].m)
  {
    TakeOwner(Mx(s, s.ts[t].m), t, |s.ts|);
  }

  lemma UnlockSpinFits(s: State, t: Tid)
    requires t < |s.ts| && Local(s, t, s.ts[t].um) && Enabled(s, t) && s.ts[t].pc.UnlockSpin?
    ensures FitsAlone(s, UnlockStep(s, t), t, s.ts[t].um)
  {
  }

  lemma UnlockDoneFits(s: State, t: Tid)
    requires t < |s.ts| && Local(s, t, s.ts[t].um) && Enabled(s, t) && s.ts[t].pc.UnlockDone?
    ensures FitsAlone(s, UnlockStep(s, t), t, s.ts[t].um)
  {
  }

  lemma WaitLockFits(s: State, t: Tid)
    requires t < |s.ts| && Local(s, t, s.ts[t].m) && Enabled(s, t) && s.ts[t].pc.WaitLock?
    ensures FitsAlone(s, WaitStep(s, t), t, s.ts[t].m)
  {
  }

  lemma SetMutexFits(s: State, t: Tid)
    requires t < |s.ts| && Local(s, t, s.ts[t].m) && Enabled(s, t) && s.ts[t].pc.SetMutex?
    ensures FitsAlone(s, WaitStep(s, t), t, s.ts[t].m)
  {
  }

  lemma SetQnodeFits(s: State, t: Tid)
    requires t < |s.ts| && Local(s, t, s.ts[t].m) && Enabled(s, t) && s.ts[t].pc.SetQnode?
    ensures FitsAlone(s, WaitStep(s, t), t, s.ts[t].m)
  {
  }

  lemma WaitSuspendFits(s: State, t: Tid)
    requires t < |s.ts| && Local(s, t, s.ts[t].m) && Enabled(s, t) && s.ts[t].pc.WaitSuspend?
    ensures FitsAlone(s, WaitStep(s, t), t, s.ts[t].m)
  {
  }

  lemma WaitEnqueueFits(s: State, t: Tid)
    requires t < |s.ts| && Local(s, t, s.ts[t].m) && Enabled(s, t) && s.ts[t].pc.WaitEnqueue?
    ensures FitsAlone(s, WaitStep(s, t), t, s.ts[t].m)
  {
  }

  lemma ReadMutexFits(s: State, t: Tid)
    requires t < |s.ts| && Local(s, t, s.ts[t].m) && Enabled(s, t) && s.ts[t].pc.ReadMutex?
    ensures FitsAlone(s, WaitStep(s, t), t, s.ts[t].m)
  {
  }

  lemma WaitUnlockThread(s: State, t: Tid)
    requires t < |s.ts| && InvThread(s, t, s.ts[t]) && s.ts[t].pc.WaitUnlock?
    ensures var s' := WaitStep(s, t); |s'.ts| == |s.ts| && InvThread(s', t, s'.ts[t])
  {
  }

  lemma WaitUnlockFits(s: State, t: Tid)
    requires t < |s.ts| && Local(s, t, s.ts[t].m) && Enabled(s, t) && s.ts[t].pc.WaitUnlock?
    ensures FitsAlone(s, WaitStep(s, t), t, s.ts[t].m)
  {
    WaitUnlockThread(s, t);
    CondFits(s, WaitStep(s, t), t, s.ts[t].m);
  }

  lemma PopLockThread(s: State, t: Tid)
    requires t < |s.ts| && InvThread(s, t, s.ts[t]) && s.ts[t].pc.PopLock?
    ensures var s' := PopStep(s, t); |s'.ts| == |s.ts| && InvThread(s', t, s'.ts[t])
  {
  }

  lemma PopLockFits(s: State, t: Tid)
    requires t < |s.ts| && Local(s, t, 0) && Enabled(s, t) && s.ts[t].pc.PopLock?
    ensures FitsAlone(s, PopStep(s, t), t, 0)
  {
    PopLockThread(s, t);
    CondFits(s, PopStep(s, t), t, 0);
  }

  lemma PopUnlockThread(s: State, t: Tid)
    requires t < |s.ts| && InvThread(s, t, s.ts[t]) && s.ts[t].pc.PopUnlock?
    ensures var s' := PopStep(s, t); |s'.ts| == |s.ts| && InvThread(s', t, s'.ts[t])
  {
  }

  lemma PopUnlockFits(s: State, t: Tid)
    requires t < |s.ts| && Local(s, t, 0) && Enabled(s, t) && s.ts[t].pc.PopUnlock?
    ensures FitsAlone(s, PopStep(s, t), t, 0)
  {
    PopUnlockThread(s, t);
    CondFits(s, PopStep(s, t), t, 0);
  }

  lemma LastUnlockThread(s: State, t: Tid)
    requires t < |s.ts| && InvThread(s, t, s.ts[t]) && s.ts[t].pc.LastUnlock?
    ensures var s' := PopStep(s, t); |s'.ts| == |s.ts| && InvThread(s', t, s'.ts[t])
  {
  }

  lemma LastUnlockFits(s: State, t: Tid)
    requires t < |s.ts| && Local(s, t, 0) && Enabled(s, t) && s.ts[t].pc.LastUnlock?
    ensures FitsAlone(s, PopStep(s, t), t, 0)
  {
    LastUnlockThread(s, t);
    CondFits(s, PopStep(s, t), t, 0);
  }

  lemma CallLockFits(s: State, t: Tid, m: nat)
    requires t < |s.ts| && Local(s, t, 0) && Enabled(s, t) && s.ts[t].pc.Idle?
    ensures FitsAlone(s, CallStep(s, t, CallLock(m)), t, 0)
  {
  }

  lemma CallTryLockFits(s: State, t: Tid, m: nat)
    requires t < |s.ts| && Local(s, t, 0) && Enabled(s, t) && s.ts[t].pc.Idle?
    ensures FitsAlone(s, CallStep(s, t, CallTryLock(m)), t, 0)
  {
  }

  lemma CallUnlockFits(s: State, t: Tid, m: nat)
    requires t < |s.ts| && Local(s, t, 0) && Enabled(s, t) && s.ts[t].pc.Idle? && Legal(s, t, CallUnlock(m))
    ensures FitsAlone(s, CallStep(s, t, CallUnlock(m)), t, 0)
  {
  }

  lemma CallWaitFits(s: State, t: Tid, m: nat)
    requires t < |s.ts| && Local(s, t, 0) && Enabled(s, t) && s.ts[t].pc.Idle? && Legal(s, t, CallWait(m))
    ensures FitsAlone(s, CallStep(s, t, CallWait(m)), t, 0)
  {
  }

  lemma CallSignalFits(s: State, t: Tid)
    requires t < |s.ts| && Local(s, t, 0) && Enabled(s, t) && s.ts[t].pc.Idle?
    ensures FitsAlone(s, CallStep(s, t, CallSignal), t, 0)
  {
  }

  lemma CallBroadcastFits(s: State, t: Tid)
    requires t < |s.ts| && Local(s, t, 0) && Enabled(s, t) && s.ts[t].pc.Idle?
    ensures FitsAlone(s, CallStep(s, t, CallBroadcast), t, 0)
  {
  }

  // ---- Steps that move two threads ----

  lemma ReleaseOwner(s: State, t: Tid, w: bool)
    requires t < |s.ts| && s.ts[t].pc == Decrement(w)
    requires var mu := Mx(s, s.ts[t].um);
      InvOwner(mu, |s.ts|) && Depth(mu, t) > 0 && (mu.locked != 1 || mu.first == |mu.log|)
    ensures InvOwner(Mx(Release(s, t, w), s.ts[t].um), |s.ts|)
  {
  }

  lemma ReleaseThread(s: State, t: Tid, w: bool)
    requires t < |s.ts| && Local(s, t, s.ts[t].um) && s.ts[t].pc == Decrement(w)
    requires var mu := Mx(s, s.ts[t].um); mu.locked != 1 || mu.first == |mu.log|
    ensures var s' := Release(s, t, w); |s'.ts| == |s.ts| && InvThread(s', t, s'.ts[t])
  {
  }

  lemma ReleaseFits(s: State, t: Tid, w: bool)
    requires t < |s.ts| && Local(s, t, s.ts[t].um) && s.ts[t].pc == Decrement(w)
    requires var mu := Mx(s, s.ts[t].um); mu.locked != 1 || mu.first == |mu.log|
    ensures FitsAlone(s, Release(s, t, w), t, s.ts[t].um)
  {
    ReleaseOwner(s, t, w);
    ReleaseThread(s, t, w);
  }

  /** The last unlock takes e out of the queue. */
  ghost predicate HandsOver(s: State, t: Tid, w: bool, e: Tid) {
    && t < |s.ts| && e < |s.ts| && e != t && s.ts[t].pc == Decrement(w) && s.ts[e].pc.Blocked?
    && var mu := Mx(s, s.ts[t].um); mu.locked == 1 && mu.first < |mu.log| && mu.log[mu.first] == e
  }

  lemma ReleaseToMoves(s: State, t: Tid, w: bool, e: Tid)
    requires HandsOver(s, t, w, e) && InvThread(s, t, s.ts[t])
    ensures Moves(s, Release(s, t, w), t, e, s.ts[t].um)
  {
  }

  lemma ReleaseToReleaser(s: State, t: Tid, w: bool, e: Tid)
    requires HandsOver(s, t, w, e) && InvThread(s, t, s.ts[t])
    ensures var s' := Release(s, t, w); |s'.ts| == |s.ts| && InvThread(s', t, s'.ts[t])
  {
  }

  lemma ReleaseToReleased(s: State, t: Tid, w: bool, e: Tid)
    requires HandsOver(s, t, w, e) && InvThread(s, e, s.ts[e]) && InvThread(s, t, s.ts[t])
    ensures var s' := Release(s, t, w); |s'.ts| == |s.ts| && InvThread(s', e, s'.ts[e])
  {
  }

  lemma ReleaseToQueue(s: State, t: Tid, w: bool, e: Tid)
    requires HandsOver(s, t, w, e) && EntryOk(s, s.ts[t].um, Mx(s, s.ts[t].um).first, e)
    ensures var s' := Release(s, t, w); |s'.ts| == |s.ts| && KeepsQueue(s, s', t, e, s.ts[t].um)
  {
  }

  lemma ReleaseToOwner(s: State, t: Tid, w: bool, e: Tid)
    requires HandsOver(s, t, w, e) && InvOwner(Mx(s, s.ts[t].um), |s.ts|) && Depth(Mx(s, s.ts[t].um), t) > 0
    ensures InvOwner(Mx(Release(s, t, w), s.ts[t].um), |s.ts|)
  {
  }

  lemma ReleaseToMutex(s: State, t: Tid, w: bool, e: Tid)
    requires HandsOver(s, t, w, e) && s.ts[e].m == s.ts[t].um
    requires InvOwner(Mx(Release(s, t, w), s.ts[t].um), |s.ts|)
    ensures var s' := Release(s, t, w); |s'.ts| == |s.ts| && KeepsMutex(s, s', t, e, s.ts[t].um)
  {
  }

  lemma ReleaseToCond(s: State, t: Tid, w: bool, e: Tid)
    requires HandsOver(s, t, w, e) && Around(s, t, s.ts[t].um)
    ensures |Release(s, t, w).ts| == |s.ts| && KeepsCond(s, Release(s, t, w), t, e)
  {
  }

  lemma ReleaseToHand(s: State, t: Tid, w: bool, e: Tid, u: Tid)
    requires HandsOver(s, t, w, e) && u < |s.ts| && InvHands(s, u, s.ts[u])
    ensures var s' := Release(s, t, w); |s'.ts| == |s.ts| && InvHands(s', u, s'.ts[u])
  {
  }

  lemma ReleaseToHands(s: State, t: Tid, w: bool, e: Tid)
    requires InvAllHands(s) && HandsOver(s, t, w, e)
    ensures InvAllHands(Release(s, t, w))
  {
    var s' := Release(s, t, w);
    forall u | 0 <= u < |s'.ts| ensures InvHands(s', u, s'.ts[u]) { ReleaseToHand(s, t, w, e, u); }
  }

  lemma ReleaseToKeeps(s: State, t: Tid, w: bool, e: Tid, i: nat)
    requires HandsOver(s, t, w, e) && i == s.ts[t].um && Around(s, t, i) && Depth(Mx(s, i), t) > 0
    requires EntryOk(s, i, Mx(s, i).first, e)
    ensures var s' := Release(s, t, w);
      |s'.ts| == |s.ts| && KeepsQueue(s, s', t, e, i) && KeepsMutex(s, s', t, e, i) && KeepsCond(s, s', t, e)
  {
    ReleaseToQueue(s, t, w, e);
    ReleaseToOwner(s, t, w, e);
    ReleaseToMutex(s, t, w, e);
    ReleaseToCond(s, t, w, e);
  }

  lemma HeadIsBlocked(s: State, t: Tid, w: bool, i: nat)
    requires Inv(s) && t < |s.ts| && s.ts[t].pc == Decrement(w) && i == s.ts[t].um
    requires var mu := Mx(s, i); mu.locked == 1 && mu.first < |mu.log|
    ensures var mu := Mx(s, i); var e := mu.log[mu.first];
      HandsOver(s, t, w, e) && EntryOk(s, i, mu.first, e) && InvThread(s, e, s.ts[e])
  {
    var mu := Mx(s, i);
    assert InvMutex(s, i, mu) && InvThread(s, t, s.ts[t]);
    assert EntryOk(s, i, mu.first, mu.log[mu.first]);
    assert InvThread(s, mu.log[mu.first], s.ts[mu.log[mu.first]]);
  }

  lemma ReleaseToThreads(s: State, t: Tid, w: bool, e: Tid, i: nat)
    requires HandsOver(s, t, w, e) && InvThread(s, t, s.ts[t]) && InvThread(s, e, s.ts[e]) && i == s.ts[t].um
    ensures var s' := Release(s, t, w);
      Moves(s, s', t, e, i) && InvThread(s', t, s'.ts[t]) && InvThread(s', e, s'.ts[e])
  {
    ReleaseToMoves(s, t, w, e);
    ReleaseToReleaser(s, t, w, e);
    ReleaseToReleased(s, t, w, e);
  }

  lemma ReleaseToFits(s: State, t: Tid, w: bool, e: Tid, i: nat)
    requires HandsOver(s, t, w, e) && i == s.ts[t].um && Around(s, t, i) && EntryOk(s, i, Mx(s, i).first, e)
    requires InvThread(s, t, s.ts[t]) && InvThread(s, e, s.ts[e])
    ensures Fits(s, Release(s, t, w), t, e, i)
  {
    ReleaseToKeeps(s, t, w, e, i);
    ReleaseToThreads(s, t, w, e, i);
  }

  lemma StepHandOver(s: State, t: Tid, w: bool, e: Tid)
    requires Inv(s) && HandsOver(s, t, w, e) && EntryOk(s, s.ts[t].um, Mx(s, s.ts[t].um).first, e)
    ensures Inv(Release(s, t, w))
  {
    var i := s.ts[t].um;
    Localise(s, t, i);
    assert InvThread(s, e, s.ts[e]);
    ReleaseToFits(s, t, w, e, i);
    ReleaseToHands(s, t, w, e);
    MoveStep(s, Release(s, t, w), t, e, i);
  }

  lemma StepDecrement(s: State, t: Tid, w: bool)
    requires Inv(s) && t < |s.ts| && s.ts[t].pc == Decrement(w)
    ensures Inv(Release(s, t, w))
  {
    var i := s.ts[t].um;
    var mu := Mx(s, i);
    Localise(s, t, i);
    if mu.locked == 1 && mu.first < |mu.log| {
      HeadIsBlocked(s, t, w, i);
      StepHandOver(s, t, w, mu.log[mu.first]);
    } else {
      ReleaseFits(s, t, w);
      SingleStep(s, Release(s, t, w), t, i);
    }
  }

  lemma WakeLockerWaker(s: State, t: Tid, w: bool, e: Tid)
    requires t < |s.ts| && InvThread(s, t, s.ts[t]) && s.ts[t].pc == UnlockWake(w) && s.ts[t].hand == Some(e)
    requires e < |s.ts| && e != t && s.ts[e].pc.Dequeued? && IsAccepted(s.ts[e].state)
    ensures var s' := WakeLocker(s, t, w); |s'.ts| == |s.ts| && InvThread(s', t, s'.ts[t])
  {
  }

  lemma WakeLockerWoken(s: State, t: Tid, w: bool, e: Tid)
    requires t < |s.ts| && s.ts[t].pc == UnlockWake(w) && s.ts[t].hand == Some(e)
    requires e < |s.ts| && e != t && InvThread(s, e, s.ts[e]) && s.ts[e].pc.Dequeued?
    ensures var s' := WakeLocker(s, t, w); |s'.ts| == |s.ts| && InvThread(s', e, s'.ts[e])
  {
  }

  /** t goes on to `after`, and e to `again`. */
  ghost predicate Wakes(s: State, s': State, t: Tid, e: Tid, after: Pc, again: Pc) {
    && t < |s.ts| && e < |s.ts| && e != t
    && s' == s.(ts := s.ts[e := s.ts[e].(pc := again, state := Runnable)][t := s.ts[t].(pc := after)])
  }

  lemma WakeLockerWakes(s: State, t: Tid, w: bool, e: Tid)
    requires t < |s.ts| && s.ts[t].hand == Some(e)
    requires e < |s.ts| && e != t && s.ts[e].pc.Dequeued? && IsAccepted(s.ts[e].state)
    ensures Wakes(s, WakeLocker(s, t, w), t, e, if w then WaitUnlock else Idle, LockSpin(s.ts[e].pc.w, true))
  {
  }

  lemma WakeLockerFits(s: State, s': State, t: Tid, w: bool, e: Tid)
    requires t < |s.ts| && Around(s, t, s.ts[t].um) && s.ts[t].pc == UnlockWake(w)
    requires e < |s.ts| && s.ts[e].pc.Dequeued?
    requires Wakes(s, s', t, e, if w then WaitUnlock else Idle, LockSpin(s.ts[e].pc.w, true))
    requires InvThread(s', t, s'.ts[t]) && InvThread(s', e, s'.ts[e])
    ensures Fits(s, s', t, e, s.ts[t].um)
  {
    QuietFits(s, s', t, e, s.ts[t].um);
  }

  lemma WakeLockerHands(s: State, t: Tid, w: bool, e: Tid)
    requires InvAllHands(s) && t < |s.ts| && s.ts[t].pc == UnlockWake(w) && s.ts[t].hand == Some(e)
    requires e < |s.ts| && e != t && s.ts[e].pc.Dequeued? && s.ts[e].waker == t
    requires IsAccepted(s.ts[e].state)
    ensures InvAllHands(WakeLocker(s, t, w))
  {
    var s' := WakeLocker(s, t, w);
    assert s'.ts == s.ts[e := s'.ts[e]][t := s'.ts[t]];
    forall u | 0 <= u < |s'.ts| ensures InvHands(s', u, s'.ts[u]) {
      assert InvHands(s, u, s.ts[u]);
    }
  }

  lemma WakeNobodyThread(s: State, t: Tid, w: bool)
    requires t < |s.ts| && InvThread(s, t, s.ts[t]) && s.ts[t].pc == UnlockWake(w) && s.ts[t].hand.None?
    ensures var s' := WakeLocker(s, t, w); |s'.ts| == |s.ts| && InvThread(s', t, s'.ts[t])
  {
  }

  lemma WakeNobodyFits(s: State, t: Tid, w: bool)
    requires t < |s.ts| && Local(s, t, s.ts[t].um) && s.ts[t].pc == UnlockWake(w) && s.ts[t].hand.None?
    ensures FitsAlone(s, WakeLocker(s, t, w), t, s.ts[t].um)
  {
    WakeNobodyThread(s, t, w);
    QuietFits(s, WakeLocker(s, t, w), t, t, s.ts[t].um);
  }

  lemma StepUnlockWake(s: State, t: Tid, w: bool)
    requires Inv(s) && t < |s.ts| && s.ts[t].pc == UnlockWake(w)
    ensures Inv(WakeLocker(s, t, w))
  {
    Localise(s, t, s.ts[t].um);
    assert InvHands(s, t, s.ts[t]);
    if s.ts[t].hand.Some? {
      var e := s.ts[t].hand.value;
      assert InvThread(s, e, s.ts[e]);
      WakeLockerWaker(s, t, w, e);
      WakeLockerWoken(s, t, w, e);
      WakeLockerWakes(s, t, w, e);
      WakeLockerFits(s, WakeLocker(s, t, w), t, w, e);
      WakeLockerHands(s, t, w, e);
      MoveStep(s, WakeLocker(s, t, w), t, e, s.ts[t].um);
    } else {
      WakeNobodyFits(s, t, w);
      SingleStep(s, WakeLocker(s, t, w), t, s.ts[t].um);
    }
  }

  lemma PopNobodyThread(s: State, t: Tid, all: bool)
    requires t < |s.ts| && InvThread(s, t, s.ts[t]) && s.ts[t].pc == Pop(all) && s.cv.first == |s.cv.log|
    ensures var s' := PopHead(s, t, all);
      && |s'.ts| == |s.ts| && s' == Put(s, t, s'.ts[t]) && InvThread(s', t, s'.ts[t])
      && s'.ts[t].pc == (if all then LastUnlock else PopUnlock(false)) && WaiterHand(s'.ts[t]).None?
  {
  }

  /** The queue is empty. */
  lemma PopNobodyFits(s: State, s': State, t: Tid, all: bool)
    requires t < |s.ts| == |s'.ts| && Around(s, t, 0) && s.ts[t].pc == Pop(all)
    requires s' == Put(s, t, s'.ts[t]) && InvThread(s', t, s'.ts[t])
    requires s'.ts[t].pc == (if all then LastUnlock else PopUnlock(false)) && WaiterHand(s'.ts[t]).None?
    ensures FitsAlone(s, s', t, 0)
  {
    QuietFits(s, s', t, t, 0);
  }

  lemma PopHeadToMoves(s: State, t: Tid, all: bool, e: Tid)
    requires t < |s.ts| && s.ts[t].pc == Pop(all) && s.cv.lock == Some(t)
    requires s.cv.first < |s.cv.log| && s.cv.log[s.cv.first] == e < |s.ts| && e != t
    ensures Moves(s, PopHead(s, t, all), t, e, 0)
  {
  }

  lemma PopHeadToPopper(s: State, t: Tid, all: bool, e: Tid)
    requires t < |s.ts| && InvThread(s, t, s.ts[t]) && s.ts[t].pc == Pop(all)
    requires s.cv.first < |s.cv.log| && s.cv.log[s.cv.first] == e < |s.ts| && e != t
    ensures var s' := PopHead(s, t, all); |s'.ts| == |s.ts| && InvThread(s', t, s'.ts[t])
    ensures var s' := PopHead(s, t, all);
      s'.mx == s.mx && s'.ts[t].pc == PopUnlock(all) && s'.ts[e].pc == WaitDequeued
  {
  }

  lemma PopHeadToPopped(s: State, t: Tid, all: bool, e: Tid)
    requires t < |s.ts| && s.ts[t].pc == Pop(all)
    requires s.cv.first < |s.cv.log| && s.cv.log[s.cv.first] == e < |s.ts|
    requires e != t && InvThread(s, e, s.ts[e]) && s.ts[e].pc.WaitBlocked?
    ensures var s' := PopHead(s, t, all); |s'.ts| == |s.ts| && InvThread(s', e, s'.ts[e])
  {
  }

  lemma PopHeadToQueue(s: State, t: Tid, all: bool, e: Tid)
    requires t < |s.ts| && s.ts[t].pc == Pop(all) && e < |s.ts| && e != t && s.ts[e].pc.WaitBlocked?
    requires s.cv.first < |s.cv.log| && s.cv.log[s.cv.first] == e
    ensures var s' := PopHead(s, t, all); |s'.ts| == |s.ts| && KeepsQueue(s, s', t, e, 0)
  {
  }

  lemma PopHeadToMutex(s: State, s': State, t: Tid, e: Tid)
    requires t < |s.ts| == |s'.ts| && e < |s.ts| && s'.mx == s.mx
    requires s.ts[t].pc.Pop? && s.ts[e].pc.WaitBlocked? && s'.ts[t].pc.PopUnlock? && s'.ts[e].pc.WaitDequeued?
    requires Mx(s, 0).spin != Some(t) && InvOwner(Mx(s, 0), |s.ts|)
    ensures KeepsMutex(s, s', t, e, 0)
  {
  }

  lemma PopHeadToCond(s: State, t: Tid, all: bool, e: Tid)
    requires t < |s.ts| && s.ts[t].pc == Pop(all) && e < |s.ts| && e != t && s.ts[e].pc.WaitBlocked?
    requires s.cv.first < |s.cv.log| && s.cv.log[s.cv.first] == e && s.ts[e].slot == s.cv.first
    ensures var s' := PopHead(s, t, all); |s'.ts| == |s.ts| && KeepsCond(s, s', t, e)
  {
  }

  lemma PopHeadToHand(s: State, t: Tid, all: bool, e: Tid, u: Tid)
    requires t < |s.ts| && s.ts[t].pc == Pop(all) && u < |s.ts| && InvHands(s, u, s.ts[u])
    requires s.cv.first < |s.cv.log| && s.cv.log[s.cv.first] == e < |s.ts| && e != t && s.ts[e].pc.WaitBlocked?
    ensures var s' := PopHead(s, t, all); |s'.ts| == |s.ts| && InvHands(s', u, s'.ts[u])
  {
  }

  lemma PopHeadToHands(s: State, t: Tid, all: bool, e: Tid)
    requires InvAllHands(s) && t < |s.ts| && s.ts[t].pc == Pop(all)
    requires s.cv.first < |s.cv.log| && s.cv.log[s.cv.first] == e < |s.ts| && e != t && s.ts[e].pc.WaitBlocked?
    ensures InvAllHands(PopHead(s, t, all))
  {
    var s' := PopHead(s, t, all);
    forall u | 0 <= u < |s'.ts| ensures InvHands(s', u, s'.ts[u]) { PopHeadToHand(s, t, all, e, u); }
  }

  lemma PopHeadFits(s: State, t: Tid, all: bool, e: Tid)
    requires t < |s.ts| && Local(s, t, 0) && s.ts[t].pc == Pop(all)
    requires s.cv.first < |s.cv.log| && s.cv.log[s.cv.first] == e < |s.ts| && e != t
    requires InvThread(s, e, s.ts[e]) && s.ts[e].pc.WaitBlocked? && s.ts[e].slot == s.cv.first
    ensures Fits(s, PopHead(s, t, all), t, e, 0)
  {
    PopHeadToMoves(s, t, all, e);
    PopHeadToPopper(s, t, all, e);
    PopHeadToPopped(s, t, all, e);
    PopHeadToQueue(s, t, all, e);
    PopHeadToMutex(s, PopHead(s, t, all), t, e);
    PopHeadToCond(s, t, all, e);
  }

  lemma StepPop(s: State, t: Tid, all: bool)
    requires Inv(s) && t < |s.ts| && s.ts[t].pc == Pop(all)
    ensures Inv(PopHead(s, t, all))
  {
    Localise(s, t, 0);
    if s.cv.first < |s.cv.log| {
      var e := s.cv.log[s.cv.first];
      assert InCondQueue(s.ts[e].pc) && InvThread(s, e, s.ts[e]);
      PopHeadFits(s, t, all, e);
      PopHeadToHands(s, t, all, e);
      MoveStep(s, PopHead(s, t, all), t, e, 0);
    } else {
      PopNobodyThread(s, t, all);
      PopNobodyFits(s, PopHead(s, t, all), t, all);
      SingleStep(s, PopHead(s, t, all), t, 0);
    }
  }

  lemma WakeWaiterWaker(s: State, t: Tid, all: bool, e: Tid)
    requires t < |s.ts| && InvThread(s, t, s.ts[t]) && s.ts[t].pc == PopWake(all) && s.ts[t].hand == Some(e)
    requires e < |s.ts| && e != t && s.ts[e].pc.WaitDequeued? && IsAccepted(s.ts[e].state)
    ensures var s' := WakeWaiter(s, t, all); |s'.ts| == |s.ts| && InvThread(s', t, s'.ts[t])
  {
  }

  lemma WakeWaiterWoken(s: State, t: Tid, all: bool, e: Tid)
    requires t < |s.ts| && s.ts[t].pc == PopWake(all) && s.ts[t].hand == Some(e)
    requires e < |s.ts| && e != t && InvThread(s, e, s.ts[e]) && s.ts[e].pc.WaitDequeued?
    ensures var s' := WakeWaiter(s, t, all); |s'.ts| == |s.ts| && InvThread(s', e, s'.ts[e])
  {
  }

  lemma WakeWaiterWakes(s: State, t: Tid, all: bool, e: Tid)
    requires t < |s.ts| && s.ts[t].hand == Some(e)
    requires e < |s.ts| && e != t && s.ts[e].pc.WaitDequeued? && IsAccepted(s.ts[e].state)
    ensures Wakes(s, WakeWaiter(s, t, all), t, e, if all then PopLock(true) else Idle, LockSpin(true, false))
  {
  }

  lemma WakeWaiterFits(s: State, s': State, t: Tid, all: bool, e: Tid)
    requires t < |s.ts| && Around(s, t, 0) && s.ts[t].pc == PopWake(all)
    requires e < |s.ts| && s.ts[e].pc.WaitDequeued?
    requires Wakes(s, s', t, e, if all then PopLock(true) else Idle, LockSpin(true, false))
    requires InvThread(s', t, s'.ts[t]) && InvThread(s', e, s'.ts[e])
    ensures Fits(s, s', t, e, 0)
  {
    QuietFits(s, s', t, e, 0);
  }

  lemma WakeWaiterHands(s: State, t: Tid, all: bool, e: Tid)
    requires InvAllHands(s) && t < |s.ts| && s.ts[t].pc == PopWake(all) && s.ts[t].hand == Some(e)
    requires e < |s.ts| && e != t && s.ts[e].pc.WaitDequeued? && s.ts[e].waker == t
    requires IsAccepted(s.ts[e].state)
    ensures InvAllHands(WakeWaiter(s, t, all))
  {
    var s' := WakeWaiter(s, t, all);
    assert s'.ts == s.ts[e := s'.ts[e]][t := s'.ts[t]];
    forall u | 0 <= u < |s'.ts| ensures InvHands(s', u, s'.ts[u]) {
      assert InvHands(s, u, s.ts[u]);
    }
  }

  lemma WakeNoWaiterThread(s: State, t: Tid, all: bool)
    requires t < |s.ts| && InvThread(s, t, s.ts[t]) && s.ts[t].pc == PopWake(all) && s.ts[t].hand.None?
    ensures var s' := WakeWaiter(s, t, all); |s'.ts| == |s.ts| && InvThread(s', t, s'.ts[t])
  {
  }

  lemma WakeNoWaiterFits(s: State, t: Tid, all: bool)
    requires t < |s.ts| && Local(s, t, 0) && s.ts[t].pc == PopWake(all) && s.ts[t].hand.None?
    ensures FitsAlone(s, WakeWaiter(s, t, all), t, 0)
  {
    WakeNoWaiterThread(s, t, all);
    QuietFits(s, WakeWaiter(s, t, all), t, t, 0);
  }

  lemma StepPopWake(s: State, t: Tid, all: bool)
    requires Inv(s) && t < |s.ts| && s.ts[t].pc == PopWake(all)
    ensures Inv(WakeWaiter(s, t, all))
  {
    Localise(s, t, 0);
    assert InvHands(s, t, s.ts[t]);
    if s.ts[t].hand.Some? {
      var e := s.ts[t].hand.value;
      assert InvThread(s, e, s.ts[e]);
      WakeWaiterWaker(s, t, all, e);
      WakeWaiterWoken(s, t, all, e);
      WakeWaiterWakes(s, t, all, e);
      WakeWaiterFits(s, WakeWaiter(s, t, all), t, all, e);
      WakeWaiterHands(s, t, all, e);
      MoveStep(s, WakeWaiter(s, t, all), t, e, 0);
    } else {
      WakeNoWaiterFits(s, t, all);
      SingleStep(s, WakeWaiter(s, t, all), t, 0);
    }
  }

  lemma StepLocking(s: State, t: Tid)
    requires Inv(s) && t < |s.ts| && IsLocking(s.ts[t].pc) && Enabled(s, t)
    ensures Inv(LockStep(s, t))
  {
    var m, pc := s.ts[t].m, s.ts[t].pc;
    Localise(s, t, m);
    if pc.LockTest? && Takes(Mx(s, m), t, pc.again) { TakeFits(s, t); }
    else if pc.LockTest? { TestFits(s, t); }
    else if pc.LockSpin? { LockSpinFits(s, t); }
    else if pc.LockDone? { LockDoneFits(s, t); }
    else if pc.Suspend? { SuspendFits(s, t); }
    else if pc.Enqueue? { EnqueueFits(s, t); }
    else { UnlockQueuedFits(s, t); }
    SingleStep(s, LockStep(s, t), t, m);
  }

  lemma StepTrying(s: State, t: Tid)
    requires Inv(s) && t < |s.ts| && IsTrying(s.ts[t].pc) && Enabled(s, t)
    ensures Inv(TryStep(s, t))
  {
    var m := s.ts[t].m;
    Localise(s, t, m);
    if s.ts[t].pc.TryTest? && Takes(Mx(s, s.ts[t].m), t, false) { TryTakeFits(s, t); }
    else if s.ts[t].pc.TryTest? { TryTestFits(s, t); }
    else if s.ts[t].pc.TrySpin? { TrySpinFits(s, t); }
    else { TryDoneFits(s, t); }
    SingleStep(s, TryStep(s, t), t, m);
  }

  lemma StepUnlocking(s: State, t: Tid)
    requires Inv(s) && t < |s.ts| && IsUnlocking(s.ts[t].pc) && Enabled(s, t)
    ensures Inv(UnlockStep(s, t))
  {
    var pc := s.ts[t].pc;
    if pc.Decrement? {
      StepDecrement(s, t, pc.w);
    } else if pc.UnlockWake? {
      StepUnlockWake(s, t, pc.w);
    } else {
      Localise(s, t, s.ts[t].um);
      if pc.UnlockSpin? { UnlockSpinFits(s, t); } else { UnlockDoneFits(s, t); }
      SingleStep(s, UnlockStep(s, t), t, s.ts[t].um);
    }
  }

  lemma StepCondWaiting(s: State, t: Tid)
    requires Inv(s) && t < |s.ts| && IsCondWaiting(s.ts[t].pc) && Enabled(s, t)
    ensures Inv(WaitStep(s, t))
  {
    var m, pc := s.ts[t].m, s.ts[t].pc;
    Localise(s, t, m);
    if pc.WaitLock? { WaitLockFits(s, t); }
    else if pc.SetMutex? { SetMutexFits(s, t); }
    else if pc.SetQnode? { SetQnodeFits(s, t); }
    else if pc.WaitSuspend? { WaitSuspendFits(s, t); }
    else if pc.WaitEnqueue? { WaitEnqueueFits(s, t); }
    else if pc.ReadMutex? { ReadMutexFits(s, t); }
    else { WaitUnlockFits(s, t); }
    SingleStep(s, WaitStep(s, t), t, m);
  }

  lemma StepPopping(s: State, t: Tid)
    requires Inv(s) && t < |s.ts| && IsPopping(s.ts[t].pc) && Enabled(s, t)
    ensures Inv(PopStep(s, t))
  {
    var pc := s.ts[t].pc;
    if pc.Pop? {
      StepPop(s, t, pc.all);
    } else if pc.PopWake? {
      StepPopWake(s, t, pc.all);
    } else {
      Localise(s, t, 0);
      if pc.PopLock? { PopLockFits(s, t); }
      else if pc.PopUnlock? { PopUnlockFits(s, t); }
      else { LastUnlockFits(s, t); }
      SingleStep(s, PopStep(s, t), t, 0);
    }
  }

  lemma StepCall(s: State, t: Tid, call: Call)
    requires Inv(s) && t < |s.ts| && s.ts[t].pc.Idle? && Legal(s, t, call)
    ensures Inv(CallStep(s, t, call))
  {
    Localise(s, t, 0);
    match call {
      case CallLock(m) => CallLockFits(s, t, m);
      case CallTryLock(m) => CallTryLockFits(s, t, m);
      case CallUnlock(m) => CallUnlockFits(s, t, m);
      case CallWait(m) => CallWaitFits(s, t, m);
      case CallSignal => CallSignalFits(s, t);
      case CallBroadcast => CallBroadcastFits(s, t);
    }
    SingleStep(s, CallStep(s, t, call), t, 0);
  }

  lemma InvStep(s: State, t: Tid, call: Call)
    requires Inv(s) && CanStep(s, t, call)
    ensures Inv(Step(s, t, call))
  {
    var pc := s.ts[t].pc;
    if IsLocking(pc) { StepLocking(s, t); }
    else if IsTrying(pc) { StepTrying(s, t); }
    else if IsUnlocking(pc) { StepUnlocking(s, t); }
    else if IsCondWaiting(pc) { StepCondWaiting(s, t); }
    else if IsPopping(pc) { StepPopping(s, t); }
    else { StepCall(s, t, call); }
  }

  // ---- What holds in every state of every run ----

  lemma {:induction false} InvRun(run: seq<State>, recursive: set<nat>, n: nat, k: nat)
    requires Run(run, recursive, n) && k < |run|
    ensures Inv(run[k])
  {
    if k == 0 {
      InvInit(recursive, n);
    } else {
      InvRun(run, recursive, n, k - 1);
      assert Next(run[k - 1], run[k - 1 + 1]);
      var t: Tid, call: Call :| CanStep(run[k - 1], t, call) && run[k] == Step(run[k - 1], t, call);
      InvStep(run[k - 1], t, call);
    }
  }

  /** The owner is the one thread that has locked the mutex more often than it unlocked it, `locked` says
      how much more often, and that is once for a normal mutex. */
  lemma MutualExclusion(run: seq<State>, recursive: set<nat>, n: nat, k: nat, i: nat, t: Tid, u: Tid)
    requires Run(run, recursive, n) && k < |run|
    requires Depth(Mx(run[k], i), t) > 0
    ensures Mx(run[k], i).owner == Some(t) && Mx(run[k], i).locked == Depth(Mx(run[k], i), t)
    ensures u != t ==> Depth(Mx(run[k], i), u) == 0
    ensures !Mx(run[k], i).recursive ==> Mx(run[k], i).locked == 1
  {
    InvRun(run, recursive, n, k);
    assert InvOwner(Mx(run[k], i), |run[k].ts|);
  }

  /** A free mutex has nobody as owner, and nobody holds it. */
  lemma FreeMutex(run: seq<State>, recursive: set<nat>, n: nat, k: nat, i: nat, t: Tid)
    requires Run(run, recursive, n) && k < |run|
    requires Mx(run[k], i).locked == 0
    ensures Mx(run[k], i).owner.None? && Depth(Mx(run[k], i), t) == 0
  {
    InvRun(run, recursive, n, k);
    assert InvOwner(Mx(run[k], i), |run[k].ts|);
  }

  /** Although anybody may take a free mutex before a woken waiter does, a free mutex never has a queue of
      sleepers only: some thread taken from the queue has yet to test the mutex again. */
  lemma NoLostMutexWakeup(run: seq<State>, recursive: set<nat>, n: nat, k: nat, i: nat) returns (u: Tid)
    requires Run(run, recursive, n) && k < |run|
    requires Mx(run[k], i).locked == 0 && Mx(run[k], i).first < |Mx(run[k], i).log|
    ensures u < |run[k].ts| && RetestOf(run[k].ts[u]) == Some(i)
  {
    InvRun(run, recursive, n, k);
    assert InvMutex(run[k], i, Mx(run[k], i));
    u := Mx(run[k], i).heir;
  }

  /** Queues hold exactly the threads blocked on them, each once; nobody else is ever woken. */
  lemma QueuesAreExact(run: seq<State>, recursive: set<nat>, n: nat, k: nat, i: nat, t: Tid)
    requires Run(run, recursive, n) && k < |run| && t < |run[k].ts|
    ensures !run[k].odd
    ensures var mu := Mx(run[k], i); mu.first <= |mu.log| && NoDup(mu.log[mu.first..])
    ensures var mu := Mx(run[k], i);
      t in mu.log[mu.first..] <==> InMutexQueue(run[k].ts[t].pc) && run[k].ts[t].m == i
    ensures var cv := run[k].cv; cv.first <= |cv.log| && NoDup(cv.log[cv.first..])
    ensures var cv := run[k].cv; t in cv.log[cv.first..] <==> InCondQueue(run[k].ts[t].pc)
  {
    InvRun(run, recursive, n, k);
    assert InvMutex(run[k], i, Mx(run[k], i)) && InvThread(run[k], t, run[k].ts[t]);
    MutexQueueIsExact(run[k], i, t);
    CondQueueIsExact(run[k], t);
  }

  /** Whoever is about to make a thread runnable finds it off its vcore and in a state that pth_thread_runnable
      accepts, and nobody else is about to make the same thread runnable. */
  lemma WakersFindAccepted(run: seq<State>, recursive: set<nat>, n: nat, k: nat, t: Tid)
    requires Run(run, recursive, n) && k < |run| && t < |run[k].ts|
    ensures var s := run[k];
      && (LockerHand(s.ts[t]).Some? ==> HandIsReady(s, t, LockerHand(s.ts[t]).value))
      && (WaiterHand(s.ts[t]).Some? ==> HandIsReady(s, t, WaiterHand(s.ts[t]).value))
  {
    InvRun(run, recursive, n, k);
    var s := run[k];
    assert InvHands(s, t, s.ts[t]);
    if LockerHand(s.ts[t]).Some? { HandsAreReady(s, t, LockerHand(s.ts[t]).value); }
    if WaiterHand(s.ts[t]).Some? { HandsAreReady(s, t, WaiterHand(s.ts[t]).value); }
  }

  ghost predicate HandIsReady(s: State, t: Tid, e: Tid) {
    && e < |s.ts| && (s.ts[e].pc.Dequeued? || s.ts[e].pc.WaitDequeued?)
    && s.ts[e].state == BlockedMutex && IsAccepted(s.ts[e].state)
    && forall u: nat | u < |s.ts| && u != t :: LockerHand(s.ts[u]) != Some(e) && WaiterHand(s.ts[u]) != Some(e)
  }

  lemma HandsAreReady(s: State, t: Tid, e: Tid)
    requires Inv(s) && t < |s.ts| && (LockerHand(s.ts[t]) == Some(e) || WaiterHand(s.ts[t]) == Some(e))
    ensures HandIsReady(s, t, e)
  {
    assert InvHands(s, t, s.ts[t]) && InvThread(s, e, s.ts[e]);
    forall u: nat | u < |s.ts| && u != t ensures LockerHand(s.ts[u]) != Some(e) && WaiterHand(s.ts[u]) != Some(e) {
      assert InvHands(s, u, s.ts[u]);
    }
  }

  lemma EntriesAreDistinct(s: State, i: nat, log: seq<Tid>, first: nat)
    requires first <= |log| && forall k :: first <= k < |log| ==> EntryOk(s, i, k, log[k])
    ensures NoDup(log[first..])
    ensures forall t :: t in log[first..] ==> t < |s.ts| && InMutexQueue(s.ts[t].pc) && s.ts[t].m == i
  {
    var q := log[first..];
    forall j | 0 <= j < |q|
      ensures q[j] < |s.ts| && InMutexQueue(s.ts[q[j]].pc) && s.ts[q[j]].m == i && s.ts[q[j]].slot == first + j
    {
      assert EntryOk(s, i, first + j, log[first + j]);
    }
  }

  lemma MutexQueueIsExact(s: State, i: nat, t: Tid)
    requires t < |s.ts| && InvMutex(s, i, Mx(s, i)) && InvThread(s, t, s.ts[t])
    ensures var mu := Mx(s, i); mu.first <= |mu.log| && NoDup(mu.log[mu.first..])
    ensures var mu := Mx(s, i); t in mu.log[mu.first..] <==> InMutexQueue(s.ts[t].pc) && s.ts[t].m == i
  {
    var mu := Mx(s, i);
    EntriesAreDistinct(s, i, mu.log, mu.first);
    if InMutexQueue(s.ts[t].pc) && s.ts[t].m == i {
      assert mu.log[mu.first..][s.ts[t].slot - mu.first] == t;
    }
  }

  lemma CondQueueIsExact(s: State, t: Tid)
    requires Inv(s) && t < |s.ts|
    ensures s.cv.first <= |s.cv.log| && NoDup(s.cv.log[s.cv.first..])
    ensures t in s.cv.log[s.cv.first..] <==> InCondQueue(s.ts[t].pc)
  {
    assert InvThread(s, t, s.ts[t]);
    var q := s.cv.log[s.cv.first..];
    assert forall j :: 0 <= j < |q| ==> q[j] == s.cv.log[s.cv.first + j] && s.ts[q[j]].slot == s.cv.first + j;
    if InCondQueue(s.ts[t].pc) {
      assert q[s.ts[t].slot - s.cv.first] == t;
    }
  }

  /** In a wait, until a signal or broadcast takes the thread out. */
  predicate IsWaitingFor(th: Thread) {
    match th.pc
    case WaitLock => true
    case SetMutex => true
    case SetQnode => true
    case WaitSuspend => true
    case WaitEnqueue => true
    case _ => InCondQueue(th.pc)
  }

  /** Release-and-wait is atomic: once somebody else holds the mutex of a waiter, the waiter is in the queue,
      and stays there until it is taken out by a signal or a broadcast. */
  lemma ReleaseAndWaitIsAtomic(run: seq<State>, recursive: set<nat>, n: nat, k: nat, t: Tid, u: Tid)
    requires Run(run, recursive, n) && k < |run| && t < |run[k].ts| && u != t
    requires IsWaitingFor(run[k].ts[t]) && Depth(Mx(run[k], run[k].ts[t].m), u) > 0
    ensures run[k].cv.first <= |run[k].cv.log| && t in run[k].cv.log[run[k].cv.first..]
  {
    InvRun(run, recursive, n, k);
    assert InvThread(run[k], t, run[k].ts[t]);
    MutualExclusion(run, recursive, n, k, run[k].ts[t].m, u, t);
    CondQueueIsExact(run[k], t);
  }

  /** A signal with a waiter in the queue takes the oldest one out. */
  lemma SignalTakesOldest(run: seq<State>, recursive: set<nat>, n: nat, k: nat, t: Tid, all: bool)
    requires Run(run, recursive, n) && k < |run| && t < |run[k].ts|
    requires run[k].ts[t].pc == Pop(all) && run[k].cv.first < |run[k].cv.log|
    ensures var s := run[k]; var s' := PopHead(s, t, all); var e := s.cv.log[s.cv.first];
      && e < |s.ts| && s.ts[e].pc.WaitBlocked? && s'.ts[e].pc.WaitDequeued?
      && s'.ts[t].hand == Some(e) && s'.cv.first == s.cv.first + 1 && s'.cv.log == s.cv.log
  {
    InvRun(run, recursive, n, k);
    var e := run[k].cv.log[run[k].cv.first];
    assert InCondQueue(run[k].ts[e].pc) && InvThread(run[k], e, run[k].ts[e]) && InvThread(run[k], t, run[k].ts[t]);
  }

  /** The callback unlocks the mutex of the thread it blocks, and releases the lock with that thread's node. */
  lemma CallbackUsesOwnFields(run: seq<State>, recursive: set<nat>, n: nat, k: nat, t: Tid)
    requires Run(run, recursive, n) && k < |run| && t < |run[k].ts|
    ensures run[k].ts[t].pc == ReadMutex ==> run[k].cv.waitingMutex == run[k].ts[t].m
    ensures run[k].ts[t].pc == Decrement(true) ==>
      run[k].ts[t].um == run[k].ts[t].m && Mx(run[k], run[k].ts[t].m).locked == 1
    ensures run[k].ts[t].pc == WaitUnlock ==> run[k].cv.waitingQnode == Some(t) == run[k].cv.lock
  {
    InvRun(run, recursive, n, k);
    assert InvThread(run[k], t, run[k].ts[t]);
    if run[k].ts[t].pc == Decrement(true) {
      MutualExclusion(run, recursive, n, k, run[k].ts[t].m, t, t);
    }
  }

  /** A wait returns to its caller with the mutex held once, as it was when the wait began. */
  lemma WaitReturnsHolding(run: seq<State>, recursive: set<nat>, n: nat, k: nat, t: Tid)
    requires Run(run, recursive, n) && k < |run| && t < |run[k].ts| && run[k].ts[t].pc == LockDone(true)
    ensures var mu := Mx(run[k], run[k].ts[t].m); mu.owner == Some(t) && mu.locked == 1 == Depth(mu, t)
  {
    InvRun(run, recursive, n, k);
    assert InvThread(run[k], t, run[k].ts[t]);
    MutualExclusion(run, recursive, n, k, run[k].ts[t].m, t, t);
  }

  lemma LockTarget(s: State, t: Tid, u: Tid)
    requires t < |s.ts| && IsLocking(s.ts[t].pc) && u < |s.ts|
    ensures |LockStep(s, t).ts| == |s.ts| && LockStep(s, t).ts[u].target == s.ts[u].target
  {
  }

  lemma TryTarget(s: State, t: Tid, u: Tid)
    requires t < |s.ts| && IsTrying(s.ts[t].pc) && u < |s.ts|
    ensures |TryStep(s, t).ts| == |s.ts| && TryStep(s, t).ts[u].target == s.ts[u].target
  {
  }

  lemma UnlockTarget(s: State, t: Tid, u: Tid)
    requires t < |s.ts| && IsUnlocking(s.ts[t].pc) && u < |s.ts|
    ensures |UnlockStep(s, t).ts| == |s.ts| && UnlockStep(s, t).ts[u].target == s.ts[u].target
  {
  }

  lemma WaitTarget(s: State, t: Tid, u: Tid)
    requires t < |s.ts| && IsCondWaiting(s.ts[t].pc) && u < |s.ts|
    ensures |WaitStep(s, t).ts| == |s.ts| && WaitStep(s, t).ts[u].target == s.ts[u].target
  {
  }

  lemma PopTarget(s: State, t: Tid, u: Tid)
    requires t < |s.ts| && IsPopping(s.ts[t].pc) && u < |s.ts|
    ensures |PopStep(s, t).ts| == |s.ts|
    ensures PopStep(s, t).ts[u].target ==
      if t == u && s.ts[u].pc.PopLock? && s.ts[u].target.None? then Some(|s.cv.log|) else s.ts[u].target
  {
  }

  /** `target` is the length of the condition log when a broadcast first takes the lock, and is then kept. */
  lemma TargetIsKept(s: State, t: Tid, call: Call, u: Tid)
    requires CanStep(s, t, call) && u < |s.ts| && !s.ts[u].pc.Idle?
    ensures u < |Step(s, t, call).ts|
    ensures Step(s, t, call).ts[u].target ==
      if t == u && s.ts[u].pc.PopLock? && s.ts[u].target.None? then Some(|s.cv.log|) else s.ts[u].target
  {
    var pc := s.ts[t].pc;
    if IsLocking(pc) { LockTarget(s, t, u); }
    else if IsTrying(pc) { TryTarget(s, t, u); }
    else if IsUnlocking(pc) { UnlockTarget(s, t, u); }
    else if IsCondWaiting(pc) { WaitTarget(s, t, u); }
    else if IsPopping(pc) { PopTarget(s, t, u); }
  }

  /** Although a broadcast drops the lock between two pops, when it is about to return every waiter that was
      queued when it first held the lock has been taken out. */
  lemma BroadcastCoverage(run: seq<State>, recursive: set<nat>, n: nat, k: nat, t: Tid)
    requires Run(run, recursive, n) && k < |run| && t < |run[k].ts| && run[k].ts[t].pc == LastUnlock
    ensures run[k].ts[t].target.Some? && run[k].ts[t].target.value <= run[k].cv.first
    ensures forall u :: 0 <= u < |run[k].ts| && InCondQueue(run[k].ts[u].pc) ==>
              run[k].ts[u].slot >= run[k].ts[t].target.value
  {
    InvRun(run, recursive, n, k);
    assert InvThread(run[k], t, run[k].ts[t]);
    forall u | 0 <= u < |run[k].ts| && InCondQueue(run[k].ts[u].pc)
      ensures run[k].ts[u].slot >= run[k].ts[t].target.value
    {
      assert InvThread(run[k], u, run[k].ts[u]);
    }
  }

  lemma LockSlot(s: State, t: Tid, u: Tid)
    requires t < |s.ts| && IsLocking(s.ts[t].pc) && u < |s.ts| && InCondQueue(s.ts[u].pc)
    ensures u < |LockStep(s, t).ts| && SlotStays(s.ts[u], LockStep(s, t).ts[u])
  {
  }

  lemma TrySlot(s: State, t: Tid, u: Tid)
    requires t < |s.ts| && IsTrying(s.ts[t].pc) && u < |s.ts| && InCondQueue(s.ts[u].pc)
    ensures u < |TryStep(s, t).ts| && SlotStays(s.ts[u], TryStep(s, t).ts[u])
  {
  }

  lemma UnlockSlot(s: State, t: Tid, u: Tid)
    requires t < |s.ts| && IsUnlocking(s.ts[t].pc) && u < |s.ts| && InCondQueue(s.ts[u].pc)
    ensures u < |UnlockStep(s, t).ts| && SlotStays(s.ts[u], UnlockStep(s, t).ts[u])
  {
  }

  lemma WaitSlot(s: State, t: Tid, u: Tid)
    requires t < |s.ts| && IsCondWaiting(s.ts[t].pc) && u < |s.ts| && InCondQueue(s.ts[u].pc)
    ensures u < |WaitStep(s, t).ts| && SlotStays(s.ts[u], WaitStep(s, t).ts[u])
  {
  }

  lemma PopSlot(s: State, t: Tid, u: Tid)
    requires t < |s.ts| && IsPopping(s.ts[t].pc) && u < |s.ts| && InCondQueue(s.ts[u].pc)
    ensures u < |PopStep(s, t).ts| && SlotStays(s.ts[u], PopStep(s, t).ts[u])
  {
  }

  predicate SlotStays(th: Thread, th': Thread) { InCondQueue(th'.pc) ==> th'.slot == th.slot }

  /** A thread keeps its place in the log while it is in the condition queue. */
  lemma SlotIsKept(s: State, t: Tid, call: Call, u: Tid)
    requires CanStep(s, t, call) && u < |s.ts| && InCondQueue(s.ts[u].pc)
    ensures u < |Step(s, t, call).ts| && SlotStays(s.ts[u], Step(s, t, call).ts[u])
  {
    var pc := s.ts[t].pc;
    if IsLocking(pc) { LockSlot(s, t, u); }
    else if IsTrying(pc) { TrySlot(s, t, u); }
    else if IsUnlocking(pc) { UnlockSlot(s, t, u); }
    else if IsCondWaiting(pc) { WaitSlot(s, t, u); }
    else if IsPopping(pc) { PopSlot(s, t, u); }
  }

  ghost predicate Waits(s: State, u: Tid) { u < |s.ts| && InCondQueue(s.ts[u].pc) }

  /** From state a on, u keeps its place, or at some state up to b it has left the queue. */
  lemma {:induction false} WaitsOn(run: seq<State>, recursive: set<nat>, n: nat, a: nat, b: nat, u: Tid)
    returns (k: nat)
    requires Run(run, recursive, n) && a <= b < |run| && Waits(run[a], u)
    ensures a <= k <= b && u < |run[k].ts|
    ensures !Waits(run[k], u) || (k == b && run[b].ts[u].slot == run[a].ts[u].slot)
    decreases b - a
  {
    k := a;
    if a < b {
      assert Next(run[a], run[a + 1]);
      var t: Tid, call: Call :| CanStep(run[a], t, call) && run[a + 1] == Step(run[a], t, call);
      SlotIsKept(run[a], t, call, u);
      k := a + 1;
      if Waits(run[k], u) { k := WaitsOn(run, recursive, n, a + 1, b, u); }
    }
  }

  /** Thread t is in one broadcast from state a, when it takes the lock for the first time, to state b, when it is
      about to return. */
  ghost predicate InBroadcast(run: seq<State>, a: nat, b: nat, t: Tid) {
    && a < b < |run| && t < |run[a].ts| && run[a].ts[t].pc == PopLock(true) && run[a].ts[t].target.None?
    && t < |run[b].ts| && run[b].ts[t].pc == LastUnlock
    && (forall k | a < k <= b :: Calls(run[k], t))
    && t < |run[a + 1].ts| && run[a + 1].ts[t].pc == Pop(true)
  }

  predicate Calls(s: State, t: Tid) { t < |s.ts| && !s.ts[t].pc.Idle? }

  lemma TargetNext(s: State, s': State, t: Tid)
    requires Next(s, s') && Calls(s, t)
    ensures t < |s'.ts|
    ensures s'.ts[t].target == s.ts[t].target || (s.ts[t].target.None? && s'.ts[t].target == Some(|s.cv.log|))
  {
    var u: Tid, call: Call :| CanStep(s, u, call) && s' == Step(s, u, call);
    TargetIsKept(s, u, call, t);
  }

  lemma TargetIsSet(run: seq<State>, recursive: set<nat>, n: nat, a: nat, t: Tid)
    requires Run(run, recursive, n) && a + 1 < |run| && Calls(run[a], t) && run[a].ts[t].target.None?
    requires t < |run[a + 1].ts| && run[a + 1].ts[t].pc == Pop(true)
    ensures run[a + 1].ts[t].target == Some(|run[a].cv.log|)
  {
    InvRun(run, recursive, n, a + 1);
    assert Next(run[a], run[a + 1]);
    TargetNext(run[a], run[a + 1], t);
    assert InvThread(run[a + 1], t, run[a + 1].ts[t]);
  }

  lemma {:induction false} TargetIs(run: seq<State>, recursive: set<nat>, n: nat, a: nat, b: nat, t: Tid, m: nat)
    requires Run(run, recursive, n) && a <= b < |run| && forall k | a <= k <= b :: Calls(run[k], t)
    requires t < |run[a].ts| && run[a].ts[t].target == Some(m)
    ensures t < |run[b].ts| && run[b].ts[t].target == Some(m)
    decreases b
  {
    if a < b {
      var s := run[b - 1];
      TargetIs(run, recursive, n, a, b - 1, t, m);
      assert Next(s, run[b - 1 + 1]) && Calls(s, t);
      TargetNext(s, run[b], t);
    }
  }

  lemma SlotBelow(run: seq<State>, recursive: set<nat>, n: nat, a: nat, u: Tid)
    requires Run(run, recursive, n) && a < |run| && Waits(run[a], u)
    ensures run[a].ts[u].slot < |run[a].cv.log|
  {
    InvRun(run, recursive, n, a);
    assert InvThread(run[a], u, run[a].ts[u]);
  }

  /** Every waiter that was queued when a broadcast first took the lock has been taken out of the queue at some
      state before the broadcast returns. */
  lemma BroadcastTakesEverybody(
      run: seq<State>, recursive: set<nat>, n: nat, a: nat, b: nat, t: Tid, u: Tid)
    returns (k: nat)
    requires Run(run, recursive, n) && InBroadcast(run, a, b, t) && Waits(run[a], u)
    ensures a < k <= b && u < |run[k].ts| && !Waits(run[k], u)
  {
    TargetIsSet(run, recursive, n, a, t);
    TargetIs(run, recursive, n, a + 1, b, t, |run[a].cv.log|);
    BroadcastCoverage(run, recursive, n, b, t);
    SlotBelow(run, recursive, n, a, u);
    k := WaitsOn(run, recursive, n, a, b, u);
  }

  lemma SpinHolderCanStep(s: State, i: nat)
    requires Inv(s) && Mx(s, i).spin.Some?
    ensures Mx(s, i).spin.value < |s.ts| && Enabled(s, Mx(s, i).spin.value) && !s.ts[Mx(s, i).spin.value].pc.Idle?
  {
    assert InvMutex(s, i, Mx(s, i));
  }

  /** No deadlock on the library's own locks: while one of them is held, some thread inside a call can step,
      also when the callback of a wait, holding the condition's lock, waits for the mutex's. */
  lemma LocksAreReleased(run: seq<State>, recursive: set<nat>, n: nat, k: nat, i: nat) returns (u: Tid)
    requires Run(run, recursive, n) && k < |run|
    requires Mx(run[k], i).spin.Some? || run[k].cv.lock.Some?
    ensures u < |run[k].ts| && Enabled(run[k], u) && !run[k].ts[u].pc.Idle?
  {
    InvRun(run, recursive, n, k);
    var s := run[k];
    if Mx(s, i).spin.Some? {
      SpinHolderCanStep(s, i);
      u := Mx(s, i).spin.value;
    } else {
      u := s.cv.lock.value;
      if !Enabled(s, u) {
        SpinHolderCanStep(s, s.ts[u].um);
        u := Mx(s, s.ts[u].um).spin.value;
      }
    }
  }

  /** No thread inside a call can step. */
  ghost predicate Stuck(s: State) {
    forall u :: 0 <= u < |s.ts| && Enabled(s, u) ==> s.ts[u].pc.Idle?
  }

  /** Then the library's own locks are free, and nobody is between two queues. */
  lemma StuckLocks(run: seq<State>, recursive: set<nat>, n: nat, k: nat, i: nat, t: Tid)
    requires Run(run, recursive, n) && k < |run| && t < |run[k].ts| && Stuck(run[k])
    ensures Mx(run[k], i).spin.None? && run[k].cv.lock.None?
    ensures !run[k].ts[t].pc.Dequeued? && !run[k].ts[t].pc.WaitDequeued?
  {
    InvRun(run, recursive, n, k);
    var s := run[k];
    if Mx(s, i).spin.Some? || s.cv.lock.Some? { var u := LocksAreReleased(run, recursive, n, k, i); }
    assert InvHands(s, t, s.ts[t]);
    assert s.ts[t].pc.Dequeued? || s.ts[t].pc.WaitDequeued? ==> s.ts[t].waker < |s.ts| && Enabled(s, s.ts[t].waker);
  }

  /** When no thread inside a call can step, each of them sleeps in the queue of a mutex that somebody holds, or in
      the queue of the condition variable. */
  lemma StuckMeansHeld(run: seq<State>, recursive: set<nat>, n: nat, k: nat, t: Tid)
    requires Run(run, recursive, n) && k < |run| && t < |run[k].ts| && Stuck(run[k]) && !run[k].ts[t].pc.Idle?
    ensures run[k].ts[t].pc.WaitBlocked? || (run[k].ts[t].pc.Blocked? && Mx(run[k], run[k].ts[t].m).locked > 0)
  {
    InvRun(run, recursive, n, k);
    var s := run[k];
    StuckLocks(run, recursive, n, k, s.ts[t].m, t);
    StuckLocks(run, recursive, n, k, s.ts[t].um, t);
    assert InvThread(s, t, s.ts[t]) && InvOwner(Mx(s, s.ts[t].m), |s.ts|);
    if s.ts[t].pc.Blocked? && Mx(s, s.ts[t].m).locked == 0 {
      var u := NoLostMutexWakeup(run, recursive, n, k, s.ts[t].m);
      StuckLocks(run, recursive, n, k, s.ts[u].m, u);
    }
  }
}
