/**
 The global-queue scheduler as a small-step machine: any number of threads, which share one `next` link
 between the ready queue, the active queue and the queues of all mutexes and condition variables. A step is one
 access under the lock of its queue. Line numbers refer to src/gq/upthread.c, or to src/common/mutex.c where they
 start with m.
 */
module Gq {
  import opened Seqs
  import opened ThreadState

  type Tid = nat

  /** The ways to give up the vcore: into the queue of a mutex or condition variable i, or into a place that does
      not use the link, a joiner slot, a barrier, a futex or a system call. */
  datatype Why = ToYield | ToPause | ToJoin | ToExit | ToQueue(i: nat) | ToPlace | ToSyscall

  /** What happens to a thread. The stages of pth_thread_runnable are its own wherever they run, since one waker
      has it at a time. */
  datatype Pc =
    | Unborn
    | InThread                // in the active queue
    | LeaveLock(why: Why)     // 328, 453
    | LeaveCount(why: Why)    // lock held (329, 454)
    | LeaveRemove(why: Why)   // lock held (330, 455)
    | LeaveUnlock(why: Why)   // lock held (331, 456)
    | Store(why: Why)         // 157, 172, 343, 394, 430, 450
    | QueueInsert(i: nat)     // m63, c38
    | InQueue(i: nat)         // off its vcore, in the queue of a mutex or condition variable
    | Publish                 // 346, 458, or the code of a barrier or futex
    | Parked                  // off its vcore, where its waker finds it
    | Waking                  // 116-127
    | SetState                // 128
    | ReadyLock               // 132
    | ReadyInsert             // lock held (133)
    | ReadyCount              // lock held (134)
    | ReadyUnlock             // lock held (135)
    | InReady                 // in the ready queue
    | TakeRemove              // lock held (74)
    | TakeInsert              // lock held (75)
    | TakeActive              // lock held (76)
    | TakeReady               // lock held (77)
    | TakeUnlock              // lock held (78)
    | Dispatched              // 96
    | Gone

  datatype Thread = Thread(state: UState, pc: Pc)

  datatype Queue = Ready | Active | Object(i: nat)

  /** `lock` is the thread on whose behalf queue_lock is held; `odd` records a failed switch (125) or assertion
      (96), and a removal from a queue that does not have the thread. */
  datatype State = State(
    ready: seq<Tid>, active: seq<Tid>, objects: map<nat, seq<Tid>>, threadsReady: int, threadsActive: int,
    lock: Option<Tid>, ts: seq<Thread>, odd: bool)

  /** `Rewake` is a callback that makes its own thread runnable (354). A futex whose value has changed pauses its
      thread instead, and so takes the way of ToPause. */
  datatype Choice = Create | Yield(why: Why) | Settle | Rewake

  function Init(n: nat): State
    requires 0 < n
  {
    State([], [0], map[], 0, 1, None, seq(n, _ => Thread(Created, Unborn))[0 := Thread(Running, InThread)], false)
  }

  function Obj(s: State, i: nat): seq<Tid> { if i in s.objects then s.objects[i] else [] }

  function Contents(s: State, q: Queue): seq<Tid> {
    match q
    case Ready => s.ready
    case Active => s.active
    case Object(i) => Obj(s, i)
  }

  function Put(s: State, t: Tid, th: Thread): State
    requires t < |s.ts|
  {
    s.(ts := s.ts[t := th])
  }

  function Goto(s: State, t: Tid, pc: Pc): State
    requires t < |s.ts|
  {
    Put(s, t, s.ts[t].(pc := pc))
  }

  /** STAILQ_REMOVE. */
  function Without(q: seq<Tid>, t: Tid): (r: seq<Tid>)
    ensures multiset(r) == multiset(q) - multiset{t}
    ensures |r| == |q| - if t in q then 1 else 0
  {
    if q == [] then []
    else
      assert q == [q[0]] + q[1..];
      if q[0] == t then q[1..] else [q[0]] + Without(q[1..], t)
  }

  /** The state that each callback stores. */
  function StateOf(why: Why): UState {
    match why
    case ToYield => Yielding
    case ToPause => Paused
    case ToJoin => Joining
    case ToExit => Exiting
    case ToQueue(_) => BlockedMutex
    case ToPlace => BlockedMutex
    case ToSyscall => Sysc
  }

  /** Where a callback goes on once the thread is out of the active queue and its state stored. */
  function AfterStore(why: Why): Pc {
    match why
    case ToYield => Waking
    case ToPause => Waking
    case ToExit => Gone
    case ToQueue(i) => QueueInsert(i)
    case _ => Publish
  }

  predicate IsLeaving(pc: Pc) {
    pc.LeaveLock? || pc.LeaveCount? || pc.LeaveRemove? || pc.LeaveUnlock? || pc.Store?
  }

  /** `__upthread_generic_yield` and the store of the state; a system call stores first (450). */
  function LeaveStep(s: State, t: Tid): State
    requires t < |s.ts| && IsLeaving(s.ts[t].pc)
  {
    match s.ts[t].pc
    case LeaveLock(why) => Goto(s, t, LeaveCount(why)).(lock := Some(t))
    case LeaveCount(why) => Goto(s, t, LeaveRemove(why)).(threadsActive := s.threadsActive - 1)
    case LeaveRemove(why) =>
      Goto(s, t, LeaveUnlock(why)).(active := Without(s.active, t), odd := s.odd || t !in s.active)
    case LeaveUnlock(why) => Goto(s, t, if why.ToSyscall? then Publish else Store(why)).(lock := None)
    case Store(why) =>
      Put(s, t, Thread(StateOf(why), if why.ToSyscall? then LeaveLock(why) else AfterStore(why)))
  }

  predicate IsWaking(pc: Pc) {
    pc.Waking? || pc.SetState? || pc.ReadyLock? || pc.ReadyInsert? || pc.ReadyCount? || pc.ReadyUnlock?
  }

  /** `pth_thread_runnable` (108-140). */
  function WakeStep(s: State, t: Tid): State
    requires t < |s.ts| && IsWaking(s.ts[t].pc)
  {
    match s.ts[t].pc
    case Waking => Goto(s, t, SetState).(odd := s.odd || !IsAccepted(s.ts[t].state))
    case SetState => Put(s, t, Thread(Runnable, ReadyLock))
    case ReadyLock => Goto(s, t, ReadyInsert).(lock := Some(t))
    case ReadyInsert => Goto(s, t, ReadyCount).(ready := s.ready + [t])
    case ReadyCount => Goto(s, t, ReadyUnlock).(threadsReady := s.threadsReady + 1)
    case ReadyUnlock => Goto(s, t, InReady).(lock := None)
  }

  predicate IsTaking(pc: Pc) {
    || pc.InReady? || pc.TakeRemove? || pc.TakeInsert? || pc.TakeActive? || pc.TakeReady? || pc.TakeUnlock?
    || pc.Dispatched?
  }

  /** `pth_sched_entry` (70-96) for the head of the ready queue. */
  function TakeStep(s: State, t: Tid): State
    requires t < |s.ts| && IsTaking(s.ts[t].pc)
  {
    match s.ts[t].pc
    case InReady => Goto(s, t, TakeRemove).(lock := Some(t))
    case TakeRemove => Goto(s, t, TakeInsert).(ready := Without(s.ready, t), odd := s.odd || t !in s.ready)
    case TakeInsert => Goto(s, t, TakeActive).(active := s.active + [t])
    case TakeActive => Goto(s, t, TakeReady).(threadsActive := s.threadsActive + 1)
    case TakeReady => Goto(s, t, TakeUnlock).(threadsReady := s.threadsReady - 1)
    case TakeUnlock => Goto(s, t, Dispatched).(lock := None)
    case Dispatched => Goto(s, t, InThread).(odd := s.odd || !s.ts[t].state.Runnable?)
  }

  /** Running, and waiting for a waker: mutex_unlock, cond_signal and cond_broadcast take the head of their queue. */
  function OtherStep(s: State, t: Tid, c: Choice): State
    requires t < |s.ts|
  {
    match s.ts[t].pc
    case Unborn => Put(s, t, Thread(Created, Waking))
    case Gone => Put(s, t, Thread(Created, Waking))
    case InThread =>
      if c.Yield? then Goto(s, t, if c.why.ToSyscall? then Store(c.why) else LeaveLock(c.why)) else s
    case QueueInsert(i) => Goto(s, t, InQueue(i)).(objects := s.objects[i := Obj(s, i) + [t]])
    case InQueue(i) =>
      if |Obj(s, i)| > 0 && Obj(s, i)[0] == t then Goto(s, t, Waking).(objects := s.objects[i := Obj(s, i)[1..]])
      else s
    case Publish => Goto(s, t, if c.Rewake? then Waking else Parked)
    case Parked => Goto(s, t, Waking)
    case _ => s
  }

  predicate Enabled(s: State, t: Tid) {
    && t < |s.ts|
    && (s.ts[t].pc.LeaveLock? || s.ts[t].pc.ReadyLock? || s.ts[t].pc.InReady? ==> s.lock.None?)
    && (s.ts[t].pc.InReady? ==> |s.ready| > 0 && s.ready[0] == t)
  }

  function Step(s: State, t: Tid, c: Choice): State
    requires Enabled(s, t)
  {
    var pc := s.ts[t].pc;
    if IsLeaving(pc) then LeaveStep(s, t)
    else if IsWaking(pc) then WakeStep(s, t)
    else if IsTaking(pc) then TakeStep(s, t)
    else OtherStep(s, t, c)
  }

  ghost predicate Next(s: State, s': State) {
    exists t: Tid, c: Choice :: Enabled(s, t) && s' == Step(s, t, c)
  }

  ghost predicate Run(run: seq<State>, n: nat) {
    && 0 < n && |run| > 0
    && run[0] == Init(n)
    && forall k :: 0 <= k < |run| - 1 ==> Next(run[k], run[k + 1])
  }

  // ---- The invariant ----

  /** The queue that the link of a thread is in. */
  function Home(pc: Pc): Option<Queue> {
    match pc
    case InThread => Some(Active)
    case LeaveLock(_) => Some(Active)
    case LeaveCount(_) => Some(Active)
    case LeaveRemove(_) => Some(Active)
    case InQueue(i) => Some(Object(i))
    case ReadyCount => Some(Ready)
    case ReadyUnlock => Some(Ready)
    case InReady => Some(Ready)
    case TakeRemove => Some(Ready)
    case TakeActive => Some(Active)
    case TakeReady => Some(Active)
    case TakeUnlock => Some(Active)
    case Dispatched => Some(Active)
    case Store(why) => if why.ToSyscall? then Some(Active) else None
    case _ => None
  }

  predicate HasLock(pc: Pc) {
    || pc.LeaveCount? || pc.LeaveRemove? || pc.LeaveUnlock? || pc.ReadyInsert? || pc.ReadyCount? || pc.ReadyUnlock?
    || pc.TakeRemove? || pc.TakeInsert? || pc.TakeActive? || pc.TakeReady? || pc.TakeUnlock?
  }

  /** By how much the counters differ from the lengths of their queues while the lock is held for a thread. */
  function ReadyDelta(pc: Pc): int {
    if pc.ReadyCount? then -1 else if pc.TakeInsert? || pc.TakeActive? || pc.TakeReady? then 1 else 0
  }

  function ActiveDelta(pc: Pc): int {
    if pc.LeaveRemove? || pc.TakeActive? then -1 else 0
  }

  predicate StateOk(th: Thread) {
    match th.pc
    case LeaveLock(why) => why.ToSyscall? ==> th.state.Sysc?
    case LeaveCount(why) => why.ToSyscall? ==> th.state.Sysc?
    case LeaveRemove(why) => why.ToSyscall? ==> th.state.Sysc?
    case LeaveUnlock(why) => why.ToSyscall? ==> th.state.Sysc?
    case QueueInsert(_) => IsAccepted(th.state)
    case InQueue(_) => IsAccepted(th.state)
    case Publish => IsAccepted(th.state)
    case Parked => IsAccepted(th.state)
    case Waking => IsAccepted(th.state)
    case ReadyLock => th.state.Runnable?
    case ReadyInsert => th.state.Runnable?
    case ReadyCount => th.state.Runnable?
    case ReadyUnlock => th.state.Runnable?
    case InReady => th.state.Runnable?
    case TakeRemove => th.state.Runnable?
    case TakeInsert => th.state.Runnable?
    case TakeActive => th.state.Runnable?
    case TakeReady => th.state.Runnable?
    case TakeUnlock => th.state.Runnable?
    case Dispatched => th.state.Runnable?
    case _ => true
  }

  ghost predicate Sits(q: seq<Tid>, t: Tid, here: bool) {
    multiset(q)[t] == if here then 1 else 0
  }

  ghost predicate InvThread(s: State, t: Tid, th: Thread) {
    && Sits(s.ready, t, Home(th.pc) == Some(Ready))
    && Sits(s.active, t, Home(th.pc) == Some(Active))
    && (forall i: nat :: Sits(Obj(s, i), t, Home(th.pc) == Some(Object(i))))
    && (HasLock(th.pc) <==> s.lock == Some(t))
    && StateOk(th)
  }

  ghost predicate InvLock(s: State) {
    match s.lock
    case None => s.threadsReady == |s.ready| && s.threadsActive == |s.active|
    case Some(t) =>
      && t < |s.ts|
      && s.threadsReady == |s.ready| + ReadyDelta(s.ts[t].pc)
      && s.threadsActive == |s.active| + ActiveDelta(s.ts[t].pc)
  }

  ghost predicate Threads(s: State) { forall t: nat :: t < |s.ts| ==> InvThread(s, t, s.ts[t]) }

  ghost predicate Inv(s: State) { Threads(s) && InvLock(s) && !s.odd }

  lemma {:induction false} FreshThreads(n: nat, t: nat)
    requires t < n
    ensures InvThread(Init(n), t, Init(n).ts[t])
  {
  }

  lemma InvInit(n: nat)
    requires 0 < n
    ensures Inv(Init(n))
  {
    forall t: nat | t < n ensures InvThread(Init(n), t, Init(n).ts[t]) { FreshThreads(n, t); }
  }

  // ---- Every step keeps the invariant ----

  /** Only t moves in q, if anybody does. */
  ghost predicate MovesOnly(q: seq<Tid>, q': seq<Tid>, t: Tid) {
    forall u: nat :: u != t ==> multiset(q')[u] == multiset(q)[u]
  }

  /** A step of t moves t alone, and takes or drops the lock only for t. */
  ghost predicate Moves(s: State, s': State, t: Tid) {
    && t < |s.ts| && |s'.ts| == |s.ts| && s'.ts == s.ts[t := s'.ts[t]]
    && MovesOnly(s.ready, s'.ready, t) && MovesOnly(s.active, s'.active, t)
    && (forall i: nat :: MovesOnly(Obj(s, i), Obj(s', i), t))
    && (s'.lock == s.lock || (s.lock.None? && s'.lock == Some(t)) || (s.lock == Some(t) && s'.lock.None?))
  }

  lemma MoveStep(s: State, s': State, t: Tid)
    requires Inv(s) && Moves(s, s', t) && InvThread(s', t, s'.ts[t]) && InvLock(s') && !s'.odd
    ensures Inv(s')
  {
    forall u: nat | u < |s'.ts| ensures InvThread(s', u, s'.ts[u]) {
      if u != t { assert InvThread(s, u, s.ts[u]); }
    }
  }

  ghost predicate Fits(s: State, s': State, t: Tid) {
    Moves(s, s', t) && InvThread(s', t, s'.ts[t]) && InvLock(s') && !s'.odd
  }

  ghost predicate Local(s: State, t: Tid) {
    t < |s.ts| && InvThread(s, t, s.ts[t]) && InvLock(s) && !s.odd
  }

  /** A step that leaves all queues alone. */
  lemma QuietFits(s: State, s': State, t: Tid, th: Thread)
    requires Local(s, t) && s' == s.(ts := s.ts[t := th], lock := s'.lock, threadsReady := s'.threadsReady,
                                     threadsActive := s'.threadsActive)
    requires Home(th.pc) == Home(s.ts[t].pc) && StateOk(th) && (HasLock(th.pc) <==> s'.lock == Some(t))
    requires s'.lock == s.lock || (s.lock.None? && s'.lock == Some(t)) || (s.lock == Some(t) && s'.lock.None?)
    requires InvLock(s')
    ensures Fits(s, s', t)
  {
  }

  /** The home of t is q before and after the step, or none. */
  predicate Around(a: Pc, b: Pc, q: Queue) {
    (Home(a).None? || Home(a) == Some(q)) && (Home(b).None? || Home(b) == Some(q))
  }

  /** A step that moves t in or out of the ready queue. */
  lemma ReadyFits(s: State, s': State, t: Tid, th: Thread, q: seq<Tid>)
    requires Local(s, t) && s' == s.(ts := s.ts[t := th], ready := q)
    requires MovesOnly(s.ready, q, t) && Sits(q, t, Home(th.pc) == Some(Ready)) && Around(s.ts[t].pc, th.pc, Ready)
    requires StateOk(th) && HasLock(th.pc) == HasLock(s.ts[t].pc) && InvLock(s')
    ensures Fits(s, s', t)
  {
  }

  lemma ActiveFits(s: State, s': State, t: Tid, th: Thread, q: seq<Tid>)
    requires Local(s, t) && s' == s.(ts := s.ts[t := th], active := q)
    requires MovesOnly(s.active, q, t) && Sits(q, t, Home(th.pc) == Some(Active)) && Around(s.ts[t].pc, th.pc, Active)
    requires StateOk(th) && HasLock(th.pc) == HasLock(s.ts[t].pc) && InvLock(s')
    ensures Fits(s, s', t)
  {
  }

  lemma ObjectFits(s: State, s': State, t: Tid, th: Thread, i: nat, q: seq<Tid>)
    requires Local(s, t) && s' == s.(ts := s.ts[t := th], objects := s.objects[i := q])
    requires MovesOnly(Obj(s, i), q, t) && Sits(q, t, Home(th.pc) == Some(Object(i)))
    requires Around(s.ts[t].pc, th.pc, Object(i))
    requires StateOk(th) && !HasLock(th.pc) && !HasLock(s.ts[t].pc)
    ensures Fits(s, s', t)
  {
  }

  lemma RemoveOnly(q: seq<Tid>, t: Tid)
    requires Sits(q, t, true)
    ensures t in q && MovesOnly(q, Without(q, t), t) && Sits(Without(q, t), t, false)
  {
  }

  lemma LeaveLockFits(s: State, t: Tid)
    requires Local(s, t) && Enabled(s, t) && (s.ts[t].pc.LeaveLock? || s.ts[t].pc.LeaveUnlock?)
    ensures Fits(s, LeaveStep(s, t), t)
  {
    QuietFits(s, LeaveStep(s, t), t, LeaveStep(s, t).ts[t]);
  }

  lemma LeaveFits(s: State, t: Tid)
    requires Local(s, t) && (s.ts[t].pc.LeaveCount? || s.ts[t].pc.Store?)
    ensures Fits(s, LeaveStep(s, t), t)
  {
    QuietFits(s, LeaveStep(s, t), t, LeaveStep(s, t).ts[t]);
  }

  lemma LeaveRemoveFits(s: State, t: Tid)
    requires Local(s, t) && s.ts[t].pc.LeaveRemove?
    ensures Fits(s, LeaveStep(s, t), t)
  {
    RemoveOnly(s.active, t);
    ActiveFits(s, LeaveStep(s, t), t, LeaveStep(s, t).ts[t], Without(s.active, t));
  }

  lemma WakeLockFits(s: State, t: Tid)
    requires Local(s, t) && Enabled(s, t) && (s.ts[t].pc.ReadyLock? || s.ts[t].pc.ReadyUnlock?)
    ensures Fits(s, WakeStep(s, t), t)
  {
    QuietFits(s, WakeStep(s, t), t, WakeStep(s, t).ts[t]);
  }

  lemma WakeFits(s: State, t: Tid)
    requires Local(s, t) && (s.ts[t].pc.Waking? || s.ts[t].pc.SetState?)
    ensures Fits(s, WakeStep(s, t), t)
  {
    QuietFits(s, WakeStep(s, t), t, WakeStep(s, t).ts[t]);
  }

  lemma ReadyCountFits(s: State, t: Tid)
    requires Local(s, t) && s.ts[t].pc.ReadyCount?
    ensures Fits(s, WakeStep(s, t), t)
  {
    QuietFits(s, WakeStep(s, t), t, s.ts[t].(pc := ReadyUnlock));
  }

  lemma ReadyInsertFits(s: State, t: Tid)
    requires Local(s, t) && s.ts[t].pc.ReadyInsert?
    ensures Fits(s, WakeStep(s, t), t)
  {
    ReadyFits(s, WakeStep(s, t), t, WakeStep(s, t).ts[t], s.ready + [t]);
  }

  lemma TakeLockFits(s: State, t: Tid)
    requires Local(s, t) && Enabled(s, t) && (s.ts[t].pc.InReady? || s.ts[t].pc.TakeUnlock?)
    ensures Fits(s, TakeStep(s, t), t)
  {
    QuietFits(s, TakeStep(s, t), t, TakeStep(s, t).ts[t]);
  }

  lemma TakeFits(s: State, t: Tid)
    requires Local(s, t) && (s.ts[t].pc.TakeActive? || s.ts[t].pc.TakeReady?)
    ensures Fits(s, TakeStep(s, t), t)
  {
    QuietFits(s, TakeStep(s, t), t, TakeStep(s, t).ts[t]);
  }

  lemma DispatchFits(s: State, t: Tid)
    requires Local(s, t) && s.ts[t].pc.Dispatched?
    ensures Fits(s, TakeStep(s, t), t)
  {
    QuietFits(s, TakeStep(s, t), t, s.ts[t].(pc := InThread));
  }

  lemma TakeFrom(s: State, t: Tid, q: seq<Tid>)
    requires Local(s, t) && s.ts[t].pc.TakeRemove? && |q| == |s.ready| - 1
    requires MovesOnly(s.ready, q, t) && Sits(q, t, false)
    ensures Fits(s, Goto(s, t, TakeInsert).(ready := q), t)
  {
    ReadyFits(s, Goto(s, t, TakeInsert).(ready := q), t, s.ts[t].(pc := TakeInsert), q);
  }

  lemma TakeRemoveFits(s: State, t: Tid)
    requires Local(s, t) && s.ts[t].pc.TakeRemove?
    ensures Fits(s, TakeStep(s, t), t)
  {
    RemoveOnly(s.ready, t);
    TakeFrom(s, t, Without(s.ready, t));
    assert TakeStep(s, t) == Goto(s, t, TakeInsert).(ready := Without(s.ready, t));
  }

  lemma TakeInsertFits(s: State, t: Tid)
    requires Local(s, t) && s.ts[t].pc.TakeInsert?
    ensures Fits(s, TakeStep(s, t), t)
  {
    ActiveFits(s, TakeStep(s, t), t, TakeStep(s, t).ts[t], s.active + [t]);
  }

  predicate IsOther(pc: Pc) { !IsLeaving(pc) && !IsWaking(pc) && !IsTaking(pc) }

  lemma OtherFits(s: State, t: Tid, c: Choice)
    requires Local(s, t) && IsOther(s.ts[t].pc) && !s.ts[t].pc.QueueInsert? && !s.ts[t].pc.InQueue?
    ensures Fits(s, OtherStep(s, t, c), t)
  {
    QuietFits(s, OtherStep(s, t, c), t, OtherStep(s, t, c).ts[t]);
  }

  lemma QueueInsertFits(s: State, t: Tid, c: Choice)
    requires Local(s, t) && s.ts[t].pc.QueueInsert?
    ensures Fits(s, OtherStep(s, t, c), t)
  {
    var i := s.ts[t].pc.i;
    ObjectFits(s, OtherStep(s, t, c), t, OtherStep(s, t, c).ts[t], i, Obj(s, i) + [t]);
  }

  lemma PopFits(s: State, t: Tid, c: Choice, i: nat)
    requires Local(s, t) && s.ts[t].pc == InQueue(i) && |Obj(s, i)| > 0 && Obj(s, i)[0] == t
    ensures Fits(s, OtherStep(s, t, c), t)
  {
    assert Obj(s, i) == [t] + Obj(s, i)[1..];
    ObjectFits(s, OtherStep(s, t, c), t, OtherStep(s, t, c).ts[t], i, Obj(s, i)[1..]);
  }

  lemma InvStep(s: State, t: Tid, c: Choice)
    requires Inv(s) && Enabled(s, t)
    ensures Inv(Step(s, t, c))
  {
    assert InvThread(s, t, s.ts[t]);
    var pc := s.ts[t].pc;
    if pc.LeaveRemove? { LeaveRemoveFits(s, t); }
    else if pc.LeaveLock? || pc.LeaveUnlock? { LeaveLockFits(s, t); }
    else if IsLeaving(pc) { LeaveFits(s, t); }
    else if pc.ReadyInsert? { ReadyInsertFits(s, t); }
    else if pc.ReadyLock? || pc.ReadyUnlock? { WakeLockFits(s, t); }
    else if pc.ReadyCount? { ReadyCountFits(s, t); }
    else if IsWaking(pc) { WakeFits(s, t); }
    else if pc.TakeRemove? { TakeRemoveFits(s, t); }
    else if pc.TakeInsert? { TakeInsertFits(s, t); }
    else if pc.InReady? || pc.TakeUnlock? { TakeLockFits(s, t); }
    else if pc.Dispatched? { DispatchFits(s, t); }
    else if IsTaking(pc) { TakeFits(s, t); }
    else if pc.QueueInsert? { QueueInsertFits(s, t, c); }
    else if pc.InQueue? {
      if |Obj(s, pc.i)| > 0 && Obj(s, pc.i)[0] == t { PopFits(s, t, c, pc.i); }
    }
    else { OtherFits(s, t, c); }
    if Step(s, t, c) != s { MoveStep(s, Step(s, t, c), t); }
  }

  lemma {:induction false} InvRun(run: seq<State>, n: nat, k: nat)
    requires Run(run, n) && k < |run|
    ensures Inv(run[k])
  {
    if k == 0 {
      InvInit(n);
    } else {
      InvRun(run, n, k - 1);
      assert Next(run[k - 1], run[k - 1 + 1]);
      var t: nat, c: Choice :| Enabled(run[k - 1], t) && run[k] == Step(run[k - 1], t, c);
      InvStep(run[k - 1], t, c);
    }
  }

  // ---- Main results ----

  /** The link of a thread is in one queue at a time and once in that, namely in the queue that its program point
      says. */
  lemma LinkIsExclusive(run: seq<State>, n: nat, k: nat, t: Tid, q: Queue)
    requires Run(run, n) && k < |run| && t < |run[k].ts|
    ensures multiset(Contents(run[k], q))[t] == if Home(run[k].ts[t].pc) == Some(q) then 1 else 0
  {
    InvRun(run, n, k);
    assert InvThread(run[k], t, run[k].ts[t]);
    if q.Object? { assert Sits(Obj(run[k], q.i), t, Home(run[k].ts[t].pc) == Some(Object(q.i))); }
  }

  predicate Inserts(pc: Pc) { pc.QueueInsert? || pc.ReadyInsert? || pc.TakeInsert? }

  /** Whenever the library is about to store into the link of a thread, the thread is in no queue; whenever it is
      about to remove a thread, the thread is in that queue exactly once. */
  lemma RemovedBeforeReuse(run: seq<State>, n: nat, k: nat, t: Tid)
    requires Run(run, n) && k < |run| && t < |run[k].ts|
    ensures Inserts(run[k].ts[t].pc) ==> forall q: Queue :: t !in Contents(run[k], q)
    ensures run[k].ts[t].pc.LeaveRemove? ==> multiset(run[k].active)[t] == 1
    ensures run[k].ts[t].pc.TakeRemove? ==> multiset(run[k].ready)[t] == 1
  {
    if Inserts(run[k].ts[t].pc) {
      forall q: Queue ensures t !in Contents(run[k], q) { LinkIsExclusive(run, n, k, t, q); }
    }
    LinkIsExclusive(run, n, k, t, Active);
    LinkIsExclusive(run, n, k, t, Ready);
  }

  /** The counters are the lengths of their queues whenever queue_lock is free. */
  lemma CountersAreLengths(run: seq<State>, n: nat, k: nat)
    requires Run(run, n) && k < |run| && run[k].lock.None?
    ensures run[k].threadsReady == |run[k].ready| && run[k].threadsActive == |run[k].active|
  {
    InvRun(run, n, k);
  }

  /** The switch of pth_thread_runnable knows every state it finds, a dispatched thread is runnable, and no removal
      misses its thread. */
  lemma NoOddState(run: seq<State>, n: nat, k: nat)
    requires Run(run, n) && k < |run|
    ensures !run[k].odd
  {
    InvRun(run, n, k);
  }
}
