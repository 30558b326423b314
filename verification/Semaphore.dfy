/**
 Semaphores on futexes as a small-step machine: any number of threads wait and post on one semaphore,
 one access to shared memory per step, any interleaving. Line numbers refer to src/common/semaphore.c,
 and to src/common/futex.c where they start with f.
 */
module Semaphore {
  import opened Seqs
  import opened ThreadState

  type Tid = nat

  /** `again` tells the decrement in the loop (59) from the first attempt (51). */
  datatype Pc =
    | Idle
    | Read(again: bool)          // 39
    | Cas(again: bool, v: int)   // 40, with the value read
    | CountWaiter                // 54
    | FutexCheck                 // f81
    | LockList                   // callback (f65)
    | Recheck                    // callback, lock held (f66)
    | MarkBlocked                // callback, lock held (f67-68)
    | Insert                     // callback, lock held (f69)
    | UnlockBlocked              // callback, lock held, in the list (f73)
    | Blocked                    // off its vcore, in the list
    | UnlockPaused               // callback, lock held (f73)
    | Pausing                    // callback (f75-76): pth_thread_paused stores the state
    | Rewake                     // and makes its own thread runnable again
    | Dequeued                   // off its vcore, taken from the list by a poster
    | CheckWaiters               // 72
    | LockForWake                // f136
    | Pop                        // lock held (f138-141)
    | UnlockAfterPop             // lock held (f142)
    | MakeRunnable               // f110-113

  /** `hand` is the element a poster took. History: `woken` is set from the time the thread is taken out
      of the list until its retry is decided, `slot` is its last place in the list, `waker` who took it,
      `seen` the number of updates of `value` before its last read. */
  datatype Thread = Thread(
    pc: Pc, state: UState, hand: Option<Tid>, woken: bool, slot: nat, waker: Tid, seen: nat)

  /** The futex list of the semaphore is log[first..]; the entries before `first` are history.
      `posts` and `takes` count the updates of `value`. `odd` records a wake-up of a thread that is not
      off its vcore, or whose state pth_thread_runnable does not accept. */
  datatype State = State(
    value: int, nwaiters: nat, log: seq<Tid>, first: nat, lock: Option<Tid>, ts: seq<Thread>,
    initial: nat, posts: nat, takes: nat, odd: bool)

  const FreshThread := Thread(Idle, Running, None, false, 0, 0, 0)

  function Init(count: nat, n: nat): State {
    State(count, 0, [], 0, None, seq(n, _ => FreshThread), count, 0, 0, false)
  }

  ghost function List(s: State): seq<Tid>
    requires s.first <= |s.log|
  {
    s.log[s.first..]
  }

  function Put(s: State, t: Tid, th: Thread): State
    requires t < |s.ts|
  {
    s.(ts := s.ts[t := th])
  }

  function Goto(s: State, t: Tid, pc: Pc): State
    requires t < |s.ts|
  {
    Put(s, t, s.ts[t].(pc := pc))
  }

  predicate Enabled(s: State, t: Tid)
    requires t < |s.ts|
  {
    match s.ts[t].pc
    case Blocked => false
    case Dequeued => false
    case LockList => s.lock.None?
    case LockForWake => s.lock.None?
    case _ => true
  }

  // ---- upthread_sem_wait ----

  predicate IsTrying(pc: Pc) { pc.Read? || pc.Cas? || pc.CountWaiter? }

  function ReadValue(s: State, t: Tid, again: bool): State
    requires t < |s.ts|
  {
    var th := s.ts[t];
    if s.value > 0 then Put(s, t, th.(pc := Cas(again, s.value), seen := s.posts + s.takes))
    else Put(s, t, th.(pc := if again then FutexCheck else CountWaiter, woken := false))
  }

  function CompareAndSwap(s: State, t: Tid, again: bool, v: int): State
    requires t < |s.ts|
  {
    if s.value == v then Put(s, t, s.ts[t].(pc := Idle, woken := false)).(value := v - 1, takes := s.takes + 1)
    else Goto(s, t, Read(again))
  }

  function TryStep(s: State, t: Tid): State
    requires t < |s.ts| && IsTrying(s.ts[t].pc)
  {
    match s.ts[t].pc
    case Read(again) => ReadValue(s, t, again)
    case Cas(again, v) => CompareAndSwap(s, t, again, v)
    case CountWaiter => Goto(s, t, FutexCheck).(nwaiters := s.nwaiters + 1)
  }

  // ---- futex_wait on `value` and 0, with its callback ----

  predicate IsFutexWaiting(pc: Pc) {
    || pc.FutexCheck? || pc.LockList? || pc.Recheck? || pc.MarkBlocked? || pc.Insert?
    || pc.UnlockBlocked? || pc.UnlockPaused? || pc.Pausing? || pc.Rewake?
  }

  function InsertTail(s: State, t: Tid): State
    requires t < |s.ts|
  {
    Put(s, t, s.ts[t].(pc := UnlockBlocked, slot := |s.log|)).(log := s.log + [t])
  }

  function FutexWaitStep(s: State, t: Tid): State
    requires t < |s.ts| && IsFutexWaiting(s.ts[t].pc)
  {
    match s.ts[t].pc
    case FutexCheck => Goto(s, t, if s.value == 0 then LockList else Read(true))
    case LockList => Goto(s, t, Recheck).(lock := Some(t))
    case Recheck => Goto(s, t, if s.value == 0 then MarkBlocked else UnlockPaused)
    case MarkBlocked => Put(s, t, s.ts[t].(pc := Insert, state := BlockedMutex))
    case Insert => InsertTail(s, t)
    case UnlockBlocked => Goto(s, t, Blocked).(lock := None)
    case UnlockPaused => Goto(s, t, Pausing).(lock := None)
    case Pausing => Put(s, t, s.ts[t].(pc := Rewake, state := Paused))
    case Rewake =>
      Put(s, t, s.ts[t].(pc := Read(true), state := Runnable)).(odd := s.odd || !IsAccepted(s.ts[t].state))
  }

  // ---- upthread_sem_post, with futex_wake_some for one thread ----

  predicate IsPosting(pc: Pc) {
    pc.CheckWaiters? || pc.LockForWake? || pc.Pop? || pc.UnlockAfterPop? || pc.MakeRunnable?
  }

  function PopHead(s: State, t: Tid): State
    requires t < |s.ts|
  {
    if s.first < |s.log| && s.log[s.first] < |s.ts| then
      var e := s.log[s.first];
      var s1 := Put(s, e, s.ts[e].(pc := Dequeued, woken := true, waker := t));
      Put(s1, t, s1.ts[t].(pc := UnlockAfterPop, hand := Some(e))).(first := s.first + 1)
    else
      Put(s, t, s.ts[t].(pc := UnlockAfterPop, hand := None))
  }

  /** `uthread_runnable` on a thread blocked in `futex_wait` sends it on to its next attempt. */
  function Wake(s: State, t: Tid): State
    requires t < |s.ts|
  {
    match s.ts[t].hand
    case None => Goto(s, t, Idle)
    case Some(e) =>
      if e < |s.ts| && s.ts[e].pc.Dequeued? && IsAccepted(s.ts[e].state) then
        Goto(Put(s, e, s.ts[e].(pc := Read(true), state := Runnable)), t, Idle)
      else Goto(s, t, Idle).(odd := true)
  }

  function PostStep(s: State, t: Tid): State
    requires t < |s.ts| && IsPosting(s.ts[t].pc)
  {
    match s.ts[t].pc
    case CheckWaiters => Goto(s, t, if s.nwaiters > 0 then LockForWake else Idle)
    case LockForWake => Goto(s, t, Pop).(lock := Some(t))
    case Pop => PopHead(s, t)
    case UnlockAfterPop => Goto(s, t, MakeRunnable).(lock := None)
    case MakeRunnable => Wake(s, t)
  }

  /** An idle thread starts a wait, or performs the increment (69) of a post. */
  function CallStep(s: State, t: Tid, post: bool): State
    requires t < |s.ts|
  {
    if post then Goto(s, t, CheckWaiters).(value := s.value + 1, posts := s.posts + 1)
    else Goto(s, t, Read(false))
  }

  function Step(s: State, t: Tid, post: bool): State
    requires t < |s.ts| && Enabled(s, t)
  {
    var pc := s.ts[t].pc;
    if IsTrying(pc) then TryStep(s, t)
    else if IsFutexWaiting(pc) then FutexWaitStep(s, t)
    else if IsPosting(pc) then PostStep(s, t)
    else CallStep(s, t, post)
  }

  ghost predicate Next(s: State, s': State) {
    exists t: Tid, post: bool :: t < |s.ts| && Enabled(s, t) && s' == Step(s, t, post)
  }

  /** A run of n threads on a semaphore initialised with `count`. */
  ghost predicate Run(run: seq<State>, count: nat, n: nat) {
    && |run| > 0
    && run[0] == Init(count, n)
    && forall k :: 0 <= k < |run| - 1 ==> Next(run[k], run[k + 1])
  }

  // ---- The invariant ----

  predicate HoldsLock(pc: Pc) {
    || pc.Recheck? || pc.MarkBlocked? || pc.Insert? || pc.UnlockBlocked? || pc.UnlockPaused?
    || pc.Pop? || pc.UnlockAfterPop?
  }

  predicate IsListed(pc: Pc) { pc.UnlockBlocked? || pc.Blocked? }

  /** In a wait that has counted itself in `nwaiters`. */
  predicate IsWaiter(pc: Pc) {
    || IsFutexWaiting(pc) || pc.Blocked? || pc.Dequeued?
    || (pc.Read? && pc.again) || (pc.Cas? && pc.again)
  }

  predicate HasHand(pc: Pc) { pc.UnlockAfterPop? || pc.MakeRunnable? }

  /** A poster between its increment and its look into the list. */
  predicate IsInFlight(th: Thread) { th.pc.CheckWaiters? || th.pc.LockForWake? || th.pc.Pop? }

  /** A waiter taken out of the list whose retry is not yet decided. */
  predicate IsRetrying(th: Thread) { th.woken }

  ghost function Posters(s: State): nat { Tally(s.ts, IsInFlight) }
  ghost function Retriers(s: State): nat { Tally(s.ts, IsRetrying) }

  ghost predicate InvThread(s: State, t: int, th: Thread) {
    && (HoldsLock(th.pc) <==> s.lock == Some(t))
    && (IsListed(th.pc) ==> s.first <= th.slot < |s.log| && s.log[th.slot] == t)
    && (IsWaiter(th.pc) ==> s.nwaiters > 0)
    && (th.pc.Cas? ==> th.pc.v > 0 && th.seen <= s.posts + s.takes
                       && (th.seen == s.posts + s.takes ==> s.value == th.pc.v))
    && (th.woken ==> th.pc.Dequeued? || (th.pc.Read? && th.pc.again) || (th.pc.Cas? && th.pc.again))
    && (th.pc.Dequeued? ==> th.woken)
    && (th.pc.Insert? || IsListed(th.pc) || th.pc.Dequeued? ==> th.state.BlockedMutex?)
    && (th.pc.Rewake? ==> th.state.Paused?)
  }

  ghost predicate InvHands(s: State, t: int, th: Thread) {
    && (HasHand(th.pc) && th.hand.Some? ==>
          var e := th.hand.value; e < |s.ts| && s.ts[e].pc.Dequeued? && s.ts[e].waker == t)
    && (th.pc.Dequeued? ==>
          th.waker < |s.ts| && HasHand(s.ts[th.waker].pc) && s.ts[th.waker].hand == Some(t))
  }

  ghost predicate InvList(s: State) {
    && s.first <= |s.log|
    && forall k :: s.first <= k < |s.log| ==>
         s.log[k] < |s.ts| && IsListed(s.ts[s.log[k]].pc) && s.ts[s.log[k]].slot == k
  }

  /** Somebody is in the list, or has found the value 0 under the lock and is about to be. */
  ghost predicate Contended(s: State) {
    || s.first < |s.log|
    || (s.lock.Some? && s.lock.value < |s.ts|
        && (s.ts[s.lock.value].pc.MarkBlocked? || s.ts[s.lock.value].pc.Insert?))
  }

  ghost predicate InvValue(s: State) {
    && s.value == s.initial + s.posts - s.takes
    && s.value >= 0
    && (Contended(s) ==> s.value <= Posters(s) + Retriers(s))
    && (s.lock.Some? ==> s.lock.value < |s.ts|)
  }

  ghost predicate InvThreads(s: State) {
    && (forall t :: 0 <= t < |s.ts| ==> InvThread(s, t, s.ts[t]))
    && (forall t :: 0 <= t < |s.ts| ==> InvHands(s, t, s.ts[t]))
  }

  ghost predicate Inv(s: State) {
    InvThreads(s) && InvList(s) && InvValue(s) && !s.odd
  }

  lemma InvInit(count: nat, n: nat)
    ensures Inv(Init(count, n))
  {
  }

  // ---- Every step keeps the invariant ----

  /** How the rest of the state may change under a thread that does not move. */
  ghost predicate Interferes(s: State, s': State, t: Tid) {
    && |s'.ts| == |s.ts|
    && s'.first == s.first && s.log <= s'.log
    && s'.nwaiters >= s.nwaiters
    && s'.posts >= s.posts && s'.takes >= s.takes
    && (s'.posts + s'.takes == s.posts + s.takes ==> s'.value == s.value)
    && (s'.lock == s.lock || (s.lock.None? && s'.lock == Some(t)) || (s.lock == Some(t) && s'.lock.None?))
  }

  /** Only thread t moves, and it neither takes nor hands over a list element. */
  ghost predicate Single(s: State, s': State, t: Tid) {
    && t < |s.ts| && Interferes(s, s', t)
    && s'.ts == s.ts[t := s'.ts[t]]
    && var th, th' := s.ts[t], s'.ts[t];
    && !th.pc.Dequeued? && !th'.pc.Dequeued?
    && (HasHand(th'.pc) ==> HasHand(th.pc)) && (HasHand(th.pc) && !HasHand(th'.pc) ==> th.hand.None?)
    && th'.hand == th.hand
  }

  lemma SingleThreads(s: State, s': State, t: Tid)
    requires InvThreads(s) && Single(s, s', t) && InvThread(s', t, s'.ts[t])
    ensures InvThreads(s')
  {
  }

  lemma SingleList(s: State, s': State, t: Tid)
    requires InvList(s) && Single(s, s', t) && s'.log == s.log
    requires IsListed(s'.ts[t].pc) == IsListed(s.ts[t].pc) && s'.ts[t].slot == s.ts[t].slot
    ensures InvList(s')
  {
  }

  /** A move that does not change the list. */
  ghost predicate Fits(s: State, s': State, t: Tid) {
    && Single(s, s', t) && s'.log == s.log && s'.odd == s.odd && InvThread(s', t, s'.ts[t])
    && IsListed(s'.ts[t].pc) == IsListed(s.ts[t].pc) && s'.ts[t].slot == s.ts[t].slot
  }

  function Weight(th: Thread): nat { (if IsInFlight(th) then 1 else 0) + if IsRetrying(th) then 1 else 0 }

  lemma Tallies(s: State, t: Tid, th: Thread)
    requires t < |s.ts|
    ensures Tally(s.ts[t := th], IsInFlight) + Tally(s.ts[t := th], IsRetrying) ==
      Posters(s) + Retriers(s) - Weight(s.ts[t]) + Weight(th)
  {
    TallyUpdate(s.ts, t, th, IsInFlight);
    TallyUpdate(s.ts, t, th, IsRetrying);
  }

  /** The count goes with the posts and takes, and under contention with the posters and retriers. */
  ghost predicate KeepsValue(s: State, s': State, t: Tid) {
    && t < |s.ts| == |s'.ts|
    && s'.initial == s.initial && s'.value - s.value == s'.posts - s.posts - (s'.takes - s.takes) && s'.value >= 0
    && (s'.lock == s.lock || s'.lock == Some(t) || s'.lock.None?)
    && (Contended(s') ==>
          || s'.value == 0
          || (Contended(s) && s'.value + Weight(s.ts[t]) <= s.value + Weight(s'.ts[t])))
  }

  lemma SingleValue(s: State, s': State, t: Tid)
    requires InvValue(s) && KeepsValue(s, s', t) && s'.ts == s.ts[t := s'.ts[t]]
    ensures InvValue(s')
  {
    Tallies(s, t, s'.ts[t]);
  }

  lemma SingleStep(s: State, s': State, t: Tid)
    requires Inv(s) && Fits(s, s', t) && KeepsValue(s, s', t)
    ensures Inv(s')
  {
    SingleThreads(s, s', t);
    SingleList(s, s', t);
    SingleValue(s, s', t);
  }

  /** What the invariant says about t and the count. */
  ghost predicate Local(s: State, t: Tid) {
    t < |s.ts| && InvThread(s, t, s.ts[t]) && s.value >= 0
  }

  lemma ReadFits(s: State, t: Tid, again: bool)
    requires Local(s, t) && s.ts[t].pc == Read(again)
    ensures Fits(s, ReadValue(s, t, again), t) && KeepsValue(s, ReadValue(s, t, again), t)
  {
  }

  lemma CasFits(s: State, t: Tid, again: bool, v: int)
    requires Local(s, t) && s.ts[t].pc == Cas(again, v)
    ensures Fits(s, CompareAndSwap(s, t, again, v), t) && KeepsValue(s, CompareAndSwap(s, t, again, v), t)
  {
  }

  lemma CountFits(s: State, t: Tid)
    requires Local(s, t) && s.ts[t].pc.CountWaiter?
    ensures Fits(s, TryStep(s, t), t) && KeepsValue(s, TryStep(s, t), t)
  {
  }

  lemma StepTrying(s: State, t: Tid)
    requires Inv(s) && t < |s.ts| && IsTrying(s.ts[t].pc)
    ensures Inv(TryStep(s, t))
  {
    match s.ts[t].pc {
      case Read(again) => ReadFits(s, t, again);
      case Cas(again, v) => CasFits(s, t, again, v);
      case CountWaiter => CountFits(s, t);
    }
    SingleStep(s, TryStep(s, t), t);
  }

  predicate MovesLock(pc: Pc) { pc.LockList? || pc.UnlockBlocked? || pc.UnlockPaused? }

  lemma ListLockFits(s: State, t: Tid)
    requires Local(s, t) && MovesLock(s.ts[t].pc) && Enabled(s, t)
    ensures Fits(s, FutexWaitStep(s, t), t) && KeepsValue(s, FutexWaitStep(s, t), t)
  {
  }

  lemma CheckFits(s: State, t: Tid)
    requires Local(s, t) && (s.ts[t].pc.FutexCheck? || s.ts[t].pc.Recheck?)
    ensures Fits(s, FutexWaitStep(s, t), t) && KeepsValue(s, FutexWaitStep(s, t), t)
  {
  }

  lemma MarkFits(s: State, t: Tid)
    requires Local(s, t) && (s.ts[t].pc.MarkBlocked? || s.ts[t].pc.Pausing? || s.ts[t].pc.Rewake?)
    ensures Fits(s, FutexWaitStep(s, t), t) && KeepsValue(s, FutexWaitStep(s, t), t)
  {
  }

  lemma StepFutexWaiting(s: State, t: Tid)
    requires Inv(s) && t < |s.ts| && IsFutexWaiting(s.ts[t].pc) && Enabled(s, t) && !s.ts[t].pc.Insert?
    ensures Inv(FutexWaitStep(s, t))
  {
    var pc := s.ts[t].pc;
    if MovesLock(pc) { ListLockFits(s, t); }
    else if pc.FutexCheck? || pc.Recheck? { CheckFits(s, t); }
    else { MarkFits(s, t); }
    SingleStep(s, FutexWaitStep(s, t), t);
  }

  lemma InsertFits(s: State, t: Tid)
    requires Local(s, t) && s.first <= |s.log| && s.ts[t].pc.Insert?
    ensures var s' := InsertTail(s, t); Single(s, s', t) && InvThread(s', t, s'.ts[t]) && KeepsValue(s, s', t)
  {
  }

  lemma StepInsert(s: State, t: Tid)
    requires Inv(s) && t < |s.ts| && s.ts[t].pc.Insert?
    ensures Inv(InsertTail(s, t))
  {
    InsertFits(s, t);
    SingleValue(s, InsertTail(s, t), t);
    SingleThreads(s, InsertTail(s, t), t);
  }

  /** `nwaiters` never falls, so a poster that reads 0 overlooks nobody. */
  lemma ContentionIsCounted(s: State)
    requires Inv(s)
    ensures Contended(s) ==> s.nwaiters > 0
  {
    if s.first < |s.log| {
      assert IsListed(s.ts[s.log[s.first]].pc);
    }
  }

  lemma CheckWaitersFits(s: State, t: Tid)
    requires Local(s, t) && s.ts[t].pc.CheckWaiters? && (Contended(s) ==> s.nwaiters > 0)
    ensures Fits(s, PostStep(s, t), t) && KeepsValue(s, PostStep(s, t), t)
  {
  }

  lemma PostFits(s: State, t: Tid)
    requires Local(s, t) && (s.ts[t].pc.LockForWake? || s.ts[t].pc.UnlockAfterPop?) && Enabled(s, t)
    ensures Fits(s, PostStep(s, t), t) && KeepsValue(s, PostStep(s, t), t)
  {
  }

  lemma StepPosting(s: State, t: Tid)
    requires Inv(s) && t < |s.ts| && IsPosting(s.ts[t].pc) && Enabled(s, t)
    requires !s.ts[t].pc.Pop? && !s.ts[t].pc.MakeRunnable?
    ensures Inv(PostStep(s, t))
  {
    ContentionIsCounted(s);
    if s.ts[t].pc.CheckWaiters? { CheckWaitersFits(s, t); } else { PostFits(s, t); }
    SingleStep(s, PostStep(s, t), t);
  }

  lemma CallFits(s: State, t: Tid, post: bool)
    requires Local(s, t) && s.ts[t].pc.Idle?
    ensures Fits(s, CallStep(s, t, post), t) && KeepsValue(s, CallStep(s, t, post), t)
  {
  }

  lemma StepCall(s: State, t: Tid, post: bool)
    requires Inv(s) && t < |s.ts| && s.ts[t].pc.Idle?
    ensures Inv(CallStep(s, t, post))
  {
    CallFits(s, t, post);
    SingleStep(s, CallStep(s, t, post), t);
  }

  /** t takes e out of the list. */
  ghost predicate Pops(s: State, s': State, t: Tid, e: Tid) {
    && t < |s.ts| && s.ts[t].pc.Pop? && e < |s.ts| && e != t && IsListed(s.ts[e].pc) && s.ts[e].slot == s.first
    && s' == s.(first := s.first + 1,
                ts := s.ts[e := s.ts[e].(pc := Dequeued, woken := true, waker := t)]
                      [t := s.ts[t].(pc := UnlockAfterPop, hand := Some(e))])
  }

  lemma PopThread(s: State, s': State, t: Tid, e: Tid, u: Tid)
    requires Pops(s, s', t, e) && s.lock == Some(t) && s.first < |s.log| && s.log[s.first] == e
    requires u < |s.ts| && InvThread(s, u, s.ts[u])
    ensures InvThread(s', u, s'.ts[u])
  {
  }

  lemma PopHand(s: State, s': State, t: Tid, e: Tid, u: Tid)
    requires Pops(s, s', t, e) && u < |s.ts| && InvHands(s, u, s.ts[u])
    ensures InvHands(s', u, s'.ts[u])
  {
  }

  lemma PopThreads(s: State, t: Tid, e: Tid)
    requires InvThreads(s) && t < |s.ts| && s.ts[t].pc.Pop? && e < |s.ts| && e != t
    requires s.first < |s.log| && s.log[s.first] == e && IsListed(s.ts[e].pc) && s.ts[e].slot == s.first
    ensures InvThreads(PopHead(s, t))
  {
    assert InvThread(s, t, s.ts[t]);
    var s' := PopHead(s, t);
    assert Pops(s, s', t, e);
    forall u | 0 <= u < |s'.ts| ensures InvThread(s', u, s'.ts[u]) { PopThread(s, s', t, e, u); }
    forall u | 0 <= u < |s'.ts| ensures InvHands(s', u, s'.ts[u]) { PopHand(s, s', t, e, u); }
  }

  lemma PopList(s: State, t: Tid, e: Tid)
    requires InvList(s) && t < |s.ts| && s.ts[t].pc.Pop?
    requires s.first < |s.log| && s.log[s.first] == e && e < |s.ts|
    ensures InvList(PopHead(s, t))
  {
  }

  lemma PopValue(s: State, t: Tid, e: Tid)
    requires InvValue(s) && t < |s.ts| && s.ts[t].pc.Pop? && e < |s.ts| && e != t
    requires s.first < |s.log| && s.log[s.first] == e && IsListed(s.ts[e].pc) && !s.ts[e].woken && !s.ts[t].woken
    requires s.lock == Some(t)
    ensures InvValue(PopHead(s, t))
  {
    var s1 := Put(s, e, s.ts[e].(pc := Dequeued, woken := true, waker := t));
    Tallies(s, e, s1.ts[e]);
    Tallies(s1, t, PopHead(s, t).ts[t]);
  }

  lemma PopNobodyThreads(s: State, t: Tid)
    requires InvThreads(s) && t < |s.ts| && s.ts[t].pc.Pop? && s.first == |s.log|
    ensures InvThreads(PopHead(s, t))
  {
    var s' := PopHead(s, t);
    forall u | 0 <= u < |s'.ts| ensures InvThread(s', u, s'.ts[u]) && InvHands(s', u, s'.ts[u]) {
      assert InvThread(s, u, s.ts[u]) && InvHands(s, u, s.ts[u]);
    }
  }

  lemma StepPopNobody(s: State, t: Tid)
    requires Inv(s) && t < |s.ts| && s.ts[t].pc.Pop? && s.first == |s.log|
    ensures Inv(PopHead(s, t))
  {
    PopNobodyThreads(s, t);
    SingleValue(s, PopHead(s, t), t);
  }

  lemma StepPop(s: State, t: Tid)
    requires Inv(s) && t < |s.ts| && s.ts[t].pc.Pop?
    ensures Inv(PopHead(s, t))
  {
    if s.first < |s.log| {
      var e := s.log[s.first];
      assert IsListed(s.ts[e].pc) && s.ts[e].slot == s.first;
      PopThreads(s, t, e);
      PopList(s, t, e);
      PopValue(s, t, e);
    } else {
      StepPopNobody(s, t);
    }
  }

  lemma HandIsReady(s: State, t: Tid, e: Tid)
    requires InvThreads(s) && t < |s.ts| && s.ts[t].pc.MakeRunnable? && s.ts[t].hand == Some(e)
    ensures e < |s.ts| && s.ts[e].pc.Dequeued? && e != t && IsAccepted(s.ts[e].state) && s.ts[e].waker == t
  {
    assert InvHands(s, t, s.ts[t]);
    assert InvThread(s, e, s.ts[e]);
  }

  lemma WakeThread(s: State, t: Tid, e: Tid, u: Tid)
    requires t < |s.ts| && s.ts[t].pc.MakeRunnable? && s.ts[t].hand == Some(e)
    requires e < |s.ts| && s.ts[e].pc.Dequeued? && e != t && IsAccepted(s.ts[e].state) && s.ts[e].waker == t
    requires u < |s.ts| && InvThread(s, u, s.ts[u]) && InvHands(s, u, s.ts[u])
    ensures var s' := Wake(s, t); u < |s'.ts| && InvThread(s', u, s'.ts[u]) && InvHands(s', u, s'.ts[u])
  {
  }

  lemma WakeThreads(s: State, t: Tid, e: Tid)
    requires InvThreads(s) && t < |s.ts| && s.ts[t].pc.MakeRunnable? && s.ts[t].hand == Some(e)
    ensures InvThreads(Wake(s, t))
  {
    HandIsReady(s, t, e);
    var s' := Wake(s, t);
    forall u | 0 <= u < |s'.ts| ensures InvThread(s', u, s'.ts[u]) && InvHands(s', u, s'.ts[u]) {
      WakeThread(s, t, e, u);
    }
  }

  lemma WakeList(s: State, t: Tid, e: Tid)
    requires InvList(s) && t < |s.ts| && s.ts[t].pc.MakeRunnable? && s.ts[t].hand == Some(e)
    requires e < |s.ts| && s.ts[e].pc.Dequeued? && e != t && IsAccepted(s.ts[e].state)
    ensures InvList(Wake(s, t))
  {
  }

  lemma WakeValue(s: State, t: Tid, e: Tid)
    requires InvValue(s) && t < |s.ts| && s.ts[t].pc.MakeRunnable? && s.ts[t].hand == Some(e)
    requires e < |s.ts| && s.ts[e].pc.Dequeued? && e != t && IsAccepted(s.ts[e].state)
    ensures InvValue(Wake(s, t))
  {
    var s1 := Put(s, e, s.ts[e].(pc := Read(true), state := Runnable));
    Tallies(s, e, s1.ts[e]);
    Tallies(s1, t, Wake(s, t).ts[t]);
  }

  lemma StepWake(s: State, t: Tid)
    requires Inv(s) && t < |s.ts| && s.ts[t].pc.MakeRunnable?
    ensures Inv(Wake(s, t))
  {
    if s.ts[t].hand.Some? {
      HandIsReady(s, t, s.ts[t].hand.value);
      WakeThreads(s, t, s.ts[t].hand.value);
      WakeList(s, t, s.ts[t].hand.value);
      WakeValue(s, t, s.ts[t].hand.value);
    } else {
      SingleStep(s, Wake(s, t), t);
    }
  }

  lemma InvStep(s: State, t: Tid, post: bool)
    requires Inv(s) && t < |s.ts| && Enabled(s, t)
    ensures Inv(Step(s, t, post))
  {
    var pc := s.ts[t].pc;
    if IsTrying(pc) { StepTrying(s, t); }
    else if pc.Insert? { StepInsert(s, t); }
    else if IsFutexWaiting(pc) { StepFutexWaiting(s, t); }
    else if pc.Pop? { StepPop(s, t); }
    else if pc.MakeRunnable? { StepWake(s, t); }
    else if IsPosting(pc) { StepPosting(s, t); }
    else { StepCall(s, t, post); }
  }

  // ---- What holds in every state of every run ----

  lemma {:induction false} InvRun(run: seq<State>, count: nat, n: nat, k: nat)
    requires Run(run, count, n) && k < |run|
    ensures Inv(run[k])
  {
    if k == 0 {
      InvInit(count, n);
    } else {
      InvRun(run, count, n, k - 1);
      assert Next(run[k - 1], run[k - 1 + 1]);
      var t: Tid, post: bool :|
        t < |run[k - 1].ts| && Enabled(run[k - 1], t) && run[k] == Step(run[k - 1], t, post);
      InvStep(run[k - 1], t, post);
    }
  }

  /** While somebody is in the list, or about to be, every unit of the count is matched by a poster
      that has not looked into the list yet or by a waiter on its way to retry. */
  lemma NoLostWakeup(run: seq<State>, count: nat, n: nat, k: nat)
    requires Run(run, count, n) && k < |run|
    ensures Contended(run[k]) ==> run[k].value <= Posters(run[k]) + Retriers(run[k])
  {
    InvRun(run, count, n, k);
  }

  /** Nobody has posted without looking into the list, and nobody is on its way to retry. */
  ghost predicate Quiescent(s: State) {
    forall t :: 0 <= t < |s.ts| ==> !IsInFlight(s.ts[t]) && !IsRetrying(s.ts[t])
  }

  lemma QuiescentMeansExhausted(run: seq<State>, count: nat, n: nat, k: nat)
    requires Run(run, count, n) && k < |run|
    requires Quiescent(run[k]) && run[k].first < |run[k].log|
    ensures run[k].value == 0
  {
    NoLostWakeup(run, count, n, k);
    InvRun(run, count, n, k);
    TallyNone(run[k].ts, IsInFlight);
    TallyNone(run[k].ts, IsRetrying);
  }

  /** The list holds exactly the threads blocked on it, each once, and nobody else is ever woken. */
  lemma ListIsExact(run: seq<State>, count: nat, n: nat, k: nat, t: Tid)
    requires Run(run, count, n) && k < |run| && t < |run[k].ts|
    ensures run[k].first <= |run[k].log| && NoDup(List(run[k])) && !run[k].odd
    ensures t in List(run[k]) <==> IsListed(run[k].ts[t].pc)
  {
    InvRun(run, count, n, k);
    var s := run[k];
    assert forall j :: 0 <= j < |List(s)| ==> List(s)[j] == s.log[s.first + j];
    if IsListed(s.ts[t].pc) {
      assert List(s)[s.ts[t].slot - s.first] == t;
    }
  }

  /** A poster that is about to make a thread runnable, and a waiter that rewakes itself, find a state that
      pth_thread_runnable accepts: the callback has stored it, and no other poster has the thread. */
  lemma WakersFindAccepted(run: seq<State>, count: nat, n: nat, k: nat, t: Tid)
    requires Run(run, count, n) && k < |run| && t < |run[k].ts|
    ensures var s := run[k];
      var th := s.ts[t];
      && (th.pc.MakeRunnable? && th.hand.Some? ==>
            var e := th.hand.value;
            && e < |s.ts| && s.ts[e].pc.Dequeued? && s.ts[e].state == BlockedMutex && IsAccepted(s.ts[e].state)
            && forall u: nat | u < |s.ts| && u != t && HasHand(s.ts[u].pc) :: s.ts[u].hand != Some(e))
      && (th.pc.Rewake? ==> IsAccepted(th.state))
  {
    InvRun(run, count, n, k);
    var s := run[k];
    assert InvThread(s, t, s.ts[t]) && InvHands(s, t, s.ts[t]);
    if s.ts[t].pc.MakeRunnable? && s.ts[t].hand.Some? {
      assert InvThread(s, s.ts[t].hand.value, s.ts[s.ts[t].hand.value]);
      forall u: nat | u < |s.ts| && u != t && HasHand(s.ts[u].pc) ensures s.ts[u].hand != s.ts[t].hand {
        assert InvHands(s, u, s.ts[u]);
      }
    }
  }

  /** Units are neither lost nor made up: the count never goes negative. */
  lemma Conservation(run: seq<State>, count: nat, n: nat, k: nat)
    requires Run(run, count, n) && k < |run|
    ensures run[k].value == count + run[k].posts - run[k].takes >= 0
  {
    InvRun(run, count, n, k);
    InitialIsConstant(run, count, n, k);
  }

  /** Which steps post and which take. */
  predicate Effect(s: State, s': State, t: Tid) {
    && t < |s.ts| && t < |s'.ts| && s'.initial == s.initial && s'.nwaiters >= s.nwaiters
    && s'.posts == s.posts + (if s.ts[t].pc.Idle? && s'.ts[t].pc.CheckWaiters? then 1 else 0)
    && s'.takes == s.takes + (if s.ts[t].pc.Cas? && s'.ts[t].pc.Idle? then 1 else 0)
  }

  lemma TryEffect(s: State, t: Tid)
    requires t < |s.ts| && IsTrying(s.ts[t].pc)
    ensures Effect(s, TryStep(s, t), t)
  {
  }

  lemma WaitEffect(s: State, t: Tid)
    requires t < |s.ts| && IsFutexWaiting(s.ts[t].pc)
    ensures Effect(s, FutexWaitStep(s, t), t)
  {
  }

  lemma PostEffect(s: State, t: Tid)
    requires t < |s.ts| && IsPosting(s.ts[t].pc)
    ensures Effect(s, PostStep(s, t), t)
  {
  }

  lemma StepEffect(s: State, t: Tid, post: bool)
    requires t < |s.ts| && Enabled(s, t)
    ensures var s' := Step(s, t, post);
      && t < |s'.ts| && s'.initial == s.initial && s'.nwaiters >= s.nwaiters
      && s'.posts == s.posts + (if s.ts[t].pc.Idle? && s'.ts[t].pc.CheckWaiters? then 1 else 0)
      && s'.takes == s.takes + (if s.ts[t].pc.Cas? && s'.ts[t].pc.Idle? then 1 else 0)
  {
    if IsTrying(s.ts[t].pc) { TryEffect(s, t); }
    else if IsFutexWaiting(s.ts[t].pc) { WaitEffect(s, t); }
    else if IsPosting(s.ts[t].pc) { PostEffect(s, t); }
  }

  lemma {:induction false} InitialIsConstant(run: seq<State>, count: nat, n: nat, k: nat)
    requires Run(run, count, n) && k < |run|
    ensures run[k].initial == count
  {
    if k > 0 {
      InitialIsConstant(run, count, n, k - 1);
      assert Next(run[k - 1], run[k - 1 + 1]);
      var t: Tid, post: bool :|
        t < |run[k - 1].ts| && Enabled(run[k - 1], t) && run[k] == Step(run[k - 1], t, post);
      StepEffect(run[k - 1], t, post);
    }
  }

  /** A compare-and-swap fails only if another thread has updated the count since the read. */
  lemma FailedCasMeansProgress(run: seq<State>, count: nat, n: nat, k: nat, t: Tid)
    requires Run(run, count, n) && k < |run| && t < |run[k].ts|
    requires run[k].ts[t].pc.Cas? && run[k].value != run[k].ts[t].pc.v
    ensures run[k].posts + run[k].takes > run[k].ts[t].seen
  {
    InvRun(run, count, n, k);
  }

  lemma HolderCanStep(s: State)
    requires Inv(s) && s.lock.Some?
    ensures s.lock.value < |s.ts| && Enabled(s, s.lock.value) && !s.ts[s.lock.value].pc.Idle?
  {
    assert HoldsLock(s.ts[s.lock.value].pc);
  }

  lemma WakerCanStep(s: State, e: Tid)
    requires Inv(s) && e < |s.ts| && s.ts[e].pc.Dequeued?
    ensures s.ts[e].waker < |s.ts| && Enabled(s, s.ts[e].waker) && !s.ts[s.ts[e].waker].pc.Idle?
  {
    assert InvHands(s, e, s.ts[e]);
  }

  /** When no thread inside a call can step, all of them are blocked and the count is 0. */
  lemma StuckMeansExhausted(run: seq<State>, count: nat, n: nat, k: nat, t: Tid)
    requires Run(run, count, n) && k < |run| && t < |run[k].ts| && !run[k].ts[t].pc.Idle?
    requires forall u :: 0 <= u < |run[k].ts| && Enabled(run[k], u) ==> run[k].ts[u].pc.Idle?
    ensures run[k].ts[t].pc.Blocked? && run[k].value == 0
  {
    InvRun(run, count, n, k);
    var s := run[k];
    if s.lock.Some? { HolderCanStep(s); }
    if s.ts[t].pc.Dequeued? { WakerCanStep(s, t); }
    forall u | 0 <= u < |s.ts| ensures !IsInFlight(s.ts[u]) && !IsRetrying(s.ts[u]) {
      if s.ts[u].pc.Dequeued? { WakerCanStep(s, u); }
    }
    assert IsListed(s.ts[t].pc);
    QuiescentMeansExhausted(run, count, n, k);
  }
}
