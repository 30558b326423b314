/**
 The sense-reversing barrier as a small-step machine: n participants, one program counter each,
 one access to shared memory per step, any interleaving, any number of reuses.
 */
module Barrier {
  import opened Seqs
  import opened ThreadState

  type Tid = nat

  /** One entry per side of the `wait` flag, as in `blocked[2]`. */
  datatype Pair<T> = Pair(lo: T, hi: T) {
    function At(b: bool): T { if b then hi else lo }
    function With(b: bool, x: T): Pair<T> { if b then this.(hi := x) else this.(lo := x) }
  }

  /** A queue of blocked threads. Its contents are touched only while `mtx` is held. */
  datatype ContextQ = ContextQ(queue: seq<Tid>, mtx: Option<Tid>, qnode: Option<Tid>)

  /** Where a thread is. Comments give the line of src/common/barrier.c that runs next. */
  datatype Pc =
    | Outside             // not in a call; next it copies the `wait` flag (61)
    | Arriving            // fetch-and-add on `arrived` (64)
    | ResetArrived        // releaser (69)
    | ReadFlag            // releaser, right-hand side of 71
    | FlipFlag            // releaser, store of 71
    | Signalling(i: nat)  // releaser (76-78)
    | LockToWake          // releaser (83)
    | Waking(i: nat)      // releaser, lock held (84-86)
    | ClearLen            // releaser, lock held (87)
    | UnlockAfterWake     // releaser, lock held (88)
    | Spinning            // waiter (97)
    | LockToBlock         // waiter (102)
    | Recheck             // waiter, lock held (103)
    | SaveQnode           // waiter, lock held (104)
    | Suspending          // callback of the waiter, lock held (48-50)
    | Enqueueing          // callback, lock held (51-52)
    | UnlockAfterEnqueue  // callback, lock held (53)
    | Blocked             // off its vcore until some thread makes it runnable
    | UnlockToSpin        // waiter, lock held (107)

  /** `sense` and `id` are the locals of the call, `flag` the value loaded by line 71. The rest is history:
      how often the thread arrived and returned, and where in a queue it last stored itself. */
  datatype Thread = Thread(
    pc: Pc, sense: bool, id: nat, flag: bool, state: UState, entered: nat, left: nat, slot: nat)

  /** `round`, `cur`, `prev` and `releaser` record history: how often the flag was flipped, who arrived, in
      order, since the last flip and between the two flips before, and who is releasing. `overflow` and `odd`
      record faults: a store past the end of a queue, and a wake-up of a thread that is not off its vcore or
      whose state pth_thread_runnable does not accept. */
  datatype State = State(
    n: nat, arrived: nat, wait: bool, signals: seq<bool>, blocked: Pair<ContextQ>, ts: seq<Thread>,
    round: nat, cur: seq<Tid>, prev: seq<Tid>, releaser: Option<Tid>, overflow: bool, odd: bool)

  const FreshThread := Thread(Outside, false, 0, false, Running, 0, 0, 0)
  const EmptyQ := ContextQ([], None, None)

  function Init(n: nat): State {
    State(n, 0, false, seq(n, _ => false), Pair(EmptyQ, EmptyQ), seq(n, _ => FreshThread),
          0, [], [], None, false, false)
  }

  // ---- Steps ----

  predicate IsOutside(pc: Pc) { pc.Outside? || pc.Arriving? }

  /** The last arriver, before it flips the flag. */
  predicate IsClosing(pc: Pc) { pc.ResetArrived? || pc.ReadFlag? || pc.FlipFlag? }

  /** The last arriver, after it flipped the flag. */
  predicate IsReleasing(pc: Pc) {
    pc.Signalling? || pc.LockToWake? || pc.Waking? || pc.ClearLen? || pc.UnlockAfterWake?
  }

  predicate IsWaiting(pc: Pc) { !IsOutside(pc) && !IsClosing(pc) && !IsReleasing(pc) }

  function Put(s: State, t: Tid, th: Thread): State
    requires t < |s.ts|
  {
    s.(ts := s.ts[t := th])
  }

  function Goto(s: State, t: Tid, pc: Pc): State
    requires t < |s.ts|
  {
    Put(s, t, s.ts[t].(pc := pc))
  }

  function Lock(s: State, w: bool, holder: Option<Tid>): State {
    s.(blocked := s.blocked.With(w, s.blocked.At(w).(mtx := holder)))
  }

  /** Threads and signals are arrays indexed by thread number and by arrival number. */
  predicate Shape(s: State) {
    && s.n >= 1
    && |s.ts| == s.n
    && |s.signals| == s.n
    && forall t :: 0 <= t < s.n ==> s.ts[t].id < s.n
  }

  /** Everything can step except a blocked thread and a thread waiting for a held lock. */
  predicate Enabled(s: State, t: Tid)
    requires t < |s.ts|
  {
    var th := s.ts[t];
    match th.pc
    case Blocked => false
    case LockToWake => s.blocked.At(th.sense).mtx.None?
    case LockToBlock => s.blocked.At(th.sense).mtx.None?
    case _ => true
  }

  function Arrive(s: State, t: Tid): State
    requires t < |s.ts|
  {
    var th := s.ts[t];
    var next := if s.arrived == s.n - 1 then ResetArrived else Spinning;
    Put(s, t, th.(pc := next, id := s.arrived, entered := th.entered + 1))
    .(arrived := s.arrived + 1, cur := s.cur + [t])
  }

  function Flip(s: State, t: Tid): State
    requires t < |s.ts|
  {
    Goto(s, t, Signalling(0))
    .(wait := !s.ts[t].flag, round := s.round + 1, prev := s.cur, cur := [], releaser := Some(t))
  }

  function Signal(s: State, t: Tid, i: nat): State
    requires t < |s.ts| && |s.signals| == s.n
  {
    if i < s.n then
      Goto(s, t, Signalling(i + 1)).(signals := s.signals[i := !s.ts[t].sense])
    else
      Goto(s, t, LockToWake)
  }

  /** `uthread_runnable` on a blocked thread restarts it in its spin loop. */
  function MakeRunnable(s: State, u: Tid): State {
    if u < |s.ts| && s.ts[u].pc.Blocked? && IsAccepted(s.ts[u].state) then
      Put(s, u, s.ts[u].(pc := Spinning, state := Runnable))
    else
      s.(odd := true)
  }

  function Wake(s: State, t: Tid, i: nat): State
    requires t < |s.ts|
  {
    var q := s.blocked.At(s.ts[t].sense).queue;
    if i < |q| then
      Goto(MakeRunnable(s, q[i]), t, Waking(i + 1))
    else
      Goto(s, t, ClearLen)
  }

  function Enqueue(s: State, t: Tid): State
    requires t < |s.ts|
  {
    var w := s.ts[t].sense;
    var q := s.blocked.At(w);
    Put(s, t, s.ts[t].(pc := UnlockAfterEnqueue, slot := |q.queue|))
    .(blocked := s.blocked.With(w, q.(queue := q.queue + [t])), overflow := s.overflow || |q.queue| >= s.n)
  }

  function Return(s: State, t: Tid): State
    requires t < |s.ts|
  {
    Put(s, t, s.ts[t].(pc := Outside, left := s.ts[t].left + 1))
  }

  /** Lines 61-71: entering a call, and closing the round by the last arriver. */
  function ArriveStep(s: State, t: Tid): (s': State)
    requires t < |s.ts| && (IsOutside(s.ts[t].pc) || IsClosing(s.ts[t].pc))
    ensures s'.n == s.n && |s'.ts| == |s.ts|
  {
    var th := s.ts[t];
    match th.pc
    case Outside => Put(s, t, th.(pc := Arriving, sense := s.wait))
    case Arriving => Arrive(s, t)
    case ResetArrived => Goto(s, t, ReadFlag).(arrived := 0)
    case ReadFlag => Put(s, t, th.(pc := FlipFlag, flag := s.wait))
    case FlipFlag => Flip(s, t)
  }

  /** Lines 74-88: the last arriver releases the others. */
  function ReleaseStep(s: State, t: Tid): (s': State)
    requires t < |s.ts| && |s.signals| == s.n && IsReleasing(s.ts[t].pc)
    ensures s'.n == s.n && |s'.ts| == |s.ts|
  {
    var w := s.ts[t].sense;
    match s.ts[t].pc
    case Signalling(i) => Signal(s, t, i)
    case LockToWake => Lock(Goto(s, t, Waking(0)), w, Some(t))
    case Waking(i) => Wake(s, t, i)
    case ClearLen =>
      Goto(s, t, UnlockAfterWake).(blocked := s.blocked.With(w, s.blocked.At(w).(queue := [])))
    case UnlockAfterWake => Lock(Return(s, t), w, None).(releaser := None)
  }

  predicate IsSpinning(pc: Pc) { pc.Spinning? || pc.LockToBlock? || pc.Recheck? || pc.UnlockToSpin? }

  /** Lines 97-111: the others spin. `stalled` is the outcome of `nstalls >= MAXSTALLS`, left open here. */
  function SpinStep(s: State, t: Tid, stalled: bool): (s': State)
    requires t < |s.ts| && s.ts[t].id < |s.signals| && IsSpinning(s.ts[t].pc)
    ensures s'.n == s.n && |s'.ts| == |s.ts|
  {
    var th := s.ts[t];
    match th.pc
    case Spinning =>
      if s.signals[th.id] != th.sense then Return(s, t)
      else if stalled then Goto(s, t, LockToBlock)
      else s
    case LockToBlock => Lock(Goto(s, t, Recheck), th.sense, Some(t))
    case Recheck => Goto(s, t, if s.signals[th.id] == th.sense then SaveQnode else UnlockToSpin)
    case UnlockToSpin => Lock(Goto(s, t, Spinning), th.sense, None)
  }

  predicate IsBlocking(pc: Pc) { pc.SaveQnode? || pc.Suspending? || pc.Enqueueing? || pc.UnlockAfterEnqueue? }

  /** Lines 104-105 and the callback, lines 43-54: a spinner gives up its vcore. */
  function BlockStep(s: State, t: Tid): (s': State)
    requires t < |s.ts| && IsBlocking(s.ts[t].pc)
    ensures s'.n == s.n && |s'.ts| == |s.ts|
  {
    var w := s.ts[t].sense;
    match s.ts[t].pc
    case SaveQnode =>
      Goto(s, t, Suspending).(blocked := s.blocked.With(w, s.blocked.At(w).(qnode := Some(t))))
    case Suspending => Put(s, t, s.ts[t].(pc := Enqueueing, state := BlockedMutex))
    case Enqueueing => Enqueue(s, t)
    case UnlockAfterEnqueue => Lock(Goto(s, t, Blocked), w, None)
  }

  /** One step of thread t. */
  function Step(s: State, t: Tid, stalled: bool): (s': State)
    requires Shape(s) && t < s.n && Enabled(s, t)
    ensures s'.n == s.n && |s'.ts| == |s.ts|
  {
    var pc := s.ts[t].pc;
    if IsReleasing(pc) then ReleaseStep(s, t)
    else if IsBlocking(pc) then BlockStep(s, t)
    else if IsSpinning(pc) then SpinStep(s, t, stalled)
    else ArriveStep(s, t)
  }

  ghost predicate Next(s: State, s': State) {
    && Shape(s)
    && exists t: Tid, stalled: bool :: t < s.n && Enabled(s, t) && s' == Step(s, t, stalled)
  }

  /** A run of a freshly initialised barrier with n participants. */
  ghost predicate Run(run: seq<State>, n: nat) {
    && |run| > 0
    && run[0] == Init(n)
    && forall k :: 0 <= k < |run| - 1 ==> Next(run[k], run[k + 1])
  }

  // ---- The invariant ----

  function Odd(k: nat): bool { k % 2 == 1 }

  predicate HoldsLock(pc: Pc) {
    || pc.Waking? || pc.ClearLen? || pc.UnlockAfterWake? || pc.Recheck? || pc.SaveQnode?
    || pc.Suspending? || pc.Enqueueing? || pc.UnlockAfterEnqueue? || pc.UnlockToSpin?
  }

  /** Committed to blocking, but not yet in the queue. */
  predicate IsCommitted(pc: Pc) { pc.SaveQnode? || pc.Suspending? || pc.Enqueueing? }

  predicate IsQueued(pc: Pc) { pc.UnlockAfterEnqueue? || pc.Blocked? }

  ghost function ReleaserPc(s: State): Pc {
    if s.releaser.Some? && s.releaser.value < |s.ts| then s.ts[s.releaser.value].pc else Outside
  }

  /** signals[..Flipped(s)] already carry the sense of the current round. */
  ghost function Flipped(s: State): int {
    match ReleaserPc(s) case Signalling(i) => i case _ => s.n
  }

  /** The entries of the previous round's queue from here on still have to be woken. */
  ghost function FirstPending(s: State): int {
    match ReleaserPc(s)
    case Waking(i) => i
    case ClearLen => |s.blocked.At(!Odd(s.round)).queue|
    case _ => 0
  }

  ghost predicate Bounds(s: State) {
    Shape(s) && Below(s.cur, s.n) && Below(s.prev, s.n)
  }

  /** Rounds, calls and the two arrival orders. */
  ghost predicate InvRounds(s: State)
    requires Bounds(s)
  {
    && s.wait == Odd(s.round)
    && (forall t :: 0 <= t < s.n ==> InvThread(s, t, s.ts[t]))
    && (forall k :: 0 <= k < |s.cur| ==> InvCur(s, k, s.ts[s.cur[k]]))
    && |s.cur| <= s.n
    && (|s.cur| == s.n ==> IsClosing(s.ts[s.cur[s.n - 1]].pc))
    && s.arrived == (if |s.cur| == s.n && !s.ts[s.cur[s.n - 1]].pc.ResetArrived? then 0 else |s.cur|)
    && |s.prev| == (if s.round == 0 then 0 else s.n)
    && NoDup(s.prev)
    && (s.releaser.Some? ==> s.releaser.value < s.n && IsReleasing(s.ts[s.releaser.value].pc))
  }

  ghost predicate InvThread(s: State, t: int, th: Thread) {
    && th.entered == th.left + (if IsOutside(th.pc) then 0 else 1)
    && (th.pc.Arriving? ==> th.sense == Odd(s.round))
    && (th.pc.FlipFlag? ==> th.flag == Odd(s.round))
    && (IsReleasing(th.pc) <==> s.releaser == Some(t))
    && (IsOutside(th.pc) || IsClosing(th.pc) ==> th.left == s.round)
    && (IsReleasing(th.pc) ==> th.left < s.round)
    && (th.left == s.round && !IsOutside(th.pc) ==> th.id < |s.cur| && s.cur[th.id] == t)
    && (th.left != s.round ==>
          && th.left + 1 == s.round
          && th.id < |s.prev| && s.prev[th.id] == t
          && th.sense == !Odd(s.round)
          && (th.id == s.n - 1 <==> IsReleasing(th.pc)))
  }

  ghost predicate InvCur(s: State, k: int, th: Thread) {
    && th.left == s.round && th.id == k && th.sense == Odd(s.round)
    && (if k == s.n - 1 then IsClosing(th.pc) else IsWaiting(th.pc))
  }

  /** Signal flags, and who can have left the previous round. */
  ghost predicate InvSignals(s: State)
    requires Bounds(s)
  {
    && Flipped(s) <= s.n
    && (forall k :: 0 <= k < s.n ==> s.signals[k] == (if k < Flipped(s) then Odd(s.round) else !Odd(s.round)))
    && (forall k :: 0 <= k < |s.prev| && s.ts[s.prev[k]].left == s.round ==> k < Flipped(s))
  }

  predicate NeedsQnode(pc: Pc) { pc.Suspending? || pc.Enqueueing? || pc.UnlockAfterEnqueue? }

  ghost predicate InvLocks(s: State)
    requires Bounds(s)
  {
    && (forall t :: 0 <= t < s.n && HoldsLock(s.ts[t].pc) ==> s.blocked.At(s.ts[t].sense).mtx == Some(t))
    && InvHolder(s, false) && InvHolder(s, true)
    && (forall t :: 0 <= t < s.n && NeedsQnode(s.ts[t].pc) ==> s.blocked.At(s.ts[t].sense).qnode == Some(t))
  }

  ghost predicate InvHolder(s: State, w: bool) {
    match s.blocked.At(w).mtx
    case None => true
    case Some(t) => t < |s.ts| && HoldsLock(s.ts[t].pc) && s.ts[t].sense == w
  }

  /** Queue entries and queued threads point at each other. */
  ghost predicate InvQueues(s: State)
    requires Bounds(s)
  {
    && InvSide(s, Odd(s.round), 0)
    && InvSide(s, !Odd(s.round), FirstPending(s))
    && (forall t :: 0 <= t < s.n && IsQueued(s.ts[t].pc) ==> InvQueued(s, t, s.ts[t]))
    && FirstPending(s) <= |s.blocked.At(!Odd(s.round)).queue|
    && (s.releaser.None? || ReleaserPc(s).UnlockAfterWake? ==> s.blocked.At(!Odd(s.round)).queue == [])
    && (forall t :: 0 <= t < s.n && IsCommitted(s.ts[t].pc) && s.ts[t].sense != Odd(s.round) ==> s.releaser.Some?)
    && !s.overflow && !s.odd
  }

  ghost predicate InvSide(s: State, w: bool, from: int) {
    var q := s.blocked.At(w).queue;
    forall k :: 0 <= from <= k < |q| ==>
      q[k] < |s.ts| && IsQueued(s.ts[q[k]].pc) && s.ts[q[k]].sense == w && s.ts[q[k]].slot == k
  }

  ghost predicate InvQueued(s: State, t: int, th: Thread) {
    var q := s.blocked.At(th.sense).queue;
    th.slot < |q| && q[th.slot] == t && (th.sense != Odd(s.round) ==> FirstPending(s) <= th.slot)
  }

  /** A thread has stored its state before anybody can find it in a queue. */
  predicate Stored(th: Thread) {
    th.pc.Enqueueing? || IsQueued(th.pc) ==> th.state.BlockedMutex?
  }

  ghost predicate InvStates(s: State) {
    forall t :: 0 <= t < |s.ts| ==> Stored(s.ts[t])
  }

  ghost predicate Core(s: State) {
    Bounds(s) && InvRounds(s) && InvSignals(s) && InvLocks(s) && InvQueues(s)
  }

  ghost predicate Inv(s: State) { Core(s) && InvStates(s) }

  lemma InvInit(n: nat)
    requires n >= 1
    ensures Inv(Init(n))
  {
  }

  // ---- Every step keeps the invariant ----

  /** Threads that have left the previous round were released by a flag already flipped, so there are
      no more of them than flipped flags. */
  lemma LeftWereSignalled(s: State, a: seq<Tid>)
    requires Core(s) && NoDup(a) && Below(a, s.n)
    requires forall k :: 0 <= k < |a| ==> s.ts[a[k]].left == s.round
    ensures |a| <= Flipped(s)
  {
    Covers(a, s.n);
    if s.round > 0 {
      Covers(s.prev, s.n);
      var signalled := s.prev[..Flipped(s)];
      forall t | t in a ensures t in signalled {
        assert t in s.prev;
        var k :| 0 <= k < |s.prev| && s.prev[k] == t;
        assert s.ts[s.prev[k]].left == s.round;
        assert signalled[k] == t;
      }
      Pigeonhole(a, signalled);
    }
  }

  /** An arrival finds its number below every flag still to be flipped; the last one finds no releaser. */
  lemma ArrivalOrder(s: State, t: Tid)
    requires Core(s) && t < s.n && s.ts[t].pc.Arriving?
    ensures s.arrived == |s.cur| < Flipped(s)
    ensures s.arrived == s.n - 1 ==> s.releaser.None?
  {
    var all := s.cur + [t];
    assert NoDup(all);
    LeftWereSignalled(s, all);
    Covers(all, s.n);
    if s.arrived == s.n - 1 {
      forall u | 0 <= u < s.n ensures s.ts[u].left == s.round {
        assert u in all;
      }
    }
  }

  /** The closing thread arrived last, everybody else waits for it, and the previous round is over. */
  lemma ClosingIsLast(s: State, t: Tid)
    requires Core(s) && t < s.n && IsClosing(s.ts[t].pc)
    ensures |s.cur| == s.n && s.cur[s.n - 1] == t
    ensures forall u :: 0 <= u < s.n ==>
      s.ts[u].left == s.round && s.ts[u].sense == Odd(s.round) && (u != t ==> IsWaiting(s.ts[u].pc))
    ensures s.releaser.None?
  {
    assert NoDup(s.cur);
    Covers(s.cur, s.n);
    forall u | 0 <= u < s.n
      ensures s.ts[u].left == s.round && s.ts[u].sense == Odd(s.round) && (u != t ==> IsWaiting(s.ts[u].pc))
    {
      assert u in s.cur;
    }
  }

  // Moves within a call: the parts of the invariant that depend only on a thread's role.

  predicate SameRole(pc: Pc, pc': Pc) {
    && IsOutside(pc) == IsOutside(pc')
    && IsClosing(pc) == IsClosing(pc')
    && IsReleasing(pc) == IsReleasing(pc')
  }

  /** Thread t moves within its call; beside its own record only `arrived`, `signals` and `blocked` may change. */
  ghost predicate Local(s: State, s': State, t: Tid) {
    && t < s.n == s'.n && |s.ts| == |s'.ts| == |s'.signals| == s.n
    && s'.ts == s.ts[t := s'.ts[t]]
    && (s'.wait, s'.round, s'.cur, s'.prev, s'.releaser) == (s.wait, s.round, s.cur, s.prev, s.releaser)
    && var th, th' := s.ts[t], s'.ts[t];
    && (th'.id, th'.entered, th'.left) == (th.id, th.entered, th.left)
    && th'.sense == (if th'.pc.Arriving? then s.wait else th.sense)
    && SameRole(th.pc, th'.pc)
  }

  lemma LocalThread(s: State, s': State, t: Tid, u: Tid)
    requires Local(s, s', t) && u < s.n && InvThread(s, u, s.ts[u])
    requires s'.ts[t].pc.FlipFlag? ==> s'.ts[t].flag == Odd(s.round)
    requires s.wait == Odd(s.round)
    ensures InvThread(s', u, s'.ts[u])
  {
  }

  lemma LocalRounds(s: State, s': State, t: Tid)
    requires Bounds(s) && InvRounds(s) && Local(s, s', t)
    requires s'.arrived == (if |s.cur| == s.n && !s'.ts[s.cur[s.n - 1]].pc.ResetArrived? then 0 else |s.cur|)
    requires s'.ts[t].pc.FlipFlag? ==> s'.ts[t].flag == Odd(s.round)
    ensures Bounds(s') && InvRounds(s')
  {
    forall u: nat | u < s.n ensures InvThread(s', u, s'.ts[u]) { LocalThread(s, s', t, u); }
  }

  lemma LocalSignals(s: State, s': State, t: Tid)
    requires Bounds(s) && InvSignals(s) && Bounds(s') && Local(s, s', t)
    requires s'.signals == s.signals && Flipped(s') == Flipped(s)
    ensures InvSignals(s')
  {
  }

  /** The lock of t's side follows t's program counter. */
  ghost predicate LockMove(s: State, s': State, t: Tid)
    requires t < |s.ts| && t < |s'.ts|
  {
    var pc, pc' := s.ts[t].pc, s'.ts[t].pc;
    var w := s.ts[t].sense;
    var q, q' := s.blocked.At(w), s'.blocked.At(w);
    && s'.blocked.At(!w) == s.blocked.At(!w)
    && (!HoldsLock(pc) && HoldsLock(pc') ==> q.mtx.None?)
    && q'.mtx == (if HoldsLock(pc') then Some(t) else if HoldsLock(pc) then None else q.mtx)
    && (q'.qnode == q.qnode || HoldsLock(pc))
    && (NeedsQnode(pc') ==> q'.qnode == Some(t))
  }

  lemma LocalLocks(s: State, s': State, t: Tid)
    requires Bounds(s) && InvLocks(s) && Bounds(s') && s.n == s'.n && t < s.n
    requires s'.ts == s.ts[t := s'.ts[t]]
    requires s'.ts[t].sense == s.ts[t].sense || (!HoldsLock(s.ts[t].pc) && !HoldsLock(s'.ts[t].pc))
    requires LockMove(s, s', t)
    ensures InvLocks(s')
  {
  }

  /** Rounds, signals and locks together, for a move that flips no flag. */
  lemma LocalCore(s: State, s': State, t: Tid)
    requires Bounds(s) && InvRounds(s) && InvSignals(s) && InvLocks(s) && Local(s, s', t) && LockMove(s, s', t)
    requires s'.arrived == (if |s.cur| == s.n && !s'.ts[s.cur[s.n - 1]].pc.ResetArrived? then 0 else |s.cur|)
    requires s'.ts[t].pc.FlipFlag? ==> s'.ts[t].flag == Odd(s.round)
    requires s'.signals == s.signals && !s.ts[t].pc.Signalling? && !s'.ts[t].pc.Signalling?
    ensures Bounds(s') && InvRounds(s') && InvSignals(s') && InvLocks(s')
  {
    LocalRounds(s, s', t);
    LocalSignals(s, s', t);
    LocalLocks(s, s', t);
  }

  /** A move of t that leaves the flags and `arrived` alone. */
  ghost predicate Calm(s: State, s': State, t: Tid) {
    && Local(s, s', t) && LockMove(s, s', t) && s'.arrived == s.arrived && s'.signals == s.signals
    && !s.ts[t].pc.ResetArrived? && !s'.ts[t].pc.ResetArrived?
    && !s.ts[t].pc.Signalling? && !s'.ts[t].pc.Signalling?
    && (s'.ts[t].pc.FlipFlag? ==> s'.ts[t].flag == Odd(s.round))
  }

  lemma CalmRounds(s: State, s': State, t: Tid)
    requires Bounds(s) && InvRounds(s) && Local(s, s', t) && s'.arrived == s.arrived
    requires !s.ts[t].pc.ResetArrived? && !s'.ts[t].pc.ResetArrived?
    requires s'.ts[t].pc.FlipFlag? ==> s'.ts[t].flag == Odd(s.round)
    ensures Bounds(s') && InvRounds(s')
  {
    LocalRounds(s, s', t);
  }

  lemma CalmCore(s: State, s': State, t: Tid)
    requires Bounds(s) && InvRounds(s) && InvSignals(s) && InvLocks(s) && Calm(s, s', t)
    ensures Bounds(s') && InvRounds(s') && InvSignals(s') && InvLocks(s')
  {
    CalmRounds(s, s', t);
    LocalSignals(s, s', t);
    LocalLocks(s, s', t);
  }

  lemma LocalSides(s: State, s': State, t: Tid)
    requires Bounds(s) && InvQueues(s) && Bounds(s') && Local(s, s', t)
    requires s'.blocked.lo.queue == s.blocked.lo.queue && s'.blocked.hi.queue == s.blocked.hi.queue
    requires IsQueued(s.ts[t].pc) == IsQueued(s'.ts[t].pc) && s'.ts[t].slot == s.ts[t].slot
    requires FirstPending(s') == FirstPending(s)
    ensures InvSide(s', Odd(s.round), 0) && InvSide(s', !Odd(s.round), FirstPending(s))
  {
  }

  lemma LocalQueues(s: State, s': State, t: Tid)
    requires Bounds(s) && InvQueues(s) && Bounds(s') && Local(s, s', t)
    requires s'.blocked.lo.queue == s.blocked.lo.queue && s'.blocked.hi.queue == s.blocked.hi.queue
    requires IsQueued(s.ts[t].pc) == IsQueued(s'.ts[t].pc) && s'.ts[t].slot == s.ts[t].slot
    requires IsCommitted(s'.ts[t].pc) && s.ts[t].sense != Odd(s.round) ==> s.releaser.Some?
    requires FirstPending(s') == FirstPending(s)
    requires s'.ts[t].pc.UnlockAfterWake? ==> s.ts[t].pc == s'.ts[t].pc
    requires (s.overflow, s.odd) == (s'.overflow, s'.odd)
    ensures InvQueues(s')
  {
    LocalSides(s, s', t);
  }

  /** A move of t that leaves the queues, the flags and `arrived` alone. */
  ghost predicate Quiet(s: State, s': State, t: Tid) {
    && Calm(s, s', t) && (s'.overflow, s'.odd) == (s.overflow, s.odd)
    && s'.blocked.lo.queue == s.blocked.lo.queue && s'.blocked.hi.queue == s.blocked.hi.queue
    && FirstPending(s') == FirstPending(s)
    && var pc, pc' := s.ts[t].pc, s'.ts[t].pc;
    && IsQueued(pc) == IsQueued(pc') && s'.ts[t].slot == s.ts[t].slot
    && !pc'.UnlockAfterWake?
    && (IsCommitted(pc') && s.ts[t].sense != Odd(s.round) ==> s.releaser.Some?)
  }

  lemma LocalStep(s: State, s': State, t: Tid)
    requires Core(s) && Quiet(s, s', t)
    ensures Core(s')
  {
    CalmCore(s, s', t);
    LocalQueues(s, s', t);
  }

  /** What the invariant says about t alone. */
  ghost predicate Here(s: State, t: Tid) {
    && t < s.n == |s.ts| == |s.signals| && s.ts[t].id < s.n && s.wait == Odd(s.round)
    && (HoldsLock(s.ts[t].pc) ==> s.blocked.At(s.ts[t].sense).mtx == Some(t))
    && (NeedsQnode(s.ts[t].pc) ==> s.blocked.At(s.ts[t].sense).qnode == Some(t))
    && (IsReleasing(s.ts[t].pc) <==> s.releaser == Some(t))
    && (IsCommitted(s.ts[t].pc) && s.ts[t].sense != Odd(s.round) ==> s.releaser.Some?)
    && (s.signals[s.ts[t].id] != Odd(s.round) ==> s.releaser.Some?)
  }

  lemma HereHolds(s: State, t: Tid)
    requires Core(s) && t < s.n
    ensures Here(s, t)
  {
  }

  lemma QuietArrive(s: State, t: Tid)
    requires Here(s, t) && (s.ts[t].pc.Outside? || s.ts[t].pc.ReadFlag?)
    ensures Quiet(s, ArriveStep(s, t), t)
  {
  }

  lemma QuietLockToWake(s: State, t: Tid)
    requires Here(s, t) && Enabled(s, t) && s.ts[t].pc.LockToWake?
    ensures Quiet(s, ReleaseStep(s, t), t)
  {
  }

  lemma QuietLockToBlock(s: State, t: Tid)
    requires Here(s, t) && Enabled(s, t) && s.ts[t].pc.LockToBlock?
    ensures Quiet(s, SpinStep(s, t, false), t)
  {
  }

  lemma QuietSpinning(s: State, t: Tid)
    requires Here(s, t) && s.ts[t].pc.Spinning?
    ensures Quiet(s, Goto(s, t, LockToBlock), t)
  {
  }

  lemma QuietRecheck(s: State, t: Tid)
    requires Here(s, t) && s.ts[t].pc.Recheck?
    ensures Quiet(s, SpinStep(s, t, false), t)
  {
  }

  lemma QuietUnlockToSpin(s: State, t: Tid)
    requires Here(s, t) && s.ts[t].pc.UnlockToSpin?
    ensures Quiet(s, SpinStep(s, t, false), t)
  {
  }

  lemma QuietSaveQnode(s: State, t: Tid)
    requires Here(s, t) && s.ts[t].pc.SaveQnode?
    ensures Quiet(s, BlockStep(s, t), t)
  {
  }

  lemma QuietSuspending(s: State, t: Tid)
    requires Here(s, t) && s.ts[t].pc.Suspending?
    ensures Quiet(s, BlockStep(s, t), t)
  {
  }

  lemma QuietUnlockAfterEnqueue(s: State, t: Tid)
    requires Here(s, t) && s.ts[t].pc.UnlockAfterEnqueue?
    ensures Quiet(s, BlockStep(s, t), t)
  {
  }

  ghost predicate At(s: State, t: Tid) {
    Inv(s) && t < s.n && Enabled(s, t)
  }

  lemma StepQuietArrive(s: State, t: Tid)
    requires At(s, t) && (s.ts[t].pc.Outside? || s.ts[t].pc.ReadFlag?)
    ensures Core(ArriveStep(s, t))
  {
    HereHolds(s, t);
    QuietArrive(s, t);
    LocalStep(s, ArriveStep(s, t), t);
  }

  lemma StepLockToWake(s: State, t: Tid)
    requires At(s, t) && s.ts[t].pc.LockToWake?
    ensures Core(ReleaseStep(s, t))
  {
    HereHolds(s, t);
    QuietLockToWake(s, t);
    LocalStep(s, ReleaseStep(s, t), t);
  }

  lemma StepQuietSpin(s: State, t: Tid)
    requires At(s, t) && IsSpinning(s.ts[t].pc) && !s.ts[t].pc.Spinning?
    ensures Core(SpinStep(s, t, false))
  {
    HereHolds(s, t);
    var pc := s.ts[t].pc;
    if pc.LockToBlock? { QuietLockToBlock(s, t); }
    else if pc.Recheck? { QuietRecheck(s, t); }
    else { QuietUnlockToSpin(s, t); }
    LocalStep(s, SpinStep(s, t, false), t);
  }

  lemma StepQuietBlock(s: State, t: Tid)
    requires At(s, t) && IsBlocking(s.ts[t].pc) && !s.ts[t].pc.Enqueueing?
    ensures Core(BlockStep(s, t))
  {
    HereHolds(s, t);
    var pc := s.ts[t].pc;
    if pc.SaveQnode? { QuietSaveQnode(s, t); }
    else if pc.Suspending? { QuietSuspending(s, t); }
    else { QuietUnlockAfterEnqueue(s, t); }
    LocalStep(s, BlockStep(s, t), t);
  }

  lemma StepResetArrived(s: State, t: Tid)
    requires At(s, t) && s.ts[t].pc.ResetArrived?
    ensures Core(ArriveStep(s, t))
  {
    var s' := ArriveStep(s, t);
    ClosingIsLast(s, t);
    LocalCore(s, s', t);
    LocalQueues(s, s', t);
  }

  lemma ArrivingRounds(s: State, t: Tid)
    requires Bounds(s) && InvRounds(s)
    requires t < s.n && s.ts[t].pc.Arriving? && s.arrived == |s.cur| < s.n
    requires s.arrived == s.n - 1 ==> s.releaser.None?
    ensures var s' := Arrive(s, t); Bounds(s') && InvRounds(s')
  {
  }

  lemma ArrivingSignals(s: State, t: Tid)
    requires Bounds(s) && InvSignals(s) && t < s.n && s.ts[t].pc.Arriving? && s.releaser != Some(t)
    requires s.ts[t].left == s.round && Bounds(Arrive(s, t))
    ensures InvSignals(Arrive(s, t))
  {
    var s' := Arrive(s, t);
    assert ReleaserPc(s') == ReleaserPc(s);
  }

  lemma ArrivingSides(s: State, t: Tid)
    requires Bounds(s) && InvQueues(s) && t < s.n && s.ts[t].pc.Arriving?
    ensures var s' := Arrive(s, t); InvSide(s', Odd(s.round), 0) && InvSide(s', !Odd(s.round), FirstPending(s))
  {
  }

  lemma ArrivingQueues(s: State, t: Tid)
    requires Bounds(s) && InvQueues(s) && t < s.n && s.ts[t].pc.Arriving? && s.releaser != Some(t)
    requires Bounds(Arrive(s, t))
    ensures InvQueues(Arrive(s, t))
  {
    var s' := Arrive(s, t);
    assert ReleaserPc(s') == ReleaserPc(s);
    ArrivingSides(s, t);
  }

  lemma StepArriving(s: State, t: Tid)
    requires At(s, t) && s.ts[t].pc.Arriving?
    ensures Core(ArriveStep(s, t))
  {
    var s' := ArriveStep(s, t);
    ArrivalOrder(s, t);
    ArrivingRounds(s, t);
    ArrivingSignals(s, t);
    ArrivingQueues(s, t);
    LocalLocks(s, s', t);
  }

  lemma FlipRounds(s: State, t: Tid)
    requires Bounds(s) && InvRounds(s) && t < s.n && s.ts[t].pc.FlipFlag?
    requires |s.cur| == s.n && s.cur[s.n - 1] == t && s.releaser.None?
    requires forall u :: 0 <= u < s.n ==>
      s.ts[u].left == s.round && s.ts[u].sense == Odd(s.round) && (u != t ==> IsWaiting(s.ts[u].pc))
    ensures var s' := Flip(s, t); Bounds(s') && InvRounds(s')
  {
  }

  lemma FlipSignals(s: State, t: Tid)
    requires Bounds(s) && InvSignals(s) && t < s.n && s.ts[t].pc.FlipFlag? && s.releaser.None?
    requires Below(s.cur, s.n) && |s.cur| == s.n
    requires forall u :: 0 <= u < s.n ==> s.ts[u].left == s.round
    ensures var s' := Flip(s, t); Bounds(s') && InvSignals(s')
  {
  }

  lemma FlipQueues(s: State, t: Tid)
    requires Bounds(s) && InvQueues(s) && t < s.n && s.ts[t].pc.FlipFlag? && s.releaser.None?
    requires forall u :: 0 <= u < s.n ==> s.ts[u].sense == Odd(s.round)
    ensures var s' := Flip(s, t); Bounds(s') && InvQueues(s')
  {
  }

  lemma StepFlipFlag(s: State, t: Tid)
    requires At(s, t) && s.ts[t].pc.FlipFlag?
    ensures Core(ArriveStep(s, t))
  {
    ClosingIsLast(s, t);
    FlipRounds(s, t);
    FlipSignals(s, t);
    LocalLocks(s, Flip(s, t), t);
    FlipQueues(s, t);
  }

  lemma SignalLocal(s: State, t: Tid, i: nat)
    requires Here(s, t) && s.ts[t].pc == Signalling(i) && i < s.n
    ensures Local(s, Signal(s, t, i), t) && LockMove(s, Signal(s, t, i), t)
  {
  }

  lemma SignalQuiet(s: State, t: Tid, i: nat)
    requires t < s.n == |s.ts| == |s.signals| && s.ts[t].pc == Signalling(i) && s.releaser == Some(t) && i < s.n
    ensures SignalsOnly(s, Signal(s, t, i), t)
  {
  }

  ghost predicate SignalsOnly(s: State, s': State, t: Tid)
    requires t < |s.ts|
  {
    && t < |s'.ts| && s'.arrived == s.arrived && s'.blocked == s.blocked
    && !s'.ts[t].pc.ResetArrived? && !s'.ts[t].pc.FlipFlag? && !s'.ts[t].pc.UnlockAfterWake?
    && (s.overflow, s.odd) == (s'.overflow, s'.odd)
    && !IsQueued(s'.ts[t].pc) && !IsCommitted(s'.ts[t].pc) && s'.ts[t].slot == s.ts[t].slot
    && FirstPending(s') == FirstPending(s)
  }

  /** The loop ends. */
  lemma SignalledLocal(s: State, t: Tid)
    requires Here(s, t) && s.ts[t].pc.Signalling?
    ensures var s' := Goto(s, t, LockToWake); Local(s, s', t) && LockMove(s, s', t)
  {
  }

  lemma SignalledQuiet(s: State, t: Tid)
    requires t < s.n == |s.ts| && s.ts[t].pc.Signalling? && s.releaser == Some(t)
    ensures SignalsOnly(s, Goto(s, t, LockToWake), t)
  {
  }

  lemma StepSignalling(s: State, t: Tid, i: nat)
    requires At(s, t) && s.ts[t].pc == Signalling(i)
    ensures Core(Signal(s, t, i))
  {
    var s' := Signal(s, t, i);
    HereHolds(s, t);
    if i < s.n { SignalLocal(s, t, i); SignalQuiet(s, t, i); } else { SignalledLocal(s, t); SignalledQuiet(s, t); }
    CalmRounds(s, s', t);
    ReleasingIsUnique(s, t);
    if i < s.n { SignallingFlags(s, t, i); } else { SignalledFlags(s, t); }
    LocalLocks(s, s', t);
    LocalQueues(s, s', t);
  }

  lemma SignallingFlags(s: State, t: Tid, i: nat)
    requires Bounds(s) && InvSignals(s) && i < s.n
    requires t < s.n && s.ts[t].pc == Signalling(i) && s.releaser == Some(t) && s.ts[t].sense == !Odd(s.round)
    requires |s.prev| <= s.n && Bounds(Signal(s, t, i))
    ensures InvSignals(Signal(s, t, i))
  {
    assert Flipped(s) == i;
    assert Flipped(Signal(s, t, i)) == i + 1;
  }

  lemma SignalledFlags(s: State, t: Tid)
    requires Bounds(s) && InvSignals(s) && t < s.n && s.releaser == Some(t)
    requires s.ts[t].pc.Signalling? && s.ts[t].pc.i >= s.n && Bounds(Goto(s, t, LockToWake))
    ensures InvSignals(Goto(s, t, LockToWake))
  {
  }

  /** The next entry to wake is a blocked thread of the previous round. */
  lemma NextToWake(s: State, t: Tid, i: nat)
    requires Bounds(s) && InvLocks(s) && InvQueues(s) && t < s.n
    requires s.releaser == Some(t) && s.ts[t].pc == Waking(i) && s.ts[t].sense == !Odd(s.round)
    requires i < |s.blocked.At(s.ts[t].sense).queue|
    ensures var u := s.blocked.At(s.ts[t].sense).queue[i];
      u < s.n && u != t && s.ts[u].pc.Blocked? && s.ts[u].sense == s.ts[t].sense && s.ts[u].slot == i
  {
  }

  lemma WakeSides(s: State, t: Tid, i: nat, u: Tid)
    requires Bounds(s) && t < s.n && InvSide(s, Odd(s.round), 0) && InvSide(s, !Odd(s.round), i)
    requires s.releaser == Some(t) && s.ts[t].pc == Waking(i) && s.ts[t].sense == !Odd(s.round)
    requires i < |s.blocked.At(s.ts[t].sense).queue| && u == s.blocked.At(s.ts[t].sense).queue[i]
    requires u < s.n && u != t && s.ts[u].pc.Blocked? && s.ts[u].sense == s.ts[t].sense && s.ts[u].slot == i
    requires IsAccepted(s.ts[u].state)
    ensures var s' := Wake(s, t, i); InvSide(s', Odd(s.round), 0) && InvSide(s', !Odd(s.round), i + 1)
  {
  }

  lemma WakeQueued(s: State, t: Tid, i: nat, u: Tid, x: Tid)
    requires Bounds(s) && t < s.n && x < s.n && (IsQueued(s.ts[x].pc) ==> InvQueued(s, x, s.ts[x]))
    requires s.releaser == Some(t) && s.ts[t].pc == Waking(i) && s.ts[t].sense == !Odd(s.round)
    requires i < |s.blocked.At(s.ts[t].sense).queue| && u == s.blocked.At(s.ts[t].sense).queue[i]
    requires u < s.n && u != t && s.ts[u].pc.Blocked? && s.ts[u].sense == s.ts[t].sense && s.ts[u].slot == i
    requires IsAccepted(s.ts[u].state)
    ensures var s' := Wake(s, t, i); IsQueued(s'.ts[x].pc) ==> InvQueued(s', x, s'.ts[x])
  {
  }

  lemma WakeQueues(s: State, t: Tid, i: nat, u: Tid)
    requires Bounds(s) && InvQueues(s) && t < s.n
    requires s.releaser == Some(t) && s.ts[t].pc == Waking(i) && s.ts[t].sense == !Odd(s.round)
    requires i < |s.blocked.At(s.ts[t].sense).queue| && u == s.blocked.At(s.ts[t].sense).queue[i]
    requires u < s.n && u != t && s.ts[u].pc.Blocked? && s.ts[u].sense == s.ts[t].sense && s.ts[u].slot == i
    requires IsAccepted(s.ts[u].state)
    ensures var s' := Wake(s, t, i); Bounds(s') && InvQueues(s')
  {
    WakeSides(s, t, i, u);
    var s' := Wake(s, t, i);
    forall x: nat | x < s.n ensures IsQueued(s'.ts[x].pc) ==> InvQueued(s', x, s'.ts[x]) { WakeQueued(s, t, i, u, x); }
    assert FirstPending(s') == i + 1;
  }

  lemma IncrementCalm(s: State, t: Tid, i: nat)
    requires Shape(s) && t < s.n && s.ts[t].pc == Waking(i)
    requires s.blocked.At(s.ts[t].sense).mtx == Some(t)
    ensures Calm(s, Goto(s, t, Waking(i + 1)), t)
  {
  }

  lemma RunnableCalm(s: State, u: Tid)
    requires Shape(s) && u < s.n && s.ts[u].pc.Blocked? && IsAccepted(s.ts[u].state)
    ensures Calm(s, MakeRunnable(s, u), u)
  {
  }

  lemma WakeCore(s: State, t: Tid, i: nat, u: Tid)
    requires Bounds(s) && InvRounds(s) && InvSignals(s) && InvLocks(s) && t < s.n
    requires s.ts[t].pc == Waking(i) && u < s.n && u != t && s.ts[u].pc.Blocked? && IsAccepted(s.ts[u].state)
    ensures var s' := Goto(MakeRunnable(s, u), t, Waking(i + 1));
      Bounds(s') && InvRounds(s') && InvSignals(s') && InvLocks(s')
  {
    var s1 := MakeRunnable(s, u);
    RunnableCalm(s, u);
    CalmCore(s, s1, u);
    IncrementCalm(s1, t, i);
    CalmCore(s1, Goto(s1, t, Waking(i + 1)), t);
  }

  /** A releaser is alone, and belongs to the previous round. */
  lemma ReleasingIsUnique(s: State, t: Tid)
    requires Bounds(s) && InvRounds(s) && t < s.n && IsReleasing(s.ts[t].pc)
    ensures s.releaser == Some(t) && s.ts[t].sense == !Odd(s.round) && s.ts[t].left < s.round
  {
  }

  lemma StepWakingOne(s: State, t: Tid, i: nat)
    requires Inv(s) && t < s.n && s.ts[t].pc == Waking(i)
    requires i < |s.blocked.At(s.ts[t].sense).queue|
    ensures Core(Wake(s, t, i))
  {
    var u := s.blocked.At(s.ts[t].sense).queue[i];
    ReleasingIsUnique(s, t);
    NextToWake(s, t, i);
    WakeCore(s, t, i, u);
    WakeQueues(s, t, i, u);
  }

  lemma StepWaking(s: State, t: Tid)
    requires At(s, t) && s.ts[t].pc.Waking?
    ensures Core(ReleaseStep(s, t))
  {
    var i := s.ts[t].pc.i;
    if i < |s.blocked.At(s.ts[t].sense).queue| {
      StepWakingOne(s, t, i);
    } else {
      ReleasingIsUnique(s, t);
      LocalStep(s, ReleaseStep(s, t), t);
    }
  }

  lemma ClearCalm(s: State, t: Tid)
    requires Here(s, t) && s.ts[t].pc.ClearLen?
    ensures Calm(s, ReleaseStep(s, t), t)
  {
  }

  lemma ClearQueues(s: State, t: Tid)
    requires Bounds(s) && InvQueues(s) && t < s.n && s.ts[t].pc.ClearLen? && s.releaser == Some(t)
    requires s.ts[t].sense == !Odd(s.round) && Bounds(ReleaseStep(s, t))
    ensures InvQueues(ReleaseStep(s, t))
  {
  }

  lemma StepClearLen(s: State, t: Tid)
    requires At(s, t) && s.ts[t].pc.ClearLen?
    ensures Core(ReleaseStep(s, t))
  {
    HereHolds(s, t);
    ClearCalm(s, t);
    CalmCore(s, ReleaseStep(s, t), t);
    ReleasingIsUnique(s, t);
    ClearQueues(s, t);
  }

  /** Thread t leaves the previous round. */
  ghost predicate Leaves(s: State, s': State, t: Tid)
    requires Bounds(s)
  {
    && t < s.n && (IsWaiting(s.ts[t].pc) || IsReleasing(s.ts[t].pc))
    && s.ts[t].left < s.round && s.ts[t].id < Flipped(s)
    && s'.ts == Return(s, t).ts && s'.releaser == (if IsReleasing(s.ts[t].pc) then None else s.releaser)
    && (IsReleasing(s.ts[t].pc) ==> Flipped(s) == s.n)
    && (s'.n, s'.arrived, s'.wait, s'.signals, s'.round, s'.cur, s'.prev)
       == (s.n, s.arrived, s.wait, s.signals, s.round, s.cur, s.prev)
  }

  lemma ReturnThread(s: State, s': State, t: Tid, u: Tid)
    requires Bounds(s) && Leaves(s, s', t) && u < s.n && InvThread(s, u, s.ts[u]) && InvThread(s, t, s.ts[t])
    ensures InvThread(s', u, s'.ts[u])
  {
  }

  lemma ReturnRounds(s: State, s': State, t: Tid)
    requires Bounds(s) && InvRounds(s) && Leaves(s, s', t)
    ensures Bounds(s') && InvRounds(s')
  {
    forall u: nat | u < s.n ensures InvThread(s', u, s'.ts[u]) { ReturnThread(s, s', t, u); }
  }

  lemma ReturnSignals(s: State, s': State, t: Tid)
    requires Bounds(s) && InvRounds(s) && InvSignals(s) && Leaves(s, s', t)
    ensures Bounds(s') && InvSignals(s')
  {
    assert Flipped(s') == Flipped(s);
  }

  lemma LeaveQueues(s: State, t: Tid)
    requires Bounds(s) && InvQueues(s) && InvLocks(s) && t < s.n && s.ts[t].pc.UnlockAfterWake?
    requires s.releaser == Some(t) && s.ts[t].sense == !Odd(s.round) && Bounds(ReleaseStep(s, t))
    ensures InvQueues(ReleaseStep(s, t))
  {
  }

  lemma StepUnlockAfterWake(s: State, t: Tid)
    requires At(s, t) && s.ts[t].pc.UnlockAfterWake?
    ensures Core(ReleaseStep(s, t))
  {
    var s' := ReleaseStep(s, t);
    ReturnRounds(s, s', t);
    ReturnSignals(s, s', t);
    LocalLocks(s, s', t);
    ReleasingIsUnique(s, t);
    LeaveQueues(s, t);
  }

  lemma ReturnSides(s: State, t: Tid)
    requires Bounds(s) && InvQueues(s) && t < s.n && s.ts[t].pc.Spinning?
    ensures var s' := Return(s, t); InvSide(s', Odd(s.round), 0) && InvSide(s', !Odd(s.round), FirstPending(s))
  {
  }

  lemma ReturnQueues(s: State, t: Tid)
    requires Bounds(s) && InvQueues(s) && t < s.n && s.ts[t].pc.Spinning? && s.releaser != Some(t)
    ensures var s' := Return(s, t); Bounds(s') && InvQueues(s')
  {
    var s' := Return(s, t);
    assert ReleaserPc(s') == ReleaserPc(s);
    ReturnSides(s, t);
  }

  /** A waiter that finds its flag flipped belongs to the previous round. */
  lemma FlippedFlagIsOld(s: State, t: Tid)
    requires Core(s) && t < s.n && s.ts[t].pc.Spinning? && s.signals[s.ts[t].id] != s.ts[t].sense
    ensures s.ts[t].left < s.round && s.ts[t].id < Flipped(s)
  {
    assert NoDup(s.cur);
    LeftWereSignalled(s, s.cur);
  }

  lemma StepFallThrough(s: State, t: Tid)
    requires At(s, t) && s.ts[t].pc.Spinning? && s.signals[s.ts[t].id] != s.ts[t].sense
    ensures Core(Return(s, t))
  {
    FlippedFlagIsOld(s, t);
    ReturnRounds(s, Return(s, t), t);
    ReturnSignals(s, Return(s, t), t);
    LocalLocks(s, Return(s, t), t);
    ReturnQueues(s, t);
  }

  lemma StepSpinning(s: State, t: Tid, stalled: bool)
    requires At(s, t) && s.ts[t].pc.Spinning?
    ensures Core(SpinStep(s, t, stalled))
  {
    if s.signals[s.ts[t].id] != s.ts[t].sense {
      StepFallThrough(s, t);
    } else if stalled {
      HereHolds(s, t);
      QuietSpinning(s, t);
      LocalStep(s, Goto(s, t, LockToBlock), t);
    }
  }

  /** The queue holds blocked threads only, each once, and t is not among them: there is room for t. */
  lemma RoomInQueue(s: State, t: Tid)
    requires Bounds(s) && InvQueues(s) && t < s.n && s.ts[t].pc.Enqueueing?
    requires s.ts[t].sense == Odd(s.round) || FirstPending(s) == 0
    ensures |s.blocked.At(s.ts[t].sense).queue| < s.n
  {
    var all := s.blocked.At(s.ts[t].sense).queue + [t];
    assert NoDup(all);
    Covers(all, s.n);
  }

  lemma EnqueueSide(s: State, t: Tid, w: bool, from: int)
    requires Shape(s) && t < s.n && s.ts[t].pc.Enqueueing?
    requires InvSide(s, w, from)
    ensures InvSide(Enqueue(s, t), w, from)
  {
  }

  lemma EnqueueQueued(s: State, t: Tid, x: Tid)
    requires Bounds(s) && t < s.n && x < s.n && (IsQueued(s.ts[x].pc) ==> InvQueued(s, x, s.ts[x]))
    requires FirstPending(Enqueue(s, t)) == FirstPending(s)
    requires s.ts[t].sense == Odd(s.round) || FirstPending(s) == 0
    ensures var s' := Enqueue(s, t); IsQueued(s'.ts[x].pc) ==> InvQueued(s', x, s'.ts[x])
  {
  }

  lemma EnqueueQueues(s: State, t: Tid)
    requires Bounds(s) && InvQueues(s) && t < s.n && s.ts[t].pc.Enqueueing? && s.releaser != Some(t)
    requires s.ts[t].sense == Odd(s.round) || ReleaserPc(s).Signalling? || ReleaserPc(s).LockToWake?
    requires |s.blocked.At(s.ts[t].sense).queue| < s.n
    ensures var s' := Enqueue(s, t); Bounds(s') && InvQueues(s')
  {
    var s' := Enqueue(s, t);
    EnqueueSide(s, t, Odd(s.round), 0);
    EnqueueSide(s, t, !Odd(s.round), FirstPending(s));
    assert FirstPending(s') == FirstPending(s);
    forall x: nat | x < s.n ensures IsQueued(s'.ts[x].pc) ==> InvQueued(s', x, s'.ts[x]) { EnqueueQueued(s, t, x); }
  }

  lemma EnqueueCalm(s: State, t: Tid)
    requires Here(s, t) && s.ts[t].pc.Enqueueing?
    ensures Calm(s, Enqueue(s, t), t)
  {
  }

  lemma StepEnqueueing(s: State, t: Tid)
    requires At(s, t) && s.ts[t].pc.Enqueueing?
    ensures Core(BlockStep(s, t))
  {
    HereHolds(s, t);
    EnqueueCalm(s, t);
    CalmCore(s, Enqueue(s, t), t);
    RoomInQueue(s, t);
    EnqueueQueues(s, t);
  }

  lemma InvRelease(s: State, t: Tid)
    requires At(s, t) && IsReleasing(s.ts[t].pc)
    ensures Core(ReleaseStep(s, t))
  {
    var pc := s.ts[t].pc;
    if pc.Signalling? { StepSignalling(s, t, pc.i); }
    else if pc.LockToWake? { StepLockToWake(s, t); }
    else if pc.Waking? { StepWaking(s, t); }
    else if pc.ClearLen? { StepClearLen(s, t); }
    else { StepUnlockAfterWake(s, t); }
  }

  lemma InvSpin(s: State, t: Tid, stalled: bool)
    requires At(s, t) && IsSpinning(s.ts[t].pc)
    ensures Core(SpinStep(s, t, stalled))
  {
    var pc := s.ts[t].pc;
    if pc.Spinning? { StepSpinning(s, t, stalled); } else { StepQuietSpin(s, t); }
  }

  lemma InvBlock(s: State, t: Tid)
    requires At(s, t) && IsBlocking(s.ts[t].pc)
    ensures Core(BlockStep(s, t))
  {
    var pc := s.ts[t].pc;
    if pc.Enqueueing? { StepEnqueueing(s, t); } else { StepQuietBlock(s, t); }
  }

  lemma InvStep(s: State, t: Tid, stalled: bool)
    requires At(s, t)
    ensures Inv(Step(s, t, stalled))
  {
    var pc := s.ts[t].pc;
    if IsReleasing(pc) { InvRelease(s, t); }
    else if IsBlocking(pc) { InvBlock(s, t); }
    else if IsSpinning(pc) { InvSpin(s, t, stalled); }
    else if pc.Arriving? { StepArriving(s, t); }
    else if pc.ResetArrived? { StepResetArrived(s, t); }
    else if pc.FlipFlag? { StepFlipFlag(s, t); }
    else { StepQuietArrive(s, t); }
    var s' := Step(s, t, stalled);
    forall u | 0 <= u < |s'.ts| ensures Stored(s'.ts[u]) { StepCounts(s, t, stalled, u); }
  }

  lemma InvNext(s: State, s': State)
    requires Inv(s) && Next(s, s')
    ensures Inv(s') && s'.n == s.n
  {
    var t: Tid, stalled: bool :| t < s.n && Enabled(s, t) && s' == Step(s, t, stalled);
    InvStep(s, t, stalled);
  }

  // ---- What holds in every state of every run ----

  lemma {:induction false} InvRun(run: seq<State>, n: nat, k: nat)
    requires n >= 1 && Run(run, n) && k < |run|
    ensures Inv(run[k]) && run[k].n == n
  {
    if k == 0 {
      InvInit(n);
    } else {
      InvRun(run, n, k - 1);
      assert Next(run[k - 1], run[k - 1 + 1]);
      InvNext(run[k - 1], run[k]);
    }
  }

  /** Calls of `upthread_barrier_wait` by t that performed their fetch-and-add in the run. */
  ghost function Arrivals(run: seq<State>, t: Tid): nat {
    if |run| < 2 || t >= |run[|run| - 1].ts| || t >= |run[|run| - 2].ts| then 0 else
      Arrivals(run[..|run| - 1], t)
      + if run[|run| - 2].ts[t].pc.Arriving? && !run[|run| - 1].ts[t].pc.Arriving? then 1 else 0
  }

  /** Calls of `upthread_barrier_wait` by t that returned in the run. */
  ghost function Returns(run: seq<State>, t: Tid): nat {
    if |run| < 2 || t >= |run[|run| - 1].ts| || t >= |run[|run| - 2].ts| then 0 else
      Returns(run[..|run| - 1], t)
      + if !run[|run| - 2].ts[t].pc.Outside? && run[|run| - 1].ts[t].pc.Outside? then 1 else 0
  }

  ghost predicate Follows(th: Thread, th': Thread) {
    && th'.entered == th.entered + (if th.pc.Arriving? && !th'.pc.Arriving? then 1 else 0)
    && th'.left == th.left + (if !th.pc.Outside? && th'.pc.Outside? then 1 else 0)
    && (Stored(th) ==> Stored(th'))
  }

  /** t alone moves, or with it a thread that it makes runnable. */
  ghost predicate Moves(s: State, s': State, t: Tid) {
    t < |s.ts| && |s'.ts| == |s.ts| && s'.ts == s.ts[t := s'.ts[t]] && Follows(s.ts[t], s'.ts[t])
  }

  lemma OutsideCounts(s: State, t: Tid)
    requires t < |s.ts| && IsOutside(s.ts[t].pc)
    ensures Moves(s, ArriveStep(s, t), t)
  {
  }

  lemma ClosingCounts(s: State, t: Tid)
    requires t < |s.ts| && IsClosing(s.ts[t].pc)
    ensures Moves(s, ArriveStep(s, t), t)
  {
  }

  lemma SignalCounts(s: State, t: Tid, i: nat)
    requires t < |s.ts| && |s.signals| == s.n && s.ts[t].pc == Signalling(i) && i < s.n
    ensures Moves(s, Signal(s, t, i), t)
  {
  }

  lemma SignalledCounts(s: State, t: Tid)
    requires t < |s.ts| && s.ts[t].pc.Signalling?
    ensures Moves(s, Goto(s, t, LockToWake), t)
  {
  }

  lemma ReleaseCounts(s: State, t: Tid)
    requires t < |s.ts| && |s.signals| == s.n
    requires s.ts[t].pc.LockToWake? || s.ts[t].pc.ClearLen? || s.ts[t].pc.UnlockAfterWake?
    ensures Moves(s, ReleaseStep(s, t), t)
  {
  }

  lemma SpinningCounts(s: State, t: Tid, stalled: bool)
    requires t < |s.ts| && s.ts[t].id < |s.signals| && s.ts[t].pc.Spinning?
    ensures Moves(s, SpinStep(s, t, stalled), t)
  {
  }

  lemma SpinCounts(s: State, t: Tid, stalled: bool)
    requires t < |s.ts| && s.ts[t].id < |s.signals| && IsSpinning(s.ts[t].pc) && !s.ts[t].pc.Spinning?
    ensures Moves(s, SpinStep(s, t, stalled), t)
  {
  }

  lemma BlockCounts(s: State, t: Tid)
    requires t < |s.ts| && IsBlocking(s.ts[t].pc)
    ensures Moves(s, BlockStep(s, t), t)
  {
  }

  lemma RunnableCounts(s: State, e: Tid)
    requires e < |s.ts|
    ensures Moves(s, MakeRunnable(s, e), e)
  {
  }

  lemma WakeCounts(s: State, t: Tid, i: nat, u: Tid)
    requires t < |s.ts| && s.ts[t].pc == Waking(i) && u < |s.ts|
    ensures |Wake(s, t, i).ts| == |s.ts| && Follows(s.ts[u], Wake(s, t, i).ts[u])
  {
    var q := s.blocked.At(s.ts[t].sense).queue;
    if i < |q| && q[i] < |s.ts| { RunnableCounts(s, q[i]); }
  }

  lemma StepCounts(s: State, t: Tid, stalled: bool, u: Tid)
    requires Shape(s) && t < s.n && Enabled(s, t) && u < s.n
    ensures Follows(s.ts[u], Step(s, t, stalled).ts[u])
  {
    var pc := s.ts[t].pc;
    if pc.Waking? { WakeCounts(s, t, pc.i, u); }
    else if pc.Signalling? && pc.i < s.n { SignalCounts(s, t, pc.i); }
    else if pc.Signalling? { SignalledCounts(s, t); }
    else if IsReleasing(pc) { ReleaseCounts(s, t); }
    else if IsBlocking(pc) { BlockCounts(s, t); }
    else if pc.Spinning? { SpinningCounts(s, t, stalled); }
    else if IsSpinning(pc) { SpinCounts(s, t, stalled); }
    else if IsOutside(pc) { OutsideCounts(s, t); }
    else { ClosingCounts(s, t); }
  }

  lemma CountsNext(s: State, s': State, u: Tid)
    requires Next(s, s') && u < s.n
    ensures |s.ts| == |s'.ts| == s.n && Follows(s.ts[u], s'.ts[u])
  {
    var t: Tid, stalled: bool :| t < s.n && Enabled(s, t) && s' == Step(s, t, stalled);
    StepCounts(s, t, stalled, u);
  }

  lemma RunPrefix(run: seq<State>, n: nat, k: nat)
    requires Run(run, n) && 0 < k <= |run|
    ensures Run(run[..k], n)
  {
    var shorter := run[..k];
    forall j | 0 <= j < |shorter| - 1 ensures Next(shorter[j], shorter[j + 1]) {
      assert Next(run[j], run[j + 1]);
    }
  }

  /** The history fields of a thread count exactly its arrivals and returns. */
  lemma {:induction false} HistoryCounts(run: seq<State>, n: nat, u: Tid)
    requires n >= 1 && Run(run, n) && u < n
    ensures u < |run[|run| - 1].ts|
    ensures run[|run| - 1].ts[u].entered == Arrivals(run, u)
    ensures run[|run| - 1].ts[u].left == Returns(run, u)
    decreases |run|
  {
    var last := |run| - 1;
    if last > 0 {
      RunPrefix(run, n, last);
      HistoryCounts(run[..last], n, u);
      InvRun(run, n, last - 1);
      assert Next(run[last - 1], run[last - 1 + 1]);
      CountsNext(run[last - 1], run[last], u);
    }
  }

  lemma RoundsAgree(s: State, t: Tid, u: Tid)
    requires Inv(s) && t < s.n && u < s.n
    ensures s.ts[t].left <= s.ts[u].entered
    ensures s.ts[t].left <= s.ts[u].left + 1
    ensures s.ts[t].entered <= s.ts[u].entered + 1
  {
  }

  /** Nobody returns from its r-th wait before everybody has made its r-th arrival; nobody is ever
      more than one round ahead. */
  lemma RoundSafety(run: seq<State>, n: nat, t: Tid, u: Tid)
    requires n >= 1 && Run(run, n) && t < n && u < n
    ensures Returns(run, t) <= Arrivals(run, u)
    ensures Returns(run, t) <= Returns(run, u) + 1
  {
    HistoryCounts(run, n, t);
    HistoryCounts(run, n, u);
    InvRun(run, n, |run| - 1);
    RoundsAgree(run[|run| - 1], t, u);
  }

  /** At most one thread is between its last arrival and the end of the release. */
  lemma OneReleaser(run: seq<State>, n: nat, k: nat, t: Tid, u: Tid)
    requires n >= 1 && Run(run, n) && k < |run| && t < n && u < n
    requires t < |run[k].ts| && (IsClosing(run[k].ts[t].pc) || IsReleasing(run[k].ts[t].pc))
    requires u < |run[k].ts| && (IsClosing(run[k].ts[u].pc) || IsReleasing(run[k].ts[u].pc))
    ensures t == u
  {
    InvRun(run, n, k);
    if IsClosing(run[k].ts[t].pc) { ClosingIsLast(run[k], t); }
    if IsClosing(run[k].ts[u].pc) { ClosingIsLast(run[k], u); }
  }

  /** A waiter falls through its spin loop only after everybody has arrived as often as it has. */
  lemma NoEarlyFallThrough(run: seq<State>, n: nat, k: nat, t: Tid, u: Tid)
    requires n >= 1 && Run(run, n) && k < |run| && t < n && u < n
    requires t < |run[k].ts| && run[k].ts[t].pc.Spinning? && run[k].ts[t].id < |run[k].signals|
    requires run[k].signals[run[k].ts[t].id] != run[k].ts[t].sense
    ensures u < |run[k].ts| && run[k].ts[t].entered <= run[k].ts[u].entered
  {
    InvRun(run, n, k);
    FlippedFlagIsOld(run[k], t);
  }

  /** A thread that arrives again while the releaser is at flag i gets a number below i: its flag
      already has the value it waits on, and the rest of the loop does not write it. */
  lemma ReleaseLoopPigeonhole(run: seq<State>, n: nat, k: nat, t: Tid, u: Tid)
    requires n >= 1 && Run(run, n) && k < |run| && t < n && u < n
    requires t < |run[k].ts| && run[k].ts[t].pc.Signalling?
    requires u < |run[k].ts| && run[k].ts[u].entered > run[k].ts[t].entered
    ensures var s := run[k]; var id := s.ts[u].id;
      id < s.ts[t].pc.i && id < |s.signals| && s.signals[id] == s.ts[u].sense
  {
    InvRun(run, n, k);
    ReleasingIsUnique(run[k], t);
    assert NoDup(run[k].cur);
    LeftWereSignalled(run[k], run[k].cur);
  }

  /** No store past the end of a queue and no wake-up of a thread that is not blocked ever happens,
      and the callback unlocks with its own lock node. */
  lemma NoFaults(run: seq<State>, n: nat, k: nat)
    requires n >= 1 && Run(run, n) && k < |run|
    ensures !run[k].overflow && !run[k].odd
    ensures forall t :: 0 <= t < |run[k].ts| && run[k].ts[t].pc.UnlockAfterEnqueue? ==>
      run[k].blocked.At(run[k].ts[t].sense).qnode == Some(t)
  {
    InvRun(run, n, k);
  }

  /** The wake loop finds a thread that has left its vcore and stored an accepted state before it entered the
      queue, and no other entry, earlier or later, names that thread. */
  lemma WokenOnce(run: seq<State>, n: nat, k: nat, t: Tid, i: nat)
    requires n >= 1 && Run(run, n) && k < |run| && t < n
    requires t < |run[k].ts| && run[k].ts[t].pc == Waking(i)
    requires i < |run[k].blocked.At(run[k].ts[t].sense).queue|
    ensures var s := run[k];
      var q := s.blocked.At(s.ts[t].sense).queue;
      && q[i] < |s.ts| && s.ts[q[i]].pc.Blocked? && s.ts[q[i]].state == BlockedMutex
      && IsAccepted(s.ts[q[i]].state)
      && forall j | i < j < |q| :: q[j] != q[i]
  {
    InvRun(run, n, k);
    ReleasingIsUnique(run[k], t);
    NextToWake(run[k], t, i);
  }

  /** There is room at every store into a blocked queue. */
  lemma RoomAtStore(run: seq<State>, n: nat, k: nat, t: Tid)
    requires n >= 1 && Run(run, n) && k < |run| && t < |run[k].ts| && run[k].ts[t].pc.Enqueueing?
    ensures |run[k].blocked.At(run[k].ts[t].sense).queue| < n
  {
    InvRun(run, n, k);
    RoomInQueue(run[k], t);
  }

  /** Once the releaser has unlocked, its queue is empty, and no thread of its round is in the queue
      or on the way into it. */
  lemma ReleaseIsComplete(run: seq<State>, n: nat, k: nat, u: Tid)
    requires n >= 1 && Run(run, n) && k < |run| && u < n
    requires forall t :: 0 <= t < |run[k].ts| ==> !IsReleasing(run[k].ts[t].pc)
    ensures run[k].blocked.At(!run[k].wait).queue == []
    ensures u < |run[k].ts|
    ensures !IsOutside(run[k].ts[u].pc) && run[k].ts[u].sense != run[k].wait ==>
      !IsQueued(run[k].ts[u].pc) && !IsCommitted(run[k].ts[u].pc)
  {
    InvRun(run, n, k);
  }

  /** A step of t would get somewhere: t is enabled and not merely spinning. */
  predicate Productive(s: State, t: Tid) {
    && t < |s.ts| && s.ts[t].id < |s.signals|
    && Enabled(s, t)
    && (s.ts[t].pc.Spinning? ==> s.signals[s.ts[t].id] != s.ts[t].sense)
  }

  lemma HolderIsProductive(s: State, w: bool)
    requires Inv(s)
    ensures s.blocked.At(w).mtx.Some? ==> Productive(s, s.blocked.At(w).mtx.value)
  {
    assert InvHolder(s, w);
  }

  lemma SomeoneHasNotArrived(s: State) returns (u: Tid)
    requires Inv(s) && |s.cur| < s.n
    ensures u < s.n && u !in s.cur
  {
    if forall v: nat :: v < s.n ==> v in s.cur {
      ElementsSize(s.cur);
      SubsetSize(Interval(s.n), Elements(s.cur));
      assert false;
    }
    u :| u < s.n && u !in s.cur;
  }

  /** In every reachable state some thread inside a call or before one can take a step that is not a mere turn of
      its spin loop. */
  lemma SomebodyCanStep(run: seq<State>, n: nat, k: nat)
    requires n >= 1 && Run(run, n) && k < |run|
    ensures exists t: Tid :: Productive(run[k], t)
  {
    InvRun(run, n, k);
    var s := run[k];
    HolderIsProductive(s, false);
    HolderIsProductive(s, true);
    if s.releaser.Some? {
      assert Productive(s, s.releaser.value) || s.ts[s.releaser.value].pc.LockToWake?;
    } else if |s.cur| == s.n {
      assert Productive(s, s.cur[s.n - 1]);
    } else {
      var u := SomeoneHasNotArrived(s);
      assert Productive(s, u) || s.ts[u].pc.LockToBlock?;
    }
  }

  /** t waits for its flag, in the spin loop, on its way to sleep, or asleep. */
  predicate WaitsForFlag(s: State, t: Tid) {
    && t < |s.ts| && s.ts[t].id < |s.signals|
    && IsWaiting(s.ts[t].pc) && s.signals[s.ts[t].id] == s.ts[t].sense
  }

  /** In no reachable state do all participants wait for their flags. */
  lemma NeverAllWaiting(run: seq<State>, n: nat, k: nat) returns (t: Tid)
    requires n >= 1 && Run(run, n) && k < |run|
    ensures t < n && !WaitsForFlag(run[k], t)
  {
    InvRun(run, n, k);
    var s := run[k];
    if s.releaser.Some? {
      t := s.releaser.value;
    } else if |s.cur| == s.n {
      t := s.cur[s.n - 1];
    } else {
      t := SomeoneHasNotArrived(s);
    }
  }
}
