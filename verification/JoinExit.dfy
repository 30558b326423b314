/**
 The join and exit handshake of src/pvcq/upthread.c as a small-step machine: any number of threads, thread
 control blocks that are freed and used again, one access to shared memory per step. Line numbers refer to
 that file.
 */
module JoinExit {
  import opened Seqs
  import opened ThreadState

  type Tid = nat
  type Addr = nat

  /** A control block. `live` is the thread it belongs to now, none while the allocator may give it away; an access
      through its address goes to whichever thread that is. */
  datatype Tcb = Tcb(state: UState, detached: bool, joiner: Option<Addr>, retval: int, live: Option<Tid>)

  /** x is the thread to join, `t` the address of a joiner. */
  datatype Pc =
    | InThread
    | JoinDetached     // 534
    | JoinCheck        // 540
    | JoinState        // callback (514)
    | JoinSwap         // callback (517)
    | JoinRewake       // callback (525): the target exited first
    | Blocked          // off its vcore, in the joiner slot
    | JoinRetval       // running again (547)
    | JoinFree         // 548
    | ExitRetval       // 587
    | ExitState        // callback (565)
    | ExitDetached     // callback (569)
    | ExitFree         // callback (570)
    | ExitSwap         // callback (574)
    | ExitWake(a: Addr)  // callback (579)
    | Finished

  /** A thread has a name that is never used again, and the control block at `addr`. `target` is the thread it
      joins, `code` what it exits with, `joiner` the thread that joins it: callers owe that there is only one.
      History: `swapped` says that it has swapped itself into its slot, `freed` how often its control block was
      freed on its behalf, `wakes` how often it was made runnable in its present join, and `early` that this join
      ended with the early check. */
  datatype Thread = Thread(
    addr: Addr, detached: bool, pc: Pc, target: Tid, code: int, got: int, joiner: Option<Tid>, swapped: bool,
    freed: nat, wakes: nat, early: bool)

  /** `stale` records an access to a control block that no longer belongs to the thread it was meant for, `odd`
      the wake-up of a thread that is not waiting in a join, or a failed assertion. */
  datatype State = State(tcbs: seq<Tcb>, ts: seq<Thread>, stale: bool, odd: bool)

  datatype Choice = Create(a: Addr, detached: bool) | Join(x: Tid) | Exit(code: int)

  const FreeTcb := Tcb(Exiting, false, None, 0, None)

  function NewThread(a: Addr, detached: bool): Thread {
    Thread(a, detached, InThread, 0, 0, 0, None, false, 0, 0, false)
  }

  /** The main thread, which is detached (442), and n further control blocks. */
  function Init(n: nat): State {
    State([Tcb(Runnable, true, None, 0, Some(0))] + seq(n, _ => FreeTcb), [NewThread(0, true)], false, false)
  }

  function At(s: State, a: Addr): Tcb { if a < |s.tcbs| then s.tcbs[a] else FreeTcb }
  function Th(s: State, t: Tid): Thread { if t < |s.ts| then s.ts[t] else NewThread(0, true) }
  function Set(s: State, t: Tid, th: Thread): State { if t < |s.ts| then s.(ts := s.ts[t := th]) else s }
  function Goto(s: State, t: Tid, pc: Pc): State { Set(s, t, Th(s, t).(pc := pc)) }

  /** An access to the control block that x had when the accessing code learned its address. */
  function Touch(s: State, x: Tid): State {
    s.(stale := s.stale || At(s, Th(s, x).addr).live != Some(x))
  }

  function Store(s: State, x: Tid, tcb: Tcb): State {
    var a := Th(s, x).addr;
    var s1 := Touch(s, x);
    if a < |s.tcbs| then s1.(tcbs := s.tcbs[a := tcb]) else s1
  }

  /** Each thread is joined once at most, and no detached thread is. */
  predicate Legal(s: State, t: Tid, c: Choice) {
    Th(s, t).pc.InThread? ==>
      match c
      case Create(a, _) => a < |s.tcbs| && s.tcbs[a].live.None?
      case Join(x) => x < |s.ts| && x != t && !s.ts[x].detached && s.ts[x].joiner.None?
      case Exit(_) => t != 0
  }

  function CallStep(s: State, t: Tid, c: Choice): State
    requires t < |s.ts| && s.ts[t].pc.InThread? && Legal(s, t, c)
  {
    var th := s.ts[t];
    match c
    case Create(a, detached) =>
      s.(tcbs := s.tcbs[a := Tcb(Runnable, detached, None, s.tcbs[a].retval, Some(|s.ts|))],
         ts := s.ts + [NewThread(a, detached)])
    case Join(x) =>
      Set(Set(s, x, s.ts[x].(joiner := Some(t))), t, th.(pc := JoinDetached, target := x, wakes := 0, early := false))
    case Exit(code) => Set(s, t, th.(pc := ExitRetval, code := code))
  }

  predicate IsJoining(pc: Pc) {
    || pc.JoinDetached? || pc.JoinCheck? || pc.JoinState? || pc.JoinSwap? || pc.JoinRewake?
    || pc.JoinRetval? || pc.JoinFree?
  }

  /** pth_thread_runnable on the thread that now has the control block at a. */
  function WakeAt(s: State, a: Addr): State {
    var tcb := At(s, a);
    if IsAccepted(tcb.state) && tcb.live.Some?
       && (Th(s, tcb.live.value).pc.Blocked? || Th(s, tcb.live.value).pc.JoinRewake?) then
      var u := tcb.live.value;
      Set(Store(s, u, tcb.(state := Runnable)), u, Th(s, u).(pc := JoinRetval, wakes := Th(s, u).wakes + 1))
    else
      s.(odd := true)
  }

  function JoinStep(s: State, t: Tid): State
    requires t < |s.ts| && IsJoining(s.ts[t].pc)
  {
    var th := s.ts[t];
    var x := th.target;
    var tcb := At(s, Th(s, x).addr);
    match th.pc
    case JoinDetached => Goto(Touch(s, x), t, if tcb.detached then InThread else JoinCheck)
    case JoinCheck =>
      if tcb.joiner.None? then Goto(Touch(s, x), t, JoinState)
      else Set(Touch(s.(odd := s.odd || tcb.joiner != Some(Th(s, x).addr)), x), t, th.(pc := JoinRetval, early := true))
    case JoinState => Goto(Store(s, t, At(s, th.addr).(state := Joining)), t, JoinSwap)
    case JoinSwap =>
      var s1 := Store(s, x, tcb.(joiner := Some(th.addr)));
      if tcb.joiner.None? then Goto(s1, t, Blocked)
      else Goto(s1.(odd := s.odd || tcb.joiner != Some(Th(s, x).addr)), t, JoinRewake)
    case JoinRewake => WakeAt(Touch(s, t), th.addr)
    case JoinRetval => Set(Touch(s, x), t, th.(pc := JoinFree, got := tcb.retval))
    case JoinFree => Goto(Free(s, x), t, InThread)
  }

  /** __upthread_free (94-103) on the control block of x. */
  function Free(s: State, x: Tid): State {
    Set(Store(s, x, At(s, Th(s, x).addr).(live := None)), x, Th(s, x).(freed := Th(s, x).freed + 1))
  }

  predicate IsExiting(pc: Pc) {
    pc.ExitRetval? || pc.ExitState? || pc.ExitDetached? || pc.ExitFree? || pc.ExitSwap? || pc.ExitWake?
  }

  function ExitStep(s: State, t: Tid): State
    requires t < |s.ts| && IsExiting(s.ts[t].pc)
  {
    var th := s.ts[t];
    var tcb := At(s, th.addr);
    match th.pc
    case ExitRetval => Goto(Store(s, t, tcb.(retval := th.code)), t, ExitState)
    case ExitState => Goto(Store(s, t, tcb.(state := Exiting)), t, ExitDetached)
    case ExitDetached => Goto(Touch(s, t), t, if tcb.detached then ExitFree else ExitSwap)
    case ExitFree => Goto(Free(s, t), t, Finished)
    case ExitSwap =>
      var next := if tcb.joiner.None? then Finished else ExitWake(tcb.joiner.value);
      Set(Store(s, t, tcb.(joiner := Some(th.addr))), t, th.(pc := next, swapped := true))
    case ExitWake(a) => WakeAt(Goto(s, t, Finished), a)
  }

  predicate CanStep(s: State, t: Tid, c: Choice) {
    t < |s.ts| && !s.ts[t].pc.Blocked? && !s.ts[t].pc.Finished? && Legal(s, t, c)
  }

  function Step(s: State, t: Tid, c: Choice): State
    requires CanStep(s, t, c)
  {
    if IsJoining(s.ts[t].pc) then JoinStep(s, t)
    else if IsExiting(s.ts[t].pc) then ExitStep(s, t)
    else CallStep(s, t, c)
  }

  ghost predicate Next(s: State, s': State) {
    exists t: Tid, c: Choice :: CanStep(s, t, c) && s' == Step(s, t, c)
  }

  ghost predicate Run(run: seq<State>, n: nat) {
    && |run| > 0
    && run[0] == Init(n)
    && forall k :: 0 <= k < |run| - 1 ==> Next(run[k], run[k + 1])
  }

  // ---- The invariant ----

  /** t's join may still access the target's control block. */
  predicate InJoin(pc: Pc) { IsJoining(pc) || pc.Blocked? }

  /** t has not swapped itself into the slot yet. */
  predicate BeforeSwap(pc: Pc) { pc.JoinDetached? || pc.JoinCheck? || pc.JoinState? || pc.JoinSwap? }

  predicate BeforeExitSwap(pc: Pc) { !pc.ExitWake? && !pc.Finished? }

  /** The control block of a thread belongs to it until it is freed. */
  ghost predicate Owns(s: State, t: Tid, th: Thread) {
    && th.addr < |s.tcbs| && th.freed <= 1
    && (th.freed == 0 ==>
          var tcb := s.tcbs[th.addr];
          && tcb.live == Some(t) && tcb.detached == th.detached
          && (th.swapped || th.pc.ExitState? || th.pc.ExitDetached? || th.pc.ExitSwap? ==> tcb.retval == th.code)
          && (th.pc.JoinSwap? || th.pc.JoinRewake? || th.pc.Blocked? ==> tcb.state.Joining?))
    && (th.freed == 1 ==> th.pc.Finished?)
    && (th.swapped ==> !BeforeExitSwap(th.pc) && !th.detached)
    && (!th.swapped && !th.detached ==> BeforeExitSwap(th.pc))
    && (th.pc.ExitFree? ==> th.detached)
    && (th.pc.ExitSwap? ==> !th.detached)
    && (th.pc.Finished? && th.detached ==> th.freed == 1)
  }

  /** The target of a join is joined by nobody else and not freed yet. */
  ghost predicate Joins(s: State, t: Tid, th: Thread) {
    InJoin(th.pc) ==>
      && th.target < |s.ts| && th.target != t && s.ts[th.target].joiner == Some(t)
      && !s.ts[th.target].detached && s.ts[th.target].freed == 0
  }

  /** A thread to be joined: what its joiner slot holds, and who still has to act. */
  ghost predicate Slot(s: State, x: Tid, th: Thread) {
    && (th.joiner.None? ==> th.detached || th.freed == 0)
    && (th.pc.ExitWake? ==> th.joiner.Some? && Th(s, th.joiner.value).pc.Blocked? && Th(s, th.joiner.value).target == x)
    && (!th.detached && th.freed == 0 ==>
          var slot := At(s, th.addr).joiner;
          match th.joiner
          case None => slot == if th.swapped then Some(th.addr) else None
          case Some(j) =>
            var jt := Th(s, j);
            && j < |s.ts| && j != x && jt.target == x && InJoin(jt.pc)
            && (BeforeSwap(jt.pc) ==> slot == if th.swapped then Some(th.addr) else None)
            && (jt.pc.Blocked? && !th.swapped ==> slot == Some(jt.addr))
            && (jt.pc.Blocked? && th.swapped ==> th.pc == ExitWake(jt.addr))
            && (jt.pc.JoinRewake? || jt.pc.JoinRetval? || jt.pc.JoinFree? ==> th.swapped && th.pc.Finished?)
            && (BeforeSwap(jt.pc) || jt.pc.Blocked? || jt.pc.JoinRewake? ==> jt.wakes == 0 && !jt.early)
            && (jt.pc.JoinRetval? || jt.pc.JoinFree? ==> jt.wakes == if jt.early then 0 else 1)
            && (jt.pc.JoinFree? ==> jt.got == th.code))
  }

  ghost predicate InvThread(s: State, t: Tid, th: Thread) { Owns(s, t, th) && Joins(s, t, th) && Slot(s, t, th) }

  ghost predicate InvTcb(s: State, a: Addr, tcb: Tcb) {
    tcb.live.Some? ==> tcb.live.value < |s.ts| && s.ts[tcb.live.value].addr == a && s.ts[tcb.live.value].freed == 0
  }

  ghost predicate Threads(s: State) { forall t :: 0 <= t < |s.ts| ==> InvThread(s, t, s.ts[t]) }
  ghost predicate Tcbs(s: State) { forall a :: 0 <= a < |s.tcbs| ==> InvTcb(s, a, s.tcbs[a]) }

  ghost predicate Inv(s: State) { Threads(s) && Tcbs(s) && !s.stale && !s.odd }

  lemma InvInit(n: nat)
    ensures Inv(Init(n))
  {
  }

  // ---- Frames: what a step leaves alone ----

  /** The step of t touches at most the threads t and x and their control blocks. */
  ghost predicate Moves(s: State, s': State, t: Tid, x: Tid) {
    && t < |s.ts| == |s'.ts| && x < |s.ts| && |s'.tcbs| == |s.tcbs|
    && s.ts[t].addr < |s.tcbs| && s.ts[x].addr < |s.tcbs|
    && s'.ts == s.ts[x := s'.ts[x]][t := s'.ts[t]]
    && s'.tcbs == s.tcbs[s.ts[x].addr := s'.tcbs[s.ts[x].addr]][s.ts[t].addr := s'.tcbs[s.ts[t].addr]]
    && !s'.stale && !s'.odd
  }

  /** What the step may do to the control block and to the thread e under the other threads. */
  ghost predicate Gentle(s: State, s': State, t: Tid, x: Tid, e: Tid)
    requires e < |s.ts| == |s'.ts| && |s'.tcbs| == |s.tcbs| && s.ts[e].addr < |s.tcbs|
  {
    var th, th', a := s.ts[e], s'.ts[e], s.ts[e].addr;
    && (s'.tcbs[a] == s.tcbs[a] || s.tcbs[a].live == Some(e))
    && th'.addr == th.addr && th'.detached == th.detached
    && (th'.freed == th.freed || th.joiner == Some(t) || th.detached)
    && (th'.joiner == th.joiner || th.joiner.None?)
    && ((th'.pc == th.pc && th'.target == th.target && th'.wakes == th.wakes && th'.early == th.early
         && th'.got == th.got)
        || (InJoin(th.pc) ==> th.target == t || th.target == x))
  }

  ghost predicate Fits(s: State, s': State, t: Tid, x: Tid) {
    && Moves(s, s', t, x) && Gentle(s, s', t, x, t) && Gentle(s, s', t, x, x)
    && InvThread(s', t, s'.ts[t]) && InvThread(s', x, s'.ts[x])
    && InvTcb(s', s.ts[t].addr, s'.tcbs[s.ts[t].addr]) && InvTcb(s', s.ts[x].addr, s'.tcbs[s.ts[x].addr])
  }

  lemma OtherOwns(s: State, s': State, t: Tid, x: Tid, k: Tid)
    requires Moves(s, s', t, x) && Gentle(s, s', t, x, t) && Gentle(s, s', t, x, x)
    requires k < |s.ts| && k != t && k != x && Owns(s, k, s.ts[k])
    ensures Owns(s', k, s'.ts[k])
    ensures s.ts[k].freed == 0 ==> s'.tcbs[s.ts[k].addr] == s.tcbs[s.ts[k].addr]
  {
  }

  lemma OtherJoins(s: State, s': State, t: Tid, x: Tid, k: Tid)
    requires Moves(s, s', t, x) && Gentle(s, s', t, x, t) && Gentle(s, s', t, x, x)
    requires k < |s.ts| && k != t && k != x && Joins(s, k, s.ts[k])
    ensures Joins(s', k, s'.ts[k])
  {
  }

  lemma OtherFree(s: State, s': State, t: Tid, x: Tid, k: Tid)
    requires Moves(s, s', t, x) && k < |s.ts| && k != t && k != x
    requires s.ts[k].freed == 0 ==> At(s', s.ts[k].addr) == At(s, s.ts[k].addr)
    requires Slot(s, k, s.ts[k]) && s.ts[k].joiner.None?
    ensures Slot(s', k, s'.ts[k])
  {
  }

  lemma OtherTaken(s: State, s': State, t: Tid, x: Tid, k: Tid)
    requires Moves(s, s', t, x) && Gentle(s, s', t, x, t) && Gentle(s, s', t, x, x)
    requires k < |s.ts| && k != t && k != x && Slot(s, k, s.ts[k]) && s.ts[k].joiner.Some?
    requires s.ts[k].freed == 0 ==> At(s', s.ts[k].addr) == At(s, s.ts[k].addr)
    ensures Slot(s', k, s'.ts[k])
  {
  }

  lemma OtherSlot(s: State, s': State, t: Tid, x: Tid, k: Tid)
    requires Moves(s, s', t, x) && Gentle(s, s', t, x, t) && Gentle(s, s', t, x, x)
    requires k < |s.ts| && k != t && k != x && Owns(s, k, s.ts[k]) && Slot(s, k, s.ts[k])
    ensures Slot(s', k, s'.ts[k])
  {
    OtherOwns(s, s', t, x, k);
    if s.ts[k].joiner.None? { OtherFree(s, s', t, x, k); } else { OtherTaken(s, s', t, x, k); }
  }

  lemma OtherTcb(s: State, s': State, t: Tid, x: Tid, a: Addr)
    requires Moves(s, s', t, x) && a < |s.tcbs| && InvTcb(s, a, s.tcbs[a])
    requires a != s.ts[t].addr && a != s.ts[x].addr
    requires Gentle(s, s', t, x, t) && Gentle(s, s', t, x, x)
    ensures InvTcb(s', a, s'.tcbs[a])
  {
  }

  lemma MoveStep(s: State, s': State, t: Tid, x: Tid)
    requires Inv(s) && Fits(s, s', t, x)
    ensures Inv(s')
  {
    forall k | 0 <= k < |s'.ts| ensures InvThread(s', k, s'.ts[k]) {
      if k != t && k != x {
        assert InvThread(s, k, s.ts[k]);
        OtherOwns(s, s', t, x, k);
        OtherJoins(s, s', t, x, k);
        OtherSlot(s, s', t, x, k);
      }
    }
    forall a | 0 <= a < |s'.tcbs| ensures InvTcb(s', a, s'.tcbs[a]) {
      if a != s.ts[t].addr && a != s.ts[x].addr { OtherTcb(s, s', t, x, a); }
    }
  }

  // ---- Every step keeps the invariant ----

  /** What the invariant says about t and x. */
  ghost predicate Local(s: State, t: Tid, x: Tid) {
    && t < |s.ts| && x < |s.ts| && InvThread(s, t, s.ts[t]) && InvThread(s, x, s.ts[x])
    && InvTcb(s, s.ts[t].addr, s.tcbs[s.ts[t].addr]) && InvTcb(s, s.ts[x].addr, s.tcbs[s.ts[x].addr])
    && !s.stale && !s.odd
  }

  lemma JoinFits(s: State, t: Tid, x: Tid)
    requires Local(s, t, x) && s.ts[t].pc.InThread? && Legal(s, t, Join(x))
    ensures Fits(s, CallStep(s, t, Join(x)), t, x)
  {
  }

  lemma ExitFits(s: State, t: Tid, code: int)
    requires Local(s, t, t) && s.ts[t].pc.InThread? && t != 0
    ensures Fits(s, CallStep(s, t, Exit(code)), t, t)
  {
  }

  lemma JoinDetachedFits(s: State, t: Tid, x: Tid)
    requires Local(s, t, x) && s.ts[t].target == x && s.ts[t].pc.JoinDetached?
    ensures Fits(s, JoinStep(s, t), t, x)
  {
  }

  lemma JoinCheckMoves(s: State, t: Tid, x: Tid)
    requires Local(s, t, x) && s.ts[t].target == x && s.ts[t].pc.JoinCheck?
    ensures var s' := JoinStep(s, t); Moves(s, s', t, x) && Gentle(s, s', t, x, t) && Gentle(s, s', t, x, x)
    ensures var s' := JoinStep(s, t); Moves(s, s', t, x) ==>
      && InvTcb(s', s.ts[t].addr, s'.tcbs[s.ts[t].addr]) && InvTcb(s', s.ts[x].addr, s'.tcbs[s.ts[x].addr])
  {
  }

  lemma JoinCheckJoiner(s: State, t: Tid, x: Tid)
    requires Local(s, t, x) && s.ts[t].target == x && s.ts[t].pc.JoinCheck?
    ensures var s' := JoinStep(s, t); |s'.ts| == |s.ts| && InvThread(s', t, s'.ts[t])
  {
  }

  lemma JoinCheckTarget(s: State, t: Tid, x: Tid)
    requires Local(s, t, x) && s.ts[t].target == x && s.ts[t].pc.JoinCheck?
    ensures var s' := JoinStep(s, t); |s'.ts| == |s.ts| && InvThread(s', x, s'.ts[x])
  {
  }

  lemma JoinCheckFits(s: State, t: Tid, x: Tid)
    requires Local(s, t, x) && s.ts[t].target == x && s.ts[t].pc.JoinCheck?
    ensures Fits(s, JoinStep(s, t), t, x)
  {
    JoinCheckMoves(s, t, x);
    JoinCheckJoiner(s, t, x);
    JoinCheckTarget(s, t, x);
  }

  lemma JoinRetvalFits(s: State, t: Tid, x: Tid)
    requires Local(s, t, x) && s.ts[t].target == x && s.ts[t].pc.JoinRetval?
    ensures Fits(s, JoinStep(s, t), t, x)
  {
  }

  lemma JoinStateFits(s: State, t: Tid, x: Tid)
    requires Local(s, t, x) && s.ts[t].target == x && s.ts[t].pc.JoinState?
    ensures Fits(s, JoinStep(s, t), t, x)
  {
  }

  lemma JoinSwapMoves(s: State, t: Tid, x: Tid)
    requires Local(s, t, x) && s.ts[t].target == x && s.ts[t].pc.JoinSwap?
    ensures var s' := JoinStep(s, t); Moves(s, s', t, x) && Gentle(s, s', t, x, t) && Gentle(s, s', t, x, x)
    ensures var s' := JoinStep(s, t); Moves(s, s', t, x) ==>
      && InvTcb(s', s.ts[t].addr, s'.tcbs[s.ts[t].addr]) && InvTcb(s', s.ts[x].addr, s'.tcbs[s.ts[x].addr])
  {
  }

  lemma JoinSwapJoiner(s: State, t: Tid, x: Tid)
    requires Local(s, t, x) && s.ts[t].target == x && s.ts[t].pc.JoinSwap?
    ensures var s' := JoinStep(s, t); |s'.ts| == |s.ts| && InvThread(s', t, s'.ts[t])
  {
  }

  lemma JoinSwapTarget(s: State, t: Tid, x: Tid)
    requires Local(s, t, x) && s.ts[t].target == x && s.ts[t].pc.JoinSwap?
    ensures var s' := JoinStep(s, t); |s'.ts| == |s.ts| && InvThread(s', x, s'.ts[x])
  {
  }

  lemma JoinSwapFits(s: State, t: Tid, x: Tid)
    requires Local(s, t, x) && s.ts[t].target == x && s.ts[t].pc.JoinSwap?
    ensures Fits(s, JoinStep(s, t), t, x)
  {
    JoinSwapMoves(s, t, x);
    JoinSwapJoiner(s, t, x);
    JoinSwapTarget(s, t, x);
  }

  lemma JoinRewakeFits(s: State, t: Tid, x: Tid)
    requires Local(s, t, x) && s.ts[t].target == x && s.ts[t].pc.JoinRewake?
    ensures Fits(s, JoinStep(s, t), t, x)
  {
  }

  lemma JoinFreeFits(s: State, t: Tid, x: Tid)
    requires Local(s, t, x) && s.ts[t].target == x && s.ts[t].pc.JoinFree?
    ensures Fits(s, JoinStep(s, t), t, x)
  {
  }

  lemma ExitRetvalFits(s: State, t: Tid)
    requires Local(s, t, t) && s.ts[t].pc.ExitRetval?
    ensures Fits(s, ExitStep(s, t), t, t)
  {
  }

  lemma ExitStateFits(s: State, t: Tid)
    requires Local(s, t, t) && s.ts[t].pc.ExitState?
    ensures Fits(s, ExitStep(s, t), t, t)
  {
  }

  lemma ExitDetachedFits(s: State, t: Tid)
    requires Local(s, t, t) && s.ts[t].pc.ExitDetached?
    ensures Fits(s, ExitStep(s, t), t, t)
  {
  }

  lemma ExitFreeFits(s: State, t: Tid)
    requires Local(s, t, t) && s.ts[t].pc.ExitFree?
    ensures Fits(s, ExitStep(s, t), t, t)
  {
  }

  lemma ExitSwapMoves(s: State, t: Tid, j: Tid)
    requires Local(s, t, j) && s.ts[t].pc.ExitSwap? && j == (if s.ts[t].joiner.Some? then s.ts[t].joiner.value else t)
    ensures var s' := ExitStep(s, t); Moves(s, s', t, j) && Gentle(s, s', t, j, t) && Gentle(s, s', t, j, j)
    ensures var s' := ExitStep(s, t); Moves(s, s', t, j) ==>
      && InvTcb(s', s.ts[t].addr, s'.tcbs[s.ts[t].addr]) && InvTcb(s', s.ts[j].addr, s'.tcbs[s.ts[j].addr])
  {
  }

  lemma ExitSwapExiter(s: State, t: Tid, j: Tid)
    requires Local(s, t, j) && s.ts[t].pc.ExitSwap? && j == (if s.ts[t].joiner.Some? then s.ts[t].joiner.value else t)
    ensures var s' := ExitStep(s, t); |s'.ts| == |s.ts| && InvThread(s', t, s'.ts[t])
  {
  }

  lemma ExitSwapJoiner(s: State, t: Tid, j: Tid)
    requires Local(s, t, j) && s.ts[t].pc.ExitSwap? && j == (if s.ts[t].joiner.Some? then s.ts[t].joiner.value else t)
    ensures var s' := ExitStep(s, t); |s'.ts| == |s.ts| && InvThread(s', j, s'.ts[j])
  {
  }

  lemma ExitSwapFits(s: State, t: Tid, j: Tid)
    requires Local(s, t, j) && s.ts[t].pc.ExitSwap? && j == (if s.ts[t].joiner.Some? then s.ts[t].joiner.value else t)
    ensures Fits(s, ExitStep(s, t), t, j)
  {
    ExitSwapMoves(s, t, j);
    ExitSwapExiter(s, t, j);
    ExitSwapJoiner(s, t, j);
  }

  lemma ExitWakeMoves(s: State, t: Tid, j: Tid)
    requires Local(s, t, j) && s.ts[t].pc.ExitWake? && s.ts[t].joiner == Some(j)
    ensures var s' := ExitStep(s, t); Moves(s, s', t, j) && Gentle(s, s', t, j, t) && Gentle(s, s', t, j, j)
    ensures var s' := ExitStep(s, t); Moves(s, s', t, j) ==>
      && InvTcb(s', s.ts[t].addr, s'.tcbs[s.ts[t].addr]) && InvTcb(s', s.ts[j].addr, s'.tcbs[s.ts[j].addr])
  {
  }

  lemma ExitWakeExiter(s: State, t: Tid, j: Tid)
    requires Local(s, t, j) && s.ts[t].pc.ExitWake? && s.ts[t].joiner == Some(j)
    ensures var s' := ExitStep(s, t); |s'.ts| == |s.ts| && InvThread(s', t, s'.ts[t])
  {
  }

  lemma ExitWakeJoiner(s: State, t: Tid, j: Tid)
    requires Local(s, t, j) && s.ts[t].pc.ExitWake? && s.ts[t].joiner == Some(j)
    ensures var s' := ExitStep(s, t); |s'.ts| == |s.ts| && InvThread(s', j, s'.ts[j])
  {
  }

  lemma ExitWakeFits(s: State, t: Tid, j: Tid)
    requires Local(s, t, j) && s.ts[t].pc.ExitWake? && s.ts[t].joiner == Some(j)
    ensures Fits(s, ExitStep(s, t), t, j)
  {
    ExitWakeMoves(s, t, j);
    ExitWakeExiter(s, t, j);
    ExitWakeJoiner(s, t, j);
  }

  lemma CreateKeeps(s: State, t: Tid, a: Addr, detached: bool, k: Tid)
    requires t < |s.ts| && s.ts[t].pc.InThread? && a < |s.tcbs| && s.tcbs[a].live.None?
    requires k < |s.ts| && InvThread(s, k, s.ts[k])
    ensures InvThread(CallStep(s, t, Create(a, detached)), k, s.ts[k])
  {
  }

  lemma StepCreate(s: State, t: Tid, a: Addr, detached: bool)
    requires Inv(s) && t < |s.ts| && s.ts[t].pc.InThread? && a < |s.tcbs| && s.tcbs[a].live.None?
    ensures Inv(CallStep(s, t, Create(a, detached)))
  {
    var s' := CallStep(s, t, Create(a, detached));
    forall k | 0 <= k < |s'.ts| ensures InvThread(s', k, s'.ts[k]) {
      if k < |s.ts| {
        assert InvThread(s, k, s.ts[k]);
        CreateKeeps(s, t, a, detached, k);
      }
    }
    forall b | 0 <= b < |s'.tcbs| ensures InvTcb(s', b, s'.tcbs[b]) {
      if b != a { assert InvTcb(s, b, s.tcbs[b]); }
    }
  }

  lemma Localise(s: State, t: Tid, x: Tid)
    requires Inv(s) && t < |s.ts| && x < |s.ts|
    ensures Local(s, t, x)
  {
    assert InvThread(s, t, s.ts[t]) && InvThread(s, x, s.ts[x]);
    assert InvTcb(s, s.ts[t].addr, s.tcbs[s.ts[t].addr]) && InvTcb(s, s.ts[x].addr, s.tcbs[s.ts[x].addr]);
  }

  lemma StepJoining(s: State, t: Tid)
    requires Inv(s) && t < |s.ts| && IsJoining(s.ts[t].pc)
    ensures Inv(JoinStep(s, t))
  {
    assert InvThread(s, t, s.ts[t]);
    var x, pc := s.ts[t].target, s.ts[t].pc;
    Localise(s, t, x);
    if pc.JoinState? { JoinStateFits(s, t, x); }
    else if pc.JoinSwap? { JoinSwapFits(s, t, x); }
    else if pc.JoinRewake? { JoinRewakeFits(s, t, x); }
    else if pc.JoinFree? { JoinFreeFits(s, t, x); }
    else if pc.JoinRetval? { JoinRetvalFits(s, t, x); }
    else if pc.JoinCheck? { JoinCheckFits(s, t, x); }
    else { JoinDetachedFits(s, t, x); }
    MoveStep(s, JoinStep(s, t), t, x);
  }

  lemma StepExiting(s: State, t: Tid)
    requires Inv(s) && t < |s.ts| && IsExiting(s.ts[t].pc)
    ensures Inv(ExitStep(s, t))
  {
    assert InvThread(s, t, s.ts[t]);
    var pc := s.ts[t].pc;
    var j := if (pc.ExitSwap? || pc.ExitWake?) && s.ts[t].joiner.Some? then s.ts[t].joiner.value else t;
    Localise(s, t, t);
    Localise(s, t, j);
    if pc.ExitFree? { ExitFreeFits(s, t); }
    else if pc.ExitSwap? { ExitSwapFits(s, t, j); }
    else if pc.ExitWake? { ExitWakeFits(s, t, j); }
    else if pc.ExitRetval? { ExitRetvalFits(s, t); }
    else if pc.ExitState? { ExitStateFits(s, t); }
    else { ExitDetachedFits(s, t); }
    MoveStep(s, ExitStep(s, t), t, j);
  }

  lemma InvStep(s: State, t: Tid, c: Choice)
    requires Inv(s) && CanStep(s, t, c)
    ensures Inv(Step(s, t, c))
  {
    if IsJoining(s.ts[t].pc) { StepJoining(s, t); }
    else if IsExiting(s.ts[t].pc) { StepExiting(s, t); }
    else if c.Create? { StepCreate(s, t, c.a, c.detached); }
    else if c.Join? { Localise(s, t, c.x); JoinFits(s, t, c.x); MoveStep(s, Step(s, t, c), t, c.x); }
    else { Localise(s, t, t); ExitFits(s, t, c.code); MoveStep(s, Step(s, t, c), t, t); }
  }

  lemma {:induction false} InvRun(run: seq<State>, n: nat, k: nat)
    requires Run(run, n) && k < |run|
    ensures Inv(run[k])
  {
    if k == 0 {
      InvInit(n);
    } else {
      InvRun(run, n, k - 1);
      assert Next(run[k - 1], run[k - 1 + 1]);
      var t: nat, c: Choice :| CanStep(run[k - 1], t, c) && run[k] == Step(run[k - 1], t, c);
      InvStep(run[k - 1], t, c);
    }
  }

  // ---- Main results ----

  /** Nobody touches a control block that was freed, not even after it was given to a new thread, and every
      wake-up reaches a thread that waits in a join. */
  lemma NoStaleAccess(run: seq<State>, n: nat, k: nat)
    requires Run(run, n) && k < |run|
    ensures !run[k].stale && !run[k].odd
  {
    InvRun(run, n, k);
  }

  /** A control block is freed once at most: of a detached thread when it finishes, of a joined one when that join
      is over. A control block in use belongs to one thread. */
  lemma FreedOnce(run: seq<State>, n: nat, k: nat, x: Tid)
    requires Run(run, n) && k < |run| && x < |run[k].ts|
    ensures var s := run[k];
      var th := s.ts[x];
      && th.freed <= 1
      && (th.freed == 1 ==> th.pc.Finished? && (th.detached || th.joiner.Some?))
      && (th.detached ==> (th.freed == 1 <==> th.pc.Finished?))
      && (!th.detached && th.joiner.Some? ==>
            var j := Th(s, th.joiner.value);
            th.freed == 1 <==> !(InJoin(j.pc) && j.target == x))
      && (th.freed == 0 <==> At(s, th.addr).live == Some(x))
  {
    InvRun(run, n, k);
    var s := run[k];
    assert InvThread(s, x, s.ts[x]);
    assert InvTcb(s, s.ts[x].addr, s.tcbs[s.ts[x].addr]);
    if s.ts[x].joiner.Some? && s.ts[x].joiner.value < |s.ts| {
      assert InvThread(s, s.ts[x].joiner.value, s.ts[s.ts[x].joiner.value]);
    }
  }

  /** A joiner that goes on to free its target has been woken exactly once, or not at all if the early check found
      the target gone; the target has swapped and finished, and the joiner has read what it exited with. */
  lemma JoinSeesExit(run: seq<State>, n: nat, k: nat, t: Tid)
    requires Run(run, n) && k < |run| && t < |run[k].ts|
    requires run[k].ts[t].pc.JoinRetval? || run[k].ts[t].pc.JoinFree?
    ensures var s := run[k];
      var th := s.ts[t];
      var x := Th(s, th.target);
      && th.target < |s.ts| && x.joiner == Some(t) && x.swapped && x.pc.Finished? && x.freed == 0
      && th.wakes == (if th.early then 0 else 1)
      && At(s, x.addr).retval == x.code
      && (th.pc.JoinFree? ==> th.got == x.code)
  {
    InvRun(run, n, k);
    var s := run[k];
    assert InvThread(s, t, s.ts[t]);
    assert InvThread(s, s.ts[t].target, s.ts[s.ts[t].target]);
  }

  /** No joiner is forgotten: while it is blocked its target has not reached its swap and will find the joiner in
      the slot, or is about to wake it. */
  lemma NoLostJoiner(run: seq<State>, n: nat, k: nat, t: Tid)
    requires Run(run, n) && k < |run| && t < |run[k].ts| && run[k].ts[t].pc.Blocked?
    ensures var s := run[k];
      var x := Th(s, s.ts[t].target);
      && s.ts[t].target < |s.ts| && s.ts[t].wakes == 0 && !x.pc.Finished?
      && (if x.swapped then x.pc == ExitWake(s.ts[t].addr) else At(s, x.addr).joiner == Some(s.ts[t].addr))
  {
    InvRun(run, n, k);
    var s := run[k];
    assert InvThread(s, t, s.ts[t]);
    assert InvThread(s, s.ts[t].target, s.ts[s.ts[t].target]);
  }
}
