/**
 The per-vcore run queues with work stealing as a small-step machine: any number of threads and of vcores,
 one access to shared memory per step, any interleaving of enqueues, dequeues and steals.
 Line numbers refer to src/pvcq/upthread.c.
 */
module Pvcq {
  import opened Seqs
  import opened ThreadState

  type Tid = nat

  /** Where a thread is. `Waiting` stands for the mutex, joiner slot or the like in which its waker finds it, `Unborn`
      and `Gone` for memory that upthread_create may use. The other places are history; `Chosen` is the thread that a
      dequeue is about to return. */
  datatype Loc = Unborn | Queued(i: nat) | InHand(v: nat) | Chosen(v: nat) | OnVcore(v: nat) | Waiting | Gone

  /** `ticket` is history: the entries of a queue carry consecutive tickets. */
  datatype Thread = Thread(state: UState, pref: nat, loc: Loc, ticket: int)

  /** A run queue; `lo` is the ticket of its head. */
  datatype RunQueue = RunQueue(queue: seq<Tid>, size: int, lock: Option<nat>, lo: int)

  /** What follows an enqueue: the interrupted thread, the scheduler, or the steal loop (213) at i. */
  datatype After = ToThread | ToScheduler | ToSteal(j: nat, num: int, i: int, scan: bool)

  /** Which call of `tdequeue` is running: 198, 211 or 214. `scan` tells the final loop (238) from the two
      random choices. */
  datatype Take = Own | First(num: int, scan: bool) | More(num: int, i: int, scan: bool)

  datatype Pc =
    | InThread                                     // running a thread
    | Scheduler                                    // top of the loop (263)
    | Callback(why: UState)                        // a yield callback stores the state (334, 349, 514, 565, 599, 631)
    | Publish                                      // and puts the thread where its waker finds it (517, 634)
    | Wake(k: After)                               // pth_thread_runnable (291-310)
    | EnqueueState(head: bool, k: After)           // 158-161
    | EnqueuePlace(head: bool, k: After)           // 162
    | EnqueuePref(head: bool, k: After)            // 164
    | EnqueueLock(j: nat, head: bool, k: After)    // 165
    | EnqueueInsert(j: nat, head: bool, k: After)  // lock held (166-169)
    | EnqueueSize(j: nat, k: After, u: Tid)        // lock held (170); u, as history, is the thread just put in
    | EnqueueUnlock(j: nat, k: After)              // lock held (171)
    | DequeueSize(j: nat, d: Take)                 // 181
    | DequeueLock(j: nat, d: Take)                 // 182
    | DequeueRemove(j: nat, d: Take)               // lock held (183-184)
    | DequeueCount(j: nat, d: Take)                // lock held (185)
    | DequeueUnlock(j: nat, d: Take)               // lock held (187)
    | DequeuePref(j: nat, d: Take)                 // 189-191
    | Choose                                       // 224-226, left operand of 228
    | Compare(c0: nat, c1: nat, n0: int)           // 227-232
    | StealSize(j: nat, scan: bool)                // 209-210
    | Scan(i: nat)                                 // 238
    | Null                                         // the dequeue returned NULL (264-273)
    | Dispatch                                     // 275-277

  /** `run` is the thread running on the vcore, `hand` the one being moved, `first` the one to be returned.
      History: `calls` counts the calls of `__pth_thread_dequeue`, `seen` has the queues in which the last
      one saw nothing. */
  datatype Vcore = Vcore(
    pc: Pc, run: Option<Tid>, hand: Option<Tid>, first: Option<Tid>, calls: nat, seen: set<nat>)

  /** `placed` is nr_vcores, `steal` is `can_steal`. `odd` records that pth_thread_runnable reached its default
      branch (310), or that the thread at line 275 was not runnable. */
  datatype State = State(
    vc: seq<Vcore>, rq: seq<RunQueue>, ts: seq<Thread>, placed: nat, steal: bool, odd: bool)

  /** What a vcore does next where the code does not say. */
  datatype Choice =
    | Create(u: Tid)       // upthread_create (462-497), also in the memory of a thread that exited
    | Rouse(u: Tid)        // a waker that took u from where it waited calls pth_thread_runnable
    | Yield(why: UState)   // the running thread enters the callback that stores this state
    | Dequeue              // 264
    | Leave                // leave the published thread to its waker
    | Rewake               // the callback makes its own thread runnable again (520-525)
    | Numbers(a: nat, b: nat)

  const FreshQueue := RunQueue([], 0, None, 0)
  const FreshVcore := Vcore(Scheduler, None, None, None, 0, {})

  function Rq(s: State, j: nat): RunQueue { if j < |s.rq| then s.rq[j] else FreshQueue }
  function Vc(s: State, v: nat): Vcore { if v < |s.vc| then s.vc[v] else FreshVcore }
  function Th(s: State, t: Tid): Thread { if t < |s.ts| then s.ts[t] else Thread(Created, 0, Unborn, 0) }

  function SetRq(s: State, j: nat, q: RunQueue): State { if j < |s.rq| then s.(rq := s.rq[j := q]) else s }
  function SetVc(s: State, v: nat, vc: Vcore): State { if v < |s.vc| then s.(vc := s.vc[v := vc]) else s }
  function SetTh(s: State, t: Tid, th: Thread): State { if t < |s.ts| then s.(ts := s.ts[t := th]) else s }
  function Goto(s: State, v: nat, pc: Pc): State { SetVc(s, v, Vc(s, v).(pc := pc)) }

  /** `max` vcores. Thread 0 runs on vcore 0; the other threads are still to be created. */
  function Init(max: nat, placed: nat, steal: bool, n: nat): State
    requires 0 < max && 0 < n
  {
    State(seq(max, _ => FreshVcore)[0 := Vcore(InThread, Some(0), None, None, 0, {})],
          seq(max, _ => FreshQueue),
          seq(n, _ => Thread(Created, 0, Unborn, 0))[0 := Thread(Running, 0, OnVcore(0), 0)],
          placed, steal, false)
  }

  // ---- Threads, callbacks, pth_thread_runnable ----

  function TakeInHand(s: State, v: nat, u: Tid, th: Thread, pc: Pc): State {
    SetTh(SetVc(s, v, Vc(s, v).(pc := pc, hand := Some(u))), u, th.(loc := InHand(v)))
  }

  predicate IsThreading(pc: Pc) { pc.InThread? || pc.Scheduler? }

  predicate Legal(s: State, v: nat, c: Choice) {
    match Vc(s, v).pc
    case InThread =>
      (match c
       case Create(u) => u < |s.ts| && (s.ts[u].loc.Unborn? || s.ts[u].loc.Gone?)
       case Rouse(u) => u < |s.ts| && s.ts[u].loc.Waiting?
       case Yield(why) => !why.Created? && !why.Runnable? && !why.Running? && Vc(s, v).run.Some?
       case _ => false)
    case Scheduler =>
      (match c
       case Rouse(u) => u < |s.ts| && s.ts[u].loc.Waiting?
       case Dequeue => true
       case _ => false)
    case Publish => c.Leave? || c.Rewake?
    case EnqueuePlace(_, _) => c.Numbers? && c.a < s.placed
    case Choose => c.Numbers? && c.a < |s.vc| && c.b < |s.vc|
    case _ => true
  }

  function CallStep(s: State, v: nat, c: Choice): State
    requires IsThreading(Vc(s, v).pc) && Legal(s, v, c)
  {
    var vc := Vc(s, v);
    var k := if vc.pc.InThread? then ToThread else ToScheduler;
    match c
    case Create(u) => TakeInHand(s, v, u, Th(s, u).(state := Created), Wake(k))
    case Rouse(u) => TakeInHand(s, v, u, Th(s, u), Wake(k))
    case Yield(why) =>
      var t := vc.run.value;
      TakeInHand(SetVc(s, v, vc.(run := None)), v, t, Th(s, t), Callback(why))
    case Dequeue => SetVc(s, v, vc.(pc := DequeueSize(v, Own), calls := vc.calls + 1, seen := {}))
    case _ => s
  }

  predicate IsCalling(pc: Pc) { pc.Callback? || pc.Publish? || pc.Wake? }

  function CallbackStep(s: State, v: nat, c: Choice): State
    requires IsCalling(Vc(s, v).pc) && Vc(s, v).hand.Some?
  {
    var vc := Vc(s, v);
    var u := vc.hand.value;
    match vc.pc
    case Callback(why) =>
      if why.Exiting? then
        SetTh(SetVc(s, v, vc.(pc := Scheduler, hand := None)), u, Th(s, u).(state := why, loc := Gone))
      else
        var next := if why.Yielding? || why.Paused? then Wake(ToScheduler) else Publish;
        SetTh(Goto(s, v, next), u, Th(s, u).(state := why))
    case Publish =>
      if c.Rewake? then Goto(s, v, Wake(ToScheduler))
      else SetTh(SetVc(s, v, vc.(pc := Scheduler, hand := None)), u, Th(s, u).(loc := Waiting))
    case Wake(k) =>
      if IsAccepted(Th(s, u).state) then Goto(s, v, EnqueueState(Th(s, u).state.Sysc?, k))
      else s.(odd := true)
  }

  // ---- Enqueue ----

  function Insert(s: State, v: nat, j: nat, head: bool, k: After, u: Tid): State {
    var q := Rq(s, j);
    var s1 := SetVc(s, v, Vc(s, v).(pc := EnqueueSize(j, k, u), hand := None));
    if head then
      SetTh(SetRq(s1, j, q.(queue := [u] + q.queue, lo := q.lo - 1)), u,
            Th(s, u).(loc := Queued(j), ticket := q.lo - 1))
    else
      SetTh(SetRq(s1, j, q.(queue := q.queue + [u])), u, Th(s, u).(loc := Queued(j), ticket := q.lo + |q.queue|))
  }

  /** Where the vcore goes on after an enqueue. */
  function Continue(k: After): Pc {
    match k
    case ToThread => InThread
    case ToScheduler => Scheduler
    case ToSteal(j, num, i, scan) => if i < num then DequeueSize(j, More(num, i, scan)) else Dispatch
  }

  predicate IsEnqueuing(pc: Pc) {
    pc.EnqueueState? || pc.EnqueuePlace? || pc.EnqueuePref? || pc.EnqueueLock? || pc.EnqueueInsert?
  }

  /** `place` is the queue that get_next_queue_id_basic returns. */
  function EnqueueStep(s: State, v: nat, place: nat): State
    requires IsEnqueuing(Vc(s, v).pc) && Vc(s, v).hand.Some?
  {
    var vc := Vc(s, v);
    var u := vc.hand.value;
    match vc.pc
    case EnqueueState(head, k) =>
      SetTh(Goto(s, v, if Th(s, u).state.Created? then EnqueuePlace(head, k) else EnqueuePref(head, k)),
            u, Th(s, u).(state := Runnable))
    case EnqueuePlace(head, k) => SetTh(Goto(s, v, EnqueuePref(head, k)), u, Th(s, u).(pref := place))
    case EnqueuePref(head, k) => Goto(s, v, EnqueueLock(Th(s, u).pref, head, k))
    case EnqueueLock(j, head, k) => SetRq(Goto(s, v, EnqueueInsert(j, head, k)), j, Rq(s, j).(lock := Some(v)))
    case EnqueueInsert(j, head, k) => Insert(s, v, j, head, k, u)
  }

  predicate IsCounting(pc: Pc) { pc.EnqueueSize? || pc.EnqueueUnlock? || pc.DequeueCount? || pc.DequeueUnlock? }

  /** The accesses to `tqsize` and to the lock that end an enqueue or a dequeue. */
  function CountStep(s: State, v: nat): State
    requires IsCounting(Vc(s, v).pc)
  {
    match Vc(s, v).pc
    case EnqueueSize(j, k, _) => SetRq(Goto(s, v, EnqueueUnlock(j, k)), j, Rq(s, j).(size := Rq(s, j).size + 1))
    case EnqueueUnlock(j, k) => SetRq(Goto(s, v, Continue(k)), j, Rq(s, j).(lock := None))
    case DequeueCount(j, d) => SetRq(Goto(s, v, DequeueUnlock(j, d)), j, Rq(s, j).(size := Rq(s, j).size - 1))
    case DequeueUnlock(j, d) => SetRq(Goto(s, v, DequeuePref(j, d)), j, Rq(s, j).(lock := None))
  }

  // ---- tdequeue ----

  /** Where the vcore goes on when a steal brings nothing: on to the scan, or to its next queue. */
  function NothingStolen(max: nat, v: nat, j: nat, scan: bool): Pc {
    if max == 0 then Null else if scan then Scan((j + 1) % max) else Scan((v + 1) % max)
  }

  /** `tdequeue` returned NULL. */
  function AfterNothing(s: State, v: nat, j: nat, d: Take): Pc {
    match d
    case Own => if s.steal then Choose else Null
    case First(_, scan) => NothingStolen(|s.vc|, v, j, scan)
    case More(_, _, _) => Dispatch
  }

  function Remove(s: State, v: nat, j: nat, d: Take): State {
    var q := Rq(s, j);
    var vc := Vc(s, v);
    if q.queue == [] then
      SetVc(s, v, vc.(pc := DequeueUnlock(j, d), seen := vc.seen + {j}))
    else
      SetTh(SetRq(SetVc(s, v, vc.(pc := DequeueCount(j, d), hand := Some(q.queue[0]))),
                  j, q.(queue := q.queue[1..], lo := q.lo + 1)),
            q.queue[0], Th(s, q.queue[0]).(loc := InHand(v)))
  }

  /** Lines 189-191 and what the caller does with the thread. */
  function Took(s: State, v: nat, j: nat, d: Take): State {
    var vc := Vc(s, v);
    match vc.hand
    case None => Goto(s, v, AfterNothing(s, v, j, d))
    case Some(u) =>
      var th := Th(s, u).(pref := v);
      match d
      case Own => SetTh(SetVc(s, v, vc.(pc := Dispatch, hand := None, first := Some(u))), u, th.(loc := Chosen(v)))
      case First(num, scan) =>
        SetTh(SetVc(s, v, vc.(pc := Continue(ToSteal(j, num, 1, scan)), hand := None, first := Some(u))), u,
              th.(loc := Chosen(v)))
      case More(num, i, scan) =>
        SetTh(Goto(s, v, EnqueueState(false, ToSteal(j, num, i + 1, scan))), u, th)
  }

  predicate IsDequeuing(pc: Pc) { pc.DequeueSize? || pc.DequeueLock? || pc.DequeueRemove? || pc.DequeuePref? }

  function DequeueStep(s: State, v: nat): State
    requires IsDequeuing(Vc(s, v).pc)
  {
    var vc := Vc(s, v);
    match vc.pc
    case DequeueSize(j, d) =>
      if Rq(s, j).size != 0 then Goto(s, v, DequeueLock(j, d))
      else SetVc(s, v, vc.(pc := AfterNothing(s, v, j, d), seen := vc.seen + {j}))
    case DequeueLock(j, d) => SetRq(Goto(s, v, DequeueRemove(j, d)), j, Rq(s, j).(lock := Some(v)))
    case DequeueRemove(j, d) => Remove(s, v, j, d)
    case DequeuePref(j, d) => Took(s, v, j, d)
  }

  // ---- Stealing and dispatching ----

  predicate IsStealing(pc: Pc) { pc.Choose? || pc.Compare? || pc.StealSize? || pc.Scan? || pc.Null? || pc.Dispatch? }

  function Run1(s: State, v: nat, u: Tid): State {
    if Th(s, u).state.Runnable? then
      SetTh(SetVc(s, v, Vc(s, v).(pc := InThread, first := None, run := Some(u))), u,
            Th(s, u).(state := Running, loc := OnVcore(v)))
    else s.(odd := true)
  }

  /** a and b are the two random choices. */
  function StealStep(s: State, v: nat, a: nat, b: nat): State
    requires IsStealing(Vc(s, v).pc) && (Vc(s, v).pc.Dispatch? ==> Vc(s, v).first.Some?)
  {
    var vc := Vc(s, v);
    match vc.pc
    case Choose => Goto(s, v, Compare(a, b, Rq(s, a).size))
    case Compare(c0, c1, n0) =>
      var id := n0 > Rq(s, c1).size;
      Goto(s, v, StealSize(if id then (if v != c0 then c0 else c1) else if v != c1 then c1 else c0, false))
    case StealSize(j, scan) =>
      var num := (Rq(s, j).size + 1) / 2;
      if num != 0 then Goto(s, v, DequeueSize(j, First(num, scan)))
      else SetVc(s, v, vc.(pc := NothingStolen(|s.vc|, v, j, scan), seen := vc.seen + {j}))
    case Scan(i) => Goto(s, v, if i == v then Null else StealSize(i, true))
    case Null => Goto(s, v, Scheduler)
    case Dispatch => Run1(s, v, vc.first.value)
  }

  // ---- Runs ----

  /** v waits for a lock that is taken. */
  predicate Blocked(s: State, v: nat) {
    match Vc(s, v).pc
    case EnqueueLock(j, _, _) => Rq(s, j).lock.Some?
    case DequeueLock(j, _) => Rq(s, j).lock.Some?
    case _ => false
  }

  /** The program point finds the thread it works on. */
  predicate HasThread(vc: Vcore) {
    && (IsCalling(vc.pc) || IsEnqueuing(vc.pc) ==> vc.hand.Some?)
    && (vc.pc.Dispatch? ==> vc.first.Some?)
  }

  predicate CanStep(s: State, v: nat, c: Choice) {
    v < |s.vc| && !Blocked(s, v) && Legal(s, v, c) && HasThread(s.vc[v])
  }

  function Step(s: State, v: nat, c: Choice): State
    requires CanStep(s, v, c)
  {
    var pc := Vc(s, v).pc;
    var a, b := if c.Numbers? then c.a else 0, if c.Numbers? then c.b else 0;
    if IsThreading(pc) then CallStep(s, v, c)
    else if IsCalling(pc) then CallbackStep(s, v, c)
    else if IsEnqueuing(pc) then EnqueueStep(s, v, a)
    else if IsCounting(pc) then CountStep(s, v)
    else if IsDequeuing(pc) then DequeueStep(s, v)
    else StealStep(s, v, a, b)
  }

  ghost predicate Next(s: State, s': State) {
    exists v: nat, c: Choice :: CanStep(s, v, c) && s' == Step(s, v, c)
  }

  ghost predicate Run(run: seq<State>, max: nat, placed: nat, steal: bool, n: nat) {
    && 0 < placed <= max && 0 < n
    && |run| > 0
    && run[0] == Init(max, placed, steal, n)
    && forall k :: 0 <= k < |run| - 1 ==> Next(run[k], run[k + 1])
  }

  // ---- The invariant ----

  /** The queue whose lock a vcore holds. */
  function LockOf(pc: Pc): Option<nat> {
    match pc
    case EnqueueInsert(j, _, _) => Some(j)
    case EnqueueSize(j, _, _) => Some(j)
    case EnqueueUnlock(j, _) => Some(j)
    case DequeueRemove(j, _) => Some(j)
    case DequeueCount(j, _) => Some(j)
    case DequeueUnlock(j, _) => Some(j)
    case _ => None
  }

  /** By how much `tqsize` differs from the length of the queue while a vcore at pc holds its lock. */
  function Delta(pc: Pc): int {
    if pc.EnqueueSize? then -1 else if pc.DequeueCount? then 1 else 0
  }

  /** The queue that a program point works on. */
  function TargetOf(pc: Pc): Option<nat> {
    match pc
    case EnqueueLock(j, _, _) => Some(j)
    case DequeueSize(j, _) => Some(j)
    case DequeueLock(j, _) => Some(j)
    case DequeuePref(j, _) => Some(j)
    case StealSize(j, _) => Some(j)
    case _ => LockOf(pc)
  }

  function AfterOf(pc: Pc): Option<After> {
    match pc
    case Wake(k) => Some(k)
    case EnqueueState(_, k) => Some(k)
    case EnqueuePlace(_, k) => Some(k)
    case EnqueuePref(_, k) => Some(k)
    case EnqueueLock(_, _, k) => Some(k)
    case EnqueueInsert(_, _, k) => Some(k)
    case EnqueueSize(_, k, _) => Some(k)
    case EnqueueUnlock(_, k) => Some(k)
    case _ => None
  }

  function TakeOf(pc: Pc): Option<Take> {
    match pc
    case DequeueSize(_, d) => Some(d)
    case DequeueLock(_, d) => Some(d)
    case DequeueRemove(_, d) => Some(d)
    case DequeueCount(_, d) => Some(d)
    case DequeueUnlock(_, d) => Some(d)
    case DequeuePref(_, d) => Some(d)
    case _ => None
  }

  /** The queue that the steal loop around an enqueue takes from. */
  function VictimOf(pc: Pc): Option<nat> {
    match AfterOf(pc)
    case Some(ToSteal(j, _, _, _)) => Some(j)
    case _ => None
  }

  predicate InRange(pc: Pc, max: nat) {
    && (TargetOf(pc).Some? ==> TargetOf(pc).value < max)
    && (VictimOf(pc).Some? ==> VictimOf(pc).value < max)
    && (pc.Compare? ==> pc.c0 < max && pc.c1 < max)
    && (pc.Scan? ==> pc.i < max)
  }

  predicate RunsThread(pc: Pc) { pc.InThread? || AfterOf(pc) == Some(ToThread) }

  predicate HasFirst(pc: Pc) {
    || pc.Dispatch?
    || (AfterOf(pc).Some? && AfterOf(pc).value.ToSteal?)
    || (TakeOf(pc).Some? && TakeOf(pc).value.More?)
  }

  /** What is known of the thread in the vcore's hand at each program point. */
  predicate HandOk(pc: Pc, th: Thread) {
    match pc
    case Callback(why) => th.state.Running? && !why.Created? && !why.Runnable? && !why.Running?
    case Publish => IsAccepted(th.state) && !th.state.Created?
    case Wake(_) => IsAccepted(th.state)
    case EnqueueState(_, _) => IsAccepted(th.state) || th.state.Runnable?
    case EnqueuePlace(_, _) => th.state.Runnable?
    case EnqueuePref(_, _) => th.state.Runnable?
    case EnqueueLock(j, _, _) => th.state.Runnable? && th.pref == j
    case EnqueueInsert(j, _, _) => th.state.Runnable? && th.pref == j
    case DequeueCount(_, _) => th.state.Runnable?
    case DequeueUnlock(_, _) => th.state.Runnable?
    case DequeuePref(_, _) => th.state.Runnable?
    case _ => false
  }

  /** The threads that a vcore runs, has in its hand and has chosen. */
  ghost predicate HasThreads(s: State, v: nat, vc: Vcore) {
    && (vc.run.Some? ==> vc.run.value < |s.ts| && s.ts[vc.run.value].loc == OnVcore(v))
    && (vc.first.Some? ==> vc.first.value < |s.ts| && s.ts[vc.first.value].loc == Chosen(v))
    && (vc.hand.Some? ==>
          vc.hand.value < |s.ts| && s.ts[vc.hand.value].loc == InHand(v) && HandOk(vc.pc, s.ts[vc.hand.value]))
  }

  ghost predicate AtVcore(s: State, v: nat, vc: Vcore) {
    && (vc.run.Some? <==> RunsThread(vc.pc))
    && (vc.first.Some? <==> HasFirst(vc.pc))
    && (IsCalling(vc.pc) || IsEnqueuing(vc.pc) || vc.pc.DequeueCount? ==> vc.hand.Some?)
    && HasThreads(s, v, vc)
    && InRange(vc.pc, |s.rq|)
    && (LockOf(vc.pc).Some? ==> Rq(s, LockOf(vc.pc).value).lock == Some(v))
    && (vc.pc.EnqueueSize? ==> vc.pc.u < |s.ts| && s.ts[vc.pc.u].loc == Queued(vc.pc.j))
  }

  /** The queue that an enqueue will use, where it is fixed already. */
  predicate PrefOk(max: nat, pc: Pc, th: Thread) {
    th.pref < max || th.state.Created? || pc.EnqueuePlace?
  }

  ghost predicate InQueue(q: RunQueue, ticket: int, t: int) {
    q.lo <= ticket < q.lo + |q.queue| && q.queue[ticket - q.lo] == t
  }

  ghost predicate AtThread(s: State, t: int, th: Thread) {
    match th.loc
    case Queued(i) => InQueue(Rq(s, i), th.ticket, t) && i < |s.rq| && th.state.Runnable? && th.pref == i
    case InHand(v) => v < |s.vc| && s.vc[v].hand == Some(t) && PrefOk(|s.rq|, s.vc[v].pc, th)
    case Chosen(v) => v < |s.vc| && s.vc[v].first == Some(t) && th.state.Runnable? && th.pref == v
    case OnVcore(v) => v < |s.vc| && s.vc[v].run == Some(t) && th.state.Running? && th.pref == v
    case Waiting => IsAccepted(th.state) && !th.state.Created? && th.pref < |s.rq|
    case _ => true
  }

  ghost predicate IsEntry(s: State, i: nat, ticket: int, t: Tid) {
    t < |s.ts| && s.ts[t].loc == Queued(i) && s.ts[t].ticket == ticket
  }

  ghost predicate Entries(s: State, i: nat, q: RunQueue) {
    forall k :: 0 <= k < |q.queue| ==> IsEntry(s, i, q.lo + k, q.queue[k])
  }

  ghost predicate Counted(s: State, i: nat, q: RunQueue) {
    match q.lock
    case None => q.size == |q.queue|
    case Some(v) =>
      v < |s.vc| && LockOf(s.vc[v].pc) == Some(i) && 0 <= q.size == |q.queue| + Delta(s.vc[v].pc)
  }

  ghost predicate AtQueue(s: State, i: nat, q: RunQueue) { Entries(s, i, q) && Counted(s, i, q) }

  ghost predicate Vcores(s: State) { forall v :: 0 <= v < |s.vc| ==> AtVcore(s, v, s.vc[v]) }
  ghost predicate Threads(s: State) { forall t :: 0 <= t < |s.ts| ==> AtThread(s, t, s.ts[t]) }
  ghost predicate Queues(s: State) { forall i :: 0 <= i < |s.rq| ==> AtQueue(s, i, s.rq[i]) }

  ghost predicate Inv(s: State) {
    |s.rq| == |s.vc| && 0 < s.placed <= |s.vc| && |s.ts| > 0 && !s.odd && Vcores(s) && Threads(s) && Queues(s)
  }

  lemma InvInit(max: nat, placed: nat, steal: bool, n: nat)
    requires 0 < placed <= max && 0 < n
    ensures Inv(Init(max, placed, steal, n))
  {
  }

  // ---- Frames: what a step leaves alone ----

  /** u is nobody's but v's. */
  predicate Mine(loc: Loc, v: nat, j: nat) {
    match loc
    case Queued(i) => i == j
    case InHand(w) => w == v
    case Chosen(w) => w == v
    case OnVcore(w) => w == v
    case _ => true
  }

  predicate SlotMoves(a: Option<Tid>, b: Option<Tid>, u: Tid) { a == b || a.None? || a == Some(u) }

  predicate LockMoves(a: Option<nat>, b: Option<nat>, v: nat) {
    a == b || (a.None? && b == Some(v)) || (a == Some(v) && b.None?)
  }

  predicate OnlyQueue(a: Option<nat>, j: nat) { a.None? || a == Some(j) }

  /** Nobody but u enters, leaves or changes places. */
  ghost predicate QueueMoves(q: RunQueue, q': RunQueue, u: Tid) {
    || (q'.queue == q.queue && q'.lo == q.lo)
    || (q'.queue == q.queue + [u] && q'.lo == q.lo)
    || (q'.queue == [u] + q.queue && q'.lo == q.lo - 1)
    || (|q.queue| > 0 && q.queue[0] == u && q'.queue == q.queue[1..] && q'.lo == q.lo + 1)
  }

  /** The step of v touches at most thread u and queue j. */
  ghost predicate Moves(s: State, s': State, v: nat, u: Tid, j: nat) {
    && v < |s.vc| == |s'.vc| && j < |s.rq| == |s'.rq| && u < |s.ts| == |s'.ts|
    && s'.vc == s.vc[v := s'.vc[v]] && s'.rq == s.rq[j := s'.rq[j]] && s'.ts == s.ts[u := s'.ts[u]]
    && s'.placed == s.placed && s'.steal == s.steal && s'.odd == s.odd
  }

  ghost predicate Gentle(s: State, s': State, v: nat, u: Tid, j: nat)
    requires Moves(s, s', v, u, j)
  {
    && (s'.ts[u] == s.ts[u] || Mine(s.ts[u].loc, v, j))
    && (s'.ts[u] == s.ts[u] || s.ts[u].loc != Queued(j) || LockOf(s.vc[v].pc) == Some(j))
    && SlotMoves(s.vc[v].run, s'.vc[v].run, u)
    && SlotMoves(s.vc[v].hand, s'.vc[v].hand, u)
    && SlotMoves(s.vc[v].first, s'.vc[v].first, u)
    && (s'.vc[v].hand.Some? && s'.vc[v].hand != Some(u) ==> s.vc[v].pc.EnqueuePlace? == s'.vc[v].pc.EnqueuePlace?)
    && LockMoves(s.rq[j].lock, s'.rq[j].lock, v)
    && OnlyQueue(LockOf(s.vc[v].pc), j) && OnlyQueue(LockOf(s'.vc[v].pc), j)
    && QueueMoves(s.rq[j], s'.rq[j], u)
  }

  lemma OtherHasThreads(s: State, s': State, v: nat, u: Tid, j: nat, w: nat)
    requires Moves(s, s', v, u, j) && Gentle(s, s', v, u, j)
    requires w != v && w < |s.vc| && HasThreads(s, w, s.vc[w])
    ensures HasThreads(s', w, s'.vc[w])
  {
  }

  lemma OtherVcore(s: State, s': State, v: nat, u: Tid, j: nat, w: nat)
    requires Moves(s, s', v, u, j) && Gentle(s, s', v, u, j)
    requires w != v && w < |s.vc| && AtVcore(s, w, s.vc[w]) && AtVcore(s, v, s.vc[v])
    ensures AtVcore(s', w, s'.vc[w])
  {
    OtherHasThreads(s, s', v, u, j, w);
  }

  lemma MoveVcores(s: State, s': State, v: nat, u: Tid, j: nat)
    requires Moves(s, s', v, u, j) && Gentle(s, s', v, u, j) && Vcores(s)
    requires AtVcore(s', v, s'.vc[v])
    ensures Vcores(s')
  {
    forall w | 0 <= w < |s'.vc| ensures AtVcore(s', w, s'.vc[w]) {
      if w != v {
        assert AtVcore(s, v, s.vc[v]) && AtVcore(s, w, s.vc[w]);
        OtherVcore(s, s', v, u, j, w);
      }
    }
  }

  lemma OtherThread(s: State, s': State, v: nat, u: Tid, j: nat, t: Tid)
    requires Moves(s, s', v, u, j) && Gentle(s, s', v, u, j)
    requires t != u && t < |s.ts| && AtThread(s, t, s.ts[t])
    ensures AtThread(s', t, s'.ts[t])
  {
  }

  lemma MoveThreads(s: State, s': State, v: nat, u: Tid, j: nat)
    requires Moves(s, s', v, u, j) && Gentle(s, s', v, u, j) && Threads(s)
    requires AtThread(s', u, s'.ts[u])
    ensures Threads(s')
  {
    forall t | 0 <= t < |s'.ts| ensures AtThread(s', t, s'.ts[t]) {
      if t != u { OtherThread(s, s', v, u, j, t); }
    }
  }

  /** u keeps its place in queue j, or enters or leaves it. */
  ghost predicate Enters(s: State, s': State, u: Tid, j: nat)
    requires u < |s.ts| && u < |s'.ts| && j < |s.rq| && j < |s'.rq|
  {
    var q, q' := s.rq[j], s'.rq[j];
    var th, th' := s.ts[u], s'.ts[u];
    if q'.queue == q.queue && q'.lo == q.lo then
      th.loc != Queued(j) || (th'.loc == th.loc && th'.ticket == th.ticket)
    else if |q'.queue| > |q.queue| then
      th.loc != Queued(j) && InQueue(q', th'.ticket, u) && th'.loc == Queued(j)
    else
      th.ticket == q.lo
  }

  lemma SameEntries(s: State, s': State, v: nat, u: Tid, j: nat)
    requires Moves(s, s', v, u, j) && Enters(s, s', u, j) && Entries(s, j, s.rq[j])
    requires s'.rq[j].queue == s.rq[j].queue && s'.rq[j].lo == s.rq[j].lo
    ensures Entries(s', j, s'.rq[j])
  {
    forall k | 0 <= k < |s'.rq[j].queue| ensures IsEntry(s', j, s'.rq[j].lo + k, s'.rq[j].queue[k]) {
      assert IsEntry(s, j, s.rq[j].lo + k, s.rq[j].queue[k]);
    }
  }

  lemma LongerEntries(s: State, s': State, v: nat, u: Tid, j: nat)
    requires Moves(s, s', v, u, j) && Enters(s, s', u, j) && Entries(s, j, s.rq[j])
    requires QueueMoves(s.rq[j], s'.rq[j], u) && |s'.rq[j].queue| > |s.rq[j].queue|
    ensures Entries(s', j, s'.rq[j])
  {
    var q, q' := s.rq[j], s'.rq[j];
    var d := q.lo - q'.lo;
    forall k | 0 <= k < |q'.queue| ensures IsEntry(s', j, q'.lo + k, q'.queue[k]) {
      if 0 <= k - d < |q.queue| { assert IsEntry(s, j, q.lo + (k - d), q.queue[k - d]); }
    }
  }

  lemma ShorterEntries(s: State, s': State, v: nat, u: Tid, j: nat)
    requires Moves(s, s', v, u, j) && Enters(s, s', u, j) && Entries(s, j, s.rq[j])
    requires QueueMoves(s.rq[j], s'.rq[j], u) && |s'.rq[j].queue| < |s.rq[j].queue|
    ensures Entries(s', j, s'.rq[j])
  {
    var q, q' := s.rq[j], s'.rq[j];
    forall k | 0 <= k < |q'.queue| ensures IsEntry(s', j, q'.lo + k, q'.queue[k]) {
      assert IsEntry(s, j, q.lo + (k + 1), q.queue[k + 1]);
    }
  }

  lemma MoveEntries(s: State, s': State, v: nat, u: Tid, j: nat)
    requires Moves(s, s', v, u, j) && Enters(s, s', u, j) && Entries(s, j, s.rq[j])
    requires QueueMoves(s.rq[j], s'.rq[j], u)
    ensures Entries(s', j, s'.rq[j])
  {
    if |s'.rq[j].queue| > |s.rq[j].queue| { LongerEntries(s, s', v, u, j); }
    else if |s'.rq[j].queue| < |s.rq[j].queue| { ShorterEntries(s, s', v, u, j); }
    else { SameEntries(s, s', v, u, j); }
  }

  lemma OtherQueue(s: State, s': State, v: nat, u: Tid, j: nat, i: nat)
    requires Moves(s, s', v, u, j) && Gentle(s, s', v, u, j)
    requires i != j && i < |s.rq| && AtQueue(s, i, s.rq[i])
    ensures AtQueue(s', i, s'.rq[i])
  {
    forall k | 0 <= k < |s'.rq[i].queue| ensures IsEntry(s', i, s'.rq[i].lo + k, s'.rq[i].queue[k]) {
      assert IsEntry(s, i, s.rq[i].lo + k, s.rq[i].queue[k]);
    }
  }

  lemma MoveQueues(s: State, s': State, v: nat, u: Tid, j: nat)
    requires Moves(s, s', v, u, j) && Gentle(s, s', v, u, j) && Enters(s, s', u, j) && Queues(s)
    requires Counted(s', j, s'.rq[j])
    ensures Queues(s')
  {
    forall i | 0 <= i < |s'.rq| ensures AtQueue(s', i, s'.rq[i]) {
      assert AtQueue(s, i, s.rq[i]);
      if i != j { OtherQueue(s, s', v, u, j, i); } else { MoveEntries(s, s', v, u, j); }
    }
  }

  /** What has to be checked of a step, all of it about v, u and j. */
  ghost predicate Fits(s: State, s': State, v: nat, u: Tid, j: nat) {
    && Moves(s, s', v, u, j) && Gentle(s, s', v, u, j) && Enters(s, s', u, j)
    && AtVcore(s', v, s'.vc[v]) && AtThread(s', u, s'.ts[u]) && Counted(s', j, s'.rq[j])
  }

  /** A step of v is a step of no other vcore. */
  predicate OnlyVcore(s: State, s': State, v: nat) {
    && v < |s.vc| == |s'.vc| && |s'.rq| == |s.rq| && |s'.ts| == |s.ts| && s'.steal == s.steal
    && s'.vc == s.vc[v := s'.vc[v]]
  }

  lemma MoveStep(s: State, s': State, v: nat, u: Tid, j: nat)
    requires Inv(s) && Fits(s, s', v, u, j)
    ensures Inv(s') && OnlyVcore(s, s', v)
  {
    MoveVcores(s, s', v, u, j);
    MoveThreads(s, s', v, u, j);
    MoveQueues(s, s', v, u, j);
  }

  /** What the invariant says about v, u and j. */
  ghost predicate Local(s: State, v: nat, u: Tid, j: nat) {
    && v < |s.vc| == |s.rq| && u < |s.ts| && j < |s.rq| && 0 < s.placed <= |s.vc|
    && AtVcore(s, v, s.vc[v]) && AtThread(s, u, s.ts[u]) && Counted(s, j, s.rq[j])
  }

  lemma Localise(s: State, v: nat, u: Tid, j: nat)
    requires Inv(s) && v < |s.vc| && u < |s.ts| && j < |s.rq|
    ensures Local(s, v, u, j)
  {
    assert AtVcore(s, v, s.vc[v]) && AtThread(s, u, s.ts[u]) && AtQueue(s, j, s.rq[j]);
  }

  // ---- Every step keeps the invariant ----

  lemma DequeueCallFits(s: State, v: nat)
    requires Local(s, v, 0, v) && s.vc[v].pc.Scheduler?
    ensures Fits(s, CallStep(s, v, Dequeue), v, 0, v)
  {
  }

  lemma CreateFits(s: State, v: nat, u: Tid, j: nat)
    requires Local(s, v, u, j) && IsThreading(s.vc[v].pc) && Legal(s, v, Create(u))
    ensures Fits(s, CallStep(s, v, Create(u)), v, u, j)
  {
  }

  lemma RouseFits(s: State, v: nat, u: Tid, j: nat)
    requires Local(s, v, u, j) && IsThreading(s.vc[v].pc) && Legal(s, v, Rouse(u))
    ensures Fits(s, CallStep(s, v, Rouse(u)), v, u, j)
  {
  }

  lemma YieldFits(s: State, v: nat, u: Tid, why: UState, j: nat)
    requires Local(s, v, u, j) && IsThreading(s.vc[v].pc) && Legal(s, v, Yield(why)) && s.vc[v].run == Some(u)
    ensures Fits(s, CallStep(s, v, Yield(why)), v, u, j)
  {
  }

  lemma CallbackFits(s: State, v: nat, u: Tid, c: Choice, j: nat)
    requires Local(s, v, u, j) && s.vc[v].pc.Callback? && s.vc[v].hand == Some(u) && !s.vc[v].pc.why.Exiting?
    ensures Fits(s, CallbackStep(s, v, c), v, u, j)
  {
  }

  lemma ExitFits(s: State, v: nat, u: Tid, c: Choice, j: nat)
    requires Local(s, v, u, j) && s.vc[v].pc == Callback(Exiting) && s.vc[v].hand == Some(u)
    ensures Fits(s, CallbackStep(s, v, c), v, u, j)
  {
  }

  lemma LeaveFits(s: State, v: nat, u: Tid, c: Choice, j: nat)
    requires Local(s, v, u, j) && s.vc[v].pc.Publish? && s.vc[v].hand == Some(u) && !c.Rewake?
    ensures Fits(s, CallbackStep(s, v, c), v, u, j)
  {
  }

  lemma RewakeFits(s: State, v: nat, u: Tid, c: Choice, j: nat)
    requires Local(s, v, u, j) && s.vc[v].pc.Publish? && s.vc[v].hand == Some(u) && c.Rewake?
    ensures Fits(s, CallbackStep(s, v, c), v, u, j)
  {
  }

  lemma WakeVcore(s: State, v: nat, u: Tid, c: Choice, j: nat)
    requires Local(s, v, u, j) && s.vc[v].pc.Wake? && s.vc[v].hand == Some(u)
    ensures var s' := CallbackStep(s, v, c); |s'.vc| == |s.vc| && AtVcore(s', v, s'.vc[v])
  {
  }

  lemma WakeFits(s: State, v: nat, u: Tid, c: Choice, j: nat)
    requires Local(s, v, u, j) && s.vc[v].pc.Wake? && s.vc[v].hand == Some(u)
    ensures Fits(s, CallbackStep(s, v, c), v, u, j)
  {
    WakeVcore(s, v, u, c, j);
  }

  lemma EnqueueStateVcore(s: State, v: nat, u: Tid, place: nat, j: nat)
    requires Local(s, v, u, j) && s.vc[v].pc.EnqueueState? && s.vc[v].hand == Some(u)
    ensures var s' := EnqueueStep(s, v, place); |s'.vc| == |s.vc| && AtVcore(s', v, s'.vc[v])
  {
  }

  lemma EnqueueStateFits(s: State, v: nat, u: Tid, place: nat, j: nat)
    requires Local(s, v, u, j) && s.vc[v].pc.EnqueueState? && s.vc[v].hand == Some(u)
    ensures Fits(s, EnqueueStep(s, v, place), v, u, j)
  {
    EnqueueStateVcore(s, v, u, place, j);
  }

  lemma EnqueuePlaceFits(s: State, v: nat, u: Tid, place: nat, j: nat)
    requires Local(s, v, u, j) && s.vc[v].pc.EnqueuePlace? && s.vc[v].hand == Some(u) && place < s.placed
    ensures Fits(s, EnqueueStep(s, v, place), v, u, j)
  {
  }

  lemma EnqueuePrefFits(s: State, v: nat, u: Tid, place: nat, j: nat)
    requires Local(s, v, u, j) && s.vc[v].pc.EnqueuePref? && s.vc[v].hand == Some(u)
    ensures Fits(s, EnqueueStep(s, v, place), v, u, j)
  {
  }

  lemma EnqueueLockFits(s: State, v: nat, u: Tid, place: nat, j: nat)
    requires Local(s, v, u, j) && s.vc[v].pc.EnqueueLock? && s.vc[v].hand == Some(u) && !Blocked(s, v)
    requires s.vc[v].pc.j == j
    ensures Fits(s, EnqueueStep(s, v, place), v, u, j)
  {
  }

  lemma InsertHeadPlace(s: State, v: nat, u: Tid, j: nat, k: After)
    requires Local(s, v, u, j) && s.vc[v].pc == EnqueueInsert(j, true, k) && s.vc[v].hand == Some(u)
    ensures var s' := Insert(s, v, j, true, k, u);
      && |s'.vc| == |s.vc| && |s'.ts| == |s.ts| && |s'.rq| == |s.rq| && AtThread(s', u, s'.ts[u])
      && Counted(s', j, s'.rq[j]) && AtVcore(s', v, s'.vc[v])
  {
  }

  lemma InsertHeadFits(s: State, v: nat, u: Tid, j: nat, k: After)
    requires Local(s, v, u, j) && s.vc[v].pc == EnqueueInsert(j, true, k) && s.vc[v].hand == Some(u)
    ensures Fits(s, Insert(s, v, j, true, k, u), v, u, j)
  {
    InsertHeadPlace(s, v, u, j, k);
  }

  lemma InsertTailPlace(s: State, v: nat, u: Tid, j: nat, k: After)
    requires Local(s, v, u, j) && s.vc[v].pc == EnqueueInsert(j, false, k) && s.vc[v].hand == Some(u)
    ensures var s' := Insert(s, v, j, false, k, u);
      && |s'.vc| == |s.vc| && |s'.ts| == |s.ts| && |s'.rq| == |s.rq| && AtThread(s', u, s'.ts[u])
      && Counted(s', j, s'.rq[j]) && AtVcore(s', v, s'.vc[v])
  {
  }

  lemma InsertTailFits(s: State, v: nat, u: Tid, j: nat, k: After)
    requires Local(s, v, u, j) && s.vc[v].pc == EnqueueInsert(j, false, k) && s.vc[v].hand == Some(u)
    ensures Fits(s, Insert(s, v, j, false, k, u), v, u, j)
  {
    InsertTailPlace(s, v, u, j, k);
  }

  /** u stays where it is when v moves on with the same threads. */
  lemma QueueThread(s: State, s': State, v: nat, u: Tid, j: nat, vc: Vcore, q: RunQueue)
    requires v < |s.vc| == |s.rq| && u < |s.ts| && j < |s.rq| && AtThread(s, u, s.ts[u])
    requires s' == SetRq(SetVc(s, v, vc), j, q)
    requires vc == s.vc[v].(pc := vc.pc) && q == s.rq[j].(size := q.size, lock := q.lock)
    requires !vc.pc.EnqueuePlace? && !s.vc[v].pc.EnqueuePlace?
    ensures AtThread(s', u, s'.ts[u])
  {
  }

  /** A step of v that moves no thread, and touches the count or the lock of queue j. */
  lemma QueueFits(s: State, s': State, v: nat, u: Tid, j: nat, vc: Vcore, q: RunQueue)
    requires Local(s, v, u, j) && s' == SetRq(SetVc(s, v, vc), j, q)
    requires vc == s.vc[v].(pc := vc.pc) && q == s.rq[j].(size := q.size, lock := q.lock) && AtVcore(s', v, vc)
    requires LockMoves(s.rq[j].lock, q.lock, v) && OnlyQueue(LockOf(s.vc[v].pc), j) && OnlyQueue(LockOf(vc.pc), j)
    requires Counted(s', j, q) && !vc.pc.EnqueuePlace? && !s.vc[v].pc.EnqueuePlace?
    ensures Fits(s, s', v, u, j)
  {
    QueueThread(s, s', v, u, j, vc, q);
  }

  lemma EnqueueSizeFits(s: State, v: nat, u: Tid, j: nat, k: After)
    requires Local(s, v, u, j) && s.vc[v].pc.EnqueueSize? && s.vc[v].pc.j == j && s.vc[v].pc.k == k
    ensures Fits(s, CountStep(s, v), v, u, j)
  {
    var q := s.rq[j];
    QueueFits(s, CountStep(s, v), v, u, j, s.vc[v].(pc := EnqueueUnlock(j, k)), q.(size := q.size + 1));
  }

  lemma EnqueueUnlockFits(s: State, v: nat, u: Tid, j: nat, k: After)
    requires Local(s, v, u, j) && s.vc[v].pc == EnqueueUnlock(j, k)
    ensures Fits(s, CountStep(s, v), v, u, j)
  {
    QueueFits(s, CountStep(s, v), v, u, j, s.vc[v].(pc := Continue(k)), s.rq[j].(lock := None));
  }

  lemma DequeueCountFits(s: State, v: nat, u: Tid, j: nat, d: Take)
    requires Local(s, v, u, j) && s.vc[v].pc == DequeueCount(j, d) && s.vc[v].hand == Some(u)
    ensures Fits(s, CountStep(s, v), v, u, j)
  {
  }

  lemma DequeueUnlockFits(s: State, v: nat, u: Tid, j: nat, d: Take)
    requires Local(s, v, u, j) && s.vc[v].pc == DequeueUnlock(j, d)
    ensures Fits(s, CountStep(s, v), v, u, j)
  {
    QueueFits(s, CountStep(s, v), v, u, j, s.vc[v].(pc := DequeuePref(j, d)), s.rq[j].(lock := None));
  }

  /** A step of v to a program point that works on the same threads, without a lock. */
  lemma PcFits(s: State, s': State, v: nat, u: Tid, j: nat, vc: Vcore)
    requires Local(s, v, u, j) && s' == SetVc(s, v, vc)
    requires vc == s.vc[v].(pc := vc.pc, seen := vc.seen) && InRange(vc.pc, |s.rq|) && vc.hand.None?
    requires RunsThread(vc.pc) == RunsThread(s.vc[v].pc) && HasFirst(vc.pc) == HasFirst(s.vc[v].pc)
    requires LockOf(vc.pc).None? && LockOf(s.vc[v].pc).None? && !IsCalling(vc.pc) && !IsEnqueuing(vc.pc)
    ensures Fits(s, s', v, u, j)
  {
  }

  lemma DequeueSizeFits(s: State, v: nat, u: Tid, j: nat, d: Take)
    requires Local(s, v, u, j) && s.vc[v].pc == DequeueSize(j, d) && s.rq[j].size != 0
    ensures Fits(s, DequeueStep(s, v), v, u, j)
  {
    PcFits(s, DequeueStep(s, v), v, u, j, s.vc[v].(pc := DequeueLock(j, d)));
  }

  lemma AfterNothingInRange(s: State, v: nat, j: nat, d: Take)
    requires v < |s.vc| && j < |s.vc|
    ensures InRange(AfterNothing(s, v, j, d), |s.vc|)
  {
    NextDistance(|s.vc|, v, j);
    NextDistance(|s.vc|, v, v);
  }

  lemma DequeueZeroFits(s: State, v: nat, u: Tid, j: nat, d: Take)
    requires Local(s, v, u, j) && s.vc[v].pc == DequeueSize(j, d) && s.rq[j].size == 0
    ensures Fits(s, DequeueStep(s, v), v, u, j)
  {
    var vc := s.vc[v];
    AfterNothingInRange(s, v, j, d);
    PcFits(s, DequeueStep(s, v), v, u, j, vc.(pc := AfterNothing(s, v, j, d), seen := vc.seen + {j}));
  }

  lemma DequeueLockFits(s: State, v: nat, u: Tid, j: nat, d: Take)
    requires Local(s, v, u, j) && s.vc[v].pc == DequeueLock(j, d) && !Blocked(s, v)
    ensures Fits(s, DequeueStep(s, v), v, u, j)
  {
  }

  lemma RemoveFits(s: State, v: nat, u: Tid, j: nat, d: Take)
    requires Local(s, v, u, j) && s.vc[v].pc == DequeueRemove(j, d)
    requires |s.rq[j].queue| > 0 && u == s.rq[j].queue[0] && IsEntry(s, j, s.rq[j].lo, u)
    ensures Fits(s, Remove(s, v, j, d), v, u, j)
  {
  }

  lemma RemoveNothingFits(s: State, v: nat, u: Tid, j: nat, d: Take)
    requires Local(s, v, u, j) && s.vc[v].pc == DequeueRemove(j, d) && s.rq[j].queue == []
    ensures Fits(s, Remove(s, v, j, d), v, u, j)
  {
  }

  /** The thread is the one to be returned. */
  lemma TookOwnFits(s: State, v: nat, u: Tid, j: nat)
    requires Local(s, v, u, j) && s.vc[v].pc == DequeuePref(j, Own) && s.vc[v].hand == Some(u)
    ensures Fits(s, Took(s, v, j, Own), v, u, j)
  {
  }

  lemma TookFirstFits(s: State, v: nat, u: Tid, j: nat, num: int, scan: bool)
    requires Local(s, v, u, j) && s.vc[v].pc == DequeuePref(j, First(num, scan)) && s.vc[v].hand == Some(u)
    ensures Fits(s, Took(s, v, j, First(num, scan)), v, u, j)
  {
  }

  lemma TookMoreFits(s: State, v: nat, u: Tid, j: nat, d: Take)
    requires Local(s, v, u, j) && s.vc[v].pc == DequeuePref(j, d) && s.vc[v].hand == Some(u) && d.More?
    ensures Fits(s, Took(s, v, j, d), v, u, j)
  {
  }

  lemma TookNothingFits(s: State, v: nat, u: Tid, j: nat, d: Take)
    requires Local(s, v, u, j) && s.vc[v].pc == DequeuePref(j, d) && s.vc[v].hand.None?
    ensures Fits(s, Took(s, v, j, d), v, u, j)
  {
    AfterNothingInRange(s, v, j, d);
    PcFits(s, Took(s, v, j, d), v, u, j, s.vc[v].(pc := AfterNothing(s, v, j, d)));
  }

  lemma DispatchPlace(s: State, v: nat, u: Tid, j: nat)
    requires Local(s, v, u, j) && s.vc[v].pc.Dispatch? && s.vc[v].first == Some(u)
    ensures var s' := Run1(s, v, u);
      |s'.vc| == |s.vc| && |s'.ts| == |s.ts| && AtThread(s', u, s'.ts[u]) && AtVcore(s', v, s'.vc[v])
  {
  }

  lemma DispatchFits(s: State, v: nat, u: Tid, j: nat)
    requires Local(s, v, u, j) && s.vc[v].pc.Dispatch? && s.vc[v].first == Some(u)
    ensures Fits(s, Run1(s, v, u), v, u, j)
  {
    DispatchPlace(s, v, u, j);
  }

  lemma ChooseFits(s: State, v: nat, u: Tid, j: nat, a: nat, b: nat)
    requires Local(s, v, u, j) && s.vc[v].pc.Choose? && a < |s.vc| && b < |s.vc|
    ensures Fits(s, StealStep(s, v, a, b), v, u, j)
  {
    PcFits(s, StealStep(s, v, a, b), v, u, j, s.vc[v].(pc := Compare(a, b, Rq(s, a).size)));
  }

  lemma CompareFits(s: State, v: nat, u: Tid, j: nat, a: nat, b: nat)
    requires Local(s, v, u, j) && s.vc[v].pc.Compare?
    ensures Fits(s, StealStep(s, v, a, b), v, u, j)
  {
    PcFits(s, StealStep(s, v, a, b), v, u, j, StealStep(s, v, a, b).vc[v]);
  }

  lemma ScanFits(s: State, v: nat, u: Tid, j: nat, a: nat, b: nat, i: nat)
    requires Local(s, v, u, j) && s.vc[v].pc == Scan(i) && i != v
    ensures Fits(s, StealStep(s, v, a, b), v, u, j)
  {
    PcFits(s, StealStep(s, v, a, b), v, u, j, s.vc[v].(pc := StealSize(i, true)));
  }

  lemma ScanEndsFits(s: State, v: nat, u: Tid, j: nat, a: nat, b: nat)
    requires Local(s, v, u, j) && s.vc[v].pc == Scan(v)
    ensures Fits(s, StealStep(s, v, a, b), v, u, j)
  {
    PcFits(s, StealStep(s, v, a, b), v, u, j, s.vc[v].(pc := Null));
  }

  lemma NullFits(s: State, v: nat, u: Tid, j: nat, a: nat, b: nat)
    requires Local(s, v, u, j) && s.vc[v].pc.Null?
    ensures Fits(s, StealStep(s, v, a, b), v, u, j)
  {
    PcFits(s, StealStep(s, v, a, b), v, u, j, s.vc[v].(pc := Scheduler));
  }

  lemma StealSomeFits(s: State, v: nat, u: Tid, j: nat, a: nat, b: nat, x: nat, scan: bool)
    requires Local(s, v, u, j) && s.vc[v].pc == StealSize(x, scan) && (Rq(s, x).size + 1) / 2 != 0
    ensures Fits(s, StealStep(s, v, a, b), v, u, j)
  {
    var num := (Rq(s, x).size + 1) / 2;
    PcFits(s, StealStep(s, v, a, b), v, u, j, s.vc[v].(pc := DequeueSize(x, First(num, scan))));
  }

  lemma StealNothingFits(s: State, v: nat, u: Tid, j: nat, a: nat, b: nat, x: nat, scan: bool)
    requires Local(s, v, u, j) && s.vc[v].pc == StealSize(x, scan) && (Rq(s, x).size + 1) / 2 == 0
    ensures Fits(s, StealStep(s, v, a, b), v, u, j)
  {
    var vc := s.vc[v];
    AfterNothingInRange(s, v, x, First(0, scan));
    PcFits(s, StealStep(s, v, a, b), v, u, j, vc.(pc := NothingStolen(|s.vc|, v, x, scan), seen := vc.seen + {x}));
  }

  lemma StepCalling(s: State, v: nat, c: Choice)
    requires Inv(s) && CanStep(s, v, c) && (IsThreading(s.vc[v].pc) || IsCalling(s.vc[v].pc))
    ensures Inv(Step(s, v, c)) && OnlyVcore(s, Step(s, v, c), v)
  {
    var vc := s.vc[v];
    assert AtVcore(s, v, vc);
    var j := v;
    if IsThreading(vc.pc) {
      if c.Dequeue? {
        Localise(s, v, 0, v); DequeueCallFits(s, v); MoveStep(s, Step(s, v, c), v, 0, v);
      } else {
        var u := if c.Yield? then vc.run.value else c.u;
        Localise(s, v, u, v);
        if c.Create? { CreateFits(s, v, u, v); }
        else if c.Rouse? { RouseFits(s, v, u, v); }
        else { YieldFits(s, v, u, c.why, v); }
        MoveStep(s, Step(s, v, c), v, u, v);
      }
    } else {
      var u := vc.hand.value;
      Localise(s, v, u, v);
      if vc.pc == Callback(Exiting) { ExitFits(s, v, u, c, v); }
      else if vc.pc.Callback? { CallbackFits(s, v, u, c, v); }
      else if vc.pc.Publish? && c.Rewake? { RewakeFits(s, v, u, c, v); }
      else if vc.pc.Publish? { LeaveFits(s, v, u, c, v); }
      else { WakeFits(s, v, u, c, v); }
      MoveStep(s, Step(s, v, c), v, u, v);
    }
  }

  lemma StepEnqueuing(s: State, v: nat, place: nat)
    requires Inv(s) && v < |s.vc| && IsEnqueuing(s.vc[v].pc) && s.vc[v].hand.Some? && !Blocked(s, v)
    requires s.vc[v].pc.EnqueuePlace? ==> place < s.placed
    ensures Inv(EnqueueStep(s, v, place)) && OnlyVcore(s, EnqueueStep(s, v, place), v)
  {
    var vc := s.vc[v];
    assert AtVcore(s, v, vc);
    var u := vc.hand.value;
    var j := if TargetOf(vc.pc).Some? then TargetOf(vc.pc).value else v;
    Localise(s, v, u, j);
    if vc.pc.EnqueueState? { EnqueueStateFits(s, v, u, place, j); }
    else if vc.pc.EnqueuePlace? { EnqueuePlaceFits(s, v, u, place, j); }
    else if vc.pc.EnqueuePref? { EnqueuePrefFits(s, v, u, place, j); }
    else if vc.pc.EnqueueLock? { EnqueueLockFits(s, v, u, place, j); }
    else if vc.pc.head { InsertHeadFits(s, v, u, j, vc.pc.k); }
    else { InsertTailFits(s, v, u, j, vc.pc.k); }
    MoveStep(s, EnqueueStep(s, v, place), v, u, j);
  }

  lemma StepCounting(s: State, v: nat)
    requires Inv(s) && v < |s.vc| && IsCounting(s.vc[v].pc)
    ensures Inv(CountStep(s, v)) && OnlyVcore(s, CountStep(s, v), v)
  {
    var vc := s.vc[v];
    assert AtVcore(s, v, vc);
    var j := vc.pc.j;
    var u := if vc.pc.DequeueCount? then vc.hand.value else 0;
    Localise(s, v, u, j);
    if vc.pc.EnqueueSize? { EnqueueSizeFits(s, v, u, j, vc.pc.k); }
    else if vc.pc.EnqueueUnlock? { EnqueueUnlockFits(s, v, u, j, vc.pc.k); }
    else if vc.pc.DequeueCount? { DequeueCountFits(s, v, u, j, vc.pc.d); }
    else { DequeueUnlockFits(s, v, u, j, vc.pc.d); }
    MoveStep(s, CountStep(s, v), v, u, j);
  }

  lemma StepTaking(s: State, v: nat, u: Tid, j: nat, d: Take)
    requires Inv(s) && v < |s.vc| && s.vc[v].pc == DequeuePref(j, d) && s.vc[v].hand == Some(u)
    ensures Inv(Took(s, v, j, d)) && OnlyVcore(s, Took(s, v, j, d), v)
  {
    assert AtVcore(s, v, s.vc[v]);
    Localise(s, v, u, j);
    match d {
      case Own => TookOwnFits(s, v, u, j);
      case First(num, scan) => TookFirstFits(s, v, u, j, num, scan);
      case More(_, _, _) => TookMoreFits(s, v, u, j, d);
    }
    MoveStep(s, Took(s, v, j, d), v, u, j);
  }

  lemma StepRemoving(s: State, v: nat, j: nat, d: Take)
    requires Inv(s) && v < |s.vc| && s.vc[v].pc == DequeueRemove(j, d)
    ensures Inv(Remove(s, v, j, d)) && OnlyVcore(s, Remove(s, v, j, d), v)
  {
    assert AtVcore(s, v, s.vc[v]);
    assert AtQueue(s, j, s.rq[j]);
    var q := s.rq[j];
    if |q.queue| > 0 {
      var u := q.queue[0];
      assert IsEntry(s, j, q.lo + 0, u);
      Localise(s, v, u, j);
      RemoveFits(s, v, u, j, d);
      MoveStep(s, Remove(s, v, j, d), v, u, j);
    } else {
      Localise(s, v, 0, j);
      RemoveNothingFits(s, v, 0, j, d);
      MoveStep(s, Remove(s, v, j, d), v, 0, j);
    }
  }

  lemma StepDequeuing(s: State, v: nat)
    requires Inv(s) && v < |s.vc| && IsDequeuing(s.vc[v].pc) && !Blocked(s, v)
    ensures Inv(DequeueStep(s, v)) && OnlyVcore(s, DequeueStep(s, v), v)
  {
    var vc := s.vc[v];
    assert AtVcore(s, v, vc);
    var j, d := vc.pc.j, vc.pc.d;
    if vc.pc.DequeueRemove? { StepRemoving(s, v, j, d); }
    else if vc.pc.DequeuePref? && vc.hand.Some? { StepTaking(s, v, vc.hand.value, j, d); }
    else {
      Localise(s, v, 0, j);
      if vc.pc.DequeueSize? && s.rq[j].size != 0 { DequeueSizeFits(s, v, 0, j, d); }
      else if vc.pc.DequeueSize? { DequeueZeroFits(s, v, 0, j, d); }
      else if vc.pc.DequeueLock? { DequeueLockFits(s, v, 0, j, d); }
      else { TookNothingFits(s, v, 0, j, d); }
      MoveStep(s, DequeueStep(s, v), v, 0, j);
    }
  }

  lemma StepStealing(s: State, v: nat, a: nat, b: nat)
    requires Inv(s) && v < |s.vc| && IsStealing(s.vc[v].pc) && HasThread(s.vc[v])
    requires s.vc[v].pc.Choose? ==> a < |s.vc| && b < |s.vc|
    ensures Inv(StealStep(s, v, a, b)) && OnlyVcore(s, StealStep(s, v, a, b), v)
  {
    var vc := s.vc[v];
    assert AtVcore(s, v, vc);
    var u := if vc.pc.Dispatch? then vc.first.value else 0;
    Localise(s, v, u, v);
    if vc.pc.Dispatch? { DispatchFits(s, v, u, v); }
    else if vc.pc.StealSize? && (Rq(s, vc.pc.j).size + 1) / 2 != 0 {
      StealSomeFits(s, v, u, v, a, b, vc.pc.j, vc.pc.scan);
    }
    else if vc.pc.StealSize? { StealNothingFits(s, v, u, v, a, b, vc.pc.j, vc.pc.scan); }
    else if vc.pc == Scan(v) { ScanEndsFits(s, v, u, v, a, b); }
    else if vc.pc.Scan? { ScanFits(s, v, u, v, a, b, vc.pc.i); }
    else if vc.pc.Null? { NullFits(s, v, u, v, a, b); }
    else if vc.pc.Compare? { CompareFits(s, v, u, v, a, b); }
    else { ChooseFits(s, v, u, v, a, b); }
    MoveStep(s, StealStep(s, v, a, b), v, u, v);
  }

  lemma InvStep(s: State, v: nat, c: Choice)
    requires Inv(s) && CanStep(s, v, c)
    ensures Inv(Step(s, v, c)) && OnlyVcore(s, Step(s, v, c), v)
  {
    var pc := s.vc[v].pc;
    var a, b := if c.Numbers? then c.a else 0, if c.Numbers? then c.b else 0;
    if IsThreading(pc) || IsCalling(pc) { StepCalling(s, v, c); }
    else if IsEnqueuing(pc) { StepEnqueuing(s, v, a); }
    else if IsCounting(pc) { StepCounting(s, v); }
    else if IsDequeuing(pc) { StepDequeuing(s, v); }
    else { StepStealing(s, v, a, b); }
  }

  lemma {:induction false} InvRun(run: seq<State>, max: nat, placed: nat, steal: bool, n: nat, k: nat)
    requires Run(run, max, placed, steal, n) && k < |run|
    ensures Inv(run[k])
  {
    if k == 0 {
      InvInit(max, placed, steal, n);
    } else {
      InvRun(run, max, placed, steal, n, k - 1);
      assert Next(run[k - 1], run[k - 1 + 1]);
      var v: nat, c: Choice :| CanStep(run[k - 1], v, c) && run[k] == Step(run[k - 1], v, c);
      InvStep(run[k - 1], v, c);
    }
  }

  // ---- Conservation ----

  /** Every thread is in exactly one place: its `loc` is one value, and says at once whether the thread is in a
      queue and where, in a vcore's hand, about to be returned by a dequeue, or running. */
  lemma ThreadConservation(run: seq<State>, max: nat, placed: nat, steal: bool, n: nat, k: nat, t: Tid)
    requires Run(run, max, placed, steal, n) && k < |run| && t < |run[k].ts|
    ensures var s := run[k];
      var th := s.ts[t];
      && (forall v: nat :: v < |s.vc| ==>
            && (s.vc[v].run == Some(t) <==> th.loc == OnVcore(v))
            && (s.vc[v].hand == Some(t) <==> th.loc == InHand(v))
            && (s.vc[v].first == Some(t) <==> th.loc == Chosen(v)))
      && (forall i: nat, x: nat :: i < |s.rq| && x < |s.rq[i].queue| ==>
            (s.rq[i].queue[x] == t <==> th.loc == Queued(i) && th.ticket == s.rq[i].lo + x))
      && (th.loc.Queued? ==> th.loc.i < |s.rq| && t in s.rq[th.loc.i].queue)
  {
    InvRun(run, max, placed, steal, n, k);
    var s := run[k];
    assert AtThread(s, t, s.ts[t]);
    forall v: nat | v < |s.vc| ensures AtVcore(s, v, s.vc[v]) {}
    forall i: nat, x: nat | i < |s.rq| && x < |s.rq[i].queue|
      ensures s.rq[i].queue[x] == t <==> s.ts[t].loc == Queued(i) && s.ts[t].ticket == s.rq[i].lo + x
    {
      assert AtQueue(s, i, s.rq[i]);
      assert IsEntry(s, i, s.rq[i].lo + x, s.rq[i].queue[x]);
    }
  }

  /** The vcore that holds the lock of queue i has put a thread into it and not counted it yet. */
  predicate Uncounted(s: State, i: nat) {
    Rq(s, i).lock.Some? && Vc(s, Rq(s, i).lock.value).pc.EnqueueSize?
  }

  /** The vcore that holds the lock of queue i has taken a thread from it and still counts it. */
  predicate Overcounted(s: State, i: nat) {
    Rq(s, i).lock.Some? && Vc(s, Rq(s, i).lock.value).pc.DequeueCount?
  }

  /** `tqsize` is the length of the queue, always while the lock is free, and while it is held except between
      the two accesses that move a thread. */
  lemma SizeIsLength(run: seq<State>, max: nat, placed: nat, steal: bool, n: nat, k: nat, i: nat)
    requires Run(run, max, placed, steal, n) && k < |run| && i < |run[k].rq|
    ensures run[k].rq[i].lock.None? ==> run[k].rq[i].size == |run[k].rq[i].queue|
    ensures run[k].rq[i].size == |run[k].rq[i].queue| <==> !Uncounted(run[k], i) && !Overcounted(run[k], i)
    ensures Uncounted(run[k], i) ==> run[k].rq[i].size == |run[k].rq[i].queue| - 1
    ensures Overcounted(run[k], i) ==> run[k].rq[i].size == |run[k].rq[i].queue| + 1
  {
    InvRun(run, max, placed, steal, n, k);
    assert AtQueue(run[k], i, run[k].rq[i]);
  }

  /** pth_thread_runnable never finds a state it does not know, a thread that a dequeue returns is runnable, and
      every program point has the thread it works on. */
  lemma NoOddState(run: seq<State>, max: nat, placed: nat, steal: bool, n: nat, k: nat, v: nat)
    requires Run(run, max, placed, steal, n) && k < |run| && v < |run[k].vc|
    ensures !run[k].odd
    ensures HasThread(run[k].vc[v])
    ensures var s := run[k];
      && (s.vc[v].pc.Wake? ==> IsAccepted(Th(s, s.vc[v].hand.value).state))
      && (s.vc[v].pc.Dispatch? ==> Th(s, s.vc[v].first.value).state.Runnable?)
      && (s.vc[v].pc.InThread? ==> s.vc[v].run.Some? && Th(s, s.vc[v].run.value).state.Running?)
  {
    InvRun(run, max, placed, steal, n, k);
    var s := run[k];
    var vc := s.vc[v];
    assert AtVcore(s, v, vc);
    if vc.first.Some? { assert AtThread(s, vc.first.value, s.ts[vc.first.value]); }
    if vc.run.Some? { assert AtThread(s, vc.run.value, s.ts[vc.run.value]); }
  }

  /** A thread in queue i, or running on vcore i, has i as its preferred queue. */
  lemma PreferredQueue(run: seq<State>, max: nat, placed: nat, steal: bool, n: nat, k: nat, t: Tid)
    requires Run(run, max, placed, steal, n) && k < |run| && t < |run[k].ts|
    ensures var th := run[k].ts[t];
      && (th.loc.Queued? ==> th.pref == th.loc.i && th.state.Runnable?)
      && (th.loc.OnVcore? ==> th.pref == th.loc.v && th.state.Running?)
  {
    InvRun(run, max, placed, steal, n, k);
    assert AtThread(run[k], t, run[k].ts[t]);
  }

  // ---- Work conservation ----

  /** How far the scan of v has come when it is about to look at x. */
  function Distance(max: nat, v: nat, x: nat): int {
    if x > v then x - v - 1 else x - v - 1 + max
  }

  predicate Passed(max: nat, v: nat, i: nat, seen: set<nat>) {
    forall x: nat | x < max && Distance(max, v, x) < Distance(max, v, i) :: x in seen
  }

  predicate TakeLooked(max: nat, v: nat, j: nat, d: Take, seen: set<nat>) {
    match d
    case Own => j == v
    case First(_, scan) => v in seen && (scan ==> j != v && Passed(max, v, j, seen))
    case More(_, _, _) => true
  }

  /** The queues that a dequeue has found empty when it reaches a program point. */
  predicate Looked(max: nat, steal: bool, v: nat, vc: Vcore) {
    match vc.pc
    case Choose => v in vc.seen
    case Compare(_, _, _) => v in vc.seen
    case StealSize(j, scan) => v in vc.seen && (scan ==> j != v && Passed(max, v, j, vc.seen))
    case Scan(i) => v in vc.seen && Passed(max, v, i, vc.seen)
    case Null => v in vc.seen && (steal ==> forall x: nat | x < max :: x in vc.seen)
    case DequeueSize(j, d) => TakeLooked(max, v, j, d, vc.seen)
    case DequeueLock(j, d) => TakeLooked(max, v, j, d, vc.seen)
    case DequeueRemove(j, d) => TakeLooked(max, v, j, d, vc.seen)
    case DequeueCount(j, d) => TakeLooked(max, v, j, d, vc.seen)
    case DequeueUnlock(j, d) => TakeLooked(max, v, j, d, vc.seen) && (vc.hand.None? ==> j in vc.seen)
    case DequeuePref(j, d) => TakeLooked(max, v, j, d, vc.seen) && (vc.hand.None? ==> j in vc.seen)
    case _ => true
  }

  lemma Wraps(max: nat, j: nat)
    requires j < max
    ensures (j + 1) % max == if j + 1 == max then 0 else j + 1
  {
    if j + 1 == max { assert max % max == 0; }
  }

  /** The scan goes round: after j != v comes the queue one further on. */
  lemma NextDistance(max: nat, v: nat, j: nat)
    requires v < max && j < max
    ensures 0 <= (j + 1) % max < max
    ensures j != v ==> Distance(max, v, (j + 1) % max) == Distance(max, v, j) + 1
    ensures Distance(max, v, (v + 1) % max) == 0
    ensures 0 <= Distance(max, v, j) <= Distance(max, v, v) == max - 1
  {
    Wraps(max, j);
    Wraps(max, v);
  }

  lemma SameDistance(max: nat, v: nat, x: nat, y: nat)
    requires v < max && x < max && y < max && Distance(max, v, x) == Distance(max, v, y)
    ensures x == y
  {
  }

  lemma NothingLooked(max: nat, steal: bool, v: nat, j: nat, scan: bool, vc: Vcore)
    requires v < max && j < max && v in vc.seen && j in vc.seen && vc.pc == NothingStolen(max, v, j, scan)
    requires scan ==> j != v && Passed(max, v, j, vc.seen)
    ensures Looked(max, steal, v, vc)
  {
    NextDistance(max, v, j);
    if scan {
      forall x: nat | x < max && Distance(max, v, x) < Distance(max, v, (j + 1) % max) ensures x in vc.seen {
        if Distance(max, v, x) == Distance(max, v, j) { SameDistance(max, v, x, j); }
      }
    } else {
      forall x: nat | x < max ensures 0 <= Distance(max, v, x) { NextDistance(max, v, x); }
    }
  }

  lemma LookedScan(s: State, v: nat, i: nat)
    requires v < |s.vc| && s.vc[v].pc == Scan(i) && i < |s.vc| && Looked(|s.vc|, s.steal, v, s.vc[v])
    ensures Looked(|s.vc|, s.steal, v, StealStep(s, v, 0, 0).vc[v])
  {
    if i == v {
      forall x: nat | x < |s.vc| ensures x in s.vc[v].seen {
        NextDistance(|s.vc|, v, x);
        if Distance(|s.vc|, v, x) == Distance(|s.vc|, v, v) { SameDistance(|s.vc|, v, x, v); }
      }
    }
  }

  lemma LookedTook(s: State, v: nat, j: nat, d: Take)
    requires v < |s.vc| && s.vc[v].pc == DequeuePref(j, d) && s.vc[v].hand.Some?
    ensures Looked(|s.vc|, s.steal, v, Vc(Took(s, v, j, d), v))
  {
  }

  lemma LookedTookNothing(s: State, v: nat, j: nat, d: Take)
    requires v < |s.vc| && s.vc[v].pc == DequeuePref(j, d) && j < |s.vc| && s.vc[v].hand.None?
    requires Looked(|s.vc|, s.steal, v, s.vc[v])
    ensures Looked(|s.vc|, s.steal, v, Vc(Took(s, v, j, d), v))
  {
    if d.First? { NothingLooked(|s.vc|, s.steal, v, j, d.scan, Took(s, v, j, d).vc[v]); }
  }

  lemma LookedSize(s: State, v: nat, j: nat, d: Take)
    requires v < |s.vc| && s.vc[v].pc == DequeueSize(j, d) && j < |s.vc|
    requires Looked(|s.vc|, s.steal, v, s.vc[v])
    ensures Looked(|s.vc|, s.steal, v, Vc(DequeueStep(s, v), v))
  {
    if d.First? && Rq(s, j).size == 0 { NothingLooked(|s.vc|, s.steal, v, j, d.scan, DequeueStep(s, v).vc[v]); }
  }

  lemma LookedDequeue(s: State, v: nat)
    requires v < |s.vc| && IsDequeuing(s.vc[v].pc) && InRange(s.vc[v].pc, |s.vc|)
    requires Looked(|s.vc|, s.steal, v, s.vc[v])
    ensures Looked(|s.vc|, s.steal, v, Vc(DequeueStep(s, v), v))
  {
    var pc := s.vc[v].pc;
    if pc.DequeueSize? { LookedSize(s, v, pc.j, pc.d); }
    else if pc.DequeuePref? && s.vc[v].hand.Some? { LookedTook(s, v, pc.j, pc.d); }
    else if pc.DequeuePref? { LookedTookNothing(s, v, pc.j, pc.d); }
  }

  lemma LookedSteal(s: State, v: nat, a: nat, b: nat)
    requires v < |s.vc| && IsStealing(s.vc[v].pc) && InRange(s.vc[v].pc, |s.vc|) && HasThread(s.vc[v])
    requires Looked(|s.vc|, s.steal, v, s.vc[v])
    ensures Looked(|s.vc|, s.steal, v, Vc(StealStep(s, v, a, b), v))
  {
    var vc := s.vc[v];
    if vc.pc.Scan? {
      LookedScan(s, v, vc.pc.i);
    } else if vc.pc.StealSize? && (Rq(s, vc.pc.j).size + 1) / 2 == 0 {
      NothingLooked(|s.vc|, s.steal, v, vc.pc.j, vc.pc.scan, StealStep(s, v, a, b).vc[v]);
    } else if vc.pc.Choose? || vc.pc.Compare? {
      LookedChoice(s, v, a, b);
    }
  }

  lemma LookedChoice(s: State, v: nat, a: nat, b: nat)
    requires v < |s.vc| && (s.vc[v].pc.Choose? || s.vc[v].pc.Compare?) && Looked(|s.vc|, s.steal, v, s.vc[v])
    ensures Looked(|s.vc|, s.steal, v, Vc(StealStep(s, v, a, b), v))
  {
  }

  lemma LookedThread(s: State, v: nat, c: Choice)
    requires v < |s.vc| && IsThreading(s.vc[v].pc) && Legal(s, v, c)
    ensures Looked(|s.vc|, s.steal, v, Vc(CallStep(s, v, c), v))
  {
  }

  lemma LookedCallback(s: State, v: nat, c: Choice)
    requires v < |s.vc| && IsCalling(s.vc[v].pc) && s.vc[v].hand.Some?
    ensures Looked(|s.vc|, s.steal, v, Vc(CallbackStep(s, v, c), v))
  {
  }

  lemma LookedEnqueue(s: State, v: nat, place: nat)
    requires v < |s.vc| && IsEnqueuing(s.vc[v].pc) && s.vc[v].hand.Some?
    ensures Looked(|s.vc|, s.steal, v, Vc(EnqueueStep(s, v, place), v))
  {
  }

  lemma LookedCount(s: State, v: nat)
    requires v < |s.vc| && (s.vc[v].pc.EnqueueSize? || s.vc[v].pc.EnqueueUnlock?)
    ensures Looked(|s.vc|, s.steal, v, Vc(CountStep(s, v), v))
  {
  }

  lemma LookedTakeCount(s: State, v: nat)
    requires v < |s.vc| && (s.vc[v].pc.DequeueCount? || s.vc[v].pc.DequeueUnlock?)
    requires s.vc[v].pc.DequeueCount? ==> s.vc[v].hand.Some?
    requires Looked(|s.vc|, s.steal, v, s.vc[v])
    ensures Looked(|s.vc|, s.steal, v, Vc(CountStep(s, v), v))
  {
  }

  lemma LookedStep(s: State, v: nat, c: Choice)
    requires Inv(s) && CanStep(s, v, c) && Looked(|s.vc|, s.steal, v, s.vc[v])
    ensures Looked(|s.vc|, s.steal, v, Vc(Step(s, v, c), v))
  {
    assert AtVcore(s, v, s.vc[v]);
    var pc := s.vc[v].pc;
    var a, b := if c.Numbers? then c.a else 0, if c.Numbers? then c.b else 0;
    if IsThreading(pc) { LookedThread(s, v, c); }
    else if IsCalling(pc) { LookedCallback(s, v, c); }
    else if IsEnqueuing(pc) { LookedEnqueue(s, v, a); }
    else if pc.DequeueCount? || pc.DequeueUnlock? { LookedTakeCount(s, v); }
    else if IsCounting(pc) { LookedCount(s, v); }
    else if IsDequeuing(pc) { LookedDequeue(s, v); }
    else { LookedSteal(s, v, a, b); }
  }

  lemma SizesNext(s: State, s': State)
    requires Inv(s) && Next(s, s')
    ensures |s'.vc| == |s.vc| && |s'.rq| == |s.rq| && |s'.ts| == |s.ts| && s'.steal == s.steal
  {
    var w: nat, c: Choice :| CanStep(s, w, c) && s' == Step(s, w, c);
    InvStep(s, w, c);
  }

  predicate Sizes(s: State, max: nat, n: nat, steal: bool) {
    |s.vc| == |s.rq| == max && |s.ts| == n && s.steal == steal
  }

  lemma {:induction false} SizesRun(run: seq<State>, max: nat, placed: nat, steal: bool, n: nat, k: nat)
    requires Run(run, max, placed, steal, n) && k < |run|
    ensures Sizes(run[k], max, n, steal)
    decreases k
  {
    if k == 0 {
      assert Sizes(Init(max, placed, steal, n), max, n, steal);
    } else {
      var s := run[k - 1];
      SizesRun(run, max, placed, steal, n, k - 1);
      InvRun(run, max, placed, steal, n, k - 1);
      assert Next(s, run[k - 1 + 1]);
      SizesNext(s, run[k]);
    }
  }

  predicate LookedAt(s: State, v: nat) { v < |s.vc| ==> Looked(|s.vc|, s.steal, v, s.vc[v]) }

  lemma LookedNext(s: State, s': State, v: nat)
    requires Inv(s) && Next(s, s') && LookedAt(s, v)
    ensures LookedAt(s', v)
  {
    var w: nat, c: Choice :| CanStep(s, w, c) && s' == Step(s, w, c);
    InvStep(s, w, c);
    if w == v { LookedStep(s, v, c); }
  }

  lemma {:induction false} LookedRun(run: seq<State>, max: nat, placed: nat, steal: bool, n: nat, k: nat, v: nat)
    requires Run(run, max, placed, steal, n) && k < |run|
    ensures LookedAt(run[k], v)
    decreases k
  {
    if k > 0 {
      LookedRun(run, max, placed, steal, n, k - 1, v);
      InvRun(run, max, placed, steal, n, k - 1);
      assert Next(run[k - 1], run[k - 1 + 1]);
      LookedNext(run[k - 1], run[k], v);
    }
  }

  /** Queue i holds no thread, or just one that its enqueuer has not counted yet. */
  predicate LooksEmpty(s: State, i: nat) {
    |Rq(s, i).queue| == 0 || (|Rq(s, i).queue| == 1 && Uncounted(s, i))
  }

  /** What the unlocked read of `tqsize` tells, exactly. */
  lemma SizeZero(s: State, i: nat)
    requires Inv(s) && i < |s.rq|
    ensures s.rq[i].size == 0 <==> LooksEmpty(s, i) && !Overcounted(s, i)
  {
    assert AtQueue(s, i, s.rq[i]);
  }

  /** Only the look at a count of 0 and an empty queue under its lock make a queue seen. */
  lemma SeenEmpty(s: State, v: nat)
    requires v < |s.vc| && IsDequeuing(s.vc[v].pc) && Vc(DequeueStep(s, v), v).seen != s.vc[v].seen
    ensures s.vc[v].pc.DequeueSize? || s.vc[v].pc.DequeueRemove?
    ensures var j := s.vc[v].pc.j;
      && Vc(DequeueStep(s, v), v).seen == s.vc[v].seen + {j}
      && if s.vc[v].pc.DequeueSize? then Rq(s, j).size == 0 else Rq(s, j).queue == []
  {
  }

  lemma SeenDequeue(s: State, v: nat, i: nat)
    requires Inv(s) && v < |s.vc| && IsDequeuing(s.vc[v].pc) && Vc(DequeueStep(s, v), v).seen != s.vc[v].seen
    ensures TargetOf(s.vc[v].pc).Some?
    ensures var j := TargetOf(s.vc[v].pc).value;
      Vc(DequeueStep(s, v), v).seen == s.vc[v].seen + {j} && j < |s.rq| && LooksEmpty(s, j)
  {
    SeenEmpty(s, v);
    assert AtVcore(s, v, s.vc[v]);
    if s.vc[v].pc.DequeueSize? { SizeZero(s, s.vc[v].pc.j); }
  }

  lemma SeenSteal(s: State, v: nat, a: nat, b: nat)
    requires Inv(s) && v < |s.vc| && IsStealing(s.vc[v].pc) && HasThread(s.vc[v])
    requires Vc(StealStep(s, v, a, b), v).seen != s.vc[v].seen
    ensures TargetOf(s.vc[v].pc).Some?
    ensures var j := TargetOf(s.vc[v].pc).value;
      Vc(StealStep(s, v, a, b), v).seen == s.vc[v].seen + {j} && j < |s.rq| && LooksEmpty(s, j)
  {
    assert AtVcore(s, v, s.vc[v]);
    assert s.vc[v].pc.StealSize?;
    var j := s.vc[v].pc.j;
    assert AtQueue(s, j, s.rq[j]);
    SizeZero(s, j);
  }

  lemma SeenThread(s: State, v: nat, c: Choice)
    requires v < |s.vc| && IsThreading(s.vc[v].pc) && Legal(s, v, c)
    ensures var vc := Vc(CallStep(s, v, c), v); vc.seen == s.vc[v].seen || (vc.seen == {} && s.vc[v].pc.Scheduler?)
  {
  }

  lemma SeenCallback(s: State, v: nat, c: Choice)
    requires v < |s.vc| && IsCalling(s.vc[v].pc) && s.vc[v].hand.Some?
    ensures Vc(CallbackStep(s, v, c), v).seen == s.vc[v].seen
  {
  }

  lemma SeenEnqueue(s: State, v: nat, place: nat)
    requires v < |s.vc| && IsEnqueuing(s.vc[v].pc) && s.vc[v].hand.Some?
    ensures Vc(EnqueueStep(s, v, place), v).seen == s.vc[v].seen
  {
  }

  lemma SeenCount(s: State, v: nat)
    requires v < |s.vc| && IsCounting(s.vc[v].pc)
    ensures Vc(CountStep(s, v), v).seen == s.vc[v].seen
  {
  }

  /** A dequeue counts a queue as empty only at a moment when it looks so. */
  lemma SeenStep(s: State, v: nat, c: Choice, i: nat)
    requires Inv(s) && CanStep(s, v, c) && i !in s.vc[v].seen && i in Vc(Step(s, v, c), v).seen
    ensures i < |s.rq| && LooksEmpty(s, i)
  {
    var pc := s.vc[v].pc;
    var a, b := if c.Numbers? then c.a else 0, if c.Numbers? then c.b else 0;
    if IsThreading(pc) { SeenThread(s, v, c); }
    else if IsCalling(pc) { SeenCallback(s, v, c); }
    else if IsEnqueuing(pc) { SeenEnqueue(s, v, a); }
    else if IsCounting(pc) { SeenCount(s, v); }
    else if IsDequeuing(pc) { SeenDequeue(s, v, i); }
    else { SeenSteal(s, v, a, b); }
  }

  lemma CallsThread(s: State, v: nat, c: Choice)
    requires v < |s.vc| && IsThreading(s.vc[v].pc) && Legal(s, v, c)
    ensures var vc := Vc(CallStep(s, v, c), v);
      (vc.calls == s.vc[v].calls || vc.seen == {}) && !vc.pc.EnqueueSize?
  {
  }

  lemma CallsCallback(s: State, v: nat, c: Choice)
    requires v < |s.vc| && IsCalling(s.vc[v].pc) && s.vc[v].hand.Some?
    ensures var vc := Vc(CallbackStep(s, v, c), v); vc.calls == s.vc[v].calls && !vc.pc.EnqueueSize?
  {
  }

  lemma CallsEnqueue(s: State, v: nat, place: nat)
    requires v < |s.vc| && IsEnqueuing(s.vc[v].pc) && s.vc[v].hand.Some?
    ensures var vc := Vc(EnqueueStep(s, v, place), v);
      vc.calls == s.vc[v].calls && (vc.pc.EnqueueSize? ==> s.vc[v].hand == Some(vc.pc.u))
  {
  }

  lemma CallsCount(s: State, v: nat)
    requires v < |s.vc| && IsCounting(s.vc[v].pc)
    ensures var vc := Vc(CountStep(s, v), v); vc.calls == s.vc[v].calls && !vc.pc.EnqueueSize?
  {
  }

  lemma CallsTook(s: State, v: nat)
    requires v < |s.vc| && s.vc[v].pc.DequeuePref?
    ensures var vc := Vc(DequeueStep(s, v), v); vc.calls == s.vc[v].calls && !vc.pc.EnqueueSize?
  {
  }

  lemma CallsDequeue(s: State, v: nat)
    requires v < |s.vc| && IsDequeuing(s.vc[v].pc)
    ensures var vc := Vc(DequeueStep(s, v), v); vc.calls == s.vc[v].calls && !vc.pc.EnqueueSize?
  {
    if s.vc[v].pc.DequeuePref? { CallsTook(s, v); }
  }

  lemma CallsSteal(s: State, v: nat, a: nat, b: nat)
    requires v < |s.vc| && IsStealing(s.vc[v].pc) && HasThread(s.vc[v])
    ensures var vc := Vc(StealStep(s, v, a, b), v); vc.calls == s.vc[v].calls && !vc.pc.EnqueueSize?
  {
  }

  /** A call begins with nothing seen, and the thread about to be counted was in the vcore's hand before. */
  lemma CallsStep(s: State, v: nat, c: Choice)
    requires CanStep(s, v, c)
    ensures var vc := Vc(Step(s, v, c), v);
      (vc.calls == s.vc[v].calls || vc.seen == {}) && (vc.pc.EnqueueSize? ==> s.vc[v].hand == Some(vc.pc.u))
  {
    var pc := s.vc[v].pc;
    var a, b := if c.Numbers? then c.a else 0, if c.Numbers? then c.b else 0;
    if IsThreading(pc) { CallsThread(s, v, c); }
    else if IsCalling(pc) { CallsCallback(s, v, c); }
    else if IsEnqueuing(pc) { CallsEnqueue(s, v, a); }
    else if IsCounting(pc) { CallsCount(s, v); }
    else if IsDequeuing(pc) { CallsDequeue(s, v); }
    else { CallsSteal(s, v, a, b); }
  }

  lemma SeenNext(s: State, s': State, v: nat, i: nat)
    requires Inv(s) && Next(s, s') && v < |s.vc| && i in Vc(s', v).seen
    ensures Vc(s', v).calls == s.vc[v].calls
    ensures i in s.vc[v].seen || (i < |s.rq| && LooksEmpty(s, i))
  {
    var w: nat, c: Choice :| CanStep(s, w, c) && s' == Step(s, w, c);
    InvStep(s, w, c);
    if w == v {
      CallsStep(s, v, c);
      if i !in s.vc[v].seen { SeenStep(s, v, c, i); }
    }
  }

  /** The states a+1..b of a run lie within one call of `__pth_thread_dequeue` by v, which state a precedes. */
  ghost predicate InOneCall(run: seq<State>, a: nat, b: nat, v: nat) {
    && a < b < |run| && Vc(run[a], v).calls < Vc(run[b], v).calls
    && (forall k | a < k < b :: Vc(run[k], v).calls == Vc(run[b], v).calls)
  }

  /** Every queue that the call has seen empty looked empty at some moment of the call. */
  lemma {:induction false} SeenInCall(
      run: seq<State>, max: nat, placed: nat, steal: bool, n: nat, a: nat, b: nat, v: nat, i: nat)
    returns (k: nat)
    requires Run(run, max, placed, steal, n) && v < max && InOneCall(run, a, b, v)
    requires i in Vc(run[b], v).seen
    ensures a < k < b && i < |run[k].rq| && LooksEmpty(run[k], i)
    decreases b
  {
    k := b - 1;
    InvRun(run, max, placed, steal, n, k);
    SizesRun(run, max, placed, steal, n, k);
    assert Next(run[k], run[k + 1]);
    SeenNext(run[k], run[b], v, i);
    if i in run[k].vc[v].seen {
      k := SeenInCall(run, max, placed, steal, n, a, k, v, i);
    }
  }

  /** If `__pth_thread_dequeue` returns NULL, then every queue it has to look at, all of them with stealing on,
      looked empty at some moment during that call. */
  lemma WorkConservation(
      run: seq<State>, max: nat, placed: nat, steal: bool, n: nat, a: nat, b: nat, v: nat, i: nat)
    returns (k: nat)
    requires Run(run, max, placed, steal, n) && v < max && InOneCall(run, a, b, v) && Vc(run[b], v).pc.Null?
    requires i < max && (steal || i == v)
    ensures a < k < b && i < |run[k].rq| && LooksEmpty(run[k], i)
  {
    SizesRun(run, max, placed, steal, n, b);
    LookedRun(run, max, placed, steal, n, b, v);
    k := SeenInCall(run, max, placed, steal, n, a, b, v, i);
  }

  /** t sits in queue i, and nobody is between putting it there and counting it. */
  ghost predicate Settled(s: State, i: nat, t: Tid) {
    && Th(s, t).loc == Queued(i)
    && forall v | 0 <= v < |s.vc| :: s.vc[v].pc.EnqueueSize? ==> s.vc[v].pc.u != t
  }

  lemma SettledNext(s: State, s': State, i: nat, t: Tid)
    requires Inv(s) && Next(s, s') && Settled(s, i, t) && Th(s', t).loc == Queued(i)
    ensures Settled(s', i, t)
  {
    var w: nat, c: Choice :| CanStep(s, w, c) && s' == Step(s, w, c);
    InvStep(s, w, c);
    assert AtVcore(s, w, s.vc[w]);
    CallsStep(s, w, c);
  }

  lemma SettledShows(s: State, i: nat, t: Tid)
    requires Inv(s) && Settled(s, i, t)
    ensures !LooksEmpty(s, i)
  {
    assert AtThread(s, t, s.ts[t]);
    assert AtQueue(s, i, s.rq[i]);
    if Uncounted(s, i) {
      var v := s.rq[i].lock.value;
      assert AtVcore(s, v, s.vc[v]);
      assert AtThread(s, s.vc[v].pc.u, s.ts[s.vc[v].pc.u]);
    }
  }

  /** A thread that has settled in queue i stays settled until it leaves the queue. */
  lemma {:induction false} SettledUntilTaken(
      run: seq<State>, max: nat, placed: nat, steal: bool, n: nat, a: nat, b: nat, i: nat, t: Tid)
    returns (k: nat)
    requires Run(run, max, placed, steal, n) && a <= b < |run| && Settled(run[a], i, t)
    requires !Settled(run[b], i, t)
    ensures a < k <= b && Th(run[k], t).loc != Queued(i)
    decreases b - a
  {
    InvRun(run, max, placed, steal, n, a);
    assert Next(run[a], run[a + 1]);
    k := a + 1;
    if Th(run[k], t).loc == Queued(i) {
      SettledNext(run[a], run[k], i, t);
      k := SettledUntilTaken(run, max, placed, steal, n, k, b, i, t);
    }
  }

  /** A call of `__pth_thread_dequeue` that returns NULL leaves no thread behind: every thread that was settled
      in a queue before the call has been taken out of it by somebody while the call was running. */
  lemma NothingLeftBehind(
      run: seq<State>, max: nat, placed: nat, steal: bool, n: nat, a: nat, b: nat, v: nat, i: nat, t: Tid)
    returns (k: nat)
    requires Run(run, max, placed, steal, n) && v < max && InOneCall(run, a, b, v) && Vc(run[b], v).pc.Null?
    requires i < max && (steal || i == v) && Settled(run[a], i, t)
    ensures a < k < b && Th(run[k], t).loc != Queued(i)
  {
    var m := WorkConservation(run, max, placed, steal, n, a, b, v, i);
    InvRun(run, max, placed, steal, n, m);
    if Settled(run[m], i, t) { SettledShows(run[m], i, t); }
    k := SettledUntilTaken(run, max, placed, steal, n, a, m, i, t);
  }

  // ---- The short cut of upthread_yield ----

  /** k steps of v, during which nobody else runs. */
  function Alone(s: State, v: nat, k: nat): Option<State>
    decreases k
  {
    if k == 0 then Some(s) else if CanStep(s, v, Dequeue) then Alone(Step(s, v, Dequeue), v, k - 1) else None
  }

  /** The vcores, queues and threads of two states differ in nothing but history. */
  ghost predicate SameScheduler(s: State, s': State) {
    && |s'.vc| == |s.vc| && |s'.rq| == |s.rq| && |s'.ts| == |s.ts|
    && s'.placed == s.placed && s'.steal == s.steal && s'.odd == s.odd
    && (forall v | 0 <= v < |s.vc| :: s'.vc[v] == s.vc[v].(calls := s'.vc[v].calls, seen := s'.vc[v].seen))
    && (forall i | 0 <= i < |s.rq| :: s'.rq[i] == s.rq[i].(lo := s'.rq[i].lo))
    && (forall t | 0 <= t < |s.ts| :: s'.ts[t] == s.ts[t].(ticket := s'.ts[t].ticket))
  }

  /** Vcore v, thread t and queue v. */
  datatype Focus = Focus(vc: Vcore, th: Thread, q: RunQueue)

  /** s with the focus put in its place. */
  function With(s: State, v: nat, t: Tid, f: Focus): State {
    SetRq(SetTh(SetVc(s, v, f.vc), t, f.th), v, f.q)
  }

  /** Where the step of v leads, given by what it makes of the focus. */
  lemma Link(s: State, v: nat, t: Tid, f: Focus, f': Focus, k: nat)
    requires v < |s.vc| == |s.rq| && t < |s.ts|
    requires var x := With(s, v, t, f); CanStep(x, v, Dequeue) && Step(x, v, Dequeue) == With(x, v, t, f')
    ensures Alone(With(s, v, t, f), v, k + 1) == Alone(With(s, v, t, f'), v, k)
  {
    assert With(With(s, v, t, f), v, t, f') == With(s, v, t, f');
  }

  lemma LinkCallback(s: State, v: nat, t: Tid, f: Focus, f': Focus, k: nat)
    requires v < |s.vc| == |s.rq| && t < |s.ts|
    requires (f.vc.pc.Callback? || f.vc.pc.Wake?) && f.vc.hand == Some(t)
    requires var x := With(s, v, t, f); CallbackStep(x, v, Dequeue) == With(x, v, t, f')
    ensures Alone(With(s, v, t, f), v, k + 1) == Alone(With(s, v, t, f'), v, k)
  {
    Link(s, v, t, f, f', k);
  }

  lemma LinkEnqueue(s: State, v: nat, t: Tid, f: Focus, f': Focus, k: nat)
    requires v < |s.vc| == |s.rq| && t < |s.ts| && IsEnqueuing(f.vc.pc) && !f.vc.pc.EnqueuePlace?
    requires f.vc.hand == Some(t) && (f.vc.pc.EnqueueLock? ==> f.vc.pc.j == v && f.q.lock.None?)
    requires var x := With(s, v, t, f); EnqueueStep(x, v, 0) == With(x, v, t, f')
    ensures Alone(With(s, v, t, f), v, k + 1) == Alone(With(s, v, t, f'), v, k)
  {
    Link(s, v, t, f, f', k);
  }

  lemma LinkCount(s: State, v: nat, t: Tid, f: Focus, f': Focus, k: nat)
    requires v < |s.vc| == |s.rq| && t < |s.ts| && IsCounting(f.vc.pc)
    requires var x := With(s, v, t, f); CountStep(x, v) == With(x, v, t, f')
    ensures Alone(With(s, v, t, f), v, k + 1) == Alone(With(s, v, t, f'), v, k)
  {
    Link(s, v, t, f, f', k);
  }

  lemma LinkDequeue(s: State, v: nat, t: Tid, f: Focus, f': Focus, k: nat)
    requires v < |s.vc| == |s.rq| && t < |s.ts| && IsDequeuing(f.vc.pc)
    requires f.vc.pc.DequeueLock? ==> f.vc.pc.j == v && f.q.lock.None?
    requires var x := With(s, v, t, f); DequeueStep(x, v) == With(x, v, t, f')
    ensures Alone(With(s, v, t, f), v, k + 1) == Alone(With(s, v, t, f'), v, k)
  {
    Link(s, v, t, f, f', k);
  }

  lemma LinkDispatch(s: State, v: nat, t: Tid, f: Focus, f': Focus, k: nat)
    requires v < |s.vc| == |s.rq| && t < |s.ts| && f.vc.pc.Dispatch? && f.vc.first == Some(t)
    requires var x := With(s, v, t, f); Run1(x, v, t) == With(x, v, t, f')
    ensures Alone(With(s, v, t, f), v, k + 1) == Alone(With(s, v, t, f'), v, k)
  {
    Link(s, v, t, f, f', k);
  }

  /** The stages of the yield of t on vcore v, when its queue is empty and `lo` is its next ticket. */
  function Stage(j: nat, v: nat, t: Tid, vc: Vcore, th: Thread, lo: int): Focus {
    var back := ToScheduler;
    var idle := vc.(run := None, hand := None);
    var held := idle.(hand := Some(t));
    var again := idle.(calls := vc.calls + 1, seen := {});
    var holds := again.(hand := Some(t));
    var moved := th.(loc := InHand(v), state := Runnable);
    var waits := moved.(loc := Queued(v), ticket := lo);
    if j == 0 then Focus(held.(pc := Callback(Yielding)), moved.(state := Running), RunQueue([], 0, None, lo))
    else if j == 1 then Focus(held.(pc := Wake(back)), moved.(state := Yielding), RunQueue([], 0, None, lo))
    else if j == 2 then
      Focus(held.(pc := EnqueueState(false, back)), moved.(state := Yielding), RunQueue([], 0, None, lo))
    else if j == 3 then Focus(held.(pc := EnqueuePref(false, back)), moved, RunQueue([], 0, None, lo))
    else if j == 4 then Focus(held.(pc := EnqueueLock(v, false, back)), moved, RunQueue([], 0, None, lo))
    else if j == 5 then Focus(held.(pc := EnqueueInsert(v, false, back)), moved, RunQueue([], 0, Some(v), lo))
    else if j == 6 then Focus(idle.(pc := EnqueueSize(v, back, t)), waits, RunQueue([t], 0, Some(v), lo))
    else if j == 7 then Focus(idle.(pc := EnqueueUnlock(v, back)), waits, RunQueue([t], 1, Some(v), lo))
    else if j == 8 then Focus(idle.(pc := Scheduler), waits, RunQueue([t], 1, None, lo))
    else if j == 9 then Focus(again.(pc := DequeueSize(v, Own)), waits, RunQueue([t], 1, None, lo))
    else if j == 10 then Focus(again.(pc := DequeueLock(v, Own)), waits, RunQueue([t], 1, None, lo))
    else if j == 11 then Focus(again.(pc := DequeueRemove(v, Own)), waits, RunQueue([t], 1, Some(v), lo))
    else if j == 12 then
      Focus(holds.(pc := DequeueCount(v, Own)), waits.(loc := InHand(v)), RunQueue([], 1, Some(v), lo + 1))
    else if j == 13 then
      Focus(holds.(pc := DequeueUnlock(v, Own)), waits.(loc := InHand(v)), RunQueue([], 0, Some(v), lo + 1))
    else if j == 14 then
      Focus(holds.(pc := DequeuePref(v, Own)), waits.(loc := InHand(v)), RunQueue([], 0, None, lo + 1))
    else if j == 15 then
      Focus(again.(pc := Dispatch, first := Some(t)), waits.(loc := Chosen(v)), RunQueue([], 0, None, lo + 1))
    else
      Focus(again.(pc := InThread, run := Some(t)), waits.(loc := OnVcore(v), state := Running),
            RunQueue([], 0, None, lo + 1))
  }

  /** A thread running on v, with v as its preferred queue. */
  predicate RunsOn(s: State, v: nat, t: Tid, vc: Vcore, th: Thread) {
    v < |s.vc| == |s.rq| && t < |s.ts| && vc.first.None? && th.pref == v
  }

  lemma StageCallback(j: nat, s: State, v: nat, t: Tid, vc: Vcore, th: Thread, lo: int, k: nat)
    requires RunsOn(s, v, t, vc, th) && j < 2
    ensures Alone(With(s, v, t, Stage(j, v, t, vc, th, lo)), v, k + 1)
         == Alone(With(s, v, t, Stage(j + 1, v, t, vc, th, lo)), v, k)
  {
    LinkCallback(s, v, t, Stage(j, v, t, vc, th, lo), Stage(j + 1, v, t, vc, th, lo), k);
  }

  lemma StageEnqueue(j: nat, s: State, v: nat, t: Tid, vc: Vcore, th: Thread, lo: int, k: nat)
    requires RunsOn(s, v, t, vc, th) && 2 <= j < 5
    ensures Alone(With(s, v, t, Stage(j, v, t, vc, th, lo)), v, k + 1)
         == Alone(With(s, v, t, Stage(j + 1, v, t, vc, th, lo)), v, k)
  {
    LinkEnqueue(s, v, t, Stage(j, v, t, vc, th, lo), Stage(j + 1, v, t, vc, th, lo), k);
  }

  lemma StageInsert(s: State, v: nat, t: Tid, vc: Vcore, th: Thread, lo: int, k: nat)
    requires RunsOn(s, v, t, vc, th)
    ensures Alone(With(s, v, t, Stage(5, v, t, vc, th, lo)), v, k + 1)
         == Alone(With(s, v, t, Stage(6, v, t, vc, th, lo)), v, k)
  {
    assert [] + [t] == [t];
    LinkEnqueue(s, v, t, Stage(5, v, t, vc, th, lo), Stage(6, v, t, vc, th, lo), k);
  }

  lemma StageCount(j: nat, s: State, v: nat, t: Tid, vc: Vcore, th: Thread, lo: int, k: nat)
    requires RunsOn(s, v, t, vc, th) && (6 <= j < 8 || 12 <= j < 14)
    ensures Alone(With(s, v, t, Stage(j, v, t, vc, th, lo)), v, k + 1)
         == Alone(With(s, v, t, Stage(j + 1, v, t, vc, th, lo)), v, k)
  {
    LinkCount(s, v, t, Stage(j, v, t, vc, th, lo), Stage(j + 1, v, t, vc, th, lo), k);
  }

  lemma StageDequeue(j: nat, s: State, v: nat, t: Tid, vc: Vcore, th: Thread, lo: int, k: nat)
    requires RunsOn(s, v, t, vc, th) && (9 <= j < 11 || j == 14)
    ensures Alone(With(s, v, t, Stage(j, v, t, vc, th, lo)), v, k + 1)
         == Alone(With(s, v, t, Stage(j + 1, v, t, vc, th, lo)), v, k)
  {
    LinkDequeue(s, v, t, Stage(j, v, t, vc, th, lo), Stage(j + 1, v, t, vc, th, lo), k);
  }

  lemma StageRemove(s: State, v: nat, t: Tid, vc: Vcore, th: Thread, lo: int, k: nat)
    requires RunsOn(s, v, t, vc, th)
    ensures Alone(With(s, v, t, Stage(11, v, t, vc, th, lo)), v, k + 1)
         == Alone(With(s, v, t, Stage(12, v, t, vc, th, lo)), v, k)
  {
    assert [t][1..] == [];
    LinkDequeue(s, v, t, Stage(11, v, t, vc, th, lo), Stage(12, v, t, vc, th, lo), k);
  }

  lemma StageCall(s: State, v: nat, t: Tid, vc: Vcore, th: Thread, lo: int, k: nat)
    requires RunsOn(s, v, t, vc, th)
    ensures Alone(With(s, v, t, Stage(8, v, t, vc, th, lo)), v, k + 1)
         == Alone(With(s, v, t, Stage(9, v, t, vc, th, lo)), v, k)
  {
    Link(s, v, t, Stage(8, v, t, vc, th, lo), Stage(9, v, t, vc, th, lo), k);
  }

  lemma StageDispatch(s: State, v: nat, t: Tid, vc: Vcore, th: Thread, lo: int, k: nat)
    requires RunsOn(s, v, t, vc, th)
    ensures Alone(With(s, v, t, Stage(15, v, t, vc, th, lo)), v, k + 1)
         == Alone(With(s, v, t, Stage(16, v, t, vc, th, lo)), v, k)
  {
    LinkDispatch(s, v, t, Stage(15, v, t, vc, th, lo), Stage(16, v, t, vc, th, lo), k);
  }

  lemma StageStep(j: nat, s: State, v: nat, t: Tid, vc: Vcore, th: Thread, lo: int, k: nat)
    requires RunsOn(s, v, t, vc, th) && j < 16
    ensures Alone(With(s, v, t, Stage(j, v, t, vc, th, lo)), v, k + 1)
         == Alone(With(s, v, t, Stage(j + 1, v, t, vc, th, lo)), v, k)
  {
    if j < 2 { StageCallback(j, s, v, t, vc, th, lo, k); }
    else if j < 5 { StageEnqueue(j, s, v, t, vc, th, lo, k); }
    else if j == 5 { StageInsert(s, v, t, vc, th, lo, k); }
    else if j < 8 || 12 <= j < 14 { StageCount(j, s, v, t, vc, th, lo, k); }
    else if j == 8 { StageCall(s, v, t, vc, th, lo, k); }
    else if j == 15 { StageDispatch(s, v, t, vc, th, lo, k); }
    else if j == 11 { StageRemove(s, v, t, vc, th, lo, k); }
    else { StageDequeue(j, s, v, t, vc, th, lo, k); }
  }

  lemma {:induction false} Stages(j: nat, s: State, v: nat, t: Tid, vc: Vcore, th: Thread, lo: int)
    requires RunsOn(s, v, t, vc, th) && j <= 16
    ensures Alone(With(s, v, t, Stage(j, v, t, vc, th, lo)), v, 16 - j)
         == Some(With(s, v, t, Stage(16, v, t, vc, th, lo)))
    decreases 16 - j
  {
    if j < 16 {
      var k: nat := 15 - j;
      StageStep(j, s, v, t, vc, th, lo, k);
      Stages(j + 1, s, v, t, vc, th, lo);
    }
  }

  /** With an empty local queue and nobody else running, the full yield of a thread comes back, after the context
      switch and sixteen steps, to the state that the short cut (608-609) leaves alone. */
  lemma ShortCutRefinesYield(run: seq<State>, max: nat, placed: nat, steal: bool, n: nat, m: nat, v: nat)
    requires Run(run, max, placed, steal, n) && m < |run| && v < |run[m].vc| && run[m].vc[v].pc.InThread?
    requires Rq(run[m], v).size == 0 && Rq(run[m], v).lock.None?
    ensures CanStep(run[m], v, Yield(Yielding))
    ensures var r := Alone(Step(run[m], v, Yield(Yielding)), v, 16); r.Some? && SameScheduler(run[m], r.value)
  {
    var s := run[m];
    InvRun(run, max, placed, steal, n, m);
    assert AtVcore(s, v, s.vc[v]) && AtQueue(s, v, s.rq[v]);
    var t := s.vc[v].run.value;
    assert AtThread(s, t, s.ts[t]);
    var lo := s.rq[v].lo;
    YieldStarts(s, v, t, lo);
    Stages(0, s, v, t, s.vc[v], s.ts[t], lo);
    YieldEnds(s, v, t, lo);
  }

  predicate Yields(s: State, v: nat, t: Tid, lo: int) {
    && RunsOn(s, v, t, Vc(s, v), Th(s, t)) && s.rq[v] == RunQueue([], 0, None, lo)
    && s.vc[v].pc.InThread? && s.vc[v].run == Some(t) && s.vc[v].hand.None?
    && s.ts[t].state.Running? && s.ts[t].loc == OnVcore(v)
  }

  lemma YieldStarts(s: State, v: nat, t: Tid, lo: int)
    requires Yields(s, v, t, lo)
    ensures CanStep(s, v, Yield(Yielding))
    ensures Step(s, v, Yield(Yielding)) == With(s, v, t, Stage(0, v, t, s.vc[v], s.ts[t], lo))
  {
    assert s.rq == s.rq[v := s.rq[v]];
  }

  lemma YieldEnds(s: State, v: nat, t: Tid, lo: int)
    requires Yields(s, v, t, lo)
    ensures SameScheduler(s, With(s, v, t, Stage(16, v, t, s.vc[v], s.ts[t], lo)))
  {
  }
}
