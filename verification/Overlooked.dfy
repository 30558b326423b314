/**
 When `__pth_thread_dequeue` (src/pvcq/upthread.c:176-246) overlooks a thread: a call that runs undisturbed
 returns NULL exactly if every `tqsize` it has to read is 0, and then leaves every queue as it is. A thread
 that is in a queue but not counted yet is overlooked that way; a counted one never is.
 */
module Overlooked {
  import opened Seqs
  import opened ThreadState
  import opened Pvcq

  // ---- Calls that run undisturbed ----

  ghost predicate StepOf(s: State, s': State, v: nat) {
    exists c: Choice :: CanStep(s, v, c) && s' == Step(s, v, c)
  }

  /** From one state to the next only v steps. */
  ghost predicate Chain(call: seq<State>, v: nat) {
    |call| > 0 && forall k :: 0 <= k < |call| - 1 ==> StepOf(call[k], call[k + 1], v)
  }

  /** A whole undisturbed call by v, from the top of the scheduler loop to the return of NULL. */
  ghost predicate NullCall(s: State, v: nat, call: seq<State>) {
    && |call| > 1 && call[0] == s && Chain(call, v)
    && (forall k | 1 <= k < |call| :: Vc(call[k], v).calls == Vc(s, v).calls + 1)
    && Vc(call[|call| - 1], v).pc.Null?
  }

  /** Every `tqsize` that a dequeue by v has to read is 0; a caller can read them before the call. */
  predicate ReadsZero(s: State, v: nat) {
    forall j | 0 <= j < |s.rq| :: (s.steal || j == v) ==> s.rq[j].size == 0
  }

  /** Queues and threads are those of s, and so are the other vcores. */
  ghost predicate Frozen(s: State, s': State, v: nat) {
    && s'.rq == s.rq && s'.ts == s.ts && v < |s.vc| == |s'.vc| && s'.vc == s.vc[v := s'.vc[v]]
    && s'.steal == s.steal && s'.placed == s.placed && s'.odd == s.odd
  }

  // ---- If every count is 0, the call returns NULL ----

  /** The points of a call at which v has found nothing so far. */
  predicate IsHunting(pc: Pc) {
    || (pc.DequeueSize? && !pc.d.More?) || pc.Choose? || pc.Compare? || pc.StealSize? || pc.Scan? || pc.Null?
  }

  /** The own queue comes first, everything else with stealing on only. */
  predicate Where(s: State, v: nat, pc: Pc) {
    && (pc.DequeueSize? ==> if pc.d.Own? then pc.j == v else s.steal)
    && (pc.Choose? || pc.Compare? || pc.StealSize? || pc.Scan? ==> s.steal)
  }

  ghost predicate Hunting(s: State, s': State, v: nat) {
    && Frozen(s, s', v) && IsHunting(s'.vc[v].pc) && Where(s, v, s'.vc[v].pc)
    && s'.vc[v].calls == s.vc[v].calls + 1
    && (forall j | j in s'.vc[v].seen :: j < |s.rq| && s.rq[j].size == 0)
    && InRange(s'.vc[v].pc, |s.rq|)
  }

  lemma HuntChoose(s: State, x: State, v: nat, a: nat, b: nat)
    requires Hunting(s, x, v) && x.vc[v].pc.Choose? && a < |s.rq| && b < |s.rq|
    ensures Hunting(s, StealStep(x, v, a, b), v)
  {
  }

  lemma HuntCompare(s: State, x: State, v: nat, a: nat, b: nat)
    requires Hunting(s, x, v) && x.vc[v].pc.Compare?
    ensures Hunting(s, StealStep(x, v, a, b), v)
  {
  }

  lemma HuntScan(s: State, x: State, v: nat, a: nat, b: nat)
    requires Hunting(s, x, v) && x.vc[v].pc.Scan?
    ensures Hunting(s, StealStep(x, v, a, b), v)
  {
  }

  /** The look at a queue whose count is not 0. */
  lemma HuntLook(s: State, x: State, v: nat, a: nat, b: nat)
    requires Hunting(s, x, v) && x.vc[v].pc.StealSize? && x.vc[v].pc.j < |s.rq|
    requires s.rq[x.vc[v].pc.j].size > 0
    ensures Hunting(s, StealStep(x, v, a, b), v)
  {
  }

  /** The look at a queue whose count is 0. */
  lemma HuntPast(s: State, x: State, v: nat, a: nat, b: nat, i: nat)
    requires Hunting(s, x, v) && x.vc[v].pc.StealSize? && x.vc[v].pc.j < |s.rq| == |s.vc|
    requires s.rq[x.vc[v].pc.j].size == 0 && i < |s.vc|
    requires i == ((if x.vc[v].pc.scan then x.vc[v].pc.j else v) + 1) % |s.vc|
    ensures Hunting(s, StealStep(x, v, a, b), v)
    ensures StealStep(x, v, a, b).vc[v].pc == Scan(i)
  {
  }

  lemma HuntSteal(s: State, x: State, v: nat, a: nat, b: nat)
    requires Hunting(s, x, v) && IsStealing(x.vc[v].pc) && !x.vc[v].pc.Null? && |s.rq| == |s.vc|
    requires x.vc[v].pc.Choose? ==> a < |s.vc| && b < |s.vc|
    requires forall j | 0 <= j < |s.rq| :: s.rq[j].size >= 0
    ensures Hunting(s, StealStep(x, v, a, b), v)
  {
    if x.vc[v].pc.Choose? { HuntChoose(s, x, v, a, b); }
    else if x.vc[v].pc.Compare? { HuntCompare(s, x, v, a, b); }
    else if x.vc[v].pc.Scan? { HuntScan(s, x, v, a, b); }
    else if s.rq[x.vc[v].pc.j].size > 0 { HuntLook(s, x, v, a, b); }
    else {
      NextDistance(|s.vc|, v, v);
      NextDistance(|s.vc|, v, x.vc[v].pc.j);
      HuntPast(s, x, v, a, b, ((if x.vc[v].pc.scan then x.vc[v].pc.j else v) + 1) % |s.vc|);
    }
  }

  /** The look at a queue whose count is 0, or not. */
  lemma HuntEmpty(s: State, x: State, v: nat)
    requires Hunting(s, x, v) && x.vc[v].pc.DequeueSize? && x.vc[v].pc.j < |s.rq| == |s.vc|
    requires s.rq[x.vc[v].pc.j].size == 0
    ensures Hunting(s, DequeueStep(x, v), v)
  {
    NextDistance(|s.vc|, v, v);
    NextDistance(|s.vc|, v, x.vc[v].pc.j);
  }

  lemma StealIsStep(x: State, v: nat, a: nat, b: nat)
    requires v < |x.vc| && IsStealing(x.vc[v].pc) && !x.vc[v].pc.Dispatch?
    requires x.vc[v].pc.Choose? ==> a < |x.vc| && b < |x.vc|
    ensures StepOf(x, StealStep(x, v, a, b), v)
  {
    assert CanStep(x, v, Numbers(a, b)) && StealStep(x, v, a, b) == Step(x, v, Numbers(a, b));
  }

  lemma SizeIsStep(x: State, v: nat)
    requires v < |x.vc| && x.vc[v].pc.DequeueSize?
    ensures StepOf(x, DequeueStep(x, v), v)
  {
    assert CanStep(x, v, Dequeue) && DequeueStep(x, v) == Step(x, v, Dequeue);
  }

  lemma Prepend(s: State, call: seq<State>, v: nat)
    requires Chain(call, v) && StepOf(s, call[0], v)
    ensures Chain([s] + call, v)
  {
    var longer := [s] + call;
    forall k | 0 <= k < |longer| - 1 ensures StepOf(longer[k], longer[k + 1], v) {
      if k > 0 { assert StepOf(call[k - 1], call[k - 1 + 1], v); }
    }
  }

  /** The rest of an undisturbed call: all of it hunts, and it ends with NULL. */
  ghost predicate HuntsToNull(s: State, call: seq<State>, v: nat) {
    && Chain(call, v) && (forall k | 0 <= k < |call| :: Hunting(s, call[k], v))
    && call[|call| - 1].vc[v].pc.Null?
  }

  /** One more step in front. */
  lemma HuntsFrom(s: State, x: State, x': State, v: nat, call: seq<State>)
    requires HuntsToNull(s, call, v) && x' == call[0] && Hunting(s, x, v) && StepOf(x, x', v)
    ensures HuntsToNull(s, [x] + call, v)
  {
    Prepend(x, call, v);
  }

  lemma EndsNull(s: State, x: State, v: nat)
    requires Hunting(s, x, v) && x.vc[v].pc.Null?
    ensures HuntsToNull(s, [x], v)
  {
  }

  /** The scan, from queue i on. */
  lemma {:induction false} ScanEnds(s: State, x: State, v: nat, i: nat) returns (call: seq<State>)
    requires |s.rq| == |s.vc| && (forall j | 0 <= j < |s.rq| :: s.rq[j].size == 0)
    requires Hunting(s, x, v) && x.vc[v].pc == Scan(i) && i < |s.vc|
    ensures HuntsToNull(s, call, v) && call[0] == x
    decreases Distance(|s.vc|, v, v) - Distance(|s.vc|, v, i)
  {
    NextDistance(|s.vc|, v, i);
    var x1 := StealStep(x, v, 0, 0);
    StealIsStep(x, v, 0, 0);
    HuntScan(s, x, v, 0, 0);
    if i == v {
      EndsNull(s, x1, v);
      HuntsFrom(s, x, x1, v, [x1]);
      call := [x] + [x1];
    } else {
      var rest := LookEnds(s, x1, v, i, true);
      HuntsFrom(s, x, x1, v, rest);
      call := [x] + rest;
    }
  }

  /** A look at queue j, as a random choice or in the scan. */
  lemma {:induction false} LookEnds(s: State, x: State, v: nat, j: nat, scan: bool) returns (call: seq<State>)
    requires |s.rq| == |s.vc| && (forall j | 0 <= j < |s.rq| :: s.rq[j].size == 0)
    requires Hunting(s, x, v) && x.vc[v].pc == StealSize(j, scan) && j < |s.vc| && (scan ==> j != v)
    ensures HuntsToNull(s, call, v) && call[0] == x
    decreases if scan then Distance(|s.vc|, v, v) - Distance(|s.vc|, v, j) else |s.vc|, 0
  {
    NextDistance(|s.vc|, v, j);
    NextDistance(|s.vc|, v, v);
    var x1 := StealStep(x, v, 0, 0);
    StealIsStep(x, v, 0, 0);
    var i: nat := if scan then (j + 1) % |s.vc| else (v + 1) % |s.vc|;
    HuntPast(s, x, v, 0, 0, i);
    var rest := ScanEnds(s, x1, v, i);
    HuntsFrom(s, x, x1, v, rest);
    call := [x] + rest;
  }

  /** The random choices; whichever they are, the look at the chosen queue finds nothing. */
  lemma ChoiceEnds(s: State, x: State, v: nat, a: nat, b: nat) returns (call: seq<State>)
    requires |s.rq| == |s.vc| && (forall j | 0 <= j < |s.rq| :: s.rq[j].size == 0)
    requires Hunting(s, x, v) && x.vc[v].pc.Choose? && a < |s.vc| && b < |s.vc|
    ensures HuntsToNull(s, call, v) && call[0] == x
  {
    var x1 := StealStep(x, v, a, b);
    StealIsStep(x, v, a, b);
    HuntChoose(s, x, v, a, b);
    var x2 := StealStep(x1, v, 0, 0);
    StealIsStep(x1, v, 0, 0);
    HuntCompare(s, x1, v, 0, 0);
    var rest := LookEnds(s, x2, v, x2.vc[v].pc.j, false);
    HuntsFrom(s, x1, x2, v, rest);
    HuntsFrom(s, x, x1, v, [x1] + rest);
    call := [x] + ([x1] + rest);
  }

  /** The look at the own queue. */
  lemma OwnEnds(s: State, x: State, v: nat) returns (call: seq<State>)
    requires |s.rq| == |s.vc| && ReadsZero(s, v)
    requires Hunting(s, x, v) && x.vc[v].pc == DequeueSize(v, Own) && x.vc[v].seen == {}
    ensures HuntsToNull(s, call, v) && call[0] == x
  {
    var x1 := DequeueStep(x, v);
    SizeIsStep(x, v);
    HuntEmpty(s, x, v);
    if s.steal {
      var rest := ChoiceEnds(s, x1, v, 0, 0);
      HuntsFrom(s, x, x1, v, rest);
      call := [x] + rest;
    } else {
      EndsNull(s, x1, v);
      HuntsFrom(s, x, x1, v, [x1]);
      call := [x] + [x1];
    }
  }

  lemma CallIsStep(s: State, v: nat)
    requires v < |s.vc| && s.vc[v].pc.Scheduler?
    ensures StepOf(s, CallStep(s, v, Dequeue), v)
  {
    assert CanStep(s, v, Dequeue) && CallStep(s, v, Dequeue) == Step(s, v, Dequeue);
  }

  lemma ZeroMeansNull(s: State, v: nat) returns (call: seq<State>)
    requires |s.rq| == |s.vc| && v < |s.vc| && s.vc[v].pc.Scheduler? && ReadsZero(s, v)
    ensures NullCall(s, v, call)
    ensures forall k | 0 <= k < |call| :: Frozen(s, call[k], v)
  {
    var x := CallStep(s, v, Dequeue);
    CallIsStep(s, v);
    var rest := OwnEnds(s, x, v);
    Prepend(s, rest, v);
    call := [s] + rest;
    forall k | 1 <= k < |call| ensures Hunting(s, call[k], v) { assert call[k] == rest[k - 1]; }
    HuntedNull(s, v, call);
  }

  lemma HuntedNull(s: State, v: nat, call: seq<State>)
    requires |call| > 1 && v < |s.vc| && call[0] == s && Chain(call, v) && Vc(call[|call| - 1], v).pc.Null?
    requires forall k | 1 <= k < |call| :: Hunting(s, call[k], v)
    ensures NullCall(s, v, call)
    ensures forall k | 0 <= k < |call| :: Frozen(s, call[k], v)
  {
  }

  // ---- If the call returns NULL, every count was 0 ----

  /** v has a thread, or will get one: the call will not return NULL. */
  predicate Got(s: State, v: nat) {
    v < |s.vc| &&
    match s.vc[v].pc
    case DequeueSize(_, d) => d.More?
    case DequeueLock(j, d) => d.More? || Rq(s, j).size != 0
    case DequeueRemove(j, d) => d.More? || Rq(s, j).queue != []
    case DequeueUnlock(_, d) => d.More? || s.vc[v].hand.Some?
    case DequeuePref(_, d) => d.More? || s.vc[v].hand.Some?
    case Choose => false
    case Compare(_, _, _) => false
    case StealSize(_, _) => false
    case Scan(_) => false
    case Null => false
    case _ => true
  }

  lemma GotSize(s: State, v: nat)
    requires v < |s.vc| && s.vc[v].pc.DequeueSize? && Got(s, v)
    ensures Got(DequeueStep(s, v), v)
  {
  }

  lemma GotLock(s: State, v: nat)
    requires v < |s.vc| && s.vc[v].pc.DequeueLock? && Got(s, v)
    requires Rq(s, s.vc[v].pc.j).size != 0 ==> s.vc[v].pc.j < |s.rq| && |s.rq[s.vc[v].pc.j].queue| > 0
    ensures Got(DequeueStep(s, v), v)
  {
  }

  lemma GotRemove(s: State, v: nat)
    requires v < |s.vc| && s.vc[v].pc.DequeueRemove? && Got(s, v)
    ensures Got(DequeueStep(s, v), v)
  {
  }

  lemma GotTook(s: State, v: nat, j: nat, d: Take)
    requires v < |s.vc| && (d.More? || s.vc[v].hand.Some?)
    ensures Got(Took(s, v, j, d), v)
  {
  }

  lemma GotPref(s: State, v: nat)
    requires v < |s.vc| && s.vc[v].pc.DequeuePref? && Got(s, v)
    ensures Got(DequeueStep(s, v), v)
  {
    GotTook(s, v, s.vc[v].pc.j, s.vc[v].pc.d);
  }

  lemma GotDequeue(s: State, v: nat)
    requires v < |s.vc| && IsDequeuing(s.vc[v].pc) && Got(s, v)
    requires s.vc[v].pc.DequeueLock? && Rq(s, s.vc[v].pc.j).size != 0 ==>
               s.vc[v].pc.j < |s.rq| && |s.rq[s.vc[v].pc.j].queue| > 0
    ensures Got(DequeueStep(s, v), v)
  {
    if s.vc[v].pc.DequeueSize? { GotSize(s, v); }
    else if s.vc[v].pc.DequeueLock? { GotLock(s, v); }
    else if s.vc[v].pc.DequeueRemove? { GotRemove(s, v); }
    else { GotPref(s, v); }
  }

  lemma GotThread(s: State, v: nat, c: Choice)
    requires v < |s.vc| && IsThreading(s.vc[v].pc) && Legal(s, v, c)
    requires Vc(CallStep(s, v, c), v).calls == s.vc[v].calls
    ensures Got(CallStep(s, v, c), v)
  {
  }

  lemma GotCallback(s: State, v: nat, c: Choice)
    requires v < |s.vc| && IsCalling(s.vc[v].pc) && s.vc[v].hand.Some?
    ensures Got(CallbackStep(s, v, c), v)
  {
  }

  lemma GotEnqueue(s: State, v: nat, place: nat)
    requires v < |s.vc| && IsEnqueuing(s.vc[v].pc) && s.vc[v].hand.Some?
    ensures Got(EnqueueStep(s, v, place), v)
  {
  }

  lemma GotCount(s: State, v: nat)
    requires v < |s.vc| && IsCounting(s.vc[v].pc) && Got(s, v)
    requires s.vc[v].pc.DequeueCount? ==> s.vc[v].hand.Some?
    ensures Got(CountStep(s, v), v)
  {
  }

  lemma GotDispatch(s: State, v: nat)
    requires v < |s.vc| && s.vc[v].pc.Dispatch? && s.vc[v].first.Some?
    ensures Got(StealStep(s, v, 0, 0), v)
  {
  }

  /** A vcore that has got a thread does not come back empty-handed in the same call. */
  lemma GotStays(s: State, v: nat, c: Choice)
    requires Inv(s) && CanStep(s, v, c) && Got(s, v)
    requires Vc(Step(s, v, c), v).calls == s.vc[v].calls
    ensures Got(Step(s, v, c), v)
  {
    assert AtVcore(s, v, s.vc[v]);
    var pc := s.vc[v].pc;
    if IsThreading(pc) { GotThread(s, v, c); }
    else if IsCalling(pc) { GotCallback(s, v, c); }
    else if IsEnqueuing(pc) { GotEnqueue(s, v, if c.Numbers? then c.a else 0); }
    else if IsCounting(pc) { GotCount(s, v); }
    else if IsDequeuing(pc) {
      if pc.DequeueLock? { assert AtQueue(s, pc.j, s.rq[pc.j]); }
      GotDequeue(s, v);
    }
    else { GotDispatch(s, v); }
  }

  lemma HuntFull(s: State, x: State, v: nat)
    requires Hunting(s, x, v) && x.vc[v].pc.DequeueSize? && Rq(s, x.vc[v].pc.j).size != 0
    ensures Got(DequeueStep(x, v), v)
  {
  }

  lemma SizesAreCounts(s: State)
    requires Inv(s)
    ensures |s.rq| == |s.vc| && forall j | 0 <= j < |s.rq| :: s.rq[j].size >= 0
  {
    forall j | 0 <= j < |s.rq| ensures s.rq[j].size >= 0 { assert AtQueue(s, j, s.rq[j]); }
  }

  lemma HuntingSteps(x: State, v: nat, c: Choice)
    requires CanStep(x, v, c) && IsHunting(x.vc[v].pc)
    ensures x.vc[v].pc.DequeueSize? ==> Step(x, v, c) == DequeueStep(x, v)
    ensures !x.vc[v].pc.DequeueSize? ==>
              Step(x, v, c) == StealStep(x, v, if c.Numbers? then c.a else 0, if c.Numbers? then c.b else 0)
    ensures x.vc[v].pc.Choose? ==> c.Numbers? && c.a < |x.vc| && c.b < |x.vc|
  {
  }

  /** A hunting vcore that finds a count of 0 hunts on; otherwise it gets a thread. */
  lemma HuntStep(s: State, x: State, v: nat, c: Choice)
    requires Inv(s) && Hunting(s, x, v) && CanStep(x, v, c) && !x.vc[v].pc.Null?
    ensures Hunting(s, Step(x, v, c), v) || (x.vc[v].pc.DequeueSize? && Got(Step(x, v, c), v))
    ensures x.vc[v].pc.DequeueSize? && Rq(s, x.vc[v].pc.j).size == 0 ==> Hunting(s, Step(x, v, c), v)
  {
    SizesAreCounts(s);
    HuntingSteps(x, v, c);
    if !x.vc[v].pc.DequeueSize? {
      HuntSteal(s, x, v, if c.Numbers? then c.a else 0, if c.Numbers? then c.b else 0);
    }
    else if Rq(s, x.vc[v].pc.j).size == 0 { HuntEmpty(s, x, v); }
    else { HuntFull(s, x, v); }
  }

  lemma {:induction false} ChainInv(call: seq<State>, v: nat, k: nat)
    requires Chain(call, v) && k < |call| && Inv(call[0]) && LookedAt(call[0], v)
    ensures Inv(call[k]) && LookedAt(call[k], v)
    decreases k
  {
    if k > 0 {
      ChainInv(call, v, k - 1);
      assert StepOf(call[k - 1], call[k - 1 + 1], v);
      StepKeeps(call[k - 1], call[k], v);
    }
  }

  lemma StepKeeps(x: State, x': State, v: nat)
    requires Inv(x) && LookedAt(x, v) && StepOf(x, x', v)
    ensures Inv(x') && LookedAt(x', v)
  {
    var c: Choice :| CanStep(x, v, c) && x' == Step(x, v, c);
    InvStep(x, v, c);
    LookedNext(x, x', v);
  }

  /** Once v has got a thread, it has still got it at the end of the call. */
  lemma {:induction false} GotToTheEnd(call: seq<State>, v: nat, k: nat)
    requires Chain(call, v) && k < |call| && Inv(call[0]) && LookedAt(call[0], v) && Got(call[k], v)
    requires forall j | k <= j < |call| :: Vc(call[j], v).calls == Vc(call[k], v).calls
    ensures Got(call[|call| - 1], v)
    decreases |call| - k
  {
    if k < |call| - 1 {
      ChainInv(call, v, k);
      assert StepOf(call[k], call[k + 1], v);
      GotNext(call[k], call[k + 1], v);
      GotToTheEnd(call, v, k + 1);
    }
  }

  lemma GotNext(x: State, x': State, v: nat)
    requires Inv(x) && Got(x, v) && StepOf(x, x', v) && Vc(x', v).calls == Vc(x, v).calls
    ensures Got(x', v)
  {
    var c: Choice :| CanStep(x, v, c) && x' == Step(x, v, c);
    GotStays(x, v, c);
  }

  lemma HuntNext(s: State, x: State, x': State, v: nat)
    requires Inv(s) && Hunting(s, x, v) && StepOf(x, x', v) && Vc(x', v).calls == Vc(x, v).calls
    ensures Hunting(s, x', v) || Got(x', v)
  {
    var c: Choice :| CanStep(x, v, c) && x' == Step(x, v, c);
    if !x.vc[v].pc.Null? { HuntStep(s, x, v, c); }
  }

  /** If every count is 0, a hunting vcore hunts on. */
  lemma HuntZero(s: State, x: State, x': State, v: nat)
    requires Inv(s) && ReadsZero(s, v) && Hunting(s, x, v) && StepOf(x, x', v) && !x.vc[v].pc.Null?
    ensures Hunting(s, x', v)
  {
    var c: Choice :| CanStep(x, v, c) && x' == Step(x, v, c);
    HuntStep(s, x, v, c);
    if x.vc[v].pc.DequeueSize? { assert Rq(s, x.vc[v].pc.j).size == 0; }
  }

  /** The beginning of an undisturbed call, at most up to the return of NULL. */
  ghost predicate CallPrefix(s: State, v: nat, call: seq<State>) {
    && |call| > 0 && call[0] == s && Chain(call, v)
    && (forall k | 1 <= k < |call| :: Vc(call[k], v).calls == Vc(s, v).calls + 1)
    && (forall k | 0 <= k < |call| - 1 :: !Vc(call[k], v).pc.Null?)
  }

  lemma {:induction false} PrefixHunts(s: State, v: nat, call: seq<State>, k: nat)
    requires Inv(s) && v < |s.vc| && s.vc[v].pc.Scheduler? && ReadsZero(s, v) && CallPrefix(s, v, call)
    requires 1 <= k < |call|
    ensures Hunting(s, call[k], v)
    decreases k
  {
    assert StepOf(call[k - 1], call[k - 1 + 1], v);
    if k == 1 {
      CallBegins(s, call[1], v);
    } else {
      PrefixHunts(s, v, call, k - 1);
      HuntZero(s, call[k - 1], call[k], v);
    }
  }

  lemma CallBegins(s: State, x: State, v: nat)
    requires |s.rq| == |s.vc| && v < |s.vc| && s.vc[v].pc.Scheduler? && StepOf(s, x, v)
    requires Vc(x, v).calls == s.vc[v].calls + 1
    ensures Hunting(s, x, v)
  {
    var c: Choice :| CanStep(s, v, c) && x == Step(s, v, c);
  }

  /** An undisturbed call that returns NULL hunts from beginning to end. */
  lemma {:induction false} NullCallHunts(s: State, v: nat, call: seq<State>, k: nat)
    requires Inv(s) && LookedAt(s, v) && v < |s.vc| && s.vc[v].pc.Scheduler? && NullCall(s, v, call)
    requires 1 <= k < |call|
    ensures Hunting(s, call[k], v)
    decreases k
  {
    assert StepOf(call[k - 1], call[k - 1 + 1], v);
    if k == 1 {
      CallBegins(s, call[1], v);
    } else {
      NullCallHunts(s, v, call, k - 1);
      HuntNext(s, call[k - 1], call[k], v);
      if Got(call[k], v) { GotToTheEnd(call, v, k); }
    }
  }

  lemma NullMeansZero(s: State, v: nat, call: seq<State>)
    requires Inv(s) && LookedAt(s, v) && v < |s.vc| && s.vc[v].pc.Scheduler? && NullCall(s, v, call)
    ensures ReadsZero(s, v)
    ensures forall k | 0 <= k < |call| :: Frozen(s, call[k], v)
  {
    forall k | 1 <= k < |call| ensures Hunting(s, call[k], v) { NullCallHunts(s, v, call, k); }
    ChainInv(call, v, |call| - 1);
  }

  // ---- Main results ----

  /** In every reachable state: an undisturbed call can return NULL if and only if every `tqsize` it has to read is
      0; and such a call leaves all queues, all threads and all other vcores as they are. */
  lemma NullExactly(run: seq<State>, max: nat, placed: nat, steal: bool, n: nat, m: nat, v: nat)
    requires Run(run, max, placed, steal, n) && m < |run| && v < |run[m].vc| && run[m].vc[v].pc.Scheduler?
    ensures (exists call :: NullCall(run[m], v, call)) <==> ReadsZero(run[m], v)
    ensures forall call | NullCall(run[m], v, call) :: forall k | 0 <= k < |call| :: Frozen(run[m], call[k], v)
  {
    InvRun(run, max, placed, steal, n, m);
    LookedRun(run, max, placed, steal, n, m, v);
    if ReadsZero(run[m], v) { var call := ZeroMeansNull(run[m], v); }
    forall call | NullCall(run[m], v, call)
      ensures ReadsZero(run[m], v) && forall k | 0 <= k < |call| :: Frozen(run[m], call[k], v)
    {
      NullMeansZero(run[m], v, call);
    }
  }

  /** If every count is 0, an undisturbed call finds nothing whatever it chooses: up to the return of NULL it holds no
      thread and changes nothing. */
  lemma ZeroFindsNothing(
      run: seq<State>, max: nat, placed: nat, steal: bool, n: nat, m: nat, v: nat, call: seq<State>, k: nat)
    requires Run(run, max, placed, steal, n) && m < |run| && v < |run[m].vc| && run[m].vc[v].pc.Scheduler?
    requires ReadsZero(run[m], v) && CallPrefix(run[m], v, call) && 1 <= k < |call|
    ensures Frozen(run[m], call[k], v) && IsHunting(call[k].vc[v].pc)
  {
    InvRun(run, max, placed, steal, n, m);
    PrefixHunts(run[m], v, call, k);
  }

  /** An undisturbed call that overlooks thread t, which sits in queue i from its beginning to its end. */
  ghost predicate Overlooks(s: State, v: nat, i: nat, t: Tid, call: seq<State>) {
    NullCall(s, v, call) && forall k | 0 <= k < |call| :: Th(call[k], t).loc == Queued(i)
  }

  /** In every reachable state: a thread in a queue that a dequeue by v has to look at is overlooked by some
      undisturbed call if and only if every `tqsize` that the call reads is 0. Then the thread is alone in its queue
      and its enqueuer has not counted it yet; a thread that has settled is never overlooked. */
  lemma OverlookedExactly(
      run: seq<State>, max: nat, placed: nat, steal: bool, n: nat, m: nat, v: nat, i: nat, t: Tid)
    requires Run(run, max, placed, steal, n) && m < |run| && v < |run[m].vc| && run[m].vc[v].pc.Scheduler?
    requires Th(run[m], t).loc == Queued(i) && (run[m].steal || i == v)
    ensures (exists call :: Overlooks(run[m], v, i, t, call)) <==> ReadsZero(run[m], v)
    ensures ReadsZero(run[m], v) ==>
              !Settled(run[m], i, t) && Rq(run[m], i).queue == [t] && Uncounted(run[m], i)
  {
    InvRun(run, max, placed, steal, n, m);
    NullExactly(run, max, placed, steal, n, m, v);
    if ReadsZero(run[m], v) {
      var call :| NullCall(run[m], v, call);
      assert Overlooks(run[m], v, i, t, call);
      ZeroIsUncounted(run[m], v, i, t);
    }
    if call :| Overlooks(run[m], v, i, t, call) { assert NullCall(run[m], v, call); }
  }

  lemma ZeroIsUncounted(s: State, v: nat, i: nat, t: Tid)
    requires Inv(s) && Th(s, t).loc == Queued(i) && (s.steal || i == v) && ReadsZero(s, v)
    ensures !Settled(s, i, t) && Rq(s, i).queue == [t] && Uncounted(s, i)
  {
    assert AtThread(s, t, s.ts[t]);
    SizeZero(s, i);
    if Settled(s, i, t) { SettledShows(s, i, t); }
  }

  // ---- A witness ----

  /** A run that overlooks a thread: vcore 0 inserts thread 1 and stops before it counts it, and vcore 1
      dequeues. */
  function Overlooking(j: nat): State {
    var vc0 := FreshVcore.(pc := InThread, run := Some(0));
    var held := vc0.(hand := Some(1));
    var counts := vc0.(pc := EnqueueSize(0, ToThread, 1));
    var th := Thread(Created, 0, InHand(0), 0);
    var ready := th.(state := Runnable);
    var queued := ready.(loc := Queued(0));
    var full := RunQueue([1], 0, Some(0), 0);
    var calls := FreshVcore.(calls := 1);
    if j == 0 then Pair(vc0, FreshVcore, th.(loc := Unborn), FreshQueue)
    else if j == 1 then Pair(held.(pc := Wake(ToThread)), FreshVcore, th, FreshQueue)
    else if j == 2 then Pair(held.(pc := EnqueueState(false, ToThread)), FreshVcore, th, FreshQueue)
    else if j == 3 then Pair(held.(pc := EnqueuePlace(false, ToThread)), FreshVcore, ready, FreshQueue)
    else if j == 4 then Pair(held.(pc := EnqueuePref(false, ToThread)), FreshVcore, ready, FreshQueue)
    else if j == 5 then Pair(held.(pc := EnqueueLock(0, false, ToThread)), FreshVcore, ready, FreshQueue)
    else if j == 6 then
      Pair(held.(pc := EnqueueInsert(0, false, ToThread)), FreshVcore, ready, FreshQueue.(lock := Some(0)))
    else if j == 7 then Pair(counts, FreshVcore, queued, full)
    else if j == 8 then Pair(counts, calls.(pc := DequeueSize(1, Own)), queued, full)
    else if j == 9 then Pair(counts, calls.(pc := Choose, seen := {1}), queued, full)
    else if j == 10 then Pair(counts, calls.(pc := Compare(0, 0, 0), seen := {1}), queued, full)
    else if j == 11 then Pair(counts, calls.(pc := StealSize(0, false), seen := {1}), queued, full)
    else if j == 12 then Pair(counts, calls.(pc := Scan(0), seen := {0, 1}), queued, full)
    else if j == 13 then Pair(counts, calls.(pc := StealSize(0, true), seen := {0, 1}), queued, full)
    else if j == 14 then Pair(counts, calls.(pc := Scan(1), seen := {0, 1}), queued, full)
    else Pair(counts, calls.(pc := Null, seen := {0, 1}), queued, full)
  }

  /** Two vcores and two threads, the first running on vcore 0. */
  function Pair(vc0: Vcore, vc1: Vcore, th: Thread, q: RunQueue): State {
    State([vc0, vc1], [q, FreshQueue], [Thread(Running, 0, OnVcore(0), 0), th], 2, true, false)
  }

  function OverlookingChoice(j: nat): Choice {
    if j == 0 then Create(1) else if j == 3 || j == 9 then Numbers(0, 0) else Dequeue
  }

  lemma OverlookingMakes(j: nat)
    requires j < 4
    ensures CanStep(Overlooking(j), 0, OverlookingChoice(j))
    ensures Step(Overlooking(j), 0, OverlookingChoice(j)) == Overlooking(j + 1)
  {
  }

  lemma OverlookingEnqueues(j: nat)
    requires 4 <= j < 7
    ensures CanStep(Overlooking(j), 0, OverlookingChoice(j))
    ensures Step(Overlooking(j), 0, OverlookingChoice(j)) == Overlooking(j + 1)
  {
    assert [] + [1] == [1];
  }

  lemma OverlookingDequeues(j: nat)
    requires 7 <= j < 11
    ensures CanStep(Overlooking(j), 1, OverlookingChoice(j))
    ensures Step(Overlooking(j), 1, OverlookingChoice(j)) == Overlooking(j + 1)
  {
    var none: set<nat> := {};
    var one: set<nat> := {1};
    assert none + {1} == one;
  }

  lemma OverlookingScans(j: nat)
    requires 11 <= j < 15
    ensures CanStep(Overlooking(j), 1, OverlookingChoice(j))
    ensures Step(Overlooking(j), 1, OverlookingChoice(j)) == Overlooking(j + 1)
  {
    var one: set<nat> := {1};
    var both: set<nat> := {0, 1};
    assert one + {0} == both && both + {0} == both;
  }

  lemma OverlookingNext(j: nat)
    requires j < 15
    ensures Next(Overlooking(j), Overlooking(j + 1))
  {
    if j < 4 { OverlookingMakes(j); }
    else if j < 7 { OverlookingEnqueues(j); }
    else if j < 11 { OverlookingDequeues(j); }
    else { OverlookingScans(j); }
  }

  lemma OverlookingSits(j: nat)
    requires 7 <= j <= 15
    ensures Rq(Overlooking(j), 0).queue == [1] && !Settled(Overlooking(j), 0, 1)
    ensures Vc(Overlooking(j), 1).calls == if j == 7 then 0 else 1
  {
    assert Overlooking(j).vc[0].pc == EnqueueSize(0, ToThread, 1);
  }

  /** Whether a thread has settled in its queue matters: a call of `__pth_thread_dequeue` can return NULL although
      thread 1 sat in queue 0 before, throughout and after it. */
  lemma UncountedIsOverlooked() returns (run: seq<State>)
    ensures Run(run, 2, 2, true, 2) && |run| == 16 && InOneCall(run, 7, 15, 1) && Vc(run[15], 1).pc.Null?
    ensures forall k | 7 <= k <= 15 :: Rq(run[k], 0).queue == [1] && !Settled(run[k], 0, 1)
  {
    run := seq(16, j requires j >= 0 => Overlooking(j));
    assert run[0] == Init(2, 2, true, 2);
    forall k | 0 <= k < |run| - 1 ensures Next(run[k], run[k + 1]) { OverlookingNext(k); }
    forall k | 7 <= k <= 15
      ensures Rq(run[k], 0).queue == [1] && !Settled(run[k], 0, 1)
      ensures Vc(run[k], 1).calls == if k == 7 then 0 else 1
    {
      OverlookingSits(k);
    }
  }
}
