/**
 The barrier object in its own form: flags and queues are arrays updated in place. Each method is one
 stretch of src/common/barrier.c that runs while no other thread touches the fields it writes. The arrival,
 the release and the callback are shown to do what the machine in module Barrier does when the same thread
 steps alone.
 */
module BarrierObject {
  import B = Barrier
  import opened Seqs
  import opened ThreadState

  type Tid = B.Tid

  class ContextQueue {
    const queue: array<Tid>
    const maxlen: nat
    var len: nat

    ghost predicate Valid() reads this {
      len <= maxlen == queue.Length
    }

    ghost function Contents(): seq<Tid>
      requires Valid()
      reads this, queue
    {
      queue[..len]
    }

    constructor (n: nat)
      ensures Valid() && Contents() == [] && maxlen == n && fresh(queue)
    {
      queue := new Tid[n];
      maxlen := n;
      len := 0;
    }

    /** Lines 51-52 of the callback; line 49 asserts what is required here. */
    method Append(t: Tid)
      requires Valid() && len < maxlen
      modifies this, queue
      ensures Valid() && Contents() == old(Contents()) + [t]
    {
      queue[len] := t;
      len := len + 1;
    }

    /** Lines 84-87: every blocked thread is made runnable, oldest first. */
    method WakeAll() returns (woken: seq<Tid>)
      requires Valid()
      modifies this
      ensures Valid() && woken == old(Contents()) && Contents() == []
    {
      woken := [];
      var i := 0;
      while i < len
        invariant 0 <= i <= len == old(len)
        invariant woken == queue[..i]
      {
        woken := woken + [queue[i]];
        i := i + 1;
      }
      len := 0;
    }
  }

  // ---- The machine with one thread stepping ----

  ghost predicate StepOf(s: B.State, t: Tid, s': B.State) {
    exists stalled: bool :: B.Shape(s) && t < s.n && B.Enabled(s, t) && s' == B.Step(s, t, stalled)
  }

  /** From one state to the next only t steps. */
  ghost predicate Alone(chain: seq<B.State>, t: Tid) {
    |chain| > 0 && forall k :: 0 <= k < |chain| - 1 ==> StepOf(chain[k], t, chain[k + 1])
  }

  /** Some number of steps of t, during which nobody else runs, lead from s to s'. */
  ghost predicate Leads(s: B.State, t: Tid, s': B.State) {
    exists chain :: Alone(chain, t) && chain[0] == s && chain[|chain| - 1] == s'
  }

  lemma LeadsOn(s: B.State, t: Tid, s1: B.State, s2: B.State)
    requires Leads(s, t, s1) && Leads(s1, t, s2)
    ensures Leads(s, t, s2)
  {
    var a :| Alone(a, t) && a[0] == s && a[|a| - 1] == s1;
    var b :| Alone(b, t) && b[0] == s1 && b[|b| - 1] == s2;
    var c := a + b[1..];
    forall k | 0 <= k < |c| - 1 ensures StepOf(c[k], t, c[k + 1]) {
      if k < |a| - 1 { assert StepOf(a[k], t, a[k + 1]); }
      else {
        var j := k - (|a| - 1);
        assert StepOf(b[j], t, b[j + 1]);
      }
    }
    assert Alone(c, t) && c[0] == s && c[|c| - 1] == s2;
  }

  lemma LeadsOnce(s: B.State, t: Tid, s': B.State)
    requires B.Shape(s) && t < s.n && B.Enabled(s, t) && s' == B.Step(s, t, false)
    ensures Leads(s, t, s')
  {
    assert StepOf(s, t, s');
    var chain := [s, s'];
    assert Alone(chain, t) && chain[0] == s && chain[|chain| - 1] == s';
  }

  /** What the object can see of the threads other than t stays the same. */
  ghost predicate OthersStay(s: B.State, s': B.State, t: Tid) {
    && s'.n == s.n && |s'.ts| == |s.ts| && t < |s.ts| && s'.ts[t].sense == s.ts[t].sense
    && s'.ts == s.ts[t := s'.ts[t]] && s'.ts[t].id == s.ts[t].id
  }

  /** Lines 69-71 set the count and the flag. */
  lemma CloseAlone(s: B.State, t: Tid) returns (s': B.State)
    requires B.Shape(s) && t < s.n && s.ts[t].pc.ResetArrived?
    ensures Leads(s, t, s') && B.Shape(s') && OthersStay(s, s', t) && s'.ts[t].pc == B.Signalling(0)
    ensures s'.arrived == 0 && s'.wait == !s.wait && s'.signals == s.signals && s'.blocked == s.blocked
  {
    var s1 := B.Goto(s, t, B.ReadFlag).(arrived := 0);
    LeadsOnce(s, t, s1);
    s' := FlipAlone(s1, t);
    LeadsOn(s, t, s1, s');
  }

  lemma FlipAlone(s: B.State, t: Tid) returns (s': B.State)
    requires B.Shape(s) && t < s.n && s.ts[t].pc.ReadFlag?
    ensures Leads(s, t, s') && B.Shape(s') && OthersStay(s, s', t) && s'.ts[t].pc == B.Signalling(0)
    ensures s'.arrived == s.arrived && s'.wait == !s.wait && s'.signals == s.signals && s'.blocked == s.blocked
  {
    var s1 := B.Put(s, t, s.ts[t].(pc := B.FlipFlag, flag := s.wait));
    LeadsOnce(s, t, s1);
    s' := B.Flip(s1, t);
    LeadsOnce(s1, t, s');
    LeadsOn(s, t, s1, s');
  }

  /** One turn of the loop of lines 76-78, or its end. */
  lemma SignalOnce(s: B.State, t: Tid, i: nat)
    requires B.Shape(s) && t < s.n && s.ts[t].pc == B.Signalling(i) && i <= s.n
    ensures var s' := B.Signal(s, t, i);
      && Leads(s, t, s') && B.Shape(s') && OthersStay(s, s', t)
      && s'.arrived == s.arrived && s'.wait == s.wait && s'.blocked == s.blocked
      && s'.ts[t].pc == (if i == s.n then B.LockToWake else B.Signalling(i + 1))
      && s'.signals == if i == s.n then s.signals else s.signals[i := !s.ts[t].sense]
  {
    LeadsOnce(s, t, B.Signal(s, t, i));
  }

  /** The loop of lines 76-78 from flag i on sets every further flag. */
  lemma {:induction false} SignalAlone(s: B.State, t: Tid, i: nat) returns (s': B.State)
    requires B.Shape(s) && t < s.n && s.ts[t].pc == B.Signalling(i) && i <= s.n
    ensures Leads(s, t, s') && B.Shape(s') && OthersStay(s, s', t) && s'.ts[t].pc.LockToWake?
    ensures s'.arrived == s.arrived && s'.wait == s.wait && s'.blocked == s.blocked
    ensures forall k | 0 <= k < s.n :: s'.signals[k] == if k < i then s.signals[k] else !s.ts[t].sense
    decreases s.n - i
  {
    var s1 := B.Signal(s, t, i);
    SignalOnce(s, t, i);
    if i == s.n {
      s' := s1;
    } else {
      s' := SignalAlone(s1, t, i + 1);
      LeadsOn(s, t, s1, s');
    }
  }

  /** u is back in its spin loop. */
  ghost predicate Spins(s: B.State, u: Tid) { u < |s.ts| && s.ts[u].pc.Spinning? }

  /** The entries of q from i on are asleep, each once, and t is not among them. */
  ghost predicate Sleepers(s: B.State, t: Tid, q: seq<Tid>, i: nat) {
    forall j | i <= j < |q| ::
      && q[j] < |s.ts| && q[j] != t && s.ts[q[j]].pc.Blocked? && IsAccepted(s.ts[q[j]].state)
      && (forall k | j < k < |q| :: q[k] != q[j])
  }

  /** The loop of lines 84-86 from entry i on sends every further entry back to its spin loop. */
  lemma {:induction false} WakeAlone(s: B.State, t: Tid, q: seq<Tid>, i: nat) returns (s': B.State)
    requires B.Shape(s) && t < s.n && s.ts[t].pc == B.Waking(i) && q == s.blocked.At(s.ts[t].sense).queue
    requires i <= |q| && Sleepers(s, t, q, i)
    ensures Leads(s, t, s') && B.Shape(s') && s'.n == s.n
    ensures s'.ts[t].pc.ClearLen? && s'.ts[t].sense == s.ts[t].sense
    ensures s'.arrived == s.arrived && s'.wait == s.wait && s'.signals == s.signals && s'.blocked == s.blocked
    ensures forall j | i <= j < |q| :: Spins(s', q[j])
    ensures forall u | 0 <= u < s.n && u != t && Spins(s, u) :: Spins(s', u)
    decreases |q| - i
  {
    if i == |q| {
      s' := B.Goto(s, t, B.ClearLen);
      LeadsOnce(s, t, s');
    } else {
      var s1 := B.Goto(B.MakeRunnable(s, q[i]), t, B.Waking(i + 1));
      LeadsOnce(s, t, s1);
      SleepersStay(s, t, q, i);
      s' := WakeAlone(s1, t, q, i + 1);
      LeadsOn(s, t, s1, s');
    }
  }

  lemma SleepersStay(s: B.State, t: Tid, q: seq<Tid>, i: nat)
    requires t < |s.ts| && i < |q| && Sleepers(s, t, q, i)
    ensures var s1 := B.Goto(B.MakeRunnable(s, q[i]), t, B.Waking(i + 1));
      Sleepers(s1, t, q, i + 1) && Spins(s1, q[i]) && forall u: nat | u != t && Spins(s, u) :: Spins(s1, u)
  {
  }

  /** Lines 87-88. */
  lemma LeaveAlone(s: B.State, t: Tid) returns (s': B.State)
    requires B.Shape(s) && t < s.n && s.ts[t].pc.ClearLen?
    ensures Leads(s, t, s') && OthersStay(s, s', t) && s'.ts[t].pc.Outside?
    ensures s'.arrived == s.arrived && s'.wait == s.wait && s'.signals == s.signals
    ensures var w := s.ts[t].sense; s'.blocked.At(w).queue == [] && s'.blocked.At(!w).queue == s.blocked.At(!w).queue
  {
    var w := s.ts[t].sense;
    var s1 := B.Goto(s, t, B.UnlockAfterWake).(blocked := s.blocked.With(w, s.blocked.At(w).(queue := [])));
    LeadsOnce(s, t, s1);
    s' := UnlockAlone(s1, t);
    LeadsOn(s, t, s1, s');
  }

  lemma UnlockAlone(s: B.State, t: Tid) returns (s': B.State)
    requires B.Shape(s) && t < s.n && s.ts[t].pc.UnlockAfterWake?
    ensures Leads(s, t, s') && OthersStay(s, s', t) && s'.ts[t].pc.Outside?
    ensures s'.arrived == s.arrived && s'.wait == s.wait && s'.signals == s.signals
    ensures forall w :: s'.blocked.At(w).queue == s.blocked.At(w).queue
  {
    s' := B.Lock(B.Return(s, t), s.ts[t].sense, None).(releaser := None);
    LeadsOnce(s, t, s');
  }

  /** Line 83. */
  lemma LockAlone(s: B.State, t: Tid) returns (s': B.State)
    requires B.Shape(s) && t < s.n && s.ts[t].pc.LockToWake? && s.blocked.At(s.ts[t].sense).mtx.None?
    ensures Leads(s, t, s') && B.Shape(s') && OthersStay(s, s', t) && s'.ts[t].pc == B.Waking(0)
    ensures s'.arrived == s.arrived && s'.wait == s.wait && s'.signals == s.signals
    ensures forall w :: s'.blocked.At(w).queue == s.blocked.At(w).queue
  {
    s' := B.Lock(B.Goto(s, t, B.Waking(0)), s.ts[t].sense, Some(t));
    LeadsOnce(s, t, s');
  }

  /** Lines 69-83. */
  lemma FlagsAlone(s: B.State, t: Tid) returns (s': B.State)
    requires B.Shape(s) && t < s.n && s.ts[t].pc.ResetArrived? && s.blocked.At(s.ts[t].sense).mtx.None?
    ensures Leads(s, t, s') && B.Shape(s') && OthersStay(s, s', t) && s'.ts[t].pc == B.Waking(0)
    ensures s'.arrived == 0 && s'.wait == !s.wait && s'.signals == seq(s.n, _ => !s.ts[t].sense)
    ensures forall w :: s'.blocked.At(w).queue == s.blocked.At(w).queue
  {
    var s1 := CloseAlone(s, t);
    var s2 := SignalAlone(s1, t, 0);
    s' := LockAlone(s2, t);
    LeadsOn(s, t, s1, s2);
    LeadsOn(s, t, s2, s');
  }

  /** When the last thread has arrived, everybody in the queue of its side sleeps there. */
  lemma QueueSleeps(s: B.State, t: Tid)
    requires B.Inv(s) && t < s.n && s.ts[t].pc.ResetArrived? && s.blocked.At(s.ts[t].sense).mtx.None?
    ensures Sleepers(s, t, s.blocked.At(s.ts[t].sense).queue, 0)
  {
    B.ClosingIsLast(s, t);
  }

  /** Lines 84-88. */
  lemma FinishAlone(s: B.State, t: Tid, q: seq<Tid>) returns (s': B.State)
    requires B.Shape(s) && t < s.n && s.ts[t].pc == B.Waking(0) && q == s.blocked.At(s.ts[t].sense).queue
    requires Sleepers(s, t, q, 0)
    ensures Leads(s, t, s') && s'.n == s.n && t < |s'.ts| && s'.ts[t].pc.Outside?
    ensures s'.arrived == s.arrived && s'.wait == s.wait && s'.signals == s.signals
    ensures var w := s.ts[t].sense;
      && s'.blocked.At(w).queue == [] && s'.blocked.At(!w).queue == s.blocked.At(!w).queue
      && forall j | 0 <= j < |q| :: Spins(s', q[j])
  {
    var s1 := WakeAlone(s, t, q, 0);
    s' := LeaveAlone(s1, t);
    LeadsOn(s, t, s1, s');
  }

  lemma SleepersSame(s: B.State, s': B.State, t: Tid, q: seq<Tid>)
    requires OthersStay(s, s', t) && Sleepers(s, t, q, 0)
    ensures Sleepers(s', t, q, 0)
  {
  }

  /** A whole release, lines 69-88, by the machine. */
  lemma ReleaseAlone(s: B.State, t: Tid, q: seq<Tid>) returns (s': B.State)
    requires B.Shape(s) && t < s.n && s.ts[t].pc.ResetArrived? && s.blocked.At(s.ts[t].sense).mtx.None?
    requires q == s.blocked.At(s.ts[t].sense).queue && Sleepers(s, t, q, 0)
    ensures Leads(s, t, s') && s'.n == s.n && t < |s'.ts| && s'.ts[t].pc.Outside?
    ensures s'.arrived == 0 && s'.wait == !s.wait && s'.signals == seq(s.n, _ => !s.ts[t].sense)
    ensures var w := s.ts[t].sense;
      && s'.blocked.At(w).queue == [] && s'.blocked.At(!w).queue == s.blocked.At(!w).queue
      && forall j | 0 <= j < |q| :: Spins(s', q[j])
  {
    var s1 := FlagsAlone(s, t);
    SleepersSame(s, s1, t, q);
    s' := FinishAlone(s1, t, q);
    LeadsOn(s, t, s1, s');
  }

  class BarrierObject {
    const N: nat
    const signals: array<bool>
    const blocked0: ContextQueue
    const blocked1: ContextQueue
    var arrived: nat
    var wait: bool

    ghost const Repr: set<object>

    ghost predicate Valid() reads this, Repr {
      && Repr == {this, signals, blocked0, blocked0.queue, blocked1, blocked1.queue}
      && blocked0 != blocked1 && blocked0.queue != blocked1.queue
      && signals.Length == N
      && blocked0.Valid() && blocked0.maxlen == N
      && blocked1.Valid() && blocked1.maxlen == N
    }

    function Side(w: bool): ContextQueue {
      if w then blocked1 else blocked0
    }

    /** What the object shares with a state of the machine. */
    ghost predicate Represents(s: B.State)
      requires Valid()
      reads this, Repr
    {
      && s.n == N && s.arrived == arrived && s.wait == wait && s.signals == signals[..]
      && s.blocked.lo.queue == blocked0.Contents() && s.blocked.hi.queue == blocked1.Contents()
    }

    /** `upthread_barrier_init`. */
    constructor (n: nat)
      ensures Valid() && fresh(Repr) && Represents(B.Init(n))
    {
      N := n;
      signals := new bool[n](_ => false);
      var b0 := new ContextQueue(n);
      var b1 := new ContextQueue(n);
      blocked0, blocked1 := b0, b1;
      arrived, wait := 0, false;
      Repr := {this, signals, b0, b0.queue, b1, b1.queue};
    }

    /** Line 64, run for thread t of the machine state s: it does the machine's step, and its result decides
        like the machine who releases. */
    method FetchAndAddArrived(t: Tid, ghost s: B.State) returns (id: nat)
      requires Valid() && Represents(s) && t < |s.ts| && s.ts[t].pc.Arriving?
      modifies this`arrived
      ensures Valid() && Represents(B.Arrive(s, t))
      ensures id == B.Arrive(s, t).ts[t].id
      ensures id == N - 1 <==> B.Arrive(s, t).ts[t].pc.ResetArrived?
    {
      id := arrived;
      arrived := arrived + 1;
    }

    /** Lines 76-78. */
    method SignalAll(sense: bool)
      requires Valid()
      modifies signals
      ensures Valid() && signals[..] == seq(N, _ => !sense)
    {
      var i := 0;
      while i < N
        invariant 0 <= i <= N
        invariant forall k :: 0 <= k < i ==> signals[k] == !sense
      {
        signals[i] := !sense;
        i := i + 1;
      }
    }

    /** Lines 67-88 on the fields. */
    method Open(sense: bool) returns (woken: seq<Tid>)
      requires Valid()
      modifies Repr
      ensures Valid() && woken == old(Side(sense).Contents())
      ensures arrived == 0 && wait == !old(wait) && signals[..] == seq(N, _ => !sense)
      ensures Side(sense).Contents() == [] && Side(!sense).Contents() == old(Side(!sense).Contents())
    {
      arrived := 0;
      wait := !wait;
      SignalAll(sense);
      woken := Side(sense).WakeAll();
    }

    /** Lines 67-88, run by the last arriver t, whose local copy of the flag is `sense`. From the machine state s the
        steps of t alone lead to s', which the object then represents; the threads woken are those in the queue,
        oldest first, and in s' they are back in their spin loops. */
    method Release(sense: bool, t: Tid, ghost s: B.State)
        returns (woken: seq<Tid>, ghost s': B.State)
      requires Valid() && Represents(s) && B.Inv(s) && t < s.n && s.ts[t].pc.ResetArrived?
      requires s.ts[t].sense == sense && s.blocked.At(sense).mtx.None?
      modifies Repr
      ensures Valid() && Represents(s') && Leads(s, t, s') && t < |s'.ts| && s'.ts[t].pc.Outside?
      ensures woken == old(Side(sense).Contents()) && forall u | u in woken :: Spins(s', u)
      ensures arrived == 0 && wait == !old(wait) && signals[..] == seq(N, _ => !sense)
      ensures Side(sense).Contents() == [] && Side(!sense).Contents() == old(Side(!sense).Contents())
    {
      QueueSleeps(s, t);
      s' := ReleaseAlone(s, t, s.blocked.At(sense).queue);
      woken := Open(sense);
    }

    /** The callback, lines 48-53, run for thread t of the machine state s: it does the machine's step. */
    method Block(sense: bool, t: Tid, ghost s: B.State)
      requires Valid() && Represents(s) && Side(sense).len < N
      requires t < |s.ts| && s.ts[t].pc.Enqueueing? && s.ts[t].sense == sense
      modifies Side(sense), Side(sense).queue
      ensures Valid() && Represents(B.Enqueue(s, t))
      ensures B.Enqueue(s, t).overflow == s.overflow
    {
      Side(sense).Append(t);
    }
  }
}
