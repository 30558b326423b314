/**
 The bodies of the scheduler in src/pvcq/upthread.c, run without interference: run queues updated in place,
 with the steal loop and the scan loop. The interleaved accesses are in module Pvcq.
 */
module PvcqObject {
  import opened Pvcq
  import opened ThreadState
  import Placement

  class Tcb {
    var state: UState
    var preferredVcq: nat

    constructor ()
      ensures state == Created && preferredVcq == 0
    {
      state, preferredVcq := Created, 0;
    }
  }

  /** The part of `vc_mgmt` that belongs to one vcore. */
  class VcoreMgmt {
    var tqueue: seq<Tcb>
    var tqsize: int

    constructor ()
      ensures tqueue == [] && tqsize == 0
    {
      tqueue, tqsize := [], 0;
    }
  }

  // ---- What the methods compute ----

  /** ceil(n / 2) */
  function Half(n: nat): nat { (n + 1) / 2 }

  /** What a steal from a queue hands to the thief besides the head, and what it leaves behind. */
  function Stolen<T>(q: seq<T>): seq<T>
    requires q != []
  {
    q[1..Half(|q|)]
  }

  function Left<T>(q: seq<T>): seq<T>
    requires q != []
  {
    q[Half(|q|)..]
  }

  /** All queues after thread `me` has stolen from queue j. */
  function AfterSteal<T>(qs: seq<seq<T>>, me: nat, j: nat): seq<seq<T>>
    requires me < |qs| && j < |qs| && qs[j] != []
  {
    var qs1 := qs[j := Left(qs[j])];
    qs1[me := qs1[me] + Stolen(qs[j])]
  }

  /** All queues when the steal loop (213) has moved q[1..i], q being the victim's old queue. */
  function Moving<T>(qs: seq<seq<T>>, me: nat, j: nat, i: nat): seq<seq<T>>
    requires me < |qs| && j < |qs| && 1 <= i <= |qs[j]|
  {
    var qs1 := qs[j := qs[j][i..]];
    qs1[me := qs1[me] + qs[j][1..i]]
  }

  lemma MoveHalf<T>(qs: seq<seq<T>>, me: nat, j: nat)
    requires me < |qs| && j < |qs| && 1 <= |qs[j]|
    ensures Moving(qs, me, j, Half(|qs[j]|)) == AfterSteal(qs, me, j)
  {
  }

  lemma MoveNone<T>(qs: seq<seq<T>>, me: nat, j: nat)
    requires me < |qs| && j < |qs| && 1 <= |qs[j]|
    ensures Moving(qs, me, j, 1) == qs[j := qs[j][1..]]
  {
    var qs1 := qs[j := qs[j][1..]];
    assert qs[j][1..1] == [] && qs1[me] + [] == qs1[me];
  }

  /** One round of the loop: the victim's head goes to the end of the thief's queue. */
  lemma MoveOne<T>(qs: seq<seq<T>>, me: nat, j: nat, i: nat)
    requires me < |qs| && j < |qs| && 1 <= i < |qs[j]|
    ensures var x := Moving(qs, me, j, i);
      && x[j] != [] && x[j][0] == qs[j][i]
      && (var y := x[j := x[j][1..]]; y[me := y[me] + [qs[j][i]]]) == Moving(qs, me, j, i + 1)
  {
    var x, q := Moving(qs, me, j, i), qs[j];
    assert q[i..][1..] == q[i + 1..] && q[1..i] + [q[i]] == q[1..i + 1];
    if me == j {
      assert x[j][1..] == q[i + 1..] + q[1..i];
      assert (q[i + 1..] + q[1..i]) + [q[i]] == q[i + 1..] + (q[1..i] + [q[i]]);
    } else {
      assert (qs[me] + q[1..i]) + [q[i]] == qs[me] + (q[1..i] + [q[i]]);
    }
  }

  /** A steal loses nobody and duplicates nobody, from another vcore or from the own queue. */
  lemma StealIsPermutation<T>(qs: seq<seq<T>>, me: nat, j: nat)
    requires me < |qs| && j < |qs| && qs[j] != []
    ensures me != j ==> AfterSteal(qs, me, j)[me] == qs[me] + Stolen(qs[j]) && AfterSteal(qs, me, j)[j] == Left(qs[j])
    ensures me != j ==>
              multiset(AfterSteal(qs, me, j)[me]) + multiset(AfterSteal(qs, me, j)[j])
              == multiset(qs[me]) + multiset(qs[j]) - multiset{qs[j][0]}
    ensures me == j ==> multiset(AfterSteal(qs, me, j)[j]) == multiset(qs[j]) - multiset{qs[j][0]}
  {
    var q := qs[j];
    assert q == [q[0]] + (Stolen(q) + Left(q));
    assert multiset(q) == multiset{q[0]} + multiset(Stolen(q)) + multiset(Left(q));
  }

  /** The queue that the two random choices settle on (226-232). */
  function BetterOf(me: nat, size0: int, size1: int, c0: nat, c1: nat): nat {
    if size0 > size1 then (if me != c0 then c0 else c1) else if me != c1 then c1 else c0
  }

  /** It is one of the two, never the own queue unless both choices are, and the larger of two foreign queues, the
      second if they are equal. */
  lemma BetterOfTwo(me: nat, size0: int, size1: int, c0: nat, c1: nat)
    ensures var b := BetterOf(me, size0, size1, c0, c1);
      && (b == c0 || b == c1)
      && (b == me <==> c0 == me && c1 == me)
      && (c0 != me && c1 != me ==> b == if size0 > size1 then c0 else c1)
  {
  }

  function Following(max: nat, i: nat): (j: nat)
    requires i < max
    ensures j < max
  {
    (i + 1) % max
  }

  /** The first queue with a thread on the way from i round to me. */
  function FirstFull<T>(qs: seq<seq<T>>, me: nat, i: nat): (j: nat)
    requires me < |qs| && i < |qs|
    ensures j < |qs|
    ensures j == me ==>
              forall x: nat | x < |qs| && Distance(|qs|, me, i) <= Distance(|qs|, me, x) && x != me :: qs[x] == []
    ensures j != me ==> qs[j] != [] && Distance(|qs|, me, i) <= Distance(|qs|, me, j)
    ensures j != me ==>
              forall x: nat | x < |qs| && Distance(|qs|, me, i) <= Distance(|qs|, me, x) < Distance(|qs|, me, j) ::
                qs[x] == []
    decreases Distance(|qs|, me, me) - Distance(|qs|, me, i)
  {
    Turn(qs, me, i);
    if i == me then me else if qs[i] != [] then i else FirstFull(qs, me, Following(|qs|, i))
  }

  /** The queue that a dequeue on `me` steals from when its own queue is empty; me if there is none. */
  function Victim<T>(qs: seq<seq<T>>, me: nat, c0: nat, c1: nat): (j: nat)
    requires me < |qs| && c0 < |qs| && c1 < |qs|
    ensures j < |qs|
  {
    var b := BetterOf(me, |qs[c0]|, |qs[c1]|, c0, c1);
    if qs[b] != [] then b else FirstFull(qs, me, Following(|qs|, me))
  }

  /** No queue is overlooked: the victim is empty only if every queue is. */
  lemma VictimIsEmptyLast<T>(qs: seq<seq<T>>, me: nat, c0: nat, c1: nat)
    requires me < |qs| && c0 < |qs| && c1 < |qs| && qs[me] == []
    ensures qs[Victim(qs, me, c0, c1)] == [] <==> forall x: nat | x < |qs| :: qs[x] == []
    ensures qs[Victim(qs, me, c0, c1)] != [] ==> Victim(qs, me, c0, c1) != me
  {
    NextDistance(|qs|, me, me);
    forall x: nat | x < |qs| ensures 0 <= Distance(|qs|, me, x) { NextDistance(|qs|, me, x); }
  }

  lemma Turn<T>(qs: seq<seq<T>>, me: nat, i: nat)
    requires me < |qs| && i < |qs|
    ensures i != me ==> Distance(|qs|, me, Following(|qs|, i)) == Distance(|qs|, me, i) + 1
    ensures Following(|qs|, i) < |qs|
    ensures Distance(|qs|, me, i) <= Distance(|qs|, me, me)
    ensures forall x: nat | x < |qs| && Distance(|qs|, me, x) == Distance(|qs|, me, i) :: x == i
  {
    NextDistance(|qs|, me, i);
  }

  class Scheduler {
    const vcMgmt: seq<VcoreMgmt>
    var nrVcores: int
    var nextQueueId: nat
    var canSteal: bool

    /** The scheduler's part of `upthread_lib_init` (417-426). */
    constructor (max: nat)
      requires 0 < max
      ensures Valid() && Placing() && fresh(vcMgmt) && |vcMgmt| == max == nrVcores && canSteal
      ensures forall i | 0 <= i < max :: Queues()[i] == []
      ensures nextQueueId == if max > 1 then 1 else 0
    {
      var vcs: seq<VcoreMgmt> := [];
      for i := 0 to max
        invariant |vcs| == i && fresh(vcs)
        invariant forall k | 0 <= k < i :: vcs[k].tqueue == [] && vcs[k].tqsize == 0
        invariant forall j, k | 0 <= j < k < i :: vcs[j] != vcs[k]
      {
        var vc := new VcoreMgmt();
        vcs := vcs + [vc];
      }
      vcMgmt, nrVcores, canSteal := vcs, max, true;
      nextQueueId := if max > 1 then 1 else 0;
    }

    /** `upthread_set_num_vcores` (383-387). With a number below 1 no thread can be placed afterwards. */
    method SetNumVcores(num: int)
      requires Valid()
      modifies this`nrVcores, this`nextQueueId
      ensures Valid() && nrVcores <= num && nrVcores <= |vcMgmt| && (nrVcores == num || nrVcores == |vcMgmt|)
      ensures nextQueueId == if nrVcores > 1 then 1 else 0
      ensures Placing() <==> num >= 1 && |vcMgmt| >= 1
    {
      nrVcores := if num < |vcMgmt| then num else |vcMgmt|;
      nextQueueId := if nrVcores > 1 then 1 else 0;
    }

    /** New threads can be placed. */
    ghost predicate Placing()
      reads this
    {
      nextQueueId < nrVcores
    }

    ghost predicate Valid()
      reads this, vcMgmt
    {
      && (forall i, j | 0 <= i < j < |vcMgmt| :: vcMgmt[i] != vcMgmt[j])
      && (forall i | 0 <= i < |vcMgmt| :: vcMgmt[i].tqsize == |vcMgmt[i].tqueue|)
      && nrVcores <= |vcMgmt|
    }

    /** The contents of all run queues. */
    ghost function Queues(): (qs: seq<seq<Tcb>>)
      reads vcMgmt
      ensures |qs| == |vcMgmt| && forall i | 0 <= i < |qs| :: qs[i] == vcMgmt[i].tqueue
    {
      seq(|vcMgmt|, i requires 0 <= i < |vcMgmt| reads vcMgmt => vcMgmt[i].tqueue)
    }

    /** `pth_thread_runnable` (288-311): a thread back from a system call goes to the head of its queue, any other
        to the end; with a state that is not known nothing happens. */
    method ThreadRunnable(u: Tcb) returns (odd: bool)
      requires Valid() && (if u.state.Created? then Placing() else u.preferredVcq < |vcMgmt|)
      modifies this`nextQueueId, vcMgmt, u
      ensures Valid() && odd == !IsAccepted(old(u.state))
      ensures odd ==> Queues() == old(Queues()) && u.state == old(u.state)
      ensures !odd ==>
                var j := if old(u.state).Created? then old(nextQueueId) else old(u.preferredVcq);
                && u.state == Runnable && u.preferredVcq == j
                && Queues() == old(Queues())[j :=
                     if old(u.state).Sysc? then [u] + old(Queues())[j] else old(Queues())[j] + [u]]
    {
      odd := false;
      var state := u.state;
      if state.Sysc? {
        var _ := Enqueue(u, true);
      } else if state.Created? || state.Yielding? || state.Joining? || state.Paused? || state.BlockedMutex? {
        var _ := Enqueue(u, false);
      } else {
        odd := true;
      }
    }

    ghost function Head(i: nat): set<Tcb>
      requires i < |vcMgmt|
      reads vcMgmt[i]
    {
      if vcMgmt[i].tqueue == [] then {} else {vcMgmt[i].tqueue[0]}
    }

    /** The local function `tdequeue` (178-192), called on vcore `me`. */
    method TDequeue(me: nat, vcoreid: nat) returns (u: Tcb?)
      requires Valid() && me < |vcMgmt| && vcoreid < |vcMgmt|
      modifies vcMgmt[vcoreid], Head(vcoreid)`preferredVcq
      ensures Valid()
      ensures u == null <==> old(Queues())[vcoreid] == []
      ensures u == null ==> Queues() == old(Queues())
      ensures u != null ==>
                && u == old(Queues())[vcoreid][0] && u.preferredVcq == me
                && Queues() == old(Queues())[vcoreid := old(Queues())[vcoreid][1..]]
    {
      var vc := vcMgmt[vcoreid];
      u := null;
      if vc.tqsize != 0 {
        if vc.tqueue != [] {
          u := vc.tqueue[0];
          vc.tqueue := vc.tqueue[1..];
          vc.tqsize := vc.tqsize - 1;
        }
      }
      if u != null {
        u.preferredVcq := me;
      }
    }

    /** `get_next_queue_id_basic` (105-113) when no other placement comes between. */
    method GetNextQueueId() returns (id: nat)
      requires Placing()
      modifies this`nextQueueId
      ensures id == old(nextQueueId) && nextQueueId == Placement.Next(id, nrVcores) && Placing()
    {
      id := nextQueueId;
      nextQueueId := if id + 1 == nrVcores then 0 else id + 1;
    }

    /** `__pth_thread_enqueue` (156-174). `get_next_queue_id_basic` meets no other placement here. */
    method Enqueue(u: Tcb, athead: bool) returns (vcoreid: nat)
      requires Valid() && (if u.state.Created? then Placing() else u.preferredVcq < |vcMgmt|)
      modifies this`nextQueueId, vcMgmt, u
      ensures Valid() && (old(Placing()) ==> Placing()) && u.state == Runnable && u.preferredVcq == vcoreid < |vcMgmt|
      ensures vcoreid == if old(u.state).Created? then old(nextQueueId) else old(u.preferredVcq)
      ensures nextQueueId ==
                if old(u.state).Created? then Placement.Next(old(nextQueueId), nrVcores) else old(nextQueueId)
      ensures Queues() == old(Queues())[vcoreid :=
                if athead then [u] + old(Queues())[vcoreid] else old(Queues())[vcoreid] + [u]]
    {
      var state := u.state;
      u.state := Runnable;
      if state.Created? {
        u.preferredVcq := GetNextQueueId();
      }
      vcoreid := u.preferredVcq;
      var vc := vcMgmt[vcoreid];
      if athead {
        vc.tqueue := [u] + vc.tqueue;
      } else {
        vc.tqueue := vc.tqueue + [u];
      }
      vc.tqsize := vc.tqsize + 1;
    }

    /** The first i threads of q have been taken by the thief. */
    ghost predicate Progress(q: seq<Tcb>, me: nat, i: int)
      reads q
    {
      forall k | 0 <= k < |q| :: q[k].state == Runnable && (k < i ==> q[k].preferredVcq == me)
    }

    /** All queues when the steal loop is about to take the i-th thread of the victim's old queue; qs are the queues
        before the steal. */
    ghost predicate Stealing(qs: seq<seq<Tcb>>, me: nat, j: nat, i: int)
      requires me < |vcMgmt| == |qs| && j < |vcMgmt| && 1 <= i <= |qs[j]|
      reads this, vcMgmt, qs[j]
    {
      Valid() && Queues() == Moving(qs, me, j, i) && Progress(qs[j], me, i)
    }

    /** One round of the steal loop (214-215). */
    method MoveHead(me: nat, vcoreid: nat, ghost qs: seq<seq<Tcb>>, ghost i: nat) returns (u: Tcb?)
      requires me < |vcMgmt| == |qs| && vcoreid < |vcMgmt| && 1 <= i < |qs[vcoreid]|
      requires Stealing(qs, me, vcoreid, i)
      modifies this`nextQueueId, vcMgmt, qs[vcoreid]
      ensures Stealing(qs, me, vcoreid, i + 1) && nextQueueId == old(nextQueueId) && u == qs[vcoreid][i]
    {
      MoveOne(qs, me, vcoreid, i);
      u := TDequeue(me, vcoreid);
      assert u == qs[vcoreid][i] && u.state == Runnable;
      if u != null {
        var _ := Enqueue(u, false);
      }
    }

    /** The steal loop (213-217); the head of the victim's old queue has been taken already. */
    method StealRest(me: nat, vcoreid: nat, numToSteal: int, ghost qs: seq<seq<Tcb>>)
      requires me < |vcMgmt| == |qs| && vcoreid < |vcMgmt| && 1 <= numToSteal <= |qs[vcoreid]|
      requires Stealing(qs, me, vcoreid, 1)
      modifies this`nextQueueId, vcMgmt, qs[vcoreid]
      ensures Stealing(qs, me, vcoreid, numToSteal) && nextQueueId == old(nextQueueId)
    {
      var i := 1;
      while i < numToSteal
        invariant 1 <= i <= numToSteal && Stealing(qs, me, vcoreid, i) && nextQueueId == old(nextQueueId)
      {
        var u := MoveHead(me, vcoreid, qs, i);
        if u == null { break; }
        i := i + 1;
      }
    }

    /** Line 211. */
    method TakeFirst(me: nat, vcoreid: nat) returns (u: Tcb?)
      requires Valid() && me < |vcMgmt| && vcoreid < |vcMgmt| && Progress(vcMgmt[vcoreid].tqueue, me, 0)
      modifies vcMgmt[vcoreid], Head(vcoreid)`preferredVcq
      ensures Valid()
      ensures var q := old(Queues())[vcoreid];
        if q == [] then u == null && Queues() == old(Queues())
        else u == q[0] && Stealing(old(Queues()), me, vcoreid, 1)
    {
      ghost var qs := Queues();
      u := TDequeue(me, vcoreid);
      if u != null { MoveNone(qs, me, vcoreid); }
    }

    /** What a steal from queue j of qs results in. */
    ghost predicate StoleFrom(qs: seq<seq<Tcb>>, me: nat, j: nat, u: Tcb?)
      requires me < |qs| && j < |qs|
      reads vcMgmt, u
    {
      if qs[j] == [] then u == null && Queues() == qs
      else
        && u != null && u == qs[j][0] && u.preferredVcq == me && u.state == Runnable
        && Queues() == AfterSteal(qs, me, j)
    }

    /** The local function `steal_threads` (206-221), called on vcore `me`: it returns the head of the victim's
        queue, appends the next ceil(n / 2) - 1 threads in order to the own queue, and leaves the rest. */
    method StealThreads(me: nat, vcoreid: nat) returns (u: Tcb?)
      requires Valid() && me < |vcMgmt| && vcoreid < |vcMgmt|
      requires Progress(vcMgmt[vcoreid].tqueue, me, 0)
      modifies this`nextQueueId, vcMgmt, vcMgmt[vcoreid].tqueue
      ensures Valid() && nextQueueId == old(nextQueueId)
      ensures StoleFrom(old(Queues()), me, vcoreid, u)
      ensures u != null ==> Progress(old(Queues())[vcoreid], me, Half(|old(Queues())[vcoreid]|))
    {
      u := null;
      ghost var qs := Queues();
      var numToSteal := (vcMgmt[vcoreid].tqsize + 1) / 2;
      if numToSteal != 0 {
        u := TakeFirst(me, vcoreid);
        if u != null {
          StealRest(me, vcoreid, numToSteal, qs);
          MoveHalf(qs, me, vcoreid);
        }
      }
    }

    /** All queued threads are among `tcbs`, and runnable. */
    ghost predicate Ready(tcbs: set<Tcb>)
      reads vcMgmt, tcbs
    {
      && (forall i | 0 <= i < |vcMgmt| :: forall x | x in vcMgmt[i].tqueue :: x in tcbs)
      && (forall x | x in tcbs :: x.state == Runnable)
    }

    /** Lines 223-232; c0 and c1 are the random choices. */
    method StealFromBetter(me: nat, c0: nat, c1: nat, ghost tcbs: set<Tcb>) returns (u: Tcb?)
      requires Valid() && Ready(tcbs) && me < |vcMgmt| && c0 < |vcMgmt| && c1 < |vcMgmt|
      modifies this`nextQueueId, vcMgmt, tcbs
      ensures Valid() && Ready(tcbs)
      ensures var j := BetterOf(me, |old(Queues())[c0]|, |old(Queues())[c1]|, c0, c1);
        StoleFrom(old(Queues()), me, j, u)
    {
      var size0, size1 := vcMgmt[c0].tqsize, vcMgmt[c1].tqsize;
      u := Steal(me, BetterOf(me, size0, size1, c0, c1), tcbs);
    }

    method Steal(me: nat, j: nat, ghost tcbs: set<Tcb>) returns (u: Tcb?)
      requires Valid() && Ready(tcbs) && me < |vcMgmt| && j < |vcMgmt|
      modifies this`nextQueueId, vcMgmt, tcbs
      ensures Valid() && Ready(tcbs) && StoleFrom(old(Queues()), me, j, u)
    {
      ghost var qs := Queues();
      u := StealThreads(me, j);
      if u != null { StealKeeps(qs, me, j, tcbs); }
    }

    /** The final loop (237-242). */
    method Scan(me: nat, ghost tcbs: set<Tcb>) returns (u: Tcb?)
      requires Valid() && Ready(tcbs) && me < |vcMgmt| && vcMgmt[me].tqueue == []
      modifies this`nextQueueId, vcMgmt, tcbs
      ensures Valid() && Ready(tcbs)
      ensures StoleFrom(old(Queues()), me, FirstFull(old(Queues()), me, Following(|vcMgmt|, me)), u)
    {
      ghost var qs := Queues();
      u := null;
      var i: nat := (me + 1) % |vcMgmt|;
      while i != me
        invariant i < |vcMgmt| && u == null && Queues() == qs && Valid() && Ready(tcbs)
        invariant FirstFull(qs, me, Following(|vcMgmt|, me)) == FirstFull(qs, me, i)
        decreases |vcMgmt| - 1 - Distance(|vcMgmt|, me, i)
      {
        NextDistance(|vcMgmt|, me, i);
        u := Steal(me, i, tcbs);
        if u != null { break; }
        i := (i + 1) % |vcMgmt|;
      }
    }

    /** Lines 223-243. */
    method StealFromOthers(me: nat, c0: nat, c1: nat, ghost tcbs: set<Tcb>) returns (u: Tcb?)
      requires Valid() && Ready(tcbs) && me < |vcMgmt| && c0 < |vcMgmt| && c1 < |vcMgmt| && vcMgmt[me].tqueue == []
      modifies this`nextQueueId, vcMgmt, tcbs
      ensures Valid() && Ready(tcbs)
      ensures u == null <==> forall i: nat | i < |vcMgmt| :: old(Queues())[i] == []
      ensures StoleFrom(old(Queues()), me, Victim(old(Queues()), me, c0, c1), u)
    {
      VictimIsEmptyLast(Queues(), me, c0, c1);
      u := StealFromBetter(me, c0, c1, tcbs);
      if u == null {
        u := Scan(me, tcbs);
      }
    }

    /** `__pth_thread_dequeue` (176-246) on vcore `me`, whose random choices are c0 and c1. It returns NULL, with
        stealing on, exactly if every queue is empty. */
    method Dequeue(me: nat, c0: nat, c1: nat, ghost tcbs: set<Tcb>) returns (u: Tcb?)
      requires Valid() && Ready(tcbs) && me < |vcMgmt| && c0 < |vcMgmt| && c1 < |vcMgmt|
      modifies this`nextQueueId, vcMgmt, tcbs
      ensures Valid() && Ready(tcbs)
      ensures u != null ==> u.preferredVcq == me && u.state == Runnable
      ensures u == null ==> Queues() == old(Queues())
      ensures old(Queues())[me] != [] ==>
                u != null && u == old(Queues())[me][0] && Queues() == old(Queues())[me := old(Queues())[me][1..]]
      ensures old(Queues())[me] == [] && !canSteal ==> u == null
      ensures old(Queues())[me] == [] && canSteal ==>
                && (u == null <==> forall i: nat | i < |vcMgmt| :: old(Queues())[i] == [])
                && StoleFrom(old(Queues()), me, Victim(old(Queues()), me, c0, c1), u)
    {
      u := TDequeue(me, me);
      if canSteal && u == null {
        u := StealFromOthers(me, c0, c1, tcbs);
      }
    }
  }

  /** A steal brings no strangers into the queues. */
  lemma StealKeeps<T>(qs: seq<seq<T>>, me: nat, j: nat, all: set<T>)
    requires me < |qs| && j < |qs| && qs[j] != []
    requires forall i | 0 <= i < |qs| :: forall x | x in qs[i] :: x in all
    ensures var qs' := AfterSteal(qs, me, j);
      forall i | 0 <= i < |qs'| :: forall x | x in qs'[i] :: x in all
  {
  }
}
