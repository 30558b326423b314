/** Waking threads from a futex list, src/common/futex.c:90-145, on the linked list itself. */
module Futex {
  import opened TailQueue

  type Tid = nat
  const INT_MAX: int := 0x7fff_ffff

  ghost function Threads(s: seq<Link<Tid>>): seq<Tid>
    reads s
  {
    seq(|s|, i requires 0 <= i < |s| reads s => s[i].data)
  }

  lemma ThreadsSlice(s: seq<Link<Tid>>, k: nat)
    requires k <= |s|
    ensures Threads(s[..k]) == Threads(s)[..k] && Threads(s[k..]) == Threads(s)[k..]
  {
  }

  /** The threads woken from a list of these waiters, oldest first, by a call with this count. */
  function Woken(waiters: seq<Tid>, count: int): seq<Tid> {
    if count <= 0 then [] else if count < |waiters| then waiters[..count] else waiters
  }

  function Left(waiters: seq<Tid>, count: int): seq<Tid> {
    waiters[|Woken(waiters, count)|..]
  }

  /** `uthread_runnable` on the owner of a stack-allocated element: from then on the owner runs and the
      memory of the element holds anything. */
  method MakeRunnable(e: Link<Tid>) returns (t: Tid)
    modifies e
    ensures t == old(e.data)
  {
    t := e.data;
    e.next := *;
    e.data := *;
  }

  class FutexList {
    const tailq: TailQ<Tid>

    ghost predicate Valid() reads this, tailq, tailq.elems {
      tailq.Valid()
    }

    ghost function Waiters(): seq<Tid> reads this, tailq, tailq.elems {
      Threads(tailq.elems)
    }

    constructor ()
      ensures Valid() && Waiters() == [] && fresh(tailq)
    {
      tailq := new TailQ<Tid>();
    }

    /** Line 69 of the blocking callback. */
    method Insert(e: Link<Tid>)
      requires Valid() && e !in tailq.elems
      modifies tailq, e`next, tailq.elems`next
      ensures Valid() && tailq.elems == old(tailq.elems) + [e]
      ensures Waiters() == old(Waiters()) + [e.data]
    {
      tailq.InsertTail(e);
    }

    /** `futex_wake_one`. */
    method WakeOne() returns (num: int, woken: seq<Tid>)
      requires Valid()
      modifies tailq, tailq.elems
      ensures Valid() && woken == Woken(old(Waiters()), 1) && num == |woken|
      ensures Waiters() == Left(old(Waiters()), 1)
    {
      var e := tailq.first;
      if e != null {
        tailq.RemoveHead();
      }
      if e != null {
        var t := MakeRunnable(e);
        return 1, [t];
      }
      return 0, [];
    }

    /** `unblock_futex_queue`: reads the link of an element before waking its owner, never after. */
    static method UnblockQueue(q: TailQ<Tid>) returns (num: int, woken: seq<Tid>)
      requires q.Valid()
      modifies q.elems
      ensures woken == old(Threads(q.elems)) && num == |woken|
    {
      var e := q.first;
      num, woken := 0, [];
      while e != null
        invariant 0 <= num <= |q.elems|
        invariant e == if num < |q.elems| then q.elems[num] else null
        invariant forall j :: num <= j < |q.elems| ==>
          q.elems[j].next == Successor(q.elems, j) && q.elems[j].data == old(q.elems[j].data)
        invariant woken == old(Threads(q.elems))[..num]
        decreases |q.elems| - num
      {
        var n := e.next;
        var t := MakeRunnable(e);
        woken := woken + [t];
        e := n;
        num := num + 1;
      }
    }

    /** Lines 139-140: the oldest element moves to the local queue. */
    method MoveHead(q: TailQ<Tid>)
      requires Valid() && q.Valid() && q != tailq && tailq.first != null
      requires forall x :: x in q.elems ==> x !in tailq.elems
      modifies tailq, q, tailq.elems`next, q.elems`next
      ensures Valid() && q.Valid()
      ensures |old(tailq.elems)| > 0 && tailq.elems == old(tailq.elems)[1..]
      ensures q.elems == old(q.elems) + [old(tailq.elems)[0]]
    {
      var e := tailq.first;
      ghost var all := tailq.elems;
      assert e == all[0] && e !in all[1..];
      tailq.RemoveHead();
      assert forall i :: 0 <= i < |tailq.elems| ==>
          tailq.elems[i] == all[i + 1] && tailq.elems[i] !in q.elems && tailq.elems[i] != e;
      q.InsertTail(e);
      assert forall i :: 0 <= i < |tailq.elems| ==> tailq.elems[i].next == Successor(tailq.elems, i);
    }

    /** The loop of `futex_wake_some`, run under the list lock. */
    method TakeSome(count: int) returns (q: TailQ<Tid>)
      requires Valid()
      modifies tailq, tailq.elems`next
      ensures Valid() && fresh(q) && q.Valid()
      ensures |q.elems| == |Woken(old(Waiters()), count)| <= |old(tailq.elems)|
      ensures q.elems == old(tailq.elems)[..|q.elems|] && tailq.elems == old(tailq.elems)[|q.elems|..]
    {
      q := new TailQ<Tid>();
      ghost var all := tailq.elems;
      ghost var k := 0;
      var c := count;
      while true
        invariant Valid() && q.Valid()
        invariant 0 <= k <= |all| && q.elems == all[..k] && tailq.elems == all[k..]
        invariant if count <= 0 then c == count && k == 0 else c == count - k >= 0
        decreases c
      {
        if c <= 0 { break; }
        c := c - 1;
        if tailq.first == null { break; }
        MoveHead(q);
        k := k + 1;
      }
    }

    method TakeThreads(count: int) returns (q: TailQ<Tid>)
      requires Valid()
      modifies tailq, tailq.elems`next
      ensures Valid() && fresh(q) && q.Valid()
      ensures Threads(q.elems) == Woken(old(Waiters()), count) && Waiters() == Left(old(Waiters()), count)
      ensures forall i, j :: 0 <= i < |tailq.elems| && 0 <= j < |q.elems| ==> tailq.elems[i] != q.elems[j]
      ensures forall j :: 0 <= j < |q.elems| ==> q.elems[j] in old(tailq.elems)
    {
      ghost var all := tailq.elems;
      q := TakeSome(count);
      assert Threads(all) == old(Waiters());
      ThreadsSlice(all, |q.elems|);
    }

    /** `futex_wake_some`. */
    method WakeSome(count: int) returns (num: int, woken: seq<Tid>)
      requires Valid()
      modifies tailq, tailq.elems
      ensures Valid() && woken == Woken(old(Waiters()), count) && num == |woken|
      ensures Waiters() == Left(old(Waiters()), count)
    {
      var q := TakeThreads(count);
      ghost var left := Waiters();
      num, woken := UnblockQueue(q);
      assert Waiters() == left;
    }

    /** `futex_wake_all`: the whole queue is copied and the list emptied before anybody is woken. */
    method WakeAll() returns (num: int, woken: seq<Tid>)
      requires Valid()
      modifies tailq, tailq.elems
      ensures Valid() && woken == old(Waiters()) && num == |woken| && Waiters() == []
    {
      var q := new TailQ<Tid>();
      q.first, q.last, q.elems := tailq.first, tailq.last, tailq.elems;
      tailq.first, tailq.last, tailq.elems := null, null, [];
      num, woken := UnblockQueue(q);
    }
  }

  /** Waking with the counts 1 and INT_MAX agrees with the two specialised calls (futex.h:27-32). */
  lemma SpecialCounts(waiters: seq<Tid>)
    requires |waiters| <= INT_MAX
    ensures Woken(waiters, INT_MAX) == waiters && Left(waiters, INT_MAX) == []
    ensures Woken(waiters, 1) == (if waiters == [] then [] else [waiters[0]])
    ensures Left(waiters, 1) == (if waiters == [] then [] else waiters[1..])
  {
  }

  /** Two wakes in a row wake what one wake with the sum of the counts does. */
  lemma WakesAddUp(waiters: seq<Tid>, c: int, d: int)
    requires c >= 0 && d >= 0
    ensures Woken(waiters, c) + Woken(Left(waiters, c), d) == Woken(waiters, c + d)
    ensures Left(Left(waiters, c), d) == Left(waiters, c + d)
  {
  }
}
