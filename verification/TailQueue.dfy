/**
 The intrusive singly-linked tail queue (STAILQ of sys/queue.h) that every queue of threads and of futex
 elements in the library is made of. An element carries a single `next` link, so it can be in one queue
 at a time; the frames below say so.
 */
module TailQueue {
  class Link<T(0)> {
    var next: Link?<T>
    var data: T

    constructor (x: T)
      ensures next == null && data == x
    {
      next, data := null, x;
    }
  }

  class TailQ<T(0)> {
    var first: Link?<T>
    var last: Link?<T>
    ghost var elems: seq<Link<T>>

    ghost predicate Valid()
      reads this, elems`next
    {
      && NoDupLinks(elems)
      && first == (if |elems| == 0 then null else elems[0])
      && last == (if |elems| == 0 then null else elems[|elems| - 1])
      && forall i {:trigger elems[i].next} :: 0 <= i < |elems| ==> elems[i].next == Successor(elems, i)
    }

    /** STAILQ_INIT. */
    constructor ()
      ensures Valid() && elems == []
    {
      first, last, elems := null, null, [];
    }

    /** STAILQ_INSERT_TAIL. */
    method InsertTail(x: Link<T>)
      requires Valid() && x !in elems
      modifies this, x`next, elems`next
      ensures Valid() && elems == old(elems) + [x]
    {
      x.next := null;
      if last == null {
        first := x;
      } else {
        last.next := x;
      }
      last := x;
      elems := elems + [x];
    }

    /** STAILQ_REMOVE_HEAD. The removed element keeps its stale link. */
    method RemoveHead()
      requires Valid() && first != null
      modifies this
      ensures Valid() && elems == old(elems)[1..]
    {
      assert first == elems[0];
      ghost var was := elems;
      first := first.next;
      if first == null {
        last := null;
      }
      elems := elems[1..];
      assert forall i :: 0 <= i < |elems| ==> elems[i] == was[i + 1];
    }

    /** The search of STAILQ_REMOVE for the element before x. */
    method Predecessor(x: Link<T>) returns (prev: Link<T>, ghost k: nat)
      requires Valid() && x in elems && first != x
      ensures k + 1 < |elems| && elems[k] == prev && elems[k + 1] == x
    {
      prev, k := first, 0;
      while prev.next != x
        invariant k < |elems| && prev == elems[k]
        invariant forall j :: 0 <= j <= k ==> elems[j] != x
        decreases |elems| - k
      {
        prev := prev.next;
        k := k + 1;
      }
    }

    /** The unlinking of STAILQ_REMOVE. */
    method RemoveAfter(prev: Link<T>, ghost k: nat)
      requires Valid() && k + 1 < |elems| && elems[k] == prev
      modifies this, prev`next
      ensures Valid() && elems == old(elems)[..k + 1] + old(elems)[k + 2..]
    {
      ghost var was := elems;
      assert was[k].next == was[k + 1] && was[k + 1].next == Successor(was, k + 1);
      prev.next := prev.next.next;
      if prev.next == null {
        last := prev;
      }
      elems := was[..k + 1] + was[k + 2..];
      Cut(was, k);
    }

    /** STAILQ_REMOVE. */
    method Remove(x: Link<T>) returns (ghost k: nat)
      requires Valid() && x in elems
      modifies this, elems`next
      ensures Valid() && x !in elems
      ensures k < |old(elems)| && old(elems)[k] == x
      ensures elems == old(elems)[..k] + old(elems)[k + 1..]
    {
      if first == x {
        RemoveHead();
        k := 0;
      } else {
        var prev;
        prev, k := Predecessor(x);
        RemoveAfter(prev, k);
        k := k + 1;
      }
    }
  }

  /** The queue without the element after the k-th. */
  lemma Cut<T(0)>(was: seq<Link<T>>, k: nat)
    requires NoDupLinks(was) && k + 1 < |was|
    ensures var s := was[..k + 1] + was[k + 2..];
      && |s| == |was| - 1 && NoDupLinks(s)
      && (forall j :: 0 <= j < |s| ==> s[j] == if j <= k then was[j] else was[j + 1])
      && (forall j :: 0 <= j < |s| && j != k ==> s[j] != was[k])
      && (forall j :: 0 <= j < |s| ==> Successor(s, j) == Successor(was, if j < k then j else j + 1))
  {
  }

  /** A queue that a method does not touch stays valid. */
  twostate lemma StaysValid<T(0)>(q: TailQ<T>)
    requires old(q.Valid())
    requires q.first == old(q.first) && q.last == old(q.last) && q.elems == old(q.elems)
    requires forall i :: 0 <= i < |q.elems| ==> q.elems[i].next == old(q.elems[i].next)
    ensures q.Valid()
  {
  }

  ghost function Successor<T(0)>(s: seq<Link<T>>, i: int): Link?<T> {
    if 0 <= i < |s| - 1 then s[i + 1] else null
  }

  /** No element is in both. */
  ghost predicate Apart<T(0)>(a: seq<Link<T>>, b: seq<Link<T>>) {
    forall x | x in a :: x !in b
  }

  ghost predicate NoDupLinks<T(0)>(s: seq<Link<T>>) {
    forall i, j :: 0 <= i < j < |s| ==> s[i] != s[j]
  }
}
