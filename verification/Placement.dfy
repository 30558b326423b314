/**
 Round-robin placement of new threads: `get_next_queue_id_basic` (src/pvcq/upthread.c:105-113) as a small-step
 machine of any number of callers, and what its compare-and-swap loop hands out.
 */
module Placement {

  /** A caller is outside, about to read `next_queue_id`, or about to swap the `id` it read; `since` is history,
      the number of placements made before that read. */
  datatype Caller = Outside | Reading | Swapping(id: nat, since: nat)

  /** `next` is next_queue_id, `nr` is nr_vcores; `placed` lists, as history, the ids returned so far. */
  datatype State = State(next: nat, nr: nat, cs: seq<Caller>, placed: seq<nat>)

  /** As `upthread_set_num_vcores` leaves it (383-387). */
  function Start(nr: nat): nat { if nr > 1 then 1 else 0 }

  function Init(nr: nat, callers: nat): State {
    State(Start(nr), nr, seq(callers, _ => Outside), [])
  }

  /** The id after this one. */
  function Next(id: nat, nr: int): nat { if id + 1 == nr then 0 else id + 1 }

  function Step(s: State, c: nat): State
    requires c < |s.cs|
  {
    match s.cs[c]
    case Outside => s.(cs := s.cs[c := Reading])
    case Reading => s.(cs := s.cs[c := Swapping(s.next, |s.placed|)])
    case Swapping(id, _) =>
      if s.next == id then s.(next := Next(id, s.nr), cs := s.cs[c := Outside], placed := s.placed + [id])
      else s.(cs := s.cs[c := Reading])
  }

  ghost predicate Run(run: seq<State>, nr: nat, callers: nat) {
    && 0 < nr && |run| > 0 && run[0] == Init(nr, callers)
    && forall k :: 0 <= k < |run| - 1 ==> exists c: nat :: c < |run[k].cs| && run[k + 1] == Step(run[k], c)
  }

  /** The k-th place of the round. */
  function Place(nr: nat, k: nat): nat
    requires 0 < nr
  {
    (Start(nr) + k) % nr
  }

  ghost predicate Inv(s: State) {
    && 0 < s.nr
    && s.next == Place(s.nr, |s.placed|)
    && (forall k | 0 <= k < |s.placed| :: s.placed[k] == Place(s.nr, k))
    && (forall c | 0 <= c < |s.cs| :: s.cs[c].Swapping? ==>
          s.cs[c].since <= |s.placed| && s.cs[c].id == Place(s.nr, s.cs[c].since))
  }

  lemma {:induction false} Remainder(nr: nat, q: nat, r: nat)
    requires r < nr
    ensures (nr * q + r) % nr == r && (nr * q + r) / nr == q
  {
    var x := nr * q + r;
    var d := x / nr - q;
    assert x == nr * (x / nr) + x % nr;
    assert nr * d == r - x % nr;
  }

  lemma Successor(nr: nat, k: nat)
    requires 0 < nr
    ensures k % nr + 1 == nr ==> (k + 1) / nr == k / nr + 1 && (k + 1) % nr == 0
    ensures k % nr + 1 != nr ==> (k + 1) / nr == k / nr && (k + 1) % nr == k % nr + 1
  {
    var q, r := k / nr, k % nr;
    assert k == nr * q + r;
    if r + 1 == nr {
      assert nr * (q + 1) == nr * q + nr;
      Remainder(nr, q + 1, 0);
    } else {
      Remainder(nr, q, r + 1);
    }
  }

  /** The comparison with nr_vcores is the remainder. */
  lemma NextPlace(nr: nat, k: nat)
    requires 0 < nr
    ensures Place(nr, k) < nr && Next(Place(nr, k), nr) == Place(nr, k + 1)
  {
    var x := Start(nr) + k;
    Successor(nr, x);
  }

  lemma InvStep(s: State, c: nat)
    requires Inv(s) && c < |s.cs|
    ensures Inv(Step(s, c)) && Step(s, c).nr == s.nr
  {
    NextPlace(s.nr, |s.placed|);
  }

  lemma {:induction false} InvRun(run: seq<State>, nr: nat, callers: nat, k: nat)
    requires Run(run, nr, callers) && k < |run|
    ensures Inv(run[k]) && run[k].nr == nr
  {
    if k == 0 {
      assert Start(nr) < nr;
      Remainder(nr, 0, Start(nr));
    } else {
      InvRun(run, nr, callers, k - 1);
      assert run[k - 1 + 1] == run[k];
      var c: nat :| c < |run[k - 1].cs| && run[k] == Step(run[k - 1], c);
      InvStep(run[k - 1], c);
    }
  }

  /** However the calls interleave, the k-th successful swap returns (start + k) mod nr_vcores. */
  lemma RoundRobin(run: seq<State>, nr: nat, callers: nat, k: nat, i: nat)
    requires Run(run, nr, callers) && k < |run| && i < |run[k].placed|
    ensures run[k].placed[i] == (Start(nr) + i) % nr < nr
  {
    InvRun(run, nr, callers, k);
    NextPlace(nr, i);
  }

  /** A swap fails only if another call has placed a thread since the read. */
  lemma FailureIsProgress(run: seq<State>, nr: nat, callers: nat, k: nat, c: nat)
    requires Run(run, nr, callers) && k < |run| && c < |run[k].cs| && run[k].cs[c].Swapping?
    requires Step(run[k], c).cs[c].Reading?
    ensures run[k].cs[c].since < |run[k].placed|
  {
    InvRun(run, nr, callers, k);
  }

  function Count(placed: seq<nat>, i: nat): nat {
    if placed == [] then 0
    else Count(placed[..|placed| - 1], i) + if placed[|placed| - 1] == i then 1 else 0
  }

  /** How many ids come before i in a round. */
  function Turn(nr: nat, i: nat): int { if i >= Start(nr) then i - Start(nr) else i - Start(nr) + nr }

  lemma PlaceTurn(nr: nat, k: nat, i: nat)
    requires 0 < nr && i < nr
    ensures Place(nr, k) == i <==> k % nr == Turn(nr, i)
  {
    var q, r := k / nr, k % nr;
    assert k == nr * q + r;
    var x := Start(nr) + r;
    if x < nr {
      Remainder(nr, q, x);
      assert Start(nr) + k == nr * q + x;
    } else {
      assert Start(nr) + k == nr * (q + 1) + (x - nr);
      Remainder(nr, q + 1, x - nr);
    }
  }

  /** After m placements every id has been handed out m / nr times, and those early in the round once more. */
  lemma {:induction false} CountPlaced(placed: seq<nat>, nr: nat, i: nat)
    requires 0 < nr && i < nr && forall k | 0 <= k < |placed| :: placed[k] == Place(nr, k)
    ensures Count(placed, i) == |placed| / nr + if Turn(nr, i) < |placed| % nr then 1 else 0
  {
    var m := |placed|;
    if m == 0 {
      Remainder(nr, 0, 0);
    } else {
      var k := m - 1;
      CountPlaced(placed[..k], nr, i);
      PlaceTurn(nr, k, i);
      Successor(nr, k);
    }
  }

  /** The numbers of threads placed on any two queues differ by at most one. */
  lemma PlacementIsFair(run: seq<State>, nr: nat, callers: nat, k: nat, i: nat, j: nat)
    requires Run(run, nr, callers) && k < |run| && i < nr && j < nr
    ensures Count(run[k].placed, i) - Count(run[k].placed, j) <= 1
  {
    InvRun(run, nr, callers, k);
    CountPlaced(run[k].placed, nr, i);
    CountPlaced(run[k].placed, nr, j);
  }
}
