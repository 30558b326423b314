/**
 Finding or creating the list of an address, src/common/futex.c:32-57, by any number of threads at once:
 an unlocked scan of an append-only collection, then a second scan under a lock.
 */
module FutexTable {
  import opened Seqs

  type Tid = nat
  type Address = int

  datatype Pc =
    | Idle
    | Scan(j: nat)     // 35-38, at entry j
    | LockTable        // 40
    | Rescan(j: nat)   // lock held (41-44)
    | Insert           // lock held (46-52)
    | Unlock(j: nat)   // lock held, entry j found or created (54)
    | Found(j: nat)    // returned entry j

  datatype Thread = Thread(pc: Pc, uaddr: Address)

  /** `lists[j]` is the address of the j-th list created. */
  datatype State = State(lists: seq<Address>, lock: Option<Tid>, ts: seq<Thread>)

  function Goto(s: State, t: Tid, pc: Pc): State
    requires t < |s.ts|
  {
    s.(ts := s.ts[t := s.ts[t].(pc := pc)])
  }

  predicate Enabled(s: State, t: Tid)
    requires t < |s.ts|
  {
    s.ts[t].pc.LockTable? ==> s.lock.None?
  }

  /** One step of t; `uaddr` is the argument when t starts a call. */
  function Step(s: State, t: Tid, uaddr: Address): State
    requires t < |s.ts| && Enabled(s, t)
  {
    var th := s.ts[t];
    match th.pc
    case Idle => s.(ts := s.ts[t := Thread(Scan(0), uaddr)])
    case Scan(j) =>
      Goto(s, t, if j >= |s.lists| then LockTable else if s.lists[j] == th.uaddr then Found(j) else Scan(j + 1))
    case LockTable => Goto(s, t, Rescan(0)).(lock := Some(t))
    case Rescan(j) =>
      Goto(s, t, if j >= |s.lists| then Insert else if s.lists[j] == th.uaddr then Unlock(j) else Rescan(j + 1))
    case Insert => Goto(s, t, Unlock(|s.lists|)).(lists := s.lists + [th.uaddr])
    case Unlock(j) => Goto(s, t, Found(j)).(lock := None)
    case Found(_) => Goto(s, t, Idle)
  }

  ghost predicate Next(s: State, s': State) {
    exists t: Tid, uaddr: Address :: t < |s.ts| && Enabled(s, t) && s' == Step(s, t, uaddr)
  }

  ghost predicate Run(run: seq<State>, n: nat) {
    && |run| > 0
    && run[0] == State([], None, seq(n, _ => Thread(Idle, 0)))
    && forall k :: 0 <= k < |run| - 1 ==> Next(run[k], run[k + 1])
  }

  predicate HoldsLock(pc: Pc) { pc.Rescan? || pc.Insert? || pc.Unlock? }

  ghost predicate InvThread(s: State, t: int, th: Thread) {
    && (HoldsLock(th.pc) <==> s.lock == Some(t))
    && (th.pc.Rescan? ==> th.pc.j <= |s.lists| && th.uaddr !in s.lists[..th.pc.j])
    && (th.pc.Insert? ==> th.uaddr !in s.lists)
    && (th.pc.Unlock? || th.pc.Found? ==> th.pc.j < |s.lists| && s.lists[th.pc.j] == th.uaddr)
  }

  ghost predicate Inv(s: State) {
    NoDup(s.lists) && forall t :: 0 <= t < |s.ts| ==> InvThread(s, t, s.ts[t])
  }

  lemma InvStep(s: State, t: Tid, uaddr: Address)
    requires Inv(s) && t < |s.ts| && Enabled(s, t)
    ensures Inv(Step(s, t, uaddr))
    ensures s.lists <= Step(s, t, uaddr).lists
  {
    var s' := Step(s, t, uaddr);
    assert InvThread(s, t, s.ts[t]);
    if s.ts[t].pc.Rescan? && s.ts[t].pc.j < |s.lists| {
      var j := s.ts[t].pc.j;
      assert s.lists[..j + 1] == s.lists[..j] + [s.lists[j]];
    }
    forall u | 0 <= u < |s'.ts| ensures InvThread(s', u, s'.ts[u]) {
      assert InvThread(s, u, s.ts[u]);
    }
  }

  lemma {:induction false} InvRun(run: seq<State>, n: nat, k: nat)
    requires Run(run, n) && k < |run|
    ensures Inv(run[k])
  {
    if k > 0 {
      InvRun(run, n, k - 1);
      assert Next(run[k - 1], run[k - 1 + 1]);
      var t: Tid, uaddr: Address :|
        t < |run[k - 1].ts| && Enabled(run[k - 1], t) && run[k] == Step(run[k - 1], t, uaddr);
      InvStep(run[k - 1], t, uaddr);
    }
  }

  /** Lists only get added. */
  lemma {:induction false} ListsGrow(run: seq<State>, n: nat, k: nat, l: nat)
    requires Run(run, n) && k <= l < |run|
    ensures run[k].lists <= run[l].lists
    decreases l
  {
    if k < l {
      ListsGrow(run, n, k, l - 1);
      InvRun(run, n, l - 1);
      assert Next(run[l - 1], run[l - 1 + 1]);
      var t: Tid, uaddr: Address :|
        t < |run[l - 1].ts| && Enabled(run[l - 1], t) && run[l] == Step(run[l - 1], t, uaddr);
      InvStep(run[l - 1], t, uaddr);
    }
  }

  /** What a lookup has found is the list of its address. */
  lemma FoundIsOwn(run: seq<State>, n: nat, k: nat, t: Tid)
    requires Run(run, n) && k < |run| && t < |run[k].ts| && run[k].ts[t].pc.Found?
    ensures run[k].ts[t].pc.j < |run[k].lists| && run[k].lists[run[k].ts[t].pc.j] == run[k].ts[t].uaddr
  {
    InvRun(run, n, k);
    assert InvThread(run[k], t, run[k].ts[t]);
  }

  /** However the lookups interleave, an address never gets a second list: two lookups of a run, at whatever
      times they return, get the same list if and only if they ask for the same address. */
  lemma OneListPerAddress(run: seq<State>, n: nat, k: nat, l: nat, t: Tid, u: Tid)
    requires Run(run, n) && k <= l < |run| && t < |run[k].ts| && u < |run[l].ts|
    requires run[k].ts[t].pc.Found? && run[l].ts[u].pc.Found?
    ensures NoDup(run[l].lists)
    ensures run[k].ts[t].uaddr == run[l].ts[u].uaddr <==> run[k].ts[t].pc.j == run[l].ts[u].pc.j
  {
    InvRun(run, n, l);
    ListsGrow(run, n, k, l);
    FoundIsOwn(run, n, k, t);
    FoundIsOwn(run, n, l, u);
  }
}
