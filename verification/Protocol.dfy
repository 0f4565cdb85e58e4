/** The asyncio pipeline as a state machine: zone map objects and block reads share one
  * semaphore, and reads also share a byte budget. Each step below is what one coroutine
  * does between two awaits. */
module Protocol {

  /** A read waits for its object's plan, then for the budget, then for a permit. Asleep
    * reads wait on the condition; Notified ones will check its predicate again. */
  datatype Phase = Unborn | Ready | Asleep | Notified | Budgeted | Fetching | Decoding | Done | Failed

  /** A zone map object waits for a permit, is read, is planned, and then starts its reads. */
  datatype MetaPhase = MetaWaiting | MetaFetching | MetaPlanning | MetaDone | MetaFailed

  datatype Limit = NoLimit | AtMost(bytes: nat)

  /** What does not change: the reads' sizes and objects, the byte limit, the permits. */
  datatype Work = Work(sizes: seq<nat>, parent: seq<nat>, metas: nat, limit: Limit, permits: nat)
  {
    /** Every read has bytes and belongs to an object; the semaphore has a permit. */
    predicate Valid() {
      && |sizes| == |parent| && permits > 0
      && (forall i :: 0 <= i < |sizes| ==> sizes[i] > 0 && parent[i] < metas)
    }
  }

  datatype State = State(tasks: seq<Phase>, metas: seq<MetaPhase>, used: nat, peak: nat, free: nat)

  predicate Shaped(w: Work, s: State) {
    |s.tasks| == |w.sizes| == |w.parent| && |s.metas| == w.metas
  }

  // ---- the budget ----

  /** The predicate of wait_for: used == 0 or used + n <= limit. */
  predicate Fits(limit: Limit, used: nat, n: nat) {
    limit.NoLimit? || used == 0 || used + n <= limit.bytes
  }

  /** ByteBudget, whose methods run to the next await without interruption. */
  class ByteBudget {
    const limit: Limit
    var used: nat
    var peak: nat

    constructor (limit: Limit)
      ensures this.limit == limit && used == 0 && peak == 0
    {
      this.limit := limit;
      used, peak := 0, 0;
    }

    /** One check of the predicate in acquire, and the reservation when it holds. */
    method TryAcquire(n: nat) returns (ok: bool)
      modifies this
      ensures ok == Fits(limit, old(used), n)
      ensures used == (if ok then old(used) + n else old(used))
      ensures peak == if ok && old(used) + n > old(peak) then old(used) + n else old(peak)
    {
      ok := limit.NoLimit? || used == 0 || used + n <= limit.bytes;
      if ok {
        used := used + n;
        if used > peak {
          peak := used;
        }
      }
    }

    /** release; every waiter is notified. */
    method Release(n: nat)
      requires n <= used
      modifies this
      ensures used == old(used) - n && peak == old(peak)
    {
      used := used - n;
    }
  }

  // ---- steps ----

  datatype Step =
    | Begin(i: nat)       // first check of the predicate
    | Resume(i: nat)      // a notified waiter checks again
    | Fetch(i: nat)       // takes a permit
    | Arrive(i: nat)      // gives the permit back
    | Finish(i: nat)      // decoded: gives its bytes back and notifies all
    | Fail(i: nat)        // a failed read or decode gives everything back
    | MetaFetch(m: nat)
    | MetaArrive(m: nat)
    | MetaPlan(m: nat)    // planned: its reads start
    | MetaFail(m: nat)

  predicate Enabled(w: Work, s: State, step: Step)
    requires Shaped(w, s)
  {
    match step
    case Begin(i) => i < |s.tasks| && s.tasks[i] == Ready
    case Resume(i) => i < |s.tasks| && s.tasks[i] == Notified
    case Fetch(i) => i < |s.tasks| && s.tasks[i] == Budgeted && s.free > 0
    case Arrive(i) => i < |s.tasks| && s.tasks[i] == Fetching
    case Finish(i) => i < |s.tasks| && s.tasks[i] == Decoding
    case Fail(i) => i < |s.tasks| && (s.tasks[i] == Fetching || s.tasks[i] == Decoding)
    case MetaFetch(m) => m < |s.metas| && s.metas[m] == MetaWaiting && s.free > 0
    case MetaArrive(m) => m < |s.metas| && s.metas[m] == MetaFetching
    case MetaPlan(m) => m < |s.metas| && s.metas[m] == MetaPlanning
    case MetaFail(m) => m < |s.metas| && (s.metas[m] == MetaFetching || s.metas[m] == MetaPlanning)
  }

  /** notify_all */
  function WakeAll(ps: seq<Phase>): (r: seq<Phase>)
    ensures |r| == |ps| && forall i :: 0 <= i < |ps| ==> r[i] == if ps[i] == Asleep then Notified else ps[i]
  {
    if ps == [] then []
    else WakeAll(ps[..|ps| - 1]) + [if ps[|ps| - 1] == Asleep then Notified else ps[|ps| - 1]]
  }

  /** The reads of object m become ready. */
  function Spawn(ps: seq<Phase>, parent: seq<nat>, m: nat, next: Phase): (r: seq<Phase>)
    requires |ps| <= |parent|
    ensures |r| == |ps| && forall i :: 0 <= i < |ps| ==> r[i] == if ps[i] == Unborn && parent[i] == m then next else ps[i]
  {
    if ps == [] then []
    else
      var n := |ps| - 1;
      Spawn(ps[..n], parent, m, next) + [if ps[n] == Unborn && parent[n] == m then next else ps[n]]
  }

  function Larger(a: nat, b: nat): nat {
    if a < b then b else a
  }

  /** One check of the budget by read i. */
  function Check(w: Work, s: State, i: nat): State
    requires Shaped(w, s) && i < |s.tasks|
  {
    if Fits(w.limit, s.used, w.sizes[i])
    then s.(tasks := s.tasks[i := Budgeted], used := s.used + w.sizes[i], peak := Larger(s.peak, s.used + w.sizes[i]))
    else s.(tasks := s.tasks[i := Asleep])
  }

  /** Read i gives its bytes back. */
  function GiveBack(w: Work, s: State, i: nat, p: Phase, free: nat): State
    requires Shaped(w, s) && i < |s.tasks| && w.sizes[i] <= s.used
  {
    s.(tasks := WakeAll(s.tasks[i := p]), used := s.used - w.sizes[i], free := free)
  }

  function Next(w: Work, s: State, step: Step): State
    requires Shaped(w, s) && Enabled(w, s, step)
    requires (step.Finish? || step.Fail?) ==> w.sizes[step.i] <= s.used
  {
    match step
    case Begin(i) => Check(w, s, i)
    case Resume(i) => Check(w, s, i)
    case Fetch(i) => s.(tasks := s.tasks[i := Fetching], free := s.free - 1)
    case Arrive(i) => s.(tasks := s.tasks[i := Decoding], free := s.free + 1)
    case Finish(i) => GiveBack(w, s, i, Done, s.free)
    case Fail(i) => GiveBack(w, s, i, Failed, if s.tasks[i] == Fetching then s.free + 1 else s.free)
    case MetaFetch(m) => s.(metas := s.metas[m := MetaFetching], free := s.free - 1)
    case MetaArrive(m) => s.(metas := s.metas[m := MetaPlanning], free := s.free + 1)
    case MetaPlan(m) => s.(metas := s.metas[m := MetaDone], tasks := Spawn(s.tasks, w.parent, m, Ready))
    case MetaFail(m) => s.(metas := s.metas[m := MetaFailed], tasks := Spawn(s.tasks, w.parent, m, Failed),
                           free := if s.metas[m] == MetaFetching then s.free + 1 else s.free)
  }

  // ---- totals over reads and objects ----

  predicate Holds(p: Phase) {
    p == Budgeted || p == Fetching || p == Decoding
  }

  /** What is added up over the reads: bytes held, reads holding bytes, permits taken, steps
    * still to come, and checks still to come. */
  datatype Measure = Bytes | Holders | Permits | Steps | Checks

  function StepsLeft(p: Phase): nat {
    match p
    case Unborn => 5
    case Ready => 5
    case Asleep => 4
    case Notified => 4
    case Budgeted => 3
    case Fetching => 2
    case Decoding => 1
    case _ => 0
  }

  function Weight(k: Measure, p: Phase, size: nat): nat {
    match k
    case Bytes => if Holds(p) then size else 0
    case Holders => if Holds(p) then 1 else 0
    case Permits => if p == Fetching then 1 else 0
    case Steps => StepsLeft(p)
    case Checks => if p == Notified then 1 else 0
  }

  function Total(w: Work, ps: seq<Phase>, k: Measure, n: nat): nat
    requires n <= |ps| <= |w.sizes|
  {
    if n == 0 then 0 else Total(w, ps, k, n - 1) + Weight(k, ps[n - 1], w.sizes[n - 1])
  }

  function MetaWeight(k: Measure, m: MetaPhase): nat {
    match k
    case Permits => if m == MetaFetching then 1 else 0
    case Steps => (match m case MetaWaiting => 3 case MetaFetching => 2 case MetaPlanning => 1 case _ => 0)
    case _ => 0
  }

  function MetaTotal(ms: seq<MetaPhase>, k: Measure, n: nat): nat
    requires n <= |ms|
  {
    if n == 0 then 0 else MetaTotal(ms, k, n - 1) + MetaWeight(k, ms[n - 1])
  }

  lemma {:induction false} TotalUpdate(w: Work, ps: seq<Phase>, k: Measure, i: nat, p: Phase, n: nat)
    requires n <= |ps| <= |w.sizes| && i < |ps|
    ensures i < n ==> Total(w, ps[i := p], k, n) + Weight(k, ps[i], w.sizes[i]) == Total(w, ps, k, n) + Weight(k, p, w.sizes[i])
    ensures n <= i ==> Total(w, ps[i := p], k, n) == Total(w, ps, k, n)
  {
    if n > 0 { TotalUpdate(w, ps, k, i, p, n - 1); }
  }

  lemma {:induction false} MetaUpdate(ms: seq<MetaPhase>, k: Measure, i: nat, m: MetaPhase, n: nat)
    requires n <= |ms| && i < |ms|
    ensures i < n ==> MetaTotal(ms[i := m], k, n) + MetaWeight(k, ms[i]) == MetaTotal(ms, k, n) + MetaWeight(k, m)
    ensures n <= i ==> MetaTotal(ms[i := m], k, n) == MetaTotal(ms, k, n)
  {
    if n > 0 { MetaUpdate(ms, k, i, m, n - 1); }
  }

  /** Phases of equal or smaller weights have an equal or smaller total. */
  lemma {:induction false} TotalSame(w: Work, ps: seq<Phase>, qs: seq<Phase>, k: Measure, n: nat)
    requires n <= |ps| == |qs| <= |w.sizes|
    ensures (forall i :: 0 <= i < n ==> Weight(k, ps[i], w.sizes[i]) == Weight(k, qs[i], w.sizes[i])) ==> Total(w, ps, k, n) == Total(w, qs, k, n)
    ensures (forall i :: 0 <= i < n ==> Weight(k, ps[i], w.sizes[i]) >= Weight(k, qs[i], w.sizes[i])) ==> Total(w, ps, k, n) >= Total(w, qs, k, n)
  {
    if n > 0 { TotalSame(w, ps, qs, k, n - 1); }
  }

  lemma {:induction false} TotalAtLeast(w: Work, ps: seq<Phase>, k: Measure, i: nat, n: nat)
    requires i < n <= |ps| <= |w.sizes|
    ensures Weight(k, ps[i], w.sizes[i]) <= Total(w, ps, k, n)
    decreases n
  {
    if i < n - 1 { TotalAtLeast(w, ps, k, i, n - 1); }
  }

  function All(w: Work, s: State, k: Measure): nat
    requires Shaped(w, s)
  {
    Total(w, s.tasks, k, |s.tasks|)
  }

  function AllMeta(s: State, k: Measure): nat {
    MetaTotal(s.metas, k, |s.metas|)
  }

  // ---- the invariant ----

  /** Nobody sleeps who could run. */
  ghost predicate NoLostWakeup(w: Work, s: State)
    requires Shaped(w, s)
  {
    forall i :: 0 <= i < |s.tasks| && s.tasks[i] == Asleep ==> !Fits(w.limit, s.used, w.sizes[i])
  }

  /** Reads that have not started belong to objects still on their way. */
  ghost predicate Expected(w: Work, s: State)
    requires w.Valid() && Shaped(w, s)
  {
    forall i :: 0 <= i < |s.tasks| && s.tasks[i] == Unborn ==> MetaWeight(Steps, s.metas[w.parent[i]]) > 0
  }

  ghost predicate Invariant(w: Work, s: State) {
    && w.Valid() && Shaped(w, s)
    && s.used == All(w, s, Bytes) && s.used <= s.peak
    && s.free + All(w, s, Permits) + AllMeta(s, Permits) == w.permits
    && (w.limit.AtMost? ==> s.used <= w.limit.bytes || All(w, s, Holders) == 1)
    && NoLostWakeup(w, s) && Expected(w, s)
  }

  /** Changing read i's phase changes every total by the difference of weights. */
  lemma {:induction false} SetPhase(w: Work, s: State, i: nat, p: Phase)
    requires Shaped(w, s) && i < |s.tasks|
    ensures var t := s.(tasks := s.tasks[i := p]);
            Shaped(w, t) && forall k :: All(w, t, k) + Weight(k, s.tasks[i], w.sizes[i]) == All(w, s, k) + Weight(k, p, w.sizes[i])
  {
    forall k ensures Total(w, s.tasks[i := p], k, |s.tasks|) + Weight(k, s.tasks[i], w.sizes[i]) == Total(w, s.tasks, k, |s.tasks|) + Weight(k, p, w.sizes[i]) {
      TotalUpdate(w, s.tasks, k, i, p, |s.tasks|);
    }
  }

  lemma {:induction false} SetMeta(s: State, m: nat, p: MetaPhase)
    requires m < |s.metas|
    ensures var t := s.(metas := s.metas[m := p]);
            forall k :: AllMeta(t, k) + MetaWeight(k, s.metas[m]) == AllMeta(s, k) + MetaWeight(k, p)
  {
    forall k ensures MetaTotal(s.metas[m := p], k, |s.metas|) + MetaWeight(k, s.metas[m]) == MetaTotal(s.metas, k, |s.metas|) + MetaWeight(k, p) {
      MetaUpdate(s.metas, k, m, p, |s.metas|);
    }
  }

  /** Without holders nothing is held, and with holders something is. */
  lemma {:induction false} HoldersHold(w: Work, ps: seq<Phase>, n: nat)
    requires w.Valid() && n <= |ps| <= |w.sizes|
    ensures Total(w, ps, Holders, n) == 0 <==> Total(w, ps, Bytes, n) == 0
  {
    if n > 0 {
      HoldersHold(w, ps, n - 1);
      assert w.sizes[n - 1] > 0;
    }
  }

  // ---- every step keeps the invariant ----

  lemma {:induction false} CheckKeeps(w: Work, s: State, i: nat)
    requires Invariant(w, s) && i < |s.tasks| && (s.tasks[i] == Ready || s.tasks[i] == Notified)
    ensures Invariant(w, Check(w, s, i))
  {
    SetPhase(w, s, i, Budgeted);
    SetPhase(w, s, i, Asleep);
    HoldersHold(w, s.tasks, |s.tasks|);
    assert All(w, s.(tasks := s.tasks[i := Budgeted]), Holders) == All(w, s, Holders) + 1;
    assert All(w, s.(tasks := s.tasks[i := Asleep]), Holders) == All(w, s, Holders);
  }

  lemma {:induction false} WakeKeeps(w: Work, s: State, k: Measure)
    requires Shaped(w, s) && k != Checks
    ensures All(w, s.(tasks := WakeAll(s.tasks)), k) == All(w, s, k)
  {
    TotalSame(w, s.tasks, WakeAll(s.tasks), k, |s.tasks|);
  }

  /** A holder's bytes are part of what is used, and a lone holder's are all of it. */
  lemma {:induction false} HolderShare(w: Work, s: State, i: nat)
    requires Invariant(w, s) && i < |s.tasks| && Holds(s.tasks[i])
    ensures w.sizes[i] <= s.used && (All(w, s, Holders) == 1 ==> w.sizes[i] == s.used)
  {
    TotalAtLeast(w, s.tasks, Bytes, i, |s.tasks|);
    SetPhase(w, s, i, Done);
    HoldersHold(w, s.tasks[i := Done], |s.tasks|);
  }

  lemma {:induction false} GiveBackKeeps(w: Work, s: State, i: nat, p: Phase, free: nat)
    requires Invariant(w, s) && i < |s.tasks| && Holds(s.tasks[i]) && (p == Done || p == Failed) && w.sizes[i] <= s.used
    requires free == s.free + Weight(Permits, s.tasks[i], w.sizes[i])
    ensures Invariant(w, GiveBack(w, s, i, p, free))
  {
    HolderShare(w, s, i);
    SetPhase(w, s, i, p);
    var t := s.(tasks := s.tasks[i := p]);
    WakeKeeps(w, t, Bytes);
    WakeKeeps(w, t, Holders);
    WakeKeeps(w, t, Permits);
  }

  lemma {:induction false} FetchKeeps(w: Work, s: State, i: nat)
    requires Invariant(w, s) && i < |s.tasks|
    ensures s.tasks[i] == Budgeted && s.free > 0 ==> Invariant(w, Next(w, s, Fetch(i)))
    ensures s.tasks[i] == Fetching ==> Invariant(w, Next(w, s, Arrive(i)))
  {
    SetPhase(w, s, i, Fetching);
    SetPhase(w, s, i, Decoding);
  }

  lemma {:induction false} MetaKeeps(w: Work, s: State, m: nat)
    requires Invariant(w, s) && m < |s.metas|
    ensures s.metas[m] == MetaWaiting && s.free > 0 ==> Invariant(w, Next(w, s, MetaFetch(m)))
    ensures s.metas[m] == MetaFetching ==> Invariant(w, Next(w, s, MetaArrive(m)))
  {
    SetMeta(s, m, MetaFetching);
    SetMeta(s, m, MetaPlanning);
  }

  /** The end of an object starts its reads, or drops them when it failed. */
  lemma {:induction false} SpawnKeeps(w: Work, s: State, m: nat, to: MetaPhase, next: Phase, free: nat)
    requires Invariant(w, s) && m < |s.metas| && (s.metas[m] == MetaFetching || s.metas[m] == MetaPlanning)
    requires (to == MetaDone && next == Ready) || (to == MetaFailed && next == Failed)
    requires free == s.free + MetaWeight(Permits, s.metas[m])
    ensures Invariant(w, s.(metas := s.metas[m := to], tasks := Spawn(s.tasks, w.parent, m, next), free := free))
  {
    SetMeta(s, m, to);
    SpawnTotal(w, s.tasks, m, next, Bytes);
    SpawnTotal(w, s.tasks, m, next, Holders);
    SpawnTotal(w, s.tasks, m, next, Permits);
    var t := s.(metas := s.metas[m := to], tasks := Spawn(s.tasks, w.parent, m, next), free := free);
    forall i | 0 <= i < |t.tasks| && t.tasks[i] == Unborn ensures MetaWeight(Steps, t.metas[w.parent[i]]) > 0 {
      assert s.tasks[i] == Unborn;
    }
  }

  lemma {:induction false} SpawnTotal(w: Work, ps: seq<Phase>, m: nat, next: Phase, k: Measure)
    requires w.Valid() && |ps| == |w.sizes| && (next == Ready || next == Failed) && (k == Bytes || k == Holders || k == Permits)
    ensures Total(w, Spawn(ps, w.parent, m, next), k, |ps|) == Total(w, ps, k, |ps|)
  {
    TotalSame(w, ps, Spawn(ps, w.parent, m, next), k, |ps|);
  }

  /** What every step keeps: used is what is held, the limit holds or one read runs alone,
    * no permit is lost, and nobody sleeps who could run. */
  lemma {:induction false} StepKeepsInvariant(w: Work, s: State, step: Step)
    requires Invariant(w, s) && Enabled(w, s, step)
    ensures step.Finish? || step.Fail? ==> w.sizes[step.i] <= s.used
    ensures Invariant(w, Next(w, s, step))
  {
    match step
    case Begin(i) => CheckKeeps(w, s, i);
    case Resume(i) => CheckKeeps(w, s, i);
    case Fetch(i) => FetchKeeps(w, s, i);
    case Arrive(i) => FetchKeeps(w, s, i);
    case Finish(i) => HolderShare(w, s, i); GiveBackKeeps(w, s, i, Done, s.free);
    case Fail(i) => HolderShare(w, s, i); GiveBackKeeps(w, s, i, Failed, if s.tasks[i] == Fetching then s.free + 1 else s.free);
    case MetaFetch(m) => MetaKeeps(w, s, m);
    case MetaArrive(m) => MetaKeeps(w, s, m);
    case MetaPlan(m) => SpawnKeeps(w, s, m, MetaDone, Ready, s.free);
    case MetaFail(m) => SpawnKeeps(w, s, m, MetaFailed, Failed, if s.metas[m] == MetaFetching then s.free + 1 else s.free);
  }

  // ---- progress ----

  ghost predicate Finished(w: Work, s: State)
    requires Shaped(w, s)
  {
    && (forall i :: 0 <= i < |s.tasks| ==> s.tasks[i] == Done || s.tasks[i] == Failed)
    && (forall m :: 0 <= m < |s.metas| ==> s.metas[m] == MetaDone || s.metas[m] == MetaFailed)
  }

  ghost predicate CanStep(w: Work, s: State)
    requires Shaped(w, s)
  {
    exists step :: Enabled(w, s, step)
  }

  /** Someone fetching exists when no permit is free, and can always give it back. */
  lemma {:induction false} FetcherExists(w: Work, s: State)
    requires Invariant(w, s) && s.free == 0
    ensures CanStep(w, s)
  {
    if All(w, s, Permits) > 0 {
      var i := FindPermit(w, s.tasks, |s.tasks|);
      assert Enabled(w, s, Arrive(i));
    } else {
      var m := FindMetaPermit(s.metas, |s.metas|);
      assert Enabled(w, s, MetaArrive(m));
    }
  }

  lemma {:induction false} FindPermit(w: Work, ps: seq<Phase>, n: nat) returns (i: nat)
    requires n <= |ps| <= |w.sizes| && Total(w, ps, Permits, n) > 0
    ensures i < n && ps[i] == Fetching
  {
    if ps[n - 1] == Fetching {
      i := n - 1;
    } else {
      i := FindPermit(w, ps, n - 1);
    }
  }

  lemma {:induction false} FindMetaPermit(ms: seq<MetaPhase>, n: nat) returns (m: nat)
    requires n <= |ms| && MetaTotal(ms, Permits, n) > 0
    ensures m < n && ms[m] == MetaFetching
  {
    if ms[n - 1] == MetaFetching {
      m := n - 1;
    } else {
      m := FindMetaPermit(ms, n - 1);
    }
  }

  /** An object that is not done can move on, or is waiting for a permit. */
  lemma {:induction false} MetaMoves(w: Work, s: State, m: nat)
    requires Invariant(w, s) && m < |s.metas| && s.metas[m] != MetaDone && s.metas[m] != MetaFailed
    ensures CanStep(w, s)
  {
    match s.metas[m]
    case MetaWaiting =>
      if s.free == 0 {
        FetcherExists(w, s);
      } else {
        assert Enabled(w, s, MetaFetch(m));
      }
    case MetaFetching => assert Enabled(w, s, MetaArrive(m));
    case MetaPlanning => assert Enabled(w, s, MetaPlan(m));
  }

  /** A read that holds bytes or is about to check can move on. */
  lemma {:induction false} ReadMoves(w: Work, s: State, i: nat)
    requires Invariant(w, s) && i < |s.tasks|
    requires Holds(s.tasks[i]) || s.tasks[i] == Ready || s.tasks[i] == Notified
    ensures CanStep(w, s)
  {
    match s.tasks[i]
    case Ready => assert Enabled(w, s, Begin(i));
    case Notified => assert Enabled(w, s, Resume(i));
    case Budgeted =>
      if s.free == 0 {
        FetcherExists(w, s);
      } else {
        assert Enabled(w, s, Fetch(i));
      }
    case Fetching => assert Enabled(w, s, Arrive(i));
    case Decoding => assert Enabled(w, s, Finish(i));
  }

  lemma {:induction false} FindHolder(w: Work, ps: seq<Phase>, n: nat) returns (i: nat)
    requires n <= |ps| <= |w.sizes| && Total(w, ps, Holders, n) > 0
    ensures i < n && Holds(ps[i])
  {
    if Holds(ps[n - 1]) {
      i := n - 1;
    } else {
      i := FindHolder(w, ps, n - 1);
    }
  }

  /** No deadlock: as long as anything is unfinished, some step can be taken. Reserving the
    * bytes before taking a permit is what makes every permit holder able to move. */
  lemma {:induction false} NoDeadlock(w: Work, s: State)
    requires Invariant(w, s) && !Finished(w, s)
    ensures CanStep(w, s)
  {
    if m :| 0 <= m < |s.metas| && s.metas[m] != MetaDone && s.metas[m] != MetaFailed {
      MetaMoves(w, s, m);
    } else {
      var i :| 0 <= i < |s.tasks| && s.tasks[i] != Done && s.tasks[i] != Failed;
      if s.tasks[i] == Asleep {
        // it sleeps because bytes are held, so somebody holds them
        HoldersHold(w, s.tasks, |s.tasks|);
        var j := FindHolder(w, s.tasks, |s.tasks|);
        ReadMoves(w, s, j);
      } else {
        ReadMoves(w, s, i);
      }
    }
  }

  // ---- every schedule ends ----

  /** Steps still to come come first, then checks by notified reads. */
  function Rank(w: Work, s: State): nat
    requires Shaped(w, s)
  {
    All(w, s, Steps) + AllMeta(s, Steps)
  }

  lemma {:induction false} ChecksBounded(w: Work, ps: seq<Phase>, n: nat)
    requires n <= |ps| <= |w.sizes|
    ensures Total(w, ps, Checks, n) <= n
  {
    if n > 0 { ChecksBounded(w, ps, n - 1); }
  }

  /** A step completes something, or it is a check that puts a notified read back to sleep. */
  ghost predicate Smaller(w: Work, t: State, s: State)
    requires Shaped(w, s)
  {
    Shaped(w, t) && (Rank(w, t) < Rank(w, s) || (Rank(w, t) == Rank(w, s) && All(w, t, Checks) < All(w, s, Checks)))
  }

  lemma {:induction false} CheckIsSmaller(w: Work, s: State, i: nat)
    requires Shaped(w, s) && i < |s.tasks| && (s.tasks[i] == Ready || s.tasks[i] == Notified)
    ensures Smaller(w, Check(w, s, i), s)
  {
    SetPhase(w, s, i, Budgeted);
    SetPhase(w, s, i, Asleep);
  }

  lemma {:induction false} MoveIsSmaller(w: Work, s: State, i: nat, p: Phase, free: nat)
    requires Shaped(w, s) && i < |s.tasks| && StepsLeft(p) < StepsLeft(s.tasks[i])
    ensures Smaller(w, s.(tasks := s.tasks[i := p], free := free), s)
  {
    SetPhase(w, s, i, p);
  }

  lemma {:induction false} GiveBackIsSmaller(w: Work, s: State, i: nat, p: Phase, free: nat)
    requires Shaped(w, s) && i < |s.tasks| && StepsLeft(p) < StepsLeft(s.tasks[i]) && w.sizes[i] <= s.used
    ensures Smaller(w, GiveBack(w, s, i, p, free), s)
  {
    SetPhase(w, s, i, p);
    WakeKeeps(w, s.(tasks := s.tasks[i := p]), Steps);
  }

  lemma {:induction false} MetaIsSmaller(w: Work, s: State, m: nat, p: MetaPhase, free: nat)
    requires Shaped(w, s) && m < |s.metas| && MetaWeight(Steps, p) < MetaWeight(Steps, s.metas[m])
    ensures Smaller(w, s.(metas := s.metas[m := p], free := free), s)
  {
    SetMeta(s, m, p);
  }

  lemma {:induction false} SpawnIsSmaller(w: Work, s: State, m: nat, to: MetaPhase, next: Phase, free: nat)
    requires Shaped(w, s) && m < |s.metas| && MetaWeight(Steps, to) < MetaWeight(Steps, s.metas[m]) && (next == Ready || next == Failed)
    ensures Smaller(w, s.(metas := s.metas[m := to], tasks := Spawn(s.tasks, w.parent, m, next), free := free), s)
  {
    SetMeta(s, m, to);
    TotalSame(w, s.tasks, Spawn(s.tasks, w.parent, m, next), Steps, |s.tasks|);
  }

  /** The measure is lexicographic: steps still to come, then checks by notified reads. */
  lemma {:induction false} StepDecreases(w: Work, s: State, step: Step)
    requires Invariant(w, s) && Enabled(w, s, step)
    ensures step.Finish? || step.Fail? ==> w.sizes[step.i] <= s.used
    ensures Smaller(w, Next(w, s, step), s)
  {
    match step
    case Begin(i) => CheckIsSmaller(w, s, i);
    case Resume(i) => CheckIsSmaller(w, s, i);
    case Fetch(i) => MoveIsSmaller(w, s, i, Fetching, s.free - 1);
    case Arrive(i) => MoveIsSmaller(w, s, i, Decoding, s.free + 1);
    case Finish(i) => HolderShare(w, s, i); GiveBackIsSmaller(w, s, i, Done, s.free);
    case Fail(i) => HolderShare(w, s, i); GiveBackIsSmaller(w, s, i, Failed, if s.tasks[i] == Fetching then s.free + 1 else s.free);
    case _ => MetaStepDecreases(w, s, step);
  }

  lemma {:induction false} MetaStepDecreases(w: Work, s: State, step: Step)
    requires Invariant(w, s) && Enabled(w, s, step) && (step.MetaFetch? || step.MetaArrive? || step.MetaPlan? || step.MetaFail?)
    ensures Smaller(w, Next(w, s, step), s)
  {
    match step
    case MetaFetch(m) => MetaIsSmaller(w, s, m, MetaFetching, s.free - 1);
    case MetaArrive(m) => MetaIsSmaller(w, s, m, MetaPlanning, s.free + 1);
    case MetaPlan(m) => SpawnIsSmaller(w, s, m, MetaDone, Ready, s.free);
    case MetaFail(m) => SpawnIsSmaller(w, s, m, MetaFailed, Failed, if s.metas[m] == MetaFetching then s.free + 1 else s.free);
  }

  // ---- runs ----

  /** States reached by a sequence of enabled steps. */
  ghost predicate IsRun(w: Work, states: seq<State>, steps: seq<Step>) {
    && w.Valid() && |states| == |steps| + 1 && states[0] == Start(w)
    && forall k :: 0 <= k < |steps| ==> StepAt(w, states, steps, k)
  }

  ghost predicate StepAt(w: Work, states: seq<State>, steps: seq<Step>, k: nat)
    requires k < |steps| && |states| == |steps| + 1
  {
    IsStep(w, states[k], steps[k], states[k + 1])
  }

  ghost predicate IsStep(w: Work, s: State, step: Step, t: State) {
    && Shaped(w, s) && Enabled(w, s, step) && (step.Finish? || step.Fail? ==> w.sizes[step.i] <= s.used) && t == Next(w, s, step)
  }

  function AllUnborn(n: nat): (r: seq<Phase>)
    ensures |r| == n && forall i :: 0 <= i < n ==> r[i] == Unborn
  {
    if n == 0 then [] else AllUnborn(n - 1) + [Unborn]
  }

  function AllWaiting(n: nat): (r: seq<MetaPhase>)
    ensures |r| == n && forall i :: 0 <= i < n ==> r[i] == MetaWaiting
  {
    if n == 0 then [] else AllWaiting(n - 1) + [MetaWaiting]
  }

  /** Nothing planned, held or taken yet. */
  function Start(w: Work): State {
    State(AllUnborn(|w.sizes|), AllWaiting(w.metas), 0, 0, w.permits)
  }

  lemma {:induction false} NothingHeld(w: Work, ps: seq<Phase>, k: Measure, n: nat)
    requires n <= |ps| <= |w.sizes| && (forall i :: 0 <= i < n ==> ps[i] == Unborn) && k != Steps
    ensures Total(w, ps, k, n) == 0
  {
    if n > 0 { NothingHeld(w, ps, k, n - 1); }
  }

  lemma {:induction false} NothingTaken(ms: seq<MetaPhase>, n: nat)
    requires n <= |ms| && forall i :: 0 <= i < n ==> ms[i] == MetaWaiting
    ensures MetaTotal(ms, Permits, n) == 0
  {
    if n > 0 { NothingTaken(ms, n - 1); }
  }

  lemma {:induction false} StartHasInvariant(w: Work)
    requires w.Valid()
    ensures Invariant(w, Start(w))
  {
    var s := Start(w);
    NothingHeld(w, s.tasks, Bytes, |s.tasks|);
    NothingHeld(w, s.tasks, Permits, |s.tasks|);
    NothingTaken(s.metas, |s.metas|);
  }

  /** Every state of every run keeps the invariant. */
  lemma {:induction false} RunKeepsInvariant(w: Work, states: seq<State>, steps: seq<Step>, k: nat)
    requires IsRun(w, states, steps) && k < |states|
    ensures Invariant(w, states[k])
  {
    if k == 0 {
      StartHasInvariant(w);
    } else {
      RunKeepsInvariant(w, states, steps, k - 1);
      assert StepAt(w, states, steps, k - 1);
      StepKeepsInvariant(w, states[k - 1], steps[k - 1]);
    }
  }

  /** With a limit, what is held never exceeds it unless one read, larger than the limit,
    * runs alone. */
  lemma {:induction false} LimitIsKept(w: Work, states: seq<State>, steps: seq<Step>, k: nat, i: nat)
    requires IsRun(w, states, steps) && k < |states| && w.limit.AtMost? && i < |w.sizes|
    ensures Shaped(w, states[k])
    ensures states[k].used <= w.limit.bytes || (Holds(states[k].tasks[i]) ==> states[k].used == w.sizes[i])
  {
    RunKeepsInvariant(w, states, steps, k);
    if Holds(states[k].tasks[i]) {
      HolderShare(w, states[k], i);
    }
  }

  /** Only reads that do not fit sleep: bytes are held, and with the read's they exceed the limit. */
  lemma {:induction false} SleepersDoNotFit(w: Work, states: seq<State>, steps: seq<Step>, k: nat, i: nat)
    requires IsRun(w, states, steps) && k < |states| && i < |w.sizes|
    ensures Shaped(w, states[k])
    ensures states[k].tasks[i] == Asleep ==> w.limit.AtMost? && states[k].used > 0 && states[k].used + w.sizes[i] > w.limit.bytes
  {
    RunKeepsInvariant(w, states, steps, k);
  }

  lemma {:induction false} StepPeak(w: Work, s: State, step: Step, t: State)
    requires Invariant(w, s) && IsStep(w, s, step, t)
    ensures t.peak == Larger(s.peak, t.used)
  {
  }

  /** The peak is the largest number of bytes held so far. */
  lemma {:induction false} PeakIsLargest(w: Work, states: seq<State>, steps: seq<Step>, k: nat) returns (at: nat)
    requires IsRun(w, states, steps) && k < |states|
    ensures at <= k && states[k].peak == states[at].used && forall j :: 0 <= j <= k ==> states[j].used <= states[k].peak
  {
    at := 0;
    if k > 0 {
      at := PeakIsLargest(w, states, steps, k - 1);
      RunKeepsInvariant(w, states, steps, k - 1);
      assert StepAt(w, states, steps, k - 1);
      StepPeak(w, states[k - 1], steps[k - 1], states[k]);
      if states[k].used > states[k - 1].peak { at := k; }
    }
  }

  /** One number that falls with every step. */
  function Fuel(w: Work, s: State): nat
    requires Shaped(w, s)
  {
    Scaled(Rank(w, s), |w.sizes| + 1) + All(w, s, Checks)
  }

  function Scaled(r: nat, n: nat): nat {
    if r == 0 then 0 else Scaled(r - 1, n) + n
  }

  lemma {:induction false} ScaledGrows(r: nat, q: nat, n: nat)
    requires r < q
    ensures Scaled(r, n) + n <= Scaled(q, n)
    decreases q
  {
    if r < q - 1 { ScaledGrows(r, q - 1, n); }
  }

  lemma {:induction false} FuelFalls(w: Work, s: State, step: Step)
    requires Invariant(w, s) && Enabled(w, s, step)
    ensures step.Finish? || step.Fail? ==> w.sizes[step.i] <= s.used
    ensures var t := Next(w, s, step); Shaped(w, t) && Fuel(w, t) < Fuel(w, s)
  {
    StepDecreases(w, s, step);
    var t := Next(w, s, step);
    ChecksBounded(w, t.tasks, |t.tasks|);
    if Rank(w, t) < Rank(w, s) {
      ScaledGrows(Rank(w, t), Rank(w, s), |w.sizes| + 1);
    }
  }

  lemma {:induction false} RunStepFalls(w: Work, states: seq<State>, steps: seq<Step>, k: nat)
    requires IsRun(w, states, steps) && k < |steps|
    ensures Shaped(w, states[k]) && Shaped(w, states[k + 1]) && Fuel(w, states[k + 1]) < Fuel(w, states[k])
  {
    RunKeepsInvariant(w, states, steps, k);
    assert StepAt(w, states, steps, k);
    FuelFalls(w, states[k], steps[k]);
  }

  /** Every schedule ends: no run is longer than the fuel of the start. */
  lemma {:induction false} RunsEnd(w: Work, states: seq<State>, steps: seq<Step>, k: nat)
    requires IsRun(w, states, steps) && k < |states|
    ensures Shaped(w, states[k]) && Fuel(w, states[k]) + k <= Fuel(w, Start(w))
  {
    if k > 0 {
      RunsEnd(w, states, steps, k - 1);
      RunStepFalls(w, states, steps, k - 1);
    }
  }

  // ---- the steps as they are performed ----

  /** The coroutines' shared objects: the byte budget, the semaphore's free permits, and how
    * far every read and every zone map object is. */
  class Pipeline {
    const work: Work
    const budget: ByteBudget
    var tasks: seq<Phase>
    var metas: seq<MetaPhase>
    var free: nat

    ghost function Snapshot(): State
      reads this, budget
    {
      State(tasks, metas, budget.used, budget.peak, free)
    }

    ghost predicate Valid()
      reads this, budget
    {
      budget.limit == work.limit && Invariant(work, Snapshot())
    }

    constructor (w: Work)
      requires w.Valid()
      ensures Valid() && work == w && Snapshot() == Start(w) && fresh(budget)
    {
      work := w;
      budget := new ByteBudget(w.limit);
      tasks, metas, free := AllUnborn(|w.sizes|), AllWaiting(w.metas), w.permits;
      new;
      StartHasInvariant(w);
    }

    /** acquire up to its next wait: the predicate is checked, and the bytes are reserved or
      * the read goes to sleep. */
    method Acquire(i: nat)
      requires Valid() && i < |tasks| && (tasks[i] == Ready || tasks[i] == Notified)
      modifies this, budget
      ensures Snapshot() == Check(work, old(Snapshot()), i)
    {
      var ok := budget.TryAcquire(work.sizes[i]);
      tasks := tasks[i := if ok then Budgeted else Asleep];
    }

    /** release: the bytes go back and every sleeper is notified. */
    method Return(i: nat, p: Phase, permits: nat)
      requires Valid() && i < |tasks| && work.sizes[i] <= budget.used
      modifies this, budget
      ensures Snapshot() == GiveBack(work, old(Snapshot()), i, p, permits)
    {
      budget.Release(work.sizes[i]);
      tasks, free := WakeAll(tasks[i := p]), permits;
    }

    /** Performing an enabled step through the shared objects is the step of the state
      * machine, so the invariant holds whatever the scheduler picks. */
    method Perform(step: Step)
      requires Valid() && Enabled(work, Snapshot(), step)
      modifies this, budget
      ensures old(step.Finish? || step.Fail? ==> work.sizes[step.i] <= Snapshot().used)
      ensures Valid() && Snapshot() == Next(work, old(Snapshot()), step)
    {
      StepKeepsInvariant(work, Snapshot(), step);
      match step
      case Begin(i) => Acquire(i);
      case Resume(i) => Acquire(i);
      case Fetch(i) => tasks, free := tasks[i := Fetching], free - 1;
      case Arrive(i) => tasks, free := tasks[i := Decoding], free + 1;
      case Finish(i) => Return(i, Done, free);
      case Fail(i) => Return(i, Failed, if tasks[i] == Fetching then free + 1 else free);
      case MetaFetch(m) => metas, free := metas[m := MetaFetching], free - 1;
      case MetaArrive(m) => metas, free := metas[m := MetaPlanning], free + 1;
      case MetaPlan(m) => metas, tasks := metas[m := MetaDone], Spawn(tasks, work.parent, m, Ready);
      case MetaFail(m) =>
        free := if metas[m] == MetaFetching then free + 1 else free;
        metas, tasks := metas[m := MetaFailed], Spawn(tasks, work.parent, m, Failed);
    }
  }

  // ---- what every schedule ends with ----

  /** What the first n steps add up: a read's count when it finishes. */
  function FinishTotal(steps: seq<Step>, counts: seq<nat>, n: nat): nat
    requires n <= |steps|
  {
    if n == 0 then 0
    else
      var step := steps[n - 1];
      FinishTotal(steps, counts, n - 1) + if step.Finish? && step.i < |counts| then counts[step.i] else 0
  }

  lemma {:induction false} CountedUpdate(ps: seq<Phase>, counts: seq<nat>, i: nat, p: Phase, n: nat)
    requires n <= |ps| <= |counts| && i < |ps| && ps[i] != Done
    ensures Counted(ps[i := p], counts, n) == Counted(ps, counts, n) + if i < n && p == Done then counts[i] else 0
  {
    if n > 0 { CountedUpdate(ps, counts, i, p, n - 1); }
  }

  /** Reads that are done stay done, and no others become it. */
  lemma {:induction false} CountedSame(ps: seq<Phase>, qs: seq<Phase>, counts: seq<nat>, n: nat)
    requires n <= |ps| == |qs| <= |counts| && forall i :: 0 <= i < n ==> (ps[i] == Done <==> qs[i] == Done)
    ensures Counted(ps, counts, n) == Counted(qs, counts, n)
  {
    if n > 0 { CountedSame(ps, qs, counts, n - 1); }
  }

  lemma {:induction false} StepCounts(w: Work, s: State, step: Step, t: State, counts: seq<nat>)
    requires IsStep(w, s, step, t) && |counts| == |w.sizes|
    ensures |t.tasks| == |s.tasks|
    ensures Counted(t.tasks, counts, |t.tasks|) == Counted(s.tasks, counts, |s.tasks|) + if step.Finish? then counts[step.i] else 0
  {
    var n := |s.tasks|;
    if step.Finish? {
      CountedUpdate(s.tasks, counts, step.i, Done, n);
      CountedSame(s.tasks[step.i := Done], t.tasks, counts, n);
    } else {
      CountedSame(s.tasks, t.tasks, counts, n);
    }
  }

  /** Whatever the order of the steps, what they add up is the counts of the reads that are done. */
  lemma {:induction false} FinishedIsCounted(w: Work, states: seq<State>, steps: seq<Step>, counts: seq<nat>, k: nat)
    requires IsRun(w, states, steps) && |counts| == |w.sizes| && k <= |steps|
    ensures |states[k].tasks| == |counts| && FinishTotal(steps, counts, k) == Counted(states[k].tasks, counts, |counts|)
  {
    if k == 0 {
      StartCounts(w, states[0].tasks, counts);
    } else {
      FinishedIsCounted(w, states, steps, counts, k - 1);
      RunStepCounts(w, states, steps, counts, k - 1, steps[k - 1], states[k - 1].tasks, states[k].tasks);
    }
  }

  lemma {:induction false} StartCounts(w: Work, first: seq<Phase>, counts: seq<nat>)
    requires first == Start(w).tasks && |counts| == |w.sizes|
    ensures |first| == |counts| && Counted(first, counts, |counts|) == 0
  {
    NothingCounted(first, counts, |counts|);
  }

  lemma {:induction false} RunStepCounts(w: Work, states: seq<State>, steps: seq<Step>, counts: seq<nat>, k: nat, step: Step, before: seq<Phase>, after: seq<Phase>)
    requires IsRun(w, states, steps) && |counts| == |w.sizes| && k < |steps|
    requires step == steps[k] && before == states[k].tasks && after == states[k + 1].tasks && |before| == |counts|
    ensures |after| == |counts| && (step.Finish? ==> step.i < |counts|)
    ensures Counted(after, counts, |counts|) == Counted(before, counts, |counts|) + if step.Finish? then counts[step.i] else 0
  {
    assert StepAt(w, states, steps, k);
    StepCounts(w, states[k], step, states[k + 1], counts);
  }

  lemma {:induction false} NothingCounted(ps: seq<Phase>, counts: seq<nat>, n: nat)
    requires n <= |ps| <= |counts| && forall i :: 0 <= i < n ==> ps[i] == Unborn
    ensures Counted(ps, counts, n) == 0
  {
    if n > 0 { NothingCounted(ps, counts, n - 1); }
  }

  /** The counts of the first n reads that are done. */
  function Counted(ps: seq<Phase>, counts: seq<nat>, n: nat): nat
    requires n <= |ps| <= |counts|
  {
    if n == 0 then 0 else Counted(ps, counts, n - 1) + if ps[n - 1] == Done then counts[n - 1] else 0
  }

  function SumOf(counts: seq<nat>, n: nat): nat
    requires n <= |counts|
  {
    if n == 0 then 0 else SumOf(counts, n - 1) + counts[n - 1]
  }

  lemma {:induction false} AllCounted(ps: seq<Phase>, counts: seq<nat>, n: nat)
    requires n <= |ps| <= |counts| && forall i :: 0 <= i < n ==> ps[i] == Done
    ensures Counted(ps, counts, n) == SumOf(counts, n)
  {
    if n > 0 { AllCounted(ps, counts, n - 1); }
  }

  lemma {:induction false} NothingLeft(w: Work, ps: seq<Phase>, k: Measure, n: nat)
    requires n <= |ps| <= |w.sizes| && forall i :: 0 <= i < n ==> ps[i] == Done || ps[i] == Failed
    ensures Total(w, ps, k, n) == 0
  {
    if n > 0 { NothingLeft(w, ps, k, n - 1); }
  }

  lemma {:induction false} NoMetaLeft(ms: seq<MetaPhase>, k: Measure, n: nat)
    requires n <= |ms| && forall m :: 0 <= m < n ==> ms[m] == MetaDone || ms[m] == MetaFailed
    ensures MetaTotal(ms, k, n) == 0
  {
    if n > 0 { NoMetaLeft(ms, k, n - 1); }
  }

  /** A run that can go no further has finished everything and given back every byte and every
    * permit; and what its steps added up, in whatever order they came, is every read's count
    * if nothing failed, and otherwise the counts of the reads that are done. */
  lemma {:induction false} EveryScheduleFinishes(w: Work, states: seq<State>, steps: seq<Step>, counts: seq<nat>)
    requires IsRun(w, states, steps) && |counts| == |w.sizes|
    requires Shaped(w, states[|steps|]) && !CanStep(w, states[|steps|])
    ensures var s := states[|steps|];
            && Finished(w, s) && s.used == 0 && s.free == w.permits
            && FinishTotal(steps, counts, |steps|) == Counted(s.tasks, counts, |counts|)
            && ((forall i :: 0 <= i < |s.tasks| ==> s.tasks[i] != Failed) ==> FinishTotal(steps, counts, |steps|) == SumOf(counts, |counts|))
  {
    var s := states[|steps|];
    RunKeepsInvariant(w, states, steps, |steps|);
    if !Finished(w, s) {
      NoDeadlock(w, s);
      assert false;
    }
    FinishedIsCounted(w, states, steps, counts, |steps|);
    NothingLeft(w, s.tasks, Bytes, |s.tasks|);
    NothingLeft(w, s.tasks, Permits, |s.tasks|);
    NoMetaLeft(s.metas, Permits, |s.metas|);
    if forall i :: 0 <= i < |s.tasks| ==> s.tasks[i] != Failed {
      AllCounted(s.tasks, counts, |s.tasks|);
    }
  }

  // ---- what planning adds up ----

  /** What the first n steps add up over the objects: an object's share when it is planned. */
  function PlanTotal(steps: seq<Step>, ins: seq<nat>, n: nat): nat
    requires n <= |steps|
  {
    if n == 0 then 0
    else
      var step := steps[n - 1];
      PlanTotal(steps, ins, n - 1) + if step.MetaPlan? && step.m < |ins| then ins[step.m] else 0
  }

  /** The shares of the first n objects that are planned. */
  function PlannedShare(ms: seq<MetaPhase>, ins: seq<nat>, n: nat): nat
    requires n <= |ms| <= |ins|
  {
    if n == 0 then 0 else PlannedShare(ms, ins, n - 1) + if ms[n - 1] == MetaDone then ins[n - 1] else 0
  }

  lemma {:induction false} ShareUpdate(ms: seq<MetaPhase>, ins: seq<nat>, m: nat, p: MetaPhase, n: nat)
    requires n <= |ms| <= |ins| && m < |ms| && ms[m] != MetaDone
    ensures PlannedShare(ms[m := p], ins, n) == PlannedShare(ms, ins, n) + if m < n && p == MetaDone then ins[m] else 0
  {
    if n > 0 { ShareUpdate(ms, ins, m, p, n - 1); }
  }

  lemma {:induction false} NothingShared(ms: seq<MetaPhase>, ins: seq<nat>, n: nat)
    requires n <= |ms| <= |ins| && forall m :: 0 <= m < n ==> ms[m] == MetaWaiting
    ensures PlannedShare(ms, ins, n) == 0
  {
    if n > 0 { NothingShared(ms, ins, n - 1); }
  }

  lemma {:induction false} AllShared(ms: seq<MetaPhase>, ins: seq<nat>, n: nat)
    requires n <= |ms| <= |ins| && forall m :: 0 <= m < n ==> ms[m] == MetaDone
    ensures PlannedShare(ms, ins, n) == SumOf(ins, n)
  {
    if n > 0 { AllShared(ms, ins, n - 1); }
  }

  lemma {:induction false} StepShares(w: Work, s: State, step: Step, t: State, ins: seq<nat>)
    requires IsStep(w, s, step, t) && |ins| == w.metas
    ensures |t.metas| == |s.metas| == |ins| && (step.MetaPlan? ==> step.m < |ins|)
    ensures PlannedShare(t.metas, ins, |ins|) == PlannedShare(s.metas, ins, |ins|) + if step.MetaPlan? then ins[step.m] else 0
  {
    match step
    case MetaFetch(m) => ShareUpdate(s.metas, ins, m, MetaFetching, |ins|);
    case MetaArrive(m) => ShareUpdate(s.metas, ins, m, MetaPlanning, |ins|);
    case MetaPlan(m) => ShareUpdate(s.metas, ins, m, MetaDone, |ins|);
    case MetaFail(m) => ShareUpdate(s.metas, ins, m, MetaFailed, |ins|);
    case _ =>
  }

  /** Whatever the order of the steps, what they add up is the shares of the planned objects. */
  lemma {:induction false} PlannedIsShared(w: Work, states: seq<State>, steps: seq<Step>, ins: seq<nat>, k: nat)
    requires IsRun(w, states, steps) && |ins| == w.metas && k <= |steps|
    ensures |states[k].metas| == |ins| && PlanTotal(steps, ins, k) == PlannedShare(states[k].metas, ins, |ins|)
  {
    if k == 0 {
      NothingShared(Start(w).metas, ins, |ins|);
    } else {
      PlannedIsShared(w, states, steps, ins, k - 1);
      assert StepAt(w, states, steps, k - 1);
      StepShares(w, states[k - 1], steps[k - 1], states[k], ins);
    }
  }

  /** A read that has started and not failed belongs to a planned object. */
  ghost predicate StartedIsPlanned(w: Work, s: State) {
    && w.Valid() && Shaped(w, s)
    && forall i :: 0 <= i < |s.tasks| && s.tasks[i] != Unborn && s.tasks[i] != Failed ==> s.metas[w.parent[i]] == MetaDone
  }

  lemma {:induction false} StepKeepsPlanned(w: Work, s: State, step: Step, t: State)
    requires StartedIsPlanned(w, s) && IsStep(w, s, step, t)
    ensures StartedIsPlanned(w, t)
  {
    forall i | 0 <= i < |t.tasks| && t.tasks[i] != Unborn && t.tasks[i] != Failed ensures t.metas[w.parent[i]] == MetaDone {
    }
  }

  lemma {:induction false} RunKeepsPlanned(w: Work, states: seq<State>, steps: seq<Step>, k: nat)
    requires IsRun(w, states, steps) && k < |states|
    ensures StartedIsPlanned(w, states[k])
  {
    if k > 0 {
      RunKeepsPlanned(w, states, steps, k - 1);
      assert StepAt(w, states, steps, k - 1);
      StepKeepsPlanned(w, states[k - 1], steps[k - 1], states[k]);
    }
  }
}
