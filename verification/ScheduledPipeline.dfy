/** _query_pipelined under any schedule: an object is planned in the step that ends its
  * planning, and a read is counted in the step that ends its decoding. */
module ScheduledPipeline {
  import opened FloatBounds
  import opened ZoneMap
  import opened Listing
  import opened Planner
  import opened Merge
  import opened Layout
  import opened Assembly
  import opened Query
  import opened PipelinedQuery
  import opened ArrayQuery
  import ScheduledQuery
  import Protocol

  /** What is asked of which array: the records, the merge gap, and the zone map objects of t
    * planes of units each. */
  datatype Ask = Ask(v: ValueRange, a: Archive, g: Grid, recs: seq<Record>, gap: nat, t: nat)

  /** What the records and objects come to: states, bounds and values of the units, and each
    * object's list, IN count and reads' counts. */
  datatype Plans = Plans(states: seq<seq<State>>, errs: seq<seq<real>>, values: seq<seq<seq<Ext>>>,
                         lists: seq<seq<Entry>>, ins: seq<nat>, counts: seq<seq<nat>>)

  ghost predicate Asked(q: Ask, p: Plans) {
    && OnGrid(q.a, q.g, p.states, p.errs, p.values) && q.a.k == 1 && AreTables(q.v, q.g, q.recs, p.states, p.errs)
    && q.t % q.g.sx == 0
  }

  ghost predicate ArePlans(q: Ask, p: Plans) {
    && Asked(q, p) && |p.lists| == |p.ins| == |p.counts| && |p.lists| * q.t >= q.g.ux
    && forall m {:trigger IsPlan(q, p, m)} :: 0 <= m < |p.lists| ==> IsPlan(q, p, m)
  }

  ghost predicate IsPlan(q: Ask, p: Plans, m: nat)
    requires Asked(q, p) && m < |p.lists| == |p.ins| == |p.counts|
  {
    && p.lists[m] == ObjectPlan(q.g, p.states, p.errs, false, q.t, m) && p.ins[m] == ObjectIns(q.g, p.states, q.t, m)
    && Lists(q.a, p.lists[m]) && p.counts[m] == ListCounts(q, p.lists[m])
  }

  // ---- the reads of all objects ----

  /** Read number run of an object. */
  datatype Read = Read(meta: nat, run: nat)

  ghost function ObjectReads(m: nat, n: nat): (r: seq<Read>)
    ensures |r| == n && forall k :: 0 <= k < n ==> r[k] == Read(m, k)
  {
    if n == 0 then [] else ObjectReads(m, n - 1) + [Read(m, n - 1)]
  }

  /** The reads of the first m objects. */
  ghost function AllReads(lists: seq<seq<Entry>>, gap: nat, m: nat): (r: seq<Read>)
    requires m <= |lists|
    ensures forall k :: 0 <= k < |r| ==> r[k].meta < m && r[k].run < |ReadsOf(lists[r[k].meta], gap)|
  {
    if m == 0 then [] else AllReads(lists, gap, m - 1) + ObjectReads(m - 1, |ReadsOf(lists[m - 1], gap)|)
  }

  /** The tasks are the objects and their reads: every read belongs to its object and holds
    * its own number of bytes. */
  ghost predicate IsWork(q: Ask, w: Protocol.Work, slots: seq<Read>, p: Plans)
    requires |q.a.layers| > 0
  {
    && w.metas == |p.lists| && slots == AllReads(p.lists, q.gap, |p.lists|) && |w.sizes| == |w.parent| == |slots|
    && forall i :: 0 <= i < |slots| ==> w.parent[i] == slots[i].meta && HasBytes(q, p.lists[slots[i].meta], slots[i].run, w.sizes[i])
  }

  ghost predicate HasBytes(q: Ask, es: seq<Entry>, run: nat, size: nat)
    requires |q.a.layers| > 0 && run < |ReadsOf(es, q.gap)|
  {
    size == ScheduledQuery.ReadSize(q.a.layers, q.a.n, ReadsOf(es, q.gap), |es|, run)
  }

  // ---- what the reads count ----

  /** How many values each read of a list counts. */
  ghost function ListCounts(q: Ask, es: seq<Entry>): (counts: seq<nat>)
    requires ValidArchive(q.a) && Lists(q.a, es)
    ensures |counts| == |ReadsOf(es, q.gap)|
  {
    InputsAreInput(q.a, es, q.gap);
    ScheduledQuery.RunsCover(JobOf(q.a, es, q.gap), ReadsOf(es, q.gap));
    ScheduledQuery.RunCounts(Inputs(q.a, es, |es|), ReadsOf(es, q.gap), q.a.decode, q.v.lo, q.v.hi, |ReadsOf(es, q.gap)|)
  }

  lemma {:induction false} ListCountsAddUp(q: Ask, es: seq<Entry>, h: seq<seq<nat>>)
    requires ValidArchive(q.a) && Lists(q.a, es) && h == HitRows(q.a.values, q.v.lo, q.v.hi, |q.a.values|)
    ensures InHits(h, es) && Protocol.SumOf(ListCounts(q, es), |ListCounts(q, es)|) == ListedHits(h, es, |es|)
  {
    var want, rs := Inputs(q.a, es, |es|), ReadsOf(es, q.gap);
    InputsAreInput(q.a, es, q.gap);
    ScheduledQuery.RunsCover(JobOf(q.a, es, q.gap), rs);
    ScheduledQuery.CountsAddUpTo(want, rs, q.a.decode, q.v.lo, q.v.hi, ListCounts(q, es), |rs|);
    DecodedIsListed(q.a, es, q.v.lo, q.v.hi, h, want, |es|);
  }

  /** The counts of the reads of the first m objects. */
  ghost function AllCounts(counts: seq<seq<nat>>, m: nat): seq<nat>
    requires m <= |counts|
  {
    if m == 0 then [] else AllCounts(counts, m - 1) + counts[m - 1]
  }

  /** Entry i of the counts is that of read i. */
  ghost predicate CountAt(all: seq<Read>, flat: seq<nat>, counts: seq<seq<nat>>, i: nat)
    requires i < |all| == |flat|
  {
    var r := all[i];
    r.meta < |counts| && r.run < |counts[r.meta]| && flat[i] == counts[r.meta][r.run]
  }

  lemma {:induction false} CountOfRead(lists: seq<seq<Entry>>, gap: nat, counts: seq<seq<nat>>, m: nat, i: nat)
    requires m <= |lists| == |counts| && forall k :: 0 <= k < |lists| ==> |counts[k]| == |ReadsOf(lists[k], gap)|
    ensures |AllCounts(counts, m)| == |AllReads(lists, gap, m)|
    ensures i < |AllReads(lists, gap, m)| ==> CountAt(AllReads(lists, gap, m), AllCounts(counts, m), counts, i)
  {
    if m > 0 {
      CountOfRead(lists, gap, counts, m - 1, i);
      CountsJoin(AllReads(lists, gap, m - 1), ObjectReads(m - 1, |counts[m - 1]|), AllCounts(counts, m - 1), counts, m - 1, i);
    }
  }

  lemma {:induction false} CountsJoin(front: seq<Read>, more: seq<Read>, flat: seq<nat>, counts: seq<seq<nat>>, m: nat, i: nat)
    requires m < |counts| && more == ObjectReads(m, |counts[m]|) && |front| == |flat| && (i < |front| ==> CountAt(front, flat, counts, i))
    ensures i < |front + more| ==> CountAt(front + more, flat + counts[m], counts, i)
  {
    if |front| <= i < |front + more| {
      assert (front + more)[i] == more[i - |front|] && (flat + counts[m])[i] == counts[m][i - |front|];
    }
  }

  lemma {:induction false} PlanIs(q: Ask, p: Plans, m: nat)
    requires ArePlans(q, p) && m < |p.lists|
    ensures IsPlan(q, p, m)
  {
  }

  lemma {:induction false} CountsHaveReads(q: Ask, p: Plans)
    requires ArePlans(q, p)
    ensures forall k :: 0 <= k < |p.lists| ==> |p.counts[k]| == |ReadsOf(p.lists[k], q.gap)|
  {
    forall k | 0 <= k < |p.lists| ensures |p.counts[k]| == |ReadsOf(p.lists[k], q.gap)| {
      PlanIs(q, p, k);
    }
  }

  lemma {:induction false} SumOfAppend(a: seq<nat>, b: seq<nat>, n: nat)
    requires n <= |b|
    ensures Protocol.SumOf(a + b, |a| + n) == Protocol.SumOf(a, |a|) + Protocol.SumOf(b, n)
    decreases n
  {
    if n == 0 {
      SumOfPrefix(a, a + b, |a|);
    } else {
      SumOfAppend(a, b, n - 1);
    }
  }

  lemma {:induction false} SumOfPrefix(a: seq<nat>, b: seq<nat>, n: nat)
    requires n <= |a| && a <= b
    ensures Protocol.SumOf(a, n) == Protocol.SumOf(b, n)
  {
    if n > 0 { SumOfPrefix(a, b, n - 1); }
  }

  /** Reads count the matches of a list. */
  ghost predicate AddUp(counts: seq<nat>, h: seq<seq<nat>>, es: seq<Entry>) {
    InHits(h, es) && Protocol.SumOf(counts, |counts|) == ListedHits(h, es, |es|)
  }

  /** An object's list and IN count go on where those of the objects before it end. */
  ghost predicate Link(h: seq<seq<nat>>, p: Plans, fronts: seq<seq<Entry>>, tos: seq<nat>, m: nat)
    requires m < |p.lists| == |p.ins| == |p.counts| && |fronts| == |tos| == |p.lists| + 1
  {
    fronts[m + 1] == fronts[m] + p.lists[m] && tos[m + 1] == tos[m] + p.ins[m] && AddUp(p.counts[m], h, p.lists[m])
  }

  ghost predicate Linked(h: seq<seq<nat>>, p: Plans, fronts: seq<seq<Entry>>, tos: seq<nat>) {
    && |p.lists| == |p.ins| == |p.counts| && |fronts| == |tos| == |p.lists| + 1 && fronts[0] == [] && tos[0] == 0
    && forall m {:trigger Link(h, p, fronts, tos, m)} :: 0 <= m < |p.lists| ==> Link(h, p, fronts, tos, m)
  }

  /** The reads of the first m objects count the matches of what these list. */
  lemma {:induction false} ObjectsAddUp(h: seq<seq<nat>>, p: Plans, fronts: seq<seq<Entry>>, tos: seq<nat>, m: nat)
    requires Linked(h, p, fronts, tos) && m <= |p.lists|
    ensures AddUp(AllCounts(p.counts, m), h, fronts[m]) && Protocol.SumOf(p.ins, m) == tos[m]
  {
    if m > 0 {
      ObjectsAddUp(h, p, fronts, tos, m - 1);
      assert Link(h, p, fronts, tos, m - 1);
      ListsJoin(h, fronts[m - 1], p.lists[m - 1], AllCounts(p.counts, m - 1), p.counts[m - 1]);
    }
  }

  /** IN blocks before object m. */
  ghost function InsBefore(q: Ask, p: Plans, m: nat): nat
    requires Shaped(q.g, p.states) && q.t % q.g.sx == 0
  {
    ObjectInsContinue(q.g, p.states, q.t, m, ObjectChunk(q.g, q.t, m), ObjectChunk(q.g, q.t, m + 1));
    InsTo(q.g, p.states, ObjectChunk(q.g, q.t, m))
  }

  ghost function Tos(q: Ask, p: Plans, n: nat): (r: seq<nat>)
    requires Shaped(q.g, p.states) && q.t % q.g.sx == 0
    ensures |r| == n + 1 && forall m :: 0 <= m <= n ==> r[m] == InsBefore(q, p, m)
  {
    if n == 0 then [InsBefore(q, p, 0)] else Tos(q, p, n - 1) + [InsBefore(q, p, n)]
  }

  lemma {:induction false} PlansAreLinked(q: Ask, p: Plans, h: seq<seq<nat>>, fronts: seq<seq<Entry>>, tos: seq<nat>)
    requires ArePlans(q, p) && h == HitRows(q.a.values, q.v.lo, q.v.hi, |q.a.values|)
    requires fronts == Fronts(q.g, p.states, p.errs, q.t, |p.lists|) && tos == Tos(q, p, |p.lists|)
    ensures Linked(h, p, fronts, tos)
  {
    FirstObject(q.g, q.t);
    assert fronts[0] == FrontAt(q.g, p.states, p.errs, q.t, 0) && tos[0] == InsBefore(q, p, 0);
    forall m | 0 <= m < |p.lists| ensures Link(h, p, fronts, tos, m) {
      ObjectJoins(q, p, h, m, ObjectChunk(q.g, q.t, m), ObjectChunk(q.g, q.t, m + 1));
      assert fronts[m] == FrontAt(q.g, p.states, p.errs, q.t, m) && fronts[m + 1] == FrontAt(q.g, p.states, p.errs, q.t, m + 1);
      assert tos[m] == InsBefore(q, p, m) && tos[m + 1] == InsBefore(q, p, m + 1);
    }
  }

  lemma {:induction false} ObjectJoins(q: Ask, p: Plans, h: seq<seq<nat>>, m: nat, d: nat, c: nat)
    requires ArePlans(q, p) && h == HitRows(q.a.values, q.v.lo, q.v.hi, |q.a.values|) && m < |p.lists|
    requires d == ObjectChunk(q.g, q.t, m) && c == ObjectChunk(q.g, q.t, m + 1)
    ensures d <= c <= q.g.Chunks() && InsTo(q.g, p.states, c) == InsTo(q.g, p.states, d) + p.ins[m]
    ensures PlanTo(q.g, p.states, p.errs, false, c) == PlanTo(q.g, p.states, p.errs, false, d) + p.lists[m]
    ensures AddUp(p.counts[m], h, p.lists[m])
  {
    PlanIs(q, p, m);
    ObjectInsContinue(q.g, p.states, q.t, m, d, c);
    ObjectPlanContinues(q.g, p.states, p.errs, false, q.t, m, d, c);
    ListCountsAddUp(q, p.lists[m], h);
  }

  lemma {:induction false} ListsJoin(h: seq<seq<nat>>, front: seq<Entry>, es: seq<Entry>, a: seq<nat>, b: seq<nat>)
    requires AddUp(a, h, front) && AddUp(b, h, es)
    ensures AddUp(a + b, h, front + es)
  {
    ListedHitsJoin(h, front, es, front + es);
    SumOfAppend(a, b, |b|);
    assert |a + b| == |a| + |b|;
  }

  // ---- the steps that plan and count ----

  /** The lists of the objects that are planned. */
  ghost predicate Known(known: map<nat, seq<Entry>>, metas: seq<Protocol.MetaPhase>, lists: seq<seq<Entry>>) {
    |metas| == |lists| && forall m :: 0 <= m < |metas| && metas[m] == Protocol.MetaDone ==> m in known && known[m] == lists[m]
  }

  /** The end of an object's planning: its list and its IN count. */
  method PlanStep(q: Ask, m: nat, ghost p: Plans) returns (es: seq<Entry>, nIn: nat)
    requires ArePlans(q, p) && m < |p.lists|
    ensures es == p.lists[m] && nIn == p.ins[m]
  {
    PlanIs(q, p, m);
    es, nIn := PlanObject(q.v, q.g, q.recs, false, q.t, m, p.states, p.errs);
  }

  /** The end of a read's decoding: its count. */
  method CountRead(q: Ask, es: seq<Entry>, run: nat) returns (n: nat)
    requires ValidArchive(q.a) && q.a.k == 1 && Lists(q.a, es) && run < |ReadsOf(es, q.gap)|
    ensures n == ListCounts(q, es)[run]
  {
    var job := JobOf(q.a, es, q.gap);
    InputsAreInput(q.a, es, q.gap);
    ScheduledQuery.RunsCover(job, ReadsOf(es, q.gap));
    n := CountRun(job, Inputs(q.a, es, |es|), Runs(job.cs, job.bs, job.gap, |job.cs|), run, q.a.decode, q.v.lo, q.v.hi);
  }

  /** A read of a known list, counted. */
  method FinishStep(q: Ask, i: nat, slots: seq<Read>, known: map<nat, seq<Entry>>, ghost p: Plans, ghost counts: seq<nat>) returns (n: nat)
    requires ArePlans(q, p) && slots == AllReads(p.lists, q.gap, |p.lists|) && counts == AllCounts(p.counts, |p.lists|)
    requires i < |slots| && slots[i].meta in known && known[slots[i].meta] == p.lists[slots[i].meta]
    ensures i < |counts| && n == counts[i]
  {
    CountsHaveReads(q, p);
    CountOfRead(p.lists, q.gap, p.counts, |p.lists|, i);
    PlanIs(q, p, slots[i].meta);
    n := CountRead(q, known[slots[i].meta], slots[i].run);
  }

  lemma {:induction false} KnownStays(known: map<nat, seq<Entry>>, lists: seq<seq<Entry>>, w: Protocol.Work, s: Protocol.State, step: Protocol.Step, t: Protocol.State)
    requires Protocol.IsStep(w, s, step, t) && Known(known, s.metas, lists)
    ensures !step.MetaPlan? ==> Known(known, t.metas, lists)
    ensures step.MetaPlan? ==> step.m < |lists| && Known(known[step.m := lists[step.m]], t.metas, lists)
  {
  }

  /** A read that ends its decoding is one of a planned object. */
  lemma {:induction false} FinishedIsKnown(known: map<nat, seq<Entry>>, lists: seq<seq<Entry>>, w: Protocol.Work, s: Protocol.State, step: Protocol.Step, t: Protocol.State)
    requires Protocol.IsStep(w, s, step, t) && Protocol.StartedIsPlanned(w, s) && Known(known, s.metas, lists) && step.Finish?
    ensures step.i < |w.parent| && w.parent[step.i] < |lists|
    ensures w.parent[step.i] in known && known[w.parent[step.i]] == lists[w.parent[step.i]]
  {
  }

  /** What one step plans and counts; a read is only counted once its object is planned. */
  method Effect(q: Ask, step: Protocol.Step, slots: seq<Read>, known: map<nat, seq<Entry>>, ghost w: Protocol.Work,
                ghost p: Plans, ghost counts: seq<nat>, ghost s: Protocol.State, ghost t: Protocol.State)
    returns (lists: map<nat, seq<Entry>>, nIn: nat, n: nat)
    requires ArePlans(q, p) && IsWork(q, w, slots, p) && counts == AllCounts(p.counts, |p.lists|)
    requires Protocol.IsStep(w, s, step, t) && Protocol.StartedIsPlanned(w, s) && Known(known, s.metas, p.lists)
    ensures Known(lists, t.metas, p.lists)
    ensures nIn == if step.MetaPlan? && step.m < |p.ins| then p.ins[step.m] else 0
    ensures n == if step.Finish? && step.i < |counts| then counts[step.i] else 0
  {
    lists, nIn, n := known, 0, 0;
    KnownStays(known, p.lists, w, s, step, t);
    match step
    case MetaPlan(m) =>
      var es;
      es, nIn := PlanStep(q, m, p);
      lists := known[m := es];
    case Finish(i) =>
      FinishedIsKnown(known, p.lists, w, s, step, t);
      n := FinishStep(q, i, slots, known, p, counts);
    case _ =>
  }

  /** A schedule of this work. */
  ghost predicate Scheduled(q: Ask, w: Protocol.Work, slots: seq<Read>, p: Plans, counts: seq<nat>, states: seq<Protocol.State>, steps: seq<Protocol.Step>) {
    ArePlans(q, p) && IsWork(q, w, slots, p) && counts == AllCounts(p.counts, |p.lists|) && Protocol.IsRun(w, states, steps)
  }

  /** What the first k steps have planned and counted. */
  ghost predicate Reached(p: Plans, counts: seq<nat>, states: seq<Protocol.State>, steps: seq<Protocol.Step>, k: nat,
                          known: map<nat, seq<Entry>>, nIn: nat, n: nat)
    requires k <= |steps| < |states|
  {
    Known(known, states[k].metas, p.lists) && nIn == Protocol.PlanTotal(steps, p.ins, k) && n == Protocol.FinishTotal(steps, counts, k)
  }

  /** Step k, performed on the shared objects, with what it plans and counts. */
  method Advance(q: Ask, pipe: Protocol.Pipeline, steps: seq<Protocol.Step>, k: nat, slots: seq<Read>, known: map<nat, seq<Entry>>, nIn0: nat, n0: nat,
                 ghost w: Protocol.Work, ghost p: Plans, ghost counts: seq<nat>, ghost states: seq<Protocol.State>)
    returns (lists: map<nat, seq<Entry>>, nIn: nat, n: nat)
    requires Scheduled(q, w, slots, p, counts, states, steps) && k < |steps| && Reached(p, counts, states, steps, k, known, nIn0, n0)
    requires pipe.work == w && pipe.Valid() && pipe.Snapshot() == states[k]
    modifies pipe, pipe.budget
    ensures pipe.Valid() && pipe.Snapshot() == states[k + 1] && Reached(p, counts, states, steps, k + 1, lists, nIn, n)
  {
    ScheduledQuery.StepOf(w, states, steps, k);
    Protocol.RunKeepsPlanned(w, states, steps, k);
    ScheduledQuery.Turn(pipe, steps, k, w, states);
    var ins, m;
    lists, ins, m := Effect(q, steps[k], slots, known, w, p, counts, states[k], states[k + 1]);
    nIn, n := nIn0 + ins, n0 + m;
  }

  lemma {:induction false} NothingKnown(q: Ask, w: Protocol.Work, slots: seq<Read>, p: Plans, counts: seq<nat>, states: seq<Protocol.State>, steps: seq<Protocol.Step>)
    requires Scheduled(q, w, slots, p, counts, states, steps)
    ensures Protocol.IsRun(w, states, steps) && Reached(p, counts, states, steps, 0, map[], 0, 0)
  {
  }

  /** The schedule, performed step by step on the shared budget and semaphore. */
  method Follow(q: Ask, w: Protocol.Work, steps: seq<Protocol.Step>, slots: seq<Read>, ghost p: Plans, ghost counts: seq<nat>, ghost states: seq<Protocol.State>)
    returns (nIn: nat, n: nat)
    requires Scheduled(q, w, slots, p, counts, states, steps)
    ensures nIn == Protocol.PlanTotal(steps, p.ins, |steps|) && n == Protocol.FinishTotal(steps, counts, |steps|)
  {
    var pipe := new Protocol.Pipeline(w);
    var known: map<nat, seq<Entry>> := map[];
    NothingKnown(q, w, slots, p, counts, states, steps);
    nIn, n := 0, 0;
    for k := 0 to |steps|
      invariant fresh(pipe) && fresh(pipe.budget) && pipe.work == w && pipe.Valid() && pipe.Snapshot() == states[k]
      invariant Reached(p, counts, states, steps, k, known, nIn, n)
    {
      known, nIn, n := Advance(q, pipe, steps, k, slots, known, nIn, n, w, p, counts, states);
    }
  }

  /** A schedule that ran to its end, with every object planned and every read counted. */
  ghost predicate RanWhole(w: Protocol.Work, states: seq<Protocol.State>, steps: seq<Protocol.Step>) {
    && ScheduledQuery.RanToEnd(w, |w.sizes|, states, steps)
    && forall m :: 0 <= m < |states[|steps|].metas| ==> states[|steps|].metas[m] != Protocol.MetaFailed
  }

  lemma {:induction false} WholeTotals(q: Ask, w: Protocol.Work, states: seq<Protocol.State>, steps: seq<Protocol.Step>, slots: seq<Read>, p: Plans, counts: seq<nat>)
    requires ArePlans(q, p) && IsWork(q, w, slots, p) && RanWhole(w, states, steps) && counts == AllCounts(p.counts, |p.lists|)
    ensures Protocol.PlanTotal(steps, p.ins, |steps|) == Protocol.SumOf(p.ins, |p.ins|)
    ensures Protocol.FinishTotal(steps, counts, |steps|) == Protocol.SumOf(counts, |counts|)
  {
    CountsHaveReads(q, p);
    CountOfRead(p.lists, q.gap, p.counts, |p.lists|, 0);
    RunTotals(w, states, steps, p.ins, counts);
  }

  lemma {:induction false} RunTotals(w: Protocol.Work, states: seq<Protocol.State>, steps: seq<Protocol.Step>, ins: seq<nat>, counts: seq<nat>)
    requires RanWhole(w, states, steps) && |ins| == w.metas && |counts| == |w.sizes|
    ensures Protocol.PlanTotal(steps, ins, |steps|) == Protocol.SumOf(ins, |ins|)
    ensures Protocol.FinishTotal(steps, counts, |steps|) == Protocol.SumOf(counts, |counts|)
  {
    Protocol.EveryScheduleFinishes(w, states, steps, counts);
    Protocol.PlannedIsShared(w, states, steps, ins, |steps|);
    Protocol.AllShared(states[|steps|].metas, ins, |ins|);
  }

  ghost function PlansOf(q: Ask, states: seq<seq<State>>, errs: seq<seq<real>>, n: nat): (r: seq<seq<Entry>>)
    requires Shaped(q.g, states) && Shaped(q.g, errs) && q.t % q.g.sx == 0
    ensures |r| == n && forall m :: 0 <= m < n ==> r[m] == ObjectPlan(q.g, states, errs, false, q.t, m)
  {
    if n == 0 then [] else PlansOf(q, states, errs, n - 1) + [ObjectPlan(q.g, states, errs, false, q.t, n - 1)]
  }

  ghost function InsOf(q: Ask, states: seq<seq<State>>, n: nat): (r: seq<nat>)
    requires Shaped(q.g, states) && q.t % q.g.sx == 0
    ensures |r| == n && forall m :: 0 <= m < n ==> r[m] == ObjectIns(q.g, states, q.t, m)
  {
    if n == 0 then [] else InsOf(q, states, n - 1) + [ObjectIns(q.g, states, q.t, n - 1)]
  }

  ghost predicate CountsAt(q: Ask, lists: seq<seq<Entry>>, counts: seq<seq<nat>>, m: nat)
    requires ValidArchive(q.a) && m < |lists| && m < |counts|
  {
    Lists(q.a, lists[m]) && counts[m] == ListCounts(q, lists[m])
  }

  ghost function CountsOf(q: Ask, lists: seq<seq<Entry>>, n: nat): (r: seq<seq<nat>>)
    requires ValidArchive(q.a) && n <= |lists| && forall m {:trigger Lists(q.a, lists[m])} :: 0 <= m < |lists| ==> Lists(q.a, lists[m])
    ensures |r| == n && forall m {:trigger CountsAt(q, lists, r, m)} :: 0 <= m < n ==> CountsAt(q, lists, r, m)
  {
    if n == 0 then []
    else
      var front, next := CountsOf(q, lists, n - 1), ListCounts(q, lists[n - 1]);
      OneMoreCount(q, lists, front, next, n - 1);
      front + [next]
  }

  lemma {:induction false} OneMoreCount(q: Ask, lists: seq<seq<Entry>>, front: seq<seq<nat>>, next: seq<nat>, n: nat)
    requires ValidArchive(q.a) && n == |front| < |lists| && Lists(q.a, lists[n]) && next == ListCounts(q, lists[n])
    requires forall m {:trigger CountsAt(q, lists, front, m)} :: 0 <= m < n ==> CountsAt(q, lists, front, m)
    ensures forall m {:trigger CountsAt(q, lists, front + [next], m)} :: 0 <= m <= n ==> CountsAt(q, lists, front + [next], m)
  {
    forall m | 0 <= m <= n ensures CountsAt(q, lists, front + [next], m) {
      if m < n { assert CountsAt(q, lists, front, m); }
    }
  }

  lemma {:induction false} ObjectLists(q: Ask, states: seq<seq<State>>, errs: seq<seq<real>>, values: seq<seq<seq<Ext>>>, m: nat, es: seq<Entry>)
    requires OnGrid(q.a, q.g, states, errs, values) && q.t % q.g.sx == 0 && es == ObjectPlan(q.g, states, errs, false, q.t, m)
    ensures Lists(q.a, es)
  {
    ObjectIsListed(q.a, q.g, states, errs, values, false, q.t, m, es, ObjectChunk(q.g, q.t, m), ObjectChunk(q.g, q.t, m + 1));
  }

  /** What count objects of the archive come to. */
  ghost function PlansFor(q: Ask, states: seq<seq<State>>, errs: seq<seq<real>>, values: seq<seq<seq<Ext>>>, count: nat): (p: Plans)
    requires OnGrid(q.a, q.g, states, errs, values) && q.a.k == 1 && AreTables(q.v, q.g, q.recs, states, errs)
    requires q.t % q.g.sx == 0 && count * q.t >= q.g.ux
    ensures ArePlans(q, p) && p.states == states && p.errs == errs && p.values == values && |p.lists| == count
  {
    var lists := PlansOf(q, states, errs, count);
    assert forall m :: 0 <= m < |lists| ==> Lists(q.a, lists[m]) by {
      forall m | 0 <= m < |lists| ensures Lists(q.a, lists[m]) {
        ObjectLists(q, states, errs, values, m, lists[m]);
      }
    }
    var p := Plans(states, errs, values, lists, InsOf(q, states, count), CountsOf(q, lists, count));
    assert forall m {:trigger IsPlan(q, p, m)} :: 0 <= m < |lists| ==> IsPlan(q, p, m) by {
      forall m | 0 <= m < |lists| ensures IsPlan(q, p, m) {
        assert CountsAt(q, lists, p.counts, m);
      }
    }
    p
  }

  /** The plans of the stored records. */
  ghost function RecordPlans(q: Ask, count: nat, units: seq<Unit>, values: seq<seq<seq<Ext>>>): (p: Plans)
    requires TrueArchive(q.v.fp, q.a, q.g, q.recs, units, values) && q.a.k == 1 && q.t % q.g.sx == 0 && count * q.t >= q.g.ux
    ensures ArePlans(q, p) && SoundUnits(q.g, p.states, p.values, q.v.lo, q.v.hi) && |p.lists| == count
  {
    var states := StatesOfAll(q.v.fp, q.recs, q.g.blocks, q.v.lo, q.v.hi, |q.recs|);
    var errs := ErrorsOfAll(q.v, q.recs, q.g.blocks, |q.recs|);
    ArchiveStates(q.v, q.a, q.g, q.recs, units, values, states, errs);
    PlansFor(q, states, errs, values, count)
  }

  /** The pipelined query under any schedule, from the stored records: in whatever order the
    * objects arrive, are planned and their blocks read, within whatever budget and permits, it
    * counts the matching decoded values of the whole array. */
  method QueryScheduled(q: Ask, w: Protocol.Work, steps: seq<Protocol.Step>, slots: seq<Read>,
                        ghost units: seq<Unit>, ghost values: seq<seq<seq<Ext>>>, ghost states: seq<Protocol.State>)
    returns (count: nat)
    requires TrueArchive(q.v.fp, q.a, q.g, q.recs, units, values) && q.a.k == 1 && q.t % q.g.sx == 0 && w.metas * q.t >= q.g.ux
    requires IsWork(q, w, slots, RecordPlans(q, w.metas, units, values)) && RanWhole(w, states, steps)
    ensures count == BruteForce(HitRows(q.a.values, q.v.lo, q.v.hi, |q.a.values|), |q.a.values|)
  {
    ghost var p := RecordPlans(q, w.metas, units, values);
    ghost var counts := AllCounts(p.counts, |p.lists|);
    var nIn, n := Follow(q, w, steps, slots, p, counts, states);
    WholeTotals(q, w, states, steps, slots, p, counts);
    AllAddUp(q, p, counts);
    count := nIn * 64 + n;
  }

  lemma {:induction false} AllAddUp(q: Ask, p: Plans, counts: seq<nat>)
    requires ArePlans(q, p) && SoundUnits(q.g, p.states, p.values, q.v.lo, q.v.hi) && counts == AllCounts(p.counts, |p.lists|)
    ensures Protocol.SumOf(p.ins, |p.ins|) * 64 + Protocol.SumOf(counts, |counts|)
         == BruteForce(HitRows(q.a.values, q.v.lo, q.v.hi, |q.a.values|), |q.a.values|)
  {
    var h := HitRows(q.a.values, q.v.lo, q.v.hi, |q.a.values|);
    var n := |p.lists|;
    var fronts, tos := Fronts(q.g, p.states, p.errs, q.t, n), Tos(q, p, n);
    PlansAreLinked(q, p, h, fronts, tos);
    ObjectsAddUp(h, p, fronts, tos, n);
    LastObject(q.g, q.t, n);
    assert fronts[n] == FrontAt(q.g, p.states, p.errs, q.t, n) && tos[n] == InsBefore(q, p, n);
    TotalIsBruteForce(q.g, p.states, p.errs, p.values, q.v.lo, q.v.hi, h, PlanTo(q.g, p.states, p.errs, false, q.g.Chunks()));
  }
}
