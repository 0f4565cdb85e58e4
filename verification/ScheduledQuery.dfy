/** The layer-0 query under any schedule: coroutines wait for the byte budget and for
  * permits, reads arrive and are decoded in any order, and the count is always the same. */
module ScheduledQuery {
  import opened FloatBounds
  import Listing
  import Planner
  import opened Merge
  import opened Layout
  import opened Assembly
  import opened Query
  import PipelinedQuery
  import opened ArrayQuery
  import ZoneMap
  import Protocol

  /** Listed blocks d, d + 1, ... up to e. */
  ghost function HitsBetween(want: seq<Bytes>, decode: Decoder, lo: Ext, hi: Ext, d: nat, e: nat): (n: nat)
    requires d <= e <= |want| && forall i :: 0 <= i < |want| ==> want[i] in decode
    ensures DecodedHits(want, decode, lo, hi, e) == DecodedHits(want, decode, lo, hi, d) + n
    decreases e
  {
    if d == e then 0 else HitsBetween(want, decode, lo, hi, d, e - 1) + CountRange(decode[want[e - 1]], lo, hi)
  }

  /** Consecutive, non-empty runs that cover the listed blocks. */
  ghost predicate Cover(rs: seq<Run>, n: nat) {
    && (rs == [] ==> n == 0) && (rs != [] ==> rs[0].start == 0)
    && forall k :: 0 <= k < |rs| ==> rs[k].start <= End(rs, n, k) <= n
  }

  /** How many values each of the first k reads counts. */
  ghost function RunCounts(want: seq<Bytes>, rs: seq<Run>, decode: Decoder, lo: Ext, hi: Ext, k: nat): (counts: seq<nat>)
    requires Cover(rs, |want|) && k <= |rs| && forall i :: 0 <= i < |want| ==> want[i] in decode
    ensures |counts| == k
    ensures forall j :: 0 <= j < k ==> counts[j] == HitsBetween(want, decode, lo, hi, rs[j].start, End(rs, |want|, j))
  {
    if k == 0 then []
    else RunCounts(want, rs, decode, lo, hi, k - 1) + [HitsBetween(want, decode, lo, hi, rs[k - 1].start, End(rs, |want|, k - 1))]
  }

  /** The reads' counts add up to the matching values of all listed blocks. */
  lemma {:induction false} CountsAddUpTo(want: seq<Bytes>, rs: seq<Run>, decode: Decoder, lo: Ext, hi: Ext, counts: seq<nat>, k: nat)
    requires Cover(rs, |want|) && k <= |rs| && forall i :: 0 <= i < |want| ==> want[i] in decode
    requires counts == RunCounts(want, rs, decode, lo, hi, |rs|)
    ensures var e := if k < |rs| then rs[k].start else |want|;
            e <= |want| && Protocol.SumOf(counts, k) == DecodedHits(want, decode, lo, hi, e)
  {
    if k > 0 {
      CountsAddUpTo(want, rs, decode, lo, hi, counts, k - 1);
    }
  }

  lemma {:induction false} RunsCover(q: Job, rs: seq<Run>)
    requires ValidJob(q) && rs == Runs(q.cs, q.bs, q.gap, |q.cs|)
    ensures Cover(rs, |q.cs|)
  {
    forall k | 0 <= k < |rs| ensures rs[k].start <= End(rs, |q.cs|, k) <= |q.cs| && (k == 0 ==> rs[k].start == 0) {
      RunStarts(q, rs, k);
    }
  }

  /** A schedule of a job's reads that ran to its end without a failure. */
  ghost predicate RanToEnd(w: Protocol.Work, n: nat, states: seq<Protocol.State>, steps: seq<Protocol.Step>) {
    && Protocol.IsRun(w, states, steps) && |w.sizes| == n
    && Protocol.Shaped(w, states[|steps|]) && !Protocol.CanStep(w, states[|steps|])
    && forall i :: 0 <= i < |states[|steps|].tasks| ==> states[|steps|].tasks[i] != Protocol.Failed
  }

  /** What a step adds to the count. */
  ghost function StepCount(step: Protocol.Step, counts: seq<nat>): nat {
    if step.Finish? && step.i < |counts| then counts[step.i] else 0
  }

  /** What the coroutines read and decode. */
  datatype Reader = Reader(q: Job, rs: seq<Run>, decode: Decoder, lo: Ext, hi: Ext)

  /** counts are what the reads of rd count; n says how many reads there are. */
  ghost predicate Counts(rd: Reader, want: seq<Bytes>, counts: seq<nat>, n: nat) {
    && IsInput(rd.q, want) && rd.q.k == 1 && rd.rs == Runs(rd.q.cs, rd.q.bs, rd.q.gap, |rd.q.cs|) && Cover(rd.rs, |want|)
    && (forall i :: 0 <= i < |want| ==> want[i] in rd.decode)
    && counts == RunCounts(want, rd.rs, rd.decode, rd.lo, rd.hi, |rd.rs|) && n == |rd.rs|
  }

  /** The bytes of a read: req.end - req.start. */
  function ReadSize(layers: seq<nat>, n: nat, rs: seq<Run>, listed: nat, k: nat): int
    requires |layers| > 0 && k < |rs|
  {
    var r := Range(rs, listed, k, layers[0], LayerStart(n, layers, 0));
    r.end - r.start
  }

  /** Every read acquires and releases its own number of bytes. */
  ghost predicate SizesFit(w: Protocol.Work, q: Job, rs: seq<Run>)
    requires |q.layers| > 0
  {
    |w.sizes| == |rs| && forall k :: 0 <= k < |rs| ==> w.sizes[k] == ReadSize(q.layers, q.n, rs, |q.cs|, k)
  }

  /** The end of a read's decoding counts its blocks; other steps count nothing. */
  method CountStep(rd: Reader, step: Protocol.Step, ghost want: seq<Bytes>, ghost counts: seq<nat>, ghost n: nat) returns (m: nat)
    requires Counts(rd, want, counts, n) && (step.Finish? ==> step.i < n)
    ensures m == StepCount(step, counts)
  {
    m := 0;
    if step.Finish? {
      m := CountRun(rd.q, want, rd.rs, step.i, rd.decode, rd.lo, rd.hi);
    }
  }

  lemma {:induction false} StepOf(w: Protocol.Work, states: seq<Protocol.State>, steps: seq<Protocol.Step>, k: nat)
    requires Protocol.IsRun(w, states, steps) && k < |steps|
    ensures Protocol.IsStep(w, states[k], steps[k], states[k + 1])
    ensures steps[k].Finish? ==> steps[k].i < |w.sizes|
  {
    assert Protocol.StepAt(w, states, steps, k);
  }

  /** Step k of a schedule, performed on the shared objects. */
  method Turn(p: Protocol.Pipeline, steps: seq<Protocol.Step>, k: nat, ghost w: Protocol.Work, ghost states: seq<Protocol.State>)
    requires Protocol.IsRun(w, states, steps) && k < |steps| && p.work == w && p.Valid() && p.Snapshot() == states[k]
    modifies p, p.budget
    ensures p.Valid() && p.Snapshot() == states[k + 1]
  {
    StepOf(w, states, steps, k);
    p.Perform(steps[k]);
  }

  /** Step k, performed and counted. */
  method CountTurn(p: Protocol.Pipeline, rd: Reader, steps: seq<Protocol.Step>, k: nat, n: nat, ghost w: Protocol.Work,
                   ghost want: seq<Bytes>, ghost counts: seq<nat>, ghost states: seq<Protocol.State>)
    returns (total: nat)
    requires Protocol.IsRun(w, states, steps) && k < |steps| && p.work == w && p.Valid() && p.Snapshot() == states[k]
    requires Counts(rd, want, counts, |w.sizes|) && n == Protocol.FinishTotal(steps, counts, k)
    modifies p, p.budget
    ensures p.Valid() && p.Snapshot() == states[k + 1] && total == Protocol.FinishTotal(steps, counts, k + 1)
  {
    StepOf(w, states, steps, k);
    Turn(p, steps, k, w, states);
    var m := CountStep(rd, steps[k], want, counts, |w.sizes|);
    total := n + m;
  }

  /** The schedule, performed step by step on the shared budget and semaphore; a read is
    * decoded and counted by the step that ends it. */
  method Follow(rd: Reader, w: Protocol.Work, steps: seq<Protocol.Step>, ghost want: seq<Bytes>, ghost counts: seq<nat>, ghost states: seq<Protocol.State>)
    returns (n: nat)
    requires Protocol.IsRun(w, states, steps) && Counts(rd, want, counts, |w.sizes|)
    ensures n == Protocol.FinishTotal(steps, counts, |steps|)
  {
    var p := new Protocol.Pipeline(w);
    n := 0;
    for k := 0 to |steps|
      invariant fresh(p) && fresh(p.budget) && p.work == w && p.Valid() && p.Snapshot() == states[k]
      invariant n == Protocol.FinishTotal(steps, counts, k)
    {
      n := CountTurn(p, rd, steps, k, n, w, want, counts, states);
    }
  }

  /** stream_count with its coroutines interleaved by any schedule: each step is performed on
    * the shared budget and semaphore, and a read is counted when its decoding ends. */
  method StreamCountScheduled(q: Job, decode: Decoder, lo: Ext, hi: Ext, w: Protocol.Work, steps: seq<Protocol.Step>,
                              ghost want: seq<Bytes>, ghost states: seq<Protocol.State>)
    returns (n: nat)
    requires IsInput(q, want) && q.k == 1 && forall i :: 0 <= i < |want| ==> want[i] in decode
    requires RanToEnd(w, |Runs(q.cs, q.bs, q.gap, |q.cs|)|, states, steps) && SizesFit(w, q, Runs(q.cs, q.bs, q.gap, |q.cs|))
    ensures n == DecodedHits(want, decode, lo, hi, |want|)
  {
    var rs := Runs(q.cs, q.bs, q.gap, |q.cs|);
    RunsCover(q, rs);
    ghost var counts := RunCounts(want, rs, decode, lo, hi, |rs|);
    n := Follow(Reader(q, rs, decode, lo, hi), w, steps, want, counts, states);
    Protocol.EveryScheduleFinishes(w, states, steps, counts);
    CountsAddUpTo(want, rs, decode, lo, hi, counts, |rs|);
  }

  /** The query that plans first, from the stored records to the answer: in whatever order the
    * reads finish, within whatever budget, it counts the matching decoded values of the whole
    * array. */
  method CountArrayScheduled(v: ValueRange, a: Archive, g: Listing.Grid, recs: seq<ZoneMap.Record>, gap: nat,
                             w: Protocol.Work, steps: seq<Protocol.Step>,
                             ghost units: seq<Unit>, ghost values: seq<seq<seq<Ext>>>, ghost states: seq<Protocol.State>)
    returns (total: nat)
    requires TrueArchive(v.fp, a, g, recs, units, values) && a.k == 1
    requires var es := Planner.Plan(g, StatesOfAll(v.fp, recs, g.blocks, v.lo, v.hi, |recs|), ErrorsOfAll(v, recs, g.blocks, |recs|), false);
             RanToEnd(w, |PipelinedQuery.ReadsOf(es, gap)|, states, steps) && SizesFit(w, JobOf(a, es, gap), PipelinedQuery.ReadsOf(es, gap))
    ensures total == BruteForce(HitRows(a.values, v.lo, v.hi, |a.values|), |a.values|)
  {
    ghost var table := StatesOfAll(v.fp, recs, g.blocks, v.lo, v.hi, |recs|);
    ghost var h := HitRows(a.values, v.lo, v.hi, |a.values|);
    ghost var errs := ErrorsOfAll(v, recs, g.blocks, |recs|);
    ArchiveStates(v, a, g, recs, units, values, table, errs);
    var es, nIn := PlanUnits(v, g, recs, false, table, errs);
    PlanIsListed(a, g, table, errs, values, false, es);
    ghost var want := Inputs(a, es, |es|);
    InputsAreInput(a, es, gap);
    DecodedIsListed(a, es, v.lo, v.hi, h, want, |es|);
    var n := StreamCountScheduled(JobOf(a, es, gap), a.decode, v.lo, v.hi, w, steps, want, states);
    RowsAreSound(g, table, values, v.lo, v.hi, h);
    Planner.RowsMatch(g, table, errs, g.Chunks());
    CountIsBruteForce(h, Planner.Rows(g, table, g.Chunks()), Planner.Rows(g, errs, g.Chunks()), g.Chunks());
    total := nIn * 64 + n;
  }
}
