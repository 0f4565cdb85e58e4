/** _query_pipelined: every zone map object is planned, read and counted alone, and the
  * totals are those of the query that runs its steps in turn. */
module PipelinedQuery {
  import opened FloatBounds
  import opened ZoneMap
  import opened Listing
  import opened Planner
  import opened Merge
  import opened Query

  /** The IN blocks counted in object i. */
  ghost function ObjectIns(g: Grid, states: seq<seq<State>>, t: nat, i: nat): nat
    requires Shaped(g, states) && t % g.sx == 0
  {
    ObjectIsWhole(g, t, i);
    var u0, u1 := ObjectStart(g, t, i), ObjectStart(g, t, i + 1);
    SlabIns(g, states, u0, u1 - u0)
  }

  ghost function SlabIns(g: Grid, states: seq<seq<State>>, u0: nat, n: nat): nat
    requires Shaped(g, states) && u0 + n <= g.ux && n % g.sx == 0
  {
    SlabIsShaped(g, states, u0, n);
    CountAll(Rows(SlabGrid(g, n), Slab(g, states, u0, n), SlabGrid(g, n).Chunks()), In, SlabGrid(g, n).Chunks())
  }

  /** IN blocks of the first n chunks. */
  ghost function InsTo(g: Grid, states: seq<seq<State>>, n: nat): nat
    requires Shaped(g, states) && n <= g.Chunks()
  {
    CountAll(Rows(g, states, g.Chunks()), In, n)
  }

  lemma {:induction false} SlabInsContinue(g: Grid, states: seq<seq<State>>, u0: nat, u1: nat, n: nat)
    requires Shaped(g, states) && u0 + n == u1 <= g.ux && u0 % g.sx == 0 && n % g.sx == 0
    ensures ChunkShift(g, u0) <= ChunkShift(g, u1) <= g.Chunks()
    ensures InsTo(g, states, ChunkShift(g, u1)) == InsTo(g, states, ChunkShift(g, u0)) + SlabIns(g, states, u0, n)
  {
    SlabRows(g, states, u0, u1, n);
    CountContinues(Rows(g, states, g.Chunks()), ChunkShift(g, u0),
                   Rows(SlabGrid(g, n), Slab(g, states, u0, n), SlabGrid(g, n).Chunks()), In, SlabGrid(g, n).Chunks());
  }

  lemma {:induction false} ObjectInsContinue(g: Grid, states: seq<seq<State>>, t: nat, i: nat, d: nat, c: nat)
    requires Shaped(g, states) && t % g.sx == 0 && d == ObjectChunk(g, t, i) && c == ObjectChunk(g, t, i + 1)
    ensures d <= c <= g.Chunks() && InsTo(g, states, c) == InsTo(g, states, d) + ObjectIns(g, states, t, i)
  {
    ObjectIsWhole(g, t, i);
    var u0, u1 := ObjectStart(g, t, i), ObjectStart(g, t, i + 1);
    SlabInsContinue(g, states, u0, u1, u1 - u0);
  }

  /** What each object's planner returned: its IN count and its list, chunk ids shifted. */
  ghost predicate Planned(g: Grid, states: seq<seq<State>>, errs: seq<seq<real>>, t: nat, plans: seq<seq<Entry>>, ins: seq<nat>)
    requires Shaped(g, states) && Shaped(g, errs)
  {
    && t % g.sx == 0 && |plans| == |ins| && |plans| * t >= g.ux
    && forall i :: 0 <= i < |plans| ==> plans[i] == ObjectPlan(g, states, errs, false, t, i) && ins[i] == ObjectIns(g, states, t, i)
  }

  /** One object's list is a part of the whole list, so it lists existing blocks in order. */
  lemma {:induction false} ObjectIsListed(a: Archive, g: Grid, states: seq<seq<State>>, errs: seq<seq<real>>, values: seq<seq<seq<Ext>>>, keepIn: bool, t: nat, i: nat,
                                          es: seq<Entry>, d: nat, c: nat)
    requires OnGrid(a, g, states, errs, values) && t % g.sx == 0 && es == ObjectPlan(g, states, errs, keepIn, t, i)
    requires d == ObjectChunk(g, t, i) && c == ObjectChunk(g, t, i + 1)
    ensures d <= c <= g.Chunks() && Lists(a, es) && Lists(a, PlanTo(g, states, errs, keepIn, d))
    ensures PlanTo(g, states, errs, keepIn, c) == PlanTo(g, states, errs, keepIn, d) + es
    ensures forall k :: 0 <= k < |es| ==> d <= es[k].chunk < c
  {
    ObjectPlanContinues(g, states, errs, keepIn, t, i, d, c);
    PrefixIsListed(a, g, states, errs, values, keepIn, c);
    PrefixIsListed(a, g, states, errs, values, keepIn, d);
    var front, all := PlanTo(g, states, errs, keepIn, d), PlanTo(g, states, errs, keepIn, c);
    SuffixIsListed(a, front, es, all);
    RowsMatch(g, states, errs, g.Chunks());
    LaterChunks(Rows(g, states, g.Chunks()), Rows(g, errs, g.Chunks()), keepIn, d, c, es);
  }

  lemma {:induction false} PrefixIsListed(a: Archive, g: Grid, states: seq<seq<State>>, errs: seq<seq<real>>, values: seq<seq<seq<Ext>>>, keepIn: bool, n: nat)
    requires OnGrid(a, g, states, errs, values) && n <= g.Chunks()
    ensures Lists(a, PlanTo(g, states, errs, keepIn, n))
    ensures forall k :: 0 <= k < |PlanTo(g, states, errs, keepIn, n)| ==> PlanTo(g, states, errs, keepIn, n)[k].chunk < n
  {
    var es := PlanTo(g, states, errs, keepIn, n);
    RowsMatch(g, states, errs, g.Chunks());
    ListIsSorted(0, Rows(g, states, g.Chunks()), Rows(g, errs, g.Chunks()), keepIn, n);
    forall k | 0 <= k < |es| ensures es[k].chunk < n && es[k].chunk < |a.store| && es[k].block < a.n {
      PlannedBlock(a, g, states, errs, values, keepIn, n, es[k]);
    }
  }

  lemma {:induction false} PlannedBlock(a: Archive, g: Grid, states: seq<seq<State>>, errs: seq<seq<real>>, values: seq<seq<seq<Ext>>>, keepIn: bool, n: nat, e: Entry)
    requires OnGrid(a, g, states, errs, values) && n <= g.Chunks() && e in PlanTo(g, states, errs, keepIn, n)
    ensures e.chunk < n && e.chunk < |a.store| && e.block < a.n
  {
    RowsMatch(g, states, errs, g.Chunks());
    ListIsExact(0, Rows(g, states, g.Chunks()), Rows(g, errs, g.Chunks()), keepIn, n, e);
    RowSize(a, g, states, errs, values, e.chunk);
  }

  lemma {:induction false} RowSize(a: Archive, g: Grid, states: seq<seq<State>>, errs: seq<seq<real>>, values: seq<seq<seq<Ext>>>, c: nat)
    requires OnGrid(a, g, states, errs, values) && c < g.Chunks()
    ensures c < |a.store| && |Row(g, states, c, g.Subs())| == a.n
  {
    RowLength(g, states, c, g.Subs());
    RowLength(g, values, c, g.Subs());
    assert StoredChunk(a, c);
  }

  lemma {:induction false} SuffixIsListed(a: Archive, front: seq<Entry>, es: seq<Entry>, all: seq<Entry>)
    requires all == front + es && Lists(a, all)
    ensures Lists(a, es)
  {
    forall i, j | 0 <= i < j < |es| ensures Before(es[i], es[j]) {
      assert Before(all[|front| + i], all[|front| + j]);
    }
    forall i | 0 <= i < |es| ensures es[i].chunk < |a.store| && es[i].block < a.n {
      assert all[|front| + i] == es[i];
    }
  }

  lemma {:induction false} LaterIndices(rows: seq<seq<State>>, errs: seq<seq<real>>, keepIn: bool, d: nat, c: nat)
    requires SameShape(rows, errs) && d <= c <= |rows|
    ensures var front, all := ListChunks(0, rows, errs, keepIn, d), ListChunks(0, rows, errs, keepIn, c);
            |front| <= |all| && forall k :: |front| <= k < |all| ==> d <= all[k].chunk < c
    decreases c
  {
    if d < c {
      LaterIndices(rows, errs, keepIn, d, c - 1);
      BlocksAreSorted(c - 1, rows[c - 1], errs[c - 1], keepIn, |rows[c - 1]|);
    }
  }

  lemma {:induction false} LaterChunks(rows: seq<seq<State>>, errs: seq<seq<real>>, keepIn: bool, d: nat, c: nat, es: seq<Entry>)
    requires SameShape(rows, errs) && d <= c <= |rows|
    requires ListChunks(0, rows, errs, keepIn, c) == ListChunks(0, rows, errs, keepIn, d) + es
    ensures forall k :: 0 <= k < |es| ==> d <= es[k].chunk < c
  {
    var front, all := ListChunks(0, rows, errs, keepIn, d), ListChunks(0, rows, errs, keepIn, c);
    LaterIndices(rows, errs, keepIn, d, c);
    forall k | 0 <= k < |es| ensures d <= es[k].chunk < c {
      assert all[|front| + k] == es[k];
    }
  }

  /** One object's list, read and counted after the objects before it. */
  method CountObject(a: Archive, ghost g: Grid, ghost states: seq<seq<State>>, ghost errs: seq<seq<real>>, ghost values: seq<seq<seq<Ext>>>,
                     ghost t: nat, ghost i: nat, es: seq<Entry>, gap: nat, lo: Ext, hi: Ext, ghost h: seq<seq<nat>>, ghost d: nat, ghost c: nat,
                     ghost done: seq<Entry>)
    returns (m: nat)
    requires OnGrid(a, g, states, errs, values) && a.k == 1 && t % g.sx == 0 && h == HitRows(a.values, lo, hi, |a.values|)
    requires es == ObjectPlan(g, states, errs, false, t, i) && d == ObjectChunk(g, t, i) && c == ObjectChunk(g, t, i + 1)
    requires d <= g.Chunks() && done == PlanTo(g, states, errs, false, d) && InHits(h, done)
    ensures d <= c <= g.Chunks() && done + es == PlanTo(g, states, errs, false, c)
    ensures InHits(h, done + es) && ListedHits(h, done + es, |done + es|) == ListedHits(h, done, |done|) + m
  {
    ObjectIsListed(a, g, states, errs, values, false, t, i, es, d, c);
    m := CountListed(a, es, gap, {}, lo, hi, h);
    ListedHitsJoin(h, done, es, done + es);
  }

  lemma {:induction false} ListedHitsJoin(h: seq<seq<nat>>, a: seq<Entry>, b: seq<Entry>, all: seq<Entry>)
    requires InHits(h, a) && InHits(h, b) && all == a + b
    ensures InHits(h, all) && ListedHits(h, all, |all|) == ListedHits(h, a, |a|) + ListedHits(h, b, |b|)
  {
    ListedHitsAppend(h, a, b, |b|);
    assert |all| == |a| + |b|;
  }

  /** What the first d chunks give: their list, their IN blocks and the listed blocks' count. */
  ghost predicate SoFar(g: Grid, states: seq<seq<State>>, errs: seq<seq<real>>, h: seq<seq<nat>>, d: nat, done: seq<Entry>, nIn: nat, n: nat)
    requires Shaped(g, states) && Shaped(g, errs)
  {
    && d <= g.Chunks() && done == PlanTo(g, states, errs, false, d) && nIn == InsTo(g, states, d)
    && InHits(h, done) && n == ListedHits(h, done, |done|)
  }

  /** One object's list and IN count, behind those of the objects before it. */
  method CountNext(a: Archive, ghost g: Grid, ghost states: seq<seq<State>>, ghost errs: seq<seq<real>>, ghost values: seq<seq<seq<Ext>>>,
                   ghost t: nat, ghost i: nat, es: seq<Entry>, ins: nat, gap: nat, lo: Ext, hi: Ext, nIn0: nat, n0: nat,
                   ghost h: seq<seq<nat>>, ghost d: nat, ghost c: nat, ghost done: seq<Entry>)
    returns (nIn: nat, n: nat)
    requires OnGrid(a, g, states, errs, values) && a.k == 1 && t % g.sx == 0 && h == HitRows(a.values, lo, hi, |a.values|)
    requires es == ObjectPlan(g, states, errs, false, t, i) && ins == ObjectIns(g, states, t, i)
    requires d == ObjectChunk(g, t, i) && c == ObjectChunk(g, t, i + 1) && SoFar(g, states, errs, h, d, done, nIn0, n0)
    ensures SoFar(g, states, errs, h, c, done + es, nIn, n)
  {
    ObjectInsContinue(g, states, t, i, d, c);
    var m := CountObject(a, g, states, errs, values, t, i, es, gap, lo, hi, h, d, c, done);
    nIn, n := nIn0 + ins, n0 + m;
  }

  lemma {:induction false} NothingSoFar(g: Grid, states: seq<seq<State>>, errs: seq<seq<real>>, h: seq<seq<nat>>, t: nat)
    requires Shaped(g, states) && Shaped(g, errs)
    ensures SoFar(g, states, errs, h, ObjectChunk(g, t, 0), [], 0, 0)
  {
    FirstObject(g, t);
  }

  /** All objects, one after another. */
  method CountObjects(a: Archive, ghost g: Grid, ghost states: seq<seq<State>>, ghost errs: seq<seq<real>>, ghost values: seq<seq<seq<Ext>>>,
                      ghost t: nat, plans: seq<seq<Entry>>, ins: seq<nat>, gap: nat, lo: Ext, hi: Ext, ghost h: seq<seq<nat>>)
    returns (nIn: nat, n: nat, ghost done: seq<Entry>)
    requires OnGrid(a, g, states, errs, values) && a.k == 1 && h == HitRows(a.values, lo, hi, |a.values|)
    requires Planned(g, states, errs, t, plans, ins)
    ensures SoFar(g, states, errs, h, g.Chunks(), done, nIn, n)
  {
    nIn, n, done := 0, 0, [];
    NothingSoFar(g, states, errs, h, t);
    for i := 0 to |plans|
      invariant SoFar(g, states, errs, h, ObjectChunk(g, t, i), done, nIn, n)
    {
      nIn, n := CountNext(a, g, states, errs, values, t, i, plans[i], ins[i], gap, lo, hi, nIn, n,
                          h, ObjectChunk(g, t, i), ObjectChunk(g, t, i + 1), done);
      done := done + plans[i];
    }
    LastObject(g, t, |plans|);
  }

  /** The pipelined query counts what the query in turn counts: the brute-force count. */
  method QueryPipelined(a: Archive, ghost g: Grid, ghost states: seq<seq<State>>, ghost errs: seq<seq<real>>, ghost values: seq<seq<seq<Ext>>>,
                        ghost t: nat, plans: seq<seq<Entry>>, ins: seq<nat>, gap: nat, lo: Ext, hi: Ext)
    returns (count: nat)
    requires OnGrid(a, g, states, errs, values) && SoundUnits(g, states, values, lo, hi) && a.k == 1
    requires Planned(g, states, errs, t, plans, ins)
    ensures count == BruteForce(HitRows(a.values, lo, hi, |a.values|), |a.values|)
  {
    ghost var h := HitRows(a.values, lo, hi, |a.values|);
    var nIn, n;
    ghost var done;
    nIn, n, done := CountObjects(a, g, states, errs, values, t, plans, ins, gap, lo, hi, h);
    TotalIsBruteForce(g, states, errs, values, lo, hi, h, done);
    count := nIn * 64 + n;
  }

  lemma {:induction false} TotalIsBruteForce(g: Grid, states: seq<seq<State>>, errs: seq<seq<real>>, values: seq<seq<seq<Ext>>>, lo: Ext, hi: Ext,
                                             h: seq<seq<nat>>, es: seq<Entry>)
    requires Shaped(g, states) && Shaped(g, errs) && Shaped(g, values) && SoundUnits(g, states, values, lo, hi)
    requires h == HitRows(Rows(g, values, g.Chunks()), lo, hi, g.Chunks()) && es == PlanTo(g, states, errs, false, g.Chunks())
    ensures InHits(h, es) && InsTo(g, states, g.Chunks()) * 64 + ListedHits(h, es, |es|) == BruteForce(h, g.Chunks())
  {
    RowsAreSound(g, states, values, lo, hi, h);
    RowsMatch(g, states, errs, g.Chunks());
    CountIsBruteForce(h, Rows(g, states, g.Chunks()), Rows(g, errs, g.Chunks()), g.Chunks());
  }

  lemma {:induction false} LastObject(g: Grid, t: nat, count: nat)
    requires g.Valid() && count * t >= g.ux
    ensures ObjectChunk(g, t, count) == g.Chunks()
  {
  }

  // ---- the same lists ----

  lemma {:induction false} ChunksAppend(a: seq<Entry>, b: seq<Entry>, all: seq<Entry>)
    requires all == a + b
    ensures Continues(Chunks(all, |all|), Blocks(all, |all|), |a|, Chunks(b, |b|), Blocks(b, |b|))
    ensures forall i :: 0 <= i < |a| ==> Chunks(all, |all|)[i] == Chunks(a, |a|)[i] && Blocks(all, |all|)[i] == Blocks(a, |a|)[i]
  {
  }

  /** The reads of a list. */
  function ReadsOf(es: seq<Entry>, gap: nat): seq<Run> {
    Runs(Chunks(es, |es|), Blocks(es, |es|), gap, |es|)
  }

  /** The reads of an object follow those of the objects before it, block for block. */
  lemma {:induction false} ReadsContinue(a: seq<Entry>, b: seq<Entry>, all: seq<Entry>, gap: nat, d: nat)
    requires all == a + b
    requires (forall i :: 0 <= i < |a| ==> a[i].chunk < d) && (forall i :: 0 <= i < |b| ==> d <= b[i].chunk)
    ensures ReadsOf(all, gap) == ReadsOf(a, gap) + Moved(ReadsOf(b, gap), |a|)
  {
    ChunksAppend(a, b, all);
    RunsPrefixSame(Chunks(all, |all|), Blocks(all, |all|), Chunks(a, |a|), Blocks(a, |a|), gap, |a|);
    if 0 < |a| < |all| {
      assert Chunks(all, |all|)[|a| - 1] == a[|a| - 1].chunk && Chunks(all, |all|)[|a|] == b[0].chunk;
    }
    RunsJoin(Chunks(all, |all|), Blocks(all, |all|), |a|, Chunks(b, |b|), Blocks(b, |b|), gap);
  }

  /** The reads of each object. */
  ghost function PartsOf(plans: seq<seq<Entry>>, gap: nat, n: nat): (r: seq<seq<Run>>)
    requires n <= |plans|
    ensures |r| == n && forall k :: 0 <= k < n ==> r[k] == ReadsOf(plans[k], gap)
  {
    if n == 0 then [] else PartsOf(plans, gap, n - 1) + [ReadsOf(plans[n - 1], gap)]
  }

  /** Blocks listed by the first k objects. */
  ghost function Listed(plans: seq<seq<Entry>>, k: nat): nat
    requires k <= |plans|
  {
    if k == 0 then 0 else Listed(plans, k - 1) + |plans[k - 1]|
  }

  /** The reads of the first k objects, one after another, with item positions of the whole list. */
  ghost function JoinedReads(parts: seq<seq<Run>>, plans: seq<seq<Entry>>, k: nat): seq<Run>
    requires k <= |parts| == |plans|
  {
    if k == 0 then [] else JoinedReads(parts, plans, k - 1) + Moved(parts[k - 1], Listed(plans, k - 1))
  }

  /** A list and its reads continued by an object's. */
  ghost predicate Step(front: seq<Entry>, es: seq<Entry>, all: seq<Entry>, gap: nat) {
    |all| == |front| + |es| && ReadsOf(all, gap) == ReadsOf(front, gap) + Moved(ReadsOf(es, gap), |front|)
  }

  /** Reads growing object by object. */
  ghost predicate Chain(lists: seq<seq<Run>>, sizes: seq<nat>, parts: seq<seq<Run>>, plans: seq<seq<Entry>>) {
    && |lists| == |sizes| == |plans| + 1 && |parts| == |plans| && lists[0] == [] && sizes[0] == 0
    && forall k :: 0 < k <= |plans| ==> sizes[k] == sizes[k - 1] + |plans[k - 1]| && lists[k] == lists[k - 1] + Moved(parts[k - 1], sizes[k - 1])
  }

  lemma {:induction false} ChainReads(lists: seq<seq<Run>>, sizes: seq<nat>, parts: seq<seq<Run>>, plans: seq<seq<Entry>>, k: nat)
    requires Chain(lists, sizes, parts, plans) && k <= |plans|
    ensures Listed(plans, k) == sizes[k] && JoinedReads(parts, plans, k) == lists[k]
  {
    if k > 0 { ChainReads(lists, sizes, parts, plans, k - 1); }
  }

  /** The whole list up to object k. */
  ghost function FrontAt(g: Grid, states: seq<seq<State>>, errs: seq<seq<real>>, t: nat, k: nat): seq<Entry>
    requires Shaped(g, states) && Shaped(g, errs) && t % g.sx == 0
  {
    ObjectPlansArePrefix(g, states, errs, false, t, k, ObjectChunk(g, t, k));
    PlanTo(g, states, errs, false, ObjectChunk(g, t, k))
  }

  ghost function Fronts(g: Grid, states: seq<seq<State>>, errs: seq<seq<real>>, t: nat, n: nat): (r: seq<seq<Entry>>)
    requires Shaped(g, states) && Shaped(g, errs) && t % g.sx == 0
    ensures |r| == n + 1 && forall k :: 0 <= k <= n ==> r[k] == FrontAt(g, states, errs, t, k)
  {
    if n == 0 then [FrontAt(g, states, errs, t, 0)]
    else Fronts(g, states, errs, t, n - 1) + [FrontAt(g, states, errs, t, n)]
  }

  lemma {:induction false} PlannedAt(g: Grid, states: seq<seq<State>>, errs: seq<seq<real>>, t: nat, plans: seq<seq<Entry>>, ins: seq<nat>, i: nat)
    requires Shaped(g, states) && Shaped(g, errs) && Planned(g, states, errs, t, plans, ins) && i < |plans|
    ensures t % g.sx == 0 && plans[i] == ObjectPlan(g, states, errs, false, t, i)
  {
  }

  lemma {:induction false} ObjectReadsContinue(a: Archive, g: Grid, states: seq<seq<State>>, errs: seq<seq<real>>, values: seq<seq<seq<Ext>>>,
                                               t: nat, i: nat, es: seq<Entry>, gap: nat, d: nat, c: nat)
    requires OnGrid(a, g, states, errs, values) && t % g.sx == 0 && es == ObjectPlan(g, states, errs, false, t, i)
    requires d == ObjectChunk(g, t, i) && c == ObjectChunk(g, t, i + 1)
    ensures d <= c <= g.Chunks() && Step(PlanTo(g, states, errs, false, d), es, PlanTo(g, states, errs, false, c), gap)
  {
    ObjectIsListed(a, g, states, errs, values, false, t, i, es, d, c);
    PrefixIsListed(a, g, states, errs, values, false, d);
    ReadsContinue(PlanTo(g, states, errs, false, d), es, PlanTo(g, states, errs, false, c), gap, d);
  }

  lemma {:induction false} FrontStep(a: Archive, g: Grid, states: seq<seq<State>>, errs: seq<seq<real>>, values: seq<seq<seq<Ext>>>,
                                     t: nat, plans: seq<seq<Entry>>, ins: seq<nat>, gap: nat, k: nat)
    requires OnGrid(a, g, states, errs, values) && Planned(g, states, errs, t, plans, ins) && 0 < k <= |plans|
    ensures Step(FrontAt(g, states, errs, t, k - 1), plans[k - 1], FrontAt(g, states, errs, t, k), gap)
  {
    PlannedAt(g, states, errs, t, plans, ins, k - 1);
    ObjectReadsContinue(a, g, states, errs, values, t, k - 1, plans[k - 1], gap, ObjectChunk(g, t, k - 1), ObjectChunk(g, t, k));
  }

  ghost function Sizes(fronts: seq<seq<Entry>>, n: nat): (r: seq<nat>)
    requires n <= |fronts|
    ensures |r| == n && forall k :: 0 <= k < n ==> r[k] == |fronts[k]|
  {
    if n == 0 then [] else Sizes(fronts, n - 1) + [|fronts[n - 1]|]
  }

  lemma {:induction false} FrontsAreChain(a: Archive, g: Grid, states: seq<seq<State>>, errs: seq<seq<real>>, values: seq<seq<seq<Ext>>>,
                                          t: nat, plans: seq<seq<Entry>>, ins: seq<nat>, gap: nat, fronts: seq<seq<Entry>>)
    requires OnGrid(a, g, states, errs, values) && Planned(g, states, errs, t, plans, ins)
    requires fronts == Fronts(g, states, errs, t, |plans|)
    ensures Chain(PartsOf(fronts, gap, |fronts|), Sizes(fronts, |fronts|), PartsOf(plans, gap, |plans|), plans)
  {
    FirstObject(g, t);
    assert fronts[0] == FrontAt(g, states, errs, t, 0) == [];
    assert ReadsOf(fronts[0], gap) == [];
    var lists, sizes, parts := PartsOf(fronts, gap, |fronts|), Sizes(fronts, |fronts|), PartsOf(plans, gap, |plans|);
    forall k | 0 < k <= |plans|
      ensures sizes[k] == sizes[k - 1] + |plans[k - 1]| && lists[k] == lists[k - 1] + Moved(parts[k - 1], sizes[k - 1])
    {
      FrontStep(a, g, states, errs, values, t, plans, ins, gap, k);
      assert fronts[k] == FrontAt(g, states, errs, t, k) && fronts[k - 1] == FrontAt(g, states, errs, t, k - 1);
    }
  }

  /** The pipelined query makes exactly the reads of the query in turn, so the numbers of
    * requests and of bytes are the same too. */
  lemma {:induction false} PipelinedReadsAreReads(a: Archive, g: Grid, states: seq<seq<State>>, errs: seq<seq<real>>, values: seq<seq<seq<Ext>>>,
                                                  t: nat, plans: seq<seq<Entry>>, ins: seq<nat>, gap: nat)
    requires OnGrid(a, g, states, errs, values) && Planned(g, states, errs, t, plans, ins)
    ensures JoinedReads(PartsOf(plans, gap, |plans|), plans, |plans|) == ReadsOf(Plan(g, states, errs, false), gap)
  {
    var fronts := Fronts(g, states, errs, t, |plans|);
    LastObject(g, t, |plans|);
    FrontsAreChain(a, g, states, errs, values, t, plans, ins, gap, fronts);
    ChainReads(PartsOf(fronts, gap, |fronts|), Sizes(fronts, |fronts|), PartsOf(plans, gap, |plans|), plans, |plans|);
    assert fronts[|plans|] == FrontAt(g, states, errs, t, |plans|);
  }
}
