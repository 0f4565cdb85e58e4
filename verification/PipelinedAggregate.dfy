/** _aggregate_pipelined: every zone map object is planned, read and totalled alone, and the
  * answer combined from all totals holds for the whole array. */
module PipelinedAggregate {
  import opened Rounding
  import opened FloatBounds
  import opened DoubleBounds
  import opened ZoneMap
  import opened Listing
  import opened Planner
  import opened Query
  import opened ArrayQuery
  import opened ArrayAggregate
  import PipelinedQuery
  import opened Merge
  import Aggregate
  import AggregateQuery
  import Intervals

  // ---- cutting a list that goes on ----

  /** The cuts of a list followed by those of its continuation, d further on. */
  ghost predicate AreJoined(joined: seq<nat>, cuts: seq<nat>, more: seq<nat>, d: nat) {
    && |cuts| > 0 && |more| > 0 && cuts[|cuts| - 1] == d && more[0] == 0
    && |joined| == |cuts| + |more| - 1
    && (forall k :: 0 <= k < |cuts| ==> joined[k] == cuts[k])
    && forall k :: |cuts| - 1 <= k < |joined| ==> joined[k] == more[k - (|cuts| - 1)] + d
  }

  lemma {:induction false} JoinIsCutting(joined: seq<nat>, cuts: seq<nat>, more: seq<nat>, d: nat, n: nat)
    requires AggregateQuery.IsCutting(cuts, d) && AggregateQuery.IsCutting(more, n) && AreJoined(joined, cuts, more, d)
    ensures AggregateQuery.IsCutting(joined, d + n)
  {
    forall k | 0 < k < |joined| ensures joined[k - 1] <= joined[k] <= d + n {
      if k >= |cuts| {
        var i := k - (|cuts| - 1);
        assert joined[k] == more[i] + d && joined[k - 1] == more[i - 1] + d;
      }
    }
  }

  lemma {:induction false} CutsAreJoined(rs: seq<Run>, ss: seq<Run>, n: nat, m: nat, all: seq<Run>)
    requires all == rs + Moved(ss, n) && if ss == [] then m == 0 else ss[0].start == 0
    ensures AreJoined(Cuts(all, n + m, |all|), Cuts(rs, n, |rs|), Cuts(ss, m, |ss|), n)
  {
    var joined, cuts, more := Cuts(all, n + m, |all|), Cuts(rs, n, |rs|), Cuts(ss, m, |ss|);
    forall k | 0 <= k < |cuts| ensures joined[k] == cuts[k] {
      if k < |rs| { assert all[k] == rs[k]; }
      else if k < |all| { assert all[k] == Moved(ss, n)[0]; }
    }
    forall k | |cuts| - 1 <= k < |joined| ensures joined[k] == more[k - (|cuts| - 1)] + n {
      if k < |all| { assert all[k] == Moved(ss, n)[k - |rs|]; }
    }
  }

  /** The values of a piece are the same in a longer list. */
  lemma {:induction false} ValuesInFront(items: seq<seq<seq<Item>>>, es: seq<Entry>, all: seq<Entry>, a: nat, b: nat)
    requires AggregateQuery.InTable(items, es) && AggregateQuery.InTable(items, all) && es <= all && a <= b <= |es|
    ensures AggregateQuery.Values(items, all, a, b) == AggregateQuery.Values(items, es, a, b)
    decreases b - a
  {
    if a < b { ValuesInFront(items, es, all, a, b - 1); }
  }

  lemma {:induction false} ValuesBehind(items: seq<seq<seq<Item>>>, front: seq<Entry>, es: seq<Entry>, all: seq<Entry>, a: nat, b: nat, c: nat, d: nat)
    requires AggregateQuery.InTable(items, es) && AggregateQuery.InTable(items, all) && all == front + es && a <= b <= |es|
    requires c == a + |front| && d == b + |front|
    ensures AggregateQuery.Values(items, all, c, d) == AggregateQuery.Values(items, es, a, b)
    decreases b - a
  {
    if a < b {
      ValuesBehind(items, front, es, all, a, b - 1, c, d - 1);
      assert all[d - 1] == es[b - 1];
    }
  }

  lemma {:induction false} TotalsJoin(q: ValueRange, front: seq<Entry>, es: seq<Entry>, all: seq<Entry>, items: seq<seq<seq<Item>>>,
                                      cuts: seq<nat>, more: seq<nat>, joined: seq<nat>, parts: seq<Intervals.Part>, rest: seq<Intervals.Part>)
    requires Totalled(q, front, items, cuts, parts) && Totalled(q, es, items, more, rest)
    requires all == front + es && AreJoined(joined, cuts, more, |front|)
    ensures Totalled(q, all, items, joined, parts + rest)
  {
    JoinIsCutting(joined, cuts, more, |front|, |es|);
    TablesJoin(items, front, es, all);
    forall k | 0 <= k < |parts + rest| ensures PartOk(q, all, items, joined[k], joined[k + 1], (parts + rest)[k]) {
      JoinedPart(q, front, es, all, items, cuts, more, joined, parts, rest, k);
    }
  }

  lemma {:induction false} JoinedPart(q: ValueRange, front: seq<Entry>, es: seq<Entry>, all: seq<Entry>, items: seq<seq<seq<Item>>>,
                                      cuts: seq<nat>, more: seq<nat>, joined: seq<nat>, parts: seq<Intervals.Part>, rest: seq<Intervals.Part>, k: nat)
    requires Totalled(q, front, items, cuts, parts) && Totalled(q, es, items, more, rest)
    requires all == front + es && AggregateQuery.InTable(items, all) && AreJoined(joined, cuts, more, |front|) && k < |parts + rest|
    ensures PartOk(q, all, items, joined[k], joined[k + 1], (parts + rest)[k])
  {
    if k < |parts| {
      FrontPart(q, front, all, items, cuts, parts, k, joined[k], joined[k + 1]);
    } else {
      BackPart(q, front, es, all, items, more, rest, k - |parts|, joined[k], joined[k + 1]);
    }
  }

  lemma {:induction false} TablesJoin(items: seq<seq<seq<Item>>>, front: seq<Entry>, es: seq<Entry>, all: seq<Entry>)
    requires AggregateQuery.InTable(items, front) && AggregateQuery.InTable(items, es) && all == front + es
    ensures AggregateQuery.InTable(items, all)
  {
  }

  lemma {:induction false} FrontPart(q: ValueRange, front: seq<Entry>, all: seq<Entry>, items: seq<seq<seq<Item>>>, cuts: seq<nat>,
                                     parts: seq<Intervals.Part>, k: nat, c: nat, d: nat)
    requires Totalled(q, front, items, cuts, parts) && front <= all && AggregateQuery.InTable(items, all) && k < |parts|
    requires c == cuts[k] && d == cuts[k + 1]
    ensures PartOk(q, all, items, c, d, parts[k])
  {
    assert PartOk(q, front, items, cuts[k], cuts[k + 1], parts[k]);
    ValuesInFront(items, front, all, c, d);
  }

  lemma {:induction false} BackPart(q: ValueRange, front: seq<Entry>, es: seq<Entry>, all: seq<Entry>, items: seq<seq<seq<Item>>>,
                                    more: seq<nat>, rest: seq<Intervals.Part>, k: nat, c: nat, d: nat)
    requires Totalled(q, es, items, more, rest) && all == front + es && AggregateQuery.InTable(items, all) && k < |rest|
    requires c == more[k] + |front| && d == more[k + 1] + |front|
    ensures PartOk(q, all, items, c, d, rest[k])
  {
    assert PartOk(q, es, items, more[k], more[k + 1], rest[k]);
    ValuesBehind(items, front, es, all, more[k], more[k + 1], c, d);
  }

  // ---- one object ----

  /** What the tables and the archive are, for every object. */
  ghost predicate Tabled(q: ValueRange, a: Archive, g: Grid, recs: seq<Record>, t: Tables) {
    && TablesShaped(g, t) && ValidArchive(a) && a.k == 1 && a.values == Rows(g, t.values, g.Chunks()) && UnitsOk(q, g, t)
    && AreTables(q, g, recs, t.states, t.errs) && OnGrid(a, g, t.states, t.errs, t.values)
  }

  lemma {:induction false} ObjectIsOk(q: ValueRange, a: Archive, g: Grid, recs: seq<Record>, t: Tables, step: nat, i: nat, es: seq<Entry>, d: nat, c: nat,
                                      items: seq<seq<seq<Item>>>)
    requires Tabled(q, a, g, recs, t) && step % g.sx == 0 && es == ObjectPlan(g, t.states, t.errs, true, step, i)
    requires d == ObjectChunk(g, step, i) && c == ObjectChunk(g, step, i + 1) && items == Rows(g, t.items, g.Chunks())
    ensures d <= c <= g.Chunks() && Lists(a, es) && ListedOk(q, es, items, a.values)
    ensures PlanTo(g, t.states, t.errs, true, c) == PlanTo(g, t.states, t.errs, true, d) + es
  {
    PipelinedQuery.ObjectIsListed(a, g, t.states, t.errs, t.values, true, step, i, es, d, c);
    forall k | 0 <= k < |es|
      ensures es[k].chunk < g.Chunks() && es[k].block < |items[es[k].chunk]| && es[k].block < |a.values[es[k].chunk]|
      ensures BlockOk(q, items[es[k].chunk][es[k].block], es[k].state, es[k].eps, a.values[es[k].chunk][es[k].block])
    {
      PrefixHas(g, t.states, t.errs, c, PlanTo(g, t.states, t.errs, true, d), es, k);
      EntryIsOk(q, g, t, Plan(g, t.states, t.errs, true), es[k], items, a.values);
    }
  }

  /** What is listed of the first chunks is listed of all. */
  lemma {:induction false} PrefixHas(g: Grid, states: seq<seq<State>>, errs: seq<seq<real>>, c: nat, front: seq<Entry>, es: seq<Entry>, k: nat)
    requires Shaped(g, states) && Shaped(g, errs) && c <= g.Chunks() && k < |es| && PlanTo(g, states, errs, true, c) == front + es
    ensures es[k] in Plan(g, states, errs, true)
  {
    RowsMatch(g, states, errs, g.Chunks());
    assert (front + es)[|front| + k] == es[k];
    ListIsExact(0, Rows(g, states, g.Chunks()), Rows(g, errs, g.Chunks()), true, c, es[k]);
    ListIsExact(0, Rows(g, states, g.Chunks()), Rows(g, errs, g.Chunks()), true, g.Chunks(), es[k]);
  }

  /** Where one list is cut and where it is cut behind another. */
  lemma {:induction false} CutsContinue(a: seq<Entry>, b: seq<Entry>, all: seq<Entry>, gap: nat, d: nat)
    requires all == a + b
    requires (forall i :: 0 <= i < |a| ==> a[i].chunk < d) && (forall i :: 0 <= i < |b| ==> d <= b[i].chunk)
    ensures AreJoined(CutsOf(all, gap), CutsOf(a, gap), CutsOf(b, gap), |a|)
  {
    PipelinedQuery.ReadsContinue(a, b, all, gap, d);
    FirstCut(b, gap);
    CutsAreJoined(PipelinedQuery.ReadsOf(a, gap), PipelinedQuery.ReadsOf(b, gap), |a|, |b|, PipelinedQuery.ReadsOf(all, gap));
  }

  lemma {:induction false} FirstCut(es: seq<Entry>, gap: nat)
    ensures var rs := PipelinedQuery.ReadsOf(es, gap); if rs == [] then |es| == 0 else rs[0].start == 0
  {
    CutsAreCutting(Chunks(es, |es|), Blocks(es, |es|), gap);
  }

  lemma {:induction false} ObjectCuts(a: Archive, g: Grid, t: Tables, step: nat, i: nat, es: seq<Entry>, gap: nat, d: nat, c: nat, done: seq<Entry>)
    requires TablesShaped(g, t) && OnGrid(a, g, t.states, t.errs, t.values) && step % g.sx == 0
    requires es == ObjectPlan(g, t.states, t.errs, true, step, i) && d == ObjectChunk(g, step, i) && c == ObjectChunk(g, step, i + 1)
    requires d <= g.Chunks() && done == PlanTo(g, t.states, t.errs, true, d)
    ensures AreJoined(CutsOf(done + es, gap), CutsOf(done, gap), CutsOf(es, gap), |done|)
  {
    PipelinedQuery.ObjectIsListed(a, g, t.states, t.errs, t.values, true, step, i, es, d, c);
    PipelinedQuery.PrefixIsListed(a, g, t.states, t.errs, t.values, true, d);
    CutsContinue(done, es, done + es, gap, d);
  }

  /** No object has a read of more than 2^24 values. */
  ghost predicate ObjectIsShort(g: Grid, states: seq<seq<State>>, errs: seq<seq<real>>, step: nat, i: nat, gap: nat)
    requires Shaped(g, states) && Shaped(g, errs) && step % g.sx == 0
  {
    var es := ObjectPlan(g, states, errs, true, step, i);
    ShortReads(PipelinedQuery.ReadsOf(es, gap), |es|)
  }

  /** One object: planned, merged into reads, read and totalled. */
  method AggregateObject(q: ValueRange, a: Archive, g: Grid, recs: seq<Record>, gap: nat, step: nat, i: nat, ghost t: Tables, ghost items: seq<seq<seq<Item>>>,
                         ghost d: nat, ghost c: nat, ghost done: seq<Entry>)
    returns (parts: seq<Intervals.Part>, ghost es: seq<Entry>)
    requires Tabled(q, a, g, recs, t) && step % g.sx == 0 && items == Rows(g, t.items, g.Chunks())
    requires d <= g.Chunks() && done == PlanTo(g, t.states, t.errs, true, d)
    requires d == ObjectChunk(g, step, i) && c == ObjectChunk(g, step, i + 1) && ObjectIsShort(g, t.states, t.errs, step, i, gap)
    ensures d <= c <= g.Chunks() && PlanTo(g, t.states, t.errs, true, c) == done + es
    ensures Totalled(q, es, items, CutsOf(es, gap), parts) && AreJoined(CutsOf(done + es, gap), CutsOf(done, gap), CutsOf(es, gap), |done|)
  {
    var list, nIn := PlanObject(q, g, recs, true, step, i, t.states, t.errs);
    ObjectIsOk(q, a, g, recs, t, step, i, list, d, c, items);
    es := list;
    ObjectCuts(a, g, t, step, i, es, gap, d, c, done);
    parts := AggregateList(q, a, list, gap, items);
  }

  // ---- all objects ----

  /** The list of the first c chunks, its reads totalled. */
  ghost predicate TotalledTo(q: ValueRange, g: Grid, t: Tables, items: seq<seq<seq<Item>>>, gap: nat, c: nat, es: seq<Entry>, parts: seq<Intervals.Part>)
    requires TablesShaped(g, t)
  {
    c <= g.Chunks() && es == PlanTo(g, t.states, t.errs, true, c) && Totalled(q, es, items, CutsOf(es, gap), parts)
  }

  lemma {:induction false} NothingTotalled(q: ValueRange, g: Grid, t: Tables, items: seq<seq<seq<Item>>>, gap: nat, step: nat)
    requires TablesShaped(g, t)
    ensures TotalledTo(q, g, t, items, gap, ObjectChunk(g, step, 0), [], [])
  {
    FirstObject(g, step);
    CutsAreCutting([], [], gap);
  }

  /** One object's totals behind those of the objects before it. */
  method AggregateNext(q: ValueRange, a: Archive, g: Grid, recs: seq<Record>, gap: nat, step: nat, i: nat, ghost t: Tables, ghost items: seq<seq<seq<Item>>>,
                       ghost d: nat, ghost c: nat, front: seq<Intervals.Part>, ghost done: seq<Entry>)
    returns (parts: seq<Intervals.Part>, ghost listed: seq<Entry>)
    requires Tabled(q, a, g, recs, t) && step % g.sx == 0 && items == Rows(g, t.items, g.Chunks())
    requires d == ObjectChunk(g, step, i) && c == ObjectChunk(g, step, i + 1) && ObjectIsShort(g, t.states, t.errs, step, i, gap)
    requires TotalledTo(q, g, t, items, gap, d, done, front)
    ensures TotalledTo(q, g, t, items, gap, c, listed, parts)
  {
    var rest;
    ghost var es;
    rest, es := AggregateObject(q, a, g, recs, gap, step, i, t, items, d, c, done);
    TotalsJoin(q, done, es, done + es, items, CutsOf(done, gap), CutsOf(es, gap), CutsOf(done + es, gap), front, rest);
    parts, listed := front + rest, done + es;
  }

  /** Every object's totals, in the order of the objects. */
  method AggregateObjects(q: ValueRange, a: Archive, g: Grid, recs: seq<Record>, gap: nat, step: nat, count: nat, ghost t: Tables, ghost items: seq<seq<seq<Item>>>)
    returns (parts: seq<Intervals.Part>, ghost es: seq<Entry>)
    requires Tabled(q, a, g, recs, t) && step % g.sx == 0 && count * step >= g.ux && items == Rows(g, t.items, g.Chunks())
    requires forall i :: 0 <= i < count ==> ObjectIsShort(g, t.states, t.errs, step, i, gap)
    ensures TotalledTo(q, g, t, items, gap, g.Chunks(), es, parts)
  {
    parts, es := [], [];
    NothingTotalled(q, g, t, items, gap, step);
    for i := 0 to count
      invariant TotalledTo(q, g, t, items, gap, ObjectChunk(g, step, i), es, parts)
    {
      parts, es := AggregateNext(q, a, g, recs, gap, step, i, t, items, ObjectChunk(g, step, i), ObjectChunk(g, step, i + 1), parts, es);
    }
    PipelinedQuery.LastObject(g, step, count);
  }

  /** Objects of small chunks have short reads only. */
  lemma {:induction false} SmallChunksKeepObjectsShort(a: Archive, g: Grid, t: Tables, step: nat, i: nat, gap: nat)
    requires TablesShaped(g, t) && OnGrid(a, g, t.states, t.errs, t.values) && ValidArchive(a) && step % g.sx == 0
    requires a.n * VALUES <= 16777216
    ensures ObjectIsShort(g, t.states, t.errs, step, i, gap)
  {
    var es := ObjectPlan(g, t.states, t.errs, true, step, i);
    PipelinedQuery.ObjectIsListed(a, g, t.states, t.errs, t.values, true, step, i, es, ObjectChunk(g, step, i), ObjectChunk(g, step, i + 1));
    SmallChunksKeepReadsShort(a, es, gap);
  }

  /** The pipelined aggregate from the stored records: its intervals hold for the originals of
    * the whole array, and its answer is the very one of the aggregate that runs its steps in
    * turn, rounded sums and all. */
  method AggregateArrayPipelined(q: ValueRange, a: Archive, g: Grid, recs: seq<Record>, gap: nat, step: nat, count: nat,
                                 ghost grid: seq<Ext>, ghost units: seq<Unit>, ghost values: seq<seq<seq<Ext>>>)
    returns (answer: Intervals.Answer)
    requires TrueArchive(q.fp, a, g, recs, units, values) && a.k == 1 && step % g.sx == 0 && count * step >= g.ux
    requires FloatArchive(q.fp, q.above, grid, units) && ValidBounds(q.fp, q.lo, q.hi)
    requires var states, errs := StatesOfAll(q.fp, recs, g.blocks, q.lo, q.hi, |recs|), ErrorsOfAll(q, recs, g.blocks, |recs|);
             forall i :: 0 <= i < count ==> ObjectIsShort(g, states, errs, step, i, gap)
    ensures var pairs := PairRows(q.fp, g, units); Answers(answer, ScanArray(pairs, q.lo, q.hi, |pairs|))
    ensures answer == ArrayAnswer(q, a, g, recs, gap, grid, units, values)
  {
    ghost var t := TablesOf(q, a, g, recs, units, values);
    ArchiveIsOk(q, a, g, recs, t.errs, grid, units, values, t);
    ArchiveStates(q, a, g, recs, units, values, t.states, t.errs);
    ghost var items := Rows(g, t.items, g.Chunks());
    var parts;
    ghost var es;
    parts, es := AggregateObjects(q, a, g, recs, gap, step, count, t, items);
    answer := Intervals.Combine(q.fp, parts, VALUES);
    WholeAnswer(q, a, g, recs, gap, grid, units, values, t, es, items, parts);
  }
}
