/** The whole in-turn query from the stored zone map records to the count: classify every
  * unit, list the MAYBE blocks in two passes, read, decode and count them. */
module ArrayQuery {
  import opened Rounding
  import opened FloatBounds
  import opened ZoneMap
  import opened Listing
  import opened Planner
  import opened Query
  import opened PipelinedQuery
  import Merge
  import PlanBlocks

  type ValueRange = PlanBlocks.ValueRange

  /** A unit's record, the smallest and largest originals it was written from, and the
    * original and decoded values of its blocks. */
  datatype Unit = Unit(rec: Record, mins: seq<real>, maxs: seq<real>, orig: seq<seq<real>>, decoded: seq<seq<real>>)

  /** The record was written for these originals, and its error bounds hold. */
  ghost predicate TrueUnit(fp: Arith, u: Unit, blocks: nat) {
    && Written(fp, u.rec, u.mins, u.maxs) && |u.mins| == |u.orig| == |u.decoded| == blocks
    && forall b :: 0 <= b < blocks ==> TrueBlock(fp, u, b)
  }

  ghost predicate TrueBlock(fp: Arith, u: Unit, b: nat)
    requires b < |u.mins| == |u.maxs| == |u.orig| == |u.decoded| && u.rec.Shaped(|u.mins|)
  {
    && |u.orig[b]| == |u.decoded[b]| == VALUES
    && (forall i :: 0 <= i < VALUES ==> Rep(fp, u.orig[b][i]) && Rep(fp, u.decoded[b][i]) && u.mins[b] <= u.orig[b][i] <= u.maxs[b])
    && (forall i :: 0 <= i < VALUES ==> Abs(u.orig[b][i] - u.decoded[b][i]) <= BlockError(fp, u.rec, b))
  }

  ghost predicate TrueUnits(fp: Arith, units: seq<Unit>, blocks: nat) {
    forall u :: 0 <= u < |units| ==> TrueUnit(fp, units[u], blocks)
  }

  /** values are the decoded values of the units' blocks. */
  ghost predicate AreDecoded(units: seq<Unit>, values: seq<seq<seq<Ext>>>) {
    && |values| == |units|
    && forall u :: 0 <= u < |units| ==> AreBlocks(units[u].decoded, values[u])
  }

  ghost predicate AreBlocks(decoded: seq<seq<real>>, values: seq<seq<Ext>>) {
    && |values| == |decoded|
    && forall b :: 0 <= b < |values| ==> IsBlock(decoded[b], values[b])
  }

  ghost predicate IsBlock(decoded: seq<real>, v: seq<Ext>) {
    |v| == |decoded| && forall i :: 0 <= i < |v| ==> v[i] == Fin(decoded[i])
  }

  /** The states that classification finds for the first n units. */
  function StatesOfAll(fp: Arith, recs: seq<Record>, blocks: nat, lo: Ext, hi: Ext, n: nat): (r: seq<seq<State>>)
    requires n <= |recs| && forall u :: 0 <= u < |recs| ==> recs[u].Shaped(blocks)
    ensures |r| == n && forall u :: 0 <= u < n ==> |r[u]| == blocks && r[u] == StatesOf(fp, recs[u], blocks, lo, hi)
  {
    if n == 0 then [] else StatesOfAll(fp, recs, blocks, lo, hi, n - 1) + [StatesOf(fp, recs[n - 1], blocks, lo, hi)]
  }

  /** The error bounds that listing finds for the first n units. */
  ghost function ErrorsOfAll(q: ValueRange, recs: seq<Record>, blocks: nat, n: nat): (r: seq<seq<real>>)
    requires n <= |recs| && forall u :: 0 <= u < |recs| ==> recs[u].Shaped(blocks)
    ensures |r| == n && forall u :: 0 <= u < n ==> |r[u]| == blocks && recs[u].Shaped(blocks) && r[u] == PlanBlocks.ErrorsOf(q, recs[u], blocks)
  {
    if n == 0 then [] else ErrorsOfAll(q, recs, blocks, n - 1) + [PlanBlocks.ErrorsOf(q, recs[n - 1], blocks)]
  }

  /** Classifying true units is sound for every decoded value of the array. */
  lemma {:induction false} TrueUnitsAreSound(fp: Arith, g: Grid, units: seq<Unit>, states: seq<seq<State>>, values: seq<seq<seq<Ext>>>, lo: Ext, hi: Ext)
    requires Binary64(fp) && TrueUnits(fp, units, g.blocks) && AreDecoded(units, values)
    requires Shaped(g, states) && Shaped(g, values) && |states| == |units|
    requires forall u :: 0 <= u < |units| ==> units[u].rec.Shaped(g.blocks) && states[u] == StatesOf(fp, units[u].rec, g.blocks, lo, hi)
    ensures SoundUnits(g, states, values, lo, hi)
  {
    forall u, b | 0 <= u < |states| && 0 <= b < g.blocks ensures SoundBlock(states[u][b], values[u][b], lo, hi) {
      TrueUnitIsSound(fp, units[u], g.blocks, states[u], values[u], lo, hi, b);
    }
  }

  lemma {:induction false} TrueUnitIsSound(fp: Arith, u: Unit, blocks: nat, states: seq<State>, values: seq<seq<Ext>>, lo: Ext, hi: Ext, b: nat)
    requires Binary64(fp) && TrueUnit(fp, u, blocks) && AreBlocks(u.decoded, values) && b < blocks
    requires u.rec.Shaped(blocks) && states == StatesOf(fp, u.rec, blocks, lo, hi)
    ensures SoundBlock(states[b], values[b], lo, hi)
  {
    assert TrueBlock(fp, u, b) && IsBlock(u.decoded[b], values[b]);
    UnitStatesAt(fp, u.rec, blocks, lo, hi, b, StateOf(fp, u.rec, b, lo, hi));
    StateIsSound(fp, u.rec, u.mins, u.maxs, b, lo, hi, u.orig[b], u.decoded[b], values[b]);
  }

  /** The planner's output arrays as a list. */
  method Entries(chunks: array<nat>, blocks: array<nat>, sts: array<State>, eps: array<real>, n: nat, ghost want: seq<Entry>) returns (es: seq<Entry>)
    requires PlanBlocks.Holds(chunks, blocks, sts, eps, 0, want) && n == |want|
    ensures es == want
  {
    es := [];
    for i := 0 to n
      invariant es == want[..i]
    {
      es := es + [Entry(chunks[i], blocks[i], sts[i], eps[i])];
    }
  }

  /** The states and error bounds that the planner finds for the records of a grid. */
  ghost predicate AreTables(q: ValueRange, g: Grid, recs: seq<Record>, states: seq<seq<State>>, errs: seq<seq<real>>) {
    && PlanBlocks.AreStates(q, recs, g.blocks, states) && Shaped(g, states)
    && PlanBlocks.AreErrors(q, recs, g.blocks, errs) && Shaped(g, errs)
  }

  /** The planner on the records of a grid of units: its list, and how many blocks are IN. */
  method PlanUnits(q: ValueRange, g: Grid, recs: seq<Record>, keepIn: bool, ghost states: seq<seq<State>>, ghost errs: seq<seq<real>>)
    returns (es: seq<Entry>, nIn: nat)
    requires AreTables(q, g, recs, states, errs)
    ensures es == Plan(g, states, errs, keepIn) && nIn == CountAll(Rows(g, states, g.Chunks()), In, g.Chunks())
  {
    var n := g.Chunks() * (g.Subs() * g.blocks);
    var chunks, blocks, sts, eps := new nat[n], new nat[n], new State[n], new real[n];
    var listed, nOut;
    listed, nIn, nOut := PlanBlocks.PlanArrays(q, g, recs, errs, keepIn, chunks, blocks, sts, eps, states);
    es := Entries(chunks, blocks, sts, eps, listed, Plan(g, states, errs, keepIn));
  }

  /** An archive whose records were written for its originals, with error bounds that hold. */
  ghost predicate TrueArchive(fp: Arith, a: Archive, g: Grid, recs: seq<Record>, units: seq<Unit>, values: seq<seq<seq<Ext>>>) {
    && Binary64(fp) && TrueUnits(fp, units, g.blocks) && AreDecoded(units, values)
    && |recs| == |units| && (forall u :: 0 <= u < |recs| ==> recs[u] == units[u].rec && recs[u].Shaped(g.blocks))
    && ValidArchive(a) && a.k > 0 && Shaped(g, values) && a.values == Rows(g, values, g.Chunks())
  }

  /** Such an archive's states and listed bounds, and what the states promise. */
  lemma {:induction false} ArchiveStates(q: ValueRange, a: Archive, g: Grid, recs: seq<Record>, units: seq<Unit>,
                                         values: seq<seq<seq<Ext>>>, states: seq<seq<State>>, errs: seq<seq<real>>)
    requires TrueArchive(q.fp, a, g, recs, units, values)
    requires states == StatesOfAll(q.fp, recs, g.blocks, q.lo, q.hi, |recs|) && errs == ErrorsOfAll(q, recs, g.blocks, |recs|)
    ensures AreTables(q, g, recs, states, errs) && OnGrid(a, g, states, errs, values)
    ensures SoundUnits(g, states, values, q.lo, q.hi)
  {
    TrueUnitsAreSound(q.fp, g, units, states, values, q.lo, q.hi);
  }

  /** From the stored records to the answer: if every record was written for its originals
    * and its error bounds hold, the query counts the decoded values of the whole array with
    * lo < v <= hi, whatever was rounded, listed, merged or read whole on the way. */
  method CountArray(q: ValueRange, a: Archive, g: Grid, recs: seq<Record>, gap: nat, dense: set<nat>,
                    ghost units: seq<Unit>, ghost values: seq<seq<seq<Ext>>>)
    returns (count: nat)
    requires TrueArchive(q.fp, a, g, recs, units, values)
    ensures count == BruteForce(HitRows(a.values, q.lo, q.hi, |a.values|), |a.values|)
  {
    ghost var states := StatesOfAll(q.fp, recs, g.blocks, q.lo, q.hi, |recs|);
    ghost var errs := ErrorsOfAll(q, recs, g.blocks, |recs|);
    ArchiveStates(q, a, g, recs, units, values, states, errs);
    var es, nIn := PlanUnits(q, g, recs, false, states, errs);
    count := QueryInTurn(a, g, states, errs, values, es, nIn, gap, dense, q.lo, q.hi);
  }

  // ---- the pipelined query ----

  lemma {:induction false} SlabTables(q: ValueRange, g: Grid, recs: seq<Record>, states: seq<seq<State>>, errs: seq<seq<real>>, u0: nat, n: nat)
    requires AreTables(q, g, recs, states, errs) && u0 + n <= g.ux && n % g.sx == 0
    ensures AreTables(q, SlabGrid(g, n), Slab(g, recs, u0, n), Slab(g, states, u0, n), Slab(g, errs, u0, n))
  {
    PlanesFit(g, u0, n);
    PartTables(q, g.blocks, recs, states, errs, u0 * g.uy * g.uz, (u0 + n) * g.uy * g.uz);
    SlabIsShaped(g, states, u0, n);
    SlabIsShaped(g, errs, u0, n);
  }

  lemma {:induction false} PartTables(q: ValueRange, blocks: nat, recs: seq<Record>, states: seq<seq<State>>, errs: seq<seq<real>>, a: nat, b: nat)
    requires PlanBlocks.AreStates(q, recs, blocks, states) && PlanBlocks.AreErrors(q, recs, blocks, errs) && a <= b <= |recs|
    ensures PlanBlocks.AreStates(q, recs[a..b], blocks, states[a..b]) && PlanBlocks.AreErrors(q, recs[a..b], blocks, errs[a..b])
  {
  }

  /** Plans one zone map object as an array of its own, and shifts its chunk ids. */
  method PlanObject(q: ValueRange, g: Grid, recs: seq<Record>, keepIn: bool, t: nat, i: nat, ghost states: seq<seq<State>>, ghost errs: seq<seq<real>>)
    returns (es: seq<Entry>, nIn: nat)
    requires AreTables(q, g, recs, states, errs) && t % g.sx == 0
    ensures es == ObjectPlan(g, states, errs, keepIn, t, i) && nIn == ObjectIns(g, states, t, i)
  {
    ObjectIsWhole(g, t, i);
    var u0 := ObjectStart(g, t, i);
    var n := ObjectStart(g, t, i + 1) - u0;
    SlabTables(q, g, recs, states, errs, u0, n);
    var list;
    list, nIn := PlanUnits(q, SlabGrid(g, n), Slab(g, recs, u0, n), keepIn, Slab(g, states, u0, n), Slab(g, errs, u0, n));
    es := Shifted(list, ChunkShift(g, u0));
  }

  /** All objects, each planned on its own. */
  method PlanObjects(q: ValueRange, g: Grid, recs: seq<Record>, t: nat, count: nat, ghost states: seq<seq<State>>, ghost errs: seq<seq<real>>)
    returns (plans: seq<seq<Entry>>, ins: seq<nat>)
    requires AreTables(q, g, recs, states, errs) && t % g.sx == 0 && count * t >= g.ux
    ensures |plans| == count && Planned(g, states, errs, t, plans, ins)
  {
    plans, ins := [], [];
    for i := 0 to count
      invariant |plans| == |ins| == i
      invariant forall j :: 0 <= j < i ==> plans[j] == ObjectPlan(g, states, errs, false, t, j) && ins[j] == ObjectIns(g, states, t, j)
    {
      var es, nIn := PlanObject(q, g, recs, false, t, i, states, errs);
      plans, ins := plans + [es], ins + [nIn];
    }
  }

  /** The pipelined query from the stored records, one zone map object at a time, to the
    * same answer, with exactly the reads of the query that runs its steps in turn. */
  method CountArrayPipelined(q: ValueRange, a: Archive, g: Grid, recs: seq<Record>, gap: nat, t: nat, count: nat,
                             ghost units: seq<Unit>, ghost values: seq<seq<seq<Ext>>>)
    returns (total: nat, runs: seq<Merge.Run>)
    requires TrueArchive(q.fp, a, g, recs, units, values) && a.k == 1 && t % g.sx == 0 && count * t >= g.ux
    ensures total == BruteForce(HitRows(a.values, q.lo, q.hi, |a.values|), |a.values|)
    ensures var states, errs := StatesOfAll(q.fp, recs, g.blocks, q.lo, q.hi, |recs|), ErrorsOfAll(q, recs, g.blocks, |recs|);
            Shaped(g, states) && Shaped(g, errs) && runs == ReadsOf(Plan(g, states, errs, false), gap)
  {
    ghost var states := StatesOfAll(q.fp, recs, g.blocks, q.lo, q.hi, |recs|);
    ghost var errs := ErrorsOfAll(q, recs, g.blocks, |recs|);
    ArchiveStates(q, a, g, recs, units, values, states, errs);
    var plans, ins := PlanObjects(q, g, recs, t, count, states, errs);
    total := QueryPipelined(a, g, states, errs, values, t, plans, ins, gap, q.lo, q.hi);
    runs := JoinReads(plans, gap);
    PipelinedReadsAreReads(a, g, states, errs, values, t, plans, ins, gap);
  }

  /** The objects' reads one after another, items counted through. */
  method JoinReads(plans: seq<seq<Entry>>, gap: nat) returns (runs: seq<Merge.Run>)
    ensures runs == JoinedReads(PartsOf(plans, gap, |plans|), plans, |plans|)
  {
    ghost var parts := PartsOf(plans, gap, |plans|);
    runs := [];
    var n: nat := 0;
    for i := 0 to |plans|
      invariant n == Listed(plans, i) && runs == JoinedReads(parts, plans, i)
    {
      runs := runs + Merge.Moved(ReadsOf(plans[i], gap), n);
      n := n + |plans[i]|;
    }
  }
}
