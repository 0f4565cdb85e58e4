/** A filtered aggregate from the stored records to its intervals: classify and list the IN
  * and MAYBE blocks, read and total them run by run, and combine the totals. */
module ArrayAggregate {
  import opened Rounding
  import opened FloatBounds
  import opened DoubleBounds
  import opened ZoneMap
  import MixedRadix
  import opened Listing
  import opened Planner
  import opened Merge
  import opened Layout
  import Assembly
  import opened Query
  import PipelinedQuery
  import opened ArrayQuery
  import PlanBlocks
  import Aggregate
  import AggregateQuery
  import Intervals

  type Item = Aggregate.Item
  type Truth = Intervals.Truth

  // ---- the values of blocks ----

  /** The first n values of a block as aggregate_block sees them, and their originals. */
  ghost function BlockItems(orig: seq<real>, decoded: seq<real>, eps: real, inBlock: bool, n: nat): (its: seq<Item>)
    requires n <= |orig| == |decoded|
    ensures |its| == n && forall i :: 0 <= i < n ==> its[i] == Aggregate.Item(decoded[i], eps, inBlock, orig[i])
  {
    if n == 0 then [] else BlockItems(orig, decoded, eps, inBlock, n - 1) + [Aggregate.Item(decoded[n - 1], eps, inBlock, orig[n - 1])]
  }

  /** Originals and decoded values of the same shape. */
  ghost predicate SameSizes(orig: seq<seq<real>>, decoded: seq<seq<real>>) {
    |orig| == |decoded| && forall b :: 0 <= b < |orig| ==> |orig[b]| == |decoded[b]|
  }

  ghost function UnitItems(u: Unit, states: seq<State>, errs: seq<real>, n: nat): (r: seq<seq<Item>>)
    requires SameSizes(u.orig, u.decoded) && n <= |u.orig| == |states| == |errs|
    ensures |r| == n && forall b :: 0 <= b < n ==> r[b] == BlockItems(u.orig[b], u.decoded[b], errs[b], states[b] == In, |u.orig[b]|)
  {
    if n == 0 then []
    else UnitItems(u, states, errs, n - 1) + [BlockItems(u.orig[n - 1], u.decoded[n - 1], errs[n - 1], states[n - 1] == In, |u.orig[n - 1]|)]
  }

  ghost predicate Matching(u: Unit, states: seq<State>, errs: seq<real>) {
    SameSizes(u.orig, u.decoded) && |u.orig| == |states| == |errs|
  }

  ghost function ArrayItems(units: seq<Unit>, states: seq<seq<State>>, errs: seq<seq<real>>, n: nat): (r: seq<seq<seq<Item>>>)
    requires n <= |units| == |states| == |errs| && forall u :: 0 <= u < |units| ==> Matching(units[u], states[u], errs[u])
    ensures |r| == n && forall u :: 0 <= u < n ==> Matching(units[u], states[u], errs[u]) && r[u] == UnitItems(units[u], states[u], errs[u], |errs[u]|)
  {
    if n == 0 then []
    else ArrayItems(units, states, errs, n - 1) + [UnitItems(units[n - 1], states[n - 1], errs[n - 1], |errs[n - 1]|)]
  }

  // ---- what is known of a listed block ----

  /** The floats of a grid are float32 values. */
  ghost predicate FloatGrid(fp: Arith, grid: seq<Ext>) {
    IsGrid(grid) && forall g :: g in grid && g.Fin? ==> IsFloat(fp, g.r)
  }

  /** listed_error: the least float32 not below the block's error bound. */
  ghost predicate IsListedError(fp: Arith, grid: seq<Ext>, rec: Record, b: nat, err: real)
    requires IsGrid(grid) && (rec.codes.Codes? ==> b < |rec.codes.q|)
  {
    exists cast :: IsCast(grid, Fin(BlockError(fp, rec, b)), cast) && FloatAtLeast(grid, Fin(BlockError(fp, rec, b)), cast) == Fin(err)
  }

  ghost predicate AreListedErrors(fp: Arith, grid: seq<Ext>, rec: Record, blocks: nat, errs: seq<real>)
    requires IsGrid(grid)
  {
    && rec.Shaped(blocks) && |errs| == blocks
    && forall b :: 0 <= b < blocks ==> IsListedError(fp, grid, rec, b, errs[b])
  }

  /** above is the C conversion to float, stepped up by nextafterf where it went below. */
  ghost predicate IsAbove(grid: seq<Ext>, above: real -> real)
    requires IsGrid(grid)
  {
    forall d: real, cast: Ext {:trigger IsCast(grid, Fin(d), cast)} ::
      IsCast(grid, Fin(d), cast) && FloatAtLeast(grid, Fin(d), cast).Fin? ==> above(d) == FloatAtLeast(grid, Fin(d), cast).r
  }

  /** The stored error bound is a float32, 15 times it is a double, and codes have 4 bits. */
  ghost predicate FloatRecord(fp: Arith, grid: seq<Ext>, rec: Record) {
    && Fin(rec.eps) in grid && rec.eps >= 0.0 && Rep(fp, rec.eps) && Rep(fp, 15.0 * rec.eps)
    && (rec.codes.Codes? ==> forall b :: 0 <= b < |rec.codes.q| ==> rec.codes.q[b] <= 15)
  }

  /** The least float32 not below d is one that the conversion may give. */
  lemma {:induction false} CastExists(grid: seq<Ext>, d: Ext, i: nat) returns (cast: Ext)
    requires IsGrid(grid) && i < |grid| && d.AtMost(grid[i]) && forall j :: i < j < |grid| ==> grid[i].AtMost(grid[j])
    ensures IsCast(grid, d, cast)
  {
    if i > 0 && d.AtMost(grid[i - 1]) {
      cast := CastExists(grid, d, i - 1);
    } else {
      cast := grid[i];
    }
  }

  lemma {:induction false} BlockErrorSmall(fp: Arith, grid: seq<Ext>, rec: Record, b: nat)
    requires Binary64(fp) && FloatRecord(fp, grid, rec) && (rec.codes.Codes? ==> b < |rec.codes.q|)
    ensures BlockError(fp, rec, b) <= rec.eps
  {
    if rec.codes.Codes? {
      CodeErrorGrows(fp, rec.eps, rec.codes.q[b]);
    }
  }

  lemma {:induction false} ErrorIsListed(q: ValueRange, grid: seq<Ext>, rec: Record, b: nat)
    requires Binary64(q.fp) && IsGrid(grid) && IsAbove(grid, q.above) && FloatRecord(q.fp, grid, rec) && (rec.codes.Codes? ==> b < |rec.codes.q|)
    ensures IsListedError(q.fp, grid, rec, b, q.above(BlockError(q.fp, rec, b)))
  {
    var d := BlockError(q.fp, rec, b);
    BlockErrorSmall(q.fp, grid, rec, b);
    var cast := CastExists(grid, Fin(d), |grid| - 1);
    FloatAtLeastIsLeast(grid, Fin(d), cast);
  }

  lemma {:induction false} ErrorsAreListed(q: ValueRange, grid: seq<Ext>, rec: Record, blocks: nat)
    requires Binary64(q.fp) && IsGrid(grid) && IsAbove(grid, q.above) && FloatRecord(q.fp, grid, rec) && rec.Shaped(blocks)
    ensures AreListedErrors(q.fp, grid, rec, blocks, PlanBlocks.ErrorsOf(q, rec, blocks))
  {
    forall b | 0 <= b < blocks ensures IsListedError(q.fp, grid, rec, b, PlanBlocks.ErrorsOf(q, rec, blocks)[b]) {
      ErrorIsListed(q, grid, rec, b);
      PlanBlocks.ErrorAt(q, rec, blocks, b);
    }
  }

  /** The decoder's values of a block, with its error bound and its state. */
  ghost predicate Decoded(v: seq<Ext>, err: real, state: State, its: seq<Item>) {
    && |v| == |its| == VALUES
    && forall i :: 0 <= i < |v| ==> v[i] == Fin(its[i].r) && its[i].eps == err && its[i].inBlock == (state == In)
  }

  /** Everything the aggregate relies on for a block. */
  ghost predicate BlockOk(q: ValueRange, its: seq<Item>, state: State, err: real, v: seq<Ext>) {
    && Decoded(v, err, state, its) && err >= 0.0
    && Aggregate.ValidItems(q.fp, its, q.lo, q.hi)
    && (state == Out ==> Intervals.TruthOf(q.fp, its, q.lo, q.hi) == AggregateQuery.NOTHING)
  }

  /** A float32 and a float32 error bound add up to 0 or to at least 2^-149. */
  lemma {:induction false} FloatSizes(fp: Arith, r: real, e: real)
    requires IsFloat(fp, r) && IsFloat(fp, e) && e >= 0.0
    ensures Abs(r) + e == 0.0 || (Abs(r) + e) * 713623846352979940529142984724747568191373312.0 >= 1.0
  {
    var j: int :| Steps(j, r);
    var k: int :| Steps(k, e);
    var i := if r < 0.0 then -j else j;
    assert (i + k) as real == (Abs(r) + e) * 713623846352979940529142984724747568191373312.0;
  }

  lemma {:induction false} ListedErrorCovers(fp: Arith, grid: seq<Ext>, rec: Record, b: nat, err: real)
    requires FloatGrid(fp, grid) && (rec.codes.Codes? ==> b < |rec.codes.q|) && IsListedError(fp, grid, rec, b, err)
    ensures IsFloat(fp, err) && BlockError(fp, rec, b) <= err
  {
    var d := Fin(BlockError(fp, rec, b));
    var cast :| IsCast(grid, d, cast) && FloatAtLeast(grid, d, cast) == Fin(err);
    FloatAtLeastIsLeast(grid, d, cast);
  }

  /** A block of a true unit, with its listed error bound. */
  lemma {:induction false} UnitBlockOk(q: ValueRange, grid: seq<Ext>, u: Unit, blocks: nat, b: nat, err: real, v: seq<Ext>, its: seq<Item>)
    requires Binary64(q.fp) && FloatGrid(q.fp, grid) && TrueUnit(q.fp, u, blocks) && b < blocks && u.rec.Shaped(blocks)
    requires IsListedError(q.fp, grid, u.rec, b, err) && IsBlock(u.decoded[b], v)
    requires forall i :: 0 <= i < |u.decoded[b]| ==> IsFloat(q.fp, u.decoded[b][i])
    requires TrueBlock(q.fp, u, b) && its == BlockItems(u.orig[b], u.decoded[b], err, StateOf(q.fp, u.rec, b, q.lo, q.hi) == In, |u.orig[b]|)
    ensures BlockOk(q, its, StateOf(q.fp, u.rec, b, q.lo, q.hi), err, v)
  {
    ListedErrorCovers(q.fp, grid, u.rec, b, err);
    var i0 := 0;
    assert Abs(u.orig[b][i0] - u.decoded[b][i0]) <= BlockError(q.fp, u.rec, b);
    forall i | 0 <= i < |its|
      ensures Abs(its[i].r) + err == 0.0 || (Abs(its[i].r) + err) * 713623846352979940529142984724747568191373312.0 >= 1.0
    {
      FloatSizes(q.fp, its[i].r, err);
    }
    AggregateQuery.ClassifiedItems(q.fp, u.rec, u.mins, u.maxs, b, q.lo, q.hi, its, err);
  }

  // ---- every block of the array ----

  /** Decoded values are float32. */
  ghost predicate FloatUnit(fp: Arith, u: Unit) {
    forall b, i :: 0 <= b < |u.decoded| && 0 <= i < |u.decoded[b]| ==> IsFloat(fp, u.decoded[b][i])
  }

  /** An archive of float32 values and float32 error bounds. */
  ghost predicate FloatArchive(fp: Arith, above: real -> real, grid: seq<Ext>, units: seq<Unit>) {
    && FloatGrid(fp, grid) && IsAbove(grid, above)
    && forall u :: 0 <= u < |units| ==> FloatUnit(fp, units[u]) && FloatRecord(fp, grid, units[u].rec)
  }

  /** Tables of the units' blocks, and the same of the chunks'. */
  datatype Tables = Tables(items: seq<seq<seq<Item>>>, states: seq<seq<State>>, errs: seq<seq<real>>, values: seq<seq<seq<Ext>>>)

  ghost predicate TablesShaped(g: Grid, t: Tables) {
    Shaped(g, t.items) && Shaped(g, t.states) && Shaped(g, t.errs) && Shaped(g, t.values)
  }

  ghost predicate UnitsOk(q: ValueRange, g: Grid, t: Tables)
    requires TablesShaped(g, t)
  {
    forall u, b :: 0 <= u < |t.items| && 0 <= b < g.blocks ==> BlockOk(q, t.items[u][b], t.states[u][b], t.errs[u][b], t.values[u][b])
  }

  lemma {:induction false} UnitOk(q: ValueRange, grid: seq<Ext>, u: Unit, blocks: nat, states: seq<State>, errs: seq<real>, values: seq<seq<Ext>>, b: nat)
    requires Binary64(q.fp) && FloatGrid(q.fp, grid) && TrueUnit(q.fp, u, blocks) && b < blocks && FloatUnit(q.fp, u)
    requires AreListedErrors(q.fp, grid, u.rec, blocks, errs) && AreBlocks(u.decoded, values)
    requires states == StatesOf(q.fp, u.rec, blocks, q.lo, q.hi) && Matching(u, states, errs)
    ensures BlockOk(q, UnitItems(u, states, errs, |errs|)[b], states[b], errs[b], values[b])
  {
    assert TrueBlock(q.fp, u, b) && IsBlock(u.decoded[b], values[b]) && IsListedError(q.fp, grid, u.rec, b, errs[b]);
    UnitStatesAt(q.fp, u.rec, blocks, q.lo, q.hi, b, StateOf(q.fp, u.rec, b, q.lo, q.hi));
    UnitBlockOk(q, grid, u, blocks, b, errs[b], values[b], UnitItems(u, states, errs, |errs|)[b]);
  }

  lemma {:induction false} TrueUnitMatches(fp: Arith, u: Unit, blocks: nat, states: seq<State>, errs: seq<real>)
    requires TrueUnit(fp, u, blocks) && |states| == |errs| == blocks
    ensures Matching(u, states, errs)
  {
    forall b | 0 <= b < blocks ensures |u.orig[b]| == |u.decoded[b]| {
      assert TrueBlock(fp, u, b);
    }
  }

  lemma {:induction false} RowOk(q: ValueRange, g: Grid, t: Tables, c: nat, p: nat)
    requires TablesShaped(g, t) && UnitsOk(q, g, t) && c < g.Chunks() && p < g.Subs() * g.blocks
    ensures p < |Row(g, t.items, c, g.Subs())| && p < |Row(g, t.states, c, g.Subs())|
    ensures p < |Row(g, t.errs, c, g.Subs())| && p < |Row(g, t.values, c, g.Subs())|
    ensures BlockOk(q, Row(g, t.items, c, g.Subs())[p], Row(g, t.states, c, g.Subs())[p], Row(g, t.errs, c, g.Subs())[p], Row(g, t.values, c, g.Subs())[p])
  {
    BlockOfRow(g, t.items, c, p);
    BlockOfRow(g, t.states, c, p);
    BlockOfRow(g, t.errs, c, p);
    BlockOfRow(g, t.values, c, p);
  }

  // ---- the listed blocks ----

  /** Every listed block is one of the tables, with its own state and error bound. */
  ghost predicate ListedOk(q: ValueRange, es: seq<Entry>, items: seq<seq<seq<Item>>>, values: seq<seq<seq<Ext>>>) {
    && AggregateQuery.InTable(items, es) && AggregateQuery.InTable(values, es)
    && forall i :: 0 <= i < |es| ==>
         BlockOk(q, items[es[i].chunk][es[i].block], es[i].state, es[i].eps, values[es[i].chunk][es[i].block])
  }

  lemma {:induction false} PlanIsOk(q: ValueRange, g: Grid, t: Tables, es: seq<Entry>, items: seq<seq<seq<Item>>>, values: seq<seq<seq<Ext>>>)
    requires TablesShaped(g, t) && UnitsOk(q, g, t) && es == Plan(g, t.states, t.errs, true)
    requires items == Rows(g, t.items, g.Chunks()) && values == Rows(g, t.values, g.Chunks())
    ensures ListedOk(q, es, items, values)
  {
    RowsMatch(g, t.states, t.errs, g.Chunks());
    forall i | 0 <= i < |es|
      ensures es[i].chunk < g.Chunks() && es[i].block < |items[es[i].chunk]| && es[i].block < |values[es[i].chunk]|
      ensures BlockOk(q, items[es[i].chunk][es[i].block], es[i].state, es[i].eps, values[es[i].chunk][es[i].block])
    {
      EntryIsOk(q, g, t, es, es[i], items, values);
    }
  }

  lemma {:induction false} EntryIsOk(q: ValueRange, g: Grid, t: Tables, es: seq<Entry>, e: Entry, items: seq<seq<seq<Item>>>, values: seq<seq<seq<Ext>>>)
    requires TablesShaped(g, t) && UnitsOk(q, g, t) && es == Plan(g, t.states, t.errs, true) && e in es
    requires items == Rows(g, t.items, g.Chunks()) && values == Rows(g, t.values, g.Chunks())
    ensures e.chunk < g.Chunks() && e.block < |items[e.chunk]| && e.block < |values[e.chunk]|
    ensures BlockOk(q, items[e.chunk][e.block], e.state, e.eps, values[e.chunk][e.block])
  {
    EntryOfRow(g, t.states, t.errs, e);
    RowOk(q, g, t, e.chunk, e.block);
  }

  /** An entry is a block of a row, with its state and error bound. */
  lemma {:induction false} EntryOfRow(g: Grid, states: seq<seq<State>>, errs: seq<seq<real>>, e: Entry)
    requires Shaped(g, states) && Shaped(g, errs) && e in Plan(g, states, errs, true)
    ensures e.chunk < g.Chunks() && e.block < g.Subs() * g.blocks
    ensures |Row(g, states, e.chunk, g.Subs())| == |Row(g, errs, e.chunk, g.Subs())| == g.Subs() * g.blocks
    ensures e.state == Row(g, states, e.chunk, g.Subs())[e.block] && e.eps == Row(g, errs, e.chunk, g.Subs())[e.block]
  {
    RowsMatch(g, states, errs, g.Chunks());
    ListIsExact(0, Rows(g, states, g.Chunks()), Rows(g, errs, g.Chunks()), true, g.Chunks(), e);
    RowLength(g, states, e.chunk, g.Subs());
    RowLength(g, errs, e.chunk, g.Subs());
  }

  /** The truth of every block. */
  ghost function BlockTruths(q: ValueRange, items: seq<seq<Item>>, n: nat): (r: seq<Truth>)
    requires n <= |items|
    ensures |r| == n && forall b :: 0 <= b < n ==> r[b] == Intervals.TruthOf(q.fp, items[b], q.lo, q.hi)
  {
    if n == 0 then [] else BlockTruths(q, items, n - 1) + [Intervals.TruthOf(q.fp, items[n - 1], q.lo, q.hi)]
  }

  ghost function Truths(q: ValueRange, items: seq<seq<seq<Item>>>, n: nat): (r: seq<seq<Truth>>)
    requires n <= |items|
    ensures |r| == n && forall c :: 0 <= c < n ==> r[c] == BlockTruths(q, items[c], |items[c]|)
  {
    if n == 0 then [] else Truths(q, items, n - 1) + [BlockTruths(q, items[n - 1], |items[n - 1]|)]
  }

  lemma {:induction false} TruthsAreTable(q: ValueRange, items: seq<seq<seq<Item>>>)
    ensures AggregateQuery.IsTruthTable(q.fp, items, Truths(q, items, |items|), q.lo, q.hi)
  {
    var tr := Truths(q, items, |items|);
    forall c | 0 <= c < |tr| ensures AggregateQuery.IsTruthRow(q.fp, items[c], tr[c], q.lo, q.hi) {
    }
  }

  lemma {:induction false} OutBlocksAreNothing(q: ValueRange, g: Grid, t: Tables, items: seq<seq<seq<Item>>>)
    requires TablesShaped(g, t) && UnitsOk(q, g, t) && items == Rows(g, t.items, g.Chunks())
    ensures AggregateQuery.OutIsNothing(Rows(g, t.states, g.Chunks()), Truths(q, items, |items|))
  {
    var rows, tr := Rows(g, t.states, g.Chunks()), Truths(q, items, |items|);
    forall c | 0 <= c < |rows| ensures AggregateQuery.RowOutIsNothing(rows[c], tr[c]) {
      RowLength(g, t.states, c, g.Subs());
      RowLength(g, t.items, c, g.Subs());
      forall p | 0 <= p < |rows[c]| && rows[c][p] == Out ensures tr[c][p] == AggregateQuery.NOTHING {
        RowOk(q, g, t, c, p);
      }
    }
  }

  // ---- one read ----

  datatype Aggregated = Totals(agg: Aggregate.Agg) | Failed

  /** The values of the first n blocks of a read. */
  ghost function Joined(items: seq<seq<Item>>, n: nat): seq<Item>
    requires n <= |items|
  {
    if n == 0 then [] else Joined(items, n - 1) + items[n - 1]
  }

  /** The numbers behind a block's decoded floats. */
  function Reals(v: seq<Ext>, n: nat): (r: seq<real>)
    requires n <= |v| && forall i :: 0 <= i < |v| ==> v[i].Fin?
    ensures |r| == n && forall i :: 0 <= i < n ==> Fin(r[i]) == v[i]
  {
    if n == 0 then [] else Reals(v, n - 1) + [v[n - 1].r]
  }

  /** szfp_aggregate_offsets_range: a block outside the buffer or a negative error bound is an
    * error; otherwise the totals are those of the blocks' values one after another. */
  method AggregateOffsets(q: ValueRange, data: Bytes, offsets: seq<nat>, listed: seq<Entry>, size: nat, decode: Decoder, ghost items: seq<seq<Item>>)
    returns (r: Aggregated)
    requires |offsets| == |listed| == |items|
    requires forall i :: 0 <= i < |offsets| && offsets[i] + size <= |data| ==>
               && data[offsets[i]..offsets[i] + size] in decode
               && Decoded(decode[data[offsets[i]..offsets[i] + size]], listed[i].eps, listed[i].state, items[i])
    ensures r.Totals? <==> InBounds(data, offsets, size) && forall i :: 0 <= i < |listed| ==> listed[i].eps >= 0.0
    ensures r.Totals? ==> r.agg == Aggregate.AddItems(q.fp, Aggregate.EMPTY, Joined(items, |items|), q.lo, q.hi)
  {
    for i := 0 to |offsets|
      invariant forall k :: 0 <= k < i ==> offsets[k] + size <= |data| && listed[k].eps >= 0.0
    {
      if offsets[i] > |data| || |data| - offsets[i] < size {
        return Failed;
      }
      if listed[i].eps < 0.0 {
        return Failed;
      }
    }
    var acc := new Aggregate.SzAggregate();
    for i := 0 to |offsets|
      invariant fresh(acc) && acc.State() == Aggregate.AddItems(q.fp, Aggregate.EMPTY, Joined(items, i), q.lo, q.hi)
    {
      var v := decode[data[offsets[i]..offsets[i] + size]];
      acc.AddBlock(q.fp, Reals(v, |v|), listed[i].eps, listed[i].state == In, q.lo, q.hi, items[i]);
      Aggregate.AddItemsAppend(q.fp, Aggregate.EMPTY, Joined(items, i), items[i], q.lo, q.hi);
    }
    return Totals(acc.State());
  }

  /** The items of listed blocks d, d + 1, ... */
  ghost function ItemsOf(items: seq<seq<seq<Item>>>, es: seq<Entry>, d: nat, n: nat): (r: seq<seq<Item>>)
    requires AggregateQuery.InTable(items, es) && d + n <= |es|
    ensures |r| == n && forall i :: 0 <= i < n ==> r[i] == items[es[d + i].chunk][es[d + i].block]
  {
    if n == 0 then [] else ItemsOf(items, es, d, n - 1) + [items[es[d + n - 1].chunk][es[d + n - 1].block]]
  }

  lemma {:induction false} JoinedPrefix(a: seq<seq<Item>>, b: seq<seq<Item>>, n: nat)
    requires n <= |a| && a <= b
    ensures Joined(a, n) == Joined(b, n)
  {
    if n > 0 { JoinedPrefix(a, b, n - 1); }
  }

  lemma {:induction false} JoinedIsValues(items: seq<seq<seq<Item>>>, es: seq<Entry>, d: nat, n: nat, e: nat)
    requires AggregateQuery.InTable(items, es) && d + n == e <= |es|
    ensures Joined(ItemsOf(items, es, d, n), n) == AggregateQuery.Values(items, es, d, e)
    decreases n
  {
    if n > 0 {
      JoinedIsValues(items, es, d, n - 1, e - 1);
      JoinedPrefix(ItemsOf(items, es, d, n - 1), ItemsOf(items, es, d, n), n - 1);
    }
  }

  lemma {:induction false} ValuesAreValid(q: ValueRange, es: seq<Entry>, items: seq<seq<seq<Item>>>, values: seq<seq<seq<Ext>>>, d: nat, e: nat)
    requires ListedOk(q, es, items, values) && d <= e <= |es|
    ensures |AggregateQuery.Values(items, es, d, e)| == (e - d) * VALUES
    ensures Aggregate.ValidItems(q.fp, AggregateQuery.Values(items, es, d, e), q.lo, q.hi)
    decreases e - d
  {
    if d < e {
      ValuesAreValid(q, es, items, values, d, e - 1);
      assert BlockOk(q, items[es[e - 1].chunk][es[e - 1].block], es[e - 1].state, es[e - 1].eps, values[es[e - 1].chunk][es[e - 1].block]);
    }
  }

  /** What the decoder finds for the listed blocks. */
  ghost predicate Decodes(es: seq<Entry>, want: seq<Bytes>, decode: Decoder, values: seq<seq<seq<Ext>>>) {
    && |want| == |es| && AggregateQuery.InTable(values, es)
    && forall i :: 0 <= i < |es| ==> want[i] in decode && decode[want[i]] == values[es[i].chunk][es[i].block]
  }

  /** One read of an aggregate: its totals and its number of blocks. */
  method AggregateRun(q: ValueRange, job: Assembly.Job, rs: seq<Run>, run: nat, es: seq<Entry>, decode: Decoder, ghost want: seq<Bytes>,
                      ghost items: seq<seq<seq<Item>>>, ghost values: seq<seq<seq<Ext>>>)
    returns (part: Intervals.Part)
    requires Assembly.IsInput(job, want) && job.k == 1 && rs == Runs(job.cs, job.bs, job.gap, |job.cs|) && run < |rs|
    requires ListedOk(q, es, items, values) && Decodes(es, want, decode, values)
    ensures rs[run].start < End(rs, |es|, run) <= |es|
    ensures part.blocks == End(rs, |es|, run) - rs[run].start
    ensures part.agg == Aggregate.Run(q.fp, AggregateQuery.Values(items, es, rs[run].start, End(rs, |es|, run)), q.lo, q.hi)
  {
    var r := Range(rs, |job.cs|, run, job.layers[0], LayerStart(job.n, job.layers, 0));
    Assembly.RunInObject(job, rs, r, run, 0);
    var data := job.store[r.chunk][r.start..r.end];
    var offsets := RunOffsets(job, want, rs, run, r, data);
    ghost var read := ItemsOf(items, es, r.itemStart, |offsets|);
    var listed := es[r.itemStart..r.itemEnd];
    OffsetsDecode(q, es, want, decode, items, values, r.itemStart, data, offsets, job.layers[0], listed, read);
    var o := AggregateOffsets(q, data, offsets, listed, job.layers[0], decode, read);
    JoinedIsValues(items, es, r.itemStart, |offsets|, r.itemEnd);
    part := Intervals.Part(o.agg, r.itemEnd - r.itemStart);
  }

  lemma {:induction false} OffsetsDecode(q: ValueRange, es: seq<Entry>, want: seq<Bytes>, decode: Decoder, items: seq<seq<seq<Item>>>,
                                         values: seq<seq<seq<Ext>>>, d: nat, data: Bytes, offsets: seq<nat>, size: nat,
                                         listed: seq<Entry>, read: seq<seq<Item>>)
    requires ListedOk(q, es, items, values) && Decodes(es, want, decode, values) && Laid(want, d, data, offsets, size)
    requires d + |offsets| <= |es| && listed == es[d..d + |offsets|] && read == ItemsOf(items, es, d, |offsets|)
    ensures InBounds(data, offsets, size) && forall i :: 0 <= i < |listed| ==> listed[i].eps >= 0.0
    ensures forall i :: 0 <= i < |offsets| ==>
              && data[offsets[i]..offsets[i] + size] in decode
              && Decoded(decode[data[offsets[i]..offsets[i] + size]], listed[i].eps, listed[i].state, read[i])
  {
    forall i | 0 <= i < |offsets|
      ensures offsets[i] + size <= |data| && data[offsets[i]..offsets[i] + size] in decode && listed[i].eps >= 0.0
      ensures Decoded(decode[data[offsets[i]..offsets[i] + size]], listed[i].eps, listed[i].state, read[i])
    {
      assert listed[i] == es[d + i];
      assert want[d + i] == data[offsets[i]..offsets[i] + size];
      assert BlockOk(q, items[es[d + i].chunk][es[d + i].block], es[d + i].state, es[d + i].eps, values[es[d + i].chunk][es[d + i].block]);
    }
  }

  // ---- all reads ----

  /** Where the reads of a list start, and where the list ends. */
  ghost function Cuts(rs: seq<Run>, n: nat, k: nat): (r: seq<nat>)
    requires k <= |rs|
    ensures |r| == k + 1 && r[k] == (if k < |rs| then rs[k].start else n) && forall j :: 0 <= j < k ==> r[j] == rs[j].start
  {
    (if k == 0 then [] else Cuts(rs, n, k - 1)[..k - 1] + [rs[k - 1].start]) + [if k < |rs| then rs[k].start else n]
  }

  lemma {:induction false} CutsAreCutting(cs: seq<nat>, bs: seq<nat>, gap: nat)
    requires |cs| == |bs|
    ensures var rs := Runs(cs, bs, gap, |cs|); AggregateQuery.IsCutting(Cuts(rs, |cs|, |rs|), |cs|)
  {
    var rs := Runs(cs, bs, gap, |cs|);
    if |cs| > 0 {
      AggregateQuery.ReadsAreCuts(cs, bs, gap, Cuts(rs, |cs|, |rs|));
    }
  }

  /** No read of the list has more than 2^24 values. */
  ghost predicate ShortReads(rs: seq<Run>, n: nat) {
    forall k :: 0 <= k < |rs| ==> (End(rs, n, k) - rs[k].start) * VALUES <= 16777216
  }

  /** The blocks of a read are different blocks of one chunk. */
  lemma {:induction false} BlocksGrow(cs: seq<nat>, bs: seq<nat>, gap: nat, rs: seq<Run>, k: nat, i: nat)
    requires Ascending(cs, bs) && rs == Runs(cs, bs, gap, |cs|) && k < |rs| && rs[k].start <= i < End(rs, |cs|, k)
    ensures i < |cs| && bs[rs[k].start] + (i - rs[k].start) <= bs[i]
    decreases i
  {
    ItemInRun(cs, bs, gap, rs, k, i);
    if rs[k].start < i {
      BlocksGrow(cs, bs, gap, rs, k, i - 1);
      ItemInRun(cs, bs, gap, rs, k, i - 1);
      assert Follows(cs, bs, i);
    }
  }

  /** Chunks of at most 2^24 values have short reads only, whatever the merge gap. */
  lemma {:induction false} SmallChunksKeepReadsShort(a: Archive, es: seq<Entry>, gap: nat)
    requires ValidArchive(a) && Lists(a, es) && a.n * VALUES <= 16777216
    ensures ShortReads(PipelinedQuery.ReadsOf(es, gap), |es|)
  {
    var cs, bs := Chunks(es, |es|), Blocks(es, |es|);
    var rs := PipelinedQuery.ReadsOf(es, gap);
    JobIsValid(a, es, gap);
    forall k | 0 <= k < |rs| ensures End(rs, |es|, k) - rs[k].start <= a.n {
      RunEnds(cs, bs, gap, rs, k);
      BlocksGrow(cs, bs, gap, rs, k, End(rs, |cs|, k) - 1);
    }
  }

  /** The totals of every read, as combine needs them. */
  ghost predicate PartsOk(q: ValueRange, es: seq<Entry>, items: seq<seq<seq<Item>>>, cuts: seq<nat>, parts: seq<Intervals.Part>)
    requires AggregateQuery.InTable(items, es) && AggregateQuery.IsCutting(cuts, |es|) && |parts| < |cuts|
  {
    forall k :: 0 <= k < |parts| ==> PartOk(q, es, items, cuts[k], cuts[k + 1], parts[k])
  }

  ghost predicate PartOk(q: ValueRange, es: seq<Entry>, items: seq<seq<seq<Item>>>, d: nat, e: nat, part: Intervals.Part)
    requires AggregateQuery.InTable(items, es)
  {
    && d <= e <= |es| && part.blocks == e - d
    && Intervals.ValidPart(q.fp, part, AggregateQuery.Values(items, es, d, e), VALUES, q.lo, q.hi)
  }

  lemma {:induction false} ReadIsOk(q: ValueRange, es: seq<Entry>, items: seq<seq<seq<Item>>>, values: seq<seq<seq<Ext>>>, d: nat, e: nat, part: Intervals.Part)
    requires ListedOk(q, es, items, values) && d < e <= |es| && (e - d) * VALUES <= 16777216 && part.blocks == e - d
    requires part.agg == Aggregate.Run(q.fp, AggregateQuery.Values(items, es, d, e), q.lo, q.hi)
    ensures PartOk(q, es, items, d, e, part)
  {
    ValuesAreValid(q, es, items, values, d, e);
  }

  /** stream_aggregate: every read's totals, in the order of the reads. */
  method AggregateRuns(q: ValueRange, job: Assembly.Job, es: seq<Entry>, decode: Decoder, ghost want: seq<Bytes>,
                       ghost items: seq<seq<seq<Item>>>, ghost values: seq<seq<seq<Ext>>>, ghost cuts: seq<nat>)
    returns (parts: seq<Intervals.Part>)
    requires Assembly.IsInput(job, want) && job.k == 1 && |job.cs| == |es| && ListedOk(q, es, items, values) && Decodes(es, want, decode, values)
    requires ShortReads(Runs(job.cs, job.bs, job.gap, |job.cs|), |es|)
    requires cuts == Cuts(Runs(job.cs, job.bs, job.gap, |job.cs|), |es|, |Runs(job.cs, job.bs, job.gap, |job.cs|)|)
    requires AggregateQuery.IsCutting(cuts, |es|)
    ensures |parts| == |cuts| - 1 && PartsOk(q, es, items, cuts, parts)
  {
    var rs := Runs(job.cs, job.bs, job.gap, |job.cs|);
    parts := [];
    for run := 0 to |rs|
      invariant |parts| == run && PartsOk(q, es, items, cuts, parts)
    {
      var part := AggregateRun(q, job, rs, run, es, decode, want, items, values);
      ReadIsOk(q, es, items, values, rs[run].start, End(rs, |es|, run), part);
      parts := parts + [part];
    }
  }

  lemma {:induction false} PartsAreTotalled(q: ValueRange, es: seq<Entry>, items: seq<seq<seq<Item>>>, cuts: seq<nat>, parts: seq<Intervals.Part>)
    requires AggregateQuery.InTable(items, es) && AggregateQuery.IsCutting(cuts, |es|) && |parts| == |cuts| - 1 && PartsOk(q, es, items, cuts, parts)
    ensures AggregateQuery.Totalled(q.fp, parts, AggregateQuery.Groups(items, es, cuts, |cuts| - 1), q.lo, q.hi)
  {
    var groups := AggregateQuery.Groups(items, es, cuts, |cuts| - 1);
    forall i | 0 <= i < |parts| ensures Intervals.ValidPart(q.fp, parts[i], groups[i], 64, q.lo, q.hi) {
      assert PartOk(q, es, items, cuts[i], cuts[i + 1], parts[i]);
    }
  }

  // ---- the answer ----

  /** The matching decoded values, their sum and the sum of their sizes, and the matching
    * originals and their sum. */
  datatype Scan = Scan(decoded: nat, seen: Intervals.Sized, count: nat, sum: real)

  function Add(a: Scan, b: Scan): Scan {
    Scan(a.decoded + b.decoded, Intervals.Sized(a.seen.total + b.seen.total, a.seen.size + b.seen.size), a.count + b.count, a.sum + b.sum)
  }

  function ScanValue(orig: real, decoded: real, lo: Ext, hi: Ext): Scan {
    Scan(if InRange(Fin(decoded), lo, hi) then 1 else 0, if InRange(Fin(decoded), lo, hi) then Intervals.Sized(decoded, Abs(decoded)) else Intervals.Sized(0.0, 0.0),
         if InRange(Fin(orig), lo, hi) then 1 else 0, if InRange(Fin(orig), lo, hi) then orig else 0.0)
  }

  /** An unfiltered scan of a block, of a chunk and of an array. */
  function ScanBlock(pairs: seq<(real, real)>, lo: Ext, hi: Ext, n: nat): Scan
    requires n <= |pairs|
  {
    if n == 0 then Scan(0, Intervals.Sized(0.0, 0.0), 0, 0.0) else Add(ScanBlock(pairs, lo, hi, n - 1), ScanValue(pairs[n - 1].0, pairs[n - 1].1, lo, hi))
  }

  function ScanRow(blocks: seq<seq<(real, real)>>, lo: Ext, hi: Ext, n: nat): Scan
    requires n <= |blocks|
  {
    if n == 0 then Scan(0, Intervals.Sized(0.0, 0.0), 0, 0.0) else Add(ScanRow(blocks, lo, hi, n - 1), ScanBlock(blocks[n - 1], lo, hi, |blocks[n - 1]|))
  }

  function ScanArray(chunks: seq<seq<seq<(real, real)>>>, lo: Ext, hi: Ext, n: nat): Scan
    requires n <= |chunks|
  {
    if n == 0 then Scan(0, Intervals.Sized(0.0, 0.0), 0, 0.0) else Add(ScanArray(chunks, lo, hi, n - 1), ScanRow(chunks[n - 1], lo, hi, |chunks[n - 1]|))
  }

  /** The originals and decoded values of blocks, units and arrays. */
  ghost function BlockPairs(orig: seq<real>, decoded: seq<real>, n: nat): (r: seq<(real, real)>)
    requires n <= |orig| == |decoded|
    ensures |r| == n && forall i :: 0 <= i < n ==> r[i] == (orig[i], decoded[i])
  {
    if n == 0 then [] else BlockPairs(orig, decoded, n - 1) + [(orig[n - 1], decoded[n - 1])]
  }

  ghost function UnitPairs(u: Unit, n: nat): (r: seq<seq<(real, real)>>)
    requires SameSizes(u.orig, u.decoded) && n <= |u.orig|
    ensures |r| == n && forall b :: 0 <= b < n ==> r[b] == BlockPairs(u.orig[b], u.decoded[b], |u.orig[b]|)
  {
    if n == 0 then [] else UnitPairs(u, n - 1) + [BlockPairs(u.orig[n - 1], u.decoded[n - 1], |u.orig[n - 1]|)]
  }

  ghost function ArrayPairs(units: seq<Unit>, n: nat): (r: seq<seq<seq<(real, real)>>>)
    requires n <= |units| && forall u :: 0 <= u < |units| ==> SameSizes(units[u].orig, units[u].decoded)
    ensures |r| == n && forall u :: 0 <= u < n ==> SameSizes(units[u].orig, units[u].decoded) && r[u] == UnitPairs(units[u], |units[u].orig|)
  {
    if n == 0 then [] else ArrayPairs(units, n - 1) + [UnitPairs(units[n - 1], |units[n - 1].orig|)]
  }

  ghost predicate SameValues(pairs: seq<(real, real)>, its: seq<Item>) {
    |pairs| == |its| && forall i :: 0 <= i < |pairs| ==> pairs[i] == (its[i].orig, its[i].r)
  }

  ghost predicate Agrees(s: Scan, t: Truth) {
    s.decoded == t.decoded && s.seen == t.seen && s.count == t.count && s.sum == t.sum
  }

  lemma {:induction false} BlockAgrees(q: ValueRange, pairs: seq<(real, real)>, its: seq<Item>, n: nat)
    requires SameValues(pairs, its) && n <= |its|
    ensures Agrees(ScanBlock(pairs, q.lo, q.hi, n), Intervals.TruthOf(q.fp, its[..n], q.lo, q.hi))
  {
    if n > 0 {
      BlockAgrees(q, pairs, its, n - 1);
      assert its[..n][..n - 1] == its[..n - 1];
    }
  }

  ghost predicate SameRow(pairs: seq<seq<(real, real)>>, items: seq<seq<Item>>) {
    |pairs| == |items| && forall b :: 0 <= b < |pairs| ==> SameValues(pairs[b], items[b])
  }

  lemma {:induction false} RowAgrees(q: ValueRange, pairs: seq<seq<(real, real)>>, items: seq<seq<Item>>, n: nat)
    requires SameRow(pairs, items) && n <= |items|
    ensures Agrees(ScanRow(pairs, q.lo, q.hi, n), AggregateQuery.RowTruth(BlockTruths(q, items, |items|), n))
  {
    if n > 0 {
      RowAgrees(q, pairs, items, n - 1);
      assert SameValues(pairs[n - 1], items[n - 1]);
      BlockAgrees(q, pairs[n - 1], items[n - 1], |items[n - 1]|);
      assert items[n - 1][..|items[n - 1]|] == items[n - 1];
    }
  }

  lemma {:induction false} ArrayAgrees(q: ValueRange, pairs: seq<seq<seq<(real, real)>>>, items: seq<seq<seq<Item>>>, n: nat)
    requires |pairs| == |items| && (forall c :: 0 <= c < |pairs| ==> SameRow(pairs[c], items[c])) && n <= |items|
    ensures Agrees(ScanArray(pairs, q.lo, q.hi, n), AggregateQuery.ArrayTruth(Truths(q, items, |items|), n))
  {
    if n > 0 {
      ArrayAgrees(q, pairs, items, n - 1);
      RowAgrees(q, pairs[n - 1], items[n - 1], |items[n - 1]|);
    }
  }

  lemma {:induction false} RowsAreSame(g: Grid, units: seq<Unit>, states: seq<seq<State>>, errs: seq<seq<real>>, pairs: seq<seq<seq<(real, real)>>>,
                                       items: seq<seq<seq<Item>>>, c: nat)
    requires |units| == |states| == |errs| && forall u :: 0 <= u < |units| ==> Matching(units[u], states[u], errs[u])
    requires forall u :: 0 <= u < |units| ==> SameSizes(units[u].orig, units[u].decoded)
    requires pairs == ArrayPairs(units, |units|) && items == ArrayItems(units, states, errs, |units|)
    requires Shaped(g, pairs) && Shaped(g, items) && c < g.Chunks()
    ensures SameRow(Row(g, pairs, c, g.Subs()), Row(g, items, c, g.Subs()))
  {
    RowLength(g, pairs, c, g.Subs());
    RowLength(g, items, c, g.Subs());
    forall p | 0 <= p < g.Subs() * g.blocks
      ensures SameValues(Row(g, pairs, c, g.Subs())[p], Row(g, items, c, g.Subs())[p])
    {
      BlockOfRow(g, pairs, c, p);
      BlockOfRow(g, items, c, p);
      var u := Uid(g, c, MixedRadix.High(p, g.blocks));
      UnitIsSame(units[u], states[u], errs[u], MixedRadix.Low(p, g.blocks));
    }
  }

  lemma {:induction false} UnitIsSame(u: Unit, states: seq<State>, errs: seq<real>, b: nat)
    requires Matching(u, states, errs) && b < |errs|
    ensures SameValues(UnitPairs(u, |u.orig|)[b], UnitItems(u, states, errs, |errs|)[b])
  {
  }

  /** The count is exact for the decoded values, their sum off by at most 2^-28 of their sizes,
    * and the intervals hold for the originals. */
  ghost predicate Answers(a: Intervals.Answer, s: Scan) {
    && a.count == s.decoded && Abs(a.total - s.seen.total) * 268435456.0 <= s.seen.size
    && a.countLow <= s.count <= a.countHigh
    && a.sumLow <= s.sum <= a.sumHigh
    && (0 < s.count && a.countHigh <= INT_MAX ==>
          a.mean.MeanBounds? && a.mean.low.AtMost(Fin(s.sum / s.count as real)) && Fin(s.sum / s.count as real).AtMost(a.mean.high))
  }

  /** What the records list of an array, and its blocks' values. */
  ghost predicate IsTables(q: ValueRange, g: Grid, recs: seq<Record>, errs: seq<seq<real>>, units: seq<Unit>, values: seq<seq<seq<Ext>>>, t: Tables) {
    && |units| == |recs| == |errs| && (forall u :: 0 <= u < |recs| ==> recs[u].Shaped(g.blocks))
    && t.states == StatesOfAll(q.fp, recs, g.blocks, q.lo, q.hi, |recs|) && t.errs == errs && t.values == values
    && (forall u :: 0 <= u < |units| ==> Matching(units[u], t.states[u], errs[u]))
    && t.items == ArrayItems(units, t.states, errs, |units|) && TablesShaped(g, t)
  }

  lemma {:induction false} AllMatch(q: ValueRange, a: Archive, g: Grid, recs: seq<Record>, errs: seq<seq<real>>, units: seq<Unit>, values: seq<seq<seq<Ext>>>,
                                    states: seq<seq<State>>)
    requires TrueArchive(q.fp, a, g, recs, units, values) && states == StatesOfAll(q.fp, recs, g.blocks, q.lo, q.hi, |recs|)
    requires errs == ErrorsOfAll(q, recs, g.blocks, |recs|)
    ensures |units| == |states| == |errs| && forall u :: 0 <= u < |units| ==> Matching(units[u], states[u], errs[u])
  {
    forall u | 0 <= u < |units| ensures Matching(units[u], states[u], errs[u]) {
      TrueUnitMatches(q.fp, units[u], g.blocks, states[u], errs[u]);
    }
  }

  ghost function TablesOf(q: ValueRange, a: Archive, g: Grid, recs: seq<Record>, units: seq<Unit>, values: seq<seq<seq<Ext>>>): (t: Tables)
    requires TrueArchive(q.fp, a, g, recs, units, values)
    ensures IsTables(q, g, recs, ErrorsOfAll(q, recs, g.blocks, |recs|), units, values, t)
  {
    var errs := ErrorsOfAll(q, recs, g.blocks, |recs|);
    var states := StatesOfAll(q.fp, recs, g.blocks, q.lo, q.hi, |recs|);
    AllMatch(q, a, g, recs, errs, units, values, states);
    Tables(ArrayItems(units, states, errs, |units|), states, errs, values)
  }

  lemma {:induction false} ArchiveIsOk(q: ValueRange, a: Archive, g: Grid, recs: seq<Record>, errs: seq<seq<real>>, grid: seq<Ext>, units: seq<Unit>,
                                       values: seq<seq<seq<Ext>>>, t: Tables)
    requires TrueArchive(q.fp, a, g, recs, units, values) && FloatArchive(q.fp, q.above, grid, units) && errs == ErrorsOfAll(q, recs, g.blocks, |recs|)
    requires IsTables(q, g, recs, errs, units, values, t)
    ensures UnitsOk(q, g, t)
  {
    forall u, b | 0 <= u < |t.items| && 0 <= b < g.blocks
      ensures BlockOk(q, t.items[u][b], t.states[u][b], t.errs[u][b], t.values[u][b])
    {
      assert FloatUnit(q.fp, units[u]) && FloatRecord(q.fp, grid, units[u].rec) && AreBlocks(units[u].decoded, values[u]);
      ErrorsAreListed(q, grid, units[u].rec, g.blocks);
      UnitOk(q, grid, units[u], g.blocks, t.states[u], errs[u], values[u], b);
    }
  }

  /** The values of the listed blocks are what decoding their stored bytes gives. */
  lemma {:induction false} InputsDecode(a: Archive, es: seq<Entry>)
    requires ValidArchive(a) && Lists(a, es)
    ensures Decodes(es, Inputs(a, es, |es|), a.decode, a.values)
  {
    var want := Inputs(a, es, |es|);
    forall i | 0 <= i < |es|
      ensures es[i].chunk < |a.values| && es[i].block < |a.values[es[i].chunk]|
      ensures want[i] in a.decode && a.decode[want[i]] == a.values[es[i].chunk][es[i].block]
    {
      InputsAt(a, es, |es|, i);
    }
  }

  /** The plain pairs of originals and decoded values, chunk by chunk. */
  ghost function PairRows(fp: Arith, g: Grid, units: seq<Unit>): seq<seq<seq<(real, real)>>>
    requires g.Valid() && |units| == g.Units() && TrueUnits(fp, units, g.blocks)
  {
    PairsShaped(fp, g, units);
    Rows(g, ArrayPairs(units, |units|), g.Chunks())
  }

  lemma {:induction false} PairsShaped(fp: Arith, g: Grid, units: seq<Unit>)
    requires g.Valid() && |units| == g.Units() && TrueUnits(fp, units, g.blocks)
    ensures forall u :: 0 <= u < |units| ==> SameSizes(units[u].orig, units[u].decoded)
    ensures Shaped(g, ArrayPairs(units, |units|))
  {
    forall u | 0 <= u < |units| ensures SameSizes(units[u].orig, units[u].decoded) && |units[u].orig| == g.blocks {
      assert TrueUnit(fp, units[u], g.blocks);
      forall b | 0 <= b < g.blocks ensures |units[u].orig[b]| == |units[u].decoded[b]| {
        assert TrueBlock(fp, units[u], b);
      }
    }
  }

  /** Whatever encloses the truth of the blocks' items encloses a plain scan. */
  lemma {:induction false} ScanIsTruth(q: ValueRange, g: Grid, recs: seq<Record>, errs: seq<seq<real>>, units: seq<Unit>, values: seq<seq<seq<Ext>>>,
                                       t: Tables, items: seq<seq<seq<Item>>>, pairs: seq<seq<seq<(real, real)>>>)
    requires IsTables(q, g, recs, errs, units, values, t) && g.Valid() && |units| == g.Units() && TrueUnits(q.fp, units, g.blocks)
    requires items == Rows(g, t.items, g.Chunks()) && pairs == PairRows(q.fp, g, units)
    ensures |pairs| == |items| && Agrees(ScanArray(pairs, q.lo, q.hi, |pairs|), AggregateQuery.ArrayTruth(Truths(q, items, |items|), |items|))
  {
    PairsShaped(q.fp, g, units);
    forall c | 0 <= c < |pairs| ensures SameRow(pairs[c], items[c]) {
      RowsAreSame(g, units, t.states, errs, ArrayPairs(units, |units|), t.items, c);
    }
    ArrayAgrees(q, pairs, items, |items|);
  }

  /** A list with the totals of its reads. */
  ghost predicate Totalled(q: ValueRange, es: seq<Entry>, items: seq<seq<seq<Item>>>, cuts: seq<nat>, parts: seq<Intervals.Part>) {
    && AggregateQuery.InTable(items, es) && AggregateQuery.IsCutting(cuts, |es|) && |parts| == |cuts| - 1
    && PartsOk(q, es, items, cuts, parts)
  }

  /** Where a list is cut into reads. */
  ghost function CutsOf(es: seq<Entry>, gap: nat): seq<nat> {
    var rs := PipelinedQuery.ReadsOf(es, gap);
    Cuts(rs, |es|, |rs|)
  }

  /** The totals of every piece of a list. */
  ghost function ReadTotals(q: ValueRange, es: seq<Entry>, items: seq<seq<seq<Item>>>, cuts: seq<nat>, k: nat): (r: seq<Intervals.Part>)
    requires AggregateQuery.InTable(items, es) && AggregateQuery.IsCutting(cuts, |es|) && k < |cuts|
    ensures |r| == k
  {
    if k == 0 then []
    else
      ReadTotals(q, es, items, cuts, k - 1) +
      [Intervals.Part(Aggregate.Run(q.fp, AggregateQuery.Values(items, es, cuts[k - 1], cuts[k]), q.lo, q.hi), cuts[k] - cuts[k - 1])]
  }

  lemma {:induction false} TotalsAreRead(q: ValueRange, es: seq<Entry>, items: seq<seq<seq<Item>>>, cuts: seq<nat>, parts: seq<Intervals.Part>, k: nat)
    requires Totalled(q, es, items, cuts, parts) && k < |cuts|
    ensures parts[..k] == ReadTotals(q, es, items, cuts, k)
  {
    if k > 0 {
      TotalsAreRead(q, es, items, cuts, parts, k - 1);
      assert PartOk(q, es, items, cuts[k - 1], cuts[k], parts[k - 1]);
      assert parts[..k] == parts[..k - 1] + [parts[k - 1]];
    }
  }

  /** _read_listed: a list, merged into reads, read and totalled. */
  method AggregateList(q: ValueRange, a: Archive, es: seq<Entry>, gap: nat, ghost items: seq<seq<seq<Item>>>)
    returns (parts: seq<Intervals.Part>)
    requires ValidArchive(a) && a.k == 1 && Lists(a, es) && ListedOk(q, es, items, a.values) && ShortReads(PipelinedQuery.ReadsOf(es, gap), |es|)
    ensures Totalled(q, es, items, CutsOf(es, gap), parts)
  {
    var job := JobOf(a, es, gap);
    ghost var want := Inputs(a, es, |es|);
    CutsAreCutting(job.cs, job.bs, gap);
    InputsAreInput(a, es, gap);
    InputsDecode(a, es);
    parts := AggregateRuns(q, job, es, a.decode, want, items, a.values, CutsOf(es, gap));
  }

  /** The totals of the whole list, combined. */
  lemma {:induction false} TotalsEnclose(q: ValueRange, g: Grid, t: Tables, es: seq<Entry>, items: seq<seq<seq<Item>>>, cuts: seq<nat>,
                                         parts: seq<Intervals.Part>)
    requires Binary64(q.fp) && ValidBounds(q.fp, q.lo, q.hi) && TablesShaped(g, t) && UnitsOk(q, g, t)
    requires es == Plan(g, t.states, t.errs, true) && items == Rows(g, t.items, g.Chunks()) && Totalled(q, es, items, cuts, parts)
    ensures Intervals.Encloses(Intervals.Combine(q.fp, parts, VALUES), AggregateQuery.ArrayTruth(Truths(q, items, |items|), |items|))
  {
    PartsAreTotalled(q, es, items, cuts, parts);
    TruthsAreTable(q, items);
    OutBlocksAreNothing(q, g, t, items);
    RowsMatch(g, t.states, t.errs, g.Chunks());
    AggregateQuery.AggregateEnclosesArray(q.fp, Rows(g, t.states, g.Chunks()), Rows(g, t.errs, g.Chunks()), items, Truths(q, items, |items|), es, cuts,
                                          parts, q.lo, q.hi);
  }

  /** The answer drawn from the totals of the whole list's reads. */
  ghost function ArrayAnswer(q: ValueRange, a: Archive, g: Grid, recs: seq<Record>, gap: nat, grid: seq<Ext>, units: seq<Unit>, values: seq<seq<seq<Ext>>>)
    : Intervals.Answer
    requires TrueArchive(q.fp, a, g, recs, units, values) && FloatArchive(q.fp, q.above, grid, units)
  {
    var t := TablesOf(q, a, g, recs, units, values);
    var items, es := Rows(g, t.items, g.Chunks()), Plan(g, t.states, t.errs, true);
    ArchiveIsOk(q, a, g, recs, t.errs, grid, units, values, t);
    PlanIsOk(q, g, t, es, items, a.values);
    CutsAreCutting(Chunks(es, |es|), Blocks(es, |es|), gap);
    Intervals.Combine(q.fp, ReadTotals(q, es, items, CutsOf(es, gap), |CutsOf(es, gap)| - 1), VALUES)
  }

  lemma {:induction false} AnswersScan(answer: Intervals.Answer, u: Truth, s: Scan)
    requires Intervals.Encloses(answer, u) && Agrees(s, u)
    ensures Answers(answer, s)
  {
  }

  /** The whole list's totals, combined, are the answer, and it holds. */
  lemma {:induction false} WholeAnswer(q: ValueRange, a: Archive, g: Grid, recs: seq<Record>, gap: nat, grid: seq<Ext>, units: seq<Unit>,
                                       values: seq<seq<seq<Ext>>>, t: Tables, es: seq<Entry>, items: seq<seq<seq<Item>>>, parts: seq<Intervals.Part>)
    requires TrueArchive(q.fp, a, g, recs, units, values) && FloatArchive(q.fp, q.above, grid, units) && ValidBounds(q.fp, q.lo, q.hi)
    requires t == TablesOf(q, a, g, recs, units, values) && UnitsOk(q, g, t)
    requires es == Plan(g, t.states, t.errs, true) && items == Rows(g, t.items, g.Chunks()) && Totalled(q, es, items, CutsOf(es, gap), parts)
    ensures var pairs := PairRows(q.fp, g, units); Answers(Intervals.Combine(q.fp, parts, VALUES), ScanArray(pairs, q.lo, q.hi, |pairs|))
    ensures Intervals.Combine(q.fp, parts, VALUES) == ArrayAnswer(q, a, g, recs, gap, grid, units, values)
  {
    TotalsEnclose(q, g, t, es, items, CutsOf(es, gap), parts);
    TotalsAreRead(q, es, items, CutsOf(es, gap), parts, |parts|);
    assert parts[..|parts|] == parts;
    var pairs := PairRows(q.fp, g, units);
    ScanIsTruth(q, g, recs, t.errs, units, values, t, items, pairs);
    AnswersScan(Intervals.Combine(q.fp, parts, VALUES), AggregateQuery.ArrayTruth(Truths(q, items, |items|), |items|), ScanArray(pairs, q.lo, q.hi, |pairs|));
  }

  /** From the stored records to the intervals: if every record was written for its originals
    * and its error bounds hold, the count is that of the matching decoded values, their sum is
    * off by at most 2^-28 of their sizes, and the count, the sum and the mean of the matching
    * originals of the whole array lie in the intervals, for all reads of at most 2^24 values. */
  method AggregateArray(q: ValueRange, a: Archive, g: Grid, recs: seq<Record>, gap: nat,
                        ghost grid: seq<Ext>, ghost units: seq<Unit>, ghost values: seq<seq<seq<Ext>>>)
    returns (answer: Intervals.Answer)
    requires TrueArchive(q.fp, a, g, recs, units, values) && a.k == 1
    requires FloatArchive(q.fp, q.above, grid, units) && ValidBounds(q.fp, q.lo, q.hi)
    requires var states := StatesOfAll(q.fp, recs, g.blocks, q.lo, q.hi, |recs|);
             var es := Plan(g, states, ErrorsOfAll(q, recs, g.blocks, |recs|), true);
             ShortReads(PipelinedQuery.ReadsOf(es, gap), |es|)
    ensures var pairs := PairRows(q.fp, g, units); Answers(answer, ScanArray(pairs, q.lo, q.hi, |pairs|))
    ensures answer == ArrayAnswer(q, a, g, recs, gap, grid, units, values)
  {
    ghost var t := TablesOf(q, a, g, recs, units, values);
    ArchiveIsOk(q, a, g, recs, t.errs, grid, units, values, t);
    ArchiveStates(q, a, g, recs, units, values, t.states, t.errs);
    var es, nIn := PlanUnits(q, g, recs, true, t.states, t.errs);
    PlanIsListed(a, g, t.states, t.errs, values, true, es);
    ghost var items := Rows(g, t.items, g.Chunks());
    PlanIsOk(q, g, t, es, items, a.values);
    var parts := AggregateList(q, a, es, gap, items);
    answer := Intervals.Combine(q.fp, parts, VALUES);
    WholeAnswer(q, a, g, recs, gap, grid, units, values, t, es, items, parts);
  }
}
