/** plan_blocks in two passes over arrays: classify and count per chunk, sum the counts,
  * then let every chunk write its own stretch of the output. */
module PlanBlocks {
  import MixedRadix
  import Rounding
  import FloatBounds
  import opened ZoneMap
  import opened Listing
  import opened Planner

  /** The first n rows behind each other. */
  function Joined(rows: seq<seq<State>>, n: nat): seq<State>
    requires n <= |rows|
  {
    if n == 0 then [] else Joined(rows, n - 1) + rows[n - 1]
  }

  lemma {:induction false} JoinedLength(rows: seq<seq<State>>, n: nat)
    requires n <= |rows|
    ensures |Joined(rows, n)| == Total(rows, n)
  {
    if n > 0 { JoinedLength(rows, n - 1); }
  }

  lemma {:induction false} JoinedPrefix(rows: seq<seq<State>>, c: nat, n: nat)
    requires c <= n <= |rows|
    ensures Joined(rows, c) <= Joined(rows, n)
    decreases n
  {
    if c < n { JoinedPrefix(rows, c, n - 1); }
  }

  /** Chunk c's part of the flat states. */
  lemma {:induction false} JoinedAt(rows: seq<seq<State>>, c: nat, at: nat, s: seq<State>)
    requires c < |rows| && at == |Joined(rows, c)| && s == Joined(rows, |rows|)
    ensures at + |rows[c]| <= |s| && s[at..at + |rows[c]|] == rows[c]
  {
    JoinedPrefix(rows, c + 1, |rows|);
    assert Joined(rows, c + 1) == Joined(rows, c) + rows[c];
  }

  lemma {:induction false} ListPrefix(rows: seq<seq<State>>, errs: seq<seq<real>>, keepIn: bool, c: nat, n: nat)
    requires SameShape(rows, errs) && c <= n <= |rows|
    ensures |ListChunks(0, rows, errs, keepIn, c)| <= |ListChunks(0, rows, errs, keepIn, n)|
    decreases n
  {
    if c < n { ListPrefix(rows, errs, keepIn, c, n - 1); }
  }

  // ---- pass 1 ----

  lemma {:induction false} RowGrows<T>(g: Grid, units: seq<seq<T>>, cid: nat, m: nat, n: nat)
    requires Shaped(g, units) && cid < g.Chunks() && m <= n <= g.Subs()
    ensures |Row(g, units, cid, m)| <= |Row(g, units, cid, n)|
    decreases n
  {
    if m < n { RowGrows(g, units, cid, m, n - 1); }
  }

  lemma {:induction false} RowStep<T>(g: Grid, units: seq<seq<T>>, cid: nat, sub: nat, size: nat)
    requires Shaped(g, units) && cid < g.Chunks() && sub < g.Subs() && size == |Row(g, units, cid, g.Subs())|
    ensures g.Gy() > 0 && g.Gz() > 0 && Uid(g, cid, sub) < |units|
    ensures Row(g, units, cid, sub + 1) == Row(g, units, cid, sub) + units[Uid(g, cid, sub)]
    ensures |Row(g, units, cid, sub)| + g.blocks <= size
  {
    UidBelow(g, cid, sub);
    RowGrows(g, units, cid, sub + 1, g.Subs());
  }

  /** What a query asks of the planner: lo < x <= hi, in this arithmetic; above rounds a double
    * up to a float32. */
  datatype ValueRange = ValueRange(fp: Rounding.Arith, lo: FloatBounds.Ext, hi: FloatBounds.Ext, above: real -> real)

  /** units are the states that classify_unit finds for the records. */
  ghost predicate AreStates(q: ValueRange, recs: seq<Record>, blocks: nat, units: seq<seq<State>>) {
    && |units| == |recs|
    && forall u :: 0 <= u < |recs| ==> recs[u].Shaped(blocks) && units[u] == StatesOf(q.fp, recs[u], blocks, q.lo, q.hi)
  }

  /** The error bounds listed for the first n blocks of a record. */
  function ErrorsOf(q: ValueRange, rec: Record, n: nat): (r: seq<real>)
    requires rec.codes.Codes? ==> n <= |rec.codes.q|
    ensures |r| == n
  {
    if n == 0 then [] else ErrorsOf(q, rec, n - 1) + [q.above(BlockError(q.fp, rec, n - 1))]
  }

  lemma {:induction false} ErrorAt(q: ValueRange, rec: Record, n: nat, b: nat)
    requires (rec.codes.Codes? ==> n <= |rec.codes.q|) && b < n
    ensures ErrorsOf(q, rec, n)[b] == q.above(BlockError(q.fp, rec, b))
  {
    if b < n - 1 { ErrorAt(q, rec, n - 1, b); }
  }

  /** errs are the error bounds that listing finds for the records. */
  ghost predicate AreErrors(q: ValueRange, recs: seq<Record>, blocks: nat, errs: seq<seq<real>>) {
    && |errs| == |recs|
    && forall u :: 0 <= u < |recs| ==> recs[u].Shaped(blocks) && errs[u] == ErrorsOf(q, recs[u], blocks)
  }

  /** The states of a chunk's first units, behind those of the chunks before it. */
  ghost function StatesTo(g: Grid, units: seq<seq<State>>, cid: nat, n: nat, before: seq<State>): seq<State>
    requires Shaped(g, units) && cid < g.Chunks() && n <= g.Subs()
  {
    before + Row(g, units, cid, n)
  }

  lemma {:induction false} StatesStep(g: Grid, units: seq<seq<State>>, cid: nat, sub: nat, before: seq<State>, size: nat)
    requires Shaped(g, units) && cid < g.Chunks() && sub < g.Subs() && size == |StatesTo(g, units, cid, g.Subs(), before)|
    ensures g.Gy() > 0 && g.Gz() > 0 && Uid(g, cid, sub) < |units|
    ensures StatesTo(g, units, cid, sub + 1, before) == StatesTo(g, units, cid, sub, before) + units[Uid(g, cid, sub)]
    ensures |StatesTo(g, units, cid, sub, before)| + g.blocks <= size
    ensures |StatesTo(g, units, cid, sub + 1, before)| == |StatesTo(g, units, cid, sub, before)| + g.blocks
  {
    RowStep(g, units, cid, sub, |Row(g, units, cid, g.Subs())|);
  }

  /** The first k states are those wanted. */
  ghost predicate Begins(states: array<State>, k: nat, want: seq<State>)
    reads states
  {
    k == |want| <= states.Length && states[..k] == want
  }

  /** classify_unit behind the states of the units before it in the chunk. */
  method ClassifySub(q: ValueRange, g: Grid, recs: seq<Record>, cid: nat, sub: nat, states: array<State>, at: nat, ghost units: seq<seq<State>>,
                     ghost before: seq<State>)
    returns (next: nat)
    requires AreStates(q, recs, g.blocks, units) && Shaped(g, units) && cid < g.Chunks() && sub < g.Subs()
    requires |StatesTo(g, units, cid, g.Subs(), before)| <= states.Length
    requires Begins(states, at, StatesTo(g, units, cid, sub, before))
    modifies states
    ensures Begins(states, next, StatesTo(g, units, cid, sub + 1, before))
  {
    StatesStep(g, units, cid, sub, before, |StatesTo(g, units, cid, g.Subs(), before)|);
    var uid := Uid(g, cid, sub);
    ClassifyUnit(q.fp, recs[uid], g.blocks, q.lo, q.hi, states, at);
    next := at + g.blocks;
  }

  /** The inner loop of pass 1: classify the units of one chunk. */
  method ClassifyChunk(q: ValueRange, g: Grid, recs: seq<Record>, cid: nat, states: array<State>, at: nat, ghost units: seq<seq<State>>, ghost size: nat)
    requires AreStates(q, recs, g.blocks, units) && Shaped(g, units) && cid < g.Chunks()
    requires size == |Row(g, units, cid, g.Subs())| && at + size <= states.Length
    modifies states
    ensures states[..at + size] == old(states[..at]) + Row(g, units, cid, g.Subs())
  {
    var k := at;
    var n := g.Subs();
    ghost var before := states[..at];
    for sub := 0 to n
      invariant Begins(states, k, StatesTo(g, units, cid, sub, before))
    {
      k := ClassifySub(q, g, recs, cid, sub, states, k, units, before);
    }
  }

  /** How many blocks of a chunk are listed. */
  function Listed(row: seq<State>, keepIn: bool): nat {
    Count(row, Maybe) + if keepIn then Count(row, In) else 0
  }

  /** n_in, n_out and the number of listed blocks of one chunk. */
  method CountChunk(states: array<State>, at: nat, n: nat, keepIn: bool) returns (m: nat, ins: nat, outs: nat)
    requires at + n <= states.Length
    ensures var row := states[at..at + n];
            ins == Count(row, In) && outs == Count(row, Out) && m == Listed(row, keepIn)
  {
    m, ins, outs := 0, 0, 0;
    for b := 0 to n
      invariant ins == Count(states[at..at + b], In) && outs == Count(states[at..at + b], Out)
      invariant m == Listed(states[at..at + b], keepIn)
    {
      assert states[at..at + b + 1][..b] == states[at..at + b];
      var s := states[at + b];
      ins := ins + if s == In then 1 else 0;
      outs := outs + if s == Out then 1 else 0;
      m := m + if s == Maybe || (keepIn && s == In) then 1 else 0;
    }
  }

  /** The numbers of listed blocks of the first n chunks. */
  function Sizes(rows: seq<seq<State>>, keepIn: bool, n: nat): (r: seq<nat>)
    requires n <= |rows|
    ensures |r| == n
  {
    if n == 0 then [] else Sizes(rows, keepIn, n - 1) + [Listed(rows[n - 1], keepIn)]
  }

  function SumTo(sizes: seq<nat>, n: nat): nat
    requires n <= |sizes|
  {
    if n == 0 then 0 else SumTo(sizes, n - 1) + sizes[n - 1]
  }

  lemma {:induction false} SumToPrefix(a: seq<nat>, b: seq<nat>, n: nat)
    requires n <= |a| && a <= b
    ensures SumTo(a, n) == SumTo(b, n)
  {
    if n > 0 { SumToPrefix(a, b, n - 1); }
  }

  /** The sizes before a chunk add up to the length of the list before it. */
  lemma {:induction false} ListLength(rows: seq<seq<State>>, errs: seq<seq<real>>, keepIn: bool, c: nat)
    requires SameShape(rows, errs) && c <= |rows|
    ensures SumTo(Sizes(rows, keepIn, c), c) == |ListChunks(0, rows, errs, keepIn, c)|
  {
    if c > 0 {
      ListLength(rows, errs, keepIn, c - 1);
      SumToPrefix(Sizes(rows, keepIn, c - 1), Sizes(rows, keepIn, c), c - 1);
      BlockCounts(c - 1, rows[c - 1], errs[c - 1], keepIn, |rows[c - 1]|);
      assert rows[c - 1][..|rows[c - 1]|] == rows[c - 1];
    }
  }

  lemma {:induction false} SizesPrefix(rows: seq<seq<State>>, keepIn: bool, c: nat, n: nat)
    requires c <= n <= |rows|
    ensures Sizes(rows, keepIn, c) <= Sizes(rows, keepIn, n)
    decreases n
  {
    if c < n { SizesPrefix(rows, keepIn, c, n - 1); }
  }

  /** Where chunk c's entries start. */
  lemma {:induction false} StartOf(rows: seq<seq<State>>, errs: seq<seq<real>>, keepIn: bool, c: nat)
    requires SameShape(rows, errs) && c <= |rows|
    ensures SumTo(Sizes(rows, keepIn, |rows|), c) == |ListChunks(0, rows, errs, keepIn, c)|
  {
    ListLength(rows, errs, keepIn, c);
    SizesPrefix(rows, keepIn, c, |rows|);
    SumToPrefix(Sizes(rows, keepIn, c), Sizes(rows, keepIn, |rows|), c);
  }

  /** The rows of a grid with so many blocks in each chunk. */
  ghost predicate GridRows(g: Grid, units: seq<seq<State>>, errs: seq<seq<real>>, rows: seq<seq<State>>, errRows: seq<seq<real>>, per: nat) {
    && Shaped(g, units) && Shaped(g, errs) && SameShape(rows, errRows)
    && |rows| == g.Chunks()
    && (forall c {:trigger AreRows(g, units, errs, c, rows[c], errRows[c], per)} :: 0 <= c < |rows| ==> AreRows(g, units, errs, c, rows[c], errRows[c], per))
  }

  ghost predicate AreRows(g: Grid, units: seq<seq<State>>, errs: seq<seq<real>>, c: nat, row: seq<State>, errRow: seq<real>, per: nat)
    requires Shaped(g, units) && Shaped(g, errs) && c < g.Chunks()
  {
    row == Row(g, units, c, g.Subs()) && errRow == Row(g, errs, c, g.Subs()) && |row| == per
  }

  lemma {:induction false} RowsOfGrid(g: Grid, units: seq<seq<State>>, errs: seq<seq<real>>)
    requires Shaped(g, units) && Shaped(g, errs)
    ensures GridRows(g, units, errs, Rows(g, units, g.Chunks()), Rows(g, errs, g.Chunks()), g.Subs() * g.blocks)
  {
    RowsMatch(g, units, errs, g.Chunks());
    var rows, errRows := Rows(g, units, g.Chunks()), Rows(g, errs, g.Chunks());
    forall c | 0 <= c < |rows| ensures AreRows(g, units, errs, c, rows[c], errRows[c], g.Subs() * g.blocks) {
      RowLength(g, units, c, g.Subs());
    }
  }

  lemma {:induction false} TotalGrows(rows: seq<seq<State>>, c: nat)
    requires c < |rows|
    ensures |Joined(rows, c)| + |rows[c]| <= |Joined(rows, |rows|)|
  {
    JoinedPrefix(rows, c + 1, |rows|);
  }

  /** One turn of pass 1. */
  method DoChunk(q: ValueRange, g: Grid, recs: seq<Record>, keepIn: bool, per: nat, cid: nat, states: array<State>, at: nat, counts: array<nat>,
                 ghost units: seq<seq<State>>, ghost row: seq<State>)
    returns (ins: nat, outs: nat)
    requires AreStates(q, recs, g.blocks, units) && Shaped(g, units) && cid < g.Chunks() && row == Row(g, units, cid, g.Subs()) && |row| == per
    requires at + per <= states.Length && cid + 1 < counts.Length
    modifies states, counts
    ensures states[..at + per] == old(states[..at]) + row
    ensures counts[1..cid + 2] == old(counts[1..cid + 1]) + [Listed(row, keepIn)]
    ensures ins == Count(row, In) && outs == Count(row, Out)
  {
    ClassifyChunk(q, g, recs, cid, states, at, units, per);
    assert states[at..at + per] == states[..at + per][at..] == row;
    var m;
    m, ins, outs := CountChunk(states, at, per, keepIn);
    counts[cid + 1] := m;
  }

  /** After c turns: the states, the list sizes and the two counts of the first c chunks. */
  ghost predicate Passed(rows: seq<seq<State>>, keepIn: bool, c: nat, at: nat, states: seq<State>, sizes: seq<nat>, n: InOut) {
    && c <= |rows| && at == |Joined(rows, c)| && states == Joined(rows, c)
    && sizes == Sizes(rows, keepIn, c) && n == CountBoth(rows, c)
  }

  lemma {:induction false} PassStep(rows: seq<seq<State>>, keepIn: bool, c: nat, at: nat, states: seq<State>, sizes: seq<nat>, n: InOut, row: seq<State>)
    requires c < |rows| && row == rows[c] && Passed(rows, keepIn, c, at, states, sizes, n)
    ensures at + |row| <= |Joined(rows, |rows|)|
    ensures Passed(rows, keepIn, c + 1, at + |row|, states + row, sizes + [Listed(row, keepIn)],
                   InOut(n.ins + Count(row, In), n.outs + Count(row, Out)))
  {
    TotalGrows(rows, c);
  }

  /** The states of a grid's units, as rows of its chunks. */
  ghost predicate UnitRows(q: ValueRange, g: Grid, recs: seq<Record>, units: seq<seq<State>>, rows: seq<seq<State>>, per: nat) {
    && AreStates(q, recs, g.blocks, units) && Shaped(g, units) && |rows| == g.Chunks()
    && forall c {:trigger IsRow(g, units, c, rows[c], per)} :: 0 <= c < |rows| ==> IsRow(g, units, c, rows[c], per)
  }

  ghost predicate IsRow(g: Grid, units: seq<seq<State>>, c: nat, row: seq<State>, per: nat)
    requires Shaped(g, units) && c < g.Chunks()
  {
    row == Row(g, units, c, g.Subs()) && |row| == per
  }

  /** A turn with the two counts in n. */
  method Turn(q: ValueRange, g: Grid, recs: seq<Record>, keepIn: bool, per: nat, cid: nat, states: array<State>, at: nat, counts: array<nat>, n0: InOut,
              ghost units: seq<seq<State>>, ghost rows: seq<seq<State>>)
    returns (n: InOut)
    requires UnitRows(q, g, recs, units, rows, per) && states.Length == |Joined(rows, |rows|)| && counts.Length == |rows| + 1
    requires cid < |rows| && at <= states.Length && Passed(rows, keepIn, cid, at, states[..at], counts[1..cid + 1], n0)
    modifies states, counts
    ensures at + per <= states.Length && Passed(rows, keepIn, cid + 1, at + per, states[..at + per], counts[1..cid + 2], n)
  {
    assert IsRow(g, units, cid, rows[cid], per);
    PassStep(rows, keepIn, cid, at, states[..at], counts[1..cid + 1], n0, rows[cid]);
    var ins, outs := DoChunk(q, g, recs, keepIn, per, cid, states, at, counts, units, rows[cid]);
    n := InOut(n0.ins + ins, n0.outs + outs);
  }

  /** The loop of pass 1, which keeps the two counts in n. */
  method ClassifyAll(q: ValueRange, g: Grid, recs: seq<Record>, keepIn: bool, per: nat, chunks: nat, states: array<State>, counts: array<nat>,
                     ghost units: seq<seq<State>>, ghost rows: seq<seq<State>>)
    returns (n: InOut)
    requires UnitRows(q, g, recs, units, rows, per) && chunks == |rows|
    requires states.Length == |Joined(rows, |rows|)| && counts.Length == |rows| + 1
    modifies states, counts
    ensures Passed(rows, keepIn, |rows|, states.Length, states[..], counts[1..], n)
  {
    n := InOut(0, 0);
    var at: nat := 0;
    for cid := 0 to chunks
      invariant at <= states.Length && Passed(rows, keepIn, cid, at, states[..at], counts[1..cid + 1], n)
    {
      n := Turn(q, g, recs, keepIn, per, cid, states, at, counts, n, units, rows);
      at := at + per;
    }
    assert states[..at] == states[..];
  }

  datatype InOut = InOut(ins: nat, outs: nat)

  /** IN and OUT blocks of the first n chunks. */
  function CountBoth(rows: seq<seq<State>>, n: nat): InOut
    requires n <= |rows|
  {
    if n == 0 then InOut(0, 0)
    else
      var front := CountBoth(rows, n - 1);
      InOut(front.ins + Count(rows[n - 1], In), front.outs + Count(rows[n - 1], Out))
  }

  lemma {:induction false} CountBothIs(rows: seq<seq<State>>, n: nat)
    requires n <= |rows|
    ensures CountBoth(rows, n) == InOut(CountAll(rows, In, n), CountAll(rows, Out, n))
  {
    if n > 0 { CountBothIs(rows, n - 1); }
  }

  method FirstPass(q: ValueRange, g: Grid, recs: seq<Record>, keepIn: bool, per: nat, states: array<State>, counts: array<nat>,
                   ghost units: seq<seq<State>>, ghost rows: seq<seq<State>>)
    returns (nIn: nat, nOut: nat)
    requires AreStates(q, recs, g.blocks, units) && Shaped(g, units) && rows == Rows(g, units, g.Chunks()) && per == g.Subs() * g.blocks
    requires states.Length == |Joined(rows, |rows|)| && counts.Length == |rows| + 1
    modifies states, counts
    ensures states[..] == Joined(rows, |rows|)
    ensures nIn == CountAll(rows, In, |rows|) && nOut == CountAll(rows, Out, |rows|)
    ensures counts[1..] == Sizes(rows, keepIn, |rows|)
  {
    forall c | 0 <= c < |rows| ensures IsRow(g, units, c, rows[c], per) {
      RowLength(g, units, c, g.Subs());
    }
    var n := ClassifyAll(q, g, recs, keepIn, per, g.Chunks(), states, counts, units, rows);
    CountBothIs(rows, |rows|);
    nIn, nOut := n.ins, n.outs;
  }

  /** The prefix sum: where each chunk's listed blocks start. */
  method PrefixSum(n: nat, counts: array<nat>, ghost sizes: seq<nat>)
    requires counts.Length == n + 1 && counts[1..] == sizes
    modifies counts
    ensures forall c :: 0 <= c <= n ==> counts[c] == SumTo(sizes, c)
  {
    assert forall d :: 0 <= d < n ==> counts[1..][d] == counts[d + 1];
    counts[0] := 0;
    for c := 0 to n
      invariant forall d :: 0 <= d <= c ==> counts[d] == SumTo(sizes, d)
      invariant forall d :: c <= d < n ==> counts[d + 1] == sizes[d]
    {
      assert counts[c + 1] == sizes[c];
      counts[c + 1] := counts[c + 1] + counts[c];
    }
  }

  // ---- pass 2 ----

  /** The output arrays hold the entries es from position k on. */
  ghost predicate Holds(chunks: array<nat>, blocks: array<nat>, sts: array<State>, eps: array<real>, k: nat, es: seq<Entry>)
    reads chunks, blocks, sts, eps
  {
    && k + |es| <= chunks.Length && k + |es| <= blocks.Length && k + |es| <= sts.Length && k + |es| <= eps.Length
    && forall i :: 0 <= i < |es| ==> es[i] == Entry(chunks[k + i], blocks[k + i], sts[k + i], eps[k + i])
  }

  /** Nothing outside [k0, k) changed. */
  twostate predicate Kept(chunks: array<nat>, blocks: array<nat>, sts: array<State>, eps: array<real>, k0: nat, k: nat)
    reads chunks, blocks, sts, eps
  {
    && (forall i :: 0 <= i < chunks.Length && !(k0 <= i < k) ==> chunks[i] == old(chunks[i]))
    && (forall i :: 0 <= i < blocks.Length && !(k0 <= i < k) ==> blocks[i] == old(blocks[i]))
    && (forall i :: 0 <= i < sts.Length && !(k0 <= i < k) ==> sts[i] == old(sts[i]))
    && (forall i :: 0 <= i < eps.Length && !(k0 <= i < k) ==> eps[i] == old(eps[i]))
  }

  /** Writing one entry behind those already there. */
  method PutEntry(chunks: array<nat>, blocks: array<nat>, sts: array<State>, eps: array<real>, k0: nat, k: nat,
                  chunk: nat, block: nat, state: State, bound: real, ghost es: seq<Entry>)
    requires Holds(chunks, blocks, sts, eps, k0, es) && k == k0 + |es| && chunks != blocks
    requires k < chunks.Length && k < blocks.Length && k < sts.Length && k < eps.Length
    modifies chunks, blocks, sts, eps
    ensures Holds(chunks, blocks, sts, eps, k0, es + [Entry(chunk, block, state, bound)])
    ensures Kept(chunks, blocks, sts, eps, k, k + 1)
  {
    chunks[k] := chunk;
    blocks[k] := block;
    sts[k] := state;
    eps[k] := bound;
  }

  lemma {:induction false} ListGrows(chunk: nat, sts: seq<State>, errs: seq<real>, keepIn: bool, m: nat, n: nat)
    requires m <= n <= |sts| == |errs|
    ensures |ListBlocks(chunk, sts, errs, keepIn, m)| <= |ListBlocks(chunk, sts, errs, keepIn, n)|
    decreases n
  {
    if m < n { ListGrows(chunk, sts, errs, keepIn, m, n - 1); }
  }

  /** The error bound of block b of a chunk, from the record of its unit, as a float32. */
  method ListedError(q: ValueRange, g: Grid, recs: seq<Record>, cid: nat, b: nat, ghost errs: seq<seq<real>>) returns (e: real)
    requires AreErrors(q, recs, g.blocks, errs) && Shaped(g, errs) && cid < g.Chunks() && b < |Row(g, errs, cid, g.Subs())|
    ensures e == Row(g, errs, cid, g.Subs())[b]
  {
    RowLength(g, errs, cid, g.Subs());
    AxisSplits(b, g.Subs(), g.blocks);
    var sub, i := MixedRadix.High(b, g.blocks), MixedRadix.Low(b, g.blocks);
    RowAt(g, errs, cid, g.Subs(), sub, i);
    var uid := Uid(g, cid, sub);
    e := RecordError(q, recs[uid], g.blocks, i);
  }

  /** The float32 at or above a block's error bound. */
  method RecordError(q: ValueRange, rec: Record, blocks: nat, i: nat) returns (e: real)
    requires rec.Shaped(blocks) && i < blocks
    ensures e == ErrorsOf(q, rec, blocks)[i]
  {
    ErrorAt(q, rec, blocks, i);
    e := q.above(BlockError(q.fp, rec, i));
  }

  /** One chunk of pass 2: it writes its list into its own stretch and nothing else. */
  method WriteChunk(q: ValueRange, g: Grid, recs: seq<Record>, ghost errs: seq<seq<real>>, keepIn: bool, per: nat, cid: nat, states: array<State>, at: nat, k0: nat,
                    chunks: array<nat>, blocks: array<nat>, sts: array<State>, eps: array<real>, ghost row: seq<State>, ghost er: seq<real>)
    returns (k: nat)
    requires AreErrors(q, recs, g.blocks, errs) && Shaped(g, errs) && cid < g.Chunks() && er == Row(g, errs, cid, g.Subs()) && |row| == |er| == per
    requires at + per <= states.Length && states[at..at + per] == row
    requires var n := k0 + |ListBlocks(cid, row, er, keepIn, per)|;
             n <= chunks.Length && n <= blocks.Length && n <= sts.Length && n <= eps.Length
    requires chunks != blocks && states != sts
    modifies chunks, blocks, sts, eps
    ensures k == k0 + |ListBlocks(cid, row, er, keepIn, per)|
    ensures Holds(chunks, blocks, sts, eps, k0, ListBlocks(cid, row, er, keepIn, per))
    ensures Kept(chunks, blocks, sts, eps, k0, k)
  {
    k := k0;
    ghost var es: seq<Entry> := [];
    for b := 0 to per
      invariant es == ListBlocks(cid, row, er, keepIn, b) && k == k0 + |es|
      invariant Holds(chunks, blocks, sts, eps, k0, es)
      invariant Kept(chunks, blocks, sts, eps, k0, k)
    {
      assert states[at + b] == row[b];
      if states[at + b] == Maybe || (keepIn && states[at + b] == In) {
        ListGrows(cid, row, er, keepIn, b + 1, per);
        var bound := ListedError(q, g, recs, cid, b, errs);
        PutEntry(chunks, blocks, sts, eps, k0, k, cid, b, states[at + b], bound, es);
        es := es + [Entry(cid, b, row[b], er[b])];
        k := k + 1;
      }
    }
  }

  /** A chunk's stretch behind those of the chunks before it. */
  method WriteNext(q: ValueRange, g: Grid, recs: seq<Record>, ghost errs: seq<seq<real>>, keepIn: bool, per: nat, cid: nat, states: array<State>, at: nat, k0: nat,
                   chunks: array<nat>, blocks: array<nat>, sts: array<State>, eps: array<real>, ghost row: seq<State>, ghost er: seq<real>,
                   ghost before: seq<Entry>)
    requires AreErrors(q, recs, g.blocks, errs) && Shaped(g, errs) && cid < g.Chunks() && er == Row(g, errs, cid, g.Subs()) && |row| == |er| == per
    requires at + per <= states.Length && states[at..at + per] == row
    requires var n := k0 + |ListBlocks(cid, row, er, keepIn, per)|;
             n <= chunks.Length && n <= blocks.Length && n <= sts.Length && n <= eps.Length
    requires chunks != blocks && states != sts && k0 == |before| && Holds(chunks, blocks, sts, eps, 0, before)
    modifies chunks, blocks, sts, eps
    ensures Holds(chunks, blocks, sts, eps, 0, before + ListBlocks(cid, row, er, keepIn, per))
  {
    var k := WriteChunk(q, g, recs, errs, keepIn, per, cid, states, at, k0, chunks, blocks, sts, eps, row, er);
    HoldsJoin(chunks, blocks, sts, eps, before, ListBlocks(cid, row, er, keepIn, per));
  }

  /** What one turn of pass 2 finds: the chunk's states, and where its stretch starts and ends. */
  lemma {:induction false} NextStretch(g: Grid, units: seq<seq<State>>, errs: seq<seq<real>>, rows: seq<seq<State>>, errRows: seq<seq<real>>,
                                       keepIn: bool, per: nat, c: nat, at: nat, states: seq<State>, start: nat, all: seq<Entry>)
    requires GridRows(g, units, errs, rows, errRows, per) && c < |rows| && states == Joined(rows, |rows|) && at == |Joined(rows, c)|
    requires start == SumTo(Sizes(rows, keepIn, |rows|), c) && all == ListChunks(0, rows, errRows, keepIn, |rows|)
    ensures errRows[c] == Row(g, errs, c, g.Subs()) && |rows[c]| == |errRows[c]| == per
    ensures at + per <= |states| && states[at..at + per] == rows[c] && at + per == |Joined(rows, c + 1)|
    ensures start == |ListChunks(0, rows, errRows, keepIn, c)|
    ensures start + |ListBlocks(c, rows[c], errRows[c], keepIn, per)| <= |all|
    ensures ListChunks(0, rows, errRows, keepIn, c + 1) == ListChunks(0, rows, errRows, keepIn, c) + ListBlocks(c, rows[c], errRows[c], keepIn, per)
  {
    assert AreRows(g, units, errs, c, rows[c], errRows[c], per);
    JoinedAt(rows, c, at, states);
    ListPrefix(rows, errRows, keepIn, c + 1, |rows|);
    StartOf(rows, errRows, keepIn, c);
  }

  /** A turn of pass 2. */
  method WriteTurn(q: ValueRange, g: Grid, recs: seq<Record>, ghost errs: seq<seq<real>>, keepIn: bool, per: nat, cid: nat, states: array<State>, at: nat, k0: nat,
                   chunks: array<nat>, blocks: array<nat>, sts: array<State>, eps: array<real>,
                   ghost units: seq<seq<State>>, ghost rows: seq<seq<State>>, ghost errRows: seq<seq<real>>)
    requires AreErrors(q, recs, g.blocks, errs) && GridRows(g, units, errs, rows, errRows, per) && states[..] == Joined(rows, |rows|) && cid < |rows|
    requires at == |Joined(rows, cid)| && k0 == SumTo(Sizes(rows, keepIn, |rows|), cid)
    requires var n := |ListChunks(0, rows, errRows, keepIn, |rows|)|;
             n <= chunks.Length && n <= blocks.Length && n <= sts.Length && n <= eps.Length
    requires chunks != blocks && states != sts && Holds(chunks, blocks, sts, eps, 0, ListChunks(0, rows, errRows, keepIn, cid))
    modifies chunks, blocks, sts, eps
    ensures Holds(chunks, blocks, sts, eps, 0, ListChunks(0, rows, errRows, keepIn, cid + 1)) && at + per == |Joined(rows, cid + 1)|
  {
    NextStretch(g, units, errs, rows, errRows, keepIn, per, cid, at, states[..], k0, ListChunks(0, rows, errRows, keepIn, |rows|));
    assert states[at..at + per] == states[..][at..at + per];
    WriteNext(q, g, recs, errs, keepIn, per, cid, states, at, k0, chunks, blocks, sts, eps, rows[cid], errRows[cid], ListChunks(0, rows, errRows, keepIn, cid));
  }

  method SecondPass(q: ValueRange, g: Grid, recs: seq<Record>, ghost errs: seq<seq<real>>, keepIn: bool, per: nat, states: array<State>, counts: array<nat>,
                    chunks: array<nat>, blocks: array<nat>, sts: array<State>, eps: array<real>,
                    ghost units: seq<seq<State>>, ghost rows: seq<seq<State>>, ghost errRows: seq<seq<real>>)
    requires AreErrors(q, recs, g.blocks, errs) && GridRows(g, units, errs, rows, errRows, per) && states[..] == Joined(rows, |rows|)
    requires counts.Length == |rows| + 1
    requires forall c :: 0 <= c <= |rows| ==> counts[c] == SumTo(Sizes(rows, keepIn, |rows|), c)
    requires var n := |ListChunks(0, rows, errRows, keepIn, |rows|)|;
             n <= chunks.Length && n <= blocks.Length && n <= sts.Length && n <= eps.Length
    requires chunks != blocks && states != sts && counts != chunks && counts != blocks
    modifies chunks, blocks, sts, eps
    ensures Holds(chunks, blocks, sts, eps, 0, ListChunks(0, rows, errRows, keepIn, |rows|))
  {
    var at: nat := 0;
    var n := g.Chunks();
    for cid := 0 to n
      invariant at == |Joined(rows, cid)|
      invariant Holds(chunks, blocks, sts, eps, 0, ListChunks(0, rows, errRows, keepIn, cid))
    {
      WriteTurn(q, g, recs, errs, keepIn, per, cid, states, at, counts[cid], chunks, blocks, sts, eps, units, rows, errRows);
      at := at + per;
    }
  }

  lemma {:induction false} HoldsJoin(chunks: array<nat>, blocks: array<nat>, sts: array<State>, eps: array<real>, a: seq<Entry>, b: seq<Entry>)
    requires Holds(chunks, blocks, sts, eps, 0, a) && Holds(chunks, blocks, sts, eps, |a|, b)
    ensures Holds(chunks, blocks, sts, eps, 0, a + b)
  {
    forall i | 0 <= i < |a + b| ensures (a + b)[i] == Entry(chunks[i], blocks[i], sts[i], eps[i]) {
      if i < |a| {
        assert a[i] == Entry(chunks[0 + i], blocks[0 + i], sts[0 + i], eps[0 + i]);
      } else {
        assert b[i - |a|] == Entry(chunks[|a| + (i - |a|)], blocks[|a| + (i - |a|)], sts[|a| + (i - |a|)], eps[|a| + (i - |a|)]);
      }
    }
  }

  /** plan_blocks: the output arrays start with the plan, and the counts are those of the
    * IN and OUT blocks. */
  method PlanArrays(q: ValueRange, g: Grid, recs: seq<Record>, ghost errs: seq<seq<real>>, keepIn: bool,
                    chunks: array<nat>, blocks: array<nat>, sts: array<State>, eps: array<real>, ghost units: seq<seq<State>>)
    returns (listed: nat, nIn: nat, nOut: nat)
    requires AreStates(q, recs, g.blocks, units) && AreErrors(q, recs, g.blocks, errs) && Shaped(g, units) && Shaped(g, errs)
    requires var n := g.Chunks() * (g.Subs() * g.blocks);
             n <= chunks.Length && n <= blocks.Length && n <= sts.Length && n <= eps.Length
    requires chunks != blocks
    modifies chunks, blocks, sts, eps
    ensures listed == |Plan(g, units, errs, keepIn)| && Holds(chunks, blocks, sts, eps, 0, Plan(g, units, errs, keepIn))
    ensures nIn == CountAll(Rows(g, units, g.Chunks()), In, g.Chunks())
    ensures nOut == CountAll(Rows(g, units, g.Chunks()), Out, g.Chunks())
    ensures listed + nOut + (if keepIn then 0 else nIn) == g.Chunks() * (g.Subs() * g.blocks)
  {
    ghost var rows, errRows := Rows(g, units, g.Chunks()), Rows(g, errs, g.Chunks());
    var n, per := g.Chunks(), g.Subs() * g.blocks;
    RowsOfGrid(g, units, errs);
    GridTotal(g, units, rows, per);
    CountsAddUp(0, rows, errRows, keepIn, n);
    var states := new State[n * per];
    var counts := new nat[n + 1];
    nIn, nOut := FirstPass(q, g, recs, keepIn, per, states, counts, units, rows);
    PrefixSum(n, counts, Sizes(rows, keepIn, n));
    StartOf(rows, errRows, keepIn, n);
    SecondPass(q, g, recs, errs, keepIn, per, states, counts, chunks, blocks, sts, eps, units, rows, errRows);
    listed := counts[n];
  }

  lemma {:induction false} GridTotal(g: Grid, units: seq<seq<State>>, rows: seq<seq<State>>, per: nat)
    requires Shaped(g, units) && rows == Rows(g, units, g.Chunks()) && per == g.Subs() * g.blocks
    ensures Total(rows, |rows|) == |Joined(rows, |rows|)| == |rows| * per
  {
    forall c | 0 <= c < |rows| ensures |rows[c]| == per {
      RowLength(g, units, c, g.Subs());
    }
    TotalIs(rows, per, |rows|);
    JoinedLength(rows, |rows|);
  }

  lemma {:induction false} TotalIs(rows: seq<seq<State>>, per: nat, n: nat)
    requires n <= |rows| && forall c :: 0 <= c < |rows| ==> |rows[c]| == per
    ensures Total(rows, n) == n * per
  {
    if n > 0 {
      TotalIs(rows, per, n - 1);
      MixedRadix.Spread(n - 1, 1, per);
    }
  }
}
