/** A range query end to end: plan, read, decode and count, and the result against
  * counting over every decoded value of the array. */
module Query {
  import MixedRadix
  import Rounding
  import opened FloatBounds
  import opened ZoneMap
  import opened Listing
  import opened Planner
  import opened Merge
  import opened Layout
  import opened Assembly

  /** Values in a block; block_dim is always 4. */
  const VALUES: nat := 64

  // ---- brute force ----

  /** How many values of each block satisfy lo < v <= hi. */
  function Hits(blocks: seq<seq<Ext>>, lo: Ext, hi: Ext, n: nat): (h: seq<nat>)
    requires n <= |blocks|
    ensures |h| == n && forall b :: 0 <= b < n ==> h[b] == CountRange(blocks[b], lo, hi)
  {
    if n == 0 then [] else Hits(blocks, lo, hi, n - 1) + [CountRange(blocks[n - 1], lo, hi)]
  }

  function HitRows(chunks: seq<seq<seq<Ext>>>, lo: Ext, hi: Ext, n: nat): (h: seq<seq<nat>>)
    requires n <= |chunks|
    ensures |h| == n && forall c :: 0 <= c < n ==> h[c] == Hits(chunks[c], lo, hi, |chunks[c]|)
  {
    if n == 0 then [] else HitRows(chunks, lo, hi, n - 1) + [Hits(chunks[n - 1], lo, hi, |chunks[n - 1]|)]
  }

  function Sum(h: seq<nat>, n: nat): nat
    requires n <= |h|
  {
    if n == 0 then 0 else Sum(h, n - 1) + h[n - 1]
  }

  /** Matching values of the first n chunks. */
  function BruteForce(h: seq<seq<nat>>, n: nat): nat
    requires n <= |h|
  {
    if n == 0 then 0 else BruteForce(h, n - 1) + Sum(h[n - 1], |h[n - 1]|)
  }

  // ---- the counts of listed blocks ----

  ghost predicate InHits(h: seq<seq<nat>>, es: seq<Entry>) {
    forall i :: 0 <= i < |es| ==> es[i].chunk < |h| && es[i].block < |h[es[i].chunk]|
  }

  /** Matching values of the first n listed blocks. */
  ghost function ListedHits(h: seq<seq<nat>>, es: seq<Entry>, n: nat): nat
    requires InHits(h, es) && n <= |es|
  {
    if n == 0 then 0 else ListedHits(h, es, n - 1) + h[es[n - 1].chunk][es[n - 1].block]
  }

  lemma {:induction false} ListedHitsPrefix(h: seq<seq<nat>>, a: seq<Entry>, b: seq<Entry>, n: nat)
    requires InHits(h, a) && InHits(h, b) && n <= |a| && a <= b
    ensures ListedHits(h, a, n) == ListedHits(h, b, n)
  {
    if n > 0 { ListedHitsPrefix(h, a, b, n - 1); }
  }

  lemma {:induction false} ListedHitsAppend(h: seq<seq<nat>>, a: seq<Entry>, b: seq<Entry>, n: nat)
    requires InHits(h, a) && InHits(h, b) && n <= |b|
    ensures InHits(h, a + b) && ListedHits(h, a + b, |a| + n) == ListedHits(h, a, |a|) + ListedHits(h, b, n)
    decreases n
  {
    AppendInHits(h, a, b);
    if n == 0 {
      ListedHitsPrefix(h, a, a + b, |a|);
    } else {
      ListedHitsAppend(h, a, b, n - 1);
      assert (a + b)[|a| + n - 1] == b[n - 1];
    }
  }

  lemma {:induction false} ListedHitsMore(h: seq<seq<nat>>, es: seq<Entry>, e: Entry)
    requires InHits(h, es) && e.chunk < |h| && e.block < |h[e.chunk]|
    ensures InHits(h, es + [e]) && ListedHits(h, es + [e], |es| + 1) == ListedHits(h, es, |es|) + h[e.chunk][e.block]
  {
    AppendInHits(h, es, [e]);
    ListedHitsPrefix(h, es, es + [e], |es|);
  }

  lemma {:induction false} AppendInHits(h: seq<seq<nat>>, a: seq<Entry>, b: seq<Entry>)
    requires InHits(h, a) && InHits(h, b)
    ensures InHits(h, a + b)
  {
  }

  // ---- what the zone map promises ----

  /** IN blocks match in all 64 values and OUT blocks in none: what ClassificationIsSound
    * gives for every block's states. */
  ghost predicate SoundRow(sts: seq<State>, h: seq<nat>) {
    && |sts| == |h|
    && forall b :: 0 <= b < |sts| ==> (sts[b] == In ==> h[b] == VALUES) && (sts[b] == Out ==> h[b] == 0)
  }

  ghost predicate Sound(rows: seq<seq<State>>, h: seq<seq<nat>>) {
    |rows| == |h| && forall c :: 0 <= c < |rows| ==> SoundRow(rows[c], h[c])
  }

  /** All or none of a block's values in range means all or none counted. */
  lemma {:induction false} CountAllOrNone(v: seq<Ext>, lo: Ext, hi: Ext)
    ensures (forall i :: 0 <= i < |v| ==> InRange(v[i], lo, hi)) ==> CountRange(v, lo, hi) == |v|
    ensures (forall i :: 0 <= i < |v| ==> !InRange(v[i], lo, hi)) ==> CountRange(v, lo, hi) == 0
  {
    if v != [] { CountAllOrNone(v[1..], lo, hi); }
  }

  // ---- the count is the brute-force count ----

  lemma {:induction false} BlocksInHits(h: seq<seq<nat>>, c: nat, sts: seq<State>, errs: seq<real>, n: nat)
    requires n <= |sts| == |errs| && c < |h| && |h[c]| == |sts|
    ensures InHits(h, ListBlocks(c, sts, errs, false, n))
  {
    BlocksAreSorted(c, sts, errs, false, n);
  }

  lemma {:induction false} BlocksCount(h: seq<seq<nat>>, c: nat, sts: seq<State>, errs: seq<real>, n: nat)
    requires n <= |sts| == |errs| && c < |h| && SoundRow(sts, h[c])
    ensures var es := ListBlocks(c, sts, errs, false, n);
            InHits(h, es) && Count(sts[..n], In) * 64 + ListedHits(h, es, |es|) == Sum(h[c], n)
  {
    BlocksInHits(h, c, sts, errs, n);
    if n > 0 {
      BlocksCount(h, c, sts, errs, n - 1);
      assert sts[..n][..n - 1] == sts[..n - 1];
      NextHits(h, ListBlocks(c, sts, errs, false, n - 1), Entry(c, n - 1, sts[n - 1], errs[n - 1]), ListBlocks(c, sts, errs, false, n));
    }
  }

  lemma {:induction false} NextHits(h: seq<seq<nat>>, front: seq<Entry>, e: Entry, es: seq<Entry>)
    requires InHits(h, front) && e.chunk < |h| && e.block < |h[e.chunk]| && es == if IsListed(e.state, false) then front + [e] else front
    ensures InHits(h, es)
    ensures ListedHits(h, es, |es|) == ListedHits(h, front, |front|) + if e.state == Maybe then h[e.chunk][e.block] else 0
  {
    if e.state == Maybe {
      ListedHitsMore(h, front, e);
    }
  }

  /** n_in * 64 plus the matching values of the MAYBE blocks is the brute-force count. */
  lemma {:induction false} CountIsBruteForce(h: seq<seq<nat>>, rows: seq<seq<State>>, errs: seq<seq<real>>, n: nat)
    requires SameShape(rows, errs) && Sound(rows, h) && n <= |rows|
    ensures var es := ListChunks(0, rows, errs, false, n);
            InHits(h, es) && CountAll(rows, In, n) * 64 + ListedHits(h, es, |es|) == BruteForce(h, n)
  {
    if n > 0 {
      CountIsBruteForce(h, rows, errs, n - 1);
      var c := n - 1;
      assert SoundRow(rows[c], h[c]);
      RowCount(h, c, rows[c], errs[c], ListChunks(0, rows, errs, false, c));
    }
  }

  lemma {:induction false} RowCount(h: seq<seq<nat>>, c: nat, row: seq<State>, er: seq<real>, front: seq<Entry>)
    requires c < |h| && SoundRow(row, h[c]) && |row| == |er| && InHits(h, front)
    ensures var all := front + ListBlocks(c, row, er, false, |row|);
            InHits(h, all) && Count(row, In) * 64 + ListedHits(h, all, |all|) == ListedHits(h, front, |front|) + Sum(h[c], |h[c]|)
  {
    BlocksCount(h, c, row, er, |row|);
    assert row[..|row|] == row;
    ListedHitsAppend(h, front, ListBlocks(c, row, er, false, |row|), |ListBlocks(c, row, er, false, |row|)|);
  }

  // ---- decoding what was read ----

  datatype Counted = Ok(n: nat) | SizeError

  ghost predicate InBounds(data: Bytes, offsets: seq<nat>, size: nat) {
    forall i :: 0 <= i < |offsets| ==> offsets[i] + size <= |data|
  }

  /** Decoding is abstract: encoded bytes of a block to its values. */
  type Decoder = map<Bytes, seq<Ext>>

  /** Matching values of the first n blocks. */
  function DecodedHits(blocks: seq<Bytes>, decode: Decoder, lo: Ext, hi: Ext, n: nat): nat
    requires n <= |blocks| && forall i :: 0 <= i < |blocks| ==> blocks[i] in decode
  {
    if n == 0 then 0 else DecodedHits(blocks, decode, lo, hi, n - 1) + CountRange(decode[blocks[n - 1]], lo, hi)
  }

  /** szfp_count_offsets_range: a block outside the buffer is an error, otherwise the blocks
    * at the offsets are decoded and counted. */
  method CountOffsets(data: Bytes, offsets: seq<nat>, size: nat, decode: Decoder, lo: Ext, hi: Ext, ghost blocks: seq<Bytes>) returns (r: Counted)
    requires |blocks| == |offsets|
    requires forall i :: 0 <= i < |offsets| && offsets[i] + size <= |data| ==> blocks[i] == data[offsets[i]..offsets[i] + size] && blocks[i] in decode
    ensures r.SizeError? <==> !InBounds(data, offsets, size)
    ensures r.Ok? ==> (forall i :: 0 <= i < |blocks| ==> blocks[i] in decode) && r.n == DecodedHits(blocks, decode, lo, hi, |blocks|)
  {
    for i := 0 to |offsets|
      invariant forall k :: 0 <= k < i ==> offsets[k] + size <= |data|
    {
      if offsets[i] > |data| || |data| - offsets[i] < size {
        return SizeError;
      }
    }
    var n: nat := 0;
    for i := 0 to |offsets|
      invariant (forall k :: 0 <= k < |blocks| ==> blocks[k] in decode) && n == DecodedHits(blocks, decode, lo, hi, i)
    {
      n := n + CountRange(decode[data[offsets[i]..offsets[i] + size]], lo, hi);
    }
    return Ok(n);
  }

  lemma {:induction false} DecodedHitsSplit(all: seq<Bytes>, part: seq<Bytes>, decode: Decoder, lo: Ext, hi: Ext, d: nat, n: nat)
    requires d + |part| <= |all| && n <= |part|
    requires forall i :: 0 <= i < |all| ==> all[i] in decode
    requires forall i :: 0 <= i < |part| ==> part[i] == all[d + i]
    ensures DecodedHits(all, decode, lo, hi, d + n) == DecodedHits(all, decode, lo, hi, d) + DecodedHits(part, decode, lo, hi, n)
    decreases n
  {
    if n > 0 {
      DecodedHitsSplit(all, part, decode, lo, hi, d, n - 1);
      assert part[n - 1] == all[d + (n - 1)];
    }
  }

  /** Every block of a read lies at its offset in the buffer. */
  lemma {:induction false} RunBlocks(q: Job, want: seq<Bytes>, rs: seq<Run>, run: nat, r: MergedRange, data: Bytes, i: nat)
    requires IsInput(q, want) && q.k == 1 && rs == Runs(q.cs, q.bs, q.gap, |q.cs|) && run < |rs|
    requires r == Range(rs, |q.cs|, run, q.layers[0], LayerStart(q.n, q.layers, 0)) && r.itemStart <= i < r.itemEnd
    requires r.chunk < |q.store| && r.start <= r.end <= |q.store[r.chunk]| && data == q.store[r.chunk][r.start..r.end]
    ensures i < |q.cs| && r.firstBlock <= q.bs[i]
    ensures var off := MixedRadix.Stride(q.bs[i] - r.firstBlock, q.layers[0]);
            off + q.layers[0] <= |data| && want[i] == data[off..off + q.layers[0]]
  {
    RunBytes(q, want, rs, r, run, 0, i, data);
    WholeSlice(q, want, i);
  }

  /** The blocks of a read are in the buffer at the offsets the decoder gets. */
  ghost predicate Laid(want: seq<Bytes>, d: nat, data: Bytes, offsets: seq<nat>, size: nat) {
    && d + |offsets| <= |want|
    && forall i :: 0 <= i < |offsets| ==> offsets[i] + size <= |data| && want[d + i] == data[offsets[i]..offsets[i] + size]
  }

  method RunOffsets(q: Job, ghost want: seq<Bytes>, ghost rs: seq<Run>, ghost run: nat, r: MergedRange, data: Bytes) returns (offsets: seq<nat>)
    requires IsInput(q, want) && q.k == 1 && rs == Runs(q.cs, q.bs, q.gap, |q.cs|) && run < |rs|
    requires r == Range(rs, |q.cs|, run, q.layers[0], LayerStart(q.n, q.layers, 0)) && r.itemStart < r.itemEnd <= |q.cs|
    requires r.chunk < |q.store| && r.start <= r.end <= |q.store[r.chunk]| && data == q.store[r.chunk][r.start..r.end]
    ensures |offsets| == r.itemEnd - r.itemStart && Laid(want, r.itemStart, data, offsets, q.layers[0])
  {
    offsets := [];
    for i := r.itemStart to r.itemEnd
      invariant |offsets| == i - r.itemStart && Laid(want, r.itemStart, data, offsets, q.layers[0])
    {
      RunBlocks(q, want, rs, run, r, data, i);
      offsets := offsets + [MixedRadix.Stride(q.bs[i] - r.firstBlock, q.layers[0])];
    }
  }

  /** One read of a layer-0 query. */
  method CountRun(q: Job, ghost want: seq<Bytes>, rs: seq<Run>, run: nat, decode: Decoder, lo: Ext, hi: Ext) returns (n: nat)
    requires IsInput(q, want) && q.k == 1 && rs == Runs(q.cs, q.bs, q.gap, |q.cs|) && run < |rs|
    requires forall i :: 0 <= i < |want| ==> want[i] in decode
    ensures rs[run].start < End(rs, |q.cs|, run) <= |want|
    ensures DecodedHits(want, decode, lo, hi, End(rs, |q.cs|, run)) == DecodedHits(want, decode, lo, hi, rs[run].start) + n
  {
    var r := Range(rs, |q.cs|, run, q.layers[0], LayerStart(q.n, q.layers, 0));
    RunInObject(q, rs, r, run, 0);
    var data := q.store[r.chunk][r.start..r.end];
    var offsets := RunOffsets(q, want, rs, run, r, data);
    n := CountLaid(want, r.itemStart, data, offsets, q.layers[0], decode, lo, hi);
  }

  method CountLaid(ghost want: seq<Bytes>, ghost d: nat, data: Bytes, offsets: seq<nat>, size: nat, decode: Decoder, lo: Ext, hi: Ext) returns (n: nat)
    requires Laid(want, d, data, offsets, size) && forall i :: 0 <= i < |want| ==> want[i] in decode
    ensures DecodedHits(want, decode, lo, hi, d + |offsets|) == DecodedHits(want, decode, lo, hi, d) + n
  {
    ghost var part := want[d..d + |offsets|];
    forall i | 0 <= i < |offsets| ensures part[i] == data[offsets[i]..offsets[i] + size] {
      assert part[i] == want[d + i];
    }
    var c := CountOffsets(data, offsets, size, decode, lo, hi, part);
    DecodedHitsSplit(want, part, decode, lo, hi, d, |part|);
    n := c.n;
  }

  lemma {:induction false} WholeSlice(q: Job, want: seq<Bytes>, i: nat)
    requires IsInput(q, want) && q.k == 1 && i < |want|
    ensures Cut(q.layers, 0) == 0 && Cut(q.layers, 1) == |want[i]| && want[i][0..|want[i]|] == want[i]
  {
    assert Cut(q.layers, 1) == Cut(q.layers, 0) + q.layers[0];
  }

  /** stream_count: the reads' counts add up to those of all listed blocks, and no block
    * falls outside its read. */
  method StreamCount(q: Job, ghost want: seq<Bytes>, decode: Decoder, lo: Ext, hi: Ext) returns (n: nat)
    requires IsInput(q, want) && q.k == 1 && forall i :: 0 <= i < |want| ==> want[i] in decode
    ensures n == DecodedHits(want, decode, lo, hi, |want|)
  {
    n := 0;
    var rs := Runs(q.cs, q.bs, q.gap, |q.cs|);
    ghost var done: nat := 0;
    if rs != [] {
      RunStarts(q, rs, 0);
    }
    for run := 0 to |rs|
      invariant done == (if run < |rs| then rs[run].start else |q.cs|) && done <= |want|
      invariant n == DecodedHits(want, decode, lo, hi, done)
    {
      var c := CountRun(q, want, rs, run, decode, lo, hi);
      n := n + c;
      done := End(rs, |q.cs|, run);
    }
  }

  /** One row of the assembled bytes. */
  method RowOf(out: array2<nat>, i: nat, ghost want: seq<Bytes>) returns (row: Bytes)
    requires i < out.Length0 && i < |want| && |want[i]| == out.Length1 && Filled(out, want, 0, |want|, 0, out.Length1)
    ensures row == want[i]
  {
    row := [];
    for c := 0 to out.Length1
      invariant row == want[i][..c]
    {
      row := row + [out[i, c]];
    }
    assert want[i][..out.Length1] == want[i];
  }

  /** One assembled row, decoded and counted. */
  method CountRow(q: Job, ghost want: seq<Bytes>, out: array2<nat>, i: nat, decode: Decoder, lo: Ext, hi: Ext) returns (hits: nat)
    requires IsInput(q, want) && i < |q.cs| == out.Length0 && out.Length1 == Cut(q.layers, q.k)
    requires want[i] in decode && Filled(out, want, 0, |q.cs|, 0, out.Length1)
    ensures hits == CountRange(decode[want[i]], lo, hi)
  {
    var row := RowOf(out, i, want);
    hits := CountRange(decode[row], lo, hi);
  }

  /** A query of several layers: assemble every block's prefix, then decode them all. */
  method LayeredCount(q: Job, ghost want: seq<Bytes>, dense: set<nat>, decode: Decoder, lo: Ext, hi: Ext) returns (n: nat)
    requires IsInput(q, want) && forall i :: 0 <= i < |want| ==> want[i] in decode
    ensures n == DecodedHits(want, decode, lo, hi, |want|)
  {
    var out;
    ghost var log;
    out, log := Assemble(q, want, dense);
    n := 0;
    for i := 0 to |q.cs|
      invariant Filled(out, want, 0, |want|, 0, out.Length1)
      invariant n == DecodedHits(want, decode, lo, hi, i)
    {
      var hits := CountRow(q, want, out, i, decode, lo, hi);
      n := n + hits;
    }
  }

  // ---- the whole query ----

  /** An array as stored: its blocks' encoded bytes and values, chunk by chunk in storage
    * order; the first k layers of a block decode to its values. */
  datatype Archive = Archive(layers: seq<nat>, k: nat, n: nat, store: seq<Bytes>, rows: seq<seq<Bytes>>, values: seq<seq<seq<Ext>>>, decode: Decoder)

  ghost predicate ValidArchive(a: Archive) {
    && a.k <= |a.layers| && |a.store| == |a.rows| == |a.values|
    && forall c :: 0 <= c < |a.store| ==> StoredChunk(a, c)
  }

  ghost predicate StoredChunk(a: Archive, c: nat)
    requires a.k <= |a.layers| && c < |a.store| == |a.rows| == |a.values|
  {
    && Whole(a.rows[c], a.layers) && |a.rows[c]| == a.n == |a.values[c]| && a.store[c] == Stored(a.rows[c], a.layers, |a.layers|)
    && forall p :: 0 <= p < a.n ==> Decodes(a, c, p)
  }

  ghost predicate Decodes(a: Archive, c: nat, p: nat)
    requires a.k <= |a.layers| && c < |a.rows| == |a.values| && p < |a.rows[c]| && p < |a.values[c]|
  {
    && Cut(a.layers, a.k) <= |a.rows[c][p]|
    && a.rows[c][p][..Cut(a.layers, a.k)] in a.decode && a.decode[a.rows[c][p][..Cut(a.layers, a.k)]] == a.values[c][p]
  }

  function Chunks(es: seq<Entry>, n: nat): (r: seq<nat>)
    requires n <= |es|
    ensures |r| == n && forall i :: 0 <= i < n ==> r[i] == es[i].chunk
  {
    if n == 0 then [] else Chunks(es, n - 1) + [es[n - 1].chunk]
  }

  function Blocks(es: seq<Entry>, n: nat): (r: seq<nat>)
    requires n <= |es|
    ensures |r| == n && forall i :: 0 <= i < n ==> r[i] == es[i].block
  {
    if n == 0 then [] else Blocks(es, n - 1) + [es[n - 1].block]
  }

  function JobOf(a: Archive, es: seq<Entry>, gap: nat): Job {
    Job(a.layers, a.k, a.n, a.store, a.rows, Chunks(es, |es|), Blocks(es, |es|), gap)
  }

  /** The listed blocks exist, in order. */
  ghost predicate Lists(a: Archive, es: seq<Entry>) {
    Sorted(es) && forall i :: 0 <= i < |es| ==> es[i].chunk < |a.store| && es[i].block < a.n
  }

  lemma {:induction false} JobIsValid(a: Archive, es: seq<Entry>, gap: nat)
    requires ValidArchive(a) && Lists(a, es)
    ensures ValidJob(JobOf(a, es, gap))
  {
    var q := JobOf(a, es, gap);
    forall i | 0 < i < |q.cs| ensures Follows(q.cs, q.bs, i) {
      assert Before(es[i - 1], es[i]);
    }
    forall c | 0 <= c < |q.store| ensures ValidChunk(q, c) {
      assert StoredChunk(a, c);
    }
  }

  /** The rows the decoder needs. */
  ghost function Inputs(a: Archive, es: seq<Entry>, n: nat): (want: seq<Bytes>)
    requires ValidArchive(a) && Lists(a, es) && n <= |es|
    ensures |want| == n
  {
    if n == 0 then []
    else
      assert StoredChunk(a, es[n - 1].chunk);
      assert Decodes(a, es[n - 1].chunk, es[n - 1].block);
      Inputs(a, es, n - 1) + [a.rows[es[n - 1].chunk][es[n - 1].block][..Cut(a.layers, a.k)]]
  }

  lemma {:induction false} InputsAt(a: Archive, es: seq<Entry>, n: nat, i: nat)
    requires ValidArchive(a) && Lists(a, es) && i < n <= |es|
    ensures StoredChunk(a, es[i].chunk) && Decodes(a, es[i].chunk, es[i].block)
    ensures Inputs(a, es, n)[i] == a.rows[es[i].chunk][es[i].block][..Cut(a.layers, a.k)]
    decreases n
  {
    assert StoredChunk(a, es[i].chunk);
    assert Decodes(a, es[i].chunk, es[i].block);
    if i < n - 1 { InputsAt(a, es, n - 1, i); }
  }

  lemma {:induction false} InputsAreInput(a: Archive, es: seq<Entry>, gap: nat)
    requires ValidArchive(a) && Lists(a, es)
    ensures IsInput(JobOf(a, es, gap), Inputs(a, es, |es|))
    ensures forall i :: 0 <= i < |es| ==> Inputs(a, es, |es|)[i] in a.decode
  {
    JobIsValid(a, es, gap);
    forall i | 0 <= i < |es|
      ensures Cut(a.layers, a.k) <= |BlockRow(JobOf(a, es, gap), i)| && Inputs(a, es, |es|)[i] == BlockRow(JobOf(a, es, gap), i)[..Cut(a.layers, a.k)]
      ensures Inputs(a, es, |es|)[i] in a.decode
    {
      InputsAt(a, es, |es|, i);
    }
  }

  /** Decoding and counting the listed blocks gives their share of the array's matches. */
  lemma {:induction false} DecodedIsListed(a: Archive, es: seq<Entry>, lo: Ext, hi: Ext, h: seq<seq<nat>>, want: seq<Bytes>, n: nat)
    requires ValidArchive(a) && Lists(a, es) && h == HitRows(a.values, lo, hi, |a.values|) && n <= |es|
    requires want == Inputs(a, es, |es|) && forall i :: 0 <= i < |want| ==> want[i] in a.decode
    ensures InHits(h, es) && DecodedHits(want, a.decode, lo, hi, n) == ListedHits(h, es, n)
    decreases n
  {
    ListsInHits(a, es, h, lo, hi);
    if n > 0 {
      DecodedIsListed(a, es, lo, hi, h, want, n - 1);
      InputsAt(a, es, |es|, n - 1);
    }
  }

  lemma {:induction false} ListsInHits(a: Archive, es: seq<Entry>, h: seq<seq<nat>>, lo: Ext, hi: Ext)
    requires ValidArchive(a) && Lists(a, es) && h == HitRows(a.values, lo, hi, |a.values|)
    ensures InHits(h, es)
  {
    forall i | 0 <= i < |es| ensures es[i].chunk < |h| && es[i].block < |h[es[i].chunk]| {
      assert StoredChunk(a, es[i].chunk);
    }
  }

  /** Reading, decoding and counting the listed blocks, by either path. */
  method CountListed(a: Archive, es: seq<Entry>, gap: nat, dense: set<nat>, lo: Ext, hi: Ext, ghost h: seq<seq<nat>>) returns (n: nat)
    requires ValidArchive(a) && Lists(a, es) && a.k > 0 && h == HitRows(a.values, lo, hi, |a.values|)
    ensures InHits(h, es) && n == ListedHits(h, es, |es|)
  {
    ghost var want := Inputs(a, es, |es|);
    InputsAreInput(a, es, gap);
    DecodedIsListed(a, es, lo, hi, h, want, |es|);
    if a.k == 1 {
      n := StreamCount(JobOf(a, es, gap), want, a.decode, lo, hi);
    } else {
      n := LayeredCount(JobOf(a, es, gap), want, dense, a.decode, lo, hi);
    }
  }

  /** The blocks of an archive are the units' blocks in chunk and storage order. */
  ghost predicate OnGrid(a: Archive, g: Grid, states: seq<seq<State>>, errs: seq<seq<real>>, values: seq<seq<seq<Ext>>>) {
    && ValidArchive(a) && a.k > 0 && Shaped(g, states) && Shaped(g, errs) && Shaped(g, values)
    && a.values == Rows(g, values, g.Chunks())
  }

  /** What the classification promises for a block: all of its 64 decoded values match, or none. */
  ghost predicate SoundBlock(s: State, v: seq<Ext>, lo: Ext, hi: Ext) {
    && |v| == VALUES
    && (s == In ==> forall i :: 0 <= i < |v| ==> InRange(v[i], lo, hi))
    && (s == Out ==> forall i :: 0 <= i < |v| ==> !InRange(v[i], lo, hi))
  }

  ghost predicate SoundUnits(g: Grid, states: seq<seq<State>>, values: seq<seq<seq<Ext>>>, lo: Ext, hi: Ext)
    requires Shaped(g, states) && Shaped(g, values)
  {
    forall u, b :: 0 <= u < |states| && 0 <= b < g.blocks ==> SoundBlock(states[u][b], values[u][b], lo, hi)
  }

  lemma {:induction false} RowIsSound(g: Grid, states: seq<seq<State>>, values: seq<seq<seq<Ext>>>, lo: Ext, hi: Ext, c: nat, p: nat)
    requires Shaped(g, states) && Shaped(g, values) && SoundUnits(g, states, values, lo, hi) && c < g.Chunks()
    requires p < |Row(g, states, c, g.Subs())|
    ensures p < |Row(g, values, c, g.Subs())|
    ensures SoundBlock(Row(g, states, c, g.Subs())[p], Row(g, values, c, g.Subs())[p], lo, hi)
  {
    RowLength(g, states, c, g.Subs());
    RowLength(g, values, c, g.Subs());
    AxisSplits(p, g.Subs(), g.blocks);
    RowAt(g, states, c, g.Subs(), MixedRadix.High(p, g.blocks), MixedRadix.Low(p, g.blocks));
    RowAt(g, values, c, g.Subs(), MixedRadix.High(p, g.blocks), MixedRadix.Low(p, g.blocks));
  }

  lemma {:induction false} RowsAreSound(g: Grid, states: seq<seq<State>>, values: seq<seq<seq<Ext>>>, lo: Ext, hi: Ext, h: seq<seq<nat>>)
    requires Shaped(g, states) && Shaped(g, values) && SoundUnits(g, states, values, lo, hi)
    requires h == HitRows(Rows(g, values, g.Chunks()), lo, hi, g.Chunks())
    ensures Sound(Rows(g, states, g.Chunks()), h)
  {
    forall c | 0 <= c < g.Chunks() ensures SoundRow(Rows(g, states, g.Chunks())[c], h[c]) {
      RowLength(g, states, c, g.Subs());
      RowLength(g, values, c, g.Subs());
      forall p | 0 <= p < |Row(g, states, c, g.Subs())|
        ensures Row(g, states, c, g.Subs())[p] == In ==> h[c][p] == VALUES
        ensures Row(g, states, c, g.Subs())[p] == Out ==> h[c][p] == 0
      {
        RowIsSound(g, states, values, lo, hi, c, p);
        CountAllOrNone(Row(g, values, c, g.Subs())[p], lo, hi);
      }
    }
  }

  /** A zone map record written for a block, with the stored error bound holding, makes its
    * state sound for every decoded value. */
  lemma {:induction false} StateIsSound(fp: Rounding.Arith, rec: Record, mins: seq<real>, maxs: seq<real>, b: nat, lo: Ext, hi: Ext,
                                        orig: seq<real>, decoded: seq<real>, v: seq<Ext>)
    requires Rounding.Binary64(fp) && Written(fp, rec, mins, maxs) && b < |mins| && |orig| == |decoded| == |v| == VALUES
    requires forall i :: 0 <= i < VALUES ==> Rounding.Rep(fp, orig[i]) && Rounding.Rep(fp, decoded[i]) && mins[b] <= orig[i] <= maxs[b]
    requires forall i :: 0 <= i < VALUES ==> Rounding.Abs(orig[i] - decoded[i]) <= BlockError(fp, rec, b) && v[i] == Fin(decoded[i])
    ensures SoundBlock(StateOf(fp, rec, b, lo, hi), v, lo, hi)
  {
    forall i | 0 <= i < VALUES
      ensures StateOf(fp, rec, b, lo, hi) == In ==> InRange(v[i], lo, hi)
      ensures StateOf(fp, rec, b, lo, hi) == Out ==> !InRange(v[i], lo, hi)
    {
      ClassificationIsSound(fp, rec, mins, maxs, b, lo, hi, orig[i], decoded[i]);
    }
  }

  lemma {:induction false} PlanIsListed(a: Archive, g: Grid, states: seq<seq<State>>, errs: seq<seq<real>>, values: seq<seq<seq<Ext>>>,
                                        keepIn: bool, es: seq<Entry>)
    requires OnGrid(a, g, states, errs, values) && es == Plan(g, states, errs, keepIn)
    ensures Lists(a, es)
  {
    RowsMatch(g, states, errs, g.Chunks());
    ListIsSorted(0, Rows(g, states, g.Chunks()), Rows(g, errs, g.Chunks()), keepIn, g.Chunks());
    forall i | 0 <= i < |es| ensures es[i].chunk < |a.store| && es[i].block < a.n {
      ListIsExact(0, Rows(g, states, g.Chunks()), Rows(g, errs, g.Chunks()), keepIn, g.Chunks(), es[i]);
      RowLength(g, states, es[i].chunk, g.Subs());
      RowLength(g, values, es[i].chunk, g.Subs());
      assert StoredChunk(a, es[i].chunk);
    }
  }

  /** End to end: for every range, layer, merge gap and choice of chunks read whole, the
    * query's count is the number of decoded values in the array with lo < v <= hi. */
  method QueryInTurn(a: Archive, ghost g: Grid, ghost states: seq<seq<State>>, ghost errs: seq<seq<real>>, ghost values: seq<seq<seq<Ext>>>,
                     es: seq<Entry>, nIn: nat, gap: nat, dense: set<nat>, lo: Ext, hi: Ext)
    returns (count: nat)
    requires OnGrid(a, g, states, errs, values) && SoundUnits(g, states, values, lo, hi)
    requires es == Plan(g, states, errs, false) && nIn == CountAll(Rows(g, states, g.Chunks()), In, g.Chunks())
    ensures count == BruteForce(HitRows(a.values, lo, hi, |a.values|), |a.values|)
  {
    ghost var h := HitRows(a.values, lo, hi, |a.values|);
    PlanIsListed(a, g, states, errs, values, false, es);
    var n := CountListed(a, es, gap, dense, lo, hi, h);
    RowsAreSound(g, states, values, lo, hi, h);
    RowsMatch(g, states, errs, g.Chunks());
    CountIsBruteForce(h, Rows(g, states, g.Chunks()), Rows(g, errs, g.Chunks()), g.Chunks());
    count := nIn * 64 + n;
  }
}
