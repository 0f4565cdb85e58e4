/** Layered reads: a block's layers come from different reads, and are put together as one
  * row of encoded bytes per listed block. */
module Assembly {
  import opened MixedRadix
  import opened Merge
  import opened Layout

  /** The chunk objects of an array, the blocks in them, and the blocks to read. */
  datatype Job = Job(layers: seq<nat>, k: nat, n: nat, store: seq<Bytes>, rows: seq<seq<Bytes>>, cs: seq<nat>, bs: seq<nat>, gap: nat)

  /** Every object holds its chunk's blocks as pack stores them; the listed blocks are in order. */
  ghost predicate ValidJob(q: Job) {
    && q.k <= |q.layers| && |q.store| == |q.rows| && Ascending(q.cs, q.bs)
    && (forall c :: 0 <= c < |q.store| ==> ValidChunk(q, c))
    && (forall i :: 0 <= i < |q.cs| ==> q.cs[i] < |q.store| && q.bs[i] < q.n)
  }

  ghost predicate ValidChunk(q: Job, c: nat)
    requires c < |q.store| == |q.rows|
  {
    Whole(q.rows[c], q.layers) && |q.rows[c]| == q.n && q.store[c] == Stored(q.rows[c], q.layers, |q.layers|)
  }

  /** The encoded bytes of listed block i. */
  ghost function BlockRow(q: Job, i: nat): Bytes
    requires ValidJob(q) && i < |q.cs|
  {
    assert ValidChunk(q, q.cs[i]);
    q.rows[q.cs[i]][q.bs[i]]
  }

  /** Row i of the decoder's input: the first k layers of listed block i. */
  ghost predicate IsInput(q: Job, want: seq<Bytes>) {
    && ValidJob(q) && |want| == |q.cs|
    && forall i :: 0 <= i < |want| ==> Cut(q.layers, q.k) <= |BlockRow(q, i)| && want[i] == BlockRow(q, i)[..Cut(q.layers, q.k)]
  }

  // ---- what a read holds ----

  /** A merged read of layer j holds that layer of each of its blocks, at the offset used. */
  lemma {:induction false} RunHoldsLayer(q: Job, rs: seq<Run>, r: MergedRange, run: nat, j: nat, i: nat)
    requires ValidJob(q) && j < q.k && rs == Runs(q.cs, q.bs, q.gap, |q.cs|) && run < |rs|
    requires r == Range(rs, |q.cs|, run, q.layers[j], LayerStart(q.n, q.layers, j)) && r.itemStart <= i < r.itemEnd
    ensures i < |q.cs| && r.chunk == q.cs[i] && r.firstBlock <= q.bs[i]
    ensures r.start + Stride(q.bs[i] - r.firstBlock, q.layers[j]) == LayerAt(q.n, q.layers, j, q.bs[i])
    ensures Stride(q.bs[i] - r.firstBlock, q.layers[j]) + q.layers[j] <= r.end - r.start
  {
    OffsetInBounds(q.cs, q.bs, q.gap, run, i, q.layers[j], LayerStart(q.n, q.layers, j));
    StrideIs(q.bs[i] - r.firstBlock, q.layers[j]);
    StrideIs(q.bs[i], q.layers[j]);
  }

  /** Reads stay inside their objects. */
  lemma {:induction false} RunInObject(q: Job, rs: seq<Run>, r: MergedRange, run: nat, j: nat)
    requires ValidJob(q) && j < q.k && rs == Runs(q.cs, q.bs, q.gap, |q.cs|) && run < |rs|
    requires r == Range(rs, |q.cs|, run, q.layers[j], LayerStart(q.n, q.layers, j))
    ensures r.itemStart < r.itemEnd <= |q.cs| && r.chunk < |q.store| && r.start <= r.end <= |q.store[r.chunk]|
  {
    RunEnds(q.cs, q.bs, q.gap, rs, run);
    var i := r.itemEnd - 1;
    ItemInRun(q.cs, q.bs, q.gap, rs, run, i);
    LayerInObject(q, r.chunk, j, q.bs[i]);
    StrideIs(q.bs[i], q.layers[j]);
    Spread(q.bs[i], 1, q.layers[j]);
    MulGrows(r.firstBlock, q.bs[i] + 1, q.layers[j]);
  }

  lemma {:induction false} LayerInObject(q: Job, c: nat, j: nat, b: nat)
    requires ValidJob(q) && c < |q.store| && j < q.k && b < q.n
    ensures LayerAt(q.n, q.layers, j, b) + q.layers[j] <= |q.store[c]| && b < |q.rows[c]|
    ensures Cut(q.layers, j) <= Cut(q.layers, j + 1) <= |q.rows[c][b]|
    ensures q.store[c][LayerAt(q.n, q.layers, j, b)..LayerAt(q.n, q.layers, j, b) + q.layers[j]]
         == q.rows[c][b][Cut(q.layers, j)..Cut(q.layers, j + 1)]
  {
    assert ValidChunk(q, c);
    StoredAt(q.rows[c], q.layers, |q.layers|, j, b, LayerAt(q.n, q.layers, j, b));
  }

  lemma {:induction false} SliceOfSlice(s: Bytes, a: nat, b: nat, off: nat, n: nat)
    requires a <= b <= |s| && off + n <= b - a
    ensures s[a..b][off..off + n] == s[a + off..a + off + n]
  {
    var x, y := s[a..b][off..off + n], s[a + off..a + off + n];
    forall i | 0 <= i < n ensures x[i] == y[i] {
    }
  }

  lemma {:induction false} PrefixOfRow(r: Bytes, want: Bytes, a: nat, b: nat, n: nat)
    requires a <= b <= n <= |r| && want == r[..n]
    ensures r[a..b] == want[a..b]
  {
  }

  /** What the fill of a merged read copies into row i. */
  lemma {:induction false} RunBytes(q: Job, want: seq<Bytes>, rs: seq<Run>, r: MergedRange, run: nat, j: nat, i: nat, buf: Bytes)
    requires IsInput(q, want) && j < q.k && rs == Runs(q.cs, q.bs, q.gap, |q.cs|) && run < |rs|
    requires r == Range(rs, |q.cs|, run, q.layers[j], LayerStart(q.n, q.layers, j)) && r.itemStart <= i < r.itemEnd
    requires r.chunk < |q.store| && r.start <= r.end <= |q.store[r.chunk]| && buf == q.store[r.chunk][r.start..r.end]
    ensures i < |q.cs| && r.firstBlock <= q.bs[i] && Cut(q.layers, j) <= Cut(q.layers, j + 1) <= |want[i]|
    ensures var off := Stride(q.bs[i] - r.firstBlock, q.layers[j]);
            off + q.layers[j] <= |buf| && buf[off..off + q.layers[j]] == want[i][Cut(q.layers, j)..Cut(q.layers, j + 1)]
  {
    RunHoldsLayer(q, rs, r, run, j, i);
    LayerInObject(q, q.cs[i], j, q.bs[i]);
    SliceOfSlice(q.store[r.chunk], r.start, r.end, Stride(q.bs[i] - r.firstBlock, q.layers[j]), q.layers[j]);
    CutsGrow(q.layers, j + 1, q.k);
    PrefixOfRow(BlockRow(q, i), want[i], Cut(q.layers, j), Cut(q.layers, j + 1), Cut(q.layers, q.k));
  }

  /** What the fill of a whole chunk's prefix copies into row i. */
  lemma {:induction false} DenseBytes(q: Job, want: seq<Bytes>, j: nat, i: nat, buf: Bytes)
    requires IsInput(q, want) && j < q.k && i < |q.cs| && LayerStart(q.n, q.layers, q.k) <= |q.store[q.cs[i]]|
    requires buf == q.store[q.cs[i]][..LayerStart(q.n, q.layers, q.k)]
    ensures Cut(q.layers, j) <= Cut(q.layers, j + 1) <= |want[i]|
    ensures var at := LayerAt(q.n, q.layers, j, q.bs[i]);
            at + q.layers[j] <= |buf| && buf[at..at + q.layers[j]] == want[i][Cut(q.layers, j)..Cut(q.layers, j + 1)]
  {
    LayerInObject(q, q.cs[i], j, q.bs[i]);
    StrideFits(q.bs[i], q.n, q.layers[j]);
    LayersGrow(q.n, q.layers, j + 1, q.k);
    SliceOfSlice(q.store[q.cs[i]], 0, LayerStart(q.n, q.layers, q.k), LayerAt(q.n, q.layers, j, q.bs[i]), q.layers[j]);
    CutsGrow(q.layers, j + 1, q.k);
    PrefixOfRow(BlockRow(q, i), want[i], Cut(q.layers, j), Cut(q.layers, j + 1), Cut(q.layers, q.k));
  }

  lemma {:induction false} PrefixInObject(q: Job, c: nat)
    requires ValidJob(q) && c < |q.store|
    ensures LayerStart(q.n, q.layers, q.k) <= |q.store[c]|
  {
    assert ValidChunk(q, c);
    StoredLength(q.rows[c], q.layers, |q.layers|);
    LayersGrow(q.n, q.layers, q.k, |q.layers|);
  }

  // ---- filling the rows ----

  /** out[i, col..] = src */
  method FillRow(out: array2<nat>, i: nat, col: nat, src: Bytes)
    requires i < out.Length0 && col + |src| <= out.Length1
    modifies out
    ensures forall c :: col <= c < col + |src| ==> out[i, c] == src[c - col]
    ensures forall a, c :: 0 <= a < out.Length0 && 0 <= c < out.Length1 && !(a == i && col <= c < col + |src|) ==> out[a, c] == old(out[a, c])
  {
    for t := 0 to |src|
      invariant forall c :: col <= c < col + t ==> out[i, c] == src[c - col]
      invariant forall a, c :: 0 <= a < out.Length0 && 0 <= c < out.Length1 && !(a == i && col <= c < col + t) ==> out[a, c] == old(out[a, c])
    {
      out[i, col + t] := src[t];
    }
  }

  /** Rows lo..hi, columns a..b hold what they should. */
  ghost predicate Filled(out: array2<nat>, want: seq<Bytes>, lo: nat, hi: nat, a: nat, b: nat)
    reads out
  {
    && hi <= |want| && hi <= out.Length0 && b <= out.Length1 && (forall i :: lo <= i < hi ==> b <= |want[i]|)
    && forall i, c :: lo <= i < hi && a <= c < b ==> out[i, c] == want[i][c]
  }

  /** Nothing outside rows lo..hi and columns a..b changed. */
  twostate predicate KeptOutside(out: array2<nat>, lo: nat, hi: nat, a: nat, b: nat)
    reads out
  {
    forall i, c :: 0 <= i < out.Length0 && 0 <= c < out.Length1 && !(lo <= i < hi && a <= c < b) ==> out[i, c] == old(out[i, c])
  }

  method FillLayerOfRow(out: array2<nat>, ghost want: seq<Bytes>, i: nat, a: nat, b: nat, src: Bytes)
    requires i < |want| && i < out.Length0 && a <= b <= out.Length1 && b <= |want[i]| && src == want[i][a..b]
    modifies out
    ensures Filled(out, want, i, i + 1, a, b) && KeptOutside(out, i, i + 1, a, b)
  {
    FillRow(out, i, a, src);
  }

  /** out[item_start:item_end, cols[j]:cols[j + 1]] = buf.reshape(-1, layer_bytes[j])[rows] */
  method FillRun(q: Job, ghost want: seq<Bytes>, ghost rs: seq<Run>, r: MergedRange, ghost run: nat, j: nat, buf: Bytes, out: array2<nat>)
    requires IsInput(q, want) && j < q.k && rs == Runs(q.cs, q.bs, q.gap, |q.cs|) && run < |rs|
    requires r == Range(rs, |q.cs|, run, q.layers[j], LayerStart(q.n, q.layers, j))
    requires r.chunk < |q.store| && r.start <= r.end <= |q.store[r.chunk]| && buf == q.store[r.chunk][r.start..r.end]
    requires r.itemStart < r.itemEnd <= |q.cs| && out.Length0 == |q.cs| && out.Length1 == Cut(q.layers, q.k)
    modifies out
    ensures Filled(out, want, r.itemStart, r.itemEnd, Cut(q.layers, j), Cut(q.layers, j + 1))
    ensures KeptOutside(out, r.itemStart, r.itemEnd, Cut(q.layers, j), Cut(q.layers, j + 1))
  {
    var a, b := Cut(q.layers, j), Cut(q.layers, j + 1);
    CutsGrow(q.layers, j + 1, q.k);
    for i := r.itemStart to r.itemEnd
      invariant Filled(out, want, r.itemStart, i, a, b) && KeptOutside(out, r.itemStart, i, a, b)
    {
      RunBytes(q, want, rs, r, run, j, i, buf);
      var off := Stride(q.bs[i] - r.firstBlock, q.layers[j]);
      FillLayerOfRow(out, want, i, a, b, buf[off..off + q.layers[j]]);
    }
  }

  /** The items of run k of all runs. */
  lemma {:induction false} RunStarts(q: Job, rs: seq<Run>, k: nat)
    requires ValidJob(q) && rs == Runs(q.cs, q.bs, q.gap, |q.cs|) && k < |rs|
    ensures rs[k].start < End(rs, |q.cs|, k) <= |q.cs| && (k == 0 ==> rs[k].start == 0)
    ensures forall i :: rs[k].start <= i < End(rs, |q.cs|, k) ==> q.cs[i] == rs[k].chunk
  {
    RunEnds(q.cs, q.bs, q.gap, rs, k);
    FirstRun(q.cs, q.bs, q.gap, |q.cs|);
    forall i | rs[k].start <= i < End(rs, |q.cs|, k) ensures q.cs[i] == rs[k].chunk {
      ItemInRun(q.cs, q.bs, q.gap, rs, k, i);
    }
  }

  /** Row i of chunks that are not dense is filled in columns a..b. */
  ghost predicate SparseFilled(q: Job, out: array2<nat>, want: seq<Bytes>, dense: set<nat>, n: nat, a: nat, b: nat)
    reads out
  {
    && n <= |q.cs| && n <= |want| && n <= out.Length0 && b <= out.Length1 && (forall i :: 0 <= i < |want| ==> b <= |want[i]|)
    && forall i, c :: 0 <= i < n && q.cs[i] !in dense && a <= c < b ==> out[i, c] == want[i][c]
  }

  /** A fill writes layer j of the items of run k, or every layer of a dense chunk's items. */
  datatype Fill = Part(j: nat, k: nat) | Prefix(c: nat)

  ghost predicate NoRepeats(log: seq<Fill>) {
    forall a, b :: 0 <= a < b < |log| ==> log[a] != log[b]
  }

  /** The fills of a layer's first n runs, of the first k layers, and of the dense chunks below n. */
  ghost function LayerFills(rs: seq<Run>, dense: set<nat>, j: nat, n: nat): (log: seq<Fill>)
    requires n <= |rs|
    ensures NoRepeats(log) && forall f :: f in log <==> f.Part? && f.j == j && f.k < n && rs[f.k].chunk !in dense
  {
    if n == 0 then []
    else
      var front := LayerFills(rs, dense, j, n - 1);
      if rs[n - 1].chunk in dense then front else front + [Part(j, n - 1)]
  }

  lemma {:induction false} JoinRepeatsNothing(a: seq<Fill>, b: seq<Fill>)
    requires NoRepeats(a) && NoRepeats(b) && forall f :: f in a ==> f !in b
    ensures NoRepeats(a + b) && forall f :: f in a + b <==> f in a || f in b
  {
    forall i, j | 0 <= i < j < |a + b| ensures (a + b)[i] != (a + b)[j] {
      if i < |a| <= j {
        assert (a + b)[i] in a && (a + b)[j] in b;
      }
    }
  }

  ghost function SparseFills(rs: seq<Run>, dense: set<nat>, k: nat): (log: seq<Fill>)
    ensures NoRepeats(log) && forall f :: f in log <==> f.Part? && f.j < k && f.k < |rs| && rs[f.k].chunk !in dense
  {
    if k == 0 then []
    else
      JoinRepeatsNothing(SparseFills(rs, dense, k - 1), LayerFills(rs, dense, k - 1, |rs|));
      SparseFills(rs, dense, k - 1) + LayerFills(rs, dense, k - 1, |rs|)
  }

  ghost function DenseFills(dense: set<nat>, n: nat): (log: seq<Fill>)
    ensures NoRepeats(log) && forall f :: f in log <==> f.Prefix? && f.c < n && f.c in dense
  {
    if n == 0 then []
    else
      var front := DenseFills(dense, n - 1);
      if n - 1 in dense then front + [Prefix(n - 1)] else front
  }

  /** One read of a layer, unless its chunk is dense. */
  method FillUnlessDense(q: Job, ghost want: seq<Bytes>, rs: seq<Run>, dense: set<nat>, run: nat, j: nat, out: array2<nat>)
    requires IsInput(q, want) && j < q.k && rs == Runs(q.cs, q.bs, q.gap, |q.cs|) && run < |rs|
    requires out.Length0 == |q.cs| && out.Length1 == Cut(q.layers, q.k) && Cut(q.layers, j + 1) <= Cut(q.layers, q.k)
    requires SparseFilled(q, out, want, dense, rs[run].start, Cut(q.layers, j), Cut(q.layers, j + 1))
    modifies out
    ensures SparseFilled(q, out, want, dense, End(rs, |q.cs|, run), Cut(q.layers, j), Cut(q.layers, j + 1))
    ensures KeptOutside(out, 0, |q.cs|, Cut(q.layers, j), Cut(q.layers, j + 1))
  {
    RunStarts(q, rs, run);
    var r := Range(rs, |q.cs|, run, q.layers[j], LayerStart(q.n, q.layers, j));
    if rs[run].chunk !in dense {
      RunInObject(q, rs, r, run, j);
      FillRun(q, want, rs, r, run, j, q.store[r.chunk][r.start..r.end], out);
    }
  }

  /** All reads of one layer: every run of a chunk that is not dense. */
  method FillLayer(q: Job, ghost want: seq<Bytes>, rs: seq<Run>, dense: set<nat>, j: nat, out: array2<nat>) returns (ghost log: seq<Fill>)
    requires IsInput(q, want) && j < q.k && rs == Runs(q.cs, q.bs, q.gap, |q.cs|)
    requires out.Length0 == |q.cs| && out.Length1 == Cut(q.layers, q.k) && Cut(q.layers, j + 1) <= Cut(q.layers, q.k)
    modifies out
    ensures SparseFilled(q, out, want, dense, |q.cs|, Cut(q.layers, j), Cut(q.layers, j + 1))
    ensures KeptOutside(out, 0, |q.cs|, Cut(q.layers, j), Cut(q.layers, j + 1))
    ensures log == LayerFills(rs, dense, j, |rs|)
  {
    var a, b := Cut(q.layers, j), Cut(q.layers, j + 1);
    ghost var done: nat := 0;
    log := [];
    if rs != [] {
      RunStarts(q, rs, 0);
    }
    for run := 0 to |rs|
      invariant done == (if run < |rs| then rs[run].start else |q.cs|)
      invariant SparseFilled(q, out, want, dense, done, a, b) && KeptOutside(out, 0, |q.cs|, a, b)
      invariant log == LayerFills(rs, dense, j, run)
    {
      FillUnlessDense(q, want, rs, dense, run, j, out);
      if rs[run].chunk !in dense {
        log := log + [Part(j, run)];
      }
      done := End(rs, |q.cs|, run);
    }
  }

  // ---- chunks read whole ----

  /** np.searchsorted: how many of the first n sorted ids are below c. */
  function LowerBound(cs: seq<nat>, c: nat, n: nat): (r: nat)
    requires n <= |cs|
    ensures r <= n
  {
    if n == 0 then 0 else if cs[n - 1] < c then n else LowerBound(cs, c, n - 1)
  }

  lemma {:induction false} ChunksSorted(q: Job, i: nat, j: nat)
    requires ValidJob(q) && i <= j < |q.cs|
    ensures q.cs[i] <= q.cs[j]
    decreases j
  {
    if i < j {
      ChunksSorted(q, i, j - 1);
      assert Follows(q.cs, q.bs, j);
    }
  }

  lemma {:induction false} LowerBoundSplits(q: Job, c: nat, n: nat, i: nat)
    requires ValidJob(q) && i < n <= |q.cs|
    ensures q.cs[i] < c <==> i < LowerBound(q.cs, c, n)
    decreases n
  {
    if q.cs[n - 1] < c {
      ChunksSorted(q, i, n - 1);
    } else if i < n - 1 {
      LowerBoundSplits(q, c, n - 1, i);
    }
  }

  lemma {:induction false} ChunkItems(q: Job, c: nat, lo: nat, hi: nat)
    requires ValidJob(q) && lo == LowerBound(q.cs, c, |q.cs|) && hi == LowerBound(q.cs, c + 1, |q.cs|)
    ensures lo <= hi <= |q.cs| && forall i :: 0 <= i < |q.cs| ==> (q.cs[i] == c <==> lo <= i < hi)
  {
    forall i | 0 <= i < |q.cs| ensures q.cs[i] == c <==> lo <= i < hi {
      LowerBoundSplits(q, c, |q.cs|, i);
      LowerBoundSplits(q, c + 1, |q.cs|, i);
    }
    if hi < lo {
      LowerBoundSplits(q, c, |q.cs|, hi);
      LowerBoundSplits(q, c + 1, |q.cs|, hi);
    }
  }

  /** One layer of a chunk read whole. */
  method FillDenseLayer(q: Job, ghost want: seq<Bytes>, lo: nat, hi: nat, ghost c: nat, j: nat, buf: Bytes, out: array2<nat>)
    requires IsInput(q, want) && j < q.k && lo <= hi <= |q.cs| && c < |q.store|
    requires forall i :: lo <= i < hi ==> q.cs[i] == c
    requires LayerStart(q.n, q.layers, q.k) <= |q.store[c]| && buf == q.store[c][..LayerStart(q.n, q.layers, q.k)]
    requires out.Length0 == |q.cs| && out.Length1 == Cut(q.layers, q.k)
    modifies out
    ensures Filled(out, want, lo, hi, Cut(q.layers, j), Cut(q.layers, j + 1))
    ensures KeptOutside(out, lo, hi, Cut(q.layers, j), Cut(q.layers, j + 1))
  {
    var a, b := Cut(q.layers, j), Cut(q.layers, j + 1);
    CutsGrow(q.layers, j + 1, q.k);
    for i := lo to hi
      invariant Filled(out, want, lo, i, a, b) && KeptOutside(out, lo, i, a, b)
    {
      DenseBytes(q, want, j, i, buf);
      var at := LayerAt(q.n, q.layers, j, q.bs[i]);
      FillLayerOfRow(out, want, i, a, b, buf[at..at + q.layers[j]]);
    }
  }

  /** All layers of the listed blocks of a chunk read whole. */
  method FillDense(q: Job, ghost want: seq<Bytes>, c: nat, out: array2<nat>)
    requires IsInput(q, want) && c < |q.store|
    requires out.Length0 == |q.cs| && out.Length1 == Cut(q.layers, q.k)
    modifies out
    ensures var lo, hi := LowerBound(q.cs, c, |q.cs|), LowerBound(q.cs, c + 1, |q.cs|);
            Filled(out, want, lo, hi, 0, Cut(q.layers, q.k)) && KeptOutside(out, lo, hi, 0, Cut(q.layers, q.k))
  {
    PrefixInObject(q, c);
    var buf := q.store[c][..LayerStart(q.n, q.layers, q.k)];
    var lo, hi := LowerBound(q.cs, c, |q.cs|), LowerBound(q.cs, c + 1, |q.cs|);
    ChunkItems(q, c, lo, hi);
    for j := 0 to q.k
      invariant Cut(q.layers, j) <= Cut(q.layers, q.k)
      invariant Filled(out, want, lo, hi, 0, Cut(q.layers, j)) && KeptOutside(out, lo, hi, 0, Cut(q.layers, j))
    {
      CutsGrow(q.layers, j + 1, q.k);
      FillDenseLayer(q, want, lo, hi, c, j, buf, out);
    }
  }

  /** Rows of dense chunks below c are filled. */
  ghost predicate DenseFilled(q: Job, out: array2<nat>, want: seq<Bytes>, dense: set<nat>, c: nat, b: nat)
    reads out
  {
    && |q.cs| <= |want| && |q.cs| <= out.Length0 && b <= out.Length1 && (forall i :: 0 <= i < |want| ==> b <= |want[i]|)
    && forall i, col :: 0 <= i < |q.cs| && q.cs[i] in dense && q.cs[i] < c && 0 <= col < b ==> out[i, col] == want[i][col]
  }

  /** The layered read: whichever chunks are read whole and whatever the merge gap, row i
    * ends up as the first k layers of listed block i; log is the fills that did it. */
  method Assemble(q: Job, ghost want: seq<Bytes>, dense: set<nat>) returns (out: array2<nat>, ghost log: seq<Fill>)
    requires IsInput(q, want)
    ensures out.Length0 == |q.cs| && out.Length1 == Cut(q.layers, q.k)
    ensures Filled(out, want, 0, |q.cs|, 0, Cut(q.layers, q.k))
    ensures log == Fills(q, dense)
  {
    out := new nat[|q.cs|, Cut(q.layers, q.k)];
    var rs := Runs(q.cs, q.bs, q.gap, |q.cs|);
    ghost var fills := [];
    for j := 0 to q.k
      invariant Cut(q.layers, j) <= Cut(q.layers, q.k)
      invariant SparseFilled(q, out, want, dense, |q.cs|, 0, Cut(q.layers, j))
      invariant fills == SparseFills(rs, dense, j)
    {
      CutsGrow(q.layers, j + 1, q.k);
      ghost var layer := FillLayer(q, want, rs, dense, j, out);
      fills := fills + layer;
    }
    ghost var prefixes := FillDenseChunks(q, want, dense, out);
    log := fills + prefixes;
  }

  /** Every dense chunk's prefix. */
  method FillDenseChunks(q: Job, ghost want: seq<Bytes>, dense: set<nat>, out: array2<nat>) returns (ghost log: seq<Fill>)
    requires IsInput(q, want) && out.Length0 == |q.cs| && out.Length1 == Cut(q.layers, q.k)
    requires SparseFilled(q, out, want, dense, |q.cs|, 0, Cut(q.layers, q.k))
    modifies out
    ensures Filled(out, want, 0, |q.cs|, 0, Cut(q.layers, q.k))
    ensures log == DenseFills(dense, |q.store|)
  {
    log := [];
    for c := 0 to |q.store|
      invariant SparseFilled(q, out, want, dense, |q.cs|, 0, Cut(q.layers, q.k))
      invariant DenseFilled(q, out, want, dense, c, Cut(q.layers, q.k))
      invariant log == DenseFills(dense, c)
    {
      if c in dense {
        ChunkItems(q, c, LowerBound(q.cs, c, |q.cs|), LowerBound(q.cs, c + 1, |q.cs|));
        FillDense(q, want, c, out);
        log := log + [Prefix(c)];
      }
    }
  }

  // ---- every cell is written once ----

  ghost predicate Writes(q: Job, rs: seq<Run>, dense: set<nat>, fill: Fill, i: nat, j: nat)
    requires i < |q.cs| && j < q.k
  {
    match fill
    case Part(l, k) => l == j && k < |rs| && rs[k].chunk !in dense && rs[k].start <= i < End(rs, |q.cs|, k)
    case Prefix(c) => c in dense && LowerBound(q.cs, c, |q.cs|) <= i < LowerBound(q.cs, c + 1, |q.cs|)
  }

  /** The fill that writes layer j of row i. */
  ghost function FillOf(q: Job, rs: seq<Run>, dense: set<nat>, i: nat, j: nat): Fill
    requires i < |q.cs|
  {
    if q.cs[i] in dense then Prefix(q.cs[i]) else Part(j, RunOf(q, rs, i, |rs|))
  }

  /** The last of the first n runs that starts at or before item i. */
  ghost function RunOf(q: Job, rs: seq<Run>, i: nat, n: nat): nat
    requires n <= |rs|
  {
    if n == 0 then 0 else if rs[n - 1].start <= i then n - 1 else RunOf(q, rs, i, n - 1)
  }

  lemma {:induction false} RunOfHolds(q: Job, rs: seq<Run>, i: nat, n: nat)
    requires ValidJob(q) && rs == Runs(q.cs, q.bs, q.gap, |q.cs|) && i < |q.cs| && 0 < n <= |rs|
    requires n < |rs| ==> i < rs[n].start
    ensures var k := RunOf(q, rs, i, n); k < n && rs[k].start <= i < End(rs, |q.cs|, k)
    decreases n
  {
    RunStarts(q, rs, n - 1);
    if rs[n - 1].start > i {
      RunOfHolds(q, rs, i, n - 1);
    }
  }

  lemma {:induction false} OneRun(q: Job, rs: seq<Run>, i: nat, j: nat, k: nat)
    requires ValidJob(q) && rs == Runs(q.cs, q.bs, q.gap, |q.cs|) && j < |rs| && k < |rs|
    requires rs[j].start <= i < End(rs, |q.cs|, j) && rs[k].start <= i < End(rs, |q.cs|, k)
    ensures j == k
  {
    forall l | 0 <= l < |rs| ensures rs[l].start < End(rs, |q.cs|, l) {
      RunStarts(q, rs, l);
    }
    if j < k {
      Later(rs, |q.cs|, j, k);
    } else if k < j {
      Later(rs, |q.cs|, k, j);
    }
  }

  lemma {:induction false} Later(rs: seq<Run>, n: nat, j: nat, k: nat)
    requires j < k < |rs| && forall l :: 0 <= l < |rs| ==> rs[l].start < End(rs, n, l)
    ensures End(rs, n, j) <= rs[k].start
  {
    if j + 1 < k {
      StartsIncrease(rs, n, j + 1, k);
    }
  }

  /** Exactly one fill writes each layer of each row. */
  lemma {:induction false} CellWrittenOnce(q: Job, rs: seq<Run>, dense: set<nat>, i: nat, j: nat, fill: Fill)
    requires ValidJob(q) && rs == Runs(q.cs, q.bs, q.gap, |q.cs|) && i < |q.cs| && j < q.k
    ensures Writes(q, rs, dense, fill, i, j) <==> fill == FillOf(q, rs, dense, i, j)
  {
    var c := q.cs[i];
    ChunkItems(q, c, LowerBound(q.cs, c, |q.cs|), LowerBound(q.cs, c + 1, |q.cs|));
    RunOfHolds(q, rs, i, |rs|);
    var k := RunOf(q, rs, i, |rs|);
    RunStarts(q, rs, k);
    match fill
    case Part(l, m) =>
      if Writes(q, rs, dense, fill, i, j) {
        OneRun(q, rs, i, k, m);
      }
    case Prefix(d) =>
      ChunkItems(q, d, LowerBound(q.cs, d, |q.cs|), LowerBound(q.cs, d + 1, |q.cs|));
  }

  /** The fills that Assemble performs, in order. */
  ghost function Fills(q: Job, dense: set<nat>): seq<Fill>
    requires ValidJob(q)
  {
    SparseFills(Runs(q.cs, q.bs, q.gap, |q.cs|), dense, q.k) + DenseFills(dense, |q.store|)
  }

  /** Among them exactly one writes a given layer of a given row. */
  lemma {:induction false} OneFillWrites(q: Job, dense: set<nat>, i: nat, j: nat) returns (at: nat)
    requires ValidJob(q) && i < |q.cs| && j < q.k
    ensures at < |Fills(q, dense)|
    ensures forall a :: 0 <= a < |Fills(q, dense)| ==>
              (Writes(q, Runs(q.cs, q.bs, q.gap, |q.cs|), dense, Fills(q, dense)[a], i, j) <==> a == at)
  {
    var rs := Runs(q.cs, q.bs, q.gap, |q.cs|);
    var f := FillOf(q, rs, dense, i, j);
    CellWrittenOnce(q, rs, dense, i, j, f);
    assert f in SparseFills(rs, dense, q.k) || f in DenseFills(dense, |q.store|);
    assert f in Fills(q, dense);
    at :| 0 <= at < |Fills(q, dense)| && Fills(q, dense)[at] == f;
    forall a | 0 <= a < |Fills(q, dense)| ensures Writes(q, rs, dense, Fills(q, dense)[a], i, j) <==> a == at {
      CellWrittenOnce(q, rs, dense, i, j, Fills(q, dense)[a]);
      if Fills(q, dense)[a] == f {
        FillsDiffer(q, dense, a, at);
      }
    }
  }

  lemma {:induction false} FillsDiffer(q: Job, dense: set<nat>, a: nat, b: nat)
    requires ValidJob(q) && a < |Fills(q, dense)| && b < |Fills(q, dense)| && Fills(q, dense)[a] == Fills(q, dense)[b]
    ensures a == b
  {
    var parts, prefixes := SparseFills(Runs(q.cs, q.bs, q.gap, |q.cs|), dense, q.k), DenseFills(dense, |q.store|);
    if a < |parts| {
      assert Fills(q, dense)[a] in parts;
    } else {
      assert Fills(q, dense)[a] in prefixes;
    }
    if b < |parts| {
      assert Fills(q, dense)[b] in parts;
    } else {
      assert Fills(q, dense)[b] in prefixes;
    }
  }
}
