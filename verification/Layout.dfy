/** How a chunk and its zone map records are laid out in bytes: blocks reordered by axis,
  * units behind each other, layer after layer, and records packed for compression. */
module Layout {
  import opened MixedRadix

  type Bytes = seq<nat>

  // ---- block_rank ----

  /** Blocks of a unit along each axis. */
  datatype Shape = Shape(x: nat, y: nat, z: nat)
  {
    predicate Valid() { x > 0 && y > 0 && z > 0 }
    function Blocks(): nat { x * y * z }
    function Along(axis: nat): nat { if axis == 0 then x else if axis == 1 then y else z }
  }

  /** Axis numbers from the slowest to the fastest changing. */
  datatype Order = Order(a: nat, b: nat, c: nat)
  {
    predicate Valid() { a < 3 && b < 3 && c < 3 && a != b && a != c && b != c }
  }

  function Coord(s: Shape, i: nat, axis: nat): nat
    requires s.Valid()
  {
    if axis == 0 then First(i, s.y, s.z) else if axis == 1 then Second(i, s.y, s.z) else Third(i, s.z)
  }

  lemma {:induction false} AlongPositive(s: Shape, axis: nat)
    requires s.Valid()
    ensures s.Along(axis) > 0
  {
  }

  /** The storage position of the block with C-order index i. */
  function Rank(s: Shape, o: Order, i: nat): nat
    requires s.Valid()
  {
    Flat(Coord(s, i, o.a), Coord(s, i, o.b), Coord(s, i, o.c), s.Along(o.b), s.Along(o.c))
  }

  /** The coordinate along an axis of the block stored at position p. */
  function StoredCoord(s: Shape, o: Order, p: nat, axis: nat): nat
    requires s.Valid()
  {
    AlongPositive(s, o.b);
    AlongPositive(s, o.c);
    if axis == o.a then First(p, s.Along(o.b), s.Along(o.c))
    else if axis == o.b then Second(p, s.Along(o.b), s.Along(o.c))
    else Third(p, s.Along(o.c))
  }

  /** The C-order index of the block stored at position p. */
  function BlockAt(s: Shape, o: Order, p: nat): nat
    requires s.Valid()
  {
    Flat(StoredCoord(s, o, p, 0), StoredCoord(s, o, p, 1), StoredCoord(s, o, p, 2), s.y, s.z)
  }

  /** The number of blocks does not depend on the order of the axes. */
  lemma {:induction false} SameBlocks(s: Shape, o: Order)
    requires o.Valid()
    ensures s.Along(o.a) * s.Along(o.b) * s.Along(o.c) == s.Blocks()
  {
    Commute(s.x, s.y, s.z);
  }

  lemma {:induction false} Commute(x: nat, y: nat, z: nat)
    ensures x * y * z == x * z * y == y * x * z == y * z * x == z * x * y == z * y * x
  {
  }

  lemma {:induction false} RankIsPosition(s: Shape, o: Order, i: nat)
    requires s.Valid() && o.Valid() && i < s.Blocks()
    ensures Rank(s, o, i) < s.Blocks() && BlockAt(s, o, Rank(s, o, i)) == i
  {
    SplitFlats(i, s.x, s.y, s.z);
    SameBlocks(s, o);
    FlatBelow(Coord(s, i, o.a), Coord(s, i, o.b), Coord(s, i, o.c), s.Along(o.a), s.Along(o.b), s.Along(o.c));
    FlatSplits(Coord(s, i, o.a), Coord(s, i, o.b), Coord(s, i, o.c), s.Along(o.b), s.Along(o.c));
  }

  lemma {:induction false} BlockAtIsBlock(s: Shape, o: Order, p: nat)
    requires s.Valid() && o.Valid() && p < s.Blocks()
    ensures BlockAt(s, o, p) < s.Blocks() && Rank(s, o, BlockAt(s, o, p)) == p
  {
    SameBlocks(s, o);
    AlongPositive(s, o.b);
    AlongPositive(s, o.c);
    SplitFlats(p, s.Along(o.a), s.Along(o.b), s.Along(o.c));
    FlatBelow(StoredCoord(s, o, p, 0), StoredCoord(s, o, p, 1), StoredCoord(s, o, p, 2), s.x, s.y, s.z);
    FlatSplits(StoredCoord(s, o, p, 0), StoredCoord(s, o, p, 1), StoredCoord(s, o, p, 2), s.y, s.z);
  }

  /** Blocks are stored in the lexicographic order of their coordinates along the axes a, b
    * and c of the order: a changes slowest, c fastest. */
  lemma {:induction false} RankIsOrdered(s: Shape, o: Order, i: nat, j: nat)
    requires s.Valid() && o.Valid() && i < s.Blocks() && j < s.Blocks()
    ensures Rank(s, o, i) < Rank(s, o, j)
       <==> Precedes(Coord(s, i, o.a), Coord(s, i, o.b), Coord(s, i, o.c), Coord(s, j, o.a), Coord(s, j, o.b), Coord(s, j, o.c))
  {
    SplitFlats(i, s.x, s.y, s.z);
    SplitFlats(j, s.x, s.y, s.z);
    FlatOrdered(Coord(s, i, o.a), Coord(s, i, o.b), Coord(s, i, o.c), Coord(s, j, o.a), Coord(s, j, o.b), Coord(s, j, o.c), s.Along(o.b), s.Along(o.c));
  }

  /** block_rank: the storage positions of the first n blocks. */
  function BlockRank(s: Shape, o: Order, n: nat): (rank: seq<nat>)
    requires s.Valid() && n <= s.Blocks()
    ensures |rank| == n && forall i :: 0 <= i < n ==> rank[i] == Rank(s, o, i)
  {
    if n == 0 then [] else BlockRank(s, o, n - 1) + [Rank(s, o, n - 1)]
  }

  /** The blocks stored at the first n positions. */
  function BlocksAt(s: Shape, o: Order, n: nat): (block: seq<nat>)
    requires s.Valid() && n <= s.Blocks()
    ensures |block| == n && forall p :: 0 <= p < n ==> block[p] == BlockAt(s, o, p)
  {
    if n == 0 then [] else BlocksAt(s, o, n - 1) + [BlockAt(s, o, n - 1)]
  }

  /** rank sends blocks to positions and block sends positions back, one to one. */
  ghost predicate Inverse(rank: seq<nat>, block: seq<nat>) {
    && |rank| == |block|
    && (forall i :: 0 <= i < |rank| ==> rank[i] < |block| && block[rank[i]] == i)
    && (forall p :: 0 <= p < |block| ==> block[p] < |rank| && rank[block[p]] == p)
  }

  /** block_rank is a permutation, for every shape and axis order. */
  lemma {:induction false} BlockRankIsPermutation(s: Shape, o: Order)
    requires s.Valid() && o.Valid()
    ensures Inverse(BlockRank(s, o, s.Blocks()), BlocksAt(s, o, s.Blocks()))
  {
    forall i | 0 <= i < s.Blocks() ensures Rank(s, o, i) < s.Blocks() && BlockAt(s, o, Rank(s, o, i)) == i {
      RankIsPosition(s, o, i);
    }
    forall p | 0 <= p < s.Blocks() ensures BlockAt(s, o, p) < s.Blocks() && Rank(s, o, BlockAt(s, o, p)) == p {
      BlockAtIsBlock(s, o, p);
    }
  }

  /** The default order stores blocks in C order. */
  lemma {:induction false} DefaultOrderKeeps(s: Shape, o: Order)
    requires s.Valid() && o == Order(0, 1, 2)
    ensures forall p :: 0 <= p < s.Blocks() ==> BlocksAt(s, o, s.Blocks())[p] == p
  {
    forall p | 0 <= p < s.Blocks() ensures BlockAt(s, o, p) == p {
      SplitFlats(p, s.x, s.y, s.z);
    }
  }

  /** The first n storage positions filled with the entries of r that belong there. */
  function Ranked<T>(block: seq<nat>, r: seq<T>, n: nat): (ranked: seq<T>)
    requires n <= |block| == |r| && forall p :: 0 <= p < |block| ==> block[p] < |r|
    ensures |ranked| == n && forall p :: 0 <= p < n ==> ranked[p] == r[block[p]]
  {
    if n == 0 then [] else Ranked(block, r, n - 1) + [r[block[n - 1]]]
  }

  /** ranked[rank] for the first n blocks. */
  function Unranked<T>(rank: seq<nat>, ranked: seq<T>, n: nat): (r: seq<T>)
    requires n <= |rank| == |ranked| && forall i :: 0 <= i < |rank| ==> rank[i] < |ranked|
    ensures |r| == n && forall i :: 0 <= i < n ==> r[i] == ranked[rank[i]]
  {
    if n == 0 then [] else Unranked(rank, ranked, n - 1) + [ranked[rank[n - 1]]]
  }

  /** Reordering and reading back in rank order is the identity. */
  lemma {:induction false} UnrankedRanked<T>(rank: seq<nat>, block: seq<nat>, r: seq<T>)
    requires Inverse(rank, block) && |r| == |rank|
    ensures Unranked(rank, Ranked(block, r, |r|), |r|) == r
  {
  }

  /** ranked[rank] = r, in place. */
  method Scatter<T>(rank: seq<nat>, ghost block: seq<nat>, r: seq<T>, ranked: array<T>)
    requires Inverse(rank, block) && |r| == ranked.Length == |rank|
    modifies ranked
    ensures ranked[..] == Ranked(block, r, |r|)
  {
    for i := 0 to |r|
      invariant forall p :: 0 <= p < ranked.Length && block[p] < i ==> ranked[p] == r[block[p]]
    {
      ranked[rank[i]] := r[i];
    }
  }

  // ---- rows of equal length behind each other ----

  /** The first n rows joined. */
  function Joined(rows: seq<Bytes>, n: nat): Bytes
    requires n <= |rows|
  {
    if n == 0 then [] else Joined(rows, n - 1) + rows[n - 1]
  }

  ghost predicate Wide(rows: seq<Bytes>, w: nat) {
    forall i :: 0 <= i < |rows| ==> |rows[i]| == w
  }

  lemma {:induction false} JoinedLength(rows: seq<Bytes>, w: nat, n: nat)
    requires Wide(rows, w) && n <= |rows|
    ensures |Joined(rows, n)| == Stride(n, w)
  {
    if n > 0 { JoinedLength(rows, w, n - 1); }
  }

  lemma {:induction false} JoinedPrefix(rows: seq<Bytes>, m: nat, n: nat)
    requires m <= n <= |rows|
    ensures Joined(rows, m) <= Joined(rows, n)
    decreases n
  {
    if m < n { JoinedPrefix(rows, m, n - 1); }
  }

  /** Row i of the joined rows, as reshape(n, w) finds it. */
  lemma {:induction false} JoinedRow(rows: seq<Bytes>, w: nat, i: nat, at: nat)
    requires Wide(rows, w) && i < |rows| && at == Stride(i, w)
    ensures at + w <= |Joined(rows, |rows|)| && Joined(rows, |rows|)[at..at + w] == rows[i]
  {
    JoinedLength(rows, w, i);
    JoinedPrefix(rows, i + 1, |rows|);
    SliceOfSum(Joined(rows, i), rows[i], Joined(rows, |rows|), 0, w);
    assert rows[i][0..w] == rows[i];
  }

  lemma {:induction false} SliceOfSum(a: Bytes, b: Bytes, c: Bytes, at: nat, n: nat)
    requires a + b <= c && at + n <= |b|
    ensures |a| + at + n <= |c| && c[|a| + at..|a| + at + n] == b[at..at + n]
  {
  }

  // ---- layers ----

  /** Bytes of the first j layers of a block. */
  function Cut(layers: seq<nat>, j: nat): nat
    requires j <= |layers|
  {
    if j == 0 then 0 else Cut(layers, j - 1) + layers[j - 1]
  }

  lemma {:induction false} CutsGrow(layers: seq<nat>, i: nat, j: nat)
    requires i <= j <= |layers|
    ensures Cut(layers, i) <= Cut(layers, j)
    decreases j
  {
    if i < j { CutsGrow(layers, i, j - 1); }
  }

  /** Columns a..b of the first n rows. */
  function Columns(rows: seq<Bytes>, a: nat, b: nat, n: nat): (r: seq<Bytes>)
    requires a <= b && n <= |rows| && forall i :: 0 <= i < |rows| ==> b <= |rows[i]|
    ensures |r| == n && forall i :: 0 <= i < n ==> r[i] == rows[i][a..b]
  {
    if n == 0 then [] else Columns(rows, a, b, n - 1) + [rows[n - 1][a..b]]
  }

  /** Every row holds all layers of its block. */
  ghost predicate Whole(rows: seq<Bytes>, layers: seq<nat>) {
    Wide(rows, Cut(layers, |layers|))
  }

  /** Layer j of every block, block after block. */
  function LayerPart(rows: seq<Bytes>, layers: seq<nat>, j: nat): Bytes
    requires Whole(rows, layers) && j < |layers|
  {
    CutsGrow(layers, j + 1, |layers|);
    Joined(Columns(rows, Cut(layers, j), Cut(layers, j + 1), |rows|), |rows|)
  }

  /** The first k layers of a chunk as stored: layer after layer, each block after block. */
  function Stored(rows: seq<Bytes>, layers: seq<nat>, k: nat): Bytes
    requires Whole(rows, layers) && k <= |layers|
    decreases k
  {
    if k == 0 then [] else Stored(rows, layers, k - 1) + LayerPart(rows, layers, k - 1)
  }

  lemma {:induction false} LayerRow(rows: seq<Bytes>, layers: seq<nat>, j: nat, i: nat, at: nat)
    requires Whole(rows, layers) && j < |layers| && i < |rows| && at == Stride(i, layers[j])
    ensures Cut(layers, j) <= Cut(layers, j + 1) <= |rows[i]|
    ensures at + layers[j] <= |LayerPart(rows, layers, j)|
    ensures LayerPart(rows, layers, j)[at..at + layers[j]] == rows[i][Cut(layers, j)..Cut(layers, j + 1)]
  {
    CutsGrow(layers, j + 1, |layers|);
    JoinedRow(Columns(rows, Cut(layers, j), Cut(layers, j + 1), |rows|), layers[j], i, at);
  }

  /** Where layer j of a chunk of n blocks starts. */
  function LayerStart(n: nat, layers: seq<nat>, j: nat): nat
    requires j <= |layers|
    decreases j
  {
    if j == 0 then 0 else LayerStart(n, layers, j - 1) + Stride(n, layers[j - 1])
  }

  /** Which is the number of blocks times the bytes of the layers before it. */
  lemma {:induction false} LayerStartIs(n: nat, layers: seq<nat>, j: nat)
    requires j <= |layers|
    ensures LayerStart(n, layers, j) == Cut(layers, j) * n
    decreases j
  {
    if j > 0 {
      LayerStartIs(n, layers, j - 1);
      StrideIs(n, layers[j - 1]);
      Spread(Cut(layers, j - 1), layers[j - 1], n);
    }
  }

  lemma {:induction false} LayersGrow(n: nat, layers: seq<nat>, i: nat, j: nat)
    requires i <= j <= |layers|
    ensures LayerStart(n, layers, i) <= LayerStart(n, layers, j)
    decreases j
  {
    if i < j { LayersGrow(n, layers, i, j - 1); }
  }

  lemma {:induction false} StoredLength(rows: seq<Bytes>, layers: seq<nat>, k: nat)
    requires Whole(rows, layers) && k <= |layers|
    ensures |Stored(rows, layers, k)| == LayerStart(|rows|, layers, k)
    decreases k
  {
    if k > 0 {
      StoredLength(rows, layers, k - 1);
      CutsGrow(layers, k, |layers|);
      JoinedLength(Columns(rows, Cut(layers, k - 1), Cut(layers, k), |rows|), layers[k - 1], |rows|);
    }
  }

  lemma {:induction false} StoredPrefix(rows: seq<Bytes>, layers: seq<nat>, j: nat, k: nat)
    requires Whole(rows, layers) && j <= k <= |layers|
    ensures Stored(rows, layers, j) <= Stored(rows, layers, k)
    decreases k
  {
    if j < k { StoredPrefix(rows, layers, j, k - 1); }
  }

  /** Where layer j of the block stored at position i starts. */
  function LayerAt(n: nat, layers: seq<nat>, j: nat, i: nat): nat
    requires j < |layers|
  {
    LayerStart(n, layers, j) + Stride(i, layers[j])
  }

  /** Layer j of a block is layers[j] bytes behind the blocks before it in that layer. */
  lemma {:induction false} StoredAt(rows: seq<Bytes>, layers: seq<nat>, k: nat, j: nat, i: nat, at: nat)
    requires Whole(rows, layers) && j < k <= |layers| && i < |rows| && at == LayerAt(|rows|, layers, j, i)
    ensures Cut(layers, j) <= Cut(layers, j + 1) <= |rows[i]| && at + layers[j] <= |Stored(rows, layers, k)|
    ensures Stored(rows, layers, k)[at..at + layers[j]] == rows[i][Cut(layers, j)..Cut(layers, j + 1)]
  {
    StoredLength(rows, layers, j);
    StoredPrefix(rows, layers, j + 1, k);
    FoundInLayer(rows, layers, j, i, Stored(rows, layers, j), Stored(rows, layers, k), Stride(i, layers[j]));
  }

  lemma {:induction false} FoundInLayer(rows: seq<Bytes>, layers: seq<nat>, j: nat, i: nat, front: Bytes, all: Bytes, off: nat)
    requires Whole(rows, layers) && j < |layers| && i < |rows| && off == Stride(i, layers[j])
    requires front + LayerPart(rows, layers, j) <= all
    ensures Cut(layers, j) <= Cut(layers, j + 1) <= |rows[i]| && |front| + off + layers[j] <= |all|
    ensures all[|front| + off..|front| + off + layers[j]] == rows[i][Cut(layers, j)..Cut(layers, j + 1)]
  {
    LayerRow(rows, layers, j, i, off);
    SliceOfSum(front, LayerPart(rows, layers, j), all, off, layers[j]);
  }

  // ---- pack and unpack ----

  /** The first n units' blocks in storage order. */
  function ChunkRows(block: seq<nat>, units: seq<seq<Bytes>>, n: nat): seq<Bytes>
    requires n <= |units| && Fits(block, units)
  {
    if n == 0 then [] else ChunkRows(block, units, n - 1) + Ranked(block, units[n - 1], |block|)
  }

  predicate Fits(block: seq<nat>, units: seq<seq<Bytes>>) {
    && (forall u :: 0 <= u < |units| ==> |units[u]| == |block|)
    && (forall p :: 0 <= p < |block| ==> block[p] < |block|)
  }

  /** Every unit's encoded blocks, whole. */
  ghost predicate Encoded(rank: seq<nat>, block: seq<nat>, units: seq<seq<Bytes>>, layers: seq<nat>) {
    && Inverse(rank, block) && Fits(block, units)
    && forall u :: 0 <= u < |units| ==> Whole(units[u], layers)
  }

  lemma {:induction false} ChunkRowsWhole(rank: seq<nat>, block: seq<nat>, units: seq<seq<Bytes>>, layers: seq<nat>, n: nat)
    requires Encoded(rank, block, units, layers) && n <= |units|
    ensures |ChunkRows(block, units, n)| == Stride(n, |block|) && Whole(ChunkRows(block, units, n), layers)
  {
    if n > 0 {
      ChunkRowsWhole(rank, block, units, layers, n - 1);
      assert Whole(units[n - 1], layers);
    }
  }

  method PackUnit(rank: seq<nat>, ghost block: seq<nat>, unit: seq<Bytes>) returns (rows: seq<Bytes>)
    requires Inverse(rank, block) && |unit| == |rank|
    ensures rows == Ranked(block, unit, |block|)
  {
    var ranked := new Bytes[|rank|](_ => []);
    Scatter(rank, block, unit, ranked);
    rows := ranked[..];
  }

  method PackUnits(rank: seq<nat>, ghost block: seq<nat>, units: seq<seq<Bytes>>) returns (rows: seq<Bytes>)
    requires Inverse(rank, block) && Fits(block, units)
    ensures rows == ChunkRows(block, units, |units|)
  {
    rows := [];
    for u := 0 to |units|
      invariant rows == ChunkRows(block, units, u)
    {
      var ranked := PackUnit(rank, block, units[u]);
      rows := rows + ranked;
    }
  }

  /** pack: the stored bytes of a chunk, from each unit's encoded blocks in C order. */
  method Pack(rank: seq<nat>, ghost block: seq<nat>, units: seq<seq<Bytes>>, layers: seq<nat>) returns (buf: Bytes)
    requires Encoded(rank, block, units, layers)
    ensures Whole(ChunkRows(block, units, |units|), layers)
    ensures buf == Stored(ChunkRows(block, units, |units|), layers, |layers|)
  {
    var rows := PackUnits(rank, block, units);
    ChunkRowsWhole(rank, block, units, layers, |units|);
    buf := PackLayers(rows, layers);
  }

  method PackLayers(rows: seq<Bytes>, layers: seq<nat>) returns (buf: Bytes)
    requires Whole(rows, layers)
    ensures buf == Stored(rows, layers, |layers|)
  {
    buf := [];
    for j := 0 to |layers|
      invariant buf == Stored(rows, layers, j)
    {
      buf := buf + LayerPart(rows, layers, j);
    }
  }

  /** The first k layers of the block stored at position i of n. */
  function RowBytes(buf: Bytes, layers: seq<nat>, n: nat, i: nat, k: nat): Bytes
    requires k <= |layers| && i < n && |buf| == LayerStart(n, layers, |layers|)
    decreases k
  {
    if k == 0 then []
    else
      LayerFits(layers, n, k - 1, i);
      RowBytes(buf, layers, n, i, k - 1) + buf[LayerAt(n, layers, k - 1, i)..LayerAt(n, layers, k - 1, i) + layers[k - 1]]
  }

  lemma {:induction false} LayerFits(layers: seq<nat>, n: nat, j: nat, i: nat)
    requires j < |layers| && i < n
    ensures LayerAt(n, layers, j, i) + layers[j] <= LayerStart(n, layers, |layers|)
  {
    LayersGrow(n, layers, j + 1, |layers|);
    StrideFits(i, n, layers[j]);
  }

  lemma {:induction false} RowBytesOfStored(rows: seq<Bytes>, layers: seq<nat>, buf: Bytes, i: nat, k: nat)
    requires Whole(rows, layers) && i < |rows| && k <= |layers| && buf == Stored(rows, layers, |layers|)
    ensures |buf| == LayerStart(|rows|, layers, |layers|) && Cut(layers, k) <= |rows[i]|
    ensures RowBytes(buf, layers, |rows|, i, k) == rows[i][..Cut(layers, k)]
    decreases k
  {
    StoredLength(rows, layers, |layers|);
    if k > 0 {
      RowBytesOfStored(rows, layers, buf, i, k - 1);
      StoredAt(rows, layers, |layers|, k - 1, i, LayerAt(|rows|, layers, k - 1, i));
      TwoSlices(rows[i], Cut(layers, k - 1), Cut(layers, k));
    }
  }

  lemma {:induction false} TwoSlices(r: Bytes, a: nat, b: nat)
    requires a <= b <= |r|
    ensures r[..a] + r[a..b] == r[..b]
  {
  }

  /** Rows first, first + 1, ... of a chunk. */
  function UnitRows(buf: Bytes, layers: seq<nat>, n: nat, first: nat, m: nat): (r: seq<Bytes>)
    requires first + m <= n && |buf| == LayerStart(n, layers, |layers|)
    ensures |r| == m && forall p :: 0 <= p < m ==> r[p] == RowBytes(buf, layers, n, first + p, |layers|)
  {
    if m == 0 then [] else UnitRows(buf, layers, n, first, m - 1) + [RowBytes(buf, layers, n, first + m - 1, |layers|)]
  }

  /** The blocks of the unit whose rows start at row at, in C order, ready for the decoder. */
  function UnitAt(rank: seq<nat>, buf: Bytes, layers: seq<nat>, total: nat, at: nat): seq<Bytes>
    requires at + |rank| <= total && |buf| == LayerStart(total, layers, |layers|)
    requires forall i :: 0 <= i < |rank| ==> rank[i] < |rank|
  {
    Unranked(rank, UnitRows(buf, layers, total, at, |rank|), |rank|)
  }

  /** The first k units of a chunk. */
  function UnitsTo(rank: seq<nat>, buf: Bytes, layers: seq<nat>, total: nat, k: nat): (units: seq<seq<Bytes>>)
    requires Stride(k, |rank|) <= total && |buf| == LayerStart(total, layers, |layers|)
    requires forall i :: 0 <= i < |rank| ==> rank[i] < |rank|
    ensures |units| == k
  {
    if k == 0 then [] else UnitsTo(rank, buf, layers, total, k - 1) + [UnitAt(rank, buf, layers, total, Stride(k - 1, |rank|))]
  }

  /** unpack up to the decoder: every unit's encoded blocks in C order. */
  method Unpack(rank: seq<nat>, buf: Bytes, layers: seq<nat>, count: nat, total: nat) returns (units: seq<seq<Bytes>>)
    requires total == Stride(count, |rank|) && |buf| == LayerStart(total, layers, |layers|)
    requires forall i :: 0 <= i < |rank| ==> rank[i] < |rank|
    ensures units == UnitsTo(rank, buf, layers, total, count)
  {
    units := [];
    var at: nat := 0;
    for u := 0 to count
      invariant at == Stride(u, |rank|) && at <= total
      invariant units == UnitsTo(rank, buf, layers, total, u)
    {
      NextAt(u, count, |rank|);
      units := units + [UnitAt(rank, buf, layers, total, at)];
      at := at + |rank|;
    }
  }

  lemma {:induction false} NextAt(u: nat, count: nat, w: nat)
    requires u < count
    ensures Stride(u, w) + w == Stride(u + 1, w) <= Stride(count, w)
  {
    StrideFits(u, count, w);
  }

  lemma {:induction false} ChunkRowsPrefix(block: seq<nat>, units: seq<seq<Bytes>>, m: nat, n: nat)
    requires m <= n <= |units| && Fits(block, units)
    ensures ChunkRows(block, units, m) <= ChunkRows(block, units, n)
    decreases n
  {
    if m < n {
      ChunkRowsPrefix(block, units, m, n - 1);
      PrefixMore(ChunkRows(block, units, m), ChunkRows(block, units, n - 1), Ranked(block, units[n - 1], |block|));
    }
  }

  lemma {:induction false} PrefixMore(a: seq<Bytes>, b: seq<Bytes>, c: seq<Bytes>)
    requires a <= b
    ensures a <= b + c
  {
  }

  lemma {:induction false} ChunkInPlace(block: seq<nat>, units: seq<seq<Bytes>>, u: nat)
    requires u < |units| && Fits(block, units)
    ensures ChunkRows(block, units, u) + Ranked(block, units[u], |block|) <= ChunkRows(block, units, |units|)
  {
    ChunkRowsPrefix(block, units, u + 1, |units|);
  }

  lemma {:induction false} ChunkRowAt(rank: seq<nat>, block: seq<nat>, units: seq<seq<Bytes>>, layers: seq<nat>, rows: seq<Bytes>, u: nat, p: nat)
    requires Encoded(rank, block, units, layers) && u < |units| && p < |block|
    requires rows == ChunkRows(block, units, |units|)
    ensures Stride(u, |block|) + p < |rows| && rows[Stride(u, |block|) + p] == units[u][block[p]]
  {
    ChunkRowsWhole(rank, block, units, layers, u);
    ChunkInPlace(block, units, u);
    PrefixAt(ChunkRows(block, units, u), Ranked(block, units[u], |block|), rows, p);
  }

  lemma {:induction false} PrefixAt(a: seq<Bytes>, b: seq<Bytes>, c: seq<Bytes>, p: nat)
    requires a + b <= c && p < |b|
    ensures |a| + p < |c| && c[|a| + p] == b[p]
  {
    assert c[|a| + p] == (a + b)[|a| + p];
  }

  /** Reading all layers of a block back gives its row. */
  lemma {:induction false} RowOfStored(rows: seq<Bytes>, layers: seq<nat>, buf: Bytes, i: nat)
    requires Whole(rows, layers) && i < |rows| && buf == Stored(rows, layers, |layers|)
    ensures |buf| == LayerStart(|rows|, layers, |layers|) && RowBytes(buf, layers, |rows|, i, |layers|) == rows[i]
  {
    RowBytesOfStored(rows, layers, buf, i, |layers|);
    WholeRow(rows, layers, i);
  }

  /** A chunk's stored bytes and the rows they hold. */
  ghost predicate Packed(rank: seq<nat>, block: seq<nat>, units: seq<seq<Bytes>>, layers: seq<nat>, rows: seq<Bytes>, buf: Bytes) {
    && Encoded(rank, block, units, layers) && rows == ChunkRows(block, units, |units|) && Whole(rows, layers)
    && buf == Stored(rows, layers, |layers|)
  }

  lemma {:induction false} RowRoundTrip(rank: seq<nat>, block: seq<nat>, units: seq<seq<Bytes>>, layers: seq<nat>, rows: seq<Bytes>, buf: Bytes,
                                        u: nat, p: nat, i: nat)
    requires Packed(rank, block, units, layers, rows, buf) && u < |units| && p < |block| && i == Stride(u, |block|) + p
    ensures i < |rows| && |buf| == LayerStart(|rows|, layers, |layers|)
    ensures RowBytes(buf, layers, |rows|, i, |layers|) == units[u][block[p]]
  {
    ChunkRowAt(rank, block, units, layers, rows, u, p);
    RowOfStored(rows, layers, buf, i);
    assert rows[i] == units[u][block[p]];
  }

  /** The decoder of every unit gets exactly the bytes its encoder returned. */
  lemma {:induction false} UnitRoundTrip(rank: seq<nat>, block: seq<nat>, units: seq<seq<Bytes>>, layers: seq<nat>, rows: seq<Bytes>, buf: Bytes,
                                         u: nat, at: nat)
    requires Packed(rank, block, units, layers, rows, buf) && u < |units| && at == Stride(u, |block|)
    ensures at + |rank| <= |rows| && |buf| == LayerStart(|rows|, layers, |layers|)
    ensures UnitAt(rank, buf, layers, |rows|, at) == units[u]
  {
    UnitFits(rank, block, units, layers, rows, buf, u, at);
    var got := UnitRows(buf, layers, |rows|, at, |rank|);
    forall p | 0 <= p < |rank| ensures got[p] == units[u][block[p]] {
      RowRoundTrip(rank, block, units, layers, rows, buf, u, p, at + p);
    }
    UndoRank(rank, block, units[u], got);
  }

  lemma {:induction false} UnitFits(rank: seq<nat>, block: seq<nat>, units: seq<seq<Bytes>>, layers: seq<nat>, rows: seq<Bytes>, buf: Bytes,
                                    u: nat, at: nat)
    requires Packed(rank, block, units, layers, rows, buf) && u < |units| && at == Stride(u, |block|)
    ensures at + |rank| <= |rows| && |buf| == LayerStart(|rows|, layers, |layers|) && |units[u]| == |block| == |rank|
  {
    StoredLength(rows, layers, |layers|);
    ChunkRowsWhole(rank, block, units, layers, |units|);
    StrideFits(u, |units|, |block|);
  }

  lemma {:induction false} UndoRank(rank: seq<nat>, block: seq<nat>, unit: seq<Bytes>, got: seq<Bytes>)
    requires Inverse(rank, block) && |unit| == |rank| == |got|
    requires forall p :: 0 <= p < |rank| ==> got[p] == unit[block[p]]
    ensures Unranked(rank, got, |rank|) == unit
  {
    assert got == Ranked(block, unit, |unit|);
    UnrankedRanked(rank, block, unit);
  }

  lemma {:induction false} TakeMore(units: seq<seq<Bytes>>, k: nat)
    requires 0 < k <= |units|
    ensures units[..k] == units[..k - 1] + [units[k - 1]]
  {
  }

  lemma {:induction false} WholeRow(rows: seq<Bytes>, layers: seq<nat>, i: nat)
    requires Whole(rows, layers) && i < |rows|
    ensures |rows[i]| == Cut(layers, |layers|) && rows[i][..Cut(layers, |layers|)] == rows[i]
  {
  }

  /** unpack finds the unit at place u. */
  ghost predicate Finds(rank: seq<nat>, buf: Bytes, layers: seq<nat>, total: nat, u: nat, unit: seq<Bytes>)
    requires |buf| == LayerStart(total, layers, |layers|) && forall i :: 0 <= i < |rank| ==> rank[i] < |rank|
  {
    Stride(u + 1, |rank|) <= total && UnitAt(rank, buf, layers, total, Stride(u, |rank|)) == unit
  }

  lemma {:induction false} FindsAll(rank: seq<nat>, buf: Bytes, layers: seq<nat>, total: nat, units: seq<seq<Bytes>>, k: nat)
    requires |buf| == LayerStart(total, layers, |layers|) && (forall i :: 0 <= i < |rank| ==> rank[i] < |rank|) && k <= |units|
    requires forall u :: 0 <= u < |units| ==> Finds(rank, buf, layers, total, u, units[u])
    ensures Stride(k, |rank|) <= total && UnitsTo(rank, buf, layers, total, k) == units[..k]
  {
    if k > 0 {
      FindsAll(rank, buf, layers, total, units, k - 1);
      assert Finds(rank, buf, layers, total, k - 1, units[k - 1]);
      TakeMore(units, k);
    }
  }

  lemma {:induction false} FindsUnit(rank: seq<nat>, block: seq<nat>, units: seq<seq<Bytes>>, layers: seq<nat>, rows: seq<Bytes>, buf: Bytes, u: nat)
    requires Packed(rank, block, units, layers, rows, buf) && u < |units|
    ensures |buf| == LayerStart(|rows|, layers, |layers|) && Finds(rank, buf, layers, |rows|, u, units[u])
  {
    UnitRoundTrip(rank, block, units, layers, rows, buf, u, Stride(u, |rank|));
  }

  /** unpack inverts pack for every block order, set of layers and number of units. */
  lemma {:induction false} UnpackUndoesPack(rank: seq<nat>, block: seq<nat>, units: seq<seq<Bytes>>, layers: seq<nat>, rows: seq<Bytes>, buf: Bytes, k: nat)
    requires Packed(rank, block, units, layers, rows, buf) && k <= |units|
    ensures Stride(k, |rank|) <= |rows| && |buf| == LayerStart(|rows|, layers, |layers|)
    ensures UnitsTo(rank, buf, layers, |rows|, k) == units[..k]
  {
    StoredLength(rows, layers, |layers|);
    forall u | 0 <= u < |units| ensures Finds(rank, buf, layers, |rows|, u, units[u]) {
      FindsUnit(rank, block, units, layers, rows, buf, u);
    }
    FindsAll(rank, buf, layers, |rows|, units, k);
  }

  lemma {:induction false} AllColumns(rows: seq<Bytes>, w: nat)
    requires Wide(rows, w)
    ensures Columns(rows, 0, w, |rows|) == rows
  {
    var cols := Columns(rows, 0, w, |rows|);
    forall i | 0 <= i < |rows| ensures cols[i] == rows[i] {
    }
  }

  lemma {:induction false} OneLayer(rows: seq<Bytes>, layers: seq<nat>)
    requires |layers| == 1 && Wide(rows, layers[0])
    ensures Whole(rows, layers) && Stored(rows, layers, |layers|) == Joined(rows, |rows|)
  {
    assert Cut(layers, 1) == layers[0] && Cut(layers, 0) == 0;
    AllColumns(rows, layers[0]);
    assert Stored(rows, layers, 1) == Stored(rows, layers, 0) + LayerPart(rows, layers, 0);
  }

  /** The shortcut for one unit with one layer in C order stores the same bytes: the
    * encoder's output as it is. */
  lemma {:induction false} PlainIsPack(rank: seq<nat>, block: seq<nat>, units: seq<seq<Bytes>>, layers: seq<nat>)
    requires |layers| == 1 && |units| == 1 && Encoded(rank, block, units, layers)
    requires forall p :: 0 <= p < |block| ==> block[p] == p
    ensures ChunkRows(block, units, |units|) == units[0] && Whole(units[0], layers)
    ensures Stored(units[0], layers, |layers|) == Joined(units[0], |units[0]|)
  {
    assert ChunkRows(block, units, 1) == ChunkRows(block, units, 0) + Ranked(block, units[0], |block|);
    assert Ranked(block, units[0], |block|) == units[0];
    assert Cut(layers, 1) == layers[0];
    OneLayer(units[0], layers);
  }
}
