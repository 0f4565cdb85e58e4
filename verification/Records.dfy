/** Zone map records as bytes: the order of their entries, 4-bit error codes, and the
  * rearrangement that makes them compress well. */
module Records {
  import opened MixedRadix
  import opened Layout

  // ---- 4-bit codes ----

  /** The code at position i, or the padding behind an odd number of them. */
  function CodeAt(q: seq<nat>, i: nat): nat {
    if i < |q| then q[i] else 0
  }

  /** pack_codes: two codes per byte, the first one in the low nibble. */
  function PackCodes(q: seq<nat>, k: nat): (r: Bytes)
    ensures |r| == k && forall i :: 0 <= i < k ==> r[i] == CodeAt(q, 2 * i) + 16 * CodeAt(q, 2 * i + 1)
  {
    if k == 0 then [] else PackCodes(q, k - 1) + [CodeAt(q, 2 * k - 2) + 16 * CodeAt(q, 2 * k - 1)]
  }

  /** (codes[bid / 2] >> (4 * (bid % 2))) & 15 */
  function Nibble(codes: Bytes, bid: nat): nat
    requires bid / 2 < |codes|
  {
    if bid % 2 == 0 then codes[bid / 2] % 16 else codes[bid / 2] / 16 % 16
  }

  /** unpack_codes: the first n codes. */
  function UnpackCodes(codes: Bytes, n: nat): (q: seq<nat>)
    requires n <= 2 * |codes|
    ensures |q| == n && forall i :: 0 <= i < n ==> q[i] == Nibble(codes, i)
  {
    if n == 0 then [] else UnpackCodes(codes, n - 1) + [Nibble(codes, n - 1)]
  }

  /** What the planner reads for a block is the code the writer packed for it. */
  lemma {:induction false} NibbleOfPacked(q: seq<nat>, i: nat)
    requires i < |q| && forall k :: 0 <= k < |q| ==> q[k] < 16
    ensures i / 2 < (|q| + 1) / 2 && Nibble(PackCodes(q, (|q| + 1) / 2), i) == q[i]
  {
    var h := i / 2;
    assert PackCodes(q, (|q| + 1) / 2)[h] == CodeAt(q, 2 * h) + 16 * CodeAt(q, 2 * h + 1);
    if i % 2 == 0 {
      assert i == 2 * h;
      TwoNibbles(q[i], CodeAt(q, 2 * h + 1));
    } else {
      assert i == 2 * h + 1;
      TwoNibbles(q[i - 1], q[i]);
    }
  }

  lemma {:induction false} TwoNibbles(a: nat, b: nat)
    requires a < 16 && b < 16
    ensures (a + 16 * b) % 16 == a && (a + 16 * b) / 16 % 16 == b
  {
  }

  lemma {:induction false} CodesRoundTrip(q: seq<nat>)
    requires forall k :: 0 <= k < |q| ==> q[k] < 16
    ensures UnpackCodes(PackCodes(q, (|q| + 1) / 2), |q|) == q
  {
    var back := UnpackCodes(PackCodes(q, (|q| + 1) / 2), |q|);
    forall i | 0 <= i < |q| ensures back[i] == q[i] {
      NibbleOfPacked(q, i);
    }
  }

  // ---- entries in storage order ----

  /** Entry p of a unit's record, offsets and error code alike, is about the block stored
    * at position p of the unit. */
  lemma {:induction false} RecordMatchesStorage<T>(rank: seq<nat>, block: seq<nat>, units: seq<seq<Bytes>>, layers: seq<nat>, rows: seq<Bytes>,
                                                   u: nat, p: nat, offs: seq<T>, codes: seq<nat>)
    requires Encoded(rank, block, units, layers) && rows == ChunkRows(block, units, |units|)
    requires u < |units| && p < |block| && |offs| == |codes| == |block|
    requires forall k :: 0 <= k < |codes| ==> codes[k] < 16
    ensures Stride(u, |block|) + p < |rows| && rows[Stride(u, |block|) + p] == units[u][block[p]]
    ensures Ranked(block, offs, |block|)[p] == offs[block[p]]
    ensures p / 2 < (|block| + 1) / 2
    ensures Nibble(PackCodes(Ranked(block, codes, |block|), (|block| + 1) / 2), p) == codes[block[p]]
  {
    ChunkRowAt(rank, block, units, layers, rows, u, p);
    NibbleOfPacked(Ranked(block, codes, |block|), p);
  }

  // ---- pack_meta ----

  /** lead bytes of bounds, a minimum and a maximum per block, then tail bytes. */
  datatype Format = Format(lead: nat, blocks: nat, tail: nat)
  {
    function Size(): nat { lead + 2 * blocks + tail }
  }

  ghost predicate IsRecord(f: Format, rec: Bytes) {
    |rec| == f.Size() && forall i :: 0 <= i < |rec| ==> rec[i] < 256
  }

  ghost predicate AreRecords(f: Format, recs: seq<Bytes>) {
    Sized(f, recs) && forall i :: 0 <= i < |recs| ==> IsRecord(f, recs[i])
  }

  function Minimum(f: Format, rec: Bytes, b: nat): nat
    requires |rec| == f.Size() && b < f.blocks
  {
    rec[f.lead + 2 * b]
  }

  function Maximum(f: Format, rec: Bytes, b: nat): nat
    requires |rec| == f.Size() && b < f.blocks
  {
    rec[f.lead + 2 * b + 1]
  }

  /** uint8 arithmetic */
  function Wrap(x: int): nat {
    x % 256
  }

  /** Minima as differences from the previous block, modulo 256. */
  function Deltas(f: Format, rec: Bytes, n: nat): (d: Bytes)
    requires |rec| == f.Size() && n <= f.blocks
    ensures |d| == n
  {
    if n == 0 then []
    else Deltas(f, rec, n - 1) + [if n == 1 then Minimum(f, rec, 0) else Wrap(Minimum(f, rec, n - 1) - Minimum(f, rec, n - 2))]
  }

  function Widths(f: Format, rec: Bytes, n: nat): (w: Bytes)
    requires |rec| == f.Size() && n <= f.blocks
    ensures |w| == n
  {
    if n == 0 then [] else Widths(f, rec, n - 1) + [Wrap(Maximum(f, rec, n - 1) - Minimum(f, rec, n - 1))]
  }

  ghost predicate Sized(f: Format, recs: seq<Bytes>) {
    forall i :: 0 <= i < |recs| ==> |recs[i]| == f.Size()
  }

  /** The parts of one record. */
  function Head(f: Format, rec: Bytes): Bytes
    requires |rec| == f.Size()
  {
    rec[..f.lead]
  }

  function Tail(f: Format, rec: Bytes): Bytes
    requires |rec| == f.Size()
  {
    rec[f.lead + 2 * f.blocks..]
  }

  /** The four parts of every record, and each part of all records behind each other. */
  datatype Parts = Parts(heads: seq<Bytes>, deltas: seq<Bytes>, widths: seq<Bytes>, tails: seq<Bytes>)

  function Split(f: Format, recs: seq<Bytes>, n: nat): (p: Parts)
    requires n <= |recs| && Sized(f, recs)
    ensures |p.heads| == |p.deltas| == |p.widths| == |p.tails| == n
    ensures forall i :: 0 <= i < n ==> p.heads[i] == Head(f, recs[i]) && p.tails[i] == Tail(f, recs[i])
    ensures forall i :: 0 <= i < n ==> p.deltas[i] == Deltas(f, recs[i], f.blocks) && p.widths[i] == Widths(f, recs[i], f.blocks)
  {
    if n == 0 then Parts([], [], [], [])
    else
      var p, r := Split(f, recs, n - 1), recs[n - 1];
      Parts(p.heads + [Head(f, r)], p.deltas + [Deltas(f, r, f.blocks)], p.widths + [Widths(f, r, f.blocks)], p.tails + [Tail(f, r)])
  }

  function PackMeta(f: Format, recs: seq<Bytes>): Bytes
    requires Sized(f, recs)
  {
    var p := Split(f, recs, |recs|);
    Joined(p.heads, |recs|) + Joined(p.deltas, |recs|) + Joined(p.widths, |recs|) + Joined(p.tails, |recs|)
  }

  // ---- unpack_meta ----

  /** np.cumsum with dtype uint8 */
  function CumulativeSum(d: Bytes, n: nat): (r: Bytes)
    requires n <= |d|
    ensures |r| == n
  {
    if n == 0 then []
    else
      var front := CumulativeSum(d, n - 1);
      front + [Wrap((if n == 1 then 0 else front[n - 2]) + d[n - 1])]
  }

  /** Minimum and maximum of each block from the minima and the widths. */
  function Interleave(qmin: Bytes, width: Bytes, n: nat): (r: Bytes)
    requires n <= |qmin| && n <= |width|
    ensures |r| == 2 * n
  {
    if n == 0 then [] else Interleave(qmin, width, n - 1) + [qmin[n - 1], Wrap(qmin[n - 1] + width[n - 1])]
  }

  function Rebuild(head: Bytes, deltas: Bytes, widths: Bytes, tail: Bytes): Bytes
    requires |deltas| == |widths|
  {
    head + Interleave(CumulativeSum(deltas, |deltas|), widths, |widths|) + tail
  }

  /** n bytes from position at on; every use is in bounds. */
  function Slice(buf: Bytes, at: nat, n: nat): Bytes {
    if at + n <= |buf| then buf[at..at + n] else []
  }

  /** Record i of the n records packed in buf. */
  function UnpackRecord(f: Format, buf: Bytes, n: nat, i: nat): Bytes
    requires i < n && |buf| == Stride(n, f.lead) + Stride(n, f.blocks) + Stride(n, f.blocks) + Stride(n, f.tail)
  {
    StrideFits(i, n, f.blocks);
    var deltas := Stride(n, f.lead);
    var widths := deltas + Stride(n, f.blocks);
    var tails := widths + Stride(n, f.blocks);
    Rebuild(Slice(buf, Stride(i, f.lead), f.lead), Slice(buf, deltas + Stride(i, f.blocks), f.blocks),
            Slice(buf, widths + Stride(i, f.blocks), f.blocks), Slice(buf, tails + Stride(i, f.tail), f.tail))
  }

  lemma {:induction false} SumRestoresMinima(f: Format, rec: Bytes, n: nat, b: nat)
    requires IsRecord(f, rec) && b < n <= f.blocks
    ensures CumulativeSum(Deltas(f, rec, f.blocks), n)[b] == Minimum(f, rec, b)
    decreases n
  {
    DeltaAt(f, rec, f.blocks, n - 1);
    if n >= 2 {
      SumRestoresMinima(f, rec, n - 1, n - 2);
      WrapBack(Minimum(f, rec, n - 2), Minimum(f, rec, n - 1));
      if b < n - 1 {
        SumRestoresMinima(f, rec, n - 1, b);
      }
    }
  }

  lemma {:induction false} DeltaAt(f: Format, rec: Bytes, n: nat, b: nat)
    requires |rec| == f.Size() && b < n <= f.blocks
    ensures Deltas(f, rec, n)[b] == if b == 0 then Minimum(f, rec, 0) else Wrap(Minimum(f, rec, b) - Minimum(f, rec, b - 1))
    decreases n
  {
    if b < n - 1 { DeltaAt(f, rec, n - 1, b); }
  }

  lemma {:induction false} WidthAt(f: Format, rec: Bytes, n: nat, b: nat)
    requires |rec| == f.Size() && b < n <= f.blocks
    ensures Widths(f, rec, n)[b] == Wrap(Maximum(f, rec, b) - Minimum(f, rec, b))
    decreases n
  {
    if b < n - 1 { WidthAt(f, rec, n - 1, b); }
  }

  lemma {:induction false} WrapBack(a: nat, b: nat)
    requires a < 256 && b < 256
    ensures Wrap(a + Wrap(b - a)) == b
  {
  }

  lemma {:induction false} InterleaveRestores(f: Format, rec: Bytes, qmin: Bytes, width: Bytes, n: nat)
    requires IsRecord(f, rec) && n <= f.blocks == |qmin| == |width|
    requires forall b :: 0 <= b < f.blocks ==> qmin[b] == Minimum(f, rec, b)
    requires forall b :: 0 <= b < f.blocks ==> width[b] == Wrap(Maximum(f, rec, b) - Minimum(f, rec, b))
    ensures Interleave(qmin, width, n) == rec[f.lead..f.lead + 2 * n]
  {
    if n > 0 {
      InterleaveRestores(f, rec, qmin, width, n - 1);
      WrapBack(Minimum(f, rec, n - 1), Maximum(f, rec, n - 1));
      assert rec[f.lead..f.lead + 2 * n] == rec[f.lead..f.lead + 2 * n - 2] + [Minimum(f, rec, n - 1), Maximum(f, rec, n - 1)];
    }
  }

  /** One record's parts make the record again, modulo 256 throughout. */
  lemma {:induction false} RebuildRestores(f: Format, rec: Bytes)
    requires IsRecord(f, rec)
    ensures Rebuild(Head(f, rec), Deltas(f, rec, f.blocks), Widths(f, rec, f.blocks), Tail(f, rec)) == rec
  {
    var qmin := CumulativeSum(Deltas(f, rec, f.blocks), f.blocks);
    forall b | 0 <= b < f.blocks
      ensures qmin[b] == Minimum(f, rec, b)
      ensures Widths(f, rec, f.blocks)[b] == Wrap(Maximum(f, rec, b) - Minimum(f, rec, b))
    {
      SumRestoresMinima(f, rec, f.blocks, b);
      WidthAt(f, rec, f.blocks, b);
    }
    InterleaveRestores(f, rec, qmin, Widths(f, rec, f.blocks), f.blocks);
    ThreeParts(rec, f.lead, f.lead + 2 * f.blocks);
  }

  lemma {:induction false} ThreeParts(r: Bytes, a: nat, b: nat)
    requires a <= b <= |r|
    ensures r[..a] + r[a..b] + r[b..] == r
  {
  }

  lemma {:induction false} SplitWide(f: Format, recs: seq<Bytes>)
    requires AreRecords(f, recs)
    ensures var p := Split(f, recs, |recs|);
            Wide(p.heads, f.lead) && Wide(p.deltas, f.blocks) && Wide(p.widths, f.blocks) && Wide(p.tails, f.tail)
  {
    var p := Split(f, recs, |recs|);
    forall i | 0 <= i < |recs| ensures |p.heads[i]| == f.lead && |p.tails[i]| == f.tail {
      assert IsRecord(f, recs[i]);
    }
  }

  lemma {:induction false} PackMetaLength(f: Format, recs: seq<Bytes>, n: nat)
    requires AreRecords(f, recs) && n == |recs|
    ensures |PackMeta(f, recs)| == Stride(n, f.lead) + Stride(n, f.blocks) + Stride(n, f.blocks) + Stride(n, f.tail)
  {
    SplitWide(f, recs);
    var p := Split(f, recs, n);
    JoinedLength(p.heads, f.lead, n);
    JoinedLength(p.deltas, f.blocks, n);
    JoinedLength(p.widths, f.blocks, n);
    JoinedLength(p.tails, f.tail, n);
  }

  /** A slice of the second of three parts. */
  lemma {:induction false} SliceInside(a: Bytes, b: Bytes, c: Bytes, all: Bytes, at: nat, n: nat)
    requires all == a + b + c && at + n <= |b|
    ensures |a| + at + n <= |all| && all[|a| + at..|a| + at + n] == b[at..at + n]
  {
  }

  lemma {:induction false} PartRow(front: Bytes, rows: seq<Bytes>, rest: Bytes, all: Bytes, w: nat, i: nat, base: nat)
    requires Wide(rows, w) && i < |rows| && all == front + Joined(rows, |rows|) + rest && base == |front|
    ensures base + Stride(i, w) + w <= |all| && all[base + Stride(i, w)..base + Stride(i, w) + w] == rows[i]
  {
    JoinedRow(rows, w, i, Stride(i, w));
    SliceInside(front, Joined(rows, |rows|), rest, all, Stride(i, w), w);
  }

  /** buf is four parts behind each other. */
  ghost predicate FourParts(f: Format, p: Parts, buf: Bytes, n: nat) {
    && |p.heads| == |p.deltas| == |p.widths| == |p.tails| == n
    && Wide(p.heads, f.lead) && Wide(p.deltas, f.blocks) && Wide(p.widths, f.blocks) && Wide(p.tails, f.tail)
    && buf == Joined(p.heads, n) + Joined(p.deltas, n) + Joined(p.widths, n) + Joined(p.tails, n)
    && |buf| == Stride(n, f.lead) + Stride(n, f.blocks) + Stride(n, f.blocks) + Stride(n, f.tail)
  }

  lemma {:induction false} UnpackFindsHeadAndDeltas(f: Format, p: Parts, buf: Bytes, n: nat, i: nat)
    requires FourParts(f, p, buf, n) && i < n
    ensures Slice(buf, Stride(i, f.lead), f.lead) == p.heads[i]
    ensures Slice(buf, Stride(n, f.lead) + Stride(i, f.blocks), f.blocks) == p.deltas[i]
  {
    var (h, d, w, t) := (Joined(p.heads, n), Joined(p.deltas, n), Joined(p.widths, n), Joined(p.tails, n));
    JoinedLength(p.heads, f.lead, n);
    assert buf == [] + h + (d + w + t);
    PartRow([], p.heads, d + w + t, buf, f.lead, i, 0);
    assert buf == h + d + (w + t);
    PartRow(h, p.deltas, w + t, buf, f.blocks, i, |h|);
  }

  lemma {:induction false} UnpackFindsWidthsAndTail(f: Format, p: Parts, buf: Bytes, n: nat, i: nat)
    requires FourParts(f, p, buf, n) && i < n
    ensures Slice(buf, Stride(n, f.lead) + Stride(n, f.blocks) + Stride(i, f.blocks), f.blocks) == p.widths[i]
    ensures Slice(buf, Stride(n, f.lead) + Stride(n, f.blocks) + Stride(n, f.blocks) + Stride(i, f.tail), f.tail) == p.tails[i]
  {
    var (h, d, w, t) := (Joined(p.heads, n), Joined(p.deltas, n), Joined(p.widths, n), Joined(p.tails, n));
    JoinedLength(p.heads, f.lead, n);
    JoinedLength(p.deltas, f.blocks, n);
    JoinedLength(p.widths, f.blocks, n);
    assert buf == (h + d) + w + t;
    PartRow(h + d, p.widths, t, buf, f.blocks, i, |h + d|);
    assert buf == (h + d + w) + t + [];
    PartRow(h + d + w, p.tails, [], buf, f.tail, i, |h + d + w|);
  }

  lemma {:induction false} UnpackIsRebuild(f: Format, p: Parts, buf: Bytes, n: nat, i: nat)
    requires FourParts(f, p, buf, n) && i < n
    ensures |p.deltas[i]| == |p.widths[i]|
    ensures UnpackRecord(f, buf, n, i) == Rebuild(p.heads[i], p.deltas[i], p.widths[i], p.tails[i])
  {
    UnpackFindsHeadAndDeltas(f, p, buf, n, i);
    UnpackFindsWidthsAndTail(f, p, buf, n, i);
    RebuildSlices(f, buf, n, i, p.heads[i], p.deltas[i], p.widths[i], p.tails[i]);
  }

  lemma {:induction false} RebuildSlices(f: Format, buf: Bytes, n: nat, i: nat, head: Bytes, deltas: Bytes, widths: Bytes, tail: Bytes)
    requires i < n && |buf| == Stride(n, f.lead) + Stride(n, f.blocks) + Stride(n, f.blocks) + Stride(n, f.tail)
    requires Slice(buf, Stride(i, f.lead), f.lead) == head && |deltas| == |widths|
    requires Slice(buf, Stride(n, f.lead) + Stride(i, f.blocks), f.blocks) == deltas
    requires Slice(buf, Stride(n, f.lead) + Stride(n, f.blocks) + Stride(i, f.blocks), f.blocks) == widths
    requires Slice(buf, Stride(n, f.lead) + Stride(n, f.blocks) + Stride(n, f.blocks) + Stride(i, f.tail), f.tail) == tail
    ensures UnpackRecord(f, buf, n, i) == Rebuild(head, deltas, widths, tail)
  {
  }

  lemma {:induction false} PackHasFourParts(f: Format, recs: seq<Bytes>, buf: Bytes, n: nat)
    requires AreRecords(f, recs) && n == |recs| && buf == PackMeta(f, recs)
    ensures FourParts(f, Split(f, recs, n), buf, n)
  {
    PackMetaLength(f, recs, n);
    SplitWide(f, recs);
  }

  lemma {:induction false} SliceAt(buf: Bytes, at: nat, n: nat, part: Bytes, k: nat)
    requires Slice(buf, at, n) == part && |part| == n && k < n
    ensures at + k < |buf| && buf[at + k] == part[k]
  {
    assert at + n <= |buf|;
    assert buf[at..at + n][k] == buf[at + k];
  }

  lemma {:induction false} FrontBytes(f: Format, p: Parts, buf: Bytes, n: nat, i: nat, k: nat)
    requires FourParts(f, p, buf, n) && i < n
    ensures k < f.lead ==> Stride(i, f.lead) + k < |buf| && buf[Stride(i, f.lead) + k] == p.heads[i][k]
    ensures k < f.blocks ==> var at := Stride(n, f.lead) + Stride(i, f.blocks) + k; at < |buf| && buf[at] == p.deltas[i][k]
  {
    UnpackFindsHeadAndDeltas(f, p, buf, n, i);
    if k < f.lead { SliceAt(buf, Stride(i, f.lead), f.lead, p.heads[i], k); }
    if k < f.blocks { SliceAt(buf, Stride(n, f.lead) + Stride(i, f.blocks), f.blocks, p.deltas[i], k); }
  }

  lemma {:induction false} BackBytes(f: Format, p: Parts, buf: Bytes, n: nat, i: nat, k: nat)
    requires FourParts(f, p, buf, n) && i < n
    ensures k < f.blocks ==> var at := Stride(n, f.lead) + Stride(n, f.blocks) + Stride(i, f.blocks) + k; at < |buf| && buf[at] == p.widths[i][k]
    ensures k < f.tail ==> var at := Stride(n, f.lead) + Stride(n, f.blocks) + Stride(n, f.blocks) + Stride(i, f.tail) + k;
                           at < |buf| && buf[at] == p.tails[i][k]
  {
    UnpackFindsWidthsAndTail(f, p, buf, n, i);
    if k < f.blocks { SliceAt(buf, Stride(n, f.lead) + Stride(n, f.blocks) + Stride(i, f.blocks), f.blocks, p.widths[i], k); }
    if k < f.tail { SliceAt(buf, Stride(n, f.lead) + Stride(n, f.blocks) + Stride(n, f.blocks) + Stride(i, f.tail), f.tail, p.tails[i], k); }
  }

  /** Where the packed bytes of record i are: first its leading bytes, behind those of all
    * records the differences of its minima... */
  lemma {:induction false} PackedFront(f: Format, recs: seq<Bytes>, buf: Bytes, n: nat, i: nat, k: nat)
    requires AreRecords(f, recs) && n == |recs| && i < n && buf == PackMeta(f, recs) && |recs[i]| == f.Size()
    ensures k < f.lead ==> Stride(i, f.lead) + k < |buf| && buf[Stride(i, f.lead) + k] == recs[i][k]
    ensures k < f.blocks ==>
              var at := Stride(n, f.lead) + Stride(i, f.blocks) + k;
              at < |buf| && buf[at] == if k == 0 then Minimum(f, recs[i], 0) else Wrap(Minimum(f, recs[i], k) - Minimum(f, recs[i], k - 1))
  {
    PackHasFourParts(f, recs, buf, n);
    FrontBytes(f, Split(f, recs, n), buf, n, i, k);
    if k < f.blocks { DeltaAt(f, recs[i], f.blocks, k); }
  }

  /** ...behind those its widths, and behind those its last bytes. */
  lemma {:induction false} PackedBack(f: Format, recs: seq<Bytes>, buf: Bytes, n: nat, i: nat, k: nat)
    requires AreRecords(f, recs) && n == |recs| && i < n && buf == PackMeta(f, recs) && |recs[i]| == f.Size()
    ensures k < f.blocks ==>
              var at := Stride(n, f.lead) + Stride(n, f.blocks) + Stride(i, f.blocks) + k;
              at < |buf| && buf[at] == Wrap(Maximum(f, recs[i], k) - Minimum(f, recs[i], k))
    ensures k < f.tail ==>
              var at := Stride(n, f.lead) + Stride(n, f.blocks) + Stride(n, f.blocks) + Stride(i, f.tail) + k;
              at < |buf| && buf[at] == recs[i][f.lead + 2 * f.blocks + k]
  {
    PackHasFourParts(f, recs, buf, n);
    BackBytes(f, Split(f, recs, n), buf, n, i, k);
    if k < f.blocks { WidthAt(f, recs[i], f.blocks, k); }
  }

  /** unpack_meta restores every record of an object exactly, whatever its bytes. */
  lemma {:induction false} UnpackMetaUndoesPack(f: Format, recs: seq<Bytes>, buf: Bytes, n: nat, i: nat)
    requires AreRecords(f, recs) && n == |recs| && i < n && buf == PackMeta(f, recs)
    ensures |buf| == Stride(n, f.lead) + Stride(n, f.blocks) + Stride(n, f.blocks) + Stride(n, f.tail)
    ensures UnpackRecord(f, buf, n, i) == recs[i]
  {
    PackHasFourParts(f, recs, buf, n);
    UnpackIsRebuild(f, Split(f, recs, n), buf, n, i);
    assert IsRecord(f, recs[i]);
    RebuildRestores(f, recs[i]);
  }
}
