/** Writing an array and its zone map: units are packed into chunks in any block order, and
  * their records are built beside them; a query on the result finds what was written. */
module WriteArray {
  import Ieee
  import opened Float32
  import MixedRadix
  import opened Rounding
  import opened FloatBounds
  import opened ZoneMap
  import opened Listing
  import opened Planner
  import opened Layout
  import opened Query
  import opened ArrayQuery
  import ArrayAggregate

  /** A unit's blocks in C order: the originals, what they decode to, and their encoded bytes. */
  datatype Source = Source(orig: seq<seq<real>>, decoded: seq<seq<real>>, encoded: seq<Bytes>)

  /** Finite float32 values. */
  ghost predicate ValidPair(fp: Arith, v: real, d: real) {
    IsSingle(fp, v) && IsSingle(fp, d) && -FLT_MAX <= v <= FLT_MAX
  }

  ghost predicate ValidBlock(fp: Arith, orig: seq<real>, decoded: seq<real>) {
    |orig| == |decoded| == VALUES && forall i :: 0 <= i < VALUES ==> ValidPair(fp, orig[i], decoded[i])
  }

  ghost predicate ValidSource(fp: Arith, src: Source, n: nat) {
    && |src.orig| == |src.decoded| == |src.encoded| == n
    && forall b :: 0 <= b < n ==> ValidBlock(fp, src.orig[b], src.decoded[b])
  }

  /** The stored bound: a float32 that no measured error of the unit exceeds. */
  ghost predicate IsBound(fp: Arith, src: Source, eps: real) {
    && |src.orig| == |src.decoded| && IsSingle(fp, eps) && eps >= 0.0
    && forall b :: 0 <= b < |src.orig| ==> |src.orig[b]| == |src.decoded[b]| && Covers(fp, src.orig[b], src.decoded[b], eps)
  }

  /** No value of the block has the sign opposite to its decoded value's, the larger of the two
    * as its bound, and the smaller lost in the rounding of their difference. */
  ghost predicate BlockKept(fp: Arith, orig: seq<real>, decoded: seq<real>, e: real) {
    fp.quantum > 0.0 && |orig| == |decoded| && forall i :: 0 <= i < |orig| ==> !Swallowed(fp.quantum, orig[i], decoded[i], e)
  }

  /** The same for all blocks of a unit, with the bounds that its record gives them. */
  ghost predicate UnitKept(fp: Arith, src: Source, block: seq<nat>, rec: Record) {
    && |src.orig| == |src.decoded| == |block| && rec.Shaped(|block|) && (forall p :: 0 <= p < |block| ==> block[p] < |block|)
    && forall p :: 0 <= p < |block| ==> BlockKept(fp, src.orig[block[p]], src.decoded[block[p]], BlockError(fp, rec, p))
  }

  ghost predicate AllKept(fp: Arith, srcs: seq<Source>, block: seq<nat>, recs: seq<Record>) {
    |recs| == |srcs| && forall u :: 0 <= u < |srcs| ==> UnitKept(fp, srcs[u], block, recs[u])
  }

  /** x is a decoded value of a block with values below 2^30 * scale: an integer times scale. */
  ghost predicate OnScale(x: real, scale: real) {
    exists k: int :: IsTimes(k, scale, x) && -1073741824 <= k <= 1073741824
  }

  /** Not every value is kept: in a block of values 2^53 with a single -1, all decoded as 2^53,
    * no measured error exceeds 2^53, yet -1 is farther away. */
  lemma {:induction false} BoundMisses(fp: Arith, orig: seq<real>, decoded: seq<real>, i: nat)
    requires Ieee.IsIeee(fp) && |orig| == |decoded| == VALUES && i < VALUES && orig[i] == -1.0
    requires forall j :: 0 <= j < VALUES ==> (j != i ==> orig[j] == 9007199254740992.0) && decoded[j] == 9007199254740992.0
    ensures ValidBlock(fp, orig, decoded) && IsSingle(fp, 9007199254740992.0) && Covers(fp, orig, decoded, 9007199254740992.0)
    ensures forall j :: 0 <= j < VALUES ==> Abs(orig[j]) < 1073741824.0 * 16777216.0 && OnScale(decoded[j], 16777216.0)
    ensures Abs(orig[i] - decoded[i]) > 9007199254740992.0
  {
    var v: real, d: real, z: real := 9007199254740992.0, -1.0, 0.0;
    IntsAreSingle(fp);
    Ieee.RoundsDown(fp.quantum, 9007199254740993.0);
    assert Ieee.StepsAt(fp, 9007199254740993.0);
    Ieee.IeeeIsBinary64(fp);
    ZeroIsRep(fp);
    assert IsTimes(536870912, 16777216.0, v);
    forall j | 0 <= j < VALUES ensures MeasuredError(fp, orig[j], decoded[j]) <= v {
      assert Abs(orig[j] - decoded[j]) == if j == i then 9007199254740993.0 else 0.0;
    }
  }

  // ---- one record ----

  /** ranked[rank] = offs for pairs of offsets. */
  method RankOffsets(offs: seq<nat>, rank: seq<nat>, ghost block: seq<nat>) returns (r: seq<nat>)
    requires Inverse(rank, block) && |offs| == 2 * |rank|
    ensures |r| == |offs|
    ensures forall p :: 0 <= p < |block| ==> block[p] < |rank| && r[2 * p] == offs[2 * block[p]] && r[2 * p + 1] == offs[2 * block[p] + 1]
  {
    var ranked := new nat[|offs|](_ => 0);
    for i := 0 to |rank|
      invariant forall p :: 0 <= p < |block| && block[p] < i ==> ranked[2 * p] == offs[2 * block[p]] && ranked[2 * p + 1] == offs[2 * block[p] + 1]
    {
      ranked[2 * rank[i]] := offs[2 * i];
      ranked[2 * rank[i] + 1] := offs[2 * i + 1];
    }
    r := ranked[..];
  }

  /** The largest measured error of every block. */
  method BlockErrors(fp: Arith, src: Source, n: nat) returns (errs: seq<real>)
    requires ValidSource(fp, src, n)
    ensures |errs| == n
    ensures forall b :: 0 <= b < n ==> Covers(fp, src.orig[b], src.decoded[b], errs[b])
    ensures forall b :: 0 <= b < n ==> errs[b] == 0.0 || Attains(fp, src.orig[b], src.decoded[b], errs[b])
  {
    errs := [];
    for b := 0 to n
      invariant |errs| == b
      invariant forall a :: 0 <= a < b ==> Covers(fp, src.orig[a], src.decoded[a], errs[a])
      invariant forall a :: 0 <= a < b ==> errs[a] == 0.0 || Attains(fp, src.orig[a], src.decoded[a], errs[a])
    {
      assert ValidBlock(fp, src.orig[b], src.decoded[b]);
      var bmin, bmax, err := ScanBlock(fp, src.orig[b], src.decoded[b], 0.0);
      errs := errs + [err];
    }
  }

  /** A measured error is 0 or at least the smallest float. */
  lemma {:induction false} MeasuredIsError(fp: Arith, v: real, d: real)
    requires Ieee.IsIeee(fp) && IsFloat(fp, v) && IsFloat(fp, d)
    ensures IsError(MeasuredError(fp, v, d))
  {
    Ieee.IeeeIsBinary64(fp);
    TinyIsRep(fp);
    if v == d {
      ZeroIsRep(fp);
    } else {
      if v < d { FloatDifference(fp, v, d); } else { FloatDifference(fp, d, v); }
      AboveDouble(fp, TINY, Abs(v - d));
    }
  }

  lemma {:induction false} ErrorsAreErrors(fp: Arith, src: Source, n: nat, b: nat, err: real, eps: real)
    requires Ieee.IsIeee(fp) && ValidSource(fp, src, n) && b < n && IsBound(fp, src, eps)
    requires err == 0.0 || Attains(fp, src.orig[b], src.decoded[b], err)
    ensures IsError(err) && err <= eps
  {
    if err != 0.0 {
      var i :| 0 <= i < |src.orig[b]| && MeasuredError(fp, src.orig[b][i], src.decoded[b][i]) == err;
      assert ValidBlock(fp, src.orig[b], src.decoded[b]) && ValidPair(fp, src.orig[b][i], src.decoded[b][i]);
      SingleIsFloat(fp, src.orig[b][i]);
      SingleIsFloat(fp, src.decoded[b][i]);
      MeasuredIsError(fp, src.orig[b][i], src.decoded[b][i]);
      assert Covers(fp, src.orig[b], src.decoded[b], eps);
    }
  }

  /** Every block of the unit is within the error bound the planner will read for it. */
  ghost predicate CodesCover(fp: Arith, src: Source, eps: real, codes: Codes, n: nat)
    requires |src.orig| == |src.decoded| == n
  {
    match codes
    case NoCodes => true
    case Codes(q) =>
      && |q| == n
      && forall b :: 0 <= b < n ==> q[b] < 16 && |src.orig[b]| == |src.decoded[b]| && Covers(fp, src.orig[b], src.decoded[b], CodeError(fp, eps, q[b]))
  }

  /** block_error_codes never fails on a bound that covers the unit. */
  method WriteCodes(fp: Arith, src: Source, eps: real, n: nat, bits: bool) returns (codes: Codes)
    requires Ieee.IsIeee(fp) && ValidSource(fp, src, n) && IsBound(fp, src, eps)
    ensures codes.Codes? == bits && CodesCover(fp, src, eps, codes, n)
  {
    if !bits {
      return NoCodes;
    }
    var errs := BlockErrors(fp, src, n);
    forall b | 0 <= b < n ensures IsError(errs[b]) && errs[b] <= eps {
      ErrorsAreErrors(fp, src, n, b, errs[b], eps);
    }
    Ieee.IeeeIsBinary64(fp);
    SingleIsFloat(fp, eps);
    SingleIsCoded(fp, eps);
    var r := BlockErrorCodes(fp, errs, eps);
    return Codes(r.q);
  }

  /** Codes in storage order. */
  method RankCodes(codes: Codes, rank: seq<nat>, ghost block: seq<nat>) returns (r: Codes)
    requires Inverse(rank, block) && (codes.Codes? ==> |codes.q| == |rank|)
    ensures r == if codes.Codes? then Codes(Ranked(block, codes.q, |block|)) else NoCodes
  {
    match codes
    case NoCodes => r := NoCodes;
    case Codes(q) =>
      var ranked := new nat[|rank|];
      Scatter(rank, block, q, ranked);
      r := Codes(ranked[..]);
  }

  /** The record of a unit in storage order, and what it was written from. */
  ghost predicate WrittenUnit(fp: Arith, src: Source, n: nat, block: seq<nat>, mins: seq<real>, maxs: seq<real>, codes: Codes, rec: Record)
    requires ValidSource(fp, src, n) && |block| == n == |mins| == |maxs| && forall p :: 0 <= p < n ==> block[p] < n
  {
    && rec.Shaped(n) && IsFloat(fp, rec.cmin) && IsFloat(fp, rec.cmax)
    && (forall b :: 0 <= b < n ==> IsLeast(mins[b], src.orig[b]) && IsGreatest(maxs[b], src.orig[b]) && rec.cmin <= mins[b] && maxs[b] <= rec.cmax)
    && (forall p :: 0 <= p < n ==> rec.offs[2 * p] == WrittenMin(fp, mins[block[p]], rec.cmin, rec.cmax))
    && (forall p :: 0 <= p < n ==> rec.offs[2 * p + 1] == WrittenMax(fp, maxs[block[p]], rec.cmin, rec.cmax))
    && IsBound(fp, src, rec.eps) && CodesCover(fp, src, rec.eps, codes, n)
    && rec.codes == if codes.Codes? then Codes(Ranked(block, codes.q, n)) else NoCodes
  }

  ghost function UnitOf(src: Source, n: nat, block: seq<nat>, mins: seq<real>, maxs: seq<real>, rec: Record): Unit
    requires |src.orig| == |src.decoded| == n == |block| == |mins| == |maxs| && forall p :: 0 <= p < n ==> block[p] < n
  {
    Unit(rec, Ranked(block, mins, n), Ranked(block, maxs, n), Ranked(block, src.orig, n), Ranked(block, src.decoded, n))
  }

  lemma {:induction false} LeastIsFloat(fp: Arith, src: Source, n: nat, b: nat, m: real, k: real)
    requires Ieee.IsIeee(fp) && ValidSource(fp, src, n) && b < n && IsLeast(m, src.orig[b]) && IsGreatest(k, src.orig[b])
    ensures IsFloat(fp, m) && IsFloat(fp, k) && m <= k
  {
    var i :| 0 <= i < |src.orig[b]| && src.orig[b][i] == m;
    var j :| 0 <= j < |src.orig[b]| && src.orig[b][j] == k;
    assert ValidBlock(fp, src.orig[b], src.decoded[b]) && ValidPair(fp, m, src.decoded[b][i]) && ValidPair(fp, k, src.decoded[b][j]);
    SingleIsFloat(fp, m);
    SingleIsFloat(fp, k);
  }

  /** Each value of a block lies in its range and within the block's error bound. */
  lemma {:induction false} WrittenValue(fp: Arith, src: Source, n: nat, block: seq<nat>, mins: seq<real>, maxs: seq<real>, codes: Codes, rec: Record,
                                        p: nat, i: nat)
    requires Ieee.IsIeee(fp) && ValidSource(fp, src, n) && |block| == n == |mins| == |maxs| && (forall k :: 0 <= k < n ==> block[k] < n)
    requires WrittenUnit(fp, src, n, block, mins, maxs, codes, rec) && p < n && i < VALUES
    ensures var b := block[p];
            && |src.orig[b]| == |src.decoded[b]| == VALUES
            && Rep(fp, src.orig[b][i]) && Rep(fp, src.decoded[b][i]) && mins[b] <= src.orig[b][i] <= maxs[b]
            && (Abs(src.orig[b][i] - src.decoded[b][i]) <= BlockError(fp, rec, p)
                <==> !Swallowed(fp.quantum, src.orig[b][i], src.decoded[b][i], BlockError(fp, rec, p)))
  {
    var b := block[p];
    assert ValidBlock(fp, src.orig[b], src.decoded[b]) && ValidPair(fp, src.orig[b][i], src.decoded[b][i]);
    assert Covers(fp, src.orig[b], src.decoded[b], BlockError(fp, rec, p));
    BlockErrorIsCoded(fp, rec, p);
    BoundHolds(fp, src.orig[b][i], src.decoded[b][i], BlockError(fp, rec, p));
    SingleIsFloat(fp, src.orig[b][i]);
    SingleIsFloat(fp, src.decoded[b][i]);
  }

  lemma {:induction false} BlockErrorIsCoded(fp: Arith, rec: Record, b: nat)
    requires Ieee.IsIeee(fp) && IsSingle(fp, rec.eps) && rec.eps >= 0.0 && (rec.codes.Codes? ==> b < |rec.codes.q| && rec.codes.q[b] <= 15)
    ensures IsCodedBound(fp.quantum, BlockError(fp, rec, b)) && BlockError(fp, rec, b) >= 0.0
  {
    if rec.codes.Codes? {
      CodeIsCoded(fp, rec.eps, rec.codes.q[b]);
    } else {
      SingleIsCoded(fp, rec.eps);
    }
  }

  lemma {:induction false} WrittenBlock(fp: Arith, src: Source, n: nat, block: seq<nat>, mins: seq<real>, maxs: seq<real>, codes: Codes, rec: Record,
                                        u: Unit, p: nat)
    requires Ieee.IsIeee(fp) && ValidSource(fp, src, n) && |block| == n == |mins| == |maxs| && forall k :: 0 <= k < n ==> block[k] < n
    requires WrittenUnit(fp, src, n, block, mins, maxs, codes, rec) && u == UnitOf(src, n, block, mins, maxs, rec) && p < n
    ensures TrueBlock(fp, u, p) <==> BlockKept(fp, src.orig[block[p]], src.decoded[block[p]], BlockError(fp, rec, p))
  {
    assert ValidBlock(fp, src.orig[block[p]], src.decoded[block[p]]);
    forall i | 0 <= i < VALUES
      ensures Rep(fp, u.orig[p][i]) && Rep(fp, u.decoded[p][i]) && u.mins[p] <= u.orig[p][i] <= u.maxs[p]
      ensures Abs(u.orig[p][i] - u.decoded[p][i]) <= BlockError(fp, rec, p) <==> !Swallowed(fp.quantum, u.orig[p][i], u.decoded[p][i], BlockError(fp, rec, p))
    {
      WrittenValue(fp, src, n, block, mins, maxs, codes, rec, p, i);
    }
  }

  /** A written record is true of its unit, in storage order, exactly when no value is lost
    * beside a decoded value of the other sign, or the other way round, that is as large as
    * the bound. */
  lemma {:induction false} WrittenIsTrue(fp: Arith, src: Source, n: nat, block: seq<nat>, mins: seq<real>, maxs: seq<real>, codes: Codes, rec: Record)
    requires Ieee.IsIeee(fp) && ValidSource(fp, src, n) && |block| == n == |mins| == |maxs| && forall p :: 0 <= p < n ==> block[p] < n
    requires WrittenUnit(fp, src, n, block, mins, maxs, codes, rec)
    ensures TrueUnit(fp, UnitOf(src, n, block, mins, maxs, rec), n) <==> UnitKept(fp, src, block, rec)
  {
    var u := UnitOf(src, n, block, mins, maxs, rec);
    forall p | 0 <= p < n ensures IsFloat(fp, u.mins[p]) && IsFloat(fp, u.maxs[p]) && u.mins[p] <= u.maxs[p] {
      LeastIsFloat(fp, src, n, block[p], mins[block[p]], maxs[block[p]]);
    }
    assert Written(fp, rec, u.mins, u.maxs);
    forall p | 0 <= p < n
      ensures TrueBlock(fp, u, p) <==> BlockKept(fp, src.orig[block[p]], src.decoded[block[p]], BlockError(fp, rec, p))
    {
      WrittenBlock(fp, src, n, block, mins, maxs, codes, rec, u, p);
    }
  }

  lemma {:induction false} SourceInRange(fp: Arith, src: Source, n: nat)
    requires ValidSource(fp, src, n)
    ensures forall b :: 0 <= b < n ==> |src.orig[b]| == |src.decoded[b]| && src.orig[b] != []
    ensures forall b, i :: 0 <= b < n && 0 <= i < |src.orig[b]| ==> -FLT_MAX <= src.orig[b][i] <= FLT_MAX
  {
    forall b | 0 <= b < n ensures |src.orig[b]| == |src.decoded[b]| == VALUES {
      assert ValidBlock(fp, src.orig[b], src.decoded[b]);
    }
    forall b, i | 0 <= b < n && 0 <= i < |src.orig[b]| ensures -FLT_MAX <= src.orig[b][i] <= FLT_MAX {
      assert ValidBlock(fp, src.orig[b], src.decoded[b]) && ValidPair(fp, src.orig[b][i], src.decoded[b][i]);
    }
  }

  /** The record of one unit, as write_meta builds it: ranges, offsets and codes, ranked. */
  method WriteUnit(fp: Arith, src: Source, n: nat, eps: real, bits: bool, rank: seq<nat>, ghost block: seq<nat>)
    returns (rec: Record, ghost mins: seq<real>, ghost maxs: seq<real>, ghost codes: Codes)
    requires Ieee.IsIeee(fp) && ValidSource(fp, src, n) && IsBound(fp, src, eps)
    requires Inverse(rank, block) && |rank| == n > 0
    ensures |mins| == |maxs| == n && WrittenUnit(fp, src, n, block, mins, maxs, codes, rec) && rec.eps == eps
  {
    SourceInRange(fp, src, n);
    var lows, highs, cmin, cmax, err := ScanUnit(fp, src.orig, src.decoded);
    var offs := new nat[2 * n];
    WriteOffsets(fp, lows, highs, cmin, cmax, offs);
    var c := WriteCodes(fp, src, eps, n, bits);
    var ranked := RankOffsets(offs[..], rank, block);
    var rankedCodes := RankCodes(c, rank, block);
    rec := Record(cmin, cmax, eps, ranked, rankedCodes);
    mins, maxs, codes := lows, highs, c;
    UnitRange(fp, src, n, lows, highs, cmin, cmax);
  }

  lemma {:induction false} UnitRange(fp: Arith, src: Source, n: nat, mins: seq<real>, maxs: seq<real>, cmin: real, cmax: real)
    requires Ieee.IsIeee(fp) && ValidSource(fp, src, n) && |mins| == |maxs| == n
    requires forall b :: 0 <= b < n ==> IsLeast(mins[b], src.orig[b]) && IsGreatest(maxs[b], src.orig[b])
    requires IsLeast(cmin, mins) && IsGreatest(cmax, maxs)
    ensures IsFloat(fp, cmin) && IsFloat(fp, cmax)
  {
    var i :| 0 <= i < |mins| && mins[i] == cmin;
    var j :| 0 <= j < |maxs| && maxs[j] == cmax;
    LeastIsFloat(fp, src, n, i, mins[i], maxs[i]);
    LeastIsFloat(fp, src, n, j, mins[j], maxs[j]);
  }

  // ---- all records ----

  ghost predicate ValidSources(fp: Arith, srcs: seq<Source>, n: nat, eps: seq<real>) {
    && |srcs| == |eps|
    && forall u :: 0 <= u < |srcs| ==> ValidSource(fp, srcs[u], n) && IsBound(fp, srcs[u], eps[u])
  }

  /** A record's error bound and codes are as they are stored. */
  ghost predicate Stores(fp: Arith, rec: Record) {
    IsSingle(fp, rec.eps) && rec.eps >= 0.0 && (rec.codes.Codes? ==> forall b :: 0 <= b < |rec.codes.q| ==> rec.codes.q[b] <= 15)
  }

  /** A unit's record and contents are those of its source, in storage order. */
  ghost predicate Recorded(fp: Arith, src: Source, n: nat, block: seq<nat>, rec: Record, u: Unit)
    requires |block| == n && forall p :: 0 <= p < n ==> block[p] < n
  {
    && |src.orig| == |src.decoded| == n && u.rec == rec && rec.Shaped(n) && (TrueUnit(fp, u, n) <==> UnitKept(fp, src, block, rec))
    && Stores(fp, rec) && u.orig == Ranked(block, src.orig, n) && u.decoded == Ranked(block, src.decoded, n)
  }

  /** write_meta: the records of all units. */
  method WriteRecords(fp: Arith, srcs: seq<Source>, n: nat, eps: seq<real>, bits: bool, rank: seq<nat>, ghost block: seq<nat>)
    returns (recs: seq<Record>, ghost units: seq<Unit>)
    requires Ieee.IsIeee(fp) && ValidSources(fp, srcs, n, eps) && Inverse(rank, block) && |rank| == n > 0
    ensures |recs| == |units| == |srcs| && forall u :: 0 <= u < |srcs| ==> Recorded(fp, srcs[u], n, block, recs[u], units[u]) && recs[u].eps == eps[u]
  {
    recs, units := [], [];
    for u := 0 to |srcs|
      invariant |recs| == |units| == u
      invariant forall v :: 0 <= v < u ==> Recorded(fp, srcs[v], n, block, recs[v], units[v]) && recs[v].eps == eps[v]
    {
      var rec;
      ghost var unit;
      rec, unit := WriteRecord(fp, srcs[u], n, eps[u], bits, rank, block);
      recs, units := recs + [rec], units + [unit];
    }
  }

  /** A unit's record, and what it is true of. */
  method WriteRecord(fp: Arith, src: Source, n: nat, eps: real, bits: bool, rank: seq<nat>, ghost block: seq<nat>)
    returns (rec: Record, ghost unit: Unit)
    requires Ieee.IsIeee(fp) && ValidSource(fp, src, n) && IsBound(fp, src, eps) && Inverse(rank, block) && |rank| == n > 0
    ensures Recorded(fp, src, n, block, rec, unit) && rec.eps == eps
  {
    ghost var mins, maxs, codes;
    rec, mins, maxs, codes := WriteUnit(fp, src, n, eps, bits, rank, block);
    WrittenIsTrue(fp, src, n, block, mins, maxs, codes, rec);
    unit := UnitOf(src, n, block, mins, maxs, rec);
  }

  // ---- all chunks ----

  /** The encoded blocks of every unit, in C order and in storage order. */
  ghost function Encodings(srcs: seq<Source>, n: nat): (r: seq<seq<Bytes>>)
    requires n <= |srcs|
    ensures |r| == n && forall u :: 0 <= u < n ==> r[u] == srcs[u].encoded
  {
    if n == 0 then [] else Encodings(srcs, n - 1) + [srcs[n - 1].encoded]
  }

  ghost function RankedAll<T>(block: seq<nat>, units: seq<seq<T>>, n: nat): (r: seq<seq<T>>)
    requires n <= |units| && (forall u :: 0 <= u < |units| ==> |units[u]| == |block|) && forall p :: 0 <= p < |block| ==> block[p] < |block|
    ensures |r| == n && forall u :: 0 <= u < n ==> r[u] == Ranked(block, units[u], |block|)
  {
    if n == 0 then [] else RankedAll(block, units, n - 1) + [Ranked(block, units[n - 1], |block|)]
  }

  /** The units of a chunk, in their order in it. */
  ghost function Gathered(g: Grid, units: seq<seq<Bytes>>, c: nat, n: nat): (r: seq<seq<Bytes>>)
    requires Shaped(g, units) && c < g.Chunks() && n <= g.Subs()
    ensures |r| == n && forall u :: 0 <= u < n ==> |r[u]| == g.blocks
  {
    if n == 0 then []
    else
      UidBelow(g, c, n - 1);
      Gathered(g, units, c, n - 1) + [units[Uid(g, c, n - 1)]]
  }

  lemma {:induction false} ChunkRowsSame(block: seq<nat>, a: seq<seq<Bytes>>, b: seq<seq<Bytes>>, n: nat)
    requires n <= |a| && a <= b && Fits(block, a) && Fits(block, b)
    ensures ChunkRows(block, a, n) == ChunkRows(block, b, n)
  {
    if n > 0 {
      ChunkRowsSame(block, a, b, n - 1);
      assert a[n - 1] == b[n - 1];
    }
  }

  /** The rows that pack makes of a chunk are the row of the units' ranked blocks. */
  lemma {:induction false} ChunkIsRow(g: Grid, block: seq<nat>, units: seq<seq<Bytes>>, ranked: seq<seq<Bytes>>, c: nat, n: nat)
    requires Shaped(g, units) && |block| == g.blocks && (forall p :: 0 <= p < |block| ==> block[p] < |block|)
    requires Shaped(g, ranked) && ranked == RankedAll(block, units, |units|) && c < g.Chunks() && n <= g.Subs()
    ensures ChunkRows(block, Gathered(g, units, c, n), n) == Row(g, ranked, c, n)
  {
    if n > 0 {
      ChunkIsRow(g, block, units, ranked, c, n - 1);
      UidBelow(g, c, n - 1);
      ChunkRowsSame(block, Gathered(g, units, c, n - 1), Gathered(g, units, c, n), n - 1);
    }
  }

  /** Every unit's encoded blocks hold all layers. */
  ghost predicate AreWhole(srcs: seq<Source>, layers: seq<nat>) {
    forall u :: 0 <= u < |srcs| ==> Whole(srcs[u].encoded, layers)
  }

  method GatherChunk(g: Grid, srcs: seq<Source>, c: nat, layers: seq<nat>, ghost units: seq<seq<Bytes>>) returns (us: seq<seq<Bytes>>)
    requires Shaped(g, units) && |srcs| == |units| && units == Encodings(srcs, |srcs|) && AreWhole(srcs, layers) && c < g.Chunks()
    ensures us == Gathered(g, units, c, g.Subs()) && forall u :: 0 <= u < |us| ==> Whole(us[u], layers)
  {
    us := [];
    for sub := 0 to g.Subs()
      invariant us == Gathered(g, units, c, sub) && forall u :: 0 <= u < |us| ==> Whole(us[u], layers)
    {
      UidBelow(g, c, sub);
      us := us + [srcs[Uid(g, c, sub)].encoded];
    }
  }

  /** One chunk object: its units packed in block order. */
  method WriteChunk(g: Grid, srcs: seq<Source>, c: nat, layers: seq<nat>, rank: seq<nat>, ghost block: seq<nat>, ghost units: seq<seq<Bytes>>,
                    ghost ranked: seq<seq<Bytes>>)
    returns (buf: Bytes)
    requires Shaped(g, units) && |srcs| == |units| && units == Encodings(srcs, |srcs|) && AreWhole(srcs, layers) && c < g.Chunks()
    requires Inverse(rank, block) && |block| == g.blocks && Shaped(g, ranked) && ranked == RankedAll(block, units, |units|)
    ensures Whole(Row(g, ranked, c, g.Subs()), layers) && buf == Stored(Row(g, ranked, c, g.Subs()), layers, |layers|)
  {
    var us := GatherChunk(g, srcs, c, layers, units);
    buf := Pack(rank, block, us, layers);
    ChunkIsRow(g, block, units, ranked, c, g.Subs());
  }

  /** All chunk objects. */
  method WriteChunks(g: Grid, srcs: seq<Source>, layers: seq<nat>, rank: seq<nat>, ghost block: seq<nat>, ghost units: seq<seq<Bytes>>,
                     ghost ranked: seq<seq<Bytes>>)
    returns (store: seq<Bytes>)
    requires Shaped(g, units) && |srcs| == |units| && units == Encodings(srcs, |srcs|) && AreWhole(srcs, layers)
    requires Inverse(rank, block) && |block| == g.blocks && Shaped(g, ranked) && ranked == RankedAll(block, units, |units|)
    ensures |store| == g.Chunks()
    ensures forall c :: 0 <= c < |store| ==>
              Whole(Row(g, ranked, c, g.Subs()), layers) && store[c] == Stored(Row(g, ranked, c, g.Subs()), layers, |layers|)
  {
    store := [];
    for c := 0 to g.Chunks()
      invariant |store| == c
      invariant forall d :: 0 <= d < c ==>
                  Whole(Row(g, ranked, d, g.Subs()), layers) && store[d] == Stored(Row(g, ranked, d, g.Subs()), layers, |layers|)
    {
      var buf := WriteChunk(g, srcs, c, layers, rank, block, units, ranked);
      store := store + [buf];
    }
  }

  // ---- the whole archive ----

  /** The floats of decoded blocks. */
  ghost function FloatsOf(v: seq<real>, n: nat): (r: seq<Ext>)
    requires n <= |v|
    ensures |r| == n && forall i :: 0 <= i < n ==> r[i] == Fin(v[i])
  {
    if n == 0 then [] else FloatsOf(v, n - 1) + [Fin(v[n - 1])]
  }

  ghost function BlockFloats(blocks: seq<seq<real>>, n: nat): (r: seq<seq<Ext>>)
    requires n <= |blocks|
    ensures |r| == n && forall b :: 0 <= b < n ==> r[b] == FloatsOf(blocks[b], |blocks[b]|)
  {
    if n == 0 then [] else BlockFloats(blocks, n - 1) + [FloatsOf(blocks[n - 1], |blocks[n - 1]|)]
  }

  ghost function AllFloats(srcs: seq<Source>, n: nat): (r: seq<seq<seq<Ext>>>)
    requires n <= |srcs|
    ensures |r| == n && forall u :: 0 <= u < n ==> r[u] == BlockFloats(srcs[u].decoded, |srcs[u].decoded|)
  {
    if n == 0 then [] else AllFloats(srcs, n - 1) + [BlockFloats(srcs[n - 1].decoded, |srcs[n - 1].decoded|)]
  }

  /** The first k layers of every encoded block decode to the source's decoded values. */
  ghost predicate DecodesSources(srcs: seq<Source>, n: nat, layers: seq<nat>, k: nat, decode: Decoder)
    requires k <= |layers|
  {
    forall u, b :: 0 <= u < |srcs| && 0 <= b < n ==>
      && b < |srcs[u].encoded| && b < |srcs[u].decoded| && Cut(layers, k) <= |srcs[u].encoded[b]|
      && srcs[u].encoded[b][..Cut(layers, k)] in decode
      && decode[srcs[u].encoded[b][..Cut(layers, k)]] == FloatsOf(srcs[u].decoded[b], |srcs[u].decoded[b]|)
  }

  /** What was written, as the queries know it. */
  ghost predicate IsWritten(a: Archive, g: Grid, srcs: seq<Source>, block: seq<nat>, layers: seq<nat>, k: nat, decode: Decoder,
                            encoded: seq<seq<Bytes>>, values: seq<seq<seq<Ext>>>)
    requires |block| == g.blocks && forall p :: 0 <= p < |block| ==> block[p] < |block|
  {
    && g.Valid() && |srcs| == g.Units() && k <= |layers| && a.layers == layers && a.k == k && a.decode == decode && a.n == g.Subs() * g.blocks
    && (forall u :: 0 <= u < |srcs| ==> |srcs[u].encoded| == |srcs[u].decoded| == g.blocks)
    && Shaped(g, encoded) && Shaped(g, values)
    && (forall u :: 0 <= u < |srcs| ==> encoded[u] == Ranked(block, srcs[u].encoded, g.blocks))
    && (forall u :: 0 <= u < |srcs| ==> values[u] == Ranked(block, BlockFloats(srcs[u].decoded, g.blocks), g.blocks))
    && a.rows == Rows(g, encoded, g.Chunks()) && a.values == Rows(g, values, g.Chunks()) && |a.store| == g.Chunks()
    && (forall c :: 0 <= c < g.Chunks() ==>
          Whole(Row(g, encoded, c, g.Subs()), layers) && a.store[c] == Stored(Row(g, encoded, c, g.Subs()), layers, |layers|))
  }

  lemma {:induction false} WrittenDecodes(a: Archive, g: Grid, srcs: seq<Source>, block: seq<nat>, layers: seq<nat>, k: nat, decode: Decoder,
                                          encoded: seq<seq<Bytes>>, values: seq<seq<seq<Ext>>>, c: nat, p: nat)
    requires |block| == g.blocks && forall i :: 0 <= i < |block| ==> block[i] < |block|
    requires IsWritten(a, g, srcs, block, layers, k, decode, encoded, values) && DecodesSources(srcs, g.blocks, layers, k, decode)
    requires c < g.Chunks() && p < a.n
    ensures p < |a.rows[c]| && p < |a.values[c]| && Decodes(a, c, p)
  {
    BlockOfRow(g, encoded, c, p);
    BlockOfRow(g, values, c, p);
    var u, b := Uid(g, c, MixedRadix.High(p, g.blocks)), block[MixedRadix.Low(p, g.blocks)];
    assert u < |srcs| && b < g.blocks;
    assert srcs[u].encoded[b][..Cut(layers, k)] in decode;
  }

  /** The written archive is one the queries accept. */
  lemma {:induction false} WrittenIsValid(a: Archive, g: Grid, srcs: seq<Source>, block: seq<nat>, layers: seq<nat>, k: nat, decode: Decoder,
                                          encoded: seq<seq<Bytes>>, values: seq<seq<seq<Ext>>>)
    requires |block| == g.blocks && forall i :: 0 <= i < |block| ==> block[i] < |block|
    requires IsWritten(a, g, srcs, block, layers, k, decode, encoded, values) && DecodesSources(srcs, g.blocks, layers, k, decode)
    ensures ValidArchive(a)
  {
    forall c | 0 <= c < |a.store| ensures StoredChunk(a, c) {
      RowLength(g, encoded, c, g.Subs());
      RowLength(g, values, c, g.Subs());
      forall p | 0 <= p < a.n ensures Decodes(a, c, p) {
        WrittenDecodes(a, g, srcs, block, layers, k, decode, encoded, values, c, p);
      }
    }
  }

  lemma {:induction false} WrittenUnitsDecode(fp: Arith, g: Grid, srcs: seq<Source>, block: seq<nat>, recs: seq<Record>, units: seq<Unit>, values: seq<seq<seq<Ext>>>)
    requires |block| == g.blocks && forall i :: 0 <= i < |block| ==> block[i] < |block|
    requires |srcs| == |recs| == |units| == |values| && forall u :: 0 <= u < |srcs| ==> Recorded(fp, srcs[u], g.blocks, block, recs[u], units[u])
    requires forall u :: 0 <= u < |srcs| ==> |srcs[u].decoded| == g.blocks
    requires forall u :: 0 <= u < |srcs| ==> values[u] == Ranked(block, BlockFloats(srcs[u].decoded, g.blocks), g.blocks)
    ensures AreDecoded(units, values)
  {
    forall u | 0 <= u < |units| ensures AreBlocks(units[u].decoded, values[u]) {
      assert Recorded(fp, srcs[u], g.blocks, block, recs[u], units[u]);
      RankedDecode(srcs[u].decoded, g.blocks, block, units[u].decoded, values[u]);
    }
  }

  lemma {:induction false} RankedDecode(decoded: seq<seq<real>>, n: nat, block: seq<nat>, ranked: seq<seq<real>>, values: seq<seq<Ext>>)
    requires |decoded| == n == |block| && forall i :: 0 <= i < n ==> block[i] < n
    requires ranked == Ranked(block, decoded, n) && values == Ranked(block, BlockFloats(decoded, n), n)
    ensures AreBlocks(ranked, values)
  {
    forall b | 0 <= b < n ensures IsBlock(ranked[b], values[b]) {
      assert ranked[b] == decoded[block[b]] && values[b] == BlockFloats(decoded, n)[block[b]];
    }
  }

  lemma {:induction false} SourcesShaped(fp: Arith, g: Grid, srcs: seq<Source>, eps: seq<real>)
    requires g.Valid() && |srcs| == g.Units() && ValidSources(fp, srcs, g.blocks, eps)
    ensures Shaped(g, Encodings(srcs, |srcs|)) && Shaped(g, AllFloats(srcs, |srcs|))
    ensures forall u :: 0 <= u < |srcs| ==> |srcs[u].encoded| == |srcs[u].decoded| == g.blocks
  {
    forall u | 0 <= u < |srcs| ensures |srcs[u].encoded| == |srcs[u].decoded| == g.blocks {
      assert ValidSource(fp, srcs[u], g.blocks);
    }
  }

  lemma {:induction false} UnitsAreTrue(fp: Arith, g: Grid, srcs: seq<Source>, block: seq<nat>, recs: seq<Record>, units: seq<Unit>)
    requires |block| == g.blocks && forall i :: 0 <= i < |block| ==> block[i] < |block|
    requires |srcs| == |recs| == |units| && forall u :: 0 <= u < |srcs| ==> Recorded(fp, srcs[u], g.blocks, block, recs[u], units[u])
    ensures TrueUnits(fp, units, g.blocks) <==> AllKept(fp, srcs, block, recs)
    ensures forall u :: 0 <= u < |recs| ==> recs[u] == units[u].rec && recs[u].Shaped(g.blocks)
  {
    forall u | 0 <= u < |units|
      ensures (TrueUnit(fp, units[u], g.blocks) <==> UnitKept(fp, srcs[u], block, recs[u])) && recs[u] == units[u].rec && recs[u].Shaped(g.blocks)
    {
      assert Recorded(fp, srcs[u], g.blocks, block, recs[u], units[u]);
    }
  }

  /** The chunk objects with the tables they hold. */
  lemma {:induction false} StoreIsWritten(a: Archive, g: Grid, srcs: seq<Source>, block: seq<nat>, layers: seq<nat>, k: nat, decode: Decoder,
                                          store: seq<Bytes>, encoded: seq<seq<Bytes>>, values: seq<seq<seq<Ext>>>)
    requires g.Valid() && |srcs| == g.Units() && k <= |layers| && |block| == g.blocks && forall p :: 0 <= p < |block| ==> block[p] < |block|
    requires forall u :: 0 <= u < |srcs| ==> |srcs[u].encoded| == |srcs[u].decoded| == g.blocks
    requires encoded == RankedAll(block, Encodings(srcs, |srcs|), |srcs|) && values == RankedAll(block, AllFloats(srcs, |srcs|), |srcs|)
    requires Shaped(g, encoded) && Shaped(g, values) && |store| == g.Chunks()
    requires forall c :: 0 <= c < |store| ==>
               Whole(Row(g, encoded, c, g.Subs()), layers) && store[c] == Stored(Row(g, encoded, c, g.Subs()), layers, |layers|)
    requires a == Archive(layers, k, g.Subs() * g.blocks, store, Rows(g, encoded, g.Chunks()), Rows(g, values, g.Chunks()), decode)
    ensures IsWritten(a, g, srcs, block, layers, k, decode, encoded, values)
  {
  }

  /** The objects and records that were written are one archive, true of its sources exactly
    * when no value of any block is lost so. */
  lemma {:induction false} WrittenIsTrueArchive(fp: Arith, a: Archive, g: Grid, srcs: seq<Source>, block: seq<nat>, layers: seq<nat>, k: nat, decode: Decoder,
                                                encoded: seq<seq<Bytes>>, values: seq<seq<seq<Ext>>>, recs: seq<Record>, units: seq<Unit>)
    requires Binary64(fp) && |block| == g.blocks && (forall p :: 0 <= p < |block| ==> block[p] < |block|) && k > 0
    requires IsWritten(a, g, srcs, block, layers, k, decode, encoded, values) && DecodesSources(srcs, g.blocks, layers, k, decode)
    requires |srcs| == |recs| == |units| && forall u :: 0 <= u < |srcs| ==> Recorded(fp, srcs[u], g.blocks, block, recs[u], units[u])
    ensures TrueArchive(fp, a, g, recs, units, values) <==> AllKept(fp, srcs, block, recs)
  {
    WrittenIsValid(a, g, srcs, block, layers, k, decode, encoded, values);
    WrittenUnitsDecode(fp, g, srcs, block, recs, units, values);
    UnitsAreTrue(fp, g, srcs, block, recs, units);
  }

  /** Blocks of a chunk. */
  function PerChunk(g: Grid): (n: nat)
    requires g.Valid()
    ensures n == g.Subs() * g.blocks
  {
    MixedRadix.MulGrows(0, g.Subs(), g.blocks);
    g.Subs() * g.blocks
  }

  /** The same for the chunk objects and the tables behind them. */
  lemma {:induction false} FilesAreTrue(fp: Arith, g: Grid, srcs: seq<Source>, block: seq<nat>, layers: seq<nat>, k: nat, decode: Decoder,
                                        store: seq<Bytes>, encoded: seq<seq<Bytes>>, values: seq<seq<seq<Ext>>>, recs: seq<Record>, units: seq<Unit>)
    returns (a: Archive)
    requires Ieee.IsIeee(fp) && g.Valid() && |srcs| == g.Units() && 0 < k <= |layers| && |block| == g.blocks
    requires (forall p :: 0 <= p < |block| ==> block[p] < |block|) && Shaped(g, Encodings(srcs, |srcs|)) && Shaped(g, AllFloats(srcs, |srcs|))
    requires forall u :: 0 <= u < |srcs| ==> |srcs[u].encoded| == |srcs[u].decoded| == g.blocks
    requires encoded == RankedAll(block, Encodings(srcs, |srcs|), |srcs|) && values == RankedAll(block, AllFloats(srcs, |srcs|), |srcs|)
    requires Shaped(g, encoded) && Shaped(g, values) && |store| == g.Chunks()
    requires forall c :: 0 <= c < |store| ==>
               Whole(Row(g, encoded, c, g.Subs()), layers) && store[c] == Stored(Row(g, encoded, c, g.Subs()), layers, |layers|)
    requires |srcs| == |recs| == |units| && forall u :: 0 <= u < |srcs| ==> Recorded(fp, srcs[u], g.blocks, block, recs[u], units[u])
    requires DecodesSources(srcs, g.blocks, layers, k, decode)
    ensures a.store == store && a.layers == layers && a.k == k && a.decode == decode
    ensures TrueArchive(fp, a, g, recs, units, values) <==> AllKept(fp, srcs, block, recs)
    ensures IsRankedTable(srcs, block, values)
  {
    a := Archive(layers, k, PerChunk(g), store, Rows(g, encoded, g.Chunks()), Rows(g, values, g.Chunks()), decode);
    StoreIsWritten(a, g, srcs, block, layers, k, decode, store, encoded, values);
    Ieee.IeeeIsBinary64(fp);
    WrittenIsTrueArchive(fp, a, g, srcs, block, layers, k, decode, encoded, values, recs, units);
  }

  /** The written values and error bounds are float32, as the aggregate asks. */
  lemma {:induction false} WrittenIsFloat(fp: Arith, srcs: seq<Source>, n: nat, eps: seq<real>, block: seq<nat>, grid: seq<Ext>, above: real -> real,
                                          recs: seq<Record>, units: seq<Unit>)
    requires Ieee.IsIeee(fp) && ValidSources(fp, srcs, n, eps) && |block| == n && (forall p :: 0 <= p < n ==> block[p] < n)
    requires ArrayAggregate.FloatGrid(fp, grid) && ArrayAggregate.IsAbove(grid, above) && forall u :: 0 <= u < |eps| ==> Fin(eps[u]) in grid
    requires |recs| == |units| == |srcs| && forall u :: 0 <= u < |srcs| ==> Recorded(fp, srcs[u], n, block, recs[u], units[u]) && recs[u].eps == eps[u]
    ensures ArrayAggregate.FloatArchive(fp, above, grid, units)
  {
    forall u | 0 <= u < |units|
      ensures ArrayAggregate.FloatUnit(fp, units[u]) && ArrayAggregate.FloatRecord(fp, grid, units[u].rec)
    {
      UnitIsFloat(fp, srcs[u], n, eps[u], block, grid, recs[u], units[u]);
    }
  }

  lemma {:induction false} UnitIsFloat(fp: Arith, src: Source, n: nat, eps: real, block: seq<nat>, grid: seq<Ext>, rec: Record, u: Unit)
    requires Ieee.IsIeee(fp) && ValidSource(fp, src, n) && IsBound(fp, src, eps) && |block| == n && (forall p :: 0 <= p < n ==> block[p] < n)
    requires Fin(eps) in grid && Recorded(fp, src, n, block, rec, u) && rec.eps == eps
    ensures ArrayAggregate.FloatUnit(fp, u) && ArrayAggregate.FloatRecord(fp, grid, u.rec)
  {
    SingleIsFloat(fp, eps);
    SingleIsCoded(fp, eps);
    SourceIsFloat(fp, src, n, block, u);
  }

  lemma {:induction false} SourceIsFloat(fp: Arith, src: Source, n: nat, block: seq<nat>, u: Unit)
    requires Ieee.IsIeee(fp) && ValidSource(fp, src, n) && |block| == n && (forall p :: 0 <= p < n ==> block[p] < n)
    requires u.decoded == Ranked(block, src.decoded, n)
    ensures ArrayAggregate.FloatUnit(fp, u)
  {
    forall b, i | 0 <= b < n && 0 <= i < |u.decoded[b]| ensures IsFloat(fp, u.decoded[b][i]) {
      assert ValidBlock(fp, src.orig[block[b]], src.decoded[block[b]]);
      assert ValidPair(fp, src.orig[block[b]][i], src.decoded[block[b]][i]);
      SingleIsFloat(fp, u.decoded[b][i]);
    }
  }

  /** Write, then query: for every shape of units, order of blocks, number of layers and kind
    * of error bounds, the chunk objects and the records written for an array are such that
    * the records are true of it, as every query assumes, exactly when no value of any block
    * is swallowed (Float32.Swallowed); and its values and bounds are float32, as the
    * aggregate assumes. */
  method WriteArray(fp: Arith, g: Grid, s: Shape, o: Order, srcs: seq<Source>, layers: seq<nat>, eps: seq<real>, bits: bool,
                    ghost k: nat, ghost decode: Decoder, ghost grid: seq<Ext>, ghost above: real -> real)
    returns (store: seq<Bytes>, recs: seq<Record>, ghost a: Archive, ghost units: seq<Unit>, ghost values: seq<seq<seq<Ext>>>)
    requires Ieee.IsIeee(fp) && g.Valid() && s.Valid() && o.Valid() && s.Blocks() == g.blocks
    requires |srcs| == g.Units() && ValidSources(fp, srcs, g.blocks, eps) && AreWhole(srcs, layers)
    requires 0 < k <= |layers| && DecodesSources(srcs, g.blocks, layers, k, decode)
    requires ArrayAggregate.FloatGrid(fp, grid) && ArrayAggregate.IsAbove(grid, above) && forall u :: 0 <= u < |eps| ==> Fin(eps[u]) in grid
    ensures a.store == store && a.layers == layers && a.k == k && a.decode == decode
    ensures TrueArchive(fp, a, g, recs, units, values) <==> AllKept(fp, srcs, BlocksAt(s, o, s.Blocks()), recs)
    ensures IsRankedTable(srcs, BlocksAt(s, o, s.Blocks()), values)
    ensures ArrayAggregate.FloatArchive(fp, above, grid, units)
    ensures HoldSources(srcs, BlocksAt(s, o, s.Blocks()), units)
    ensures |store| == g.Chunks() && |recs| == |eps| && forall u :: 0 <= u < |recs| ==> recs[u].eps == eps[u]
  {
    var rank := BlockRank(s, o, s.Blocks());
    ghost var block := BlocksAt(s, o, s.Blocks());
    BlockRankIsPermutation(s, o);
    SourcesShaped(fp, g, srcs, eps);
    ghost var encoded := RankedAll(block, Encodings(srcs, |srcs|), |srcs|);
    values := RankedAll(block, AllFloats(srcs, |srcs|), |srcs|);
    store, recs, units := WriteFiles(fp, g, srcs, layers, eps, bits, rank, block, encoded);
    a := FilesAreTrue(fp, g, srcs, block, layers, k, decode, store, encoded, values, recs, units);
    WrittenIsFloat(fp, srcs, g.blocks, eps, block, grid, above, recs, units);
    RecordedHold(fp, srcs, g.blocks, block, recs, units);
  }

  /** The units hold the sources' originals and decoded values in storage order. */
  ghost predicate HoldSources(srcs: seq<Source>, block: seq<nat>, units: seq<Unit>) {
    && |units| == |srcs| && (forall p :: 0 <= p < |block| ==> block[p] < |block|)
    && forall u :: 0 <= u < |srcs| ==>
         && |srcs[u].orig| == |srcs[u].decoded| == |block|
         && units[u].orig == Ranked(block, srcs[u].orig, |block|) && units[u].decoded == Ranked(block, srcs[u].decoded, |block|)
  }

  lemma {:induction false} RecordedHold(fp: Arith, srcs: seq<Source>, n: nat, block: seq<nat>, recs: seq<Record>, units: seq<Unit>)
    requires |block| == n && (forall p :: 0 <= p < n ==> block[p] < n) && |recs| == |units| == |srcs|
    requires forall u :: 0 <= u < |srcs| ==> Recorded(fp, srcs[u], n, block, recs[u], units[u])
    ensures HoldSources(srcs, block, units)
  {
  }

  /** values are the sources' decoded blocks in storage order. */
  ghost predicate IsRankedTable(srcs: seq<Source>, block: seq<nat>, values: seq<seq<seq<Ext>>>) {
    && |values| == |srcs| && (forall p :: 0 <= p < |block| ==> block[p] < |block|)
    && forall u :: 0 <= u < |srcs| ==>
         |srcs[u].decoded| == |block| && values[u] == Ranked(block, BlockFloats(srcs[u].decoded, |block|), |block|)
  }

  /** The chunk objects and the zone map. */
  method WriteFiles(fp: Arith, g: Grid, srcs: seq<Source>, layers: seq<nat>, eps: seq<real>, bits: bool, rank: seq<nat>,
                    ghost block: seq<nat>, ghost encoded: seq<seq<Bytes>>)
    returns (store: seq<Bytes>, recs: seq<Record>, ghost units: seq<Unit>)
    requires Ieee.IsIeee(fp) && g.Valid() && |srcs| == g.Units() && ValidSources(fp, srcs, g.blocks, eps) && AreWhole(srcs, layers)
    requires Inverse(rank, block) && |block| == g.blocks && Shaped(g, Encodings(srcs, |srcs|))
    requires Shaped(g, encoded) && encoded == RankedAll(block, Encodings(srcs, |srcs|), |srcs|)
    ensures |store| == g.Chunks()
    ensures forall c :: 0 <= c < |store| ==>
              Whole(Row(g, encoded, c, g.Subs()), layers) && store[c] == Stored(Row(g, encoded, c, g.Subs()), layers, |layers|)
    ensures |recs| == |units| == |srcs| && forall u :: 0 <= u < |srcs| ==> Recorded(fp, srcs[u], g.blocks, block, recs[u], units[u]) && recs[u].eps == eps[u]
  {
    store := WriteChunks(g, srcs, layers, rank, block, Encodings(srcs, |srcs|), encoded);
    recs, units := WriteRecords(fp, srcs, g.blocks, eps, bits, rank, block);
  }
}
