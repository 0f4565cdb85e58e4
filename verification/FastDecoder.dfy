/** szfp_fast_decode and szfp_fast_count: whatever steps the CPU supports, a block
  * decodes to the same 64 values, and counting in registers counts the same. */
module FastDecoder {
  import opened Bits
  import SerialDecoder
  import PlaneDecoder
  import opened Transform
  import opened Coefficients
  import opened FloatBounds

  const BLOCK_BYTES_MAX: nat := 256

  /** A decoded block before scaling: all zero, or 64 integers times 2^(emax - 30). */
  datatype Content = AllZero | Scaled(emax: int, values: Block)

  /** The meaning of a block, by the bit-serial reference alone: a flag bit, 8 bits of
    * exponent, then the planes up to the last bit of the block. */
  ghost predicate Decodes(src: seq<Byte>, c: Content)
    requires |src| >= 2
  {
    if !Stream(src)[0] then c == AllZero
    else
      && c.Scaled? && c.emax == Value(Stream(src)[1..9]) - 127
      && exists u: seq<Word32> ::
           Transposed(SerialDecoder.Planes(Stream(src)[9..], 0, Transform.PLANES), u) && BlockValues(u, c.values)
  }

  lemma {:induction false} DecodesUnique(src: seq<Byte>, c: Content, d: Content)
    requires |src| >= 2 && Decodes(src, c) && Decodes(src, d)
    ensures c == d
  {
    if Stream(src)[0] {
      var ps := SerialDecoder.Planes(Stream(src)[9..], 0, Transform.PLANES);
      var u: seq<Word32> :| Transposed(ps, u) && BlockValues(u, c.values);
      var v: seq<Word32> :| Transposed(ps, v) && BlockValues(v, d.values);
      TransposeIsUnique(ps, u, v);
      BlockValuesUnique(u, c.values, d.values);
    }
  }

  lemma {:induction false} StreamAppend(a: seq<Byte>, b: seq<Byte>)
    ensures Stream(a + b) == Stream(a) + Stream(b)
  {
    if a == [] {
      assert a + b == b;
    } else {
      assert (a + b)[1..] == a[1..] + b;
      StreamAppend(a[1..], b);
    }
  }

  function Padding(k: nat): (p: seq<Byte>)
    ensures |p| == k
  {
    if k == 0 then [] else [Repeat(false, 8)] + Padding(k - 1)
  }

  /** memcpy of the block and 8 zero bytes; the stream of the block is unchanged. */
  method PaddedCopy(src: seq<Byte>) returns (buf: seq<Byte>)
    requires |src| >= 2
    ensures |buf| == |src| + 8
    ensures forall p :: 0 <= p < 8 * |src| ==> Stream(buf)[p] == Stream(src)[p]
    ensures Stream(buf)[1..9] == Stream(src)[1..9]
    ensures Stream(buf)[9..8 * |src|] == Stream(src)[9..]
  {
    var eight := 8;
    buf := src + Padding(eight);
    StreamAppend(src, Padding(eight));
  }

  lemma {:induction false} ExponentBit(buf: seq<Byte>, i: nat)
    requires |buf| >= 10 && i < 8
    ensures LowBits(Peek(buf, 1), 8)[i] == Stream(buf)[1 + i]
  {
    PeekBit(buf, 1, i);
  }

  /** (peek(buf, 1) & 0xff) - 127 */
  method ReadExponent(buf: seq<Byte>) returns (emax: int)
    requires |buf| >= 10
    ensures emax == Value(Stream(buf)[1..9]) - 127
  {
    var low: seq<bool> := LowBits(Peek(buf, 1), 8)[..8];
    forall i | 0 <= i < 8 ensures low[i] == Stream(buf)[1 + i] {
      ExponentBit(buf, i);
    }
    assert low == Stream(buf)[1..9];
    emax := Value(low) - 127;
  }

  /** The flag bit of a block. */
  method ReadFlag(buf: seq<Byte>) returns (flag: bool)
    requires |buf| >= 10
    ensures flag == Stream(buf)[0]
  {
    PeekBit(buf, 0, 0);
    flag := Peek(buf, 0)[0];
  }

  /** The planes of a padded block, by either parser. */
  method BlockPlanes(buf: seq<Byte>, nbytes: nat, bmi2: bool) returns (ps: seq<Word>)
    requires nbytes >= 2 && |buf| == nbytes + 8
    ensures ps == SerialDecoder.Planes(Stream(buf)[9..8 * nbytes], 0, Transform.PLANES) && |ps| <= Transform.PLANES
  {
    var planes: array<Word> := new Word[PlaneDecoder.PLANES];
    var np;
    if bmi2 {
      np := PlaneDecoder.DecodePlanesBmi2(buf, 9, 8 * nbytes - 9, planes);
    } else {
      np := PlaneDecoder.DecodePlanes(buf, 9, 8 * nbytes - 9, planes);
    }
    ps := planes[..np];
  }

  /** The transposed coefficients, by either transpose. */
  method BlockCoefficients(ps: seq<Word>, vectors: bool) returns (u: seq<Word32>)
    requires |ps| <= Transform.PLANES
    ensures Transposed(ps, u)
  {
    if vectors {
      u := TransposeVector(ps);
    } else {
      var a: array<Word32> := new Word32[64];
      TransposeScalar(ps, a);
      u := a[..];
    }
  }

  /** The 64 integer values, by either tail. */
  method BlockTail(u: seq<Word32>, inv: seq<nat>, vectors: bool) returns (b: Block)
    requires |u| == 64 && IsInverseTable(inv)
    ensures BlockValues(u, b)
  {
    if vectors {
      b := AsBlock(VectorTransform(GatherAll(u, inv)));
      GatheredBlock(u, inv);
    } else {
      var a := new int[64];
      TailScalar(u, a);
      b := a[..];
    }
  }

  lemma {:induction false} ScaledDecodes(src: seq<Byte>, emax: int, u: seq<Word32>, b: Block)
    requires |src| >= 2 && Stream(src)[0] && emax == Value(Stream(src)[1..9]) - 127
    requires Transposed(SerialDecoder.Planes(Stream(src)[9..], 0, Transform.PLANES), u) && BlockValues(u, b)
    ensures Decodes(src, Scaled(emax, b))
  {
  }

  /** szfp_fast_decode, up to the final multiplication by the scale. */
  method FastDecode(src: seq<Byte>, inv: seq<nat>, bmi2: bool, vectorTranspose: bool, vectorTail: bool)
    returns (c: Content)
    requires 2 <= |src| <= BLOCK_BYTES_MAX && IsInverseTable(inv)
    ensures Decodes(src, c)
  {
    var buf := PaddedCopy(src);
    var flag := ReadFlag(buf);
    if !flag {
      return AllZero;
    }
    var emax := ReadExponent(buf);
    var ps := BlockPlanes(buf, |src|, bmi2);
    var u := BlockCoefficients(ps, vectorTranspose);
    var b := BlockTail(u, inv, vectorTail);
    ScaledDecodes(src, emax, u, b);
    c := Scaled(emax, b);
  }

  // ---- counting ----

  /** The float value of each integer: s * (float)i with s = 2^(emax - 30). */
  type Scale = (int, int) -> Ext

  /** Every scaled value is a float. */
  ghost predicate OntoGrid(value: Scale, grid: seq<Ext>) {
    forall e: int, i: int {:trigger value(e, i)} :: value(e, i) in grid
  }

  function Scaled64(b: seq<int>, emax: int, value: Scale): (v: seq<Ext>)
    ensures |v| == |b|
    ensures forall i :: 0 <= i < |b| ==> v[i] == value(emax, b[i])
  {
    if b == [] then [] else [value(emax, b[0])] + Scaled64(b[1..], emax, value)
  }

  function ZeroValues(k: nat): (v: seq<Ext>)
    ensures |v| == k && forall i :: 0 <= i < k ==> v[i] == Fin(0.0)
  {
    if k == 0 then [] else [Fin(0.0)] + ZeroValues(k - 1)
  }

  /** The 64 floats a block decodes to. */
  function Floats(c: Content, value: Scale): (v: seq<Ext>)
  {
    match c
    case AllZero => ZeroValues(64)
    case Scaled(emax, b) => Scaled64(b, emax, value)
  }

  lemma {:induction false} CountScaled(b: seq<int>, emax: int, value: Scale, hit: int -> bool, lo: Ext, hi: Ext)
    requires forall i {:trigger hit(i)} :: hit(i) <==> InRange(value(emax, i), lo, hi)
    ensures Count(b, hit) == CountRange(Scaled64(b, emax, value), lo, hi)
  {
    if b != [] {
      CountScaled(b[1..], emax, value, hit, lo, hi);
      assert Scaled64(b, emax, value)[1..] == Scaled64(b[1..], emax, value);
      assert hit(b[0]) <==> InRange(value(emax, b[0]), lo, hi);
    }
  }

  lemma {:induction false} CountZeros(k: nat, lo: Ext, hi: Ext)
    ensures CountRange(ZeroValues(k), lo, hi) == if InRange(Fin(0.0), lo, hi) then k else 0
  {
    if k > 0 {
      CountZeros(k - 1, lo, hi);
    }
  }

  /** Bounds rounded down to floats select the same decoded values. */
  lemma {:induction false} CountWithFloatBounds(v: seq<Ext>, grid: seq<Ext>, lo: Ext, hi: Ext, castLo: Ext, castHi: Ext)
    requires IsGrid(grid) && IsCast(grid, lo, castLo) && IsCast(grid, hi, castHi)
    requires forall i :: 0 <= i < |v| ==> v[i] in grid
    ensures CountRange(v, FloatAtMost(grid, lo, castLo), FloatAtMost(grid, hi, castHi)) == CountRange(v, lo, hi)
  {
    if v != [] {
      FloatAtMostCompares(grid, lo, castLo, v[0]);
      FloatAtMostCompares(grid, hi, castHi, v[0]);
      CountWithFloatBounds(v[1..], grid, lo, hi, castLo, castHi);
    }
  }

  /** n counts the values in range of the one block that the coefficients stand for. */
  ghost predicate CountsBlock(n: nat, u: seq<Word32>, emax: int, lo: Ext, hi: Ext, value: Scale)
    requires |u| == 64
  {
    && (exists b: Block :: BlockValues(u, b))
    && forall b: Block :: BlockValues(u, b) ==> n == CountRange(Scaled64(b, emax, value), lo, hi)
  }

  /** n counts the floats in range of the one content that the bytes decode to. */
  ghost predicate CountsContent(n: nat, src: seq<Byte>, lo: Ext, hi: Ext, value: Scale)
    requires |src| >= 2
  {
    && (exists c :: Decodes(src, c))
    && forall c :: Decodes(src, c) ==> n == CountRange(Floats(c, value), lo, hi)
  }

  /** tail_count_avx512 on the coefficients of one block, whose values it never stores. */
  method TailCount(u: seq<Word32>, inv: seq<nat>, emax: int, lo: Ext, hi: Ext, value: Scale) returns (n: nat)
    requires |u| == 64 && IsInverseTable(inv)
    ensures CountsBlock(n, u, emax, lo, hi, value)
  {
    var hit := i => InRange(value(emax, i), lo, hi);
    n := CountVectors(VectorLifts(GatherAll(u, inv)), hit);
    GatheredBlock(u, inv);
    FusedBlockCount(n, u, inv, emax, lo, hi, value, hit);
  }

  lemma {:induction false} FusedBlockCount(n: nat, u: seq<Word32>, inv: seq<nat>, emax: int, lo: Ext, hi: Ext, value: Scale, hit: int -> bool)
    requires |u| == 64 && IsInverseTable(inv) && n == CountVectors(VectorLifts(GatherAll(u, inv)), hit)
    requires (exists b: Block :: BlockValues(u, b)) && forall i {:trigger hit(i)} :: hit(i) <==> InRange(value(emax, i), lo, hi)
    ensures CountsBlock(n, u, emax, lo, hi, value)
  {
    var b: Block :| BlockValues(u, b);
    FusedCountIsCount(u, inv, b, hit);
    BlockCount(n, u, b, emax, lo, hi, value, hit);
  }

  lemma {:induction false} BlockCount(n: nat, u: seq<Word32>, b: Block, emax: int, lo: Ext, hi: Ext, value: Scale, hit: int -> bool)
    requires |u| == 64 && BlockValues(u, b) && n == Count(b, hit)
    requires forall i {:trigger hit(i)} :: hit(i) <==> InRange(value(emax, i), lo, hi)
    ensures CountsBlock(n, u, emax, lo, hi, value)
  {
    CountScaled(b, emax, value, hit, lo, hi);
    OneBlock(n, u, b, emax, lo, hi, value);
  }

  lemma {:induction false} OneBlock(n: nat, u: seq<Word32>, b: Block, emax: int, lo: Ext, hi: Ext, value: Scale)
    requires |u| == 64 && BlockValues(u, b) && n == CountRange(Scaled64(b, emax, value), lo, hi)
    ensures CountsBlock(n, u, emax, lo, hi, value)
  {
    forall d: Block | BlockValues(u, d) ensures d == b {
      BlockValuesUnique(u, d, b);
    }
  }

  lemma {:induction false} OneContent(n: nat, src: seq<Byte>, c: Content, lo: Ext, hi: Ext, value: Scale)
    requires |src| >= 2 && Decodes(src, c) && n == CountRange(Floats(c, value), lo, hi)
    ensures CountsContent(n, src, lo, hi, value)
  {
    forall d | Decodes(src, d) ensures d == c {
      DecodesUnique(src, d, c);
    }
  }

  /** szfp_fast_count: the values are compared in registers and never stored. */
  method FastCount(src: seq<Byte>, inv: seq<nat>, bmi2: bool, lo: Ext, hi: Ext, value: Scale) returns (n: nat)
    requires 2 <= |src| <= BLOCK_BYTES_MAX && IsInverseTable(inv)
    ensures CountsContent(n, src, lo, hi, value)
  {
    var buf := PaddedCopy(src);
    var flag := ReadFlag(buf);
    if !flag {
      n := if lo.Less(Fin(0.0)) && Fin(0.0).AtMost(hi) then 64 else 0;
      ZeroBlock(n, src, 64, lo, hi, value);
    } else {
      var emax := ReadExponent(buf);
      var ps := BlockPlanes(buf, |src|, bmi2);
      var u := BlockCoefficients(ps, true);
      n := TailCount(u, inv, emax, lo, hi, value);
      ScaledBlock(n, src, emax, u, lo, hi, value);
    }
  }

  lemma {:induction false} ZeroBlock(n: nat, src: seq<Byte>, k: nat, lo: Ext, hi: Ext, value: Scale)
    requires |src| >= 2 && !Stream(src)[0] && k == 64 && n == if InRange(Fin(0.0), lo, hi) then k else 0
    ensures CountsContent(n, src, lo, hi, value)
  {
    CountZeros(k, lo, hi);
    OneContent(n, src, AllZero, lo, hi, value);
  }

  lemma {:induction false} ScaledBlock(n: nat, src: seq<Byte>, emax: int, u: seq<Word32>, lo: Ext, hi: Ext, value: Scale)
    requires |src| >= 2 && Stream(src)[0] && emax == Value(Stream(src)[1..9]) - 127
    requires Transposed(SerialDecoder.Planes(Stream(src)[9..], 0, Transform.PLANES), u) && CountsBlock(n, u, emax, lo, hi, value)
    ensures CountsContent(n, src, lo, hi, value)
  {
    var b: Block :| BlockValues(u, b);
    ScaledDecodes(src, emax, u, b);
    OneContent(n, src, Scaled(emax, b), lo, hi, value);
  }

  /** The fused count with bounds rounded down to floats is the count of the decoded
    * values with the double bounds, all-zero blocks included. */
  method FusedCount(src: seq<Byte>, inv: seq<nat>, bmi2: bool, loF: Ext, hiF: Ext, value: Scale,
                    ghost grid: seq<Ext>, ghost lo: Ext, ghost hi: Ext, ghost castLo: Ext, ghost castHi: Ext)
    returns (n: nat)
    requires 2 <= |src| <= BLOCK_BYTES_MAX && IsInverseTable(inv)
    requires IsGrid(grid) && IsCast(grid, lo, castLo) && IsCast(grid, hi, castHi)
    requires Fin(0.0) in grid && OntoGrid(value, grid)
    requires loF == FloatAtMost(grid, lo, castLo) && hiF == FloatAtMost(grid, hi, castHi)
    ensures CountsContent(n, src, lo, hi, value)
  {
    n := FastCount(src, inv, bmi2, loF, hiF, value);
    ghost var c :| Decodes(src, c);
    FloatsOnGrid(c, value, grid);
    CountWithFloatBounds(Floats(c, value), grid, lo, hi, castLo, castHi);
    OneContent(n, src, c, lo, hi, value);
  }

  lemma {:induction false} ValueOnGrid(value: Scale, grid: seq<Ext>, e: int, i: int)
    requires OntoGrid(value, grid)
    ensures value(e, i) in grid
  {
  }

  lemma {:induction false} FloatsOnGrid(c: Content, value: Scale, grid: seq<Ext>)
    requires Fin(0.0) in grid && OntoGrid(value, grid)
    ensures forall i :: 0 <= i < |Floats(c, value)| ==> Floats(c, value)[i] in grid
  {
    if c.Scaled? {
      forall i | 0 <= i < 64 ensures Floats(c, value)[i] in grid {
        ValueOnGrid(value, grid, c.emax, c.values[i]);
      }
    }
  }
}
