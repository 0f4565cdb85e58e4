/** szfp_count_offsets_range with its decoders: counting fused into the decoder or after it,
  * the blocks at the offsets count as Query.CountOffsets says. */
module FusedQuery {
  import opened Bits
  import opened FloatBounds
  import opened Layout
  import opened Query
  import Coefficients
  import FastDecoder

  /** The low k bits of n, lowest first. */
  function LowestBits(n: nat, k: nat): (r: seq<bool>)
    ensures |r| == k
  {
    if k == 0 then [] else [n % 2 == 1] + LowestBits(n / 2, k - 1)
  }

  lemma {:induction false} BitsKeepValue(n: nat, k: nat)
    requires n < Pow2(k)
    ensures Value(LowestBits(n, k)) == n
  {
    if k > 0 {
      BitsKeepValue(n / 2, k - 1);
      assert LowestBits(n, k)[1..] == LowestBits(n / 2, k - 1);
    }
  }

  /** A buffer's bytes as the decoder reads them, bit by bit. */
  function Bytewise(x: Bytes, n: nat): (r: seq<Byte>)
    requires n <= |x|
    ensures |r| == n
  {
    if n == 0 then [] else Bytewise(x, n - 1) + [LowestBits(x[n - 1], 8)]
  }

  /** v are the floats that the block x stands for. */
  ghost predicate Means(x: Bytes, v: seq<Ext>, value: FastDecoder.Scale) {
    |x| >= 2 && exists c :: FastDecoder.Decodes(Bytewise(x, |x|), c) && v == FastDecoder.Floats(c, value)
  }

  /** Every block of so many bytes decodes to what it stands for. */
  ghost predicate IsCodec(decode: Decoder, size: nat, value: FastDecoder.Scale) {
    forall x {:trigger Means(x, decode[x], value)} :: x in decode && |x| == size ==> Means(x, decode[x], value)
  }

  /** What the CPU offers, and the table and bounds that the decoder uses. */
  datatype Codec = Codec(inv: seq<nat>, fused: bool, bmi2: bool, vectorTranspose: bool, vectorTail: bool,
                         lo: Ext, hi: Ext, loF: Ext, hiF: Ext, value: FastDecoder.Scale)

  /** The float bounds are float_at_most of the double ones, and scaled values are floats. */
  ghost predicate ValidCodec(q: Codec, grid: seq<Ext>, castLo: Ext, castHi: Ext) {
    && Coefficients.IsInverseTable(q.inv) && IsGrid(grid) && IsCast(grid, q.lo, castLo) && IsCast(grid, q.hi, castHi)
    && Fin(0.0) in grid && FastDecoder.OntoGrid(q.value, grid)
    && q.loF == FloatAtMost(grid, q.lo, castLo) && q.hiF == FloatAtMost(grid, q.hi, castHi)
  }

  /** One block, counted in registers or after decoding. */
  method CountBlock(q: Codec, x: Bytes, ghost v: seq<Ext>, ghost grid: seq<Ext>, ghost castLo: Ext, ghost castHi: Ext) returns (n: nat)
    requires ValidCodec(q, grid, castLo, castHi) && 2 <= |x| <= FastDecoder.BLOCK_BYTES_MAX && Means(x, v, q.value)
    ensures n == CountRange(v, q.lo, q.hi)
  {
    var src := Bytewise(x, |x|);
    if q.fused {
      n := FastDecoder.FusedCount(src, q.inv, q.bmi2, q.loF, q.hiF, q.value, grid, q.lo, q.hi, castLo, castHi);
    } else {
      var c := FastDecoder.FastDecode(src, q.inv, q.bmi2, q.vectorTranspose, q.vectorTail);
      OneMeaning(x, v, q.value, c);
      n := CountInRange(FastDecoder.Floats(c, q.value), q.lo, q.hi);
    }
  }

  lemma {:induction false} OneMeaning(x: Bytes, v: seq<Ext>, value: FastDecoder.Scale, c: FastDecoder.Content)
    requires Means(x, v, value) && FastDecoder.Decodes(Bytewise(x, |x|), c)
    ensures v == FastDecoder.Floats(c, value)
  {
    var d :| FastDecoder.Decodes(Bytewise(x, |x|), d) && v == FastDecoder.Floats(d, value);
    FastDecoder.DecodesUnique(Bytewise(x, |x|), c, d);
  }

  /** The blocks at the offsets, with the contract of Query.CountOffsets for a decoder that
    * decodes every block to what it stands for. */
  method CountOffsets(q: Codec, data: Bytes, offsets: seq<nat>, size: nat, ghost decode: Decoder, ghost blocks: seq<Bytes>,
                      ghost grid: seq<Ext>, ghost castLo: Ext, ghost castHi: Ext)
    returns (r: Counted)
    requires ValidCodec(q, grid, castLo, castHi) && 2 <= size <= FastDecoder.BLOCK_BYTES_MAX && IsCodec(decode, size, q.value)
    requires |blocks| == |offsets|
    requires forall i :: 0 <= i < |offsets| && offsets[i] + size <= |data| ==> blocks[i] == data[offsets[i]..offsets[i] + size] && blocks[i] in decode
    ensures r.SizeError? <==> !InBounds(data, offsets, size)
    ensures r.Ok? ==> (forall i :: 0 <= i < |blocks| ==> blocks[i] in decode) && r.n == DecodedHits(blocks, decode, q.lo, q.hi, |blocks|)
  {
    for i := 0 to |offsets|
      invariant forall k :: 0 <= k < i ==> offsets[k] + size <= |data|
    {
      if offsets[i] > |data| || |data| - offsets[i] < size {
        return SizeError;
      }
    }
    var n: nat := 0;
    for i := 0 to |offsets|
      invariant (forall k :: 0 <= k < |blocks| ==> blocks[k] in decode) && n == DecodedHits(blocks, decode, q.lo, q.hi, i)
    {
      var x := data[offsets[i]..offsets[i] + size];
      assert Means(x, decode[x], q.value);
      var m := CountBlock(q, x, decode[x], grid, castLo, castHi);
      n := n + m;
    }
    return Ok(n);
  }
}
