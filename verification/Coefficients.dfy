/** From the decoded planes of a block to its 64 values, by the scalar steps and by
  * the vector steps of fastdec.c, and the counting that never stores the values. */
module Coefficients {
  import opened Bits
  import opened Transform
  import SerialDecoder

  // ---- the plane transpose ----

  /** Coefficient i has plane j's bit i as its bit 31 - j, and 0 below the last plane. */
  ghost predicate Transposed(planes: seq<Word>, u: seq<Word32>) {
    && |planes| <= PLANES && |u| == 64
    && forall i, b {:trigger u[i][b]} :: 0 <= i < 64 && 0 <= b < 32 ==>
         u[i][b] == (31 - b < |planes| && planes[31 - b][i])
  }

  lemma {:induction false} TransposeIsUnique(planes: seq<Word>, u: seq<Word32>, v: seq<Word32>)
    requires Transposed(planes, u) && Transposed(planes, v)
    ensures u == v
  {
    forall i | 0 <= i < 64 ensures u[i] == v[i] {
      forall b | 0 <= b < 32 ensures u[i][b] == v[i][b] {
      }
    }
  }

  lemma {:induction false} SharedPlanes(short: seq<Word>, full: seq<Word>, u: seq<Word32>, v: seq<Word32>, i: nat, b: nat)
    requires Transposed(short, u) && Transposed(full, v)
    requires |short| <= |full| && forall j :: 0 <= j < |short| - 1 ==> short[j] == full[j]
    requires i < 64 && b < 32 && 31 - b < |short| - 1
    ensures u[i][b] == v[i][b]
  {
    assert short[31 - b] == full[31 - b];
  }

  /** Of two budgets of one buffer the shorter one, a layered prefix of the block, decodes to
    * coefficients that differ from those of the longer one only below its last plane. */
  lemma {:induction false} PrefixCoefficients(s: seq<bool>, pos: nat, short: nat, long: nat, u: seq<Word32>, v: seq<Word32>, i: nat, b: nat)
    requires pos + short <= pos + long <= |s| && i < 64 && b < 32
    requires Transposed(SerialDecoder.Planes(s[pos..pos + short], 0, PLANES), u)
    requires Transposed(SerialDecoder.Planes(s[pos..pos + long], 0, PLANES), v)
    ensures 31 - b < |SerialDecoder.Planes(s[pos..pos + short], 0, PLANES)| - 1 ==> u[i][b] == v[i][b]
  {
    SerialDecoder.PrefixBudget(s, pos, short, long);
    if 31 - b < |SerialDecoder.Planes(s[pos..pos + short], 0, PLANES)| - 1 {
      SharedPlanes(SerialDecoder.Planes(s[pos..pos + short], 0, PLANES), SerialDecoder.Planes(s[pos..pos + long], 0, PLANES), u, v, i, b);
    }
  }

  /** The state while plane j is spread over the coefficients: rest is what is left of it. */
  ghost predicate Spreading(planes: seq<Word>, j: nat, rest: Word, u: seq<Word32>) {
    && j < |planes| <= PLANES && |u| == 64
    && forall i, b {:trigger u[i][b]} :: 0 <= i < 64 && 0 <= b < 32 ==>
         u[i][b] == if b == 31 - j then planes[j][i] && !rest[i]
                    else 31 - b < j && planes[31 - b][i]
  }

  lemma {:induction false} SpreadStep(planes: seq<Word>, j: nat, rest: Word, u: seq<Word32>, next: seq<Word32>)
    requires Spreading(planes, j, rest, u) && Ctz(rest) < 64
    requires forall i :: 0 <= i < 64 ==> rest[i] ==> planes[j][i]
    requires next == u[Ctz(rest) := u[Ctz(rest)][31 - j := true]]
    ensures Spreading(planes, j, rest[Ctz(rest) := false], next)
  {
  }

  lemma {:induction false} SpreadDone(planes: seq<Word>, j: nat, rest: Word, u: seq<Word32>)
    requires Spreading(planes, j, rest, u) && Ctz(rest) == 64
    ensures Transposed(planes[..j + 1], u)
  {
  }

  lemma {:induction false} SpreadStart(planes: seq<Word>, j: nat, u: seq<Word32>)
    requires j < |planes| <= PLANES && Transposed(planes[..j], u)
    ensures Spreading(planes, j, planes[j], u)
  {
  }

  /** transpose_scalar */
  method TransposeScalar(planes: seq<Word>, u: array<Word32>)
    requires |planes| <= PLANES && u.Length == 64
    modifies u
    ensures Transposed(planes, u[..])
  {
    var none := Repeat(false, PLANES);
    forall i | 0 <= i < 64 {
      u[i] := none;
    }
    for j := 0 to |planes|
      invariant Transposed(planes[..j], u[..])
    {
      var x := planes[j];
      SpreadStart(planes, j, u[..]);
      while Ctz(x) < 64
        invariant forall i :: 0 <= i < 64 ==> x[i] ==> planes[j][i]
        invariant Spreading(planes, j, x, u[..])
        decreases 64 - Ctz(x)
      {
        ghost var before, z := u[..], Ctz(x);
        u[Ctz(x)] := u[Ctz(x)][31 - j := true];
        SpreadStep(planes, j, x, before, u[..]);
        ClearLowest(x);
        x := And(x, Borrow(x, 0));
        assert x[..z + 1] == Fill(x[..z + 1], false);
      }
      SpreadDone(planes, j, x, u[..]);
    }
    assert planes[..|planes|] == planes;
  }

  /** _mm512_mask_or_epi32 with one bit: set bit b in the lanes the mask selects. */
  function MaskOr(u: seq<Word32>, mask: seq<bool>, b: nat): (r: seq<Word32>)
    requires |u| == |mask| && b < 32
    ensures |r| == |u|
    ensures forall i, c {:trigger r[i][c]} :: 0 <= i < |u| && 0 <= c < 32 ==> r[i][c] == (u[i][c] || (c == b && mask[i]))
  {
    if u == [] then []
    else [if mask[0] then u[0][b := true] else u[0]] + MaskOr(u[1..], mask[1..], b)
  }

  /** Lanes 16 * q .. 16 * q + 16 of the transposed coefficients. */
  ghost predicate Quarter(planes: seq<Word>, q: nat, r: seq<Word32>) {
    && |planes| <= PLANES && q < 4 && |r| == 16
    && forall i, b {:trigger r[i][b]} :: 0 <= i < 16 && 0 <= b < 32 ==>
         r[i][b] == (31 - b < |planes| && planes[31 - b][16 * q + i])
  }

  /** The lanes of register q, masked by 16 bits of the plane. */
  function MaskQuarter(u: seq<Word32>, x: Word, q: nat, b: nat): (r: seq<Word32>)
    requires |u| == 16 && q < 4 && b < 32
    ensures |r| == 16
  {
    MaskOr(u, x[16 * q..16 * q + 16], b)
  }

  lemma {:induction false} QuarterStep(planes: seq<Word>, j: nat, q: nat, r: seq<Word32>)
    requires j < |planes| <= PLANES && Quarter(planes[..j], q, r)
    ensures Quarter(planes[..j + 1], q, MaskQuarter(r, planes[j], q, 31 - j))
  {
  }

  function EmptyLanes(k: nat): (r: seq<Word32>)
    ensures |r| == k && forall i, b {:trigger r[i][b]} :: 0 <= i < k && 0 <= b < 32 ==> !r[i][b]
  {
    if k == 0 then [] else [Repeat(false, PLANES)] + EmptyLanes(k - 1)
  }

  /** transpose_avx512: four registers of 16 lanes, one masked or per plane and register. */
  method TransposeVector(planes: seq<Word>) returns (u: seq<Word32>)
    requires |planes| <= PLANES
    ensures Transposed(planes, u)
  {
    var lanes := 16;
    var u0 := EmptyLanes(lanes);
    var u1, u2, u3 := u0, u0, u0;
    for j := 0 to |planes|
      invariant Quarter(planes[..j], 0, u0) && Quarter(planes[..j], 1, u1)
      invariant Quarter(planes[..j], 2, u2) && Quarter(planes[..j], 3, u3)
    {
      QuarterStep(planes, j, 0, u0);
      QuarterStep(planes, j, 1, u1);
      QuarterStep(planes, j, 2, u2);
      QuarterStep(planes, j, 3, u3);
      u0 := MaskQuarter(u0, planes[j], 0, 31 - j);
      u1 := MaskQuarter(u1, planes[j], 1, 31 - j);
      u2 := MaskQuarter(u2, planes[j], 2, 31 - j);
      u3 := MaskQuarter(u3, planes[j], 3, 31 - j);
    }
    assert planes[..|planes|] == planes;
    JoinQuarters(planes, u0, u1, u2, u3);
    u := u0 + u1 + u2 + u3;
  }

  lemma {:induction false} JoinQuarters(planes: seq<Word>, u0: seq<Word32>, u1: seq<Word32>, u2: seq<Word32>, u3: seq<Word32>)
    requires Quarter(planes, 0, u0) && Quarter(planes, 1, u1) && Quarter(planes, 2, u2) && Quarter(planes, 3, u3)
    ensures Transposed(planes, u0 + u1 + u2 + u3)
  {
    var u := u0 + u1 + u2 + u3;
    forall i, b {:trigger u[i][b]} | 0 <= i < 64 && 0 <= b < 32
      ensures u[i][b] == (31 - b < |planes| && planes[31 - b][i])
    {
      assert u[i] == if i < 16 then u0[i] else if i < 32 then u1[i - 16] else if i < 48 then u2[i - 32] else u3[i - 48];
    }
  }

  // ---- negabinary ----

  /** NBMASK = 0xaaaaaaaa: every odd bit, the bit at `odd` first. */
  function MaskBits(k: nat, odd: bool): (m: seq<bool>)
    ensures |m| == k
    decreases k
  {
    if k == 0 then [] else [odd] + MaskBits(k - 1, !odd)
  }

  function Xor(a: seq<bool>, b: seq<bool>): (r: seq<bool>)
    requires |a| == |b|
    ensures |r| == |a|
  {
    if a == [] then [] else [a[0] != b[0]] + Xor(a[1..], b[1..])
  }

  /** (int32_t)((u ^ NBMASK) - NBMASK) */
  function ToInt32(u: Word32): int {
    var m := MaskBits(|u|, false);
    Wrap(Value(Xor(u, m)) - Value(m))
  }

  /** The number a negabinary word stands for: base -2, least significant digit first. */
  function NegabinaryValue(u: seq<bool>): int {
    if u == [] then 0 else (if u[0] then 1 else 0) - 2 * NegabinaryValue(u[1..])
  }

  lemma {:induction false} XorMinusMask(u: seq<bool>, odd: bool)
    ensures Value(Xor(u, MaskBits(|u|, odd))) - Value(MaskBits(|u|, odd))
            == if odd then -NegabinaryValue(u) else NegabinaryValue(u)
  {
    if u != [] {
      XorMinusMask(u[1..], !odd);
      var m := MaskBits(|u|, odd);
      assert m[1..] == MaskBits(|u| - 1, !odd);
      assert Xor(u, m)[1..] == Xor(u[1..], m[1..]);
    }
  }

  /** The xor-and-subtract conversion yields the base -2 value, wrapped to 32 bits. */
  lemma {:induction false} ToInt32IsNegabinary(u: Word32)
    ensures ToInt32(u) == Wrap(NegabinaryValue(u))
  {
    XorMinusMask(u, false);
  }

  // ---- the coefficient order ----

  /** PERM: the position x + 4 * y + 16 * z of coefficient i. */
  function Perm(i: nat): (p: nat)
    requires i < 64
    ensures p < 64
  {
    match i
    case 0 => 0 case 1 => 1 case 2 => 4 case 3 => 16 case 4 => 20 case 5 => 17 case 6 => 5 case 7 => 2
    case 8 => 8 case 9 => 32 case 10 => 21 case 11 => 6 case 12 => 18 case 13 => 24 case 14 => 9 case 15 => 33
    case 16 => 36 case 17 => 3 case 18 => 12 case 19 => 48 case 20 => 22 case 21 => 25 case 22 => 37 case 23 => 40
    case 24 => 34 case 25 => 10 case 26 => 7 case 27 => 19 case 28 => 28 case 29 => 13 case 30 => 49 case 31 => 52
    case 32 => 41 case 33 => 38 case 34 => 26 case 35 => 23 case 36 => 29 case 37 => 53 case 38 => 11 case 39 => 35
    case 40 => 44 case 41 => 14 case 42 => 50 case 43 => 56 case 44 => 42 case 45 => 27 case 46 => 39 case 47 => 45
    case 48 => 30 case 49 => 54 case 50 => 57 case 51 => 60 case 52 => 51 case 53 => 15 case 54 => 43 case 55 => 46
    case 56 => 58 case 57 => 61 case 58 => 55 case 59 => 31 case 60 => 62 case 61 => 59 case 62 => 47 case _ => 63
  }

  /** The coefficient at each position, which the load-time loop stores in INV. */
  function Inverse(i: nat): (p: nat)
    requires i < 64
    ensures p < 64
  {
    match i
    case 0 => 0 case 1 => 1 case 2 => 7 case 3 => 17 case 4 => 2 case 5 => 6 case 6 => 11 case 7 => 26
    case 8 => 8 case 9 => 14 case 10 => 25 case 11 => 38 case 12 => 18 case 13 => 29 case 14 => 41 case 15 => 53
    case 16 => 3 case 17 => 5 case 18 => 12 case 19 => 27 case 20 => 4 case 21 => 10 case 22 => 20 case 23 => 35
    case 24 => 13 case 25 => 21 case 26 => 34 case 27 => 45 case 28 => 28 case 29 => 36 case 30 => 48 case 31 => 59
    case 32 => 9 case 33 => 15 case 34 => 24 case 35 => 39 case 36 => 16 case 37 => 22 case 38 => 33 case 39 => 46
    case 40 => 23 case 41 => 32 case 42 => 44 case 43 => 54 case 44 => 40 case 45 => 47 case 46 => 55 case 47 => 62
    case 48 => 19 case 49 => 30 case 50 => 42 case 51 => 52 case 52 => 31 case 53 => 37 case 54 => 49 case 55 => 58
    case 56 => 43 case 57 => 50 case 58 => 56 case 59 => 61 case 60 => 51 case 61 => 57 case 62 => 60 case _ => 63
  }

  lemma {:induction false} InverseOfPerm(i: nat)
    requires i < 64
    ensures Inverse(Perm(i)) == i
  {
  }

  lemma {:induction false} PermOfInverse(i: nat)
    requires i < 64
    ensures Perm(Inverse(i)) == i
  {
  }

  /** x, y and z of coefficient i. */
  function Coordinates(i: nat): (c: (nat, nat, nat))
    requires i < 64
    ensures c.0 < 4 && c.1 < 4 && c.2 < 4
  {
    match i
    case 0 => (0, 0, 0) case 1 => (1, 0, 0) case 2 => (0, 1, 0) case 3 => (0, 0, 1) case 4 => (0, 1, 1) case 5 => (1, 0, 1)
    case 6 => (1, 1, 0) case 7 => (2, 0, 0) case 8 => (0, 2, 0) case 9 => (0, 0, 2) case 10 => (1, 1, 1) case 11 => (2, 1, 0)
    case 12 => (2, 0, 1) case 13 => (0, 2, 1) case 14 => (1, 2, 0) case 15 => (1, 0, 2) case 16 => (0, 1, 2) case 17 => (3, 0, 0)
    case 18 => (0, 3, 0) case 19 => (0, 0, 3) case 20 => (2, 1, 1) case 21 => (1, 2, 1) case 22 => (1, 1, 2) case 23 => (0, 2, 2)
    case 24 => (2, 0, 2) case 25 => (2, 2, 0) case 26 => (3, 1, 0) case 27 => (3, 0, 1) case 28 => (0, 3, 1) case 29 => (1, 3, 0)
    case 30 => (1, 0, 3) case 31 => (0, 1, 3) case 32 => (1, 2, 2) case 33 => (2, 1, 2) case 34 => (2, 2, 1) case 35 => (3, 1, 1)
    case 36 => (1, 3, 1) case 37 => (1, 1, 3) case 38 => (3, 2, 0) case 39 => (3, 0, 2) case 40 => (0, 3, 2) case 41 => (2, 3, 0)
    case 42 => (2, 0, 3) case 43 => (0, 2, 3) case 44 => (2, 2, 2) case 45 => (3, 2, 1) case 46 => (3, 1, 2) case 47 => (1, 3, 2)
    case 48 => (2, 3, 1) case 49 => (2, 1, 3) case 50 => (1, 2, 3) case 51 => (0, 3, 3) case 52 => (3, 0, 3) case 53 => (3, 3, 0)
    case 54 => (3, 2, 2) case 55 => (2, 3, 2) case 56 => (2, 2, 3) case 57 => (1, 3, 3) case 58 => (3, 1, 3) case 59 => (3, 3, 1)
    case 60 => (2, 3, 3) case 61 => (3, 2, 3) case 62 => (3, 3, 2) case _ => (3, 3, 3)
  }

  lemma {:induction false} PermIsPosition(i: nat)
    requires i < 64
    ensures var c := Coordinates(i); Perm(i) == c.0 + 4 * c.1 + 16 * c.2
  {
  }

  function Square(d: nat): nat {
    if d == 0 then 0 else if d == 1 then 1 else if d == 2 then 4 else 9
  }

  /** The degree of coefficient i and its squares, neither of which ever falls back. */
  function DegreeOf(i: nat): (nat, nat) {
    if i < 20 then
      if i < 1 then (0, 0) else if i < 4 then (1, 1) else if i < 7 then (2, 2) else if i < 10 then (2, 4)
      else if i < 11 then (3, 3) else if i < 17 then (3, 5) else (3, 9)
    else if i < 44 then
      if i < 23 then (4, 6) else if i < 26 then (4, 8) else if i < 32 then (4, 10)
      else if i < 35 then (5, 9) else if i < 38 then (5, 11) else (5, 13)
    else if i < 60 then
      if i < 45 then (6, 12) else if i < 51 then (6, 14) else if i < 54 then (6, 18) else if i < 57 then (7, 17) else (7, 19)
    else if i < 63 then (8, 22) else (9, 27)
  }

  lemma {:induction false} DegreesGrow(i: nat, j: nat)
    requires i < j < 64
    ensures DegreeOf(i).0 < DegreeOf(j).0 || (DegreeOf(i).0 == DegreeOf(j).0 && DegreeOf(i).1 <= DegreeOf(j).1)
  {
  }

  /** Coefficients come in the order of x + y + z... */
  lemma {:induction false} PermIsOrdered(i: nat)
    requires i < 64
    ensures var c := Coordinates(i); DegreeOf(i).0 == c.0 + c.1 + c.2
  {
  }

  lemma {:induction false} FirstSquares(i: nat)
    requires i < 32
    ensures var c := Coordinates(i); DegreeOf(i).1 == Square(c.0) + Square(c.1) + Square(c.2)
  {
  }

  lemma {:induction false} LastSquares(i: nat)
    requires 32 <= i < 64
    ensures var c := Coordinates(i); DegreeOf(i).1 == Square(c.0) + Square(c.1) + Square(c.2)
  {
  }

  /** ...and within that of x * x + y * y + z * z. */
  lemma {:induction false} PermIsOrderedWithin(i: nat)
    requires i < 64
    ensures var c := Coordinates(i); DegreeOf(i).1 == Square(c.0) + Square(c.1) + Square(c.2)
  {
    if i < 32 { FirstSquares(i); } else { LastSquares(i); }
  }

  /** The loop INV[PERM[i]] = i at load time. */
  method BuildInverse(inv: array<nat>)
    requires inv.Length == 64
    modifies inv
    ensures forall p :: 0 <= p < 64 ==> inv[p] == Inverse(p)
  {
    for i := 0 to 64
      invariant forall p :: 0 <= p < 64 && Inverse(p) < i ==> inv[p] == Inverse(p)
    {
      InverseOfPerm(i);
      inv[Perm(i)] := i;
      forall p | 0 <= p < 64 && Inverse(p) == i ensures p == Perm(i) {
        PermOfInverse(p);
      }
    }
  }

  /** The block before the transform: coefficient i at its position. */
  ghost predicate Placed(u: seq<Word32>, b: Block) {
    |u| == 64 && forall p :: 0 <= p < 64 ==> b[p] == ToInt32(u[Inverse(p)])
  }

  /** The 64 integer values of a block, before the scaling by 2^(emax - 30). */
  ghost predicate BlockValues(u: seq<Word32>, out: Block) {
    exists b: Block :: Placed(u, b) && InverseTransform(b, out)
  }

  lemma {:induction false} BlockValuesUnique(u: seq<Word32>, c: Block, d: Block)
    requires BlockValues(u, c) && BlockValues(u, d)
    ensures c == d
  {
    var b: Block :| Placed(u, b) && InverseTransform(b, c);
    var e: Block :| Placed(u, e) && InverseTransform(e, d);
    assert b == e;
    TransformIsUnique(b, c, d);
  }

  /** tail_scalar up to the scaling. */
  method TailScalar(u: seq<Word32>, iblock: array<int>)
    requires |u| == 64 && iblock.Length == 64
    modifies iblock
    ensures BlockValues(u, iblock[..])
  {
    for i := 0 to 64
      invariant forall p :: 0 <= p < 64 && Inverse(p) < i ==> iblock[p] == ToInt32(u[Inverse(p)])
    {
      InverseOfPerm(i);
      iblock[Perm(i)] := ToInt32(u[i]);
      forall p | 0 <= p < 64 && Inverse(p) == i ensures p == Perm(i) {
        PermOfInverse(p);
      }
    }
    ghost var b0 := iblock[..];
    assert Placed(u, b0);
    PassZ(iblock);
    ghost var b1 := iblock[..];
    PassY(iblock);
    ghost var b2 := iblock[..];
    PassX(iblock);
    assert LiftedZ(b0, b1) && LiftedY(b1, b2) && LiftedX(b2, iblock[..]);
  }

  /** The gather of the coefficients at the given indices. */
  function Gather(u: seq<Word32>, at: seq<nat>): (r: seq<int>)
    requires forall i :: 0 <= i < |at| ==> at[i] < |u|
    ensures |r| == |at| && forall i :: 0 <= i < |r| ==> r[i] == ToInt32(u[at[i]])
  {
    if at == [] then [] else [ToInt32(u[at[0]])] + Gather(u, at[1..])
  }

  ghost predicate IsInverseTable(inv: seq<nat>) {
    |inv| == 64 && forall p :: 0 <= p < 64 ==> inv[p] == Inverse(p)
  }

  /** The vectors that tail_avx512 starts from: each plane gathered through INV. */
  function GatherAll(u: seq<Word32>, inv: seq<nat>): Vectors
    requires |u| == |inv| == 64
    requires forall p :: 0 <= p < 64 ==> inv[p] < 64
  {
    Vectors(Gather(u, inv[..16]), Gather(u, inv[16..32]), Gather(u, inv[32..48]), Gather(u, inv[48..]))
  }

  lemma {:induction false} GatherPlaces(u: seq<Word32>, inv: seq<nat>)
    requires |u| == 64 && IsInverseTable(inv)
    ensures Placed(u, AsBlock(GatherAll(u, inv)))
  {
    var v := GatherAll(u, inv);
    var b := AsBlock(v);
    forall p | 0 <= p < 64 ensures b[p] == ToInt32(u[inv[p]]) {
      assert b[p] == if p < 16 then v.a[p] else if p < 32 then v.b[p - 16] else if p < 48 then v.c[p - 32] else v.d[p - 48];
    }
  }

  /** tail_avx512 up to the scaling ends with the 64 values of tail_scalar. */
  lemma {:induction false} TailVectorIsTailScalar(u: seq<Word32>, inv: seq<nat>, scalar: Block)
    requires |u| == 64 && IsInverseTable(inv) && BlockValues(u, scalar)
    ensures AsBlock(VectorTransform(GatherAll(u, inv))) == scalar
  {
    GatherPlaces(u, inv);
    GatheredValues(u, GatherAll(u, inv), scalar);
  }

  /** What tail_avx512 stores are the values of the block. */
  lemma {:induction false} GatheredBlock(u: seq<Word32>, inv: seq<nat>)
    requires |u| == 64 && IsInverseTable(inv)
    ensures BlockValues(u, AsBlock(VectorTransform(GatherAll(u, inv))))
  {
    GatherPlaces(u, inv);
    VectorTransforms(GatherAll(u, inv));
  }

  lemma {:induction false} GatheredValues(u: seq<Word32>, v: Vectors, scalar: Block)
    requires Placed(u, AsBlock(v)) && BlockValues(u, scalar)
    ensures AsBlock(VectorTransform(v)) == scalar
  {
    VectorTransforms(v);
    assert BlockValues(u, AsBlock(VectorTransform(v)));
    BlockValuesUnique(u, AsBlock(VectorTransform(v)), scalar);
  }

  // ---- counting without storing ----

  /** How many of the values hit. */
  function Count(v: seq<int>, hit: int -> bool): (c: nat)
    ensures c <= |v|
  {
    if v == [] then 0 else (if hit(v[0]) then 1 else 0) + Count(v[1..], hit)
  }

  lemma {:induction false} CountAppend(v: seq<int>, w: seq<int>, hit: int -> bool)
    ensures Count(v + w, hit) == Count(v, hit) + Count(w, hit)
  {
    if v == [] {
      assert v + w == w;
    } else {
      assert (v + w)[1..] == v[1..] + w;
      CountAppend(v[1..], w, hit);
    }
  }

  /** The popcounts of the four comparison masks, added up. */
  function CountVectors(v: Vectors, hit: int -> bool): nat {
    Count(v.a, hit) + Count(v.b, hit) + Count(v.c, hit) + Count(v.d, hit)
  }

  lemma {:induction false} CountBlock(v: Vectors, hit: int -> bool)
    ensures Count(AsBlock(v), hit) == CountVectors(v, hit)
  {
    CountAppend(v.a + v.b + v.c, v.d, hit);
    CountAppend(v.a + v.b, v.c, hit);
    CountAppend(v.a, v.b, hit);
  }

  function One(x: int, hit: int -> bool): nat {
    if hit(x) then 1 else 0
  }

  /** The hits of one 128-bit lane. */
  function LaneHits(l: seq<int>, hit: int -> bool): nat
    requires |l| == 4
  {
    One(l[0], hit) + One(l[1], hit) + One(l[2], hit) + One(l[3], hit)
  }

  lemma {:induction false} CountFour(l: seq<int>, hit: int -> bool)
    requires |l| == 4
    ensures Count(l, hit) == LaneHits(l, hit)
  {
    var w := l[1..];
    var x := w[1..];
    assert Count(x, hit) == One(x[0], hit) + Count(x[1..], hit);
    assert Count(x[1..], hit) == One(x[1], hit) + Count(x[1..][1..], hit);
  }

  lemma {:induction false} CountLanes(v: Vector, hit: int -> bool)
    ensures Count(v, hit)
            == LaneHits(Lane(v, 0), hit) + LaneHits(Lane(v, 1), hit) + LaneHits(Lane(v, 2), hit) + LaneHits(Lane(v, 3), hit)
  {
    var l0, l1, l2, l3 := Lane(v, 0), Lane(v, 1), Lane(v, 2), Lane(v, 3);
    assert v == l0 + l1 + l2 + l3;
    CountAppend(l0 + l1 + l2, l3, hit);
    CountAppend(l0 + l1, l2, hit);
    CountAppend(l0, l1, hit);
    CountFour(l0, hit);
    CountFour(l1, hit);
    CountFour(l2, hit);
    CountFour(l3, hit);
  }

  /** How many values of lane j, over the four vectors, hit. */
  function LaneCount(v: Vectors, j: nat, hit: int -> bool): nat
    requires j < 4
  {
    LaneHits(Lane(v.a, j), hit) + LaneHits(Lane(v.b, j), hit) + LaneHits(Lane(v.c, j), hit) + LaneHits(Lane(v.d, j), hit)
  }

  lemma {:induction false} CountByLane(v: Vectors, hit: int -> bool)
    ensures CountVectors(v, hit) == LaneCount(v, 0, hit) + LaneCount(v, 1, hit) + LaneCount(v, 2, hit) + LaneCount(v, 3, hit)
  {
    CountLanes(v.a, hit);
    CountLanes(v.b, hit);
    CountLanes(v.c, hit);
    CountLanes(v.d, hit);
  }

  /** Vector i after a lane swap holds lane i of the four vectors. */
  lemma {:induction false} SwappedRowCount(v: Vectors, i: nat, hit: int -> bool)
    requires i < 4
    ensures Count(SwapLanes(v).Row(i), hit) == LaneCount(v, i, hit)
  {
    CountLanes(SwapLanes(v).Row(i), hit);
    SwapLanesTransposes(v, i, 0);
    SwapLanesTransposes(v, i, 1);
    SwapLanesTransposes(v, i, 2);
    SwapLanesTransposes(v, i, 3);
  }

  lemma {:induction false} SwapLanesKeepsCount(v: Vectors, hit: int -> bool)
    ensures CountVectors(SwapLanes(v), hit) == CountVectors(v, hit)
  {
    CountByLane(v, hit);
    SwappedRowCount(v, 0, hit);
    SwappedRowCount(v, 1, hit);
    SwappedRowCount(v, 2, hit);
    SwappedRowCount(v, 3, hit);
  }

  /** Lane j of the four vectors holds the same values after a value swap. */
  lemma {:induction false} SwapValuesKeepsLaneCount(v: Vectors, j: nat, hit: int -> bool)
    requires j < 4
    ensures LaneCount(SwapValues(v), j, hit) == LaneCount(v, j, hit)
  {
    var w := SwapValues(v);
    FirstTwoRows(v, j);
    LastTwoRows(v, j);
    LanesTransposed(v, w, j, hit);
  }

  lemma {:induction false} LanesTransposed(v: Vectors, w: Vectors, j: nat, hit: int -> bool)
    requires j < 4
    requires Lane(w.a, j) == Column(v, j, 0) && Lane(w.b, j) == Column(v, j, 1)
    requires Lane(w.c, j) == Column(v, j, 2) && Lane(w.d, j) == Column(v, j, 3)
    ensures LaneCount(w, j, hit) == LaneCount(v, j, hit)
  {
  }

  lemma {:induction false} SameLaneCounts(v: Vectors, w: Vectors, hit: int -> bool)
    requires LaneCount(w, 0, hit) == LaneCount(v, 0, hit) && LaneCount(w, 1, hit) == LaneCount(v, 1, hit)
    requires LaneCount(w, 2, hit) == LaneCount(v, 2, hit) && LaneCount(w, 3, hit) == LaneCount(v, 3, hit)
    ensures CountVectors(w, hit) == CountVectors(v, hit)
  {
    CountByLane(v, hit);
    CountByLane(w, hit);
  }

  lemma {:induction false} SwapValuesKeepsCount(v: Vectors, hit: int -> bool)
    ensures CountVectors(SwapValues(v), hit) == CountVectors(v, hit)
  {
    SwapValuesKeepsLaneCount(v, 0, hit);
    SwapValuesKeepsLaneCount(v, 1, hit);
    SwapValuesKeepsLaneCount(v, 2, hit);
    SwapValuesKeepsLaneCount(v, 3, hit);
    SameLaneCounts(v, SwapValues(v), hit);
  }

  /** tail_count_avx512 counts what scanning the 64 stored values counts, though it
    * leaves the values out of order. */
  lemma {:induction false} FusedCountIsCount(u: seq<Word32>, inv: seq<nat>, scalar: Block, hit: int -> bool)
    requires |u| == 64 && IsInverseTable(inv) && BlockValues(u, scalar)
    ensures CountVectors(VectorLifts(GatherAll(u, inv)), hit) == Count(scalar, hit)
  {
    TailVectorIsTailScalar(u, inv, scalar);
    TransformedCount(GatherAll(u, inv), scalar, hit);
  }

  lemma {:induction false} TransformedCount(g: Vectors, stored: Block, hit: int -> bool)
    requires stored == AsBlock(VectorTransform(g))
    ensures CountVectors(VectorLifts(g), hit) == Count(stored, hit)
  {
    SwappedCount(VectorLifts(g), VectorTransform(g), hit);
  }

  lemma {:induction false} SwappedCount(v: Vectors, stored: Vectors, hit: int -> bool)
    requires stored == SwapLanes(SwapValues(v))
    ensures CountVectors(v, hit) == Count(AsBlock(stored), hit)
  {
    CountBlock(stored, hit);
    SwapLanesKeepsCount(SwapValues(v), hit);
    SwapValuesKeepsCount(v, hit);
  }
}
