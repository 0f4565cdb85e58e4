/** From bit planes to the 64 values of a block: the plane transpose, negabinary
  * to two's complement, ZFP's coefficient order and the inverse transform along
  * z, y and x. The scalar steps work in place on arrays; the vector steps work on
  * four vectors of 16 lanes and must end with the same 64 values. */
module Transform {
  import Bits

  type Word32 = w: seq<bool> | |w| == 32 witness Bits.Repeat(false, 32)

  const PLANES: nat := 32

  // ---- int32 arithmetic ----

  const TWO31: int := 0x8000_0000
  const TWO32: int := 0x1_0000_0000

  /** Two's complement wrap-around to 32 bits. */
  function Wrap(x: int): (r: int)
    ensures -TWO31 <= r < TWO31
  {
    (x + TWO31) % TWO32 - TWO31
  }

  datatype Quad = Quad(x: int, y: int, z: int, w: int)

  /** inv_lift on one line of four values; >> 1 is floor division by 2. */
  function InvLift(q: Quad): Quad {
    var y := Wrap(q.y + q.w / 2);
    var w := Wrap(q.w - y / 2);
    LiftSums(q.x, q.z, y, w)
  }

  /** Its sums and differences, after the two halvings. */
  function LiftSums(x: int, z: int, y: int, w: int): Quad {
    var y2 := Wrap(y + w);
    var w2 := Wrap(Wrap(2 * w) - y2);
    var z2 := Wrap(z + x);
    var x2 := Wrap(Wrap(2 * x) - z2);
    var y3 := Wrap(y2 + z2);
    var z3 := Wrap(Wrap(2 * z2) - y3);
    var w3 := Wrap(w2 + x2);
    var x3 := Wrap(Wrap(2 * x2) - w3);
    Quad(x3, y3, z3, w3)
  }

  // ---- what the lift computes ----

  /** Wrapping takes whole turns off. */
  lemma {:induction false} WrapTurns(x: int) returns (k: int)
    ensures Wrap(x) == x - TWO32 * k
  {
    k := (x + TWO31) / TWO32;
  }

  /** Numbers that are whole turns apart wrap alike. */
  lemma {:induction false} WrapSame(x: int, y: int, k: int)
    requires x == y + TWO32 * k
    ensures Wrap(x) == Wrap(y)
  {
    var i := WrapTurns(x);
    var j := WrapTurns(y);
  }

  lemma {:induction false} WrapSum(x: int, y: int)
    ensures Wrap(Wrap(x) + Wrap(y)) == Wrap(x + y) && Wrap(Wrap(x) - Wrap(y)) == Wrap(x - y)
  {
    var i := WrapTurns(x);
    var j := WrapTurns(y);
    WrapSame(Wrap(x) + Wrap(y), x + y, -i - j);
    WrapSame(Wrap(x) - Wrap(y), x - y, j - i);
  }

  lemma {:induction false} WrapFits(x: int)
    requires -TWO31 <= x < TWO31
    ensures Wrap(x) == x
  {
  }

  /** A sum and what it leaves of the double of one of its terms. */
  lemma {:induction false} Butterfly(x: int, y: int)
    ensures Wrap(Wrap(2 * x) - Wrap(x + y)) == Wrap(x - y)
  {
    WrapSum(2 * x, x + y);
  }

  /** One half of the lift: s and t are the wrapped sums of a and b and of x and z. */
  lemma {:induction false} EvenHalf(u: int, v: int, s: int, t: int)
    requires s == Wrap(u) && t == Wrap(v)
    ensures Wrap(s + t) == Wrap(v + u) && Wrap(Wrap(2 * t) - Wrap(s + t)) == Wrap(v - u)
  {
    Butterfly(t, s);
    WrapSum(v, u);
    assert s + t == t + s;
  }

  lemma {:induction false} SumsAre(x: int, z: int, a: int, b: int)
    ensures LiftSums(x, z, a, b) == Quad(Wrap(x - z - (b - a)), Wrap(x + z + (a + b)), Wrap(x + z - (a + b)), Wrap(x - z + (b - a)))
  {
    Butterfly(b, a);
    Butterfly(x, z);
    Reorder(a, b);
    Reorder(x, z);
    EvenHalf(a + b, z + x, Wrap(a + b), Wrap(z + x));
    EvenHalf(b - a, x - z, Wrap(b - a), Wrap(x - z));
  }

  lemma {:induction false} Reorder(a: int, b: int)
    ensures Wrap(a + b) == Wrap(b + a)
  {
  }

  /** After the two halvings everything is sums and differences, modulo 2^32. */
  lemma {:induction false} LiftIsSums(q: Quad, a: int, b: int)
    requires a == Wrap(q.y + q.w / 2) && b == Wrap(q.w - a / 2)
    ensures InvLift(q) == Quad(Wrap(q.x - q.z - (b - a)), Wrap(q.x + q.z + (a + b)), Wrap(q.x + q.z - (a + b)), Wrap(q.x - q.z + (b - a)))
  {
    SumsAre(q.x, q.z, a, b);
  }

  /** Without overflow in the two halved sums, four times the lift is a linear map up to its
    * two dropped bits, the parities p and r, and up to wrapping. */
  lemma {:induction false} LiftIsLinear(q: Quad, p: int, r: int) returns (o: Quad)
    requires p == q.w % 2 && r == (q.y + q.w / 2) % 2
    requires -TWO31 <= q.y + q.w / 2 < TWO31 && -TWO31 <= q.w - (q.y + q.w / 2) / 2 < TWO31
    ensures InvLift(q) == Quad(Wrap(o.x), Wrap(o.y), Wrap(o.z), Wrap(o.w))
    ensures 4 * o.x == 4 * q.x + 6 * q.y - 4 * q.z - q.w - 3 * p - 2 * r
    ensures 4 * o.y == 4 * q.x + 2 * q.y + 4 * q.z + 5 * q.w - p + 2 * r
    ensures 4 * o.z == 4 * q.x - 2 * q.y + 4 * q.z - 5 * q.w + p - 2 * r
    ensures 4 * o.w == 4 * q.x - 6 * q.y - 4 * q.z + q.w + 3 * p + 2 * r
  {
    var a := q.y + q.w / 2;
    var b := q.w - a / 2;
    WrapFits(a);
    WrapFits(b);
    LiftIsSums(q, a, b);
    Halves(q.y, q.w, a, b, p, r);
    o := Quad(q.x - q.z - (b - a), q.x + q.z + (a + b), q.x + q.z - (a + b), q.x - q.z + (b - a));
  }

  lemma {:induction false} Halves(y: int, w: int, a: int, b: int, p: int, r: int)
    requires a == y + w / 2 && b == w - a / 2 && p == w % 2 && r == a % 2
    ensures 4 * (a - b) == 6 * y - w - 3 * p - 2 * r && 4 * (a + b) == 2 * y + 5 * w - p + 2 * r
  {
    assert w == 2 * (w / 2) + p && a == 2 * (a / 2) + r;
  }

  // ---- lines of a block; value (x, y, z) is at x + 4 * y + 16 * z ----

  type Block = b: seq<int> | |b| == 64 witness seq(64, _ => 0)

  function At(b: Block, x: nat, y: nat, z: nat): int
    requires x < 4 && y < 4 && z < 4
  {
    b[x + 4 * y + 16 * z]
  }

  function LineX(b: Block, y: nat, z: nat): Quad
    requires y < 4 && z < 4
  {
    Quad(At(b, 0, y, z), At(b, 1, y, z), At(b, 2, y, z), At(b, 3, y, z))
  }

  function LineY(b: Block, x: nat, z: nat): Quad
    requires x < 4 && z < 4
  {
    Quad(At(b, x, 0, z), At(b, x, 1, z), At(b, x, 2, z), At(b, x, 3, z))
  }

  function LineZ(b: Block, x: nat, y: nat): Quad
    requires x < 4 && y < 4
  {
    Quad(At(b, x, y, 0), At(b, x, y, 1), At(b, x, y, 2), At(b, x, y, 3))
  }

  ghost predicate LiftedX(b: Block, c: Block) {
    forall y, z {:trigger LineX(c, y, z)} :: 0 <= y < 4 && 0 <= z < 4 ==> LineX(c, y, z) == InvLift(LineX(b, y, z))
  }

  ghost predicate LiftedY(b: Block, c: Block) {
    forall x, z {:trigger LineY(c, x, z)} :: 0 <= x < 4 && 0 <= z < 4 ==> LineY(c, x, z) == InvLift(LineY(b, x, z))
  }

  ghost predicate LiftedZ(b: Block, c: Block) {
    forall x, y {:trigger LineZ(c, x, y)} :: 0 <= x < 4 && 0 <= y < 4 ==> LineZ(c, x, y) == InvLift(LineZ(b, x, y))
  }

  /** The inverse transform: along z, then y, then x. */
  ghost predicate InverseTransform(b: Block, c: Block) {
    exists b1: Block, b2: Block :: LiftedZ(b, b1) && LiftedY(b1, b2) && LiftedX(b2, c)
  }

  lemma {:induction false} LiftConstant(a: int)
    requires -TWO31 <= a < TWO31
    ensures InvLift(Quad(a, 0, 0, 0)) == Quad(a, a, a, a)
  {
    LiftIsSums(Quad(a, 0, 0, 0), 0, 0);
  }

  /** With only the first coefficient, all 64 values are it. */
  lemma {:induction false} ConstantBlock(b: Block, c: Block, a: int)
    requires -TWO31 <= a < TWO31 && b[0] == a && (forall p :: 0 < p < 64 ==> b[p] == 0) && InverseTransform(b, c)
    ensures forall x, y, z :: 0 <= x < 4 && 0 <= y < 4 && 0 <= z < 4 ==> At(c, x, y, z) == a
  {
    var b1: Block, b2: Block :| LiftedZ(b, b1) && LiftedY(b1, b2) && LiftedX(b2, c);
    LiftConstant(a);
    LiftConstant(0);
    forall x, y | 0 <= x < 4 && 0 <= y < 4 ensures LineZ(b1, x, y) == (if x == 0 && y == 0 then Quad(a, a, a, a) else Quad(0, 0, 0, 0)) {
      assert LineZ(b, x, y) == if x == 0 && y == 0 then Quad(a, 0, 0, 0) else Quad(0, 0, 0, 0);
    }
    forall x, z | 0 <= x < 4 && 0 <= z < 4 ensures LineY(b2, x, z) == (if x == 0 then Quad(a, a, a, a) else Quad(0, 0, 0, 0)) {
      PlaneOf(b1, x, z, a);
    }
    forall y, z | 0 <= y < 4 && 0 <= z < 4 ensures LineX(c, y, z) == Quad(a, a, a, a) {
      RowOf(b2, y, z, a);
    }
    LinesAreConstant(c, a);
  }

  lemma {:induction false} LinesAreConstant(c: Block, a: int)
    requires forall y, z :: 0 <= y < 4 && 0 <= z < 4 ==> LineX(c, y, z) == Quad(a, a, a, a)
    ensures forall x, y, z :: 0 <= x < 4 && 0 <= y < 4 && 0 <= z < 4 ==> At(c, x, y, z) == a
  {
    forall x, y, z | 0 <= x < 4 && 0 <= y < 4 && 0 <= z < 4 ensures At(c, x, y, z) == a {
      assert LineX(c, y, z) == Quad(a, a, a, a);
    }
  }

  lemma {:induction false} PlaneOf(b: Block, x: nat, z: nat, a: int)
    requires x < 4 && z < 4
    requires forall x, y :: 0 <= x < 4 && 0 <= y < 4 ==> LineZ(b, x, y) == if x == 0 && y == 0 then Quad(a, a, a, a) else Quad(0, 0, 0, 0)
    ensures LineY(b, x, z) == if x == 0 then Quad(a, 0, 0, 0) else Quad(0, 0, 0, 0)
  {
    assert LineZ(b, x, 0) == if x == 0 then Quad(a, a, a, a) else Quad(0, 0, 0, 0);
    assert LineZ(b, x, 1) == LineZ(b, x, 2) == LineZ(b, x, 3) == Quad(0, 0, 0, 0);
  }

  lemma {:induction false} RowOf(b: Block, y: nat, z: nat, a: int)
    requires y < 4 && z < 4
    requires forall x, z :: 0 <= x < 4 && 0 <= z < 4 ==> LineY(b, x, z) == if x == 0 then Quad(a, a, a, a) else Quad(0, 0, 0, 0)
    ensures LineX(b, y, z) == Quad(a, 0, 0, 0)
  {
    assert LineY(b, 0, z) == Quad(a, a, a, a);
    assert LineY(b, 1, z) == LineY(b, 2, z) == LineY(b, 3, z) == Quad(0, 0, 0, 0);
  }

  // ---- the scalar passes, in place ----

  /** inv_lift(p + at, s) */
  method LiftLine(p: array<int>, at: nat, s: nat)
    requires p.Length == 64 && s > 0 && at + 3 * s < 64
    modifies p
    ensures var q := InvLift(Quad(old(p[at]), old(p[at + s]), old(p[at + 2 * s]), old(p[at + 3 * s])));
            p[..] == old(p[..])[at := q.x][at + s := q.y][at + 2 * s := q.z][at + 3 * s := q.w]
  {
    var q := InvLift(Quad(p[at], p[at + s], p[at + 2 * s], p[at + 3 * s]));
    p[at] := q.x;
    p[at + s] := q.y;
    p[at + 2 * s] := q.z;
    p[at + 3 * s] := q.w;
  }

  /** The values of line (x, y) along z replaced, every other line untouched. */
  lemma {:induction false} SetLineZ(b: Block, c: Block, x: nat, y: nat, q: Quad)
    requires x < 4 && y < 4
    requires c == b[x + 4 * y := q.x][x + 4 * y + 16 := q.y][x + 4 * y + 32 := q.z][x + 4 * y + 48 := q.w]
    ensures LineZ(c, x, y) == q
    ensures forall x', y' :: 0 <= x' < 4 && 0 <= y' < 4 && (x', y') != (x, y) ==> LineZ(c, x', y') == LineZ(b, x', y')
  {
  }

  lemma {:induction false} SetLineY(b: Block, c: Block, x: nat, z: nat, q: Quad)
    requires x < 4 && z < 4
    requires var at := x + 16 * z; c == b[at := q.x][at + 4 := q.y][at + 8 := q.z][at + 12 := q.w]
    ensures LineY(c, x, z) == q
    ensures forall x', z' :: 0 <= x' < 4 && 0 <= z' < 4 && (x', z') != (x, z) ==> LineY(c, x', z') == LineY(b, x', z')
  {
  }

  lemma {:induction false} SetLineX(b: Block, c: Block, y: nat, z: nat, q: Quad)
    requires y < 4 && z < 4
    requires var at := 4 * y + 16 * z; c == b[at := q.x][at + 1 := q.y][at + 2 := q.z][at + 3 := q.w]
    ensures LineX(c, y, z) == q
    ensures forall y', z' :: 0 <= y' < 4 && 0 <= z' < 4 && (y', z') != (y, z) ==> LineX(c, y', z') == LineX(b, y', z')
  {
  }

  method PassZ(p: array<int>)
    requires p.Length == 64
    modifies p
    ensures LiftedZ(old(p[..]), p[..])
  {
    ghost var b := p[..];
    for y := 0 to 4
      invariant forall x', y' :: 0 <= x' < 4 && 0 <= y' < 4 ==>
                  LineZ(p[..], x', y') == if y' < y then InvLift(LineZ(b, x', y')) else LineZ(b, x', y')
    {
      for x := 0 to 4
        invariant forall x', y' :: 0 <= x' < 4 && 0 <= y' < 4 ==>
                    LineZ(p[..], x', y')
                    == if y' < y || (y' == y && x' < x) then InvLift(LineZ(b, x', y')) else LineZ(b, x', y')
      {
        ghost var c := p[..];
        assert LineZ(c, x, y) == LineZ(b, x, y);
        LiftLine(p, x + 4 * y, 16);
        SetLineZ(c, p[..], x, y, InvLift(LineZ(b, x, y)));
      }
    }
  }

  method PassY(p: array<int>)
    requires p.Length == 64
    modifies p
    ensures LiftedY(old(p[..]), p[..])
  {
    ghost var b := p[..];
    for x := 0 to 4
      invariant forall x', z' :: 0 <= x' < 4 && 0 <= z' < 4 ==>
                  LineY(p[..], x', z') == if x' < x then InvLift(LineY(b, x', z')) else LineY(b, x', z')
    {
      for z := 0 to 4
        invariant forall x', z' :: 0 <= x' < 4 && 0 <= z' < 4 ==>
                    LineY(p[..], x', z')
                    == if x' < x || (x' == x && z' < z) then InvLift(LineY(b, x', z')) else LineY(b, x', z')
      {
        ghost var c := p[..];
        assert LineY(c, x, z) == LineY(b, x, z);
        LiftLine(p, 16 * z + x, 4);
        SetLineY(c, p[..], x, z, InvLift(LineY(b, x, z)));
      }
    }
  }

  method PassX(p: array<int>)
    requires p.Length == 64
    modifies p
    ensures LiftedX(old(p[..]), p[..])
  {
    ghost var b := p[..];
    for z := 0 to 4
      invariant forall y', z' :: 0 <= y' < 4 && 0 <= z' < 4 ==>
                  LineX(p[..], y', z') == if z' < z then InvLift(LineX(b, y', z')) else LineX(b, y', z')
    {
      for y := 0 to 4
        invariant forall y', z' :: 0 <= y' < 4 && 0 <= z' < 4 ==>
                    LineX(p[..], y', z')
                    == if z' < z || (z' == z && y' < y) then InvLift(LineX(b, y', z')) else LineX(b, y', z')
      {
        ghost var c := p[..];
        assert LineX(c, y, z) == LineX(b, y, z);
        LiftLine(p, 4 * y + 16 * z, 1);
        SetLineX(c, p[..], y, z, InvLift(LineX(b, y, z)));
      }
    }
  }

  // ---- vectors of 16 lanes ----

  type Vector = v: seq<int> | |v| == 16 witness seq(16, _ => 0)

  datatype Vectors = Vectors(a: Vector, b: Vector, c: Vector, d: Vector)
  {
    function Row(i: nat): Vector
      requires i < 4
    {
      if i == 0 then a else if i == 1 then b else if i == 2 then c else d
    }
  }

  /** A 128-bit lane: four of the 16 values. */
  function Lane(v: Vector, i: nat): (r: seq<int>)
    requires i < 4
    ensures |r| == 4
  {
    v[4 * i..4 * i + 4]
  }

  function FourLanes(l0: seq<int>, l1: seq<int>, l2: seq<int>, l3: seq<int>): (v: Vector)
    requires |l0| == |l1| == |l2| == |l3| == 4
    ensures Lane(v, 0) == l0 && Lane(v, 1) == l1 && Lane(v, 2) == l2 && Lane(v, 3) == l3
  {
    l0 + l1 + l2 + l3
  }

  /** _mm512_shuffle_i32x4: two lanes of p, then two of q, chosen by 2-bit fields. */
  function ShuffleLanes(p: Vector, q: Vector, i0: nat, i1: nat, i2: nat, i3: nat): (v: Vector)
    requires i0 < 4 && i1 < 4 && i2 < 4 && i3 < 4
  {
    FourLanes(Lane(p, i0), Lane(p, i1), Lane(q, i2), Lane(q, i3))
  }

  /** 0x44, 0xEE, 0x88 and 0xDD as lane choices. */
  function SwapLanes(v: Vectors): Vectors {
    var t0 := ShuffleLanes(v.a, v.b, 0, 1, 0, 1);
    var t1 := ShuffleLanes(v.a, v.b, 2, 3, 2, 3);
    var t2 := ShuffleLanes(v.c, v.d, 0, 1, 0, 1);
    var t3 := ShuffleLanes(v.c, v.d, 2, 3, 2, 3);
    Vectors(ShuffleLanes(t0, t2, 0, 2, 0, 2), ShuffleLanes(t0, t2, 1, 3, 1, 3),
            ShuffleLanes(t1, t3, 0, 2, 0, 2), ShuffleLanes(t1, t3, 1, 3, 1, 3))
  }

  /** One lane of unpacklo_epi32 (from == 0) and unpackhi_epi32 (from == 2). */
  function InterleaveLane(p: seq<int>, q: seq<int>, from: nat): (r: seq<int>)
    requires |p| == |q| == 4 && (from == 0 || from == 2)
    ensures |r| == 4
  {
    [p[from], q[from], p[from + 1], q[from + 1]]
  }

  function Interleave(p: Vector, q: Vector, from: nat): Vector
    requires from == 0 || from == 2
  {
    FourLanes(InterleaveLane(Lane(p, 0), Lane(q, 0), from), InterleaveLane(Lane(p, 1), Lane(q, 1), from),
              InterleaveLane(Lane(p, 2), Lane(q, 2), from), InterleaveLane(Lane(p, 3), Lane(q, 3), from))
  }

  /** One lane of unpacklo_epi64 (from == 0) and unpackhi_epi64 (from == 2). */
  function PairsLane(p: seq<int>, q: seq<int>, from: nat): (r: seq<int>)
    requires |p| == |q| == 4 && (from == 0 || from == 2)
    ensures |r| == 4
  {
    [p[from], p[from + 1], q[from], q[from + 1]]
  }

  function Pairs(p: Vector, q: Vector, from: nat): Vector
    requires from == 0 || from == 2
  {
    FourLanes(PairsLane(Lane(p, 0), Lane(q, 0), from), PairsLane(Lane(p, 1), Lane(q, 1), from),
              PairsLane(Lane(p, 2), Lane(q, 2), from), PairsLane(Lane(p, 3), Lane(q, 3), from))
  }

  function SwapValues(v: Vectors): Vectors {
    var p := Interleave(v.a, v.b, 0);
    var q := Interleave(v.a, v.b, 2);
    var r := Interleave(v.c, v.d, 0);
    var t := Interleave(v.c, v.d, 2);
    Vectors(Pairs(p, r, 0), Pairs(p, r, 2), Pairs(q, t, 0), Pairs(q, t, 2))
  }

  /** swap_lanes transposes the four lanes across the four vectors. */
  lemma {:induction false} SwapLanesTransposes(v: Vectors, i: nat, j: nat)
    requires i < 4 && j < 4
    ensures Lane(SwapLanes(v).Row(i), j) == Lane(v.Row(j), i)
  {
  }

  /** The pair of interleavings on one lane. */
  lemma {:induction false} PairsOfInterleaves(a: Vector, b: Vector, c: Vector, d: Vector, from: nat, j: nat)
    requires j < 4 && (from == 0 || from == 2)
    ensures Lane(Pairs(Interleave(a, b, from), Interleave(c, d, from), 0), j)
            == [Lane(a, j)[from], Lane(b, j)[from], Lane(c, j)[from], Lane(d, j)[from]]
    ensures Lane(Pairs(Interleave(a, b, from), Interleave(c, d, from), 2), j)
            == [Lane(a, j)[from + 1], Lane(b, j)[from + 1], Lane(c, j)[from + 1], Lane(d, j)[from + 1]]
  {
    InterleaveLanes(a, b, j);
    InterleaveLanes(c, d, j);
    PairsLanes(Interleave(a, b, from), Interleave(c, d, from), j);
  }

  /** swap_values transposes the four values of each lane across the four vectors. */
  lemma {:induction false} SwapValuesTransposes(v: Vectors, i: nat, j: nat)
    requires i < 4 && j < 4
    ensures Lane(SwapValues(v).Row(i), j) == Column(v, j, i)
  {
    FirstTwoRows(v, j);
    LastTwoRows(v, j);
    AnyRow(v, SwapValues(v), i, j);
  }

  lemma {:induction false} AnyRow(v: Vectors, s: Vectors, i: nat, j: nat)
    requires i < 4 && j < 4
    requires Lane(s.a, j) == Column(v, j, 0) && Lane(s.b, j) == Column(v, j, 1)
    requires Lane(s.c, j) == Column(v, j, 2) && Lane(s.d, j) == Column(v, j, 3)
    ensures Lane(s.Row(i), j) == Column(v, j, i)
  {
  }

  /** Value k of lane j of the four vectors. */
  function Column(v: Vectors, j: nat, k: nat): seq<int>
    requires j < 4 && k < 4
  {
    [Lane(v.a, j)[k], Lane(v.b, j)[k], Lane(v.c, j)[k], Lane(v.d, j)[k]]
  }

  lemma {:induction false} FirstTwoRows(v: Vectors, j: nat)
    requires j < 4
    ensures Lane(SwapValues(v).a, j) == Column(v, j, 0) && Lane(SwapValues(v).b, j) == Column(v, j, 1)
  {
    RowPair(v, j, 0, 1, SwapValues(v).a, SwapValues(v).b);
  }

  lemma {:induction false} RowPair(v: Vectors, j: nat, from: nat, next: nat, even: Vector, odd: Vector)
    requires j < 4 && (from == 0 || from == 2) && next == from + 1
    requires even == Pairs(Interleave(v.a, v.b, from), Interleave(v.c, v.d, from), 0)
    requires odd == Pairs(Interleave(v.a, v.b, from), Interleave(v.c, v.d, from), 2)
    ensures Lane(even, j) == Column(v, j, from) && Lane(odd, j) == Column(v, j, next)
  {
    PairsOfInterleaves(v.a, v.b, v.c, v.d, from, j);
  }

  lemma {:induction false} LastTwoRows(v: Vectors, j: nat)
    requires j < 4
    ensures Lane(SwapValues(v).c, j) == Column(v, j, 2) && Lane(SwapValues(v).d, j) == Column(v, j, 3)
  {
    RowPair(v, j, 2, 3, SwapValues(v).c, SwapValues(v).d);
  }

  lemma {:induction false} InterleaveLanes(p: Vector, q: Vector, j: nat)
    requires j < 4
    ensures Lane(Interleave(p, q, 0), j) == InterleaveLane(Lane(p, j), Lane(q, j), 0)
    ensures Lane(Interleave(p, q, 2), j) == InterleaveLane(Lane(p, j), Lane(q, j), 2)
  {
  }

  lemma {:induction false} PairsLanes(p: Vector, q: Vector, j: nat)
    requires j < 4
    ensures Lane(Pairs(p, q, 0), j) == PairsLane(Lane(p, j), Lane(q, j), 0)
    ensures Lane(Pairs(p, q, 2), j) == PairsLane(Lane(p, j), Lane(q, j), 2)
  {
  }

  lemma {:induction false} LanesEqual(v: Vector, w: Vector)
    requires Lane(v, 0) == Lane(w, 0) && Lane(v, 1) == Lane(w, 1) && Lane(v, 2) == Lane(w, 2) && Lane(v, 3) == Lane(w, 3)
    ensures v == w
  {
    assert v == Lane(v, 0) + Lane(v, 1) + Lane(v, 2) + Lane(v, 3);
    assert w == Lane(w, 0) + Lane(w, 1) + Lane(w, 2) + Lane(w, 3);
  }

  lemma {:induction false} VectorsEqual(v: Vectors, w: Vectors)
    requires forall i, j {:trigger Lane(v.Row(i), j)} :: 0 <= i < 4 && 0 <= j < 4 ==> Lane(v.Row(i), j) == Lane(w.Row(i), j)
    ensures v == w
  {
    forall i | 0 <= i < 4 ensures v.Row(i) == w.Row(i) {
      LanesEqual(v.Row(i), w.Row(i));
    }
    assert v.Row(0) == w.Row(0) && v.Row(1) == w.Row(1) && v.Row(2) == w.Row(2) && v.Row(3) == w.Row(3);
  }

  /** Both swaps are their own inverses. */
  lemma {:induction false} SwapLanesIsInvolution(v: Vectors)
    ensures SwapLanes(SwapLanes(v)) == v
  {
    var l := SwapLanes(v);
    forall i, j | 0 <= i < 4 && 0 <= j < 4 ensures Lane(SwapLanes(l).Row(i), j) == Lane(v.Row(i), j) {
      SwapLanesTransposes(l, i, j);
      SwapLanesTransposes(v, j, i);
    }
    VectorsEqual(SwapLanes(l), v);
  }

  lemma {:induction false} SwapValuesAt(v: Vectors, i: nat, j: nat, k: nat)
    requires i < 4 && j < 4 && k < 4
    ensures Lane(SwapValues(v).Row(i), j)[k] == Lane(v.Row(k), j)[i]
  {
    SwapValuesTransposes(v, i, j);
  }

  /** The values of each lane are transposed across the vectors. */
  ghost predicate Across(v: Vectors, s: Vectors) {
    forall i, j, k {:trigger Lane(s.Row(i), j)[k]} {:trigger Lane(v.Row(k), j)[i]} ::
      0 <= i < 4 && 0 <= j < 4 && 0 <= k < 4 ==> Lane(s.Row(i), j)[k] == Lane(v.Row(k), j)[i]
  }

  lemma {:induction false} SwapValuesAcross(v: Vectors)
    ensures Across(v, SwapValues(v))
  {
    forall i, j, k | 0 <= i < 4 && 0 <= j < 4 && 0 <= k < 4 ensures Lane(SwapValues(v).Row(i), j)[k] == Lane(v.Row(k), j)[i] {
      SwapValuesAt(v, i, j, k);
    }
  }

  lemma {:induction false} AcrossTwice(v: Vectors, s: Vectors, t: Vectors)
    requires Across(v, s) && Across(s, t)
    ensures t == v
  {
    forall i, j | 0 <= i < 4 && 0 <= j < 4 ensures Lane(t.Row(i), j) == Lane(v.Row(i), j) {
      forall k | 0 <= k < 4 ensures Lane(t.Row(i), j)[k] == Lane(v.Row(i), j)[k] {
        assert Lane(t.Row(i), j)[k] == Lane(s.Row(k), j)[i];
      }
    }
    VectorsEqual(t, v);
  }

  lemma {:induction false} SwapValuesIsInvolution(v: Vectors)
    ensures SwapValues(SwapValues(v)) == v
  {
    SwapValuesAcross(v);
    SwapValuesAcross(SwapValues(v));
    AcrossTwice(v, SwapValues(v), SwapValues(SwapValues(v)));
  }

  // ---- inv_lift on 16 lines at once ----

  datatype Rows = Rows(a: seq<int>, b: seq<int>, c: seq<int>, d: seq<int>)

  /** inv_lift_avx512 on the lanes from l upwards. */
  function LiftLanes(v: Rows): (r: Rows)
    requires |v.a| == |v.b| == |v.c| == |v.d|
    ensures |r.a| == |r.b| == |r.c| == |r.d| == |v.a|
    ensures forall l {:trigger r.a[l]} {:trigger r.b[l]} {:trigger r.c[l]} {:trigger r.d[l]} :: 0 <= l < |v.a| ==>
              Quad(r.a[l], r.b[l], r.c[l], r.d[l]) == InvLift(Quad(v.a[l], v.b[l], v.c[l], v.d[l]))
    decreases |v.a|
  {
    if |v.a| == 0 then Rows([], [], [], [])
    else
      var q := InvLift(Quad(v.a[0], v.b[0], v.c[0], v.d[0]));
      var r := LiftLanes(Rows(v.a[1..], v.b[1..], v.c[1..], v.d[1..]));
      Rows([q.x] + r.a, [q.y] + r.b, [q.z] + r.c, [q.w] + r.d)
  }

  function LiftVectors(v: Vectors): Vectors {
    var r := LiftLanes(Rows(v.a, v.b, v.c, v.d));
    Vectors(r.a, r.b, r.c, r.d)
  }

  /** Lane j, value k of the lifted vectors. */
  lemma {:induction false} LiftVectorsAt(v: Vectors, j: nat, k: nat)
    requires j < 4 && k < 4
    ensures var r := LiftVectors(v);
            Quad(Lane(r.a, j)[k], Lane(r.b, j)[k], Lane(r.c, j)[k], Lane(r.d, j)[k])
            == InvLift(Quad(Lane(v.a, j)[k], Lane(v.b, j)[k], Lane(v.c, j)[k], Lane(v.d, j)[k]))
  {
    var r := LiftVectors(v);
    assert Lane(r.a, j)[k] == r.a[4 * j + k] && Lane(v.a, j)[k] == v.a[4 * j + k];
  }

  /** The block whose plane z is the vector z. */
  function AsBlock(v: Vectors): Block {
    v.a + v.b + v.c + v.d
  }

  lemma {:induction false} AsBlockAt(v: Vectors, x: nat, y: nat, z: nat)
    requires x < 4 && y < 4 && z < 4
    ensures At(AsBlock(v), x, y, z) == Lane(v.Row(z), y)[x]
  {
  }

  lemma {:induction false} LiftAlongZ(v: Vectors)
    ensures LiftedZ(AsBlock(v), AsBlock(LiftVectors(v)))
  {
    var r := LiftVectors(v);
    forall x, y {:trigger LineZ(AsBlock(r), x, y)} | 0 <= x < 4 && 0 <= y < 4
      ensures LineZ(AsBlock(r), x, y) == InvLift(LineZ(AsBlock(v), x, y))
    {
      LineZOf(v, x, y);
      LineZOf(r, x, y);
      LiftVectorsAt(v, y, x);
    }
  }

  lemma {:induction false} LineZOf(v: Vectors, x: nat, y: nat)
    requires x < 4 && y < 4
    ensures LineZ(AsBlock(v), x, y) == Quad(Lane(v.a, y)[x], Lane(v.b, y)[x], Lane(v.c, y)[x], Lane(v.d, y)[x])
  {
    AsBlockAt(v, x, y, 0);
    AsBlockAt(v, x, y, 1);
    AsBlockAt(v, x, y, 2);
    AsBlockAt(v, x, y, 3);
  }

  /** With lanes swapped, the vectors run along y. */
  lemma {:induction false} LineYOf(v: Vectors, x: nat, z: nat)
    requires x < 4 && z < 4
    ensures var w := SwapLanes(v);
            LineY(AsBlock(v), x, z) == Quad(Lane(w.a, z)[x], Lane(w.b, z)[x], Lane(w.c, z)[x], Lane(w.d, z)[x])
  {
    AsBlockAt(v, x, 0, z);
    AsBlockAt(v, x, 1, z);
    AsBlockAt(v, x, 2, z);
    AsBlockAt(v, x, 3, z);
    SwapLanesTransposes(v, 0, z);
    SwapLanesTransposes(v, 1, z);
    SwapLanesTransposes(v, 2, z);
    SwapLanesTransposes(v, 3, z);
  }

  lemma {:induction false} LiftAlongY(v: Vectors)
    ensures LiftedY(AsBlock(v), AsBlock(SwapLanes(LiftVectors(SwapLanes(v)))))
  {
    var w := SwapLanes(v);
    var r := SwapLanes(LiftVectors(w));
    SwapLanesIsInvolution(LiftVectors(w));
    forall x, z {:trigger LineY(AsBlock(r), x, z)} | 0 <= x < 4 && 0 <= z < 4
      ensures LineY(AsBlock(r), x, z) == InvLift(LineY(AsBlock(v), x, z))
    {
      LineYOf(v, x, z);
      LineYOf(r, x, z);
      LiftVectorsAt(w, z, x);
    }
  }

  /** With values swapped too, they run along x. */
  lemma {:induction false} LineXOf(v: Vectors, y: nat, z: nat)
    requires y < 4 && z < 4
    ensures var w := SwapValues(SwapLanes(v));
            LineX(AsBlock(v), y, z) == Quad(Lane(w.a, z)[y], Lane(w.b, z)[y], Lane(w.c, z)[y], Lane(w.d, z)[y])
  {
    forall x | 0 <= x < 4
      ensures At(AsBlock(v), x, y, z) == Lane(SwapValues(SwapLanes(v)).Row(x), z)[y]
    {
      AsBlockAt(v, x, y, z);
      SwapLanesTransposes(v, y, z);
      SwapValuesAt(SwapLanes(v), x, z, y);
    }
    assert At(AsBlock(v), 0, y, z) == Lane(SwapValues(SwapLanes(v)).Row(0), z)[y];
  }

  lemma {:induction false} LiftAlongX(v: Vectors)
    ensures LiftedX(AsBlock(v), AsBlock(SwapLanes(SwapValues(LiftVectors(SwapValues(SwapLanes(v)))))))
  {
    var w := SwapValues(SwapLanes(v));
    LiftThenSwap(v, w, LiftVectors(w));
  }

  lemma {:induction false} LiftThenSwap(v: Vectors, w: Vectors, l: Vectors)
    requires w == SwapValues(SwapLanes(v)) && l == LiftVectors(w)
    ensures LiftedX(AsBlock(v), AsBlock(SwapLanes(SwapValues(l))))
  {
    var r := SwapLanes(SwapValues(l));
    SwapsBack(l, r);
    LiftLinesX(v, w, l, r);
  }

  lemma {:induction false} SwapsBack(l: Vectors, r: Vectors)
    requires r == SwapLanes(SwapValues(l))
    ensures SwapValues(SwapLanes(r)) == l
  {
    SwapLanesIsInvolution(SwapValues(l));
    SwapValuesIsInvolution(l);
  }

  lemma {:induction false} LiftLinesX(v: Vectors, w: Vectors, l: Vectors, r: Vectors)
    requires w == SwapValues(SwapLanes(v)) && l == LiftVectors(w) && SwapValues(SwapLanes(r)) == l
    ensures LiftedX(AsBlock(v), AsBlock(r))
  {
    forall y, z {:trigger LineX(AsBlock(r), y, z)} | 0 <= y < 4 && 0 <= z < 4
      ensures LineX(AsBlock(r), y, z) == InvLift(LineX(AsBlock(v), y, z))
    {
      LiftLineX(v, w, l, r, y, z);
    }
  }

  lemma {:induction false} LiftLineX(v: Vectors, w: Vectors, l: Vectors, r: Vectors, y: nat, z: nat)
    requires w == SwapValues(SwapLanes(v)) && l == LiftVectors(w) && SwapValues(SwapLanes(r)) == l
    requires y < 4 && z < 4
    ensures LineX(AsBlock(r), y, z) == InvLift(LineX(AsBlock(v), y, z))
  {
    LineXOf(v, y, z);
    LineXOf(r, y, z);
    LiftVectorsAt(w, z, y);
  }

  /** The three lifts of tail_count_avx512, before any swap back. */
  function VectorLifts(v: Vectors): Vectors {
    LiftVectors(SwapValues(LiftVectors(SwapLanes(LiftVectors(v)))))
  }

  /** The transform of tail_avx512. */
  function VectorTransform(v: Vectors): Vectors {
    SwapLanes(SwapValues(VectorLifts(v)))
  }

  /** The vector transform is the inverse transform along z, y and x. */
  lemma {:induction false} VectorTransforms(v: Vectors)
    ensures InverseTransform(AsBlock(v), AsBlock(VectorTransform(v)))
  {
    var v1 := LiftVectors(v);
    var v3 := LiftVectors(SwapLanes(v1));
    var s := SwapLanes(v3);
    LiftAlongZ(v);
    LiftAlongY(v1);
    SwapLanesIsInvolution(v3);
    LiftAlongX(s);
  }

  lemma {:induction false} BlocksEqual(b: Block, c: Block)
    requires forall x, y, z {:trigger At(b, x, y, z)} :: 0 <= x < 4 && 0 <= y < 4 && 0 <= z < 4 ==> At(b, x, y, z) == At(c, x, y, z)
    ensures b == c
  {
    forall i | 0 <= i < 64 ensures b[i] == c[i] {
      var x, y, z := i % 4, (i / 4) % 4, i / 16;
      assert i == x + 4 * y + 16 * z;
      assert At(b, x, y, z) == At(c, x, y, z);
    }
  }

  /** The inverse transform has one outcome, so however it is computed the 64
    * values are the same. */
  lemma {:induction false} TransformIsUnique(b: Block, c: Block, d: Block)
    requires InverseTransform(b, c) && InverseTransform(b, d)
    ensures c == d
  {
    var c1: Block, c2: Block :| LiftedZ(b, c1) && LiftedY(c1, c2) && LiftedX(c2, c);
    var d1: Block, d2: Block :| LiftedZ(b, d1) && LiftedY(d1, d2) && LiftedX(d2, d);
    LiftedZUnique(b, c1, d1);
    LiftedYUnique(c1, c2, d2);
    LiftedXUnique(c2, c, d);
  }

  lemma {:induction false} LiftedZUnique(b: Block, c: Block, d: Block)
    requires LiftedZ(b, c) && LiftedZ(b, d)
    ensures c == d
  {
    forall x, y, z {:trigger At(c, x, y, z)} | 0 <= x < 4 && 0 <= y < 4 && 0 <= z < 4 ensures At(c, x, y, z) == At(d, x, y, z) {
      assert LineZ(c, x, y) == LineZ(d, x, y);
    }
    BlocksEqual(c, d);
  }

  lemma {:induction false} LiftedYUnique(b: Block, c: Block, d: Block)
    requires LiftedY(b, c) && LiftedY(b, d)
    ensures c == d
  {
    forall x, y, z {:trigger At(c, x, y, z)} | 0 <= x < 4 && 0 <= y < 4 && 0 <= z < 4 ensures At(c, x, y, z) == At(d, x, y, z) {
      assert LineY(c, x, z) == LineY(d, x, z);
    }
    BlocksEqual(c, d);
  }

  lemma {:induction false} LiftedXUnique(b: Block, c: Block, d: Block)
    requires LiftedX(b, c) && LiftedX(b, d)
    ensures c == d
  {
    forall x, y, z {:trigger At(c, x, y, z)} | 0 <= x < 4 && 0 <= y < 4 && 0 <= z < 4 ensures At(c, x, y, z) == At(d, x, y, z) {
      assert LineX(c, y, z) == LineX(d, y, z);
    }
    BlocksEqual(c, d);
  }
}
