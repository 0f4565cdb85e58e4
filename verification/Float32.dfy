/** float32 values inside binary64: numbers of 24 bits, what rounding does to their
  * differences, and when a bound on a measured error misses the true one. */
module Float32 {
  import opened Rounding
  import opened Ieee
  import opened ZoneMap
  import Bits

  const SINGLES: int := 16777216

  // ---- numbers of 24 bits ----

  /** x is m spacings of binade k, and m has at most 24 bits or is 2^24. */
  ghost predicate IsShort(q: real, x: real, m: int, k: nat) {
    x == m as real * Spacing(q, k) && -SINGLES <= m <= SINGLES
  }

  /** Of 24 bits, a multiple of 2^-149 and below 2^128. */
  ghost predicate IsSingle(fp: Arith, x: real) {
    && Abs(x) < 340282366920938463463374607431768211456.0
    && exists m: int, k: nat :: k >= 925 && IsShort(fp.quantum, x, m, k)
  }

  lemma {:induction false} ShortIsFixed(q: real, x: real, m: int, k: nat)
    requires q > 0.0 && IsShort(q, x, m, k)
    ensures Round(q, x) == x && Round(q, -x) == -x
  {
    PointIsFixed(q, x, m, k);
    PointIsFixed(q, -x, -m, k);
  }

  /** From 2^23 spacings of a binade on, a number of 24 bits is whole in it. */
  lemma {:induction false} ShortIsWhole(q: real, x: real, m: int, j: nat, k: nat) returns (i: int)
    requires q > 0.0 && IsShort(q, x, m, j) && (k <= j || 8388608.0 * Spacing(q, k) <= Abs(x))
    ensures IsTimes(i, Spacing(q, k), x)
  {
    if k <= j {
      i := m * Bits.Pow2(j - k);
      SpacingRatio(q, k, j);
      Associate(m, Bits.Pow2(j - k), Spacing(q, k));
    } else {
      i := if x < 0.0 then -8388608 else 8388608;
      SpacingPositive(q, j);
      SpacingGrows(q, j, k);
      ShortSize(m, Spacing(q, j), x);
    }
  }

  lemma {:induction false} ShortSize(m: int, s: real, x: real)
    requires s > 0.0 && x == m as real * s && -SINGLES <= m <= SINGLES
    ensures Abs(x) <= 16777216.0 * s
  {
    SizeWithin(m as real, 16777216.0, s, x);
  }

  lemma {:induction false} SizeWithin(z: real, t: real, s: real, x: real)
    requires s > 0.0 && x == z * s && -t <= z <= t
    ensures Abs(x) <= t * s
  {
    Cancel(z, t, s);
    Cancel(-t, z, s);
    assert (-t) * s == -(t * s);
  }

  lemma {:induction false} Sixteen(q: real, k: nat, l: nat)
    requires l == k + 4
    ensures Spacing(q, l) == 16.0 * Spacing(q, k)
  {
    assert Spacing(q, k + 1) == 2.0 * Spacing(q, k);
    assert Spacing(q, k + 2) == 4.0 * Spacing(q, k);
    assert Spacing(q, k + 3) == 8.0 * Spacing(q, k);
  }

  lemma {:induction false} FarSpacing(q: real, k: nat)
    ensures Spacing(q, k + 28) == 268435456.0 * Spacing(q, k)
  {
    Sixteen(q, k, k + 4);
    Sixteen(q, k + 4, k + 8);
    Sixteen(q, k + 8, k + 12);
    Sixteen(q, k + 12, k + 16);
    Sixteen(q, k + 16, k + 20);
    Sixteen(q, k + 20, k + 24);
    Sixteen(q, k + 24, k + 28);
  }

  // ---- multiples ----

  lemma {:induction false} TimesAdd(i: int, j: int, g: real, x: real, y: real)
    requires IsTimes(i, g, x) && IsTimes(j, g, y)
    ensures IsTimes(i + j, g, x + y) && IsTimes(i - j, g, x - y)
  {
  }

  lemma {:induction false} SmallTimes(i: int, g: real, x: real)
    requires g > 0.0 && IsTimes(i, g, x) && Abs(x) < g
    ensures x == 0.0
  {
    Cancel(i as real, 1.0, g);
    Cancel(-1.0, i as real, g);
  }

  // ---- a sum of two such numbers that is not a double ----

  /** One of the two is less than 2^23 spacings of the sum's binade, and the other is whole in
    * a binade 28 higher. */
  ghost predicate Apart(q: real, k: nat, big: real, small: real, i: int) {
    Abs(small) < 8388608.0 * Spacing(q, k) && IsTimes(i, Spacing(q, k + 28), big)
  }

  lemma {:induction false} SumApart(q: real, k: nat, x: real, p: real, r: real, m: int, j: nat, n: int, l: nat) returns (swap: bool, i: int)
    requires q > 0.0 && IsShort(q, p, m, j) && IsShort(q, r, n, l) && x == p + r && MID * Spacing(q, k) <= x
    requires forall a: int :: !IsTimes(a, Spacing(q, k), x)
    ensures if swap then Apart(q, k, r, p, i) else Apart(q, k, p, r, i)
  {
    var s := Spacing(q, k);
    SpacingPositive(q, k);
    FarSpacing(q, k);
    if 8388608.0 * s <= Abs(r) {
      var b := ShortIsWhole(q, r, n, l, k);
      if 8388608.0 * s <= Abs(p) {
        var a := ShortIsWhole(q, p, m, j, k);
        TimesAdd(a, b, s, p, r);
        assert false;
      }
      swap := true;
      i := ShortIsWhole(q, r, n, l, k + 28);
    } else {
      swap := false;
      i := ShortIsWhole(q, p, m, j, k + 28);
    }
  }

  // ---- bounds as the planner computes them ----

  /** e is the rounded fifteenth of n spacings of binade j, which is y. */
  ghost predicate IsCoded(q: real, e: real, y: real, n: int, j: nat) {
    IsTimes(n, Spacing(q, j), 15.0 * y) && 0 <= n <= 15 * SINGLES && q > 0.0 && e == Round(q, y)
  }

  ghost predicate IsCodedBound(q: real, e: real) {
    exists y: real, n: int, j: nat :: IsCoded(q, e, y, n, j)
  }

  lemma {:induction false} CodedIsNear(q: real, k: nat, e: real, y: real, n: int, j: nat)
    requires IsCoded(q, e, y, n, j) && k > 0 && MID * Spacing(q, k) <= e < TOP * Spacing(q, k)
    ensures Abs(e - y) < 2.0 * Spacing(q, k) && 0.0 <= y < 18014398509481984.0 * Spacing(q, k)
  {
    SpacingPositive(q, j);
    SpacingGrows(q, 0, k);
    Cancel(0.0, n as real, Spacing(q, j));
    if y < q * MID {
      RoundMonotone(q, y, q * MID);
      PointIsFixed(q, q * MID, HALF, 0);
      assert false;
    }
    RoundIsNear(q, y);
  }

  /** Fifteen y lies close to fifteen times the larger term, and both are whole in a high binade. */
  lemma {:induction false} NearIsBig(q: real, k: nat, x: real, e: real, y: real, n: int, j: nat, big: real, small: real, i: int)
    requires q > 0.0 && IsTimes(n, Spacing(q, j), 15.0 * y) && n <= 15 * SINGLES && Apart(q, k, big, small, i) && x == big + small
    requires MID * Spacing(q, k) <= e < x && (x - e) * 2.0 <= Spacing(q, k) && Abs(e - y) < 2.0 * Spacing(q, k)
    ensures y == big
  {
    var s, g := Spacing(q, k), Spacing(q, k + 28);
    SpacingPositive(q, k);
    FarSpacing(q, k);
    CloseTo(s, g, x, e, y, big, small);
    if k + 28 <= j {
      SpacingRatio(q, k + 28, j);
      BothWhole(n, Bits.Pow2(j - (k + 28)), g, Spacing(q, j), i, y, big);
    } else {
      SpacingPositive(q, j);
      SpacingGrows(q, j, k + 28);
      TooFine(n, Spacing(q, j), s, y, e);
      assert false;
    }
  }

  /** A bound of a sum's binade that lies within half a spacing below it is the larger term. */
  lemma {:induction false} BoundIsBig(q: real, k: nat, x: real, e: real, y: real, n: int, j: nat, big: real, small: real, i: int)
    requires IsCoded(q, e, y, n, j) && k > 0 && Apart(q, k, big, small, i) && x == big + small
    requires MID * Spacing(q, k) <= e < x < TOP * Spacing(q, k) && (x - e) * 2.0 <= Spacing(q, k)
    ensures e == big
  {
    SpacingPositive(q, k);
    FarSpacing(q, k);
    CodedIsNear(q, k, e, y, n, j);
    NearIsBig(q, k, x, e, y, n, j, big, small, i);
    FewHigh(Spacing(q, k), Spacing(q, k + 28), y);
    FewIsFixed(q, k + 28, Spacing(q, k + 28), y, i);
  }

  lemma {:induction false} FewHigh(s: real, g: real, y: real)
    requires g == 268435456.0 * s && y < 18014398509481984.0 * s
    ensures y < 67108864.0 * g
  {
  }

  lemma {:induction false} FewIsFixed(q: real, l: nat, g: real, y: real, i: int)
    requires q > 0.0 && g == Spacing(q, l) && IsTimes(i, g, y) && 0.0 <= y < 67108864.0 * g
    ensures Round(q, y) == y
  {
    SpacingPositive(q, l);
    FewTimes(i, g, y);
    PointIsFixed(q, y, i, l);
  }

  lemma {:induction false} CloseTo(s: real, g: real, x: real, e: real, y: real, big: real, small: real)
    requires s > 0.0 && g == 268435456.0 * s && x == big + small && Abs(small) < 8388608.0 * s
    requires e < x && (x - e) * 2.0 <= s && Abs(e - y) < 2.0 * s
    ensures Abs(15.0 * y - 15.0 * big) < g
  {
  }

  lemma {:induction false} BothWhole(n: int, p: int, g: real, h: real, i: int, y: real, big: real)
    requires g > 0.0 && h == p as real * g && IsTimes(n, h, 15.0 * y) && IsTimes(i, g, big) && Abs(15.0 * y - 15.0 * big) < g
    ensures y == big
  {
    Associate(n, p, g);
    Associate(15, i, g);
    TimesAdd(n * p, 15 * i, g, 15.0 * y, 15.0 * big);
    SmallTimes(n * p - 15 * i, g, 15.0 * y - 15.0 * big);
  }

  lemma {:induction false} TooFine(n: int, h: real, s: real, y: real, e: real)
    requires h > 0.0 && 2.0 * h <= 268435456.0 * s && n <= 15 * SINGLES && IsTimes(n, h, 15.0 * y)
    requires s > 0.0 && Abs(e - y) < 2.0 * s
    ensures e < MID * s
  {
    Cancel(n as real, 251658240.0, h);
    assert 15.0 * y <= 251658240.0 * h;
  }

  lemma {:induction false} FewTimes(i: int, g: real, y: real)
    requires g > 0.0 && IsTimes(i, g, y) && 0.0 <= y < 67108864.0 * g
    ensures 0 <= i <= 67108864
  {
    Cancel(i as real, 67108864.0, g);
    Cancel(0.0, i as real, g);
  }

  // ---- when the true error exceeds a bound on the measured one ----

  /** e is rounded down from x, so it lies in x's binade, at most half a spacing below, and x
    * is not whole there. */
  lemma {:induction false} RoundedDown(q: real, x: real, e: real, k: nat)
    requires q > 0.0 && 0.0 <= e < x && Round(q, x) <= e && Round(q, e) == e && k == Binade(q, x)
    ensures (k > 0 ==> MID * Spacing(q, k) <= e) && x < TOP * Spacing(q, k) && (x - e) * 2.0 <= Spacing(q, k)
    ensures forall a: int :: !IsTimes(a, Spacing(q, k), x)
  {
    RoundMonotone(q, e, x);
    RoundError(q, x, k);
    if k > 0 {
      RoundMonotone(q, MID * Spacing(q, k), x);
      PointIsFixed(q, MID * Spacing(q, k), HALF, k);
    }
    forall a: int ensures !IsTimes(a, Spacing(q, k), x) {
      NotWhole(q, x, k, a);
    }
  }

  lemma {:induction false} NotWhole(q: real, x: real, k: nat, a: int)
    requires q > 0.0 && k == Binade(q, x) && Round(q, x) != x
    ensures !IsTimes(a, Spacing(q, k), x)
  {
    if IsTimes(a, Spacing(q, k), x) {
      WholeIsFixed(q, x, a);
    }
  }

  /** Below the first binade's end every sum of such numbers is a double. */
  lemma {:induction false} NotFirstBinade(q: real, x: real, p: real, r: real, m: int, j: nat, n: int, l: nat, k: nat)
    requires q > 0.0 && IsShort(q, p, m, j) && IsShort(q, r, n, l) && x == p + r
    requires forall a: int :: !IsTimes(a, Spacing(q, k), x)
    ensures k > 0
  {
    if k == 0 {
      var a := ShortIsWhole(q, p, m, j, k);
      var b := ShortIsWhole(q, r, n, l, k);
      TimesAdd(a, b, Spacing(q, k), p, r);
    }
  }

  /** A sum of two numbers of 24 bits that is rounded down to a coded bound: the bound is the
    * larger of the two, and the smaller one is lost in the rounding. */
  lemma {:induction false} DownToLarger(q: real, x: real, p: real, r: real, m: int, j: nat, n: int, l: nat, e: real) returns (swap: bool)
    requires q > 0.0 && IsShort(q, p, m, j) && IsShort(q, r, n, l) && x == p + r
    requires IsCodedBound(q, e) && 0.0 <= e < x && Round(q, x) <= e
    ensures var (big, small) := if swap then (r, p) else (p, r);
            e == big && 0.0 < small < big && small * 2.0 <= Spacing(q, Binade(q, e))
  {
    var y: real, c: int, b: nat :| IsCoded(q, e, y, c, b);
    var k := Binade(q, x);
    RoundIsPoint(q, y);
    PointIsFixed(q, e, NearestEven(Scaled(q, y, Binade(q, y))), Binade(q, y));
    RoundedDown(q, x, e, k);
    NotFirstBinade(q, x, p, r, m, j, n, l, k);
    SpacingPositive(q, k);
    var i;
    swap, i := SumApart(q, k, x, p, r, m, j, n, l);
    BoundIsBig(q, k, x, e, y, c, b, if swap then r else p, if swap then p else r, i);
    BinadesOrdered(q, e, e, k, Binade(q, e));
    BinadesOrdered(q, e, e, Binade(q, e), k);
  }

  function Larger(x: real, y: real): real {
    if x < y then y else x
  }

  function Smaller(x: real, y: real): real {
    if x < y then x else y
  }

  /** The value and its decoded value have opposite signs, the bound is the size of the larger
    * one, and the size of the smaller one is at most half the distance of doubles there. */
  ghost predicate Swallowed(q: real, v: real, d: real, e: real)
    requires q > 0.0
  {
    && (v < 0.0 < d || d < 0.0 < v) && e == Larger(Abs(v), Abs(d))
    && Smaller(Abs(v), Abs(d)) * 2.0 <= Spacing(q, Binade(q, e))
  }

  lemma {:induction false} SwallowedDown(q: real, v: real, d: real, m: int, j: nat, n: int, l: nat, e: real)
    requires q > 0.0 && IsShort(q, v, m, j) && IsShort(q, d, n, l) && IsCodedBound(q, e) && 0.0 <= e < v - d && Round(q, v - d) <= e
    ensures Swallowed(q, v, d, e)
  {
    NegatedShort(q, d, n, l);
    var swap := DownToLarger(q, v - d, v, -d, m, j, -n, l, e);
    TermsCross(v, d, e, swap, Spacing(q, Binade(q, e)));
  }

  lemma {:induction false} NegatedShort(q: real, d: real, n: int, l: nat)
    requires IsShort(q, d, n, l)
    ensures IsShort(q, -d, -n, l)
  {
  }

  lemma {:induction false} TermsCross(v: real, d: real, e: real, swap: bool, s: real)
    requires var (big, small) := if swap then (-d, v) else (v, -d); e == big && 0.0 < small < big && small * 2.0 <= s
    ensures d < 0.0 < v && e == Larger(Abs(v), Abs(d)) && Smaller(Abs(v), Abs(d)) * 2.0 <= s
  {
  }

  /** A bound on the measured error, stored or coded, is a bound on the true error except there. */
  lemma {:induction false} BoundHolds(fp: Arith, v: real, d: real, e: real)
    requires IsIeee(fp) && IsSingle(fp, v) && IsSingle(fp, d) && IsCodedBound(fp.quantum, e) && e >= 0.0
    requires MeasuredError(fp, v, d) <= e
    ensures Abs(v - d) <= e <==> !Swallowed(fp.quantum, v, d, e)
  {
    assert StepsAt(fp, Abs(v - d));
    var m: int, j: nat :| j >= 925 && IsShort(fp.quantum, v, m, j);
    var n: int, l: nat :| l >= 925 && IsShort(fp.quantum, d, n, l);
    EitherWay(fp.quantum, v, d, m, j, n, l, e);
  }

  lemma {:induction false} EitherWay(q: real, v: real, d: real, m: int, j: nat, n: int, l: nat, e: real)
    requires q > 0.0 && IsShort(q, v, m, j) && IsShort(q, d, n, l) && IsCodedBound(q, e) && e >= 0.0 && Round(q, Abs(v - d)) <= e
    ensures Abs(v - d) <= e <==> !Swallowed(q, v, d, e)
  {
    if v - d > e {
      SwallowedDown(q, v, d, m, j, n, l, e);
    } else if d - v > e {
      SwallowedDown(q, d, v, n, l, m, j, e);
    }
  }

  // ---- float32 values and the planner's bounds ----

  /** 2^-149, the smallest float32 above 0. */
  const TINY: real := 1.0 / 713623846352979940529142984724747568191373312.0

  /** 2^149; the exponents are variables, since a literal one would be unfolded. */
  lemma {:induction false} TinyPower(n: nat)
    requires n == 149
    ensures Bits.Pow2(n) == 713623846352979940529142984724747568191373312
  {
    var a: nat, b: nat, c: nat, d: nat := n - 147, n - 145, n - 140, n - 131;
    assert a == 2 && b == 4 && c == 9 && d == 18;
    Squared(a, b, 4, 16);
    Squared(b, c - 1, 16, 256);
    Squared(c, d, 512, 262144);
    Squared(d, n - 113, 262144, 68719476736);
    Squared(n - 112, n - 75, 137438953472, 18889465931478580854784);
    Squared(n - 75, n - 1, 18889465931478580854784, 356811923176489970264571492362373784095686656);
  }

  lemma {:induction false} TinySpacing(q: real, k: nat)
    requires IsQuantum(q) && k == 925
    ensures Spacing(q, k) == TINY
  {
    var n: nat :| IsUnit(q, n);
    TinyPower(n - k);
    SpacingRatio(q, k, n);
  }

  lemma {:induction false} TinyIsRep(fp: Arith)
    requires IsIeee(fp)
    ensures Rep(fp, TINY)
  {
    var k: nat :| k == 925;
    TinySpacing(fp.quantum, k);
    PointIsFixed(fp.quantum, TINY, 1, k);
    assert StepsAt(fp, TINY);
  }

  /** A float32 is what the other modules ask of one. */
  lemma {:induction false} SingleIsFloat(fp: Arith, x: real)
    requires IsIeee(fp) && IsSingle(fp, x)
    ensures IsFloat(fp, x)
  {
    var m: int, k: nat :| k >= 925 && IsShort(fp.quantum, x, m, k);
    PointIsFixed(fp.quantum, x, m, k);
    assert StepsAt(fp, x);
    var i := SinglesAreSteps(fp.quantum, x, m, k);
    assert Steps(i, x);
  }

  lemma {:induction false} SinglesAreSteps(q: real, x: real, m: int, k: nat) returns (i: int)
    requires IsQuantum(q) && k >= 925 && IsShort(q, x, m, k)
    ensures i as real == x * 713623846352979940529142984724747568191373312.0
  {
    var b: nat :| b == 925;
    TinySpacing(q, b);
    SpacingRatio(q, b, k);
    Associate(m, Bits.Pow2(k - b), TINY);
    i := m * Bits.Pow2(k - b);
    TinySteps(i, x);
  }

  lemma {:induction false} TinySteps(i: int, x: real)
    requires x == i as real * TINY
    ensures i as real == x * 713623846352979940529142984724747568191373312.0
  {
  }

  /** n times a float32 for n up to 15 is exact in binary64. */
  lemma {:induction false} FewSingles(q: real, e: real, m: int, k: nat, n: nat)
    requires q > 0.0 && IsShort(q, e, m, k) && n <= 15
    ensures IsTimes(n * m, Spacing(q, k), n as real * e) && -15 * SINGLES <= n * m <= 15 * SINGLES && Round(q, n as real * e) == n as real * e
  {
    MulRange(n, m);
    Associate(n, m, Spacing(q, k));
    PointIsFixed(q, n as real * e, n * m, k);
  }

  lemma {:induction false} MulRange(n: nat, m: int)
    requires n <= 15 && -SINGLES <= m <= SINGLES
    ensures -15 * SINGLES <= n * m <= 15 * SINGLES
  {
  }

  /** The stored bound and the coded ones are coded bounds. */
  lemma {:induction false} SingleIsCoded(fp: Arith, e: real)
    requires IsIeee(fp) && IsSingle(fp, e) && e >= 0.0
    ensures Rep(fp, 15.0 * e) && IsCodedBound(fp.quantum, e)
  {
    var m: int, k: nat :| k >= 925 && IsShort(fp.quantum, e, m, k);
    FewSingles(fp.quantum, e, m, k, 15);
    ShortIsFixed(fp.quantum, e, m, k);
    assert StepsAt(fp, 15.0 * e);
    ShortIsCoded(fp.quantum, e, e, m, k, 15);
  }

  lemma {:induction false} ShortIsCoded(q: real, e: real, y: real, m: int, k: nat, n: nat)
    requires q > 0.0 && IsShort(q, e, m, k) && e >= 0.0 && n <= 15 && 15.0 * y == n as real * e
    ensures IsCodedBound(q, Round(q, y))
  {
    SpacingPositive(q, k);
    Cancel(0.0, m as real, Spacing(q, k));
    FewSingles(q, e, m, k, n);
    MulSign(n, m);
    assert IsCoded(q, Round(q, y), y, n * m, k);
  }

  lemma {:induction false} MulSign(n: nat, m: int)
    requires m >= 0
    ensures n * m >= 0
  {
  }

  lemma {:induction false} Fifteenth(e: real, c: nat) returns (y: real)
    ensures y == c as real * e / 15.0 && 15.0 * y == c as real * e
  {
    y := c as real * e / 15.0;
  }

  lemma {:induction false} CodeIsCoded(fp: Arith, e: real, c: nat)
    requires IsIeee(fp) && IsSingle(fp, e) && e >= 0.0 && c <= 15
    ensures IsCodedBound(fp.quantum, CodeError(fp, e, c)) && CodeError(fp, e, c) >= 0.0
  {
    var m: int, k: nat :| k >= 925 && IsShort(fp.quantum, e, m, k);
    var y := Fifteenth(e, c);
    FewSingles(fp.quantum, e, m, k, c);
    ShortIsCoded(fp.quantum, e, y, m, k, c);
    CodeSign(e, c, y);
    RoundSign(fp.quantum, y);
    CodeIs(fp, e, c, y);
  }

  lemma {:induction false} CodeSign(e: real, c: nat, y: real)
    requires e >= 0.0 && 15.0 * y == c as real * e
    ensures y >= 0.0
  {
    MulLe(0.0, e, c as real);
  }

  lemma {:induction false} CodeIs(fp: Arith, e: real, c: nat, y: real)
    requires IsIeee(fp) && Round(fp.quantum, c as real * e) == c as real * e && y == c as real * e / 15.0
    ensures CodeError(fp, e, c) == Round(fp.quantum, y)
  {
    assert Product(e, c as real) == c as real * e;
    assert StepsAt(fp, c as real * e) && StepsAt(fp, y);
  }

  lemma {:induction false} IntsAreSingle(fp: Arith)
    requires IsIeee(fp)
    ensures IsSingle(fp, 9007199254740992.0) && IsSingle(fp, -1.0)
  {
    var q := fp.quantum;
    var n: nat :| IsUnit(q, n);
    FarSpacing(q, n);
    Sixteen(q, n + 28, n + 32);
    assert IsShort(q, 9007199254740992.0, 2097152, n + 32);
    assert IsShort(q, -1.0, -1, n);
  }
}
