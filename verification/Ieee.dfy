/** Binary64 itself, with 53-bit significands, gradual underflow and ties to even, but
  * without a largest exponent, meets what the proofs assume of double arithmetic. */
module Ieee {
  import opened Rounding
  import Bits

  const SIGNIFICANDS: int := 9007199254740992
  const HALF: int := 4503599627370496

  // the same as reals
  const TOP: real := 9007199254740992.0
  const MID: real := 4503599627370496.0

  // ---- rounding to integers ----

  /** z rounded to an integer, halves to the even one. */
  function NearestEven(z: real): int {
    var f := z.Floor;
    var d := z - f as real;
    if d < 0.5 || (d == 0.5 && f % 2 == 0) then f else f + 1
  }

  lemma {:induction false} NearestError(z: real)
    ensures Abs(NearestEven(z) as real - z) <= 0.5
  {
  }

  lemma {:induction false} NearestInt(z: real, i: int)
    requires z == i as real
    ensures NearestEven(z) == i
  {
  }

  lemma {:induction false} NearestMonotone(y: real, z: real)
    requires y <= z
    ensures NearestEven(y) <= NearestEven(z)
  {
  }

  lemma {:induction false} NearestNegated(z: real)
    ensures NearestEven(-z) == -NearestEven(z)
  {
    var f := z.Floor;
    if z == f as real {
      NearestInt(z, f);
      NearestInt(-z, -f);
    } else {
      FloorNegated(z);
      assert (-f - 1) % 2 == 0 <==> f % 2 != 0;
    }
  }

  lemma {:induction false} FloorNegated(z: real)
    requires z != z.Floor as real
    ensures (-z).Floor == -z.Floor - 1
  {
  }

  /** The largest integer below z. */
  function Under(z: real): int {
    -((-z).Floor) - 1
  }

  lemma {:induction false} UnderBounds(z: real, i: int)
    ensures (Under(z) as real) < z <= (Under(z) + 1) as real
    ensures (i as real) < z ==> i <= Under(z)
  {
  }

  // ---- binades ----

  /** The distance between neighbours in binade k: 2^k quanta. */
  ghost function Spacing(q: real, k: nat): real {
    if k == 0 then q else 2.0 * Spacing(q, k - 1)
  }

  lemma {:induction false} SpacingIs(q: real, k: nat)
    ensures Spacing(q, k) == Bits.Pow2(k) as real * q
  {
    if k > 0 { SpacingIs(q, k - 1); }
  }

  lemma {:induction false} SpacingPositive(q: real, k: nat)
    requires q > 0.0
    ensures Spacing(q, k) > 0.0
  {
    if k > 0 { SpacingPositive(q, k - 1); }
  }

  /** The spacing of a binade is a whole number of spacings of any binade below. */
  lemma {:induction false} SpacingRatio(q: real, j: nat, k: nat)
    requires j <= k
    ensures Spacing(q, k) == Bits.Pow2(k - j) as real * Spacing(q, j)
    decreases k
  {
    if j < k { SpacingRatio(q, j, k - 1); }
  }

  lemma {:induction false} SpacingGrows(q: real, j: nat, k: nat)
    requires q > 0.0 && j < k
    ensures 2.0 * Spacing(q, j) <= Spacing(q, k)
    decreases k
  {
    SpacingPositive(q, j);
    if j < k - 1 { SpacingGrows(q, j, k - 1); }
  }

  lemma {:induction false} SpacingUnbounded(q: real, k: nat)
    requires q > 0.0
    ensures Spacing(q, k) >= (k + 1) as real * q
  {
    if k > 0 { SpacingUnbounded(q, k - 1); }
  }

  /** Sizes from 2^52 to 2^53 spacings, and down to 0 in the lowest binade. */
  ghost predicate InBinade(q: real, a: real, k: nat) {
    a < Spacing(q, k) * TOP && (k == 0 || Spacing(q, k) * MID <= a)
  }

  /** The first binade from k on that reaches beyond a. */
  ghost function Search(q: real, a: real, k: nat): (r: nat)
    requires q > 0.0 && a >= 0.0
    requires k == 0 || Spacing(q, k) * MID <= a
    ensures InBinade(q, a, r)
    decreases Distance(q, a) - k
  {
    if a < Spacing(q, k) * TOP then k
    else
      NotYet(q, a, k);
      Search(q, a, k + 1)
  }

  ghost function Distance(q: real, a: real): int
    requires q > 0.0
  {
    (a / q).Floor + 1
  }

  lemma {:induction false} NotYet(q: real, a: real, k: nat)
    requires q > 0.0 && Spacing(q, k) * TOP <= a
    ensures k < Distance(q, a)
  {
    SpacingUnbounded(q, k);
    SpacingPositive(q, k);
    var z := a / q;
    assert z * q == a;
    Cancel(k as real, z, q);
  }

  lemma {:induction false} Cancel(x: real, y: real, q: real)
    requires q > 0.0
    ensures x * q < y * q <==> x < y
    ensures x * q <= y * q <==> x <= y
  {
  }

  ghost function Binade(q: real, x: real): (k: nat)
    requires q > 0.0
    ensures InBinade(q, Abs(x), k)
  {
    Search(q, Abs(x), 0)
  }

  lemma {:induction false} BinadesOrdered(q: real, a: real, b: real, j: nat, k: nat)
    requires q > 0.0 && a <= b && InBinade(q, a, j) && InBinade(q, b, k)
    ensures j <= k
  {
    if k < j { SpacingGrows(q, k, j); }
  }

  // ---- rounding ----

  ghost predicate IsScaled(z: real, s: real, x: real) {
    z * s == x
  }

  /** x in spacings. */
  ghost function Scaled(q: real, x: real, k: nat): (z: real)
    requires q > 0.0
    ensures IsScaled(z, Spacing(q, k), x)
  {
    SpacingPositive(q, k);
    assert IsScaled(x / Spacing(q, k), Spacing(q, k), x);
    var z: real :| IsScaled(z, Spacing(q, k), x);
    z
  }

  ghost function Round(q: real, x: real): real
    requires q > 0.0
  {
    var k := Binade(q, x);
    NearestEven(Scaled(q, x, k)) as real * Spacing(q, k)
  }

  /** x is m spacings of binade k, and m has at most 53 bits or is 2^53. */
  ghost predicate IsPoint(q: real, x: real, m: int, k: nat) {
    x == m as real * Spacing(q, k) && -SIGNIFICANDS <= m <= SIGNIFICANDS
  }

  lemma {:induction false} Factor(z: real, s: real, x: real, b: real)
    requires s > 0.0 && IsScaled(z, s, x)
    ensures (x < b * s <==> z < b) && (b * s < x <==> b < z) && (x == b * s <==> z == b)
  {
    Cancel(z, b, s);
    Cancel(b, z, s);
  }

  /** A number of so many spacings, of size below 2^53 spacings or from 2^52 on. */
  lemma {:induction false} ScaledBounds(q: real, x: real, k: nat)
    requires q > 0.0 && InBinade(q, Abs(x), k)
    ensures var z := Scaled(q, x, k);
            && -TOP < z < TOP
            && (x >= 0.0 ==> z >= 0.0) && (x <= 0.0 ==> z <= 0.0)
            && (k > 0 && x >= 0.0 ==> z >= MID)
  {
    SpacingPositive(q, k);
    SizeBounds(Scaled(q, x, k), Spacing(q, k), x, k > 0);
  }

  lemma {:induction false} SizeBounds(z: real, s: real, x: real, lower: bool)
    requires s > 0.0 && IsScaled(z, s, x) && Abs(x) < s * TOP && (lower ==> s * MID <= Abs(x))
    ensures -TOP < z < TOP && (x >= 0.0 ==> z >= 0.0) && (x <= 0.0 ==> z <= 0.0)
    ensures lower && x >= 0.0 ==> z >= MID
  {
    Factor(z, s, x, TOP);
    Factor(z, s, x, -TOP);
    Factor(z, s, x, 0.0);
    Factor(z, s, x, MID);
  }

  lemma {:induction false} RoundIsPoint(q: real, x: real)
    requires q > 0.0
    ensures IsPoint(q, Round(q, x), NearestEven(Scaled(q, x, Binade(q, x))), Binade(q, x))
  {
    var k := Binade(q, x);
    ScaledBounds(q, x, k);
    NearestError(Scaled(q, x, k));
  }

  /** A number of whole spacings of its own binade is kept. */
  lemma {:induction false} WholeIsFixed(q: real, x: real, i: int)
    requires q > 0.0 && x == i as real * Spacing(q, Binade(q, x))
    ensures Round(q, x) == x
  {
    var k := Binade(q, x);
    var s, z := Spacing(q, k), Scaled(q, x, k);
    SpacingPositive(q, k);
    Factor(z, s, x, i as real);
    NearestInt(z, i);
  }

  /** Points are kept: they are whole in their own binade too. */
  lemma {:induction false} PointIsFixed(q: real, x: real, m: int, j: nat)
    requires q > 0.0 && IsPoint(q, x, m, j)
    ensures Round(q, x) == x
  {
    var i := PointIsWhole(q, x, m, j, Binade(q, x));
    WholeIsFixed(q, x, i);
  }

  lemma {:induction false} PointIsWhole(q: real, x: real, m: int, j: nat, k: nat) returns (i: int)
    requires q > 0.0 && IsPoint(q, x, m, j) && InBinade(q, Abs(x), k)
    ensures x == i as real * Spacing(q, k)
  {
    if k <= j {
      i := PointIsWholeBelow(q, x, m, j, k);
    } else {
      i := if x < 0.0 then -HALF else HALF;
      SpacingGrows(q, j, k);
      SpacingPositive(q, j);
      PointSize(m, Spacing(q, j), x);
      AtStart(Spacing(q, j), Spacing(q, k), x);
    }
  }

  /** A point of a lower binade that reaches into this one is its start. */
  lemma {:induction false} AtStart(s: real, t: real, x: real)
    requires 2.0 * s <= t && Abs(x) <= TOP * s && t * MID <= Abs(x)
    ensures x == (if x < 0.0 then -HALF else HALF) as real * t
  {
  }

  lemma {:induction false} Associate(m: int, p: int, s: real)
    ensures m as real * (p as real * s) == (m * p) as real * s
  {
    assert (m * p) as real == m as real * p as real;
  }

  lemma {:induction false} PointSize(m: int, s: real, x: real)
    requires s > 0.0 && x == m as real * s && -SIGNIFICANDS <= m <= SIGNIFICANDS
    ensures Abs(x) <= TOP * s
  {
    SizeAtMost(m as real, s, x);
  }

  lemma {:induction false} SizeAtMost(z: real, s: real, x: real)
    requires s > 0.0 && x == z * s && -TOP <= z <= TOP
    ensures Abs(x) <= TOP * s
  {
    Cancel(z, TOP, s);
    Cancel(-TOP, z, s);
  }

  /** Off by at most half a spacing. */
  lemma {:induction false} RoundError(q: real, x: real, k: nat)
    requires q > 0.0 && k == Binade(q, x)
    ensures Abs(Round(q, x) - x) <= Spacing(q, k) * 0.5
  {
    SpacingPositive(q, k);
    NearestError(Scaled(q, x, k));
    HalfStep(NearestEven(Scaled(q, x, k)) as real, Scaled(q, x, k), Spacing(q, k), x, Round(q, x));
  }

  lemma {:induction false} HalfStep(m: real, z: real, s: real, x: real, r: real)
    requires s > 0.0 && Abs(m - z) <= 0.5 && IsScaled(z, s, x) && r == m * s
    ensures Abs(r - x) <= s * 0.5
  {
    Factor(m - z, s, r - x, 0.5);
    Factor(m - z, s, r - x, -0.5);
  }

  /** From 2^52 quanta on, the relative error is at most 2^-53. */
  lemma {:induction false} RoundIsNear(q: real, x: real)
    requires q > 0.0 && q * MID <= Abs(x)
    ensures Near(Round(q, x), x)
  {
    RoundError(q, x, Binade(q, x));
  }

  lemma {:induction false} RoundNegated(q: real, x: real)
    requires q > 0.0
    ensures Round(q, -x) == -Round(q, x)
  {
    var k := Binade(q, x);
    assert Binade(q, -x) == k;
    var s, z, y := Spacing(q, k), Scaled(q, x, k), Scaled(q, -x, k);
    SpacingPositive(q, k);
    assert (-z) * s == y * s;
    Cancel(-z, y, s);
    NearestNegated(z);
    assert (-NearestEven(z)) as real * s == -(NearestEven(z) as real * s);
  }

  lemma {:induction false} RoundSign(q: real, x: real)
    requires q > 0.0 && x >= 0.0
    ensures Round(q, x) >= 0.0
  {
    var k := Binade(q, x);
    ScaledBounds(q, x, k);
    NearestInt(0.0, 0);
    NearestMonotone(0.0, Scaled(q, x, k));
    SpacingPositive(q, k);
    Cancel(0.0, NearestEven(Scaled(q, x, k)) as real, Spacing(q, k));
  }

  /** Two numbers of one binade. */
  lemma {:induction false} RoundMonotoneInside(q: real, x: real, y: real, k: nat)
    requires q > 0.0 && x <= y && Binade(q, x) == k == Binade(q, y)
    ensures Round(q, x) <= Round(q, y)
  {
    SpacingPositive(q, k);
    RoundInside(q, x, k);
    RoundInside(q, y, k);
    RoundedInOrder(Scaled(q, x, k), Scaled(q, y, k), Spacing(q, k), x, y, Round(q, x), Round(q, y));
  }

  lemma {:induction false} RoundInside(q: real, x: real, k: nat)
    requires q > 0.0 && k == Binade(q, x)
    ensures Round(q, x) == NearestEven(Scaled(q, x, k)) as real * Spacing(q, k)
  {
  }

  lemma {:induction false} RoundedInOrder(w: real, z: real, s: real, x: real, y: real, a: real, b: real)
    requires s > 0.0 && IsScaled(w, s, x) && IsScaled(z, s, y) && x <= y
    requires a == NearestEven(w) as real * s && b == NearestEven(z) as real * s
    ensures a <= b
  {
    Cancel(w, z, s);
    NearestMonotone(w, z);
    Cancel(NearestEven(w) as real, NearestEven(z) as real, s);
  }

  /** Rounding stays at or below the upper end of the binade... */
  lemma {:induction false} RoundBelowEnd(q: real, x: real, j: nat)
    requires q > 0.0 && j == Binade(q, x)
    ensures Round(q, x) <= Spacing(q, j) * TOP
  {
    RoundIsPoint(q, x);
    SpacingPositive(q, j);
    PointSize(NearestEven(Scaled(q, x, j)), Spacing(q, j), Round(q, x));
  }

  /** ...and at or above its lower end. */
  lemma {:induction false} RoundAboveStart(q: real, y: real, k: nat)
    requires q > 0.0 && 0.0 <= y && 0 < k == Binade(q, y)
    ensures Spacing(q, k) * MID <= Round(q, y)
  {
    SpacingPositive(q, k);
    ScaledBounds(q, y, k);
    NearestInt(MID, HALF);
    NearestMonotone(MID, Scaled(q, y, k));
    Cancel(MID, NearestEven(Scaled(q, y, k)) as real, Spacing(q, k));
  }

  /** The upper end of a binade is at most the lower end of a later one. */
  lemma {:induction false} RoundMonotoneAcross(q: real, x: real, y: real, j: nat, k: nat)
    requires q > 0.0 && 0.0 <= x && 0.0 <= y && Binade(q, x) == j < k == Binade(q, y)
    ensures Round(q, x) <= Round(q, y)
  {
    RoundBelowEnd(q, x, j);
    SpacingGrows(q, j, k);
    RoundAboveStart(q, y, k);
  }

  lemma {:induction false} RoundMonotoneUp(q: real, x: real, y: real)
    requires q > 0.0 && 0.0 <= x <= y
    ensures Round(q, x) <= Round(q, y)
  {
    var j, k := Binade(q, x), Binade(q, y);
    BinadesOrdered(q, x, y, j, k);
    if j == k {
      RoundMonotoneInside(q, x, y, k);
    } else {
      RoundMonotoneAcross(q, x, y, j, k);
    }
  }

  lemma {:induction false} RoundMonotone(q: real, x: real, y: real)
    requires q > 0.0 && x <= y
    ensures Round(q, x) <= Round(q, y)
  {
    if 0.0 <= x {
      RoundMonotoneUp(q, x, y);
    } else if y < 0.0 {
      RoundMonotoneUp(q, -y, -x);
      RoundNegated(q, x);
      RoundNegated(q, y);
    } else {
      RoundSign(q, -x);
      RoundNegated(q, x);
      RoundSign(q, y);
    }
  }

  // ---- nextafter towards -inf ----

  /** At the lower end of a binade, the neighbour below is in the binade before. */
  ghost predicate AtLowerEnd(q: real, x: real, k: nat) {
    k > 0 && x == Spacing(q, k) * MID
  }

  ghost function Down(q: real, x: real): real
    requires q > 0.0
  {
    var k := Binade(q, x);
    if AtLowerEnd(q, x, k) then (TOP - 1.0) * Spacing(q, k - 1)
    else Under(Scaled(q, x, k)) as real * Spacing(q, k)
  }

  lemma {:induction false} DownIsPoint(q: real, x: real)
    requires q > 0.0
    ensures Down(q, x) < x && Round(q, Down(q, x)) == Down(q, x)
  {
    var k := Binade(q, x);
    if AtLowerEnd(q, x, k) {
      SpacingPositive(q, k - 1);
      PointIsFixed(q, Down(q, x), SIGNIFICANDS - 1, k - 1);
    } else {
      UnderIsPoint(q, x, k, Scaled(q, x, k), Down(q, x));
    }
  }

  lemma {:induction false} UnderIsPoint(q: real, x: real, k: nat, z: real, d: real)
    requires q > 0.0 && InBinade(q, Abs(x), k) && z == Scaled(q, x, k) && d == Under(z) as real * Spacing(q, k)
    ensures d < x && Round(q, d) == d
  {
    ScaledBounds(q, x, k);
    UnderBounds(z, -SIGNIFICANDS);
    SpacingPositive(q, k);
    Factor(z, Spacing(q, k), x, Under(z) as real);
    PointIsFixed(q, d, Under(z), k);
  }

  /** No double lies between. */
  lemma {:induction false} DownIsNext(q: real, x: real, y: real)
    requires q > 0.0 && y < x && Round(q, y) == y
    ensures y <= Down(q, x)
  {
    var j, k := Binade(q, y), Binade(q, x);
    var i := NearestEven(Scaled(q, y, j));
    RoundIsPoint(q, y);
    if k <= j {
      var p := PointIsWholeBelow(q, y, i, j, k);
      WholeBelow(q, x, y, k, p);
    } else {
      LowerBinade(q, x, y, i, j, k);
    }
  }

  lemma {:induction false} PointIsWholeBelow(q: real, y: real, i: int, j: nat, k: nat) returns (p: int)
    requires IsPoint(q, y, i, j) && k <= j
    ensures y == p as real * Spacing(q, k)
  {
    p := i * Bits.Pow2(j - k);
    SpacingRatio(q, k, j);
    Associate(i, Bits.Pow2(j - k), Spacing(q, k));
  }

  lemma {:induction false} WholeBelow(q: real, x: real, y: real, k: nat, p: int)
    requires q > 0.0 && y < x && k == Binade(q, x) && y == p as real * Spacing(q, k)
    ensures y <= Down(q, x)
  {
    SpacingPositive(q, k);
    if AtLowerEnd(q, x, k) {
      BelowStart(Spacing(q, k), x, y, p);
    } else {
      BelowUnder(Scaled(q, x, k), Spacing(q, k), x, y, p);
    }
  }

  lemma {:induction false} BelowUnder(z: real, s: real, x: real, y: real, p: int)
    requires s > 0.0 && IsScaled(z, s, x) && y < x && y == p as real * s
    ensures y <= Under(z) as real * s
  {
    Factor(z, s, x, p as real);
    UnderBounds(z, p);
    Cancel(p as real, Under(z) as real, s);
  }

  lemma {:induction false} BelowStart(s: real, x: real, y: real, p: int)
    requires s > 0.0 && x == s * MID && y < x && y == p as real * s
    ensures y <= s * MID - s
  {
    Cancel(p as real, MID, s);
    StepDown(p as real, s, y, MID - p as real);
  }

  lemma {:induction false} StepDown(p: real, s: real, y: real, d: real)
    requires s > 0.0 && p + d == MID && d >= 1.0 && y == p * s
    ensures y <= s * MID - s
  {
    Cancel(1.0, d, s);
    assert y == MID * s - d * s;
  }

  /** y is in a lower binade, so x is positive and y below the start of its binade. */
  lemma {:induction false} LowerBinade(q: real, x: real, y: real, i: int, j: nat, k: nat)
    requires q > 0.0 && y < x && k == Binade(q, x) && j == Binade(q, y) && j < k && IsPoint(q, y, i, j)
    ensures y <= Down(q, x)
  {
    SpacingPositive(q, j);
    SpacingGrows(q, j, k);
    if AtLowerEnd(q, x, k) {
      BeforeLowerEnd(q, y, i, j, k);
    } else {
      SpacingPositive(q, k);
      AboveLower(Scaled(q, x, k), Spacing(q, j), Spacing(q, k), x, y);
      DownInside(q, x, k);
    }
  }

  lemma {:induction false} DownInside(q: real, x: real, k: nat)
    requires q > 0.0 && k == Binade(q, x) && !AtLowerEnd(q, x, k)
    ensures Down(q, x) == Under(Scaled(q, x, k)) as real * Spacing(q, k)
  {
  }

  /** With y in a binade of spacing s and x = z * t in a higher one, not at its start. */
  lemma {:induction false} AboveLower(z: real, s: real, t: real, x: real, y: real)
    requires 0.0 < s && 2.0 * s <= t && IsScaled(z, t, x) && y < x
    requires Abs(y) < s * TOP && t * MID <= Abs(x) && x != t * MID
    ensures y <= Under(z) as real * t
  {
    var start, under := t * MID, Under(z) as real * t;
    EndBelowStart(s, t);
    AboveStart(s * TOP, start, x, y);
    StartBelow(z, t, x);
    assert y < start <= under;
  }

  lemma {:induction false} EndBelowStart(s: real, t: real)
    requires 2.0 * s <= t
    ensures s * TOP <= t * MID
  {
  }

  lemma {:induction false} AboveStart(end: real, start: real, x: real, y: real)
    requires end <= start && y < x && Abs(y) < end && start <= Abs(x)
    ensures y < start <= x
  {
  }

  lemma {:induction false} StartBelow(z: real, s: real, x: real)
    requires s > 0.0 && IsScaled(z, s, x) && s * MID < x
    ensures s * MID <= Under(z) as real * s
  {
    Factor(z, s, x, MID);
    UnderBounds(z, HALF);
    Cancel(MID, Under(z) as real, s);
  }

  lemma {:induction false} BeforeLowerEnd(q: real, y: real, i: int, j: nat, k: nat)
    requires q > 0.0 && j < k && IsPoint(q, y, i, j) && InBinade(q, Abs(y), j)
    ensures y <= (TOP - 1.0) * Spacing(q, k - 1)
  {
    SpacingPositive(q, j);
    if j == k - 1 {
      Cancel(i as real, TOP, Spacing(q, j));
      Cancel(i as real, (TOP - 1.0), Spacing(q, j));
    } else {
      SpacingGrows(q, j, k - 1);
    }
  }

  // ---- the assumptions ----

  lemma {:induction false} Added(n: nat, k: nat, m: nat)
    requires m == n + k
    ensures Bits.Pow2(m) == Bits.Pow2(n) * Bits.Pow2(k)
  {
    if k > 0 { Added(n, k - 1, m - 1); }
  }

  lemma {:induction false} Squared(n: nat, m: nat, v: int, w: int)
    requires Bits.Pow2(n) == v && m == n + n && w == v * v
    ensures Bits.Pow2(m) == w
  {
    Added(n, n, m);
  }

  /** 2^352, the exponent being a variable, since Dafny would unfold a power with a literal one. */
  lemma {:induction false} LargePower(n: nat)
    requires n == 352
    ensures Bits.Pow2(n) == 9173994463960286046443283581208347763186259956673124494950355357547691504353939232280074212440502746218496
  {
    var a: nat, b: nat, c: nat, d: nat, e: nat := n - 341, n - 330, n - 308, n - 264, n - 176;
    assert a == 11 && b == 22 && c == 44 && d == 88 && e == 176;
    EleventhPower(a);
    Squared(a, b, 2048, 4194304);
    Squared(b, c, 4194304, 17592186044416);
    Squared(c, d, 17592186044416, 309485009821345068724781056);
    Squared(d, e, 309485009821345068724781056, 95780971304118053647396689196894323976171195136475136);
    Squared(e, n, 95780971304118053647396689196894323976171195136475136, 9173994463960286046443283581208347763186259956673124494950355357547691504353939232280074212440502746218496);
  }

  lemma {:induction false} EleventhPower(n: nat)
    requires n == 11
    ensures Bits.Pow2(n) == 2048
  {
    var a: nat, b: nat := n - 9, n - 7;
    assert a == 2 && b == 4;
    Squared(a, b, 4, 16);
    Squared(n - 6, n - 1, 32, 1024);
  }

  /** 1074 spacings up from the quantum lies 1, so q is 2^-1074. */
  ghost predicate IsUnit(q: real, n: nat) {
    n == 1074 && Spacing(q, n) == 1.0
  }

  ghost predicate IsQuantum(q: real) {
    q > 0.0 && exists n: nat :: IsUnit(q, n)
  }

  /** Some q has 1 n spacings up. */
  lemma {:induction false} UnitAt(n: nat) returns (q: real)
    ensures q > 0.0 && Spacing(q, n) == 1.0
  {
    var p := Bits.Pow2(n) as real;
    q := 1.0 / p;
    SpacingIs(q, n);
    assert p * q == 1.0;
  }

  lemma {:induction false} QuantumExists() returns (q: real)
    ensures IsQuantum(q)
  {
    var n: nat :| n == 1074;
    q := UnitAt(n);
    assert IsUnit(q, n);
  }

  /** 2^52 quanta, where the normal range starts, are tiny. */
  lemma {:induction false} TinyIsSmall(q: real)
    requires IsQuantum(q)
    ensures q * MID * 2037035976334486086268445688409378161051468393665936250636140449354381299763336706183397376.0 <= 1.0
  {
    var n: nat :| IsUnit(q, n);
    var k: nat := n - 722;
    LargePower(k);
    SpacingIs(q, k);
    SpacingPositive(q, k);
    SpacingGrows(q, k, n);
  }

  lemma {:induction false} IntIsFixed(q: real, n: nat, i: int)
    requires q > 0.0 && IsUnit(q, n) && -INT_MAX <= i <= INT_MAX
    ensures Round(q, i as real) == i as real
  {
    PointIsFixed(q, i as real, i, n);
  }

  /** 2^53 + 1 lies between two doubles, and the even one is below. */
  lemma {:induction false} RoundsDown(q: real, x: real)
    requires IsQuantum(q) && x == 9007199254740993.0
    ensures Round(q, x) == 9007199254740992.0
  {
    var n: nat :| IsUnit(q, n);
    BinadesOrdered(q, x, x, n + 1, Binade(q, x));
    BinadesOrdered(q, x, x, Binade(q, x), n + 1);
    HalfWay(Scaled(q, x, n + 1));
  }

  lemma {:induction false} HalfWay(z: real)
    requires z * 2.0 == 9007199254740993.0
    ensures NearestEven(z) == 4503599627370496
  {
    assert z.Floor == 4503599627370496;
  }

  lemma {:induction false} HalfPower(n: nat)
    requires n == 52
    ensures Bits.Pow2(n) == HALF
  {
    var a: nat, b: nat := n - 49, n - 46;
    assert a == 3 && b == 6;
    Squared(a, b, 8, 64);
    Squared(n - 46, n - 40, 64, 4096);
    Squared(n - 39, n - 26, 8192, 67108864);
    Squared(n - 26, n, 67108864, HALF);
  }

  /** Less than half a spacing above 1 is rounded to 1. */
  lemma {:induction false} RoundsToOne(q: real, x: real)
    requires IsQuantum(q) && 1.0 <= x && (x - 1.0) * TOP < 1.0
    ensures Round(q, x) == 1.0
  {
    var n: nat :| IsUnit(q, n);
    var k: nat := n - 52;
    HalfPower(n - k);
    SpacingRatio(q, k, n);
    BinadesOrdered(q, x, x, k, Binade(q, x));
    BinadesOrdered(q, x, x, Binade(q, x), k);
    AboveMid(Scaled(q, x, k), Spacing(q, k), x);
  }

  lemma {:induction false} AboveMid(z: real, s: real, x: real)
    requires IsScaled(z, s, x) && MID * s == 1.0 && 1.0 <= x && (x - 1.0) * TOP < 1.0
    ensures NearestEven(z) == HALF
  {
    assert z == x * MID;
  }

  lemma {:induction false} RoundIsMultiple(q: real, x: real)
    requires q > 0.0
    ensures IsTimes(NearestEven(Scaled(q, x, Binade(q, x))) * Bits.Pow2(Binade(q, x)), q, Round(q, x))
  {
    var k := Binade(q, x);
    SpacingIs(q, k);
    Associate(NearestEven(Scaled(q, x, k)), Bits.Pow2(k), q);
  }

  /** Below the normal range every multiple of the quantum is a double. */
  lemma {:induction false} SubnormalIsFixed(q: real, x: real, i: int)
    requires q > 0.0 && IsTimes(i, q, x) && Abs(x) < q * MID
    ensures Round(q, x) == x
  {
    Cancel(i as real, TOP, q);
    Cancel(-TOP, i as real, q);
    assert Spacing(q, 0) == q && -TOP <= i as real <= TOP;
    PointIsFixed(q, x, i, 0);
  }

  /** fp rounds and steps as binary64 does. */
  ghost predicate IsIeee(fp: Arith) {
    && IsQuantum(fp.quantum) && fp.tiny == fp.quantum * MID
    && (forall x {:trigger StepsAt(fp, x)} :: StepsAt(fp, x))
  }

  /** Named, so that it is only unfolded where a proof asks for it. */
  ghost predicate StepsAt(fp: Arith, x: real)
    requires fp.quantum > 0.0
  {
    fp.rnd(x) == Round(fp.quantum, x) && fp.down(x) == Down(fp.quantum, x)
  }

  /** Every assumption about double arithmetic is a fact about binary64. */
  lemma {:induction false} IeeeIsBinary64(fp: Arith)
    requires IsIeee(fp)
    ensures Binary64(fp)
  {
    TinyIsSmall(fp.quantum);
    forall x, y {:trigger Ask(x, y)} | Ask(x, y) ensures Facts(fp, x, y) {
      IeeeFacts(fp, fp.quantum, x, y);
    }
    forall i {:trigger AskInt(i)} | AskInt(i) && -INT_MAX <= i <= INT_MAX ensures fp.rnd(i as real) == i as real {
      var n: nat :| IsUnit(fp.quantum, n);
      assert StepsAt(fp, i as real);
      IntIsFixed(fp.quantum, n, i);
    }
  }

  lemma {:induction false} IeeeFacts(fp: Arith, q: real, x: real, y: real)
    requires IsIeee(fp) && q == fp.quantum
    ensures Facts(fp, x, y)
  {
    assert StepsAt(fp, x) && StepsAt(fp, y) && StepsAt(fp, -x) && StepsAt(fp, fp.rnd(x)) && StepsAt(fp, fp.down(x));
    if x <= y { RoundMonotone(q, x, y); }
    RoundNegated(q, x);
    RoundIsPoint(q, x);
    PointIsFixed(q, Round(q, x), NearestEven(Scaled(q, x, Binade(q, x))), Binade(q, x));
    if Normal(fp, x) { RoundIsNear(q, x); }
    RoundIsMultiple(q, x);
    if Multiple(fp, x) && !Normal(fp, x) {
      var i: int :| IsTimes(i, q, x);
      SubnormalIsFixed(q, x, i);
    }
    DownIsPoint(q, x);
    if y < x && Round(q, y) == y { DownIsNext(q, x, y); }
  }

  /** A step down from a double is at most 2^-52 of it, or one quantum. */
  lemma {:induction false} DownIsNear(q: real, x: real)
    requires q > 0.0 && Round(q, x) == x
    ensures (x - Down(q, x)) * MID <= Abs(x) + q * MID
  {
    var k := Binade(q, x);
    SpacingPositive(q, k);
    if AtLowerEnd(q, x, k) {
      SpacingPositive(q, k - 1);
      assert Spacing(q, k) == 2.0 * Spacing(q, k - 1);
      assert TOP * Spacing(q, k - 1) == x;
    } else {
      var i := NearestEven(Scaled(q, x, k));
      RoundInside(q, x, k);
      WholeScaled(Scaled(q, x, k), Spacing(q, k), x, i);
      assert x - Down(q, x) == Spacing(q, k);
    }
  }

  lemma {:induction false} WholeScaled(z: real, s: real, x: real, i: int)
    requires s > 0.0 && IsScaled(z, s, x) && x == i as real * s
    ensures z == i as real && Under(z) == i - 1 && x - Under(z) as real * s == s
  {
    Cancel(z, i as real, s);
    Cancel(i as real, z, s);
    assert (i - 1) as real * s == i as real * s - s;
  }

  lemma {:induction false} StepIsSmall(fp: Arith, x: real)
    requires IsIeee(fp) && Rep(fp, x)
    ensures (x - fp.down(x)) * MID <= Abs(x) + fp.quantum * MID
  {
    assert StepsAt(fp, x);
    DownIsNear(fp.quantum, x);
  }

  /** There is such arithmetic, so the assumptions do not contradict each other. */
  lemma {:induction false} Binary64Exists()
    ensures exists fp: Arith :: IsIeee(fp) && Binary64(fp)
  {
    var q := QuantumExists();
    var fp := Arith(x => Round(q, x), x => Down(q, x), q, q * MID);
    assert IsIeee(fp);
    IeeeIsBinary64(fp);
  }
}
