/** Binary64 arithmetic as reals and an abstract rounding function: round to nearest
  * of section 4.3.1 of IEEE 754-2019, with gradual underflow and without overflow. */
module Rounding {

  /** Every integer up to 2^53 is a double. */
  const INT_MAX: int := 9007199254740992

  /** rnd is the rounding, down(x) the largest double below x, every double is a multiple of
    * quantum (2^-1074), and the normal range starts at tiny (2^-1022). */
  datatype Arith = Arith(rnd: real -> real, down: real -> real, quantum: real, tiny: real)

  /** In the normal range. */
  predicate Normal(fp: Arith, x: real) {
    fp.tiny <= Abs(x)
  }

  function Abs(x: real): (a: real)
    ensures a >= 0.0 && a >= x && a >= -x && (a == x || a == -x)
  {
    if x < 0.0 then -x else x
  }

  /** r is within the unit roundoff 2^-53 of x, relative to x. */
  predicate Near(r: real, x: real) {
    Abs(r - x) * 9007199254740992.0 <= Abs(x)
  }

  ghost predicate Rep(fp: Arith, x: real) {
    fp.rnd(x) == x
  }

  predicate IsTimes(k: int, q: real, x: real) {
    x == k as real * q
  }

  ghost predicate Multiple(fp: Arith, x: real) {
    exists k: int :: IsTimes(k, fp.quantum, x)
  }

  // The facts are asked for one at a time by the lemmas below: Ask carries the
  // instances, so that no proof is flooded with them.
  ghost predicate Ask(x: real, y: real) { true }
  ghost predicate AskInt(n: int) { true }

  /** What is assumed of double arithmetic, for numbers x and y. */
  ghost predicate Facts(fp: Arith, x: real, y: real) {
    // monotone, idempotent, symmetric
    && (x <= y ==> fp.rnd(x) <= fp.rnd(y))
    && fp.rnd(fp.rnd(x)) == fp.rnd(x)
    && fp.rnd(-x) == -fp.rnd(x)
    // relative error at most 2^-53 in the normal range
    && (Normal(fp, x) ==> Near(fp.rnd(x), x))
    // doubles are multiples of the quantum, and below the normal range all of them are doubles
    && Multiple(fp, fp.rnd(x))
    && (Multiple(fp, x) && !Normal(fp, x) ==> fp.rnd(x) == x)
    // nextafter towards -inf
    && fp.down(x) < x && fp.rnd(fp.down(x)) == fp.down(x)
    && (y < x && fp.rnd(y) == y ==> y <= fp.down(x))
  }

  /** Everything that is assumed; Ieee.IeeeIsBinary64 proves it of binary64 itself. */
  ghost predicate Binary64(fp: Arith) {
    && fp.quantum > 0.0 && 0.0 < fp.tiny
    && fp.tiny * 2037035976334486086268445688409378161051468393665936250636140449354381299763336706183397376.0 <= 1.0
    && (forall x, y {:trigger Ask(x, y)} :: Ask(x, y) ==> Facts(fp, x, y))
    && (forall n {:trigger AskInt(n)} :: AskInt(n) ==> -INT_MAX <= n <= INT_MAX ==> fp.rnd(n as real) == n as real)
  }

  /** nextafter towards +inf */
  function Up(fp: Arith, x: real): real {
    -fp.down(-x)
  }

  lemma {:induction false} Monotone(fp: Arith, x: real, y: real)
    requires Binary64(fp) && x <= y
    ensures fp.rnd(x) <= fp.rnd(y)
  {
    assert Ask(x, y);
  }

  /** Rounding does not cross a double. */
  lemma {:induction false} BelowDouble(fp: Arith, x: real, y: real)
    requires Binary64(fp) && x <= y && Rep(fp, y)
    ensures fp.rnd(x) <= y
  {
    assert Ask(x, y);
  }

  lemma {:induction false} AboveDouble(fp: Arith, x: real, y: real)
    requires Binary64(fp) && x <= y && Rep(fp, x)
    ensures x <= fp.rnd(y)
  {
    assert Ask(x, y);
  }

  lemma {:induction false} RoundedIsRep(fp: Arith, x: real)
    requires Binary64(fp)
    ensures Rep(fp, fp.rnd(x))
  {
    assert Ask(x, x);
  }

  lemma {:induction false} Symmetric(fp: Arith, x: real)
    requires Binary64(fp)
    ensures fp.rnd(-x) == -fp.rnd(x)
  {
    assert Ask(x, x);
  }

  lemma {:induction false} NegatedIsRep(fp: Arith, x: real)
    requires Binary64(fp) && Rep(fp, x)
    ensures Rep(fp, -x)
  {
    Symmetric(fp, x);
  }

  lemma {:induction false} IntIsRep(fp: Arith, n: int)
    requires Binary64(fp) && -INT_MAX <= n <= INT_MAX
    ensures Rep(fp, n as real)
  {
    assert AskInt(n);
  }

  lemma {:induction false} ZeroIsRep(fp: Arith)
    requires Binary64(fp)
    ensures Rep(fp, 0.0)
  {
    IntIsRep(fp, 0);
  }

  lemma {:induction false} RelativeError(fp: Arith, x: real)
    requires Binary64(fp) && (x == 0.0 || Normal(fp, x))
    ensures Near(fp.rnd(x), x)
  {
    assert Ask(x, x);
    ZeroIsRep(fp);
  }

  lemma {:induction false} RepIsMultiple(fp: Arith, x: real)
    requires Binary64(fp) && Rep(fp, x)
    ensures Multiple(fp, x)
  {
    assert Ask(x, x);
  }

  lemma {:induction false} MultipleSum(fp: Arith, x: real, y: real)
    requires Multiple(fp, x) && Multiple(fp, y)
    ensures Multiple(fp, x + y)
  {
    var i: int :| IsTimes(i, fp.quantum, x);
    var j: int :| IsTimes(j, fp.quantum, y);
    assert IsTimes(i + j, fp.quantum, x + y);
  }

  lemma {:induction false} MultipleZero(fp: Arith)
    ensures Multiple(fp, 0.0)
  {
    assert IsTimes(0, fp.quantum, 0.0);
  }

  /** A sum of doubles never underflows inexactly, so its relative error is bounded
    * whatever its size. */
  lemma {:induction false} MultipleError(fp: Arith, x: real)
    requires Binary64(fp) && Multiple(fp, x)
    ensures Near(fp.rnd(x), x)
  {
    if Normal(fp, x) {
      RelativeError(fp, x);
    } else {
      assert Ask(x, x);
    }
  }

  lemma {:induction false} SumError(fp: Arith, x: real, y: real)
    requires Binary64(fp) && Rep(fp, x) && Rep(fp, y)
    ensures Near(fp.rnd(x + y), x + y)
  {
    RepIsMultiple(fp, x);
    RepIsMultiple(fp, y);
    MultipleSum(fp, x, y);
    MultipleError(fp, x + y);
  }

  /** One step down from a rounded value is at most the exact value. */
  lemma {:induction false} DownIsBelow(fp: Arith, x: real)
    requires Binary64(fp)
    ensures fp.down(fp.rnd(x)) <= x
  {
    var d := fp.down(fp.rnd(x));
    assert Ask(fp.rnd(x), fp.rnd(x));
    if x < d {
      BelowDouble(fp, x, d);
    }
  }

  /** One step up from a rounded value is at least the exact value. */
  lemma {:induction false} UpIsAbove(fp: Arith, x: real)
    requires Binary64(fp)
    ensures Up(fp, fp.rnd(x)) >= x
  {
    Symmetric(fp, x);
    DownIsBelow(fp, -x);
  }
}
