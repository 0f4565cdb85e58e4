/** Query bounds and intervals of doubles: when all, and when none, of the doubles between two
  * of them match. */
module DoubleBounds {
  import opened Rounding
  import opened FloatBounds

  ghost predicate ValidBounds(fp: Arith, lo: Ext, hi: Ext) {
    (lo.Fin? ==> Rep(fp, lo.r)) && (hi.Fin? ==> Rep(fp, hi.r))
  }

  /** Every double from a to b matches. */
  ghost predicate AllMatch(fp: Arith, a: real, b: real, lo: Ext, hi: Ext) {
    forall x: real {:trigger Rep(fp, x)} :: Rep(fp, x) && a <= x <= b ==> InRange(Fin(x), lo, hi)
  }

  /** No double from a to b matches. */
  ghost predicate NoneMatch(fp: Arith, a: real, b: real, lo: Ext, hi: Ext) {
    forall x: real {:trigger Rep(fp, x)} :: Rep(fp, x) && a <= x <= b ==> !InRange(Fin(x), lo, hi)
  }

  /** The two tests on the ends of an interval of doubles are exact, the second one unless the
    * range is empty. */
  lemma {:induction false} EndsDecide(fp: Arith, a: real, b: real, lo: Ext, hi: Ext)
    requires ValidBounds(fp, lo, hi) && Rep(fp, a) && Rep(fp, b) && a <= b
    ensures AllMatch(fp, a, b, lo, hi) <==> lo.Less(Fin(a)) && Fin(b).AtMost(hi)
    ensures Fin(b).AtMost(lo) || hi.Less(Fin(a)) ==> NoneMatch(fp, a, b, lo, hi)
    ensures lo.Less(hi) && NoneMatch(fp, a, b, lo, hi) ==> Fin(b).AtMost(lo) || hi.Less(Fin(a))
  {
    if lo.Less(hi) && !Fin(b).AtMost(lo) && !hi.Less(Fin(a)) {
      var x := if Fin(b).AtMost(hi) then b else hi.r;
      assert Rep(fp, x) && InRange(Fin(x), lo, hi);
    }
  }

  /** x is at least the next double above lo. */
  ghost predicate Clears(fp: Arith, lo: Ext, x: real) {
    match lo
    case NegInf => true
    case Fin(l) => Up(fp, l) <= x
    case PosInf => false
  }

  lemma {:induction false} UpIsRep(fp: Arith, x: real)
    requires Binary64(fp)
    ensures Rep(fp, Up(fp, x)) && x < Up(fp, x)
  {
    assert Ask(-x, -x);
    NegatedIsRep(fp, fp.down(-x));
  }

  /** What clears a bound still does when it is rounded, and what a bound exceeds it still does. */
  lemma {:induction false} RoundedClears(fp: Arith, lo: Ext, hi: Ext, x: real)
    requires Binary64(fp) && ValidBounds(fp, lo, hi)
    ensures Clears(fp, lo, x) ==> lo.Less(Fin(fp.rnd(x)))
    ensures Fin(x).AtMost(hi) ==> Fin(fp.rnd(x)).AtMost(hi)
  {
    if lo.Fin? && Clears(fp, lo, x) {
      UpIsRep(fp, lo.r);
      AboveDouble(fp, Up(fp, lo.r), x);
    }
    if hi.Fin? && Fin(x).AtMost(hi) {
      BelowDouble(fp, x, hi.r);
    }
  }
}
