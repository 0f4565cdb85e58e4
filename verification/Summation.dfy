/** Rounding errors of running totals: a sum built term by term in binary64 next to
  * the running total of bounds on the terms, as aggregate_block keeps them. */
module Summation {
  import opened Rounding

  /** The largest read the slack is proved for: 2^24 values. */
  const MAX_TERMS: int := 16777216

  /** A value seen by an aggregate adds x to the sum of sure or of maybe terms, or to
    * neither; t bounds |x|, and y is what the original value adds for certain. */
  datatype Kind = Sure | Maybe | Skip
  datatype Term = Term(kind: Kind, x: real, t: real, y: real)

  ghost predicate ValidTerm(fp: Arith, m: Term) {
    && Rep(fp, m.x) && Rep(fp, m.t) && Abs(m.x) <= m.t
    && (m.kind == Skip ==> m.y == 0.0) && (m.kind != Skip ==> m.x <= m.y)
  }

  ghost predicate ValidTerms(fp: Arith, ms: seq<Term>) {
    forall i :: 0 <= i < |ms| ==> ValidTerm(fp, ms[i])
  }

  /** The running totals in binary64. */
  datatype Sums = Sums(sure: real, maybe: real, bound: real)

  function Accumulate(fp: Arith, ms: seq<Term>): Sums
  {
    if ms == [] then Sums(0.0, 0.0, 0.0)
    else
      AddTerm(fp, Accumulate(fp, ms[..|ms| - 1]), ms[|ms| - 1])
  }

  function AddTerm(fp: Arith, p: Sums, m: Term): Sums {
    Sums(if m.kind == Sure then fp.rnd(p.sure + m.x) else p.sure,
         if m.kind == Maybe then fp.rnd(p.maybe + m.x) else p.maybe,
         fp.rnd(p.bound + m.t))
  }

  /** The same totals without rounding. */
  datatype Exact = Exact(sure: real, maybe: real, bound: real, sureBound: real, maybeBound: real,
                         sureTrue: real, maybeTrue: real)

  function Totals(ms: seq<Term>): Exact
  {
    if ms == [] then Exact(0.0, 0.0, 0.0, 0.0, 0.0, 0.0, 0.0)
    else AddExact(Totals(ms[..|ms| - 1]), ms[|ms| - 1])
  }

  function AddExact(p: Exact, m: Term): Exact {
    match m.kind
    case Sure => p.(sure := p.sure + m.x, sureBound := p.sureBound + m.t, sureTrue := p.sureTrue + m.y, bound := p.bound + m.t)
    case Maybe => p.(maybe := p.maybe + m.x, maybeBound := p.maybeBound + m.t, maybeTrue := p.maybeTrue + m.y, bound := p.bound + m.t)
    case Skip => p.(bound := p.bound + m.t)
  }

  // ---- n times a bound, without products of variables ----

  ghost function Times(n: nat, b: real): (p: real)
    ensures b >= 0.0 ==> p >= 0.0
  {
    if n == 0 then 0.0 else Times(n - 1, b) + b
  }

  lemma {:induction false} TimesIs(n: nat, b: real)
    ensures Times(n, b) == n as real * b
  {
    if n > 0 { TimesIs(n - 1, b); }
  }

  lemma {:induction false} TimesSum(n: nat, b: real, c: real)
    ensures Times(n, b + c) == Times(n, b) + Times(n, c)
  {
    if n > 0 { TimesSum(n - 1, b, c); }
  }

  lemma {:induction false} TimesMore(n: nat, k: nat, b: real)
    requires n <= k && b >= 0.0
    ensures Times(n, b) <= Times(k, b)
    decreases k
  {
    if n < k { TimesMore(n, k - 1, b); }
  }

  lemma {:induction false} TimesSmall(n: nat, b: real)
    requires n <= MAX_TERMS && b >= 0.0
    ensures Times(n, b) <= 16777216.0 * b
  {
    TimesMore(n, MAX_TERMS, b);
    TimesIs(MAX_TERMS, b);
  }

  /** Error e after n steps on bounds summing to b: e <= n * 2^-53 * (1 + 2^-28) * b. */
  ghost predicate Drift(e: real, n: nat, b: real) {
    Abs(e) * 2417851639229258349412352.0 <= Times(n, b) * 268435457.0
  }

  lemma {:induction false} LinearStep(r: real, s: real, e: real, x: real, bound: real, t: real, p: real)
    requires Abs(e) <= bound && Abs(x) <= t && 0.0 <= p <= 16777216.0 * bound
    requires Abs(s - e) * 2417851639229258349412352.0 <= p * 268435457.0
    requires Near(r, s + x)
    ensures Abs(r - (e + x)) * 2417851639229258349412352.0 <= (p + bound + t) * 268435457.0
  {
    assert Abs(s - e) * 268435456.0 <= bound;
    assert Abs(s + x) * 268435456.0 <= (bound + t) * 268435457.0;
  }

  /** One more term. */
  lemma {:induction false} AddStep(fp: Arith, s: real, e: real, x: real, n: nat, bound: real, t: real)
    requires Binary64(fp) && Rep(fp, s) && Rep(fp, x) && n <= MAX_TERMS
    requires Abs(e) <= bound && Abs(x) <= t && Drift(s - e, n, bound)
    ensures Drift(fp.rnd(s + x) - (e + x), n + 1, bound + t)
  {
    SumError(fp, s, x);
    TimesSmall(n, bound);
    LinearStep(fp.rnd(s + x), s, e, x, bound, t, Times(n, bound));
    DriftNext(fp.rnd(s + x) - (e + x), n, bound, t);
  }

  lemma {:induction false} DriftNext(e: real, n: nat, bound: real, t: real)
    requires Abs(e) * 2417851639229258349412352.0 <= (Times(n, bound) + bound + t) * 268435457.0 && t >= 0.0
    ensures Drift(e, n + 1, bound + t)
  {
    TimesSum(n, bound, t);
    TimesMore(0, n, t);
  }

  lemma {:induction false} LinearLoss(r: real, a: real, total: real, t: real, k: real)
    requires 0.0 <= k <= total * 16777216.0 && 0.0 <= t && 0.0 <= total
    requires (total - a) * 9007199254740992.0 <= k
    requires Near(r, a + t)
    ensures (total + t - r) * 9007199254740992.0 <= k + total + t
  {
    assert a + t >= 0.0;
    assert (a + t - r) * 9007199254740992.0 <= a + t;
  }

  /** The total of the bounds loses at most 2^-53 of itself per term. */
  lemma {:induction false} BoundStep(fp: Arith, n: nat, a: real, total: real, t: real)
    requires Binary64(fp) && Rep(fp, a) && Rep(fp, t) && n <= MAX_TERMS
    requires total >= 0.0 && t >= 0.0 && (total - a) * 9007199254740992.0 <= Times(n, total)
    ensures (total + t - fp.rnd(a + t)) * 9007199254740992.0 <= Times(n + 1, total + t)
  {
    SumError(fp, a, t);
    TimesSmall(n, total);
    TimesSum(n, total, t);
    LinearLoss(fp.rnd(a + t), a, total, t, Times(n, total));
  }

  /** The first term is added to 0 and so is exact. */
  lemma {:induction false} FirstStep(fp: Arith, x: real)
    requires Rep(fp, x)
    ensures fp.rnd(0.0 + x) == x
  {
    assert 0.0 + x == x;
  }

  // ---- the induction over a read ----

  ghost predicate Bounded(fp: Arith, s: Sums, e: Exact) {
    && Rep(fp, s.sure) && Rep(fp, s.maybe) && Rep(fp, s.bound)
    && Abs(e.sure) <= e.sureBound && Abs(e.maybe) <= e.maybeBound && e.sureBound + e.maybeBound <= e.bound
    && e.sure <= e.sureTrue && e.maybe <= e.maybeTrue
  }

  lemma {:induction false} AccumulateShape(fp: Arith, ms: seq<Term>)
    requires Binary64(fp) && ValidTerms(fp, ms)
    ensures Bounded(fp, Accumulate(fp, ms), Totals(ms))
    ensures ms == [] ==> Accumulate(fp, ms) == Sums(0.0, 0.0, 0.0)
  {
    if ms == [] {
      ZeroIsRep(fp);
    } else {
      var m := ms[|ms| - 1];
      var p := Accumulate(fp, ms[..|ms| - 1]);
      AccumulateShape(fp, ms[..|ms| - 1]);
      assert ValidTerm(fp, m);
      RoundedIsRep(fp, p.sure + m.x);
      RoundedIsRep(fp, p.maybe + m.x);
      RoundedIsRep(fp, p.bound + m.t);
    }
  }

  lemma {:induction false} DriftMore(e: real, n: nat, b: real)
    requires Drift(e, n, b) && b >= 0.0
    ensures Drift(e, n + 1, b)
  {
  }

  /** After n + 1 terms the sum of the sure ones is off by at most n * 2^-53 * (1 + 2^-28)
    * times the sum of their bounds. */
  lemma {:induction false} SureError(fp: Arith, ms: seq<Term>)
    requires Binary64(fp) && ValidTerms(fp, ms) && 1 <= |ms| <= MAX_TERMS
    ensures Drift(Accumulate(fp, ms).sure - Totals(ms).sure, |ms| - 1, Totals(ms).sureBound)
  {
    var n := |ms| - 1;
    var m, front := ms[n], ms[..n];
    var p, e := Accumulate(fp, front), Totals(front);
    AccumulateShape(fp, front);
    assert ValidTerm(fp, m);
    if n == 0 {
      FirstStep(fp, m.x);
      assert front == [];
    } else {
      SureError(fp, front);
      if m.kind == Sure {
        AddStep(fp, p.sure, e.sure, m.x, n - 1, e.sureBound, m.t);
      } else {
        DriftMore(p.sure - e.sure, n - 1, e.sureBound);
      }
    }
  }

  /** The same for the sum of the maybe ones. */
  lemma {:induction false} MaybeError(fp: Arith, ms: seq<Term>)
    requires Binary64(fp) && ValidTerms(fp, ms) && 1 <= |ms| <= MAX_TERMS
    ensures Drift(Accumulate(fp, ms).maybe - Totals(ms).maybe, |ms| - 1, Totals(ms).maybeBound)
  {
    var n := |ms| - 1;
    var m, front := ms[n], ms[..n];
    var p, e := Accumulate(fp, front), Totals(front);
    AccumulateShape(fp, front);
    assert ValidTerm(fp, m);
    if n == 0 {
      FirstStep(fp, m.x);
      assert front == [];
    } else {
      MaybeError(fp, front);
      if m.kind == Maybe {
        AddStep(fp, p.maybe, e.maybe, m.x, n - 1, e.maybeBound, m.t);
      } else {
        DriftMore(p.maybe - e.maybe, n - 1, e.maybeBound);
      }
    }
  }

  /** The computed total of the bounds is low by at most n * 2^-53 of itself. */
  lemma {:induction false} BoundError(fp: Arith, ms: seq<Term>)
    requires Binary64(fp) && ValidTerms(fp, ms) && 1 <= |ms| <= MAX_TERMS
    ensures (Totals(ms).bound - Accumulate(fp, ms).bound) * 9007199254740992.0 <= Times(|ms| - 1, Totals(ms).bound)
  {
    var n := |ms| - 1;
    var m, front := ms[n], ms[..n];
    AccumulateShape(fp, front);
    assert ValidTerm(fp, m);
    if n == 0 {
      FirstStep(fp, m.t);
      assert front == [];
    } else {
      BoundError(fp, front);
      BoundStep(fp, n - 1, Accumulate(fp, front).bound, Totals(front).bound, m.t);
    }
  }
}
