/** Filtered aggregates: the running totals of aggregate_block, and the guaranteed
  * bounds that combine() derives from them for the original values nobody reads. */
module Aggregate {
  import opened Rounding
  import opened Summation
  import opened FloatBounds
  import opened DoubleBounds

  /** One decoded value r of a block with error bound eps; inBlock says the whole block
    * is known to match, and orig is the original value, which the code never sees. */
  datatype Item = Item(r: real, eps: real, inBlock: bool, orig: real)

  /** What is known of a listed value: float32 numbers are doubles and, unless zero, at
    * least 2^-149 in size; the original is within eps; an IN block matches throughout. */
  ghost predicate ValidItem(fp: Arith, it: Item, lo: Ext, hi: Ext) {
    && Rep(fp, it.r) && Rep(fp, it.eps) && Rep(fp, it.orig) && it.eps >= 0.0
    && (Abs(it.r) + it.eps == 0.0 || (Abs(it.r) + it.eps) * 713623846352979940529142984724747568191373312.0 >= 1.0)
    && Abs(it.orig - it.r) <= it.eps
    && (it.inBlock ==> InRange(Fin(it.orig), lo, hi) && InRange(Fin(it.r), lo, hi))
  }

  ghost predicate ValidItems(fp: Arith, its: seq<Item>, lo: Ext, hi: Ext) {
    forall i :: 0 <= i < |its| ==> ValidItem(fp, its[i], lo, hi)
  }

  // ---- one value ----

  function Least(fp: Arith, it: Item): real {
    fp.rnd(it.r - it.eps)
  }

  function Most(fp: Arith, it: Item): real {
    fp.rnd(it.r + it.eps)
  }

  function Size(fp: Arith, it: Item): real {
    fp.rnd(Abs(it.r) + it.eps)
  }

  /** The original value matches for certain. */
  predicate IsSure(fp: Arith, it: Item, lo: Ext, hi: Ext) {
    it.inBlock || (lo.Less(Fin(Least(fp, it))) && Fin(Most(fp, it)).AtMost(hi))
  }

  /** It may or may not match. */
  predicate IsMaybe(fp: Arith, it: Item, lo: Ext, hi: Ext) {
    !IsSure(fp, it, lo, hi) && !(Fin(Most(fp, it)).AtMost(lo) || hi.Less(Fin(Least(fp, it))))
  }

  /** a > lo ? a : lo; a value that matches or may match leaves lo below +inf. */
  function Larger(a: real, lo: Ext): real {
    match lo
    case Fin(l) => if a > l then a else l
    case _ => a
  }

  /** b < hi ? b : hi */
  function Smaller(b: real, hi: Ext): real {
    match hi
    case Fin(h) => if b < h then b else h
    case _ => b
  }

  function LowEnd(fp: Arith, it: Item, lo: Ext): real {
    Larger(Least(fp, it), lo)
  }

  function HighEnd(fp: Arith, it: Item, hi: Ext): real {
    Smaller(Most(fp, it), hi)
  }

  predicate Matches(it: Item, lo: Ext, hi: Ext) {
    InRange(Fin(it.orig), lo, hi)
  }

  /** The rounded ends enclose the original, and their sizes the rounded size. */
  lemma {:induction false} EndsEnclose(fp: Arith, it: Item, lo: Ext, hi: Ext)
    requires Binary64(fp) && ValidItem(fp, it, lo, hi)
    ensures Least(fp, it) <= it.orig <= Most(fp, it)
    ensures Abs(Least(fp, it)) <= Size(fp, it) && Abs(Most(fp, it)) <= Size(fp, it)
    ensures Rep(fp, Least(fp, it)) && Rep(fp, Most(fp, it)) && Rep(fp, Size(fp, it))
  {
    BelowDouble(fp, it.r - it.eps, it.orig);
    AboveDouble(fp, it.orig, it.r + it.eps);
    RoundedIsRep(fp, it.r - it.eps);
    RoundedIsRep(fp, it.r + it.eps);
    RoundedIsRep(fp, Abs(it.r) + it.eps);
    Monotone(fp, it.r - it.eps, Abs(it.r) + it.eps);
    Monotone(fp, it.r + it.eps, Abs(it.r) + it.eps);
    Monotone(fp, -(Abs(it.r) + it.eps), it.r - it.eps);
    Monotone(fp, -(Abs(it.r) + it.eps), it.r + it.eps);
    Symmetric(fp, Abs(it.r) + it.eps);
  }

  /** The three kinds of values: sure ones match, maybe ones may, the others do not; a
    * matching original lies between the clipped ends. */
  lemma {:induction false} KindsAreRight(fp: Arith, it: Item, lo: Ext, hi: Ext)
    requires Binary64(fp) && ValidItem(fp, it, lo, hi) && ValidBounds(fp, lo, hi)
    ensures IsSure(fp, it, lo, hi) ==> Matches(it, lo, hi)
    ensures Matches(it, lo, hi) ==> IsSure(fp, it, lo, hi) || IsMaybe(fp, it, lo, hi)
    ensures Matches(it, lo, hi) ==> LowEnd(fp, it, lo) <= it.orig <= HighEnd(fp, it, hi)
    ensures IsSure(fp, it, lo, hi) || IsMaybe(fp, it, lo, hi) ==>
              && Rep(fp, LowEnd(fp, it, lo)) && Rep(fp, HighEnd(fp, it, hi))
              && Least(fp, it) <= LowEnd(fp, it, lo) <= Most(fp, it)
              && Least(fp, it) <= HighEnd(fp, it, hi) <= Most(fp, it)
  {
    EndsEnclose(fp, it, lo, hi);
  }

  /** Outside IN blocks the first two kinds are exact for the doubles between the rounded ends:
    * sure if all of them match, and neither sure nor maybe if none does. */
  lemma {:induction false} KindsAreExact(fp: Arith, it: Item, lo: Ext, hi: Ext)
    requires Binary64(fp) && ValidItem(fp, it, lo, hi) && ValidBounds(fp, lo, hi) && !it.inBlock
    ensures IsSure(fp, it, lo, hi) <==> AllMatch(fp, Least(fp, it), Most(fp, it), lo, hi)
    ensures lo.Less(hi) ==> (!IsSure(fp, it, lo, hi) && !IsMaybe(fp, it, lo, hi) <==> NoneMatch(fp, Least(fp, it), Most(fp, it), lo, hi))
  {
    EndsEnclose(fp, it, lo, hi);
    EndsDecide(fp, Least(fp, it), Most(fp, it), lo, hi);
  }

  // ---- running totals ----

  datatype Agg = Agg(recCount: nat, recSum: real, sureCount: nat, sureLo: real, sureHi: real,
                     maybeCount: nat, maybeNeg: real, maybePos: real, maybeMin: Ext, maybeMax: Ext, absTotal: real)

  /** memset to 0, with maybe_min = +inf and maybe_max = -inf. */
  const EMPTY: Agg := Agg(0, 0.0, 0, 0.0, 0.0, 0, 0.0, 0.0, PosInf, NegInf, 0.0)

  /** The part about the decoded value. */
  function AddDecoded(fp: Arith, t: Agg, it: Item, lo: Ext, hi: Ext): Agg {
    var seen := t.(absTotal := fp.rnd(t.absTotal + Size(fp, it)));
    if it.inBlock || InRange(Fin(it.r), lo, hi)
    then seen.(recCount := seen.recCount + 1, recSum := fp.rnd(seen.recSum + it.r)) else seen
  }

  function AddSure(fp: Arith, t: Agg, low: real, high: real): Agg {
    t.(sureCount := t.sureCount + 1, sureLo := fp.rnd(t.sureLo + low), sureHi := fp.rnd(t.sureHi + high))
  }

  function AddMaybe(fp: Arith, t: Agg, low: real, high: real): Agg {
    t.(maybeCount := t.maybeCount + 1,
       maybeNeg := fp.rnd(t.maybeNeg + if low < 0.0 then low else 0.0),
       maybePos := fp.rnd(t.maybePos + if high > 0.0 then high else 0.0),
       maybeMin := if Fin(low).Less(t.maybeMin) then Fin(low) else t.maybeMin,
       maybeMax := if t.maybeMax.Less(Fin(high)) then Fin(high) else t.maybeMax)
  }

  /** The part about the original value. */
  function AddOriginal(fp: Arith, t: Agg, it: Item, lo: Ext, hi: Ext): Agg {
    if IsSure(fp, it, lo, hi) then AddSure(fp, t, LowEnd(fp, it, lo), HighEnd(fp, it, hi))
    else if IsMaybe(fp, it, lo, hi) then AddMaybe(fp, t, LowEnd(fp, it, lo), HighEnd(fp, it, hi))
    else t
  }

  /** The totals after one more value. */
  function AddItem(fp: Arith, t: Agg, it: Item, lo: Ext, hi: Ext): Agg {
    AddOriginal(fp, AddDecoded(fp, t, it, lo, hi), it, lo, hi)
  }

  function AddItems(fp: Arith, t: Agg, its: seq<Item>, lo: Ext, hi: Ext): Agg {
    if its == [] then t
    else AddItem(fp, AddItems(fp, t, its[..|its| - 1], lo, hi), its[|its| - 1], lo, hi)
  }

  /** The totals of one read. */
  function Run(fp: Arith, its: seq<Item>, lo: Ext, hi: Ext): Agg {
    AddItems(fp, EMPTY, its, lo, hi)
  }

  /** SzAggregate and aggregate_block, which updates it value by value. */
  class SzAggregate {
    var recCount: nat
    var recSum: real
    var sureCount: nat
    var sureLo: real
    var sureHi: real
    var maybeCount: nat
    var maybeNeg: real
    var maybePos: real
    var maybeMin: Ext
    var maybeMax: Ext
    var absTotal: real

    function State(): Agg
      reads this
    {
      Agg(recCount, recSum, sureCount, sureLo, sureHi, maybeCount, maybeNeg, maybePos, maybeMin, maybeMax, absTotal)
    }

    constructor ()
      ensures State() == EMPTY
    {
      recCount, recSum := 0, 0.0;
      sureCount, sureLo, sureHi := 0, 0.0, 0.0;
      maybeCount, maybeNeg, maybePos := 0, 0.0, 0.0;
      maybeMin, maybeMax := PosInf, NegInf;
      absTotal := 0.0;
    }

    method CountSure(fp: Arith, low: real, high: real)
      modifies this
      ensures State() == AddSure(fp, old(State()), low, high)
    {
      sureCount := sureCount + 1;
      sureLo := fp.rnd(sureLo + low);
      sureHi := fp.rnd(sureHi + high);
    }

    method CountMaybe(fp: Arith, low: real, high: real)
      modifies this
      ensures State() == AddMaybe(fp, old(State()), low, high)
    {
      maybeCount := maybeCount + 1;
      maybeNeg := fp.rnd(maybeNeg + if low < 0.0 then low else 0.0);
      maybePos := fp.rnd(maybePos + if high > 0.0 then high else 0.0);
      if Fin(low).Less(maybeMin) {
        maybeMin := Fin(low);
      }
      if maybeMax.Less(Fin(high)) {
        maybeMax := Fin(high);
      }
    }

    method CountDecoded(fp: Arith, r: real, eps: real, inBlock: bool, lo: Ext, hi: Ext, ghost it: Item)
      requires it.r == r && it.eps == eps && it.inBlock == inBlock
      modifies this
      ensures State() == AddDecoded(fp, old(State()), it, lo, hi)
    {
      absTotal := fp.rnd(absTotal + fp.rnd(Abs(r) + eps));
      if inBlock || InRange(Fin(r), lo, hi) {
        recCount := recCount + 1;
        recSum := fp.rnd(recSum + r);
      }
    }

    /** One value of the loop in aggregate_block. */
    method AddValue(fp: Arith, r: real, eps: real, inBlock: bool, lo: Ext, hi: Ext, ghost it: Item)
      requires it.r == r && it.eps == eps && it.inBlock == inBlock
      modifies this
      ensures State() == AddItem(fp, old(State()), it, lo, hi)
    {
      var a := fp.rnd(r - eps);
      var b := fp.rnd(r + eps);
      CountDecoded(fp, r, eps, inBlock, lo, hi, it);
      if inBlock || (lo.Less(Fin(a)) && Fin(b).AtMost(hi)) {
        CountSure(fp, Larger(a, lo), Smaller(b, hi));
      } else if !(Fin(b).AtMost(lo) || hi.Less(Fin(a))) {
        CountMaybe(fp, Larger(a, lo), Smaller(b, hi));
      }
    }

    /** aggregate_block */
    method AddBlock(fp: Arith, v: seq<real>, eps: real, inBlock: bool, lo: Ext, hi: Ext, ghost its: seq<Item>)
      requires |its| == |v|
      requires forall i :: 0 <= i < |v| ==> its[i].r == v[i] && its[i].eps == eps && its[i].inBlock == inBlock
      modifies this
      ensures State() == AddItems(fp, old(State()), its, lo, hi)
    {
      for i := 0 to |v|
        invariant State() == AddItems(fp, old(State()), its[..i], lo, hi)
      {
        AddValue(fp, v[i], eps, inBlock, lo, hi, its[i]);
        assert its[..i + 1][..i] == its[..i];
      }
      assert its[..|v|] == its;
    }
  }

  /** Blocks one after another are their values one after another. */
  lemma {:induction false} AddItemsAppend(fp: Arith, t: Agg, a: seq<Item>, b: seq<Item>, lo: Ext, hi: Ext)
    ensures AddItems(fp, t, a + b, lo, hi) == AddItems(fp, AddItems(fp, t, a, lo, hi), b, lo, hi)
    decreases |b|
  {
    if b == [] {
      assert a + b == a;
    } else {
      var front := b[..|b| - 1];
      assert (a + b)[..|a + b| - 1] == a + front;
      AddItemsAppend(fp, t, a, front, lo, hi);
    }
  }

  // ---- the totals as sums of terms with a bound on each ----

  /** The lower end of what a value adds; y is what its original adds if it matches. */
  function LowTerm(fp: Arith, it: Item, lo: Ext, hi: Ext): Term {
    if IsSure(fp, it, lo, hi) then Term(Sure, LowEnd(fp, it, lo), Size(fp, it), it.orig)
    else if IsMaybe(fp, it, lo, hi) then
      Term(Maybe, if LowEnd(fp, it, lo) < 0.0 then LowEnd(fp, it, lo) else 0.0, Size(fp, it),
           if Matches(it, lo, hi) then it.orig else 0.0)
    else Term(Skip, 0.0, Size(fp, it), 0.0)
  }

  /** The upper end, mirrored. */
  function HighTerm(fp: Arith, it: Item, lo: Ext, hi: Ext): Term {
    if IsSure(fp, it, lo, hi) then Term(Sure, -HighEnd(fp, it, hi), Size(fp, it), -it.orig)
    else if IsMaybe(fp, it, lo, hi) then
      Term(Maybe, if HighEnd(fp, it, hi) > 0.0 then -HighEnd(fp, it, hi) else 0.0, Size(fp, it),
           if Matches(it, lo, hi) then -it.orig else 0.0)
    else Term(Skip, 0.0, Size(fp, it), 0.0)
  }

  function Terms(fp: Arith, its: seq<Item>, lo: Ext, hi: Ext, low: bool): (ms: seq<Term>)
    ensures |ms| == |its|
    ensures forall i :: 0 <= i < |ms| ==> ms[i] == if low then LowTerm(fp, its[i], lo, hi) else HighTerm(fp, its[i], lo, hi)
  {
    if its == [] then []
    else
      var it := its[|its| - 1];
      Terms(fp, its[..|its| - 1], lo, hi, low) + [if low then LowTerm(fp, it, lo, hi) else HighTerm(fp, it, lo, hi)]
  }

  lemma {:induction false} TermIsValid(fp: Arith, it: Item, lo: Ext, hi: Ext)
    requires Binary64(fp) && ValidItem(fp, it, lo, hi) && ValidBounds(fp, lo, hi)
    ensures ValidTerm(fp, LowTerm(fp, it, lo, hi)) && ValidTerm(fp, HighTerm(fp, it, lo, hi))
  {
    EndsEnclose(fp, it, lo, hi);
    KindsAreRight(fp, it, lo, hi);
    ZeroIsRep(fp);
    if IsSure(fp, it, lo, hi) || IsMaybe(fp, it, lo, hi) {
      NegatedIsRep(fp, HighEnd(fp, it, hi));
    }
  }

  /** The totals t are the rounded sums l of the lower terms and h of the mirrored upper terms. */
  ghost predicate Agrees(t: Agg, l: Sums, h: Sums) {
    && t.sureLo == l.sure && t.maybeNeg == l.maybe && t.absTotal == l.bound == h.bound
    && t.sureHi == -h.sure && t.maybePos == -h.maybe
  }

  /** aggregate_block's totals are the rounded sums of those terms; the upper sums are
    * the mirrored ones, since rounding is symmetric. */
  lemma {:induction false} RunIsAccumulate(fp: Arith, its: seq<Item>, lo: Ext, hi: Ext)
    requires Binary64(fp)
    ensures Agrees(Run(fp, its, lo, hi), Accumulate(fp, Terms(fp, its, lo, hi, true)), Accumulate(fp, Terms(fp, its, lo, hi, false)))
  {
    if its != [] {
      var n := |its| - 1;
      RunIsAccumulate(fp, its[..n], lo, hi);
      TermsStep(fp, its, lo, hi, true);
      TermsStep(fp, its, lo, hi, false);
      AgreesStep(fp, Run(fp, its[..n], lo, hi), Accumulate(fp, Terms(fp, its[..n], lo, hi, true)),
                 Accumulate(fp, Terms(fp, its[..n], lo, hi, false)), its[n], lo, hi);
    }
  }

  lemma {:induction false} TermsStep(fp: Arith, its: seq<Item>, lo: Ext, hi: Ext, low: bool)
    requires its != []
    ensures var ms := Terms(fp, its, lo, hi, low);
            && ms[..|ms| - 1] == Terms(fp, its[..|its| - 1], lo, hi, low)
            && ms[|ms| - 1] == if low then LowTerm(fp, its[|its| - 1], lo, hi) else HighTerm(fp, its[|its| - 1], lo, hi)
  {
  }

  lemma {:induction false} AgreesStep(fp: Arith, t: Agg, l: Sums, h: Sums, it: Item, lo: Ext, hi: Ext)
    requires Binary64(fp) && Agrees(t, l, h)
    ensures Agrees(AddItem(fp, t, it, lo, hi), AddTerm(fp, l, LowTerm(fp, it, lo, hi)), AddTerm(fp, h, HighTerm(fp, it, lo, hi)))
  {
    var d := AddDecoded(fp, t, it, lo, hi);
    if IsSure(fp, it, lo, hi) {
      MirroredStep(fp, t.sureHi, h.sure, HighEnd(fp, it, hi));
    } else if IsMaybe(fp, it, lo, hi) {
      MirroredStep(fp, t.maybePos, h.maybe, if HighEnd(fp, it, hi) > 0.0 then HighEnd(fp, it, hi) else 0.0);
    }
  }

  lemma {:induction false} MirroredStep(fp: Arith, s: real, m: real, x: real)
    requires Binary64(fp) && s == -m
    ensures fp.rnd(s + x) == -fp.rnd(m + -x)
  {
    Symmetric(fp, m + -x);
    assert s + x == -(m + -x);
  }

  // ---- the sum of the decoded values ----

  function DecodedTerm(it: Item, lo: Ext, hi: Ext): Term {
    if InRange(Fin(it.r), lo, hi) then Term(Sure, it.r, Abs(it.r), it.r) else Term(Skip, 0.0, 0.0, 0.0)
  }

  function DecodedTerms(its: seq<Item>, lo: Ext, hi: Ext): (ms: seq<Term>)
    ensures |ms| == |its| && forall i :: 0 <= i < |ms| ==> ms[i] == DecodedTerm(its[i], lo, hi)
  {
    if its == [] then [] else DecodedTerms(its[..|its| - 1], lo, hi) + [DecodedTerm(its[|its| - 1], lo, hi)]
  }

  lemma {:induction false} DecodedTermIsValid(fp: Arith, it: Item, lo: Ext, hi: Ext)
    requires Binary64(fp) && ValidItem(fp, it, lo, hi)
    ensures ValidTerm(fp, DecodedTerm(it, lo, hi))
  {
    ZeroIsRep(fp);
    NegatedIsRep(fp, it.r);
  }

  /** A read's decoded sum is the rounded sum of its matching decoded values. */
  lemma {:induction false} RunSumsDecoded(fp: Arith, its: seq<Item>, lo: Ext, hi: Ext)
    requires Binary64(fp) && ValidItems(fp, its, lo, hi)
    ensures Run(fp, its, lo, hi).recSum == Accumulate(fp, DecodedTerms(its, lo, hi)).sure
  {
    if its != [] {
      var n := |its| - 1;
      var ms := DecodedTerms(its, lo, hi);
      RunSumsDecoded(fp, its[..n], lo, hi);
      assert ms[..n] == DecodedTerms(its[..n], lo, hi);
      assert ValidItem(fp, its[n], lo, hi);
      DecodedStep(fp, Run(fp, its[..n], lo, hi), Accumulate(fp, ms[..n]), its[n], lo, hi);
    }
  }

  lemma {:induction false} DecodedStep(fp: Arith, t: Agg, s: Sums, it: Item, lo: Ext, hi: Ext)
    requires ValidItem(fp, it, lo, hi) && t.recSum == s.sure
    ensures AddItem(fp, t, it, lo, hi).recSum == AddTerm(fp, s, DecodedTerm(it, lo, hi)).sure
  {
  }

  /** So it is off by at most n * 2^-53 * (1 + 2^-28) of the sum of their sizes. */
  lemma {:induction false} DecodedDrift(fp: Arith, its: seq<Item>, lo: Ext, hi: Ext)
    requires Binary64(fp) && ValidItems(fp, its, lo, hi) && 1 <= |its| <= MAX_TERMS
    ensures var (a, e) := (Run(fp, its, lo, hi), Totals(DecodedTerms(its, lo, hi)));
            Rep(fp, a.recSum) && Drift(a.recSum - e.sure, |its|, e.sureBound) && Abs(e.sure) <= e.sureBound
  {
    var ms := DecodedTerms(its, lo, hi);
    forall i | 0 <= i < |ms| ensures ValidTerm(fp, ms[i]) {
      assert ValidItem(fp, its[i], lo, hi);
      DecodedTermIsValid(fp, its[i], lo, hi);
    }
    RunSumsDecoded(fp, its, lo, hi);
    AccumulateShape(fp, ms);
    SureError(fp, ms);
    DriftMore(Accumulate(fp, ms).sure - Totals(ms).sure, |ms| - 1, Totals(ms).sureBound);
  }
}
