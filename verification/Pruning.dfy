/** What the zone map decides: a block is IN or OUT whenever its range, widened by the error
  * bound, one quantisation step and a rounding margin, lies inside or outside the query's. */
module Pruning {
  import opened Rounding
  import opened FloatBounds
  import opened DoubleBounds
  import opened ZoneMap

  // ---- the two tests ----

  /** IN and OUT are exact for the doubles between the rounded ends. */
  lemma {:induction false} ClassifiedIsExact(fp: Arith, bmin: real, bmax: real, e: real, lo: Ext, hi: Ext)
    requires Binary64(fp) && ValidBounds(fp, lo, hi) && bmin - e <= bmax + e
    ensures Classified(fp, bmin, bmax, e, lo, hi) == In <==> AllMatch(fp, fp.rnd(bmin - e), fp.rnd(bmax + e), lo, hi)
    ensures lo.Less(hi) ==> (Classified(fp, bmin, bmax, e, lo, hi) == Out <==> NoneMatch(fp, fp.rnd(bmin - e), fp.rnd(bmax + e), lo, hi))
  {
    Monotone(fp, bmin - e, bmax + e);
    RoundedIsRep(fp, bmin - e);
    RoundedIsRep(fp, bmax + e);
    EndsDecide(fp, fp.rnd(bmin - e), fp.rnd(bmax + e), lo, hi);
  }

  lemma {:induction false} ClassifiedIsComplete(fp: Arith, bmin: real, bmax: real, e: real, lo: Ext, hi: Ext, low: real, high: real)
    requires Binary64(fp) && ValidBounds(fp, lo, hi) && low <= bmin - e <= bmax + e <= high
    ensures Clears(fp, lo, low) && Fin(high).AtMost(hi) ==> Classified(fp, bmin, bmax, e, lo, hi) == In
    ensures Fin(high).AtMost(lo) || Clears(fp, hi, low) ==> Classified(fp, bmin, bmax, e, lo, hi) == Out
  {
    Monotone(fp, bmin - e, bmax + e);
    RoundedClears(fp, lo, hi, bmin - e);
    RoundedClears(fp, lo, hi, bmax + e);
    RoundedClears(fp, hi, lo, bmin - e);
    RoundedClears(fp, hi, lo, bmax + e);
  }

  // ---- how near the bounds are that are read back ----

  /** One quantisation step and 2^-48 of the sizes of the unit's bounds; nothing for a unit of
    * equal values. */
  function Widening(cmin: real, cmax: real): real {
    if cmin == cmax then 0.0 else (cmax - cmin) / 255.0 + (Abs(cmin) + Abs(cmax)) / 281474976710656.0
  }

  lemma {:induction false} SlackIsSmall(fp: Arith, cmin: real, cmax: real)
    requires Binary64(fp) && IsFloat(fp, cmin) && IsFloat(fp, cmax)
    ensures BoundSlack(fp, cmin, cmax) * 9007199254740992.0 <= 17.0 * (Abs(cmin) + Abs(cmax))
    ensures Rep(fp, BoundSlack(fp, cmin, cmax)) && BoundSlack(fp, cmin, cmax) >= 0.0
  {
    var a := Abs(cmin) + Abs(cmax);
    var x := fp.rnd(a) / 562949953421312.0;
    SizesRounded(fp, cmin, cmax);
    RelativeError(fp, x);
    RoundedIsRep(fp, x);
    SlackFacts(fp, cmin, cmax);
  }

  lemma {:induction false} SizesRounded(fp: Arith, cmin: real, cmax: real)
    requires Binary64(fp) && IsFloat(fp, cmin) && IsFloat(fp, cmax)
    ensures var a := Abs(cmin) + Abs(cmax); Near(fp.rnd(a), a) && (a == 0.0 ==> fp.rnd(a) == 0.0) && (a != 0.0 ==> Normal(fp, fp.rnd(a) / 562949953421312.0))
  {
    var a := Abs(cmin) + Abs(cmax);
    var j: int :| Steps(j, cmin);
    var k: int :| Steps(k, cmax);
    NegatedIsRep(fp, cmin);
    NegatedIsRep(fp, cmax);
    SumError(fp, Abs(cmin), Abs(cmax));
    var n := (if j < 0 then -j else j) + (if k < 0 then -k else k);
    assert n as real == a * 713623846352979940529142984724747568191373312.0;
  }

  lemma {:induction false} OneLess(p: real, code: nat, s: real)
    requires s >= 0.0 && p < (code + 1) as real
    ensures Product(p, s) <= Product(code as real, s) + s
  {
    MulLe(p, (code + 1) as real, s);
    assert Product((code + 1) as real, s) == Product(code as real, s) + s;
  }

  lemma {:induction false} OneMore(p: real, code: nat, s: real)
    requires s >= 0.0 && (code == 0 || ((code - 1) as real) < p) && p >= 0.0
    ensures Product(code as real, s) <= Product(p, s) + s
  {
    if code == 0 {
      MulLe(0.0, p, s);
      assert Product(0.0, s) == 0.0;
    } else {
      MulLe((code - 1) as real, p, s);
      assert Product((code - 1) as real, s) == Product(code as real, s) - s;
    }
  }

  /** The minimum that is read back is at most the widening below the block's. */
  lemma {:induction false} ReadMinIsNear(fp: Arith, b: real, cmin: real, cmax: real)
    requires Binary64(fp) && IsFloat(fp, b) && IsFloat(fp, cmin) && IsFloat(fp, cmax) && cmin <= b <= cmax && cmin != cmax
    ensures b - Widening(cmin, cmax) <= ReadMin(fp, cmin, cmax, MinCode(fp, b, cmin, Scale(fp, Span(fp, cmin, cmax))))
  {
    var s := Span(fp, cmin, cmax);
    SpanFacts(fp, cmin, cmax);
    var p := Offset(fp, b, cmin, Scale(fp, s));
    var code := MinCode(fp, b, cmin, Scale(fp, s));
    OffsetFacts(fp, b, cmin, s);
    StepFacts(fp, code, s);
    SlackIsSmall(fp, cmin, cmax);
    if code < 255 {
      OneLess(p, code, s);
    }
    DequantiseError(fp, cmin, code, s);
    RoundedIsRep(fp, cmin + Step(fp, code, s));
    NegatedIsRep(fp, BoundSlack(fp, cmin, cmax));
    SumError(fp, Dequantise(fp, cmin, code, s), -BoundSlack(fp, cmin, cmax));
    MinNear(b, cmin, cmax, s, Product(p, s), Product(code as real, s), code, Step(fp, code, s), Dequantise(fp, cmin, code, s),
            BoundSlack(fp, cmin, cmax), ReadMin(fp, cmin, cmax, code));
  }

  lemma {:induction false} MinNear(b: real, cmin: real, cmax: real, s: real, ps: real, cs: real, code: nat, t: real, r: real, slack: real, q: real)
    requires cmin <= b <= cmax && cmin != cmax && Near(s, cmax - cmin) && 0.0 <= t <= s && Near(r, cmin + t) && Near(q, r - slack)
    requires (b - cmin) * 255.0 * 9007199254740988.0 <= ps * 9007199254740992.0
    requires if code < 255 then ps <= cs + s else t == s
    requires cs * 9007199254740990.0 <= t * 255.0 * 9007199254740992.0
    requires 0.0 <= slack && slack * 9007199254740992.0 <= 17.0 * (Abs(cmin) + Abs(cmax))
    ensures b - Widening(cmin, cmax) <= q
  {
    var a := Abs(cmin) + Abs(cmax);
    var w := cmax - cmin;
    assert ((b - cmin) - t) * 255.0 * 9007199254740992.0 <= w * 9007199254740992.0 + 2048.0 * a;
    assert Abs(cmin + t) <= 3.0 * a && Abs(r - slack) <= 4.0 * a;
    assert b - q <= w / 255.0 + a / 281474976710656.0;
  }

  /** And the maximum at most the widening above it. */
  lemma {:induction false} ReadMaxIsNear(fp: Arith, b: real, cmin: real, cmax: real)
    requires Binary64(fp) && IsFloat(fp, b) && IsFloat(fp, cmin) && IsFloat(fp, cmax) && cmin <= b <= cmax && cmin != cmax
    ensures ReadMax(fp, cmin, cmax, MaxCode(fp, b, cmin, Scale(fp, Span(fp, cmin, cmax)))) <= b + Widening(cmin, cmax)
  {
    var s := Span(fp, cmin, cmax);
    SpanFacts(fp, cmin, cmax);
    var p := Offset(fp, b, cmin, Scale(fp, s));
    var code := MaxCode(fp, b, cmin, Scale(fp, s));
    OffsetFacts(fp, b, cmin, s);
    StepFacts(fp, code, s);
    SlackIsSmall(fp, cmin, cmax);
    OneMore(p, code, s);
    DequantiseError(fp, cmin, code, s);
    RoundedIsRep(fp, cmin + Step(fp, code, s));
    SumError(fp, Dequantise(fp, cmin, code, s), BoundSlack(fp, cmin, cmax));
    MaxNear(b, cmin, cmax, s, Product(p, s), Product(code as real, s), Step(fp, code, s), Dequantise(fp, cmin, code, s),
            BoundSlack(fp, cmin, cmax), ReadMax(fp, cmin, cmax, code));
  }

  lemma {:induction false} MaxNear(b: real, cmin: real, cmax: real, s: real, ps: real, cs: real, t: real, r: real, slack: real, q: real)
    requires cmin <= b <= cmax && cmin != cmax && Near(s, cmax - cmin) && 0.0 <= t <= s && Near(r, cmin + t) && Near(q, r + slack)
    requires ps * 9007199254740992.0 <= (b - cmin) * 255.0 * 9007199254740996.0 && cs <= ps + s
    requires t * 255.0 * 9007199254740992.0 <= cs * 9007199254740995.0
    requires 0.0 <= slack && slack * 9007199254740992.0 <= 17.0 * (Abs(cmin) + Abs(cmax))
    ensures q <= b + Widening(cmin, cmax)
  {
    var a := Abs(cmin) + Abs(cmax);
    var w := cmax - cmin;
    assert (t - (b - cmin)) * 255.0 * 9007199254740992.0 <= w * 9007199254740992.0 + 2560.0 * a;
    assert Abs(cmin + t) <= 3.0 * a && Abs(r + slack) <= 4.0 * a;
    assert q - b <= w / 255.0 + a / 281474976710656.0;
  }

  // ---- written blocks ----

  lemma {:induction false} DequantisedIsNear(fp: Arith, rec: Record, mins: seq<real>, maxs: seq<real>, bid: nat)
    requires Binary64(fp) && Written(fp, rec, mins, maxs) && bid < |mins|
    ensures mins[bid] - Widening(rec.cmin, rec.cmax) <= ReadMin(fp, rec.cmin, rec.cmax, rec.offs[2 * bid])
    ensures ReadMax(fp, rec.cmin, rec.cmax, rec.offs[2 * bid + 1]) <= maxs[bid] + Widening(rec.cmin, rec.cmax)
  {
    assert rec.cmin <= mins[bid] <= maxs[bid] <= rec.cmax;
    SpanFacts(fp, rec.cmin, rec.cmax);
    if rec.cmin != rec.cmax {
      ReadMinIsNear(fp, mins[bid], rec.cmin, rec.cmax);
      ReadMaxIsNear(fp, maxs[bid], rec.cmin, rec.cmax);
    }
  }

  /** The range of a written block, widened by its error bound and the reader's widening:
    * inside the query's range the block is IN, outside it is OUT. */
  lemma {:induction false} ClassificationIsComplete(fp: Arith, rec: Record, mins: seq<real>, maxs: seq<real>, bid: nat, lo: Ext, hi: Ext)
    requires Binary64(fp) && Written(fp, rec, mins, maxs) && bid < |mins| && ValidBounds(fp, lo, hi) && BlockError(fp, rec, bid) >= 0.0
    ensures var w := Widening(rec.cmin, rec.cmax) + BlockError(fp, rec, bid);
            var (low, high) := (mins[bid] - w, maxs[bid] + w);
            && (Clears(fp, lo, low) && Fin(high).AtMost(hi) ==> StateOf(fp, rec, bid, lo, hi) == In)
            && (Fin(high).AtMost(lo) || Clears(fp, hi, low) ==> StateOf(fp, rec, bid, lo, hi) == Out)
  {
    assert mins[bid] <= maxs[bid];
    var e, w := BlockError(fp, rec, bid), Widening(rec.cmin, rec.cmax);
    DequantisedEncloses(fp, rec, mins, maxs, bid);
    DequantisedIsNear(fp, rec, mins, maxs, bid);
    ClassifiedIsComplete(fp, ReadMin(fp, rec.cmin, rec.cmax, rec.offs[2 * bid]), ReadMax(fp, rec.cmin, rec.cmax, rec.offs[2 * bid + 1]),
                         e, lo, hi, mins[bid] - (w + e), maxs[bid] + (w + e));
  }

  /** So it is for the state that classify_unit writes. */
  lemma {:induction false} StatesAreComplete(fp: Arith, rec: Record, mins: seq<real>, maxs: seq<real>, bid: nat, lo: Ext, hi: Ext)
    requires Binary64(fp) && Written(fp, rec, mins, maxs) && bid < |mins| && ValidBounds(fp, lo, hi) && BlockError(fp, rec, bid) >= 0.0
    ensures var w := Widening(rec.cmin, rec.cmax) + BlockError(fp, rec, bid);
            var (low, high) := (mins[bid] - w, maxs[bid] + w);
            && (Clears(fp, lo, low) && Fin(high).AtMost(hi) ==> StatesOf(fp, rec, |mins|, lo, hi)[bid] == In)
            && (Fin(high).AtMost(lo) || Clears(fp, hi, low) ==> StatesOf(fp, rec, |mins|, lo, hi)[bid] == Out)
  {
    ClassificationIsComplete(fp, rec, mins, maxs, bid, lo, hi);
    UnitStatesAt(fp, rec, |mins|, lo, hi, bid, StateOf(fp, rec, bid, lo, hi));
  }

  // ---- error codes ----

  /** What the planner reads for a code is that many fifteenths of the bound, up to rounding. */
  lemma {:induction false} CodeErrorIsNear(fp: Arith, e: real, q: nat)
    requires Binary64(fp) && IsFloat(fp, e) && e >= 0.0 && q <= 15
    ensures Abs(15.0 * CodeError(fp, e, q) - Product(e, q as real)) * 9007199254740992.0 <= 3.0 * Product(e, q as real)
  {
    var x := Product(e, q as real);
    if e == 0.0 || q == 0 {
      assert x == 0.0;
      ZeroIsRep(fp);
    } else {
      FloatSize(fp, e);
      MulLe(1.0, q as real, e);
      assert Product(1.0, e) == e && Product(q as real, e) == x;
      RelativeError(fp, x);
      var r := fp.rnd(x);
      RelativeError(fp, r / 15.0);
    }
  }
}
