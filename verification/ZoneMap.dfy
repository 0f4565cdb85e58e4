/** The 8-bit zone map: the writer's outward quantisation of block ranges, the reader's
  * dequantisation, and the three-valued classification of blocks, all in binary64. */
module ZoneMap {
  import opened Rounding
  import opened FloatBounds

  /** A finite float32 value: a multiple of 2^-149 below 2^128, exact as a double. */
  ghost predicate IsFloat(fp: Arith, x: real) {
    Rep(fp, x) && Abs(x) < 340282366920938463463374607431768211456.0 && exists k: int :: Steps(k, x)
  }

  predicate Steps(k: int, x: real) {
    k as real == x * 713623846352979940529142984724747568191373312.0
  }

  function Product(a: real, b: real): real {
    a * b
  }

  lemma {:induction false} MulLe(a: real, b: real, c: real)
    requires 0.0 <= c && a <= b
    ensures Product(a, c) <= Product(b, c)
  {
  }

  lemma {:induction false} Reassociate(a: real, b: real, c: real)
    ensures Product(Product(a, b), c) == Product(a, Product(b, c)) && Product(a, b) == Product(b, a)
  {
    assert Product(Product(a, b), c) == a * b * c == a * (b * c);
  }

  lemma {:induction false} ScaledProduct(a: real, k: real, b: real)
    ensures Product(a * k, b) == Product(a, b) * k
  {
  }

  // ---- one unit: the writer ----

  /** 255.0 / span */
  function Scale(fp: Arith, span: real): real {
    if span == 0.0 then 0.0 else fp.rnd(255.0 / span)
  }

  /** (b - cmin) * scale, before it is rounded to an integer. */
  function Offset(fp: Arith, b: real, cmin: real, scale: real): real {
    fp.rnd(Product(fp.rnd(b - cmin), scale))
  }

  /** to_u8 */
  function Clamp(i: int): (q: nat)
    ensures q <= 255
  {
    if i < 0 then 0 else if i > 255 then 255 else i
  }

  function Ceil(x: real): int {
    -((-x).Floor)
  }

  function MinCode(fp: Arith, b: real, cmin: real, scale: real): nat {
    Clamp(Offset(fp, b, cmin, scale).Floor)
  }

  function MaxCode(fp: Arith, b: real, cmin: real, scale: real): nat {
    Clamp(Ceil(Offset(fp, b, cmin, scale)))
  }

  // ---- one unit: the reader ----

  function Span(fp: Arith, cmin: real, cmax: real): real {
    fp.rnd(cmax - cmin)
  }

  /** 8.0 * DBL_EPSILON * (fabs(cmin) + fabs(cmax)); the constant is 2^-49. */
  function BoundSlack(fp: Arith, cmin: real, cmax: real): real {
    fp.rnd(fp.rnd(Abs(cmin) + Abs(cmax)) / 562949953421312.0)
  }

  /** cmin + (code / 255.0) * span */
  function Dequantise(fp: Arith, cmin: real, code: nat, span: real): real {
    fp.rnd(cmin + Step(fp, code, span))
  }

  function Step(fp: Arith, code: nat, span: real): real {
    fp.rnd(Product(fp.rnd(code as real / 255.0), span))
  }

  function ReadMin(fp: Arith, cmin: real, cmax: real, code: nat): real {
    var span := Span(fp, cmin, cmax);
    if span == 0.0 then cmin else fp.rnd(Dequantise(fp, cmin, code, span) - BoundSlack(fp, cmin, cmax))
  }

  function ReadMax(fp: Arith, cmin: real, cmax: real, code: nat): real {
    var span := Span(fp, cmin, cmax);
    if span == 0.0 then cmax else fp.rnd(Dequantise(fp, cmin, code, span) + BoundSlack(fp, cmin, cmax))
  }

  // ---- rounding errors of one code ----

  lemma {:induction false} FloatDifference(fp: Arith, x: real, y: real)
    requires Binary64(fp) && IsFloat(fp, x) && IsFloat(fp, y) && x <= y
    ensures x < y ==> (y - x) * 713623846352979940529142984724747568191373312.0 >= 1.0
    ensures y - x < 680564733841876926926749214863536422912.0
    ensures Near(fp.rnd(y - x), y - x)
  {
    var j: int :| Steps(j, x);
    var k: int :| Steps(k, y);
    assert (k - j) as real == (y - x) * 713623846352979940529142984724747568191373312.0;
    NegatedIsRep(fp, x);
    SumError(fp, y, -x);
  }

  /** span is positive exactly when the bounds differ, and of normal size. */
  lemma {:induction false} SpanFacts(fp: Arith, cmin: real, cmax: real)
    requires Binary64(fp) && IsFloat(fp, cmin) && IsFloat(fp, cmax) && cmin <= cmax
    ensures var s := Span(fp, cmin, cmax);
            && (s == 0.0 <==> cmin == cmax) && Near(s, cmax - cmin) && Rep(fp, s) && s >= 0.0
            && (s > 0.0 ==> s * 1427247692705959881058285969449495136382746624.0 >= 1.0)
            && s < 1361129467683753853853498429727072845824.0
  {
    FloatDifference(fp, cmin, cmax);
    RoundedIsRep(fp, cmax - cmin);
  }

  /** scale times span is 255 up to one rounding. */
  lemma {:induction false} ScaleFacts(fp: Arith, s: real)
    requires Binary64(fp) && 0.0 < s < 1361129467683753853853498429727072845824.0
    ensures var k := Scale(fp, s);
            && 255.0 * 9007199254740991.0 <= Product(k, s) * 9007199254740992.0 <= 255.0 * 9007199254740993.0
            && k * 1361129467683753853853498429727072845824.0 >= 127.0
  {
    var x := 255.0 / s;
    assert Product(x, s) == 255.0;
    LargeQuotient(s, x);
    RelativeError(fp, x);
    NearProduct(Scale(fp, s), x, s);
  }

  lemma {:induction false} LargeQuotient(s: real, x: real)
    requires 0.0 < s < 1361129467683753853853498429727072845824.0 && Product(x, s) == 255.0
    ensures x > 0.0 && x * 1361129467683753853853498429727072845824.0 >= 255.0
  {
    if x <= 0.0 {
      MulLe(x, 0.0, s);
    } else {
      MulLe(s, 1361129467683753853853498429727072845824.0, x);
      Reassociate(x, s, 1.0);
    }
  }

  lemma {:induction false} NearProduct(r: real, x: real, s: real)
    requires Near(r, x) && x >= 0.0 && s >= 0.0
    ensures Product(x, s) * 9007199254740991.0 <= Product(r, s) * 9007199254740992.0 <= Product(x, s) * 9007199254740993.0
  {
    MulLe(x * 9007199254740991.0, r * 9007199254740992.0, s);
    MulLe(r * 9007199254740992.0, x * 9007199254740993.0, s);
    ScaledProduct(x, 9007199254740991.0, s);
    ScaledProduct(r, 9007199254740992.0, s);
    ScaledProduct(x, 9007199254740993.0, s);
  }

  lemma {:induction false} SmallProduct(fp: Arith, d: real, k: real)
    requires Binary64(fp)
    requires d * 1427247692705959881058285969449495136382746624.0 >= 1.0
    requires k * 1361129467683753853853498429727072845824.0 >= 127.0
    ensures Normal(fp, Product(d, k))
  {
    MulLe(1.0, d * 1427247692705959881058285969449495136382746624.0, k);
    ScaledProduct(d, 1427247692705959881058285969449495136382746624.0, k);
    assert Product(1.0, k) == k;
    assert Product(d, k) > 0.0;
  }

  /** The unrounded code times the span is 255 times the distance, up to three roundings. */
  lemma {:induction false} OffsetFacts(fp: Arith, b: real, cmin: real, s: real)
    requires Binary64(fp) && IsFloat(fp, b) && IsFloat(fp, cmin) && cmin <= b
    requires 0.0 < s < 1361129467683753853853498429727072845824.0
    ensures var d, p := b - cmin, Offset(fp, b, cmin, Scale(fp, s));
            && p >= 0.0
            && d * 255.0 * 9007199254740988.0 <= Product(p, s) * 9007199254740992.0 <= d * 255.0 * 9007199254740996.0
  {
    var d, k := b - cmin, Scale(fp, s);
    var dd := fp.rnd(d);
    var x := Product(dd, k);
    FloatDifference(fp, cmin, b);
    ScaleFacts(fp, s);
    if d == 0.0 {
      assert x == 0.0 && dd == 0.0;
      ZeroIsRep(fp);
      assert Product(0.0, s) == 0.0;
    } else {
      SmallProduct(fp, dd, k);
      RelativeError(fp, x);
      MulLe(0.0, dd, k);
      assert Product(0.0, k) == 0.0;
      NearProduct(fp.rnd(x), x, s);
      Reassociate(dd, k, s);
      Reassociate(dd, 255.0, 1.0);
      CodeChain(d, dd, Product(k, s), Product(x, s), Product(fp.rnd(x), s));
    }
  }

  lemma {:induction false} CodeChain(d: real, dd: real, ks: real, xs: real, ps: real)
    requires d >= 0.0 && Near(dd, d) && xs == Product(dd, ks)
    requires 255.0 * 9007199254740991.0 <= ks * 9007199254740992.0 <= 255.0 * 9007199254740993.0
    requires xs * 9007199254740991.0 <= ps * 9007199254740992.0 <= xs * 9007199254740993.0
    ensures d * 255.0 * 9007199254740988.0 <= ps * 9007199254740992.0 <= d * 255.0 * 9007199254740996.0
  {
    Reassociate(dd, ks, 1.0);
    MulLe(255.0 * 9007199254740991.0, ks * 9007199254740992.0, dd);
    MulLe(ks * 9007199254740992.0, 255.0 * 9007199254740993.0, dd);
    ScaledProduct(ks, 9007199254740992.0, dd);
  }

  /** A code times the span over 255, up to two roundings. */
  lemma {:induction false} StepFacts(fp: Arith, code: nat, s: real)
    requires Binary64(fp) && code <= 255 && Rep(fp, s) && s * 1427247692705959881058285969449495136382746624.0 >= 1.0
    ensures var t, x := Step(fp, code, s), Product(code as real, s);
            && x * 9007199254740990.0 <= t * 255.0 * 9007199254740992.0 <= x * 9007199254740995.0
            && 0.0 <= t <= s && (code == 255 ==> t == s)
  {
    var c := code as real / 255.0;
    var q := fp.rnd(c);
    IntIsRep(fp, 1);
    ZeroIsRep(fp);
    if code == 0 {
      assert Product(0.0, s) == 0.0;
    } else {
      RelativeError(fp, c);
      BelowDouble(fp, c, 1.0);
      SmallStep(fp, q, s);
      RelativeError(fp, Product(q, s));
      NearProduct(q, c, s);
      ScaledProduct(c, 255.0, s);
      MulLe(q, 1.0, s);
      BelowDouble(fp, Product(q, s), s);
      if code == 255 {
        assert c == 1.0 && Product(1.0, s) == s;
      }
    }
  }

  lemma {:induction false} SmallStep(fp: Arith, q: real, s: real)
    requires Binary64(fp)
    requires q * 256.0 >= 1.0 && s * 1427247692705959881058285969449495136382746624.0 >= 1.0
    ensures Product(q, s) * 365375409332725729550921208179070754913983135744.0 >= 1.0
    ensures Normal(fp, Product(q, s)) && Product(q, s) > 0.0
  {
    MulLe(1.0, q * 256.0, s);
    ScaledProduct(q, 256.0, s);
    assert Product(1.0, s) == s;
  }

  /** The slack is 16 roundings of |cmin| + |cmax|. */
  lemma {:induction false} SlackFacts(fp: Arith, cmin: real, cmax: real)
    requires Binary64(fp) && IsFloat(fp, cmin) && IsFloat(fp, cmax)
    ensures BoundSlack(fp, cmin, cmax) * 9007199254740992.0 >= 15.0 * (Abs(cmin) + Abs(cmax))
  {
    var a := Abs(cmin) + Abs(cmax);
    var j: int :| Steps(j, cmin);
    var k: int :| Steps(k, cmax);
    NegatedIsRep(fp, cmin);
    NegatedIsRep(fp, cmax);
    SumError(fp, Abs(cmin), Abs(cmax));
    var n := (if j < 0 then -j else j) + (if k < 0 then -k else k);
    assert n as real == a * 713623846352979940529142984724747568191373312.0;
    var x := fp.rnd(a) / 562949953421312.0;
    if n == 0 {
      assert x == 0.0;
    } else {
      assert n as real >= 1.0;
      assert Normal(fp, x);
    }
    RelativeError(fp, x);
  }

  lemma {:induction false} DequantiseError(fp: Arith, cmin: real, code: nat, s: real)
    requires Binary64(fp) && Rep(fp, cmin)
    ensures Near(Dequantise(fp, cmin, code, s), cmin + Step(fp, code, s))
  {
    RoundedIsRep(fp, Product(fp.rnd(code as real / 255.0), s));
    SumError(fp, cmin, Step(fp, code, s));
  }

  lemma {:induction false} FloorCode(p: real, code: nat, s: real)
    requires p >= 0.0 && s >= 0.0 && code == Clamp(p.Floor)
    ensures code <= 255 && Product(code as real, s) <= Product(p, s)
  {
    MulLe(code as real, p, s);
  }

  lemma {:induction false} CeilCode(p: real, code: nat, s: real)
    requires p >= 0.0 && s >= 0.0 && code == Clamp(Ceil(p))
    ensures code <= 255 && (code < 255 ==> Product(p, s) <= Product(code as real, s))
  {
    if code < 255 {
      MulLe(p, code as real, s);
    }
  }

  /** The reader's lower bound is at most the block's minimum. */
  lemma {:induction false} ReadMinIsBelow(fp: Arith, b: real, cmin: real, cmax: real)
    requires Binary64(fp) && IsFloat(fp, b) && IsFloat(fp, cmin) && IsFloat(fp, cmax) && cmin <= b <= cmax
    ensures ReadMin(fp, cmin, cmax, MinCode(fp, b, cmin, Scale(fp, Span(fp, cmin, cmax)))) <= b
  {
    var s := Span(fp, cmin, cmax);
    SpanFacts(fp, cmin, cmax);
    if s != 0.0 {
      var p := Offset(fp, b, cmin, Scale(fp, s));
      var code := MinCode(fp, b, cmin, Scale(fp, s));
      OffsetFacts(fp, b, cmin, s);
      StepFacts(fp, code, s);
      SlackFacts(fp, cmin, cmax);
      FloorCode(p, code, s);
      DequantiseError(fp, cmin, code, s);
      MinArithmetic(b, cmin, cmax, s, Product(p, s), Product(code as real, s), Step(fp, code, s), Dequantise(fp, cmin, code, s),
                    BoundSlack(fp, cmin, cmax));
      BelowDouble(fp, Dequantise(fp, cmin, code, s) - BoundSlack(fp, cmin, cmax), b);
    }
  }

  lemma {:induction false} MinArithmetic(b: real, cmin: real, cmax: real, s: real, ps: real, cs: real, t: real, r: real, slack: real)
    requires cmin <= b <= cmax && Near(s, cmax - cmin) && 0.0 <= t <= s && Near(r, cmin + t)
    requires ps * 9007199254740992.0 <= (b - cmin) * 255.0 * 9007199254740996.0 && cs <= ps
    requires t * 255.0 * 9007199254740992.0 <= cs * 9007199254740995.0
    requires slack * 9007199254740992.0 >= 15.0 * (Abs(cmin) + Abs(cmax))
    ensures r - slack <= b
  {
    var a := Abs(cmin) + Abs(cmax);
    assert Abs(cmin + t) <= 3.0 * a;
    assert (t - (b - cmin)) * 9007199254740992.0 <= 9.0 * (b - cmin);
  }

  /** The reader's upper bound is at least the block's maximum. */
  lemma {:induction false} ReadMaxIsAbove(fp: Arith, b: real, cmin: real, cmax: real)
    requires Binary64(fp) && IsFloat(fp, b) && IsFloat(fp, cmin) && IsFloat(fp, cmax) && cmin <= b <= cmax
    ensures b <= ReadMax(fp, cmin, cmax, MaxCode(fp, b, cmin, Scale(fp, Span(fp, cmin, cmax))))
  {
    var s := Span(fp, cmin, cmax);
    SpanFacts(fp, cmin, cmax);
    if s != 0.0 {
      var p := Offset(fp, b, cmin, Scale(fp, s));
      var code := MaxCode(fp, b, cmin, Scale(fp, s));
      OffsetFacts(fp, b, cmin, s);
      StepFacts(fp, code, s);
      SlackFacts(fp, cmin, cmax);
      CeilCode(p, code, s);
      DequantiseError(fp, cmin, code, s);
      MaxArithmetic(b, cmin, cmax, s, Product(p, s), Product(code as real, s), code, Step(fp, code, s), Dequantise(fp, cmin, code, s),
                    BoundSlack(fp, cmin, cmax));
      AboveDouble(fp, b, Dequantise(fp, cmin, code, s) + BoundSlack(fp, cmin, cmax));
    }
  }

  lemma {:induction false} MaxArithmetic(b: real, cmin: real, cmax: real, s: real, ps: real, cs: real, code: nat, t: real, r: real, slack: real)
    requires cmin <= b <= cmax && Near(s, cmax - cmin) && 0.0 <= t <= s && Near(r, cmin + t)
    requires (b - cmin) * 255.0 * 9007199254740988.0 <= ps * 9007199254740992.0
    requires if code < 255 then ps <= cs else t == s
    requires cs * 9007199254740990.0 <= t * 255.0 * 9007199254740992.0
    requires slack * 9007199254740992.0 >= 15.0 * (Abs(cmin) + Abs(cmax))
    ensures b <= r + slack
  {
    var a := Abs(cmin) + Abs(cmax);
    assert Abs(cmin + t) <= 3.0 * a;
    assert ((b - cmin) - t) * 9007199254740992.0 <= 9.0 * (b - cmin);
  }

  // ---- records ----

  datatype Codes = NoCodes | Codes(q: seq<nat>)

  /** The zone map record of one unit; offs holds a minimum and a maximum code per block. */
  datatype Record = Record(cmin: real, cmax: real, eps: real, offs: seq<nat>, codes: Codes)
  {
    predicate Shaped(blocks: nat) {
      |offs| == 2 * blocks && (codes.Codes? ==> |codes.q| == blocks)
    }
  }

  datatype State = Out | In | Maybe

  /** eps * q / 15.0 */
  function CodeError(fp: Arith, eps: real, q: nat): real {
    fp.rnd(fp.rnd(Product(eps, q as real)) / 15.0)
  }

  function BlockError(fp: Arith, rec: Record, bid: nat): real
    requires rec.codes.Codes? ==> bid < |rec.codes.q|
  {
    match rec.codes
    case NoCodes => rec.eps
    case Codes(q) => CodeError(fp, rec.eps, q[bid])
  }

  /** The two tests of classify_unit on dequantised bounds and a block's error. */
  function Classified(fp: Arith, bmin: real, bmax: real, e: real, lo: Ext, hi: Ext): State {
    if lo.Less(Fin(fp.rnd(bmin - e))) && Fin(fp.rnd(bmax + e)).AtMost(hi) then In
    else if Fin(fp.rnd(bmax + e)).AtMost(lo) || hi.Less(Fin(fp.rnd(bmin - e))) then Out
    else Maybe
  }

  function StateOf(fp: Arith, rec: Record, bid: nat, lo: Ext, hi: Ext): State
    requires 2 * bid + 1 < |rec.offs| && (rec.codes.Codes? ==> bid < |rec.codes.q|)
  {
    Classified(fp, ReadMin(fp, rec.cmin, rec.cmax, rec.offs[2 * bid]), ReadMax(fp, rec.cmin, rec.cmax, rec.offs[2 * bid + 1]),
               BlockError(fp, rec, bid), lo, hi)
  }

  /** A bound pair widened by e that passes a test decides every double near the range. */
  lemma {:induction false} ClassifiedIsSound(fp: Arith, bmin: real, bmax: real, e: real, lo: Ext, hi: Ext, x: real)
    requires Binary64(fp) && Rep(fp, x) && bmin - e <= x <= bmax + e
    ensures Classified(fp, bmin, bmax, e, lo, hi) == In ==> InRange(Fin(x), lo, hi)
    ensures Classified(fp, bmin, bmax, e, lo, hi) == Out ==> !InRange(Fin(x), lo, hi)
  {
    BelowDouble(fp, bmin - e, x);
    AboveDouble(fp, x, bmax + e);
  }

  /** What the writer stores for blocks with these smallest and largest values. */
  ghost predicate Written(fp: Arith, rec: Record, mins: seq<real>, maxs: seq<real>) {
    && |mins| == |maxs| && rec.Shaped(|mins|) && IsFloat(fp, rec.cmin) && IsFloat(fp, rec.cmax)
    && (forall b :: 0 <= b < |mins| ==>
          && IsFloat(fp, mins[b]) && IsFloat(fp, maxs[b]) && rec.cmin <= mins[b] && maxs[b] <= rec.cmax
          && mins[b] <= maxs[b]
          && rec.offs[2 * b] == WrittenMin(fp, mins[b], rec.cmin, rec.cmax)
          && rec.offs[2 * b + 1] == WrittenMax(fp, maxs[b], rec.cmin, rec.cmax))
  }

  function WrittenMin(fp: Arith, b: real, cmin: real, cmax: real): nat {
    if cmax == cmin then 0 else MinCode(fp, b, cmin, Scale(fp, Span(fp, cmin, cmax)))
  }

  function WrittenMax(fp: Arith, b: real, cmin: real, cmax: real): nat {
    if cmax == cmin then 0 else MaxCode(fp, b, cmin, Scale(fp, Span(fp, cmin, cmax)))
  }

  /** A block is IN only when every original and every decoded value of it matches, and
    * OUT only when none does, whatever was rounded on either side. */
  lemma {:induction false} ClassificationIsSound(fp: Arith, rec: Record, mins: seq<real>, maxs: seq<real>, bid: nat, lo: Ext, hi: Ext,
                              orig: real, decoded: real)
    requires Binary64(fp) && Written(fp, rec, mins, maxs) && bid < |mins|
    requires Rep(fp, orig) && Rep(fp, decoded) && mins[bid] <= orig <= maxs[bid]
    requires Abs(orig - decoded) <= BlockError(fp, rec, bid)
    ensures StateOf(fp, rec, bid, lo, hi) == In ==> InRange(Fin(orig), lo, hi) && InRange(Fin(decoded), lo, hi)
    ensures StateOf(fp, rec, bid, lo, hi) == Out ==> !InRange(Fin(orig), lo, hi) && !InRange(Fin(decoded), lo, hi)
  {
    DequantisedEncloses(fp, rec, mins, maxs, bid);
    var bmin := ReadMin(fp, rec.cmin, rec.cmax, rec.offs[2 * bid]);
    var bmax := ReadMax(fp, rec.cmin, rec.cmax, rec.offs[2 * bid + 1]);
    ClassifiedIsSound(fp, bmin, bmax, BlockError(fp, rec, bid), lo, hi, orig);
    ClassifiedIsSound(fp, bmin, bmax, BlockError(fp, rec, bid), lo, hi, decoded);
  }

  lemma {:induction false} DequantisedEncloses(fp: Arith, rec: Record, mins: seq<real>, maxs: seq<real>, bid: nat)
    requires Binary64(fp) && Written(fp, rec, mins, maxs) && bid < |mins|
    ensures ReadMin(fp, rec.cmin, rec.cmax, rec.offs[2 * bid]) <= mins[bid]
    ensures maxs[bid] <= ReadMax(fp, rec.cmin, rec.cmax, rec.offs[2 * bid + 1])
  {
    assert rec.cmin <= mins[bid] <= maxs[bid] <= rec.cmax;
    SpanFacts(fp, rec.cmin, rec.cmax);
    if rec.cmin != rec.cmax {
      ReadMinIsBelow(fp, mins[bid], rec.cmin, rec.cmax);
      ReadMaxIsAbove(fp, maxs[bid], rec.cmin, rec.cmax);
    }
  }

  /** One turn of the loop in classify_unit. */
  method ClassifyBlock(fp: Arith, rec: Record, bid: nat, span: real, slack: real, lo: Ext, hi: Ext) returns (state: State)
    requires 2 * bid + 1 < |rec.offs| && (rec.codes.Codes? ==> bid < |rec.codes.q|)
    requires span == Span(fp, rec.cmin, rec.cmax) && slack == BoundSlack(fp, rec.cmin, rec.cmax)
    ensures state == StateOf(fp, rec, bid, lo, hi)
  {
    var e := BlockError(fp, rec, bid);
    var bmin, bmax := rec.cmin, rec.cmax;
    if span != 0.0 {
      bmin := fp.rnd(Dequantise(fp, rec.cmin, rec.offs[2 * bid], span) - slack);
      bmax := fp.rnd(Dequantise(fp, rec.cmin, rec.offs[2 * bid + 1], span) + slack);
    }
    state := Maybe;
    if lo.Less(Fin(fp.rnd(bmin - e))) && Fin(fp.rnd(bmax + e)).AtMost(hi) {
      state := In;
    } else if Fin(fp.rnd(bmax + e)).AtMost(lo) || hi.Less(Fin(fp.rnd(bmin - e))) {
      state := Out;
    }
  }

  /** The states of the first n blocks of a unit. */
  function UnitStates(fp: Arith, rec: Record, n: nat, lo: Ext, hi: Ext): (r: seq<State>)
    requires 2 * n <= |rec.offs| && (rec.codes.Codes? ==> n <= |rec.codes.q|)
    ensures |r| == n
  {
    if n == 0 then [] else UnitStates(fp, rec, n - 1, lo, hi) + [StateOf(fp, rec, n - 1, lo, hi)]
  }

  /** What classify_unit finds for one unit. */
  function StatesOf(fp: Arith, rec: Record, blocks: nat, lo: Ext, hi: Ext): (r: seq<State>)
    requires rec.Shaped(blocks)
    ensures |r| == blocks
  {
    UnitStates(fp, rec, blocks, lo, hi)
  }

  lemma {:induction false} UnitStatesAt(fp: Arith, rec: Record, n: nat, lo: Ext, hi: Ext, b: nat, s: State)
    requires 2 * n <= |rec.offs| && (rec.codes.Codes? ==> n <= |rec.codes.q|) && b < n && s == StateOf(fp, rec, b, lo, hi)
    ensures UnitStates(fp, rec, n, lo, hi)[b] == s
  {
    if b < n - 1 { UnitStatesAt(fp, rec, n - 1, lo, hi, b, s); }
    assert UnitStates(fp, rec, n, lo, hi) == UnitStates(fp, rec, n - 1, lo, hi) + [StateOf(fp, rec, n - 1, lo, hi)];
  }

  /** classify_unit, which writes the states of one unit's blocks behind each other. */
  method ClassifyUnit(fp: Arith, rec: Record, blocks: nat, lo: Ext, hi: Ext, states: array<State>, at: nat)
    requires rec.Shaped(blocks) && at + blocks <= states.Length
    modifies states
    ensures states[..] == old(states[..at]) + StatesOf(fp, rec, blocks, lo, hi) + old(states[at + blocks..])
  {
    var span := Span(fp, rec.cmin, rec.cmax);
    var slack := BoundSlack(fp, rec.cmin, rec.cmax);
    ghost var before, want := states[..], StatesOf(fp, rec, blocks, lo, hi);
    for bid := 0 to blocks
      invariant states[..] == before[..at] + want[..bid] + before[at + bid..]
    {
      var state := ClassifyAt(fp, rec, blocks, bid, span, slack, lo, hi, want);
      PutState(states, at + bid, state, before[..at], want[..bid], before[at + bid..]);
      assert before[at + bid..][1..] == before[at + bid + 1..] && want[..bid] + [state] == want[..bid + 1];
    }
    assert want[..blocks] == want;
  }

  method ClassifyAt(fp: Arith, rec: Record, blocks: nat, bid: nat, span: real, slack: real, lo: Ext, hi: Ext, ghost want: seq<State>)
    returns (state: State)
    requires rec.Shaped(blocks) && bid < blocks && want == StatesOf(fp, rec, blocks, lo, hi)
    requires span == Span(fp, rec.cmin, rec.cmax) && slack == BoundSlack(fp, rec.cmin, rec.cmax)
    ensures state == want[bid]
  {
    state := ClassifyBlock(fp, rec, bid, span, slack, lo, hi);
    UnitStatesAt(fp, rec, blocks, lo, hi, bid, state);
  }

  /** A state written where the rest begins. */
  method PutState(states: array<State>, k: nat, state: State, ghost front: seq<State>, ghost unit: seq<State>, ghost rest: seq<State>)
    requires states[..] == front + unit + rest && k == |front| + |unit| && rest != []
    modifies states
    ensures states[..] == front + (unit + [state]) + rest[1..]
  {
    states[k] := state;
  }

  // ---- szfp_meta ----

  const FLT_MAX: real := 340282346638528859811704183484516925440.0

  ghost predicate IsLeast(m: real, vs: seq<real>) {
    m in vs && forall i :: 0 <= i < |vs| ==> m <= vs[i]
  }

  ghost predicate IsGreatest(m: real, vs: seq<real>) {
    m in vs && forall i :: 0 <= i < |vs| ==> vs[i] <= m
  }

  function MeasuredError(fp: Arith, v: real, d: real): real {
    fp.rnd(Abs(v - d))
  }

  ghost predicate Covers(fp: Arith, vs: seq<real>, dec: seq<real>, m: real)
    requires |vs| == |dec|
  {
    forall i :: 0 <= i < |vs| ==> MeasuredError(fp, vs[i], dec[i]) <= m
  }

  ghost predicate Attains(fp: Arith, vs: seq<real>, dec: seq<real>, m: real)
    requires |vs| == |dec|
  {
    exists i :: 0 <= i < |vs| && MeasuredError(fp, vs[i], dec[i]) == m
  }

  /** The inner loops: one block's range, and the largest error so far. */
  method ScanBlock(fp: Arith, vs: seq<real>, dec: seq<real>, err: real) returns (bmin: real, bmax: real, maxErr: real)
    requires |vs| == |dec| && vs != [] && forall i :: 0 <= i < |vs| ==> -FLT_MAX <= vs[i] <= FLT_MAX
    ensures IsLeast(bmin, vs) && IsGreatest(bmax, vs)
    ensures maxErr >= err && Covers(fp, vs, dec, maxErr)
    ensures maxErr == err || Attains(fp, vs, dec, maxErr)
  {
    bmin, bmax, maxErr := FLT_MAX, -FLT_MAX, err;
    for i := 0 to |vs|
      invariant forall j :: 0 <= j < i ==> bmin <= vs[j] <= bmax
      invariant bmin in vs[..i] || bmin == FLT_MAX
      invariant bmax in vs[..i] || bmax == -FLT_MAX
      invariant maxErr >= err && forall j :: 0 <= j < i ==> MeasuredError(fp, vs[j], dec[j]) <= maxErr
      invariant maxErr == err || Attains(fp, vs, dec, maxErr)
    {
      var e := MeasuredError(fp, vs[i], dec[i]);
      assert vs[..i + 1] == vs[..i] + [vs[i]];
      if vs[i] < bmin {
        bmin := vs[i];
      }
      if vs[i] > bmax {
        bmax := vs[i];
      }
      if e > maxErr {
        maxErr := e;
      }
    }
    assert vs[..|vs|] == vs;
    assert vs[0] <= bmax && bmin <= vs[0];
  }

  /** The ranges of the first n blocks, with those of all of them. */
  ghost predicate RangesScanned(blocks: seq<seq<real>>, n: nat, mins: seq<real>, maxs: seq<real>, cmin: real, cmax: real)
    requires n <= |blocks|
  {
    && |mins| == |maxs| == n
    && (forall b :: 0 <= b < n ==> IsLeast(mins[b], blocks[b]) && IsGreatest(maxs[b], blocks[b]) && cmin <= mins[b] && maxs[b] <= cmax)
    && (if n == 0 then cmin == FLT_MAX && cmax == -FLT_MAX else cmin in mins && cmax in maxs)
  }

  /** Their largest error. */
  ghost predicate ErrorsScanned(fp: Arith, blocks: seq<seq<real>>, dec: seq<seq<real>>, n: nat, maxErr: real)
    requires n <= |blocks| == |dec| && forall b :: 0 <= b < |blocks| ==> |blocks[b]| == |dec[b]|
  {
    && (forall b :: 0 <= b < n ==> Covers(fp, blocks[b], dec[b], maxErr))
    && (maxErr == 0.0 || exists b :: 0 <= b < n && Attains(fp, blocks[b], dec[b], maxErr))
  }

  lemma {:induction false} RangesStep(blocks: seq<seq<real>>, n: nat, mins: seq<real>, maxs: seq<real>, cmin: real, cmax: real, bmin: real, bmax: real)
    requires n < |blocks| && RangesScanned(blocks, n, mins, maxs, cmin, cmax) && IsLeast(bmin, blocks[n]) && IsGreatest(bmax, blocks[n])
    requires bmin <= FLT_MAX && -FLT_MAX <= bmax
    ensures RangesScanned(blocks, n + 1, mins + [bmin], maxs + [bmax], if bmin < cmin then bmin else cmin, if bmax > cmax then bmax else cmax)
  {
    assert (mins + [bmin])[n] == bmin && (maxs + [bmax])[n] == bmax;
  }

  lemma {:induction false} ErrorsStep(fp: Arith, blocks: seq<seq<real>>, dec: seq<seq<real>>, n: nat, err: real, maxErr: real)
    requires n < |blocks| == |dec| && forall b :: 0 <= b < |blocks| ==> |blocks[b]| == |dec[b]|
    requires ErrorsScanned(fp, blocks, dec, n, err) && maxErr >= err && Covers(fp, blocks[n], dec[n], maxErr)
    requires maxErr == err || Attains(fp, blocks[n], dec[n], maxErr)
    ensures ErrorsScanned(fp, blocks, dec, n + 1, maxErr)
  {
  }

  /** One block more. */
  method ScanNext(fp: Arith, blocks: seq<seq<real>>, dec: seq<seq<real>>, n: nat, mins0: seq<real>, maxs0: seq<real>, cmin0: real, cmax0: real, err: real)
    returns (mins: seq<real>, maxs: seq<real>, cmin: real, cmax: real, maxErr: real)
    requires n < |blocks| == |dec| && forall b :: 0 <= b < |blocks| ==> |blocks[b]| == |dec[b]| && blocks[b] != []
    requires forall i :: 0 <= i < |blocks[n]| ==> -FLT_MAX <= blocks[n][i] <= FLT_MAX
    requires RangesScanned(blocks, n, mins0, maxs0, cmin0, cmax0) && ErrorsScanned(fp, blocks, dec, n, err)
    ensures RangesScanned(blocks, n + 1, mins, maxs, cmin, cmax) && ErrorsScanned(fp, blocks, dec, n + 1, maxErr)
  {
    var bmin, bmax;
    bmin, bmax, maxErr := ScanBlock(fp, blocks[n], dec[n], err);
    FirstInRange(blocks[n], bmin, bmax);
    RangesStep(blocks, n, mins0, maxs0, cmin0, cmax0, bmin, bmax);
    ErrorsStep(fp, blocks, dec, n, err, maxErr);
    mins, maxs := mins0 + [bmin], maxs0 + [bmax];
    cmin, cmax := if bmin < cmin0 then bmin else cmin0, if bmax > cmax0 then bmax else cmax0;
  }

  lemma {:induction false} FirstInRange(vs: seq<real>, m: real, k: real)
    requires IsLeast(m, vs) && IsGreatest(k, vs) && forall i :: 0 <= i < |vs| ==> -FLT_MAX <= vs[i] <= FLT_MAX
    ensures m <= FLT_MAX && -FLT_MAX <= k
  {
  }

  /** The ranges of all blocks and of the unit; the error bound is the largest error. */
  method ScanUnit(fp: Arith, blocks: seq<seq<real>>, dec: seq<seq<real>>)
    returns (mins: seq<real>, maxs: seq<real>, cmin: real, cmax: real, maxErr: real)
    requires |blocks| == |dec| && blocks != []
    requires forall b :: 0 <= b < |blocks| ==> |blocks[b]| == |dec[b]| && blocks[b] != []
    requires forall b, i :: 0 <= b < |blocks| && 0 <= i < |blocks[b]| ==> -FLT_MAX <= blocks[b][i] <= FLT_MAX
    ensures |mins| == |maxs| == |blocks|
    ensures forall b :: 0 <= b < |blocks| ==> IsLeast(mins[b], blocks[b]) && IsGreatest(maxs[b], blocks[b])
    ensures IsLeast(cmin, mins) && IsGreatest(cmax, maxs)
    ensures forall b :: 0 <= b < |blocks| ==> Covers(fp, blocks[b], dec[b], maxErr)
    ensures maxErr == 0.0 || exists b :: 0 <= b < |blocks| && Attains(fp, blocks[b], dec[b], maxErr)
  {
    mins, maxs, cmin, cmax, maxErr := [], [], FLT_MAX, -FLT_MAX, 0.0;
    for b := 0 to |blocks|
      invariant RangesScanned(blocks, b, mins, maxs, cmin, cmax) && ErrorsScanned(fp, blocks, dec, b, maxErr)
    {
      mins, maxs, cmin, cmax, maxErr := ScanNext(fp, blocks, dec, b, mins, maxs, cmin, cmax, maxErr);
    }
  }

  /** The offsets of szfp_meta. */
  method WriteOffsets(fp: Arith, mins: seq<real>, maxs: seq<real>, cmin: real, cmax: real, offs: array<nat>)
    requires |mins| == |maxs| && offs.Length == 2 * |mins|
    modifies offs
    ensures forall b :: 0 <= b < |mins| ==> offs[2 * b] == WrittenMin(fp, mins[b], cmin, cmax)
    ensures forall b :: 0 <= b < |mins| ==> offs[2 * b + 1] == WrittenMax(fp, maxs[b], cmin, cmax)
  {
    if cmax == cmin {
      for i := 0 to offs.Length
        invariant forall j :: 0 <= j < i ==> offs[j] == 0
      {
        offs[i] := 0;
      }
    } else {
      var span := fp.rnd(cmax - cmin);
      var scale := Scale(fp, span);
      for b := 0 to |mins|
        invariant forall a :: 0 <= a < b ==> offs[2 * a] == WrittenMin(fp, mins[a], cmin, cmax)
        invariant forall a :: 0 <= a < b ==> offs[2 * a + 1] == WrittenMax(fp, maxs[a], cmin, cmax)
      {
        offs[2 * b] := Clamp(Offset(fp, mins[b], cmin, scale).Floor);
        offs[2 * b + 1] := Clamp(Ceil(Offset(fp, maxs[b], cmin, scale)));
      }
    }
  }

  /** A double rounded up to a float: the cast, stepped up when it went below. */
  ghost function Above(grid: seq<Ext>, f: Ext): (g: Ext)
    requires IsGrid(grid) && f in grid
    ensures g in grid && f.AtMost(g)
    ensures forall h :: h in grid && f.Less(h) ==> g.AtMost(h)
    ensures f != PosInf ==> f.Less(g)
  {
    var i :| 0 <= i < |grid| && grid[i] == f;
    if i == |grid| - 1 then f
    else
      assert grid[i].Less(grid[i + 1]);
      assert forall h :: h in grid && f.Less(h) ==> grid[i + 1].AtMost(h) by {
        forall h | h in grid && f.Less(h) ensures grid[i + 1].AtMost(h) {
          var j :| 0 <= j < |grid| && grid[j] == h;
          assert i < j;
        }
      }
      grid[i + 1]
  }

  ghost function FloatAtLeast(grid: seq<Ext>, d: Ext, cast: Ext): Ext
    requires IsGrid(grid) && IsCast(grid, d, cast)
  {
    if cast.Less(d) then Above(grid, cast) else cast
  }

  /** The error bound listed for a block and the one stored for a unit are the least
    * floats not below the double they come from. */
  lemma {:induction false} FloatAtLeastIsLeast(grid: seq<Ext>, d: Ext, cast: Ext)
    requires IsGrid(grid) && IsCast(grid, d, cast)
    ensures var f := FloatAtLeast(grid, d, cast);
            f in grid && d.AtMost(f) && forall g :: g in grid && d.AtMost(g) ==> f.AtMost(g)
  {
  }

  // ---- block_error_codes ----

  /** min(ceil(15.0 * err / e), 15) */
  function FirstCode(fp: Arith, err: real, e: real): int
    requires e != 0.0
  {
    var q := Ceil(fp.rnd(fp.rnd(15.0 * err) / e));
    if q > 15 then 15 else q
  }

  /** A difference of two floats, rounded: 0 or at least 2^-149. */
  predicate IsError(err: real) {
    err == 0.0 || err * 713623846352979940529142984724747568191373312.0 >= 1.0
  }

  datatype CodeResult = CodeList(q: seq<nat>) | Uncovered

  /** A code below c would leave err uncovered, but for rounding: c - 1 fifteenths of e are less
    * than 1 + 2^-50 times err. */
  ghost predicate IsTight(e: real, err: real, c: nat) {
    c == 0 || Product((c - 1) as real, e) * 1125899906842624.0 <= 15.0 * err * 1125899906842625.0
  }

  method BlockErrorCodes(fp: Arith, errs: seq<real>, e: real) returns (r: CodeResult)
    requires Binary64(fp) && e >= 0.0 && IsFloat(fp, e) && Rep(fp, 15.0 * e)
    requires forall b :: 0 <= b < |errs| ==> IsError(errs[b])
    ensures r.Uncovered? <==> exists b :: 0 <= b < |errs| && errs[b] > e
    ensures r.CodeList? ==> |r.q| == |errs| && forall b :: 0 <= b < |errs| ==> r.q[b] <= 15 && errs[b] <= CodeError(fp, e, r.q[b]) && IsTight(e, errs[b], r.q[b])
  {
    if e == 0.0 {
      var b: nat := 0;
      while b < |errs|
        invariant b <= |errs| && forall a :: 0 <= a < b ==> errs[a] == 0.0
      {
        if errs[b] != 0.0 {
          return Uncovered;
        }
        b := b + 1;
      }
      var zeros := [];
      for i := 0 to |errs|
        invariant |zeros| == i && forall a :: 0 <= a < i ==> zeros[a] == 0
      {
        zeros := zeros + [0];
      }
      ZeroCode(fp, e);
      return CodeList(zeros);
    }
    var q: seq<nat> := [];
    for b := 0 to |errs|
      invariant |q| == b
      invariant forall a :: 0 <= a < b ==> errs[a] <= e && q[a] <= 15 && errs[a] <= CodeError(fp, e, q[a]) && IsTight(e, errs[a], q[a])
    {
      FirstCodeFacts(fp, errs[b], e);
      var c := FirstCode(fp, errs[b], e);
      FirstCodeIsTight(fp, errs[b], e, c);
      if CodeError(fp, e, c) < errs[b] {
        NextCodeIsTight(fp, errs[b], e, c);
        c := c + 1;
      }
      if c > 15 || CodeError(fp, e, c) < errs[b] {
        return Uncovered;
      }
      CodeErrorGrows(fp, e, c);
      q := q + [c];
    }
    return CodeList(q);
  }

  lemma {:induction false} ZeroCode(fp: Arith, e: real)
    requires Binary64(fp) && e == 0.0
    ensures CodeError(fp, e, 0) == 0.0
  {
    ZeroIsRep(fp);
    assert Product(e, 0 as real) == 0.0;
  }

  /** Code 15 is the whole bound, and no code exceeds it. */
  lemma {:induction false} CodeErrorGrows(fp: Arith, e: real, q: nat)
    requires Binary64(fp) && e >= 0.0 && Rep(fp, e) && Rep(fp, 15.0 * e) && q <= 15
    ensures CodeError(fp, e, 15) == e && CodeError(fp, e, q) <= e
  {
    assert Product(e, 15 as real) == 15.0 * e;
    MulLe(q as real, 15.0, e);
    assert Product(q as real, e) == Product(e, q as real);
    Monotone(fp, Product(e, q as real), 15.0 * e);
    Monotone(fp, fp.rnd(Product(e, q as real)) / 15.0, e);
  }

  /** The rounded-up code, or the next one, covers an error within the bound. */
  lemma {:induction false} FirstCodeFacts(fp: Arith, err: real, e: real)
    requires Binary64(fp) && e > 0.0 && IsFloat(fp, e) && Rep(fp, 15.0 * e) && IsError(err)
    ensures var c := FirstCode(fp, err, e);
            0 <= c <= 15 && (err <= e ==> (c < 15 && err <= CodeError(fp, e, c + 1)) || (c == 15 && err <= CodeError(fp, e, c)))
  {
    var c := FirstCode(fp, err, e);
    var w := fp.rnd(15.0 * err);
    var x := w / e;
    assert Product(x, e) == w;
    FloatSize(fp, e);
    RelativeError(fp, 15.0 * err);
    QuotientSize(fp, w, e, x);
    RelativeError(fp, x);
    CodeErrorGrows(fp, e, 15);
    if err <= e && c < 15 {
      NearProduct(fp.rnd(x), x, e);
      MulLe(fp.rnd(x), c as real, e);
      NextCode(fp, err, e, c, w);
    }
  }

  /** The rounded-up code is not too large... */
  lemma {:induction false} FirstCodeIsTight(fp: Arith, err: real, e: real, c: int)
    requires Binary64(fp) && e > 0.0 && IsFloat(fp, e) && IsError(err) && c == FirstCode(fp, err, e) && 0 <= c
    ensures IsTight(e, err, c)
  {
    var w := fp.rnd(15.0 * err);
    var x := w / e;
    assert Product(x, e) == w;
    FloatSize(fp, e);
    RelativeError(fp, 15.0 * err);
    QuotientSize(fp, w, e, x);
    RelativeError(fp, x);
    NearProduct(fp.rnd(x), x, e);
    if c > 0 {
      MulLe((c - 1) as real, fp.rnd(x), e);
    }
  }

  /** ...and neither is the next one, where that leaves the error uncovered. */
  lemma {:induction false} NextCodeIsTight(fp: Arith, err: real, e: real, c: nat)
    requires Binary64(fp) && e > 0.0 && IsFloat(fp, e) && IsError(err) && c <= 15 && CodeError(fp, e, c) < err
    ensures IsTight(e, err, c + 1)
  {
    var x := Product(e, c as real);
    Reassociate(e, c as real, 1.0);
    FloatSize(fp, e);
    if c == 0 {
      assert x == 0.0;
    } else {
      MulLe(1.0, c as real, e);
      assert Product(1.0, e) == e;
      RelativeError(fp, x);
      RelativeError(fp, fp.rnd(x) / 15.0);
    }
  }

  lemma {:induction false} FloatSize(fp: Arith, e: real)
    requires IsFloat(fp, e) && e > 0.0
    ensures e * 713623846352979940529142984724747568191373312.0 >= 1.0
  {
    var k: int :| Steps(k, e);
  }

  lemma {:induction false} QuotientSize(fp: Arith, w: real, e: real, x: real)
    requires Binary64(fp)
    requires w == 0.0 || w * 713623846352979940529142984724747568191373312.0 >= 1.0
    requires 0.0 < e < 340282366920938463463374607431768211456.0 && Product(x, e) == w
    ensures x == 0.0 || Normal(fp, x)
    ensures x >= 0.0
  {
    if x < 0.0 {
      MulLess(x, 0.0, e);
    } else if x > 0.0 {
      MulLess(0.0, x, e);
      MulLe(e, 340282366920938463463374607431768211456.0, x);
      Reassociate(x, e, 1.0);
      Reassociate(x, 340282366920938463463374607431768211456.0, 1.0);
    }
  }

  lemma {:induction false} MulLess(a: real, b: real, c: real)
    requires 0.0 < c && a < b
    ensures Product(a, c) < Product(b, c) && Product(0.0, c) == 0.0
  {
  }

  lemma {:induction false} NextCode(fp: Arith, err: real, e: real, c: nat, w: real)
    requires Binary64(fp) && e * 713623846352979940529142984724747568191373312.0 >= 1.0 && 0.0 <= err <= e
    requires Near(w, 15.0 * err) && w * 9007199254740991.0 <= Product(c as real, e) * 9007199254740992.0
    ensures err <= CodeError(fp, e, c + 1)
  {
    var x := Product(e, (c + 1) as real);
    assert x == Product(c as real, e) + e;
    var r := fp.rnd(x);
    assert w >= 0.0;
    RelativeError(fp, x);
    RelativeError(fp, r / 15.0);
  }
}
