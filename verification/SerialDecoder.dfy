/** The bit-serial meaning of ZFP's embedded plane code. The unread bits inside
  * the budget are a sequence, so whatever is decoded depends on nothing else. */
module SerialDecoder {
  import opened Bits

  /** After a group-test 1: read bits while the budget lasts and the coefficient
    * is below 63, stopping after a 1. Returns the unread bits and the coefficient. */
  function Scan(r: seq<bool>, n: nat): (o: (seq<bool>, nat))
    ensures |o.0| <= |r| && n <= o.1 && (n < 64 ==> o.1 < 64)
  {
    if r == [] || n >= 63 then (r, n)
    else if r[0] then (r[1..], n)
    else Scan(r[1..], n + 1)
  }

  datatype PlaneState = PlaneState(rest: seq<bool>, n: nat, x: Word)

  /** Group tests and coefficient runs until a group-test 0. */
  function Groups(r: seq<bool>, n: nat, x: Word): (o: PlaneState)
    ensures |o.rest| <= |r| && n <= o.n
    ensures n <= 64 ==> o.n <= 64
    ensures r != [] && n < 64 ==> |o.rest| < |r|
    decreases |r|
  {
    if r == [] || n >= 64 then PlaneState(r, n, x)
    else if !r[0] then PlaneState(r[1..], n, x)
    else
      var (r1, n1) := Scan(r[1..], n);
      Groups(r1, n1 + 1, x[n1 := true])
  }

  /** One bit plane: n verbatim bits (or what is left), xs being those read so
    * far, then the groups. */
  function Plane(r: seq<bool>, n: nat, xs: seq<bool>): (o: PlaneState)
    requires |xs| <= n <= 64
    ensures o.n <= 64 && |o.rest| <= |r|
    ensures r != [] && (|xs| < n || n < 64) ==> |o.rest| < |r|
    decreases n - |xs|
  {
    if |xs| < n && r != [] then Plane(r[1..], n, xs + [r[0]]) else Groups(r, n, Pad(xs))
  }

  /** At most k planes, most significant first, until the budget runs out. */
  function Planes(r: seq<bool>, n: nat, k: nat): (ps: seq<Word>)
    requires n <= 64
    ensures |ps| <= k
    decreases |r|
  {
    if r == [] || k == 0 then []
    else
      var p := Plane(r, n, []);
      [p.x] + Planes(p.rest, p.n, k - 1)
  }

  // ---- shorter budgets ----

  lemma {:induction false} ScanPrefix(r: seq<bool>, t: seq<bool>, n: nat)
    requires Scan(r, n).0 != []
    ensures Scan(r + t, n) == (Scan(r, n).0 + t, Scan(r, n).1)
  {
    if r == [] || n >= 63 {
    } else {
      assert (r + t)[1..] == r[1..] + t;
      if !r[0] {
        ScanPrefix(r[1..], t, n + 1);
      }
    }
  }

  lemma {:induction false} GroupsPrefix(r: seq<bool>, t: seq<bool>, n: nat, x: Word)
    requires Groups(r, n, x).rest != []
    ensures Groups(r + t, n, x) == Groups(r, n, x).(rest := Groups(r, n, x).rest + t)
    decreases |r|
  {
    if r == [] || n >= 64 {
    } else {
      assert (r + t)[1..] == r[1..] + t;
      if r[0] {
        var (r1, n1) := Scan(r[1..], n);
        ScanPrefix(r[1..], t, n);
        GroupsPrefix(r1, t, n1 + 1, x[n1 := true]);
      }
    }
  }

  lemma {:induction false} PlanePrefix(r: seq<bool>, t: seq<bool>, n: nat, xs: seq<bool>)
    requires |xs| <= n <= 64 && Plane(r, n, xs).rest != []
    ensures Plane(r + t, n, xs) == Plane(r, n, xs).(rest := Plane(r, n, xs).rest + t)
    decreases n - |xs|
  {
    if |xs| < n && r != [] {
      assert (r + t)[1..] == r[1..] + t;
      PlanePrefix(r[1..], t, n, xs + [r[0]]);
    } else {
      GroupsPrefix(r, t, n, Pad(xs));
    }
  }

  /** Decoding a shorter budget of the same stream gives no more planes, and all
    * but its last plane are those of the full run. */
  lemma {:induction false} PrefixDecodes(r: seq<bool>, t: seq<bool>, n: nat, k: nat)
    requires n <= 64
    ensures |Planes(r, n, k)| <= |Planes(r + t, n, k)|
    ensures forall i :: 0 <= i < |Planes(r, n, k)| - 1 ==> Planes(r, n, k)[i] == Planes(r + t, n, k)[i]
    decreases |r|
  {
    if r == [] || k == 0 {
    } else {
      var p := Plane(r, n, []);
      var q := Plane(r + t, n, []);
      assert Planes(r, n, k) == [p.x] + Planes(p.rest, p.n, k - 1);
      assert Planes(r + t, n, k) == [q.x] + Planes(q.rest, q.n, k - 1);
      if p.rest != [] {
        PlanePrefix(r, t, n, []);
        PrefixDecodes(p.rest, t, p.n, k - 1);
      } else {
        assert Planes(p.rest, p.n, k - 1) == [];
      }
    }
  }

  /** The same fact for two budgets of one buffer, which is how a layered prefix
    * of a block relates to the whole block. */
  lemma {:induction false} PrefixBudget(s: seq<bool>, pos: nat, short: nat, long: nat)
    requires pos + short <= pos + long <= |s|
    ensures var a, b := Planes(s[pos..pos + short], 0, 32), Planes(s[pos..pos + long], 0, 32);
            |a| <= |b| && forall i :: 0 <= i < |a| - 1 ==> a[i] == b[i]
  {
    assert s[pos..pos + long] == s[pos..pos + short] + s[pos + short..pos + long];
    PrefixDecodes(s[pos..pos + short], s[pos + short..pos + long], 0, 32);
  }

  // ---- a whole plane in one window ----

  /** The set bits of v of every other rank, starting with the first or the second. */
  function EveryOther(v: seq<bool>, first: bool): (r: seq<bool>)
    ensures |r| == |v|
  {
    if v == [] then []
    else if v[0] then [first] + EveryOther(v[1..], !first)
    else [false] + EveryOther(v[1..], first)
  }

  predicate Alternates(src: seq<bool>)
  {
    forall i :: 0 <= i < |src| - 1 ==> src[i] != src[i + 1]
  }

  lemma {:induction false} PdepAlternating(src: seq<bool>, v: seq<bool>)
    requires |src| >= |v| && Alternates(src)
    ensures v == [] || Pdep(src, v) == EveryOther(v, src[0])
    decreases |v|
  {
    if v != [] {
      if |v| > 1 {
        PdepAlternating(if v[0] then src[1..] else src, v[1..]);
      } else {
        assert v[1..] == [];
      }
    }
  }

  /** The bits ys placed from coefficient n upwards. */
  function Place(x: Word, n: nat, ys: seq<bool>): (w: Word)
    requires n + |ys| <= 64
  {
    Or(x, Zeros(n) + ys + Zeros(64 - n - |ys|))
  }

  /** Which of the first bits of the window are coefficient bits: all but group tests. */
  function Kept(v: seq<bool>, inRun: bool): (r: seq<bool>)
    ensures |r| == |v|
  {
    Negate(EveryOther(v, !inRun))
  }

  /** e is the first bit of the window that ends the plane: a coefficient's own 1
    * followed by a 0. */
  predicate PlaneEnd(v: seq<bool>, inRun: bool, e: nat)
  {
    && e + 1 < |v|
    && (var s := EveryOther(v, inRun);
        && s[e] && !v[e + 1]
        && forall j :: 0 <= j < e ==> !(s[j] && !v[j + 1]))
  }

  lemma {:induction false} PlaneEndTail(v: seq<bool>, inRun: bool, e: nat)
    requires PlaneEnd(v, inRun, e) && e > 0
    ensures PlaneEnd(v[1..], if v[0] then !inRun else inRun, e - 1)
    ensures v[0] && inRun ==> v[1]
  {
    var next := if v[0] then !inRun else inRun;
    var s, s' := EveryOther(v, inRun), EveryOther(v[1..], next);
    assert s[1..] == s';
    assert v[0] && inRun ==> s[0];
    forall j | 0 <= j < e - 1 ensures !(s'[j] && !v[1..][j + 1]) {
      assert s'[j] == s[j + 1];
    }
  }

  lemma {:induction false} KeptTail(v: seq<bool>, inRun: bool, k: nat)
    requires k < |v|
    ensures Kept(v, inRun)[..k + 1] == [!v[0] || inRun] + Kept(v[1..], if v[0] then !inRun else inRun)[..k]
  {
    var next := if v[0] then !inRun else inRun;
    var g, g' := EveryOther(v, !inRun), EveryOther(v[1..], !next);
    assert g[1..] == g' && g[0] == (v[0] && !inRun);
    forall i | 0 < i < |v| ensures Kept(v, inRun)[i] == Kept(v[1..], next)[i - 1] {
      assert g[i] == g'[i - 1];
    }
  }

  /** The coefficient bits among the first k bits of the window. */
  function NewBits(v: seq<bool>, inRun: bool, k: nat): (ys: seq<bool>)
    requires k <= |v|
    ensures |ys| == PopCount(Kept(v, inRun)[..k])
  {
    Select(v[..k], Kept(v, inRun)[..k])
  }

  lemma {:induction false} NewBitsTail(v: seq<bool>, inRun: bool, k: nat)
    requires k < |v|
    ensures NewBits(v, inRun, k + 1) ==
            (if !v[0] || inRun then [v[0]] else []) + NewBits(v[1..], if v[0] then !inRun else inRun, k)
  {
    KeptTail(v, inRun, k);
    assert v[..k + 1] == [v[0]] + v[1..][..k];
    var next := if v[0] then !inRun else inRun;
    var keep := Kept(v, inRun)[..k + 1];
    assert keep[1..] == Kept(v[1..], next)[..k] && v[..k + 1][1..] == v[1..][..k];
  }

  /** What is left of the plane when the window starts inside a run, or at a group test. */
  function Resume(r: seq<bool>, n: nat, x: Word, inRun: bool): (o: PlaneState)
    requires n < 64
  {
    if inRun then
      var (r1, n1) := Scan(r, n); Groups(r1, n1 + 1, x[n1 := true])
    else Groups(r, n, x)
  }

  /** One bit of the window. */
  lemma {:induction false} ResumeStep(r: seq<bool>, n: nat, x: Word, inRun: bool)
    requires n < 63 && r != []
    ensures inRun && r[0] ==> Resume(r, n, x, true) == Resume(r[1..], n + 1, x[n := true], false)
    ensures inRun && !r[0] ==> Resume(r, n, x, true) == Resume(r[1..], n + 1, x, true)
    ensures !inRun && r[0] ==> Resume(r, n, x, false) == Resume(r[1..], n, x, true)
    ensures !inRun && !r[0] ==> Resume(r, n, x, false) == PlaneState(r[1..], n, x)
  {
  }

  lemma {:induction false} PlaceStep(x: Word, n: nat, b: bool, ys: seq<bool>)
    requires n + |ys| < 64
    requires forall i :: n <= i < 64 ==> !x[i]
    ensures Place(x, n, [b] + ys) == Place(if b then x[n := true] else x, n + 1, ys)
  {
    PlaceNext(x, n, b, ys, [b] + ys, if b then x[n := true] else x);
  }

  lemma {:induction false} PlaceNext(x: Word, n: nat, b: bool, ys: seq<bool>, zs: seq<bool>, y: Word)
    requires n + |ys| < 64 && zs == [b] + ys && !x[n] && y == if b then x[n := true] else x
    ensures Place(x, n, zs) == Place(y, n + 1, ys)
  {
    var p, q := Place(x, n, zs), Place(y, n + 1, ys);
    forall i | 0 <= i < 64 ensures p[i] == q[i] {
      PlaceBit(x, n, zs, i);
      PlaceBit(y, n + 1, ys, i);
      if n < i < n + 1 + |ys| {
        assert zs[i - n] == ys[i - (n + 1)];
      }
    }
  }

  lemma {:induction false} PlaceBit(x: Word, n: nat, ys: seq<bool>, i: nat)
    requires n + |ys| <= 64 && i < 64
    ensures Place(x, n, ys)[i] == (x[i] || (n <= i < n + |ys| && ys[i - n]))
  {
  }

  lemma {:induction false} PlaceBits(x: Word, n: nat, ys: seq<bool>)
    requires n + |ys| <= 64
    ensures forall i :: 0 <= i < 64 ==> Place(x, n, ys)[i] == (x[i] || (n <= i < n + |ys| && ys[i - n]))
  {
    forall i | 0 <= i < 64 ensures Place(x, n, ys)[i] == (x[i] || (n <= i < n + |ys| && ys[i - n])) {
      PlaceBit(x, n, ys, i);
    }
  }

  /** The coefficient bit at the front of the window ends the plane. */
  lemma {:induction false} WindowEnds(v: seq<bool>, r: seq<bool>, n: nat, x: Word, inRun: bool)
    requires PlaneEnd(v, inRun, 0)
    requires 2 <= |r| && r[0] == v[0] && r[1] == v[1]
    requires n < 62
    ensures inRun && v[0] && NewBits(v, inRun, 1) == [true]
    ensures Resume(r, n, x, inRun) == PlaneState(r[2..], n + 1, x[n := true])
  {
    assert EveryOther(v, inRun)[0] == (v[0] && inRun);
    NewBitsTail(v, inRun, 0);
    assert v[1..][..0] == [];
    ResumeStep(r, n, x, inRun);
    ResumeStep(r[1..], n + 1, x[n := true], false);
    assert r[1..][1..] == r[2..];
  }

  lemma {:induction false} WindowParsesOne(v: seq<bool>, r: seq<bool>, n: nat, x: Word, inRun: bool)
    requires PlaneEnd(v, inRun, 0) && 2 <= |r| && r[0] == v[0] && r[1] == v[1]
    requires n + |NewBits(v, inRun, 1)| < 63
    ensures var ys := NewBits(v, inRun, 1);
            Resume(r, n, x, inRun) == PlaneState(r[2..], n + |ys|, Place(x, n, ys))
  {
    NewBitsTail(v, inRun, 0);
    assert |NewBits(v, inRun, 1)| >= 1 by { assert EveryOther(v, inRun)[0] == (v[0] && inRun); }
    WindowEnds(v, r, n, x, inRun);
    assert Place(x, n, [true]) == x[n := true];
  }

  /** Parsing a window up to the first coefficient bit followed by a 0 is parsing
    * its groups one at a time: inRun says whether the window starts inside a run
    * or at a group test (which is then a 1). */
  lemma {:induction false} WindowParses(v: seq<bool>, r: seq<bool>, n: nat, x: Word, inRun: bool, e: nat)
    requires PlaneEnd(v, inRun, e)
    requires inRun || v[0]
    requires e + 2 <= |r| && forall i :: 0 <= i < e + 2 ==> r[i] == v[i]
    requires forall i :: n <= i < 64 ==> !x[i]
    requires n + |NewBits(v, inRun, e + 1)| < 63
    ensures var ys := NewBits(v, inRun, e + 1);
            Resume(r, n, x, inRun) == PlaneState(r[e + 2..], n + |ys|, Place(x, n, ys))
    decreases e
  {
    if e == 0 {
      WindowParsesOne(v, r, n, x, inRun);
    } else {
      var next := if v[0] then !inRun else inRun;
      var b := !v[0] || inRun;
      var n' := if b then n + 1 else n;
      var x' := if b && v[0] then x[n := true] else x;
      var ys' := NewBits(v[1..], next, e);
      NewBitsTail(v, inRun, e);
      PlaneEndTail(v, inRun, e);
      WindowParses(v[1..], r[1..], n', x', next, e - 1);
      WindowJoins(r, n, x, inRun, e, ys');
    }
  }

  lemma {:induction false} WindowJoins(r: seq<bool>, n: nat, x: Word, inRun: bool, e: nat, ys': seq<bool>)
    requires 0 < e && e + 2 <= |r| && (inRun || r[0])
    requires forall i :: n <= i < 64 ==> !x[i]
    requires var b := !r[0] || inRun;
             var n' := if b then n + 1 else n;
             && n' + |ys'| < 63
             && Resume(r[1..], n', if b && r[0] then x[n := true] else x, if r[0] then !inRun else inRun)
                == PlaneState(r[1..][e + 1..], n' + |ys'|, Place(if b && r[0] then x[n := true] else x, n', ys'))
    ensures var ys := (if !r[0] || inRun then [r[0]] else []) + ys';
            Resume(r, n, x, inRun) == PlaneState(r[e + 2..], n + |ys|, Place(x, n, ys))
  {
    assert r[1..][e + 1..] == r[e + 2..];
    ResumeStep(r, n, x, inRun);
    if !r[0] || inRun {
      PlaceStep(x, n, r[0], ys');
    } else {
      assert [] + ys' == ys';
    }
  }
}
