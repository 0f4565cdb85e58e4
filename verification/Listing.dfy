/** The list of blocks a query reads, and planning an array slab by slab. */
module Listing {
  import opened MixedRadix
  import opened ZoneMap

  /** A listed block with its state and error bound. */
  datatype Entry = Entry(chunk: nat, block: nat, state: State, eps: real)

  predicate IsListed(s: State, keepIn: bool) {
    s == Maybe || (keepIn && s == In)
  }

  // ---- the list of one chunk, and of all chunks ----

  /** The listed ones of the first n blocks of a chunk. */
  function ListBlocks(chunk: nat, sts: seq<State>, errs: seq<real>, keepIn: bool, n: nat): seq<Entry>
    requires n <= |sts| == |errs|
  {
    if n == 0 then []
    else
      var front := ListBlocks(chunk, sts, errs, keepIn, n - 1);
      if IsListed(sts[n - 1], keepIn) then front + [Entry(chunk, n - 1, sts[n - 1], errs[n - 1])] else front
  }

  ghost predicate SameShape(sts: seq<seq<State>>, errs: seq<seq<real>>) {
    |sts| == |errs| && forall c :: 0 <= c < |sts| ==> |sts[c]| == |errs[c]|
  }

  /** The lists of the first n chunks one after another, the first of them numbered base. */
  ghost function ListChunks(base: nat, sts: seq<seq<State>>, errs: seq<seq<real>>, keepIn: bool, n: nat): seq<Entry>
    requires SameShape(sts, errs) && n <= |sts|
    decreases n
  {
    if n == 0 then []
    else ListChunks(base, sts, errs, keepIn, n - 1) + ListBlocks(base + n - 1, sts[n - 1], errs[n - 1], keepIn, |sts[n - 1]|)
  }

  predicate Before(a: Entry, b: Entry) {
    a.chunk < b.chunk || (a.chunk == b.chunk && a.block < b.block)
  }

  ghost predicate Sorted(es: seq<Entry>) {
    forall i, j :: 0 <= i < j < |es| ==> Before(es[i], es[j])
  }

  lemma {:induction false} BlocksAreSorted(chunk: nat, sts: seq<State>, errs: seq<real>, keepIn: bool, n: nat)
    requires n <= |sts| == |errs|
    ensures var es := ListBlocks(chunk, sts, errs, keepIn, n);
            Sorted(es) && forall i :: 0 <= i < |es| ==> es[i].chunk == chunk && es[i].block < n
  {
    if n > 0 { BlocksAreSorted(chunk, sts, errs, keepIn, n - 1); }
  }

  /** The list is strictly sorted by chunk and block. */
  lemma {:induction false} ListIsSorted(base: nat, sts: seq<seq<State>>, errs: seq<seq<real>>, keepIn: bool, n: nat)
    requires SameShape(sts, errs) && n <= |sts|
    ensures var es := ListChunks(base, sts, errs, keepIn, n);
            Sorted(es) && forall i :: 0 <= i < |es| ==> base <= es[i].chunk < base + n
  {
    if n > 0 {
      ListIsSorted(base, sts, errs, keepIn, n - 1);
      BlocksAreSorted(base + n - 1, sts[n - 1], errs[n - 1], keepIn, |sts[n - 1]|);
      JoinIsSorted(ListChunks(base, sts, errs, keepIn, n - 1),
                   ListBlocks(base + n - 1, sts[n - 1], errs[n - 1], keepIn, |sts[n - 1]|), base + n - 1);
    }
  }

  lemma {:induction false} JoinIsSorted(a: seq<Entry>, b: seq<Entry>, chunk: nat)
    requires Sorted(a) && Sorted(b)
    requires (forall i :: 0 <= i < |a| ==> a[i].chunk < chunk) && (forall i :: 0 <= i < |b| ==> b[i].chunk == chunk)
    ensures Sorted(a + b)
  {
  }

  lemma {:induction false} BlockIsListed(chunk: nat, sts: seq<State>, errs: seq<real>, keepIn: bool, n: nat, e: Entry)
    requires n <= |sts| == |errs|
    ensures e in ListBlocks(chunk, sts, errs, keepIn, n) <==>
            e.chunk == chunk && e.block < n && e.state == sts[e.block] && e.eps == errs[e.block] && IsListed(e.state, keepIn)
  {
    if n > 0 { BlockIsListed(chunk, sts, errs, keepIn, n - 1, e); }
  }

  /** Exactly the MAYBE blocks, and the IN ones if asked, are listed, each with its own
    * state and error bound. */
  lemma {:induction false} ListIsExact(base: nat, sts: seq<seq<State>>, errs: seq<seq<real>>, keepIn: bool, n: nat, e: Entry)
    requires SameShape(sts, errs) && n <= |sts|
    ensures e in ListChunks(base, sts, errs, keepIn, n) <==>
            && base <= e.chunk < base + n && e.block < |sts[e.chunk - base]|
            && e.state == sts[e.chunk - base][e.block] && e.eps == errs[e.chunk - base][e.block]
            && IsListed(e.state, keepIn)
    decreases n
  {
    if n > 0 {
      ListIsExact(base, sts, errs, keepIn, n - 1, e);
      BlockIsListed(base + n - 1, sts[n - 1], errs[n - 1], keepIn, |sts[n - 1]|, e);
    }
  }

  // ---- counts ----

  function Count(sts: seq<State>, s: State): nat {
    if sts == [] then 0 else Count(sts[..|sts| - 1], s) + if sts[|sts| - 1] == s then 1 else 0
  }

  function CountAll(rows: seq<seq<State>>, s: State, n: nat): nat
    requires n <= |rows|
  {
    if n == 0 then 0 else CountAll(rows, s, n - 1) + Count(rows[n - 1], s)
  }

  function Total(rows: seq<seq<State>>, n: nat): nat
    requires n <= |rows|
  {
    if n == 0 then 0 else Total(rows, n - 1) + |rows[n - 1]|
  }

  lemma {:induction false} BlockCounts(chunk: nat, sts: seq<State>, errs: seq<real>, keepIn: bool, n: nat)
    requires n <= |sts| == |errs|
    ensures var k := |ListBlocks(chunk, sts, errs, keepIn, n)|;
            var front := sts[..n];
            && k == Count(front, Maybe) + (if keepIn then Count(front, In) else 0)
            && Count(front, Maybe) + Count(front, In) + Count(front, Out) == n
  {
    if n > 0 {
      BlockCounts(chunk, sts, errs, keepIn, n - 1);
      assert sts[..n][..n - 1] == sts[..n - 1];
    }
  }

  /** Listed, IN and OUT blocks add up to all of them. */
  lemma {:induction false} CountsAddUp(base: nat, sts: seq<seq<State>>, errs: seq<seq<real>>, keepIn: bool, n: nat)
    requires SameShape(sts, errs) && n <= |sts|
    ensures var k := |ListChunks(base, sts, errs, keepIn, n)|;
            k + CountAll(sts, Out, n) + (if keepIn then 0 else CountAll(sts, In, n)) == Total(sts, n)
  {
    if n > 0 {
      CountsAddUp(base, sts, errs, keepIn, n - 1);
      var row := sts[n - 1];
      BlockCounts(base + n - 1, row, errs[n - 1], keepIn, |row|);
      assert row[..|row|] == row;
    }
  }

  // ---- lists of consecutive slabs ----

  /** chunk_ids += d */
  function Shifted(es: seq<Entry>, d: nat): (r: seq<Entry>)
    ensures |r| == |es| && forall i :: 0 <= i < |es| ==> r[i] == es[i].(chunk := es[i].chunk + d)
  {
    if es == [] then [] else Shifted(es[..|es| - 1], d) + [es[|es| - 1].(chunk := es[|es| - 1].chunk + d)]
  }

  lemma {:induction false} BlocksShift(chunk: nat, d: nat, sts: seq<State>, errs: seq<real>, keepIn: bool, n: nat)
    requires n <= |sts| == |errs|
    ensures Shifted(ListBlocks(chunk, sts, errs, keepIn, n), d) == ListBlocks(chunk + d, sts, errs, keepIn, n)
  {
    if n > 0 {
      BlocksShift(chunk, d, sts, errs, keepIn, n - 1);
      NextShifts(ListBlocks(chunk, sts, errs, keepIn, n - 1), ListBlocks(chunk, sts, errs, keepIn, n),
                 ListBlocks(chunk + d, sts, errs, keepIn, n - 1), ListBlocks(chunk + d, sts, errs, keepIn, n),
                 Entry(chunk, n - 1, sts[n - 1], errs[n - 1]), d, IsListed(sts[n - 1], keepIn));
    }
  }

  lemma {:induction false} NextShifts(a: seq<Entry>, b: seq<Entry>, s: seq<Entry>, t: seq<Entry>, e: Entry, d: nat, listed: bool)
    requires Shifted(a, d) == s && b == if listed then a + [e] else a
    requires t == if listed then s + [e.(chunk := e.chunk + d)] else s
    ensures Shifted(b, d) == t
  {
    if listed {
      assert b[..|a|] == a;
    }
  }

  lemma {:induction false} ShiftedAppend(a: seq<Entry>, b: seq<Entry>, d: nat)
    ensures Shifted(a + b, d) == Shifted(a, d) + Shifted(b, d)
  {
  }

  lemma {:induction false} ListShifts(base: nat, d: nat, sts: seq<seq<State>>, errs: seq<seq<real>>, keepIn: bool, n: nat)
    requires SameShape(sts, errs) && n <= |sts|
    ensures Shifted(ListChunks(base, sts, errs, keepIn, n), d) == ListChunks(base + d, sts, errs, keepIn, n)
    decreases n
  {
    if n > 0 {
      ListShifts(base, d, sts, errs, keepIn, n - 1);
      ChunkShifts(base, d, sts, errs, keepIn, n - 1, n, sts[n - 1], errs[n - 1]);
    }
  }

  lemma {:induction false} ChunkShifts(base: nat, d: nat, sts: seq<seq<State>>, errs: seq<seq<real>>, keepIn: bool, c: nat, n: nat, row: seq<State>, er: seq<real>)
    requires SameShape(sts, errs) && c < |sts| && n == c + 1 && row == sts[c] && er == errs[c]
    requires Shifted(ListChunks(base, sts, errs, keepIn, c), d) == ListChunks(base + d, sts, errs, keepIn, c)
    ensures Shifted(ListChunks(base, sts, errs, keepIn, n), d) == ListChunks(base + d, sts, errs, keepIn, n)
  {
    BlocksShift(base + c, d, row, er, keepIn, |row|);
    ShiftedAppend(ListChunks(base, sts, errs, keepIn, c), ListBlocks(base + c, row, er, keepIn, |row|), d);
  }

  /** Rows a and b are rows d, d + 1, ... of sts and errs. */
  ghost predicate Stretch(sts: seq<seq<State>>, errs: seq<seq<real>>, d: nat, a: seq<seq<State>>, b: seq<seq<real>>) {
    && SameShape(sts, errs) && SameShape(a, b) && d + |a| <= |sts|
    && forall c :: 0 <= c < |a| ==> a[c] == sts[d + c] && b[c] == errs[d + c]
  }

  lemma {:induction false} ListContinues(sts: seq<seq<State>>, errs: seq<seq<real>>, d: nat, a: seq<seq<State>>, b: seq<seq<real>>,
                                         keepIn: bool, n: nat)
    requires Stretch(sts, errs, d, a, b) && n <= |a|
    ensures ListChunks(0, sts, errs, keepIn, d + n) == ListChunks(0, sts, errs, keepIn, d) + ListChunks(d, a, b, keepIn, n)
    decreases n
  {
    if n > 0 {
      ListContinues(sts, errs, d, a, b, keepIn, n - 1);
      assert a[n - 1] == sts[d + n - 1] && b[n - 1] == errs[d + n - 1];
    }
  }

  lemma {:induction false} CountContinues(sts: seq<seq<State>>, d: nat, a: seq<seq<State>>, s: State, n: nat)
    requires d + |a| <= |sts| && (forall c :: 0 <= c < |a| ==> a[c] == sts[d + c]) && n <= |a|
    ensures CountAll(sts, s, d + n) == CountAll(sts, s, d) + CountAll(a, s, n)
    decreases n
  {
    if n > 0 {
      CountContinues(sts, d, a, s, n - 1);
      assert a[n - 1] == sts[d + n - 1];
    }
  }

  // ---- units and chunks ----

  /** ux * uy * uz units, sx * sy * sz of them in a chunk, blocks per unit. */
  datatype Grid = Grid(ux: nat, uy: nat, uz: nat, sx: nat, sy: nat, sz: nat, blocks: nat)
  {
    predicate Valid() {
      && sx > 0 && sy > 0 && sz > 0 && blocks > 0
      && ux % sx == 0 && uy % sy == 0 && uz % sz == 0
      && uy > 0 && uz > 0
    }

    function Gx(): nat requires Valid() { ux / sx }
    function Gy(): nat requires Valid() { uy / sy }
    function Gz(): nat requires Valid() { uz / sz }
    function Units(): nat { ux * uy * uz }
    function Subs(): nat { sx * sy * sz }
    function Chunks(): nat requires Valid() { Gx() * Gy() * Gz() }
  }

  lemma {:induction false} Divides(x: nat, n: nat)
    requires n > 0 && x % n == 0
    ensures x == (x / n) * n && (x > 0 ==> x / n > 0)
  {
    SplitPairs(x, n);
  }

  lemma {:induction false} GridFacts(g: Grid)
    requires g.Valid()
    ensures g.ux == g.Gx() * g.sx && g.uy == g.Gy() * g.sy && g.uz == g.Gz() * g.sz
    ensures g.Gy() > 0 && g.Gz() > 0
  {
    Divides(g.ux, g.sx);
    Divides(g.uy, g.sy);
    Divides(g.uz, g.sz);
  }

  /** The unit that is number sub of chunk cid. */
  function Uid(g: Grid, cid: nat, sub: nat): nat
    requires g.Valid() && g.Gy() > 0 && g.Gz() > 0
  {
    Flat(Pair(First(cid, g.Gy(), g.Gz()), g.sx, First(sub, g.sy, g.sz)),
         Pair(Second(cid, g.Gy(), g.Gz()), g.sy, Second(sub, g.sy, g.sz)),
         Pair(Third(cid, g.Gz()), g.sz, Third(sub, g.sz)), g.uy, g.uz)
  }

  function ChunkOf(g: Grid, uid: nat): nat
    requires g.Valid()
  {
    Flat(High(First(uid, g.uy, g.uz), g.sx), High(Second(uid, g.uy, g.uz), g.sy), High(Third(uid, g.uz), g.sz), g.Gy(), g.Gz())
  }

  function SubOf(g: Grid, uid: nat): nat
    requires g.Valid()
  {
    Flat(Low(First(uid, g.uy, g.uz), g.sx), Low(Second(uid, g.uy, g.uz), g.sy), Low(Third(uid, g.uz), g.sz), g.sy, g.sz)
  }

  lemma {:induction false} UidBelow(g: Grid, cid: nat, sub: nat)
    requires g.Valid() && cid < g.Chunks() && sub < g.Subs()
    ensures g.Gy() > 0 && g.Gz() > 0 && Uid(g, cid, sub) < g.Units()
  {
    GridFacts(g);
    SplitFlats(cid, g.Gx(), g.Gy(), g.Gz());
    SplitFlats(sub, g.sx, g.sy, g.sz);
    PairBelow(First(cid, g.Gy(), g.Gz()), g.Gx(), First(sub, g.sy, g.sz), g.sx);
    PairBelow(Second(cid, g.Gy(), g.Gz()), g.Gy(), Second(sub, g.sy, g.sz), g.sy);
    PairBelow(Third(cid, g.Gz()), g.Gz(), Third(sub, g.sz), g.sz);
    FlatBelow(Pair(First(cid, g.Gy(), g.Gz()), g.sx, First(sub, g.sy, g.sz)),
              Pair(Second(cid, g.Gy(), g.Gz()), g.sy, Second(sub, g.sy, g.sz)),
              Pair(Third(cid, g.Gz()), g.sz, Third(sub, g.sz)), g.ux, g.uy, g.uz);
  }

  /** No two (chunk, sub) pairs share a unit... */
  lemma {:induction false} UidIsInjective(g: Grid, cid: nat, sub: nat)
    requires g.Valid() && cid < g.Chunks() && sub < g.Subs()
    ensures g.Gy() > 0 && g.Gz() > 0
    ensures ChunkOf(g, Uid(g, cid, sub)) == cid && SubOf(g, Uid(g, cid, sub)) == sub
  {
    GridFacts(g);
    var (a, b, c) := (First(cid, g.Gy(), g.Gz()), Second(cid, g.Gy(), g.Gz()), Third(cid, g.Gz()));
    var (i, j, k) := (First(sub, g.sy, g.sz), Second(sub, g.sy, g.sz), Third(sub, g.sz));
    SplitFlats(cid, g.Gx(), g.Gy(), g.Gz());
    SplitFlats(sub, g.sx, g.sy, g.sz);
    PairBelow(b, g.Gy(), j, g.sy);
    PairBelow(c, g.Gz(), k, g.sz);
    FlatSplits(Pair(a, g.sx, i), Pair(b, g.sy, j), Pair(c, g.sz, k), g.uy, g.uz);
    PairSplits(a, g.sx, i);
    PairSplits(b, g.sy, j);
    PairSplits(c, g.sz, k);
  }

  /** ...and every unit belongs to one. */
  lemma {:induction false} UidIsSurjective(g: Grid, uid: nat)
    requires g.Valid() && uid < g.Units()
    ensures ChunkOf(g, uid) < g.Chunks() && SubOf(g, uid) < g.Subs()
    ensures g.Gy() > 0 && g.Gz() > 0 && Uid(g, ChunkOf(g, uid), SubOf(g, uid)) == uid
  {
    GridFacts(g);
    SplitFlats(uid, g.ux, g.uy, g.uz);
    AxisSplits(First(uid, g.uy, g.uz), g.Gx(), g.sx);
    AxisSplits(Second(uid, g.uy, g.uz), g.Gy(), g.sy);
    AxisSplits(Third(uid, g.uz), g.Gz(), g.sz);
    UidOf(g, High(First(uid, g.uy, g.uz), g.sx), High(Second(uid, g.uy, g.uz), g.sy), High(Third(uid, g.uz), g.sz),
          Low(First(uid, g.uy, g.uz), g.sx), Low(Second(uid, g.uy, g.uz), g.sy), Low(Third(uid, g.uz), g.sz));
  }

  lemma {:induction false} AxisSplits(x: nat, n: nat, s: nat)
    requires s > 0 && x < n * s
    ensures High(x, s) < n && Low(x, s) < s && Pair(High(x, s), s, Low(x, s)) == x
  {
    SplitPairs(x, s);
    SplitBelow(x, n, s);
  }

  lemma {:induction false} UidOf(g: Grid, a: nat, b: nat, c: nat, i: nat, j: nat, k: nat)
    requires g.Valid() && g.Gy() > 0 && g.Gz() > 0
    requires a < g.Gx() && b < g.Gy() && c < g.Gz() && i < g.sx && j < g.sy && k < g.sz
    ensures var (cid, sub) := (Flat(a, b, c, g.Gy(), g.Gz()), Flat(i, j, k, g.sy, g.sz));
            && cid < g.Chunks() && sub < g.Subs()
            && Uid(g, cid, sub) == Flat(Pair(a, g.sx, i), Pair(b, g.sy, j), Pair(c, g.sz, k), g.uy, g.uz)
  {
    FlatBelow(a, b, c, g.Gx(), g.Gy(), g.Gz());
    FlatBelow(i, j, k, g.sx, g.sy, g.sz);
    FlatSplits(a, b, c, g.Gy(), g.Gz());
    FlatSplits(i, j, k, g.sy, g.sz);
  }

  /** Chunks are numbered in the lexicographic order of their places in the array, and the
    * units of a chunk in the order of their own numbers. */
  lemma {:induction false} UidIsOrdered(g: Grid, cid: nat, sub: nat, did: nat, tub: nat, u: nat, v: nat)
    requires g.Valid() && cid < g.Chunks() && sub < g.Subs() && did < g.Chunks() && tub < g.Subs() && g.Gy() > 0 && g.Gz() > 0
    requires u == Uid(g, cid, sub) && v == Uid(g, did, tub)
    ensures cid < did <==> Precedes(High(First(u, g.uy, g.uz), g.sx), High(Second(u, g.uy, g.uz), g.sy), High(Third(u, g.uz), g.sz),
                                    High(First(v, g.uy, g.uz), g.sx), High(Second(v, g.uy, g.uz), g.sy), High(Third(v, g.uz), g.sz))
    ensures cid == did ==> (sub < tub <==> u < v)
  {
    UidSplits(g, cid, sub, u);
    UidSplits(g, did, tub, v);
    ChunksOrdered(g, cid, did);
    if cid == did {
      SubsOrdered(g, cid, sub, tub);
    }
  }

  /** The coordinates of a unit are those of its chunk and of its place in the chunk. */
  lemma {:induction false} UidSplits(g: Grid, cid: nat, sub: nat, u: nat)
    requires g.Valid() && cid < g.Chunks() && sub < g.Subs() && g.Gy() > 0 && g.Gz() > 0 && u == Uid(g, cid, sub)
    ensures High(First(u, g.uy, g.uz), g.sx) == First(cid, g.Gy(), g.Gz()) && High(Second(u, g.uy, g.uz), g.sy) == Second(cid, g.Gy(), g.Gz())
    ensures High(Third(u, g.uz), g.sz) == Third(cid, g.Gz())
  {
    GridFacts(g);
    var (a, b, c) := (First(cid, g.Gy(), g.Gz()), Second(cid, g.Gy(), g.Gz()), Third(cid, g.Gz()));
    var (i, j, k) := (First(sub, g.sy, g.sz), Second(sub, g.sy, g.sz), Third(sub, g.sz));
    SplitFlats(cid, g.Gx(), g.Gy(), g.Gz());
    SplitFlats(sub, g.sx, g.sy, g.sz);
    PairBelow(b, g.Gy(), j, g.sy);
    PairBelow(c, g.Gz(), k, g.sz);
    FlatSplits(Pair(a, g.sx, i), Pair(b, g.sy, j), Pair(c, g.sz, k), g.uy, g.uz);
    PairSplits(a, g.sx, i);
    PairSplits(b, g.sy, j);
    PairSplits(c, g.sz, k);
  }

  lemma {:induction false} ChunksOrdered(g: Grid, cid: nat, did: nat)
    requires g.Valid() && cid < g.Chunks() && did < g.Chunks() && g.Gy() > 0 && g.Gz() > 0
    ensures cid < did <==> Precedes(First(cid, g.Gy(), g.Gz()), Second(cid, g.Gy(), g.Gz()), Third(cid, g.Gz()),
                                    First(did, g.Gy(), g.Gz()), Second(did, g.Gy(), g.Gz()), Third(did, g.Gz()))
  {
    SplitFlats(cid, g.Gx(), g.Gy(), g.Gz());
    SplitFlats(did, g.Gx(), g.Gy(), g.Gz());
    FlatOrdered(First(cid, g.Gy(), g.Gz()), Second(cid, g.Gy(), g.Gz()), Third(cid, g.Gz()),
                First(did, g.Gy(), g.Gz()), Second(did, g.Gy(), g.Gz()), Third(did, g.Gz()), g.Gy(), g.Gz());
  }

  lemma {:induction false} SubsOrdered(g: Grid, cid: nat, sub: nat, tub: nat)
    requires g.Valid() && cid < g.Chunks() && sub < g.Subs() && tub < g.Subs() && g.Gy() > 0 && g.Gz() > 0
    ensures sub < tub <==> Uid(g, cid, sub) < Uid(g, cid, tub)
  {
    GridFacts(g);
    SplitFlats(cid, g.Gx(), g.Gy(), g.Gz());
    SplitFlats(sub, g.sx, g.sy, g.sz);
    SplitFlats(tub, g.sx, g.sy, g.sz);
    var (a, b, c) := (First(cid, g.Gy(), g.Gz()), Second(cid, g.Gy(), g.Gz()), Third(cid, g.Gz()));
    var (i, j, k) := (First(sub, g.sy, g.sz), Second(sub, g.sy, g.sz), Third(sub, g.sz));
    var (l, m, n) := (First(tub, g.sy, g.sz), Second(tub, g.sy, g.sz), Third(tub, g.sz));
    FlatOrdered(i, j, k, l, m, n, g.sy, g.sz);
    PairBelow(b, g.Gy(), j, g.sy);
    PairBelow(c, g.Gz(), k, g.sz);
    PairBelow(b, g.Gy(), m, g.sy);
    PairBelow(c, g.Gz(), n, g.sz);
    FlatOrdered(Pair(a, g.sx, i), Pair(b, g.sy, j), Pair(c, g.sz, k), Pair(a, g.sx, l), Pair(b, g.sy, m), Pair(c, g.sz, n), g.uy, g.uz);
  }
}
