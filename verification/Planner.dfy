/** plan_blocks: classify every block, and list the ones a query reads in two passes;
  * and planning an array one slab of units at a time. */
module Planner {
  import opened MixedRadix
  import opened ZoneMap
  import opened Listing

  // ---- units in chunk order ----

  ghost predicate Shaped<T>(g: Grid, units: seq<seq<T>>) {
    g.Valid() && |units| == g.Units() && forall u :: 0 <= u < |units| ==> |units[u]| == g.blocks
  }

  /** The blocks of the first n units of a chunk. */
  ghost function Row<T>(g: Grid, units: seq<seq<T>>, cid: nat, n: nat): seq<T>
    requires Shaped(g, units) && cid < g.Chunks() && n <= g.Subs()
  {
    if n == 0 then []
    else
      UidBelow(g, cid, n - 1);
      Row(g, units, cid, n - 1) + units[Uid(g, cid, n - 1)]
  }

  lemma {:induction false} RowLength<T>(g: Grid, units: seq<seq<T>>, cid: nat, n: nat)
    requires Shaped(g, units) && cid < g.Chunks() && n <= g.Subs()
    ensures |Row(g, units, cid, n)| == n * g.blocks
  {
    if n > 0 {
      UidBelow(g, cid, n - 1);
      RowLength(g, units, cid, n - 1);
      Spread(n - 1, 1, g.blocks);
    }
  }

  /** The blocks of the first n chunks, chunk by chunk. */
  ghost function Rows<T>(g: Grid, units: seq<seq<T>>, n: nat): (r: seq<seq<T>>)
    requires Shaped(g, units) && n <= g.Chunks()
    ensures |r| == n && forall c :: 0 <= c < n ==> r[c] == Row(g, units, c, g.Subs())
    decreases n
  {
    if n == 0 then [] else Rows(g, units, n - 1) + [Row(g, units, n - 1, g.Subs())]
  }

  /** Block b of unit sub of a chunk is block sub * blocks + b of the chunk. */
  lemma {:induction false} RowAt<T>(g: Grid, units: seq<seq<T>>, cid: nat, n: nat, sub: nat, b: nat)
    requires Shaped(g, units) && cid < g.Chunks() && n <= g.Subs() && sub < n && b < g.blocks
    ensures g.Gy() > 0 && g.Gz() > 0 && Uid(g, cid, sub) < |units|
    ensures Pair(sub, g.blocks, b) < |Row(g, units, cid, n)|
    ensures Row(g, units, cid, n)[Pair(sub, g.blocks, b)] == units[Uid(g, cid, sub)][b]
  {
    UidBelow(g, cid, n - 1);
    RowLength(g, units, cid, n - 1);
    if sub < n - 1 {
      PairBelow(sub, n - 1, b, g.blocks);
      RowAt(g, units, cid, n - 1, sub, b);
    }
  }

  lemma {:induction false} RowsMatch(g: Grid, states: seq<seq<State>>, errs: seq<seq<real>>, n: nat)
    requires Shaped(g, states) && Shaped(g, errs) && n <= g.Chunks()
    ensures SameShape(Rows(g, states, n), Rows(g, errs, n))
  {
    forall c | 0 <= c < n ensures |Rows(g, states, n)[c]| == |Rows(g, errs, n)[c]| {
      RowLength(g, states, c, g.Subs());
      RowLength(g, errs, c, g.Subs());
    }
  }

  /** The plan of an array: what every unit's states and error bounds list. */
  ghost function Plan(g: Grid, states: seq<seq<State>>, errs: seq<seq<real>>, keepIn: bool): seq<Entry>
    requires Shaped(g, states) && Shaped(g, errs)
  {
    RowsMatch(g, states, errs, g.Chunks());
    ListChunks(0, Rows(g, states, g.Chunks()), Rows(g, errs, g.Chunks()), keepIn, g.Chunks())
  }

  /** A block is listed once, as block b of its unit's place in its chunk, with its own
    * state and error bound, exactly when its state asks for it. */
  lemma {:induction false} PlanListsBlock(g: Grid, states: seq<seq<State>>, errs: seq<seq<real>>, keepIn: bool, uid: nat, b: nat)
    requires Shaped(g, states) && Shaped(g, errs) && uid < |states| && b < g.blocks
    ensures Entry(ChunkOf(g, uid), Pair(SubOf(g, uid), g.blocks, b), states[uid][b], errs[uid][b]) in Plan(g, states, errs, keepIn)
        <==> IsListed(states[uid][b], keepIn)
  {
    UidIsSurjective(g, uid);
    PlanHas(g, states, errs, keepIn, ChunkOf(g, uid), SubOf(g, uid), b);
  }

  lemma {:induction false} PlanHas(g: Grid, states: seq<seq<State>>, errs: seq<seq<real>>, keepIn: bool, cid: nat, sub: nat, b: nat)
    requires Shaped(g, states) && Shaped(g, errs) && cid < g.Chunks() && sub < g.Subs() && b < g.blocks
    ensures g.Gy() > 0 && g.Gz() > 0 && Uid(g, cid, sub) < |states|
    ensures var u := Uid(g, cid, sub);
            Entry(cid, Pair(sub, g.blocks, b), states[u][b], errs[u][b]) in Plan(g, states, errs, keepIn) <==> IsListed(states[u][b], keepIn)
  {
    RowAt(g, states, cid, g.Subs(), sub, b);
    RowAt(g, errs, cid, g.Subs(), sub, b);
    PlanHasEntry(g, states, errs, keepIn, Entry(cid, Pair(sub, g.blocks, b), states[Uid(g, cid, sub)][b], errs[Uid(g, cid, sub)][b]));
  }

  /** The block at an entry's place of its chunk is listed exactly when its state asks for it. */
  lemma {:induction false} PlanHasEntry(g: Grid, states: seq<seq<State>>, errs: seq<seq<real>>, keepIn: bool, e: Entry)
    requires Shaped(g, states) && Shaped(g, errs) && e.chunk < g.Chunks()
    requires e.block < |Row(g, states, e.chunk, g.Subs())| && e.block < |Row(g, errs, e.chunk, g.Subs())|
    requires Row(g, states, e.chunk, g.Subs())[e.block] == e.state && Row(g, errs, e.chunk, g.Subs())[e.block] == e.eps
    ensures e in Plan(g, states, errs, keepIn) <==> IsListed(e.state, keepIn)
  {
    RowsMatch(g, states, errs, g.Chunks());
    ListIsExact(0, Rows(g, states, g.Chunks()), Rows(g, errs, g.Chunks()), keepIn, g.Chunks(), e);
  }

  /** Every entry is a block of a unit. */
  lemma {:induction false} PlanEntryIsBlock(g: Grid, states: seq<seq<State>>, errs: seq<seq<real>>, keepIn: bool, e: Entry)
    requires Shaped(g, states) && Shaped(g, errs) && e in Plan(g, states, errs, keepIn)
    ensures e.chunk < g.Chunks() && High(e.block, g.blocks) < g.Subs()
    ensures g.Gy() > 0 && g.Gz() > 0
    ensures var (uid, b) := (Uid(g, e.chunk, High(e.block, g.blocks)), Low(e.block, g.blocks));
            && uid < |states| && b < g.blocks && e.state == states[uid][b] && e.eps == errs[uid][b] && IsListed(e.state, keepIn)
  {
    RowsMatch(g, states, errs, g.Chunks());
    ListIsExact(0, Rows(g, states, g.Chunks()), Rows(g, errs, g.Chunks()), keepIn, g.Chunks(), e);
    RowLength(g, states, e.chunk, g.Subs());
    AxisSplits(e.block, g.Subs(), g.blocks);
    RowAt(g, states, e.chunk, g.Subs(), High(e.block, g.blocks), Low(e.block, g.blocks));
    RowAt(g, errs, e.chunk, g.Subs(), High(e.block, g.blocks), Low(e.block, g.blocks));
  }

  /** Block p of chunk c is block p % blocks of the unit at place p / blocks. */
  lemma {:induction false} BlockOfRow<T>(g: Grid, table: seq<seq<T>>, c: nat, p: nat)
    requires Shaped(g, table) && c < g.Chunks() && p < g.Subs() * g.blocks
    ensures g.Gy() > 0 && g.Gz() > 0 && Uid(g, c, High(p, g.blocks)) < |table| && Low(p, g.blocks) < g.blocks
    ensures p < |Row(g, table, c, g.Subs())| && Row(g, table, c, g.Subs())[p] == table[Uid(g, c, High(p, g.blocks))][Low(p, g.blocks)]
  {
    RowLength(g, table, c, g.Subs());
    AxisSplits(p, g.Subs(), g.blocks);
    RowAt(g, table, c, g.Subs(), High(p, g.blocks), Low(p, g.blocks));
  }

  // ---- slabs ----

  /** The units of a zone map object: n along the first axis, from u0 on. */
  function Slab<T>(g: Grid, units: seq<T>, u0: nat, n: nat): seq<T>
    requires |units| == g.Units() && u0 + n <= g.ux
  {
    PlanesFit(g, u0, n);
    units[u0 * g.uy * g.uz..(u0 + n) * g.uy * g.uz]
  }

  lemma {:induction false} PlanesFit(g: Grid, u0: nat, n: nat)
    requires u0 + n <= g.ux
    ensures 0 <= u0 * g.uy * g.uz <= (u0 + n) * g.uy * g.uz <= g.Units()
    ensures (u0 + n) * g.uy * g.uz == u0 * g.uy * g.uz + n * g.uy * g.uz
  {
    MulGrows(u0, u0 + n, g.uy);
    MulGrows(u0 + n, g.ux, g.uy);
    MulGrows(u0 * g.uy, (u0 + n) * g.uy, g.uz);
    MulGrows((u0 + n) * g.uy, g.ux * g.uy, g.uz);
    Spread(u0, n, g.uy);
    Spread(u0 * g.uy, n * g.uy, g.uz);
  }

  function SlabGrid(g: Grid, n: nat): Grid {
    g.(ux := n)
  }

  /** u0 // subs[0] * chunks_per_step */
  function ChunkShift(g: Grid, u0: nat): nat
    requires g.Valid()
  {
    High(u0, g.sx) * g.Gy() * g.Gz()
  }

  lemma {:induction false} SlabIsShaped<T>(g: Grid, units: seq<seq<T>>, u0: nat, n: nat)
    requires Shaped(g, units) && u0 + n <= g.ux && n % g.sx == 0
    ensures Shaped(SlabGrid(g, n), Slab(g, units, u0, n))
  {
    PlanesFit(g, u0, n);
  }

  lemma {:induction false} ChunksAdd(g: Grid, u0: nat, n: nat)
    requires g.Valid() && u0 + n <= g.ux && u0 % g.sx == 0 && n % g.sx == 0
    ensures ChunkShift(g, u0) + SlabGrid(g, n).Chunks() == ChunkShift(g, u0 + n) <= g.Chunks()
    ensures (u0 + n) % g.sx == 0
  {
    MultiplesAdd(u0, n, g.sx);
    Quotients(u0 + n, g.ux, g.sx);
    PlanesAdd(u0 / g.sx, n / g.sx, g.Gx(), g.Gy(), g.Gz());
  }

  lemma {:induction false} MultiplesAdd(x: nat, y: nat, n: nat)
    requires n > 0 && x % n == 0 && y % n == 0
    ensures (x + y) % n == 0 && (x + y) / n == x / n + y / n
  {
    Divides(x, n);
    Divides(y, n);
    Spread(x / n, y / n, n);
    PairSplits(x / n + y / n, n, 0);
  }

  lemma {:induction false} PlanesAdd(p: nat, q: nat, x: nat, y: nat, z: nat)
    requires p + q <= x
    ensures p * y * z + q * y * z == (p + q) * y * z <= x * y * z
  {
    Spread(p, q, y);
    Spread(p * y, q * y, z);
    MulGrows(p + q, x, y);
    MulGrows((p + q) * y, x * y, z);
  }

  lemma {:induction false} Quotients(x: nat, y: nat, n: nat)
    requires n > 0 && x <= y
    ensures x / n <= y / n
  {
    SplitPairs(x, n);
    SplitPairs(y, n);
    if y / n < x / n {
      MulGrows(y / n + 1, x / n, n);
      Spread(y / n, 1, n);
    }
  }

  /** The units of a slab's chunk are those of the shifted chunk of the array. */
  lemma {:induction false} SlabUid(g: Grid, u0: nat, n: nat, cid: nat, sub: nat)
    requires g.Valid() && u0 + n <= g.ux && u0 % g.sx == 0 && n % g.sx == 0
    requires cid < SlabGrid(g, n).Chunks() && sub < g.Subs()
    ensures g.Gy() > 0 && g.Gz() > 0
    ensures Uid(g, cid + ChunkShift(g, u0), sub) == Uid(SlabGrid(g, n), cid, sub) + u0 * g.uy * g.uz
  {
    GridFacts(g);
    var p := u0 / g.sx;
    Divides(u0, g.sx);
    var (a, b, c) := (First(cid, g.Gy(), g.Gz()), Second(cid, g.Gy(), g.Gz()), Third(cid, g.Gz()));
    SplitFlats(cid, SlabGrid(g, n).Gx(), g.Gy(), g.Gz());
    FlatShifts(a, p, b, c, g.Gy(), g.Gz());
    FlatSplits(a + p, b, c, g.Gy(), g.Gz());
    ShiftedUnit(g, p, a, b, c, First(sub, g.sy, g.sz), Second(sub, g.sy, g.sz), Third(sub, g.sz));
  }

  lemma {:induction false} ShiftedUnit(g: Grid, p: nat, a: nat, b: nat, c: nat, i: nat, j: nat, k: nat)
    ensures Flat(Pair(a + p, g.sx, i), Pair(b, g.sy, j), Pair(c, g.sz, k), g.uy, g.uz)
         == Flat(Pair(a, g.sx, i), Pair(b, g.sy, j), Pair(c, g.sz, k), g.uy, g.uz) + p * g.sx * g.uy * g.uz
  {
    Spread(a, p, g.sx);
    FlatShifts(Pair(a, g.sx, i), p * g.sx, Pair(b, g.sy, j), Pair(c, g.sz, k), g.uy, g.uz);
  }

  lemma {:induction false} SlabUnit<T>(g: Grid, units: seq<seq<T>>, u0: nat, n: nat, cid: nat, sub: nat, c: nat)
    requires Shaped(g, units) && u0 + n <= g.ux && u0 % g.sx == 0 && n % g.sx == 0
    requires cid < SlabGrid(g, n).Chunks() && sub < g.Subs() && c == cid + ChunkShift(g, u0) < g.Chunks()
    ensures g.Gy() > 0 && g.Gz() > 0 && Uid(g, c, sub) < |units| && Uid(SlabGrid(g, n), cid, sub) < |Slab(g, units, u0, n)|
    ensures Slab(g, units, u0, n)[Uid(SlabGrid(g, n), cid, sub)] == units[Uid(g, c, sub)]
  {
    SlabUid(g, u0, n, cid, sub);
    UidBelow(SlabGrid(g, n), cid, sub);
    UidBelow(g, c, sub);
    PlanesFit(g, u0, n);
  }

  lemma {:induction false} SlabRow<T>(g: Grid, units: seq<seq<T>>, u0: nat, n: nat, cid: nat, k: nat, c: nat)
    requires Shaped(g, units) && u0 + n <= g.ux && u0 % g.sx == 0 && n % g.sx == 0
    requires cid < SlabGrid(g, n).Chunks() && k <= g.Subs() && c == cid + ChunkShift(g, u0) < g.Chunks()
    requires Shaped(SlabGrid(g, n), Slab(g, units, u0, n))
    ensures Row(SlabGrid(g, n), Slab(g, units, u0, n), cid, k) == Row(g, units, c, k)
    decreases k
  {
    if k > 0 {
      SlabRow(g, units, u0, n, cid, k - 1, c);
      SlabUnit(g, units, u0, n, cid, k - 1, c);
    }
  }

  /** A slab's chunks are a stretch of the array's. */
  lemma {:induction false} SlabRows<T>(g: Grid, units: seq<seq<T>>, u0: nat, u1: nat, n: nat)
    requires Shaped(g, units) && u0 + n == u1 <= g.ux && u0 % g.sx == 0 && n % g.sx == 0
    ensures Shaped(SlabGrid(g, n), Slab(g, units, u0, n))
    ensures ChunkShift(g, u0) + SlabGrid(g, n).Chunks() == ChunkShift(g, u1) <= g.Chunks()
    ensures forall c :: 0 <= c < SlabGrid(g, n).Chunks() ==>
              Rows(SlabGrid(g, n), Slab(g, units, u0, n), SlabGrid(g, n).Chunks())[c] == Rows(g, units, g.Chunks())[ChunkShift(g, u0) + c]
  {
    SlabIsShaped(g, units, u0, n);
    ChunksAdd(g, u0, n);
    forall c | 0 <= c < SlabGrid(g, n).Chunks()
      ensures Rows(SlabGrid(g, n), Slab(g, units, u0, n), SlabGrid(g, n).Chunks())[c] == Rows(g, units, g.Chunks())[ChunkShift(g, u0) + c]
    {
      SlabRow(g, units, u0, n, c, g.Subs(), c + ChunkShift(g, u0));
    }
  }

  /** The plan of one zone map object, with its chunk ids shifted into the array. */
  ghost function SlabPlan(g: Grid, states: seq<seq<State>>, errs: seq<seq<real>>, keepIn: bool, u0: nat, n: nat): seq<Entry>
    requires Shaped(g, states) && Shaped(g, errs) && u0 + n <= g.ux && n % g.sx == 0
  {
    SlabIsShaped(g, states, u0, n);
    SlabIsShaped(g, errs, u0, n);
    Shifted(Plan(SlabGrid(g, n), Slab(g, states, u0, n), Slab(g, errs, u0, n), keepIn), ChunkShift(g, u0))
  }

  function Smaller(a: nat, b: nat): nat {
    if a < b then a else b
  }

  /** Objects of t units along the first axis: object i starts at unit i * t. */
  function ObjectStart(g: Grid, t: nat, i: nat): nat {
    Smaller(i * t, g.ux)
  }

  lemma {:induction false} ObjectIsWhole(g: Grid, t: nat, i: nat)
    requires g.Valid() && t % g.sx == 0
    ensures ObjectStart(g, t, i) <= ObjectStart(g, t, i + 1) <= g.ux
    ensures ObjectStart(g, t, i) % g.sx == 0
    ensures (ObjectStart(g, t, i + 1) - ObjectStart(g, t, i)) % g.sx == 0
  {
    Spread(i, 1, t);
    MultipleOf(i, t, g.sx);
    MultipleOf(i + 1, t, g.sx);
    var a, b := ObjectStart(g, t, i), ObjectStart(g, t, i + 1);
    Divides(a, g.sx);
    Divides(b, g.sx);
    Quotients(a, b, g.sx);
    MulDifference(b / g.sx, a / g.sx, g.sx);
    PairSplits(b / g.sx - a / g.sx, g.sx, 0);
  }

  lemma {:induction false} MultipleOf(i: nat, t: nat, n: nat)
    requires n > 0 && t % n == 0
    ensures (i * t) % n == 0
  {
    Divides(t, n);
    var k := t / n;
    assert i * t == (i * k) * n;
    PairSplits(i * k, n, 0);
  }

  /** Object i on its own, as the pipelined query plans it. */
  ghost function ObjectPlan(g: Grid, states: seq<seq<State>>, errs: seq<seq<real>>, keepIn: bool, t: nat, i: nat): seq<Entry>
    requires Shaped(g, states) && Shaped(g, errs) && t % g.sx == 0
  {
    ObjectIsWhole(g, t, i);
    var u0, u1 := ObjectStart(g, t, i), ObjectStart(g, t, i + 1);
    SlabPlan(g, states, errs, keepIn, u0, u1 - u0)
  }

  /** The plans of the first k objects, one after another. */
  ghost function ObjectPlans(g: Grid, states: seq<seq<State>>, errs: seq<seq<real>>, keepIn: bool, t: nat, k: nat): seq<Entry>
    requires Shaped(g, states) && Shaped(g, errs) && t % g.sx == 0
  {
    if k == 0 then []
    else ObjectPlans(g, states, errs, keepIn, t, k - 1) + ObjectPlan(g, states, errs, keepIn, t, k - 1)
  }

  /** The list of the first n chunks. */
  ghost function PlanTo(g: Grid, states: seq<seq<State>>, errs: seq<seq<real>>, keepIn: bool, n: nat): seq<Entry>
    requires Shaped(g, states) && Shaped(g, errs) && n <= g.Chunks()
  {
    RowsMatch(g, states, errs, g.Chunks());
    ListChunks(0, Rows(g, states, g.Chunks()), Rows(g, errs, g.Chunks()), keepIn, n)
  }

  /** A slab's plan continues the plan of the chunks before it. */
  lemma {:induction false} SlabPlanContinues(g: Grid, states: seq<seq<State>>, errs: seq<seq<real>>, keepIn: bool, u0: nat, u1: nat, n: nat)
    requires Shaped(g, states) && Shaped(g, errs) && u0 + n == u1 <= g.ux && u0 % g.sx == 0 && n % g.sx == 0
    ensures ChunkShift(g, u0) <= ChunkShift(g, u1) <= g.Chunks()
    ensures PlanTo(g, states, errs, keepIn, ChunkShift(g, u1)) ==
            PlanTo(g, states, errs, keepIn, ChunkShift(g, u0)) + SlabPlan(g, states, errs, keepIn, u0, n)
  {
    SlabRows(g, states, u0, u1, n);
    SlabRows(g, errs, u0, u1, n);
    RowsMatch(g, states, errs, g.Chunks());
    var s := SlabGrid(g, n);
    RowsMatch(s, Slab(g, states, u0, n), Slab(g, errs, u0, n), s.Chunks());
    Glue(Rows(g, states, g.Chunks()), Rows(g, errs, g.Chunks()), ChunkShift(g, u0),
         Rows(s, Slab(g, states, u0, n), s.Chunks()), Rows(s, Slab(g, errs, u0, n), s.Chunks()), keepIn, s.Chunks());
  }

  lemma {:induction false} Glue(rs: seq<seq<State>>, es: seq<seq<real>>, d: nat, a: seq<seq<State>>, b: seq<seq<real>>, keepIn: bool, n: nat)
    requires Stretch(rs, es, d, a, b) && n == |a|
    ensures ListChunks(0, rs, es, keepIn, d + n) ==
            ListChunks(0, rs, es, keepIn, d) + Shifted(ListChunks(0, a, b, keepIn, n), d)
  {
    ListContinues(rs, es, d, a, b, keepIn, n);
    ListShifts(0, d, a, b, keepIn, n);
  }

  /** The first chunk of object k. */
  function ObjectChunk(g: Grid, t: nat, k: nat): nat
    requires g.Valid()
  {
    ChunkShift(g, ObjectStart(g, t, k))
  }

  lemma {:induction false} ObjectPlanContinues(g: Grid, states: seq<seq<State>>, errs: seq<seq<real>>, keepIn: bool, t: nat, k: nat, d: nat, c: nat)
    requires Shaped(g, states) && Shaped(g, errs) && t % g.sx == 0
    requires d == ObjectChunk(g, t, k) && c == ObjectChunk(g, t, k + 1)
    ensures d <= c <= g.Chunks()
    ensures PlanTo(g, states, errs, keepIn, c) == PlanTo(g, states, errs, keepIn, d) + ObjectPlan(g, states, errs, keepIn, t, k)
  {
    ObjectIsWhole(g, t, k);
    var u0, u1 := ObjectStart(g, t, k), ObjectStart(g, t, k + 1);
    SlabPlanContinues(g, states, errs, keepIn, u0, u1, u1 - u0);
  }

  lemma {:induction false} ObjectPlansArePrefix(g: Grid, states: seq<seq<State>>, errs: seq<seq<real>>, keepIn: bool, t: nat, k: nat, c: nat)
    requires Shaped(g, states) && Shaped(g, errs) && t % g.sx == 0 && c == ObjectChunk(g, t, k)
    ensures c <= g.Chunks() && ObjectPlans(g, states, errs, keepIn, t, k) == PlanTo(g, states, errs, keepIn, c)
    decreases k
  {
    if k == 0 {
      FirstObject(g, t);
    } else {
      var d := ObjectChunk(g, t, k - 1);
      ObjectPlansArePrefix(g, states, errs, keepIn, t, k - 1, d);
      ObjectPlanContinues(g, states, errs, keepIn, t, k - 1, d, c);
    }
  }

  lemma {:induction false} FirstObject(g: Grid, t: nat)
    requires g.Valid()
    ensures ObjectChunk(g, t, 0) == 0
  {
    assert 0 / g.sx == 0;
  }

  /** Planning object by object and concatenating is planning the whole array, whenever
    * the objects cover whole chunks along the first axis. */
  lemma {:induction false} PipelinedPlanIsPlan(g: Grid, states: seq<seq<State>>, errs: seq<seq<real>>, keepIn: bool, t: nat, count: nat)
    requires Shaped(g, states) && Shaped(g, errs) && t % g.sx == 0 && count * t >= g.ux
    ensures ObjectPlans(g, states, errs, keepIn, t, count) == Plan(g, states, errs, keepIn)
  {
    ObjectPlansArePrefix(g, states, errs, keepIn, t, count, g.Chunks());
  }
}
