/**
 * The Bruck allgather schedule for arbitrary per-rank counts: after the rounds
 * so far a rank holds the blocks of the next ranks, its own first; the last
 * round may be partial.
 */
module Bruck {
  import opened Actions
  import opened Fabric
  import opened Runs
  import opened Wilke
  import opened Chains
  import opened Buffers
  import opened Ranks

  /** `counts[r]` elements come from rank `r`; a partial last round is numbered `extra` higher. */
  datatype Setup = Setup(counts: seq<nat>, l: nat, extra: nat) {
    function N(): nat { |counts| }
  }

  predicate Ok(b: Setup) {
    b.N() >= 1 && Pow2(b.l) >= b.N() && (b.l > 0 ==> Pow2(b.l - 1) < b.N())
  }

  // ---------------------------------------------------------------- blocks in a row

  /** nelems_to_recv: the length of `g` consecutive ranks' blocks from rank `r` on. */
  function Prefix(b: Setup, r: nat, g: nat): nat
    requires b.N() > 0
  {
    if g == 0 then 0 else Prefix(b, r, g - 1) + b.counts[(r + g - 1) % b.N()]
  }

  /** Element `x` of the concatenation of `g` consecutive ranks' blocks from rank `r` on. */
  function Cat(b: Setup, r: nat, g: nat, x: nat): Option<Token>
    requires b.N() > 0
  {
    if g == 0 then None
    else if x < Prefix(b, r, g - 1) then Cat(b, r, g - 1, x)
    else if x < Prefix(b, r, g) then Some(Token((r + g - 1) % b.N(), x - Prefix(b, r, g - 1)))
    else None
  }

  lemma {:induction false} PrefixSplit(b: Setup, r: nat, g: nat, h: nat)
    requires b.N() > 0
    ensures Prefix(b, r, g + h) == Prefix(b, r, g) + Prefix(b, r + g, h)
  {
    if h > 0 {
      PrefixSplit(b, r, g, h - 1);
      assert r + (g + h) - 1 == (r + g) + h - 1;
    }
  }

  /** Ranks wrap around. */
  lemma {:induction false} Wraps(b: Setup, r: nat, g: nat, x: nat)
    requires b.N() > 0
    ensures Prefix(b, r + b.N(), g) == Prefix(b, r, g)
    ensures Cat(b, r + b.N(), g, x) == Cat(b, r, g, x)
  {
    if g > 0 {
      Wraps(b, r, g - 1, x);
      ModShift(b.N(), r + g - 1);
    }
  }

  lemma UpWraps(b: Setup, r: nat, p: nat, g: nat, x: nat)
    requires r < b.N() && p <= b.N()
    ensures Prefix(b, Up(b.N(), r, p), g) == Prefix(b, r + p, g)
    ensures Cat(b, Up(b.N(), r, p), g, x) == Cat(b, r + p, g, x)
  {
    Neighbours(b.N(), r, p);
    if r + p >= b.N() {
      Wraps(b, r + p - b.N(), g, x);
    }
  }

  /** From any rank, all ranks together hold the same total. */
  lemma {:induction false} TotalAnywhere(b: Setup, r: nat)
    requires b.N() > 0
    ensures Prefix(b, r, b.N()) == Prefix(b, 0, b.N())
  {
    if r > 0 {
      TotalAnywhere(b, r - 1);
      var n := b.N();
      PrefixSplit(b, r - 1, 1, n);
      PrefixSplit(b, r - 1, n, 1);
      Wraps(b, r - 1, 1, 0);
    }
  }

  lemma {:induction false} CatWithin(b: Setup, r: nat, g: nat, x: nat)
    requires b.N() > 0
    ensures Cat(b, r, g, x).Some? <==> x < Prefix(b, r, g)
  {
    if g > 0 {
      CatWithin(b, r, g - 1, x);
    }
  }

  /** A longer row begins with the shorter one. */
  lemma {:induction false} CatMore(b: Setup, r: nat, g: nat, h: nat, x: nat)
    requires b.N() > 0 && g <= h && x < Prefix(b, r, g)
    ensures Cat(b, r, h, x) == Cat(b, r, g, x) && x < Prefix(b, r, h)
    decreases h
  {
    if g < h {
      CatMore(b, r, g, h - 1, x);
    }
  }

  /** Past the first `g` blocks, the row continues with the row of rank `r + g`. */
  lemma {:induction false} CatSplit(b: Setup, r: nat, g: nat, h: nat, x: nat)
    requires b.N() > 0 && Prefix(b, r, g) <= x
    ensures Cat(b, r, g + h, x) == Cat(b, r + g, h, x - Prefix(b, r, g))
  {
    PrefixSplit(b, r, g, h);
    if h == 0 {
      CatWithin(b, r, g, x);
    } else {
      CatSplit(b, r, g, h - 1, x);
      PrefixSplit(b, r, g, h - 1);
      assert r + (g + h) - 1 == (r + g) + h - 1;
    }
  }

  lemma LastBlock(b: Setup, k: nat, j: nat)
    requires k < b.N() && j < b.counts[k]
    ensures Prefix(b, 0, k + 1) == Prefix(b, 0, k) + b.counts[k]
    ensures Cat(b, 0, k + 1, Prefix(b, 0, k) + j) == Some(Token(k, j))
  {
    ModOnce(b.N(), k);
    assert (0 + (k + 1) - 1) % b.N() == k;
  }

  /** In the row of all ranks from 0, block `k` starts where the blocks before it end. */
  lemma CatAt(b: Setup, k: nat, j: nat)
    requires k < b.N() && j < b.counts[k]
    ensures Prefix(b, 0, k) + j < Prefix(b, 0, b.N())
    ensures Cat(b, 0, b.N(), Prefix(b, 0, k) + j) == Some(Token(k, j))
  {
    hide Prefix, Cat;
    LastBlock(b, k, j);
    CatMore(b, 0, k + 1, b.N(), Prefix(b, 0, k) + j);
  }

  // ---------------------------------------------------------------- the rounds

  /** Blocks exchanged in round `s`: as many as there are, or what is missing. */
  function Gained(b: Setup, s: nat): nat {
    if Pow2(s) + Pow2(s) <= b.N() then Pow2(s) else if Pow2(s) <= b.N() then b.N() - Pow2(s) else 0
  }

  /** Blocks held before round `t`. */
  function Blocks(b: Setup, t: nat): nat {
    if Pow2(t) <= b.N() then Pow2(t) else b.N()
  }

  predicate Partial(b: Setup, s: nat) {
    s + 1 == b.l && Pow2(b.l) != b.N()
  }

  function RoundAt(b: Setup, s: nat): nat {
    if Partial(b, s) then s + b.extra else s
  }

  function StepAt(b: Setup, q: nat): nat {
    if q + 1 >= b.l >= 1 && Partial(b, b.l - 1) then (if q == b.l - 1 + b.extra then b.l - 1 else b.l) else q
  }

  function Sending(b: Setup, r: nat, s: nat): Action
    requires b.N() > 0
  {
    Action(SendInPlace, 0, Prefix(b, r, Gained(b, s)), map[])
  }

  function Receiving(b: Setup, r: nat, s: nat): Action
    requires b.N() > 0
  {
    Action(RecvInPlace, Prefix(b, r, Pow2(s)), Prefix(b, r + Pow2(s), Gained(b, s)), map[])
  }

  function Held(b: Setup, t: nat, r: nat, x: nat): Option<Token>
    requires b.N() > 0
  {
    Cat(b, r, Blocks(b, t), x)
  }

  ghost function Schedule(b: Setup): Chain
    requires Ok(b)
  {
    var n := b.N();
    Chain(n, b.l, b.l + b.extra,
          s => RoundAt(b, s), _ => 0, (id: Id) => StepAt(b, id.round), _ => false,
          (r: nat, s: nat) => if Pow2(s) <= n then Down(n, r, Pow2(s)) else 0,
          (r: nat, s: nat) => Up(n, r, Pow2(s)),
          (r: nat, s: nat) => Sending(b, r, s), (r: nat, s: nat) => Receiving(b, r, s),
          (_, _) => Action(Local, 0, 0, map[]),
          (t: nat, r: nat, x: nat) => Held(b, t, r, x), 0, 0, Prefix(b, 0, n), Datum)
  }

  lemma GapFits(b: Setup, s: nat)
    requires Ok(b) && s < b.l
    ensures 1 <= Pow2(s) < b.N() && 1 <= Gained(b, s) <= Pow2(s) && Pow2(s) + Gained(b, s) <= b.N()
    ensures Blocks(b, s) == Pow2(s) && Blocks(b, s + 1) == Pow2(s) + Gained(b, s)
  {
    Pow2Mono(s, b.l - 1);
  }

  lemma BlocksAtEnd(b: Setup)
    requires Ok(b)
    ensures Blocks(b, b.l) == b.N()
  {
  }

  lemma RoundsDistinct(b: Setup, s: nat)
    requires Ok(b) && s < b.l
    ensures StepAt(b, RoundAt(b, s)) == s && RoundAt(b, s) < b.l + b.extra
  {
  }

  lemma PlacedHere(b: Setup, r: nat, s: nat)
    requires Ok(b) && r < b.N() && s < b.l
    ensures Placed(Schedule(b), r, s)
  {
    hide Prefix, Cat, RoundAt, StepAt, Gained, Pow2, Up, Down;
    var n := b.N();
    var g := Pow2(s);
    var h := Gained(b, s);
    GapFits(b, s);
    RoundsDistinct(b, s);
    NeighboursMeet(n, r, g);
    UpWraps(b, r, g, h, 0);
    UpWraps(b, Down(n, r, g), g, h, 0);
    Fits(b, r, s);
  }

  /** A round's data fits the buffer, and what is received goes after what is sent. */
  lemma Fits(b: Setup, r: nat, s: nat)
    requires Ok(b) && r < b.N() && s < b.l
    ensures Prefix(b, r, Gained(b, s)) <= Prefix(b, r, Pow2(s))
    ensures Prefix(b, r, Pow2(s)) + Prefix(b, r + Pow2(s), Gained(b, s)) <= Prefix(b, 0, b.N())
  {
    hide Prefix, Gained, Pow2;
    var g := Pow2(s);
    var h := Gained(b, s);
    GapFits(b, s);
    PrefixSplit(b, r, h, g - h);
    PrefixSplit(b, r, g, h);
    PrefixSplit(b, r, g + h, b.N() - g - h);
    TotalAnywhere(b, r);
  }

  lemma FollowsHere(b: Setup, r: nat, s: nat, x: nat)
    requires Ok(b) && r < b.N() && s < b.l && x < Prefix(b, 0, b.N())
    ensures Follows(Schedule(b), r, s, x)
  {
    hide Prefix, Cat, Gained, Pow2, Blocks;
    var n := b.N();
    var g := Pow2(s);
    var h := Gained(b, s);
    GapFits(b, s);
    PrefixSplit(b, r, g, h);
    CatWithin(b, r, g + h, x);
    if x < Prefix(b, r, g) {
      CatMore(b, r, g, g + h, x);
    } else if x < Prefix(b, r, g + h) {
      var y := x - Prefix(b, r, g);
      CatSplit(b, r, g, h, x);
      CatMore(b, r + g, h, g, y);
      UpWraps(b, r, g, g, y);
    }
  }

  lemma ScheduleGood(b: Setup)
    requires Ok(b)
    ensures Good(Schedule(b))
  {
    hide Placed, Follows;
    forall r: nat, s: nat | r < b.N() && s < b.l ensures Placed(Schedule(b), r, s) {
      PlacedHere(b, r, s);
    }
    forall r: nat, s: nat, x: nat | r < b.N() && s < b.l && x < Prefix(b, 0, b.N())
      ensures Follows(Schedule(b), r, s, x)
    {
      FollowsHere(b, r, s, x);
    }
  }

  // ---------------------------------------------------------------- the result

  /** Every rank's buffer starts with its own block; the rest is arbitrary. */
  ghost predicate Inputs(b: Setup, mem: seq<seq<Val>>)
    requires b.N() > 0
  {
    && |mem| == b.N()
    && (forall r | 0 <= r < b.N() :: |mem[r]| == Prefix(b, 0, b.N()))
    && (forall r, j | 0 <= r < b.N() && 0 <= j < b.counts[r] && j < |mem[r]| :: mem[r][j] == multiset{Token(r, j)})
  }

  /** All ranks' blocks in rank order. */
  ghost predicate Gathered(b: Setup, m: seq<Val>)
    requires b.N() > 0
  {
    && |m| == Prefix(b, 0, b.N())
    && forall k: nat, j: nat | k < b.N() && j < b.counts[k] && Prefix(b, 0, k) + j < |m| ::
         m[Prefix(b, 0, k) + j] == multiset{Token(k, j)}
  }

  /** Rotating the row that starts at rank `r` gives the row that starts at rank 0. */
  lemma RotationOrders(b: Setup, r: nat, k: nat, j: nat)
    requires r < b.N() && k < b.N() && j < b.counts[k]
    ensures var total := Prefix(b, 0, b.N());
            var off := Prefix(b, 0, r);
            var y := Prefix(b, 0, k) + j;
            var x := if y >= off then y - off else total - off + y;
            && off <= total && y < total && x < total
            && Cat(b, r, b.N(), x) == Some(Token(k, j))
  {
    hide Prefix, Cat;
    var n := b.N();
    var off := Prefix(b, 0, r);
    var y := Prefix(b, 0, k) + j;
    CatAt(b, k, j);
    PrefixSplit(b, 0, r, n - r);
    TotalAnywhere(b, r);
    CatWithin(b, 0, n, y);
    if y >= off {
      CatSplit(b, 0, r, n - r, y);
      CatWithin(b, r, n - r, y - off);
      CatMore(b, r, n - r, n, y - off);
    } else {
      PrefixSplit(b, r, n - r, r);
      CatSplit(b, r, n - r, r, Prefix(b, r, n - r) + y);
      Wraps(b, 0, r, y);
      CatMore(b, 0, r, n, y);
      CatMore(b, r, n, n, Prefix(b, r, n - r) + y);
    }
  }

  lemma EndsGathered(b: Setup, r: nat, m: seq<Val>)
    requires Ok(b) && r < b.N() && |m| == Prefix(b, 0, b.N()) && Ends(Schedule(b), m, r)
    ensures Prefix(b, 0, r) <= |m| && Gathered(b, Rotated(m, Prefix(b, 0, r)))
  {
    hide Prefix, Cat, Ends;
    var n := b.N();
    var off := Prefix(b, 0, r);
    PrefixSplit(b, 0, r, n - r);
    BlocksAtEnd(b);
    var out := Rotated(m, off);
    forall k: nat, j: nat | k < n && j < b.counts[k] && Prefix(b, 0, k) + j < |m|
      ensures out[Prefix(b, 0, k) + j] == multiset{Token(k, j)}
    {
      RotationOrders(b, r, k, j);
      var y := Prefix(b, 0, k) + j;
      var x := if y >= off then y - off else |m| - off + y;
      assert out[y] == m[x];
      EndsAt(b, r, m, x);
    }
  }

  lemma EndsAt(b: Setup, r: nat, m: seq<Val>, x: nat)
    requires Ok(b) && r < b.N() && |m| == Prefix(b, 0, b.N()) && Ends(Schedule(b), m, r) && x < |m|
    ensures Cat(b, r, Blocks(b, b.l), x).Some? ==> m[x] == multiset{Cat(b, r, Blocks(b, b.l), x).value}
  {
    hide Prefix, Cat;
    assert Schedule(b).held(b.l, r, x) == Cat(b, r, Blocks(b, b.l), x);
  }

  lemma InputsStart(b: Setup, mem: seq<seq<Val>>)
    requires Ok(b) && Inputs(b, mem)
    ensures Starts(Schedule(b), mem)
  {
    hide Cat, Prefix;
    var c := Schedule(b);
    assert Blocks(b, 0) == 1;
    forall r: nat, x: nat | r < b.N() && x < c.size && c.held(0, r, x).Some?
      ensures mem[r][x] == multiset{c.held(0, r, x).value}
    {
      OwnBlock(b, r, x);
    }
  }

  lemma OwnBlock(b: Setup, r: nat, x: nat)
    requires r < b.N()
    ensures Cat(b, r, 1, x) == if x < b.counts[r] then Some(Token(r, x)) else None
  {
    ModOnce(b.N(), r);
    assert Prefix(b, r, 0) == 0 && Prefix(b, r, 1) == b.counts[(r + 1 - 1) % b.N()];
  }

  /**
   * Bruck allgather(v), for any counts (zero included), any number of ranks,
   * any protocol configuration and any order of events: the run is healthy,
   * and once a rank's actions are done, the final rotation leaves it the
   * blocks of all ranks in rank order.
   */
  lemma AllgatherCorrect(b: Setup, cfg: Config, mem: seq<seq<Val>>, es: seq<Event>)
    requires Ok(b) && Inputs(b, mem) && Execution(Prog(Schedule(b), cfg), mem, es)
    ensures Healthy(Prog(Schedule(b), cfg), mem, es)
    ensures var p := Prog(Schedule(b), cfg);
            var t := Outcome(p, mem, es);
            && p.n == b.N()
            && forall r: nat | r < b.N() && RankDone(p, t, r) ::
                 Prefix(b, 0, r) <= |t.mem[r]| && Gathered(b, Rotated(t.mem[r], Prefix(b, 0, r)))
  {
    hide Inputs, Prog, Execution, Outcome, Healthy, RankDone, Starts, Ends, Gathered, Good, Rotated, Prefix;
    InputsStart(b, mem);
    ScheduleGood(b);
    ChainRuns(Schedule(b), cfg, mem, es);
    var p := Prog(Schedule(b), cfg);
    var t := Outcome(p, mem, es);
    forall r: nat | r < b.N() && RankDone(p, t, r)
      ensures Prefix(b, 0, r) <= |t.mem[r]| && Gathered(b, Rotated(t.mem[r], Prefix(b, 0, r)))
    {
      EndsGathered(b, r, t.mem[r]);
    }
  }

  /** Every position of the row of all ranks belongs to some block. */
  lemma {:induction false} CatFinds(b: Setup, g: nat, x: nat) returns (k: nat, j: nat)
    requires 0 < g <= b.N() && x < Prefix(b, 0, g)
    ensures k < g && j < b.counts[k] && x == Prefix(b, 0, k) + j
  {
    if x < Prefix(b, 0, g - 1) {
      k, j := CatFinds(b, g - 1, x);
    } else {
      ModOnce(b.N(), g - 1);
      k, j := g - 1, x - Prefix(b, 0, g - 1);
    }
  }

  /** There is only one way to have gathered all blocks. */
  lemma GatheredUnique(b: Setup, m: seq<Val>, u: seq<Val>)
    requires b.N() > 0 && Gathered(b, m) && Gathered(b, u)
    ensures m == u
  {
    forall x: nat | x < |m| ensures m[x] == u[x] {
      var k, j := CatFinds(b, b.N(), x);
      GatheredAt(b, m, k, j);
      GatheredAt(b, u, k, j);
    }
  }

  lemma GatheredAt(b: Setup, m: seq<Val>, k: nat, j: nat)
    requires b.N() > 0 && Gathered(b, m) && k < b.N() && j < b.counts[k] && Prefix(b, 0, k) + j < |m|
    ensures m[Prefix(b, 0, k) + j] == multiset{Token(k, j)}
  {
    hide Prefix;
  }
}
