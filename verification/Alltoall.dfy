/**
 * The Bruck alltoall: in the round with gap 2^i the blocks whose index has bit
 * i set are packed, sent 2^i ranks up and unpacked into the same places.
 */
module Alltoall {
  import opened Actions
  import opened Fabric
  import opened Runs
  import opened Wilke
  import opened Chains
  import opened Ranks
  import opened Intervals

  /** `n` ranks with blocks of `nelems` elements, in `l` rounds. */
  datatype Setup = Setup(n: nat, l: nat, nelems: nat)

  predicate Ok(w: Setup) {
    w.n >= 1 && Pow2(w.l) >= w.n && (w.l > 0 ==> Pow2(w.l - 1) < w.n)
  }

  /** The size of the temporary buffers in blocks. */
  function Midpoint(w: Setup): nat {
    if w.l == 0 then 0 else Pow2(w.l - 1)
  }

  function RecvBase(w: Setup): nat { w.n * w.nelems }

  function SendBase(w: Setup): nat { RecvBase(w) + Midpoint(w) * w.nelems }

  function Size(w: Setup): (size: nat)
    ensures size >= RecvBase(w)
  {
    SendBase(w) + Midpoint(w) * w.nelems
  }

  function SentBlocks(w: Setup, i: nat): nat {
    if Pow2(i) <= w.n then NumSendBlocks(w.n, Pow2(i)) else 0
  }

  // ---------------------------------------------------------------- actions

  /** The result element that is packed into temporary element `z`. */
  function MainOf(w: Setup, i: nat, z: nat): nat
    requires w.nelems > 0
  {
    MainBlock(Pow2(i), ChunkOf(w.nelems, z)) * w.nelems + z % w.nelems
  }

  /** The temporary element that is unpacked into result element `x`. */
  function TempOf(w: Setup, i: nat, x: nat): nat
    requires w.nelems > 0
  {
    TempBlock(Pow2(i), ChunkOf(w.nelems, x)) * w.nelems + x % w.nelems
  }

  predicate IsPacked(w: Setup, i: nat, x: nat) {
    w.nelems > 0 && SendBase(w) <= x < SendBase(w) + SentBlocks(w, i) * w.nelems
  }

  predicate IsUnpacked(w: Setup, i: nat, x: nat) {
    w.nelems > 0 && x < RecvBase(w) && Selected(Pow2(i), ChunkOf(w.nelems, x))
  }

  /** The packing shuffle: temporary element to the result element it is copied from. */
  function ToTemp(w: Setup, i: nat): map<nat, nat> {
    map x: nat | 0 <= x < SendBase(w) + SentBlocks(w, i) * w.nelems && IsPacked(w, i, x) ::
      MainOf(w, i, x - SendBase(w))
  }

  /** The unpacking shuffle: moving result element to the temporary element it is copied from. */
  function FromTemp(w: Setup, i: nat): map<nat, nat> {
    map x: nat | 0 <= x < RecvBase(w) && IsUnpacked(w, i, x) :: RecvBase(w) + TempOf(w, i, x)
  }

  function ShuffleOf(w: Setup, i: nat, pack: bool): Action {
    Action(Local, Pow2(i), SentBlocks(w, i) * w.nelems, if pack then ToTemp(w, i) else FromTemp(w, i))
  }

  function ShuffleAt(w: Setup, s: nat): Action {
    ShuffleOf(w, s / 3, s % 3 == 0)
  }

  function StepAt(w: Setup, id: Id): nat {
    if id.kind.Shuffle? then (if id.partner <= 1 then 3 * id.round + 2 * id.partner else 3 * w.l) else 3 * id.round + 1
  }

  // ---------------------------------------------------------------- predictions

  function LowBits(j: nat, i: nat): (d: nat)
    ensures d <= j
  {
    ModAtMost(j, Pow2(i));
    j % Pow2(i)
  }

  lemma ModAtMost(j: nat, g: nat)
    requires g > 0
    ensures j % g <= j
  {
    if j < g {
      DivUnique(j, g, 0, j);
    }
  }

  /**
   * What block `j` of rank `r` holds before round `i`: it has moved up by the
   * bits of `j` below `i`, and started in the same place.  Elements are named
   * by the rank and the place they start from.
   */
  function Stage(w: Setup, i: nat, r: nat, j: nat, y: nat): Token
    requires j < w.n
  {
    Token(Down(w.n, r, LowBits(j, i)), j * w.nelems + y)
  }

  function MainHeld(w: Setup, i: nat, r: nat, x: nat): Option<Token> {
    var j := ChunkOf(w.nelems, x);
    if w.nelems > 0 && j < w.n then Some(Stage(w, i, r, j, x % w.nelems)) else None
  }

  function TempHeld(w: Setup, i: nat, r: nat, z: nat): Option<Token> {
    var j := MainBlock(Pow2(i), ChunkOf(w.nelems, z));
    if w.nelems > 0 && j < w.n then Some(Stage(w, i, r, j, z % w.nelems)) else None
  }

  function Held(w: Setup, t: nat, r: nat, x: nat): Option<Token> {
    var i := t / 3;
    if x < RecvBase(w) then MainHeld(w, i, r, x)
    else if i < w.l && t % 3 == 1 && x >= SendBase(w) then TempHeld(w, i, r, x - SendBase(w))
    else if i < w.l && t % 3 == 2 && x < SendBase(w) && Pow2(i) <= w.n then
      TempHeld(w, i, Down(w.n, r, Pow2(i)), x - RecvBase(w))
    else None
  }

  ghost function Schedule(w: Setup): Chain
    requires Ok(w)
  {
    Chain(w.n, 3 * w.l, w.l, s => s / 3, s => if s % 3 == 0 then 0 else 1, (id: Id) => StepAt(w, id), s => s % 3 != 1,
          (r: nat, s: nat) => Up(w.n, r, Pow2(s / 3)),
          (r: nat, s: nat) => if Pow2(s / 3) <= w.n then Down(w.n, r, Pow2(s / 3)) else 0,
          (r: nat, s: nat) => Action(SendTemp, 0, SentBlocks(w, s / 3) * w.nelems, map[]),
          (r: nat, s: nat) => Action(RecvPacked, 0, SentBlocks(w, s / 3) * w.nelems, map[]),
          (r: nat, s: nat) => ShuffleAt(w, s),
          (t: nat, r: nat, x: nat) => Held(w, t, r, x), RecvBase(w), SendBase(w), Size(w), Datum)
  }

  // ---------------------------------------------------------------- the schedule is good

  lemma {:induction false} Pow2Sum(a: nat, b: nat)
    ensures Pow2(a + b) == Pow2(a) * Pow2(b)
  {
    if a > 0 {
      Pow2Sum(a - 1, b);
      assert Pow2(a + b) == 2 * Pow2(a - 1 + b);
      TwiceProduct(Pow2(a - 1), Pow2(b));
    }
  }

  lemma TwiceProduct(a: nat, b: nat)
    ensures (2 * a) * b == 2 * (a * b)
  {
  }

  lemma Doubles(i: nat)
    requires i > 0
    ensures Pow2(i) == 2 * Pow2(i - 1)
  {
  }

  /** The temporary buffers are large enough in every round. */
  lemma TempFits(w: Setup, i: nat)
    requires Ok(w) && i < w.l
    ensures 0 < Pow2(i) < w.n && SentBlocks(w, i) <= Midpoint(w)
    ensures SentBlocks(w, i) * w.nelems <= Midpoint(w) * w.nelems
  {
    hide Pow2, NumSendBlocks;
    assert Pow2(w.l) == 2 * Pow2(w.l - 1) by { Doubles(w.l); }
    Pow2Mono(i, w.l - 1);
    Pow2Sum(w.l - 1 - i, i);
    CountFits(w.n, Pow2(i), Pow2(w.l - 1 - i));
    Times(SentBlocks(w, i), Midpoint(w), w.nelems);
  }

  /** Packing copies from within the result buffer. */
  lemma ToTempIn(w: Setup, i: nat, x: nat)
    requires Ok(w) && i < w.l && x in ToTemp(w, i)
    ensures var z := x - SendBase(w);
            var j := MainBlock(Pow2(i), ChunkOf(w.nelems, z));
            && SendBase(w) <= x < Size(w) && j < w.n && w.nelems > 0
            && ToTemp(w, i)[x] == j * w.nelems + z % w.nelems < RecvBase(w)
            && ChunkOf(w.nelems, ToTemp(w, i)[x]) == j && ToTemp(w, i)[x] % w.nelems == z % w.nelems
  {
    hide MainBlock, NumSendBlocks, ChunkOf, Pow2;
    TempFits(w, i);
    var z := x - SendBase(w);
    ChunkBelow(w.nelems, SentBlocks(w, i), z);
    CountExact(w.n, Pow2(i), ChunkOf(w.nelems, z));
    var j := MainBlock(Pow2(i), ChunkOf(w.nelems, z));
    ChunkFits(w.n, w.nelems, j);
    ElementOf(w.nelems, j, z % w.nelems);
  }

  /** Unpacking copies from within the receive workspace. */
  lemma FromTempIn(w: Setup, i: nat, x: nat)
    requires Ok(w) && i < w.l && x in FromTemp(w, i)
    ensures var j := ChunkOf(w.nelems, x);
            var z := TempBlock(Pow2(i), j) * w.nelems + x % w.nelems;
            && x < RecvBase(w) && w.nelems > 0 && j < w.n && Selected(Pow2(i), j)
            && MainBlock(Pow2(i), TempBlock(Pow2(i), j)) == j
            && FromTemp(w, i)[x] == RecvBase(w) + z && z < SentBlocks(w, i) * w.nelems && z < Midpoint(w) * w.nelems
            && ChunkOf(w.nelems, z) == TempBlock(Pow2(i), j) && z % w.nelems == x % w.nelems
  {
    hide MainBlock, TempBlock, Selected, NumSendBlocks, ChunkOf;
    TempFits(w, i);
    var j := ChunkOf(w.nelems, x);
    ChunkBelow(w.nelems, w.n, x);
    TempMain(Pow2(i), j);
    CountExact(w.n, Pow2(i), TempBlock(Pow2(i), j));
    ChunkFits(SentBlocks(w, i), w.nelems, TempBlock(Pow2(i), j));
    ElementOf(w.nelems, TempBlock(Pow2(i), j), x % w.nelems);
  }

  lemma ShufflesHere(w: Setup, r: nat, s: nat)
    requires Ok(w) && s < 3 * w.l && s % 3 != 1
    ensures Shuffles(Schedule(w), r, s)
  {
    hide MainBlock, TempBlock, Selected, SentBlocks, ChunkOf, ToTemp, FromTemp, Pow2;
    var i := s / 3;
    TempFits(w, i);
    forall x | x in ShuffleAt(w, s).copies
      ensures x < Size(w) && ShuffleAt(w, s).copies[x] < Size(w)
    {
      if s % 3 == 0 {
        ToTempIn(w, i, x);
      } else {
        FromTempIn(w, i, x);
      }
    }
  }

  lemma PlacedHere(w: Setup, r: nat, s: nat)
    requires Ok(w) && r < w.n && s < 3 * w.l
    ensures Placed(Schedule(w), r, s)
  {
    hide SentBlocks, Up, Down, ShuffleAt, Pow2, Shuffles;
    TempFits(w, s / 3);
    NeighboursMeet(w.n, r, Pow2(s / 3));
    if s % 3 != 1 {
      ShufflesHere(w, r, s);
    }
  }

  /** A moving block travels one gap further; the others stay. */
  lemma StageNext(w: Setup, i: nat, r: nat, j: nat, y: nat)
    requires Ok(w) && i < w.l && r < w.n && j < w.n && Pow2(i) <= w.n
    ensures Stage(w, i + 1, r, j, y) == Stage(w, i, if Selected(Pow2(i), j) then Down(w.n, r, Pow2(i)) else r, j, y)
  {
    hide Selected, Up, Down;
    NextBit(Pow2(i), j);
    var d := LowBits(j, i);
    var g := Pow2(i);
    Neighbours(w.n, r, d);
    Neighbours(w.n, r, g);
    Neighbours(w.n, Down(w.n, r, g), d);
    if Selected(g, j) {
      assert LowBits(j, i + 1) == d + g;
      Neighbours(w.n, r, d + g);
    }
  }

  lemma FollowsPack(w: Setup, r: nat, s: nat, x: nat)
    requires Ok(w) && r < w.n && s < 3 * w.l && s % 3 == 0 && x < Size(w)
    ensures Follows(Schedule(w), r, s, x)
  {
    hide MainBlock, ChunkOf, Stage, Pow2, SentBlocks;
    var i := s / 3;
    assert (s + 1) / 3 == i && (s + 1) % 3 == 1;
    TempFits(w, i);
    if x in ToTemp(w, i) {
      hide ToTemp;
      ToTempIn(w, i, x);
    } else if x >= SendBase(w) {
      ToTempAll(w, i, x - SendBase(w));
    }
  }

  /** Every predicted temporary element is packed. */
  lemma ToTempAll(w: Setup, i: nat, z: nat)
    requires Ok(w) && i < w.l && w.nelems > 0
    ensures MainBlock(Pow2(i), ChunkOf(w.nelems, z)) < w.n <==> z < SentBlocks(w, i) * w.nelems
  {
    hide MainBlock, ChunkOf, NumSendBlocks;
    TempFits(w, i);
    CountExact(w.n, Pow2(i), ChunkOf(w.nelems, z));
    ChunkBelow(w.nelems, SentBlocks(w, i), z);
  }

  lemma FollowsMove(w: Setup, r: nat, s: nat, x: nat)
    requires Ok(w) && r < w.n && s < 3 * w.l && s % 3 == 1 && x < Size(w)
    ensures Follows(Schedule(w), r, s, x)
  {
    hide MainBlock, ChunkOf, Stage, Pow2, SentBlocks, Down, Up;
    var i := s / 3;
    assert (s + 1) / 3 == i && (s + 1) % 3 == 2;
    TempFits(w, i);
    if x >= RecvBase(w) && w.nelems > 0 {
      ToTempAll(w, i, x - RecvBase(w));
    }
  }

  lemma FollowsUnpack(w: Setup, r: nat, s: nat, x: nat)
    requires Ok(w) && r < w.n && s < 3 * w.l && s % 3 == 2 && x < Size(w)
    ensures Follows(Schedule(w), r, s, x)
  {
    hide MainBlock, TempBlock, Selected, ChunkOf, Stage, Pow2, SentBlocks, Down, Up;
    var i := s / 3;
    assert (s + 1) / 3 == i + 1 && (s + 1) % 3 == 0;
    TempFits(w, i);
    if x < RecvBase(w) {
      var j := ChunkOf(w.nelems, x);
      ChunkBelow(w.nelems, w.n, x);
      StageNext(w, i, r, j, x % w.nelems);
      if x in FromTemp(w, i) {
        FromTempIn(w, i, x);
      }
    }
  }

  lemma ScheduleGood(w: Setup)
    requires Ok(w)
    ensures Good(Schedule(w))
  {
    hide Placed, Follows, Size;
    forall r: nat, s: nat | r < w.n && s < 3 * w.l ensures Placed(Schedule(w), r, s) {
      PlacedHere(w, r, s);
    }
    forall r: nat, s: nat, x: nat | r < w.n && s < 3 * w.l && x < Size(w) ensures Follows(Schedule(w), r, s, x) {
      if s % 3 == 0 {
        FollowsPack(w, r, s, x);
      } else if s % 3 == 1 {
        FollowsMove(w, r, s, x);
      } else {
        FollowsUnpack(w, r, s, x);
      }
    }
  }

  // ---------------------------------------------------------------- rotation and reordering

  /** Rank `r`'s send buffer: element `y` of the block for rank `d` is token `d * nelems + y`. */
  function Own(w: Setup, r: nat): (src: seq<Val>)
    ensures |src| == RecvBase(w)
  {
    seq(RecvBase(w), (x: nat) => multiset{Token(r, x)})
  }

  /** The first `off` elements moved to the end. */
  function Wound(src: seq<Val>, off: nat): seq<Val>
    requires off <= |src|
  {
    src[off..] + src[..off]
  }

  function Offset(w: Setup, r: nat): (off: nat)
    requires r < w.n
    ensures off <= RecvBase(w)
  {
    ChunkFits(w.n, w.nelems, r);
    r * w.nelems
  }

  /** The result buffers hold the rotated send buffers; the workspaces are arbitrary. */
  ghost predicate Inputs(w: Setup, mem: seq<seq<Val>>) {
    && |mem| == w.n
    && (forall r | 0 <= r < w.n :: |mem[r]| == Size(w) && mem[r][..RecvBase(w)] == Wound(Own(w, r), Offset(w, r)))
  }

  /** Where element `y` of block `k` is. */
  function Cell(w: Setup, k: nat, y: nat): (x: nat)
    requires k < w.n && y < w.nelems
    ensures x < RecvBase(w)
  {
    ChunkFits(w.n, w.nelems, k);
    k * w.nelems + y
  }

  /** Rank `r`'s result is column `r`: from each rank `k` the block `k` meant for it. */
  ghost predicate Transposed(w: Setup, r: nat, m: seq<Val>) {
    && |m| == RecvBase(w)
    && forall k: nat, y: nat | k < w.n && y < w.nelems :: m[Cell(w, k, y)] == multiset{Token(k, r * w.nelems + y)}
  }

  /** Which block finalize moves to the place of element `x`. */
  function BlockFor(w: Setup, r: nat, x: nat): (i: nat)
    requires r < w.n && x < RecvBase(w)
    ensures i < w.n && ChunkOf(w.nelems, x) < w.n && i == Down(w.n, r, ChunkOf(w.nelems, x))
  {
    ChunkBelow(w.nelems, w.n, x);
    NeighboursWithin(w.n, r, ChunkOf(w.nelems, x));
    Down(w.n, r, ChunkOf(w.nelems, x))
  }

  /** Which element finalize moves to `x`. */
  function UnwindsFrom(w: Setup, r: nat, x: nat): (z: nat)
    requires r < w.n && x < RecvBase(w)
    ensures z < RecvBase(w)
  {
    ChunkBelow(w.nelems, w.n, x);
    Cell(w, BlockFor(w, r, x), x % w.nelems)
  }

  function Unwound(w: Setup, r: nat, m: seq<Val>): (u: seq<Val>)
    requires r < w.n && |m| == RecvBase(w)
    ensures |u| == |m|
  {
    seq(RecvBase(w), (x: nat) requires x < RecvBase(w) => m[UnwindsFrom(w, r, x)])
  }

  lemma WoundIndex(nelems: nat, n: nat, r: nat, j: nat, y: nat)
    requires r < n && j < n && y < nelems
    ensures r * nelems + (j * nelems + y) < n * nelems <==> r + j < n
    ensures r * nelems + (j * nelems + y) == (r + j) * nelems + y
    ensures r + j >= n ==> r * nelems + (j * nelems + y) - n * nelems == (r + j - n) * nelems + y
  {
    ElementOf(nelems, r + j, y);
    ChunkBelow(nelems, n, (r + j) * nelems + y);
    assert (r + j) * nelems == r * nelems + j * nelems;
    if r + j >= n {
      assert (r + j) * nelems == (r + j - n) * nelems + n * nelems;
    }
  }

  lemma WoundAt(w: Setup, r: nat, j: nat, y: nat)
    requires r < w.n && j < w.n && y < w.nelems
    ensures Wound(Own(w, r), Offset(w, r))[Cell(w, j, y)] == multiset{Token(r, Up(w.n, r, j) * w.nelems + y)}
  {
    hide Up, Own;
    Neighbours(w.n, r, j);
    WoundIndex(w.nelems, w.n, r, j, y);
    OwnAt(w, r, Up(w.n, r, j) * w.nelems + y);
  }

  lemma OwnAt(w: Setup, r: nat, x: nat)
    ensures x < RecvBase(w) ==> Own(w, r)[x] == multiset{Token(r, x)}
  {
  }

  // ---------------------------------------------------------------- what moves where

  function Initially(mem: seq<seq<Val>>, k: Token): Val {
    if k.rank < |mem| && k.index < |mem[k.rank]| then mem[k.rank][k.index] else multiset{}
  }

  /** The schedule on a given memory. */
  ghost function From(w: Setup, mem: seq<seq<Val>>): Chain
    requires Ok(w)
  {
    Schedule(w).(value := (k: Token) => Initially(mem, k))
  }

  lemma FromGood(w: Setup, mem: seq<seq<Val>>, cfg: Config)
    requires Ok(w)
    ensures Good(From(w, mem)) && Prog(From(w, mem), cfg) == Prog(Schedule(w), cfg)
  {
    hide Good, Prog;
    ScheduleGood(w);
    GoodUnderAnyNames(Schedule(w), (k: Token) => Initially(mem, k));
    SameProgram(Schedule(w), (k: Token) => Initially(mem, k), cfg);
  }

  ghost predicate Sized(w: Setup, mem: seq<seq<Val>>) {
    |mem| == w.n && forall r | 0 <= r < w.n :: |mem[r]| == Size(w)
  }

  lemma AnyStart(w: Setup, mem: seq<seq<Val>>)
    requires Ok(w) && Sized(w, mem)
    ensures Starts(From(w, mem), mem)
  {
    hide ChunkOf, Down;
    forall r: nat, x: nat | r < w.n && x < Size(w) && Held(w, 0, r, x).Some?
      ensures mem[r][x] == Initially(mem, Held(w, 0, r, x).value)
    {
      InChunk(w.nelems, ChunkOf(w.nelems, x), x);
      Neighbours(w.n, r, 0);
      assert LowBits(ChunkOf(w.nelems, x), 0) == 0;
    }
  }

  /** Where rank `k` has the block that rank `r` is to get from it. */
  function BlockOf(w: Setup, r: nat, k: nat): (j: nat)
    requires r < w.n && k < w.n
    ensures j < w.n
  {
    NeighboursWithin(w.n, r, k);
    Down(w.n, r, k)
  }

  lemma BlockOfIs(w: Setup, r: nat, k: nat)
    requires r < w.n && k < w.n
    ensures Up(w.n, k, BlockOf(w, r, k)) == r
    ensures BlockOf(w, r, k) == if k <= r then r - k else r + w.n - k
  {
    hide Up, Down;
    Neighbours(w.n, r, k);
    Neighbours(w.n, k, Down(w.n, r, k));
  }

  /** Once reordered, block `k` of rank `r`'s result is what rank `k` had at the start in its block for `r`. */
  ghost predicate Exchanged(w: Setup, mem: seq<seq<Val>>, r: nat, m: seq<Val>)
    requires r < w.n && Sized(w, mem)
  {
    && |m| == Size(w)
    && var u := Unwound(w, r, m[..RecvBase(w)]);
       forall k: nat, y: nat | k < w.n && y < w.nelems :: u[Cell(w, k, y)] == mem[k][Cell(w, BlockOf(w, r, k), y)]
  }

  /** After the last round block `j` has come the whole way from its source. */
  lemma StageAtEnd(w: Setup, r: nat, j: nat, y: nat)
    requires Ok(w) && r < w.n && j < w.n
    ensures Stage(w, w.l, r, j, y) == Token(Down(w.n, r, j), j * w.nelems + y)
  {
    DivUnique(j, Pow2(w.l), 0, j);
    assert LowBits(j, w.l) == j;
  }

  lemma EndsExchanged(w: Setup, mem: seq<seq<Val>>, r: nat, m: seq<Val>)
    requires Ok(w) && Sized(w, mem) && r < w.n && |m| == Size(w) && Ends(From(w, mem), m, r)
    ensures Exchanged(w, mem, r, m)
  {
    hide Ends, UnwindsFrom, From, BlockOf, Cell;
    var u := Unwound(w, r, m[..RecvBase(w)]);
    forall k: nat, y: nat | k < w.n && y < w.nelems
      ensures u[Cell(w, k, y)] == mem[k][Cell(w, BlockOf(w, r, k), y)]
    {
      ComesFrom(w, r, k, y);
      EndsAt(w, mem, r, m, UnwindsFrom(w, r, Cell(w, k, y)));
    }
  }

  /** The element that finalize moves to block `k` came from rank `k`. */
  lemma ComesFrom(w: Setup, r: nat, k: nat, y: nat)
    requires Ok(w) && r < w.n && k < w.n && y < w.nelems
    ensures MainHeld(w, w.l, r, UnwindsFrom(w, r, Cell(w, k, y))) == Some(Token(k, Cell(w, BlockOf(w, r, k), y)))
  {
    hide Up, Down, ChunkOf, Stage;
    ElementOf(w.nelems, k, y);
    NeighboursWithin(w.n, r, k);
    var j := Down(w.n, r, k);
    ElementOf(w.nelems, j, y);
    DownSwap(w.n, r, k, j);
    StageAtEnd(w, r, j, y);
  }

  lemma NeighboursWithin(n: nat, r: nat, k: nat)
    requires r < n && k < n
    ensures Down(n, r, k) < n && Up(n, r, k) < n
  {
    Neighbours(n, r, k);
  }

  lemma EndsAt(w: Setup, mem: seq<seq<Val>>, r: nat, m: seq<Val>, x: nat)
    requires Ok(w) && r < w.n && |m| == Size(w) && x < RecvBase(w) && Ends(From(w, mem), m, r)
    ensures MainHeld(w, w.l, r, x).Some? ==> m[x] == Initially(mem, MainHeld(w, w.l, r, x).value)
  {
    hide MainHeld;
    assert From(w, mem).held(3 * w.l, r, x) == MainHeld(w, w.l, r, x);
  }

  /**
   * Bruck alltoall on any memory, for any number of ranks, any block length,
   * any protocol configuration and any order of events: the run is healthy,
   * and when a rank's actions are done the final reordering leaves it from
   * each rank the block that this rank had for it.
   */
  lemma AlltoallExchanges(w: Setup, cfg: Config, mem: seq<seq<Val>>, es: seq<Event>)
    requires Ok(w) && Sized(w, mem) && Execution(Prog(Schedule(w), cfg), mem, es)
    ensures Healthy(Prog(Schedule(w), cfg), mem, es)
    ensures var p := Prog(Schedule(w), cfg);
            var t := Outcome(p, mem, es);
            forall r: nat | r < w.n && RankDone(p, t, r) :: r < |t.mem| && Exchanged(w, mem, r, t.mem[r])
  {
    hide Prog, Execution, Outcome, Healthy, RankDone, Starts, Ends, Good, Exchanged, Size;
    AnyStart(w, mem);
    FromGood(w, mem, cfg);
    ChainRuns(From(w, mem), cfg, mem, es);
    var p := Prog(Schedule(w), cfg);
    var t := Outcome(p, mem, es);
    forall r: nat | r < w.n && RankDone(p, t, r) ensures Exchanged(w, mem, r, t.mem[r]) {
      EndsExchanged(w, mem, r, t.mem[r]);
    }
  }

  // ---------------------------------------------------------------- the result

  /** Once reordered, rank `r`'s result buffer is its column of the transpose. */
  ghost predicate Delivered(w: Setup, r: nat, m: seq<Val>)
    requires r < w.n
  {
    |m| == Size(w) && Transposed(w, r, Unwound(w, r, m[..RecvBase(w)]))
  }

  lemma RightlySent(w: Setup, mem: seq<seq<Val>>, r: nat, k: nat, y: nat)
    requires Inputs(w, mem) && r < w.n && k < w.n && y < w.nelems
    ensures Sized(w, mem) && mem[k][Cell(w, BlockOf(w, r, k), y)] == multiset{Token(k, r * w.nelems + y)}
  {
    hide Up, Down, Own, Wound, Offset, BlockOf, Cell;
    BlockOfIs(w, r, k);
    WoundAt(w, k, BlockOf(w, r, k), y);
    assert mem[k][Cell(w, BlockOf(w, r, k), y)] == mem[k][..RecvBase(w)][Cell(w, BlockOf(w, r, k), y)];
  }

  /** With the rotated send buffers in place, every finished rank's result is its column of the transpose. */
  lemma AlltoallCorrect(w: Setup, cfg: Config, mem: seq<seq<Val>>, es: seq<Event>)
    requires Ok(w) && Inputs(w, mem) && Execution(Prog(Schedule(w), cfg), mem, es)
    ensures Healthy(Prog(Schedule(w), cfg), mem, es)
    ensures var p := Prog(Schedule(w), cfg);
            var t := Outcome(p, mem, es);
            forall r: nat | r < w.n && RankDone(p, t, r) :: r < |t.mem| && Delivered(w, r, t.mem[r])
  {
    hide Prog, Execution, Outcome, Healthy, RankDone, Delivered, Exchanged, Size;
    var p := Prog(Schedule(w), cfg);
    AlltoallExchanges(w, cfg, mem, es);
    forall r: nat | r < w.n && RankDone(p, Outcome(p, mem, es), r)
      ensures Delivered(w, r, Outcome(p, mem, es).mem[r])
    {
      ExchangedDelivers(w, mem, r, Outcome(p, mem, es).mem[r]);
    }
  }

  lemma ExchangedDelivers(w: Setup, mem: seq<seq<Val>>, r: nat, m: seq<Val>)
    requires Inputs(w, mem) && r < w.n && Exchanged(w, mem, r, m)
    ensures Delivered(w, r, m)
  {
    hide Inputs, Unwound, BlockOf, Cell;
    forall k: nat, y: nat | k < w.n && y < w.nelems
      ensures Unwound(w, r, m[..RecvBase(w)])[Cell(w, k, y)] == multiset{Token(k, r * w.nelems + y)}
    {
      RightlySent(w, mem, r, k, y);
    }
  }
}
