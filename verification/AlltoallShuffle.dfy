/** BruckAlltoallActor::shuffle: the strided block copies have exactly the effect of the DAG's shuffle actions. */
module AlltoallShuffle {
  import opened Actions
  import opened Fabric
  import opened Wilke
  import opened Buffers
  import opened Ranks
  import opened Intervals
  import opened Alltoall

  lemma CopiesIn(w: Setup, i: nat, pack: bool)
    requires Ok(w) && i < w.l
    ensures forall x | x in ShuffleOf(w, i, pack).copies :: x < Size(w) && ShuffleOf(w, i, pack).copies[x] < Size(w)
  {
    hide ToTemp, FromTemp, ChunkOf, Pow2, SentBlocks;
    forall x | x in ShuffleOf(w, i, pack).copies ensures x < Size(w) && ShuffleOf(w, i, pack).copies[x] < Size(w) {
      if pack {
        ToTempIn(w, i, x);
      } else {
        FromTempIn(w, i, x);
      }
    }
  }

  /** A rank's memory after the action takes effect. */
  ghost function Shuffled(w: Setup, i: nat, pack: bool, m: seq<Val>): (u: seq<Val>)
    requires Ok(w) && i < w.l && |m| == Size(w)
    ensures |u| == |m|
  {
    CopiesIn(w, i, pack);
    Copied(m, ShuffleOf(w, i, pack).copies)
  }

  // ---------------------------------------------------------------- runs of blocks

  lemma RunChunks(nelems: nat, t: nat, num: nat, z: nat)
    ensures Span(z, t * nelems, num * nelems) <==> nelems > 0 && t <= ChunkOf(nelems, z) < t + num
  {
    hide ChunkOf;
    ChunkBelow(nelems, t, z);
    ChunkBelow(nelems, t + num, z);
    assert (t + num) * nelems == t * nelems + num * nelems;
  }

  /** Block `t` of run `a` of the temporary buffer belongs to block `m` of the result buffer. */
  predicate Aligned(g: nat, a: nat, t: nat, m: nat) {
    t == a * g && m == (2 * a + 1) * g
  }

  /** The blocks of one run are packed from consecutive places. */
  lemma PackedRun(g: nat, a: nat, t: nat, m: nat, q: nat)
    requires g > 0 && Aligned(g, a, t, m)
    ensures t <= q < t + g ==> MainBlock(g, q) == m + (q - t)
    ensures q >= t ==> MainBlock(g, q) >= m
  {
    if t <= q {
      hide MainBlock;
      Split(g, q);
      MainBlockForm(g, q / g, q % g);
      if q < t + g {
        DivUnique(q, g, a, q - t);
      } else {
        Later(g, a, q);
      }
    }
  }

  lemma Later(g: nat, a: nat, q: nat)
    requires g > 0 && q >= a * g
    ensures (2 * (q / g) + 1) * g + q % g >= (2 * a + 1) * g
  {
    Split(g, q);
    var k := q / g;
    if k < a {
      Next(k, a, g);
    }
    Times(2 * a + 1, 2 * k + 1, g);
  }

  /** Of two intervals from block `m` on, the first moves and the second stays. */
  lemma UnpackedRun(g: nat, a: nat, t: nat, m: nat, j: nat)
    requires g > 0 && Aligned(g, a, t, m)
    ensures m <= j < m + g ==> Selected(g, j) && TempBlock(g, j) == t + (j - m)
    ensures m + g <= j < m + 2 * g ==> !Selected(g, j)
  {
    if m <= j < m + g {
      TempBlockForm(g, a, j - m);
    } else if m + g <= j < m + 2 * g {
      assert m + g == (2 * a + 2) * g;
      DivUnique(j, g, 2 * a + 2, j - m - g);
    }
  }

  lemma Shift(nelems: nat, q: nat, t: nat, m: nat, y: nat)
    requires q >= t
    ensures (m + (q - t)) * nelems + y == (q * nelems + y) - t * nelems + m * nelems
  {
  }

  // ---------------------------------------------------------------- one run

  /** The block numbers below which the copies have been made. */
  ghost predicate Partly(w: Setup, i: nat, pack: bool, was: seq<Val>, u: seq<Val>, t: nat, m: nat)
    requires Ok(w) && i < w.l && |was| == Size(w)
  {
    && |u| == Size(w)
    && forall x: nat | x < Size(w) ::
         u[x] == if Copies(w, i, pack, t, m, x) then Shuffled(w, i, pack, was)[x] else was[x]
  }

  predicate Copies(w: Setup, i: nat, pack: bool, t: nat, m: nat, x: nat) {
    if pack then IsPacked(w, i, x) && ChunkOf(w.nelems, x - SendBase(w)) < t
    else IsUnpacked(w, i, x) && ChunkOf(w.nelems, x) < m
  }

  /** Where a run is copied from and to. */
  function RunTo(w: Setup, pack: bool, t: nat, m: nat): nat {
    if pack then SendBase(w) + t * w.nelems else m * w.nelems
  }

  function RunFrom(w: Setup, pack: bool, t: nat, m: nat): nat {
    if pack then m * w.nelems else RecvBase(w) + t * w.nelems
  }

  function RunBlocks(w: Setup, g: nat, m: nat): nat
    requires m < w.n
  {
    if g < w.n - m then g else w.n - m
  }

  function RunLen(w: Setup, g: nat, m: nat): nat
    requires m < w.n
  {
    RunBlocks(w, g, m) * w.nelems
  }

  /** The elements of a run in the temporary buffer. */
  lemma PackedHere(w: Setup, i: nat, a: nat, t: nat, m: nat, z: nat)
    requires Ok(w) && i < w.l && Aligned(Pow2(i), a, t, m) && m < w.n
    ensures var q := ChunkOf(w.nelems, z);
            && (Span(z, t * w.nelems, RunLen(w, Pow2(i), m)) <==>
                  w.nelems > 0 && z < SentBlocks(w, i) * w.nelems && t <= q < t + Pow2(i))
            && (Span(z, t * w.nelems, RunLen(w, Pow2(i), m)) ==>
                  MainOf(w, i, z) == z - t * w.nelems + m * w.nelems)
  {
    hide MainBlock, ChunkOf, NumSendBlocks, Pow2, SendBase, RecvBase;
    TempFits(w, i);
    var q := ChunkOf(w.nelems, z);
    RunChunks(w.nelems, t, RunBlocks(w, Pow2(i), m), z);
    ChunkBelow(w.nelems, SentBlocks(w, i), z);
    CountExact(w.n, Pow2(i), q);
    PackedRun(Pow2(i), a, t, m, q);
    InChunk(w.nelems, q, z);
    if w.nelems > 0 && q >= t {
      Shift(w.nelems, q, t, m, z % w.nelems);
    }
  }

  lemma PackedAt(w: Setup, i: nat, a: nat, t: nat, m: nat, x: nat)
    requires Ok(w) && i < w.l && Aligned(Pow2(i), a, t, m) && m < w.n
    ensures Span(x, RunTo(w, true, t, m), RunLen(w, Pow2(i), m)) <==>
              Copies(w, i, true, t + Pow2(i), m + 2 * Pow2(i), x) && !Copies(w, i, true, t, m, x)
    ensures Span(x, RunTo(w, true, t, m), RunLen(w, Pow2(i), m)) ==>
              x in ToTemp(w, i) && ToTemp(w, i)[x] == x - RunTo(w, true, t, m) + RunFrom(w, true, t, m)
  {
    hide MainOf, ChunkOf, SentBlocks, Pow2, RunLen, SendBase, RecvBase, Aligned;
    if x >= SendBase(w) {
      PackedHere(w, i, a, t, m, x - SendBase(w));
    }
  }

  lemma UnpackedAt(w: Setup, i: nat, a: nat, t: nat, m: nat, x: nat)
    requires Ok(w) && i < w.l && Aligned(Pow2(i), a, t, m) && m < w.n
    ensures Span(x, RunTo(w, false, t, m), RunLen(w, Pow2(i), m)) <==>
              Copies(w, i, false, t + Pow2(i), m + 2 * Pow2(i), x) && !Copies(w, i, false, t, m, x)
    ensures Span(x, RunTo(w, false, t, m), RunLen(w, Pow2(i), m)) ==>
              x in FromTemp(w, i) && FromTemp(w, i)[x] == x - RunTo(w, false, t, m) + RunFrom(w, false, t, m)
  {
    hide TempBlock, Selected, ChunkOf, Pow2;
    var j := ChunkOf(w.nelems, x);
    TempFits(w, i);
    RunChunks(w.nelems, m, RunBlocks(w, Pow2(i), m), x);
    ChunkBelow(w.nelems, w.n, x);
    UnpackedRun(Pow2(i), a, t, m, j);
    InChunk(w.nelems, j, x);
    if w.nelems > 0 && j >= m {
      Shift(w.nelems, j, m, t, x % w.nelems);
    }
  }

  lemma RunFits(w: Setup, i: nat, pack: bool, a: nat, t: nat, m: nat)
    requires Ok(w) && i < w.l && Aligned(Pow2(i), a, t, m) && m < w.n
    ensures var len := RunLen(w, Pow2(i), m);
            && m * w.nelems + len <= RecvBase(w)
            && t * w.nelems + len <= Midpoint(w) * w.nelems
  {
    hide MainBlock, NumSendBlocks, Pow2;
    TempFits(w, i);
    var num := RunBlocks(w, Pow2(i), m);
    PackedRun(Pow2(i), a, t, m, t + num - 1);
    CountExact(w.n, Pow2(i), t + num - 1);
    assert (m + num) * w.nelems == m * w.nelems + num * w.nelems;
    assert (t + num) * w.nelems == t * w.nelems + num * w.nelems;
    Times(m + num, w.n, w.nelems);
    Times(t + num, Midpoint(w), w.nelems);
  }

  lemma RunBounds(w: Setup, i: nat, pack: bool, a: nat, t: nat, m: nat)
    requires Ok(w) && i < w.l && Aligned(Pow2(i), a, t, m) && m < w.n
    ensures var to := RunTo(w, pack, t, m);
            var from := RunFrom(w, pack, t, m);
            var len := RunLen(w, Pow2(i), m);
            from + len <= Size(w) && to + len <= Size(w) && (to <= from || from + len <= to)
  {
    hide Pow2, RunLen, Aligned, Midpoint;
    RunFits(w, i, pack, a, t, m);
    Apart(RecvBase(w), Midpoint(w) * w.nelems, m * w.nelems, t * w.nelems, RunLen(w, Pow2(i), m));
  }

  /** A run in the result buffer and one in either workspace behind it do not overlap. */
  lemma Apart(recv: nat, workspace: nat, main: nat, tmp: nat, len: nat)
    requires main + len <= recv && tmp + len <= workspace
    ensures main + len <= recv + tmp && recv + tmp + len <= recv + workspace
    ensures recv + workspace + tmp + len <= recv + workspace + workspace
  {
  }

  /** The memory after one more run. */
  ghost function RunCopied(w: Setup, i: nat, pack: bool, u: seq<Val>, t: nat, m: nat): (next: seq<Val>)
    requires m < w.n
    requires RunFrom(w, pack, t, m) + RunLen(w, Pow2(i), m) <= |u|
    requires RunTo(w, pack, t, m) + RunLen(w, Pow2(i), m) <= |u|
    ensures |next| == |u|
  {
    var len := RunLen(w, Pow2(i), m);
    Stored(u, RunTo(w, pack, t, m), u[RunFrom(w, pack, t, m)..RunFrom(w, pack, t, m) + len])
  }

  /** Copying one run makes the copies of its blocks. */
  lemma RunCopies(w: Setup, i: nat, pack: bool, was: seq<Val>, u: seq<Val>, a: nat, t: nat, m: nat)
    requires Ok(w) && i < w.l && |was| == Size(w) && Aligned(Pow2(i), a, t, m) && m < w.n
    requires Partly(w, i, pack, was, u, t, m)
    requires RunFrom(w, pack, t, m) + RunLen(w, Pow2(i), m) <= |u|
    requires RunTo(w, pack, t, m) + RunLen(w, Pow2(i), m) <= |u|
    ensures Partly(w, i, pack, was, RunCopied(w, i, pack, u, t, m), t + Pow2(i), m + 2 * Pow2(i))
  {
    hide Shuffled, Size, Aligned, Pow2, RunLen, RunTo, RunFrom, Copies;
    var next := RunCopied(w, i, pack, u, t, m);
    forall x: nat | x < Size(w)
      ensures next[x] == if Copies(w, i, pack, t + Pow2(i), m + 2 * Pow2(i), x) then Shuffled(w, i, pack, was)[x]
                         else was[x]
    {
      RunCopiesAt(w, i, pack, was, u, a, t, m, x);
    }
  }

  /** What a run copies, and that its source has not been overwritten. */
  lemma RunAt(w: Setup, i: nat, pack: bool, a: nat, t: nat, m: nat, x: nat)
    requires Ok(w) && i < w.l && Aligned(Pow2(i), a, t, m) && m < w.n
    ensures var to := RunTo(w, pack, t, m);
            var from := RunFrom(w, pack, t, m);
            var len := RunLen(w, Pow2(i), m);
            && (Copies(w, i, pack, t + Pow2(i), m + 2 * Pow2(i), x) <==>
                  Copies(w, i, pack, t, m, x) || Span(x, to, len))
            && (Span(x, to, len) ==>
                  && !Copies(w, i, pack, t, m, x)
                  && x in ShuffleOf(w, i, pack).copies
                  && ShuffleOf(w, i, pack).copies[x] == x - to + from)
            && (Span(x, from, len) ==> !Copies(w, i, pack, t, m, x))
  {
    hide ToTemp, FromTemp, ChunkOf, Pow2, RunLen;
    RunFits(w, i, pack, a, t, m);
    if pack {
      PackedAt(w, i, a, t, m, x);
    } else {
      UnpackedAt(w, i, a, t, m, x);
    }
  }

  lemma ShuffledAt(w: Setup, i: nat, pack: bool, was: seq<Val>, x: nat)
    requires Ok(w) && i < w.l && |was| == Size(w) && x < Size(w) && x in ShuffleOf(w, i, pack).copies
    ensures ShuffleOf(w, i, pack).copies[x] < Size(w)
    ensures Shuffled(w, i, pack, was)[x] == was[ShuffleOf(w, i, pack).copies[x]]
  {
    hide ShuffleOf, Size;
    CopiesIn(w, i, pack);
  }

  lemma RunCopiesAt(w: Setup, i: nat, pack: bool, was: seq<Val>, u: seq<Val>, a: nat, t: nat, m: nat, x: nat)
    requires Ok(w) && i < w.l && |was| == Size(w) && Aligned(Pow2(i), a, t, m) && m < w.n && x < Size(w)
    requires Partly(w, i, pack, was, u, t, m)
    requires var len := RunLen(w, Pow2(i), m);
             RunFrom(w, pack, t, m) + len <= |u| && RunTo(w, pack, t, m) + len <= |u|
    ensures var len := RunLen(w, Pow2(i), m);
            Stored(u, RunTo(w, pack, t, m), u[RunFrom(w, pack, t, m)..RunFrom(w, pack, t, m) + len])[x]
            == if Copies(w, i, pack, t + Pow2(i), m + 2 * Pow2(i), x) then Shuffled(w, i, pack, was)[x] else was[x]
  {
    hide Copies, Aligned, ShuffleOf, Shuffled, Pow2, RunLen, RunTo, RunFrom, Size;
    RunAt(w, i, pack, a, t, m, x);
    var len := RunLen(w, Pow2(i), m);
    if Span(x, RunTo(w, pack, t, m), len) {
      var y := x - RunTo(w, pack, t, m) + RunFrom(w, pack, t, m);
      RunAt(w, i, pack, a, t, m, y);
      ShuffledAt(w, i, pack, was, x);
    }
  }

  lemma NothingCopied(w: Setup, i: nat, pack: bool, was: seq<Val>)
    requires Ok(w) && i < w.l && |was| == Size(w)
    ensures Aligned(Pow2(i), 0, 0, Pow2(i)) && Partly(w, i, pack, was, was, 0, Pow2(i))
  {
    hide Shuffled, Pow2, ChunkOf;
    forall x: nat ensures !Copies(w, i, pack, 0, Pow2(i), x) {
      if !pack && ChunkOf(w.nelems, x) < Pow2(i) {
        DivUnique(ChunkOf(w.nelems, x), Pow2(i), 0, ChunkOf(w.nelems, x));
      }
    }
  }

  /** When the blocks are used up, all copies have been made. */
  lemma AllCopied(w: Setup, i: nat, pack: bool, was: seq<Val>, u: seq<Val>, a: nat, t: nat, m: nat)
    requires Ok(w) && i < w.l && |was| == Size(w) && Aligned(Pow2(i), a, t, m) && m >= w.n
    requires Partly(w, i, pack, was, u, t, m)
    ensures u == Shuffled(w, i, pack, was)
  {
    hide ToTemp, FromTemp, ChunkOf, Pow2, MainBlock, Selected, NumSendBlocks;
    CopiesIn(w, i, pack);
    forall x: nat | x < Size(w) ensures u[x] == Shuffled(w, i, pack, was)[x] {
      LastCopied(w, i, pack, a, t, m, x);
    }
  }

  lemma LastCopied(w: Setup, i: nat, pack: bool, a: nat, t: nat, m: nat, x: nat)
    requires Ok(w) && i < w.l && Aligned(Pow2(i), a, t, m) && m >= w.n
    ensures x in ShuffleOf(w, i, pack).copies ==> Copies(w, i, pack, t, m, x)
  {
    hide ChunkOf, Pow2, MainBlock, Selected, NumSendBlocks;
    TempFits(w, i);
    if pack && IsPacked(w, i, x) {
      var q := ChunkOf(w.nelems, x - SendBase(w));
      ChunkBelow(w.nelems, SentBlocks(w, i), x - SendBase(w));
      CountExact(w.n, Pow2(i), q);
      PackedRun(Pow2(i), a, t, m, q);
    } else if IsUnpacked(w, i, x) {
      ChunkBelow(w.nelems, w.n, x);
    }
  }

  // ---------------------------------------------------------------- the loop

  /** The addresses and the length of one run. */
  method RunAddresses(w: Setup, offset: nat, copyToTemp: bool, tmpBlock: nat, mainBlock: nat, tmpBase: nat)
    returns (tmp: nat, main: nat, copySize: nat)
    requires mainBlock < w.n && tmpBase == if copyToTemp then SendBase(w) else RecvBase(w)
    ensures RunTo(w, copyToTemp, tmpBlock, mainBlock) == (if copyToTemp then tmp else main)
    ensures RunFrom(w, copyToTemp, tmpBlock, mainBlock) == (if copyToTemp then main else tmp)
    ensures copySize == RunLen(w, offset, mainBlock)
  {
    hide SendBase, RecvBase;
    var remainingBlocks := w.n - mainBlock;
    var numCopyBlocks := if offset < remainingBlocks then offset else remainingBlocks;
    copySize := numCopyBlocks * w.nelems;
    tmp, main := tmpBase + tmpBlock * w.nelems, mainBlock * w.nelems;
  }

  /** One iteration of the loop in shuffle. */
  method CopyRun(w: Setup, buffer: array<Val>, ghost i: nat, offset: nat, tmpBlock: nat, mainBlock: nat,
                 tmpBase: nat, copyToTemp: bool)
    requires offset == Pow2(i) && mainBlock < w.n
    requires tmpBase == if copyToTemp then SendBase(w) else RecvBase(w)
    requires var len := RunLen(w, Pow2(i), mainBlock);
             var to := RunTo(w, copyToTemp, tmpBlock, mainBlock);
             var from := RunFrom(w, copyToTemp, tmpBlock, mainBlock);
             from + len <= buffer.Length && to + len <= buffer.Length && (to <= from || from + len <= to)
    modifies buffer
    ensures buffer[..] == RunCopied(w, i, copyToTemp, old(buffer[..]), tmpBlock, mainBlock)
  {
    hide Pow2, SendBase, RecvBase, Stored, RunTo, RunFrom, RunLen;
    var tmp, main, copySize := RunAddresses(w, offset, copyToTemp, tmpBlock, mainBlock, tmpBase);
    if copyToTemp {
      CopyWithin(buffer, tmp, main, copySize);
    } else {
      CopyWithin(buffer, main, tmp, copySize);
    }
  }

  /** shuffle: copies runs of `offset` blocks between the result and a temporary buffer. */
  method Shuffle(w: Setup, buffer: array<Val>, ghost i: nat, offset: nat, tmpBase: nat, copyToTemp: bool)
    requires Ok(w) && i < w.l && offset == Pow2(i) && buffer.Length == Size(w)
    requires tmpBase == if copyToTemp then SendBase(w) else RecvBase(w)
    modifies buffer
    ensures buffer[..] == Shuffled(w, i, copyToTemp, old(buffer[..]))
  {
    hide Partly, Shuffled, Pow2, Size, SendBase, RecvBase, RunCopied, RunTo, RunFrom, RunLen, Aligned;
    TempFits(w, i);
    ghost var was, run: nat := buffer[..], 0;
    var tmpBlock: nat, mainBlock: nat := 0, offset;
    NothingCopied(w, i, copyToTemp, was);
    while mainBlock < w.n
      invariant Aligned(offset, run, tmpBlock, mainBlock)
      invariant Partly(w, i, copyToTemp, was, buffer[..], tmpBlock, mainBlock)
      decreases w.n - mainBlock
    {
      RunBounds(w, i, copyToTemp, run, tmpBlock, mainBlock);
      RunCopies(w, i, copyToTemp, was, buffer[..], run, tmpBlock, mainBlock);
      CopyRun(w, buffer, i, offset, tmpBlock, mainBlock, tmpBase, copyToTemp);
      AlignedNext(offset, run, tmpBlock, mainBlock);
      tmpBlock, mainBlock, run := tmpBlock + offset, mainBlock + offset * 2, run + 1;
    }
    AllCopied(w, i, copyToTemp, was, buffer[..], run, tmpBlock, mainBlock);
  }

  // ---------------------------------------------------------------- the action

  const SEND_SHUFFLE := 0

  /**
   * What a shuffle action of the DAG carries: the number of blocks to copy at a
   * time is the round's partner gap, and the elements are those of the blocks
   * whose index has the round's bit set.
   */
  lemma ShuffleActions(w: Setup, cfg: Config, id: Id)
    requires Ok(w) && id in Chains.Prog(Schedule(w), cfg).acts && id.kind.Shuffle?
    ensures var action := Chains.Prog(Schedule(w), cfg).acts[id];
            && id.round < w.l && id.partner <= 1
            && action.offset == Pow2(id.round)
            && action.nelems == |Moving(w.n, Pow2(id.round))| * w.nelems
            && action.copies == ShuffleOf(w, id.round, id.partner == SEND_SHUFFLE).copies
  {
    hide Pow2, ToTemp, FromTemp, Chains.Prog, Chains.Good;
    ScheduleGood(w);
    Chains.Members(Schedule(w), cfg, id);
    TempFits(w, id.round);
    NumSendBlocksCounts(w.n, Pow2(id.round));
  }

  /** startShuffle has exactly the effect that the action has in the DAG. */
  method StartShuffle(w: Setup, ghost cfg: Config, buffer: array<Val>, id: Id, action: Action)
    requires Ok(w) && buffer.Length == Size(w) && id.kind.Shuffle?
    requires id in Chains.Prog(Schedule(w), cfg).acts && action == Chains.Prog(Schedule(w), cfg).acts[id]
    modifies buffer
    ensures forall x | x in action.copies :: action.copies[x] < buffer.Length
    ensures buffer[..] == Copied(old(buffer[..]), action.copies)
  {
    hide Pow2, ToTemp, FromTemp, Chains.Prog, Moving;
    ShuffleActions(w, cfg, id);
    CopiesIn(w, id.round, id.partner == SEND_SHUFFLE);
    if id.partner == SEND_SHUFFLE {
      Shuffle(w, buffer, id.round, action.offset, SendBase(w), true);
    } else {
      Shuffle(w, buffer, id.round, action.offset, RecvBase(w), false);
    }
  }

  lemma AlignedNext(g: nat, a: nat, t: nat, m: nat)
    requires Aligned(g, a, t, m)
    ensures Aligned(g, a + 1, t + g, m + g * 2)
  {
    assert (2 * (a + 1) + 1) * g == (2 * a + 1) * g + 2 * g;
  }
}
