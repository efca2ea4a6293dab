/** The Bruck alltoall actor: its buffers, its shuffles and the DAG that initDag builds. */
module AlltoallDag {
  import opened Actions
  import opened Fabric
  import opened ActorState
  import opened Executor
  import opened Wilke
  import opened Chains
  import opened ChainDag
  import opened Buffers
  import opened Ranks
  import opened Intervals
  import opened Alltoall
  import BruckDag

  // ---------------------------------------------------------------- the DAG

  lemma GapIs(w: Setup, me: nat, i: nat)
    requires Ok(w) && i < w.l && me < w.n
    ensures 0 < Pow2(i) <= w.n && Schedule(w).n == w.n && Schedule(w).steps == 3 * w.l
  {
    TempFits(w, i);
    hide ToTemp, FromTemp, Pow2;
  }

  lemma PackIs(w: Setup, me: nat, i: nat)
    requires Ok(w) && i < w.l && me < w.n
    ensures var c := Schedule(w);
            && c.local(3 * i) && Ids(c, me, 3 * i) == {Id(me, Shuffle, i, 0)}
            && IdAt(c, me, 3 * i, Shuffle) == Id(me, Shuffle, i, 0) && c.shuffle(me, 3 * i) == ShuffleOf(w, i, true)
  {
    hide Up, Down, Pow2, ShuffleOf, SentBlocks, Alltoall.Held;
  }

  lemma MoveIs(w: Setup, me: nat, i: nat)
    requires Ok(w) && i < w.l && me < w.n && Pow2(i) <= w.n
    ensures var c := Schedule(w);
            var s := 3 * i + 1;
            && !c.local(s) && Ids(c, me, s) == {IdAt(c, me, s, Send), IdAt(c, me, s, Recv)}
            && IdAt(c, me, s, Send) == Id(me, Send, i, Up(w.n, me, Pow2(i)))
            && IdAt(c, me, s, Recv) == Id(me, Recv, i, Down(w.n, me, Pow2(i)))
            && c.send(me, s) == Action(SendTemp, 0, SentBlocks(w, i) * w.nelems, map[])
            && c.recv(me, s) == Action(RecvPacked, 0, SentBlocks(w, i) * w.nelems, map[])
  {
    hide Up, Down, Pow2, ShuffleOf, SentBlocks, Alltoall.Held;
    assert (3 * i + 1) / 3 == i;
  }

  lemma UnpackIs(w: Setup, me: nat, i: nat)
    requires Ok(w) && i < w.l && me < w.n
    ensures var c := Schedule(w);
            var s := 3 * i + 2;
            && c.local(s) && Ids(c, me, s) == {Id(me, Shuffle, i, 1)}
            && IdAt(c, me, s, Shuffle) == Id(me, Shuffle, i, 1) && c.shuffle(me, s) == ShuffleOf(w, i, false)
  {
    hide Up, Down, Pow2, ShuffleOf, SentBlocks, Alltoall.Held;
    assert (3 * i + 2) / 3 == i && (3 * i + 2) % 3 == 2;
  }

  /** One round of initDag: pack, exchange, unpack. */
  method LayRound(actor: DagActor, w: Setup, me: nat, i: nat, send: Id, recv: Id, nelemsRound: nat, partnerGap: nat,
                  prevShuffle: Option<Id>)
    returns (recvShuffle: Id)
    requires Ok(w) && me < w.n && i < w.l && partnerGap == Pow2(i) <= w.n && Laying(Schedule(w), me, actor.F(), 3 * i)
    requires send == Id(me, Send, i, Up(w.n, me, partnerGap)) && recv == Id(me, Recv, i, Down(w.n, me, partnerGap))
    requires nelemsRound == SentBlocks(w, i) * w.nelems
    requires prevShuffle == if i == 0 then None else Some(Id(me, Shuffle, i - 1, 1))
    modifies actor
    ensures Laying(Schedule(w), me, actor.F(), 3 * i + 3) && recvShuffle == Id(me, Shuffle, i, 1)
  {
    hide Laying, Schedule, Good, Up, Down, Pow2, SentBlocks, ToTemp, FromTemp, Ids;
    ScheduleGood(w);
    GapIs(w, me, i);
    PackIs(w, me, i);
    MoveIs(w, me, i);
    UnpackIs(w, me, i);
    if i > 0 {
      UnpackIs(w, me, i - 1);
    }
    var sendShuffle := Id(me, Shuffle, i, 0);
    recvShuffle := Id(me, Shuffle, i, 1);
    LayShuffle(actor, Schedule(w), me, 3 * i, sendShuffle, Action(Local, partnerGap, nelemsRound, ToTemp(w, i)),
               prevShuffle, prevShuffle);
    LayFromShuffle(actor, Schedule(w), me, 3 * i + 1, send, Action(SendTemp, 0, nelemsRound, map[]),
                   recv, Action(RecvPacked, 0, nelemsRound, map[]), sendShuffle);
    LayShuffle(actor, Schedule(w), me, 3 * i + 2, recvShuffle, Action(Local, partnerGap, nelemsRound, FromTemp(w, i)),
               Some(send), Some(recv));
  }

  /** The blocks a rank sends in a round: the whole intervals of the send window and what is left over. */
  method CountBlocks(nproc: nat, partnerGap: nat) returns (numSendBlocks: nat)
    requires 0 < partnerGap < nproc
    ensures numSendBlocks == |Moving(nproc, partnerGap)| == NumSendBlocks(nproc, partnerGap)
  {
    var intervalSendSize := partnerGap;
    var elemStride := partnerGap * 2;
    var bruckIntervalSize := elemStride;
    var sendWindowSize := nproc - partnerGap;
    var numBruckIntervals := sendWindowSize / bruckIntervalSize;
    numSendBlocks := numBruckIntervals * intervalSendSize;
    var remainder := sendWindowSize % bruckIntervalSize;
    var extraSendBlocks := if remainder < intervalSendSize then remainder else intervalSendSize;
    numSendBlocks := numSendBlocks + extraSendBlocks;
    NumSendBlocksCounts(nproc, partnerGap);
  }

  /** BruckAlltoallActor::initDag. */
  method InitDag(actor: DagActor, nproc: nat, me: nat, nelems: nat) returns (w: Setup)
    requires me < nproc
    requires Built(actor.F()) && actor.acts == map[] && actor.pending == []
    modifies actor
    ensures Ok(w) && w.n == nproc && w.nelems == nelems
    ensures Built(actor.F()) && Knows(Prog(Schedule(w), actor.cfg), me, actor.F())
    ensures forall e :: e in actor.pending <==> e in Prog(Schedule(w), actor.cfg).edges && e.1.rank == me
  {
    hide Laying, Schedule, Good, Up, Down, Built, Knows, Prog, NumSendBlocks, Moving;
    var log2nproc, midpoint, numRounds, nprocsExtraRound := BruckDag.ComputeBruckTree(nproc);
    w := Setup(nproc, log2nproc, nelems);
    NothingLaid(Schedule(w), me, actor.F());
    var partnerGap := 1;
    var prevShuffle: Option<Id> := None;
    if nprocsExtraRound != 0 {
      numRounds := numRounds + 1;
    }
    for round := 0 to numRounds
      invariant Laying(Schedule(w), me, actor.F(), 3 * round)
      invariant partnerGap == Pow2(round)
      invariant prevShuffle == if round == 0 then None else Some(Id(me, Shuffle, round - 1, 1))
    {
      TempFits(w, round);
      Around(nproc, me, partnerGap);
      var upPartner, downPartner := (me + partnerGap) % nproc, (me - partnerGap + nproc) % nproc;
      var numSendBlocks := CountBlocks(nproc, partnerGap);
      var recvShuffle := LayRound(actor, w, me, round, Id(me, Send, round, upPartner), Id(me, Recv, round, downPartner),
                                  numSendBlocks * nelems, partnerGap, prevShuffle);
      prevShuffle := Some(recvShuffle);
      partnerGap := partnerGap * 2;
    }
    ShareBuilt(w, actor.cfg, me, actor.F());
  }

  lemma ShareBuilt(w: Setup, cfg: Config, me: nat, f: Fields)
    requires Ok(w) && me < w.n && Laying(Schedule(w), me, f, 3 * w.l)
    ensures Built(f) && Knows(Prog(Schedule(w), cfg), me, f)
    ensures forall e :: e in f.pending <==> e in Prog(Schedule(w), cfg).edges && e.1.rank == me
  {
    hide Laying, Built, Good, Knows, Prog;
    ScheduleGood(w);
    AllLaid(Schedule(w), cfg, me, f);
  }

  // ---------------------------------------------------------------- buffers

  /** Two copies from another buffer. */
  lemma TwoCopies(was: seq<Val>, src: seq<Val>, off: nat)
    requires |was| == |src| && off <= |src|
    ensures Stored(Stored(was, 0, src[off..]), |src| - off, src[..off]) == Wound(src, off)
  {
  }

  /** What the two copies of an in-place call leave: the second one repeats what the first has put in front. */
  function Overwritten(src: seq<Val>, off: nat): (r: seq<Val>)
    requires off <= |src|
    ensures |r| == |src|
  {
    if off == |src| then src else src[off..] + Repeated(src[off..], off)
  }

  lemma TwoCopiesInPlace(was: seq<Val>, off: nat)
    requires off < |was|
    ensures var half := Stored(was, 0, was[off..]);
            Stored(half, |was| - off, Repeated(half[..|was| - off], off)) == Overwritten(was, off)
  {
    hide Repeated;
    assert Stored(was, 0, was[off..])[..|was| - off] == was[off..];
  }

  /** BruckAlltoallActor::initBuffers; an in-place call has one buffer for both. */
  method InitBuffers(w: Setup, result: array<Val>, src: array<Val>, me: nat)
    requires me < w.n && result.Length == src.Length == RecvBase(w)
    modifies result
    ensures result != src ==> result[..] == Wound(src[..], Offset(w, me))
    ensures result == src ==> result[..] == Overwritten(old(src[..]), Offset(w, me))
  {
    hide Overwritten, Wound, Repeated;
    ghost var was, from, off := result[..], src[..], Offset(w, me);
    var offset := me * w.nelems;
    var totalSize := w.n * w.nelems;
    var copySize := totalSize - offset;
    assert src[offset..offset + copySize] == from[off..];
    MemCopy(result, 0, src, offset, copySize);
    ghost var half := result[..];
    assert src[0..offset] == src[..][..off] && src[0..copySize] == src[..][..copySize];
    MemCopy(result, copySize, src, 0, offset);
    if result != src {
      TwoCopies(was, from, off);
    } else if copySize > 0 {
      TwoCopiesInPlace(was, off);
    } else {
      AllBehind(was, half, off);
    }
  }

  lemma AllBehind(was: seq<Val>, half: seq<Val>, off: nat)
    requires off == |was| == 0 && |half| == 0
    ensures Overwritten(was, off) == half
  {
  }

  /**
   * Both copies of an in-place call read one buffer, and the second finds what
   * the first has left there: only on rank 0, which has nothing to rotate, and
   * for empty blocks does this leave the rotation of the rank's own blocks.
   */
  lemma InPlaceIff(w: Setup, me: nat)
    requires me < w.n
    ensures Overwritten(Own(w, me), Offset(w, me)) == Wound(Own(w, me), Offset(w, me)) <==> me == 0 || w.nelems == 0
  {
    hide Overwritten, Wound;
    var off, src := Offset(w, me), Own(w, me);
    if me == 0 || w.nelems == 0 {
      NothingMoves(src);
    } else {
      ChunkFits(w.n, w.nelems, me);
      assert me * w.nelems == w.nelems + (me - 1) * w.nelems;
      FrontLost(src, off);
    }
  }

  lemma NothingMoves(src: seq<Val>)
    ensures Overwritten(src, 0) == src == Wound(src, 0)
  {
  }

  /** The first element should end up behind the rotated part; what arrives there is the new first element. */
  lemma FrontLost(src: seq<Val>, off: nat)
    requires 0 < off < |src|
    ensures |Wound(src, off)| == |src|
    ensures Overwritten(src, off)[|src| - off] == src[off] && Wound(src, off)[|src| - off] == src[0]
  {
    assert 0 % |src[off..]| == 0;
  }

  /** The blocks below `i` have been moved. */
  ghost predicate Moved(w: Setup, me: nat, was: seq<Val>, u: seq<Val>, i: nat)
    requires me < w.n
  {
    && |was| == |u| == RecvBase(w)
    && forall x: nat | x < |u| && BlockFor(w, me, x) < i :: u[x] == was[UnwindsFrom(w, me, x)]
  }

  lemma MovesOne(w: Setup, me: nat, was: seq<Val>, u: seq<Val>, i: nat)
    requires me < w.n && i < w.n && Moved(w, me, was, u, i)
    ensures Down(w.n, me, i) < w.n
    ensures Down(w.n, me, i) * w.nelems + w.nelems <= |u| && i * w.nelems + w.nelems <= |was|
    ensures Moved(w, me, was, Stored(u, Down(w.n, me, i) * w.nelems, was[i * w.nelems..i * w.nelems + w.nelems]), i + 1)
  {
    hide Down, ChunkOf, BlockFor, UnwindsFrom;
    NeighboursWithin(w.n, me, i);
    ChunkFits(w.n, w.nelems, i);
    ChunkFits(w.n, w.nelems, Down(w.n, me, i));
    var lo := Down(w.n, me, i) * w.nelems;
    var next := Stored(u, lo, was[i * w.nelems..i * w.nelems + w.nelems]);
    forall x: nat | x < |u| && BlockFor(w, me, x) < i + 1 ensures next[x] == was[UnwindsFrom(w, me, x)] {
      BlockMoved(w, me, i, x);
    }
  }

  lemma AllMoved(w: Setup, me: nat, was: seq<Val>, u: seq<Val>)
    requires me < w.n && Moved(w, me, was, u, w.n)
    ensures u == Unwound(w, me, was)
  {
    hide BlockFor, UnwindsFrom;
  }

  /** The reordering loop of finalize: block `i` goes to place `me - i`. */
  method Finalize(w: Setup, result: array<Val>, me: nat)
    requires me < w.n && result.Length == RecvBase(w)
    modifies result
    ensures result[..] == Unwound(w, me, old(result[..]))
  {
    hide Down, Unwound, Moved;
    var tmp := new Val[result.Length](_ => multiset{});
    ghost var was := result[..];
    NoneMoved(w, me, was, tmp[..]);
    for i := 0 to w.n
      invariant result[..] == was && Moved(w, me, was, tmp[..], i)
    {
      MovesOne(w, me, was, tmp[..], i);
      Around(w.n, me, i);
      var dstIndex := (me + w.n - i) % w.n;
      assert result[i * w.nelems..i * w.nelems + w.nelems] == was[i * w.nelems..i * w.nelems + w.nelems];
      MemCopy(tmp, dstIndex * w.nelems, result, i * w.nelems, w.nelems);
    }
    AllMoved(w, me, was, tmp[..]);
    MemCopy(result, 0, tmp, 0, result.Length);
    assert tmp[0..tmp.Length] == tmp[..];
    assert result[..] == tmp[..];
  }

  lemma NoneMoved(w: Setup, me: nat, was: seq<Val>, u: seq<Val>)
    requires me < w.n && |was| == |u| == RecvBase(w)
    ensures Moved(w, me, was, u, 0)
  {
  }

  /** Element `x` lies in the block written in iteration `i` exactly if its block came from `i`. */
  lemma BlockMoved(w: Setup, me: nat, i: nat, x: nat)
    requires me < w.n && i < w.n && x < RecvBase(w)
    ensures Span(x, Down(w.n, me, i) * w.nelems, w.nelems) <==> BlockFor(w, me, x) == i
    ensures BlockFor(w, me, x) == i ==>
              UnwindsFrom(w, me, x) == i * w.nelems + (x - Down(w.n, me, i) * w.nelems)
  {
    hide Down, ChunkOf;
    ChunkBelow(w.nelems, w.n, x);
    InChunk(w.nelems, Down(w.n, me, i), x);
    DownSwap(w.n, me, ChunkOf(w.nelems, x), i);
  }
}
