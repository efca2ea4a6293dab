/**
 * An alltoall whose receive buffer is its send buffer: initBuffers leaves each
 * rank a damaged rotation, and this is what the collective then delivers.
 */
module AlltoallInPlace {
  import opened Actions
  import opened Outlines
  import opened Fabric
  import opened Runs
  import opened Wilke
  import opened Chains
  import opened Ranks
  import opened Buffers
  import opened Alltoall
  import opened AlltoallDag

  /** The result buffers hold what the two copies of initBuffers leave of the ranks' own blocks. */
  ghost predicate InPlace(w: Setup, mem: seq<seq<Val>>) {
    && Sized(w, mem)
    && forall r | 0 <= r < w.n :: mem[r][..RecvBase(w)] == Overwritten(Own(w, r), Offset(w, r))
  }

  /** A block is where the rotation puts it, or has been overwritten by an element of a block after rank `k`'s own. */
  lemma OverwrittenAt(w: Setup, k: nat, j: nat, y: nat) returns (z: nat)
    requires k < w.n && j < w.n && y < w.nelems
    ensures Overwritten(Own(w, k), Offset(w, k))[Cell(w, j, y)] == multiset{Token(k, z)}
    ensures if k + j < w.n then z == (k + j) * w.nelems + y else z >= k * w.nelems
  {
    hide Own, Repeated, Offset, Overwritten;
    var src, off, x := Own(w, k), Offset(w, k), Cell(w, j, y);
    OwnRank(w, k);
    WoundIndex(w.nelems, w.n, k, j, y);
    OffsetIs(w, k);
    z := OverwrittenIs(src, off, x);
    OwnAt(w, k, z);
  }

  lemma OffsetIs(w: Setup, k: nat)
    requires k < w.n
    ensures Offset(w, k) == k * w.nelems
  {
  }

  /** A rank's own block is within its buffer. */
  lemma OwnRank(w: Setup, k: nat)
    requires k < w.n
    ensures w.nelems > 0 ==> Offset(w, k) < RecvBase(w)
  {
    ChunkFits(w.n, w.nelems, k);
  }

  lemma OverwrittenIs(src: seq<Val>, off: nat, x: nat) returns (z: nat)
    requires off < |src| && x < |src|
    ensures off <= z < |src| && Overwritten(src, off)[x] == src[z]
    ensures off + x < |src| ==> z == off + x
  {
    hide Repeated;
    if off + x < |src| {
      z := off + x;
    } else {
      var i := RepeatedIs(src[off..], off, x - (|src| - off));
      z := off + i;
    }
  }

  lemma {:induction false} RepeatedIs(m: seq<Val>, len: nat, i: nat) returns (z: nat)
    requires m != [] && i < len
    ensures z < |m| && Repeated(m, len)[i] == m[z]
    decreases i
  {
    hide Repeated;
    RepeatedAt(m, len, i);
    if i < |m| {
      z := i;
    } else {
      z := RepeatedIs(m, len, i - |m|);
    }
  }

  /** Of the blocks meant for rank `r`, those of the ranks up to `r` are intact and all others are lost. */
  lemma SentIff(w: Setup, mem: seq<seq<Val>>, r: nat, k: nat, y: nat)
    requires InPlace(w, mem) && r < w.n && k < w.n && y < w.nelems
    ensures mem[k][Cell(w, BlockOf(w, r, k), y)] == multiset{Token(k, r * w.nelems + y)} <==> k <= r
  {
    hide Overwritten, Own, Offset, BlockOf, Cell;
    var j := BlockOf(w, r, k);
    BlockOfIs(w, r, k);
    assert mem[k][Cell(w, j, y)] == mem[k][..RecvBase(w)][Cell(w, j, y)];
    var z := OverwrittenAt(w, k, j, y);
    if k > r {
      Times(r + 1, k, w.nelems);
      assert (r + 1) * w.nelems == r * w.nelems + w.nelems;
    }
    assert multiset{Token(k, z)}[Token(k, z)] == 1;
  }

  /** Block `k` of rank `r`'s result is the one rank `k` had for it. */
  ghost predicate BlockArrives(w: Setup, r: nat, m: seq<Val>, k: nat)
    requires r < w.n && k < w.n
  {
    && |m| == Size(w)
    && var u := Unwound(w, r, m[..RecvBase(w)]);
       forall y: nat | y < w.nelems :: u[Cell(w, k, y)] == multiset{Token(k, r * w.nelems + y)}
  }

  lemma BlocksOfDelivered(w: Setup, r: nat, m: seq<Val>)
    requires r < w.n && |m| == Size(w)
    ensures Delivered(w, r, m) <==> forall k: nat | k < w.n :: BlockArrives(w, r, m, k)
  {
    hide Unwound, Cell;
    if forall k: nat | k < w.n :: BlockArrives(w, r, m, k) {
      forall k: nat, y: nat | k < w.n && y < w.nelems
        ensures Unwound(w, r, m[..RecvBase(w)])[Cell(w, k, y)] == multiset{Token(k, r * w.nelems + y)}
      {
        assert BlockArrives(w, r, m, k);
      }
    }
  }

  lemma ArrivesIff(w: Setup, mem: seq<seq<Val>>, r: nat, m: seq<Val>, k: nat)
    requires InPlace(w, mem) && r < w.n && k < w.n && Exchanged(w, mem, r, m)
    ensures BlockArrives(w, r, m, k) <==> k <= r || w.nelems == 0
  {
    hide InPlace, Unwound, BlockOf, Cell;
    var u := Unwound(w, r, m[..RecvBase(w)]);
    forall y: nat | y < w.nelems ensures u[Cell(w, k, y)] == multiset{Token(k, r * w.nelems + y)} <==> k <= r {
      SentIff(w, mem, r, k, y);
    }
    assert w.nelems > 0 ==> (u[Cell(w, k, 0)] == multiset{Token(k, r * w.nelems)} <==> k <= r);
  }

  lemma ResultIff(w: Setup, mem: seq<seq<Val>>, r: nat, m: seq<Val>)
    requires InPlace(w, mem) && r < w.n && Exchanged(w, mem, r, m)
    ensures Delivered(w, r, m) <==> r == w.n - 1 || w.nelems == 0
  {
    hide Exchanged, BlockArrives, Delivered, Overwritten, Own, Offset;
    SizeOf(w, mem, r, m);
    BlocksOfDelivered(w, r, m);
    forall k: nat | k < w.n ensures BlockArrives(w, r, m, k) <==> k <= r || w.nelems == 0 {
      ArrivesIff(w, mem, r, m, k);
    }
    assert BlockArrives(w, r, m, w.n - 1) <==> r == w.n - 1 || w.nelems == 0;
  }

  lemma SizeOf(w: Setup, mem: seq<seq<Val>>, r: nat, m: seq<Val>)
    requires r < w.n && Sized(w, mem) && Exchanged(w, mem, r, m)
    ensures |m| == Size(w)
  {
  }

  /**
   * The alltoall in place, in every run: healthy, and a finished rank `r` has
   * its block of rank `k` exactly if `k <= r`.  So its whole result is right if
   * and only if it is the last rank, or the blocks are empty.
   */
  lemma InPlaceAlltoallIff(w: Setup, cfg: Config, mem: seq<seq<Val>>, es: seq<Event>)
    requires Ok(w) && InPlace(w, mem) && Execution(Prog(Schedule(w), cfg), mem, es)
    ensures Healthy(Prog(Schedule(w), cfg), mem, es)
    ensures var p := Prog(Schedule(w), cfg);
            var t := Outcome(p, mem, es);
            forall r: nat | r < w.n && RankDone(p, t, r) ::
              && r < |t.mem|
              && (forall k: nat | k < w.n :: BlockArrives(w, r, t.mem[r], k) <==> k <= r || w.nelems == 0)
              && (Delivered(w, r, t.mem[r]) <==> r == w.n - 1 || w.nelems == 0)
  {
    hide Prog, Execution, Outcome, Healthy, RankDone, Delivered, BlockArrives, Exchanged, Size;
    var p := Prog(Schedule(w), cfg);
    AlltoallExchanges(w, cfg, mem, es);
    forall r: nat | r < w.n && RankDone(p, Outcome(p, mem, es), r)
      ensures var m := Outcome(p, mem, es).mem[r];
              && (forall k: nat | k < w.n :: BlockArrives(w, r, m, k) <==> k <= r || w.nelems == 0)
              && (Delivered(w, r, m) <==> r == w.n - 1 || w.nelems == 0)
    {
      var m := Outcome(p, mem, es).mem[r];
      ResultIff(w, mem, r, m);
      forall k: nat | k < w.n ensures BlockArrives(w, r, m, k) <==> k <= r || w.nelems == 0 {
        ArrivesIff(w, mem, r, m, k);
      }
    }
  }

  lemma BeginsHere(w: Setup, cfg: Config, mem: seq<seq<Val>>)
    requires Ok(w) && Sized(w, mem)
    ensures var p := Prog(Schedule(w), cfg);
            Valid(p, Plan(From(w, mem))) && Begins(p, Plan(From(w, mem)), mem) && p.n == w.n
  {
    hide Good, Valid, Prog;
    FromGood(w, mem, cfg);
    AnyStart(w, mem);
    PlanValid(From(w, mem), cfg);
    Layout(From(w, mem), cfg);
  }

  /** For any non-empty blocks there is a run that completes and leaves exactly the last rank the right result. */
  lemma InPlaceFails(w: Setup, cfg: Config, mem: seq<seq<Val>>) returns (es: seq<Event>)
    requires Ok(w) && InPlace(w, mem) && w.nelems > 0
    ensures var p := Prog(Schedule(w), cfg);
            && Execution(p, mem, es) && AllDone(p, Outcome(p, mem, es))
            && |Outcome(p, mem, es).mem| == w.n
            && forall r: nat | r < w.n :: Delivered(w, r, Outcome(p, mem, es).mem[r]) <==> r == w.n - 1
  {
    hide Good, Valid, Execution, Outcome, Delivered, BlockArrives, Healthy, Prog, Sound, Timed, From;
    hide Begins, Schedule, Ok, Sized, Overwritten, Own, Offset;
    BeginsHere(w, cfg, mem);
    ValidIsTimed(Prog(Schedule(w), cfg), Plan(From(w, mem)), mem);
    es := SomeRunCompletes(Prog(Schedule(w), cfg), Plan(From(w, mem)), mem);
    InPlaceAlltoallIff(w, cfg, mem, es);
  }

  /** The smallest case: one element for each of two ranks.  Rank 0 ends with a wrong result, rank 1 with its own. */
  lemma TwoRanksInPlace(cfg: Config) returns (w: Setup, mem: seq<seq<Val>>, es: seq<Event>)
    ensures w == Setup(2, 1, 1) && Ok(w) && InPlace(w, mem)
    ensures var p := Prog(Schedule(w), cfg);
            && Execution(p, mem, es) && AllDone(p, Outcome(p, mem, es)) && |Outcome(p, mem, es).mem| == 2
            && !Delivered(w, 0, Outcome(p, mem, es).mem[0]) && Delivered(w, 1, Outcome(p, mem, es).mem[1])
  {
    hide Execution, Outcome, Delivered, Prog, Schedule;
    w := Setup(2, 1, 1);
    assert Pow2(1) == 2 && Pow2(0) == 1;
    mem := seq(2, (r: nat) requires r < 2 =>
      Overwritten(Own(w, r), Offset(w, r)) + [multiset{}, multiset{}]);
    es := InPlaceFails(w, cfg, mem);
  }
}
