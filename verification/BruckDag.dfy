/**
 * The Bruck allgather actors, equal counts (allgather) and arbitrary counts
 * (allgatherv): buffers before and after, and the DAG that initDag builds.
 */
module BruckDag {
  import opened Actions
  import opened ActorState
  import opened Executor
  import opened Wilke
  import opened Trees
  import opened Chains
  import opened ChainDag
  import opened Buffers
  import opened Ranks
  import opened Bruck

  // ---------------------------------------------------------------- rounds

  /** Full rounds; a further partial one follows unless the rank count is a power of two. */
  function FullRounds(b: Setup): nat
    requires Ok(b)
  {
    if Pow2(b.l) == b.N() then b.l else b.l - 1
  }

  lemma FullRound(b: Setup, i: nat)
    requires Ok(b) && i < FullRounds(b)
    ensures Gained(b, i) == Pow2(i) && RoundAt(b, i) == i && i < b.l
  {
    Pow2Mono(i + 1, FullRounds(b));
  }

  lemma LastRound(b: Setup)
    requires Ok(b) && Pow2(b.l) != b.N()
    ensures b.l == FullRounds(b) + 1 && RoundAt(b, b.l - 1) == b.l - 1 + b.extra
    ensures Gained(b, b.l - 1) == b.N() - Pow2(b.l - 1)
  {
  }

  lemma ScheduleIs(b: Setup, me: nat, s: nat)
    requires Ok(b) && s < b.l && me < b.N()
    ensures var c := Schedule(b);
            && c.n == b.N() && c.steps == b.l && !c.local(s)
            && Pow2(s) <= b.N()
            && IdAt(c, me, s, Send) == Id(me, Send, RoundAt(b, s), Down(b.N(), me, Pow2(s)))
            && IdAt(c, me, s, Recv) == Id(me, Recv, RoundAt(b, s), Up(b.N(), me, Pow2(s)))
            && c.send(me, s) == Sending(b, me, s) && c.recv(me, s) == Receiving(b, me, s)
  {
    GapFits(b, s);
    hide Prefix, Up, Down, RoundAt, Pow2;
  }

  /** Append round `s` to the DAG. */
  method LayRound(actor: DagActor, b: Setup, me: nat, s: nat,
                  send: Id, sendAction: Action, recv: Id, recvAction: Action,
                  prevSend: Option<Id>, prevRecv: Option<Id>)
    requires Ok(b) && me < b.N() && s < b.l && Pow2(s) <= b.N() && Laying(Schedule(b), me, actor.F(), s)
    requires send == Id(me, Send, RoundAt(b, s), Down(b.N(), me, Pow2(s))) && sendAction == Sending(b, me, s)
    requires recv == Id(me, Recv, RoundAt(b, s), Up(b.N(), me, Pow2(s))) && recvAction == Receiving(b, me, s)
    requires prevSend == Previous(Schedule(b), me, s, Send) && prevRecv == Previous(Schedule(b), me, s, Recv)
    modifies actor
    ensures Laying(Schedule(b), me, actor.F(), s + 1)
    ensures Some(send) == Previous(Schedule(b), me, s + 1, Send) && Some(recv) == Previous(Schedule(b), me, s + 1, Recv)
  {
    hide Laying, Schedule, Sending, Receiving, Up, Down, Good, Pow2;
    ScheduleGood(b);
    ScheduleIs(b, me, s);
    NotLocal(b);
    LayExchange(actor, Schedule(b), me, s, send, sendAction, recv, recvAction, prevSend, prevRecv);
  }

  lemma NotLocal(b: Setup)
    requires Ok(b)
    ensures forall s: nat :: !Schedule(b).local(s)
  {
  }

  lemma Begun(b: Setup, me: nat, f: Fields)
    requires Ok(b) && Built(f) && f.acts == map[] && f.pending == []
    ensures Laying(Schedule(b), me, f, 0)
    ensures Previous(Schedule(b), me, 0, Send) == None && Previous(Schedule(b), me, 0, Recv) == None
  {
    NothingLaid(Schedule(b), me, f);
  }

  lemma ShareBuilt(b: Setup, cfg: Config, me: nat, f: Fields)
    requires Ok(b) && me < b.N() && Laying(Schedule(b), me, f, b.l)
    ensures Built(f) && Knows(Prog(Schedule(b), cfg), me, f)
    ensures forall e :: e in f.pending <==> e in Prog(Schedule(b), cfg).edges && e.1.rank == me
  {
    hide Laying, Built, Good, Knows, Prog;
    ScheduleGood(b);
    AllLaid(Schedule(b), cfg, me, f);
  }

  // ---------------------------------------------------------------- allgatherv

  /** The constructor's loop: where this rank's block belongs, and the length of all blocks. */
  method Offsets(counts: seq<nat>, me: nat) returns (myOffset: nat, total: nat)
    requires me < |counts|
    ensures var b := Setup(counts, 0, 0); myOffset == Prefix(b, 0, me) && total == Prefix(b, 0, |counts|)
  {
    ghost var b := Setup(counts, 0, 0);
    myOffset, total := 0, 0;
    for i := 0 to |counts|
      invariant total == Prefix(b, 0, i)
      invariant i > me ==> myOffset == Prefix(b, 0, me)
    {
      ModOnce(|counts|, i);
      if i == me {
        myOffset := total;
      }
      total := total + counts[i];
    }
  }

  /** nelems_to_recv. */
  method NelemsToRecv(b: Setup, partner: nat, partnerGap: nat) returns (nelems: nat)
    requires b.N() > 0
    ensures nelems == Prefix(b, partner, partnerGap)
  {
    nelems := 0;
    for p := 0 to partnerGap
      invariant nelems == Prefix(b, partner, p)
    {
      var actualPartner := (partner + p) % b.N();
      nelems := nelems + b.counts[actualPartner];
    }
  }

  /** In round `s` the partner sends as many elements as a walk over its counts gives. */
  lemma RoundLengths(b: Setup, me: nat, s: nat)
    requires Ok(b) && me < b.N() && s < b.l
    ensures Pow2(s) <= b.N()
    ensures Prefix(b, Up(b.N(), me, Pow2(s)), Gained(b, s)) == Prefix(b, me + Pow2(s), Gained(b, s))
    ensures Prefix(b, me, Pow2(s) + Gained(b, s)) == Prefix(b, me, Pow2(s)) + Prefix(b, me + Pow2(s), Gained(b, s))
  {
    hide Prefix, Up, Gained, Pow2;
    GapFits(b, s);
    UpWraps(b, me, Pow2(s), Gained(b, s), 0);
    PrefixSplit(b, me, Pow2(s), Gained(b, s));
  }

  /** The partial round's lengths, computed as remainders, are the missing blocks on both sides. */
  lemma RemainderLengths(b: Setup, me: nat)
    requires Ok(b) && me < b.N() && Pow2(b.l) != b.N()
    ensures b.l >= 1 && Pow2(b.l - 1) <= b.N()
    ensures var g := Pow2(b.l - 1);
            var total := Prefix(b, 0, b.N());
            && total - Prefix(b, Down(b.N(), me, g), g) == Prefix(b, me, b.N() - g)
            && total - Prefix(b, me, g) == Prefix(b, me + g, b.N() - g)
  {
    hide Prefix;
    var n := b.N();
    var g := Pow2(b.l - 1);
    var d := Down(n, me, g);
    PrefixSplit(b, me, g, n - g);
    PrefixSplit(b, d, g, n - g);
    TotalAnywhere(b, me);
    TotalAnywhere(b, d);
    Neighbours(n, me, g);
    if me < g {
      Wraps(b, me, n - g, 0);
    }
  }

  /** Full rounds and extra ranks, as initDag counts them. */
  method ComputeRoundsV(nproc: nat) returns (log2nproc: nat, numRounds: nat, numExtraProcs: nat)
    requires nproc >= 1
    ensures Pow2(log2nproc) >= nproc && (log2nproc > 0 ==> Pow2(log2nproc - 1) < nproc)
    ensures numRounds == if Pow2(log2nproc) == nproc then log2nproc else log2nproc - 1
    ensures numExtraProcs != 0 <==> Pow2(log2nproc) != nproc
  {
    var virtualNproc := 1;
    log2nproc := 0;
    while virtualNproc < nproc
      invariant virtualNproc == Pow2(log2nproc) && (log2nproc > 0 ==> Pow2(log2nproc - 1) < nproc)
      decreases nproc - virtualNproc
    {
      log2nproc := log2nproc + 1;
      virtualNproc := virtualNproc * 2;
    }
    numRounds, numExtraProcs := log2nproc, 0;
    if virtualNproc > nproc {
      numRounds := numRounds - 1;
      numExtraProcs := nproc - virtualNproc / 2;
    }
  }

  /** The loop over the full rounds. */
  method LayFullRoundsV(actor: DagActor, b: Setup, me: nat, numRounds: nat)
    returns (partnerGap: nat, nelemsRecvd: nat, prevSend: Option<Id>, prevRecv: Option<Id>)
    requires Ok(b) && me < b.N() && numRounds == FullRounds(b) && Laying(Schedule(b), me, actor.F(), 0)
    requires Previous(Schedule(b), me, 0, Send) == None && Previous(Schedule(b), me, 0, Recv) == None
    modifies actor
    ensures Laying(Schedule(b), me, actor.F(), numRounds)
    ensures partnerGap == Pow2(numRounds) && nelemsRecvd == Prefix(b, me, partnerGap)
    ensures prevSend == Previous(Schedule(b), me, numRounds, Send)
    ensures prevRecv == Previous(Schedule(b), me, numRounds, Recv)
  {
    hide Laying, Schedule, Up, Down, Prefix, Previous;
    var nproc := b.N();
    partnerGap, nelemsRecvd := 1, b.counts[me];
    OwnCount(b, me);
    prevSend, prevRecv := None, None;
    for i := 0 to numRounds
      invariant Laying(Schedule(b), me, actor.F(), i)
      invariant partnerGap == Pow2(i) && nelemsRecvd == Prefix(b, me, partnerGap)
      invariant prevSend == Previous(Schedule(b), me, i, Send) && prevRecv == Previous(Schedule(b), me, i, Recv)
    {
      FullRound(b, i);
      RoundLengths(b, me, i);
      Around(nproc, me, partnerGap);
      var sendPartner := (me + nproc - partnerGap) % nproc;
      var recvPartner := (me + partnerGap) % nproc;
      var send, recv := Id(me, Send, i, sendPartner), Id(me, Recv, i, recvPartner);
      var toRecv := NelemsToRecv(b, recvPartner, partnerGap);
      LayRound(actor, b, me, i, send, Action(SendInPlace, 0, nelemsRecvd, map[]),
               recv, Action(RecvInPlace, nelemsRecvd, toRecv, map[]), prevSend, prevRecv);
      partnerGap := partnerGap * 2;
      nelemsRecvd := nelemsRecvd + toRecv;
      prevSend, prevRecv := Some(send), Some(recv);
    }
  }

  /** The partial last round: what is still missing, on either side. */
  method LayLastRoundV(actor: DagActor, b: Setup, me: nat, totalNelems: nat, numRounds: nat, partnerGap: nat,
                       nelemsRecvd: nat, prevSend: Option<Id>, prevRecv: Option<Id>)
    requires Ok(b) && me < b.N() && b.extra == 0 && Pow2(b.l) != b.N() && numRounds == FullRounds(b)
    requires totalNelems == Prefix(b, 0, b.N())
    requires partnerGap == Pow2(numRounds) && nelemsRecvd == Prefix(b, me, partnerGap)
    requires Laying(Schedule(b), me, actor.F(), numRounds)
    requires prevSend == Previous(Schedule(b), me, numRounds, Send)
    requires prevRecv == Previous(Schedule(b), me, numRounds, Recv)
    modifies actor
    ensures Laying(Schedule(b), me, actor.F(), b.l)
  {
    hide Laying, Schedule, Up, Down, Prefix, Previous;
    LastRound(b);
    RemainderLengths(b, me);
    Around(b.N(), me, partnerGap);
    var nproc, nelemsExtraRound := b.N(), totalNelems - nelemsRecvd;
    var sendPartner := (me + nproc - partnerGap) % nproc;
    var recvPartner := (me + partnerGap) % nproc;
    var send, recv := Id(me, Send, numRounds, sendPartner), Id(me, Recv, numRounds, recvPartner);
    var partnerHas := NelemsToRecv(b, sendPartner, partnerGap);
    LayRound(actor, b, me, numRounds, send, Action(SendInPlace, 0, totalNelems - partnerHas, map[]),
             recv, Action(RecvInPlace, nelemsRecvd, nelemsExtraRound, map[]), prevSend, prevRecv);
  }

  /** BruckAllgathervActor::initDag. */
  method InitDagV(actor: DagActor, counts: seq<nat>, me: nat, totalNelems: nat) returns (b: Setup)
    requires me < |counts| && totalNelems == Prefix(Setup(counts, 0, 0), 0, |counts|)
    requires Built(actor.F()) && actor.acts == map[] && actor.pending == []
    modifies actor
    ensures b.counts == counts && b.extra == 0 && Ok(b)
    ensures Built(actor.F()) && Knows(Prog(Schedule(b), actor.cfg), me, actor.F())
    ensures forall e :: e in actor.pending <==> e in Prog(Schedule(b), actor.cfg).edges && e.1.rank == me
  {
    hide Laying, Schedule, Up, Down, Prefix, Built, Knows, Prog, Pow2;
    var log2nproc, numRounds, numExtraProcs := ComputeRoundsV(|counts|);
    b := Setup(counts, log2nproc, 0);
    SameTotal(b);
    Begun(b, me, actor.F());
    var partnerGap, nelemsRecvd, prevSend, prevRecv := LayFullRoundsV(actor, b, me, numRounds);
    if numExtraProcs != 0 {
      LayLastRoundV(actor, b, me, totalNelems, numRounds, partnerGap, nelemsRecvd, prevSend, prevRecv);
    }
    ShareBuilt(b, actor.cfg, me, actor.F());
  }

  lemma OwnCount(b: Setup, me: nat)
    requires me < b.N()
    ensures Prefix(b, me, 1) == b.counts[me]
  {
    ModOnce(b.N(), me);
    assert Prefix(b, me, 0) == 0;
    assert Prefix(b, me, 1) == b.counts[(me + 1 - 1) % b.N()];
  }

  lemma {:induction false} CountsOnly(b: Setup, d: Setup, r: nat, g: nat)
    requires b.N() > 0 && b.counts == d.counts
    ensures Prefix(b, r, g) == Prefix(d, r, g)
  {
    if g > 0 {
      CountsOnly(b, d, r, g - 1);
    }
  }

  lemma SameTotal(b: Setup)
    requires b.N() > 0
    ensures Prefix(b, 0, b.N()) == Prefix(Setup(b.counts, 0, 0), 0, b.N())
  {
    CountsOnly(b, Setup(b.counts, 0, 0), 0, b.N());
  }

  // ---------------------------------------------------------------- allgather

  /** Equal counts: `g` blocks are `g` times as long as one. */
  lemma {:induction false} EqualBlocks(b: Setup, r: nat, g: nat, nelems: nat)
    requires b.N() > 0 && forall k | 0 <= k < b.N() :: b.counts[k] == nelems
    ensures Prefix(b, r, g) == g * nelems
  {
    if g > 0 {
      EqualBlocks(b, r, g - 1, nelems);
    }
  }

  /** BruckTree::computeTree. */
  method ComputeBruckTree(nproc: nat) returns (log2nproc: nat, midpoint: nat, numRounds: nat, nprocsExtraRound: nat)
    requires nproc >= 1
    ensures nproc <= Pow2(log2nproc)
    ensures log2nproc > 0 ==> Pow2(log2nproc - 1) < nproc && midpoint == Pow2(log2nproc - 1)
    ensures numRounds == if Pow2(log2nproc) == nproc then log2nproc else log2nproc - 1
    ensures nprocsExtraRound == if Pow2(log2nproc) == nproc then 0 else nproc - midpoint
    ensures log2nproc > 0 || nproc == 1
  {
    var virtualNproc;
    log2nproc, midpoint, virtualNproc := ComputeTree(nproc);
    nprocsExtraRound, numRounds := 0, log2nproc;
    if nproc != virtualNproc {
      numRounds := numRounds - 1;
      nprocsExtraRound := nproc - midpoint;
    }
  }

  lemma EqualActions(b: Setup, me: nat, s: nat, nelems: nat)
    requires b.N() > 0 && forall k | 0 <= k < b.N() :: b.counts[k] == nelems
    ensures Sending(b, me, s) == Action(SendInPlace, 0, Gained(b, s) * nelems, map[])
    ensures Receiving(b, me, s) == Action(RecvInPlace, Pow2(s) * nelems, Gained(b, s) * nelems, map[])
  {
    EqualBlocks(b, me, Gained(b, s), nelems);
    EqualBlocks(b, me, Pow2(s), nelems);
    EqualBlocks(b, me + Pow2(s), Gained(b, s), nelems);
  }

  /** The loop over the full rounds. */
  method LayFullRounds(actor: DagActor, b: Setup, me: nat, nelems: nat, numRounds: nat)
    returns (partnerGap: nat, roundNelems: nat, prevSend: Option<Id>, prevRecv: Option<Id>)
    requires Ok(b) && me < b.N() && b.counts == seq(b.N(), _ => nelems) && numRounds == FullRounds(b)
    requires Laying(Schedule(b), me, actor.F(), 0)
    requires Previous(Schedule(b), me, 0, Send) == None && Previous(Schedule(b), me, 0, Recv) == None
    modifies actor
    ensures Laying(Schedule(b), me, actor.F(), numRounds)
    ensures partnerGap == Pow2(numRounds) && roundNelems == partnerGap * nelems
    ensures prevSend == Previous(Schedule(b), me, numRounds, Send)
    ensures prevRecv == Previous(Schedule(b), me, numRounds, Recv)
  {
    hide Laying, Schedule, Up, Down, Prefix, Sending, Receiving, Previous;
    var nproc := b.N();
    partnerGap, roundNelems := 1, nelems;
    prevSend, prevRecv := None, None;
    for i := 0 to numRounds
      invariant Laying(Schedule(b), me, actor.F(), i)
      invariant partnerGap == Pow2(i) && roundNelems == partnerGap * nelems
      invariant prevSend == Previous(Schedule(b), me, i, Send) && prevRecv == Previous(Schedule(b), me, i, Recv)
    {
      FullRound(b, i);
      GapFits(b, i);
      EqualActions(b, me, i, nelems);
      Around(nproc, me, partnerGap);
      var send := Id(me, Send, i, (me + nproc - partnerGap) % nproc);
      var recv := Id(me, Recv, i, (me + partnerGap) % nproc);
      LayRound(actor, b, me, i, send, Action(SendInPlace, 0, roundNelems, map[]),
               recv, Action(RecvInPlace, roundNelems, roundNelems, map[]), prevSend, prevRecv);
      Doubled(partnerGap, nelems);
      partnerGap := partnerGap * 2;
      roundNelems := roundNelems * 2;
      prevSend, prevRecv := Some(send), Some(recv);
    }
  }

  /** BruckActor::initDag. */
  method InitDag(actor: DagActor, nproc: nat, me: nat, nelems: nat) returns (b: Setup)
    requires me < nproc
    requires Built(actor.F()) && actor.acts == map[] && actor.pending == []
    modifies actor
    ensures b.counts == seq(nproc, _ => nelems) && b.extra == 1 && Ok(b)
    ensures Built(actor.F()) && Knows(Prog(Schedule(b), actor.cfg), me, actor.F())
    ensures forall e :: e in actor.pending <==> e in Prog(Schedule(b), actor.cfg).edges && e.1.rank == me
  {
    hide Laying, Schedule, Up, Down, Prefix, Built, Knows, Prog, Sending, Receiving, Previous;
    var log2nproc, midpoint, numRounds, nprocsExtraRound := ComputeBruckTree(nproc);
    b := Setup(seq(nproc, _ => nelems), log2nproc, 1);
    Begun(b, me, actor.F());
    var partnerGap, roundNelems, prevSend, prevRecv := LayFullRounds(actor, b, me, nelems, numRounds);
    if nprocsExtraRound != 0 {
      LastRound(b);
      GapFits(b, numRounds);
      EqualActions(b, me, numRounds, nelems);
      var nelemsExtraRound := nprocsExtraRound * nelems;
      Around(nproc, me, partnerGap);
      var send := Id(me, Send, numRounds + 1, (me + nproc - partnerGap) % nproc);
      var recv := Id(me, Recv, numRounds + 1, (me + partnerGap) % nproc);
      LayRound(actor, b, me, numRounds, send, Action(SendInPlace, 0, nelemsExtraRound, map[]),
               recv, Action(RecvInPlace, roundNelems, nelemsExtraRound, map[]), prevSend, prevRecv);
    }
    ShareBuilt(b, actor.cfg, me, actor.F());
  }

  lemma Doubled(g: nat, nelems: nat)
    ensures (g * 2) * nelems == (g * nelems) * 2
  {
  }

  // ---------------------------------------------------------------- buffers

  /** initBuffers, both actors: this rank's block goes to the front of the result buffer. */
  method InitBuffers(result: array<Val>, src: array<Val>, me: nat, myOffset: nat, count: nat)
    requires count <= result.Length
    requires if src == result then myOffset + count <= result.Length && (me == 0 ==> myOffset == 0)
             else count <= src.Length
    modifies result
    ensures result[..count] == old(if src == result then src[myOffset..myOffset + count] else src[..count])
    ensures result[count..] == old(result[count..])
  {
    if result == src {
      if me != 0 {
        MemCopy(result, 0, src, myOffset, count);
      }
    } else {
      MemCopy(result, 0, src, 0, count);
    }
  }

  /** finalize, both actors: rank 0 need not reorder. */
  method Finalize(result: array<Val>, me: nat, myOffset: nat)
    requires myOffset <= result.Length && (me == 0 ==> myOffset == 0)
    modifies result
    ensures result[..] == Rotated(old(result[..]), myOffset)
  {
    if me != 0 {
      RotateBack(result, myOffset);
    }
  }
}
