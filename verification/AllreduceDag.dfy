/** WilkeAllreduceActor::initDag builds this rank's share of the allreduce program. */
module AllreduceDag {
  import opened Actions
  import opened ActorState
  import opened Executor
  import opened Wilke
  import opened Exchange
  import opened ExchangeDag
  import opened Trees
  import opened Buffers
  import Allreduce

  /** All roles complete. */
  function Ends(w: Setup, k: nat): seq<nat> {
    seq(k, _ => 2 * w.l)
  }

  /** The fan-in loop of initDag for one role. */
  method FanIn(actor: DagActor, w: Setup, me: nat, v: nat, ghost done: seq<nat>,
               sends: seq<Option<Id>>, recvs: seq<Option<Id>>, prevSend: Option<Id>, prevRecv: Option<Id>)
    requires Ok(w) && v == Role0(w, me) + |done| && v < Pow2(w.l) && Real(w.dual, v) == me
    requires Filled(w, me, actor.F(), done + [w.l], map[], {})
    requires |sends| == |recvs| == w.l && Recorded(w, v, sends, Send) && Recorded(w, v, recvs, Recv)
    requires prevSend == Previous(w, v, w.l, Send) && prevRecv == Previous(w, v, w.l, Recv)
    modifies actor
    ensures Filled(w, me, actor.F(), done + [2 * w.l], map[], {})
  {
    hide Filled, Real, Partner;
    var prevS, prevR := prevSend, prevRecv;
    for i := 0 to w.l
      invariant Filled(w, me, actor.F(), done + [w.l + i], map[], {})
      invariant i < w.l ==> prevS == Previous(w, v, w.l + i, Send) && prevR == Previous(w, v, w.l + i, Recv)
    {
      var mirrorRound := w.l - i - 1;
      prevS, prevR := MirrorOnce(actor, w, me, v, w.l + i, done, sends[mirrorRound], recvs[mirrorRound],
                                 prevS, prevR, map[], {});
    }
  }

  lemma AllPlaced(w: Setup, me: nat, roles: nat, id: Id)
    requires Ok(w) && me < w.n && roles == (if me >= w.dual then 1 else 2)
    ensures Placed(w, me, Ends(w, roles), id) <==> IsExchange(w, id) && id.rank == me
  {
    hide Partner;
  }

  /**
   * initDag: the DAG built by the loops is exactly this rank's share of the
   * allreduce program that every rank's schedule together forms.
   */
  method InitDag(actor: DagActor, nproc: nat, me: nat, nelems: nat) returns (w: Setup)
    requires nproc >= 2 && me < nproc
    requires Built(actor.F()) && actor.acts == map[] && actor.pending == []
    modifies actor
    ensures Ok(w) && w.n == nproc && w.nelems == nelems
    ensures Built(actor.F()) && Knows(Allreduce.Prog(w, actor.cfg), me, actor.F())
    ensures forall e :: e in actor.pending <==> e in Allreduce.Prog(w, actor.cfg).edges && e.1.rank == me
  {
    hide Filled, IsExchange, Real, Partner, Recorded, Allreduce.Prog;
    var log2nproc, midpoint, virtualNproc := ComputeTree(nproc);
    w := Setup(nproc, log2nproc, virtualNproc - nproc, nelems);
    var roles := RealToVirtual(nproc, virtualNproc, me);
    NothingFilled(w, me, actor.F());
    for role := 0 to |roles|
      invariant Filled(w, me, actor.F(), Ends(w, role), map[], {})
    {
      RolesAre(w, me, roles, role);
      FilledOpen(w, me, actor.F(), Ends(w, role), map[], {});
      var sends, recvs, prevSend, prevRecv := FanOut(actor, w, me, roles, roles[role], Ends(w, role), map[], {});
      FanIn(actor, w, me, roles[role], Ends(w, role), sends, recvs, prevSend, prevRecv);
      assert Ends(w, role) + [2 * w.l] == Ends(w, role + 1);
    }
    ShareBuilt(w, actor.cfg, me, actor.F());
  }

  lemma NothingFilled(w: Setup, me: nat, f: Fields)
    requires Built(f) && f.acts == map[] && f.pending == []
    ensures Filled(w, me, f, Ends(w, 0), map[], {})
  {
  }

  lemma ShareBuilt(w: Setup, cfg: Config, me: nat, f: Fields)
    requires Ok(w) && me < w.n && Filled(w, me, f, Ends(w, if me >= w.dual then 1 else 2), map[], {})
    ensures Built(f) && Knows(Allreduce.Prog(w, cfg), me, f)
    ensures forall e :: e in f.pending <==> e in Allreduce.Prog(w, cfg).edges && e.1.rank == me
  {
    hide IsExchange, Placed, Built, ExchangeAction;
    forall id
      ensures Placed(w, me, Ends(w, if me >= w.dual then 1 else 2), id) <==> IsExchange(w, id) && id.rank == me
      ensures id in Allreduce.Prog(w, cfg).acts <==> IsExchange(w, id)
    {
      AllPlaced(w, me, if me >= w.dual then 1 else 2, id);
      Allreduce.Members(w, cfg, id);
    }
    forall e: (Id, Id) ensures e in Allreduce.Prog(w, cfg).edges <==> (e.0, e.1) in Allreduce.Prog(w, cfg).edges {
    }
  }

  /** initBuffers of allreduce and reduce: work on a copy of the input, unless it is there already. */
  method InitBuffers(dst: array<Val>, src: array<Val>, nelems: nat)
    requires nelems <= dst.Length && nelems <= src.Length
    modifies dst
    ensures dst[..nelems] == old(src[..nelems]) && dst[nelems..] == old(dst[nelems..])
  {
    if src != dst {
      MemCopy(dst, 0, src, 0, nelems);
    }
  }
}
