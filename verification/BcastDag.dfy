/** BinaryTreeBcastActor::initDag: both sides find the binomial tree by loops of their own. */
module BcastDag {
  import opened Actions
  import opened ActorState
  import opened Executor
  import opened Wilke
  import opened Binomial
  import opened Bcast

  /** Rank `me`'s receive, and its sends to children whose lowest bit is at position `i` or higher. */
  predicate Placed(w: Setup, me: nat, i: nat, id: Id)
    requires w.root < w.n
  {
    Has(w, id) && id.rank == me && (id.kind.Recv? || Low(Off(w, id.partner)) >= i)
  }

  ghost predicate Laying(w: Setup, me: nat, f: Fields, i: nat)
    requires w.root < w.n
  {
    && Built(f)
    && (forall id :: id in f.acts <==> Placed(w, me, i, id))
    && (forall id | id in f.acts :: f.acts[id] == Act(w, id))
    && (forall e :: e in f.pending <==> Placed(w, me, i, e.0) && Placed(w, me, i, e.1) && Edge(e.0, e.1))
  }

  /** The child of offset `v` whose lowest bit is `i`, if there is one. */
  lemma ChildOf(w: Setup, me: nat, i: nat, id: Id)
    requires Ok(w) && me < w.n && (Off(w, me) > 0 ==> Low(Off(w, me)) > i)
    ensures var u := Off(w, me) + Pow2(i);
            (Has(w, id) && id.rank == me && id.kind.Send? && Low(Off(w, id.partner)) == i)
            <==> u < w.n && id == Id(me, Send, 0, RankAt(w, u))
  {
    hide Off, RankAt;
    var u := Off(w, me) + Pow2(i);
    ChildBit(Off(w, me), i);
    if u < w.n {
      OffsetsInverse(w, u);
    }
    if id.partner < w.n {
      OffsetsInverse(w, id.partner);
    }
    OffsetsInverse(w, me);
  }

  /** Children of a non-zero offset have lower lowest bits, all children fit the tree. */
  lemma ChildrenLower(w: Setup, me: nat, id: Id)
    requires Ok(w) && Has(w, id) && id.rank == me && id.kind.Send?
    ensures Off(w, id.partner) > 0
    ensures Low(Off(w, id.partner)) < if Off(w, me) > 0 then Low(Off(w, me)) else w.l
  {
    hide Off;
    OffsetsInverse(w, id.partner);
    ParentHigher(Off(w, id.partner));
    LowBelow(Off(w, id.partner), w.l);
  }

  lemma PlacedNext(w: Setup, me: nat, i: nat, id: Id)
    requires Ok(w) && me < w.n && (Off(w, me) > 0 ==> Low(Off(w, me)) > i)
    ensures var u := Off(w, me) + Pow2(i);
            Placed(w, me, i, id) <==> Placed(w, me, i + 1, id) || (u < w.n && id == Id(me, Send, 0, RankAt(w, u)))
  {
    hide Off, RankAt;
    ChildOf(w, me, i, id);
    if Has(w, id) && id.rank == me && id.kind.Send? {
      ChildrenLower(w, me, id);
    }
  }

  /** One child added, after the receive if there is one. */
  lemma ChildLaid(w: Setup, me: nat, f: Fields, g: Fields, i: nat)
    requires Ok(w) && me < w.n && (Off(w, me) > 0 ==> Low(Off(w, me)) > i)
    requires Laying(w, me, f, i + 1) && Built(g)
    requires var u := Off(w, me) + Pow2(i);
             if u < w.n then
               var send := Id(me, Send, 0, RankAt(w, u));
               && g.acts == f.acts[send := Act(w, send)]
               && (forall e :: e in g.pending <==>
                     e in f.pending || (me != w.root && e == (Id(me, Recv, 0, Source(w, me)), send)))
             else g.acts == f.acts && g.pending == f.pending
    ensures Laying(w, me, g, i)
  {
    hide Off, RankAt, Source, Placed, Built, Pow2, Has;
    var u := Off(w, me) + Pow2(i);
    var send := Id(me, Send, 0, RankAt(w, u));
    forall id ensures Placed(w, me, i, id) <==> Placed(w, me, i + 1, id) || (u < w.n && id == send) {
      PlacedNext(w, me, i, id);
    }
    forall id: Id | id.kind.Recv?
      ensures Placed(w, me, i + 1, id) <==> me != w.root && id == Id(me, Recv, 0, Source(w, me))
    {
      TheReceive(w, me, i + 1, id);
    }
  }

  lemma TheReceive(w: Setup, me: nat, i: nat, id: Id)
    requires Ok(w) && me < w.n && id.kind.Recv?
    ensures Placed(w, me, i, id) <==> me != w.root && id == Id(me, Recv, 0, Source(w, me))
  {
    hide IsEdge, Source;
    OneSource(w, me, id.partner);
  }

  /** Before any child is added there is at most the receive. */
  lemma NoChildYet(w: Setup, me: nat, f: Fields, i: nat)
    requires Ok(w) && me < w.n && Built(f) && f.pending == []
    requires if me == w.root then f.acts == map[] && i == w.l
             else var recv := Id(me, Recv, 0, Source(w, me));
                  f.acts == map[recv := Act(w, recv)] && Off(w, me) > 0 && i == Low(Off(w, me))
    ensures Laying(w, me, f, i)
  {
    hide Off, Source, Built;
    OffsetsInverse(w, me);
    forall id ensures Placed(w, me, i, id) <==> me != w.root && id == Id(me, Recv, 0, Source(w, me)) {
      if id.kind.Recv? {
        TheReceive(w, me, i, id);
      } else if Has(w, id) && id.rank == me {
        ChildrenLower(w, me, id);
      }
    }
  }

  /** A non-zero offset has no children at its own lowest bit. */
  lemma NoneAtOwnBit(w: Setup, me: nat, f: Fields, i: nat)
    requires Ok(w) && me < w.n && Off(w, me) > 0 && i == Low(Off(w, me))
    ensures Laying(w, me, f, i) <==> Laying(w, me, f, i + 1)
  {
    hide Off, Built, Has, Act;
    forall id ensures Placed(w, me, i, id) <==> Placed(w, me, i + 1, id) {
      if Has(w, id) && id.rank == me {
        KindOf(w, id);
        if id.kind.Send? {
          ChildrenLower(w, me, id);
        }
      }
    }
  }

  /** init_root. */
  method InitRoot(actor: DagActor, w: Setup, roundNproc: nat, nproc: nat)
    requires Ok(w) && nproc == w.n && roundNproc == Pow2(w.l)
    requires Built(actor.F()) && actor.acts == map[] && actor.pending == []
    modifies actor
    ensures Laying(w, w.root, actor.F(), 0)
  {
    hide Laying, Off, RankAt, Built, Count;
    ghost var i: nat := w.l;
    OffsetsInverse(w, w.root);
    NoChildYet(w, w.root, actor.F(), i);
    var partnerGap := roundNproc / 2;
    while partnerGap > 0
      invariant partnerGap == if i == 0 then 0 else Pow2(i - 1)
      invariant Laying(w, w.root, actor.F(), i)
      decreases partnerGap
    {
      ghost var f := actor.F();
      BuiltOf(w, w.root, f, i);
      if partnerGap < nproc {
        OffsetsAre(w, partnerGap);
        var partner := (w.root + partnerGap) % nproc;
        var send := Id(w.root, Send, 0, partner);
        SendFresh(w, w.root, f, i);
        actor.AddDependency(None, send, Action(SendInPlace, 0, w.nelems, map[]));
      }
      ChildLaid(w, w.root, f, actor.F(), i - 1);
      partnerGap := partnerGap / 2;
      i := i - 1;
    }
  }

  lemma BuiltOf(w: Setup, me: nat, f: Fields, i: nat)
    requires w.root < w.n && Laying(w, me, f, i)
    ensures Built(f)
  {
  }

  /** The next child has not been added yet. */
  lemma SendFresh(w: Setup, me: nat, f: Fields, i: nat)
    requires Ok(w) && me < w.n && i > 0 && Laying(w, me, f, i) && (Off(w, me) > 0 ==> Low(Off(w, me)) > i - 1)
    ensures var u := Off(w, me) + Pow2(i - 1); u < w.n ==> Id(me, Send, 0, RankAt(w, u)) !in f.acts
  {
    hide Off, RankAt, Built;
    var u := Off(w, me) + Pow2(i - 1);
    if u < w.n {
      ChildOf(w, me, i - 1, Id(me, Send, 0, RankAt(w, u)));
    }
  }

  /** init_internal: the children below the window found. */
  method InitInternal(actor: DagActor, w: Setup, me: nat, offsetMe: nat, windowSize: nat, windowStop: nat, recv: Id)
    requires Ok(w) && me < w.n && me != w.root && offsetMe == Off(w, me) > 0
    requires windowSize == Pow2(Low(offsetMe))
    requires windowStop == if w.n < offsetMe + windowSize then w.n else offsetMe + windowSize
    requires recv == Id(me, Recv, 0, Source(w, me)) && Laying(w, me, actor.F(), Low(offsetMe))
    modifies actor
    ensures Laying(w, me, actor.F(), 0)
  {
    hide Laying, Off, RankAt, Source, Built, Count;
    ghost var i: nat := Low(offsetMe) + 1;
    NoneAtOwnBit(w, me, actor.F(), i - 1);
    var stride := windowSize;
    while stride > 0
      invariant i <= Low(offsetMe) + 1 && stride == if i == 0 then 0 else Pow2(i - 1)
      invariant Laying(w, me, actor.F(), i)
      decreases stride
    {
      ghost var f := actor.F();
      BuiltOf(w, me, f, i);
      var partner := offsetMe + stride;
      if i <= Low(offsetMe) {
        Pow2Mono(i, Low(offsetMe));
        SendFresh(w, me, f, i);
      }
      if partner < windowStop {
        OffsetsAre(w, partner);
        var send := Id(me, Send, 0, (partner + w.root) % w.n);
        actor.AddDependency(Some(recv), send, Action(SendInPlace, 0, w.nelems, map[]));
      }
      if i <= Low(offsetMe) {
        ChildLaid(w, me, f, actor.F(), i - 1);
      } else {
        NoneAtOwnBit(w, me, f, i - 1);
      }
      stride := stride / 2;
      i := i - 1;
    }
  }

  /** The window search of init_child: finds the parent and the lowest bit of an offset. */
  method FindWindow(offsetMe: nat, roundNproc: nat, ghost l: nat)
    returns (windowStart: nat, windowSplit: nat, windowSize: nat)
    requires 0 < offsetMe < roundNproc == Pow2(l)
    ensures windowSplit == offsetMe && windowStart == Parent(offsetMe) && windowSize == Pow2(Low(offsetMe))
  {
    windowStart := 0;
    windowSplit := roundNproc / 2;
    windowSize := windowSplit;
    ghost var k: nat := l - 1;
    while windowSize > 0 && offsetMe != windowSplit
      invariant windowSize == Pow2(k) && windowSplit == windowStart + windowSize
      invariant windowStart > 0 ==> Low(windowStart) > k
      invariant windowStart < offsetMe < windowSplit + windowSize
      decreases windowSize
    {
      ChildBit(windowStart, k);
      if offsetMe > windowSplit {
        windowStart := windowSplit;
      }
      windowSize := windowSize / 2;
      windowSplit := windowStart + windowSize;
      k := k - 1;
    }
    ChildBit(windowStart, k);
  }

  /** init_child. */
  method InitChild(actor: DagActor, w: Setup, me: nat, offsetMe: nat, roundNproc: nat, nproc: nat)
    requires Ok(w) && me < w.n && me != w.root && offsetMe == Off(w, me) && nproc == w.n && roundNproc == Pow2(w.l)
    requires Built(actor.F()) && actor.acts == map[] && actor.pending == []
    modifies actor
    ensures Laying(w, me, actor.F(), 0)
  {
    hide Laying, Off, RankAt, Built, Count;
    OffsetsInverse(w, me);
    var windowStart, windowSplit, windowSize := FindWindow(offsetMe, roundNproc, w.l);
    OffsetsAre(w, windowStart);
    var parent := (windowStart + w.root) % nproc;
    var recv := Id(me, Recv, 0, parent);
    actor.AddDependency(None, recv, Action(RecvInPlace, 0, w.nelems, map[]));
    NoChildYet(w, me, actor.F(), Low(offsetMe));
    var windowStop := if nproc < windowSplit + windowSize then nproc else windowSplit + windowSize;
    if offsetMe % 2 == 0 {
      InitInternal(actor, w, me, offsetMe, windowSize, windowStop, recv);
    }
  }

  /**
   * initDag: the DAG built by the loops is exactly this rank's share of the
   * broadcast program, the children by the root's or the window's strides, the
   * parent by the window search.
   */
  method InitDag(actor: DagActor, nproc: nat, me: nat, root: nat, nelems: nat) returns (w: Setup)
    requires me < nproc && root < nproc
    requires Built(actor.F()) && actor.acts == map[] && actor.pending == []
    modifies actor
    ensures Ok(w) && w.n == nproc && w.root == root && w.nelems == nelems
    ensures Built(actor.F()) && Knows(Prog(w, actor.cfg), me, actor.F())
    ensures forall e :: e in actor.pending <==> e in Prog(w, actor.cfg).edges && e.1.rank == me
  {
    hide Laying, Off, Built, Prog;
    var roundNproc := 1;
    ghost var l := 0;
    while roundNproc < nproc
      invariant roundNproc == Pow2(l)
      decreases nproc - roundNproc
    {
      roundNproc := roundNproc * 2;
      l := l + 1;
    }
    var log2 := Log2(roundNproc, l);
    w := Setup(nproc, root, log2, nelems);
    if me == root {
      InitRoot(actor, w, roundNproc, nproc);
    } else {
      OffsetsAre(w, me);
      var offsetMe := (me - root + nproc) % nproc;
      InitChild(actor, w, me, offsetMe, roundNproc, nproc);
    }
    ShareBuilt(w, actor.cfg, me, actor.F());
  }

  /** The exponent of a power of two. */
  function Log2(p: nat, ghost l: nat): (k: nat)
    requires p == Pow2(l)
    ensures k == l
  {
    if p == 1 then 0 else 1 + Log2(p / 2, l - 1)
  }

  lemma ShareBuilt(w: Setup, cfg: Config, me: nat, f: Fields)
    requires Ok(w) && me < w.n && Laying(w, me, f, 0)
    ensures Built(f) && Knows(Prog(w, cfg), me, f)
    ensures forall e :: e in f.pending <==> e in Prog(w, cfg).edges && e.1.rank == me
  {
    hide Has, Act, Built, Prog, Off, Low;
    var p := Prog(w, cfg);
    forall id
      ensures Placed(w, me, 0, id) <==> id in p.acts && id.rank == me
      ensures Placed(w, me, 0, id) ==> p.acts[id] == Act(w, id)
    {
      Members(w, cfg, id);
      PlacedAll(w, me, id);
    }
    forall e: (Id, Id) ensures e in p.edges <==> e.0 in p.acts && e.1 in p.acts && Edge(e.0, e.1) {
      assert e == (e.0, e.1);
      EdgesAre(w, cfg, e.0, e.1);
    }
  }

  lemma PlacedAll(w: Setup, me: nat, id: Id)
    requires Ok(w)
    ensures Placed(w, me, 0, id) <==> Has(w, id) && id.rank == me
  {
    hide Off;
    if Has(w, id) && id.rank == me && id.kind.Send? {
      ChildrenLower(w, me, id);
    }
  }
}
