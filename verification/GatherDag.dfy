/** BtreeGatherActor: its tree parameters, buffers, shuffle, and the DAG that initDag builds. */
module GatherDag {
  import opened Actions
  import opened Fabric
  import opened ActorState
  import opened Executor
  import opened Wilke
  import opened Ranks
  import opened Binomial
  import opened Buffers
  import opened Gather

  // ---------------------------------------------------------------- what is there at a time

  predicate At(w: Setup, me: nat, t: nat, id: Id)
    requires w.l >= 1
  {
    Has(w, id) && id.rank == me && When(w, id) == t
  }

  predicate Before(w: Setup, me: nat, t: nat, id: Id)
    requires w.l >= 1
  {
    Has(w, id) && id.rank == me && When(w, id) < t
  }

  lemma TreeOnly(w: Setup, me: nat, t: nat, id: Id)
    requires Ok(w) && t < Rounds(w)
    ensures At(w, me, t, id) <==> IsTree(w, id) && id.rank == me && id.round == t
    ensures At(w, me, t, id) ==>
              IsUp(w, Sender(id), Receiver(id)) && Low(Sender(id)) == t && (id.kind.Send? || id.kind.Recv?)
  {
    hide Low, IsUp, IsLast, IsShuffle;
    if Has(w, id) {
      KindsApart(w, id);
    }
  }

  /** A rank that is still alive receives in a round, or does nothing for want of a partner. */
  lemma AliveAt(w: Setup, me: nat, t: nat, id: Id)
    requires Ok(w) && me < w.n && t < Rounds(w) && (me == 0 || Low(me) > t)
    ensures At(w, me, t, id) <==> me + Pow2(t) < w.n && id == Id(me, Recv, t, me + Pow2(t))
  {
    hide Low, At, Pow2, Parent;
    TreeOnly(w, me, t, id);
    ChildBit(me, t);
    if At(w, me, t, id) {
      UpFits(w, Sender(id), Receiver(id));
    }
  }

  /** A rank sends in the round of its lowest bit and does nothing in later ones. */
  lemma DroppedAt(w: Setup, me: nat, t: nat, id: Id)
    requires Ok(w) && 0 < me < w.n && t < Rounds(w) && Low(me) <= t
    ensures At(w, me, t, id) <==> Low(me) == t && id == Id(me, Send, t, Parent(me))
  {
    hide Low, At, Pow2, Parent;
    TreeOnly(w, me, t, id);
    if At(w, me, t, id) {
      UpFits(w, Sender(id), Receiver(id));
    }
  }

  lemma ShuffleAt(w: Setup, me: nat, id: Id)
    requires Ok(w) && me < w.n
    ensures At(w, me, w.l, id) <==> me == w.root == Mid(w) && id == Id(me, Shuffle, w.l, me)
  {
    hide Low, Mid;
    if Has(w, id) {
      KindsApart(w, id);
    }
  }

  lemma HopAt(w: Setup, me: nat, id: Id)
    requires Ok(w) && me < w.n
    ensures At(w, me, w.l + 1, id) <==> IsLast(w, id) && id.rank == me
  {
    hide Low, Mid;
    if Has(w, id) {
      KindsApart(w, id);
    }
  }

  /** Nothing happens between a rank's last tree round and the shuffle. */
  lemma NothingAt(w: Setup, me: nat, t: nat, id: Id)
    requires Ok(w) && me < w.n && t < w.l && (t < Rounds(w) ==> me > 0 && Low(me) < t)
    ensures !At(w, me, t, id)
  {
    hide Low, Mid;
    if t < Rounds(w) {
      DroppedAt(w, me, t, id);
    } else if Has(w, id) {
      KindsApart(w, id);
    }
  }

  // ---------------------------------------------------------------- construction

  predicate Placed(w: Setup, me: nat, t: nat, now: set<Id>, id: Id)
    requires w.l >= 1
  {
    Before(w, me, t, id) || id in now
  }

  /** The DAG holds rank `me`'s actions before time `t` and those of time `t` in `now`. */
  ghost predicate Laying(w: Setup, me: nat, f: Fields, t: nat, now: set<Id>)
    requires w.l >= 1
  {
    && Built(f)
    && (forall id | id in now :: At(w, me, t, id))
    && (forall id :: id in f.acts <==> Placed(w, me, t, now, id))
    && (forall id | id in f.acts :: f.acts[id] == Act(w, id))
    && (forall e :: e in f.pending <==> Placed(w, me, t, now, e.0) && Placed(w, me, t, now, e.1) && Edge(w, e.0, e.1))
  }

  /** `prev` is rank `me`'s latest action before time `t`. */
  ghost predicate IsPrev(w: Setup, me: nat, t: nat, prev: Option<Id>)
    requires w.l >= 1
  {
    match prev
    case None => forall id :: !Before(w, me, t, id)
    case Some(a) => Before(w, me, t, a) && forall id | Before(w, me, t, id) :: When(w, id) <= When(w, a)
  }

  /** What an action of time `t` waits for is the latest action before. */
  lemma EdgeFromPrev(w: Setup, me: nat, t: nat, prev: Option<Id>, a: Id, b: Id)
    requires Ok(w) && t <= w.l + 1 && IsPrev(w, me, t, prev) && At(w, me, t, b)
    ensures Before(w, me, t, a) && Edge(w, a, b) <==> prev == Some(a)
  {
    hide Has, When;
    if prev.Some? {
      PrevEdge(w, me, t, prev.value, b);
    }
    if Before(w, me, t, a) && Edge(w, a, b) {
      assert prev.Some? && !Between(w, a, b, prev.value);
      SameTime(w, me, t, a, prev.value);
    }
  }

  lemma PrevEdge(w: Setup, me: nat, t: nat, a: Id, b: Id)
    requires Ok(w) && IsPrev(w, me, t, Some(a)) && At(w, me, t, b)
    ensures Before(w, me, t, a) && Edge(w, a, b)
  {
    hide Has, When;
    forall c ensures !Between(w, a, b, c) {
      assert Before(w, me, t, c) ==> When(w, c) <= When(w, a);
    }
  }

  lemma SameTime(w: Setup, me: nat, t: nat, a: Id, b: Id)
    requires Ok(w) && t <= w.l + 1 && Before(w, me, t, a) && Before(w, me, t, b) && When(w, a) == When(w, b)
    ensures a == b
  {
    OneAtATime(w, a, b);
    KindsApart(w, a);
  }

  lemma AddedLaid(w: Setup, me: nat, f: Fields, g: Fields, t: nat, now: set<Id>, prev: Option<Id>, id: Id)
    requires Ok(w) && t <= w.l + 1 && Laying(w, me, f, t, now) && IsPrev(w, me, t, prev) && At(w, me, t, id)
    requires id !in now
    requires Built(g) && g.acts == f.acts[id := Act(w, id)]
    requires forall e :: e in g.pending <==> e in f.pending || (e.1 == id && prev == Some(e.0))
    ensures Laying(w, me, g, t, now + {id})
  {
    hide Has, When, Edge, Act, Built, IsPrev;
    forall e: (Id, Id)
      ensures e in g.pending <==>
                Placed(w, me, t, now + {id}, e.0) && Placed(w, me, t, now + {id}, e.1) && Edge(w, e.0, e.1)
    {
      EdgeFromPrev(w, me, t, prev, e.0, id);
      if Edge(w, e.0, e.1) {
        EdgeIs(w, e.0, e.1);
      }
    }
  }

  /** Add one action of time `t`. */
  method AddNow(actor: DagActor, w: Setup, me: nat, ghost t: nat, ghost now: set<Id>,
                prev: Option<Id>, id: Id, action: Action)
    requires Ok(w) && t <= w.l + 1 && Laying(w, me, actor.F(), t, now) && IsPrev(w, me, t, prev)
    requires At(w, me, t, id) && id !in now && action == Act(w, id)
    modifies actor
    ensures Laying(w, me, actor.F(), t, now + {id})
  {
    hide Has, When, Edge, Act, Built, IsPrev, Count;
    ghost var f := actor.F();
    actor.AddDependency(prev, id, action);
    AddedLaid(w, me, f, actor.F(), t, now, prev, id);
  }

  lemma TimePasses(w: Setup, me: nat, f: Fields, t: nat, now: set<Id>)
    requires Ok(w) && Laying(w, me, f, t, now)
    requires forall id :: id in now <==> At(w, me, t, id)
    ensures Laying(w, me, f, t + 1, {})
  {
    hide Has, When, Edge, Act, Built;
    forall id ensures Placed(w, me, t + 1, {}, id) <==> Placed(w, me, t, now, id) {
    }
  }

  lemma PrevMoves(w: Setup, me: nat, t: nat, prev: Option<Id>, id: Id)
    requires Ok(w) && IsPrev(w, me, t, prev) && At(w, me, t, id)
    ensures IsPrev(w, me, t + 1, Some(id))
  {
    hide Has, When;
  }

  lemma PrevStays(w: Setup, me: nat, t: nat, prev: Option<Id>)
    requires Ok(w) && IsPrev(w, me, t, prev) && forall id :: !At(w, me, t, id)
    ensures IsPrev(w, me, t + 1, prev)
  {
    hide Has, When;
    var next := t + 1;
    forall id ensures Before(w, me, next, id) <==> Before(w, me, t, id) {
      assert !At(w, me, t, id);
    }
  }

  /** The step of a time at which the rank has exactly one action. */
  method AddOnly(actor: DagActor, w: Setup, me: nat, ghost t: nat, prev: Option<Id>, id: Id, action: Action)
    returns (next: Option<Id>)
    requires Ok(w) && t <= w.l + 1 && Laying(w, me, actor.F(), t, {}) && IsPrev(w, me, t, prev)
    requires At(w, me, t, id) && action == Act(w, id) && forall other | At(w, me, t, other) :: other == id
    modifies actor
    ensures Laying(w, me, actor.F(), t + 1, {}) && IsPrev(w, me, t + 1, next) && next == Some(id)
  {
    hide Laying, IsPrev, Has, When, Act;
    AddNow(actor, w, me, t, {}, prev, id, action);
    TimePasses(w, me, actor.F(), t, {} + {id});
    PrevMoves(w, me, t, prev, id);
    next := Some(id);
  }

  lemma Idles(w: Setup, me: nat, f: Fields, t: nat, prev: Option<Id>)
    requires Ok(w) && Laying(w, me, f, t, {}) && IsPrev(w, me, t, prev) && forall id :: !At(w, me, t, id)
    ensures Laying(w, me, f, t + 1, {}) && IsPrev(w, me, t + 1, prev)
  {
    hide Laying, IsPrev, Has, When;
    TimePasses(w, me, f, t, {});
    PrevStays(w, me, t, prev);
  }

  lemma {:induction false} IdlesUntil(w: Setup, me: nat, f: Fields, t: nat, prev: Option<Id>)
    requires Ok(w) && me < w.n && t <= w.l && (t < Rounds(w) ==> me > 0 && Low(me) < t)
    requires Laying(w, me, f, t, {}) && IsPrev(w, me, t, prev)
    ensures Laying(w, me, f, w.l, {}) && IsPrev(w, me, w.l, prev)
    decreases w.l - t
  {
    hide Laying, IsPrev, At, Low;
    if t < w.l {
      forall id ensures !At(w, me, t, id) {
        NothingAt(w, me, t, id);
      }
      Idles(w, me, f, t, prev);
      IdlesUntil(w, me, f, t + 1, prev);
    }
  }

  lemma Begun(w: Setup, me: nat, f: Fields)
    requires Ok(w) && Built(f) && f.acts == map[] && f.pending == []
    ensures Laying(w, me, f, 0, {}) && IsPrev(w, me, 0, None)
  {
    hide Has, When;
  }

  // ---------------------------------------------------------------- initTree and initDag

  /** initTree: the number of rounds and the midpoint. */
  method InitTree(nproc: nat) returns (log2nproc: nat, midpoint: nat)
    requires nproc >= 2
    ensures log2nproc >= 1 && nproc <= Pow2(log2nproc) && midpoint == Pow2(log2nproc - 1) < nproc
  {
    log2nproc, midpoint := 0, 1;
    while midpoint < nproc
      invariant midpoint == Pow2(log2nproc) && (log2nproc > 0 ==> Pow2(log2nproc - 1) < nproc)
      decreases nproc - midpoint
    {
      midpoint := midpoint * 2;
      log2nproc := log2nproc + 1;
    }
    midpoint := midpoint / 2;
  }

  /** The stride test tells the ranks still receiving. */
  lemma {:induction false} StrideTest(me: nat, t: nat)
    requires me > 0 ==> Low(me) >= t
    ensures me % Pow2(t + 1) == 0 <==> me == 0 || Low(me) > t
  {
    assert Pow2(t + 1) == 2 * Pow2(t);
    HalveMod(me / 2, Pow2(t));
    if me > 0 && t > 0 {
      assert me == 2 * (me / 2);
      StrideTest(me / 2, t - 1);
    } else if t == 0 {
      assert Pow2(0) == 1;
    }
  }

  lemma HalveMod(h: nat, g: nat)
    requires g > 0
    ensures (2 * h) % (2 * g) == 2 * (h % g)
  {
    var q, m := h / g, h % g;
    assert h == q * g + m;
    DivUnique(2 * h, 2 * g, q, 2 * m);
  }

  /** A receive of a rank that is still alive, as the loop computes it. */
  lemma RecvIs(w: Setup, me: nat, t: nat)
    requires Ok(w) && me < w.n && t < Rounds(w) && (me == 0 || Low(me) > t) && me + Pow2(t) < w.n
    ensures var c := me + Pow2(t);
            && Low(c) == t && Act(w, Id(me, Recv, t, c)) == TreeAction(w, c, Recv)
            && Chunk(w, c) == (if c + Pow2(t) < w.n then c + Pow2(t) else w.n) - c
  {
    hide Low, Pow2, HopAction, ShuffleAction;
    ChildBit(me, t);
  }

  lemma SendIs(w: Setup, me: nat)
    requires Ok(w) && 0 < me < w.n && Low(me) < Rounds(w)
    ensures Parent(me) == me - Pow2(Low(me))
    ensures Act(w, Id(me, Send, Low(me), Parent(me))) == TreeAction(w, me, Send)
    ensures Chunk(w, me) == (if me + Pow2(Low(me)) < w.n then me + Pow2(Low(me)) else w.n) - me
  {
    hide Low, Pow2, HopAction, ShuffleAction;
  }

  /** One round of the loop for a rank that receives, or idles for want of a partner. */
  method ReceiveRound(actor: DagActor, w: Setup, me: nat, nproc: nat, round: nat, partnerGap: nat, prev: Option<Id>)
    returns (next: Option<Id>)
    requires Ok(w) && me < w.n == nproc && round < Rounds(w) && partnerGap == Pow2(round)
    requires (me == 0 || Low(me) > round)
    requires Laying(w, me, actor.F(), round, {}) && IsPrev(w, me, round, prev)
    modifies actor
    ensures Laying(w, me, actor.F(), round + 1, {}) && IsPrev(w, me, round + 1, next)
  {
    hide Laying, IsPrev, At, Low, Act, Pow2;
    forall id
      ensures At(w, me, round, id) <==> me + Pow2(round) < w.n && id == Id(me, Recv, round, me + Pow2(round))
    {
      AliveAt(w, me, round, id);
    }
    var partner := me + partnerGap;
    if partner < nproc {
      var recvChunkStart := me + partnerGap;
      var recvChunkStop := if recvChunkStart + partnerGap < nproc then recvChunkStart + partnerGap else nproc;
      var recvChunkSize := recvChunkStop - recvChunkStart;
      RecvIs(w, me, round);
      next := AddOnly(actor, w, me, round, prev, Id(me, Recv, round, partner),
                      Action(RecvInPlace, partnerGap * w.nelems, w.nelems * recvChunkSize, map[]));
    } else {
      Idles(w, me, actor.F(), round, prev);
      next := prev;
    }
  }

  /** The round in which a rank sends and stops. */
  method SendRound(actor: DagActor, w: Setup, me: nat, nproc: nat, round: nat, partnerGap: nat, prev: Option<Id>)
    returns (next: Option<Id>)
    requires Ok(w) && 0 < me < w.n == nproc && round == Low(me) < Rounds(w) && partnerGap == Pow2(round)
    requires Laying(w, me, actor.F(), round, {}) && IsPrev(w, me, round, prev)
    modifies actor
    ensures Laying(w, me, actor.F(), round + 1, {}) && IsPrev(w, me, round + 1, next)
  {
    hide Laying, IsPrev, At, Low, Act, Pow2;
    SendIs(w, me);
    forall id ensures At(w, me, round, id) <==> id == Id(me, Send, round, Parent(me)) {
      DroppedAt(w, me, round, id);
    }
    var partner := me - partnerGap;
    var sendChunkStop := if me + partnerGap < nproc then me + partnerGap else nproc;
    var sendChunkSize := sendChunkStop - me;
    next := AddOnly(actor, w, me, round, prev, Id(me, Send, round, partner),
                    Action(SendInPlace, 0, w.nelems * sendChunkSize, map[]));
  }

  /** The tree part of initDag. */
  method AddTree(actor: DagActor, w: Setup, me: nat, nproc: nat, midpoint: nat) returns (prev: Option<Id>)
    requires Ok(w) && me < w.n == nproc && midpoint == Mid(w)
    requires Built(actor.F()) && actor.acts == map[] && actor.pending == []
    modifies actor
    ensures Laying(w, me, actor.F(), w.l, {}) && IsPrev(w, me, w.l, prev)
  {
    hide Laying, IsPrev, Low, Built;
    var maxGap := midpoint;
    if w.root != 0 {
      maxGap := midpoint / 2;
    }
    Begun(w, me, actor.F());
    prev := None;
    var partnerGap, stride, round := 1, 2, 0;
    while partnerGap <= maxGap
      invariant partnerGap == Pow2(round) && stride == Pow2(round + 1) && round <= Rounds(w)
      invariant me > 0 ==> Low(me) >= round
      invariant Laying(w, me, actor.F(), round, {}) && IsPrev(w, me, round, prev)
      decreases Rounds(w) - round
    {
      GapRound(w, round, maxGap);
      StrideTest(me, round);
      if me % stride == 0 {
        prev := ReceiveRound(actor, w, me, nproc, round, partnerGap, prev);
      } else {
        prev := SendRound(actor, w, me, nproc, round, partnerGap, prev);
        round := round + 1;
        break;
      }
      round := round + 1;
      partnerGap := partnerGap * 2;
      stride := stride * 2;
    }
    if partnerGap > maxGap {
      GapRound(w, round, maxGap);
    }
    IdlesUntil(w, me, actor.F(), round, prev);
  }

  /** The gap bound counts the rounds. */
  lemma GapRound(w: Setup, round: nat, maxGap: nat)
    requires Ok(w) && maxGap == if w.root != 0 then Mid(w) / 2 else Mid(w)
    ensures Pow2(round) <= maxGap <==> round < Rounds(w)
  {
    if round < Rounds(w) {
      Pow2Mono(round, Rounds(w) - 1);
    } else {
      Pow2Mono(Rounds(w), round);
    }
  }

  lemma ShuffleIs(w: Setup)
    requires Ok(w) && w.root == Mid(w)
    ensures var id := Id(w.root, Shuffle, w.l, w.root);
            Act(w, id) == Action(Local, Mid(w) * w.nelems, (w.n - Mid(w)) * w.nelems, ToUpper(w))
  {
    MidFits(w);
    hide Mid;
  }

  /** A root that is the midpoint shuffles its data. */
  method AddShuffle(actor: DagActor, w: Setup, me: nat, nproc: nat, midpoint: nat, prev: Option<Id>)
    returns (next: Option<Id>)
    requires Ok(w) && me < w.n == nproc && midpoint == Mid(w)
    requires Laying(w, me, actor.F(), w.l, {}) && IsPrev(w, me, w.l, prev)
    modifies actor
    ensures Laying(w, me, actor.F(), w.l + 1, {}) && IsPrev(w, me, w.l + 1, next)
  {
    hide Laying, IsPrev, At, Act, Mid, ToUpper;
    MidFits(w);
    forall id ensures At(w, me, w.l, id) <==> me == w.root == Mid(w) && id == Id(me, Shuffle, w.l, me) {
      ShuffleAt(w, me, id);
    }
    if w.root != 0 && w.root == midpoint && me == w.root {
      ShuffleIs(w);
      next := AddOnly(actor, w, me, w.l, prev, Id(me, Shuffle, w.l, me),
                      Action(Local, midpoint * w.nelems, (nproc - midpoint) * w.nelems, ToUpper(w)));
    } else {
      Idles(w, me, actor.F(), w.l, prev);
      next := prev;
    }
  }

  /** Rank `me`'s hop actions. */
  function HopsOf(w: Setup, me: nat): set<Id>
    requires w.l >= 1
  {
    set id | id in {Id(me, Recv, w.l, 0), Id(me, Recv, w.l, Mid(w)), Id(me, Send, w.l, w.root)}
             && IsLast(w, id) && id.rank == me
  }

  lemma HopIs(w: Setup, me: nat, id: Id)
    requires Ok(w) && me < w.n && IsLast(w, id) && id.rank == me
    ensures At(w, me, w.l + 1, id) && Act(w, id) == HopAction(w, Sender(id), id.kind)
  {
    hide Low, Mid, Half;
    HopAt(w, me, id);
    KindsApart(w, id);
  }

  method AddHop(actor: DagActor, w: Setup, me: nat, ghost now: set<Id>, prev: Option<Id>, id: Id, action: Action)
    requires Ok(w) && me < w.n && Laying(w, me, actor.F(), w.l + 1, now) && IsPrev(w, me, w.l + 1, prev)
    requires IsLast(w, id) && id.rank == me && id !in now && action == HopAction(w, Sender(id), id.kind)
    modifies actor
    ensures Laying(w, me, actor.F(), w.l + 1, now + {id})
  {
    hide Laying, IsPrev, At, Act, HopAction, IsLast;
    HopIs(w, me, id);
    AddNow(actor, w, me, w.l + 1, now, prev, id, action);
  }

  /** The last hop to a root other than 0. */
  method AddHops(actor: DagActor, w: Setup, me: nat, nproc: nat, midpoint: nat, prev: Option<Id>)
    requires Ok(w) && me < w.n == nproc && midpoint == Mid(w)
    requires Laying(w, me, actor.F(), w.l + 1, {}) && IsPrev(w, me, w.l + 1, prev)
    modifies actor
    ensures Laying(w, me, actor.F(), w.l + 1, HopsOf(w, me))
  {
    hide Laying, IsPrev, Mid, HopsOf, Low;
    MidFits(w);
    ghost var now: set<Id> := {};
    if w.root != 0 {
      if me == w.root {
        var size1stHalf, size2ndHalf := midpoint, nproc - midpoint;
        AddHop(actor, w, me, now, prev, Id(me, Recv, w.l, 0), Action(RecvInPlace, 0, size1stHalf * w.nelems, map[]));
        now := now + {Id(me, Recv, w.l, 0)};
        if midpoint != w.root {
          AddHop(actor, w, me, now, prev, Id(me, Recv, w.l, midpoint),
                 Action(RecvInPlace, midpoint * w.nelems, size2ndHalf * w.nelems, map[]));
          now := now + {Id(me, Recv, w.l, midpoint)};
        }
      }
      if me == 0 {
        AddHop(actor, w, me, now, prev, Id(me, Send, w.l, w.root), Action(SendInPlace, 0, midpoint * w.nelems, map[]));
        now := now + {Id(me, Send, w.l, w.root)};
      }
      if me == midpoint && midpoint != w.root {
        AddHop(actor, w, me, now, prev, Id(me, Send, w.l, w.root),
               Action(SendInPlace, 0, (nproc - midpoint) * w.nelems, map[]));
        now := now + {Id(me, Send, w.l, w.root)};
      }
    }
    HopsCollected(w, me, now);
  }

  lemma HopsCollected(w: Setup, me: nat, now: set<Id>)
    requires Ok(w)
    requires now == (if w.root != 0 && me == w.root then
                       {Id(me, Recv, w.l, 0)} + (if Mid(w) != w.root then {Id(me, Recv, w.l, Mid(w))} else {})
                     else if w.root != 0 && (me == 0 || me == Mid(w)) then {Id(me, Send, w.l, w.root)} else {})
    ensures now == HopsOf(w, me)
  {
    hide Low, Mid;
    MidFits(w);
  }

  /**
   * initDag: the DAG built by the loops is exactly this rank's share of the
   * gather program that every rank's schedule together forms.
   */
  method InitDag(actor: DagActor, nproc: nat, me: nat, root: nat, nelems: nat) returns (w: Setup)
    requires nproc >= 2 && me < nproc && root < nproc
    requires Built(actor.F()) && actor.acts == map[] && actor.pending == []
    modifies actor
    ensures Ok(w) && w.n == nproc && w.root == root && w.nelems == nelems
    ensures Built(actor.F()) && Knows(Prog(w, actor.cfg), me, actor.F())
    ensures forall e :: e in actor.pending <==> e in Prog(w, actor.cfg).edges && e.1.rank == me
  {
    hide Laying, IsPrev, Built, Prog, HopsOf;
    var log2nproc, midpoint := InitTree(nproc);
    w := Setup(nproc, root, log2nproc, nelems);
    var prev := AddTree(actor, w, me, nproc, midpoint);
    prev := AddShuffle(actor, w, me, nproc, midpoint, prev);
    AddHops(actor, w, me, nproc, midpoint, prev);
    ShareBuilt(w, actor.cfg, me, actor.F());
  }

  lemma HopsAre(w: Setup, me: nat, id: Id)
    requires Ok(w) && me < w.n
    ensures id in HopsOf(w, me) <==> At(w, me, w.l + 1, id)
  {
    hide Low, Mid;
    HopAt(w, me, id);
  }

  lemma ShareBuilt(w: Setup, cfg: Config, me: nat, f: Fields)
    requires Ok(w) && me < w.n && Laying(w, me, f, w.l + 1, HopsOf(w, me))
    ensures Built(f) && Knows(Prog(w, cfg), me, f)
    ensures forall e :: e in f.pending <==> e in Prog(w, cfg).edges && e.1.rank == me
  {
    hide Act, Has, When, Built, Prog, Edge, HopsOf;
    var p := Prog(w, cfg);
    forall id
      ensures Placed(w, me, w.l + 1, HopsOf(w, me), id) <==> id in p.acts && id.rank == me
      ensures id in p.acts ==> p.acts[id] == Act(w, id)
    {
      Members(w, cfg, id);
      HopsAre(w, me, id);
      if Has(w, id) {
        WhenAtMost(w, id);
      }
    }
    forall e: (Id, Id) ensures e in p.edges <==> e.0 in p.acts && e.1 in p.acts && Edge(w, e.0, e.1) {
      assert e == (e.0, e.1);
      EdgesAre(w, cfg, e.0, e.1);
      Members(w, cfg, e.0);
      Members(w, cfg, e.1);
    }
    forall e: (Id, Id) | Edge(w, e.0, e.1) ensures e.0.rank == e.1.rank {
      EdgeIs(w, e.0, e.1);
    }
  }

  // ---------------------------------------------------------------- buffers

  /**
   * initBuffers: this rank's block goes to the front of its working buffer.  In
   * place the root's block is in that buffer already, at the root's own position.
   */
  method InitBuffers(work: array<Val>, src: array<Val>, from: nat, nelems: nat)
    requires nelems <= work.Length && from + nelems <= src.Length
    modifies work
    ensures work[..nelems] == old(src[from..from + nelems]) && work[nelems..] == old(work[nelems..])
  {
    MemCopy(work, 0, src, from, nelems);
  }

  /** startShuffle has exactly the effect that the action has in the DAG. */
  method StartShuffle(w: Setup, ghost cfg: Config, result: array<Val>, ghost id: Id, action: Action)
    requires Ok(w) && result.Length == w.n * w.nelems && id.kind.Shuffle?
    requires id in Prog(w, cfg).acts && action == Prog(w, cfg).acts[id]
    modifies result
    ensures forall x | x in action.copies :: action.copies[x] < result.Length
    ensures result[..] == Copied(old(result[..]), action.copies)
  {
    hide Mid, ToUpper, Prog;
    ShuffleActionIs(w, cfg, id);
    MidFits(w);
    UpperBlocks(w);
    assert action.offset == Mid(w) * w.nelems && action.nelems == (w.n - Mid(w)) * w.nelems;
    CopyWithin(result, action.offset, 0, action.nelems);
    UpperMoved(w, old(result[..]), action.nelems);
  }

  /** The one shuffle of the program: the upper half of the blocks goes to its final place. */
  lemma ShuffleActionIs(w: Setup, cfg: Config, id: Id)
    requires Ok(w) && id in Prog(w, cfg).acts && id.kind.Shuffle?
    ensures w.root == Mid(w) == Pow2(w.l - 1) && id == Id(w.root, Shuffle, w.l, w.root)
    ensures var action := Prog(w, cfg).acts[id];
            && action.offset == w.root * w.nelems && action.nelems == (w.n - w.root) * w.nelems
            && action.copies == ToUpper(w)
  {
    hide ToUpper, Prog;
    MidFits(w);
    Members(w, cfg, id);
  }

  lemma UpperBlocks(w: Setup)
    requires Ok(w)
    ensures var len := (w.n - Mid(w)) * w.nelems;
            len <= Mid(w) * w.nelems && Mid(w) * w.nelems + len == w.n * w.nelems
  {
    hide Mid;
    MidFits(w);
    SplitBlocks(Mid(w), w.n, w.nelems);
  }

  lemma SplitBlocks(m: nat, n: nat, nelems: nat)
    requires m <= n <= 2 * m
    ensures (n - m) * nelems <= m * nelems && m * nelems + (n - m) * nelems == n * nelems
  {
    Times(n - m, m, nelems);
    assert m + (n - m) == n;
    assert (m + (n - m)) * nelems == m * nelems + (n - m) * nelems;
  }

  lemma UpperMoved(w: Setup, m: seq<Val>, nelems: nat)
    requires Ok(w) && |m| == w.n * w.nelems == Mid(w) * w.nelems + nelems && nelems <= Mid(w) * w.nelems
    ensures forall x | x in ToUpper(w) :: ToUpper(w)[x] < |m|
    ensures Stored(m, Mid(w) * w.nelems, m[0..nelems]) == Copied(m, ToUpper(w))
  {
    hide Mid;
    var lo := Mid(w) * w.nelems;
    forall x: nat | x < |m| ensures x in ToUpper(w) <==> Span(x, lo, nelems) {
    }
  }
}
