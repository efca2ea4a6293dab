/** WilkeReduceActor::initDag builds this rank's share of the reduce program. */
module ReduceDag {
  import opened Actions
  import opened ActorState
  import opened Executor
  import opened Wilke
  import opened Exchange
  import opened ExchangeDag
  import opened Trees
  import opened Reduce

  function JoinId(me: nat): Id {
    Id(me, Join, 0, 0)
  }

  const NOTHING: Action := Action(Local, 0, 0, map[])

  // ---------------------------------------------------------------- where a role ends

  /** Role `v` takes part in exactly the steps below `end`. */
  ghost predicate IsEnd(w: Setup, root: nat, v: nat, end: nat)
    requires w.l >= 1
  {
    w.l <= end <= w.l + Mirrors(w, root) && forall s: nat :: Takes(w, root, v, s) <==> s < end
  }

  lemma {:induction false} TakesBelow(w: Setup, root: nat, v: nat, s: nat, t: nat)
    requires Rooted(w, root) && v < Pow2(w.l) && s <= t < 2 * w.l && Takes(w, root, v, t)
    ensures Takes(w, root, v, s)
    decreases t
  {
    hide Takes;
    if s < t {
      TakesEarlier(w, root, v, t - 1);
      TakesBelow(w, root, v, s, t - 1);
    }
  }

  /** Where the fan-in loop stops, by its count or by `break`, the role ends. */
  lemma StopsAtEnd(w: Setup, root: nat, v: nat, end: nat)
    requires Rooted(w, root) && v < Pow2(w.l) && w.l <= end <= w.l + Mirrors(w, root)
    requires end > w.l ==> Takes(w, root, v, end - 1)
    requires end == w.l + Mirrors(w, root) || v >= Pow2(2 * w.l - end)
    ensures IsEnd(w, root, v, end)
  {
    forall s: nat ensures Takes(w, root, v, s) <==> s < end {
      if s < w.l {
      } else if s < end {
        TakesBelow(w, root, v, s, end - 1);
      } else if s < w.l + Mirrors(w, root) {
        if Takes(w, root, v, s) {
          TakesBelow(w, root, v, end, s);
        }
      }
    }
  }

  /** The last step below `s` that role `v` did not skip, if any. */
  function Latest(w: Setup, v: nat, s: nat, kind: Kind): Option<Id>
    requires s <= 2 * w.l
  {
    if s == 0 then None
    else if Skipped(w, v, s - 1) then Latest(w, v, s - 1, kind)
    else Some(Xid(w, v, s - 1, kind))
  }

  lemma LatestIsPrevious(w: Setup, v: nat, s: nat, kind: Kind)
    requires Ok(w) && w.l <= s < 2 * w.l
    ensures Latest(w, v, s, kind) == Previous(w, v, s, kind)
  {
    hide Xid;
  }

  /** `at` is the one step of role `v` with no exchange after it. */
  lemma LatestIsLast(w: Setup, root: nat, v: nat, end: nat, s: nat) returns (at: nat)
    requires Rooted(w, root) && v < Pow2(w.l) && IsEnd(w, root, v, end)
    ensures at < 2 * w.l && !Skipped(w, v, at) && Takes(w, root, v, at) && !GoesOn(w, root, v, at)
    ensures Latest(w, v, end, Send) == Some(Xid(w, v, at, Send)) && Latest(w, v, end, Recv) == Some(Xid(w, v, at, Recv))
    ensures s < 2 * w.l && !Skipped(w, v, s) && Takes(w, root, v, s) && !GoesOn(w, root, v, s) ==> s == at
  {
    hide Xid, Takes;
    at := if Skipped(w, v, end - 1) then end - 2 else end - 1;
    assert Takes(w, root, v, at) && !Takes(w, root, v, end);
    assert Takes(w, root, v, s + 1) <==> s + 1 < end;
  }

  // ---------------------------------------------------------------- the fan-in

  /** The fan-in loop for one role: the mirror rounds until the role drops out. */
  method FanIn(actor: DagActor, w: Setup, root: nat, me: nat, v: nat, ghost done: seq<nat>,
               sends: seq<Option<Id>>, recvs: seq<Option<Id>>, prevSend: Option<Id>, prevRecv: Option<Id>,
               ghost more: map<Id, Action>, ghost extra: set<(Id, Id)>)
    returns (lastSend: Option<Id>, lastRecv: Option<Id>, ghost end: nat)
    requires Rooted(w, root) && v == Role0(w, me) + |done| && v < Pow2(w.l) && Real(w.dual, v) == me
    requires Filled(w, me, actor.F(), done + [w.l], more, extra)
    requires |sends| == |recvs| == w.l && Recorded(w, v, sends, Send) && Recorded(w, v, recvs, Recv)
    requires prevSend == Previous(w, v, w.l, Send) && prevRecv == Previous(w, v, w.l, Recv)
    modifies actor
    ensures IsEnd(w, root, v, end)
    ensures Filled(w, me, actor.F(), done + [end], more, extra)
    ensures lastSend == Latest(w, v, end, Send) && lastRecv == Latest(w, v, end, Recv)
  {
    hide Filled, Real, Partner, IsEnd, Previous, Skipped, Recorded, Takes, Xid, Latest;
    var numHalvingRounds := if root != 0 then w.l - 1 else w.l;
    var maxActiveRank := Pow2(w.l);
    lastSend, lastRecv := prevSend, prevRecv;
    LatestIsPrevious(w, v, w.l, Send);
    LatestIsPrevious(w, v, w.l, Recv);
    var i := 0;
    while i < numHalvingRounds
      invariant i <= numHalvingRounds && maxActiveRank == Pow2(w.l - i)
      invariant i > 0 ==> Takes(w, root, v, w.l + i - 1)
      invariant Filled(w, me, actor.F(), done + [w.l + i], more, extra)
      invariant lastSend == Latest(w, v, w.l + i, Send) && lastRecv == Latest(w, v, w.l + i, Recv)
    {
      if v >= maxActiveRank {
        break;
      }
      TakesMirror(w, root, v, i);
      var mirrorRound := w.l - i - 1;
      LatestIsPrevious(w, v, w.l + i, Send);
      LatestIsPrevious(w, v, w.l + i, Recv);
      MirrorRecorded(w, v, w.l + i, sends, Send);
      MirrorRecorded(w, v, w.l + i, recvs, Recv);
      lastSend, lastRecv := MirrorOnce(actor, w, me, v, w.l + i, done, sends[mirrorRound], recvs[mirrorRound],
                                       lastSend, lastRecv, more, extra);
      LatestGrows(w, v, w.l + i, Send);
      LatestGrows(w, v, w.l + i, Recv);
      maxActiveRank := maxActiveRank / 2;
      i := i + 1;
    }
    end := w.l + i;
    StopsAtEnd(w, root, v, end);
  }

  lemma LatestGrows(w: Setup, v: nat, s: nat, kind: Kind)
    requires s < 2 * w.l
    ensures Latest(w, v, s + 1, kind) == if Skipped(w, v, s) then Latest(w, v, s, kind) else Previous(w, v, s + 1, kind)
  {
  }

  lemma MirrorRecorded(w: Setup, v: nat, s: nat, ids: seq<Option<Id>>, kind: Kind)
    requires w.l <= s < 2 * w.l && |ids| == w.l && Recorded(w, v, ids, kind)
    ensures ids[2 * w.l - 1 - s] == if Skipped(w, v, s) then None else Some(Xid(w, v, Level(w, s), kind))
  {
  }

  lemma TakesMirror(w: Setup, root: nat, v: nat, i: nat)
    requires Rooted(w, root) && i < Mirrors(w, root)
    ensures Takes(w, root, v, w.l + i) <==> v < Pow2(w.l - i)
  {
  }

  // ---------------------------------------------------------------- join and hop

  /** One dependency of an action that is not an exchange. */
  method AddExtra(actor: DagActor, w: Setup, me: nat, precursor: Id, ac: Id, action: Action, ghost ends: seq<nat>,
                  ghost more: map<Id, Action>, ghost extra: set<(Id, Id)>)
    requires Filled(w, me, actor.F(), ends, more, extra)
    requires !IsExchange(w, ac) && (ac in more ==> more[ac] == action)
    modifies actor
    ensures Filled(w, me, actor.F(), ends, more[ac := action], extra + {(precursor, ac)})
  {
    hide IsExchange, Built, Follows, ExchangeAction, Role0, StepOf, RoleOf;
    actor.AddDependency(Some(precursor), ac, action);
  }

  /** The dependencies of rank `me`'s join on its first `roles` roles. */
  ghost predicate JoinEdges(w: Setup, root: nat, me: nat, roles: nat, extra: set<(Id, Id)>)
    requires w.l >= 1
  {
    forall e :: e in extra <==>
      && e.1 == JoinId(me) && IsTaken(w, root, e.0) && e.0.rank == me && RoleOf(w, e.0) < Role0(w, me) + roles
      && !GoesOn(w, root, RoleOf(w, e.0), StepOf(w, e.0))
  }

  function JoinOnly(me: nat, roles: nat): map<Id, Action> {
    if roles == 0 then map[] else map[JoinId(me) := NOTHING]
  }

  lemma OneMoreRole(w: Setup, root: nat, me: nat, roles: nat, end: nat, extra: set<(Id, Id)>, last: Id, also: Id)
    requires Rooted(w, root) && JoinEdges(w, root, me, roles, extra)
    requires var v := Role0(w, me) + roles; v < Pow2(w.l) && Real(w.dual, v) == me && IsEnd(w, root, v, end)
    requires var v := Role0(w, me) + roles;
             Latest(w, v, end, Send) == Some(last) && Latest(w, v, end, Recv) == Some(also)
    ensures JoinEdges(w, root, me, roles + 1, extra + {(last, JoinId(me))} + {(also, JoinId(me))})
  {
    hide IsExchange, Takes, Real, Partner, IsEnd, Latest, GoesOn, Xid, JoinEdges;
    var v := Role0(w, me) + roles;
    forall e: (Id, Id)
      ensures e in extra + {(last, JoinId(me))} + {(also, JoinId(me))} <==>
        && e.1 == JoinId(me) && IsTaken(w, root, e.0) && e.0.rank == me && RoleOf(w, e.0) < Role0(w, me) + (roles + 1)
        && !GoesOn(w, root, RoleOf(w, e.0), StepOf(w, e.0))
    {
      JoinEdgesHas(w, root, me, roles, extra, e);
      LastOfRole(w, root, me, v, end, e.0);
    }
    EdgesAre(w, root, me, roles + 1, extra + {(last, JoinId(me))} + {(also, JoinId(me))});
  }

  lemma EdgesAre(w: Setup, root: nat, me: nat, roles: nat, extra: set<(Id, Id)>)
    requires w.l >= 1
    requires forall e :: e in extra <==>
      && e.1 == JoinId(me) && IsTaken(w, root, e.0) && e.0.rank == me && RoleOf(w, e.0) < Role0(w, me) + roles
      && !GoesOn(w, root, RoleOf(w, e.0), StepOf(w, e.0))
    ensures JoinEdges(w, root, me, roles, extra)
  {
  }

  lemma JoinEdgesHas(w: Setup, root: nat, me: nat, roles: nat, extra: set<(Id, Id)>, e: (Id, Id))
    requires w.l >= 1 && JoinEdges(w, root, me, roles, extra)
    ensures e in extra <==>
      && e.1 == JoinId(me) && IsTaken(w, root, e.0) && e.0.rank == me && RoleOf(w, e.0) < Role0(w, me) + roles
      && !GoesOn(w, root, RoleOf(w, e.0), StepOf(w, e.0))
  {
  }

  /** The exchanges of role `v` with none after them are its latest send and receive. */
  lemma LastOfRole(w: Setup, root: nat, me: nat, v: nat, end: nat, id: Id)
    requires Rooted(w, root) && v < Pow2(w.l) && Real(w.dual, v) == me && IsEnd(w, root, v, end)
    ensures (IsTaken(w, root, id) && id.rank == me && RoleOf(w, id) == v && !GoesOn(w, root, v, StepOf(w, id)))
            <==> Some(id) == Latest(w, v, end, Send) || Some(id) == Latest(w, v, end, Recv)
  {
    hide IsExchange, Takes, Real, Partner, IsEnd, Latest, GoesOn;
    var at := LatestIsLast(w, root, v, end, StepOf(w, id));
    StageIds(w, me, v, at, id);
    if IsExchange(w, id) {
      NothingSkipped(w, id);
    }
  }

  // ---------------------------------------------------------------- the whole DAG

  /** One role: fan-out, fan-in and its contribution to the join. */
  method AddRole(actor: DagActor, w: Setup, root: nat, me: nat, roles: seq<nat>, v: nat, ghost done: seq<nat>,
                 ghost extra: set<(Id, Id)>)
    returns (ghost end: nat, ghost edges: set<(Id, Id)>)
    requires Rooted(w, root) && v == Role0(w, me) + |done| && v < Pow2(w.l) && Real(w.dual, v) == me
    requires forall u: nat :: u in roles <==> Real(w.dual, u) == me
    requires Filled(w, me, actor.F(), done, JoinOnly(me, |done|), extra)
    requires JoinEdges(w, root, me, |done|, extra)
    modifies actor
    ensures IsEnd(w, root, v, end)
    ensures Filled(w, me, actor.F(), done + [end], JoinOnly(me, |done| + 1), edges)
    ensures JoinEdges(w, root, me, |done| + 1, edges)
  {
    hide Filled, IsExchange, Real, Partner, Recorded, IsEnd, JoinEdges, Latest, GoesOn, Takes;
    ghost var more := JoinOnly(me, |done|);
    FilledOpen(w, me, actor.F(), done, more, extra);
    var sends, recvs, prevSend, prevRecv := FanOut(actor, w, me, roles, v, done, more, extra);
    var lastSend, lastRecv;
    lastSend, lastRecv, end := FanIn(actor, w, root, me, v, done, sends, recvs, prevSend, prevRecv, more, extra);
    ghost var at := LatestIsLast(w, root, v, end, 0);
    JoinNotExchange(w, me);
    AddExtra(actor, w, me, lastSend.value, JoinId(me), NOTHING, done + [end], more, extra);
    AddExtra(actor, w, me, lastRecv.value, JoinId(me), NOTHING, done + [end], more[JoinId(me) := NOTHING],
             extra + {(lastSend.value, JoinId(me))});
    OneMoreRole(w, root, me, |done|, end, extra, lastSend.value, lastRecv.value);
    edges := extra + {(lastSend.value, JoinId(me))} + {(lastRecv.value, JoinId(me))};
    assert more[JoinId(me) := NOTHING][JoinId(me) := NOTHING] == JoinOnly(me, |done| + 1);
  }

  lemma JoinNotExchange(w: Setup, me: nat)
    ensures !IsExchange(w, JoinId(me))
  {
  }

  /** Rank `me`'s actions of the last hop. */
  function HopsOf(w: Setup, root: nat, me: nat): (ids: set<Id>)
    requires w.l >= 1
    ensures forall id :: id in ids <==> IsHop(w, root, id) && id.rank == me
  {
    set id | id in {Id(me, Send, 4 * w.l - 1, root), Id(me, Recv, 4 * w.l - 1, 0), Id(me, Recv, 4 * w.l - 1, 1)}
             && IsHop(w, root, id) && id.rank == me
  }

  function HopActions(w: Setup, ids: set<Id>): map<Id, Action> {
    map id | id in ids :: HopAction(w, id)
  }

  function HopEdges(me: nat, ids: set<Id>): set<(Id, Id)> {
    set id | id in ids :: (JoinId(me), id)
  }

  /** The hop actions `ids` and their dependencies on the join. */
  ghost predicate Hopped(w: Setup, root: nat, me: nat, f: Fields, ends: seq<nat>, edges: set<(Id, Id)>, ids: set<Id>)
    requires w.l >= 1
  {
    Filled(w, me, f, ends, JoinOnly(me, 1) + HopActions(w, ids), edges + HopEdges(me, ids))
  }

  method AddHop(actor: DagActor, w: Setup, root: nat, me: nat, ac: Id, action: Action, ghost ends: seq<nat>,
                ghost edges: set<(Id, Id)>, ghost ids: set<Id>)
    requires Rooted(w, root) && Hopped(w, root, me, actor.F(), ends, edges, ids)
    requires IsHop(w, root, ac) && action == HopAction(w, ac)
    modifies actor
    ensures Hopped(w, root, me, actor.F(), ends, edges, ids + {ac})
  {
    hide Filled, IsExchange, HopAction;
    NotBoth(w, root, ac);
    HopNotJoin(w, root, ac, me);
    ghost var more := JoinOnly(me, 1) + HopActions(w, ids);
    ghost var extra := edges + HopEdges(me, ids);
    AddExtra(actor, w, me, JoinId(me), ac, action, ends, more, extra);
    assert more[ac := action] == JoinOnly(me, 1) + HopActions(w, ids + {ac});
    assert extra + {(JoinId(me), ac)} == edges + HopEdges(me, ids + {ac});
  }

  lemma HopNotJoin(w: Setup, root: nat, id: Id, me: nat)
    requires w.l >= 1 && IsHop(w, root, id)
    ensures id != JoinId(me)
  {
  }

  /** The final hop to a root other than 0. */
  method AddHops(actor: DagActor, w: Setup, root: nat, me: nat, ghost ends: seq<nat>, ghost edges: set<(Id, Id)>)
    requires Rooted(w, root) && me < w.n && Hopped(w, root, me, actor.F(), ends, edges, {})
    modifies actor
    ensures Hopped(w, root, me, actor.F(), ends, edges, HopsOf(w, root, me))
  {
    hide Hopped;
    ghost var ids := {};
    if root != 0 {
      var round := 4 * w.l - 1;
      var nelemsSplit := w.nelems - w.nelems / 2;
      if me == 0 {
        AddHop(actor, w, root, me, Id(me, Send, round, root), Action(SendInPlace, 0, nelemsSplit, map[]),
               ends, edges, ids);
        ids := ids + {Id(me, Send, round, root)};
      }
      if me == 1 && root != me {
        AddHop(actor, w, root, me, Id(me, Send, round, root),
               Action(SendInPlace, nelemsSplit, w.nelems - nelemsSplit, map[]), ends, edges, ids);
        ids := ids + {Id(me, Send, round, root)};
      }
      if me == root {
        AddHop(actor, w, root, me, Id(me, Recv, round, 0), Action(RecvInPlace, 0, nelemsSplit, map[]),
               ends, edges, ids);
        ids := ids + {Id(me, Recv, round, 0)};
      }
      if me == root && root != 1 {
        AddHop(actor, w, root, me, Id(me, Recv, round, 1),
               Action(RecvInPlace, nelemsSplit, w.nelems - nelemsSplit, map[]), ends, edges, ids);
        ids := ids + {Id(me, Recv, round, 1)};
      }
    }
    assert ids == HopsOf(w, root, me);
  }

  /**
   * initDag: the DAG built by the loops is exactly this rank's share of the
   * reduce program that every rank's schedule together forms.
   */
  method InitDag(actor: DagActor, nproc: nat, me: nat, root: nat, nelems: nat) returns (w: Setup)
    requires nproc >= 2 && me < nproc && root < nproc
    requires Built(actor.F()) && actor.acts == map[] && actor.pending == []
    modifies actor
    ensures Rooted(w, root) && w.n == nproc && w.nelems == nelems
    ensures Built(actor.F()) && Knows(Reduce.Prog(w, root, actor.cfg), me, actor.F())
    ensures forall e :: e in actor.pending <==> e in Reduce.Prog(w, root, actor.cfg).edges && e.1.rank == me
  {
    hide Filled, IsExchange, Real, Partner, Reduce.Prog, IsEnd, JoinEdges, Hopped;
    var log2nproc, midpoint, virtualNproc := ComputeTree(nproc);
    w := Setup(nproc, log2nproc, virtualNproc - nproc, nelems);
    var roles := RealToVirtual(nproc, virtualNproc, me);
    ghost var ends: seq<nat>, edges: set<(Id, Id)> := [], {};
    NothingYet(w, root, me, actor.F());
    for role := 0 to |roles|
      invariant |ends| == role && forall k | 0 <= k < role :: IsEnd(w, root, Role0(w, me) + k, ends[k])
      invariant Filled(w, me, actor.F(), ends, JoinOnly(me, role), edges)
      invariant JoinEdges(w, root, me, role, edges)
    {
      RolesAre(w, me, roles, role);
      ghost var end;
      end, edges := AddRole(actor, w, root, me, roles, roles[role], ends, edges);
      ends := ends + [end];
    }
    NoHopYet(w, root, me, actor.F(), ends, edges);
    AddHops(actor, w, root, me, ends, edges);
    ShareBuilt(w, root, actor.cfg, me, actor.F(), ends, edges);
  }

  lemma NoHopYet(w: Setup, root: nat, me: nat, f: Fields, ends: seq<nat>, edges: set<(Id, Id)>)
    requires w.l >= 1 && Filled(w, me, f, ends, JoinOnly(me, 1), edges)
    ensures Hopped(w, root, me, f, ends, edges, {})
  {
    hide Filled;
    assert JoinOnly(me, 1) + HopActions(w, {}) == JoinOnly(me, 1);
    assert edges + HopEdges(me, {}) == edges;
  }

  lemma NothingYet(w: Setup, root: nat, me: nat, f: Fields)
    requires Rooted(w, root) && me < w.n && Built(f) && f.acts == map[] && f.pending == []
    ensures Filled(w, me, f, [], JoinOnly(me, 0), {}) && JoinEdges(w, root, me, 0, {})
  {
    hide Partner, Takes;
    forall id ensures !(IsTaken(w, root, id) && id.rank == me && RoleOf(w, id) < Role0(w, me)) {
    }
  }

  /** With all roles of the rank at their ends, what is placed is what the rank takes part in. */
  lemma PlacedIsTaken(w: Setup, root: nat, me: nat, ends: seq<nat>, id: Id)
    requires Rooted(w, root) && me < w.n && |ends| == (if me >= w.dual then 1 else 2)
    requires forall k | 0 <= k < |ends| :: IsEnd(w, root, Role0(w, me) + k, ends[k])
    ensures Placed(w, me, ends, id) <==> IsTaken(w, root, id) && id.rank == me
    ensures IsTaken(w, root, id) && id.rank == me ==> RoleOf(w, id) < Role0(w, me) + |ends|
  {
    hide Partner, Takes, IsExchange;
    if IsExchange(w, id) && id.rank == me {
      IsXid(w, id);
      var k := RoleOf(w, id) - Role0(w, me);
      assert IsEnd(w, root, Role0(w, me) + k, ends[k]);
    }
  }

  lemma ShareBuilt(w: Setup, root: nat, cfg: Config, me: nat, f: Fields, ends: seq<nat>, edges: set<(Id, Id)>)
    requires Rooted(w, root) && me < w.n && |ends| == (if me >= w.dual then 1 else 2)
    requires forall k | 0 <= k < |ends| :: IsEnd(w, root, Role0(w, me) + k, ends[k])
    requires JoinEdges(w, root, me, |ends|, edges)
    requires Hopped(w, root, me, f, ends, edges, HopsOf(w, root, me))
    ensures Built(f) && Knows(Reduce.Prog(w, root, cfg), me, f)
    ensures forall e :: e in f.pending <==> e in Reduce.Prog(w, root, cfg).edges && e.1.rank == me
  {
    hide IsTaken, IsExchange, Placed, Built, ExchangeAction, IsEnd, GoesOn, HopAction, IsHop, Act, Has;
    var p := Reduce.Prog(w, root, cfg);
    forall id
      ensures id in f.acts <==> id in p.acts && id.rank == me
      ensures id in f.acts ==> f.acts[id] == p.acts[id]
    {
      ShareAction(w, root, cfg, me, f, ends, edges, id);
    }
    forall e: (Id, Id) ensures e in f.pending <==> e in p.edges && e.1.rank == me {
      ShareEdge(w, root, cfg, me, f, ends, edges, e);
    }
  }

  lemma ShareAction(w: Setup, root: nat, cfg: Config, me: nat, f: Fields, ends: seq<nat>, edges: set<(Id, Id)>, id: Id)
    requires Rooted(w, root) && me < w.n && |ends| == (if me >= w.dual then 1 else 2)
    requires forall k | 0 <= k < |ends| :: IsEnd(w, root, Role0(w, me) + k, ends[k])
    requires Hopped(w, root, me, f, ends, edges, HopsOf(w, root, me))
    ensures id in f.acts <==> id in Reduce.Prog(w, root, cfg).acts && id.rank == me
    ensures id in f.acts ==> f.acts[id] == Reduce.Prog(w, root, cfg).acts[id]
  {
    hide IsExchange, Placed, Built, ExchangeAction, IsEnd, HopAction, IsHop, Reduce.Prog, Takes;
    PlacedIsTaken(w, root, me, ends, id);
    Members(w, root, cfg, id);
    NotBoth(w, root, id);
  }

  lemma ShareEdge(w: Setup, root: nat, cfg: Config, me: nat, f: Fields, ends: seq<nat>, edges: set<(Id, Id)>,
                  e: (Id, Id))
    requires Rooted(w, root) && me < w.n && |ends| == (if me >= w.dual then 1 else 2)
    requires forall k | 0 <= k < |ends| :: IsEnd(w, root, Role0(w, me) + k, ends[k])
    requires JoinEdges(w, root, me, |ends|, edges)
    requires Hopped(w, root, me, f, ends, edges, HopsOf(w, root, me))
    ensures e in f.pending <==> e in Reduce.Prog(w, root, cfg).edges && e.1.rank == me
  {
    hide IsExchange, Placed, Built, ExchangeAction, IsEnd, HopAction, IsHop, Takes, GoesOn, JoinEdges, RoleOf, StepOf;
    PlacedIsTaken(w, root, me, ends, e.0);
    PlacedIsTaken(w, root, me, ends, e.1);
    JoinEdgesHas(w, root, me, |ends|, edges, e);
    Members(w, root, cfg, e.0);
    Members(w, root, cfg, e.1);
    NotBoth(w, root, e.0);
    NotBoth(w, root, e.1);
    ExchangeNotJoin(w, e.0);
    ExchangeNotJoin(w, e.1);
    HopIsMessage(w, root, e.1);
    HopIsMessage(w, root, e.0);
    assert e == (e.0, e.1);
  }

  lemma ExchangeNotJoin(w: Setup, id: Id)
    ensures IsExchange(w, id) ==> !id.kind.Join?
  {
  }

  lemma HopIsMessage(w: Setup, root: nat, id: Id)
    requires w.l >= 1
    ensures IsHop(w, root, id) ==> !id.kind.Join?
  {
  }
}
