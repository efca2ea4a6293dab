/** The loops of initDag that allreduce and reduce have in common. */
module ExchangeDag {
  import opened Actions
  import opened ActorState
  import opened Executor
  import opened Wilke
  import opened Exchange
  import opened Stages
  import opened Trees

  /** First virtual rank of real rank `me`. */
  function Role0(w: Setup, me: nat): nat {
    if me >= w.dual then me + w.dual else 2 * me
  }

  /** Exchanges of the steps below `ends[k]` of each role `k`. */
  predicate Placed(w: Setup, me: nat, ends: seq<nat>, id: Id) {
    && IsExchange(w, id) && id.rank == me
    && Role0(w, me) <= RoleOf(w, id) < Role0(w, me) + |ends|
    && StepOf(w, id) < ends[RoleOf(w, id) - Role0(w, me)]
  }

  predicate Follows(w: Setup, a: Id, b: Id) {
    RoleOf(w, a) == RoleOf(w, b) && StepOf(w, b) == StepOf(w, a) + 1
  }

  /**
   * The DAG under construction holds the placed exchanges, chained step by
   * step, and besides them the actions `more` and the dependencies `extra`.
   */
  ghost predicate Filled(w: Setup, me: nat, f: Fields, ends: seq<nat>, more: map<Id, Action>, extra: set<(Id, Id)>) {
    && Built(f)
    && (forall id :: id in f.acts <==> Placed(w, me, ends, id) || id in more)
    && (forall id | Placed(w, me, ends, id) :: f.acts[id] == ExchangeAction(w, id))
    && (forall id | id in more :: !IsExchange(w, id) && f.acts[id] == more[id])
    && (forall e :: e in f.pending <==>
          (Placed(w, me, ends, e.0) && Placed(w, me, ends, e.1) && Follows(w, e.0, e.1)) || e in extra)
  }

  /** The step before `s` that is not skipped, if any. */
  function Previous(w: Setup, v: nat, s: nat, kind: Kind): Option<Id>
    requires s <= 2 * w.l
  {
    if s == 0 || Skipped(w, v, s - 1) then None else Some(Xid(w, v, s - 1, kind))
  }

  /** The ids of a role's step, and that nothing else is at that step. */
  lemma StageIds(w: Setup, me: nat, v: nat, s: nat, id: Id)
    requires Ok(w) && v < Pow2(w.l) && s < 2 * w.l && !Skipped(w, v, s) && Real(w.dual, v) == me
    ensures var send := Xid(w, v, s, Send);
            var recv := Xid(w, v, s, Recv);
            && IsExchange(w, send) && RoleOf(w, send) == v && StepOf(w, send) == s && send.rank == me
            && IsExchange(w, recv) && RoleOf(w, recv) == v && StepOf(w, recv) == s && recv.rank == me
            && send != recv
            && (IsExchange(w, id) && RoleOf(w, id) == v && StepOf(w, id) == s ==> id == send || id == recv)
  {
    hide Real, Partner;
    XidIsExchange(w, v, s, Send);
    XidIsExchange(w, v, s, Recv);
  }

  lemma NothingSkipped(w: Setup, id: Id)
    requires IsExchange(w, id)
    ensures !Skipped(w, RoleOf(w, id), StepOf(w, id)) && StepOf(w, id) < 2 * w.l
  {
  }

  /** What is placed one step further. */
  lemma PlacedNext(w: Setup, me: nat, ends: seq<nat>, s: nat, id: Id)
    requires Ok(w) && 0 < |ends| && ends[|ends| - 1] == s && s < 2 * w.l
    requires var v := Role0(w, me) + |ends| - 1; v < Pow2(w.l) && Real(w.dual, v) == me
    ensures var v := Role0(w, me) + |ends| - 1;
            Placed(w, me, ends[|ends| - 1 := s + 1], id) <==>
              Placed(w, me, ends, id) || (!Skipped(w, v, s) && (id == Xid(w, v, s, Send) || id == Xid(w, v, s, Recv)))
  {
    hide IsExchange, Real, Partner;
    var v := Role0(w, me) + |ends| - 1;
    if IsExchange(w, id) {
      NothingSkipped(w, id);
    }
    if !Skipped(w, v, s) {
      StageIds(w, me, v, s, id);
    }
  }

  lemma SkipFilled(w: Setup, me: nat, f: Fields, ends: seq<nat>, s: nat, more: map<Id, Action>, extra: set<(Id, Id)>)
    requires Ok(w) && 0 < |ends| && ends[|ends| - 1] == s && s < 2 * w.l
    requires var v := Role0(w, me) + |ends| - 1; v < Pow2(w.l) && Real(w.dual, v) == me && Skipped(w, v, s)
    requires Filled(w, me, f, ends, more, extra)
    ensures Filled(w, me, f, ends[|ends| - 1 := s + 1], more, extra)
  {
    hide IsExchange, Real, Partner, Built, Placed, Follows, Skipped, ExchangeAction;
    forall id ensures Placed(w, me, ends[|ends| - 1 := s + 1], id) <==> Placed(w, me, ends, id) {
      PlacedNext(w, me, ends, s, id);
    }
  }

  /** The dependencies a stage adds are exactly those that end in it. */
  lemma FollowsInto(w: Setup, me: nat, ends: seq<nat>, s: nat, a: Id, b: Id)
    requires Ok(w) && 0 < |ends| && ends[|ends| - 1] == s && s < 2 * w.l
    requires var v := Role0(w, me) + |ends| - 1; v < Pow2(w.l) && Real(w.dual, v) == me && !Skipped(w, v, s)
    ensures var v := Role0(w, me) + |ends| - 1;
            var more := ends[|ends| - 1 := s + 1];
            (Placed(w, me, more, a) && Placed(w, me, more, b) && Follows(w, a, b)) <==>
              (Placed(w, me, ends, a) && Placed(w, me, ends, b) && Follows(w, a, b))
              || ((b == Xid(w, v, s, Send) || b == Xid(w, v, s, Recv))
                  && (Some(a) == Previous(w, v, s, Send) || Some(a) == Previous(w, v, s, Recv)))
  {
    hide IsExchange, Real, Partner;
    var v := Role0(w, me) + |ends| - 1;
    PlacedNext(w, me, ends, s, a);
    PlacedNext(w, me, ends, s, b);
    StageIds(w, me, v, s, a);
    StageIds(w, me, v, s, b);
    if IsExchange(w, a) {
      NothingSkipped(w, a);
    }
    if s > 0 && !Skipped(w, v, s - 1) {
      StageIds(w, me, v, s - 1, a);
    }
  }

  lemma StageFilled(w: Setup, me: nat, f: Fields, g: Fields, ends: seq<nat>, s: nat,
                    more: map<Id, Action>, extra: set<(Id, Id)>)
    requires Ok(w) && 0 < |ends| && ends[|ends| - 1] == s && s < 2 * w.l
    requires var v := Role0(w, me) + |ends| - 1; v < Pow2(w.l) && Real(w.dual, v) == me && !Skipped(w, v, s)
    requires Filled(w, me, f, ends, more, extra) && Built(g)
    requires var v := Role0(w, me) + |ends| - 1;
             var send := Xid(w, v, s, Send);
             var recv := Xid(w, v, s, Recv);
             && IsExchange(w, send) && IsExchange(w, recv)
             && g.acts == f.acts[send := ExchangeAction(w, send)][recv := ExchangeAction(w, recv)]
             && (forall e :: e in g.pending <==>
                   e in f.pending
                   || ((e.1 == send || e.1 == recv)
                       && (Some(e.0) == Previous(w, v, s, Send) || Some(e.0) == Previous(w, v, s, Recv))))
    ensures Filled(w, me, g, ends[|ends| - 1 := s + 1], more, extra)
  {
    hide IsExchange, Real, Partner, Built, Placed, Follows, Previous, Xid, ExchangeAction;
    var next := ends[|ends| - 1 := s + 1];
    forall id ensures Placed(w, me, next, id) <==>
        Placed(w, me, ends, id) || id == Xid(w, Role0(w, me) + |ends| - 1, s, Send)
                                || id == Xid(w, Role0(w, me) + |ends| - 1, s, Recv)
    {
      PlacedNext(w, me, ends, s, id);
    }
    forall e: (Id, Id) ensures e in g.pending <==>
        (Placed(w, me, next, e.0) && Placed(w, me, next, e.1) && Follows(w, e.0, e.1)) || e in extra
    {
      FollowsInto(w, me, ends, s, e.0, e.1);
    }
  }

  /** Append step `s` of the latest role. */
  method PlaceStage(actor: DagActor, w: Setup, me: nat, ghost ends: seq<nat>, s: nat, send: Id, sendAction: Action,
                    recv: Id, recvAction: Action, prevSend: Option<Id>, prevRecv: Option<Id>,
                    ghost more: map<Id, Action>, ghost extra: set<(Id, Id)>)
    requires Ok(w) && 0 < |ends| && ends[|ends| - 1] == s && s < 2 * w.l
    requires var v := Role0(w, me) + |ends| - 1; v < Pow2(w.l) && Real(w.dual, v) == me && !Skipped(w, v, s)
    requires Filled(w, me, actor.F(), ends, more, extra)
    requires var v := Role0(w, me) + |ends| - 1;
             && send == Xid(w, v, s, Send) && recv == Xid(w, v, s, Recv)
             && IsExchange(w, send) && IsExchange(w, recv)
             && sendAction == ExchangeAction(w, send) && recvAction == ExchangeAction(w, recv)
             && prevSend == Previous(w, v, s, Send) && prevRecv == Previous(w, v, s, Recv)
    modifies actor
    ensures Filled(w, me, actor.F(), ends[|ends| - 1 := s + 1], more, extra)
  {
    hide IsExchange, Real, Partner, Built, Placed, Follows, Xid, ExchangeAction, Skipped;
    ghost var f := actor.F();
    StageIds(w, me, Role0(w, me) + |ends| - 1, s, send);
    NotPlacedYet(w, me, ends, s, send);
    NotPlacedYet(w, me, ends, s, recv);
    AddStage(actor, send, sendAction, recv, recvAction, prevSend, prevRecv);
    StageFilled(w, me, f, actor.F(), ends, s, more, extra);
  }

  lemma NotPlacedYet(w: Setup, me: nat, ends: seq<nat>, s: nat, id: Id)
    requires 0 < |ends| && ends[|ends| - 1] == s
    requires RoleOf(w, id) == Role0(w, me) + |ends| - 1 && StepOf(w, id) == s
    ensures !Placed(w, me, ends, id)
  {
  }

  /** What the source computes for halving round `i` is the exchange of step `i`. */
  lemma HalvingStage(w: Setup, v: nat, i: nat)
    requires Ok(w) && v < Pow2(w.l) && i < w.l && !Skipped(w, v, i)
    ensures var q := Part(w.nelems, v, i);
            var low := Lower(v, i);
            var sendLen := if low then q.len / 2 else q.len - q.len / 2;
            var sendOff := if low then q.off + q.len - sendLen else q.off;
            var recvOff := if low then q.off else q.off + sendLen;
            var send := Xid(w, v, i, Send);
            var recv := Xid(w, v, i, Recv);
            && IsExchange(w, send) && IsExchange(w, recv)
            && ExchangeAction(w, send) == Action(SendInPlace, sendOff, sendLen, map[])
            && ExchangeAction(w, recv) == Action(RecvReduce, recvOff, q.len - sendLen, map[])
            && Part(w.nelems, v, i + 1) == Piece(recvOff, q.len - sendLen)
  {
    hide Real, Partner;
    StageIds(w, Real(w.dual, v), v, i, Xid(w, v, i, Send));
    PartShared(w.nelems, v, i, i);
    PartnerBack(v, i);
  }

  /** The mirror of an exchange sends what was received and receives what was sent. */
  lemma MirrorStage(w: Setup, v: nat, s: nat)
    requires Ok(w) && v < Pow2(w.l) && w.l <= s < 2 * w.l && !Skipped(w, v, s)
    ensures var i := Level(w, s);
            var send := Xid(w, v, s, Send);
            var recv := Xid(w, v, s, Recv);
            && IsExchange(w, send) && IsExchange(w, recv)
            && IsExchange(w, Xid(w, v, i, Send)) && IsExchange(w, Xid(w, v, i, Recv))
            && send.partner == Xid(w, v, i, Recv).partner && recv.partner == Xid(w, v, i, Send).partner
            && ExchangeAction(w, send) == ExchangeAction(w, Xid(w, v, i, Recv)).(mode := SendInPlace)
            && ExchangeAction(w, recv) == ExchangeAction(w, Xid(w, v, i, Send)).(mode := RecvInPlace)
  {
    hide Real, Partner, Part;
    var i := Level(w, s);
    assert Level(w, i) == i;
    StageIds(w, Real(w.dual, v), v, s, Xid(w, v, s, Send));
    StageIds(w, Real(w.dual, v), v, i, Xid(w, v, i, Send));
  }

  predicate Recorded(w: Setup, v: nat, ids: seq<Option<Id>>, kind: Kind) {
    |ids| <= w.l && forall j | 0 <= j < |ids| :: ids[j] == if Skipped(w, v, j) then None else Some(Xid(w, v, j, kind))
  }

  /**
   * One iteration of the fan-out loop: halving round `i` of role `v`.  Returns the round's
   * send and receive, unless the partner is this rank too, and the piece received into.
   */
  method HalveOnce(actor: DagActor, w: Setup, me: nat, roles: seq<nat>, v: nat, i: nat, ghost done: seq<nat>,
                   myBufferOffset: nat, partnerGap: nat, roundNelems: nat,
                   prevSend: Option<Id>, prevRecv: Option<Id>, ghost more: map<Id, Action>, ghost extra: set<(Id, Id)>)
    returns (sent: Option<Id>, received: Option<Id>, recvOffset: nat, recvNelems: nat)
    requires Ok(w) && v == Role0(w, me) + |done| && v < Pow2(w.l) && Real(w.dual, v) == me && i < w.l
    requires forall u: nat :: u in roles <==> Real(w.dual, u) == me
    requires Filled(w, me, actor.F(), done + [i], more, extra)
    requires partnerGap == Pow2(i) && Part(w.nelems, v, i) == Piece(myBufferOffset, roundNelems)
    requires prevSend == Previous(w, v, i, Send) && prevRecv == Previous(w, v, i, Recv)
    modifies actor
    ensures Filled(w, me, actor.F(), done + [i + 1], more, extra)
    ensures sent == Previous(w, v, i + 1, Send) && received == Previous(w, v, i + 1, Recv)
    ensures Part(w.nelems, v, i + 1) == Piece(recvOffset, recvNelems)
  {
    hide Filled, Real, Partner, ExchangeAction, IsExchange, Part;
    var round := if i == 0 || v % 2 == 0 then i else i + 2 * w.l;
    var iAmLow := (v / partnerGap) % 2 == 0;
    ShrIsDivision(v, i);
    PartnerGap(v, i);
    var virtualPartner, sendNelems, sendOffset;
    if iAmLow {
      virtualPartner := v + partnerGap;
      sendNelems := roundNelems / 2;
      sendOffset := myBufferOffset + roundNelems - sendNelems;
      recvOffset := myBufferOffset;
    } else {
      virtualPartner := v - partnerGap;
      sendNelems := roundNelems - roundNelems / 2;
      sendOffset := myBufferOffset;
      recvOffset := myBufferOffset + sendNelems;
    }
    recvNelems := roundNelems - sendNelems;
    var shared := IsSharedRole(virtualPartner, roles);
    SharedIs(w, v, i);
    assert (done + [i])[|done + [i]| - 1 := i + 1] == done + [i + 1];
    if !shared {
      var partner := Real(w.dual, virtualPartner);
      var send, recv := Id(me, Send, round, partner), Id(me, Recv, round, partner);
      HalvingStage(w, v, i);
      PlaceStage(actor, w, me, done + [i], i, send, Action(SendInPlace, sendOffset, sendNelems, map[]),
                 recv, Action(RecvReduce, recvOffset, recvNelems, map[]), prevSend, prevRecv, more, extra);
      sent, received := Some(send), Some(recv);
    } else {
      SkipFilled(w, me, actor.F(), done + [i], i, more, extra);
      PartAfter(w, v, i);
      sent, received := None, None;
    }
  }

  /** The fan-out loop of initDag for one role. */
  method FanOut(actor: DagActor, w: Setup, me: nat, roles: seq<nat>, v: nat, ghost done: seq<nat>,
                ghost more: map<Id, Action>, ghost extra: set<(Id, Id)>)
    returns (sends: seq<Option<Id>>, recvs: seq<Option<Id>>, prevSend: Option<Id>, prevRecv: Option<Id>)
    requires Ok(w) && v == Role0(w, me) + |done| && v < Pow2(w.l) && Real(w.dual, v) == me
    requires forall u: nat :: u in roles <==> Real(w.dual, u) == me
    requires Filled(w, me, actor.F(), done + [0], more, extra)
    modifies actor
    ensures Filled(w, me, actor.F(), done + [w.l], more, extra)
    ensures |sends| == |recvs| == w.l && Recorded(w, v, sends, Send) && Recorded(w, v, recvs, Recv)
    ensures prevSend == Previous(w, v, w.l, Send) && prevRecv == Previous(w, v, w.l, Recv)
  {
    hide Filled, Real, Partner, Skipped;
    sends, recvs, prevSend, prevRecv := [], [], None, None;
    var myBufferOffset, partnerGap, roundNelems := 0, 1, w.nelems;
    for i := 0 to w.l
      invariant Filled(w, me, actor.F(), done + [i], more, extra)
      invariant partnerGap == Pow2(i) && Part(w.nelems, v, i) == Piece(myBufferOffset, roundNelems)
      invariant |sends| == |recvs| == i && Recorded(w, v, sends, Send) && Recorded(w, v, recvs, Recv)
      invariant prevSend == Previous(w, v, i, Send) && prevRecv == Previous(w, v, i, Recv)
    {
      var sent, received;
      sent, received, myBufferOffset, roundNelems :=
        HalveOnce(actor, w, me, roles, v, i, done, myBufferOffset, partnerGap, roundNelems, prevSend, prevRecv,
                  more, extra);
      sends, recvs := sends + [sent], recvs + [received];
      // the source keeps the previous round's actions when it skips; only round 0 can be skipped
      if sent.Some? && received.Some? {
        prevSend, prevRecv := sent, received;
      }
      SharedIs(w, v, i);
      partnerGap := partnerGap * 2;
    }
  }

  lemma SharedIs(w: Setup, v: nat, i: nat)
    requires i < w.l
    ensures Real(w.dual, Partner(v, i)) == Real(w.dual, v) <==> Skipped(w, v, i)
    ensures Skipped(w, v, i) ==> i == 0
  {
    SharedIffCoLocated(w.dual, v, i);
  }

  lemma PartAfter(w: Setup, v: nat, i: nat)
    ensures var q := Part(w.nelems, v, i);
            Part(w.nelems, v, i + 1) == if Lower(v, i) then Piece(q.off, q.len - q.len / 2)
                                        else Piece(q.off + (q.len - q.len / 2), q.len / 2)
  {
  }

  /** One iteration of the fan-in loop: mirror round `s` of role `v`, unless its halving round was skipped. */
  method MirrorOnce(actor: DagActor, w: Setup, me: nat, v: nat, s: nat, ghost done: seq<nat>,
                    mirrorSend: Option<Id>, mirrorRecv: Option<Id>, prevSend: Option<Id>, prevRecv: Option<Id>,
                    ghost more: map<Id, Action>, ghost extra: set<(Id, Id)>)
    returns (nextSend: Option<Id>, nextRecv: Option<Id>)
    requires Ok(w) && v == Role0(w, me) + |done| && v < Pow2(w.l) && Real(w.dual, v) == me && w.l <= s < 2 * w.l
    requires Filled(w, me, actor.F(), done + [s], more, extra)
    requires mirrorSend == (if Skipped(w, v, s) then None else Some(Xid(w, v, Level(w, s), Send)))
    requires mirrorRecv == (if Skipped(w, v, s) then None else Some(Xid(w, v, Level(w, s), Recv)))
    requires prevSend == Previous(w, v, s, Send) && prevRecv == Previous(w, v, s, Recv)
    modifies actor
    ensures Filled(w, me, actor.F(), done + [s + 1], more, extra)
    ensures !Skipped(w, v, s) ==> nextSend == Previous(w, v, s + 1, Send) && nextRecv == Previous(w, v, s + 1, Recv)
    ensures Skipped(w, v, s) ==> nextSend == prevSend && nextRecv == prevRecv
  {
    hide Filled, Real, Partner, ExchangeAction, IsExchange, Part;
    assert (done + [s])[|done + [s]| - 1 := s + 1] == done + [s + 1];
    if mirrorSend.Some? && mirrorRecv.Some? {
      var round := if s + 1 == 2 * w.l || v % 2 == 0 then s else s + 2 * w.l;
      MirrorStage(w, v, s);
      FilledHas(w, me, actor.F(), done + [s], more, extra, v, Level(w, s));
      var send, recv := Id(me, Send, round, mirrorRecv.value.partner), Id(me, Recv, round, mirrorSend.value.partner);
      var sent, received := actor.acts[mirrorSend.value], actor.acts[mirrorRecv.value];
      PlaceStage(actor, w, me, done + [s], s, send, received.(mode := SendInPlace), recv, sent.(mode := RecvInPlace),
                 prevSend, prevRecv, more, extra);
      nextSend, nextRecv := Some(send), Some(recv);
    } else {
      SkipFilled(w, me, actor.F(), done + [s], s, more, extra);
      nextSend, nextRecv := prevSend, prevRecv;
    }
  }

  lemma FilledHas(w: Setup, me: nat, f: Fields, ends: seq<nat>, more: map<Id, Action>, extra: set<(Id, Id)>,
                  v: nat, i: nat)
    requires Ok(w) && 0 < |ends| && v == Role0(w, me) + |ends| - 1 && v < Pow2(w.l) && Real(w.dual, v) == me
    requires i < w.l <= ends[|ends| - 1] && !Skipped(w, v, i) && Filled(w, me, f, ends, more, extra)
    ensures var send := Xid(w, v, i, Send);
            var recv := Xid(w, v, i, Recv);
            && IsExchange(w, send) && IsExchange(w, recv)
            && send in f.acts && recv in f.acts
            && f.acts[send] == ExchangeAction(w, send) && f.acts[recv] == ExchangeAction(w, recv)
  {
    hide Real, Partner, IsExchange, ExchangeAction, Built;
    StageIds(w, me, v, i, Xid(w, v, i, Send));
  }

  /** Beginning a further role adds nothing yet. */
  lemma FilledOpen(w: Setup, me: nat, f: Fields, ends: seq<nat>, more: map<Id, Action>, extra: set<(Id, Id)>)
    requires Filled(w, me, f, ends, more, extra)
    ensures Filled(w, me, f, ends + [0], more, extra)
  {
    hide IsExchange, Built, Follows, ExchangeAction, Role0;
    forall id ensures Placed(w, me, ends + [0], id) <==> Placed(w, me, ends, id) {
    }
  }

  lemma RolesAre(w: Setup, me: nat, roles: seq<nat>, k: nat)
    requires Ok(w) && me < w.n && k < |roles| == (if me >= w.dual then 1 else 2)
    requires forall j | 0 <= j < |roles| :: roles[j] == roles[0] + j
    requires roles[0] == Role0(w, me)
    ensures roles[k] == Role0(w, me) + k && roles[k] < Pow2(w.l) && Real(w.dual, roles[k]) == me
  {
  }
}
