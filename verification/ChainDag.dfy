/** Building a chain's DAG one step at a time. */
module ChainDag {
  import opened Actions
  import opened ActorState
  import opened Executor
  import opened Chains
  import opened Stages

  /** The ids of rank `me` at step `s`. */
  function Ids(c: Chain, me: nat, s: nat): set<Id> {
    if c.local(s) then {IdAt(c, me, s, Shuffle)} else {IdAt(c, me, s, Send), IdAt(c, me, s, Recv)}
  }

  predicate Laid(c: Chain, me: nat, s: nat, id: Id) {
    Has(c, id) && id.rank == me && c.stepOf(id) < s
  }

  /** The DAG under construction is rank `me`'s share of the first `s` steps. */
  ghost predicate Laying(c: Chain, me: nat, f: Fields, s: nat) {
    && Built(f)
    && (forall id :: id in f.acts <==> Laid(c, me, s, id))
    && (forall id | id in f.acts :: f.acts[id] == Act(c, id))
    && (forall e :: e in f.pending <==> Laid(c, me, s, e.0) && Laid(c, me, s, e.1) && Edge(c, e.0, e.1))
  }

  lemma NothingLaid(c: Chain, me: nat, f: Fields)
    requires Built(f) && f.acts == map[] && f.pending == []
    ensures Laying(c, me, f, 0)
  {
  }

  lemma IdsAtStep(c: Chain, me: nat, s: nat, id: Id)
    requires Good(c) && me < c.n && s < c.steps
    ensures id in Ids(c, me, s) <==> Has(c, id) && id.rank == me && c.stepOf(id) == s
    ensures id in Ids(c, me, s) ==> Act(c, id) == ActAt(c, me, s, id.kind)
  {
    hide Good;
    GoodPlaced(c, me, s);
    if c.local(s) {
      HasAt(c, me, s, Shuffle);
    } else {
      HasAt(c, me, s, Send);
      HasAt(c, me, s, Recv);
    }
  }

  lemma LaidNext(c: Chain, me: nat, s: nat, id: Id)
    requires Good(c) && me < c.n && s < c.steps
    ensures Laid(c, me, s + 1, id) <==> Laid(c, me, s, id) || id in Ids(c, me, s)
    ensures Laid(c, me, s, id) ==> id !in Ids(c, me, s)
    ensures s > 0 ==> (id in Ids(c, me, s - 1) <==> Laid(c, me, s, id) && c.stepOf(id) == s - 1)
  {
    hide Good, Has, Ids;
    IdsAtStep(c, me, s, id);
    if s > 0 {
      IdsAtStep(c, me, s - 1, id);
    }
  }

  /** The new dependencies of a step: on everything of the step before. */
  predicate Into(c: Chain, me: nat, s: nat, a: Id, b: Id) {
    s > 0 && a in Ids(c, me, s - 1) && b in Ids(c, me, s)
  }

  lemma EdgeNext(c: Chain, me: nat, s: nat, a: Id, b: Id)
    requires Good(c) && me < c.n && s < c.steps
    ensures (Laid(c, me, s + 1, a) && Laid(c, me, s + 1, b) && Edge(c, a, b)) <==>
              (Laid(c, me, s, a) && Laid(c, me, s, b) && Edge(c, a, b)) || Into(c, me, s, a, b)
  {
    hide Good, Has, Ids;
    LaidNext(c, me, s, a);
    LaidNext(c, me, s, b);
    IdsAtStep(c, me, s, a);
    IdsAtStep(c, me, s, b);
    if s > 0 {
      IdsAtStep(c, me, s - 1, a);
    }
  }

  /** The step's actions and dependencies have been added, nothing else. */
  lemma StepLaid(c: Chain, me: nat, f: Fields, g: Fields, s: nat)
    requires Good(c) && me < c.n && s < c.steps && Laying(c, me, f, s) && Built(g)
    requires forall id :: id in g.acts <==> id in f.acts || id in Ids(c, me, s)
    requires forall id | id in f.acts :: g.acts[id] == f.acts[id]
    requires forall id | id in Ids(c, me, s) :: g.acts[id] == ActAt(c, me, s, id.kind)
    requires forall e :: e in g.pending <==> e in f.pending || Into(c, me, s, e.0, e.1)
    ensures Laying(c, me, g, s + 1)
  {
    hide Good, Has, Ids, Laid, Edge, Into, Built, ActAt, Act;
    forall id
      ensures Laid(c, me, s + 1, id) <==> Laid(c, me, s, id) || id in Ids(c, me, s)
      ensures id in Ids(c, me, s) ==> Act(c, id) == ActAt(c, me, s, id.kind)
    {
      LaidNext(c, me, s, id);
      IdsAtStep(c, me, s, id);
    }
    forall e: (Id, Id)
      ensures e in g.pending <==> Laid(c, me, s + 1, e.0) && Laid(c, me, s + 1, e.1) && Edge(c, e.0, e.1)
    {
      EdgeNext(c, me, s, e.0, e.1);
    }
  }

  /** Rank `me`'s action of `kind` at the step before `s`, if there is one. */
  function Previous(c: Chain, me: nat, s: nat, kind: Kind): Option<Id> {
    if s == 0 then None else Some(IdAt(c, me, s - 1, kind))
  }

  lemma Fresh(c: Chain, me: nat, f: Fields, s: nat, id: Id)
    requires Good(c) && me < c.n && s < c.steps && Laying(c, me, f, s) && id in Ids(c, me, s)
    ensures id !in f.acts && Built(f)
  {
    hide Good, Has, Built, Ids;
    IdsAtStep(c, me, s, id);
  }

  /** An exchange that follows an exchange. */
  method LayExchange(actor: DagActor, ghost c: Chain, me: nat, ghost s: nat, send: Id, sendAction: Action,
                     recv: Id, recvAction: Action, prevSend: Option<Id>, prevRecv: Option<Id>)
    requires Good(c) && me < c.n && s < c.steps && Laying(c, me, actor.F(), s)
    requires !c.local(s) && (s > 0 ==> !c.local(s - 1))
    requires send == IdAt(c, me, s, Send) && sendAction == c.send(me, s)
    requires recv == IdAt(c, me, s, Recv) && recvAction == c.recv(me, s)
    requires prevSend == Previous(c, me, s, Send) && prevRecv == Previous(c, me, s, Recv)
    modifies actor
    ensures Laying(c, me, actor.F(), s + 1)
  {
    hide Good, Has, Built, Laying;
    ghost var f := actor.F();
    Fresh(c, me, f, s, send);
    Fresh(c, me, f, s, recv);
    AddStage(actor, send, sendAction, recv, recvAction, prevSend, prevRecv);
    StepLaid(c, me, f, actor.F(), s);
  }

  /** A shuffle that waits for everything of the step before, named twice if it was a shuffle too. */
  method LayShuffle(actor: DagActor, ghost c: Chain, me: nat, ghost s: nat, shuffle: Id, action: Action,
                    first: Option<Id>, second: Option<Id>)
    requires Good(c) && me < c.n && s < c.steps && Laying(c, me, actor.F(), s) && c.local(s)
    requires shuffle == IdAt(c, me, s, Shuffle) && action == c.shuffle(me, s)
    requires if s == 0 then first == None && second == None
             else first.Some? && second.Some? && Ids(c, me, s - 1) == {first.value, second.value}
    modifies actor
    ensures Laying(c, me, actor.F(), s + 1)
  {
    hide Good, Has, Built, Laying;
    ghost var f := actor.F();
    Fresh(c, me, f, s, shuffle);
    actor.AddDependency(first, shuffle, action);
    actor.AddDependency(second, shuffle, action);
    StepLaid(c, me, f, actor.F(), s);
  }

  /** An exchange that follows a shuffle. */
  method LayFromShuffle(actor: DagActor, ghost c: Chain, me: nat, ghost s: nat, send: Id, sendAction: Action,
                        recv: Id, recvAction: Action, shuffle: Id)
    requires Good(c) && me < c.n && 0 < s < c.steps && Laying(c, me, actor.F(), s)
    requires !c.local(s) && Ids(c, me, s - 1) == {shuffle}
    requires send == IdAt(c, me, s, Send) && sendAction == c.send(me, s)
    requires recv == IdAt(c, me, s, Recv) && recvAction == c.recv(me, s)
    modifies actor
    ensures Laying(c, me, actor.F(), s + 1)
  {
    hide Good, Has, Built, Laying;
    ghost var f := actor.F();
    Fresh(c, me, f, s, send);
    Fresh(c, me, f, s, recv);
    actor.AddDependency(Some(shuffle), send, sendAction);
    actor.AddDependency(Some(shuffle), recv, recvAction);
    StepLaid(c, me, f, actor.F(), s);
  }

  lemma AllLaid(c: Chain, cfg: Config, me: nat, f: Fields)
    requires Good(c) && me < c.n && Laying(c, me, f, c.steps)
    ensures Built(f) && Knows(Prog(c, cfg), me, f)
    ensures forall e :: e in f.pending <==> e in Prog(c, cfg).edges && e.1.rank == me
  {
    hide Good, Has, Act, Built, Prog;
    var p := Prog(c, cfg);
    forall id
      ensures Laid(c, me, c.steps, id) <==> id in p.acts && id.rank == me
      ensures Laid(c, me, c.steps, id) ==> p.acts[id] == Act(c, id)
    {
      Members(c, cfg, id);
    }
    forall e: (Id, Id)
      ensures e in p.edges <==> e.0 in p.acts && e.1 in p.acts && Edge(c, e.0, e.1)
    {
      EdgesAre(c, cfg, e);
    }
  }

  lemma EdgesAre(c: Chain, cfg: Config, e: (Id, Id))
    ensures e in Prog(c, cfg).edges <==> e.0 in Prog(c, cfg).acts && e.1 in Prog(c, cfg).acts && Edge(c, e.0, e.1)
  {
    hide Has, Edge, Act;
    assert e == (e.0, e.1);
  }
}
