/** Wilke allreduce: all exchanges of all virtual ranks, combining and then mirrored. */
module Allreduce {
  import opened Actions
  import opened Fabric
  import opened Outlines
  import opened Runs
  import opened Programs
  import opened Wilke
  import opened Exchange

  predicate Has(w: Setup, id: Id) { IsExchange(w, id) }

  function Act(w: Setup, id: Id): Action {
    if IsExchange(w, id) then ExchangeAction(w, id) else Action(Local, 0, 0, map[])
  }

  /** A role's step waits for both actions of its previous step. */
  predicate Edge(w: Setup, a: Id, b: Id) {
    a.rank == b.rank && RoleOf(w, a) == RoleOf(w, b) && StepOf(w, b) == StepOf(w, a) + 1
  }

  ghost function Prog(w: Setup, cfg: Config): Program {
    Build(w.n, 4 * w.l, id => Has(w, id), id => Act(w, id), (a, b) => Edge(w, a, b), cfg, w.nelems, 0, 2 * w.nelems)
  }

  /**
   * During the halving a role's piece holds the combined input of its group;
   * during the mirror the piece, growing again, holds everyone's.
   */
  function Predicted(w: Setup, t: nat, r: nat, x: nat): Option<Val> {
    if x >= w.nelems then None
    else
      var v := Owner(w, r, x);
      if t <= w.l then (if Part(w.nelems, v, t).Has(x) then Some(Held(w.dual, v, t, x)) else None)
      else if t <= 2 * w.l then (if Part(w.nelems, v, 2 * w.l - t).Has(x) then Some(Sum(x, 0, w.n)) else None)
      else None
  }

  predicate Ordered(w: Setup, a: Id, b: Id) {
    IsExchange(w, a) && a.rank == b.rank && RoleOf(w, a) == RoleOf(w, b) && StepOf(w, a) < StepOf(w, b)
  }

  ghost function Plan(w: Setup): Outline {
    Outline(id => StepOf(w, id), (a, b) => Ordered(w, a, b), (t: nat, r: nat, x: nat) => Predicted(w, t, r, x))
  }

  // ---------------------------------------------------------------- the program is sound

  lemma Members(w: Setup, cfg: Config, id: Id)
    requires Ok(w)
    ensures id in Prog(w, cfg).acts <==> IsExchange(w, id)
    ensures IsExchange(w, id) ==> Prog(w, cfg).acts[id] == ExchangeAction(w, id)
  {
    hide Partner, Real, Part;
    if IsExchange(w, id) {
      MateIsPartners(w, id);
    }
  }

  lemma ActionSound(w: Setup, cfg: Config, id: Id)
    requires Ok(w) && id in Prog(w, cfg).acts
    ensures SoundAction(Prog(w, cfg), id)
  {
    hide Partner, Real, Part, Prog, IsExchange, Region;
    Members(w, cfg, id);
    Members(w, cfg, Mate(id));
    MateIsPartners(w, id);
    Layout(w, cfg);
    SameLength(w, id);
  }

  lemma Layout(w: Setup, cfg: Config)
    ensures var p := Prog(w, cfg);
            p.n == w.n && p.recvBase == w.nelems && p.sendBase == 0 && p.size == 2 * w.nelems && p.cfg == cfg
  {
  }

  lemma SameLength(w: Setup, id: Id)
    requires Ok(w) && IsExchange(w, id) && IsExchange(w, Mate(id))
    ensures ExchangeAction(w, id).nelems == ExchangeAction(w, Mate(id)).nelems
    ensures ExchangeAction(w, id).offset == ExchangeAction(w, Mate(id)).offset
    ensures ExchangeAction(w, id).offset + ExchangeAction(w, id).nelems <= w.nelems
    ensures var a := ExchangeAction(w, id); id.kind.Send? ==> a.mode == SendInPlace
    ensures var a := ExchangeAction(w, id);
            id.kind.Recv? ==> a.mode == if StepOf(w, id) < w.l then RecvReduce else RecvInPlace
    ensures id.kind.Send? || id.kind.Recv?
  {
    MateIsPartners(w, id);
  }

  lemma ProgSound(w: Setup, cfg: Config)
    requires Ok(w)
    ensures Sound(Prog(w, cfg))
  {
    hide IsExchange, SoundAction;
    forall id | id in Prog(w, cfg).acts ensures SoundAction(Prog(w, cfg), id) {
      ActionSound(w, cfg, id);
    }
  }

  lemma ProgTimed(w: Setup, cfg: Config)
    requires Ok(w)
    ensures Timed(Prog(w, cfg), Plan(w))
  {
    hide IsExchange;
  }

  /**
   * The schedules match: what rank a sends to rank b in a round is what b
   * receives from a in that round, at the same offset and of the same length, so
   * both ends choose the same protocol; and the other way round.
   */
  lemma ScheduleMatches(w: Setup, cfg: Config, id: Id)
    requires Ok(w) && id in Prog(w, cfg).acts
    ensures var p := Prog(w, cfg);
            var m := Mate(id);
            && m in p.acts && m.kind != id.kind && m.rank == id.partner && m.partner == id.rank && m.round == id.round
            && Mate(m) == id && id.rank != id.partner
            && p.acts[m].offset == p.acts[id].offset && p.acts[m].nelems == p.acts[id].nelems
            && Proto(p, m) == Proto(p, id)
  {
    hide Partner, Real, Part, Prog, IsExchange, Region;
    Members(w, cfg, id);
    Members(w, cfg, Mate(id));
    MateIsPartners(w, id);
    SameLength(w, id);
  }

  // ---------------------------------------------------------------- order and races

  lemma StepBack(w: Setup, cfg: Config, a: Id, b: Id) returns (c: Id)
    requires Ok(w) && IsExchange(w, a) && IsExchange(w, b) && Ordered(w, a, b)
    ensures LastStep(Prog(w, cfg), Plan(w), a, b, c)
  {
    hide Partner, Real, Part, IsExchange;
    Members(w, cfg, a);
    Members(w, cfg, b);
    if StepOf(w, a) + 1 == StepOf(w, b) {
      c := a;
    } else {
      c := Xid(w, RoleOf(w, b), StepOf(w, b) - 1, Send);
      Between(w, a, b);
      Members(w, cfg, c);
    }
  }

  lemma Between(w: Setup, a: Id, b: Id)
    requires Ok(w) && IsExchange(w, a) && IsExchange(w, b) && Ordered(w, a, b) && StepOf(w, a) + 1 < StepOf(w, b)
    ensures var c := Xid(w, RoleOf(w, b), StepOf(w, b) - 1, Send);
            IsExchange(w, c) && c.rank == b.rank && RoleOf(w, c) == RoleOf(w, b) && StepOf(w, c) == StepOf(w, b) - 1
  {
    hide Partner, Part;
    XidIsExchange(w, RoleOf(w, b), StepOf(w, b) - 1, Send);
  }

  lemma ProgBacked(w: Setup, cfg: Config)
    requires Ok(w)
    ensures Backed(Prog(w, cfg), Plan(w))
  {
    var p := Prog(w, cfg);
    var o := Plan(w);
    forall a, b | a in p.acts && b in p.acts && o.ord(a, b)
      ensures o.when(a) < o.when(b) && exists c :: LastStep(p, o, a, b, c)
    {
      Members(w, cfg, a);
      Members(w, cfg, b);
      var c := StepBack(w, cfg, a, b);
    }
  }

  /** An exchange touches its region, and a combining receive the same region of the scratch buffer. */
  lemma Footprint(w: Setup, cfg: Config, id: Id, x: nat)
    requires Ok(w) && IsExchange(w, id) && id in Prog(w, cfg).acts
    ensures var p := Prog(w, cfg);
            var q := Region(w, RoleOf(w, id), StepOf(w, id), id.kind);
            && (Updates(p, id, x) ==> q.Has(x) && x < w.nelems)
            && (Reads(p, id, x) ==> q.Has(x) && x < w.nelems)
            && (Lands(p, id, x) ==> q.Has(x - w.nelems) && x >= w.nelems)
            && (id.kind.Recv? && q.Has(x) ==> Updates(p, id, x))
  {
    hide Partner, Part, IsExchange, Prog;
    Members(w, cfg, id);
    Layout(w, cfg);
  }

  lemma ClashOrdered(w: Setup, cfg: Config, a: Id, b: Id, x: nat)
    requires Ok(w) && IsExchange(w, a) && IsExchange(w, b) && a != b && a.rank == b.rank
    requires a in Prog(w, cfg).acts && b in Prog(w, cfg).acts && Clash(Prog(w, cfg), a, b, x)
    ensures Ordered(w, a, b) || Ordered(w, b, a)
  {
    hide IsExchange, Prog, Region, Updates, Reads, Lands;
    Footprint(w, cfg, a, x);
    Footprint(w, cfg, b, x);
    var y := if x < w.nelems then x else x - w.nelems;
    RegionsApart(w, a, b, y);
  }

  lemma ProgRaceFree(w: Setup, cfg: Config)
    requires Ok(w)
    ensures RaceFree(Prog(w, cfg), Plan(w))
  {
    hide IsExchange, Clash;
    var p := Prog(w, cfg);
    forall a, b, x | a in p.acts && b in p.acts && a != b && a.rank == b.rank && Clash(p, a, b, x)
      ensures Plan(w).ord(a, b) || Plan(w).ord(b, a)
    {
      Members(w, cfg, a);
      Members(w, cfg, b);
      ClashOrdered(w, cfg, a, b, x);
    }
  }

  // ---------------------------------------------------------------- what is computed

  /** Between updates the prediction does not change. */
  lemma Unchanged(w: Setup, r: nat, x: nat, t: nat)
    requires Ok(w) && r < w.n && x < w.nelems && t < 2 * w.l
    requires Predicted(w, t + 1, r, x).Some?
    requires !Skipped(w, Owner(w, r, x), t) ==> !Region(w, Owner(w, r, x), t, Recv).Has(x)
    ensures Predicted(w, t, r, x) == Predicted(w, t + 1, r, x)
  {
    hide Partner, Real, Part, Held, Sum, Owner;
    var v := Owner(w, r, x);
    OwnerHalf(w, r, x);
    if t < w.l {
      // the role's piece shrinks to what it receives, so it must have skipped this exchange
      PartSplit(w.nelems, v, t, x);
      HeldSkips(w.dual, v, x);
    } else {
      PartSplit(w.nelems, v, 2 * w.l - 1 - t, x);
      HeldAll(w.n, w.l, w.dual, v, x);
    }
  }

  lemma RecvUpdates(w: Setup, cfg: Config, r: nat, x: nat, t: nat)
    requires Ok(w) && r < w.n && x < w.nelems && t < 2 * w.l
    requires !Skipped(w, Owner(w, r, x), t) && Region(w, Owner(w, r, x), t, Recv).Has(x)
    ensures !Idle(Prog(w, cfg), Plan(w), t, r, x)
  {
    hide Partner, Part, IsExchange, Prog, Owner, Updates;
    var v := Owner(w, r, x);
    OwnerHalf(w, r, x);
    var id := Xid(w, v, t, Recv);
    XidIsExchange(w, v, t, Recv);
    Members(w, cfg, id);
    Footprint(w, cfg, id, x);
    assert id.rank == r && Updates(Prog(w, cfg), id, x) && Plan(w).when(id) == t;
  }

  lemma ProgFramed(w: Setup, cfg: Config)
    requires Ok(w)
    ensures Framed(Prog(w, cfg), Plan(w))
  {
    var p := Prog(w, cfg);
    var o := Plan(w);
    hide Prog, Idle, Region, Owner, Skipped;
    Layout(w, cfg);
    forall t: nat, r: nat, x: nat | r < p.n && x < p.size && Idle(p, o, t, r, x) && o.val(t + 1, r, x).Some?
      ensures o.val(t, r, x) == o.val(t + 1, r, x)
    {
      if !Skipped(w, Owner(w, r, x), t) && Region(w, Owner(w, r, x), t, Recv).Has(x) {
        RecvUpdates(w, cfg, r, x, t);
      }
      Unchanged(w, r, x, t);
    }
  }

  /** What a role predicts for elements it owns. */
  lemma PredictedOwn(w: Setup, t: nat, v: nat, x: nat)
    requires Ok(w) && v < Pow2(w.l) && x < w.nelems && Owner(w, Real(w.dual, v), x) == v
    ensures t <= w.l && Part(w.nelems, v, t).Has(x) ==>
              Predicted(w, t, Real(w.dual, v), x) == Some(Held(w.dual, v, t, x))
    ensures w.l <= t <= 2 * w.l && Part(w.nelems, v, 2 * w.l - t).Has(x) ==>
              Predicted(w, t, Real(w.dual, v), x) == Some(Sum(x, 0, w.n))
  {
    hide Real, Part, Owner, Held, Sum;
    HeldAll(w.n, w.l, w.dual, v, x);
  }

  lemma ExchangeExplained(w: Setup, v: nat, s: nat, x: nat)
    requires Ok(w) && v < Pow2(w.l) && s < 2 * w.l && !Skipped(w, v, s) && x < w.nelems
    requires Region(w, v, s, Send).Has(x)
    ensures var u := Partner(v, Level(w, s));
            var sent := Predicted(w, s, Real(w.dual, v), x);
            var before := Predicted(w, s, Real(w.dual, u), x);
            && sent.Some?
            && (s < w.l ==> before.Some? && Predicted(w, s + 1, Real(w.dual, u), x) == Some(before.value + sent.value))
            && (s >= w.l ==> Predicted(w, s + 1, Real(w.dual, u), x) == sent)
  {
    hide Real, Part, Owner, Held, Sum, Partner, Predicted;
    var i := Level(w, s);
    var u := Partner(v, i);
    OwnersMeet(w, v, s, Send, x);
    PartnerBack(v, i);
    PartnerBound(v, i, w.l);
    PartnersApart(w.dual, v, i);
    PredictedOwn(w, s, v, x);
    PredictedOwn(w, s, u, x);
    PredictedOwn(w, s + 1, u, x);
    if s < w.l {
      HeldJoins(w.dual, u, s, x);
    }
  }

  lemma RecvExplainedHere(w: Setup, cfg: Config, id: Id, i: nat)
    requires Ok(w) && IsTransfer(Prog(w, cfg), id) && Near(Prog(w, cfg), id) && i < Prog(w, cfg).acts[id].nelems
    ensures RecvExplained(Prog(w, cfg), Plan(w), id, i)
  {
    hide Prog, IsExchange, Predicted, Partner, Part, Real;
    Members(w, cfg, id);
    Members(w, cfg, Mate(id));
    MateIsPartners(w, id);
    Layout(w, cfg);
    SameLength(w, id);
    var v := RoleOf(w, id);
    var s := StepOf(w, id);
    IdIsXid(w, id);
    ExchangeExplained(w, v, s, ExchangeAction(w, id).offset + i);
  }

  lemma IdIsXid(w: Setup, id: Id)
    requires IsExchange(w, id)
    ensures var v := RoleOf(w, id);
            var s := StepOf(w, id);
            && v < Pow2(w.l) && s < 2 * w.l && !Skipped(w, v, s)
            && id.rank == Real(w.dual, v) && id.partner == Real(w.dual, Partner(v, Level(w, s)))
            && ExchangeAction(w, id).offset == Region(w, v, s, id.kind).off
            && ExchangeAction(w, id).nelems == Region(w, v, s, id.kind).len
  {
  }

  lemma PlanValid(w: Setup, cfg: Config)
    requires Ok(w)
    ensures Valid(Prog(w, cfg), Plan(w))
  {
    var p := Prog(w, cfg);
    var o := Plan(w);
    hide Prog, RecvExplained, Sound, Timed, Backed, RaceFree, Framed, IsExchange, Lands, Predicted;
    ProgSound(w, cfg);
    ProgTimed(w, cfg);
    ProgBacked(w, cfg);
    ProgRaceFree(w, cfg);
    ProgFramed(w, cfg);
    forall id, i: nat | IsTransfer(p, id) && i < p.acts[id].nelems
      ensures Near(p, id) && RecvExplained(p, o, id, i)
    {
      SoundNear(p, id);
      RecvExplainedHere(w, cfg, id, i);
    }
    forall id, x, t | id in p.acts && Lands(p, id, x) ensures o.val(t, id.rank, x) == None {
      Members(w, cfg, id);
      Footprint(w, cfg, id, x);
      NothingBeyond(w, t, id.rank, x);
    }
    forall id | id in p.acts ensures !id.kind.Shuffle? {
      Members(w, cfg, id);
      NoShuffle(w, id);
    }
  }

  lemma NothingBeyond(w: Setup, t: nat, r: nat, x: nat)
    requires x >= w.nelems
    ensures Predicted(w, t, r, x) == None
  {
  }

  lemma NoShuffle(w: Setup, id: Id)
    requires IsExchange(w, id)
    ensures !id.kind.Shuffle?
  {
  }

  // ---------------------------------------------------------------- the theorem

  /** Every rank's result buffer starts as its own input; the scratch buffer is arbitrary. */
  ghost predicate Inputs(w: Setup, mem: seq<seq<Val>>) {
    && |mem| == w.n
    && (forall r | 0 <= r < w.n :: |mem[r]| == 2 * w.nelems)
    && (forall r, x | 0 <= r < w.n && 0 <= x < w.nelems :: mem[r][x] == multiset{Token(r, x)})
  }

  lemma InputsBegin(w: Setup, cfg: Config, mem: seq<seq<Val>>)
    requires Ok(w) && Inputs(w, mem)
    ensures Begins(Prog(w, cfg), Plan(w), mem)
  {
    hide Prog;
    Layout(w, cfg);
    forall r: nat, x: nat | r < w.n && x < w.nelems ensures Predicted(w, 0, r, x) == Some(multiset{Token(r, x)}) {
      HeldAtFirst(w, r, x);
    }
  }

  lemma HeldAtFirst(w: Setup, r: nat, x: nat)
    requires Ok(w) && r < w.n && x < w.nelems
    ensures Predicted(w, 0, r, x) == Some(multiset{Token(r, x)})
  {
    hide Owner;
    var v := Owner(w, r, x);
    OwnerHalf(w, r, x);
    assert Part(w.nelems, v, 0) == Piece(0, w.nelems);
    assert First(v, 0) == v && Last(v, 0) == v;
    assert Sum(x, r, r) == multiset{};
    assert Sum(x, r, r + 1) == multiset{Token(r, x)};
  }

  lemma PredictedEnd(w: Setup, r: nat, x: nat)
    requires Ok(w) && r < w.n && x < w.nelems
    ensures Predicted(w, 2 * w.l, r, x) == Some(Sum(x, 0, w.n))
  {
    hide Owner, Sum, Held;
    assert Part(w.nelems, Owner(w, r, x), 0) == Piece(0, w.nelems);
  }

  /**
   * Allreduce, for any number of ranks and elements, any eager/get/put
   * configuration and any order of events: no abort, no buffer race, at most
   * six events per action, no deadlock; and a rank whose actions are done holds
   * in every element the combination of all ranks' inputs, each exactly once.
   */
  lemma AllreduceCorrect(w: Setup, cfg: Config, mem: seq<seq<Val>>, es: seq<Event>)
    requires Ok(w) && Inputs(w, mem) && Execution(Prog(w, cfg), mem, es)
    ensures Healthy(Prog(w, cfg), mem, es)
    ensures var t := Outcome(Prog(w, cfg), mem, es);
            forall r, x | 0 <= r < w.n && RankDone(Prog(w, cfg), t, r) && 0 <= x < w.nelems ::
              t.mem[r][x] == Sum(x, 0, w.n)
  {
    var p := Prog(w, cfg);
    hide Prog, Valid, Inputs, Execution, Outcome, Healthy, RankDone, Predicted, Sum;
    PlanValid(w, cfg);
    InputsBegin(w, cfg, mem);
    EveryRun(p, Plan(w), mem, es);
    Layout(w, cfg);
    forall r: nat, x: nat | r < w.n && RankDone(p, Outcome(p, mem, es), r) && x < w.nelems
      ensures Outcome(p, mem, es).mem[r][x] == Sum(x, 0, w.n)
    {
      StepsBelow(w, cfg);
      FinalMemory(p, Plan(w), mem, es, r, x, 2 * w.l);
      PredictedEnd(w, r, x);
    }
  }

  lemma StepsBelow(w: Setup, cfg: Config)
    requires Ok(w)
    ensures forall id | id in Prog(w, cfg).acts :: Plan(w).when(id) < 2 * w.l
  {
  }
}
