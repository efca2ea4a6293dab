/**
 * Collectives that run in lock step: at every step a rank either exchanges one
 * message each way or shuffles its own buffers, and waits for all of the step
 * before.  Bruck allgather(v) and alltoall and the ring allgather are such chains.
 */
module Chains {
  import opened Actions
  import opened Fabric
  import opened Outlines
  import opened Runs
  import opened Programs

  /**
   * `local(s)` says that step `s` is a shuffle; `to`, `from`, `send`, `recv`,
   * `shuffle` give what a rank does at a step; `stepOf` finds the step of an id;
   * `held(t, r, x)` predicts rank `r`'s element `x` before step `t`, as a name
   * for a value.
   */
  datatype Chain = Chain(
    n: nat, steps: nat, rounds: nat,
    round: nat -> nat, tag: nat -> nat, stepOf: Id -> nat, local: nat -> bool,
    to: (nat, nat) -> nat, from: (nat, nat) -> nat,
    send: (nat, nat) -> Action, recv: (nat, nat) -> Action, shuffle: (nat, nat) -> Action,
    held: (nat, nat, nat) -> Option<Token>,
    recvBase: nat, sendBase: nat, size: nat, value: Token -> Val)

  /** Inputs named by themselves. */
  function Datum(k: Token): Val {
    multiset{k}
  }

  function IdAt(c: Chain, r: nat, s: nat, kind: Kind): Id {
    Id(r, kind, c.round(s), match kind case Send => c.to(r, s) case Recv => c.from(r, s) case _ => c.tag(s))
  }

  predicate Suits(c: Chain, s: nat, kind: Kind) {
    if c.local(s) then kind.Shuffle? else kind.Send? || kind.Recv?
  }

  predicate Has(c: Chain, id: Id) {
    var s := c.stepOf(id);
    id.rank < c.n && s < c.steps && Suits(c, s, id.kind) && id == IdAt(c, id.rank, s, id.kind)
  }

  function ActAt(c: Chain, r: nat, s: nat, kind: Kind): Action {
    match kind case Send => c.send(r, s) case Recv => c.recv(r, s) case _ => c.shuffle(r, s)
  }

  function Act(c: Chain, id: Id): Action {
    ActAt(c, id.rank, c.stepOf(id), id.kind)
  }

  predicate Edge(c: Chain, a: Id, b: Id) {
    a.rank == b.rank && c.stepOf(b) == c.stepOf(a) + 1
  }

  ghost function Prog(c: Chain, cfg: Config): Program {
    Build(c.n, c.rounds, id => Has(c, id), id => Act(c, id), (a, b) => Edge(c, a, b),
          cfg, c.recvBase, c.sendBase, c.size)
  }

  function At(c: Chain, a: Action): nat {
    match a.mode case SendTemp => c.sendBase + a.offset case RecvPacked => c.recvBase + a.offset case _ => a.offset
  }

  // ---------------------------------------------------------------- what makes a chain right

  /** Rank `r`'s exchange at step `s` is matched by both partners and does not overlap itself. */
  ghost predicate Exchanges(c: Chain, r: nat, s: nat) {
    var to := c.to(r, s);
    var from := c.from(r, s);
    var out := c.send(r, s);
    var inn := c.recv(r, s);
    && to < c.n && to != r && c.from(to, s) == r
    && from < c.n && from != r && c.to(from, s) == r
    && out.nelems == c.recv(to, s).nelems
    && inn.nelems == c.send(from, s).nelems
    && (out.mode.SendInPlace? || out.mode.SendTemp?)
    && (inn.mode.RecvInPlace? || (inn.mode.RecvPacked? && inn.offset == 0))
    && At(c, out) + out.nelems <= c.size && At(c, inn) + inn.nelems <= c.size
    && (forall x: int :: !(Span(x, At(c, out), out.nelems) && Span(x, At(c, inn), inn.nelems)))
  }

  predicate Shuffles(c: Chain, r: nat, s: nat) {
    c.tag(s) < c.n && forall x | x in c.shuffle(r, s).copies :: x < c.size && c.shuffle(r, s).copies[x] < c.size
  }

  ghost predicate Placed(c: Chain, r: nat, s: nat) {
    && c.round(s) < c.rounds
    && (if c.local(s) then Shuffles(c, r, s) && c.stepOf(IdAt(c, r, s, Shuffle)) == s
        else Exchanges(c, r, s) && c.stepOf(IdAt(c, r, s, Send)) == s && c.stepOf(IdAt(c, r, s, Recv)) == s)
  }

  /** Where rank `r`'s element `x` after step `s` comes from: a rank and an address before the step. */
  function Origin(c: Chain, r: nat, s: nat, x: nat): (nat, int) {
    var inn := c.recv(r, s);
    var from := c.from(r, s);
    if c.local(s) then (r, if x in c.shuffle(r, s).copies then c.shuffle(r, s).copies[x] else x)
    else if Span(x, At(c, inn), inn.nelems) then (from, At(c, c.send(from, s)) + x - At(c, inn))
    else (r, x)
  }

  /** The prediction after the step is the prediction before it at the origin. */
  predicate Follows(c: Chain, r: nat, s: nat, x: nat) {
    c.held(s + 1, r, x).Some? ==>
      Origin(c, r, s, x).1 >= 0 && c.held(s, Origin(c, r, s, x).0, Origin(c, r, s, x).1) == c.held(s + 1, r, x)
  }

  ghost predicate Good(c: Chain) {
    && (forall r, s | 0 <= r < c.n && 0 <= s < c.steps :: Placed(c, r, s))
    && (forall r, s, x | 0 <= r < c.n && 0 <= s < c.steps && 0 <= x < c.size :: Follows(c, r, s, x))
  }

  /** What the predicted values are called does not matter. */
  lemma GoodUnderAnyNames(c: Chain, value: Token -> Val)
    requires Good(c)
    ensures Good(c.(value := value))
  {
    var d := c.(value := value);
    forall r, s | 0 <= r < d.n && 0 <= s < d.steps ensures Placed(d, r, s) {
      assert Placed(c, r, s);
    }
    forall r, s, x | 0 <= r < d.n && 0 <= s < d.steps && 0 <= x < d.size ensures Follows(d, r, s, x) {
      assert Follows(c, r, s, x);
    }
  }

  lemma SameProgram(c: Chain, value: Token -> Val, cfg: Config)
    ensures Prog(c.(value := value), cfg) == Prog(c, cfg)
  {
    hide Has, Act, Edge;
    var p, q := Prog(c, cfg), Prog(c.(value := value), cfg);
    forall id
      ensures id in p.acts <==> id in q.acts
      ensures id in p.acts ==> p.acts[id] == q.acts[id]
    {
      SameAction(c, value, id);
    }
    assert p.acts == q.acts;
    forall a, b ensures (a, b) in p.edges <==> (a, b) in q.edges {
      SameEdge(c, value, a, b);
    }
    assert p.edges == q.edges;
  }

  lemma SameAction(c: Chain, value: Token -> Val, id: Id)
    ensures Has(c.(value := value), id) <==> Has(c, id)
    ensures Act(c.(value := value), id) == Act(c, id)
  {
  }

  lemma SameEdge(c: Chain, value: Token -> Val, a: Id, b: Id)
    ensures Edge(c.(value := value), a, b) <==> Edge(c, a, b)
  {
  }

  // ---------------------------------------------------------------- its outline

  function Predicted(c: Chain, t: nat, r: nat, x: nat): Option<Val> {
    if t <= c.steps && r < c.n && c.held(t, r, x).Some? then Some(c.value(c.held(t, r, x).value)) else None
  }

  predicate Ordered(c: Chain, a: Id, b: Id) {
    a.rank == b.rank && c.stepOf(a) < c.stepOf(b)
  }

  ghost function Plan(c: Chain): Outline {
    Outline(id => c.stepOf(id), (a, b) => Ordered(c, a, b), (t: nat, r: nat, x: nat) => Predicted(c, t, r, x))
  }

  // ---------------------------------------------------------------- ids

  lemma GoodPlaced(c: Chain, r: nat, s: nat)
    requires Good(c) && r < c.n && s < c.steps
    ensures Placed(c, r, s)
  {
  }

  lemma GoodFollows(c: Chain, r: nat, s: nat, x: nat)
    requires Good(c) && r < c.n && s < c.steps && x < c.size
    ensures Follows(c, r, s, x)
  {
  }

  lemma HasAt(c: Chain, r: nat, s: nat, kind: Kind)
    requires Good(c) && r < c.n && s < c.steps && Suits(c, s, kind)
    ensures var id := IdAt(c, r, s, kind);
            Has(c, id) && c.stepOf(id) == s && id.rank == r && id.partner < c.n && id.round < c.rounds
  {
    GoodPlaced(c, r, s);
  }

  lemma Members(c: Chain, cfg: Config, id: Id)
    requires Good(c)
    ensures id in Prog(c, cfg).acts <==> Has(c, id)
    ensures Has(c, id) ==> Prog(c, cfg).acts[id] == Act(c, id)
    ensures Has(c, id) ==> id.rank < c.n && c.stepOf(id) < c.steps && Suits(c, c.stepOf(id), id.kind)
    ensures Has(c, id) ==> id == IdAt(c, id.rank, c.stepOf(id), id.kind)
  {
    hide Act, Edge, Good;
    if Has(c, id) {
      HasAt(c, id.rank, c.stepOf(id), id.kind);
    }
  }

  lemma Layout(c: Chain, cfg: Config)
    ensures var p := Prog(c, cfg);
            p.n == c.n && p.recvBase == c.recvBase && p.sendBase == c.sendBase && p.size == c.size && p.cfg == cfg
  {
  }

  /** The message a rank sends at a step is the one its receiver expects at that step. */
  lemma MateHas(c: Chain, id: Id)
    requires Good(c) && Has(c, id) && !id.kind.Shuffle?
    ensures Has(c, Mate(id)) && c.stepOf(Mate(id)) == c.stepOf(id) && id.partner < c.n && id.partner != id.rank
    ensures id.kind.Send? || id.kind.Recv?
    ensures Act(c, Mate(id)).nelems == Act(c, id).nelems
    ensures id.kind.Send? ==> c.from(id.partner, c.stepOf(id)) == id.rank
  {
    var s := c.stepOf(id);
    GoodPlaced(c, id.rank, s);
    GoodPlaced(c, id.partner, s);
    assert Mate(id) == IdAt(c, id.partner, s, if id.kind.Send? then Recv else Send);
  }

  lemma ActionSound(c: Chain, cfg: Config, id: Id)
    requires Good(c) && id in Prog(c, cfg).acts
    ensures SoundAction(Prog(c, cfg), id)
  {
    hide Prog, Good, Has;
    Members(c, cfg, id);
    Members(c, cfg, Mate(id));
    Layout(c, cfg);
    GoodPlaced(c, id.rank, c.stepOf(id));
    if !id.kind.Shuffle? {
      MateHas(c, id);
    }
  }

  lemma ProgSound(c: Chain, cfg: Config)
    requires Good(c)
    ensures Sound(Prog(c, cfg))
  {
    hide Has, SoundAction, Good;
    forall id | id in Prog(c, cfg).acts ensures SoundAction(Prog(c, cfg), id) {
      ActionSound(c, cfg, id);
    }
  }

  lemma ProgTimed(c: Chain, cfg: Config)
    requires Good(c)
    ensures Timed(Prog(c, cfg), Plan(c))
  {
    hide Has, Good;
    forall id | IsTransfer(Prog(c, cfg), id) ensures c.stepOf(Mate(id)) == c.stepOf(id) {
      Members(c, cfg, id);
      MateHas(c, id);
    }
  }

  // ---------------------------------------------------------------- order and races

  function AnyKind(c: Chain, s: nat): Kind {
    if c.local(s) then Shuffle else Send
  }

  lemma ProgBacked(c: Chain, cfg: Config)
    requires Good(c)
    ensures Backed(Prog(c, cfg), Plan(c))
  {
    hide Has, Good;
    var p := Prog(c, cfg);
    var o := Plan(c);
    forall a, b | a in p.acts && b in p.acts && o.ord(a, b)
      ensures o.when(a) < o.when(b) && exists m :: LastStep(p, o, a, b, m)
    {
      Members(c, cfg, b);
      var s := c.stepOf(b) - 1;
      var m := if c.stepOf(a) == s then a else IdAt(c, a.rank, s, AnyKind(c, s));
      if c.stepOf(a) < s {
        HasAt(c, a.rank, s, AnyKind(c, s));
        Members(c, cfg, m);
      }
      assert LastStep(p, o, a, b, m);
    }
  }

  /** The elements an action touches. */
  lemma Footprint(c: Chain, cfg: Config, id: Id, x: nat)
    requires Good(c) && id in Prog(c, cfg).acts
    ensures var p := Prog(c, cfg);
            var a := ActAt(c, id.rank, c.stepOf(id), id.kind);
            && !Lands(p, id, x)
            && (Updates(p, id, x) <==>
                  (id.kind.Recv? && Span(x, At(c, a), a.nelems)) || (id.kind.Shuffle? && x in a.copies))
            && (Reads(p, id, x) <==> (id.kind.Send? && Span(x, At(c, a), a.nelems))
                                     || (id.kind.Shuffle? && x in a.copies.Values))
  {
    hide Prog, Good, Has;
    Members(c, cfg, id);
    Layout(c, cfg);
    GoodPlaced(c, id.rank, c.stepOf(id));
  }

  lemma ClashOrdered(c: Chain, cfg: Config, a: Id, b: Id, x: nat)
    requires Good(c) && a in Prog(c, cfg).acts && b in Prog(c, cfg).acts && a != b && a.rank == b.rank
    requires Clash(Prog(c, cfg), a, b, x)
    ensures c.stepOf(a) != c.stepOf(b)
  {
    hide Prog, Good, Has, Updates, Reads, Lands;
    Footprint(c, cfg, a, x);
    Footprint(c, cfg, b, x);
    Members(c, cfg, a);
    Members(c, cfg, b);
    GoodPlaced(c, a.rank, c.stepOf(a));
  }

  lemma ProgRaceFree(c: Chain, cfg: Config)
    requires Good(c)
    ensures RaceFree(Prog(c, cfg), Plan(c))
  {
    hide Prog, Good, Clash;
    var p := Prog(c, cfg);
    forall a, b, x | a in p.acts && b in p.acts && a != b && a.rank == b.rank && Clash(p, a, b, x)
      ensures Plan(c).ord(a, b) || Plan(c).ord(b, a)
    {
      ClashOrdered(c, cfg, a, b, x);
    }
  }

  // ---------------------------------------------------------------- what is computed

  /** An element no action updates at a step is its own origin. */
  lemma IdleOrigin(c: Chain, cfg: Config, t: nat, r: nat, x: nat)
    requires Good(c) && r < c.n && x < c.size && t < c.steps && Idle(Prog(c, cfg), Plan(c), t, r, x)
    ensures Origin(c, r, t, x) == (r, x)
  {
    hide Prog, Good, Has, Updates, Reads, Lands;
    var kind := if c.local(t) then Shuffle else Recv;
    var id := IdAt(c, r, t, kind);
    HasAt(c, r, t, kind);
    Members(c, cfg, id);
    Footprint(c, cfg, id, x);
    assert Plan(c).when(id) == t;
  }

  lemma ProgFramed(c: Chain, cfg: Config)
    requires Good(c)
    ensures Framed(Prog(c, cfg), Plan(c))
  {
    hide Prog, Good, Idle, Origin;
    var p := Prog(c, cfg);
    var o := Plan(c);
    Layout(c, cfg);
    forall t: nat, r: nat, x: nat | r < p.n && x < p.size && Idle(p, o, t, r, x) && o.val(t + 1, r, x).Some?
      ensures o.val(t, r, x) == o.val(t + 1, r, x)
    {
      IdleOrigin(c, cfg, t, r, x);
      GoodFollows(c, r, t, x);
    }
  }

  lemma RecvExplainedHere(c: Chain, cfg: Config, id: Id, i: nat)
    requires Good(c) && IsTransfer(Prog(c, cfg), id) && Near(Prog(c, cfg), id) && i < Prog(c, cfg).acts[id].nelems
    ensures RecvExplained(Prog(c, cfg), Plan(c), id, i)
  {
    hide Prog, Good, Has, Near;
    var s := c.stepOf(id);
    Members(c, cfg, id);
    Members(c, cfg, Mate(id));
    MateHas(c, id);
    Layout(c, cfg);
    GoodPlaced(c, id.partner, s);
    GoodFollows(c, id.partner, s, At(c, c.recv(id.partner, s)) + i);
  }

  lemma ShuffleExplainedHere(c: Chain, cfg: Config, id: Id, x: nat)
    requires Good(c) && id in Prog(c, cfg).acts && id.kind.Shuffle? && x in Prog(c, cfg).acts[id].copies
    ensures var o := Plan(c);
            o.val(o.when(id) + 1, id.rank, x).Some? ==>
              o.val(o.when(id), id.rank, Prog(c, cfg).acts[id].copies[x]) == o.val(o.when(id) + 1, id.rank, x)
  {
    hide Prog, Good, Has;
    var s := c.stepOf(id);
    Members(c, cfg, id);
    GoodPlaced(c, id.rank, s);
    GoodFollows(c, id.rank, s, x);
  }

  lemma PlanValid(c: Chain, cfg: Config)
    requires Good(c)
    ensures Valid(Prog(c, cfg), Plan(c))
  {
    hide Prog, Good, RecvExplained, Sound, Timed, Backed, RaceFree, Framed, Predicted, Lands, Updates, Reads;
    var p := Prog(c, cfg);
    var o := Plan(c);
    ProgSound(c, cfg);
    ProgTimed(c, cfg);
    ProgBacked(c, cfg);
    ProgRaceFree(c, cfg);
    ProgFramed(c, cfg);
    forall id, i: nat | IsTransfer(p, id) && i < p.acts[id].nelems
      ensures Near(p, id) && RecvExplained(p, o, id, i)
    {
      SoundNear(p, id);
      RecvExplainedHere(c, cfg, id, i);
    }
    forall id, x | id in p.acts && id.kind.Shuffle? && x in p.acts[id].copies && o.val(o.when(id) + 1, id.rank, x).Some?
      ensures o.val(o.when(id), id.rank, p.acts[id].copies[x]) == o.val(o.when(id) + 1, id.rank, x)
    {
      ShuffleExplainedHere(c, cfg, id, x);
    }
    forall id, x: nat | id in p.acts ensures !Lands(p, id, x) {
      Footprint(c, cfg, id, x);
    }
  }

  // ---------------------------------------------------------------- the theorem

  /** The memory starts as predicted. */
  ghost predicate Starts(c: Chain, mem: seq<seq<Val>>) {
    && |mem| == c.n
    && (forall r | 0 <= r < c.n :: |mem[r]| == c.size)
    && (forall r, x | 0 <= r < c.n && 0 <= x < c.size && c.held(0, r, x).Some? ::
          mem[r][x] == c.value(c.held(0, r, x).value))
  }

  /** Rank `r` holds what is predicted after the last step. */
  ghost predicate Ends(c: Chain, m: seq<Val>, r: nat)
    requires |m| == c.size
  {
    forall x: nat | x < c.size && c.held(c.steps, r, x).Some? :: m[x] == c.value(c.held(c.steps, r, x).value)
  }

  /**
   * Every run of a good chain, in any order of events and under any protocol:
   * no abort, no race, bounded, no deadlock, and a rank whose actions are done
   * holds what the chain predicts.
   */
  lemma ChainRuns(c: Chain, cfg: Config, mem: seq<seq<Val>>, es: seq<Event>)
    requires Good(c) && Starts(c, mem) && Execution(Prog(c, cfg), mem, es)
    ensures Healthy(Prog(c, cfg), mem, es)
    ensures Prog(c, cfg).n == c.n && Prog(c, cfg).size == c.size
    ensures var t := Outcome(Prog(c, cfg), mem, es);
            forall r: nat | r < c.n && RankDone(Prog(c, cfg), t, r) :: Ends(c, t.mem[r], r)
  {
    hide Prog, Good, Valid, Execution, Outcome, Healthy, RankDone;
    var p := Prog(c, cfg);
    PlanValid(c, cfg);
    Layout(c, cfg);
    EveryRun(p, Plan(c), mem, es);
    forall r: nat | r < c.n && RankDone(p, Outcome(p, mem, es), r)
      ensures Ends(c, Outcome(p, mem, es).mem[r], r)
    {
      forall x: nat | x < c.size && c.held(c.steps, r, x).Some?
        ensures Outcome(p, mem, es).mem[r][x] == c.value(c.held(c.steps, r, x).value)
      {
        StepsBelow(c, cfg);
        FinalMemory(p, Plan(c), mem, es, r, x, c.steps);
      }
    }
  }

  lemma StepsBelow(c: Chain, cfg: Config)
    requires Good(c)
    ensures forall id | id in Prog(c, cfg).acts :: Plan(c).when(id) < c.steps
  {
    hide Prog, Good;
    forall id | id in Prog(c, cfg).acts ensures c.stepOf(id) < c.steps {
      Members(c, cfg, id);
    }
  }
}
