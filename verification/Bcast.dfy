/**
 * The binary tree broadcast from any root: the data goes down the binomial
 * tree on the ranks' offsets from the root.
 */
module Bcast {
  import opened Actions
  import opened Fabric
  import opened Outlines
  import opened Runs
  import opened Programs
  import opened Wilke
  import opened Ranks
  import opened Binomial

  datatype Setup = Setup(n: nat, root: nat, l: nat, nelems: nat)

  predicate Ok(w: Setup) {
    w.root < w.n <= Pow2(w.l)
  }

  /** A rank's offset from the root, and the rank at an offset. */
  function Off(w: Setup, r: nat): nat
    requires w.root < w.n
  {
    Down(w.n, r, w.root)
  }

  function RankAt(w: Setup, v: nat): nat
    requires w.root < w.n
  {
    Up(w.n, v, w.root)
  }

  /** As the source computes them. */
  lemma OffsetsAre(w: Setup, k: nat)
    requires w.root < w.n && k < w.n
    ensures Off(w, k) == (k + w.n - w.root) % w.n && RankAt(w, k) == (k + w.root) % w.n
  {
  }

  lemma OffsetsInverse(w: Setup, k: nat)
    requires w.root < w.n && k < w.n
    ensures Off(w, k) < w.n && RankAt(w, Off(w, k)) == k
    ensures RankAt(w, k) < w.n && Off(w, RankAt(w, k)) == k
    ensures Off(w, k) == 0 <==> k == w.root
  {
    hide Up, Down;
    Neighbours(w.n, k, w.root);
    Neighbours(w.n, Down(w.n, k, w.root), w.root);
    Neighbours(w.n, Up(w.n, k, w.root), w.root);
  }

  /** The data goes from rank `p` to rank `c`. */
  predicate IsEdge(w: Setup, p: nat, c: nat)
    requires w.root < w.n
  {
    p < w.n && c < w.n && Off(w, c) > 0 && Parent(Off(w, c)) == Off(w, p)
  }

  function Receiver(id: Id): nat {
    if id.kind.Send? then id.partner else id.rank
  }

  function Sender(id: Id): nat {
    if id.kind.Send? then id.rank else id.partner
  }

  predicate Has(w: Setup, id: Id)
    requires w.root < w.n
  {
    (id.kind.Send? || id.kind.Recv?) && id.round == 0 && IsEdge(w, Sender(id), Receiver(id))
  }

  function Act(w: Setup, id: Id): Action {
    Action(if id.kind.Send? then SendInPlace else RecvInPlace, 0, w.nelems, map[])
  }

  predicate Edge(a: Id, b: Id) {
    a.rank == b.rank && a.kind.Recv? && b.kind.Send?
  }

  ghost function Prog(w: Setup, cfg: Config): Program
    requires w.root < w.n
  {
    Build(w.n, 1, id => Has(w, id), id => Act(w, id), (a, b) => Edge(a, b), cfg, 0, 0, w.nelems)
  }

  // ---------------------------------------------------------------- a spanning tree

  /** The rank a rank receives from. */
  function Source(w: Setup, r: nat): (p: nat)
    requires w.root < w.n && r < w.n && r != w.root
    ensures p < w.n
  {
    OffsetsInverse(w, r);
    ParentHigher(Off(w, r));
    OffsetsInverse(w, Parent(Off(w, r)));
    RankAt(w, Parent(Off(w, r)))
  }

  /** Every rank but the root has exactly one incoming edge, from its source; the root has none. */
  lemma OneSource(w: Setup, r: nat, p: nat)
    requires Ok(w) && r < w.n
    ensures IsEdge(w, p, r) <==> r != w.root && p == Source(w, r)
  {
    hide Off, RankAt;
    OffsetsInverse(w, r);
    if r != w.root {
      ParentHigher(Off(w, r));
      OffsetsInverse(w, Parent(Off(w, r)));
    }
    if p < w.n {
      OffsetsInverse(w, p);
    }
  }

  function Uphill(w: Setup, r: nat, k: nat): nat
    requires w.root < w.n && r < w.n
    decreases k
  {
    if k == 0 || r == w.root then r else Uphill(w, Source(w, r), k - 1)
  }

  lemma {:induction false} UphillIsAncestor(w: Setup, r: nat, k: nat)
    requires Ok(w) && r < w.n
    ensures Uphill(w, r, k) < w.n && Off(w, Uphill(w, r, k)) == Ancestor(Off(w, r), k)
    decreases k
  {
    hide Off, RankAt;
    OffsetsInverse(w, r);
    if k > 0 && r != w.root {
      ParentHigher(Off(w, r));
      OffsetsInverse(w, Parent(Off(w, r)));
      UphillIsAncestor(w, Source(w, r), k - 1);
    }
  }

  /**
   * The edges form a spanning tree: every rank other than the root receives
   * exactly once, exactly one rank sends to it, and following the sources
   * leads to the root in at most log2 steps.
   */
  lemma SpanningTree(w: Setup, cfg: Config, r: nat)
    requires Ok(w) && r < w.n
    ensures forall id | id in Prog(w, cfg).acts && Receiver(id) == r ::
              r != w.root && Sender(id) == Source(w, r)
    ensures r != w.root ==>
              Id(r, Recv, 0, Source(w, r)) in Prog(w, cfg).acts && Id(Source(w, r), Send, 0, r) in Prog(w, cfg).acts
    ensures exists k: nat :: k <= w.l && Uphill(w, r, k) == w.root
  {
    hide Off, RankAt, Prog, Source;
    forall id | id in Prog(w, cfg).acts && Receiver(id) == r ensures r != w.root && Sender(id) == Source(w, r) {
      Members(w, cfg, id);
      OneSource(w, r, Sender(id));
    }
    OffsetsInverse(w, r);
    var k := Depth(Off(w, r));
    ReachesRoot(Off(w, r), w.l);
    UphillIsAncestor(w, r, k);
    OffsetsInverse(w, Uphill(w, r, k));
    assert k <= w.l && Uphill(w, r, k) == w.root;
    if r != w.root {
      OneSource(w, r, Source(w, r));
      Members(w, cfg, Id(r, Recv, 0, Source(w, r)));
      Members(w, cfg, Id(Source(w, r), Send, 0, r));
    }
  }

  /**
   * The tree in the source's terms: rank `c` other than the root receives from
   * the rank whose offset from the root is the parent of its own, and exactly
   * this rank sends to it.
   */
  lemma TreeIs(w: Setup, cfg: Config, p: nat, c: nat)
    requires Ok(w) && c < w.n
    ensures var offset := (c + w.n - w.root) % w.n;
            && (offset > 0 <==> c != w.root)
            && (Id(c, Recv, 0, p) in Prog(w, cfg).acts <==> offset > 0 && p == (Parent(offset) + w.root) % w.n)
            && (Id(p, Send, 0, c) in Prog(w, cfg).acts <==> offset > 0 && p == (Parent(offset) + w.root) % w.n)
  {
    hide Off, RankAt, Prog;
    Members(w, cfg, Id(c, Recv, 0, p));
    Members(w, cfg, Id(p, Send, 0, c));
    OneSource(w, c, p);
    OffsetsAre(w, c);
    OffsetsInverse(w, c);
    if c != w.root {
      ParentHigher(Off(w, c));
      OffsetsAre(w, Parent(Off(w, c)));
    }
  }

  /** The root sends to the ranks a power of two above it. */
  lemma RootSendsTo(w: Setup, cfg: Config, c: nat)
    requires Ok(w) && c < w.n
    ensures Id(w.root, Send, 0, c) in Prog(w, cfg).acts <==>
              exists k: nat :: Pow2(k) < w.n && c == (w.root + Pow2(k)) % w.n
  {
    hide Off, RankAt, Prog;
    Members(w, cfg, Id(w.root, Send, 0, c));
    OffsetsInverse(w, c);
    OffsetsInverse(w, w.root);
    if k: nat :| Pow2(k) < w.n && c == (w.root + Pow2(k)) % w.n {
      OffsetsAre(w, Pow2(k));
      OffsetsInverse(w, Pow2(k));
      ChildBit(0, k);
    }
    if Id(w.root, Send, 0, c) in Prog(w, cfg).acts {
      OffsetsAre(w, Off(w, c));
      assert Pow2(Low(Off(w, c))) == Off(w, c);
    }
  }

  // ---------------------------------------------------------------- the outline

  function Level(w: Setup, r: nat): nat
    requires w.root < w.n
  {
    if Off(w, r) == 0 || Low(Off(w, r)) >= w.l then 0 else w.l - 1 - Low(Off(w, r))
  }

  function Predicted(w: Setup, t: nat, r: nat, x: nat): Option<Val>
    requires w.root < w.n
  {
    if x < w.nelems && (Off(w, r) == 0 || t > Level(w, r)) then Some(multiset{Token(w.root, x)}) else None
  }

  ghost function Plan(w: Setup): Outline
    requires w.root < w.n
  {
    Outline(id => Level(w, Receiver(id)), (a, b) => Edge(a, b), (t: nat, r: nat, x: nat) => Predicted(w, t, r, x))
  }

  lemma Members(w: Setup, cfg: Config, id: Id)
    requires Ok(w)
    ensures id in Prog(w, cfg).acts <==> Has(w, id)
    ensures Has(w, id) ==> Prog(w, cfg).acts[id] == Act(w, id)
  {
    hide Off;
  }

  lemma Layout(w: Setup, cfg: Config)
    requires Ok(w)
    ensures var p := Prog(w, cfg);
            p.n == w.n && p.recvBase == 0 && p.sendBase == 0 && p.size == w.nelems && p.cfg == cfg
  {
  }

  lemma MateHas(w: Setup, id: Id)
    requires Ok(w) && Has(w, id)
    ensures Has(w, Mate(id)) && id.rank < w.n && id.partner < w.n && id.partner != id.rank
    ensures Sender(Mate(id)) == Sender(id) && Receiver(Mate(id)) == Receiver(id)
  {
    hide Off;
    ParentHigher(Off(w, Receiver(id)));
  }

  lemma ProgSound(w: Setup, cfg: Config)
    requires Ok(w)
    ensures Sound(Prog(w, cfg))
  {
    hide Has, Prog;
    var p := Prog(w, cfg);
    Layout(w, cfg);
    forall id | id in p.acts ensures SoundAction(p, id) {
      Members(w, cfg, id);
      MateHas(w, id);
      Members(w, cfg, Mate(id));
      KindOf(w, id);
    }
    forall a, b | (a, b) in p.edges ensures a in p.acts && b in p.acts && a.rank == b.rank {
      EdgesAre(w, cfg, a, b);
    }
  }

  lemma KindOf(w: Setup, id: Id)
    requires Ok(w) && Has(w, id)
    ensures id.kind.Send? || id.kind.Recv?
  {
  }

  lemma EdgesAre(w: Setup, cfg: Config, a: Id, b: Id)
    requires Ok(w)
    ensures (a, b) in Prog(w, cfg).edges <==> a in Prog(w, cfg).acts && b in Prog(w, cfg).acts && Edge(a, b)
  {
    hide Has;
  }

  /** A rank receives before it sends on. */
  lemma EdgeTimed(w: Setup, a: Id, b: Id)
    requires Ok(w) && Has(w, a) && Has(w, b) && Edge(a, b)
    ensures Level(w, Receiver(a)) < Level(w, Receiver(b))
  {
    hide Off;
    OffsetsInverse(w, Receiver(a));
    OffsetsInverse(w, Receiver(b));
    LowBelow(Off(w, Receiver(a)), w.l);
    LowBelow(Off(w, Receiver(b)), w.l);
    ParentHigher(Off(w, Receiver(b)));
  }

  lemma ProgOrdered(w: Setup, cfg: Config)
    requires Ok(w)
    ensures Timed(Prog(w, cfg), Plan(w)) && Backed(Prog(w, cfg), Plan(w))
  {
    hide Has, Prog, Level;
    var p := Prog(w, cfg);
    var o := Plan(w);
    forall a, b | (a, b) in p.edges ensures o.when(a) < o.when(b) {
      EdgesAre(w, cfg, a, b);
      Members(w, cfg, a);
      Members(w, cfg, b);
      EdgeTimed(w, a, b);
    }
    forall id | IsTransfer(p, id) ensures o.when(Mate(id)) == o.when(id) {
      Members(w, cfg, id);
      MateHas(w, id);
    }
    forall a, b | a in p.acts && b in p.acts && o.ord(a, b)
      ensures o.when(a) < o.when(b) && exists c :: LastStep(p, o, a, b, c)
    {
      Members(w, cfg, a);
      Members(w, cfg, b);
      EdgesAre(w, cfg, a, b);
      EdgeTimed(w, a, b);
      assert LastStep(p, o, a, b, a);
    }
  }

  lemma ProgRaceFree(w: Setup, cfg: Config)
    requires Ok(w)
    ensures RaceFree(Prog(w, cfg), Plan(w))
  {
    hide Prog, IsEdge, Source;
    var p := Prog(w, cfg);
    forall a, b, x | a in p.acts && b in p.acts && a != b && a.rank == b.rank && Clash(p, a, b, x)
      ensures Edge(a, b) || Edge(b, a)
    {
      Members(w, cfg, a);
      Members(w, cfg, b);
      MateHas(w, a);
      if a.kind.Recv? && b.kind.Recv? {
        OneSource(w, a.rank, a.partner);
        OneSource(w, b.rank, b.partner);
      }
    }
  }

  lemma ProgFramed(w: Setup, cfg: Config)
    requires Ok(w)
    ensures Framed(Prog(w, cfg), Plan(w))
  {
    hide Prog, Off, Level, Source, Idle;
    var p := Prog(w, cfg);
    var o := Plan(w);
    Layout(w, cfg);
    forall t: nat, r: nat, x: nat | r < p.n && x < p.size && Idle(p, o, t, r, x) && o.val(t + 1, r, x).Some?
      ensures o.val(t, r, x) == o.val(t + 1, r, x)
    {
      OffsetsInverse(w, r);
      if Off(w, r) > 0 && t == Level(w, r) {
        RecvUpdates(w, cfg, r, x);
      }
    }
  }

  lemma RecvUpdates(w: Setup, cfg: Config, r: nat, x: nat)
    requires Ok(w) && r < w.n && r != w.root && x < w.nelems
    ensures !Idle(Prog(w, cfg), Plan(w), Level(w, r), r, x)
  {
    hide Prog, IsEdge, Source, Level;
    OneSource(w, r, Source(w, r));
    var id := Id(r, Recv, 0, Source(w, r));
    Members(w, cfg, id);
    assert id in Prog(w, cfg).acts && Updates(Prog(w, cfg), id, x) && Plan(w).when(id) == Level(w, r);
  }

  lemma RecvExplainedHere(w: Setup, cfg: Config, id: Id, i: nat)
    requires Ok(w) && IsTransfer(Prog(w, cfg), id) && Near(Prog(w, cfg), id) && i < Prog(w, cfg).acts[id].nelems
    ensures RecvExplained(Prog(w, cfg), Plan(w), id, i)
  {
    hide Prog, Off, Near;
    Members(w, cfg, id);
    Members(w, cfg, Mate(id));
    MateHas(w, id);
    Layout(w, cfg);
    OffsetsInverse(w, id.partner);
    OffsetsInverse(w, id.rank);
    LowBelow(Off(w, id.partner), w.l);
    ParentHigher(Off(w, id.partner));
    if Off(w, id.rank) > 0 {
      LowBelow(Off(w, id.rank), w.l);
    }
  }

  lemma PlanValid(w: Setup, cfg: Config)
    requires Ok(w)
    ensures Valid(Prog(w, cfg), Plan(w))
  {
    hide Prog, RecvExplained, Sound, Timed, Backed, RaceFree, Framed, Predicted, Has;
    var p := Prog(w, cfg);
    var o := Plan(w);
    ProgSound(w, cfg);
    ProgOrdered(w, cfg);
    ProgRaceFree(w, cfg);
    ProgFramed(w, cfg);
    forall id, i: nat | IsTransfer(p, id) && i < p.acts[id].nelems
      ensures Near(p, id) && RecvExplained(p, o, id, i)
    {
      SoundNear(p, id);
      RecvExplainedHere(w, cfg, id, i);
    }
    forall id | id in p.acts ensures !id.kind.Shuffle? && !p.acts[id].mode.RecvReduce? {
      Members(w, cfg, id);
      KindOf(w, id);
    }
  }

  // ---------------------------------------------------------------- the theorem

  /** The root's buffer holds the data; the others' are arbitrary. */
  ghost predicate Inputs(w: Setup, mem: seq<seq<Val>>) {
    && |mem| == w.n
    && (forall r | 0 <= r < w.n :: |mem[r]| == w.nelems)
    && (forall x | w.root < w.n && 0 <= x < w.nelems :: mem[w.root][x] == multiset{Token(w.root, x)})
  }

  lemma InputsBegin(w: Setup, cfg: Config, mem: seq<seq<Val>>)
    requires Ok(w) && Inputs(w, mem)
    ensures Begins(Prog(w, cfg), Plan(w), mem)
  {
    hide Prog, Predicted;
    Layout(w, cfg);
    forall r: nat, x: nat | r < w.n && x < w.nelems && Predicted(w, 0, r, x).Some?
      ensures mem[r][x] == Predicted(w, 0, r, x).value
    {
      PredictedFirst(w, r, x);
    }
  }

  /**
   * Broadcast, for any number of ranks and root, any protocol configuration
   * and any order of events: the run is healthy, and a rank whose actions are
   * done holds the root's data.
   */
  lemma BcastCorrect(w: Setup, cfg: Config, mem: seq<seq<Val>>, es: seq<Event>)
    requires Ok(w) && Inputs(w, mem) && Execution(Prog(w, cfg), mem, es)
    ensures Healthy(Prog(w, cfg), mem, es)
    ensures var t := Outcome(Prog(w, cfg), mem, es);
            forall r | 0 <= r < w.n && r < |t.mem| && RankDone(Prog(w, cfg), t, r) :: t.mem[r] == mem[w.root]
  {
    hide Prog, Valid, Execution, Outcome, Healthy, RankDone, Predicted;
    var p := Prog(w, cfg);
    PlanValid(w, cfg);
    Layout(w, cfg);
    InputsBegin(w, cfg, mem);
    EveryRun(p, Plan(w), mem, es);
    var t := Outcome(p, mem, es);
    forall r: nat | r < w.n && RankDone(p, t, r) ensures t.mem[r] == mem[w.root] {
      forall x: nat | x < w.nelems ensures t.mem[r][x] == multiset{Token(w.root, x)} {
        LevelsBelow(w, cfg);
        PredictedLast(w, r, x);
        FinalMemory(p, Plan(w), mem, es, r, x, w.l + 1);
      }
    }
  }

  lemma PredictedFirst(w: Setup, r: nat, x: nat)
    requires Ok(w) && r < w.n && Predicted(w, 0, r, x).Some?
    ensures r == w.root && Predicted(w, 0, r, x).value == multiset{Token(w.root, x)}
  {
    OffsetsInverse(w, r);
  }

  lemma PredictedLast(w: Setup, r: nat, x: nat)
    requires Ok(w) && r < w.n && x < w.nelems
    ensures Predicted(w, w.l + 1, r, x) == Some(multiset{Token(w.root, x)})
  {
  }

  lemma LevelsBelow(w: Setup, cfg: Config)
    requires Ok(w)
    ensures forall id | id in Prog(w, cfg).acts :: Plan(w).when(id) < w.l + 1
  {
  }
}
