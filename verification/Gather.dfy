/**
 * The binary tree gather to any root: blocks go up the binomial tree to rank 0,
 * or for another root to ranks 0 and midpoint, which pass their halves on.
 */
module Gather {
  import opened Actions
  import opened Fabric
  import opened Outlines
  import opened Runs
  import opened Programs
  import opened Wilke
  import opened Ranks
  import opened Binomial

  datatype Setup = Setup(n: nat, root: nat, l: nat, nelems: nat)

  predicate Ok(w: Setup) {
    w.n >= 2 && w.root < w.n <= Pow2(w.l) && w.l >= 1 && Pow2(w.l - 1) < w.n
  }

  function Mid(w: Setup): nat
    requires w.l >= 1
  {
    Pow2(w.l - 1)
  }

  /** Rounds of the tree; for a root other than 0 the last is replaced by the hop. */
  function Rounds(w: Setup): nat
    requires w.l >= 1
  {
    if w.root == 0 then w.l else w.l - 1
  }

  // ---------------------------------------------------------------- actions

  /** Rank `c` passes its blocks to rank `p` in the tree. */
  predicate IsUp(w: Setup, c: nat, p: nat)
    requires w.l >= 1
  {
    0 < c < w.n && Low(c) < Rounds(w) && p == Parent(c)
  }

  /** Rank `s` passes its half to the root. */
  predicate IsHop(w: Setup, s: nat)
    requires w.l >= 1
  {
    w.root != 0 && s != w.root && (s == 0 || s == Mid(w))
  }

  function Sender(id: Id): nat {
    if id.kind.Send? then id.rank else id.partner
  }

  function Receiver(id: Id): nat {
    if id.kind.Send? then id.partner else id.rank
  }

  predicate IsTree(w: Setup, id: Id)
    requires w.l >= 1
  {
    (id.kind.Send? || id.kind.Recv?) && IsUp(w, Sender(id), Receiver(id)) && id.round == Low(Sender(id))
  }

  predicate IsLast(w: Setup, id: Id)
    requires w.l >= 1
  {
    (id.kind.Send? || id.kind.Recv?) && IsHop(w, Sender(id)) && Receiver(id) == w.root && id.round == w.l
  }

  /** A root that is the midpoint moves its half to its final place first. */
  predicate IsShuffle(w: Setup, id: Id)
    requires w.l >= 1
  {
    id.kind.Shuffle? && w.root == Mid(w) && id == Id(w.root, Shuffle, w.l, w.root)
  }

  predicate Has(w: Setup, id: Id)
    requires w.l >= 1
  {
    IsTree(w, id) || IsLast(w, id) || IsShuffle(w, id)
  }

  /** Blocks below rank `c` in the tree. */
  function Chunk(w: Setup, c: nat): nat
    requires 0 < c < w.n
  {
    if c + Pow2(Low(c)) <= w.n then Pow2(Low(c)) else w.n - c
  }

  /** Blocks rank `s` passes to the root in the hop. */
  function Half(w: Setup, s: nat): nat
    requires w.l >= 1
  {
    if s == 0 then Mid(w) else if Mid(w) <= w.n then w.n - Mid(w) else 0
  }

  predicate IsUpper(w: Setup, x: nat)
    requires w.l >= 1
  {
    Mid(w) * w.nelems <= x
  }

  /** The shuffle's effect. */
  function ToUpper(w: Setup): map<nat, nat>
    requires w.l >= 1
  {
    map x: nat | 0 <= x < w.n * w.nelems && IsUpper(w, x) :: x - Mid(w) * w.nelems
  }

  function TreeAction(w: Setup, c: nat, kind: Kind): Action
    requires 0 < c < w.n
  {
    if kind.Send? then Action(SendInPlace, 0, Chunk(w, c) * w.nelems, map[])
    else Action(RecvInPlace, Pow2(Low(c)) * w.nelems, Chunk(w, c) * w.nelems, map[])
  }

  function HopAction(w: Setup, s: nat, kind: Kind): Action
    requires w.l >= 1
  {
    if kind.Send? then Action(SendInPlace, 0, Half(w, s) * w.nelems, map[])
    else Action(RecvInPlace, s * w.nelems, Half(w, s) * w.nelems, map[])
  }

  function ShuffleAction(w: Setup): Action
    requires w.l >= 1
  {
    Action(Local, Mid(w) * w.nelems, Half(w, Mid(w)) * w.nelems, ToUpper(w))
  }

  function Act(w: Setup, id: Id): Action
    requires w.l >= 1
  {
    if IsTree(w, id) then TreeAction(w, Sender(id), id.kind)
    else if IsLast(w, id) then HopAction(w, Sender(id), id.kind)
    else ShuffleAction(w)
  }

  function When(w: Setup, id: Id): nat
    requires w.l >= 1
  {
    if IsTree(w, id) then id.round else if id.kind.Shuffle? then w.l else w.l + 1
  }

  ghost predicate Between(w: Setup, a: Id, b: Id, c: Id)
    requires w.l >= 1
  {
    Has(w, c) && c.rank == a.rank && When(w, a) < When(w, c) < When(w, b)
  }

  /** Each action waits for the one before it. */
  ghost predicate Edge(w: Setup, a: Id, b: Id)
    requires w.l >= 1
  {
    a.rank == b.rank && When(w, a) < When(w, b) && forall c :: !Between(w, a, b, c)
  }

  ghost function Prog(w: Setup, cfg: Config): Program
    requires w.l >= 1
  {
    Build(w.n, w.l + 1, id => Has(w, id), id => Act(w, id), (a, b) => Edge(w, a, b), cfg, 0, 0, w.n * w.nelems)
  }

  // ---------------------------------------------------------------- the outline

  /** Blocks rank `r` has room for after `i` rounds: its subtree so far. */
  function Reach(r: nat, i: nat): nat {
    if r == 0 || i <= Low(r) then Pow2(i) else Pow2(Low(r))
  }

  function InTree(w: Setup, i: nat, r: nat, x: nat): Option<Token> {
    var j := ChunkOf(w.nelems, x);
    if w.nelems > 0 && j < Reach(r, i) && r + j < w.n then Some(Token(r + j, x % w.nelems)) else None
  }

  /** Every block in its place. */
  function InPlace(w: Setup, x: nat): Option<Token> {
    var j := ChunkOf(w.nelems, x);
    if w.nelems > 0 && j < w.n then Some(Token(j, x % w.nelems)) else None
  }

  function Held(w: Setup, t: nat, r: nat, x: nat): Option<Token>
    requires w.l >= 1
  {
    var i := if t < Rounds(w) then t else Rounds(w);
    if t <= w.l then InTree(w, i, r, x)
    else if r != w.root then (if t == w.l + 1 then InTree(w, i, r, x) else None)
    else if t == w.l + 1 && w.root != 0 then
      (if w.root == Mid(w) && ChunkOf(w.nelems, x) >= Mid(w) then InPlace(w, x) else None)
    else if t <= w.l + 2 then InPlace(w, x)
    else None
  }

  predicate Ordered(w: Setup, a: Id, b: Id)
    requires w.l >= 1
  {
    a.rank == b.rank && When(w, a) < When(w, b)
  }

  ghost function Plan(w: Setup): Outline
    requires w.l >= 1
  {
    Outline(id => When(w, id), (a, b) => Ordered(w, a, b), (t: nat, r: nat, x: nat) => AsVal(Held(w, t, r, x)))
  }

  // ---------------------------------------------------------------- ids

  lemma MidFits(w: Setup)
    requires Ok(w)
    ensures 1 <= Mid(w) < w.n && w.n <= 2 * Mid(w) && Low(Mid(w)) == w.l - 1
  {
    ChildBit(0, w.l - 1);
  }

  lemma UpFits(w: Setup, c: nat, p: nat)
    requires Ok(w) && IsUp(w, c, p)
    ensures p < c && c == p + Pow2(Low(c)) && Low(c) < w.l
    ensures 0 < Chunk(w, c) <= Pow2(Low(c)) && c + Chunk(w, c) <= w.n
    ensures p > 0 ==> Low(p) > Low(c)
  {
    ParentHigher(c);
  }

  /** The three kinds of action do not overlap. */
  lemma KindsApart(w: Setup, id: Id)
    requires Ok(w) && Has(w, id)
    ensures IsTree(w, id) ==> !IsLast(w, id) && !IsShuffle(w, id) && When(w, id) < Rounds(w) <= w.l
    ensures IsLast(w, id) ==> !IsTree(w, id) && !IsShuffle(w, id) && When(w, id) == w.l + 1
    ensures IsShuffle(w, id) ==> !IsTree(w, id) && !IsLast(w, id) && When(w, id) == w.l
    ensures id.rank < w.n && id.partner < w.n && id.round <= w.l
    ensures !id.kind.Shuffle? ==> id.rank != id.partner && (id.kind.Send? || id.kind.Recv?)
  {
    MidFits(w);
    if IsTree(w, id) {
      UpFits(w, Sender(id), Receiver(id));
    }
  }

  lemma Members(w: Setup, cfg: Config, id: Id)
    requires Ok(w)
    ensures id in Prog(w, cfg).acts <==> Has(w, id)
    ensures Has(w, id) ==> Prog(w, cfg).acts[id] == Act(w, id)
  {
    hide Act, Has, Edge;
    if Has(w, id) {
      KindsApart(w, id);
    }
  }

  lemma EdgesAre(w: Setup, cfg: Config, a: Id, b: Id)
    requires Ok(w)
    ensures (a, b) in Prog(w, cfg).edges <==> Has(w, a) && Has(w, b) && Edge(w, a, b)
  {
    hide Act, Has, Edge;
    Members(w, cfg, a);
    Members(w, cfg, b);
  }

  lemma Layout(w: Setup, cfg: Config)
    requires Ok(w)
    ensures var p := Prog(w, cfg);
            p.n == w.n && p.recvBase == 0 && p.sendBase == 0 && p.size == w.n * w.nelems && p.cfg == cfg
  {
  }

  lemma MateHas(w: Setup, id: Id)
    requires Ok(w) && Has(w, id) && !id.kind.Shuffle?
    ensures Has(w, Mate(id)) && When(w, Mate(id)) == When(w, id)
    ensures Sender(Mate(id)) == Sender(id) && Receiver(Mate(id)) == Receiver(id)
    ensures IsTree(w, Mate(id)) == IsTree(w, id) && IsLast(w, Mate(id)) == IsLast(w, id)
    ensures Act(w, Mate(id)).nelems == Act(w, id).nelems
    ensures Mate(id).kind.Recv? == id.kind.Send?
  {
    hide IsUp, IsHop, Low, Mid, Half, Chunk;
    KindsApart(w, id);
  }

  /** The action touches the first `n` blocks only, and off the root the first `Mid`. */
  predicate Fits(w: Setup, a: Action, atRoot: bool)
    requires w.l >= 1
  {
    && a.offset + a.nelems <= w.n * w.nelems
    && (atRoot || a.offset + a.nelems <= Mid(w) * w.nelems)
  }

  lemma TreeFits(w: Setup, c: nat, p: nat)
    requires Ok(w) && IsUp(w, c, p)
    ensures Fits(w, TreeAction(w, c, Send), false) && Fits(w, TreeAction(w, c, Recv), p == w.root)
  {
    hide IsUp, Low, Chunk, Mid;
    UpRooms(w, c, p);
    MidFits(w);
    var g := Pow2(Low(c));
    RegionFits(0, Chunk(w, c), w.n, w.nelems);
    RegionFits(0, Chunk(w, c), Mid(w), w.nelems);
    RegionFits(g, Chunk(w, c), w.n, w.nelems);
    if p != w.root {
      RegionFits(g, Chunk(w, c), Mid(w), w.nelems);
    }
  }

  lemma HopFits(w: Setup, s: nat)
    requires Ok(w) && IsHop(w, s)
    ensures Fits(w, HopAction(w, s, Send), false) && Fits(w, HopAction(w, s, Recv), true)
  {
    hide IsHop, Half, Mid;
    HopRooms(w, s);
    RegionFits(0, Half(w, s), w.n, w.nelems);
    RegionFits(0, Half(w, s), Mid(w), w.nelems);
    RegionFits(s, Half(w, s), w.n, w.nelems);
  }

  /** Transfers stay inside the result buffer; away from the root even inside its lower `Mid` blocks. */
  lemma ActionFits(w: Setup, id: Id)
    requires Ok(w) && Has(w, id) && !id.kind.Shuffle?
    ensures Act(w, id).mode == (if id.kind.Send? then SendInPlace else RecvInPlace)
    ensures Fits(w, Act(w, id), id.rank == w.root)
  {
    hide IsUp, IsHop, Low, Chunk, Mid, Half, Fits;
    KindsApart(w, id);
    if IsTree(w, id) {
      TreeFits(w, Sender(id), Receiver(id));
    } else {
      HopFits(w, Sender(id));
    }
    FitsMore(w, Act(w, id));
  }

  lemma FitsMore(w: Setup, a: Action)
    requires w.l >= 1
    ensures Fits(w, a, false) ==> Fits(w, a, true)
  {
  }

  lemma HopRooms(w: Setup, s: nat)
    requires Ok(w) && IsHop(w, s)
    ensures s + Half(w, s) <= w.n && Half(w, s) <= Mid(w)
  {
    MidFits(w);
  }

  lemma UpRooms(w: Setup, c: nat, p: nat)
    requires Ok(w) && IsUp(w, c, p)
    ensures 0 < c < w.n && Pow2(Low(c)) + Chunk(w, c) <= w.n && Chunk(w, c) <= Mid(w)
    ensures p != w.root ==> Pow2(Low(c)) + Chunk(w, c) <= Mid(w)
  {
    hide Low, IsUp;
    UpFits(w, c, p);
    UpRounds(w, c, p);
    Pow2Mono(Low(c), w.l - 1);
    if p != w.root {
      if p > 0 {
        LowBelow(p, w.l);
      }
      assert Low(c) + 1 <= w.l - 1;
      Pow2Mono(Low(c) + 1, w.l - 1);
      assert Pow2(Low(c) + 1) == 2 * Pow2(Low(c));
    }
  }

  lemma UpRounds(w: Setup, c: nat, p: nat)
    requires Ok(w) && IsUp(w, c, p)
    ensures 0 < c < w.n && Low(c) < Rounds(w)
  {
  }

  lemma ProgSound(w: Setup, cfg: Config)
    requires Ok(w)
    ensures Sound(Prog(w, cfg))
  {
    hide Has, Prog, Edge, SoundAction;
    var p := Prog(w, cfg);
    forall id | id in p.acts ensures SoundAction(p, id) {
      Members(w, cfg, id);
      if id.kind.Shuffle? {
        ShuffleSound(w, cfg, id);
      } else {
        TransferSound(w, cfg, id);
      }
    }
    forall a, b | (a, b) in p.edges ensures a in p.acts && b in p.acts && a.rank == b.rank {
      EdgesAre(w, cfg, a, b);
      Members(w, cfg, a);
      Members(w, cfg, b);
      EdgeIs(w, a, b);
    }
  }

  lemma EdgeIs(w: Setup, a: Id, b: Id)
    requires w.l >= 1 && Edge(w, a, b)
    ensures a.rank == b.rank && When(w, a) < When(w, b)
  {
  }

  lemma TransferSound(w: Setup, cfg: Config, id: Id)
    requires Ok(w) && Has(w, id) && !id.kind.Shuffle?
    ensures id in Prog(w, cfg).acts && SoundAction(Prog(w, cfg), id)
  {
    hide Has, Prog, Act, IsTree, IsLast;
    Layout(w, cfg);
    Members(w, cfg, id);
    MateHas(w, id);
    Members(w, cfg, Mate(id));
    KindsApart(w, id);
    ActionFits(w, id);
  }

  lemma ShuffleSound(w: Setup, cfg: Config, id: Id)
    requires Ok(w) && Has(w, id) && id.kind.Shuffle?
    ensures id in Prog(w, cfg).acts && SoundAction(Prog(w, cfg), id)
  {
    hide Prog, Mid;
    Layout(w, cfg);
    Members(w, cfg, id);
    KindsApart(w, id);
    MidFits(w);
  }

  // ---------------------------------------------------------------- order

  /** At one time a rank has one action, except the root in the hop. */
  lemma OneAtATime(w: Setup, a: Id, b: Id)
    requires Ok(w) && Has(w, a) && Has(w, b) && a.rank == b.rank && When(w, a) == When(w, b)
    ensures a == b || (IsLast(w, a) && IsLast(w, b) && a.kind.Recv? && b.kind.Recv? && Sender(a) != Sender(b))
  {
    hide Low, Mid, Chunk;
    KindsApart(w, a);
    KindsApart(w, b);
    if IsTree(w, a) && IsTree(w, b) {
      UpFits(w, Sender(a), Receiver(a));
      UpFits(w, Sender(b), Receiver(b));
    }
  }

  /** Among the actions before `b` that are not before `a` there is a latest. */
  lemma {:induction false} LatestBefore(w: Setup, a: Id, b: Id, ids: set<Id>) returns (c: Id)
    requires w.l >= 1 && Has(w, a) && Ordered(w, a, b)
    requires forall id | id in ids :: Has(w, id)
    ensures Has(w, c) && (c == a || Ordered(w, a, c)) && Ordered(w, c, b)
    ensures forall id | id in ids && id.rank == b.rank && When(w, id) < When(w, b) :: When(w, id) <= When(w, c)
    decreases ids
  {
    hide Has, When;
    if ids == {} {
      c := a;
    } else {
      var id :| id in ids;
      c := LatestBefore(w, a, b, ids - {id});
      if id.rank == b.rank && When(w, c) < When(w, id) < When(w, b) {
        c := id;
      }
    }
  }

  lemma ProgBacked(w: Setup, cfg: Config)
    requires Ok(w)
    ensures Backed(Prog(w, cfg), Plan(w))
  {
    hide Has, Prog, When, Edge;
    var p := Prog(w, cfg);
    var o := Plan(w);
    forall a, b | a in p.acts && b in p.acts && o.ord(a, b)
      ensures o.when(a) < o.when(b) && exists c :: LastStep(p, o, a, b, c)
    {
      Members(w, cfg, a);
      Members(w, cfg, b);
      forall id | id in p.acts.Keys ensures Has(w, id) {
        Members(w, cfg, id);
      }
      var c := LatestBefore(w, a, b, p.acts.Keys);
      LatestEdge(w, cfg, c, b);
      assert LastStep(p, o, a, b, c);
    }
  }

  lemma LatestEdge(w: Setup, cfg: Config, c: Id, b: Id)
    requires Ok(w) && Has(w, c) && Has(w, b) && Ordered(w, c, b)
    requires forall id | id in Prog(w, cfg).acts && id.rank == b.rank && When(w, id) < When(w, b) ::
               When(w, id) <= When(w, c)
    ensures (c, b) in Prog(w, cfg).edges
  {
    hide Has, Prog, When;
    forall d ensures !Between(w, c, b, d) {
      Members(w, cfg, d);
    }
    EdgesAre(w, cfg, c, b);
  }

  lemma ProgTimed(w: Setup, cfg: Config)
    requires Ok(w)
    ensures Timed(Prog(w, cfg), Plan(w))
  {
    hide Has, Prog, When, Edge;
    var p := Prog(w, cfg);
    forall a, b | (a, b) in p.edges ensures When(w, a) < When(w, b) {
      EdgesAre(w, cfg, a, b);
      EdgeIs(w, a, b);
    }
    forall id | IsTransfer(p, id) ensures When(w, Mate(id)) == When(w, id) {
      Members(w, cfg, id);
      MateHas(w, id);
    }
  }

  lemma ProgRaceFree(w: Setup, cfg: Config)
    requires Ok(w)
    ensures RaceFree(Prog(w, cfg), Plan(w))
  {
    hide Has, Prog, When, Clash;
    var p := Prog(w, cfg);
    forall a, b, x | a in p.acts && b in p.acts && a != b && a.rank == b.rank && Clash(p, a, b, x)
      ensures Ordered(w, a, b) || Ordered(w, b, a)
    {
      Members(w, cfg, a);
      Members(w, cfg, b);
      if When(w, a) == When(w, b) {
        OneAtATime(w, a, b);
        HopsApart(w, cfg, a, b, x);
      }
    }
  }

  /** The two halves the root receives do not overlap. */
  lemma HopsApart(w: Setup, cfg: Config, a: Id, b: Id, x: nat)
    requires Ok(w) && a in Prog(w, cfg).acts && b in Prog(w, cfg).acts
    requires IsLast(w, a) && IsLast(w, b) && a.kind.Recv? && b.kind.Recv? && Sender(a) != Sender(b)
    ensures !Clash(Prog(w, cfg), a, b, x)
  {
    hide Prog, Mid, Low;
    Layout(w, cfg);
    Members(w, cfg, a);
    Members(w, cfg, b);
    KindsApart(w, a);
    KindsApart(w, b);
  }

  // ---------------------------------------------------------------- what is computed

  /** After round `t` a rank that is still receiving has twice the room. */
  lemma ReachNext(r: nat, t: nat)
    ensures r == 0 || Low(r) > t ==> Reach(r, t) == Pow2(t) && Reach(r, t + 1) == 2 * Pow2(t)
    ensures r > 0 && Low(r) <= t ==> Reach(r, t + 1) == Reach(r, t)
  {
  }

  /** A block that appears in round `t` is received in round `t`. */
  lemma TreeUpdates(w: Setup, cfg: Config, t: nat, r: nat, x: nat)
    requires Ok(w) && t < Rounds(w) && r < w.n && (r == 0 || Low(r) > t) && w.nelems > 0
    requires var j := ChunkOf(w.nelems, x); Pow2(t) <= j < 2 * Pow2(t) && r + j < w.n
    ensures !Idle(Prog(w, cfg), Plan(w), t, r, x)
  {
    hide Prog, Low, Pow2, ChunkOf, When;
    var c := r + Pow2(t);
    ChildBit(r, t);
    var id := Id(r, Recv, t, c);
    KindsApart(w, id);
    TreeWhen(w, id);
    Members(w, cfg, id);
    Layout(w, cfg);
    var j := ChunkOf(w.nelems, x);
    InChunk(w.nelems, j, x);
    Inside(w.nelems, Pow2(t), Chunk(w, c), x);
    assert id in Prog(w, cfg).acts && id.rank == r && Updates(Prog(w, cfg), id, x) && Plan(w).when(id) == t;
  }

  lemma TreeWhen(w: Setup, id: Id)
    requires Ok(w) && IsTree(w, id)
    ensures When(w, id) == id.round == Low(Sender(id))
  {
  }

  /** A region of whole blocks contains exactly the elements of its blocks. */
  lemma Inside(nelems: nat, lo: nat, len: nat, x: nat)
    requires nelems > 0
    ensures Span(x, lo * nelems, len * nelems) <==> lo <= ChunkOf(nelems, x) < lo + len
  {
    hide ChunkOf;
    ChunkBelow(nelems, lo, x);
    ChunkBelow(nelems, lo + len, x);
    assert (lo + len) * nelems == lo * nelems + len * nelems;
  }

  lemma ShuffleUpdates(w: Setup, cfg: Config, x: nat)
    requires Ok(w) && w.root == Mid(w) && w.nelems > 0 && Mid(w) <= ChunkOf(w.nelems, x) < w.n
    ensures !Idle(Prog(w, cfg), Plan(w), w.l, w.root, x)
  {
    hide Prog, Mid, ChunkOf;
    var id := Id(w.root, Shuffle, w.l, w.root);
    KindsApart(w, id);
    MidFits(w);
    Members(w, cfg, id);
    ChunkBelow(w.nelems, Mid(w), x);
    ChunkBelow(w.nelems, w.n, x);
    assert id in Prog(w, cfg).acts && Updates(Prog(w, cfg), id, x) && Plan(w).when(id) == w.l;
  }

  lemma HopUpdates(w: Setup, cfg: Config, x: nat, s: nat)
    requires Ok(w) && IsHop(w, s) && w.nelems > 0 && s <= ChunkOf(w.nelems, x) < s + Half(w, s)
    ensures !Idle(Prog(w, cfg), Plan(w), w.l + 1, w.root, x)
  {
    hide Prog, Mid, ChunkOf, Low;
    var id := Id(w.root, Recv, w.l, s);
    assert IsLast(w, id);
    KindsApart(w, id);
    Members(w, cfg, id);
    Inside(w.nelems, s, Half(w, s), x);
    assert id in Prog(w, cfg).acts && Updates(Prog(w, cfg), id, x) && Plan(w).when(id) == w.l + 1;
  }

  lemma FramedTree(w: Setup, cfg: Config, t: nat, r: nat, x: nat)
    requires Ok(w) && r < w.n && t < Rounds(w) && Idle(Prog(w, cfg), Plan(w), t, r, x) && InTree(w, t + 1, r, x).Some?
    ensures InTree(w, t, r, x) == InTree(w, t + 1, r, x)
  {
    hide Prog, Idle, ChunkOf, Low, Pow2;
    ReachNext(r, t);
    if ChunkOf(w.nelems, x) >= Reach(r, t) {
      TreeUpdates(w, cfg, t, r, x);
    }
  }

  lemma FramedAt(w: Setup, cfg: Config, t: nat, r: nat, x: nat)
    requires Ok(w) && r < w.n && Idle(Prog(w, cfg), Plan(w), t, r, x) && Held(w, t + 1, r, x).Some?
    ensures Held(w, t, r, x) == Held(w, t + 1, r, x)
  {
    hide Prog, Idle, ChunkOf, Mid, InTree;
    MidFits(w);
    if t < Rounds(w) {
      FramedTree(w, cfg, t, r, x);
    } else if t == w.l && r == w.root && w.root != 0 {
      ShuffleUpdates(w, cfg, x);
    } else if t == w.l && w.root == 0 && r == 0 {
      WholeTree(w, x);
    } else if t == w.l + 1 && w.root != 0 {
      var s := if ChunkOf(w.nelems, x) < Mid(w) then 0 else Mid(w);
      if s != w.root {
        HopUpdates(w, cfg, x, s);
      }
    }
  }

  /** Rank 0's whole tree is everything in its place. */
  lemma WholeTree(w: Setup, x: nat)
    requires Ok(w)
    ensures InTree(w, w.l, 0, x) == InPlace(w, x)
  {
  }

  lemma ProgFramed(w: Setup, cfg: Config)
    requires Ok(w)
    ensures Framed(Prog(w, cfg), Plan(w))
  {
    hide Prog, Idle, Held;
    var p := Prog(w, cfg);
    var o := Plan(w);
    Layout(w, cfg);
    forall t: nat, r: nat, x: nat | r < p.n && x < p.size && Idle(p, o, t, r, x) && o.val(t + 1, r, x).Some?
      ensures o.val(t, r, x) == o.val(t + 1, r, x)
    {
      FramedAt(w, cfg, t, r, x);
    }
  }

  /** What a transfer carries: element `i` of the sender is the same token as element `i` of the receiver's region. */
  lemma TreeCarries(w: Setup, c: nat, p: nat, i: nat)
    requires Ok(w) && IsUp(w, c, p) && i < Chunk(w, c) * w.nelems
    ensures var t := Low(c);
            InTree(w, t, c, i).Some? && InTree(w, t + 1, p, Pow2(t) * w.nelems + i) == InTree(w, t, c, i)
  {
    hide ChunkOf, Low, Chunk, Pow2;
    UpFits(w, c, p);
    ReachNext(p, Low(c));
    ChunkBelow(w.nelems, Chunk(w, c), i);
    InChunk(w.nelems, ChunkOf(w.nelems, i), i);
    ShiftChunk(w.nelems, Pow2(Low(c)), i);
  }

  lemma ShiftChunk(nelems: nat, k: nat, i: nat)
    requires nelems > 0
    ensures ChunkOf(nelems, k * nelems + i) == k + ChunkOf(nelems, i) && (k * nelems + i) % nelems == i % nelems
  {
    var q := i / nelems;
    assert k * nelems + i == (k + q) * nelems + i % nelems;
    DivUnique(k * nelems + i, nelems, k + q, i % nelems);
  }

  lemma HopCarries(w: Setup, s: nat, i: nat)
    requires Ok(w) && IsHop(w, s) && i < Half(w, s) * w.nelems
    ensures InTree(w, w.l - 1, s, i).Some? && InPlace(w, s * w.nelems + i) == InTree(w, w.l - 1, s, i)
  {
    hide ChunkOf;
    MidFits(w);
    ChunkBelow(w.nelems, Half(w, s), i);
    ShiftChunk(w.nelems, s, i);
  }

  lemma RecvExplainedHere(w: Setup, cfg: Config, id: Id, i: nat)
    requires Ok(w) && IsTransfer(Prog(w, cfg), id) && Near(Prog(w, cfg), id) && i < Prog(w, cfg).acts[id].nelems
    ensures RecvExplained(Prog(w, cfg), Plan(w), id, i)
  {
    hide Prog, Near, InTree, InPlace, Mid, Low, Chunk, Half, IsUp, IsHop;
    Members(w, cfg, id);
    Members(w, cfg, Mate(id));
    KindsApart(w, id);
    MateHas(w, id);
    KindsApart(w, Mate(id));
    Layout(w, cfg);
    if IsTree(w, id) {
      TreeCarries(w, id.rank, id.partner, i);
    } else {
      HopCarries(w, id.rank, i);
      HopNotRoot(w, id);
    }
  }

  lemma HopNotRoot(w: Setup, id: Id)
    requires Ok(w) && IsLast(w, id)
    ensures w.root != 0 && Sender(id) != w.root && Receiver(id) == w.root
  {
  }

  lemma ShuffleExplainedHere(w: Setup, cfg: Config, id: Id, x: nat)
    requires Ok(w) && id in Prog(w, cfg).acts && id.kind.Shuffle? && x in Prog(w, cfg).acts[id].copies
    ensures var o := Plan(w);
            o.val(o.when(id) + 1, id.rank, x).Some? ==>
              o.val(o.when(id), id.rank, Prog(w, cfg).acts[id].copies[x]) == o.val(o.when(id) + 1, id.rank, x)
  {
    hide Prog, ChunkOf, Mid;
    Members(w, cfg, id);
    KindsApart(w, id);
    MidFits(w);
    var z := x - Mid(w) * w.nelems;
    if w.nelems > 0 {
      ShiftChunk(w.nelems, Mid(w), z);
      assert Reach(w.root, Rounds(w)) == Mid(w) by { MidReach(w); }
    }
  }

  lemma MidReach(w: Setup)
    requires Ok(w) && w.root == Mid(w)
    ensures Reach(w.root, Rounds(w)) == Mid(w)
  {
    MidFits(w);
  }

  lemma PlanValid(w: Setup, cfg: Config)
    requires Ok(w)
    ensures Valid(Prog(w, cfg), Plan(w))
  {
    hide Prog, RecvExplained, Sound, Timed, Backed, RaceFree, Framed, Held, Has, When;
    var p := Prog(w, cfg);
    var o := Plan(w);
    ProgSound(w, cfg);
    ProgTimed(w, cfg);
    ProgBacked(w, cfg);
    ProgRaceFree(w, cfg);
    ProgFramed(w, cfg);
    forall id, i: nat | IsTransfer(p, id) && i < p.acts[id].nelems
      ensures Near(p, id) && RecvExplained(p, o, id, i)
    {
      SoundNear(p, id);
      RecvExplainedHere(w, cfg, id, i);
    }
    forall id, x | id in p.acts && id.kind.Shuffle? && x in p.acts[id].copies && o.val(o.when(id) + 1, id.rank, x).Some?
      ensures o.val(o.when(id), id.rank, p.acts[id].copies[x]) == o.val(o.when(id) + 1, id.rank, x)
    {
      ShuffleExplainedHere(w, cfg, id, x);
    }
    forall id | id in p.acts ensures !p.acts[id].mode.RecvReduce? {
      Members(w, cfg, id);
      NoReduce(w, id);
    }
  }

  lemma NoReduce(w: Setup, id: Id)
    requires w.l >= 1
    ensures !Act(w, id).mode.RecvReduce?
  {
  }

  // ---------------------------------------------------------------- the theorem

  /** Every rank's working buffer starts with its own block; the rest is arbitrary. */
  ghost predicate Inputs(w: Setup, mem: seq<seq<Val>>) {
    && |mem| == w.n
    && (forall r | 0 <= r < w.n :: |mem[r]| == w.n * w.nelems)
    && (forall r, y | 0 <= r < w.n && 0 <= y < w.nelems && y < |mem[r]| :: mem[r][y] == multiset{Token(r, y)})
  }

  /** Block `k` of every rank `k` at position `k`. */
  ghost predicate Gathered(w: Setup, m: seq<Val>) {
    && |m| == w.n * w.nelems
    && forall k: nat, y: nat | k < w.n && y < w.nelems && k * w.nelems + y < |m| ::
         m[k * w.nelems + y] == multiset{Token(k, y)}
  }

  lemma InputsBegin(w: Setup, cfg: Config, mem: seq<seq<Val>>)
    requires Ok(w) && Inputs(w, mem)
    ensures Begins(Prog(w, cfg), Plan(w), mem)
  {
    hide Prog, Held;
    Layout(w, cfg);
    forall r: nat, x: nat | r < w.n && x < w.n * w.nelems && Held(w, 0, r, x).Some?
      ensures mem[r][x] == multiset{Held(w, 0, r, x).value}
    {
      HeldFirst(w, r, x);
    }
  }

  lemma HeldFirst(w: Setup, r: nat, x: nat)
    requires Ok(w) && r < w.n && Held(w, 0, r, x).Some?
    ensures x < w.nelems && Held(w, 0, r, x).value == Token(r, x)
  {
    assert Pow2(0) == 1;
    InChunk(w.nelems, 0, x);
  }

  lemma WhenBelow(w: Setup, cfg: Config)
    requires Ok(w)
    ensures forall id | id in Prog(w, cfg).acts :: Plan(w).when(id) < w.l + 2
  {
    hide Prog, When, Has;
    forall id | id in Prog(w, cfg).acts ensures When(w, id) < w.l + 2 {
      Members(w, cfg, id);
      KindsApart(w, id);
      WhenAtMost(w, id);
    }
  }

  lemma WhenAtMost(w: Setup, id: Id)
    requires Ok(w) && Has(w, id)
    ensures When(w, id) < w.l + 2
  {
    KindsApart(w, id);
  }

  /**
   * Gather, for any number of ranks from 2, any root and block length, any
   * protocol configuration and any order of events: the run is healthy, and
   * when the root's actions are done it holds every rank's block in place.
   */
  lemma GatherCorrect(w: Setup, cfg: Config, mem: seq<seq<Val>>, es: seq<Event>)
    requires Ok(w) && Inputs(w, mem) && Execution(Prog(w, cfg), mem, es)
    ensures Healthy(Prog(w, cfg), mem, es)
    ensures var t := Outcome(Prog(w, cfg), mem, es);
            w.root < |t.mem| && (RankDone(Prog(w, cfg), t, w.root) ==> Gathered(w, t.mem[w.root]))
  {
    hide Prog, Valid, Execution, Outcome, Healthy, RankDone, Held, Inputs, Begins;
    var p := Prog(w, cfg);
    PlanValid(w, cfg);
    InputsBegin(w, cfg, mem);
    Layout(w, cfg);
    EveryRun(p, Plan(w), mem, es);
    var t := Outcome(p, mem, es);
    if RankDone(p, t, w.root) {
      forall k: nat, y: nat | k < w.n && y < w.nelems && k * w.nelems + y < |t.mem[w.root]|
        ensures t.mem[w.root][k * w.nelems + y] == multiset{Token(k, y)}
      {
        WhenBelow(w, cfg);
        FinalMemory(p, Plan(w), mem, es, w.root, k * w.nelems + y, w.l + 2);
        HeldLast(w, k, y);
      }
    }
  }

  lemma HeldLast(w: Setup, k: nat, y: nat)
    requires Ok(w) && k < w.n && y < w.nelems
    ensures Held(w, w.l + 2, w.root, k * w.nelems + y) == Some(Token(k, y))
  {
    hide ChunkOf;
    ElementOf(w.nelems, k, y);
  }

  /** Away from the root a rank's transfers fit the workspace of `Mid` blocks that it allocates. */
  lemma StaysInWorkspace(w: Setup, cfg: Config, id: Id)
    requires Ok(w) && id in Prog(w, cfg).acts && id.rank != w.root
    ensures !id.kind.Shuffle?
    ensures var a := Prog(w, cfg).acts[id]; a.offset + a.nelems <= Mid(w) * w.nelems
  {
    Members(w, cfg, id);
    hide Prog, Act, Low;
    ActionFits(w, id);
  }
}
