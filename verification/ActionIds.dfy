/**
 * The packed integer that names an action: messageId and details, in 32-bit
 * unsigned arithmetic, and why the ids of one actor never collide.
 */
module ActionIds {
  import opened Actions
  import opened Wilke
  import opened Exchange
  import Allreduce
  import Alltoall
  import Bcast
  import Bruck
  import Chains
  import Gather
  import Ranks
  import Reduce
  import Ring

  const WORD: nat := 0x1_0000_0000
  const MAX_ROUND: nat := 500
  const NUM_ENUMS: nat := 6
  const MAX_PARTNER: nat := 1431655

  function MessageId(ty: nat, r: nat, p: nat): (id: nat)
    ensures id < WORD
  {
    (p * MAX_ROUND * NUM_ENUMS + r * NUM_ENUMS + ty) % WORD
  }

  /** details: takes the id apart again. */
  method Details(id: nat) returns (ty: nat, r: nat, p: nat)
    requires id < WORD
    ensures ty < NUM_ENUMS && r < MAX_ROUND && MessageId(ty, r, p) == id
    ensures forall t: nat, q: nat, s: nat |
              t < NUM_ENUMS && q < MAX_ROUND && s < MAX_PARTNER && MessageId(t, q, s) == id ::
              t == ty && q == r && s == p
  {
    var remainder := id;
    p := remainder / MAX_ROUND / NUM_ENUMS;
    remainder := remainder - p * MAX_ROUND * NUM_ENUMS;
    r := remainder / NUM_ENUMS;
    remainder := remainder - r * NUM_ENUMS;
    ty := remainder;
    Unpacked(id, ty, r, p);
  }

  lemma Unpacked(id: nat, ty: nat, r: nat, p: nat)
    requires id < WORD && ty < NUM_ENUMS && r < MAX_ROUND && id == p * MAX_ROUND * NUM_ENUMS + r * NUM_ENUMS + ty
    ensures MessageId(ty, r, p) == id
    ensures forall t: nat, q: nat, s: nat |
              t < NUM_ENUMS && q < MAX_ROUND && s < MAX_PARTNER && MessageId(t, q, s) == id ::
              t == ty && q == r && s == p
  {
    forall t: nat, q: nat, s: nat | t < NUM_ENUMS && q < MAX_ROUND && s < MAX_PARTNER && MessageId(t, q, s) == id
      ensures t == ty && q == r && s == p
    {
      NoWrap(t, q, s);
    }
  }

  lemma NoWrap(ty: nat, r: nat, p: nat)
    requires ty < NUM_ENUMS && r < MAX_ROUND && p < MAX_PARTNER
    ensures MessageId(ty, r, p) == p * MAX_ROUND * NUM_ENUMS + r * NUM_ENUMS + ty
  {
  }

  /** Within the limits the packing does not wrap and loses nothing. */
  lemma PackingInjective(ty: nat, r: nat, p: nat, ty': nat, r': nat, p': nat)
    requires ty < NUM_ENUMS && r < MAX_ROUND && p < MAX_PARTNER
    requires ty' < NUM_ENUMS && r' < MAX_ROUND && p' < MAX_PARTNER
    ensures p * MAX_ROUND * NUM_ENUMS + r * NUM_ENUMS + ty < WORD
    ensures MessageId(ty, r, p) == MessageId(ty', r', p') ==> ty == ty' && r == r' && p == p'
  {
    hide MessageId;
    NoWrap(ty, r, p);
    NoWrap(ty', r', p');
  }

  /** The partner limit is sharp: the first partner beyond it collides with partner 0. */
  lemma FirstCollision()
    ensures MessageId(Code(Send), 383, MAX_PARTNER) == MessageId(Code(Shuffle), 0, 0) && 383 < MAX_ROUND
  {
  }

  /** The source's enumeration order. */
  function Code(kind: Kind): (c: nat)
    ensures c < NUM_ENUMS
  {
    match kind case Send => 0 case Recv => 1 case Shuffle => 2 case Join => 5
  }

  function Packed(id: Id): nat {
    MessageId(Code(id.kind), id.round, id.partner)
  }

  lemma PackedDistinct(a: Id, b: Id)
    requires a.round < MAX_ROUND && b.round < MAX_ROUND && a.partner < MAX_PARTNER && b.partner < MAX_PARTNER
    requires a.rank == b.rank && Packed(a) == Packed(b)
    ensures a == b
  {
    PackingInjective(Code(a.kind), a.round, a.partner, Code(b.kind), b.round, b.partner);
  }

  /** With partners in range the rounds are in range too. */
  lemma FewRounds(w: Setup)
    requires Ok(w) && w.n <= MAX_PARTNER
    ensures 4 * w.l < MAX_ROUND
  {
    FewLevels(w.n, w.l);
  }

  lemma FewLevels(n: nat, l: nat)
    requires n <= MAX_PARTNER && (l > 0 ==> Pow2(l - 1) < n)
    ensures l <= 21
  {
    Pow2At21();
    if l > 21 {
      Pow2Mono(21, l - 1);
    }
  }

  lemma Pow2At21()
    ensures Pow2(21) == 2097152
  {
    assert Pow2(7) == 128;
    assert Pow2(14) == 16384;
  }

  /** No two actions of an allreduce actor have the same packed id. */
  lemma AllreduceIdsDistinct(w: Setup, cfg: Config, a: Id, b: Id)
    requires Ok(w) && w.n <= MAX_PARTNER
    requires a in Allreduce.Prog(w, cfg).acts && b in Allreduce.Prog(w, cfg).acts && a.rank == b.rank
    requires Packed(a) == Packed(b)
    ensures a == b
  {
    hide IsExchange, Packed;
    FewRounds(w);
    Allreduce.Members(w, cfg, a);
    Allreduce.Members(w, cfg, b);
    MateIsPartners(w, a);
    MateIsPartners(w, b);
    PackedDistinct(a, b);
  }

  /** No two actions of a reduce actor have the same packed id, the final hop's included. */
  lemma ReduceIdsDistinct(w: Setup, root: nat, cfg: Config, a: Id, b: Id)
    requires Reduce.Rooted(w, root) && w.n <= MAX_PARTNER
    requires a in Reduce.Prog(w, root, cfg).acts && b in Reduce.Prog(w, root, cfg).acts && a.rank == b.rank
    requires Packed(a) == Packed(b)
    ensures a == b
  {
    hide IsExchange, Packed;
    FewRounds(w);
    ReduceIdInRange(w, root, cfg, a);
    ReduceIdInRange(w, root, cfg, b);
    PackedDistinct(a, b);
  }

  lemma ReduceIdInRange(w: Setup, root: nat, cfg: Config, id: Id)
    requires Reduce.Rooted(w, root) && id in Reduce.Prog(w, root, cfg).acts
    ensures id.round < 4 * w.l && id.partner < w.n
  {
    hide IsExchange;
    Reduce.Members(w, root, cfg, id);
  }

  // ---------------------------------------------------------------- the other schedules

  /** The limits, for a whole program. */
  ghost predicate InLimits(p: Program) {
    forall id | id in p.acts :: id.round < MAX_ROUND && id.partner < MAX_PARTNER
  }

  lemma IdsDistinct(p: Program, a: Id, b: Id)
    requires InLimits(p) && a in p.acts && b in p.acts && a.rank == b.rank && Packed(a) == Packed(b)
    ensures a == b
  {
    hide Packed;
    PackedDistinct(a, b);
  }

  /** Bruck allgather and allgatherv, which number a partial last round one higher or not. */
  lemma BruckInLimits(b: Bruck.Setup, cfg: Config)
    requires Bruck.Ok(b) && b.N() <= MAX_PARTNER && b.extra <= 1
    ensures InLimits(Chains.Prog(Bruck.Schedule(b), cfg))
  {
    hide Chains.Has, Chains.Act, Chains.Edge;
    FewLevels(b.N(), b.l);
  }

  lemma AlltoallInLimits(w: Alltoall.Setup, cfg: Config)
    requires Alltoall.Ok(w) && w.n <= MAX_PARTNER
    ensures InLimits(Chains.Prog(Alltoall.Schedule(w), cfg))
  {
    hide Chains.Has, Chains.Act, Chains.Edge;
    FewLevels(w.n, w.l);
  }

  lemma BcastInLimits(w: Bcast.Setup, cfg: Config)
    requires w.root < w.n <= MAX_PARTNER
    ensures InLimits(Bcast.Prog(w, cfg))
  {
    hide Bcast.Has, Bcast.Act, Bcast.Edge;
  }

  lemma GatherInLimits(w: Gather.Setup, cfg: Config)
    requires Gather.Ok(w) && w.n <= MAX_PARTNER
    ensures InLimits(Gather.Prog(w, cfg))
  {
    hide Gather.Has, Gather.Act, Gather.Edge;
    FewLevels(w.n, w.l);
  }

  /** The most ranks for which no id of a ring wraps: the largest id is 3006 times the last rank, plus 1. */
  const MAX_RING: nat := 1428799

  /** A ring has one partner per kind: no two of its actions share an id, far beyond the round limit. */
  lemma RingIdsDistinct(n: nat, nelems: nat, cfg: Config, a: Id, b: Id)
    requires 0 < n <= MAX_RING
    requires var acts := Chains.Prog(Ring.Circle(n, nelems), cfg).acts; a in acts && b in acts
    requires a.rank == b.rank && Packed(a) == Packed(b)
    ensures a == b
  {
    hide Packed;
    RingId(n, nelems, cfg, a);
    RingId(n, nelems, cfg, b);
    SameKind(a, b);
  }

  lemma RingId(n: nat, nelems: nat, cfg: Config, id: Id)
    requires n > 0 && id in Chains.Prog(Ring.Circle(n, nelems), cfg).acts
    ensures id.round < n && id.partner < n
    ensures id.kind.Send? || id.kind.Recv?
    ensures id.partner == if id.kind.Send? then Ranks.Up(n, id.rank, 1) else Ranks.Down(n, id.rank, 1)
  {
  }

  lemma RingPacked(id: Id)
    requires id.round < MAX_RING && id.partner < MAX_RING && (id.kind.Send? || id.kind.Recv?)
    ensures Packed(id) == 6 * (500 * id.partner + id.round) + Code(id.kind)
  {
  }

  /** Below the wrap the type can be read off the id, and then the round for a known partner. */
  lemma SameKind(a: Id, b: Id)
    requires Packed(a) == Packed(b) && (a.kind == b.kind ==> a.partner == b.partner)
    requires a.round < MAX_RING && a.partner < MAX_RING && b.round < MAX_RING && b.partner < MAX_RING
    requires (a.kind.Send? || a.kind.Recv?) && (b.kind.Send? || b.kind.Recv?)
    ensures a.kind == b.kind && a.round == b.round
  {
    hide Packed;
    RingPacked(a);
    RingPacked(b);
  }
}
