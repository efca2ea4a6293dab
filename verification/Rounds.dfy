/**
 * Every schedule in plain arithmetic: which ranks exchange what in which round,
 * stated from the rank, the round and the number of ranks alone.
 */
module Rounds {
  import opened Actions
  import opened Wilke
  import opened Ranks
  import opened Intervals
  import opened Binomial
  import Allreduce
  import Alltoall
  import Bruck
  import Chains
  import Exchange
  import Gather
  import Reduce
  import Ring

  /** Rank `rank` has this transfer, and it is of `nelems` elements at `offset`. */
  predicate Lays(acts: map<Id, Action>, rank: int, kind: Kind, round: int, partner: int,
                 mode: Mode, offset: int, nelems: int) {
    rank >= 0 && round >= 0 && partner >= 0 && offset >= 0 && nelems >= 0 &&
    var id := Id(rank, kind, round, partner);
    id in acts && acts[id] == Action(mode, offset, nelems, map[])
  }

  // ---------------------------------------------------------------- chains

  /** The actions of a step of a chain are in the program. */
  lemma ChainHas(c: Chains.Chain, cfg: Config, r: nat, s: nat, kind: Kind)
    requires Chains.Good(c) && r < c.n && s < c.steps && Chains.Suits(c, s, kind)
    ensures var id := Chains.IdAt(c, r, s, kind);
            id in Chains.Prog(c, cfg).acts && Chains.Prog(c, cfg).acts[id] == Chains.ActAt(c, r, s, kind)
  {
    hide Chains.Good, Chains.Prog, Chains.Has;
    Chains.HasAt(c, r, s, kind);
    Chains.Members(c, cfg, Chains.IdAt(c, r, s, kind));
  }

  /** And there are no others. */
  lemma ChainHasOnly(c: Chains.Chain, cfg: Config, id: Id) returns (s: nat)
    requires Chains.Good(c) && id in Chains.Prog(c, cfg).acts
    ensures s < c.steps && id.rank < c.n && Chains.Suits(c, s, id.kind) && id == Chains.IdAt(c, id.rank, s, id.kind)
  {
    hide Chains.Good, Chains.Prog;
    Chains.Members(c, cfg, id);
    s := c.stepOf(id);
  }

  /**
   * Bruck allgather: in round `s` a rank sends its blocks down by 2^s and
   * receives as many from as far up, the last time only what is missing.
   */
  lemma AllgatherRound(b: Bruck.Setup, cfg: Config, r: nat, s: nat)
    requires Bruck.Ok(b) && r < b.N() && Pow2(s) < b.N()
    ensures var n, gap := b.N(), Pow2(s);
            var last := 2 * gap > n;
            var round, blocks := if last then s + b.extra else s, if last then n - gap else gap;
            var acts := Chains.Prog(Bruck.Schedule(b), cfg).acts;
            && Lays(acts, r, Send, round, (r + n - gap) % n, SendInPlace, 0, Bruck.Prefix(b, r, blocks))
            && Lays(acts, r, Recv, round, (r + gap) % n, RecvInPlace,
                    Bruck.Prefix(b, r, gap), Bruck.Prefix(b, r + gap, blocks))
  {
    hide Chains.Prog, Chains.Good, Bruck.Prefix, Up, Down;
    RoundBelow(b.N(), b.l, s);
    Bruck.ScheduleGood(b);
    Around(b.N(), r, Pow2(s));
    LastOne(b, s);
    ChainHas(Bruck.Schedule(b), cfg, r, s, Send);
    ChainHas(Bruck.Schedule(b), cfg, r, s, Recv);
  }

  lemma RoundBelow(n: nat, l: nat, s: nat)
    requires Pow2(l) >= n && Pow2(s) < n
    ensures s < l
  {
    if s >= l {
      Pow2Mono(l, s);
    }
  }

  /** Only the last round can be a partial one. */
  lemma LastOne(b: Bruck.Setup, s: nat)
    requires Bruck.Ok(b) && s < b.l
    ensures 2 * Pow2(s) > b.N() <==> s + 1 == b.l && Pow2(b.l) != b.N()
  {
    if s + 1 < b.l {
      Pow2Mono(s + 1, b.l - 1);
    }
  }

  lemma AllgatherOnly(b: Bruck.Setup, cfg: Config, id: Id) returns (s: nat)
    requires Bruck.Ok(b) && id in Chains.Prog(Bruck.Schedule(b), cfg).acts
    ensures var n, gap := b.N(), Pow2(s);
            && gap < n && id.rank < n && (id.kind.Send? || id.kind.Recv?)
            && id.round == (if 2 * gap > n then s + b.extra else s)
            && id.partner == if id.kind.Send? then (id.rank + n - gap) % n else (id.rank + gap) % n
  {
    hide Chains.Prog, Chains.Good, Bruck.Prefix, Up, Down;
    Bruck.ScheduleGood(b);
    s := ChainHasOnly(Bruck.Schedule(b), cfg, id);
    Pow2Mono(s, b.l - 1);
    Around(b.N(), id.rank, Pow2(s));
    LastOne(b, s);
  }

  /** The ring: in round `i` a rank passes on the chunk it has just got and receives the one before. */
  lemma RingRound(n: nat, nelems: nat, cfg: Config, r: nat, i: nat)
    requires r < n && 1 <= i < n
    ensures var acts := Chains.Prog(Ring.Circle(n, nelems), cfg).acts;
            && Lays(acts, r, Send, i, (r + 1) % n, SendInPlace, (r + n - (i - 1)) % n * nelems, nelems)
            && Lays(acts, r, Recv, i, (r + n - 1) % n, RecvInPlace, (r + n - i) % n * nelems, nelems)
  {
    hide Chains.Prog, Chains.Good, Up, Down;
    Ring.CircleGood(n, nelems);
    Around(n, r, 1);
    Around(n, r, i - 1);
    Around(n, r, i);
    ChainHas(Ring.Circle(n, nelems), cfg, r, i - 1, Send);
    ChainHas(Ring.Circle(n, nelems), cfg, r, i - 1, Recv);
  }

  lemma RingOnly(n: nat, nelems: nat, cfg: Config, id: Id)
    requires n > 0 && id in Chains.Prog(Ring.Circle(n, nelems), cfg).acts
    ensures id.rank < n && 1 <= id.round < n && (id.kind.Send? || id.kind.Recv?)
    ensures id.partner == if id.kind.Send? then (id.rank + 1) % n else (id.rank + n - 1) % n
  {
    hide Chains.Prog, Chains.Good, Up, Down;
    Ring.CircleGood(n, nelems);
    Around(n, id.rank, 1);
    var s := ChainHasOnly(Ring.Circle(n, nelems), cfg, id);
  }

  /**
   * Alltoall: in round `i` a rank sends the blocks whose index has bit `i` set
   * up by 2^i and receives as many from as far down, between the two shuffles
   * that pack and unpack them.
   */
  lemma AlltoallRound(w: Alltoall.Setup, cfg: Config, r: nat, i: nat)
    requires Alltoall.Ok(w) && r < w.n && Pow2(i) < w.n
    ensures var n, gap := w.n, Pow2(i);
            var len := |Moving(n, gap)| * w.nelems;
            var acts := Chains.Prog(Alltoall.Schedule(w), cfg).acts;
            && Lays(acts, r, Send, i, (r + gap) % n, SendTemp, 0, len)
            && Lays(acts, r, Recv, i, (r + n - gap) % n, RecvPacked, 0, len)
  {
    hide Chains.Prog, Chains.Good, Up, Down, NumSendBlocks, Moving, Alltoall.ToTemp, Alltoall.FromTemp;
    RoundBelow(w.n, w.l, i);
    Alltoall.ScheduleGood(w);
    Around(w.n, r, Pow2(i));
    NumSendBlocksCounts(w.n, Pow2(i));
    ChainHas(Alltoall.Schedule(w), cfg, r, 3 * i + 1, Send);
    ChainHas(Alltoall.Schedule(w), cfg, r, 3 * i + 1, Recv);
  }

  lemma AlltoallPacks(w: Alltoall.Setup, cfg: Config, r: nat, i: nat, back: bool)
    requires Alltoall.Ok(w) && r < w.n && Pow2(i) < w.n
    ensures var id := Id(r, Shuffle, i, if back then 1 else 0);
            var acts := Chains.Prog(Alltoall.Schedule(w), cfg).acts;
            && id in acts && acts[id].mode == Local && acts[id].offset == Pow2(i)
            && acts[id].nelems == |Moving(w.n, Pow2(i))| * w.nelems
  {
    hide Chains.Prog, Chains.Good, Up, Down, NumSendBlocks, Moving, Alltoall.ToTemp, Alltoall.FromTemp;
    RoundBelow(w.n, w.l, i);
    Alltoall.ScheduleGood(w);
    NumSendBlocksCounts(w.n, Pow2(i));
    ChainHas(Alltoall.Schedule(w), cfg, r, if back then 3 * i + 2 else 3 * i, Shuffle);
  }

  lemma AlltoallOnly(w: Alltoall.Setup, cfg: Config, id: Id)
    requires Alltoall.Ok(w) && id in Chains.Prog(Alltoall.Schedule(w), cfg).acts
    ensures var n, gap := w.n, Pow2(id.round);
            && id.rank < n && gap < n
            && match id.kind
               case Send => id.partner == (id.rank + gap) % n
               case Recv => id.partner == (id.rank + n - gap) % n
               case Shuffle => id.partner <= 1
               case Join => false
  {
    hide Chains.Prog, Chains.Good, Up, Down, NumSendBlocks, Alltoall.ToTemp, Alltoall.FromTemp;
    Alltoall.ScheduleGood(w);
    var s := ChainHasOnly(Alltoall.Schedule(w), cfg, id);
    Alltoall.TempFits(w, s / 3);
    Around(w.n, id.rank, Pow2(s / 3));
  }

  // ---------------------------------------------------------------- gather

  /**
   * Gather: rank `c` passes its blocks to the rank with its lowest bit cleared,
   * in the round of that bit, as many as it has below it; the receiver stores
   * them behind its own.
   */
  lemma GatherTransfer(w: Gather.Setup, cfg: Config, c: nat)
    requires Gather.Ok(w) && 0 < c < w.n && (w.root == 0 || Low(c) < w.l - 1)
    ensures var gap := Pow2(Low(c));
            var blocks := if c + gap < w.n then gap else w.n - c;
            var acts := Gather.Prog(w, cfg).acts;
            && Lays(acts, c, Send, Low(c), c - gap, SendInPlace, 0, blocks * w.nelems)
            && Lays(acts, c - gap, Recv, Low(c), c, RecvInPlace, gap * w.nelems, blocks * w.nelems)
  {
    hide Gather.Prog, Low, Pow2;
    LowBit(c);
    LowBelow(c, w.l);
    Gather.Members(w, cfg, Id(c, Send, Low(c), c - Pow2(Low(c))));
    Gather.Members(w, cfg, Id(c - Pow2(Low(c)), Recv, Low(c), c));
  }

  /** For a root other than 0, rank 0 passes the lower half and the midpoint the upper half to it. */
  lemma GatherHop(w: Gather.Setup, cfg: Config, c: nat)
    requires Gather.Ok(w) && w.root != 0 && c != w.root && (c == 0 || c == Pow2(w.l - 1))
    ensures var blocks := if c == 0 then Pow2(w.l - 1) else w.n - c;
            var acts := Gather.Prog(w, cfg).acts;
            && Lays(acts, c, Send, w.l, w.root, SendInPlace, 0, blocks * w.nelems)
            && Lays(acts, w.root, Recv, w.l, c, RecvInPlace, c * w.nelems, blocks * w.nelems)
  {
    hide Gather.Prog, Low, Pow2;
    Gather.MidFits(w);
    Gather.Members(w, cfg, Id(c, Send, w.l, w.root));
    Gather.Members(w, cfg, Id(w.root, Recv, w.l, c));
    Gather.KindsApart(w, Id(c, Send, w.l, w.root));
    Gather.KindsApart(w, Id(w.root, Recv, w.l, c));
  }

  lemma GatherOnly(w: Gather.Setup, cfg: Config, id: Id)
    requires Gather.Ok(w) && id in Gather.Prog(w, cfg).acts && (id.kind.Send? || id.kind.Recv?)
    ensures var c, p := if id.kind.Send? then id.rank else id.partner, if id.kind.Send? then id.partner else id.rank;
            if id.round < w.l then
              0 < c < w.n && id.round == Low(c) && p + Pow2(Low(c)) == c && (w.root == 0 || Low(c) < w.l - 1)
            else
              id.round == w.l && p == w.root != 0 && c != p && (c == 0 || c == Pow2(w.l - 1))
  {
    hide Gather.Prog, Low, Pow2;
    Gather.Members(w, cfg, id);
    Gather.KindsApart(w, id);
  }

  // ---------------------------------------------------------------- allreduce and reduce

  /** The real rank of a virtual one: the first `2 * (2^l - n)` are two to a rank. */
  predicate Plays(n: nat, l: nat, rank: int, v: int) {
    rank == if v < 2 * (Pow2(l) - n) then v / 2 else v - (Pow2(l) - n)
  }

  /**
   * An exchange of virtual rank `v` in step `s` of 2l, the second half of which
   * repeats the gaps of the first half backwards: with the virtual rank `p` at the
   * step's gap, unless both are on one rank.
   */
  predicate InStep(n: nat, l: nat, id: Id, v: nat, s: nat, p: int) {
    var i := if s < l then s else 2 * l - 1 - s;
    && s < 2 * l && v < Pow2(l)
    && p == (if v / Pow2(i) % 2 == 0 then v + Pow2(i) else v - Pow2(i))
    && Plays(n, l, id.rank, v) && Plays(n, l, id.partner, p) && id.rank != id.partner
    && id.round == (if i == 0 || v % 2 == 0 then s else s + 2 * l)
    && (id.kind.Send? || id.kind.Recv?)
  }

  /** What `v` still works on after `i` halvings: the lower partner keeps the larger first half. */
  predicate Halved(nelems: nat, v: nat, i: nat, before: Piece, after: Piece) {
    after == if v / Pow2(i) % 2 == 0 then Piece(before.off, before.len - before.len / 2)
             else Piece(before.off + before.len - before.len / 2, before.len / 2)
  }

  lemma PartHalved(nelems: nat, v: nat, i: nat)
    ensures Part(nelems, v, 0) == Piece(0, nelems)
    ensures Halved(nelems, v, i, Part(nelems, v, i), Part(nelems, v, i + 1))
  {
    ShrIsDivision(v, i);
  }

  /** An exchange of the schedule, in plain arithmetic. */
  lemma ExchangeInStep(w: Exchange.Setup, id: Id) returns (v: nat, s: nat, p: nat)
    requires Exchange.Ok(w) && Exchange.IsExchange(w, id)
    ensures InStep(w.n, w.l, id, v, s, p)
    ensures v == Exchange.RoleOf(w, id) && s == Exchange.StepOf(w, id)
    ensures p == Partner(v, Exchange.Level(w, s))
  {
    hide Partner, Pow2;
    v, s := Exchange.RoleOf(w, id), Exchange.StepOf(w, id);
    p := Partner(v, Exchange.Level(w, s));
    ShrIsDivision(v, Exchange.Level(w, s));
    PartnerGap(v, Exchange.Level(w, s));
    Exchange.MateIsPartners(w, id);
  }

  lemma InStepExchanges(w: Exchange.Setup, id: Id, v: nat, s: nat, p: nat)
    requires Exchange.Ok(w) && InStep(w.n, w.l, id, v, s, p)
    ensures Exchange.IsExchange(w, id)
    ensures v == Exchange.RoleOf(w, id) && s == Exchange.StepOf(w, id)
    ensures p == Partner(v, Exchange.Level(w, s))
  {
    hide Partner, Exchange.Xid;
    var i := Exchange.Level(w, s);
    ShrIsDivision(v, i);
    PartnerGap(v, i);
    if Exchange.Skipped(w, v, s) {
      SameRank(w, v);
      assert false;
    }
    Exchange.XidIsExchange(w, v, s, id.kind);
    IsXid(w, id, v, s);
  }

  lemma SameRank(w: Exchange.Setup, v: nat)
    requires Exchange.Ok(w) && v < 2 * w.dual
    ensures var p := if v % 2 == 0 then v + 1 else v - 1;
            p / 2 == v / 2 && p < 2 * w.dual
  {
  }

  lemma IsXid(w: Exchange.Setup, id: Id, v: nat, s: nat)
    requires Exchange.Ok(w) && s < 2 * w.l && InStep(w.n, w.l, id, v, s, Partner(v, Exchange.Level(w, s)))
    ensures id == Exchange.Xid(w, v, s, id.kind)
  {
    hide Partner, Pow2;
  }

  /** The elements of an exchange: halving sends the partner's half, the mirror sends its own back. */
  predicate Moves(w: Exchange.Setup, a: Action, kind: Kind, v: nat, s: nat, p: nat) {
    var i := if s < w.l then s + 1 else 2 * w.l - s;
    var q := Part(w.nelems, if (s < w.l) == kind.Send? then p else v, if i >= 0 then i else 0);
    a == Action(if kind.Send? then SendInPlace else if s < w.l then RecvReduce else RecvInPlace, q.off, q.len, map[])
  }

  /** Allreduce: all steps of all virtual ranks, and nothing else. */
  lemma AllreduceRounds(w: Exchange.Setup, cfg: Config, id: Id) returns (v: nat, s: nat, p: nat)
    requires Exchange.Ok(w) && id in Allreduce.Prog(w, cfg).acts
    ensures InStep(w.n, w.l, id, v, s, p) && Moves(w, Allreduce.Prog(w, cfg).acts[id], id.kind, v, s, p)
  {
    hide Allreduce.Prog, Partner, Part, Exchange.IsExchange;
    Allreduce.Members(w, cfg, id);
    v, s, p := ExchangeInStep(w, id);
  }

  lemma AllreduceAll(w: Exchange.Setup, cfg: Config, id: Id, v: nat, s: nat, p: nat)
    requires Exchange.Ok(w) && InStep(w.n, w.l, id, v, s, p)
    ensures id in Allreduce.Prog(w, cfg).acts
  {
    hide Allreduce.Prog, Partner, Exchange.IsExchange;
    InStepExchanges(w, id, v, s, p);
    Allreduce.Members(w, cfg, id);
  }

  /**
   * In the mirror of a reduce only the virtual ranks below the step's bound go
   * on; for a root other than 0 the hop replaces the last step.
   */
  predicate Reduces(w: Exchange.Setup, root: nat, v: nat, s: nat) {
    s < w.l || (s < 2 * w.l && v < Pow2(2 * w.l - s) && (root == 0 || s + 1 < 2 * w.l))
  }

  /** The last hop of a reduce: ranks 0 and 1 send the lower and the upper half to a root other than 0. */
  predicate Hops(w: Exchange.Setup, root: nat, id: Id, a: Action) {
    var sender := if id.kind.Send? then id.rank else id.partner;
    var receiver := if id.kind.Send? then id.partner else id.rank;
    var half := w.nelems - w.nelems / 2;
    && root != 0 && receiver == root && sender <= 1 && sender != root && id.round == 4 * w.l - 1
    && a == Action(if id.kind.Send? then SendInPlace else RecvInPlace,
                   if sender == 0 then 0 else half, if sender == 0 then half else w.nelems / 2, map[])
  }

  lemma ReduceRounds(w: Exchange.Setup, root: nat, cfg: Config, id: Id) returns (v: nat, s: nat, p: nat)
    requires Reduce.Rooted(w, root) && id in Reduce.Prog(w, root, cfg).acts && (id.kind.Send? || id.kind.Recv?)
    ensures var a := Reduce.Prog(w, root, cfg).acts[id];
            (InStep(w.n, w.l, id, v, s, p) && Reduces(w, root, v, s) && Moves(w, a, id.kind, v, s, p))
            || Hops(w, root, id, a)
  {
    hide Reduce.Prog, Partner, Part, Exchange.IsExchange, Pow2;
    v, s, p := 0, 0, 0;
    Reduce.Members(w, root, cfg, id);
    Reduce.NotBoth(w, root, id);
    if Reduce.IsTaken(w, root, id) {
      v, s, p := ExchangeInStep(w, id);
    }
  }

  lemma ReduceAll(w: Exchange.Setup, root: nat, cfg: Config, id: Id, v: nat, s: nat, p: nat)
    requires Reduce.Rooted(w, root) && InStep(w.n, w.l, id, v, s, p) && Reduces(w, root, v, s)
    ensures id in Reduce.Prog(w, root, cfg).acts
  {
    hide Reduce.Prog, Partner, Exchange.IsExchange, Pow2;
    InStepExchanges(w, id, v, s, p);
    Reduce.Members(w, root, cfg, id);
  }

  lemma ReduceHop(w: Exchange.Setup, root: nat, cfg: Config, sender: nat)
    requires Reduce.Rooted(w, root) && root != 0 && sender <= 1 && sender != root
    ensures Id(sender, Send, 4 * w.l - 1, root) in Reduce.Prog(w, root, cfg).acts
    ensures Id(root, Recv, 4 * w.l - 1, sender) in Reduce.Prog(w, root, cfg).acts
  {
    hide Reduce.Prog, Exchange.IsExchange, Pow2;
    Reduce.Members(w, root, cfg, Id(sender, Send, 4 * w.l - 1, root));
    Reduce.Members(w, root, cfg, Id(root, Recv, 4 * w.l - 1, sender));
  }
}
