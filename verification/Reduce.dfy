/**
 * Wilke reduce: the halving exchanges of allreduce, a mirror phase from which
 * the upper virtual ranks drop out step by step, and for a non-zero root a
 * last hop from ranks 0 and 1.
 */
module Reduce {
  import opened Actions
  import opened Fabric
  import opened Outlines
  import opened Runs
  import opened Programs
  import opened Wilke
  import opened Exchange

  /** Mirror rounds performed: the last one is replaced by the hop when the root is not 0. */
  function Mirrors(w: Setup, root: nat): nat
    requires w.l >= 1
  {
    if root == 0 then w.l else w.l - 1
  }

  /** Virtual rank `v` takes part in step `s`; in the mirror only ranks below max_active_rank do. */
  predicate Takes(w: Setup, root: nat, v: nat, s: nat)
    requires w.l >= 1
  {
    s < w.l || (s < w.l + Mirrors(w, root) && v < Pow2(2 * w.l - s))
  }

  predicate IsTaken(w: Setup, root: nat, id: Id)
    requires w.l >= 1
  {
    IsExchange(w, id) && Takes(w, root, RoleOf(w, id), StepOf(w, id))
  }

  predicate IsJoin(w: Setup, id: Id) {
    id.rank < w.n && id.kind.Join? && id.round == 0 && id.partner == 0
  }

  /** The last hop: ranks 0 and 1 send the halves they completed to the root. */
  predicate IsHop(w: Setup, root: nat, id: Id)
    requires w.l >= 1
  {
    && root != 0
    && id.round == 4 * w.l - 1
    && match id.kind
       case Send => id.partner == root && id.rank <= 1 && id.rank != root
       case Recv => id.rank == root && id.partner <= 1 && id.partner != root
       case _ => false
  }

  function HopSender(id: Id): nat {
    if id.kind.Send? then id.rank else id.partner
  }

  /** Rank 0 is assumed to own the lower half of the buffer, rank 1 the upper. */
  function HopRegion(w: Setup, id: Id): Piece {
    var split := w.nelems - w.nelems / 2;
    if HopSender(id) == 0 then Piece(0, split) else Piece(split, w.nelems - split)
  }

  function HopAction(w: Setup, id: Id): Action {
    var q := HopRegion(w, id);
    Action(if id.kind.Send? then SendInPlace else RecvInPlace, q.off, q.len, map[])
  }

  predicate Has(w: Setup, root: nat, id: Id)
    requires w.l >= 1
  {
    IsTaken(w, root, id) || IsJoin(w, id) || IsHop(w, root, id)
  }

  function Act(w: Setup, root: nat, id: Id): Action
    requires w.l >= 1
  {
    if IsTaken(w, root, id) then ExchangeAction(w, id)
    else if IsHop(w, root, id) then HopAction(w, id)
    else Action(Local, 0, 0, map[])
  }

  /** Role `v` has an exchange after step `s`. */
  predicate GoesOn(w: Setup, root: nat, v: nat, s: nat)
    requires w.l >= 1
  {
    s + 1 < 2 * w.l && Takes(w, root, v, s + 1) && !Skipped(w, v, s + 1)
  }

  predicate Edge(w: Setup, root: nat, a: Id, b: Id)
    requires w.l >= 1
  {
    && a.rank == b.rank
    && if IsTaken(w, root, a) then
         if IsTaken(w, root, b) then RoleOf(w, a) == RoleOf(w, b) && StepOf(w, b) == StepOf(w, a) + 1
         else b.kind.Join? && !GoesOn(w, root, RoleOf(w, a), StepOf(w, a))
       else a.kind.Join? && IsHop(w, root, b)
  }

  ghost function Prog(w: Setup, root: nat, cfg: Config): Program
    requires w.l >= 1
  {
    Build(w.n, 4 * w.l, id => Has(w, root, id), id => Act(w, root, id), (a, b) => Edge(w, root, a, b),
          cfg, w.nelems, 0, 2 * w.nelems)
  }

  function When(w: Setup, root: nat, id: Id): nat
    requires w.l >= 1
  {
    if id.kind.Join? then 2 * w.l else if IsHop(w, root, id) then 2 * w.l + 1 else StepOf(w, id)
  }

  predicate Ordered(w: Setup, root: nat, a: Id, b: Id)
    requires w.l >= 1
  {
    && a.rank == b.rank
    && When(w, root, a) < When(w, root, b)
    && (b.kind.Join? || IsHop(w, root, b) || RoleOf(w, a) == RoleOf(w, b))
  }

  /** The upper half that rank 1 of a one-short-of-a-power-of-two reduce never works on. */
  predicate Stale(w: Setup, root: nat, r: nat, x: nat) {
    root != 0 && w.dual == 1 && r == 1 && x >= w.nelems - w.nelems / 2
  }

  /** Predictions up to the hop. */
  function Kept(w: Setup, root: nat, t: nat, r: nat, x: nat): Option<Val>
    requires w.l >= 1
  {
    var v := Owner(w, r, x);
    var last := w.l + Mirrors(w, root);
    var u := if t < last then t else last;
    if Stale(w, root, r, x) then Some(multiset{Token(r, x)})
    else if u <= w.l then (if Part(w.nelems, v, u).Has(x) then Some(Held(w.dual, v, u, x)) else None)
    else if Part(w.nelems, v, w.l).Has(x) || (v < Pow2(2 * w.l - u + 1) && Part(w.nelems, v, 2 * w.l - u).Has(x)) then
      Some(Sum(x, 0, w.n))
    else None
  }

  /** What the root ends up with. */
  function Final(w: Setup, root: nat, x: nat): Val {
    if root != 0 && w.dual == 1 && x >= w.nelems - w.nelems / 2 then multiset{Token(1, x)} else Sum(x, 0, w.n)
  }

  function Predicted(w: Setup, root: nat, t: nat, r: nat, x: nat): Option<Val>
    requires w.l >= 1
  {
    if x >= w.nelems || t > 2 * w.l + 2 then None
    else if t <= 2 * w.l + 1 then Kept(w, root, t, r, x)
    else if r == root then Some(Final(w, root, x))
    else None
  }

  ghost function Plan(w: Setup, root: nat): Outline
    requires w.l >= 1
  {
    Outline(id => When(w, root, id), (a, b) => Ordered(w, root, a, b),
            (t: nat, r: nat, x: nat) => Predicted(w, root, t, r, x))
  }

  predicate Rooted(w: Setup, root: nat) {
    Ok(w) && root < w.n
  }

  // ---------------------------------------------------------------- the program is sound

  lemma NotBoth(w: Setup, root: nat, id: Id)
    requires Rooted(w, root)
    ensures !(IsExchange(w, id) && (IsHop(w, root, id) || IsJoin(w, id)))
    ensures !(IsHop(w, root, id) && IsJoin(w, id))
  {
    hide Real, Partner;
  }

  lemma Members(w: Setup, root: nat, cfg: Config, id: Id)
    requires Rooted(w, root)
    ensures id in Prog(w, root, cfg).acts <==> Has(w, root, id)
    ensures id in Prog(w, root, cfg).acts ==> Prog(w, root, cfg).acts[id] == Act(w, root, id)
  {
    hide Partner, Real, Part, IsExchange, Act;
    if IsExchange(w, id) {
      MateIsPartners(w, id);
    }
  }

  lemma Layout(w: Setup, root: nat, cfg: Config)
    requires w.l >= 1
    ensures var p := Prog(w, root, cfg);
            p.n == w.n && p.recvBase == w.nelems && p.sendBase == 0 && p.size == 2 * w.nelems && p.cfg == cfg
  {
  }

  /** A rank that drops out never strands a partner: partners leave the mirror together. */
  lemma MateTaken(w: Setup, root: nat, id: Id)
    requires Rooted(w, root) && IsTaken(w, root, id)
    ensures IsTaken(w, root, Mate(id))
  {
    hide Partner, Real, Part, IsExchange, Region;
    MateIsPartners(w, id);
    var s := StepOf(w, id);
    if s >= w.l {
      assert Level(w, s) == 2 * w.l - 1 - s;
      PartnerBound(RoleOf(w, id), Level(w, s), 2 * w.l - s);
    }
  }

  lemma HopMate(w: Setup, root: nat, id: Id)
    requires Rooted(w, root) && IsHop(w, root, id)
    ensures IsHop(w, root, Mate(id)) && HopRegion(w, Mate(id)) == HopRegion(w, id)
    ensures id.rank < w.n && id.partner < w.n && id.rank != id.partner
  {
  }

  lemma ExchangeShape(w: Setup, id: Id)
    requires Ok(w) && IsExchange(w, id)
    ensures IsExchange(w, Mate(id)) && Mate(id).kind.Recv? == id.kind.Send?
    ensures id.rank < w.n && id.partner < w.n && id.rank != id.partner
    ensures var a := ExchangeAction(w, id);
            && (id.kind.Send? || id.kind.Recv?)
            && a.nelems == ExchangeAction(w, Mate(id)).nelems
            && a.offset == ExchangeAction(w, Mate(id)).offset
            && a.offset + a.nelems <= w.nelems
            && (id.kind.Send? ==> a.mode == SendInPlace)
            && (id.kind.Recv? ==> a.mode == if StepOf(w, id) < w.l then RecvReduce else RecvInPlace)
  {
    hide Partner, Real, Part;
    MateIsPartners(w, id);
  }

  lemma ActionSound(w: Setup, root: nat, cfg: Config, id: Id)
    requires Rooted(w, root) && id in Prog(w, root, cfg).acts
    ensures SoundAction(Prog(w, root, cfg), id)
  {
    hide Prog, IsExchange, ExchangeAction, Takes, HopRegion;
    Members(w, root, cfg, id);
    Members(w, root, cfg, Mate(id));
    Layout(w, root, cfg);
    if IsTaken(w, root, id) {
      MateTaken(w, root, id);
      ExchangeShape(w, id);
    } else if IsHop(w, root, id) {
      HopMate(w, root, id);
      HopInside(w, id);
      NotBoth(w, root, id);
      NotBoth(w, root, Mate(id));
    }
  }

  lemma HopInside(w: Setup, id: Id)
    ensures HopRegion(w, id).off + HopRegion(w, id).len <= w.nelems
  {
  }

  lemma ProgSound(w: Setup, root: nat, cfg: Config)
    requires Rooted(w, root)
    ensures Sound(Prog(w, root, cfg))
  {
    hide Has, SoundAction;
    forall id | id in Prog(w, root, cfg).acts ensures SoundAction(Prog(w, root, cfg), id) {
      ActionSound(w, root, cfg, id);
    }
  }

  lemma TakenWhen(w: Setup, root: nat, id: Id)
    requires Rooted(w, root) && IsTaken(w, root, id)
    ensures When(w, root, id) == StepOf(w, id) < w.l + Mirrors(w, root) <= 2 * w.l && !id.kind.Join?
  {
    NotBoth(w, root, id);
    ExchangeShape(w, id);
  }

  lemma EdgeTimed(w: Setup, root: nat, a: Id, b: Id)
    requires Rooted(w, root) && Has(w, root, a) && Has(w, root, b) && Edge(w, root, a, b)
    ensures When(w, root, a) < When(w, root, b)
  {
    hide IsExchange, Takes, Skipped;
    if IsTaken(w, root, a) {
      TakenWhen(w, root, a);
    }
    if IsTaken(w, root, b) {
      TakenWhen(w, root, b);
    }
  }

  lemma MateTimed(w: Setup, root: nat, id: Id)
    requires Rooted(w, root) && Has(w, root, id) && id.kind.Send?
    ensures When(w, root, Mate(id)) == When(w, root, id)
  {
    hide IsExchange, Takes;
    if IsTaken(w, root, id) {
      MateTaken(w, root, id);
      TakenWhen(w, root, id);
      TakenWhen(w, root, Mate(id));
    } else {
      HopMate(w, root, id);
    }
  }

  lemma ProgTimed(w: Setup, root: nat, cfg: Config)
    requires Rooted(w, root)
    ensures Timed(Prog(w, root, cfg), Plan(w, root))
  {
    hide Has, Edge, When;
    var p := Prog(w, root, cfg);
    forall a, b | (a, b) in p.edges ensures Plan(w, root).when(a) < Plan(w, root).when(b) {
      EdgeTimed(w, root, a, b);
    }
    forall id | IsTransfer(p, id) ensures Plan(w, root).when(Mate(id)) == Plan(w, root).when(id) {
      MateTimed(w, root, id);
    }
  }

  /**
   * The schedules match, drop-outs and the last hop included: every send has
   * its receive in the same round, with the same offset, length and protocol,
   * each naming the other's rank, and every receive its send.
   */
  lemma ScheduleMatches(w: Setup, root: nat, cfg: Config, id: Id)
    requires Rooted(w, root) && id in Prog(w, root, cfg).acts && !id.kind.Join?
    ensures var p := Prog(w, root, cfg);
            var m := Mate(id);
            && m in p.acts && m.kind != id.kind && m.rank == id.partner && m.partner == id.rank && m.round == id.round
            && Mate(m) == id && id.rank != id.partner
            && p.acts[m].offset == p.acts[id].offset && p.acts[m].nelems == p.acts[id].nelems
            && Proto(p, m) == Proto(p, id)
  {
    hide Prog, IsExchange, ExchangeAction, Takes, HopRegion;
    Members(w, root, cfg, id);
    Members(w, root, cfg, Mate(id));
    NotBoth(w, root, id);
    NotBoth(w, root, Mate(id));
    if IsTaken(w, root, id) {
      MateTaken(w, root, id);
      ExchangeShape(w, id);
    } else {
      HopMate(w, root, id);
    }
  }

  // ---------------------------------------------------------------- order and races

  /** The last exchange of role `v` from step `s` on. */
  function Top(w: Setup, root: nat, v: nat, s: nat): (last: nat)
    requires w.l >= 1
    ensures last >= s
    decreases 2 * w.l - s
  {
    if GoesOn(w, root, v, s) then Top(w, root, v, s + 1) else s
  }

  lemma {:induction false} TopTaken(w: Setup, root: nat, v: nat, s: nat)
    requires Rooted(w, root) && v < Pow2(w.l) && s < 2 * w.l && Takes(w, root, v, s) && !Skipped(w, v, s)
    ensures var last := Top(w, root, v, s);
            last < 2 * w.l && Takes(w, root, v, last) && !Skipped(w, v, last) && !GoesOn(w, root, v, last)
    decreases 2 * w.l - s
  {
    if GoesOn(w, root, v, s) {
      TopTaken(w, root, v, s + 1);
    }
  }

  lemma XidTaken(w: Setup, root: nat, v: nat, s: nat)
    requires Rooted(w, root) && v < Pow2(w.l) && s < 2 * w.l && Takes(w, root, v, s) && !Skipped(w, v, s)
    ensures var c := Xid(w, v, s, Send);
            IsTaken(w, root, c) && c.rank == Real(w.dual, v) && RoleOf(w, c) == v && StepOf(w, c) == s
  {
    hide Partner, Real;
    XidIsExchange(w, v, s, Send);
  }

  lemma IsXid(w: Setup, id: Id)
    requires IsExchange(w, id)
    ensures var v := RoleOf(w, id);
            var s := StepOf(w, id);
            && v < Pow2(w.l) && s < 2 * w.l && !Skipped(w, v, s)
            && id.rank == Real(w.dual, v) && id.partner == Real(w.dual, Partner(v, Level(w, s)))
            && ExchangeAction(w, id).offset == Region(w, v, s, id.kind).off
            && ExchangeAction(w, id).nelems == Region(w, v, s, id.kind).len
  {
  }

  /** Takes is downward closed along a role's steps. */
  lemma TakesEarlier(w: Setup, root: nat, v: nat, s: nat)
    requires Rooted(w, root) && s + 1 < 2 * w.l && v < Pow2(w.l) && Takes(w, root, v, s + 1)
    ensures Takes(w, root, v, s)
  {
    if s >= w.l {
      Pow2Mono(2 * w.l - s - 1, 2 * w.l - s);
    }
  }

  lemma ExchangeStepBack(w: Setup, root: nat, a: Id, b: Id) returns (c: Id)
    requires Rooted(w, root) && IsTaken(w, root, a) && IsTaken(w, root, b) && Ordered(w, root, a, b)
    ensures Has(w, root, c) && Edge(w, root, c, b) && (c == a || Ordered(w, root, a, c))
  {
    hide Partner, Real, Part, IsExchange, Takes;
    TakenWhen(w, root, a);
    TakenWhen(w, root, b);
    NotBoth(w, root, b);
    if StepOf(w, a) + 1 == StepOf(w, b) {
      c := a;
    } else {
      IsXid(w, a);
      IsXid(w, b);
      var s := StepOf(w, b) - 1;
      TakesEarlier(w, root, RoleOf(w, b), s);
      XidTaken(w, root, RoleOf(w, b), s);
      c := Xid(w, RoleOf(w, b), s, Send);
      TakenWhen(w, root, c);
    }
  }

  lemma JoinStepBack(w: Setup, root: nat, a: Id, b: Id) returns (c: Id)
    requires Rooted(w, root) && IsTaken(w, root, a) && IsJoin(w, b) && a.rank == b.rank
    ensures Has(w, root, c) && Edge(w, root, c, b) && (c == a || Ordered(w, root, a, c))
  {
    hide Partner, Real, Part, IsExchange, Takes, GoesOn;
    TakenWhen(w, root, a);
    NotBoth(w, root, b);
    IsXid(w, a);
    var v := RoleOf(w, a);
    TopTaken(w, root, v, StepOf(w, a));
    var last := Top(w, root, v, StepOf(w, a));
    if last == StepOf(w, a) {
      c := a;
    } else {
      XidTaken(w, root, v, last);
      c := Xid(w, v, last, Send);
      TakenWhen(w, root, c);
    }
  }

  lemma HopStepBack(w: Setup, root: nat, a: Id, b: Id) returns (c: Id)
    requires Rooted(w, root) && Has(w, root, a) && IsHop(w, root, b) && Ordered(w, root, a, b)
    ensures Has(w, root, c) && Edge(w, root, c, b) && (c == a || Ordered(w, root, a, c))
  {
    hide IsExchange, Takes;
    HopMate(w, root, b);
    c := Id(b.rank, Join, 0, 0);
    NotBoth(w, root, c);
    if IsTaken(w, root, a) {
      TakenWhen(w, root, a);
    }
  }

  lemma StepBack(w: Setup, root: nat, cfg: Config, a: Id, b: Id) returns (c: Id)
    requires Rooted(w, root) && Has(w, root, a) && Has(w, root, b) && Ordered(w, root, a, b)
    ensures LastStep(Prog(w, root, cfg), Plan(w, root), a, b, c)
  {
    hide IsExchange, Takes, Edge;
    if IsTaken(w, root, a) {
      TakenWhen(w, root, a);
    }
    if IsTaken(w, root, b) {
      TakenWhen(w, root, b);
      c := ExchangeStepBack(w, root, a, b);
    } else if IsJoin(w, b) {
      c := JoinStepBack(w, root, a, b);
    } else {
      c := HopStepBack(w, root, a, b);
    }
    Members(w, root, cfg, b);
    Members(w, root, cfg, c);
  }

  lemma ProgBacked(w: Setup, root: nat, cfg: Config)
    requires Rooted(w, root)
    ensures Backed(Prog(w, root, cfg), Plan(w, root))
  {
    hide Has, LastStep, Prog;
    var p := Prog(w, root, cfg);
    var o := Plan(w, root);
    forall a, b | a in p.acts && b in p.acts && o.ord(a, b)
      ensures o.when(a) < o.when(b) && exists c :: LastStep(p, o, a, b, c)
    {
      Members(w, root, cfg, a);
      Members(w, root, cfg, b);
      var c := StepBack(w, root, cfg, a, b);
    }
  }

  /** What a member touches: its region, and for a combining receive the same scratch region. */
  lemma Footprint(w: Setup, root: nat, cfg: Config, id: Id, x: nat)
    requires Rooted(w, root) && id in Prog(w, root, cfg).acts && Has(w, root, id)
    ensures var p := Prog(w, root, cfg);
            var a := Act(w, root, id);
            && p.acts[id] == a
            && (Updates(p, id, x) ==> id.kind.Recv? && Span(x, a.offset, a.nelems) && x < w.nelems)
            && (Reads(p, id, x) ==> id.kind.Send? && Span(x, a.offset, a.nelems) && x < w.nelems)
            && (Lands(p, id, x) ==> id.kind.Recv? && a.mode.RecvReduce? && Span(x - w.nelems, a.offset, a.nelems)
                                    && x >= w.nelems)
            && (id.kind.Recv? && Span(x, a.offset, a.nelems) ==> Updates(p, id, x))
            && !id.kind.Shuffle?
  {
    hide IsExchange, Prog, Takes, ExchangeAction, HopRegion;
    Members(w, root, cfg, id);
    Layout(w, root, cfg);
    if IsTaken(w, root, id) {
      ExchangeShape(w, id);
    } else {
      HopInside(w, id);
    }
  }

  lemma TakenClash(w: Setup, root: nat, a: Id, b: Id, y: int)
    requires Rooted(w, root) && IsTaken(w, root, a) && IsTaken(w, root, b) && a != b && a.rank == b.rank
    requires Span(y, ExchangeAction(w, a).offset, ExchangeAction(w, a).nelems)
    requires Span(y, ExchangeAction(w, b).offset, ExchangeAction(w, b).nelems)
    ensures Ordered(w, root, a, b) || Ordered(w, root, b, a)
  {
    hide IsExchange, Takes, ExchangeAction, Region;
    IsXid(w, a);
    IsXid(w, b);
    TakenWhen(w, root, a);
    TakenWhen(w, root, b);
    RegionsApart(w, a, b, y);
  }

  lemma HopsApart(w: Setup, root: nat, a: Id, b: Id, y: int)
    requires Rooted(w, root) && IsHop(w, root, a) && IsHop(w, root, b) && a != b && a.rank == b.rank
    ensures !(Span(y, HopAction(w, a).offset, HopAction(w, a).nelems)
              && Span(y, HopAction(w, b).offset, HopAction(w, b).nelems))
  {
  }

  lemma ClashOrdered(w: Setup, root: nat, cfg: Config, a: Id, b: Id, x: nat)
    requires Rooted(w, root) && Has(w, root, a) && Has(w, root, b) && a != b && a.rank == b.rank
    requires a in Prog(w, root, cfg).acts && b in Prog(w, root, cfg).acts && Clash(Prog(w, root, cfg), a, b, x)
    ensures Ordered(w, root, a, b) || Ordered(w, root, b, a)
  {
    hide IsExchange, Prog, Takes, Updates, Reads, Lands, ExchangeAction, HopAction;
    Footprint(w, root, cfg, a, x);
    Footprint(w, root, cfg, b, x);
    var y := if x < w.nelems then x else x - w.nelems;
    NotBoth(w, root, a);
    NotBoth(w, root, b);
    if IsTaken(w, root, a) && IsTaken(w, root, b) {
      TakenClash(w, root, a, b, y);
    } else if IsTaken(w, root, a) {
      TakenWhen(w, root, a);
    } else if IsTaken(w, root, b) {
      TakenWhen(w, root, b);
    } else if IsHop(w, root, a) && IsHop(w, root, b) {
      HopsApart(w, root, a, b, y);
    }
  }

  lemma ProgRaceFree(w: Setup, root: nat, cfg: Config)
    requires Rooted(w, root)
    ensures RaceFree(Prog(w, root, cfg), Plan(w, root))
  {
    hide Has, Clash, Prog, Ordered;
    var p := Prog(w, root, cfg);
    forall a, b, x | a in p.acts && b in p.acts && a != b && a.rank == b.rank && Clash(p, a, b, x)
      ensures Plan(w, root).ord(a, b) || Plan(w, root).ord(b, a)
    {
      Members(w, root, cfg, a);
      Members(w, root, cfg, b);
      ClashOrdered(w, root, cfg, a, b, x);
    }
  }

  // ---------------------------------------------------------------- what is computed

  predicate CompleteAt(w: Setup, v: nat, t: nat, x: nat)
    requires w.l <= t <= 2 * w.l
  {
    Part(w.nelems, v, w.l).Has(x) || (v < Pow2(2 * w.l - t + 1) && Part(w.nelems, v, 2 * w.l - t).Has(x))
  }

  /** What a role predicts for elements it owns. */
  lemma KeptOwn(w: Setup, root: nat, t: nat, v: nat, x: nat)
    requires Rooted(w, root) && v < Pow2(w.l) && x < w.nelems && Owner(w, Real(w.dual, v), x) == v
    requires !Stale(w, root, Real(w.dual, v), x) && t <= w.l + Mirrors(w, root)
    ensures t <= w.l && Part(w.nelems, v, t).Has(x) ==>
              Kept(w, root, t, Real(w.dual, v), x) == Some(Held(w.dual, v, t, x))
    ensures w.l <= t && CompleteAt(w, v, t, x) ==> Kept(w, root, t, Real(w.dual, v), x) == Some(Sum(x, 0, w.n))
    ensures w.l < t && !CompleteAt(w, v, t, x) ==> Kept(w, root, t, Real(w.dual, v), x) == None
    ensures t <= w.l && !Part(w.nelems, v, t).Has(x) ==> Kept(w, root, t, Real(w.dual, v), x) == None
  {
    hide Real, Part, Owner, Held, Sum, Pow2;
    HeldAll(w.n, w.l, w.dual, v, x);
  }

  lemma KeptLate(w: Setup, root: nat, t: nat, r: nat, x: nat)
    requires Rooted(w, root) && w.l + Mirrors(w, root) <= t
    ensures Kept(w, root, t, r, x) == Kept(w, root, w.l + Mirrors(w, root), r, x)
  {
  }

  lemma KeptFirst(w: Setup, root: nat, r: nat, x: nat)
    requires Rooted(w, root) && r < w.n && x < w.nelems
    ensures Kept(w, root, 0, r, x) == Some(multiset{Token(r, x)})
  {
    hide Owner;
    var v := Owner(w, r, x);
    OwnerHalf(w, r, x);
    assert Part(w.nelems, v, 0) == Piece(0, w.nelems);
    assert First(v, 0) == v && Last(v, 0) == v;
    assert Sum(x, r, r) == multiset{};
    assert Sum(x, r, r + 1) == multiset{Token(r, x)};
  }

  lemma HeldFirst(w: Setup, v: nat, x: nat)
    ensures Held(w.dual, v, 0, x) == multiset{Token(Real(w.dual, v), x)}
  {
    var r := Real(w.dual, v);
    assert First(v, 0) == v && Last(v, 0) == v;
    assert Sum(x, r, r) == multiset{};
    assert Sum(x, r, r + 1) == multiset{Token(r, x)};
  }

  /** The stale half of rank 1 is outside everything its role works on. */
  lemma StaleOutside(w: Setup, root: nat, v: nat, x: nat)
    requires Rooted(w, root) && v < Pow2(w.l) && Stale(w, root, Real(w.dual, v), x)
    ensures v == 2 && !Part(w.nelems, v, 1).Has(x)
  {
    assert Part(w.nelems, v, 0) == Piece(0, w.nelems);
  }

  lemma ShrinkUnchanged(w: Setup, root: nat, v: nat, x: nat, t: nat)
    requires Rooted(w, root) && v < Pow2(w.l) && x < w.nelems && Owner(w, Real(w.dual, v), x) == v && t < w.l
    requires !Stale(w, root, Real(w.dual, v), x)
    requires Kept(w, root, t + 1, Real(w.dual, v), x).Some?
    requires !Skipped(w, v, t) ==> !Region(w, v, t, Recv).Has(x)
    ensures Kept(w, root, t, Real(w.dual, v), x) == Kept(w, root, t + 1, Real(w.dual, v), x)
  {
    hide Real, Part, Owner, Held, Sum, Partner, Kept;
    KeptOwn(w, root, t, v, x);
    KeptOwn(w, root, t + 1, v, x);
    HeldAll(w.n, w.l, w.dual, v, x);
    PartSplit(w.nelems, v, t, x);
    HeldSkips(w.dual, v, x);
  }

  lemma GrowUnchanged(w: Setup, root: nat, v: nat, x: nat, t: nat)
    requires Rooted(w, root) && v < Pow2(w.l) && x < w.nelems && Owner(w, Real(w.dual, v), x) == v
    requires w.l <= t < w.l + Mirrors(w, root) && !Stale(w, root, Real(w.dual, v), x)
    requires v < 2 * w.dual ==> Part(w.nelems, v, 1).Has(x)
    requires Kept(w, root, t + 1, Real(w.dual, v), x).Some?
    requires Takes(w, root, v, t) && !Skipped(w, v, t) ==> !Region(w, v, t, Recv).Has(x)
    ensures Kept(w, root, t, Real(w.dual, v), x) == Kept(w, root, t + 1, Real(w.dual, v), x)
  {
    hide Real, Part, Owner, Held, Sum, Partner, Kept, Pow2;
    KeptOwn(w, root, t, v, x);
    KeptOwn(w, root, t + 1, v, x);
    if !Part(w.nelems, v, w.l).Has(x) {
      assert v < Pow2(2 * w.l - t) && Part(w.nelems, v, 2 * w.l - 1 - t).Has(x);
      PartSplit(w.nelems, v, 2 * w.l - 1 - t, x);
      Pow2Mono(2 * w.l - t, 2 * w.l - t + 1);
    }
  }

  lemma KeptUnchanged(w: Setup, root: nat, r: nat, x: nat, t: nat)
    requires Rooted(w, root) && r < w.n && x < w.nelems
    requires Kept(w, root, t + 1, r, x).Some?
    requires var v := Owner(w, r, x);
             t < 2 * w.l && Takes(w, root, v, t) && !Skipped(w, v, t) ==> !Region(w, v, t, Recv).Has(x)
    ensures Kept(w, root, t, r, x) == Kept(w, root, t + 1, r, x)
  {
    hide Real, Part, Owner, Region, Pow2, Partner;
    if Stale(w, root, r, x) {
      return;
    }
    OwnerHalf(w, r, x);
    var last := w.l + Mirrors(w, root);
    if t < w.l {
      ShrinkUnchanged(w, root, Owner(w, r, x), x, t);
    } else if t < last {
      GrowUnchanged(w, root, Owner(w, r, x), x, t);
    }
  }

  /** Root 0 ends up with everything. */
  lemma ZeroKeeps(w: Setup, root: nat, x: nat)
    requires Rooted(w, root) && root == 0 && x < w.nelems
    ensures Kept(w, root, 2 * w.l + 1, 0, x) == Some(Sum(x, 0, w.n))
  {
    hide Real, Owner, Sum, Kept;
    var v := Owner(w, 0, x);
    OwnerHalf(w, 0, x);
    KeptLate(w, root, 2 * w.l + 1, 0, x);
    assert Part(w.nelems, v, 0) == Piece(0, w.nelems);
    assert v < 2 by { SmallOwners(w, 0, x); }
    assert Pow2(1) == 2 * Pow2(0);
    KeptOwn(w, root, 2 * w.l, v, x);
  }

  lemma SmallOwners(w: Setup, r: nat, x: nat)
    requires Ok(w) && r <= 1 && x < w.nelems
    ensures r == 0 ==> Owner(w, r, x) < 2
    ensures Owner(w, r, x) < 4
  {
  }

  /** Before the hop, rank 0 holds the lower half and rank 1 the upper half, stale or complete. */
  lemma HalvesKept(w: Setup, root: nat, r: nat, x: nat)
    requires Rooted(w, root) && root != 0 && r <= 1 && x < w.nelems
    requires r == 0 <==> x < w.nelems - w.nelems / 2
    ensures Kept(w, root, 2 * w.l + 1, r, x) == Some(Final(w, root, x))
  {
    hide Real, Sum, Kept;
    KeptLate(w, root, 2 * w.l + 1, r, x);
    if Stale(w, root, r, x) {
      StaleKept(w, root, 2 * w.l - 1, r, x);
      return;
    }
    var v := Owner(w, r, x);
    OwnerHalf(w, r, x);
    SmallOwners(w, r, x);
    assert Part(w.nelems, v, 0) == Piece(0, w.nelems);
    assert Part(w.nelems, v, 1).Has(x);
    assert Pow2(1) == 2 * Pow2(0) && Pow2(2) == 2 * Pow2(1);
    KeptOwn(w, root, 2 * w.l - 1, v, x);
  }

  lemma StaleKept(w: Setup, root: nat, t: nat, r: nat, x: nat)
    requires Rooted(w, root) && Stale(w, root, r, x)
    ensures Kept(w, root, t, r, x) == Some(multiset{Token(1, x)})
  {
  }

  /** A recorded exchange or hop that updates `x` contradicts idleness. */
  lemma TakenUpdates(w: Setup, root: nat, cfg: Config, r: nat, x: nat, t: nat)
    requires Rooted(w, root) && r < w.n && x < w.nelems && t < 2 * w.l
    requires var v := Owner(w, r, x);
             Takes(w, root, v, t) && !Skipped(w, v, t) && Region(w, v, t, Recv).Has(x)
    ensures !Idle(Prog(w, root, cfg), Plan(w, root), t, r, x)
  {
    hide Partner, Part, IsExchange, Prog, Owner, Updates, Takes, Real;
    var v := Owner(w, r, x);
    OwnerHalf(w, r, x);
    var id := Xid(w, v, t, Recv);
    XidIsExchange(w, v, t, Recv);
    IsXid(w, id);
    Members(w, root, cfg, id);
    Footprint(w, root, cfg, id, x);
    TakenWhen(w, root, id);
    assert id.rank == r && Updates(Prog(w, root, cfg), id, x) && Plan(w, root).when(id) == t;
  }

  lemma HopUpdates(w: Setup, root: nat, cfg: Config, sender: nat, x: nat)
    requires Rooted(w, root) && root != 0 && sender <= 1 && sender != root && x < w.nelems
    requires sender == 0 <==> x < w.nelems - w.nelems / 2
    ensures !Idle(Prog(w, root, cfg), Plan(w, root), 2 * w.l + 1, root, x)
  {
    hide IsExchange, Prog, Updates, Takes;
    var id := Id(root, Recv, 4 * w.l - 1, sender);
    NotBoth(w, root, id);
    Members(w, root, cfg, id);
    Footprint(w, root, cfg, id, x);
    assert Updates(Prog(w, root, cfg), id, x) && Plan(w, root).when(id) == 2 * w.l + 1;
  }

  lemma FramedAt(w: Setup, root: nat, cfg: Config, t: nat, r: nat, x: nat)
    requires Rooted(w, root) && r < w.n
    requires Idle(Prog(w, root, cfg), Plan(w, root), t, r, x) && Predicted(w, root, t + 1, r, x).Some?
    ensures Predicted(w, root, t, r, x) == Predicted(w, root, t + 1, r, x)
  {
    hide Prog, Idle, Region, Owner, Skipped, Kept, Takes;
    if t <= 2 * w.l {
      var v := Owner(w, r, x);
      if t < 2 * w.l && Takes(w, root, v, t) && !Skipped(w, v, t) && Region(w, v, t, Recv).Has(x) {
        TakenUpdates(w, root, cfg, r, x, t);
      }
      KeptUnchanged(w, root, r, x, t);
    } else if root == 0 {
      ZeroKeeps(w, root, x);
    } else if x < w.nelems - w.nelems / 2 {
      HopUpdates(w, root, cfg, 0, x);
    } else if root == 1 {
      HalvesKept(w, root, 1, x);
    } else {
      HopUpdates(w, root, cfg, 1, x);
    }
  }

  lemma ExchangeExplained(w: Setup, root: nat, v: nat, s: nat, x: nat)
    requires Rooted(w, root) && v < Pow2(w.l) && s < 2 * w.l && !Skipped(w, v, s) && Takes(w, root, v, s)
    requires Takes(w, root, Partner(v, Level(w, s)), s)
    requires x < w.nelems && Region(w, v, s, Send).Has(x)
    ensures var u := Partner(v, Level(w, s));
            var sent := Kept(w, root, s, Real(w.dual, v), x);
            var before := Kept(w, root, s, Real(w.dual, u), x);
            var after := Kept(w, root, s + 1, Real(w.dual, u), x);
            && sent.Some?
            && (s < w.l ==> before.Some? && after == Some(before.value + sent.value))
            && (s >= w.l ==> after == sent)
  {
    hide Real, Part, Owner, Held, Sum, Partner, Kept, Pow2, CompleteAt;
    var i := Level(w, s);
    var u := Partner(v, i);
    OwnersMeet(w, v, s, Send, x);
    PartnerBack(v, i);
    PartnerBound(v, i, w.l);
    PartnersApart(w.dual, v, i);
    ReceiverFresh(w, root, v, s, x);
    KeptOwn(w, root, s + 1, u, x);
    if s == 0 {
      RealBound(w.n, w.l, w.dual, v);
      RealBound(w.n, w.l, w.dual, u);
      KeptFirst(w, root, Real(w.dual, v), x);
      KeptFirst(w, root, Real(w.dual, u), x);
      HeldFirst(w, v, x);
      HeldFirst(w, u, x);
      HeldJoins(w.dual, u, s, x);
    } else {
      SenderFresh(w, root, v, s, x);
      KeptOwn(w, root, s, v, x);
      KeptOwn(w, root, s, u, x);
      if s < w.l {
        HeldJoins(w.dual, u, s, x);
      } else {
        CompleteForMirror(w, root, v, u, s, x);
      }
    }
  }

  lemma CompleteForMirror(w: Setup, root: nat, v: nat, u: nat, s: nat, x: nat)
    requires w.l >= 1 && w.l <= s < 2 * w.l && v < Pow2(2 * w.l - s) && u < Pow2(2 * w.l - s)
    requires Part(w.nelems, v, 2 * w.l - s).Has(x) && Part(w.nelems, u, 2 * w.l - s - 1).Has(x)
    ensures CompleteAt(w, v, s, x) && CompleteAt(w, u, s + 1, x)
  {
    hide Part, Pow2;
    Pow2Mono(2 * w.l - s, 2 * w.l - s + 1);
  }

  /** No exchange delivers into the stale half. */
  lemma ReceiverFresh(w: Setup, root: nat, v: nat, s: nat, x: nat)
    requires Rooted(w, root) && v < Pow2(w.l) && s < 2 * w.l && !Skipped(w, v, s) && Takes(w, root, v, s)
    requires x < w.nelems && Region(w, v, s, Send).Has(x)
    ensures !Stale(w, root, Real(w.dual, Partner(v, Level(w, s))), x)
  {
    hide Real, Owner, Pow2, Part, Partner;
    var i := Level(w, s);
    var u := Partner(v, i);
    PartnerBound(v, i, w.l);
    if Stale(w, root, Real(w.dual, u), x) {
      StaleOutside(w, root, u, x);
      OwnersMeet(w, v, s, Send, x);
      if i > 0 {
        PartNested(w.nelems, u, 1, i, x);
      }
    }
  }

  lemma SenderFresh(w: Setup, root: nat, v: nat, s: nat, x: nat)
    requires Rooted(w, root) && v < Pow2(w.l) && 0 < s < 2 * w.l && !Skipped(w, v, s) && Takes(w, root, v, s)
    requires x < w.nelems && Region(w, v, s, Send).Has(x)
    ensures !Stale(w, root, Real(w.dual, v), x)
  {
    hide Real, Owner, Pow2, Part, Partner;
    if Stale(w, root, Real(w.dual, v), x) {
      StaleOutside(w, root, v, x);
      RegionInPart(w, v, s, Send, x);
      if Level(w, s) > 0 {
        PartNested(w.nelems, v, 1, Level(w, s), x);
      }
    }
  }

  lemma TakenExplained(w: Setup, root: nat, cfg: Config, id: Id, i: nat)
    requires Rooted(w, root) && IsTaken(w, root, id) && id.kind.Send?
    requires id in Prog(w, root, cfg).acts && Near(Prog(w, root, cfg), id) && i < Prog(w, root, cfg).acts[id].nelems
    ensures RecvExplained(Prog(w, root, cfg), Plan(w, root), id, i)
  {
    hide Prog, IsExchange, Kept, Partner, Part, Real, Takes;
    MateTaken(w, root, id);
    Members(w, root, cfg, id);
    Members(w, root, cfg, Mate(id));
    MateIsPartners(w, id);
    Layout(w, root, cfg);
    ExchangeShape(w, id);
    TakenWhen(w, root, id);
    TakenWhen(w, root, Mate(id));
    IsXid(w, id);
    ExchangeExplained(w, root, RoleOf(w, id), StepOf(w, id), ExchangeAction(w, id).offset + i);
  }

  lemma HopExplained(w: Setup, root: nat, cfg: Config, id: Id, i: nat)
    requires Rooted(w, root) && IsHop(w, root, id) && id.kind.Send?
    requires id in Prog(w, root, cfg).acts && Near(Prog(w, root, cfg), id) && i < Prog(w, root, cfg).acts[id].nelems
    ensures RecvExplained(Prog(w, root, cfg), Plan(w, root), id, i)
  {
    hide Prog, IsExchange, Kept, Takes;
    HopMate(w, root, id);
    NotBoth(w, root, id);
    NotBoth(w, root, Mate(id));
    Members(w, root, cfg, id);
    Members(w, root, cfg, Mate(id));
    Layout(w, root, cfg);
    HopInside(w, id);
    var x := HopRegion(w, id).off + i;
    HalvesKept(w, root, id.rank, x);
  }

  lemma PlanValid(w: Setup, root: nat, cfg: Config)
    requires Rooted(w, root)
    ensures Valid(Prog(w, root, cfg), Plan(w, root))
  {
    var p := Prog(w, root, cfg);
    var o := Plan(w, root);
    hide Prog, RecvExplained, Sound, Timed, Backed, RaceFree, Idle, IsExchange, Lands, Predicted, IsTaken;
    ProgSound(w, root, cfg);
    ProgTimed(w, root, cfg);
    ProgBacked(w, root, cfg);
    ProgRaceFree(w, root, cfg);
    Layout(w, root, cfg);
    forall t: nat, r: nat, x: nat | r < p.n && x < p.size && Idle(p, o, t, r, x) && o.val(t + 1, r, x).Some?
      ensures o.val(t, r, x) == o.val(t + 1, r, x)
    {
      FramedAt(w, root, cfg, t, r, x);
    }
    forall id, i: nat | IsTransfer(p, id) && i < p.acts[id].nelems
      ensures Near(p, id) && RecvExplained(p, o, id, i)
    {
      SoundNear(p, id);
      Members(w, root, cfg, id);
      if IsTaken(w, root, id) {
        TakenExplained(w, root, cfg, id, i);
      } else {
        HopExplained(w, root, cfg, id, i);
      }
    }
    forall id, x, t | id in p.acts && Lands(p, id, x) ensures o.val(t, id.rank, x) == None {
      Members(w, root, cfg, id);
      Footprint(w, root, cfg, id, x);
      NothingBeyond(w, root, t, id.rank, x);
    }
    forall id | id in p.acts ensures !id.kind.Shuffle? {
      Members(w, root, cfg, id);
      Footprint(w, root, cfg, id, 0);
    }
  }

  lemma NothingBeyond(w: Setup, root: nat, t: nat, r: nat, x: nat)
    requires w.l >= 1 && x >= w.nelems
    ensures Predicted(w, root, t, r, x) == None
  {
  }

  // ---------------------------------------------------------------- the theorem

  ghost predicate Inputs(w: Setup, mem: seq<seq<Val>>) {
    && |mem| == w.n
    && (forall r | 0 <= r < w.n :: |mem[r]| == 2 * w.nelems)
    && (forall r, x | 0 <= r < w.n && 0 <= x < w.nelems :: mem[r][x] == multiset{Token(r, x)})
  }

  lemma InputsBegin(w: Setup, root: nat, cfg: Config, mem: seq<seq<Val>>)
    requires Rooted(w, root) && Inputs(w, mem)
    ensures Begins(Prog(w, root, cfg), Plan(w, root), mem)
  {
    hide Prog, Kept;
    Layout(w, root, cfg);
    forall r: nat, x: nat | r < w.n && x < w.nelems
      ensures Predicted(w, root, 0, r, x) == Some(multiset{Token(r, x)})
    {
      KeptFirst(w, root, r, x);
    }
  }

  lemma WhenBelow(w: Setup, root: nat, cfg: Config)
    requires Rooted(w, root)
    ensures forall id | id in Prog(w, root, cfg).acts :: Plan(w, root).when(id) < 2 * w.l + 2
  {
    hide IsExchange, Takes, Prog;
    forall id | id in Prog(w, root, cfg).acts ensures Plan(w, root).when(id) < 2 * w.l + 2 {
      Members(w, root, cfg, id);
      if IsTaken(w, root, id) {
        TakenWhen(w, root, id);
      }
    }
  }

  /** The root's buffer, for every run: what each element holds once the root's actions are done. */
  lemma ReduceOutcome(w: Setup, root: nat, cfg: Config, mem: seq<seq<Val>>, es: seq<Event>)
    requires Rooted(w, root) && Inputs(w, mem) && Execution(Prog(w, root, cfg), mem, es)
    ensures Healthy(Prog(w, root, cfg), mem, es)
    ensures var t := Outcome(Prog(w, root, cfg), mem, es);
            RankDone(Prog(w, root, cfg), t, root) ==>
              forall x | 0 <= x < w.nelems :: t.mem[root][x] == Final(w, root, x)
  {
    var p := Prog(w, root, cfg);
    hide Prog, Valid, Inputs, Execution, Outcome, Healthy, RankDone, Final;
    PlanValid(w, root, cfg);
    InputsBegin(w, root, cfg, mem);
    EveryRun(p, Plan(w, root), mem, es);
    Layout(w, root, cfg);
    if RankDone(p, Outcome(p, mem, es), root) {
      forall x: nat | x < w.nelems
        ensures Outcome(p, mem, es).mem[root][x] == Final(w, root, x)
      {
        WhenBelow(w, root, cfg);
        FinalMemory(p, Plan(w, root), mem, es, root, x, 2 * w.l + 2);
      }
    }
  }

  /** Every element of the root's buffer combines all ranks' inputs, each exactly once. */
  ghost predicate Reduced(w: Setup, m: seq<Val>)
    requires |m| == 2 * w.nelems
  {
    forall x: nat | x < w.nelems :: m[x] == Sum(x, 0, w.n)
  }

  lemma StaleIsWrong(w: Setup, root: nat, x: nat)
    requires Rooted(w, root) && w.dual == 1 && root != 0 && w.nelems - w.nelems / 2 <= x < w.nelems
    ensures Final(w, root, x) != Sum(x, 0, w.n)
  {
    SumCounts(x, 0, w.n, Token(0, x));
    assert multiset{Token(1, x)}[Token(0, x)] == 0;
  }

  /**
   * When reduce meets its specification.  In every run that completes at the
   * root, the root holds the reduction if and only if the root is 0, or the
   * number of ranks is not one less than a power of two, or there is at most
   * one element.  Otherwise rank 1 sends a half it never worked on.
   */
  lemma ReduceCorrectIff(w: Setup, root: nat, cfg: Config, mem: seq<seq<Val>>, es: seq<Event>)
    requires Rooted(w, root) && Inputs(w, mem) && Execution(Prog(w, root, cfg), mem, es)
    requires RankDone(Prog(w, root, cfg), Outcome(Prog(w, root, cfg), mem, es), root)
    ensures Reduced(w, Outcome(Prog(w, root, cfg), mem, es).mem[root])
            <==> root == 0 || Pow2(w.l) != w.n + 1 || w.nelems <= 1
  {
    hide Prog, Inputs, Execution, Outcome, RankDone, Healthy, Sum;
    Layout(w, root, cfg);
    ReduceOutcome(w, root, cfg, mem, es);
    var m := Outcome(Prog(w, root, cfg), mem, es).mem[root];
    if root != 0 && w.dual == 1 && w.nelems > 1 {
      var x := w.nelems - 1;
      StaleIsWrong(w, root, x);
      assert m[x] != Sum(x, 0, w.n);
    }
  }

  /** Wherever the condition fails there is a run that completes and leaves the root with a wrong result. */
  lemma ReduceFails(w: Setup, root: nat, cfg: Config, mem: seq<seq<Val>>) returns (es: seq<Event>)
    requires Rooted(w, root) && Inputs(w, mem)
    requires root != 0 && Pow2(w.l) == w.n + 1 && w.nelems > 1
    ensures var p := Prog(w, root, cfg);
            && Execution(p, mem, es) && AllDone(p, Outcome(p, mem, es))
            && |Outcome(p, mem, es).mem| == w.n && |Outcome(p, mem, es).mem[root]| == 2 * w.nelems
            && !Reduced(w, Outcome(p, mem, es).mem[root])
  {
    hide Prog, Inputs, Execution, Outcome, Valid, Begins, Reduced;
    PlanValid(w, root, cfg);
    InputsBegin(w, root, cfg, mem);
    Layout(w, root, cfg);
    ValidIsTimed(Prog(w, root, cfg), Plan(w, root), mem);
    es := SomeRunCompletes(Prog(w, root, cfg), Plan(w, root), mem);
    ReduceCorrectIff(w, root, cfg, mem, es);
  }

  /** The smallest case: two elements on three ranks, to rank 1. */
  lemma ThreeRanksFail(cfg: Config) returns (w: Setup, mem: seq<seq<Val>>, es: seq<Event>)
    ensures w == Setup(3, 2, 1, 2) && Rooted(w, 1) && Inputs(w, mem)
    ensures var p := Prog(w, 1, cfg);
            && Execution(p, mem, es) && AllDone(p, Outcome(p, mem, es))
            && |Outcome(p, mem, es).mem| == 3 && |Outcome(p, mem, es).mem[1]| == 4
            && !Reduced(w, Outcome(p, mem, es).mem[1])
  {
    hide Prog, Execution, Outcome, Reduced;
    w := Setup(3, 2, 1, 2);
    assert Pow2(1) == 2 && Pow2(2) == 4;
    mem := seq(3, (r: nat) => seq(4, (x: nat) => multiset{Token(r, x)}));
    es := ReduceFails(w, 1, cfg, mem);
  }
}
