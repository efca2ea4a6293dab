/**
 * The exchanges shared by allreduce and reduce: steps 0..l-1 halve and combine,
 * steps l..2l-1 mirror them backwards.  A virtual rank and a step determine one
 * send and one receive; the round number tells the two roles of a rank apart.
 */
module Exchange {
  import opened Actions
  import opened Wilke

  /** `n` ranks as 2^l virtual ranks, `dual` of them in two roles, on `nelems` elements. */
  datatype Setup = Setup(n: nat, l: nat, dual: nat, nelems: nat)

  predicate Ok(w: Setup) {
    Shape(w.n, w.l, w.dual)
  }

  /** The halving round that a step performs or mirrors. */
  function Level(w: Setup, s: nat): nat
    requires s < 2 * w.l
  {
    if s < w.l then s else 2 * w.l - 1 - s
  }

  predicate Skipped(w: Setup, v: nat, s: nat)
    requires s < 2 * w.l
  {
    CoLocated(w.dual, v, Level(w, s))
  }

  function Round(w: Setup, v: nat, s: nat): nat
    requires s < 2 * w.l
  {
    if Level(w, s) == 0 || v % 2 == 0 then s else s + 2 * w.l
  }

  function Xid(w: Setup, v: nat, s: nat, kind: Kind): Id
    requires s < 2 * w.l
  {
    Id(Real(w.dual, v), kind, Round(w, v, s), Real(w.dual, Partner(v, Level(w, s))))
  }

  function Step(w: Setup, round: nat): nat {
    if round < 2 * w.l then round else round - 2 * w.l
  }

  function Role(w: Setup, rank: nat, round: nat): nat {
    if rank >= w.dual then rank + w.dual else 2 * rank + (if round >= 2 * w.l then 1 else 0)
  }

  function StepOf(w: Setup, id: Id): nat { Step(w, id.round) }

  function RoleOf(w: Setup, id: Id): nat { Role(w, id.rank, id.round) }

  predicate IsExchange(w: Setup, id: Id) {
    var s := StepOf(w, id);
    var v := RoleOf(w, id);
    && (id.kind.Send? || id.kind.Recv?)
    && s < 2 * w.l
    && v < Pow2(w.l)
    && !Skipped(w, v, s)
    && id == Xid(w, v, s, id.kind)
  }

  /** The elements a send reads or a receive writes. */
  function Region(w: Setup, v: nat, s: nat, kind: Kind): Piece
    requires s < 2 * w.l
  {
    var i := Level(w, s);
    if (s < w.l) == kind.Send? then Part(w.nelems, Partner(v, i), i + 1) else Part(w.nelems, v, i + 1)
  }

  function ExchangeAction(w: Setup, id: Id): Action
    requires IsExchange(w, id)
  {
    var s := StepOf(w, id);
    var q := Region(w, RoleOf(w, id), s, id.kind);
    var mode := if id.kind.Send? then SendInPlace else if s < w.l then RecvReduce else RecvInPlace;
    Action(mode, q.off, q.len, map[])
  }

  // ---------------------------------------------------------------- ids

  lemma VirtualToRealToVirtual(w: Setup, v: nat, s: nat)
    requires Ok(w) && v < Pow2(w.l) && s < 2 * w.l && !Skipped(w, v, s)
    ensures Step(w, Round(w, v, s)) == s
    ensures Role(w, Real(w.dual, v), Round(w, v, s)) == v
    ensures Round(w, v, s) < 4 * w.l
    ensures Real(w.dual, v) < w.n
  {
  }

  lemma XidIsExchange(w: Setup, v: nat, s: nat, kind: Kind)
    requires Ok(w) && v < Pow2(w.l) && s < 2 * w.l && !Skipped(w, v, s) && (kind.Send? || kind.Recv?)
    ensures var id := Xid(w, v, s, kind);
            && IsExchange(w, id) && RoleOf(w, id) == v && StepOf(w, id) == s
            && id.rank < w.n && id.partner < w.n && id.round < 4 * w.l && id.rank != id.partner
  {
    hide Partner, Real;
    VirtualToRealToVirtual(w, v, s);
    PartnersApart(w.dual, v, Level(w, s));
    PartnerBound(v, Level(w, s), w.l);
    RealBound(w.n, w.l, w.dual, Partner(v, Level(w, s)));
  }

  /** The other end of an exchange is the partner's exchange at the same step, over the same elements. */
  lemma MateIsPartners(w: Setup, id: Id)
    requires Ok(w) && IsExchange(w, id)
    ensures var v := RoleOf(w, id);
            var s := StepOf(w, id);
            var p := Partner(v, Level(w, s));
            && p < Pow2(w.l) && Partner(p, Level(w, s)) == v
            && !Skipped(w, p, s)
            && Mate(id) == Xid(w, p, s, if id.kind.Send? then Recv else Send)
            && IsExchange(w, Mate(id))
            && RoleOf(w, Mate(id)) == p && StepOf(w, Mate(id)) == s
            && Region(w, v, s, id.kind) == Region(w, p, s, Mate(id).kind)
            && id.rank < w.n && id.partner < w.n && id.round < 4 * w.l && id.rank != id.partner
  {
    hide Partner, Real, Part;
    var v := RoleOf(w, id);
    var s := StepOf(w, id);
    var i := Level(w, s);
    var p := Partner(v, i);
    XidIsExchange(w, v, s, id.kind);
    PartnerBack(v, i);
    PartnerBound(v, i, w.l);
    PartnersApart(w.dual, v, i);
    if i > 0 {
      PartnerHalf(v, i);
    }
    XidIsExchange(w, p, s, if id.kind.Send? then Recv else Send);
  }

  // ---------------------------------------------------------------- regions

  lemma RegionInPart(w: Setup, v: nat, s: nat, kind: Kind, x: int)
    requires s < 2 * w.l && Region(w, v, s, kind).Has(x)
    ensures Part(w.nelems, v, Level(w, s)).Has(x)
  {
    PartSplit(w.nelems, v, Level(w, s), x);
  }

  /** An exchange that is not co-located stays inside the half its role works on. */
  lemma RegionInHalf(w: Setup, v: nat, s: nat, kind: Kind, x: int)
    requires s < 2 * w.l && Region(w, v, s, kind).Has(x) && v < 2 * w.dual && !Skipped(w, v, s)
    ensures Part(w.nelems, v, 1).Has(x)
  {
    RegionInPart(w, v, s, kind, x);
    PartNested(w.nelems, v, 1, Level(w, s), x);
  }

  lemma HalvesApart(w: Setup, v: nat, u: nat, x: int)
    requires v % 2 != u % 2
    ensures !(Part(w.nelems, v, 1).Has(x) && Part(w.nelems, u, 1).Has(x))
  {
    assert Part(w.nelems, v, 0) == Part(w.nelems, u, 0);
  }

  /** Exchanges of one rank touching the same element have the same role and different steps. */
  lemma RegionsApart(w: Setup, a: Id, b: Id, x: int)
    requires Ok(w) && IsExchange(w, a) && IsExchange(w, b) && a != b && a.rank == b.rank
    requires Region(w, RoleOf(w, a), StepOf(w, a), a.kind).Has(x)
    requires Region(w, RoleOf(w, b), StepOf(w, b), b.kind).Has(x)
    ensures RoleOf(w, a) == RoleOf(w, b) && StepOf(w, a) != StepOf(w, b)
  {
    hide Part, Partner;
    var v := RoleOf(w, a);
    var u := RoleOf(w, b);
    if v != u {
      RegionInHalf(w, v, StepOf(w, a), a.kind, x);
      RegionInHalf(w, u, StepOf(w, b), b.kind, x);
      HalvesApart(w, v, u, x);
    } else if StepOf(w, a) == StepOf(w, b) {
      PartSplit(w.nelems, v, Level(w, StepOf(w, a)), x);
    }
  }

  // ---------------------------------------------------------------- owners

  /** The role in which rank `r` works on element `x`. */
  function Owner(w: Setup, r: nat, x: nat): nat {
    if r >= w.dual then r + w.dual
    else if x < w.nelems - w.nelems / 2 then 2 * r else 2 * r + 1
  }

  lemma OwnerOf(w: Setup, v: nat, x: nat)
    requires v >= 2 * w.dual || Part(w.nelems, v, 1).Has(x)
    ensures Owner(w, Real(w.dual, v), x) == v
  {
    assert Part(w.nelems, v, 0) == Piece(0, w.nelems);
  }

  lemma OwnerHalf(w: Setup, r: nat, x: nat)
    requires Ok(w) && r < w.n && x < w.nelems
    ensures var v := Owner(w, r, x);
            && v < Pow2(w.l) && Real(w.dual, v) == r
            && (v < 2 * w.dual ==> Part(w.nelems, v, 1).Has(x))
  {
    assert Part(w.nelems, Owner(w, r, x), 0) == Piece(0, w.nelems);
  }

  /** Both ends of an exchange own the elements they exchange. */
  lemma OwnersMeet(w: Setup, v: nat, s: nat, kind: Kind, x: nat)
    requires Ok(w) && v < Pow2(w.l) && s < 2 * w.l && !Skipped(w, v, s)
    requires Region(w, v, s, kind).Has(x)
    ensures Owner(w, Real(w.dual, v), x) == v
    ensures var p := Partner(v, Level(w, s)); Owner(w, Real(w.dual, p), x) == p
    ensures Part(w.nelems, v, Level(w, s)).Has(x) && Part(w.nelems, Partner(v, Level(w, s)), Level(w, s)).Has(x)
  {
    hide Part, Partner, Real, Owner;
    var i := Level(w, s);
    var p := Partner(v, i);
    RegionInPart(w, v, s, kind, x);
    PartShared(w.nelems, v, i, i);
    PartnersApart(w.dual, v, i);
    if i > 0 {
      PartNested(w.nelems, v, 1, i, x);
      PartShared(w.nelems, v, i, 1);
    }
    OwnerOf(w, v, x);
    OwnerOf(w, p, x);
  }
}
