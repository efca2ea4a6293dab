/**
 * Recursive halving and doubling on a virtualized rank count: who exchanges
 * which piece of the buffer with whom, and whose input a piece then holds.
 */
module Wilke {
  import opened Actions

  function Pow2(i: nat): (r: nat)
    ensures r >= 1
  {
    if i == 0 then 1 else 2 * Pow2(i - 1)
  }

  lemma {:induction false} Pow2Mono(i: nat, j: nat)
    requires i <= j
    ensures Pow2(i) <= Pow2(j)
    decreases j
  {
    if i < j {
      Pow2Mono(i, j - 1);
    }
  }

  /** `v` shifted right by `i` bits. */
  function Shr(v: nat, i: nat): nat {
    if i == 0 then v else Shr(v / 2, i - 1)
  }

  /** isLowerPartner with a partner gap of 2^i. */
  predicate Lower(v: nat, i: nat) {
    Shr(v, i) % 2 == 0
  }

  /** `v` with bit `i` flipped: the virtual partner at a gap of 2^i. */
  function Partner(v: nat, i: nat): nat {
    if i == 0 then (if v % 2 == 0 then v + 1 else v - 1)
    else 2 * Partner(v / 2, i - 1) + v % 2
  }

  lemma {:induction false} PartnerBack(v: nat, i: nat)
    ensures Partner(Partner(v, i), i) == v && Lower(Partner(v, i), i) == !Lower(v, i)
  {
    if i > 0 {
      PartnerBack(v / 2, i - 1);
    }
  }

  /** The two partners differ by 2^i, the lower one being the one `Lower` names. */
  lemma {:induction false} PartnerGap(v: nat, i: nat)
    ensures Partner(v, i) == if Lower(v, i) then v + Pow2(i) else v - Pow2(i)
  {
    if i > 0 {
      PartnerGap(v / 2, i - 1);
    }
  }

  lemma Pow2Step(l: nat)
    requires l > 0
    ensures Pow2(l) == 2 * Pow2(l - 1)
  {
  }

  lemma PartnerStep(v: nat, i: nat)
    ensures Partner(v, i) == if i > 0 then 2 * Partner(v / 2, i - 1) + v % 2 else if v % 2 == 0 then v + 1 else v - 1
    ensures i > 0 ==> Lower(v, i) == Lower(v / 2, i - 1)
  {
  }

  lemma {:induction false} PartnerBound(v: nat, i: nat, l: nat)
    requires i < l && v < Pow2(l)
    ensures Partner(v, i) < Pow2(l)
  {
    hide Pow2, Partner;
    Pow2Step(l);
    PartnerStep(v, i);
    if i > 0 {
      PartnerBound(v / 2, i - 1, l - 1);
    }
  }

  /** The partner agrees on every lower bit. */
  lemma {:induction false} PartnerLower(v: nat, i: nat, j: nat)
    requires j < i
    ensures Lower(Partner(v, i), j) == Lower(v, j)
  {
    hide Partner;
    PartnerStep(v, i);
    if j > 0 {
      PartnerLower(v / 2, i - 1, j - 1);
      PartnerStep(Partner(v, i), j);
      PartnerStep(v, j);
    }
  }

  /** (v / 2^i) % 2, as the source writes it. */
  lemma {:induction false} ShrIsDivision(v: nat, i: nat)
    ensures Shr(v, i) == v / Pow2(i)
  {
    if i > 0 {
      ShrIsDivision(v / 2, i - 1);
      DivTwice(v, Pow2(i - 1));
    }
  }

  lemma DivTwice(v: nat, d: nat)
    requires d > 0
    ensures v / (2 * d) == (v / 2) / d
  {
    var q := v / (2 * d);
    var m := v % (2 * d);
    assert v == q * (2 * d) + m;
    assert v / 2 == q * d + m / 2;
    DivUnique(v / 2, d, q, m / 2);
  }

  lemma Scale(k: int, d: int)
    requires k >= 1 && d >= 0
    ensures k * d >= d
  {
    assert k * d == d + (k - 1) * d;
  }

  lemma DivUnique(a: int, d: int, q: int, m: int)
    requires d > 0 && 0 <= m < d && a == q * d + m
    ensures a / d == q && a % d == m
  {
    var k := a / d - q;
    assert k * d == m - a % d;
    if k >= 1 {
      Scale(k, d);
    } else if k <= -1 {
      assert (-k) * d == -(k * d);
      Scale(-k, d);
    }
  }

  // ---------------------------------------------------------------- pieces

  datatype Piece = Piece(off: nat, len: nat) {
    predicate Has(x: int) { off <= x < off + len }
  }

  /** What virtual rank `v` of `nelems` elements still works on after `i` halvings. */
  function Part(nelems: nat, v: nat, i: nat): (q: Piece)
    ensures q.off + q.len <= nelems
  {
    if i == 0 then Piece(0, nelems)
    else
      var q := Part(nelems, v, i - 1);
      if Lower(v, i - 1) then Piece(q.off, q.len - q.len / 2)
      else Piece(q.off + (q.len - q.len / 2), q.len / 2)
  }

  lemma {:induction false} PartShared(nelems: nat, v: nat, i: nat, j: nat)
    requires j <= i
    ensures Part(nelems, Partner(v, i), j) == Part(nelems, v, j)
  {
    if j > 0 {
      PartShared(nelems, v, i, j - 1);
      PartnerLower(v, i, j - 1);
    }
  }

  lemma {:induction false} PartNested(nelems: nat, v: nat, i: nat, j: nat, x: int)
    requires i <= j && Part(nelems, v, j).Has(x)
    ensures Part(nelems, v, i).Has(x)
    decreases j - i
  {
    if i < j {
      PartNested(nelems, v, i, j - 1, x);
    }
  }

  /** A halving splits the common piece between the two partners. */
  lemma PartSplit(nelems: nat, v: nat, i: nat, x: int)
    ensures Part(nelems, v, i).Has(x) <==> Part(nelems, v, i + 1).Has(x) || Part(nelems, Partner(v, i), i + 1).Has(x)
    ensures !(Part(nelems, v, i + 1).Has(x) && Part(nelems, Partner(v, i), i + 1).Has(x))
  {
    PartShared(nelems, v, i, i);
    PartnerBack(v, i);
  }

  // ---------------------------------------------------------------- real and virtual ranks

  /** VirtualRankMap::virtualToReal with `dual` two-role ranks. */
  function Real(dual: nat, v: nat): nat {
    if v >= 2 * dual then v - dual else v / 2
  }

  /** Both partners of the first exchange live on the same rank. */
  predicate CoLocated(dual: nat, v: nat, i: nat) {
    i == 0 && v < 2 * dual
  }

  lemma {:induction false} PartnerHalf(v: nat, i: nat)
    requires i > 0
    ensures Partner(v, i) / 2 == Partner(v / 2, i - 1) && Partner(v, i) % 2 == v % 2
  {
  }

  lemma PartnerMoves(v: nat, i: nat)
    ensures Partner(v, i) != v
  {
    PartnerBack(v, i);
  }

  /** Unless co-located, partners are on different ranks. */
  lemma PartnersApart(dual: nat, v: nat, i: nat)
    requires !CoLocated(dual, v, i)
    ensures Real(dual, Partner(v, i)) != Real(dual, v)
    ensures !CoLocated(dual, Partner(v, i), i)
  {
    if i > 0 {
      PartnerHalf(v, i);
      PartnerMoves(v / 2, i - 1);
      PartnerMoves(v, i);
    }
  }

  // ---------------------------------------------------------------- contributions

  /** First and last virtual rank of `v`'s group after `t` exchanges. */
  function First(v: nat, t: nat): nat {
    if t == 0 then v else 2 * First(v / 2, t - 1)
  }

  function Last(v: nat, t: nat): nat {
    if t == 0 then v else 2 * Last(v / 2, t - 1) + 1
  }

  /** Element `x` of every rank in [lo, hi), each counted once. */
  function Sum(x: nat, lo: nat, hi: nat): Val {
    if lo >= hi then multiset{} else Sum(x, lo, hi - 1) + multiset{Token(hi - 1, x)}
  }

  lemma {:induction false} SumCounts(x: nat, lo: nat, hi: nat, k: Token)
    ensures Sum(x, lo, hi)[k] == if lo <= k.rank < hi && k.index == x then 1 else 0
    decreases hi
  {
    if lo < hi {
      SumCounts(x, lo, hi - 1, k);
    }
  }

  lemma SumJoins(x: nat, lo: nat, mid: nat, hi: nat)
    requires lo <= mid <= hi
    ensures Sum(x, lo, mid) + Sum(x, mid, hi) == Sum(x, lo, hi)
  {
    hide Sum;
    forall k: Token ensures (Sum(x, lo, mid) + Sum(x, mid, hi))[k] == Sum(x, lo, hi)[k] {
      SumCounts(x, lo, mid, k);
      SumCounts(x, mid, hi, k);
      SumCounts(x, lo, hi, k);
    }
  }

  /** The real ranks whose input `v` has combined into its piece after `t` exchanges. */
  function Held(dual: nat, v: nat, t: nat, x: nat): Val {
    Sum(x, Real(dual, First(v, t)), Real(dual, Last(v, t)) + 1)
  }

  lemma {:induction false} GroupsJoin(v: nat, t: nat)
    requires Lower(v, t)
    ensures First(v, t + 1) == First(v, t)
    ensures Last(v, t + 1) == Last(Partner(v, t), t)
    ensures First(Partner(v, t), t) == Last(v, t) + 1
    ensures First(Partner(v, t), t + 1) == First(v, t + 1) && Last(Partner(v, t), t + 1) == Last(v, t + 1)
    ensures First(v, t) <= Last(v, t) && First(Partner(v, t), t) <= Last(Partner(v, t), t)
  {
    if t > 0 {
      GroupsJoin(v / 2, t - 1);
    }
  }

  lemma {:induction false} FirstLast(v: nat, t: nat)
    ensures First(v, t) <= Last(v, t)
    ensures if t == 0 then Last(v, t) == v else Last(v, t) % 2 == 1
  {
    if t > 0 {
      FirstLast(v / 2, t - 1);
    }
  }

  lemma RealMonotone(dual: nat, a: nat, b: nat)
    requires a <= b
    ensures Real(dual, a) <= Real(dual, b)
  {
  }

  /** Consecutive virtual ranks are consecutive real ranks except inside a two-role pair. */
  lemma RealNext(dual: nat, w: nat)
    requires w % 2 == 1 || w >= 2 * dual
    ensures Real(dual, w + 1) == Real(dual, w) + 1
  {
  }

  lemma LowerHeldJoins(dual: nat, low: nat, t: nat, x: nat)
    requires Lower(low, t) && !CoLocated(dual, low, t)
    ensures Held(dual, low, t, x) + Held(dual, Partner(low, t), t, x) == Held(dual, low, t + 1, x)
    ensures Held(dual, Partner(low, t), t + 1, x) == Held(dual, low, t + 1, x)
  {
    hide Sum, First, Last, Partner, Lower, Real;
    var high := Partner(low, t);
    GroupsJoin(low, t);
    FirstLast(low, t);
    RealNext(dual, Last(low, t));
    RealMonotone(dual, First(low, t), Last(low, t));
    RealMonotone(dual, First(high, t), Last(high, t));
    SumJoins(x, Real(dual, First(low, t)), Real(dual, First(high, t)), Real(dual, Last(high, t)) + 1);
  }

  /** An exchange that is not co-located combines two disjoint groups of ranks. */
  lemma HeldJoins(dual: nat, v: nat, t: nat, x: nat)
    requires !CoLocated(dual, v, t)
    ensures Held(dual, v, t, x) + Held(dual, Partner(v, t), t, x) == Held(dual, v, t + 1, x)
  {
    hide Held, Lower, Partner;
    PartnerBack(v, t);
    PartnersApart(dual, v, t);
    LowerHeldJoins(dual, if Lower(v, t) then v else Partner(v, t), t, x);
  }

  /** The exchange a two-role rank skips changes nothing. */
  lemma HeldSkips(dual: nat, v: nat, x: nat)
    requires v < 2 * dual
    ensures Held(dual, v, 0, x) == Held(dual, v, 1, x)
  {
    assert First(v, 1) == 2 * First(v / 2, 0) && Last(v, 1) == 2 * Last(v / 2, 0) + 1;
  }

  lemma {:induction false} GroupOfAll(v: nat, l: nat)
    requires v < Pow2(l)
    ensures First(v, l) == 0 && Last(v, l) == Pow2(l) - 1
  {
    if l > 0 {
      GroupOfAll(v / 2, l - 1);
    }
  }

  /** `n` ranks run as 2^l virtual ranks, the first `dual` of them in two roles. */
  predicate Shape(n: nat, l: nat, dual: nat) {
    n >= 2 && l >= 1 && Pow2(l) == n + dual && Pow2(l - 1) < n
  }

  /** After all exchanges every rank has been counted, and counted once. */
  lemma HeldAll(n: nat, l: nat, dual: nat, v: nat, x: nat)
    requires Shape(n, l, dual) && v < Pow2(l)
    ensures Held(dual, v, l, x) == Sum(x, 0, n)
  {
    GroupOfAll(v, l);
  }

  lemma RealBound(n: nat, l: nat, dual: nat, v: nat)
    requires Shape(n, l, dual) && v < Pow2(l)
    ensures Real(dual, v) < n
  {
  }
}
