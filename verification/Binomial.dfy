/** The binomial tree on offsets: the parent of an offset has its lowest set bit cleared. */
module Binomial {
  import opened Wilke

  /** Position of the lowest set bit. */
  function Low(v: nat): nat
    requires v > 0
  {
    if v % 2 == 1 then 0 else 1 + Low(v / 2)
  }

  lemma {:induction false} LowBit(v: nat)
    requires v > 0
    ensures Pow2(Low(v)) <= v
  {
    if v % 2 == 0 {
      LowBit(v / 2);
    }
  }

  function Parent(v: nat): nat
    requires v > 0
  {
    LowBit(v);
    v - Pow2(Low(v))
  }

  lemma {:induction false} LowBelow(v: nat, l: nat)
    requires 0 < v < Pow2(l)
    ensures Low(v) < l
  {
    if v % 2 == 0 {
      LowBelow(v / 2, l - 1);
    }
  }

  /** Clearing the lowest bit leaves higher bits only. */
  lemma {:induction false} ParentHigher(v: nat)
    requires v > 0
    ensures Parent(v) < v
    ensures Parent(v) > 0 ==> Low(Parent(v)) > Low(v)
  {
    if v % 2 == 0 {
      ParentHigher(v / 2);
      assert Parent(v) == 2 * Parent(v / 2);
    } else {
      assert Low(v) == 0;
    }
  }

  /** Offset `v` plus a bit below all of its own is a child of `v`. */
  lemma {:induction false} ChildBit(v: nat, k: nat)
    requires v > 0 ==> Low(v) > k
    ensures Low(v + Pow2(k)) == k && Parent(v + Pow2(k)) == v
  {
    if k > 0 {
      ChildBit(v / 2, k - 1);
      assert (v + Pow2(k)) / 2 == v / 2 + Pow2(k - 1);
    }
  }

  /** Generations from offset 0. */
  function Depth(v: nat): nat
    decreases v
  {
    if v == 0 then 0 else
      ParentHigher(v);
      1 + Depth(Parent(v))
  }

  function Ancestor(v: nat, k: nat): nat {
    if k == 0 || v == 0 then v else Ancestor(Parent(v), k - 1)
  }

  /** Every offset reaches 0, through a number of parents equal to its depth, at most its number of bits. */
  lemma {:induction false} ReachesRoot(v: nat, l: nat)
    requires v < Pow2(l)
    ensures Ancestor(v, Depth(v)) == 0 && Depth(v) <= l
    decreases v
  {
    if v > 0 {
      DepthBound(v, l);
      AncestorDepth(v);
    }
  }

  lemma {:induction false} AncestorDepth(v: nat)
    ensures Ancestor(v, Depth(v)) == 0
    decreases v
  {
    if v > 0 {
      ParentHigher(v);
      AncestorDepth(Parent(v));
    }
  }

  /** Each generation frees a lower bit. */
  lemma {:induction false} DepthBound(v: nat, l: nat)
    requires 0 < v < Pow2(l)
    ensures Low(v) < l && Depth(v) <= l - Low(v)
    decreases v
  {
    LowBelow(v, l);
    ParentHigher(v);
    if Parent(v) > 0 {
      DepthBound(Parent(v), l);
    }
  }
}
