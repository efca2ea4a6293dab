/** Rank arithmetic as the source computes it: RecursiveDoubling, BruckTree and VirtualRankMap. */
module Trees {
  import opened Wilke

  /** RecursiveDoubling::computeTree: the least power of two that holds all ranks. */
  method ComputeTree(nproc: nat) returns (log2nproc: nat, midpoint: nat, pow2nproc: nat)
    requires nproc >= 1
    ensures pow2nproc == Pow2(log2nproc) && pow2nproc >= nproc && midpoint == pow2nproc / 2
    ensures nproc >= 2 ==> Shape(nproc, log2nproc, pow2nproc - nproc) && midpoint == Pow2(log2nproc - 1)
    ensures nproc == 1 ==> log2nproc == 0
  {
    pow2nproc := 1;
    log2nproc := 0;
    while pow2nproc < nproc
      invariant pow2nproc == Pow2(log2nproc)
      invariant log2nproc > 0 ==> Pow2(log2nproc - 1) < nproc
      decreases nproc - pow2nproc
    {
      log2nproc := log2nproc + 1;
      pow2nproc := pow2nproc * 2;
    }
    midpoint := pow2nproc / 2;
  }

  /** VirtualRankMap::realToVirtual: the virtual ranks that a rank plays. */
  method RealToVirtual(nproc: nat, virtualNproc: nat, rank: nat) returns (roles: seq<nat>)
    requires nproc <= virtualNproc
    ensures var dual := virtualNproc - nproc;
            && |roles| == (if rank >= dual then 1 else 2)
            && (forall v: nat :: v in roles <==> Real(dual, v) == rank)
            && (forall k | 0 <= k < |roles| :: roles[k] == roles[0] + k)
            && roles[0] == if rank >= dual then rank + dual else 2 * rank
  {
    var dual := virtualNproc - nproc;
    if rank >= dual {
      roles := [dual + rank];
    } else {
      roles := [2 * rank, 2 * rank + 1];
    }
  }

  /** DagCollectiveActor::isSharedRole. */
  method IsSharedRole(role: nat, roles: seq<nat>) returns (shared: bool)
    ensures shared <==> role in roles
  {
    for r := 0 to |roles|
      invariant role !in roles[..r]
    {
      if role == roles[r] {
        return true;
      }
    }
    return false;
  }

  /** The roles a rank shares are exactly the co-located partners. */
  lemma SharedIffCoLocated(dual: nat, v: nat, i: nat)
    ensures Real(dual, Partner(v, i)) == Real(dual, v) <==> CoLocated(dual, v, i)
  {
    if !CoLocated(dual, v, i) {
      PartnersApart(dual, v, i);
    }
  }
}
