/**
 * Renumbering the live ranks around failed ones: the dense rank of a live
 * sparse rank is the number of live ranks below it.
 */
module DenseRanks {
  import opened Actions

  /** The failed ranks, ascending. */
  predicate Ascending(failed: seq<nat>) {
    forall i, j | 0 <= i < j < |failed| :: failed[i] < failed[j]
  }

  /** How many of the failed ranks are below `s`. */
  function Below(failed: seq<nat>, s: nat): (k: nat)
    ensures k <= |failed|
  {
    if failed == [] then 0
    else Below(failed[..|failed| - 1], s) + (if failed[|failed| - 1] < s then 1 else 0)
  }

  /** In an ascending array the failed ranks below `s` come first. */
  lemma {:induction false} BelowSplits(failed: seq<nat>, s: nat, k: nat)
    requires k <= |failed|
    requires forall i | 0 <= i < k :: failed[i] < s
    requires forall i | k <= i < |failed| :: failed[i] >= s
    ensures Below(failed, s) == k
  {
    if failed != [] {
      var n := |failed| - 1;
      BelowSplits(failed[..n], s, if k <= n then k else n);
    }
  }

  lemma {:induction false} BelowCounts(failed: seq<nat>, s: nat)
    requires Ascending(failed)
    ensures forall i | 0 <= i < |failed| :: failed[i] < s <==> i < Below(failed, s)
  {
    if failed != [] {
      BelowCounts(failed[..|failed| - 1], s);
    }
  }

  /** An ascending sequence of `i` numbers has reached at least `i`. */
  lemma {:induction false} AtLeastIndex(failed: seq<nat>, i: nat)
    requires Ascending(failed) && i < |failed|
    ensures failed[i] >= i
  {
    if i > 0 {
      AtLeastIndex(failed, i - 1);
    }
  }

  lemma BelowFits(failed: seq<nat>, s: nat)
    requires Ascending(failed)
    ensures Below(failed, s) <= s
  {
    BelowCounts(failed, s);
    if Below(failed, s) > 0 {
      AtLeastIndex(failed, Below(failed, s) - 1);
    }
  }

  /** The number of live ranks below `s`. */
  function Dense(failed: seq<nat>, s: nat): nat
    requires Ascending(failed)
  {
    BelowFits(failed, s);
    s - Below(failed, s)
  }

  const TREE_CUTOFF: nat := 4

  /**
   * treeFindRank on the failed ranks from `start` on, `offset` of them being known to lie
   * below; fails for a failed rank.
   */
  function TreeFindRank(s: nat, offset: nat, failed: seq<nat>): Option<int>
    requires |failed| >= 1
    decreases |failed|
  {
    if |failed| == 1 then
      if s > failed[0] then Some(s - (offset + 1))
      else if s < failed[0] then Some(s - offset)
      else None
    else
      var middle := |failed| / 2;
      if s < failed[middle] then TreeFindRank(s, offset, failed[..middle])
      else if s > failed[middle] then TreeFindRank(s, offset + middle, failed[middle..])
      else None
  }

  /** The divide-and-conquer search finds the dense rank of every live rank, and rejects every failed one. */
  lemma {:induction false} TreeFinds(s: nat, offset: nat, failed: seq<nat>)
    requires Ascending(failed) && |failed| >= 1
    ensures TreeFindRank(s, offset, failed) == if s in failed then None else Some(s - offset - Below(failed, s))
    decreases |failed|
  {
    hide Below;
    var middle := |failed| / 2;
    BelowCounts(failed, s);
    if |failed| == 1 {
      BelowSplits(failed, s, if failed[0] < s then 1 else 0);
    } else if s < failed[middle] {
      TreeFinds(s, offset, failed[..middle]);
      LeftHalf(failed, s, middle);
    } else if s > failed[middle] {
      TreeFinds(s, offset + middle, failed[middle..]);
      RightHalf(failed, s, middle);
    }
  }

  lemma LeftHalf(failed: seq<nat>, s: nat, middle: nat)
    requires Ascending(failed) && middle < |failed| && s < failed[middle]
    ensures Below(failed[..middle], s) == Below(failed, s) && (s in failed <==> s in failed[..middle])
  {
    BelowCounts(failed, s);
    BelowSplits(failed[..middle], s, Below(failed, s));
    if s in failed {
      var i :| 0 <= i < |failed| && failed[i] == s;
      assert i < middle;
      assert failed[..middle][i] == s;
    }
  }

  lemma RightHalf(failed: seq<nat>, s: nat, middle: nat)
    requires Ascending(failed) && middle < |failed| && s > failed[middle]
    ensures middle + Below(failed[middle..], s) == Below(failed, s) && (s in failed <==> s in failed[middle..])
  {
    BelowCounts(failed, s);
    BelowSplits(failed[middle..], s, Below(failed, s) - middle);
    if s in failed {
      var i :| 0 <= i < |failed| && failed[i] == s;
      assert i >= middle;
      assert failed[middle..][i - middle] == s;
    }
  }

  class DenseRankMap {
    const failedRanks: array<nat>

    ghost predicate Valid()
      reads failedRanks
    {
      Ascending(failedRanks[..])
    }

    constructor (failedRanks: array<nat>)
      requires Ascending(failedRanks[..])
      ensures this.failedRanks == failedRanks && Valid()
    {
      this.failedRanks := failedRanks;
    }

    /** linearFindRank: subtract the failed ranks that are not above. */
    method LinearFindRank(sparseRank: nat) returns (rank: int)
      requires Valid()
      ensures rank == sparseRank - Below(failedRanks[..], sparseRank + 1)
      ensures sparseRank !in failedRanks[..] ==> rank == Dense(failedRanks[..], sparseRank)
    {
      LiveBelow(failedRanks[..], sparseRank);
      for i := 0 to failedRanks.Length
        invariant forall k | 0 <= k < i :: failedRanks[k] <= sparseRank
      {
        if sparseRank < failedRanks[i] {
          BelowSplits(failedRanks[..], sparseRank + 1, i);
          return sparseRank - i;
        }
      }
      BelowSplits(failedRanks[..], sparseRank + 1, failedRanks.Length);
      return sparseRank - failedRanks.Length;
    }

    /** sparseRank: step over the failed ranks that are not above. */
    method SparseRank(denseRank: nat) returns (rank: nat)
      requires Valid()
      ensures rank !in failedRanks[..] && Dense(failedRanks[..], rank) == denseRank
    {
      rank := denseRank;
      for i := 0 to failedRanks.Length
        invariant rank == denseRank + i
        invariant forall k | 0 <= k < i :: failedRanks[k] < rank
      {
        if rank >= failedRanks[i] {
          rank := rank + 1;
        } else {
          BelowSplits(failedRanks[..], rank, i);
          return;
        }
      }
      BelowSplits(failedRanks[..], rank, failedRanks.Length);
    }

    /** denseRank: linear search for few failures, divide and conquer for many; None stands for the error thrown. */
    method DenseRank(sparseRank: nat) returns (rank: Option<int>)
      requires Valid()
      ensures sparseRank !in failedRanks[..] ==> rank == Some(Dense(failedRanks[..], sparseRank))
      ensures sparseRank in failedRanks[..] ==>
                rank == if failedRanks.Length >= 5 then None
                        else Some(sparseRank - Below(failedRanks[..], sparseRank + 1))
    {
      if failedRanks.Length == 0 {
        rank := Some(sparseRank);
      } else if failedRanks.Length <= TREE_CUTOFF {
        var found := LinearFindRank(sparseRank);
        rank := Some(found);
      } else {
        TreeFinds(sparseRank, 0, failedRanks[..]);
        rank := TreeFindRank(sparseRank, 0, failedRanks[..]);
      }
    }
  }

  lemma {:induction false} LiveBelow(failed: seq<nat>, s: nat)
    ensures s !in failed ==> Below(failed, s + 1) == Below(failed, s)
  {
    if failed != [] {
      var n := |failed| - 1;
      LiveBelow(failed[..n], s);
      assert failed == failed[..n] + [failed[n]];
    }
  }

  lemma {:induction false} BelowMonotone(failed: seq<nat>, s: nat, t: nat)
    requires s <= t
    ensures Below(failed, s) <= Below(failed, t)
  {
    if failed != [] {
      BelowMonotone(failed[..|failed| - 1], s, t);
    }
  }

  /**
   * Distinct live ranks have distinct dense ranks, in the same order: renumbering is a
   * bijection onto an initial segment.
   */
  lemma DenseInjective(failed: seq<nat>, s: nat, t: nat)
    requires Ascending(failed) && s !in failed && t !in failed && s < t
    ensures Dense(failed, s) < Dense(failed, t)
  {
    BelowCounts(failed, s);
    BelowCounts(failed, t);
    BelowMonotone(failed, s, t);
    var a, b := Below(failed, s), Below(failed, t);
    if a < b {
      Stretch(failed, a, b - 1);
      assert failed[a] in failed;
    }
  }

  /** Ascending entries grow at least as fast as their indices. */
  lemma {:induction false} Stretch(failed: seq<nat>, i: nat, j: nat)
    requires Ascending(failed) && i <= j < |failed|
    ensures failed[j] >= failed[i] + (j - i)
    decreases j
  {
    if i < j {
      Stretch(failed, i, j - 1);
    }
  }

  /** sparseRank undoes denseRank: the only live rank with the dense rank of `s` is `s`. */
  lemma SparseInvertsDense(failed: seq<nat>, s: nat, t: nat)
    requires Ascending(failed) && s !in failed && t !in failed && Dense(failed, t) == Dense(failed, s)
    ensures t == s
  {
    if s < t {
      DenseInjective(failed, s, t);
    } else if t < s {
      DenseInjective(failed, t, s);
    }
  }
}
