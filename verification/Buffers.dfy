/** Copies between and within buffers, as initBuffers and finalize perform them. */
module Buffers {
  import opened Actions
  import opened Fabric
  import opened Ranks

  /** `len` elements that go through `m` over and over. */
  function Repeated(m: seq<Val>, len: nat): (r: seq<Val>)
    requires m != []
    ensures |r| == len
  {
    seq(len, i requires 0 <= i < len => m[i % |m|])
  }

  lemma RepeatedAt(m: seq<Val>, len: nat, i: nat)
    requires m != [] && i < len
    ensures Repeated(m, len)[i] == if i < |m| then m[i] else Repeated(m, len)[i - |m|]
  {
    if i < |m| {
      ModOnce(|m|, i);
    } else {
      ModShift(|m|, i - |m|);
    }
  }

  /** Without overlap nothing is repeated. */
  lemma RepeatsOnce(m: seq<Val>, from: nat, to: nat, len: nat)
    requires from < to && to + len <= |m|
    ensures from + len <= to ==> Repeated(m[from..to], len) == m[from..from + len]
  {
    hide Repeated;
    forall i: nat | i < len && from + len <= to ensures Repeated(m[from..to], len)[i] == m[from + i] {
      RepeatedAt(m[from..to], len, i);
    }
  }

  /**
   * memcopy, element by element in ascending order.  Where a copy within one
   * buffer goes up into its own source, it repeats what lies between the two
   * addresses.
   */
  method MemCopy(dst: array<Val>, to: nat, src: array<Val>, from: nat, len: nat)
    requires to + len <= dst.Length && from + len <= src.Length
    modifies dst
    ensures dst != src || to <= from || from + len <= to ==>
              dst[..] == Stored(old(dst[..]), to, old(src[from..from + len]))
    ensures dst == src && from < to ==>
              dst[..] == Stored(old(dst[..]), to, Repeated(old(src[from..to]), len))
  {
    hide Repeated;
    ghost var was, up := dst[..], dst == src && from < to;
    ghost var data := if up then Repeated(src[from..to], len) else src[from..from + len];
    for i := 0 to len
      invariant forall x | 0 <= x < dst.Length :: dst[x] == if to <= x < to + i then data[x - to] else was[x]
      invariant dst != src ==> src[..] == old(src[..])
    {
      if up {
        RepeatedAt(was[from..to], len, i);
      }
      assert data[i] == src[from + i];
      dst[to + i] := src[from + i];
    }
    if up {
      RepeatsOnce(was, from, to, len);
    }
  }

  /** memcopy between two regions of one buffer that do not overlap. */
  method CopyWithin(buffer: array<Val>, to: nat, from: nat, len: nat)
    requires to + len <= buffer.Length && from + len <= buffer.Length && (to <= from || from + len <= to)
    modifies buffer
    ensures buffer[..] == Stored(old(buffer[..]), to, old(buffer[..])[from..from + len])
  {
    assert buffer[from..from + len] == buffer[..][from..from + len];
    MemCopy(buffer, to, buffer, from, len);
  }

  /** `m` with its last `off` elements moved to the front. */
  function Rotated(m: seq<Val>, off: nat): seq<Val>
    requires off <= |m|
  {
    m[|m| - off..] + m[..|m| - off]
  }

  method CopyOut(result: array<Val>) returns (tmp: array<Val>)
    ensures fresh(tmp) && tmp[..] == result[..]
  {
    tmp := new Val[result.Length](_ => multiset{});
    MemCopy(tmp, 0, result, 0, result.Length);
    assert result[0..result.Length] == result[..];
  }

  method CopyBack(result: array<Val>, tmp: array<Val>, myOffset: nat)
    requires tmp != result && tmp.Length == result.Length && myOffset <= result.Length
    modifies result
    ensures result[..] == Rotated(tmp[..], myOffset)
  {
    var total := result.Length;
    MemCopy(result, myOffset, tmp, 0, total - myOffset);
    ghost var half := result[..];
    MemCopy(result, 0, tmp, total - myOffset, myOffset);
    assert tmp[0..total - myOffset] == tmp[..][..total - myOffset];
    assert tmp[total - myOffset..total] == tmp[..][total - myOffset..];
    forall x: nat | x < total ensures result[..][x] == Rotated(tmp[..], myOffset)[x] {
      assert result[..][x] == if x < myOffset then tmp[total - myOffset + x] else half[x];
    }
  }

  /** The reordering in finalize of both Bruck allgathers: copy everything out and back in two pieces. */
  method RotateBack(result: array<Val>, myOffset: nat)
    requires myOffset <= result.Length
    modifies result
    ensures result[..] == Rotated(old(result[..]), myOffset)
  {
    var tmp := CopyOut(result);
    CopyBack(result, tmp, myOffset);
  }
}
