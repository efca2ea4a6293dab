/** Neighbouring ranks around the ring of ranks, and blocks of a buffer. */
module Ranks {
  import opened Actions
  import opened Wilke

  function Up(n: nat, r: nat, g: nat): nat
    requires n > 0
  {
    (r + g) % n
  }

  function Down(n: nat, r: nat, g: nat): nat
    requires g <= n && n > 0
  {
    (r + n - g) % n
  }

  /** As the loops compute them. */
  lemma Around(n: nat, r: nat, g: nat)
    requires g <= n && n > 0
    ensures Up(n, r, g) == (r + g) % n && Down(n, r, g) == (r + n - g) % n
  {
  }

  lemma Neighbours(n: nat, r: nat, g: nat)
    requires r < n && g <= n
    ensures Up(n, r, g) == (if r + g < n then r + g else r + g - n)
    ensures Down(n, r, g) == (if r >= g then r - g else r + n - g)
  {
    ModOnce(n, r + g);
    ModOnce(n, r + n - g);
  }

  lemma ModOnce(n: nat, a: nat)
    requires 0 < n && a < n + n
    ensures a % n == if a < n then a else a - n
  {
    if a < n {
      DivUnique(a, n, 0, a);
    } else {
      DivUnique(a, n, 1, a - n);
    }
  }

  /** Whom a rank sends to expects it, and the other way round. */
  lemma NeighboursMeet(n: nat, r: nat, g: nat)
    requires r < n && 0 < g < n
    ensures Up(n, r, g) < n && Up(n, r, g) != r && Down(n, Up(n, r, g), g) == r
    ensures Down(n, r, g) < n && Down(n, r, g) != r && Up(n, Down(n, r, g), g) == r
  {
    hide Up, Down;
    Neighbours(n, r, g);
    Neighbours(n, Up(n, r, g), g);
    Neighbours(n, Down(n, r, g), g);
  }

  lemma ModShift(n: nat, a: nat)
    requires n > 0
    ensures (a + n) % n == a % n
  {
    DivUnique(a + n, n, a / n + 1, a % n);
  }

  /** Which chunk an element belongs to. */
  function ChunkOf(nelems: nat, x: nat): nat {
    if nelems == 0 then 0 else x / nelems
  }

  lemma InChunk(nelems: nat, k: nat, x: nat)
    ensures Span(x, k * nelems, nelems) <==> nelems > 0 && ChunkOf(nelems, x) == k
    ensures nelems > 0 ==> x == ChunkOf(nelems, x) * nelems + x % nelems
  {
    if nelems > 0 && Span(x, k * nelems, nelems) {
      DivUnique(x, nelems, k, x - k * nelems);
    }
  }

  lemma DownSwap(n: nat, r: nat, k: nat, s: nat)
    requires r < n && k < n && s < n
    ensures Down(n, r, k) == s <==> k == Down(n, r, s)
    ensures s + 1 < n && k == Down(n, r, s + 1) ==> Down(n, Down(n, r, 1), k) == s
  {
    hide Down, Up;
    Neighbours(n, r, k);
    Neighbours(n, r, s);
    if s + 1 < n {
      Neighbours(n, r, s + 1);
      Neighbours(n, r, 1);
      Neighbours(n, Down(n, r, 1), k);
    }
  }

  lemma ChunkFits(n: nat, nelems: nat, k: nat)
    requires k < n
    ensures k * nelems + nelems <= n * nelems
  {
    Times(k + 1, n, nelems);
    assert (k + 1) * nelems == k * nelems + nelems;
  }

  lemma Times(a: nat, b: nat, c: nat)
    requires a <= b
    ensures a * c <= b * c
  {
  }

  lemma ChunksApart(nelems: nat, k: nat, j: nat)
    requires k != j
    ensures forall x: int :: !(Span(x, k * nelems, nelems) && Span(x, j * nelems, nelems))
  {
    forall x: int ensures !(Span(x, k * nelems, nelems) && Span(x, j * nelems, nelems)) {
      if x >= 0 {
        InChunk(nelems, k, x);
        InChunk(nelems, j, x);
      }
    }
  }

  lemma SameIndex(nelems: nat, k: nat, j: nat)
    requires j < nelems
    ensures (k * nelems + j) % nelems == j
  {
    DivUnique(k * nelems + j, nelems, k, j);
  }

  lemma ChunkBelow(nelems: nat, n: nat, x: nat)
    ensures x < n * nelems <==> nelems > 0 && ChunkOf(nelems, x) < n
  {
    InChunk(nelems, ChunkOf(nelems, x), x);
    if nelems > 0 {
      if ChunkOf(nelems, x) < n {
        ChunkFits(n, nelems, ChunkOf(nelems, x));
      } else {
        Times(n, ChunkOf(nelems, x), nelems);
      }
    }
  }

  /** Element `y` of chunk `k`. */
  lemma ElementOf(nelems: nat, k: nat, y: nat)
    requires y < nelems
    ensures ChunkOf(nelems, k * nelems + y) == k && (k * nelems + y) % nelems == y
  {
    DivUnique(k * nelems + y, nelems, k, y);
  }

  lemma RegionFits(a: nat, b: nat, n: nat, nelems: nat)
    requires a + b <= n
    ensures a * nelems + b * nelems <= n * nelems
  {
    Times(a + b, n, nelems);
    assert (a + b) * nelems == a * nelems + b * nelems;
  }
}
