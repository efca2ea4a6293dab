/**
 * The blocks a round of the Bruck alltoall moves: those whose index has the
 * round's bit set, i.e. every second interval of `g` blocks.
 */
module Intervals {
  import opened Wilke
  import opened Ranks

  /** Block `j` moves in the round with partner gap `g`. */
  predicate Selected(g: nat, j: nat)
    requires g > 0
  {
    (j / g) % 2 == 1
  }

  /** The `q`-th moving block. */
  function MainBlock(g: nat, q: nat): nat
    requires g > 0
  {
    q + g * (q / g) + g
  }

  /** The place of moving block `j` among the moving blocks. */
  function TempBlock(g: nat, j: nat): nat
    requires g > 0
  {
    g * (j / g / 2) + j % g
  }

  /** numSendBlocks, as initDag computes it. */
  function NumSendBlocks(n: nat, g: nat): nat
    requires 0 < g <= n
  {
    var sendWindowSize := n - g;
    var remainder := sendWindowSize % (2 * g);
    sendWindowSize / (2 * g) * g + if remainder < g then remainder else g
  }

  lemma Split(g: nat, j: nat)
    requires g > 0
    ensures j == (j / g) * g + j % g && j % g < g
  {
  }

  lemma MainBlockForm(g: nat, a: nat, b: nat)
    requires b < g
    ensures MainBlock(g, a * g + b) == (2 * a + 1) * g + b
  {
    DivUnique(a * g + b, g, a, b);
    assert (2 * a + 1) * g == a * g + a * g + g;
  }

  lemma TempBlockForm(g: nat, a: nat, b: nat)
    requires b < g
    ensures Selected(g, (2 * a + 1) * g + b) && TempBlock(g, (2 * a + 1) * g + b) == a * g + b
  {
    DivUnique((2 * a + 1) * g + b, g, 2 * a + 1, b);
  }

  /** The two numberings are inverse. */
  lemma MainTemp(g: nat, q: nat)
    requires g > 0
    ensures Selected(g, MainBlock(g, q)) && TempBlock(g, MainBlock(g, q)) == q
  {
    hide Selected, MainBlock, TempBlock;
    Split(g, q);
    MainBlockForm(g, q / g, q % g);
    TempBlockForm(g, q / g, q % g);
  }

  lemma TempMain(g: nat, j: nat)
    requires g > 0 && Selected(g, j)
    ensures MainBlock(g, TempBlock(g, j)) == j
  {
    hide MainBlock;
    Split(g, j);
    var a := j / g / 2;
    assert j / g == 2 * a + 1;
    MainBlockForm(g, a, j % g);
  }

  /** numSendBlocks counts the moving blocks below `n`. */
  lemma CountExact(n: nat, g: nat, q: nat)
    requires 0 < g < n
    ensures q < NumSendBlocks(n, g) <==> MainBlock(g, q) < n
  {
    hide MainBlock, Selected;
    var k := (n - g) / (2 * g);
    var m := (n - g) % (2 * g);
    Split(2 * g, n - g);
    Split(g, q);
    var a := q / g;
    MainBlockForm(g, a, q % g);
    assert k * (2 * g) == k * g + k * g;
    assert (2 * a + 1) * g == a * g + a * g + g;
    if a < k {
      Next(a, k, g);
    } else if a > k {
      Next(k, a, g);
    }
  }

  lemma Next(a: nat, k: nat, g: nat)
    requires a < k
    ensures a * g + g <= k * g
  {
    Times(a + 1, k, g);
    assert (a + 1) * g == a * g + g;
  }

  /** `mid` blocks of temporary space are enough: numSendBlocks never exceeds the midpoint. */
  lemma CountFits(n: nat, g: nat, k: nat)
    requires 0 < g < n && n <= 2 * (k * g)
    ensures NumSendBlocks(n, g) <= k * g
  {
    hide MainBlock, NumSendBlocks;
    MainBlockForm(g, k, 0);
    assert (2 * k + 1) * g == k * g + k * g + g;
    CountExact(n, g, k * g);
  }

  /** One more bit of the index. */
  lemma NextBit(g: nat, j: nat)
    requires g > 0
    ensures j % (2 * g) == if Selected(g, j) then j % g + g else j % g
  {
    Split(g, j);
    var a := j / g;
    var h := a / 2;
    assert a == 2 * h + a % 2;
    assert a * g == h * (2 * g) + (a % 2) * g;
    DivUnique(j, 2 * g, h, (a % 2) * g + j % g);
  }

  // ---------------------------------------------------------------- counting

  /** All moving blocks below `n`. */
  ghost function Moving(n: nat, g: nat): set<nat>
    requires g > 0
  {
    set j: nat | j < n && Selected(g, j)
  }

  function Firsts(g: nat, k: nat): set<nat>
    requires g > 0
  {
    if k == 0 then {} else Firsts(g, k - 1) + {MainBlock(g, k - 1)}
  }

  lemma {:induction false} FirstsCount(g: nat, k: nat)
    requires g > 0
    ensures |Firsts(g, k)| == k
    ensures forall j :: j in Firsts(g, k) <==> Selected(g, j) && TempBlock(g, j) < k
  {
    hide MainBlock, TempBlock, Selected;
    if k > 0 {
      FirstsCount(g, k - 1);
      MainTemp(g, k - 1);
      forall j: nat | Selected(g, j) && TempBlock(g, j) == k - 1 ensures j == MainBlock(g, k - 1) {
        TempMain(g, j);
      }
    } else {
      assert Firsts(g, 0) == {};
    }
  }

  /** The closed form equals the number of block indices below the rank count with the round's bit set. */
  lemma NumSendBlocksCounts(n: nat, g: nat)
    requires 0 < g < n
    ensures |Moving(n, g)| == NumSendBlocks(n, g)
  {
    hide MainBlock, TempBlock, Selected, NumSendBlocks, Firsts;
    var k := NumSendBlocks(n, g);
    FirstsCount(g, k);
    forall j: nat ensures j in Moving(n, g) <==> j in Firsts(g, k) {
      if Selected(g, j) {
        TempMain(g, j);
        CountExact(n, g, TempBlock(g, j));
      }
    }
    assert Moving(n, g) == Firsts(g, k);
  }
}
