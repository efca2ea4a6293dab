/** The ring allgather: chunks travel around the ring, each already in its final place. */
module Ring {
  import opened Actions
  import opened Fabric
  import opened Runs
  import opened ActorState
  import opened Executor
  import opened Chains
  import opened ChainDag
  import opened Ranks
  import opened Bruck
  import opened BruckDag

  function Piece(nelems: nat, k: nat, mode: Mode): Action {
    Action(mode, k * nelems, nelems, map[])
  }

  /** Rank `r` has chunk `k` as soon as it has travelled from rank `k` to it. */
  function Held(n: nat, nelems: nat, t: nat, r: nat, x: nat): Option<Token>
    requires n > 0
  {
    var k := ChunkOf(nelems, x);
    if k < n && nelems > 0 && Down(n, r, k) <= t then Some(Token(k, x % nelems)) else None
  }

  ghost function Circle(n: nat, nelems: nat): Chain
    requires n > 0
  {
    Chain(n, n - 1, n, s => s + 1, _ => 0, (id: Id) => if id.round == 0 then n else id.round - 1, _ => false,
          (r: nat, s: nat) => Up(n, r, 1), (r: nat, s: nat) => Down(n, r, 1),
          (r: nat, s: nat) => if s <= n then Piece(nelems, Down(n, r, s), SendInPlace) else Action(Local, 0, 0, map[]),
          (r: nat, s: nat) =>
            if s + 1 <= n then Piece(nelems, Down(n, r, s + 1), RecvInPlace) else Action(Local, 0, 0, map[]),
          (_, _) => Action(Local, 0, 0, map[]),
          (t: nat, r: nat, x: nat) => Held(n, nelems, t, r, x), 0, 0, n * nelems, Datum)
  }

  lemma DownTwice(n: nat, r: nat, s: nat)
    requires r < n && s + 1 < n
    ensures Down(n, Down(n, r, 1), s) == Down(n, r, s + 1)
    ensures Down(n, r, s) != Down(n, r, s + 1)
  {
    hide Down, Up;
    Neighbours(n, r, 1);
    Neighbours(n, Down(n, r, 1), s);
    Neighbours(n, r, s);
    Neighbours(n, r, s + 1);
  }

  lemma PlacedHere(n: nat, nelems: nat, r: nat, s: nat)
    requires r < n && s + 1 < n
    ensures Placed(Circle(n, nelems), r, s)
  {
    hide Up, Down;
    NeighboursMeet(n, r, 1);
    DownTwice(n, r, s);
    var to := Up(n, r, 1);
    DownTwice(n, to, s);
    Neighbours(n, r, s);
    Neighbours(n, r, s + 1);
    ChunkFits(n, nelems, Down(n, r, s));
    ChunkFits(n, nelems, Down(n, r, s + 1));
    ChunksApart(nelems, Down(n, r, s), Down(n, r, s + 1));
  }

  lemma FollowsHere(n: nat, nelems: nat, r: nat, s: nat, x: nat)
    requires r < n && s + 1 < n && x < n * nelems
    ensures Follows(Circle(n, nelems), r, s, x)
  {
    hide Up, Down, ChunkOf;
    var k := ChunkOf(nelems, x);
    NeighboursMeet(n, r, 1);
    DownTwice(n, r, s);
    InChunk(nelems, Down(n, r, s + 1), x);
    if k < n {
      DownSwap(n, r, k, s);
      DownSwap(n, r, k, s + 1);
    }
  }

  lemma CircleGood(n: nat, nelems: nat)
    requires n > 0
    ensures Good(Circle(n, nelems))
  {
    hide Placed, Follows;
    forall r: nat, s: nat | r < n && s < n - 1 ensures Placed(Circle(n, nelems), r, s) {
      PlacedHere(n, nelems, r, s);
    }
    forall r: nat, s: nat, x: nat | r < n && s < n - 1 && x < n * nelems ensures Follows(Circle(n, nelems), r, s, x) {
      FollowsHere(n, nelems, r, s, x);
    }
  }

  // ---------------------------------------------------------------- the result

  /** Each rank's own chunk is already in its slot; the rest is arbitrary. */
  ghost predicate Inputs(n: nat, nelems: nat, mem: seq<seq<Val>>) {
    && |mem| == n
    && (forall r | 0 <= r < n :: |mem[r]| == n * nelems)
    && (forall r, j | 0 <= r < n && 0 <= j < nelems && r * nelems + j < |mem[r]| ::
          mem[r][r * nelems + j] == multiset{Token(r, j)})
  }

  function Equal(n: nat, nelems: nat, l: nat, extra: nat): Setup {
    Setup(seq(n, _ => nelems), l, extra)
  }

  lemma InputsStart(n: nat, nelems: nat, mem: seq<seq<Val>>)
    requires n > 0 && Inputs(n, nelems, mem)
    ensures Starts(Circle(n, nelems), mem)
  {
    hide Down, ChunkOf;
    var c := Circle(n, nelems);
    forall r: nat, x: nat | r < n && x < n * nelems && c.held(0, r, x).Some?
      ensures mem[r][x] == c.value(c.held(0, r, x).value)
    {
      var k := ChunkOf(nelems, x);
      InChunk(nelems, k, x);
      Neighbours(n, r, k);
      assert r * nelems + x % nelems == x;
    }
  }

  lemma EndsGathered(n: nat, nelems: nat, l: nat, extra: nat, r: nat, m: seq<Val>)
    requires r < n && |m| == n * nelems && Ends(Circle(n, nelems), m, r)
    ensures Gathered(Equal(n, nelems, l, extra), m)
  {
    hide Down, ChunkOf, Prefix, Ends;
    var b := Equal(n, nelems, l, extra);
    EqualBlocks(b, 0, n, nelems);
    forall k: nat, j: nat | k < n && j < b.counts[k] && Prefix(b, 0, k) + j < |m|
      ensures m[Prefix(b, 0, k) + j] == multiset{Token(k, j)}
    {
      EqualBlocks(b, 0, k, nelems);
      var x := k * nelems + j;
      InChunk(nelems, k, x);
      SameIndex(nelems, k, j);
      Neighbours(n, r, k);
      EndsAt(n, nelems, r, m, x);
    }
  }

  lemma EndsAt(n: nat, nelems: nat, r: nat, m: seq<Val>, x: nat)
    requires r < n && |m| == n * nelems && Ends(Circle(n, nelems), m, r) && x < |m|
    ensures Held(n, nelems, n - 1, r, x).Some? ==> m[x] == multiset{Held(n, nelems, n - 1, r, x).value}
  {
    hide Held;
    assert Circle(n, nelems).held(n - 1, r, x) == Held(n, nelems, n - 1, r, x);
  }

  /** The ring allgather leaves every rank the chunks of all ranks, in rank order. */
  lemma RingCorrect(n: nat, nelems: nat, l: nat, extra: nat, cfg: Config, mem: seq<seq<Val>>, es: seq<Event>)
    requires n > 0 && Inputs(n, nelems, mem) && Execution(Prog(Circle(n, nelems), cfg), mem, es)
    ensures Healthy(Prog(Circle(n, nelems), cfg), mem, es)
    ensures var p := Prog(Circle(n, nelems), cfg);
            var t := Outcome(p, mem, es);
            && p.n == n
            && forall r: nat | r < n && RankDone(p, t, r) :: Gathered(Equal(n, nelems, l, extra), t.mem[r])
  {
    hide Inputs, Prog, Execution, Outcome, Healthy, RankDone, Starts, Ends, Gathered, Good;
    InputsStart(n, nelems, mem);
    CircleGood(n, nelems);
    ChainRuns(Circle(n, nelems), cfg, mem, es);
    var p := Prog(Circle(n, nelems), cfg);
    var t := Outcome(p, mem, es);
    forall r: nat | r < n && RankDone(p, t, r) ensures Gathered(Equal(n, nelems, l, extra), t.mem[r]) {
      EndsGathered(n, nelems, l, extra, r, t.mem[r]);
    }
  }

  /** Rank `r` has finished a run of a chain with `m` in its buffer. */
  ghost predicate FinishesWith(c: Chain, cfg: Config, mem: seq<seq<Val>>, es: seq<Event>, r: nat, m: seq<Val>) {
    && Execution(Prog(c, cfg), mem, es)
    && RankDone(Prog(c, cfg), Outcome(Prog(c, cfg), mem, es), r)
    && r < |Outcome(Prog(c, cfg), mem, es).mem| && m == Outcome(Prog(c, cfg), mem, es).mem[r]
  }

  /** The two algorithms agree: a finished ring rank's buffer equals a finished, rotated Bruck rank's. */
  lemma RingAgreesWithBruck(n: nat, nelems: nat, l: nat, cfg: Config, mem: seq<seq<Val>>, es: seq<Event>, m: seq<Val>,
                            ring: seq<seq<Val>>, fs: seq<Event>, u: seq<Val>, r: nat, offset: nat)
    requires r < n && offset == r * nelems
    requires Bruck.Ok(Equal(n, nelems, l, 1)) && Bruck.Inputs(Equal(n, nelems, l, 1), mem)
    requires FinishesWith(Schedule(Equal(n, nelems, l, 1)), cfg, mem, es, r, m)
    requires Inputs(n, nelems, ring) && FinishesWith(Circle(n, nelems), cfg, ring, fs, r, u)
    ensures offset <= |m| && u == Buffers.Rotated(m, offset)
  {
    hide Inputs, Bruck.Inputs, Prog, Execution, Outcome, Healthy, RankDone, Gathered, Buffers.Rotated, Prefix;
    var b := Equal(n, nelems, l, 1);
    AllgatherCorrect(b, cfg, mem, es);
    RingCorrect(n, nelems, l, 1, cfg, ring, fs);
    EqualBlocks(b, 0, r, nelems);
    GatheredUnique(b, u, Buffers.Rotated(m, Prefix(b, 0, r)));
  }

  // ---------------------------------------------------------------- the DAG

  lemma CircleIs(n: nat, nelems: nat, me: nat, s: nat)
    requires me < n && s + 1 < n
    ensures var c := Circle(n, nelems);
            && c.n == n && c.steps == n - 1 && (forall s: nat :: !c.local(s))
            && IdAt(c, me, s, Send) == Id(me, Send, s + 1, Up(n, me, 1))
            && IdAt(c, me, s, Recv) == Id(me, Recv, s + 1, Down(n, me, 1))
            && c.send(me, s) == Piece(nelems, Down(n, me, s), SendInPlace)
            && c.recv(me, s) == Piece(nelems, Down(n, me, s + 1), RecvInPlace)
  {
    hide Up, Down, Piece;
  }

  /** RingAllgatherActor::initDag. */
  method InitRing(actor: DagActor, nproc: nat, me: nat, nelems: nat)
    requires me < nproc
    requires Built(actor.F()) && actor.acts == map[] && actor.pending == []
    modifies actor
    ensures Built(actor.F()) && Knows(Prog(Circle(nproc, nelems), actor.cfg), me, actor.F())
    ensures forall e :: e in actor.pending <==> e in Prog(Circle(nproc, nelems), actor.cfg).edges && e.1.rank == me
  {
    hide Laying, Circle, Up, Down, Built, Knows, Prog, Good;
    Around(nproc, me, 1);
    var sendPartner, recvPartner := (me + 1) % nproc, (me + nproc - 1) % nproc;
    var prevSend: Option<Id>, prevRecv: Option<Id> := None, None;
    var lastRecved := me;
    NothingLaid(Circle(nproc, nelems), me, actor.F());
    CircleGood(nproc, nelems);
    Neighbours(nproc, me, 0);
    StepsOf(nproc, nelems);
    for i := 1 to nproc
      invariant Laying(Circle(nproc, nelems), me, actor.F(), i - 1)
      invariant lastRecved == Down(nproc, me, i - 1)
      invariant prevSend == Previous(Circle(nproc, nelems), me, i - 1, Send)
      invariant prevRecv == Previous(Circle(nproc, nelems), me, i - 1, Recv)
    {
      var recvChunk := (lastRecved + nproc - 1) % nproc;
      NextChunk(nproc, me, i);
      CircleIs(nproc, nelems, me, i - 1);
      var send, recv := Id(me, Send, i, sendPartner), Id(me, Recv, i, recvPartner);
      LayExchange(actor, Circle(nproc, nelems), me, i - 1, send,
                  Action(SendInPlace, lastRecved * nelems, nelems, map[]),
                  recv, Action(RecvInPlace, recvChunk * nelems, nelems, map[]), prevSend, prevRecv);
      lastRecved := recvChunk;
      prevSend, prevRecv := Some(send), Some(recv);
    }
    AllLaid(Circle(nproc, nelems), actor.cfg, me, actor.F());
  }

  lemma StepsOf(n: nat, nelems: nat)
    requires n > 0
    ensures Circle(n, nelems).n == n && Circle(n, nelems).steps == n - 1
  {
  }

  lemma NextChunk(n: nat, me: nat, i: nat)
    requires me < n && 1 <= i < n
    ensures (Down(n, me, i - 1) + n - 1) % n == Down(n, me, i)
  {
    hide Down;
    Neighbours(n, me, i - 1);
    Neighbours(n, me, i);
    ModOnce(n, Down(n, me, i - 1) + n - 1);
  }
}
