/**
 * Each collective as a whole: executors built by initDag, any history of calls
 * and network events, and at the end complete executors and the right buffers.
 */
module EndToEnd {
  import opened Actions
  import opened Fabric
  import opened Outlines
  import opened Runs
  import opened Binomial
  import opened Wilke
  import opened Systems
  import Allreduce
  import Alltoall
  import AlltoallInPlace
  import Bcast
  import Bruck
  import Buffers
  import Chains
  import Exchange
  import Gather
  import Reduce
  import Ring

  /** `ws` runs the program from freshly built executors on `mem` to a quiet end. */
  ghost predicate Plays(p: Program, o: Outline, mem: seq<seq<Val>>, ws: seq<World>) {
    History(p, o, ws) && Fresh(p, mem, ws[0]) && Quiet(p, ws[|ws| - 1])
  }

  ghost function Last(ws: seq<World>): World
    requires ws != []
  {
    ws[|ws| - 1]
  }

  /** Every executor is complete, and has finalized and notified exactly once. */
  ghost predicate Reported(p: Program, ws: seq<World>) {
    ws != [] && |Last(ws).fs| == p.n == |Last(ws).s.mem|
    && var fs := Last(ws).fs;
       forall r | 0 <= r < p.n :: fs[r].complete && fs[r].finalized == 1
  }

  /** The memory of rank `r` at the end. */
  ghost function Buffer(ws: seq<World>, r: nat): seq<Val>
    requires ws != [] && r < |Last(ws).s.mem|
  {
    Last(ws).s.mem[r]
  }

  lemma Ended(p: Program, o: Outline, mem: seq<seq<Val>>, ws: seq<World>) returns (es: seq<Event>)
    requires Valid(p, o) && Begins(p, o, mem) && Engaged(p) && Plays(p, o, mem, ws)
    ensures Reported(p, ws) && Execution(p, mem, es) && Outcome(p, mem, es) == Last(ws).s
    ensures forall r | 0 <= r < p.n :: RankDone(p, Outcome(p, mem, es), r)
  {
    hide Valid, Begins, Engaged, Moves, Fresh, Quiet, IsRun, Run;
    ValidIsTimed(p, o, mem);
    es := SystemCompletes(p, o, mem, ws);
  }

  // ---------------------------------------------------------------- allreduce and reduce

  /** Every rank has an exchange in one of the first two halving steps. */
  lemma HasExchange(w: Exchange.Setup, r: nat) returns (id: Id)
    requires Exchange.Ok(w) && r < w.n
    ensures Exchange.IsExchange(w, id) && id.rank == r && (id.kind.Send? || id.kind.Recv?)
    ensures Exchange.StepOf(w, id) < w.l
  {
    hide Partner;
    var v, s := if r >= w.dual then r + w.dual else 2 * r, if r >= w.dual then 0 else 1;
    TwoRoles(w);
    id := Exchange.Xid(w, v, s, Send);
    Exchange.XidIsExchange(w, v, s, Send);
  }

  lemma TwoRoles(w: Exchange.Setup)
    requires Exchange.Ok(w)
    ensures w.dual > 0 ==> w.l >= 2
    ensures w.dual < w.n
  {
    assert Pow2(w.l) == 2 * Pow2(w.l - 1);
  }

  lemma AllreduceEngaged(w: Exchange.Setup, cfg: Config)
    requires Exchange.Ok(w)
    ensures Engaged(Allreduce.Prog(w, cfg))
  {
    hide Exchange.IsExchange, Allreduce.Prog;
    var p := Allreduce.Prog(w, cfg);
    Allreduce.Layout(w, cfg);
    forall r | 0 <= r < p.n ensures Communicates(p, r) {
      var id := HasExchange(w, r);
      Allreduce.Members(w, cfg, id);
    }
  }

  lemma AllreduceSystem(w: Exchange.Setup, cfg: Config, mem: seq<seq<Val>>, ws: seq<World>)
    requires Exchange.Ok(w) && Allreduce.Inputs(w, mem)
    requires Plays(Allreduce.Prog(w, cfg), Allreduce.Plan(w), mem, ws)
    ensures Reported(Allreduce.Prog(w, cfg), ws) && |Last(ws).s.mem| == w.n
    ensures forall r: nat | r < w.n ::
              && |Buffer(ws, r)| == 2 * w.nelems
              && forall x: nat | x < w.nelems :: Buffer(ws, r)[x] == Sum(x, 0, w.n)
  {
    hide Plays, Engaged, Execution, Outcome, RankDone, Healthy, Allreduce.Prog, Allreduce.Inputs, Sum;
    var p := Allreduce.Prog(w, cfg);
    Allreduce.PlanValid(w, cfg);
    Allreduce.InputsBegin(w, cfg, mem);
    Allreduce.Layout(w, cfg);
    AllreduceEngaged(w, cfg);
    var es := Ended(p, Allreduce.Plan(w), mem, ws);
    Allreduce.AllreduceCorrect(w, cfg, mem, es);
  }

  lemma ReduceEngaged(w: Exchange.Setup, root: nat, cfg: Config)
    requires Reduce.Rooted(w, root)
    ensures Engaged(Reduce.Prog(w, root, cfg))
  {
    hide Exchange.IsExchange, Reduce.Prog;
    var p := Reduce.Prog(w, root, cfg);
    Reduce.Layout(w, root, cfg);
    forall r | 0 <= r < p.n ensures Communicates(p, r) {
      var id := HasExchange(w, r);
      Reduce.Members(w, root, cfg, id);
    }
  }

  /** For a reduce the root's buffer is right exactly under the condition of ReduceCorrectIff. */
  lemma ReduceSystem(w: Exchange.Setup, root: nat, cfg: Config, mem: seq<seq<Val>>, ws: seq<World>)
    requires Reduce.Rooted(w, root) && Reduce.Inputs(w, mem)
    requires Plays(Reduce.Prog(w, root, cfg), Reduce.Plan(w, root), mem, ws)
    ensures Reported(Reduce.Prog(w, root, cfg), ws) && |Last(ws).s.mem| == w.n
    ensures |Buffer(ws, root)| == 2 * w.nelems
    ensures Reduce.Reduced(w, Buffer(ws, root)) <==> root == 0 || Pow2(w.l) != w.n + 1 || w.nelems <= 1
  {
    hide Plays, Engaged, Execution, Outcome, RankDone, Healthy, Reduce.Prog, Reduce.Inputs, Reduce.Reduced;
    var p := Reduce.Prog(w, root, cfg);
    Reduce.PlanValid(w, root, cfg);
    Reduce.InputsBegin(w, root, cfg, mem);
    Reduce.Layout(w, root, cfg);
    ReduceEngaged(w, root, cfg);
    var es := Ended(p, Reduce.Plan(w, root), mem, ws);
    Reduce.ReduceCorrectIff(w, root, cfg, mem, es);
  }

  // ---------------------------------------------------------------- chains

  lemma ChainEngaged(c: Chains.Chain, cfg: Config, s: nat)
    requires Chains.Good(c) && s < c.steps && !c.local(s)
    ensures Engaged(Chains.Prog(c, cfg))
  {
    hide Chains.Good, Chains.Prog, Chains.Has;
    var p := Chains.Prog(c, cfg);
    Chains.Layout(c, cfg);
    forall r | 0 <= r < p.n ensures Communicates(p, r) {
      Chains.HasAt(c, r, s, Send);
      Chains.Members(c, cfg, Chains.IdAt(c, r, s, Send));
    }
  }

  lemma ChainEnded(c: Chains.Chain, cfg: Config, s: nat, mem: seq<seq<Val>>, ws: seq<World>)
    returns (es: seq<Event>)
    requires Chains.Good(c) && Chains.Starts(c, mem) && s < c.steps && !c.local(s)
    requires Plays(Chains.Prog(c, cfg), Chains.Plan(c), mem, ws)
    ensures var p := Chains.Prog(c, cfg);
            && Reported(p, ws) && p.n == c.n && Execution(p, mem, es) && Outcome(p, mem, es) == Last(ws).s
            && forall r | 0 <= r < c.n :: RankDone(p, Outcome(p, mem, es), r)
  {
    hide Plays, Engaged, Chains.Good, Chains.Prog, Execution, Outcome, RankDone;
    Chains.PlanValid(c, cfg);
    Chains.Layout(c, cfg);
    ChainEngaged(c, cfg, s);
    es := Ended(Chains.Prog(c, cfg), Chains.Plan(c), mem, ws);
  }

  /** Bruck allgather and allgatherv: after finalize's rotation every rank has all blocks in rank order. */
  lemma AllgatherSystem(b: Bruck.Setup, cfg: Config, mem: seq<seq<Val>>, ws: seq<World>)
    requires Bruck.Ok(b) && b.N() >= 2 && Bruck.Inputs(b, mem)
    requires Plays(Chains.Prog(Bruck.Schedule(b), cfg), Chains.Plan(Bruck.Schedule(b)), mem, ws)
    ensures Reported(Chains.Prog(Bruck.Schedule(b), cfg), ws) && |Last(ws).s.mem| == b.N()
    ensures forall r: nat | r < b.N() ::
              && Bruck.Prefix(b, 0, r) <= |Buffer(ws, r)|
              && Bruck.Gathered(b, Buffers.Rotated(Buffer(ws, r), Bruck.Prefix(b, 0, r)))
  {
    hide Plays, Execution, Outcome, RankDone, Healthy, Chains.Prog, Chains.Good, Chains.Starts, Bruck.Inputs;
    hide Bruck.Gathered, Bruck.Prefix, Buffers.Rotated, Reported;
    Bruck.ScheduleGood(b);
    Bruck.InputsStart(b, mem);
    var es := ChainEnded(Bruck.Schedule(b), cfg, 0, mem, ws);
    Bruck.AllgatherCorrect(b, cfg, mem, es);
  }

  lemma RingSystem(n: nat, nelems: nat, cfg: Config, mem: seq<seq<Val>>, ws: seq<World>, l: nat, extra: nat)
    requires n >= 2 && Ring.Inputs(n, nelems, mem)
    requires Plays(Chains.Prog(Ring.Circle(n, nelems), cfg), Chains.Plan(Ring.Circle(n, nelems)), mem, ws)
    ensures Reported(Chains.Prog(Ring.Circle(n, nelems), cfg), ws) && |Last(ws).s.mem| == n
    ensures forall r: nat | r < n :: Bruck.Gathered(Ring.Equal(n, nelems, l, extra), Buffer(ws, r))
  {
    hide Plays, Execution, Outcome, RankDone, Healthy, Chains.Prog, Chains.Good, Chains.Starts, Ring.Inputs;
    hide Bruck.Gathered, Reported;
    Ring.CircleGood(n, nelems);
    Ring.InputsStart(n, nelems, mem);
    var es := ChainEnded(Ring.Circle(n, nelems), cfg, 0, mem, ws);
    Ring.RingCorrect(n, nelems, l, extra, cfg, mem, es);
  }

  lemma AlltoallEnded(w: Alltoall.Setup, cfg: Config, mem: seq<seq<Val>>, ws: seq<World>) returns (es: seq<Event>)
    requires Alltoall.Ok(w) && w.n >= 2 && Alltoall.Sized(w, mem)
    requires Plays(Chains.Prog(Alltoall.Schedule(w), cfg), Chains.Plan(Alltoall.From(w, mem)), mem, ws)
    ensures var p := Chains.Prog(Alltoall.Schedule(w), cfg);
            && Reported(p, ws) && p.n == w.n && Execution(p, mem, es) && Outcome(p, mem, es) == Last(ws).s
            && forall r | 0 <= r < w.n :: RankDone(p, Outcome(p, mem, es), r)
  {
    hide Plays, Execution, Outcome, RankDone, Chains.Prog, Chains.Good, Chains.Starts, Reported;
    Alltoall.FromGood(w, mem, cfg);
    Alltoall.AnyStart(w, mem);
    es := ChainEnded(Alltoall.From(w, mem), cfg, 1, mem, ws);
  }

  /** Alltoall: after finalize's reordering every rank has its block of every other rank. */
  lemma AlltoallSystem(w: Alltoall.Setup, cfg: Config, mem: seq<seq<Val>>, ws: seq<World>)
    requires Alltoall.Ok(w) && w.n >= 2 && Alltoall.Inputs(w, mem)
    requires Plays(Chains.Prog(Alltoall.Schedule(w), cfg), Chains.Plan(Alltoall.From(w, mem)), mem, ws)
    ensures Reported(Chains.Prog(Alltoall.Schedule(w), cfg), ws) && |Last(ws).s.mem| == w.n
    ensures forall r: nat | r < w.n :: Alltoall.Delivered(w, r, Buffer(ws, r))
  {
    hide Plays, Execution, Outcome, RankDone, Healthy, Chains.Prog, Alltoall.Delivered;
    var es := AlltoallEnded(w, cfg, mem, ws);
    Alltoall.AlltoallCorrect(w, cfg, mem, es);
  }

  /** Alltoall in place: rank `r` ends with the blocks of the ranks up to its own, so only the last has them all. */
  lemma AlltoallInPlaceSystem(w: Alltoall.Setup, cfg: Config, mem: seq<seq<Val>>, ws: seq<World>)
    requires Alltoall.Ok(w) && w.n >= 2 && AlltoallInPlace.InPlace(w, mem)
    requires Plays(Chains.Prog(Alltoall.Schedule(w), cfg), Chains.Plan(Alltoall.From(w, mem)), mem, ws)
    ensures Reported(Chains.Prog(Alltoall.Schedule(w), cfg), ws) && |Last(ws).s.mem| == w.n
    ensures forall r: nat, k: nat | r < w.n && k < w.n ::
              AlltoallInPlace.BlockArrives(w, r, Buffer(ws, r), k) <==> k <= r || w.nelems == 0
    ensures forall r: nat | r < w.n :: Alltoall.Delivered(w, r, Buffer(ws, r)) <==> r == w.n - 1 || w.nelems == 0
  {
    hide Plays, Execution, Outcome, RankDone, Healthy, Chains.Prog, Alltoall.Delivered;
    hide AlltoallInPlace.BlockArrives;
    var es := AlltoallEnded(w, cfg, mem, ws);
    AlltoallInPlace.InPlaceAlltoallIff(w, cfg, mem, es);
  }

  // ---------------------------------------------------------------- trees

  lemma BcastEngaged(w: Bcast.Setup, cfg: Config)
    requires Bcast.Ok(w) && w.n >= 2
    ensures Engaged(Bcast.Prog(w, cfg))
  {
    hide Bcast.Prog, Bcast.Off, Bcast.RankAt, Bcast.Source;
    var p := Bcast.Prog(w, cfg);
    Bcast.Layout(w, cfg);
    forall r | 0 <= r < p.n ensures Communicates(p, r) {
      if r != w.root {
        Bcast.SpanningTree(w, cfg, r);
      } else {
        RootSends(w, cfg);
      }
    }
  }

  /** The rank next to the root receives from the root. */
  lemma RootSends(w: Bcast.Setup, cfg: Config)
    requires Bcast.Ok(w) && w.n >= 2
    ensures Communicates(Bcast.Prog(w, cfg), w.root)
  {
    hide Bcast.Prog, Bcast.Off, Bcast.RankAt;
    var next := Bcast.RankAt(w, 1);
    Bcast.OffsetsInverse(w, 1);
    Bcast.OffsetsInverse(w, w.root);
    assert Low(1) == 0 && Pow2(0) == 1;
    Bcast.Members(w, cfg, Id(w.root, Send, 0, next));
  }

  lemma BcastSystem(w: Bcast.Setup, cfg: Config, mem: seq<seq<Val>>, ws: seq<World>)
    requires Bcast.Ok(w) && w.n >= 2 && Bcast.Inputs(w, mem)
    requires Plays(Bcast.Prog(w, cfg), Bcast.Plan(w), mem, ws)
    ensures Reported(Bcast.Prog(w, cfg), ws) && |Last(ws).s.mem| == w.n
    ensures forall r: nat | r < w.n :: Buffer(ws, r) == mem[w.root]
  {
    hide Plays, Engaged, Execution, Outcome, RankDone, Healthy, Bcast.Prog, Valid;
    Bcast.PlanValid(w, cfg);
    Bcast.InputsBegin(w, cfg, mem);
    Bcast.Layout(w, cfg);
    BcastEngaged(w, cfg);
    var es := Ended(Bcast.Prog(w, cfg), Bcast.Plan(w), mem, ws);
    Bcast.BcastCorrect(w, cfg, mem, es);
  }

  /** In a gather every rank passes its blocks on or receives some. */
  lemma GatherEngaged(w: Gather.Setup, cfg: Config)
    requires Gather.Ok(w)
    ensures Engaged(Gather.Prog(w, cfg))
  {
    hide Gather.Prog, Gather.IsTree, Gather.IsLast, Gather.IsShuffle;
    var p := Gather.Prog(w, cfg);
    Gather.Layout(w, cfg);
    forall r | 0 <= r < p.n ensures Communicates(p, r) {
      var id := GatherAction(w, r);
      Gather.Members(w, cfg, id);
    }
  }

  /** Only the midpoint has no lower bit than the highest. */
  lemma OneBit(r: nat, l: nat)
    requires 0 < r < Pow2(l)
    ensures Low(r) < l && (Low(r) == l - 1 ==> r == Pow2(l - 1))
  {
    LowBelow(r, l);
    ParentHigher(r);
    if Parent(r) > 0 {
      LowBelow(Parent(r), l);
    }
  }

  lemma GatherAction(w: Gather.Setup, r: nat) returns (id: Id)
    requires Gather.Ok(w) && r < w.n
    ensures Gather.Has(w, id) && id.rank == r && (id.kind.Send? || id.kind.Recv?)
  {
    assert Low(1) == 0 && Pow2(0) == 1;
    if r > 0 {
      OneBit(r, w.l);
    }
    if r > 0 && Low(r) < Gather.Rounds(w) {
      id := Id(r, Send, Low(r), Parent(r));
    } else if w.root == 0 {
      id := Id(0, Recv, 0, 1);
    } else if r == w.root {
      id := Id(r, Recv, w.l, 0);
    } else {
      id := Id(r, Send, w.l, w.root);
    }
  }

  lemma GatherSystem(w: Gather.Setup, cfg: Config, mem: seq<seq<Val>>, ws: seq<World>)
    requires Gather.Ok(w) && Gather.Inputs(w, mem)
    requires Plays(Gather.Prog(w, cfg), Gather.Plan(w), mem, ws)
    ensures Reported(Gather.Prog(w, cfg), ws) && |Last(ws).s.mem| == w.n
    ensures Gather.Gathered(w, Buffer(ws, w.root))
  {
    hide Plays, Engaged, Execution, Outcome, RankDone, Healthy, Gather.Prog, Gather.Inputs, Gather.Gathered;
    Gather.PlanValid(w, cfg);
    Gather.InputsBegin(w, cfg, mem);
    Gather.Layout(w, cfg);
    GatherEngaged(w, cfg);
    var es := Ended(Gather.Prog(w, cfg), Gather.Plan(w), mem, ws);
    Gather.GatherCorrect(w, cfg, mem, es);
  }
}
