/**
 * The whole system over time: every rank's executor as its initDag leaves it,
 * calls into the executors, and the network, up to the end of the collective.
 */
module Systems {
  import opened Actions
  import opened Fabric
  import opened Outlines
  import opened Invariants
  import opened Preservation
  import opened Runs
  import opened ActorState
  import opened Handover
  import opened Completion
  import opened Interference

  /** The state of the network and all memories, and of every rank's executor. */
  datatype World = World(s: State, fs: seq<Fields>)

  /** What initDag leaves in rank `r`'s executor. */
  ghost predicate Share(p: Program, r: nat, f: Fields) {
    && Built(f) && Knows(p, r, f)
    && forall e :: e in f.pending <==> e in p.edges && e.1.rank == r
  }

  ghost predicate Communicates(p: Program, r: nat) {
    exists id :: id in p.acts && id.rank == r && (id.kind.Send? || id.kind.Recv?)
  }

  /** Every rank sends or receives something. */
  ghost predicate Engaged(p: Program) {
    forall r | 0 <= r < p.n :: Communicates(p, r)
  }

  /** Every DAG is built and nothing has happened yet. */
  ghost predicate Fresh(p: Program, mem: seq<seq<Val>>, a: World) {
    && a.s == Initial(mem) && |a.fs| == p.n
    && forall r | 0 <= r < p.n :: Share(p, r, a.fs[r])
  }

  /** A call into rank `r`'s executor, as its methods ensure it. */
  ghost predicate Called(p: Program, o: Outline, a: World, b: World, r: nat) {
    && r < p.n == |a.fs| == |b.fs| && b.fs == a.fs[r := b.fs[r]]
    && Reaches(p, r, a.s, b.s)
    && r < |b.s.mem| && Agrees(p, o, r, b.s, b.fs[r], b.s.mem[r], {}, {}, {})
  }

  ghost predicate Moves(p: Program, o: Outline, a: World, b: World) {
    (exists r: nat :: Called(p, o, a, b, r)) || (Reaches(p, p.n, a.s, b.s) && b.fs == a.fs)
  }

  ghost predicate History(p: Program, o: Outline, ws: seq<World>) {
    ws != [] && forall i | 0 < i < |ws| :: Moves(p, o, ws[i - 1], ws[i])
  }

  /** Every executor has returned, has started what it can, and has been given all of its messages. */
  ghost predicate Quiet(p: Program, a: World) {
    && |a.fs| == p.n
    && (forall r | 0 <= r < p.n :: a.fs[r].initial == {})
    && Delivered(p, a.s, a.fs)
  }

  lemma FreshTogether(p: Program, o: Outline, mem: seq<seq<Val>>, a: World)
    requires Sound(p) && Timed(p, o) && Shaped(p, Initial(mem)) && Fresh(p, mem, a) && Engaged(p)
    ensures Together(p, o, a.s, a.fs)
  {
    hide Control, Timed, Agrees, Share;
    ControlInitial(p, o, mem);
    forall r | 0 <= r < p.n ensures Agrees(p, o, r, a.s, a.fs[r], a.s.mem[r], {}, {}, {}) {
      assert Communicates(p, r) && Share(p, r, a.fs[r]);
      ShareAgrees(p, o, a.s, r, a.fs[r]);
    }
  }

  lemma ShareAgrees(p: Program, o: Outline, s: State, r: nat, f: Fields)
    requires Control(p, o, s) && r < p.n == |s.mem| && s.started == {} && Share(p, r, f) && Communicates(p, r)
    ensures Agrees(p, o, r, s, f, s.mem[r], {}, {}, {})
  {
    hide Control, Agrees, Built;
    var id :| id in p.acts && id.rank == r;
    assert id in f.acts;
    BuiltAgrees(p, o, r, s, f, s.mem[r]);
  }

  lemma MoveIsRun(p: Program, o: Outline, a: World, b: World) returns (es: seq<Event>)
    requires Moves(p, o, a, b)
    ensures Sound(p) && Shaped(p, a.s) && IsRun(p, a.s, es) && Run(p, a.s, es) == b.s
  {
    hide Agrees, IsRun, Run, By;
    var r: nat := p.n;
    if c: nat :| Called(p, o, a, b, c) {
      r := c;
    }
    es :| IsRun(p, a.s, es) && By(p, r, es) && Run(p, a.s, es) == b.s;
  }

  lemma MoveKeepsTogether(p: Program, o: Outline, a: World, b: World)
    requires Together(p, o, a.s, a.fs) && Moves(p, o, a, b)
    ensures Together(p, o, b.s, b.fs)
  {
    hide Together, Agrees, Reaches;
    if r: nat :| Called(p, o, a, b, r) {
      CallKeepsTogether(p, o, a.s, b.s, a.fs, r, b.fs[r]);
    } else {
      NetworkKeepsTogether(p, o, a.s, b.s, a.fs);
    }
  }

  /** Over any history the executors agree with the fabric, which has made one run. */
  lemma {:induction false} HistoryIsRun(p: Program, o: Outline, ws: seq<World>) returns (es: seq<Event>)
    requires History(p, o, ws) && Sound(p) && Shaped(p, ws[0].s) && Together(p, o, ws[0].s, ws[0].fs)
    ensures var last := ws[|ws| - 1];
            Together(p, o, last.s, last.fs) && IsRun(p, ws[0].s, es) && Run(p, ws[0].s, es) == last.s
    decreases |ws|
  {
    hide Together, Moves, Shaped, Sound;
    if |ws| == 1 {
      es := [];
    } else {
      var front := ws[..|ws| - 1];
      var first := HistoryIsRun(p, o, front);
      var a, b := front[|front| - 1], ws[|ws| - 1];
      assert Moves(p, o, ws[|ws| - 2], ws[|ws| - 1]);
      MoveKeepsTogether(p, o, a, b);
      var more := MoveIsRun(p, o, a, b);
      RunsCompose(p, ws[0].s, first, more);
      es := first + more;
    }
  }

  /**
   * From freshly built executors, whatever calls and network events follow:
   * once everything is delivered and quiet, all actions of all ranks are done
   * and every executor has finalized and notified exactly once.
   */
  lemma SystemCompletes(p: Program, o: Outline, mem: seq<seq<Val>>, ws: seq<World>) returns (es: seq<Event>)
    requires Sound(p) && Timed(p, o) && Shaped(p, Initial(mem)) && Engaged(p)
    requires History(p, o, ws) && Fresh(p, mem, ws[0]) && Quiet(p, ws[|ws| - 1])
    ensures var last := ws[|ws| - 1];
            && Execution(p, mem, es) && Outcome(p, mem, es) == last.s
            && AllDone(p, last.s) && |last.fs| == p.n == |last.s.mem|
            && forall r | 0 <= r < p.n :: last.fs[r].complete && last.fs[r].finalized == 1
  {
    hide Control, Agrees, Delivered, Moves, AllDone, Share, Engaged, IsRun, Run;
    FreshTogether(p, o, mem, ws[0]);
    ControlInitial(p, o, mem);
    es := HistoryIsRun(p, o, ws);
    QuietIsComplete(p, o, ws[|ws| - 1].s, ws[|ws| - 1].fs);
  }

  /** A rank that communicates is handed something, so it is not complete before its first message. */
  lemma SomethingDue(p: Program, r: nat)
    requires Sound(p) && Communicates(p, r)
    ensures Due(p, r) != {}
  {
    var id :| id in p.acts && id.rank == r && (id.kind.Send? || id.kind.Recv?);
    assert SoundAction(p, id);
    assert Mate(Mate(id)) == id;
    assert (if id.kind.Send? then Ack(id) else Payload(Mate(id))) in Due(p, r);
  }
}
