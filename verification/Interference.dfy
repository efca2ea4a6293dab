/**
 * Executors side by side: what one rank's executor or the network does leaves
 * every other executor in agreement with the fabric, so the abstraction holds
 * for all ranks together over whole runs of the system.
 */
module Interference {
  import opened Actions
  import opened Fabric
  import opened Outlines
  import opened Invariants
  import opened Preservation
  import opened Runs
  import opened ActorState
  import opened ActorSteps
  import opened Handover
  import opened Completion

  /** Rank `me`'s actions have started and finished in `t` exactly as in `s`. */
  ghost predicate SameFor(me: nat, s: State, t: State) {
    forall id: Id | id.rank == me :: (id in t.started <==> id in s.started) && (id in t.cleared <==> id in s.cleared)
  }

  lemma OthersEventSame(p: Program, me: nat, s: State, e: Event)
    requires Shaped(p, s) && Near(p, e.id) && Enabled(p, s, e) && Actor(p, e) != me
    ensures SameFor(me, s, Apply(p, s, e))
  {
    hide Started, Injected, Landing, Received, Acked, SoundAction, Near, Shaped;
    match e {
      case EStart(id) => StartSame(p, s, id, me);
      case EReceive(id) => ReceiveSets(p, s, id);
      case EAck(id) => AckSets(p, s, id);
      case _ => QuietSets(p, s, e);
    }
  }

  lemma StartSame(p: Program, s: State, b: Id, me: nat)
    requires Shaped(p, s) && Near(p, b) && b.rank != me
    ensures SameFor(me, s, Started(p, s, b))
  {
    if b.kind.Send? || b.kind.Recv? {
      CommSets(p, s, b);
    } else {
      LocalSets(p, s, b);
    }
  }

  /** Books that speak only of the rank's own actions. */
  lemma BooksStay(p: Program, me: nat, s: State, t: State, f: Fields)
    requires SameFor(me, s, t) && Knows(p, me, f) && (forall e | e in p.edges :: e.0.rank == e.1.rank)
    requires Pends(p, me, s, f, {}) && Initials(s, f, {}) && Actives(s, f, {}) && Done(s, f)
    ensures Pends(p, me, t, f, {}) && Initials(t, f, {}) && Actives(t, f, {}) && Done(t, f)
  {
    hide Count;
  }

  lemma EarlyMessageStays(p: Program, o: Outline, me: nat, s: State, e: Event, m: Msg)
    requires Control(p, o, s) && Shaped(p, s) && Near(p, e.id) && Enabled(p, s, e) && Actor(p, e) != me
    requires EarlyOk(p, me, s, m)
    ensures EarlyOk(p, me, Apply(p, s, e), m)
  {
    hide Control, Near, Apply, SoundAction;
    FlowOf(p, o, s, m.id);
    CountsStay(p, s, e, m.id);
    if m.kind.Eager? {
      EarlyDataStays(p, o, s, e, m.id);
    }
  }

  /** Data that has been injected does not change any more. */
  lemma EarlyDataStays(p: Program, o: Outline, s: State, e: Event, id: Id)
    requires Control(p, o, s) && Shaped(p, s) && Near(p, e.id) && Enabled(p, s, e) && IsTransfer(p, id)
    requires s.payloads[id] > 0
    ensures Data(p, Apply(p, s, e), id) == Data(p, s, id)
  {
    hide Control, SoundAction, Near, Apply, Shaped;
    FlowOf(p, o, s, id);
    assert e != EInject(id);
    WireKeeps(p, s, e, id);
  }

  lemma WireKeeps(p: Program, s: State, e: Event, id: Id)
    requires Shaped(p, s) && Near(p, e.id) && Enabled(p, s, e) && e != EInject(id)
    ensures var t := Apply(p, s, e); (id in t.wire <==> id in s.wire) && (id in s.wire ==> t.wire[id] == s.wire[id])
  {
    hide SoundAction, Taken, Data, Stored, Combine, Copied;
  }

  lemma EarliesStay(p: Program, o: Outline, me: nat, s: State, e: Event, f: Fields)
    requires Control(p, o, s) && Shaped(p, s) && Near(p, e.id) && Enabled(p, s, e) && Actor(p, e) != me
    requires Earlies(p, me, s, f, {})
    ensures Earlies(p, me, Apply(p, s, e), f, {})
  {
    hide Control, EarlyOk, Apply, Enabled, Near, Actor;
    OthersEventSame(p, me, s, e);
    forall m | m in f.early ensures EarlyOk(p, me, Apply(p, s, e), m) && Key(m).rank == me {
      EarlyMessageStays(p, o, me, s, e, m);
      KeyIsMine(p, me, s, m);
    }
  }

  lemma KeyIsMine(p: Program, me: nat, s: State, m: Msg)
    requires EarlyOk(p, me, s, m)
    ensures Key(m).rank == me
  {
  }

  /** What has been sent stays exactly what the protocol calls for. */
  lemma SentStays(p: Program, o: Outline, me: nat, s: State, e: Event, f: Fields, id: Id)
    requires Control(p, o, s) && Shaped(p, s) && Near(p, e.id) && Enabled(p, s, e) && Actor(p, e) != me
    requires IsTransfer(p, id) && SentOk(p, me, s, f, id)
    ensures SentOk(p, me, Apply(p, s, e), f, id)
  {
    hide Control, Near, SoundAction, Started, Injected, Landing, Received, Acked;
    FlowOf(p, o, s, id);
    PairedProto(p, id);
    OthersEventSame(p, me, s, e);
    if e.EStart? {
      SentStaysAtStart(p, me, s, e.id, f, id);
    } else {
      HeadersKeep(p, s, e, id);
      StartedKeep(p, s, e);
    }
  }

  lemma SentStaysAtStart(p: Program, me: nat, s: State, b: Id, f: Fields, id: Id)
    requires Shaped(p, s) && Near(p, b) && Ready(p, s, b) && b.rank != me
    requires IsTransfer(p, id) && Near(p, id) && SentOk(p, me, s, f, id)
    ensures SentOk(p, me, Started(p, s, b), f, id)
  {
    hide Near, Started, SoundAction;
    PairedProto(p, id);
    if b.kind.Send? || b.kind.Recv? {
      CommSets(p, s, b);
      if b == id || b == Mate(id) {
        OwnHeaders(p, s, b, id);
      } else {
        OtherHeaders(p, s, b, id);
      }
    } else {
      LocalSets(p, s, b);
    }
  }

  /** One event of another rank or of the network. */
  lemma EventKeepsAgreement(p: Program, o: Outline, me: nat, s: State, e: Event, f: Fields)
    requires me < |s.mem| && Agrees(p, o, me, s, f, s.mem[me], {}, {}, {})
    requires Shaped(p, s) && Near(p, e.id) && Enabled(p, s, e) && Actor(p, e) != me
    ensures var t := Apply(p, s, e); me < |t.mem| && Agrees(p, o, me, t, f, t.mem[me], {}, {}, {})
  {
    hide Control, Apply, Enabled, Actor, Earlies, SentOk, Pends, Initials, Actives, Done, Joins, Knows, Near, SameFor;
    var t := Apply(p, s, e);
    ControlKept(p, o, s, e);
    Progressed(p, o, s);
    Progressed(p, o, t);
    SoundEdges(p);
    OthersEventSame(p, me, s, e);
    BooksStay(p, me, s, t, f);
    EarliesStay(p, o, me, s, e, f);
    forall id | IsTransfer(p, id) ensures SentOk(p, me, t, f, id) {
      SentStays(p, o, me, s, e, f, id);
    }
  }

  lemma {:induction false} RunKeepsAgreement(p: Program, o: Outline, me: nat, r: nat, s: State, es: seq<Event>,
                                             f: Fields)
    requires me < |s.mem| && Agrees(p, o, me, s, f, s.mem[me], {}, {}, {}) && r != me
    requires Sound(p) && Shaped(p, s) && IsRun(p, s, es) && By(p, r, es)
    ensures var t := Run(p, s, es); me < |t.mem| && Agrees(p, o, me, t, f, t.mem[me], {}, {}, {})
    ensures Served(p, me, Run(p, s, es)) == Served(p, me, s)
    decreases |es|
  {
    hide Agrees, Apply, Actor, Enabled, Served;
    if es != [] {
      EventNear(p, s, es[0]);
      EventKeepsAgreement(p, o, me, s, es[0], f);
      AgreesControl(p, o, me, s, f);
      EventServes(p, o, s, es[0], me);
      RunKeepsAgreement(p, o, me, r, Apply(p, s, es[0]), es[1..], f);
    }
  }

  /**
   * What another rank's executor, or the network (rank `n`), does leaves this
   * rank's books right and hands it nothing.
   */
  lemma Undisturbed(p: Program, o: Outline, me: nat, r: nat, s: State, t: State, f: Fields)
    requires me < |s.mem| && Agrees(p, o, me, s, f, s.mem[me], {}, {}, {}) && r != me && Reaches(p, r, s, t)
    ensures me < |t.mem| && Agrees(p, o, me, t, f, t.mem[me], {}, {}, {})
    ensures Handed(p, me, t, f.early) == Handed(p, me, s, f.early)
  {
    var es :| IsRun(p, s, es) && By(p, r, es) && Run(p, s, es) == t;
    hide Agrees, Served;
    RunKeepsAgreement(p, o, me, r, s, es, f);
  }

  // ---------------------------------------------------------------- all executors together

  /**
   * A call into rank `r`'s executor takes it from `fs[r]` to `g` by a run of
   * its own events, as its methods ensure; then all executors still agree.
   */
  lemma CallKeepsTogether(p: Program, o: Outline, s: State, t: State, fs: seq<Fields>, r: nat, g: Fields)
    requires Together(p, o, s, fs) && r < p.n && Reaches(p, r, s, t)
    requires r < |t.mem| && Agrees(p, o, r, t, g, t.mem[r], {}, {}, {})
    ensures Together(p, o, t, fs[r := g])
  {
    hide Agrees, Reaches;
    AgreesControl(p, o, r, t, g);
    forall q | 0 <= q < p.n ensures Agrees(p, o, q, t, fs[r := g][q], t.mem[q], {}, {}, {}) {
      if q != r {
        Undisturbed(p, o, q, r, s, t, fs[q]);
      }
    }
  }

  lemma AgreesControl(p: Program, o: Outline, r: nat, t: State, g: Fields)
    requires r < |t.mem| && Agrees(p, o, r, t, g, t.mem[r], {}, {}, {})
    ensures Control(p, o, t) && |t.mem| == p.n
  {
    hide Control;
  }

  /** So does everything the network does. */
  lemma NetworkKeepsTogether(p: Program, o: Outline, s: State, t: State, fs: seq<Fields>)
    requires Together(p, o, s, fs) && Reaches(p, p.n, s, t)
    ensures Together(p, o, t, fs)
  {
    hide Agrees;
    var es :| IsRun(p, s, es) && By(p, p.n, es) && Run(p, s, es) == t;
    RunKeepsControl(p, o, s, es);
    assert Reaches(p, p.n, s, t);
    hide Control, Reaches, IsRun, Run;
    forall q | 0 <= q < p.n ensures q < |t.mem| && Agrees(p, o, q, t, fs[q], t.mem[q], {}, {}, {}) {
      Undisturbed(p, o, q, p.n, s, t, fs[q]);
    }
  }
}
