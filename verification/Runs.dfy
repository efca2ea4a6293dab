/**
 * Theorems about whole runs: for any sound program that can be timed, safety in
 * every reachable state, termination and freedom from deadlock; with a valid
 * outline also freedom from races and the memory each rank is left with.
 */
module Runs {
  import opened Actions
  import opened Fabric
  import opened Outlines
  import opened Invariants
  import opened Preservation
  import opened Agreement

  lemma {:induction false} RunKeepsControl(p: Program, o: Outline, s: State, es: seq<Event>)
    requires Control(p, o, s) && Shaped(p, s) && IsRun(p, s, es)
    ensures Control(p, o, Run(p, s, es))
    decreases |es|
  {
    hide Control, Apply;
    if es != [] {
      ControlKept(p, o, s, es[0]);
      RunKeepsControl(p, o, Apply(p, s, es[0]), es[1..]);
    }
  }

  lemma {:induction false} RunKeepsInv(p: Program, o: Outline, s: State, es: seq<Event>)
    requires Inv(p, o, s) && Sound(p) && Shaped(p, s) && IsRun(p, s, es)
    ensures Inv(p, o, Run(p, s, es))
    decreases |es|
  {
    hide Inv, Apply;
    if es != [] {
      InvKept(p, o, s, es[0]);
      RunKeepsInv(p, o, Apply(p, s, es[0]), es[1..]);
    }
  }

  /** Whose doing an event is: a rank's executor, or (as rank `n`) the network. */
  function Actor(p: Program, e: Event): nat {
    match e
    case EStart(id) => id.rank
    case EHeader(id) => if id in p.acts && Proto(p, id).Put? then id.rank else id.partner
    case EInject(_) => p.n
    case ELand(_) => p.n
    case EReceive(id) => id.partner
    case EAck(id) => id.rank
  }

  ghost predicate By(p: Program, r: nat, es: seq<Event>) {
    forall e | e in es :: Actor(p, e) == r
  }

  /** `t` is the outcome of some run from `s` that is all rank `r`'s doing. */
  ghost predicate Reaches(p: Program, r: nat, s: State, t: State) {
    Sound(p) && Shaped(p, s) && exists es :: IsRun(p, s, es) && By(p, r, es) && Run(p, s, es) == t
  }

  lemma ReachesItself(p: Program, r: nat, s: State)
    requires Sound(p) && Shaped(p, s)
    ensures Reaches(p, r, s, s)
  {
    assert IsRun(p, s, []) && By(p, r, []) && Run(p, s, []) == s;
  }

  lemma ReachesByEvent(p: Program, s: State, e: Event)
    requires Sound(p) && Shaped(p, s) && Enabled(p, s, e) && Near(p, e.id)
    ensures Reaches(p, Actor(p, e), s, Apply(p, s, e))
  {
    hide Apply, Enabled, Shaped, Actor;
    assert [e][1..] == [];
    assert IsRun(p, Apply(p, s, e), []);
    assert IsRun(p, s, [e]) && By(p, Actor(p, e), [e]) && Run(p, s, [e]) == Apply(p, s, e);
  }

  lemma EventNear(p: Program, s: State, e: Event)
    requires Sound(p) && Enabled(p, s, e)
    ensures Near(p, e.id)
  {
    assert SoundAction(p, e.id);
  }

  lemma {:induction false} RunsCompose(p: Program, s: State, es: seq<Event>, fs: seq<Event>)
    requires Sound(p) && Shaped(p, s) && IsRun(p, s, es) && IsRun(p, Run(p, s, es), fs)
    ensures IsRun(p, s, es + fs) && Run(p, s, es + fs) == Run(p, Run(p, s, es), fs)
    decreases |es|
  {
    hide Apply, Enabled, Shaped, Sound, Near;
    if es == [] {
      assert es + fs == fs;
    } else {
      assert (es + fs)[0] == es[0];
      EventNear(p, s, es[0]);
      RunsCompose(p, Apply(p, s, es[0]), es[1..], fs);
      assert (es + fs)[1..] == es[1..] + fs;
    }
  }

  lemma ReachesOn(p: Program, r: nat, s: State, t: State, u: State)
    requires Reaches(p, r, s, t) && Reaches(p, r, t, u)
    ensures Reaches(p, r, s, u)
  {
    var es :| IsRun(p, s, es) && By(p, r, es) && Run(p, s, es) == t;
    var fs :| IsRun(p, t, fs) && By(p, r, fs) && Run(p, t, fs) == u;
    hide IsRun, Run;
    RunsCompose(p, s, es, fs);
    assert By(p, r, es + fs);
  }

  // ---------------------------------------------------------------- termination

  /** What is left to do, in events. */
  ghost function Work(p: Program, s: State): nat {
    6 * |p.acts.Keys - s.started| + 5 * |s.headers| + 4 * |s.posted| + 2 * |s.payloads| + |s.landed| + |s.acks|
  }

  lemma LeavesOne(all: set<Id>, started: set<Id>, id: Id)
    requires id in all && id !in started
    ensures |all - (started + {id})| == |all - started| - 1
  {
    assert all - (started + {id}) == (all - started) - {id};
  }

  /** At most one message is sent at a start. */
  lemma StartSends(p: Program, s: State, id: Id)
    requires Shaped(p, s) && Near(p, id)
    ensures var t := Started(p, s, id);
            && t.started == s.started + {id} && t.payloads == s.payloads && t.landed == s.landed && t.acks == s.acks
            && 5 * |t.headers| + 4 * |t.posted| <= 5 * |s.headers| + 4 * |s.posted| + 5
  {
    hide SoundAction, Copied, Near, Shaped;
  }

  lemma StartWorks(p: Program, s: State, id: Id)
    requires Shaped(p, s) && Near(p, id) && Ready(p, s, id)
    ensures Work(p, Started(p, s, id)) < Work(p, s)
  {
    hide Started, Near, Shaped;
    LeavesOne(p.acts.Keys, s.started, id);
    StartSends(p, s, id);
  }

  lemma TransferWorks(p: Program, s: State, e: Event)
    requires Shaped(p, s) && Near(p, e.id) && Enabled(p, s, e) && !Apply(p, s, e).failed
    requires e.EHeader? || e.EInject? || e.ELand?
    ensures Work(p, Apply(p, s, e)) < Work(p, s)
  {
    hide SoundAction;
  }

  lemma ReceiveWorks(p: Program, s: State, id: Id)
    requires Shaped(p, s) && Near(p, id) && Enabled(p, s, EReceive(id)) && !Received(p, s, id).failed
    ensures Work(p, Received(p, s, id)) < Work(p, s)
  {
    hide Received, Near, Shaped;
    ReceiveTakesOne(p, s, id);
  }

  lemma ReceiveTakesOne(p: Program, s: State, id: Id)
    requires Shaped(p, s) && Near(p, id) && Enabled(p, s, EReceive(id)) && !Received(p, s, id).failed
    ensures var t := Received(p, s, id);
            && t.started == s.started && t.headers == s.headers && t.posted == s.posted && t.acks == s.acks
            && |t.payloads| + |t.landed| + 1 == |s.payloads| + |s.landed| && |t.landed| <= |s.landed|
            && |t.payloads| <= |s.payloads|
  {
    hide SoundAction, Taken, Data, Near, Shaped;
  }

  lemma AckWorks(p: Program, s: State, id: Id)
    requires Enabled(p, s, EAck(id)) && !Acked(p, s, id).failed
    ensures Work(p, Acked(p, s, id)) < Work(p, s)
  {
  }

  /** Every event that is not an abort leaves strictly less to do. */
  lemma StepWorks(p: Program, s: State, e: Event)
    requires Shaped(p, s) && Near(p, e.id) && Enabled(p, s, e) && !Apply(p, s, e).failed
    ensures Work(p, Apply(p, s, e)) < Work(p, s)
  {
    hide Work, Near, Shaped;
    match e {
      case EStart(id) => StartWorks(p, s, id);
      case EHeader(_) | EInject(_) | ELand(_) => TransferWorks(p, s, e);
      case EReceive(id) => ReceiveWorks(p, s, id);
      case EAck(id) => AckWorks(p, s, id);
    }
  }

  lemma {:induction false} RunBounded(p: Program, o: Outline, s: State, es: seq<Event>)
    requires Control(p, o, s) && Shaped(p, s) && IsRun(p, s, es)
    ensures |es| + Work(p, Run(p, s, es)) <= Work(p, s)
    decreases |es|
  {
    hide Control, Apply, Work;
    if es != [] {
      ControlKept(p, o, s, es[0]);
      NeverFails(p, o, Apply(p, s, es[0]));
      StepWorks(p, s, es[0]);
      RunBounded(p, o, Apply(p, s, es[0]), es[1..]);
    }
  }

  lemma NeverFails(p: Program, o: Outline, s: State)
    requires Control(p, o, s)
    ensures !s.failed
  {
  }

  // ---------------------------------------------------------------- progress

  /** A non-empty set of actions has an earliest member. */
  lemma {:induction false} Earliest(o: Outline, ids: set<Id>) returns (first: Id)
    requires ids != {}
    ensures first in ids && forall id | id in ids :: o.when(first) <= o.when(id)
    decreases ids
  {
    first :| first in ids;
    if ids != {first} {
      var other := Earliest(o, ids - {first});
      if o.when(other) < o.when(first) {
        first := other;
      }
    }
  }

  /** If both ends of a transfer have started and one is unfinished, some event of it can happen. */
  lemma TransferMoves(p: Program, s: State, id: Id) returns (e: Event)
    requires Near(p, id) && IsTransfer(p, id) && Flow(p, s, id) && s.cleared <= s.started
    requires id in s.started && Mate(id) in s.started
    requires !(id in s.cleared && Mate(id) in s.cleared)
    ensures Enabled(p, s, e)
  {
    if s.headers[id] > 0 {
      e := EHeader(id);
    } else if s.posted[id] > 0 {
      e := EInject(id);
    } else if s.acks[id] > 0 {
      e := EAck(id);
    } else if s.landed[id] > 0 || Proto(p, id).Eager? {
      e := EReceive(id);
    } else {
      e := ELand(id);
    }
  }

  /** An action all of whose earlier actions are done is done, started, or able to start. */
  lemma StartedOrReady(p: Program, o: Outline, s: State, id: Id, now: nat)
    requires Sound(p) && Timed(p, o) && id in p.acts && o.when(id) <= now
    requires forall c | c in p.acts && c !in s.cleared :: now <= o.when(c)
    ensures id in s.started || Ready(p, s, id)
  {
    forall c | (c, id) in p.edges ensures c in s.cleared {
      assert c in p.acts && o.when(c) < o.when(id);
    }
  }

  /** Freedom from deadlock: while any action of any rank is unfinished, some event is enabled. */
  lemma SomethingEnabled(p: Program, o: Outline, s: State) returns (e: Event)
    requires Control(p, o, s)
    requires exists id :: id in p.acts && id !in s.cleared
    ensures Enabled(p, s, e)
  {
    var left := p.acts.Keys - s.cleared;
    var id :| id in p.acts && id !in s.cleared;
    assert id in left;
    var first := Earliest(o, left);
    SoundNear(p, first);
    StartedOrReady(p, o, s, first, o.when(first));
    if first !in s.started {
      e := EStart(first);
    } else {
      var mate := Mate(first);
      assert Mate(mate) == first;
      StartedOrReady(p, o, s, mate, o.when(first));
      if mate !in s.started {
        e := EStart(mate);
      } else {
        var send := if first.kind.Send? then first else mate;
        SoundNear(p, send);
        e := TransferMoves(p, s, send);
      }
    }
  }

  // ---------------------------------------------------------------- results

  /** All of rank `r`'s actions are done. */
  ghost predicate RankDone(p: Program, s: State, r: nat) {
    forall id | id in p.acts && id.rank == r :: id in s.cleared
  }

  ghost predicate AllDone(p: Program, s: State) {
    forall id | id in p.acts :: id in s.cleared
  }

  /** Once a rank is done, whatever the others do, its memory is what the outline predicts for the end. */
  lemma DoneMemory(p: Program, o: Outline, s: State, r: nat, x: nat, end: nat)
    requires Inv(p, o, s) && Shaped(p, s) && r < p.n && x < p.size && RankDone(p, s, r)
    requires forall id | id in p.acts :: o.when(id) < end
    ensures o.val(end, r, x).Some? ==> s.mem[r][x] == o.val(end, r, x).value
  {
    hide Valid, Basic, Flows, Wires;
    forall w | w in p.acts && w.rank == r && Updates(p, w, x) ensures w in s.written <==> o.when(w) < end {
      assert Mark(p, s, w);
    }
    assert UpTo(p, o, s, r, x, end);
  }

  /** In a reachable state, no two unfinished actions of a rank touch the same element with a write. */
  ghost predicate NoRace(p: Program, s: State) {
    forall a, b, x | a in p.acts && b in p.acts && a != b && a.rank == b.rank && Active(s, a) && Active(s, b) ::
      !Clash(p, a, b, x)
  }

  lemma InvNoRace(p: Program, o: Outline, s: State)
    requires Inv(p, o, s)
    ensures NoRace(p, s)
  {
    hide Flows, Marks, Wires, Cells, Explained, Basic;
    forall a, b, x | a in p.acts && b in p.acts && a != b && a.rank == b.rank && Active(s, a) && Active(s, b)
      ensures !Clash(p, a, b, x)
    {
      ActiveDisjoint(p, o, s, a, b, x);
    }
  }

  /** `es` is a possible course of events from memory `mem`. */
  ghost predicate Execution(p: Program, mem: seq<seq<Val>>, es: seq<Event>) {
    Sound(p) && Shaped(p, Initial(mem)) && IsRun(p, Initial(mem), es)
  }

  ghost function Outcome(p: Program, mem: seq<seq<Val>>, es: seq<Event>): (t: State)
    requires Execution(p, mem, es)
    ensures Shaped(p, t)
  {
    Run(p, Initial(mem), es)
  }

  /**
   * The runtime has not aborted, the run has at most six events per action, and
   * if nothing more can happen every action of every rank is done.
   */
  ghost predicate Progresses(p: Program, mem: seq<seq<Val>>, es: seq<Event>)
    requires Execution(p, mem, es)
  {
    var t := Outcome(p, mem, es);
    && !t.failed
    && |es| <= 6 * |p.acts|
    && (Stuck(p, t) ==> AllDone(p, t))
  }

  /** And no two unfinished actions of a rank race on a buffer. */
  ghost predicate Healthy(p: Program, mem: seq<seq<Val>>, es: seq<Event>)
    requires Execution(p, mem, es)
  {
    Progresses(p, mem, es) && NoRace(p, Outcome(p, mem, es))
  }

  /**
   * Control alone: any sound program whose dependencies and transfers can be
   * timed runs without abort or deadlock and ends, on any memory.
   */
  lemma EveryRunProgresses(p: Program, o: Outline, mem: seq<seq<Val>>, es: seq<Event>)
    requires Timed(p, o) && Execution(p, mem, es)
    ensures Progresses(p, mem, es)
    ensures Control(p, o, Outcome(p, mem, es))
  {
    hide Control, Run, IsRun, Timed, Sound, Shaped;
    var s := Initial(mem);
    ControlInitial(p, o, mem);
    RunKeepsControl(p, o, s, es);
    var t := Run(p, s, es);
    NeverFails(p, o, t);
    RunBounded(p, o, s, es);
    assert p.acts.Keys - s.started == p.acts.Keys;
    assert |p.acts.Keys| == |p.acts|;
    if Stuck(p, t) && !AllDone(p, t) {
      var e := SomethingEnabled(p, o, t);
      assert false;
    }
  }

  /** The fabric theorem: every run of a program with a valid outline is healthy. */
  lemma EveryRun(p: Program, o: Outline, mem: seq<seq<Val>>, es: seq<Event>)
    requires Valid(p, o) && Begins(p, o, mem) && Execution(p, mem, es)
    ensures Healthy(p, mem, es)
    ensures Inv(p, o, Outcome(p, mem, es))
  {
    hide Inv, Control, Run, IsRun, NoRace, Shaped, Timed, Progresses, Backed, RaceFree, Explained, Sound;
    EveryRunProgresses(p, o, mem, es);
    InvInitial(p, o, mem);
    RunKeepsInv(p, o, Initial(mem), es);
    InvNoRace(p, o, Outcome(p, mem, es));
  }

  /** In every run, a rank whose actions are done holds what the outline predicts for the end. */
  lemma FinalMemory(p: Program, o: Outline, mem: seq<seq<Val>>, es: seq<Event>, r: nat, x: nat, end: nat)
    requires Valid(p, o) && Begins(p, o, mem) && Execution(p, mem, es)
    requires r < p.n && x < p.size && RankDone(p, Outcome(p, mem, es), r)
    requires forall id | id in p.acts :: o.when(id) < end
    ensures o.val(end, r, x).Some? ==> Outcome(p, mem, es).mem[r][x] == o.val(end, r, x).value
  {
    hide Inv, Run, IsRun, Valid, Begins, RankDone, Outcome, Execution;
    EveryRun(p, o, mem, es);
    DoneMemory(p, o, Outcome(p, mem, es), r, x, end);
  }

  lemma ValidIsTimed(p: Program, o: Outline, mem: seq<seq<Val>>)
    requires Valid(p, o) && Begins(p, o, mem)
    ensures Sound(p) && Timed(p, o) && Shaped(p, Initial(mem))
  {
    hide Sound, Timed, Backed, RaceFree, Explained;
  }

  /** Whatever has happened so far, some continuation finishes every action of every rank. */
  lemma {:induction false} Completable(p: Program, o: Outline, s: State) returns (es: seq<Event>)
    requires Control(p, o, s) && Sound(p) && Shaped(p, s)
    ensures IsRun(p, s, es) && AllDone(p, Run(p, s, es))
    decreases Work(p, s)
  {
    hide Control, Apply, Work, Enabled, Shaped, Sound;
    if AllDone(p, s) {
      es := [];
    } else {
      var e := SomethingEnabled(p, o, s);
      EventNear(p, s, e);
      ControlKept(p, o, s, e);
      NeverFails(p, o, Apply(p, s, e));
      StepWorks(p, s, e);
      var rest := Completable(p, o, Apply(p, s, e));
      es := [e] + rest;
      assert es[0] == e && es[1..] == rest;
    }
  }

  /** Every program that can be timed has a run that completes, from any memory. */
  lemma SomeRunCompletes(p: Program, o: Outline, mem: seq<seq<Val>>) returns (es: seq<Event>)
    requires Sound(p) && Timed(p, o) && Shaped(p, Initial(mem))
    ensures Execution(p, mem, es) && AllDone(p, Outcome(p, mem, es))
  {
    hide Control, Run, IsRun, AllDone;
    ControlInitial(p, o, mem);
    es := Completable(p, o, Initial(mem));
  }
}
