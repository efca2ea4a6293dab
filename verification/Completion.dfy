/**
 * Executors and the fabric together: a freshly built DAG agrees with the
 * fabric before its rank has started, and when every rank's executor is quiet
 * the whole collective is complete.
 */
module Completion {
  import opened Actions
  import opened Fabric
  import opened Outlines
  import opened Invariants
  import opened Runs
  import opened ActorState
  import opened ActorSteps
  import opened Handover

  // ---------------------------------------------------------------- before the start

  /** Rank `me` has not started anything; the others may be well under way. */
  ghost predicate NotBegun(s: State, me: nat) {
    forall id | id in s.started :: id.rank != me
  }

  lemma BeforeStartSentOk(p: Program, o: Outline, me: nat, s: State, f: Fields, id: Id)
    requires Control(p, o, s) && NotBegun(s, me) && IsTransfer(p, id) && f.sent == multiset{}
    ensures SentOk(p, me, s, f, id)
  {
    FlowOf(p, o, s, id);
    Progressed(p, o, s);
    hide Control, Sound;
  }

  lemma BuiltParts(p: Program, me: nat, s: State, f: Fields)
    requires NotBegun(s, me) && Built(f) && f.acts != map[] && Knows(p, me, f) && s.cleared <= s.started
    requires forall e :: e in f.pending <==> e in p.edges && e.1.rank == me
    requires forall e | e in p.edges :: e.0.rank == e.1.rank
    ensures Pends(p, me, s, f, {}) && Joins(f) && Initials(s, f, {}) && Actives(s, f, {}) && Done(s, f)
  {
    hide Count;
    var b :| b in f.acts;
    assert b !in s.cleared;
  }

  /** A DAG built by addDependency is ready to run at any point of the collective. */
  lemma BuiltAgrees(p: Program, o: Outline, me: nat, s: State, f: Fields, buf: seq<Val>)
    requires Control(p, o, s) && me < p.n && |s.mem| == p.n && s.mem[me] == buf && NotBegun(s, me)
    requires Built(f) && f.acts != map[] && Knows(p, me, f)
    requires forall e :: e in f.pending <==> e in p.edges && e.1.rank == me
    ensures Agrees(p, o, me, s, f, buf, {}, {}, {})
  {
    hide Control, SentOk, Pends, Joins, Initials, Actives, Done, Knows, NotBegun, Sound;
    Progressed(p, o, s);
    SoundEdges(p);
    BuiltParts(p, me, s, f);
    forall id | IsTransfer(p, id) ensures SentOk(p, me, s, f, id) {
      BeforeStartSentOk(p, o, me, s, f, id);
    }
  }

  /** A rank that has not begun has been handed nothing. */
  lemma NothingHanded(p: Program, o: Outline, me: nat, s: State)
    requires Control(p, o, s) && NotBegun(s, me)
    ensures Handed(p, me, s, []) == {}
  {
    hide Control, Due;
    forall d | d in Due(p, me) ensures !IsServed(p, s, d) {
      NotServedYet(p, o, me, s, d);
    }
    assert Slots([]) == {};
  }

  lemma NotServedYet(p: Program, o: Outline, me: nat, s: State, d: Delivery)
    requires Control(p, o, s) && NotBegun(s, me) && d in Due(p, me)
    ensures !IsServed(p, s, d)
  {
    hide Control, Near, SoundAction;
    FlowOf(p, o, s, d.id);
    PairedProto(p, d.id);
    Progressed(p, o, s);
  }

  // ---------------------------------------------------------------- quiet executors

  /** Every executor agrees with the fabric and is between calls. */
  ghost predicate Together(p: Program, o: Outline, s: State, fs: seq<Fields>) {
    && Control(p, o, s) && |fs| == p.n == |s.mem|
    && (forall r | 0 <= r < p.n :: Agrees(p, o, r, s, fs[r], s.mem[r], {}, {}, {}))
  }

  /** All executors agree with the fabric and every rank has started what it can. */
  ghost predicate AllAgree(p: Program, o: Outline, s: State, fs: seq<Fields>) {
    Together(p, o, s, fs) && forall r | 0 <= r < p.n :: fs[r].initial == {}
  }

  /** A header or eager payload of `id` that is still around is in its rank's queue. */
  ghost predicate Queued(p: Program, s: State, fs: seq<Fields>, id: Id)
    requires |fs| == p.n && IsTransfer(p, id)
  {
    && s.posted[id] == 0 && s.landed[id] == 0 && s.acks[id] == 0
    && (s.headers[id] > 0 || s.payloads[id] > 0 ==>
          var m := Msg(Proto(p, id), id, if Proto(p, id).Eager? then Data(p, s, id) else []);
          Key(m).rank < p.n && exists k | k in fs[Key(m).rank].early :: k.id == id)
  }

  /** Every message has been delivered to its rank's executor. */
  ghost predicate Delivered(p: Program, s: State, fs: seq<Fields>)
    requires |fs| == p.n
  {
    forall id | IsTransfer(p, id) :: Queued(p, s, fs, id)
  }

  /** A queued message waits for an action that is not active. */
  lemma QueuedWaits(p: Program, o: Outline, s: State, fs: seq<Fields>, id: Id)
    requires AllAgree(p, o, s, fs) && IsTransfer(p, id) && Queued(p, s, fs, id)
    requires s.headers[id] > 0 || s.payloads[id] > 0
    ensures !Active(s, if Proto(p, id).Put? then id else Mate(id))
    ensures Proto(p, id).Eager? || s.payloads[id] == 0
  {
    hide Control, Pends, Joins, Initials, Actives, Sents, Done;
    var r := (if Proto(p, id).Put? then id else Mate(id)).rank;
    var k :| k in fs[r].early && k.id == id;
    assert EarlyOk(p, r, s, k);
    FlowOf(p, o, s, id);
  }

  lemma ReadyMeansZero(p: Program, me: nat, s: State, f: Fields, id: Id)
    requires Pends(p, me, s, f, {}) && Ready(p, s, id)
    ensures Count(f.pending, id) == 0
  {
    CountZero(f.pending, id);
    forall e | e in f.pending ensures e.1 != id {
      assert (e.0, e.1) in p.edges;
    }
  }

  lemma NothingReady(p: Program, o: Outline, s: State, fs: seq<Fields>, id: Id)
    requires AllAgree(p, o, s, fs)
    ensures !Ready(p, s, id)
  {
    hide Control, Earlies, Actives, Sents, Done, Count, Pends, Ready;
    Progressed(p, o, s);
    if Ready(p, s, id) {
      ReadyMember(p, s, id);
      ReadyMeansZero(p, id.rank, s, fs[id.rank], id);
    }
  }

  lemma ReadyMember(p: Program, s: State, id: Id)
    requires Sound(p) && Ready(p, s, id)
    ensures id in p.acts && id !in s.started && id.rank < p.n
  {
    ValidRank(p, id);
  }

  lemma ValidRank(p: Program, id: Id)
    requires Sound(p) && id in p.acts
    ensures id.rank < p.n
  {
    assert SoundAction(p, id);
  }

  /** With everything delivered and every executor quiet, the fabric is stuck. */
  lemma QuietIsStuck(p: Program, o: Outline, s: State, fs: seq<Fields>)
    requires |fs| == p.n && AllAgree(p, o, s, fs) && Delivered(p, s, fs)
    ensures Stuck(p, s)
  {
    hide AllAgree, Ready;
    forall e ensures !Enabled(p, s, e) {
      if e.EStart? {
        NothingReady(p, o, s, fs, e.id);
      } else if IsTransfer(p, e.id) && (s.headers[e.id] > 0 || s.payloads[e.id] > 0) {
        assert Queued(p, s, fs, e.id);
        QueuedWaits(p, o, s, fs, e.id);
      } else if IsTransfer(p, e.id) {
        assert Queued(p, s, fs, e.id);
      }
    }
  }

  /**
   * Completion: once every rank has started, every message has been delivered
   * and every executor has returned from its last call, every action of every
   * rank is done and every executor has finalized and notified exactly once.
   */
  lemma QuietIsComplete(p: Program, o: Outline, s: State, fs: seq<Fields>)
    requires AllAgree(p, o, s, fs) && Delivered(p, s, fs)
    ensures AllDone(p, s)
    ensures forall r | 0 <= r < p.n :: fs[r].complete && fs[r].finalized == 1
  {
    QuietIsStuck(p, o, s, fs);
    hide Control, Stuck, Delivered, Earlies, Pends, Joins, Initials, Actives, Sents;
    if !AllDone(p, s) {
      var e := SomethingEnabled(p, o, s);
      StuckMeans(p, s, e);
    }
    forall r | 0 <= r < p.n ensures fs[r].complete && fs[r].finalized == 1 {
      assert Agrees(p, o, r, s, fs[r], s.mem[r], {}, {}, {});
    }
  }

  lemma StuckMeans(p: Program, s: State, e: Event)
    requires Stuck(p, s)
    ensures !Enabled(p, s, e)
  {
  }

  // ---------------------------------------------------------------- after completion

  /** Nothing that rank `r` would still have to take is in flight for transfer `id`. */
  ghost predicate Consumed(p: Program, s: State, id: Id, r: nat) {
    && (id.rank == r ==> s.headers[id] == 0 && s.posted[id] == 0 && s.acks[id] == 0)
    && (id.partner == r ==> s.headers[id] == 0 && s.payloads[id] == 0 && s.landed[id] == 0)
  }

  /**
   * A rank whose actions are done has taken every message meant for it: none
   * can arrive after its executor has reported completion.
   */
  lemma NoLateMessages(p: Program, o: Outline, s: State, r: nat)
    requires Control(p, o, s) && RankDone(p, s, r)
    ensures forall id | IsTransfer(p, id) :: Consumed(p, s, id, r)
  {
    hide Control, Sound;
    forall id | IsTransfer(p, id) ensures Consumed(p, s, id, r) {
      FlowOf(p, o, s, id);
      ReceiverIn(p, o, s, id);
    }
  }

  lemma ReceiverIn(p: Program, o: Outline, s: State, id: Id)
    requires Control(p, o, s) && IsTransfer(p, id)
    ensures Mate(id) in p.acts
  {
    assert SoundAction(p, id);
  }
}
