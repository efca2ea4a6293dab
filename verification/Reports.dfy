/**
 * The engine's done messages against the executor: a collective is reported
 * exactly when the rank has started it and all of the rank's actions are done,
 * at whatever moment its messages arrive and however early.
 */
module Reports {
  import opened Actions
  import opened Fabric
  import opened Outlines
  import opened Invariants
  import opened Runs
  import opened ActorState
  import opened ActorSteps
  import opened Handover
  import Engine

  /** The fabric, one rank's executor and its buffer between two calls into the executor. */
  datatype Moment = Moment(s: State, f: Fields, buf: seq<Val>)

  ghost predicate Between(p: Program, o: Outline, me: nat, a: Moment) {
    Agrees(p, o, me, a.s, a.f, a.buf, {}, {}, {}) && a.f.initial == {}
  }

  ghost function HandedBy(p: Program, me: nat, a: Moment): set<Delivery> {
    Handed(p, me, a.s, a.f.early)
  }

  /** A message is handed over between two moments; what others do meanwhile hands over nothing. */
  ghost predicate Takes(p: Program, me: nat, a: Moment, b: Moment) {
    |HandedBy(p, me, b)| == |HandedBy(p, me, a)| + 1
  }

  /**
   * `rule` is the completion of the executor that goes through these moments:
   * the first after its start, each further one after the next of `ms`.
   */
  ghost predicate Serves(p: Program, o: Outline, me: nat, at: seq<Moment>,
                         rule: Engine.Rule, k: Engine.Key, ms: seq<Engine.Work>)
  {
    && |at| == |ms| + 1
    && (forall i | 0 <= i < |at| :: Between(p, o, me, at[i]))
    && HandedBy(p, me, at[0]) == {}
    && (forall i | 0 < i < |at| :: Takes(p, me, at[i - 1], at[i]))
    && (forall i | 0 <= i < |at| :: rule(k, ms[..i]) <==> at[i].f.complete)
  }

  lemma {:induction false} CountsMessages(p: Program, o: Outline, me: nat, at: seq<Moment>,
                                          rule: Engine.Rule, k: Engine.Key, ms: seq<Engine.Work>, i: nat)
    requires Serves(p, o, me, at, rule, k, ms) && i < |at|
    ensures |HandedBy(p, me, at[i])| == i
  {
    hide Between, HandedBy;
    if i > 0 {
      CountsMessages(p, o, me, at, rule, k, ms, i - 1);
      assert Takes(p, me, at[i - 1], at[i]);
    }
  }

  /** The executor completes with the last message due to it. */
  lemma RuleIs(p: Program, o: Outline, me: nat, at: seq<Moment>,
               rule: Engine.Rule, k: Engine.Key, ms: seq<Engine.Work>, i: nat)
    requires Serves(p, o, me, at, rule, k, ms) && i < |at|
    ensures i <= |Due(p, me)| && (rule(k, ms[..i]) <==> i == |Due(p, me)|)
  {
    hide Agrees, Handed, Due;
    CountsMessages(p, o, me, at, rule, k, ms, i);
    assert Between(p, o, me, at[i]);
    CompleteIffHanded(p, o, me, at[i].s, at[i].f, at[i].buf);
    SubsetSize(HandedBy(p, me, at[i]), Due(p, me));
  }

  lemma {:induction false} RipeIff(p: Program, o: Outline, me: nat, at: seq<Moment>,
                                   rule: Engine.Rule, k: Engine.Key, ms: seq<Engine.Work>, i: nat)
    requires Serves(p, o, me, at, rule, k, ms) && i < |at|
    ensures Engine.Ripe(rule, k, ms[..i]) <==> i == |Due(p, me)|
  {
    hide Serves, Due;
    ServesLength(p, o, me, at, rule, k, ms);
    RuleIs(p, o, me, at, rule, k, ms, i);
    if i > 0 {
      RipeIff(p, o, me, at, rule, k, ms, i - 1);
      assert ms[..i][..i - 1] == ms[..i - 1];
    }
  }

  lemma ServesLength(p: Program, o: Outline, me: nat, at: seq<Moment>,
                     rule: Engine.Rule, k: Engine.Key, ms: seq<Engine.Work>)
    requires Serves(p, o, me, at, rule, k, ms)
    ensures |at| == |ms| + 1
  {
  }

  /**
   * `es` is what happens at rank `me`, and its executor goes through the
   * moments `at` on the messages that have arrived.
   */
  lemma DoneWhenComplete(p: Program, o: Outline, me: nat, at: seq<Moment>,
                         rule: Engine.Rule, es: seq<Engine.Event>, k: Engine.Key)
    requires Serves(p, o, me, at, rule, k, Engine.ArrivedOf(es, k)) && Due(p, me) != {}
    requires Engine.EStart(k) in es
    ensures Engine.Dones(rule, es, k) == if RankDone(p, at[|at| - 1].s, me) then 1 else 0
    ensures Engine.Dones(rule, es, k) == if |Engine.ArrivedOf(es, k)| == |Due(p, me)| then 1 else 0
  {
    hide Due, Between, HandedBy, RankDone;
    var ms := Engine.ArrivedOf(es, k);
    var n := |ms|;
    assert ms[..n] == ms && ms[..0] == [];
    RuleIs(p, o, me, at, rule, k, ms, 0);
    RuleIs(p, o, me, at, rule, k, ms, n);
    RipeIff(p, o, me, at, rule, k, ms, n);
    assert Between(p, o, me, at[n]);
    CompleteIsDone(p, o, me, at[n]);
  }

  lemma CompleteIsDone(p: Program, o: Outline, me: nat, a: Moment)
    requires Between(p, o, me, a)
    ensures a.f.complete <==> RankDone(p, a.s, me)
  {
    hide Control, Pends, Joins, Initials, Actives, Earlies, Sents;
  }
}
